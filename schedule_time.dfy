/**
 * The time-of-day parser of the schedule service: a schedule's start time
 * (`"10:00 AM"`, `"2:30PM"`, `"14:30"`) is normalised, read as hour and
 * minute, and mapped to one of the eight periods of the college day.
 */
module ScheduleTime {
  import opened Wrappers
  import opened Text
  import PyInt

  /** The period start times as (hour, minute) on the 24-hour clock; periods 2 and 5 are breaks. */
  function PeriodClock(p: nat): (hm: (int, int))
    requires p < 8
  {
    [(9, 0), (10, 0), (11, 0), (11, 30), (12, 30), (13, 30), (14, 30), (15, 30)][p]
  }

  /** The period whose slot starts at hour:minute. */
  function PeriodOf(hour: int, minute: int): (r: Option<nat>)
    ensures r.Some? ==> r.value < 8 && PeriodClock(r.value) == (hour, minute)
  {
    if hour == 9 && minute == 0 then Some(0)
    else if hour == 10 && minute == 0 then Some(1)
    else if hour == 11 && minute == 0 then Some(2)
    else if hour == 11 && minute == 30 then Some(3)
    else if hour == 12 && minute == 30 then Some(4)
    else if hour == 13 && minute == 30 then Some(5)
    else if hour == 14 && minute == 30 then Some(6)
    else if hour == 15 && minute == 30 then Some(7)
    else None
  }

  /** No period starts in the midnight hour, so a time read as hour 0 has no period. */
  lemma NoPeriodAtMidnight(minute: int)
    ensures PeriodOf(0, minute) == None
  {
  }

  /** In hour 12 only half past starts a period, period 4. */
  lemma NoonPeriod(minute: int)
    ensures PeriodOf(12, minute) == if minute == 30 then Some(4) else None
  {
  }

  /** Exactly the eight slot start times map to a period, each to its own. */
  lemma PeriodOfIff(hour: int, minute: int, p: nat)
    requires p < 8
    ensures PeriodOf(hour, minute) == Some(p) <==> PeriodClock(p) == (hour, minute)
  {
  }

  /** Strip, upper-case, put a space before AM/PM, collapse a double space, strip again. */
  function Normalize(s: string): string {
    PyStrip(Spaced(Upper(PyStrip(s))))
  }

  /** `.replace('AM', ' AM').replace('PM', ' PM').replace('  ', ' ')` */
  function Spaced(t: string): string {
    Replace(Replace(Replace(t, "AM", " AM"), "PM", " PM"), "  ", " ")
  }

  /**
   * Hour and minute of a normalised time; `None` where `int()` would raise.
   * With AM/PM the marker is removed first; PM adds 12 unless the hour is
   * 12, and 12 AM is hour 0.  A missing minute part means 0.
   */
  function ClockOf(t: string): Option<(int, int)> {
    var am := Contains(t, "AM");
    var pm := Contains(t, "PM");
    ReadClock(Pieces(t, am || pm), am, pm)
  }

  /** The ':'-separated pieces: with a marker, the markers are deleted and the rest stripped first. */
  function Pieces(t: string, marked: bool): (r: seq<string>)
    ensures |r| >= 1
  {
    if marked then Split(PyStrip(Replace(Replace(t, "AM", ""), "PM", "")), ':') else Split(t, ':')
  }

  function ReadClock(parts: seq<string>, am: bool, pm: bool): Option<(int, int)>
    requires |parts| >= 1
  {
    var h := PyInt.Parse(parts[0]);
    var m := if |parts| > 1 then PyInt.Parse(parts[1]) else Some(0);
    if h.None? || m.None? then None
    else Some((TwelveHourClock(h.value, am, pm), m.value))
  }

  /** PM adds 12 unless the hour is 12; 12 AM is hour 0. */
  function TwelveHourClock(h: int, am: bool, pm: bool): int {
    if pm && h != 12 then h + 12 else if am && h == 12 then 0 else h
  }

  /** `_parse_time_to_period` */
  function ParseTimeToPeriod(s: string): (r: Option<nat>)
    ensures r.Some? ==> r.value < 8
  {
    PeriodOfClock(ClockOf(Normalize(s)))
  }

  function PeriodOfClock(hm: Option<(int, int)>): (r: Option<nat>)
    ensures r.Some? ==> r.value < 8
  {
    if hm.None? then None else PeriodOf(hm.value.0, hm.value.1)
  }

  /** The period of a string is read through its normal form and its clock. */
  lemma ParseTimeIs(s: string)
    ensures ParseTimeToPeriod(s) == PeriodOfClock(ClockOf(Normalize(s)))
  {
  }

  lemma PeriodOfClockSome(hour: int, minute: int)
    ensures PeriodOfClock(Some((hour, minute))) == PeriodOf(hour, minute)
  {
  }

  /** A normal string's clock is read from its pieces. */
  lemma ClockOfNormal(t: string)
    requires Normalize(t) == t
    ensures ClockOf(Normalize(t)) ==
      ReadClock(Pieces(t, Contains(t, "AM") || Contains(t, "PM")), Contains(t, "AM"), Contains(t, "PM"))
  {
  }

  // ------------------------------------------------------------ string facts

  lemma {:induction false} ReplaceSkip(a: string, b: string, pat: string, rep: string)
    requires pat != [] && pat[0] !in a
    ensures Replace(a + b, pat, rep) == a + Replace(b, pat, rep)
    decreases |a|
  {
    if a == [] {
      assert a + b == b;
    } else {
      var c, t := a[0], a[1..];
      assert a == [c] + t;
      assert pat[0] !in t by { assert forall x :: x in t ==> x in a; }
      ReplaceSkip(t, b, pat, rep);
      assert a + b == [c] + (t + b);
      ReplaceCons(c, t + b, pat, rep);
      assert [c] + (t + Replace(b, pat, rep)) == a + Replace(b, pat, rep);
    }
  }

  /** A first character that cannot start the pattern is kept as it is. */
  lemma ReplaceCons(c: char, t: string, pat: string, rep: string)
    requires pat != [] && c != pat[0]
    ensures Replace([c] + t, pat, rep) == [c] + Replace(t, pat, rep)
  {
    var s := [c] + t;
    assert s[0] == c && s[1..] == t;
    assert !(pat <= s);
  }

  lemma {:induction false} SplitNoSep(x: string, sep: char)
    requires sep !in x
    ensures Split(x, sep) == [x]
    decreases |x|
  {
    if x != [] { SplitNoSep(x[1..], sep); }
  }

  lemma {:induction false} SplitAtSep(x: string, y: string, sep: char)
    requires sep !in x
    ensures Split(x + [sep] + y, sep) == [x] + Split(y, sep)
    decreases |x|
  {
    var s := x + [sep] + y;
    if x == [] {
      assert s == [sep] + y;
      assert s[1..] == y;
      assert Split(s, sep) == [[]] + Split(s[1..], sep);
    } else {
      assert s[1..] == x[1..] + [sep] + y;
      SplitAtSep(x[1..], y, sep);
      assert [x[0]] + x[1..] == x;
    }
  }

  lemma NotOccurs(sub: string, s: string)
    requires sub != [] && sub[0] !in s
    ensures !OccursIn(sub, s)
  {
    forall i | 0 <= i <= |s| ensures !(sub <= s[i..]) {
      if i < |s| { assert s[i] in s; }
    }
  }

  lemma StripIs(s: string)
    ensures PyStrip(s) == TrimEnd(TrimStart(s, IsPyWhitespace), IsPyWhitespace)
  {
  }

  lemma TrimStartKeeps(s: string, ws: char -> bool)
    requires s != [] && !ws(s[0])
    ensures TrimStart(s, ws) == s
  {
  }

  lemma TrimEndKeeps(s: string, ws: char -> bool)
    requires s != [] && !ws(s[|s| - 1])
    ensures TrimEnd(s, ws) == s
  {
  }

  lemma TrimEndDrops(s: string, ws: char -> bool)
    requires s != [] && ws(s[|s| - 1])
    ensures TrimEnd(s, ws) == TrimEnd(s[..|s| - 1], ws)
  {
  }

  lemma StripFixed(s: string)
    requires s != [] && !IsPyWhitespace(s[0]) && !IsPyWhitespace(s[|s| - 1])
    ensures PyStrip(s) == s
  {
    StripIs(s);
    TrimStartKeeps(s, IsPyWhitespace);
    TrimEndKeeps(s, IsPyWhitespace);
  }

  /** "HH:MM " strips to "HH:MM". */
  lemma StripTrailingSpace(a: char, b: char, c: char, d: char)
    requires DigitShape(a, b, c, d)
    ensures PyStrip([a, b, ':', c, d, ' ']) == [a, b, ':', c, d]
  {
    var s := [a, b, ':', c, d, ' '];
    var t := [a, b, ':', c, d];
    StripIs(s);
    assert !IsPyWhitespace(s[0]);
    TrimStartKeeps(s, IsPyWhitespace);
    assert IsPyWhitespace(s[|s| - 1]);
    TrimEndDrops(s, IsPyWhitespace);
    assert s[..|s| - 1] == t;
    assert !IsPyWhitespace(t[|t| - 1]);
    TrimEndKeeps(t, IsPyWhitespace);
  }

  lemma UpperFixed(s: string)
    requires forall i :: 0 <= i < |s| ==> !('a' <= s[i] <= 'z')
    ensures Upper(s) == s
  {
  }

  lemma TwoDigits(a: char, b: char)
    requires IsDigit(a) && IsDigit(b)
    ensures PyInt.Parse([a, b]) == Some(10 * DigitValue(a) + DigitValue(b))
  {
    var s := [a, b];
    assert s != [] && AllDigits(s);
    assert DigitsValue(s) == 10 * DigitValue(a) + DigitValue(b) by {
      assert s[..1] == [a];
      assert [a][..0] == [];
      assert DigitsValue(s) == DigitsValue([a]) * 10 + DigitValue(b);
    }
  }

  // ------------------------------------------------------------ shaped times

  /** "HH:MM" with four digits. */
  predicate DigitShape(a: char, b: char, c: char, d: char) {
    IsDigit(a) && IsDigit(b) && IsDigit(c) && IsDigit(d)
  }

  /** "HH:MM AM" or "HH:MM PM" with four digits. */
  predicate TwelveHourShape(a: char, b: char, c: char, d: char, x: char) {
    DigitShape(a, b, c, d) && (x == 'A' || x == 'P')
  }

  /** A two-character pattern alone is replaced whole. */
  lemma ReplaceWhole(pat: string, rep: string)
    requires |pat| == 2
    ensures Replace(pat, pat, rep) == rep
  {
    assert pat[|pat|..] == [];
  }

  /** The AM/PM replacements put a second space before the marker. */
  lemma MarkTwelveHour(a: char, b: char, c: char, d: char, x: char)
    requires TwelveHourShape(a, b, c, d, x)
    ensures Replace(Replace([a, b, ':', c, d, ' ', x, 'M'], "AM", " AM"), "PM", " PM") == [a, b, ':', c, d, ' ', ' ', x, 'M']
  {
    var pre := [a, b, ':', c, d, ' '];
    var s := [a, b, ':', c, d, ' ', x, 'M'];
    var w := [a, b, ':', c, d, ' ', ' ', x, 'M'];
    assert s == pre + [x, 'M'];
    assert w == pre + [' ', x, 'M'];
    if x == 'A' {
      ReplaceSkip(pre, "AM", "AM", " AM");
      ReplaceWhole("AM", " AM");
      ReplaceAbsent(w, "PM", " PM");
    } else {
      ReplaceAbsent(s, "AM", " AM");
      ReplaceSkip(pre, "PM", "PM", " PM");
      ReplaceWhole("PM", " PM");
    }
  }

  /** The double-space collapse undoes the extra space. */
  lemma CollapseTwelveHour(a: char, b: char, c: char, d: char, x: char)
    requires TwelveHourShape(a, b, c, d, x)
    ensures Replace([a, b, ':', c, d, ' ', ' ', x, 'M'], "  ", " ") == [a, b, ':', c, d, ' ', x, 'M']
  {
    var pre := [a, b, ':', c, d];
    var t := [' ', ' ', x, 'M'];
    assert [a, b, ':', c, d, ' ', ' ', x, 'M'] == pre + t;
    ReplaceSkip(pre, t, "  ", " ");
    assert "  " <= t;
    assert t[2..] == [x, 'M'];
    ReplaceAbsent([x, 'M'], "  ", " ");
    assert pre + [' ', x, 'M'] == [a, b, ':', c, d, ' ', x, 'M'];
  }

  lemma SpacedTwelveHour(a: char, b: char, c: char, d: char, x: char)
    requires TwelveHourShape(a, b, c, d, x)
    ensures Spaced([a, b, ':', c, d, ' ', x, 'M']) == [a, b, ':', c, d, ' ', x, 'M']
  {
    MarkTwelveHour(a, b, c, d, x);
    CollapseTwelveHour(a, b, c, d, x);
  }

  lemma StripTwelveHour(a: char, b: char, c: char, d: char, x: char)
    requires TwelveHourShape(a, b, c, d, x)
    ensures PyStrip([a, b, ':', c, d, ' ', x, 'M']) == [a, b, ':', c, d, ' ', x, 'M']
  {
    StripFixed([a, b, ':', c, d, ' ', x, 'M']);
  }

  lemma UpperTwelveHour(a: char, b: char, c: char, d: char, x: char)
    requires TwelveHourShape(a, b, c, d, x)
    ensures Upper([a, b, ':', c, d, ' ', x, 'M']) == [a, b, ':', c, d, ' ', x, 'M']
  {
    UpperFixed([a, b, ':', c, d, ' ', x, 'M']);
  }

  /** A string that stripping, upper-casing and spacing all leave alone is already normal. */
  predicate NormalForm(s: string) {
    PyStrip(s) == s && Upper(s) == s && Spaced(s) == s
  }

  lemma NormalizeFixed(s: string)
    requires NormalForm(s)
    ensures Normalize(s) == s
  {
  }

  lemma NormalFormTwelveHour(a: char, b: char, c: char, d: char, x: char)
    requires TwelveHourShape(a, b, c, d, x)
    ensures NormalForm([a, b, ':', c, d, ' ', x, 'M'])
  {
    StripTwelveHour(a, b, c, d, x);
    UpperTwelveHour(a, b, c, d, x);
    SpacedTwelveHour(a, b, c, d, x);
  }

  lemma NormalizeTwelveHour(a: char, b: char, c: char, d: char, x: char)
    requires TwelveHourShape(a, b, c, d, x)
    ensures Normalize([a, b, ':', c, d, ' ', x, 'M']) == [a, b, ':', c, d, ' ', x, 'M']
  {
    NormalFormTwelveHour(a, b, c, d, x);
    NormalizeFixed([a, b, ':', c, d, ' ', x, 'M']);
  }

  lemma {:induction false} BareTwelveHour(a: char, b: char, c: char, d: char, x: char)
    requires TwelveHourShape(a, b, c, d, x)
    ensures PyStrip(Replace(Replace([a, b, ':', c, d, ' ', x, 'M'], "AM", ""), "PM", "")) == [a, b, ':', c, d]
  {
    var s := [a, b, ':', c, d, ' ', x, 'M'];
    var bare := [a, b, ':', c, d, ' '];
    assert Replace(Replace(s, "AM", ""), "PM", "") == bare by {
      assert s == bare + [x, 'M'];
      if x == 'A' {
        ReplaceSkip(bare, ['A', 'M'], "AM", "");
        assert Replace(['A', 'M'], "AM", "") == [];
        assert bare + [] == bare;
        ReplaceAbsent(bare, "PM", "");
      } else {
        ReplaceAbsent(s, "AM", "");
        ReplaceSkip(bare, ['P', 'M'], "PM", "");
        assert Replace(['P', 'M'], "PM", "") == [];
      }
    }
    StripTrailingSpace(a, b, c, d);
  }

  lemma {:induction false} SplitHhMm(a: char, b: char, c: char, d: char)
    requires DigitShape(a, b, c, d)
    ensures Split([a, b, ':', c, d], ':') == [[a, b], [c, d]]
    ensures PyInt.Parse([a, b]) == Some(10 * DigitValue(a) + DigitValue(b))
    ensures PyInt.Parse([c, d]) == Some(10 * DigitValue(c) + DigitValue(d))
  {
    assert [a, b, ':', c, d] == [a, b] + [':'] + [c, d];
    SplitAtSep([a, b], [c, d], ':');
    SplitNoSep([c, d], ':');
    TwoDigits(a, b);
    TwoDigits(c, d);
  }

  lemma MarkersTwelveHour(a: char, b: char, c: char, d: char, x: char)
    requires TwelveHourShape(a, b, c, d, x)
    ensures Contains([a, b, ':', c, d, ' ', x, 'M'], "AM") == (x == 'A')
    ensures Contains([a, b, ':', c, d, ' ', x, 'M'], "PM") == (x == 'P')
  {
    var s := [a, b, ':', c, d, ' ', x, 'M'];
    ContainsIff(s, "AM");
    ContainsIff(s, "PM");
    if x == 'A' {
      assert "AM" <= s[6..];
      NotOccurs("PM", s);
    } else {
      assert "PM" <= s[6..];
      NotOccurs("AM", s);
    }
  }

  lemma PiecesTwelveHour(a: char, b: char, c: char, d: char, x: char)
    requires TwelveHourShape(a, b, c, d, x)
    ensures Pieces([a, b, ':', c, d, ' ', x, 'M'], true) == [[a, b], [c, d]]
  {
    BareTwelveHour(a, b, c, d, x);
    SplitHhMm(a, b, c, d);
  }

  lemma ReadDigits(a: char, b: char, c: char, d: char, am: bool, pm: bool)
    requires DigitShape(a, b, c, d)
    ensures ReadClock([[a, b], [c, d]], am, pm) ==
      Some((TwelveHourClock(10 * DigitValue(a) + DigitValue(b), am, pm), 10 * DigitValue(c) + DigitValue(d)))
  {
    TwoDigits(a, b);
    TwoDigits(c, d);
  }

  /** The text of a twelve-hour time "HH:MM AM" / "HH:MM PM". */
  function TwelveHourText(a: char, b: char, c: char, d: char, x: char): string {
    [a, b, ':', c, d, ' ', x, 'M']
  }

  /** "HH:MM AM" / "HH:MM PM": the clock read, before the period lookup. */
  lemma ClockOfTwelveHour(a: char, b: char, c: char, d: char, x: char)
    requires TwelveHourShape(a, b, c, d, x)
    ensures ClockOf(Normalize(TwelveHourText(a, b, c, d, x))) ==
      Some((TwelveHourClock(10 * DigitValue(a) + DigitValue(b), x == 'A', x == 'P'), 10 * DigitValue(c) + DigitValue(d)))
  {
    NormalizeTwelveHour(a, b, c, d, x);
    MarkersTwelveHour(a, b, c, d, x);
    PiecesTwelveHour(a, b, c, d, x);
    ClockOfNormal([a, b, ':', c, d, ' ', x, 'M']);
    ReadDigits(a, b, c, d, x == 'A', x == 'P');
  }

  lemma StripTwentyFourHour(a: char, b: char, c: char, d: char)
    requires DigitShape(a, b, c, d)
    ensures PyStrip([a, b, ':', c, d]) == [a, b, ':', c, d]
  {
    StripFixed([a, b, ':', c, d]);
  }

  lemma UpperTwentyFourHour(a: char, b: char, c: char, d: char)
    requires DigitShape(a, b, c, d)
    ensures Upper([a, b, ':', c, d]) == [a, b, ':', c, d]
  {
    UpperFixed([a, b, ':', c, d]);
  }

  lemma SpacedTwentyFourHour(a: char, b: char, c: char, d: char)
    requires DigitShape(a, b, c, d)
    ensures Spaced([a, b, ':', c, d]) == [a, b, ':', c, d]
  {
    var t := [a, b, ':', c, d];
    ReplaceAbsent(t, "AM", " AM");
    ReplaceAbsent(t, "PM", " PM");
    ReplaceAbsent(t, "  ", " ");
  }

  lemma NormalFormTwentyFourHour(a: char, b: char, c: char, d: char)
    requires DigitShape(a, b, c, d)
    ensures NormalForm([a, b, ':', c, d])
  {
    StripTwentyFourHour(a, b, c, d);
    UpperTwentyFourHour(a, b, c, d);
    SpacedTwentyFourHour(a, b, c, d);
  }

  lemma MarkersTwentyFourHour(a: char, b: char, c: char, d: char)
    requires DigitShape(a, b, c, d)
    ensures !Contains([a, b, ':', c, d], "AM") && !Contains([a, b, ':', c, d], "PM")
  {
    ContainsIff([a, b, ':', c, d], "AM");
    ContainsIff([a, b, ':', c, d], "PM");
    NotOccurs("AM", [a, b, ':', c, d]);
    NotOccurs("PM", [a, b, ':', c, d]);
  }

  /** "HH:MM" without a marker is read on the 24-hour clock. */
  lemma ClockOfTwentyFourHour(a: char, b: char, c: char, d: char)
    requires DigitShape(a, b, c, d)
    ensures ClockOf(Normalize([a, b, ':', c, d])) ==
      Some((10 * DigitValue(a) + DigitValue(b), 10 * DigitValue(c) + DigitValue(d)))
  {
    var t := [a, b, ':', c, d];
    assert Normalize(t) == t by {
      NormalFormTwentyFourHour(a, b, c, d);
      NormalizeFixed(t);
    }
    assert ClockOf(t) == ReadClock(Split(t, ':'), false, false) by {
      MarkersTwentyFourHour(a, b, c, d);
    }
    assert ReadClock(Split(t, ':'), false, false) ==
      Some((10 * DigitValue(a) + DigitValue(b), 10 * DigitValue(c) + DigitValue(d))) by {
      SplitHhMm(a, b, c, d);
      ReadDigits(a, b, c, d, false, false);
    }
  }

  /** The save path's start times, in period order. */
  const PeriodStarts: seq<string> :=
    ["09:00 AM", "10:00 AM", "11:00 AM", "11:30 AM", "12:30 PM", "01:30 PM", "02:30 PM", "03:30 PM"]

  const PeriodEnds: seq<string> :=
    ["10:00 AM", "11:00 AM", "11:30 AM", "12:30 PM", "01:30 PM", "02:30 PM", "03:30 PM", "04:30 PM"]

  /** A twelve-hour start time has the period of its clock. */
  lemma PeriodOfTwelveHour(a: char, b: char, c: char, d: char, x: char)
    requires TwelveHourShape(a, b, c, d, x)
    ensures ParseTimeToPeriod(TwelveHourText(a, b, c, d, x)) ==
      PeriodOfClock(Some((TwelveHourClock(10 * DigitValue(a) + DigitValue(b), x == 'A', x == 'P'), 10 * DigitValue(c) + DigitValue(d))))
  {
    ClockOfTwelveHour(a, b, c, d, x);
    ParseTimeIs(TwelveHourText(a, b, c, d, x));
  }

  /** One stored start time whose characters are given: it reads back as its clock's period. */
  lemma StartReadsBack(p: nat, a: char, b: char, c: char, d: char, x: char)
    requires p < 8 && TwelveHourShape(a, b, c, d, x)
    requires PeriodStarts[p] == TwelveHourText(a, b, c, d, x)
    requires PeriodOfClock(Some((TwelveHourClock(10 * DigitValue(a) + DigitValue(b), x == 'A', x == 'P'), 10 * DigitValue(c) + DigitValue(d)))) == Some(p)
    ensures ParseTimeToPeriod(PeriodStarts[p]) == Some(p)
  {
    PeriodOfTwelveHour(a, b, c, d, x);
  }

  /** Saving a period and reading it back agree: each stored start time parses to its own period. */
  lemma PeriodStartsRoundTrip(p: nat)
    requires p < 8
    ensures ParseTimeToPeriod(PeriodStarts[p]) == Some(p)
  {
    if p == 0 { StartReadsBack(p, '0', '9', '0', '0', 'A'); }
    else if p == 1 { StartReadsBack(p, '1', '0', '0', '0', 'A'); }
    else if p == 2 { StartReadsBack(p, '1', '1', '0', '0', 'A'); }
    else if p == 3 { StartReadsBack(p, '1', '1', '3', '0', 'A'); }
    else if p == 4 { StartReadsBack(p, '1', '2', '3', '0', 'P'); }
    else if p == 5 { StartReadsBack(p, '0', '1', '3', '0', 'P'); }
    else if p == 6 { StartReadsBack(p, '0', '2', '3', '0', 'P'); }
    else { StartReadsBack(p, '0', '3', '3', '0', 'P'); }
  }

  /** Any "HH:MM" without a marker is read on the 24-hour clock: "14:30" is period 6, like "02:30 PM". */
  lemma TwentyFourHourPeriod(a: char, b: char, c: char, d: char)
    requires DigitShape(a, b, c, d)
    ensures ParseTimeToPeriod([a, b, ':', c, d]) == PeriodOfClock(Some((10 * DigitValue(a) + DigitValue(b), 10 * DigitValue(c) + DigitValue(d))))
  {
    ClockOfTwentyFourHour(a, b, c, d);
    ParseTimeIs([a, b, ':', c, d]);
  }

  /**
   * Twelve o'clock: "12:MM AM" is hour 0, which starts no period, while
   * "12:MM PM" stays hour 12, so "12:30 PM" is period 4 and no other
   * "12:MM PM" has a period.
   */
  lemma TwelveOClock(a: char, b: char, c: char, d: char, x: char)
    requires TwelveHourShape(a, b, c, d, x) && 10 * DigitValue(a) + DigitValue(b) == 12
    ensures x == 'A' ==> ParseTimeToPeriod(TwelveHourText(a, b, c, d, x)) == None
    ensures x == 'P' ==>
      ParseTimeToPeriod(TwelveHourText(a, b, c, d, x)) == if 10 * DigitValue(c) + DigitValue(d) == 30 then Some(4) else None
  {
    PeriodOfTwelveHour(a, b, c, d, x);
    var m := 10 * DigitValue(c) + DigitValue(d);
    if x == 'A' {
      assert TwelveHourClock(10 * DigitValue(a) + DigitValue(b), x == 'A', x == 'P') == 0;
      PeriodOfClockSome(0, m);
      NoPeriodAtMidnight(m);
    } else {
      assert TwelveHourClock(10 * DigitValue(a) + DigitValue(b), x == 'A', x == 'P') == 12;
      PeriodOfClockSome(12, m);
      NoonPeriod(m);
    }
  }

  /** A time whose hour or minute `int()` refuses has no period: the parse answers `None` instead of raising. */
  lemma UnreadableClockHasNoPeriod(s: string)
    requires ClockOf(Normalize(s)).None?
    ensures ParseTimeToPeriod(s) == None
  {
  }

  /** An empty start time is refused: its one piece is not a number. */
  lemma EmptyTimeHasNoPeriod()
    ensures ParseTimeToPeriod("") == None
  {
    assert Normalize("") == "";
    assert Pieces("", false) == [""];
  }

  /** Distinct periods store distinct start times, so a (course, day, start) key names one cell. */
  lemma PeriodStartsDistinct(p: nat, q: nat)
    requires p < 8 && q < 8 && p != q
    ensures PeriodStarts[p] != PeriodStarts[q]
  {
    PeriodStartsRoundTrip(p);
    PeriodStartsRoundTrip(q);
  }
}
