/**
 * The personal timetable panel: its entries grouped by day, the days shown
 * in week order, the add form's reset and the delete guard.
 */
module TimetablePanel {
  import opened Wrappers
  import Seqs

  /** A timetable entry; `kind` is the entry's `type` (lecture, lab or tutorial). */
  datatype Entry = Entry(
    id: Option<string>, courseName: string, courseCode: string, instructor: string, dayOfWeek: string,
    startTime: string, endTime: string, room: string, kind: string)

  /** `daysOrder`: the days the panel shows, in the order it shows them. */
  const DaysOrder: seq<string> := ["MONDAY", "TUESDAY", "WEDNESDAY", "THURSDAY", "FRIDAY", "SATURDAY", "SUNDAY"]

  lemma DaysOrderDistinct()
    ensures forall i, j :: 0 <= i < j < |DaysOrder| ==> DaysOrder[i] != DaysOrder[j]
  {
  }

  function OnDay(day: string): Entry -> bool {
    (e: Entry) => e.dayOfWeek == day
  }

  /** `grouped[day] || []` */
  function Bucket(grouped: map<string, seq<Entry>>, day: string): seq<Entry> {
    if day in grouped then grouped[day] else []
  }

  /** `grouped` is what grouping the first `n` entries gives. */
  ghost predicate GroupedUpTo(grouped: map<string, seq<Entry>>, entries: seq<Entry>, n: nat)
    requires n <= |entries|
  {
    (forall day :: Bucket(grouped, day) == Seqs.Filter(entries[..n], OnDay(day))) &&
    (forall day :: day in grouped <==> exists i :: 0 <= i < n && entries[i].dayOfWeek == day)
  }

  /** Appending the next entry to its day's bucket groups one entry more. */
  lemma GroupStep(grouped: map<string, seq<Entry>>, entries: seq<Entry>, n: nat)
    requires n < |entries| && GroupedUpTo(grouped, entries, n)
    ensures GroupedUpTo(grouped[entries[n].dayOfWeek := Bucket(grouped, entries[n].dayOfWeek) + [entries[n]]], entries, n + 1)
  {
    var e := entries[n];
    var next := grouped[e.dayOfWeek := Bucket(grouped, e.dayOfWeek) + [e]];
    forall day ensures Bucket(next, day) == Seqs.Filter(entries[..n + 1], OnDay(day)) {
      Seqs.FilterSnoc(entries, n, OnDay(day));
    }
    forall day ensures day in next <==> exists i :: 0 <= i < n + 1 && entries[i].dayOfWeek == day {
      if day == e.dayOfWeek {
        assert entries[n].dayOfWeek == day;
      }
    }
  }

  /**
   * `entries.reduce(...)`: each day that occurs gets the entries on that day,
   * in their original order; no other day gets a bucket.
   */
  method Group(entries: seq<Entry>) returns (grouped: map<string, seq<Entry>>)
    ensures forall day :: Bucket(grouped, day) == Seqs.Filter(entries, OnDay(day))
    ensures forall day :: day in grouped <==> exists i :: 0 <= i < |entries| && entries[i].dayOfWeek == day
  {
    grouped := map[];
    for n := 0 to |entries|
      invariant GroupedUpTo(grouped, entries, n)
    {
      var e := entries[n];
      GroupStep(grouped, entries, n);
      ghost var next := grouped[e.dayOfWeek := Bucket(grouped, e.dayOfWeek) + [e]];
      if e.dayOfWeek !in grouped {
        grouped := grouped[e.dayOfWeek := []];
      }
      grouped := grouped[e.dayOfWeek := grouped[e.dayOfWeek] + [e]];
      assert grouped == next;
    }
    assert entries[..|entries|] == entries;
  }

  /** The entries rendered: the buckets of `days`, one after the other. */
  function ShownFrom(grouped: map<string, seq<Entry>>, days: seq<string>): seq<Entry>
    decreases |days|
  {
    if days == [] then [] else Bucket(grouped, days[0]) + ShownFrom(grouped, days[1..])
  }

  /** The day headings rendered: the days in week order whose bucket is not empty. */
  function ShownDays(grouped: map<string, seq<Entry>>): (r: seq<string>)
    ensures forall d :: d in r <==> d in DaysOrder && Bucket(grouped, d) != []
  {
    Seqs.Filter(DaysOrder, d => Bucket(grouped, d) != [])
  }

  /** An entry is rendered exactly when it is a bucket's entry for one of `days`. */
  lemma {:induction false} ShownFromHas(grouped: map<string, seq<Entry>>, days: seq<string>, e: Entry)
    ensures e in ShownFrom(grouped, days) <==> exists i :: 0 <= i < |days| && e in Bucket(grouped, days[i])
    decreases |days|
  {
    if days != [] {
      ShownFromHas(grouped, days[1..], e);
      if e in ShownFrom(grouped, days[1..]) {
        var i :| 0 <= i < |days[1..]| && e in Bucket(grouped, days[1..][i]);
        assert e in Bucket(grouped, days[i + 1]);
      }
      if exists i :: 0 <= i < |days| && e in Bucket(grouped, days[i]) {
        var i :| 0 <= i < |days| && e in Bucket(grouped, days[i]);
        if i > 0 { assert days[1..][i - 1] == days[i]; }
      }
    }
  }

  /** The rendered entries are as many as the buckets of `days` hold together. */
  lemma {:induction false} ShownFromSize(grouped: map<string, seq<Entry>>, days: seq<string>)
    ensures |ShownFrom(grouped, days)| == Seqs.Sum(days, BucketSize(grouped))
    decreases |days|
  {
    if days != [] { ShownFromSize(grouped, days[1..]); }
  }

  /** After grouping, an entry is shown exactly when its day is one of the week's seven. */
  lemma ShownIffKnownDay(entries: seq<Entry>, grouped: map<string, seq<Entry>>, e: Entry)
    requires forall day :: Bucket(grouped, day) == Seqs.Filter(entries, OnDay(day))
    ensures e in ShownFrom(grouped, DaysOrder) <==> e in entries && e.dayOfWeek in DaysOrder
  {
    ShownIffListed(entries, grouped, DaysOrder, e);
  }

  /** Over any list of days, an entry is shown exactly when its day is listed. */
  lemma ShownIffListed(entries: seq<Entry>, grouped: map<string, seq<Entry>>, days: seq<string>, e: Entry)
    requires forall day :: Bucket(grouped, day) == Seqs.Filter(entries, OnDay(day))
    ensures e in ShownFrom(grouped, days) <==> e in entries && e.dayOfWeek in days
  {
    ShownFromHas(grouped, days, e);
    if e in entries && e.dayOfWeek in days {
      var i :| 0 <= i < |days| && days[i] == e.dayOfWeek;
      assert e in Bucket(grouped, days[i]);
    }
  }

  /** The number of entries on a day, as a term of a sum over days. */
  function DayCount(entries: seq<Entry>): string -> int {
    d => Seqs.Count(entries, OnDay(d))
  }

  /** One for the given day and zero for every other. */
  function OnlyDay(day: string): string -> int {
    d => if d == day then 1 else 0
  }

  /** The size of a day's bucket, as a term of a sum over days. */
  function BucketSize(grouped: map<string, seq<Entry>>): string -> int {
    d => |Bucket(grouped, d)|
  }

  /** Over distinct days that cover every entry's day, the day counts add up to the number of entries. */
  lemma {:induction false} DayCountsSum(entries: seq<Entry>, days: seq<string>)
    requires forall i, j :: 0 <= i < j < |days| ==> days[i] != days[j]
    requires forall i :: 0 <= i < |entries| ==> entries[i].dayOfWeek in days
    ensures Seqs.Sum(days, DayCount(entries)) == |entries|
    decreases |entries|
  {
    if entries == [] {
      Seqs.SumZero(days, DayCount(entries));
    } else {
      var s, x := entries[..|entries| - 1], entries[|entries| - 1];
      assert entries == s + [x];
      DayCountsSum(s, days);
      forall i | 0 <= i < |days|
        ensures Seqs.Count(entries, OnDay(days[i])) ==
          Seqs.Count(s, OnDay(days[i])) + if days[i] == x.dayOfWeek then 1 else 0
      {
        Seqs.CountSnoc(s, x, OnDay(days[i]));
      }
      Seqs.SumPlus(days, DayCount(s), OnlyDay(x.dayOfWeek),
        DayCount(entries));
      Seqs.SumIndicator(days, x.dayOfWeek, OnlyDay(x.dayOfWeek));
    }
  }

  /** The buckets, taken over the days in order of first appearance, hold every entry once. */
  lemma BucketSizesSum(entries: seq<Entry>, grouped: map<string, seq<Entry>>)
    requires forall day :: Bucket(grouped, day) == Seqs.Filter(entries, OnDay(day))
    ensures Seqs.Sum(Seqs.Firsts(Days(entries)), BucketSize(grouped)) == |entries|
  {
    var days := Seqs.Firsts(Days(entries));
    forall i | 0 <= i < |entries| ensures entries[i].dayOfWeek in days {
      assert Days(entries)[i] == entries[i].dayOfWeek;
    }
    DayCountsSum(entries, days);
    BucketSizesAreCounts(entries, grouped, days);
  }

  /** After grouping, the buckets of some days hold as many entries as those days count. */
  lemma BucketSizesAreCounts(entries: seq<Entry>, grouped: map<string, seq<Entry>>, days: seq<string>)
    requires forall day :: Bucket(grouped, day) == Seqs.Filter(entries, OnDay(day))
    ensures Seqs.Sum(days, BucketSize(grouped)) == Seqs.Sum(days, DayCount(entries))
  {
    forall i | 0 <= i < |days| ensures |Bucket(grouped, days[i])| == Seqs.Count(entries, OnDay(days[i])) {
      assert Bucket(grouped, days[i]) == Seqs.Filter(entries, OnDay(days[i]));
    }
    SumAgree(days, BucketSize(grouped), DayCount(entries));
  }

  function Days(entries: seq<Entry>): (r: seq<string>)
    ensures |r| == |entries| && forall i :: 0 <= i < |entries| ==> r[i] == entries[i].dayOfWeek
  {
    seq(|entries|, i requires 0 <= i < |entries| => entries[i].dayOfWeek)
  }

  lemma {:induction false} SumAgree(days: seq<string>, f: string -> int, g: string -> int)
    requires forall i :: 0 <= i < |days| ==> f(days[i]) == g(days[i])
    ensures Seqs.Sum(days, f) == Seqs.Sum(days, g)
    decreases |days|
  {
    if days != [] {
      assert forall i :: 0 <= i < |days[1..]| ==> days[1..][i] == days[i + 1];
      SumAgree(days[1..], f, g);
    }
  }

  /** When every entry is on one of the week's days, the panel shows all of them. */
  lemma AllShownWhenDaysKnown(entries: seq<Entry>, grouped: map<string, seq<Entry>>)
    requires forall day :: Bucket(grouped, day) == Seqs.Filter(entries, OnDay(day))
    requires forall i :: 0 <= i < |entries| ==> entries[i].dayOfWeek in DaysOrder
    ensures |ShownFrom(grouped, DaysOrder)| == |entries|
  {
    var days := DaysOrder;
    ShownFromSize(grouped, days);
    DaysOrderDistinct();
    DayCountsSum(entries, days);
    BucketSizesAreCounts(entries, grouped, days);
  }

  // ---------------------------------------------------------------- the add form and delete

  /** The add form; the day and the type are picked from lists, the rest typed. */
  datatype EntryForm = EntryForm(
    courseName: string, courseCode: string, instructor: string, dayOfWeek: string,
    startTime: string, endTime: string, room: string, kind: string)

  const InitialForm := EntryForm("", "", "", "MONDAY", "", "", "", "LECTURE")

  /** The form after an entry was added: every typed field cleared and the type back to lecture; the day stays. */
  function AfterAdd(f: EntryForm): (r: EntryForm)
    ensures r == InitialForm.(dayOfWeek := f.dayOfWeek)
  {
    f.(courseName := "", courseCode := "", instructor := "", startTime := "", endTime := "", room := "", kind := "LECTURE")
  }

  /** Adding twice in a row on the same day leaves the same form. */
  lemma AfterAddIdempotent(f: EntryForm)
    ensures AfterAdd(AfterAdd(f)) == AfterAdd(f)
  {
  }

  /** What `deleteEntry(id)` does first: alert, or send a request for the id. */
  datatype DeleteStep = Alert(message: string) | Request(id: string)

  function DeleteEntry(id: Option<string>): (r: DeleteStep)
    ensures r.Request? <==> id.Some? && id.value != ""
    ensures r.Request? ==> r.id == id.value
    ensures r.Alert? ==> r.message == "Invalid id"
  {
    if id.Some? && id.value != "" then Request(id.value) else Alert("Invalid id")
  }
}
