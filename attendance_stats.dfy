/**
 * The attendance arithmetic the front-end pages share: a percentage of
 * attended sessions (zero when there are none), the four-level
 * classification at 90, 75 and 60 per cent, and JavaScript's `Math.round`.
 *
 * Percentages are exact rationals here; the pages compute them in floating
 * point.
 */
module AttendanceStats {

  /** `total > 0 ? (part / total) * 100 : 0` */
  function Percent(part: nat, total: nat): (p: real)
    ensures total == 0 ==> p == 0.0
    ensures total > 0 ==> p * (total as real) == 100.0 * (part as real)
    ensures p >= 0.0
    ensures part <= total ==> p <= 100.0
  {
    if total > 0 then
      var r := (part as real / total as real) * 100.0;
      PercentScaled(part, total, r);
      r
    else 0.0
  }

  lemma PercentScaled(part: nat, total: nat, r: real)
    requires total > 0 && r == (part as real / total as real) * 100.0
    ensures r * (total as real) == 100.0 * (part as real)
    ensures r >= 0.0
    ensures part <= total ==> r <= 100.0
  {
    var q := part as real / total as real;
    assert q * (total as real) == part as real;
    assert q >= 0.0;
    if part <= total {
      assert q <= 1.0;
    }
  }

  /** Comparing a percentage with a threshold is comparing the counts, cross-multiplied. */
  lemma PercentAtLeast(part: nat, total: nat, k: real)
    requires total > 0
    ensures Percent(part, total) >= k <==> 100.0 * (part as real) >= k * (total as real)
  {
    var p := Percent(part, total);
    var t := total as real;
    if p >= k {
      assert p * t >= k * t;
    } else {
      assert p * t < k * t;
    }
  }

  /** `Math.round(x)`: the nearest whole number, halves rounded up. */
  function Round(x: real): (r: int)
    ensures r as real - 0.5 <= x < r as real + 0.5
  {
    (x + 0.5).Floor
  }

  /** Whole numbers round to themselves. */
  lemma RoundWhole(n: int)
    ensures Round(n as real) == n
  {
  }

  datatype Level = Excellent | Good | Warning | Critical

  /** `>= 90` EXCELLENT, `>= 75` GOOD, `>= 60` WARNING, otherwise CRITICAL. */
  function LevelOf(p: real): (l: Level)
    ensures l == Excellent <==> p >= 90.0
    ensures l == Good <==> 75.0 <= p < 90.0
    ensures l == Warning <==> 60.0 <= p < 75.0
    ensures l == Critical <==> p < 60.0
  {
    if p >= 90.0 then Excellent
    else if p >= 75.0 then Good
    else if p >= 60.0 then Warning
    else Critical
  }

  function LevelName(l: Level): string {
    match l
    case Excellent => "EXCELLENT"
    case Good => "GOOD"
    case Warning => "WARNING"
    case Critical => "CRITICAL"
  }

  /** The level of a count of attended sessions, stated on the counts: nine in ten, three in four, three in five. */
  lemma LevelOfCounts(attended: nat, total: nat)
    ensures total == 0 ==> LevelOf(Percent(attended, total)) == Critical
    ensures total > 0 ==> (LevelOf(Percent(attended, total)) == Excellent <==> 10 * attended >= 9 * total)
    ensures total > 0 ==> (LevelOf(Percent(attended, total)) == Critical <==> 5 * attended < 3 * total)
    ensures total > 0 ==> (LevelOf(Percent(attended, total)) in {Excellent, Good} <==> 4 * attended >= 3 * total)
  {
    if total > 0 {
      PercentAtLeast(attended, total, 90.0);
      PercentAtLeast(attended, total, 75.0);
      PercentAtLeast(attended, total, 60.0);
    }
  }
}
