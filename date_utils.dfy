/**
 * The expiry helpers: remaining whole days, the freshness percentage, the
 * expiring-soon and expired predicates, and the `M月D日` display form.
 * Dates arrive as `YYYY-MM-DD` strings; "now" is a time value in
 * milliseconds passed in by the caller, and the local zone is UTC.
 * An unparsable date is JavaScript's NaN, modelled as `None`.
 */
module DateUtils {
  import opened Wrappers
  import opened Strings
  import opened Calendar

  /** `d.setHours(0, 0, 0, 0)`: midnight of the day holding time value `t`. */
  function StartOfDay(t: int): (m: int)
    ensures m <= t < m + MsPerDay
    ensures m == DayOfTime(t) * MsPerDay
  {
    t - t % MsPerDay
  }

  /** `Math.ceil(a / b)` for a positive divisor. */
  function CeilDiv(a: int, b: int): (q: int)
    requires b > 0
    ensures (q - 1) * b < a <= q * b
  {
    -((-a) / b)
  }

  /** Remaining days between two time values, both first moved to midnight. */
  function RemainingDaysAt(expiryMs: int, nowMs: int): (r: int)
    ensures r == DayOfTime(expiryMs) - DayOfTime(nowMs)
  {
    var diff := StartOfDay(expiryMs) - StartOfDay(nowMs);
    assert diff == (DayOfTime(expiryMs) - DayOfTime(nowMs)) * MsPerDay;
    CeilDiv(diff, MsPerDay)
  }

  /** `new Date(s).getTime()` for a date-only string: midnight UTC of that day, or NaN. */
  function TimeOfDate(s: string): (t: Option<int>)
    ensures t.Some? <==> ParseFullDate(s).Some?
    ensures t.Some? ==> t.value == DaysFromCivil(ParseFullDate(s).value) * MsPerDay
  {
    match ParseFullDate(s)
    case Some(d) => Some(DaysFromCivil(d) * MsPerDay)
    case None => None
  }

  /** `calculateRemainingDays`: the expiry day's number minus today's; negative once past. */
  function RemainingDays(expiryDate: string, nowMs: int): (r: Option<int>)
    ensures r.Some? <==> ParseFullDate(expiryDate).Some?
    ensures r.Some? ==> r.value == DaysFromCivil(ParseFullDate(expiryDate).value) - DayOfTime(nowMs)
  {
    match TimeOfDate(expiryDate)
    case Some(e) => Some(RemainingDaysAt(e, nowMs))
    case None => None
  }

  /** `Math.round(num / den)` for a positive denominator: the nearest integer, halves rounded up. */
  function RoundDiv(num: int, den: int): (r: int)
    requires den > 0
    ensures 2 * r * den - den <= 2 * num < 2 * r * den + den
  {
    (2 * num + den) / (2 * den)
  }

  /** `Math.max(lo, Math.min(hi, x))`. */
  function Clamp(x: int, lo: int, hi: int): int {
    if x < lo then lo else if x > hi then hi else x
  }

  /**
   * The freshness percentage for a span of `total` ms from production to
   * expiry of which `elapsed` ms have passed: `(total - elapsed) / total * 100`
   * clamped to 0..100 and rounded, and 0 for an empty or negative span.
   */
  function FreshnessOf(total: int, elapsed: int): (f: int)
    ensures 0 <= f <= 100
    ensures total <= 0 ==> f == 0
    ensures total > 0 ==>
      var c := Clamp(100 * (total - elapsed), 0, 100 * total);
      2 * f * total - total <= 2 * c < 2 * f * total + total
    ensures total > 0 && elapsed <= 0 ==> f == 100
    ensures total > 0 && elapsed >= total ==> f == 0
  {
    if total <= 0 then 0
    else
      var c := Clamp(100 * (total - elapsed), 0, 100 * total);
      var f := RoundDiv(c, total);
      RoundDivRange(c, total, f);
      f
  }

  /** The sign of a product with a positive factor is the sign of the other factor. */
  lemma ProductSign(x: int, t: int)
    requires t > 0
    ensures x * t > 0 <==> x > 0
  {
    if x > 0 {
      assert x * t >= t;
    } else {
      assert x * t <= 0;
    }
  }

  lemma RoundDivRange(c: int, total: int, f: int)
    requires total > 0 && 0 <= c <= 100 * total
    requires 2 * f * total - total <= 2 * c < 2 * f * total + total
    ensures 0 <= f <= 100
    ensures c == 0 ==> f == 0
    ensures c == 100 * total ==> f == 100
  {
    assert (2 * f + 1) * total > 0;
    ProductSign(2 * f + 1, total);
    assert (201 - 2 * f) * total > 0;
    ProductSign(201 - 2 * f, total);
    if c == 0 {
      assert (1 - 2 * f) * total >= 0;
      ProductSign(2 * f - 1, total);
    }
    if c == 100 * total {
      assert (2 * f - 199) * total > 0;
      ProductSign(2 * f - 199, total);
    }
  }

  /** Rounding the quotient is monotone in the numerator. */
  lemma RoundDivMonotone(a: int, b: int, den: int)
    requires den > 0 && a <= b
    ensures RoundDiv(a, den) <= RoundDiv(b, den)
  {
    var ra := RoundDiv(a, den);
    var rb := RoundDiv(b, den);
    assert (2 * rb - 2 * ra + 2) * den > 0;
    ProductSign(2 * rb - 2 * ra + 2, den);
  }

  /** Freshness never increases as time passes. */
  lemma FreshnessNonIncreasing(total: int, e1: int, e2: int)
    requires e1 <= e2
    ensures FreshnessOf(total, e2) <= FreshnessOf(total, e1)
  {
    if total > 0 {
      var c1 := Clamp(100 * (total - e1), 0, 100 * total);
      var c2 := Clamp(100 * (total - e2), 0, 100 * total);
      RoundDivMonotone(c2, c1, total);
    }
  }

  /** `calculateFreshness(productionDate, expiryDate)` at time `nowMs`. */
  function Freshness(productionDate: string, expiryDate: string, nowMs: int): (r: Option<int>)
    ensures r.Some? <==> ParseFullDate(productionDate).Some? && ParseFullDate(expiryDate).Some?
    ensures r.Some? ==> 0 <= r.value <= 100
    ensures r.Some? ==>
      var p := TimeOfDate(productionDate).value;
      var e := TimeOfDate(expiryDate).value;
      (e <= p ==> r.value == 0) && (p < e && nowMs <= p ==> r.value == 100) && (p < e <= nowMs ==> r.value == 0)
  {
    match (TimeOfDate(productionDate), TimeOfDate(expiryDate))
    case (Some(p), Some(e)) => Some(FreshnessOf(e - p, nowMs - p))
    case _ => None
  }

  /** Later moments never show a fresher item. */
  lemma FreshnessOverTime(productionDate: string, expiryDate: string, t1: int, t2: int)
    requires t1 <= t2
    requires ParseFullDate(productionDate).Some? && ParseFullDate(expiryDate).Some?
    ensures Freshness(productionDate, expiryDate, t2).value <= Freshness(productionDate, expiryDate, t1).value
  {
    var p := TimeOfDate(productionDate).value;
    var e := TimeOfDate(expiryDate).value;
    assert Freshness(productionDate, expiryDate, t1) == Some(FreshnessOf(e - p, t1 - p));
    assert Freshness(productionDate, expiryDate, t2) == Some(FreshnessOf(e - p, t2 - p));
    FreshnessNonIncreasing(e - p, t1 - p, t2 - p);
  }

  /** The threshold `isExpiringSoon` uses when none is given. */
  const DefaultThreshold: int := 3

  /** `isExpiringSoon(expiryDate, threshold)`: between one and `threshold` days remain (NaN compares false). */
  function IsExpiringSoon(expiryDate: string, nowMs: int, threshold: int): (b: bool)
    ensures b <==> (ParseFullDate(expiryDate).Some? &&
      0 < DaysFromCivil(ParseFullDate(expiryDate).value) - DayOfTime(nowMs) <= threshold)
  {
    match RemainingDays(expiryDate, nowMs)
    case Some(r) => r > 0 && r <= threshold
    case None => false
  }

  /** `isExpired(expiryDate)`: the expiry day is today or earlier. */
  function IsExpired(expiryDate: string, nowMs: int): (b: bool)
    ensures b <==> (ParseFullDate(expiryDate).Some? &&
      DaysFromCivil(ParseFullDate(expiryDate).value) <= DayOfTime(nowMs))
  {
    match RemainingDays(expiryDate, nowMs)
    case Some(r) => r <= 0
    case None => false
  }

  /** No date is both expired and expiring soon, whatever the threshold. */
  lemma ExpiredExcludesExpiringSoon(expiryDate: string, nowMs: int, threshold: int)
    ensures !(IsExpired(expiryDate, nowMs) && IsExpiringSoon(expiryDate, nowMs, threshold))
  {
  }

  /** A valid date with a non-negative threshold is in exactly one of three bands. */
  lemma ExpiryBands(expiryDate: string, nowMs: int, threshold: int)
    requires ParseFullDate(expiryDate).Some? && threshold >= 0
    ensures var r := RemainingDays(expiryDate, nowMs).value;
      (IsExpired(expiryDate, nowMs) <==> r <= 0)
      && (IsExpiringSoon(expiryDate, nowMs, threshold) <==> 0 < r <= threshold)
      && (!IsExpired(expiryDate, nowMs) && !IsExpiringSoon(expiryDate, nowMs, threshold) <==> r > threshold)
  {
  }

  /** `formatDate`: `<month>月<day>日` without zero padding; `NaN月NaN日` for an invalid date. */
  function FormatDate(dateString: string): (r: string)
    ensures ParseFullDate(dateString).None? ==> r == "NaN月NaN日"
  {
    match ParseFullDate(dateString)
    case Some(d) => NatToString(d.month) + "月" + NatToString(d.day) + "日"
    case None => "NaN月NaN日"
  }

  /** The display form reads back as the month (1..12, no leading zero) and the day. */
  lemma FormatDateReadBack(dateString: string)
    requires ParseFullDate(dateString).Some?
    ensures var d := ParseFullDate(dateString).value;
      var parts := Split(FormatDate(dateString), '月');
      |parts| == 2 && 1 <= d.month <= 12
      && parts[0][0] != '0' && ParseInteger(parts[0]) == Some(d.month)
      && parts[1] == NatToString(d.day) + "日"
  {
    var d := ParseFullDate(dateString).value;
    var m := NatToString(d.month);
    var rest := NatToString(d.day) + "日";
    assert '月' !in m;
    assert '月' !in rest by {
      assert forall i :: 0 <= i < |rest| - 1 ==> IsDigit(rest[i]);
    }
    assert Join([m, rest], '月') == FormatDate(dateString);
    SplitJoin([m, rest], '月');
    IntToStringRoundTrip(d.month);
  }

  lemma ExpiryExamples(nowMs: int)
    requires DayOfTime(nowMs) == DaysFromCivil(Date(2024, 1, 5))
    ensures RemainingDays("2024-01-08", nowMs) == Some(3)
    ensures IsExpiringSoon("2024-01-08", nowMs, DefaultThreshold)
    ensures !IsExpired("2024-01-08", nowMs)
  {
    FormatFullDateExample();
  }
}
