/**
 * The statistics record that the browser scripts keep as JSON under the
 * storage key `gobet_user_stats` (and `gobet_user_stats_<id>` for other users).
 * Its fields are JavaScript numbers read back from JSON, so a field may be
 * absent, `null`, or (in memory, before it is written back) `NaN`.
 */
module JsStats {

  /** A number-valued property of a parsed JSON object, as JavaScript sees it. */
  datatype JsNum = Undefined | Null | NaN | Num(n: int)

  /** `v || 0`: every value that is not a non-zero number counts as 0. */
  function OrZero(v: JsNum): int {
    if v.Num? then v.n else 0
  }

  /** JavaScript's `a + b` on these values: `undefined` and `NaN` poison the sum, `null` counts as 0. */
  function Add(a: JsNum, b: JsNum): (r: JsNum)
    ensures r.Num? <==> (a.Null? || a.Num?) && (b.Null? || b.Num?)
    ensures r.Num? ==> r.n == OrZero(a) + OrZero(b)
    ensures !r.Num? ==> r.NaN?
  {
    if (a.Null? || a.Num?) && (b.Null? || b.Num?) then Num(OrZero(a) + OrZero(b)) else NaN
  }

  /** What a value becomes after `JSON.stringify` and `JSON.parse`: `NaN` is written as `null`. */
  function Stored(v: JsNum): (r: JsNum)
    ensures !r.NaN?
    ensures !v.NaN? ==> r == v
  {
    if v.NaN? then Null else v
  }

  /** The counters of `gobet_user_stats` that the modelled scripts read or write. */
  datatype StatsRecord = StatsRecord(
    betsCreated: JsNum,
    betsJoined: JsNum,
    betsWon: JsNum,
    betsLost: JsNum,
    totalWinnings: JsNum,
    winPercentage: JsNum,
    friends: JsNum)

  /** The record `JSON.parse('{}')` gives: every field absent. */
  const EmptyStats := StatsRecord(Undefined, Undefined, Undefined, Undefined, Undefined, Undefined, Undefined)

  /** No counter holds a negative number. */
  predicate NonNegative(s: StatsRecord) {
    OrZero(s.betsCreated) >= 0 && OrZero(s.betsJoined) >= 0 &&
    OrZero(s.betsWon) >= 0 && OrZero(s.betsLost) >= 0
  }

  /**
   * `Math.round(part / whole * 100)` in integer arithmetic: the integer nearest
   * to 100 * part / whole, halves rounded up.
   */
  function RoundPercent(part: int, whole: int): (r: int)
    requires whole > 0
    ensures 2 * whole * r <= 200 * part + whole < 2 * whole * (r + 1)
    ensures 0 <= part <= whole ==> 0 <= r <= 100
  {
    var r := (200 * part + whole) / (2 * whole);
    PercentBounds(part, whole, r);
    r
  }

  lemma PercentBounds(part: int, whole: int, r: int)
    requires whole > 0 && r == (200 * part + whole) / (2 * whole)
    ensures 2 * whole * r <= 200 * part + whole < 2 * whole * (r + 1)
    ensures 0 <= part <= whole ==> 0 <= r <= 100
  {
    var d := 2 * whole;
    var x := 200 * part + whole;
    var m := x % d;
    assert x == d * r + m && 0 <= m < d;
    assert d * (r + 1) == d * r + d;
    if 0 <= part <= whole {
      assert d * r < d * 101;
      CancelFactor(d, r, 101);
      assert d * 0 < d * (r + 1);
      CancelFactor(d, 0, r + 1);
    }
  }

  /** Multiplying both sides by the same positive factor keeps a strict order. */
  lemma CancelFactor(d: int, a: int, b: int)
    requires d > 0 && d * a < d * b
    ensures a < b
  {
  }
}
