/** Exact-arithmetic stand-ins for the JavaScript number operations that the
    aggregation code depends on: `toFixed` rounding and division by zero. */
module Numbers {

  function Pow10(n: nat): (r: nat)
    ensures r >= 1
  {
    if n == 0 then 1 else 10 * Pow10(n - 1)
  }

  /** `x.toFixed(places)` read back as a number: the nearest multiple of
      10^-places, halves rounded away from zero. */
  function RoundTo(x: real, places: nat): (r: real)
    ensures RoundedFrom(r, x, places)
  {
    if x >= 0.0 then
      RoundUp(x, places)
    else
      var r := RoundUp(-x, places);
      assert RoundedFrom(-r, x, places) by { NegatedRounding(r, x, places); }
      -r
  }

  /** Rounding of a non-negative `x`: halves go up. */
  function RoundUp(x: real, places: nat): (r: real)
    requires x >= 0.0
    ensures RoundedFrom(r, x, places)
  {
    var n := Units(x, places);
    FloorBounds(x * (Pow10(places) as real) + 0.5);
    Scaled(n, Pow10(places) as real, x)
  }

  /** The two bounds of `Floor`, stated for one term. */
  lemma FloorBounds(y: real)
    ensures y.Floor as real <= y < y.Floor as real + 1.0
  {
  }

  /** Rounding commutes with negation for negative inputs. */
  lemma NegatedRounding(r: real, x: real, places: nat)
    requires x < 0.0 && RoundedFrom(r, -x, places)
    ensures RoundedFrom(-r, x, places)
  {
    var scale := Pow10(places) as real;
    assert Units(x, places) == -Units(-x, places);
    assert (-r) * scale == -(r * scale);
    assert (-r - x) * scale == (-x - r) * scale;
    assert (x - -r) * scale == (r - -x) * scale;
  }

  /** `r` is `x` rounded to `places` decimals: a whole number `Units(x, places)`
      of 10^-places, within half a unit of `x`, of the same sign, and 0 for 0. */
  predicate RoundedFrom(r: real, x: real, places: nat) {
    (x == 0.0 ==> r == 0.0) && (r > 0.0 ==> x > 0.0) && (r < 0.0 ==> x < 0.0)
    && (r - x) * (Pow10(places) as real) <= 0.5 && (x - r) * (Pow10(places) as real) <= 0.5
    && r * (Pow10(places) as real) == Units(x, places) as real
  }

  /** The whole number of units of 10^-places that `x.toFixed(places)` shows. */
  function Units(x: real, places: nat): int {
    var scale := Pow10(places) as real;
    if x >= 0.0 then (x * scale + 0.5).Floor else -(-x * scale + 0.5).Floor
  }

  /** `n / scale` for the rounded multiple `n` of `x * scale`. */
  function Scaled(n: int, scale: real, x: real): (r: real)
    requires scale >= 1.0 && x >= 0.0
    requires n as real <= x * scale + 0.5 < n as real + 1.0
    ensures r >= 0.0 && (x == 0.0 ==> r == 0.0) && (r > 0.0 ==> x > 0.0)
    ensures (r - x) * scale <= 0.5 && (x - r) * scale <= 0.5
    ensures r * scale == n as real
  {
    var r := (n as real) / scale;
    assert r * scale == n as real;
    assert (r - x) * scale == n as real - x * scale;
    assert (x - r) * scale == x * scale - n as real;
    r
  }

  /** `x` is what `y.toFixed(places)` may read back as: the two differ by at
      most half a unit in the last place. */
  predicate Near(x: real, y: real, places: nat) {
    (x - y) * (Pow10(places) as real) <= 0.5 && (y - x) * (Pow10(places) as real) <= 0.5
  }

  /** `total / n` for a positive count `n`. */
  function Mean(total: int, n: nat): (r: real)
    requires n > 0
    ensures r * (n as real) == total as real
  {
    (total as real) / (n as real)
  }

  /** A JavaScript quotient, which is not a finite number when the divisor is 0. */
  datatype Rate = Finite(value: real) | NotFinite

  /** `a / b * 100` in JavaScript: NaN or an infinity when `b` is 0. */
  function PercentOf(a: int, b: int): (r: Rate)
    ensures r.Finite? <==> b != 0
    ensures b != 0 ==> r.value * (b as real) == (a as real) * 100.0
  {
    if b == 0 then NotFinite else Finite((a as real) / (b as real) * 100.0)
  }

  /** `total > 0 ? (part / total * 100) : 0`, the zero-guarded percentage. */
  function GuardedPercent(part: int, total: int): (r: real)
    ensures total <= 0 ==> r == 0.0
    ensures total > 0 ==> r * (total as real) == (part as real) * 100.0
    ensures 0 <= part <= total ==> 0.0 <= r <= 100.0
  {
    if total > 0 then (part as real) / (total as real) * 100.0 else 0.0
  }

  /** `baseline > 0 ? ((count - baseline) / baseline * 100).toFixed(places) : 0`:
      how far `count` lies above the baseline, in percent. */
  function SpikePercentage(count: int, baseline: real, places: nat): (p: real)
    ensures baseline <= 0.0 ==> p == 0.0
    ensures baseline > 0.0 ==>
      var raw := ((count as real) - baseline) / baseline * 100.0;
      (p - raw) * (Pow10(places) as real) <= 0.5 && (raw - p) * (Pow10(places) as real) <= 0.5
    ensures baseline > 0.0 ==> RoundedFrom(p, ((count as real) - baseline) / baseline * 100.0, places)
    ensures baseline > 0.0 && (count as real) <= baseline ==> p <= 0.0
  {
    if baseline > 0.0 then RoundTo(((count as real) - baseline) / baseline * 100.0, places) else 0.0
  }
}
