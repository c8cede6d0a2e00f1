/** Python's numeric helpers as the generators and dashboards use them:
    clamping with `min`/`max` and the built-in `round`, which rounds halves to
    the even neighbour. Floats are modelled as exact reals. */
module Numeric {

  /** `min(max(x, lo), hi)`, the order data.py writes. */
  function ClampInt(x: int, lo: int, hi: int): (r: int)
    ensures r <= hi
    ensures lo <= hi ==> lo <= r
    ensures lo <= x <= hi ==> r == x
    ensures x < lo <= hi ==> r == lo
    ensures hi < x ==> r == hi
  {
    var up := if x < lo then lo else x;
    if up < hi then up else hi
  }

  /** `min(max(x, lo), hi)` on floats. */
  function ClampReal(x: real, lo: real, hi: real): (r: real)
    ensures r <= hi
    ensures lo <= hi ==> lo <= r
    ensures lo <= x <= hi ==> r == x
    ensures x < lo <= hi ==> r == lo
    ensures hi < x ==> r == hi
  {
    var up := if x < lo then lo else x;
    if up < hi then up else hi
  }

  /** `max(lo, min(hi, x))`, the order ds/data.py writes. */
  function ClampRealUpperFirst(x: real, lo: real, hi: real): (r: real)
    ensures lo <= r
    ensures lo <= hi ==> r <= hi
    ensures lo <= x <= hi ==> r == x
  {
    var down := if hi < x then hi else x;
    if down < lo then lo else down
  }

  /** Both spellings of the clamp agree whenever the bounds are ordered. */
  lemma ClampOrdersAgree(x: real, lo: real, hi: real)
    requires lo <= hi
    ensures ClampRealUpperFirst(x, lo, hi) == ClampReal(x, lo, hi)
  {
  }

  /** Python's `round(x)`: the nearest integer, halves going to the even one. */
  function RoundHalfEven(x: real): (n: int)
    ensures (n as real) - 0.5 <= x <= (n as real) + 0.5
    ensures (x == (n as real) - 0.5 || x == (n as real) + 0.5) ==> n % 2 == 0
  {
    var f := x.Floor;
    var d := x - f as real;
    if d < 0.5 then f
    else if d > 0.5 then f + 1
    else if f % 2 == 0 then f
    else f + 1
  }

  /** The two properties in RoundHalfEven's contract single out its result. */
  lemma RoundHalfEvenUnique(x: real, n: int)
    requires (n as real) - 0.5 <= x <= (n as real) + 0.5
    requires (x == (n as real) - 0.5 || x == (n as real) + 0.5) ==> n % 2 == 0
    ensures RoundHalfEven(x) == n
  {
  }

  lemma RoundHalfEvenMonotone(x: real, y: real)
    requires x <= y
    ensures RoundHalfEven(x) <= RoundHalfEven(y)
  {
  }

  lemma RoundHalfEvenOfInt(k: int)
    ensures RoundHalfEven(k as real) == k
  {
    RoundHalfEvenUnique(k as real, k);
  }

  /** Python's `round(x, 1)`: to one decimal, halves to even. */
  function Round1(x: real): (r: real)
    ensures x - 0.05 <= r <= x + 0.05
    ensures (r * 10.0).Floor as real == r * 10.0
  {
    (RoundHalfEven(x * 10.0) as real) / 10.0
  }

  /** Rounding to one decimal keeps a value between two one-decimal numbers
      `a / 10` and `b / 10` between them. */
  lemma Round1Between(x: real, a: int, b: int)
    requires (a as real) / 10.0 <= x <= (b as real) / 10.0
    ensures (a as real) / 10.0 <= Round1(x) <= (b as real) / 10.0
  {
    RoundHalfEvenMonotone(a as real, x * 10.0);
    RoundHalfEvenMonotone(x * 10.0, b as real);
    RoundHalfEvenOfInt(a);
    RoundHalfEvenOfInt(b);
  }

  /** In particular rounding keeps a value inside [1, 10]. */
  lemma Round1WithinOneToTen(x: real)
    requires 1.0 <= x <= 10.0
    ensures 1.0 <= Round1(x) <= 10.0
  {
    Round1Between(x, 10, 100);
  }
}
