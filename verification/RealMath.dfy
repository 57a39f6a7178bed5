/** Least, greatest and clamped numbers, and the few facts of real arithmetic the proofs lean on. */
module RealMath {

  function Min(a: int, b: int): int {
    if a < b then a else b
  }

  function Max(a: int, b: int): int {
    if a > b then a else b
  }

  function Clamp(v: int, lo: int, hi: int): int {
    if v < lo then lo else if v > hi then hi else v
  }

  function MinR(a: real, b: real): real {
    if a < b then a else b
  }

  function MaxR(a: real, b: real): real {
    if a > b then a else b
  }

  lemma ProductRises(a: real, b: real, c: real, d: real)
    requires 0.0 <= a <= c && 0.0 <= b <= d
    ensures 0.0 <= a * b <= c * d
  {
    assert a * b <= c * b <= c * d;
  }

  lemma ScaleDown(v: real, w: real)
    requires 0.0 <= v && 0.0 <= w <= 1.0
    ensures 0.0 <= v * w <= v
  {
    ProductRises(v, w, v, w);
    ProductRises(v, 1.0 - w, v, 1.0 - w);
    assert v * (1.0 - w) == v - v * w;
  }

  lemma DivIs(x: real, y: real, q: real)
    requires y != 0.0 && x == q * y
    ensures x / y == q
  {
  }

  lemma QuotientTimes(x: real, y: real)
    requires y != 0.0
    ensures (x / y) * y == x
  {
  }

  lemma Cancel(a: real, b: real, y: real)
    requires y > 0.0
    ensures a * y <= b * y ==> a <= b
    ensures a * y < b * y ==> a < b
  {
    var i := 1.0 / y;
    assert y * i == 1.0;
    assert a == (a * y) * i && b == (b * y) * i;
    assert i > 0.0;
    if a * y <= b * y {
      ProductRises(b * y - a * y, i, b * y - a * y, i);
      assert (b * y - a * y) * i == b - a;
    }
  }

  lemma ShareBelowOne(x: real, y: real)
    requires 0.0 <= x < y
    ensures x / y < 1.0
  {
    QuotientTimes(x, y);
    Cancel(x / y, 1.0, y);
    assert (x / y) * y < 1.0 * y;
  }

  lemma FloorIs(x: real, k: int)
    requires k as real <= x < k as real + 1.0
    ensures x.Floor == k
  {
  }

  /** Between u and v in [lo, hi], a weighted mean stays there. */
  lemma MeanStays(a: real, b: real, t: real, lo: real, hi: real)
    requires lo <= a <= hi && lo <= b <= hi && 0.0 <= t <= 1.0
    ensures lo <= a * (1.0 - t) + b * t <= hi
    ensures lo <= a + (b - a) * t <= hi
  {
    var s := 1.0 - t;
    ProductRises(a - lo, s, hi - lo, s);
    ProductRises(b - lo, t, hi - lo, t);
    ProductRises(hi - a, s, hi - lo, s);
    ProductRises(hi - b, t, hi - lo, t);
    assert (a - lo) * s + (b - lo) * t == a * s + b * t - lo;
    assert (hi - a) * s + (hi - b) * t == hi - (a * s + b * t);
    assert a + (b - a) * t == a * s + b * t;
  }
}
