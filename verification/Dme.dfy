/** DME boxes (engine/src/core/dme.hpp, engine/src/core/dme.cpp): the box of a keyer's settings, the filter's
    weights, and the two-pass resample into the box buffer. Buffers are two-dimensional here. */
module Dme {
  import opened RealMath
  import opened Keyframes

  datatype Kind = Pip | Luma | Linear

  const MAX_TAPS := 32
  const MIN_FILTER_SCALE := 0.125

  /** One grain's box on a raster, without its decoration. */
  datatype Box = Box(
    kind: Kind, width: int, height: int, s: real, dx: real, dy: real, fs: real, sup: real, taps: int,
    cl: int, cr: int, ct: int, cb: int, px: int, py: int, pw: int, ph: int, cols: int, r0: int, rows: int)

  /** The least integer not below x. */
  function Ceil(x: real): int {
    -((-x).Floor)
  }

  // ---- the filter ----------------------------------------------------------------------------------------

  function CatmullRom(x0: real): real {
    var x := if x0 < 0.0 then -x0 else x0;
    if x < 1.0 then (1.5 * x - 2.5) * x * x + 1.0
    else if x < 2.0 then ((-0.5 * x + 2.5) * x - 4.0) * x + 2.0
    else 0.0
  }

  function FirstTap(c: real, sup: real): int {
    (c - sup).Floor + 1
  }

  function LastTap(c: real, sup: real): int {
    (c + sup).Floor
  }

  /** Tap i before the weights are made to sum to 1. */
  function RawAt(c: real, fs: real, sup: real, i: nat): real {
    var j := FirstTap(c, sup) + i;
    if j <= LastTap(c, sup) then CatmullRom((j as real - c) * fs) else 0.0
  }

  function RawSum(c: real, fs: real, sup: real, n: nat): real {
    if n == 0 then 0.0 else RawSum(c, fs, sup, n - 1) + RawAt(c, fs, sup, n - 1)
  }

  /** A filter of scale fs, its support and its taps. */
  predicate FilterOk(fs: real, sup: real, taps: int) {
    MIN_FILTER_SCALE <= fs <= 1.0 && sup * fs == 2.0 && 2.0 * sup <= taps as real && 4 <= taps <= MAX_TAPS
  }

  /** The window never holds more samples than there are taps. */
  lemma WindowFits(c: real, fs: real, sup: real, taps: int)
    requires FilterOk(fs, sup, taps)
    ensures LastTap(c, sup) - FirstTap(c, sup) < taps
  {
    var a, b := (c - sup).Floor, (c + sup).Floor;
    assert (b - a) as real < taps as real + 1.0;
  }

  /** The kernel from below: high around its middle, never lower than its ringing, nothing outside. */
  lemma KernelBounds(x: real)
    ensures -0.5 <= x <= 0.5 ==> CatmullRom(x) >= 0.5625
    ensures -1.0 <= x <= 1.0 ==> CatmullRom(x) >= 0.0
    ensures CatmullRom(x) >= -0.075
  {
    var y := if x < 0.0 then -x else x;
    if y <= 0.5 {
      // 1 - y^2 (2.5 - 1.5 y) >= 1 - 0.25 * 1.75 at y = 0.5
      var d := 0.5 - y;
      ProductRises(d, y, d, y);
      Cube(d, y);
      MiddleHigh(y, d);
    } else if y < 1.0 {
      MiddlePositive(y);
    } else if y < 2.0 {
      Ringing(y);
    }
  }

  lemma Cube(a: real, b: real)
    requires a >= 0.0 && b >= 0.0
    ensures a * a >= 0.0 && b * b >= 0.0 && a * b >= 0.0 && a * a * b >= 0.0 && a * b * b >= 0.0
  {
    ProductRises(a, a, a, a);
    ProductRises(b, b, b, b);
    ProductRises(a, b, a, b);
    ProductRises(a * a, b, a * a, b);
    ProductRises(a * b, b, a * b, b);
  }

  lemma MiddleHigh(y: real, d: real)
    requires 0.0 <= y && d == 0.5 - y && d >= 0.0
    ensures (1.5 * y - 2.5) * y * y + 1.0 >= 0.5625
  {
    Cube(d, y);
    Cube(d, d);
    assert (1.5 * y - 2.5) * y * y + 1.0 - 0.5625 == 1.375 * d - 0.25 * (d * d) - 1.5 * (d * d * d);
    assert d * d <= d * 0.5 by { ProductRises(d, d, d, 0.5); }
    assert d * d * d <= (d * d) * 0.5 by { ProductRises(d * d, d, d * d, 0.5); }
  }

  lemma MiddlePositive(y: real)
    requires 0.0 <= y <= 1.0
    ensures (1.5 * y - 2.5) * y * y + 1.0 >= 0.0
  {
    var d := 1.0 - y;
    Cube(d, y);
    Cube(d, d);
    assert (1.5 * y - 2.5) * y * y + 1.0 == 0.5 * d + 2.0 * (d * d) - 1.5 * (d * d * d);
    assert d * d * d <= d * d by { ProductRises(d * d, d, d * d, 1.0); }
  }

  lemma Ringing(y: real)
    requires 1.0 <= y < 2.0
    ensures ((-0.5 * y + 2.5) * y - 4.0) * y + 2.0 >= -0.075
  {
    // -(1/2) u (1 - u)^2 with u = y - 1, lowest at u = 1/3
    var u := y - 1.0;
    var e := u - 1.0 / 3.0;
    assert ((-0.5 * y + 2.5) * y - 4.0) * y + 2.0 == -0.5 * u * (1.0 - u) * (1.0 - u);
    Cube(u, 1.0 - u);
    Square(e);
    assert u * (1.0 - u) * (1.0 - u) == 4.0 / 27.0 - (4.0 / 3.0 - u) * (e * e);
    ProductRises(4.0 / 3.0 - u, e * e, 4.0 / 3.0 - u, e * e);
  }

  lemma Square(e: real)
    ensures e * e >= 0.0
  {
    if e >= 0.0 { ProductRises(e, e, e, e); } else { ProductRises(-e, -e, -e, -e); }
  }

  // ---- the weights sum to 1 --------------------------------------------------------------------------------

  /** How many of 0 .. n - 1 lie in [lo, hi]. */
  function Count(lo: int, hi: int, n: nat): (r: nat)
    ensures r as int == Max(0, Min(hi, n - 1) - Max(lo, 0) + 1)
  {
    if n == 0 then 0 else Count(lo, hi, n - 1) + if lo <= n - 1 <= hi then 1 else 0
  }

  /** The whole numbers from c - h to c + h. */
  function Lo(c: real, h: real): int {
    Ceil(c - h)
  }

  function Hi(c: real, h: real): int {
    (c + h).Floor
  }

  lemma InRange(c: real, h: real, j: int)
    ensures Lo(c, h) <= j <= Hi(c, h) <==> c - h <= j as real <= c + h
  {
  }

  /** Taps within half a kernel unit of c weigh at least 0.5625, those within one unit not less than 0, the
      others not less than the ringing. */
  lemma TapAtLeast(c: real, fs: real, sup: real, i: nat, half: real)
    requires fs > 0.0 && half * fs == 0.5 && sup == 4.0 * half && half > 0.0
    ensures var j := FirstTap(c, sup) + i;
            RawAt(c, fs, sup, i) >= (if Lo(c, half) <= j <= Hi(c, half) then 0.5625 else 0.0)
                                    - (if j <= LastTap(c, sup) && !(Lo(c, 2.0 * half) <= j <= Hi(c, 2.0 * half)) then 0.075 else 0.0)
  {
    hide CatmullRom, Lo, Hi;
    var j := FirstTap(c, sup) + i;
    InRange(c, half, j);
    InRange(c, 2.0 * half, j);
    KernelBounds((j as real - c) * fs);
    if c - half <= j as real <= c + half { Scaled(j as real - c, half, fs, 0.5); }
    if c - 2.0 * half <= j as real <= c + 2.0 * half { Scaled(j as real - c, 2.0 * half, fs, 1.0); }
  }

  lemma Scaled(d: real, half: real, fs: real, k: real)
    requires -half <= d <= half && fs > 0.0 && half * fs == k
    ensures -k <= d * fs <= k
  {
    ProductRises(half - d, fs, half - d, fs);
    ProductRises(half + d, fs, half + d, fs);
    assert (half - d) * fs == k - d * fs && (half + d) * fs == k + d * fs;
  }

  lemma CountStep(lo: int, hi: int, n: nat)
    requires n > 0
    ensures Count(lo, hi, n) == Count(lo, hi, n - 1) + if lo <= n - 1 <= hi then 1 else 0
  {
  }

  /** How many taps lie in the middle, in the ringing, and in the window. */
  function Middle(c: real, sup: real, half: real, n: nat): nat {
    Count(Lo(c, half) - FirstTap(c, sup), Hi(c, half) - FirstTap(c, sup), n)
  }

  function Outer(c: real, sup: real, half: real, n: nat): int {
    Count(0, LastTap(c, sup) - FirstTap(c, sup), n) - Count(Lo(c, 2.0 * half) - FirstTap(c, sup), Hi(c, 2.0 * half) - FirstTap(c, sup), n)
  }

  lemma {:induction false} RawSumAtLeast(c: real, fs: real, sup: real, n: nat, half: real)
    requires fs > 0.0 && half * fs == 0.5 && sup == 4.0 * half && half > 0.0
    ensures RawSum(c, fs, sup, n) >= 0.5625 * Middle(c, sup, half, n) as real - 0.075 * Outer(c, sup, half, n) as real
    decreases n
  {
    hide RawAt, Count, Lo, Hi;
    if n > 0 {
      RawSumAtLeast(c, fs, sup, n - 1, half);
      TapAtLeast(c, fs, sup, n - 1, half);
      var f := FirstTap(c, sup);
      CountStep(Lo(c, half) - f, Hi(c, half) - f, n);
      CountStep(Lo(c, 2.0 * half) - f, Hi(c, 2.0 * half) - f, n);
      CountStep(0, LastTap(c, sup) - f, n);
      InWindow(c, sup, half, f + n - 1);
    }
  }

  lemma InWindow(c: real, sup: real, half: real, j: int)
    requires sup == 4.0 * half && half > 0.0
    ensures Lo(c, 2.0 * half) <= j <= Hi(c, 2.0 * half) ==> FirstTap(c, sup) <= j <= LastTap(c, sup)
    ensures FirstTap(c, sup) <= Lo(c, half) && FirstTap(c, sup) <= Lo(c, 2.0 * half) && Hi(c, 2.0 * half) <= LastTap(c, sup) && Hi(c, half) <= LastTap(c, sup)
  {
  }

  /** The unnormalised weights of a window always sum to something positive. */
  lemma RawSumIsPositive(c: real, fs: real, sup: real, taps: int)
    requires FilterOk(fs, sup, taps)
    ensures RawSum(c, fs, sup, taps) > 0.0
  {
    var half := sup / 4.0;
    assert half * fs == 0.5;
    assert half >= 0.5 by { Cancel(0.5, half, fs); }
    RawSumAtLeast(c, fs, sup, taps, half);
    WindowFits(c, fs, sup, taps);
    InWindow(c, sup, half, 0);
    var m := Middle(c, sup, half, taps);
    var mid := Hi(c, half) - Lo(c, half) + 1;
    var in1, all := Hi(c, 2.0 * half) - Lo(c, 2.0 * half) + 1, LastTap(c, sup) - FirstTap(c, sup) + 1;
    assert m == mid && Outer(c, sup, half, taps) == all - in1;
    assert mid as real > 2.0 * half - 1.0 && mid >= 1;
    assert in1 as real > 4.0 * half - 1.0 && all as real <= 8.0 * half + 1.0;
    assert (all - in1) as real < 4.0 * half + 2.0;
    assert 2.0 * half < mid as real + 1.0;
  }

  function WeightAt(c: real, fs: real, sup: real, taps: int, i: nat): real
    requires FilterOk(fs, sup, taps)
  {
    RawSumIsPositive(c, fs, sup, taps);
    RawAt(c, fs, sup, i) / RawSum(c, fs, sup, taps)
  }

  function WeightSum(c: real, fs: real, sup: real, taps: int, n: nat): real
    requires FilterOk(fs, sup, taps)
  {
    if n == 0 then 0.0 else WeightSum(c, fs, sup, taps, n - 1) + WeightAt(c, fs, sup, taps, n - 1)
  }

  lemma {:induction false} WeightsAreShares(c: real, fs: real, sup: real, taps: int, n: nat)
    requires FilterOk(fs, sup, taps)
    ensures WeightSum(c, fs, sup, taps, n) * RawSum(c, fs, sup, taps) == RawSum(c, fs, sup, n)
  {
    hide RawAt;
    if n > 0 {
      WeightsAreShares(c, fs, sup, taps, n - 1);
      RawSumIsPositive(c, fs, sup, taps);
      QuotientTimes(RawAt(c, fs, sup, n - 1), RawSum(c, fs, sup, taps));
    }
  }

  /** The weights of every output sample sum to exactly 1. */
  lemma WeightsSumToOne(c: real, fs: real, sup: real, taps: int)
    requires FilterOk(fs, sup, taps)
    ensures WeightSum(c, fs, sup, taps, taps) == 1.0
  {
    hide RawSum, WeightSum;
    WeightsAreShares(c, fs, sup, taps, taps);
    RawSumIsPositive(c, fs, sup, taps);
    var s, w := RawSum(c, fs, sup, taps), WeightSum(c, fs, sup, taps, taps);
    Cancel(w, 1.0, s);
    Cancel(1.0, w, s);
  }

  /** The weights of one output sample; its first tap. */
  method Weights(c: real, fs: real, sup: real, taps: int, w: array<real>) returns (i0: int)
    requires FilterOk(fs, sup, taps) && w.Length >= taps
    modifies w
    ensures i0 == FirstTap(c, sup)
    ensures forall i :: 0 <= i < taps ==> w[i] == WeightAt(c, fs, sup, taps, i)
  {
    hide RawAt, FilterOk;
    i0 := FirstTap(c, sup);
    RawSumIsPositive(c, fs, sup, taps);
    assert taps >= 4 by { TapCount(fs, sup, taps); }
    var sum := 0.0;
    for i := 0 to taps
      invariant sum == RawSum(c, fs, sup, i)
      invariant forall k :: 0 <= k < i ==> w[k] == RawAt(c, fs, sup, k)
    {
      w[i] := RawAt(c, fs, sup, i);
      sum := sum + w[i];
    }
    for i := 0 to taps
      invariant forall k :: 0 <= k < i ==> w[k] == WeightAt(c, fs, sup, taps, k)
      invariant forall k :: i <= k < taps ==> w[k] == RawAt(c, fs, sup, k)
    {
      w[i] := w[i] / sum;
    }
  }

  lemma TapCount(fs: real, sup: real, taps: int)
    requires FilterOk(fs, sup, taps)
    ensures 4 <= taps <= MAX_TAPS && sup > 0.0
  {
    if sup <= 0.0 { ProductRises(-sup, fs, -sup, fs); }
  }

  // ---- the box ---------------------------------------------------------------------------------------------

  /** Continuous source indices of luma column, chroma column and row o of the box buffer. */
  function LumaIndex(b: Box, o: int): real
    requires b.s != 0.0
  {
    ((b.px + o) as real + 0.5 - b.dx) / b.s - 0.5
  }

  function ChromaIndex(b: Box, o: int): real
    requires b.s != 0.0
  {
    (((b.px + 2 * o) as real + 0.5 - b.dx) / b.s - 0.5) * 0.5
  }

  function RowIndex(b: Box, o: int): real
    requires b.s != 0.0
  {
    ((b.py + o) as real + 0.5 - b.dy) / b.s - 0.5
  }

  /** The last tap of the last row that has a weight. */
  function LastRow(b: Box): int
    requires b.s != 0.0
  {
    var c := RowIndex(b, b.ph - 1);
    Min(LastTap(c, b.sup), FirstTap(c, b.sup) + b.taps - 1)
  }

  /** The crop on whole samples inside the source, the box buffer inside the raster, and the source rows the
      horizontal pass computes. */
  predicate BoxFits(b: Box) {
    && b.width >= 2 && b.width % 2 == 0 && b.height >= 1
    && 0 <= b.cl && b.cl + 2 <= b.cr <= b.width && b.cl % 2 == 0 && b.cr % 2 == 0 && 0 <= b.ct < b.cb <= b.height
    && FilterOk(b.fs, b.sup, b.taps)
    && (b.pw > 0 <==> b.ph > 0) && b.pw >= 0 && b.ph >= 0 && b.pw % 2 == 0
    && b.cols == (if b.kind == Kind.Linear then 3 else 2) * b.pw
    && (b.ph > 0 ==>
          && b.s > 0.0 && 0 <= b.px && b.px % 2 == 0 && b.px + b.pw <= b.width && 0 <= b.py && b.py + b.ph <= b.height
          && b.r0 == Clamp(FirstTap(RowIndex(b, 0), b.sup), b.ct, b.cb - 1)
          && b.rows == Clamp(LastRow(b), b.ct, b.cb - 1) - b.r0 + 1)
  }

  predicate CropOk(d: BoxState) {
    d.cropLeft >= 0.0 && d.cropRight >= 0.0 && d.cropTop >= 0.0 && d.cropBottom >= 0.0
  }

  /** The tap counts the resample is compiled for. */
  function TapsFor(need: int): int {
    if need <= 4 then 4 else if need <= 8 then 8 else if need <= 12 then 12 else if need <= 16 then 16 else if need <= 24 then 24 else 32
  }

  lemma FilterFits(s: real)
    requires s >= 0.0
    ensures var fs := MaxR(MinR(s, 1.0), MIN_FILTER_SCALE);
            fs > 0.0 && FilterOk(fs, 2.0 / fs, TapsFor(Ceil(2.0 * (2.0 / fs))))
  {
    var fs := MaxR(MinR(s, 1.0), MIN_FILTER_SCALE);
    var sup := 2.0 / fs;
    QuotientTimes(2.0, fs);
    Cancel(sup, 16.0, fs);
    assert sup <= 16.0;
    assert Ceil(2.0 * sup) as real >= 2.0 * sup;
    assert Ceil(2.0 * sup) <= 32;
  }

  /** Source rows rise with the box's rows. */
  lemma RowsRise(b: Box, i: int, j: int)
    requires b.s > 0.0 && i <= j
    ensures RowIndex(b, i) <= RowIndex(b, j)
  {
    var x, y := (b.py + i) as real + 0.5 - b.dy, (b.py + j) as real + 0.5 - b.dy;
    QuotientTimes(x, b.s);
    QuotientTimes(y, b.s);
    Cancel(x / b.s, y / b.s, b.s);
  }

  /** The box of an unmoved, uncropped picture at size 1. */
  predicate IsWholeRaster(b: Box) {
    && b.s == 1.0 && b.dx == 0.0 && b.dy == 0.0 && b.fs == 1.0 && b.sup == 2.0 && b.taps == 4
    && b.cl == 0 && b.cr == b.width && b.ct == 0 && b.cb == b.height && b.px == 0 && b.pw == b.width && b.py == 0 && b.ph == b.height
  }

  predicate WholeState(d: BoxState) {
    d.x == 0.5 && d.y == 0.5 && d.size == 1.0 && d.cropLeft == 0.0 && d.cropRight == 0.0 && d.cropTop == 0.0 && d.cropBottom == 0.0
  }

  /** Where the uncropped source begins on an axis of the raster, and where its sample n begins. */
  function Origin(x: real, n: int, s: real): real {
    x * n as real - 0.5 * n as real * s
  }

  function Corner(origin: real, n: int, s: real): real {
    origin + n as real * s
  }

  /** The crop in whole samples, columns even. */
  method Crop(d: BoxState, width: int, height: int) returns (cl: int, cr: int, ct: int, cb: int)
    requires CropOk(d) && width >= 2 && width % 2 == 0 && height >= 1
    ensures 0 <= cl && cl + 2 <= cr <= width && cl % 2 == 0 && cr % 2 == 0 && 0 <= ct < cb <= height
    ensures WholeState(d) ==> cl == 0 && cr == width && ct == 0 && cb == height
  {
    var w, h := width as real, height as real;
    CropsFit(d, w, h);
    if WholeState(d) { WholeNumbers(width, height); }
    cl := Min(2 * (d.cropLeft * w * 0.5 + 0.5).Floor, width - 2);
    cr := Max(width - 2 * (d.cropRight * w * 0.5 + 0.5).Floor, cl + 2);
    ct := Min((d.cropTop * h + 0.5).Floor, height - 1);
    cb := Max(height - (d.cropBottom * h + 0.5).Floor, ct + 1);
  }

  /** The part of the raster the picture's rectangle touches, its columns widened to even ones. */
  method Touched(s: real, left: real, right: real, top: real, bottom: real, width: int, height: int) returns (px: int, pw: int, py: int, ph: int)
    requires width >= 2 && width % 2 == 0 && height >= 1
    ensures 0 <= px && px % 2 == 0 && pw >= 0 && pw % 2 == 0 && px + pw <= width && 0 <= py && ph >= 0 && py + ph <= height
    ensures (pw > 0 <==> ph > 0) && (pw > 0 ==> s > 0.0)
    ensures s == 1.0 && left == 0.0 && right == width as real && top == 0.0 && bottom == height as real ==> px == 0 && pw == width && py == 0 && ph == height
  {
    px, pw, py, ph := 0, 0, 0, 0;
    if s > 0.0 && right > 0.0 && left < width as real && bottom > 0.0 && top < height as real {
      var x0, x1 := left.Floor, Ceil(right);
      x0 := x0 - x0 % 2;
      x1 := x1 + x1 % 2;
      x0 := Max(x0, 0);
      x1 := Min(x1, width);
      var y0, y1 := Max(top.Floor, 0), Min(Ceil(bottom), height);
      if x1 > x0 && y1 > y0 {
        px, pw, py, ph := x0, x1 - x0, y0, y1 - y0;
      }
    }
  }

  /** The box of settings d on a raster: it fits, and is the whole raster for a centred uncropped picture of size 1. */
  method MakeBox(d: BoxState, kind: Kind, width: int, height: int) returns (b: Box)
    requires CropOk(d) && d.size >= 0.0 && width >= 2 && width % 2 == 0 && height >= 1
    ensures BoxFits(b) && b.kind == kind && b.width == width && b.height == height && b.s == d.size
    ensures b.dx == Origin(d.x, width, d.size) && b.dy == Origin(d.y, height, d.size)
    ensures WholeState(d) ==> IsWholeRaster(b)
  {
    hide FilterOk, TapsFor, CropOk, Origin, Corner, RowIndex, LastRow, Ceil;
    var fs := MaxR(MinR(d.size, 1.0), MIN_FILTER_SCALE);
    var sup := 2.0 / fs;
    FilterFits(d.size);
    var taps := TapsFor(Ceil(2.0 * sup));
    var cl, cr, ct, cb := Crop(d, width, height);
    var dx, dy := Origin(d.x, width, d.size), Origin(d.y, height, d.size);
    if WholeState(d) { WholeBox(width, height); }
    var px, pw, py, ph := Touched(d.size, Corner(dx, cl, d.size), Corner(dx, cr, d.size), Corner(dy, ct, d.size), Corner(dy, cb, d.size), width, height);
    var cols := if pw == 0 then 0 else if kind == Kind.Linear then 3 * pw else 2 * pw;
    b := Box(kind, width, height, d.size, dx, dy, fs, sup, taps, cl, cr, ct, cb, px, py, pw, ph, cols, 0, 0);
    if b.ph > 0 {
      var r0 := Clamp(FirstTap(RowIndex(b, 0), sup), ct, cb - 1);
      var rows := Clamp(LastRow(b), ct, cb - 1) - r0 + 1;
      RowsStay(b, r0, rows);
      b := b.(r0 := r0, rows := rows);
    }
  }

  /** The rows a box computes do not move it. */
  lemma RowsStay(b: Box, r0: int, rows: int)
    requires b.s != 0.0
    ensures RowIndex(b.(r0 := r0, rows := rows), 0) == RowIndex(b, 0) && LastRow(b.(r0 := r0, rows := rows)) == LastRow(b)
  {
  }

  lemma WholeBox(width: int, height: int)
    ensures Origin(0.5, width, 1.0) == 0.0 && Origin(0.5, height, 1.0) == 0.0
    ensures 2.0 / 1.0 == 2.0 && TapsFor(Ceil(2.0 * 2.0)) == 4
    ensures Corner(0.0, 0, 1.0) == 0.0 && Corner(0.0, width, 1.0) == width as real && Corner(0.0, height, 1.0) == height as real
  {
  }

  lemma CropsFit(d: BoxState, w: real, h: real)
    requires CropOk(d) && w >= 0.0 && h >= 0.0
    ensures (d.cropLeft * w * 0.5 + 0.5).Floor >= 0 && (d.cropRight * w * 0.5 + 0.5).Floor >= 0
    ensures (d.cropTop * h + 0.5).Floor >= 0 && (d.cropBottom * h + 0.5).Floor >= 0
  {
    ProductRises(d.cropLeft, w, d.cropLeft, w);
    ProductRises(d.cropRight, w, d.cropRight, w);
    ProductRises(d.cropTop, h, d.cropTop, h);
    ProductRises(d.cropBottom, h, d.cropBottom, h);
  }

  lemma WholeNumbers(width: int, height: int)
    ensures (0.0 * width as real * 0.5 + 0.5).Floor == 0 && (0.0 * height as real + 0.5).Floor == 0
  {
  }

  // ---- the resample ------------------------------------------------------------------------------------------

  /** Weight table entries: luma columns, chroma columns, rows. */
  function Entries(b: Box): int {
    b.pw + b.pw / 2 + b.ph
  }

  function EntryIndex(b: Box, e: int): real
    requires b.s != 0.0
  {
    if e < b.pw then LumaIndex(b, e) else if e < b.pw + b.pw / 2 then ChromaIndex(b, e - b.pw) else RowIndex(b, e - b.pw - b.pw / 2)
  }

  /** A column of the buffer: its plane (0 Y, 1 Cb, 2 Cr, 3 key), table entry and the crop on that plane. */
  datatype Column = Column(plane: int, entry: int, lo: int, hi: int)

  function PlaneOf(b: Box, e: int): Column
    requires b.pw >= 2 && 0 <= e
  {
    var cw := b.pw / 2;
    if e < b.pw then Column(0, e, b.cl, b.cr)
    else if e < b.pw + 2 * cw then Column(if e < b.pw + cw then 1 else 2, b.pw + (e - b.pw) % cw, b.cl / 2, b.cr / 2)
    else Column(3, e - b.pw - 2 * cw, b.cl, b.cr)
  }

  function PlaneWidth(b: Box, plane: int): int {
    if plane == 1 || plane == 2 then b.width / 2 else b.width
  }

  /** Every index of the horizontal pass is inside its table and its plane. */
  lemma ColumnFits(b: Box, e: int)
    requires BoxFits(b) && b.pw > 0 && 0 <= e < b.cols
    ensures var c := PlaneOf(b, e);
            && b.pw >= 2 && 0 <= c.entry < b.pw + b.pw / 2 <= Entries(b) && 0 <= c.lo < c.hi <= PlaneWidth(b, c.plane)
            && 0 <= c.plane < if b.kind == Kind.Linear then 4 else 3
  {
  }

  type Source = seq<seq<seq<real>>>

  predicate SourceFits(b: Box, src: Source) {
    && b.width >= 0 && b.height >= 0
    && |src| == (if b.kind == Kind.Linear then 4 else 3)
    && (forall p :: 0 <= p < |src| ==> |src[p]| == b.height)
    && (forall p, r :: 0 <= p < |src| && 0 <= r < b.height ==> |src[p][r]| == PlaneWidth(b, p))
  }

  function Dot(w: seq<real>, v: seq<real>): real
    requires |w| == |v|
  {
    if |w| == 0 then 0.0 else Dot(w[..|w| - 1], v[..|v| - 1]) + w[|w| - 1] * v[|v| - 1]
  }

  lemma {:induction false} DotSame(w: seq<real>, v: seq<real>, u: seq<real>)
    requires |w| == |v| == |u| && forall i :: 0 <= i < |w| ==> w[i] == 0.0 || v[i] == u[i]
    ensures Dot(w, v) == Dot(w, u)
  {
    if |w| > 0 {
      var n := |w| - 1;
      DotSame(w[..n], v[..n], u[..n]);
      if w[n] == 0.0 { assert w[n] * v[n] == 0.0 && w[n] * u[n] == 0.0; }
    }
  }

  /** The horizontal pass keeps 16 times the value in 16 bits. */
  function ToMid(acc: real): int {
    (MaxR(-32768.0, MinR(acc * 16.0, 32767.0)) + 0.5).Floor
  }

  /** A 10-bit sample, or a premultiplied fill sample. */
  function ToBox(acc: real, premultiplied: bool): int {
    (MaxR(if premultiplied then -1023.0 else 0.0, MinR(acc / 16.0, 1023.0)) + 0.5).Floor
  }

  /** The weights of a table entry. */
  function WeightsOf(b: Box, entry: int): (w: seq<real>)
    requires BoxFits(b) && b.s != 0.0
    ensures |w| == b.taps && forall i :: 0 <= i < b.taps ==> w[i] == WeightAt(EntryIndex(b, entry), b.fs, b.sup, b.taps, i)
  {
    TapCount(b.fs, b.sup, b.taps);
    seq(b.taps, i requires 0 <= i && BoxFits(b) => WeightAt(EntryIndex(b, entry), b.fs, b.sup, b.taps, i))
  }

  function StartOf(b: Box, entry: int): int
    requires b.s != 0.0
  {
    FirstTap(EntryIndex(b, entry), b.sup)
  }

  /** The samples a column's taps read of a source line; the crop's edge samples repeat. */
  function Picked(b: Box, line: seq<real>, c: Column): (v: seq<real>)
    requires BoxFits(b) && b.s != 0.0 && 0 <= c.lo < c.hi <= |line|
    ensures |v| == b.taps && forall i :: 0 <= i < b.taps ==> v[i] == line[Clamp(StartOf(b, c.entry) + i, c.lo, c.hi - 1)]
  {
    TapCount(b.fs, b.sup, b.taps);
    seq(b.taps, i requires 0 <= i && 0 <= c.lo < c.hi <= |line| && b.s != 0.0 => line[Clamp(StartOf(b, c.entry) + i, c.lo, c.hi - 1)])
  }

  /** The horizontal pass: buffer column e of source row `row`. */
  function HAt(b: Box, src: Source, e: int, row: int): int
    requires BoxFits(b) && SourceFits(b, src) && b.pw > 0 && 0 <= e < b.cols && 0 <= row < b.height
  {
    ColumnFits(b, e);
    var c := PlaneOf(b, e);
    ToMid(Dot(WeightsOf(b, c.entry), Picked(b, src[c.plane][row], c)))
  }

  /** The rows a box row's taps read of the horizontal pass; the crop's edge rows repeat. */
  function Rows(b: Box, src: Source, e: int, oy: int): (v: seq<real>)
    requires BoxFits(b) && SourceFits(b, src) && b.pw > 0 && 0 <= e < b.cols
    ensures |v| == b.taps
    ensures forall k :: 0 <= k < b.taps ==> v[k] == HAt(b, src, e, Clamp(FirstTap(RowIndex(b, oy), b.sup) + k, b.ct, b.cb - 1)) as real
  {
    TapCount(b.fs, b.sup, b.taps);
    seq(b.taps, k requires 0 <= k && BoxFits(b) && SourceFits(b, src) && b.pw > 0 && 0 <= e < b.cols =>
      HAt(b, src, e, Clamp(FirstTap(RowIndex(b, oy), b.sup) + k, b.ct, b.cb - 1)) as real)
  }

  /** The vertical pass over every source row of the crop: box row oy of buffer column e. */
  function VAt(b: Box, src: Source, e: int, oy: int): int
    requires BoxFits(b) && SourceFits(b, src) && b.pw > 0 && 0 <= e < b.cols
  {
    ToBox(Dot(WeightsOf(b, b.pw + b.pw / 2 + oy), Rows(b, src, e, oy)), b.kind == Kind.Linear && e < 2 * b.pw)
  }

  /** The rows computed are enough: only a row without weight is ever moved onto another one. */
  lemma RowClampIsIdle(b: Box, oy: int, k: nat)
    requires BoxFits(b) && b.pw > 0 && 0 <= oy < b.ph && k < b.taps && WeightsOf(b, b.pw + b.pw / 2 + oy)[k] != 0.0
    ensures var row := Clamp(FirstTap(RowIndex(b, oy), b.sup) + k, b.ct, b.cb - 1);
            0 <= row - b.r0 < b.rows
  {
    var c, first, last := RowIndex(b, oy), RowIndex(b, 0), RowIndex(b, b.ph - 1);
    hide RowIndex, CatmullRom, FilterOk, RawSum;
    RowsRise(b, 0, oy);
    RowsRise(b, oy, b.ph - 1);
    assert EntryIndex(b, b.pw + b.pw / 2 + oy) == c;
    NoWeightOutside(c, b.fs, b.sup, b.taps, k);
    assert FirstTap(first, b.sup) <= FirstTap(c, b.sup) <= FirstTap(last, b.sup) && LastTap(c, b.sup) <= LastTap(last, b.sup);
  }

  lemma NoWeightOutside(c: real, fs: real, sup: real, taps: int, k: nat)
    requires FilterOk(fs, sup, taps) && WeightAt(c, fs, sup, taps, k) != 0.0
    ensures FirstTap(c, sup) + k <= LastTap(c, sup)
  {
    RawSumIsPositive(c, fs, sup, taps);
    DivIs(0.0, RawSum(c, fs, sup, taps), 0.0);
  }

  /** There is always a row to compute. */
  lemma RowsFit(b: Box)
    requires BoxFits(b) && b.ph > 0
    ensures b.ct <= b.r0 && b.r0 + b.rows <= b.cb && b.rows >= 1 && 0 <= b.r0 && b.r0 + b.rows <= b.height
  {
    var first, last := RowIndex(b, 0), RowIndex(b, b.ph - 1);
    RowsRise(b, 0, b.ph - 1);
    hide RowIndex;
    TapCount(b.fs, b.sup, b.taps);
    WindowHasTaps(last, b.sup, b.fs, b.taps);
  }

  lemma WindowHasTaps(c: real, sup: real, fs: real, taps: int)
    requires FilterOk(fs, sup, taps)
    ensures FirstTap(c, sup) <= LastTap(c, sup) && sup >= 2.0
  {
    Cancel(2.0, sup, fs);
    assert 2.0 * fs <= sup * fs;
  }

  /** What the loops need of a box's sizes. */
  lemma Sizes(b: Box)
    requires BoxFits(b)
    ensures 4 <= b.taps <= MAX_TAPS && b.pw >= 0 && b.ph >= 0 && b.cols >= 0 && Entries(b) >= b.pw + b.pw / 2 >= 0 && b.width >= 2 && b.height >= 1
    ensures b.pw > 0 <==> b.ph > 0
    ensures b.pw > 0 ==> b.s > 0.0 && b.pw >= 2 && b.cols > 0
  {
  }

  /** Starts and weights of every entry. */
  class Table {
    const start: array<int>
    const w: array2<real>

    ghost predicate Of(b: Box)
      reads this, start, w
    {
      && BoxFits(b) && b.s != 0.0 && start.Length == w.Length1 == Entries(b) && w.Length0 == b.taps
      && forall e :: 0 <= e < start.Length ==> EntryIs(b, e)
    }

    ghost predicate EntryIs(b: Box, e: int)
      reads this, start, w
      requires BoxFits(b) && b.s != 0.0 && 0 <= e < start.Length == w.Length1 && w.Length0 == b.taps
    {
      start[e] == StartOf(b, e) && forall i :: 0 <= i < b.taps ==> w[i, e] == WeightsOf(b, e)[i]
    }

    constructor (b: Box)
      requires BoxFits(b) && b.s != 0.0
      ensures Of(b) && fresh(start) && fresh(w)
    {
      TapCount(b.fs, b.sup, b.taps);
      start := new int[Entries(b)];
      w := new real[b.taps, Entries(b)];
      new;
      var taps := new real[MAX_TAPS];
      for e := 0 to Entries(b)
        modifies taps, start, w
        invariant forall f :: 0 <= f < e ==> EntryIs(b, f)
      {
        var i0 := Weights(EntryIndex(b, e), b.fs, b.sup, b.taps, taps);
        PutEntry(b, e, i0, taps);
      }
    }

    method PutEntry(b: Box, e: int, i0: int, taps: array<real>)
      requires BoxFits(b) && b.s != 0.0 && start.Length == w.Length1 == Entries(b) && w.Length0 == b.taps && 0 <= e < Entries(b)
      requires taps.Length == MAX_TAPS >= b.taps && i0 == StartOf(b, e)
      requires forall i :: 0 <= i < b.taps ==> taps[i] == WeightsOf(b, e)[i]
      requires forall f :: 0 <= f < e ==> EntryIs(b, f)
      modifies start, w
      ensures forall f :: 0 <= f <= e ==> EntryIs(b, f)
    {
      hide WeightsOf, StartOf, BoxFits, Entries;
      start[e] := i0;
      for i := 0 to b.taps
        modifies w
        invariant forall k :: 0 <= k < i ==> w[k, e] == taps[k]
        invariant forall k, f :: 0 <= k < b.taps && 0 <= f < w.Length1 && f != e ==> w[k, f] == old(w[k, f])
      {
        w[i, e] := taps[i];
      }
      forall f | 0 <= f < e ensures EntryIs(b, f) {
        assert old(EntryIs(b, f));
      }
      assert EntryIs(b, e);
    }
  }

  function Weighing(w: array2<real>, e: int): (r: seq<real>)
    reads w
    requires 0 <= e < w.Length1
    ensures |r| == w.Length0 && forall i :: 0 <= i < |r| ==> r[i] == w[i, e]
  {
    seq(w.Length0, i requires 0 <= i < w.Length0 && 0 <= e < w.Length1 reads w => w[i, e])
  }

  /** The sum over one entry's taps. */
  method Accumulate(w: array2<real>, e: int, v: seq<real>) returns (acc: real)
    requires 0 <= e < w.Length1 && |v| == w.Length0
    ensures acc == Dot(Weighing(w, e), v)
  {
    acc := 0.0;
    ghost var weights := Weighing(w, e);
    for i := 0 to w.Length0
      invariant acc == Dot(weights[..i], v[..i])
    {
      acc := acc + w[i, e] * v[i];
      assert weights[..i + 1][..i] == weights[..i] && v[..i + 1][..i] == v[..i];
    }
    assert weights[..w.Length0] == weights && v[..w.Length0] == v;
  }

  /** The table's weights are the box's. */
  lemma Weighed(t: Table, b: Box, e: int)
    requires t.Of(b) && 0 <= e < Entries(b)
    ensures t.start[e] == StartOf(b, e) && Weighing(t.w, e) == WeightsOf(b, e)
  {
    hide WeightsOf, StartOf, BoxFits;
    Sizes(b);
    assert t.EntryIs(b, e);
  }

  /** One sample of the horizontal pass. */
  method HSample(t: Table, b: Box, src: Source, e: int, row: int) returns (v: int)
    requires t.Of(b) && SourceFits(b, src) && b.pw > 0 && 0 <= e < b.cols && 0 <= row < b.height
    ensures v == HAt(b, src, e, row)
  {
    hide WeightsOf, StartOf, BoxFits, Dot, ToMid;
    Sizes(b);
    ColumnFits(b, e);
    var c := PlaneOf(b, e);
    Weighed(t, b, c.entry);
    var line := src[c.plane][row];
    var picked := seq(b.taps, i requires 0 <= i && 0 <= c.lo < c.hi <= |line| && 0 <= c.entry < t.start.Length reads t.start =>
      line[Clamp(t.start[c.entry] + i, c.lo, c.hi - 1)]);
    assert picked == Picked(b, line, c);
    var acc := Accumulate(t.w, c.entry, picked);
    v := ToMid(acc);
  }

  /** The horizontal pass over the rows the box needs. */
  method HPass(t: Table, b: Box, src: Source) returns (mid: array2<int>)
    requires t.Of(b) && SourceFits(b, src) && b.pw > 0
    ensures fresh(mid) && mid.Length0 == b.rows && mid.Length1 == b.cols && b.rows >= 1 && 0 <= b.r0 && b.r0 + b.rows <= b.height
    ensures forall r, e :: 0 <= r < b.rows && 0 <= e < b.cols ==> mid[r, e] == HAt(b, src, e, b.r0 + r)
  {
    hide HAt, SourceFits, BoxFits;
    Sizes(b);
    RowsFit(b);
    mid := new int[b.rows, b.cols];
    for e := 0 to b.cols
      modifies mid
      invariant forall r, f :: 0 <= r < b.rows && 0 <= f < e ==> mid[r, f] == HAt(b, src, f, b.r0 + r)
    {
      for r := 0 to b.rows
        modifies mid
        invariant forall q, f :: 0 <= q < b.rows && 0 <= f < e ==> mid[q, f] == HAt(b, src, f, b.r0 + q)
        invariant forall q :: 0 <= q < r ==> mid[q, e] == HAt(b, src, e, b.r0 + q)
      {
        var v := HSample(t, b, src, e, b.r0 + r);
        mid[r, e] := v;
      }
    }
  }

  /** One sample of the vertical pass, from the rows that were computed. */
  method VSample(t: Table, b: Box, src: Source, mid: array2<int>, e: int, oy: int) returns (v: int)
    requires t.Of(b) && SourceFits(b, src) && b.pw > 0 && 0 <= e < b.cols && 0 <= oy < b.ph
    requires mid.Length0 == b.rows >= 1 && mid.Length1 == b.cols && 0 <= b.r0 && b.r0 + b.rows <= b.height
    requires forall r, f :: 0 <= r < b.rows && 0 <= f < b.cols ==> mid[r, f] == HAt(b, src, f, b.r0 + r)
    ensures v == VAt(b, src, e, oy)
  {
    hide HAt, SourceFits, BoxFits, Rows, WeightsOf;
    Sizes(b);
    var entry := b.pw + b.pw / 2 + oy;
    RowEntry(b, oy);
    Weighed(t, b, entry);
    var i0 := t.start[entry];
    var v0 := seq(b.taps, k requires 0 <= k && mid.Length0 == b.rows >= 1 && mid.Length1 == b.cols && 0 <= e < b.cols reads mid =>
      mid[Clamp(Clamp(i0 + k, b.ct, b.cb - 1) - b.r0, 0, b.rows - 1), e] as real);
    SameRows(b, src, mid, e, oy, v0);
    var acc := Accumulate(t.w, entry, v0);
    v := ToBox(acc, b.kind == Kind.Linear && e < 2 * b.pw);
  }

  lemma RowEntry(b: Box, oy: int)
    requires BoxFits(b) && b.pw > 0 && 0 <= oy < b.ph
    ensures StartOf(b, b.pw + b.pw / 2 + oy) == FirstTap(RowIndex(b, oy), b.sup) && b.pw + b.pw / 2 + oy < Entries(b)
  {
  }

  lemma SameRows(b: Box, src: Source, mid: array2<int>, e: int, oy: int, v0: seq<real>)
    requires BoxFits(b) && SourceFits(b, src) && b.pw > 0 && 0 <= e < b.cols && 0 <= oy < b.ph && |v0| == b.taps
    requires mid.Length0 == b.rows >= 1 && mid.Length1 == b.cols && 0 <= b.r0 && b.r0 + b.rows <= b.height
    requires forall r, f :: 0 <= r < b.rows && 0 <= f < b.cols ==> mid[r, f] == HAt(b, src, f, b.r0 + r)
    requires forall k :: 0 <= k < b.taps ==>
               v0[k] == mid[Clamp(Clamp(StartOf(b, b.pw + b.pw / 2 + oy) + k, b.ct, b.cb - 1) - b.r0, 0, b.rows - 1), e] as real
    ensures Dot(WeightsOf(b, b.pw + b.pw / 2 + oy), v0) == Dot(WeightsOf(b, b.pw + b.pw / 2 + oy), Rows(b, src, e, oy))
  {
    hide HAt, SourceFits, BoxFits, WeightsOf, RowIndex;
    Sizes(b);
    var w := WeightsOf(b, b.pw + b.pw / 2 + oy);
    RowEntry(b, oy);
    forall k | 0 <= k < b.taps && w[k] != 0.0 ensures v0[k] == Rows(b, src, e, oy)[k] {
      RowClampIsIdle(b, oy, k);
    }
    DotSame(w, v0, Rows(b, src, e, oy));
  }

  /** The two passes over the rows the box needs give what they would give over the whole crop. */
  method Resample(b: Box, src: Source) returns (buffer: array2<int>)
    requires BoxFits(b) && SourceFits(b, src)
    ensures fresh(buffer) && buffer.Length0 == b.ph && buffer.Length1 == b.cols
    ensures forall oy, e :: 0 <= oy < b.ph && 0 <= e < b.cols ==> buffer[oy, e] == VAt(b, src, e, oy)
  {
    hide VAt, HAt, SourceFits, BoxFits;
    Sizes(b);
    buffer := new int[b.ph, b.cols];
    if b.pw == 0 {
      return;
    }
    var table := new Table(b);
    var mid := HPass(table, b, src);
    for oy := 0 to b.ph
      modifies buffer
      invariant forall y, e :: 0 <= y < oy && 0 <= e < b.cols ==> buffer[y, e] == VAt(b, src, e, y)
    {
      for e := 0 to b.cols
        modifies buffer
        invariant forall y, f :: 0 <= y < oy && 0 <= f < b.cols ==> buffer[y, f] == VAt(b, src, f, y)
        invariant forall f :: 0 <= f < e ==> buffer[oy, f] == VAt(b, src, f, oy)
      {
        var v := VSample(table, b, src, mid, e, oy);
        buffer[oy, e] := v;
      }
    }
  }

  // ---- the whole raster --------------------------------------------------------------------------------------

  /** On a whole sample the filter at scale 1 takes that sample alone. */
  lemma WeightsOnSample(c: real, k: int)
    requires c == k as real && FilterOk(1.0, 2.0, 4)
    ensures FirstTap(c, 2.0) == k - 1
    ensures WeightAt(c, 1.0, 2.0, 4, 0) == 0.0 && WeightAt(c, 1.0, 2.0, 4, 1) == 1.0 && WeightAt(c, 1.0, 2.0, 4, 2) == 0.0 && WeightAt(c, 1.0, 2.0, 4, 3) == 0.0
  {
    assert RawAt(c, 1.0, 2.0, 0) == CatmullRom(-1.0) == 0.0;
    assert RawAt(c, 1.0, 2.0, 1) == CatmullRom(0.0) == 1.0;
    assert RawAt(c, 1.0, 2.0, 2) == CatmullRom(1.0) == 0.0;
    assert RawAt(c, 1.0, 2.0, 3) == CatmullRom(2.0) == 0.0;
    assert RawSum(c, 1.0, 2.0, 1) == 0.0;
    assert RawSum(c, 1.0, 2.0, 2) == 1.0;
    assert RawSum(c, 1.0, 2.0, 3) == 1.0;
    assert RawSum(c, 1.0, 2.0, 4) == 1.0;
  }

  lemma WholeWeights(b: Box, entry: int, k: int)
    requires BoxFits(b) && IsWholeRaster(b) && EntryIndex(b, entry) == k as real
    ensures WeightsOf(b, entry) == [0.0, 1.0, 0.0, 0.0] && StartOf(b, entry) == k - 1
  {
    hide WeightAt, BoxFits;
    Sizes(b);
    FilterOfBox(b);
    WeightsOnSample(EntryIndex(b, entry), k);
  }

  lemma FilterOfBox(b: Box)
    requires BoxFits(b)
    ensures FilterOk(b.fs, b.sup, b.taps)
  {
  }

  lemma PickSecond(v: seq<real>)
    requires |v| == 4
    ensures Dot([0.0, 1.0, 0.0, 0.0], v) == v[1]
  {
    var w := [0.0, 1.0, 0.0, 0.0];
    assert w[..3] == [0.0, 1.0, 0.0] && w[..3][..2] == [0.0, 1.0] && w[..3][..2][..1] == [0.0];
    assert Dot([0.0], v[..1]) == 0.0;
    assert v[..3][..2] == v[..2] && v[..2][..1] == v[..1];
    assert Dot([0.0, 1.0], v[..2]) == v[1] by { assert [0.0, 1.0][..1] == [0.0]; }
    assert Dot([0.0, 1.0, 0.0], v[..3]) == v[1] by { assert [0.0, 1.0, 0.0][..2] == [0.0, 1.0]; }
  }

  lemma MidAndBack(v: int)
    requires 0 <= v <= 1023
    ensures ToMid(v as real) == 16 * v && ToBox((16 * v) as real, false) == v
  {
    FloorIs((16 * v) as real + 0.5, 16 * v);
    FloorIs(v as real + 0.5, v);
  }

  /** Every sample of the source is a 10-bit number. */
  predicate TenBitSource(src: Source) {
    forall p, r, i :: 0 <= p < |src| && 0 <= r < |src[p]| && 0 <= i < |src[p][r]| ==>
      src[p][r][i] == src[p][r][i].Floor as real && 0.0 <= src[p][r][i] <= 1023.0
  }

  /** The source column of buffer column e on its plane. */
  function SourceColumn(b: Box, e: int): int {
    if e < b.pw then e else if b.pw >= 2 then (e - b.pw) % (b.pw / 2) else 0
  }

  lemma WholeColumn(b: Box, e: int)
    requires BoxFits(b) && IsWholeRaster(b) && b.kind != Kind.Linear && 0 <= e < b.cols
    ensures var c := PlaneOf(b, e);
            c.lo == 0 && c.hi == PlaneWidth(b, c.plane) && EntryIndex(b, c.entry) == SourceColumn(b, e) as real && 0 <= SourceColumn(b, e) < c.hi
  {
    var k := SourceColumn(b, e);
    DivIs(k as real + 0.5, 1.0, k as real + 0.5);
    DivIs((2 * k) as real + 0.5, 1.0, (2 * k) as real + 0.5);
  }

  lemma WholeRow(b: Box, oy: int)
    requires BoxFits(b) && IsWholeRaster(b) && 0 <= oy < b.ph
    ensures EntryIndex(b, b.pw + b.pw / 2 + oy) == oy as real == RowIndex(b, oy)
  {
    DivIs(oy as real + 0.5, 1.0, oy as real + 0.5);
  }

  /** The horizontal pass of the whole raster is 16 times the source. */
  lemma WholeH(b: Box, src: Source, e: int, row: int)
    requires BoxFits(b) && IsWholeRaster(b) && b.kind != Kind.Linear && SourceFits(b, src) && TenBitSource(src) && 0 <= e < b.cols && 0 <= row < b.height
    ensures var p := PlaneOf(b, e).plane;
            && 0 <= p < |src| && row < |src[p]| && 0 <= SourceColumn(b, e) < |src[p][row]|
            && HAt(b, src, e, row) == 16 * src[p][row][SourceColumn(b, e)].Floor
            && src[p][row][SourceColumn(b, e)] == src[p][row][SourceColumn(b, e)].Floor as real && 0.0 <= src[p][row][SourceColumn(b, e)] <= 1023.0
  {
    hide WeightsOf, Dot, ToMid, EntryIndex;
    Sizes(b);
    ColumnFits(b, e);
    WholeColumn(b, e);
    var c := PlaneOf(b, e);
    var k := SourceColumn(b, e);
    WholeWeights(b, c.entry, k);
    var picked := Picked(b, src[c.plane][row], c);
    PickSecond(picked);
    assert picked[1] == src[c.plane][row][k];
    MidAndBack(src[c.plane][row][k].Floor);
  }

  /** A centred uncropped box of size 1 reproduces its opaque source exactly. */
  lemma WholeRasterIsTheSource(b: Box, src: Source, e: int, oy: int)
    requires BoxFits(b) && IsWholeRaster(b) && b.kind != Kind.Linear && SourceFits(b, src) && TenBitSource(src) && 0 <= e < b.cols && 0 <= oy < b.ph
    ensures var p := PlaneOf(b, e).plane;
            0 <= p < |src| && oy < |src[p]| && 0 <= SourceColumn(b, e) < |src[p][oy]| && VAt(b, src, e, oy) as real == src[p][oy][SourceColumn(b, e)]
  {
    hide WeightsOf, Dot, ToMid, ToBox, EntryIndex, HAt, PlaneOf, SourceColumn, TenBitSource, SourceFits, RowIndex;
    Sizes(b);
    WholeRow(b, oy);
    WholeWeights(b, b.pw + b.pw / 2 + oy, oy);
    FirstRow(b, oy);
    PickSecond(Rows(b, src, e, oy));
    WholeH(b, src, e, oy);
    MidAndBack(src[PlaneOf(b, e).plane][oy][SourceColumn(b, e)].Floor);
  }

  lemma FirstRow(b: Box, oy: int)
    requires BoxFits(b) && IsWholeRaster(b) && 0 <= oy < b.ph && RowIndex(b, oy) == oy as real
    ensures Clamp(FirstTap(RowIndex(b, oy), b.sup) + 1, b.ct, b.cb - 1) == oy
  {
  }
}
