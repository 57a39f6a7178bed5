/** Box keyframes: up to 8 box states per keyer, each reached over its own number of grains with an
    ease, the timeline they form, and runs along it (to a keyframe, wrapping, back and forth).
    Mirrors engine/src/core/keyframes.cpp over the reals. */
module Keyframes {
  import opened RealMath

  datatype Ease = Linear | EaseBoth | EaseIn | EaseOut | Hold

  /** The animated fields of a box. */
  datatype BoxState = BoxState(
    x: real, y: real, size: real,
    cropLeft: real, cropRight: real, cropTop: real, cropBottom: real,
    soft: real, borderWidth: real, borderSoft: real, borderOpacity: real,
    shadowDx: real, shadowDy: real, shadowBlur: real, shadowOpacity: real)

  /** A keyer's box: what is animated, and what is not (the switch and the border colour). */
  datatype DmeSettings = DmeSettings(enabled: bool, state: BoxState, borderY: nat, borderCb: nat, borderCr: nat)

  datatype Keyframe = Keyframe(box: DmeSettings, frames: int, ease: Ease)

  const MAX_KEYFRAMES := 8
  const MAX_FRAMES := 1000
  const LOG_SIZE_FLOOR := 0.01

  predicate In(v: real, lo: real, hi: real) {
    lo <= v <= hi
  }

  /** The ranges a box may be set to. */
  predicate DmeValid(d: DmeSettings) {
    var s := d.state;
    && In(s.x, -1.0, 2.0) && In(s.y, -1.0, 2.0) && In(s.size, 0.0, 2.0)
    && In(s.cropLeft, 0.0, 1.0) && In(s.cropRight, 0.0, 1.0) && In(s.cropTop, 0.0, 1.0) && In(s.cropBottom, 0.0, 1.0)
    && s.cropLeft + s.cropRight < 1.0 && s.cropTop + s.cropBottom < 1.0
    && In(s.soft, 0.0, 64.0) && In(s.borderWidth, 0.0, 64.0) && In(s.borderSoft, 0.0, 64.0)
    && In(s.borderOpacity, 0.0, 1.0)
    && d.borderY <= 1023 && d.borderCb <= 1023 && d.borderCr <= 1023
    && In(s.shadowDx, -128.0, 128.0) && In(s.shadowDy, -128.0, 128.0)
    && In(s.shadowBlur, 0.0, 128.0) && In(s.shadowOpacity, 0.0, 1.0)
  }

  predicate KeyframesOk(keyframes: seq<Keyframe>) {
    |keyframes| <= MAX_KEYFRAMES && forall j :: 0 <= j < |keyframes| ==> 1 <= keyframes[j].frames <= MAX_FRAMES
  }

  // ---- eases -------------------------------------------------------------------------------

  function EaseAt(ease: Ease, t: real): real {
    var v := if t < 0.0 then 0.0 else if t > 1.0 then 1.0 else t;
    match ease
    case Linear => v
    case EaseBoth => v * v * (3.0 - 2.0 * v)
    case EaseIn => v * v
    case EaseOut => v * (2.0 - v)
    case Hold => if v < 1.0 then 0.0 else 1.0
  }

  /** Every ease is exact at both ends, stays in [0, 1] and never turns back. */
  lemma EaseShape(ease: Ease, t: real, u: real)
    requires t <= u
    ensures t <= 0.0 ==> EaseAt(ease, t) == 0.0
    ensures u >= 1.0 ==> EaseAt(ease, u) == 1.0
    ensures 0.0 <= EaseAt(ease, t) <= EaseAt(ease, u) <= 1.0
  {
    var v := if t < 0.0 then 0.0 else if t > 1.0 then 1.0 else t;
    var w := if u < 0.0 then 0.0 else if u > 1.0 then 1.0 else u;
    match ease
    case Linear =>
    case EaseBoth => CubicRises(v, w); CubicRises(0.0, v); CubicRises(w, 1.0);
    case EaseIn => ProductRises(v, v, w, w); ProductRises(w, w, 1.0, 1.0);
    case EaseOut =>
      ProductRises(1.0 - w, 1.0 - w, 1.0 - v, 1.0 - v);
      ProductRises(1.0 - v, 1.0 - v, 1.0, 1.0);
    case Hold =>
  }

  lemma CubicRises(v: real, w: real)
    requires 0.0 <= v <= w <= 1.0
    ensures v * v * (3.0 - 2.0 * v) <= w * w * (3.0 - 2.0 * w)
  {
    // The difference is (w - v) * (3 (v + w) - 2 (v^2 + v w + w^2)), and v^2 <= v, w^2 <= w, v w <= v.
    var a, b, c := v * v, v * w, w * w;
    ScaleDown(v, v);
    ScaleDown(w, w);
    ScaleDown(v, w);
    ScaleDown(w, v);
    assert w * v == b;
    assert a + b + c <= v + w + b && 2.0 * b <= v + w;
    var k := 3.0 * (v + w) - 2.0 * (a + b + c);
    assert k >= 0.0;
    ProductRises(0.0, 0.0, w - v, k);
    calc {
      (w - v) * k;
      3.0 * (c - a) - 2.0 * (c * w - a * v);
      w * w * (3.0 - 2.0 * w) - v * v * (3.0 - 2.0 * v);
    }
  }

  // ---- size in log space ---------------------------------------------------------------------

  function Pow2(e: int): (p: real)
    ensures p > 0.0
    decreases if e < 0 then -e else e
  {
    if e == 0 then 1.0 else if e > 0 then 2.0 * Pow2(e - 1) else 0.5 * Pow2(e + 1)
  }

  /** x = m * 2^e with m in [1/2, 1). */
  function Frexp(x: real): (r: (real, int))
    requires x > 0.0
    ensures 0.5 <= r.0 < 1.0
    decreases if x >= 1.0 then x.Floor else if x < 0.5 then (1.0 / x).Floor else 0
  {
    if x >= 1.0 then
      var (m, e) := Frexp(x / 2.0); (m, e + 1)
    else if x < 0.5 then
      assert 1.0 / (2.0 * x) == (1.0 / x) / 2.0;
      assert 1.0 / x > 2.0 by { assert (1.0 / x) * x == 1.0; }
      var (m, e) := Frexp(2.0 * x); (m, e - 1)
    else (x, 0)
  }

  const LN2 := 0.69314718055994530942

  function LnSeries(term: real, s2: real, k: nat): real
    decreases 64 - k
  {
    if k >= 64 then 0.0 else term / (k + 1) as real + LnSeries(term * s2, s2, k + 2)
  }

  function LnPositive(x: real): real
    requires x > 0.0
  {
    var (m, e) := Frexp(x);
    var s := (m - 1.0) / (m + 1.0);
    2.0 * LnSeries(s, s * s, 0) + e as real * LN2
  }

  function ExpSeries(term: real, r: real, i: nat): real
    decreases 30 - i
  {
    if i >= 30 then 0.0 else var next := term * r / (i + 1) as real; next + ExpSeries(next, r, i + 1)
  }

  function ExpOf(x: real): real {
    var k := (x / LN2 + 0.5).Floor;
    (1.0 + ExpSeries(1.0, x - k as real * LN2, 0)) * Pow2(k)
  }

  function Lerp(a: real, b: real, w: real): real {
    a * (1.0 - w) + b * w
  }

  function DmeLogSize(a: real, b: real, w: real): real {
    if w <= 0.0 || a == b then a
    else if w >= 1.0 then b
    else if a < LOG_SIZE_FLOOR && b < LOG_SIZE_FLOOR then Lerp(a, b, w)
    else
      var la := LnPositive(if a < LOG_SIZE_FLOOR then LOG_SIZE_FLOOR else a);
      var lb := LnPositive(if b < LOG_SIZE_FLOOR then LOG_SIZE_FLOOR else b);
      ExpOf(la + (lb - la) * w)
  }

  function StateBetween(a: BoxState, b: BoxState, w: real): BoxState {
    BoxState(
      Lerp(a.x, b.x, w), Lerp(a.y, b.y, w), DmeLogSize(a.size, b.size, w),
      Lerp(a.cropLeft, b.cropLeft, w), Lerp(a.cropRight, b.cropRight, w),
      Lerp(a.cropTop, b.cropTop, w), Lerp(a.cropBottom, b.cropBottom, w),
      Lerp(a.soft, b.soft, w), Lerp(a.borderWidth, b.borderWidth, w),
      Lerp(a.borderSoft, b.borderSoft, w), Lerp(a.borderOpacity, b.borderOpacity, w),
      Lerp(a.shadowDx, b.shadowDx, w), Lerp(a.shadowDy, b.shadowDy, w),
      Lerp(a.shadowBlur, b.shadowBlur, w), Lerp(a.shadowOpacity, b.shadowOpacity, w))
  }

  function DmeBetween(box: DmeSettings, a: DmeSettings, b: DmeSettings, w: real): DmeSettings {
    box.(state := StateBetween(a.state, b.state, w))
  }

  function DmeWithState(box: DmeSettings, state: DmeSettings): DmeSettings {
    DmeBetween(box, state, state, 0.0)
  }

  predicate DmeSameState(a: DmeSettings, b: DmeSettings) {
    a.state == b.state
  }

  /** The interpolation is exact at both ends, and copying a state changes nothing else. */
  lemma BetweenEnds(box: DmeSettings, a: DmeSettings, b: DmeSettings)
    ensures DmeBetween(box, a, b, 0.0) == box.(state := a.state)
    ensures DmeBetween(box, a, b, 1.0) == box.(state := b.state)
    ensures DmeWithState(box, a) == box.(state := a.state)
  {
  }

  // ---- the timeline --------------------------------------------------------------------------

  /** Keyframe 0 at 0, keyframe j its frames after keyframe j - 1. */
  function KeyTime(keyframes: seq<Keyframe>, j: int): real
    decreases j
  {
    if j <= 0 || |keyframes| == 0 then 0.0
    else if j >= |keyframes| then KeyTime(keyframes, |keyframes| - 1)
    else KeyTime(keyframes, j - 1) + keyframes[j].frames as real
  }

  method DmeKeyTime(keyframes: seq<Keyframe>, j: int) returns (t: real)
    ensures t == KeyTime(keyframes, j)
  {
    t := 0.0;
    var i := 1;
    while i <= j && i < |keyframes|
      invariant 1 <= i
      invariant i == 1 || (i - 1 <= j && i - 1 < |keyframes|)
      invariant t == KeyTime(keyframes, i - 1)
      decreases |keyframes| - i
    {
      t := t + keyframes[i].frames as real;
      i := i + 1;
    }
  }

  lemma {:induction false} KeyTimeRises(keyframes: seq<Keyframe>, i: int, j: int)
    requires KeyframesOk(keyframes)
    requires 0 <= i <= j < |keyframes|
    ensures 0.0 <= KeyTime(keyframes, i)
    ensures KeyTime(keyframes, j) - KeyTime(keyframes, i) >= (j - i) as real
    decreases i + j
  {
    if i < j {
      KeyTimeRises(keyframes, i, j - 1);
    } else if i > 0 {
      KeyTimeRises(keyframes, i - 1, j - 1);
      KeyTimeRises(keyframes, 0, i - 1);
    }
  }

  /** The box on the path at u, searched from segment j (which starts at t0). */
  function PathFrom(keyframes: seq<Keyframe>, j: nat, t0: real, u: real, box: DmeSettings): DmeSettings
    requires KeyframesOk(keyframes) && 1 <= j <= |keyframes|
    decreases |keyframes| - j
  {
    if j == |keyframes| then DmeWithState(box, keyframes[j - 1].box)
    else
      var t1 := t0 + keyframes[j].frames as real;
      if u <= t1 then
        DmeBetween(box, keyframes[j - 1].box, keyframes[j].box, EaseAt(keyframes[j].ease, (u - t0) / keyframes[j].frames as real))
      else PathFrom(keyframes, j + 1, t1, u, box)
  }

  function PathAt(keyframes: seq<Keyframe>, u: real, box: DmeSettings): DmeSettings
    requires KeyframesOk(keyframes)
  {
    if |keyframes| == 0 then box
    else if |keyframes| == 1 || u <= 0.0 then DmeWithState(box, keyframes[0].box)
    else PathFrom(keyframes, 1, 0.0, u, box)
  }

  method DmePathAt(keyframes: seq<Keyframe>, u: real, box: DmeSettings) returns (d: DmeSettings)
    requires KeyframesOk(keyframes)
    ensures d == PathAt(keyframes, u, box)
  {
    if |keyframes| == 0 {
      return box;
    }
    if |keyframes| == 1 || u <= 0.0 {
      return DmeWithState(box, keyframes[0].box);
    }
    var t0 := 0.0;
    for j := 1 to |keyframes|
      invariant PathAt(keyframes, u, box) == PathFrom(keyframes, j, t0, u, box)
    {
      var key := keyframes[j];
      var t1 := t0 + key.frames as real;
      if u <= t1 {
        return DmeBetween(box, keyframes[j - 1].box, key.box, EaseAt(key.ease, (u - t0) / key.frames as real));
      }
      t0 := t1;
    }
    return DmeWithState(box, keyframes[|keyframes| - 1].box);
  }

  /** The search may skip every segment that ends before u. */
  lemma {:induction false} PathSkips(keyframes: seq<Keyframe>, i: nat, j: nat, u: real, box: DmeSettings)
    requires KeyframesOk(keyframes) && 1 <= i <= j <= |keyframes|
    requires u > KeyTime(keyframes, j - 1) || i == j
    ensures PathFrom(keyframes, i, KeyTime(keyframes, i - 1), u, box) == PathFrom(keyframes, j, KeyTime(keyframes, j - 1), u, box)
    decreases j - i
  {
    if i < j {
      KeyTimeRises(keyframes, i, j - 1);
      PathSkips(keyframes, i + 1, j, u, box);
    }
  }

  /** On the path at keyframe j's own time the box is exactly keyframe j, at or past the end the last one. */
  lemma PathAtKeyframe(keyframes: seq<Keyframe>, j: nat, box: DmeSettings)
    requires KeyframesOk(keyframes) && j < |keyframes|
    ensures PathAt(keyframes, KeyTime(keyframes, j), box) == box.(state := keyframes[j].box.state)
  {
    var u := KeyTime(keyframes, j);
    if j == 0 {
      BetweenEnds(box, keyframes[0].box, keyframes[0].box);
    } else {
      KeyTimeRises(keyframes, j - 1, j);
      KeyTimeRises(keyframes, 0, j);
      PathSkips(keyframes, 1, j, u, box);
      DivIs(u - KeyTime(keyframes, j - 1), keyframes[j].frames as real, 1.0);
      EaseShape(keyframes[j].ease, 1.0, 1.0);
      BetweenEnds(box, keyframes[j - 1].box, keyframes[j].box);
    }
  }

  /** The keyframe the box is exactly at, or -1. */
  function KeyframeOf(keyframes: seq<Keyframe>, box: DmeSettings, j: nat := 0): (k: int)
    requires j <= |keyframes|
    ensures -1 <= k < |keyframes|
    ensures k >= 0 ==> j <= k && DmeSameState(keyframes[k].box, box)
    ensures forall i :: j <= i < (if k < 0 then |keyframes| else k) ==> !DmeSameState(keyframes[i].box, box)
    decreases |keyframes| - j
  {
    if j == |keyframes| then -1
    else if DmeSameState(keyframes[j].box, box) then j
    else KeyframeOf(keyframes, box, j + 1)
  }

  // ---- runs ----------------------------------------------------------------------------------

  datatype Loop = Off | Wrap | PingPong

  datatype DmeRun = DmeRun(from: DmeSettings, leadFrames: int, leadTo: int, leadEase: Ease, u0: real, u1: real, loop: Loop, reverse: bool)

  datatype RunState = RunState(box: DmeSettings, onPath: bool, u: real, keyframe: int, done: bool)

  function RunFrom(keyframes: seq<Keyframe>, box: DmeSettings, onPath: bool, u: real, to: int, loop: Loop, reverse: bool): DmeRun {
    var last := |keyframes| - 1;
    var j := if loop == Off then Clamp(to, 0, if last < 0 then 0 else last) else if reverse then 0 else last;
    var tj := KeyTime(keyframes, j);
    if onPath then DmeRun(box, 0, 0, Linear, u, tj, loop, reverse)
    else if 0 <= j <= last then DmeRun(box, keyframes[j].frames, j, keyframes[j].ease, tj, tj, loop, reverse)
    else DmeRun(box, 0, j, Linear, tj, tj, loop, reverse)
  }

  /** The remainder of the truncated division (fmod), y > 0. */
  function FMod(x: real, y: real): real
    requires y > 0.0
  {
    if x >= 0.0 then x - (x / y).Floor as real * y else -(-x - (-x / y).Floor as real * y)
  }

  predicate RunOk(keyframes: seq<Keyframe>, run: DmeRun) {
    |keyframes| > 0 && 0 <= run.leadFrames && (run.leadFrames > 0 ==> 0 <= run.leadTo < |keyframes|)
  }

  /** The timeline position g grains after the lead-in, its direction, and whether the run ended. */
  function RunPosition(keyframes: seq<Keyframe>, run: DmeRun, g: nat): (real, bool, bool) {
    var T := KeyTime(keyframes, |keyframes| - 1);
    match run.loop
    case Off =>
      var up := run.u1 >= run.u0;
      var distance := if up then run.u1 - run.u0 else run.u0 - run.u1;
      if g as real >= distance then (run.u1, up, true)
      else (if up then run.u0 + g as real else run.u0 - g as real, up, false)
    case Wrap =>
      var up := !run.reverse;
      if T > 0.0 then
        var m := FMod(if up then run.u0 + g as real else T - run.u0 + g as real, T + 1.0);
        var p := if m > T then T else m;
        (if up then p else T - p, up, false)
      else (run.u0, up, false)
    case PingPong =>
      if T > 0.0 then
        var p := FMod(if run.reverse then 2.0 * T - run.u0 + g as real else run.u0 + g as real, 2.0 * T);
        (if p <= T then p else 2.0 * T - p, p <= T, false)
      else (run.u0, true, false)
  }

  /** The keyframe a run at u moves to (or has reached): going up the first at or past u, going down
      the last at or before u. */
  function MovesTo(keyframes: seq<Keyframe>, u: real, up: bool, j: nat, best: int): int
    requires j <= |keyframes|
    decreases |keyframes| - j
  {
    if j == |keyframes| then best
    else
      var tj := KeyTime(keyframes, j);
      if up && tj >= u then j
      else if !up && tj <= u then MovesTo(keyframes, u, up, j + 1, j)
      else MovesTo(keyframes, u, up, j + 1, best)
  }

  function RunAt(keyframes: seq<Keyframe>, run: DmeRun, f: nat, box: DmeSettings): RunState
    requires KeyframesOk(keyframes)
    requires |keyframes| > 0 ==> RunOk(keyframes, run)
  {
    var n := |keyframes|;
    if n == 0 then RunState(box, false, 0.0, 0, true)
    else if run.leadFrames > 0 && f <= run.leadFrames then
      var b := DmeBetween(box, run.from, keyframes[run.leadTo].box, EaseAt(run.leadEase, f as real / run.leadFrames as real));
      RunState(b, f == run.leadFrames, run.u0, run.leadTo, f == run.leadFrames && run.loop == Off && run.u0 == run.u1)
    else
      var (u, up, done) := RunPosition(keyframes, run, f - run.leadFrames);
      RunState(PathAt(keyframes, u, box), true, u, MovesTo(keyframes, u, up, 0, if up then n - 1 else 0), done)
  }

  /** Only the state of the box is the run's: the rest of it passes through. */
  lemma PathKeepsTheRest(keyframes: seq<Keyframe>, u: real, box: DmeSettings, other: DmeSettings)
    requires KeyframesOk(keyframes) && |keyframes| > 0
    ensures PathAt(keyframes, u, box) == box.(state := PathAt(keyframes, u, other).state)
  {
    if |keyframes| > 1 && u > 0.0 {
      PathFromKeepsTheRest(keyframes, 1, 0.0, u, box, other);
    }
  }

  lemma {:induction false} PathFromKeepsTheRest(keyframes: seq<Keyframe>, j: nat, t0: real, u: real, box: DmeSettings, other: DmeSettings)
    requires KeyframesOk(keyframes) && 1 <= j <= |keyframes|
    ensures PathFrom(keyframes, j, t0, u, box) == box.(state := PathFrom(keyframes, j, t0, u, other).state)
    decreases |keyframes| - j
  {
    if j < |keyframes| {
      PathFromKeepsTheRest(keyframes, j + 1, t0 + keyframes[j].frames as real, u, box, other);
    }
  }

  lemma RunKeepsTheRest(keyframes: seq<Keyframe>, run: DmeRun, f: nat, box: DmeSettings, other: DmeSettings)
    requires KeyframesOk(keyframes) && RunOk(keyframes, run)
    ensures RunAt(keyframes, run, f, box) == RunAt(keyframes, run, f, other).(box := box.(state := RunAt(keyframes, run, f, other).box.state))
  {
    if !(run.leadFrames > 0 && f <= run.leadFrames) {
      PathKeepsTheRest(keyframes, RunPosition(keyframes, run, f - run.leadFrames).0, box, other);
    }
  }

  lemma {:induction false} MovesToKeyframe(keyframes: seq<Keyframe>, k: nat, up: bool, j: nat, best: int)
    requires KeyframesOk(keyframes) && j <= |keyframes| && k < |keyframes|
    requires if up then j <= k else j <= k || best == k
    ensures MovesTo(keyframes, KeyTime(keyframes, k), up, j, best) == k
    decreases |keyframes| - j
  {
    if j < |keyframes| {
      if j < k { KeyTimeRises(keyframes, j, k); }
      if k < j { KeyTimeRises(keyframes, k, j); }
      if !(up && j == k) {
        MovesToKeyframe(keyframes, k, up, j + 1, if !up && KeyTime(keyframes, j) <= KeyTime(keyframes, k) then j else best);
      }
    }
  }

  /** The grains a run without a loop takes: the lead-in, or the distance on the timeline. */
  function RunLength(run: DmeRun): real {
    if run.leadFrames > 0 then run.leadFrames as real
    else if run.u1 >= run.u0 then run.u1 - run.u0 else run.u0 - run.u1
  }

  /** A run to keyframe `to` ends exactly there and exactly when its length is over, from wherever the
      box was, on the path or off it. */
  lemma RunArrives(keyframes: seq<Keyframe>, start: DmeSettings, onPath: bool, u: real, to: nat, reverse: bool, f: nat, box: DmeSettings)
    requires KeyframesOk(keyframes) && to < |keyframes| && f >= 1
    ensures var run := RunFrom(keyframes, start, onPath, u, to, Off, reverse);
            && RunOk(keyframes, run)
            && (RunAt(keyframes, run, f, box).done <==> f as real >= RunLength(run))
            && (RunAt(keyframes, run, f, box).done ==>
                  RunAt(keyframes, run, f, box) == RunState(box.(state := keyframes[to].box.state), true, KeyTime(keyframes, to), to, true))
  {
    var run := RunFrom(keyframes, start, onPath, u, to, Off, reverse);
    if run.leadFrames > 0 && f <= run.leadFrames {
      if f == run.leadFrames {
        DivIs(f as real, run.leadFrames as real, 1.0);
        EaseShape(run.leadEase, 1.0, 1.0);
        BetweenEnds(box, run.from, keyframes[to].box);
      }
    } else if RunPosition(keyframes, run, f - run.leadFrames).2 {
      PathAtKeyframe(keyframes, to, box);
      MovesToKeyframe(keyframes, to, run.u1 >= run.u0, 0, if run.u1 >= run.u0 then |keyframes| - 1 else 0);
    }
  }

  lemma FModRange(x: real, y: real)
    requires x >= 0.0 && y > 0.0
    ensures 0.0 <= FMod(x, y) < y
    ensures FMod(x + y, y) == FMod(x, y)
  {
    var q := x / y;
    var k := q.Floor as real;
    Quotient(x, y, q, k);
    DivIs(x + y, y, q + 1.0);
    FloorIs(q + 1.0, q.Floor + 1);
    assert ((x + y) / y).Floor as real == k + 1.0;
    assert (k + 1.0) * y == k * y + y;
    assert FMod(x + y, y) == x + y - (k + 1.0) * y;
  }

  lemma Quotient(x: real, y: real, q: real, k: real)
    requires y > 0.0 && q == x / y && k <= q < k + 1.0
    ensures k * y <= x < k * y + y
  {
    assert q * y == x;
    ProductRises(q - k, y, q - k, y);
    assert (q - k) * y == x - k * y;
    Cancel(q - k, 1.0, y);
    Cancel(1.0, q - k, y);
  }

  /** A loop never ends, stays on the timeline, and repeats: every T + 1 grains when it wraps, every
      2 T grains back and forth (T the timeline's length). */
  lemma LoopsRepeat(keyframes: seq<Keyframe>, run: DmeRun, g: nat, cycle: nat)
    requires KeyframesOk(keyframes) && |keyframes| >= 2 && run.loop != Off
    requires 0.0 <= run.u0 <= KeyTime(keyframes, |keyframes| - 1)
    ensures !RunPosition(keyframes, run, g).2
    ensures 0.0 <= RunPosition(keyframes, run, g).0 <= KeyTime(keyframes, |keyframes| - 1)
    ensures var T := KeyTime(keyframes, |keyframes| - 1);
            cycle as real == (if run.loop == Wrap then T + 1.0 else 2.0 * T) ==>
              RunPosition(keyframes, run, g + cycle) == RunPosition(keyframes, run, g)
  {
    var T := KeyTime(keyframes, |keyframes| - 1);
    KeyTimeRises(keyframes, 0, |keyframes| - 1);
    var period := if run.loop == Wrap then T + 1.0 else 2.0 * T;
    var x := if run.loop == Wrap then (if run.reverse then T - run.u0 + g as real else run.u0 + g as real)
             else (if run.reverse then 2.0 * T - run.u0 + g as real else run.u0 + g as real);
    FModRange(x, period);
    if cycle as real == period {
      assert (g + cycle) as real == g as real + period;
    }
  }

  /** Back and forth the box never jumps: one grain moves it at most one grain of the timeline. */
  lemma PingPongNeverJumps(keyframes: seq<Keyframe>, run: DmeRun, g: nat)
    requires KeyframesOk(keyframes) && |keyframes| >= 2 && run.loop == PingPong
    requires 0.0 <= run.u0 <= KeyTime(keyframes, |keyframes| - 1)
    ensures var d := RunPosition(keyframes, run, g + 1).0 - RunPosition(keyframes, run, g).0;
            -1.0 <= d <= 1.0
  {
    var T := KeyTime(keyframes, |keyframes| - 1);
    KeyTimeRises(keyframes, 0, |keyframes| - 1);
    var x := if run.reverse then 2.0 * T - run.u0 + g as real else run.u0 + g as real;
    FModRange(x, 2.0 * T);
    FModRange(x + 1.0, 2.0 * T);
    FModStep(x, 2.0 * T);
    assert (g + 1) as real == g as real + 1.0;
  }

  lemma FModStep(x: real, y: real)
    requires x >= 0.0 && y >= 1.0
    ensures FMod(x + 1.0, y) == FMod(x, y) + 1.0 || FMod(x + 1.0, y) == FMod(x, y) + 1.0 - y
  {
    var q := x / y;
    var r := (x + 1.0) / y;
    assert q * y == x && r * y == x + 1.0;
    var d := r - q;
    assert d * y == 1.0;
    Cancel(0.0, d, y);
    Cancel(d, 1.0, y);
    var k := q.Floor;
    assert r.Floor == k || r.Floor == k + 1;
    if r.Floor == k + 1 {
      assert (k + 1) as real * y == k as real * y + y;
    }
  }
}
