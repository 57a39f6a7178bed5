/** The audio meters (engine/src/core/meter.cpp): sample peak, mean square, true peak, overs and K-weighted
    power over blocks of the sample index, and the windows of finished blocks. Levels stay powers and
    amplitudes here: no decibels. */
module Meter {
  import opened Wrappers
  import opened RealMath

  const BLOCK := 4800

  function Abs(x: real): real {
    if x < 0.0 then -x else x
  }

  function Square(x: real): real {
    x * x
  }

  // ---- the filters ---------------------------------------------------------------------------------------

  /** The two biquads of the K-weighting (BS.1770-4) and the weighted sum of squares. */
  datatype Weighting = Weighting(z0: real, z1: real, z2: real, z3: real, ks: real)

  const B1: (real, real, real) := (1.53512485958697, -2.69169618940638, 1.19839281085285)
  const A1: (real, real) := (-1.69065929318241, 0.73248077421585)
  const B2: (real, real, real) := (1.0, -2.0, 1.0)
  const A2: (real, real) := (-1.99004745483398, 0.99007225036621)

  function KStep(w: Weighting, x: real): Weighting {
    var y1 := B1.0 * x + w.z0;
    var y2 := B2.0 * y1 + w.z2;
    Weighting(B1.1 * x - A1.0 * y1 + w.z1, B1.2 * x - A1.1 * y1, B2.1 * y1 - A2.0 * y2 + w.z3, B2.2 * y1 - A2.1 * y2, w.ks + y2 * y2)
  }

  /** The 48-tap interpolation filter of BS.1770-4 annex 2, in 4 phases. */
  function Phase(p: nat): (t: seq<real>)
    requires p < 4
    ensures |t| == 12
  {
    if p == 0 then [0.0017089843750, 0.0109863281250, -0.0196533203125, 0.0332031250000, -0.0594482421875, 0.1373291015625,
                    0.9721679687500, -0.1022949218750, 0.0476074218750, -0.0266113281250, 0.0148925781250, -0.0083007812500]
    else if p == 1 then [-0.0291748046875, 0.0292968750000, -0.0517578125000, 0.0891113281250, -0.1665039062500, 0.4650878906250,
                         0.7797851562500, -0.2003173828125, 0.1015625000000, -0.0582275390625, 0.0330810546875, -0.0189208984375]
    else if p == 2 then [-0.0189208984375, 0.0330810546875, -0.0582275390625, 0.1015625000000, -0.2003173828125, 0.7797851562500,
                         0.4650878906250, -0.1665039062500, 0.0891113281250, -0.0517578125000, 0.0292968750000, -0.0291748046875]
    else [-0.0083007812500, 0.0148925781250, -0.0266113281250, 0.0476074218750, -0.1022949218750, 0.9721679687500,
          0.1373291015625, -0.0594482421875, 0.0332031250000, -0.0196533203125, 0.0109863281250, 0.0017089843750]
  }

  /** Taps 0 .. n - 1 of phase p over the last 12 samples, the newest last. */
  function Filtered(p: nat, window: seq<real>, n: nat): real
    requires p < 4 && |window| == 12 && n <= 12
  {
    if n == 0 then 0.0 else Filtered(p, window, n - 1) + Phase(p)[n - 1] * window[11 - (n - 1)]
  }

  /** The highest of the four phases. */
  function Between(window: seq<real>): real
    requires |window| == 12
  {
    MaxR(MaxR(Abs(Filtered(0, window, 12)), Abs(Filtered(1, window, 12))), MaxR(Abs(Filtered(2, window, 12)), Abs(Filtered(3, window, 12))))
  }

  // ---- one channel, sample by sample ---------------------------------------------------------------------

  datatype Channel = Channel(peak: real, truePeak: real, sum: real, k: Weighting, history: seq<real>)

  const SILENT := Channel(0.0, 0.0, 0.0, Weighting(0.0, 0.0, 0.0, 0.0, 0.0), seq(11, i => 0.0))

  predicate ChannelOk(ch: Channel) {
    |ch.history| == 11 && 0.0 <= ch.peak && 0.0 <= ch.truePeak
  }

  function Feed(ch: Channel, x: real, program: bool): (r: Channel)
    requires ChannelOk(ch)
    ensures ChannelOk(r)
  {
    var peak := MaxR(ch.peak, Abs(x));
    var fed := ch.(peak := peak, sum := ch.sum + Square(x));
    if !program then fed
    else fed.(k := KStep(ch.k, x), history := ch.history[1..] + [x],
              truePeak := MaxR(MaxR(ch.truePeak, Between(ch.history + [x])), peak))
  }

  function FeedAll(ch: Channel, xs: seq<real>, program: bool): (r: Channel)
    requires ChannelOk(ch)
    ensures ChannelOk(r)
  {
    if |xs| == 0 then ch else Feed(FeedAll(ch, xs[..|xs| - 1], program), xs[|xs| - 1], program)
  }

  lemma {:induction false} FeedJoins(ch: Channel, a: seq<real>, b: seq<real>, program: bool)
    requires ChannelOk(ch)
    ensures FeedAll(ch, a + b, program) == FeedAll(FeedAll(ch, a, program), b, program)
    decreases |b|
  {
    hide Feed;
    if |b| == 0 {
      assert a + b == a;
    } else {
      FeedJoins(ch, a, b[..|b| - 1], program);
      assert (a + b)[..|a + b| - 1] == a + b[..|b| - 1];
    }
  }

  // ---- what a chunk of samples is made of -----------------------------------------------------------------

  function MaxAbs(xs: seq<real>): (r: real)
    ensures r >= 0.0
  {
    if |xs| == 0 then 0.0 else MaxR(MaxAbs(xs[..|xs| - 1]), Abs(xs[|xs| - 1]))
  }

  function SumSquares(xs: seq<real>): real {
    if |xs| == 0 then 0.0 else SumSquares(xs[..|xs| - 1]) + Square(xs[|xs| - 1])
  }

  function KAll(w: Weighting, xs: seq<real>): Weighting {
    if |xs| == 0 then w else KStep(KAll(w, xs[..|xs| - 1]), xs[|xs| - 1])
  }

  /** The highest between-sample value over the windows that end in samples 0 .. n - 1 behind the history. */
  function MaxBetween(all: seq<real>, n: nat): (r: real)
    requires |all| >= n + 11
    ensures r >= 0.0
  {
    if n == 0 then 0.0 else MaxR(MaxBetween(all, n - 1), Between(all[n - 1..n + 11]))
  }

  lemma {:induction false} MaxBetweenSame(all: seq<real>, more: seq<real>, n: nat)
    requires |all| >= n + 11 && |more| >= n + 11 && all[..n + 11] == more[..n + 11]
    ensures MaxBetween(all, n) == MaxBetween(more, n)
  {
    hide Between;
    if n > 0 {
      assert all[..n + 10] == all[..n + 11][..n + 10] && more[..n + 10] == more[..n + 11][..n + 10];
      MaxBetweenSame(all, more, n - 1);
      assert all[n - 1..n + 11] == all[..n + 11][n - 1..] && more[n - 1..n + 11] == more[..n + 11][n - 1..];
    }
  }

  /** Feeding a chunk sample by sample, part by part. */
  lemma {:induction false} FeedParts(ch: Channel, xs: seq<real>, program: bool)
    requires ChannelOk(ch) && ch.truePeak >= (if program then ch.peak else 0.0)
    ensures var r := FeedAll(ch, xs, program);
            && r.peak == MaxR(ch.peak, MaxAbs(xs)) && r.sum == ch.sum + SumSquares(xs)
            && if !program then r.k == ch.k && r.history == ch.history && r.truePeak == ch.truePeak
               else r.k == KAll(ch.k, xs) && r.history == (ch.history + xs)[|xs|..]
                    && r.truePeak == MaxR(MaxR(ch.truePeak, MaxBetween(ch.history + xs, |xs|)), r.peak)
    decreases |xs|
  {
    hide KStep, Between;
    if |xs| > 0 {
      var n := |xs| - 1;
      var front := xs[..n];
      FeedParts(ch, front, program);
      if program {
        var all := ch.history + xs;
        assert (ch.history + front)[n..] == all[n..n + 11];
        assert all[n..n + 11] + [xs[n]] == all[n..n + 12];
        assert all[n..n + 11][1..] + [xs[n]] == all[n + 1..];
        MaxBetweenSame(ch.history + front, all, n);
      }
    } else {
      assert ch.history + xs == ch.history;
    }
  }

  // ---- a chunk in lanes ------------------------------------------------------------------------------------

  function AllMax(lanes: seq<real>): (r: real)
    ensures r >= 0.0
  {
    if |lanes| == 0 then 0.0 else MaxR(AllMax(lanes[..|lanes| - 1]), lanes[|lanes| - 1])
  }

  function AllSum(lanes: seq<real>): real {
    if |lanes| == 0 then 0.0 else AllSum(lanes[..|lanes| - 1]) + lanes[|lanes| - 1]
  }

  /** Raising one lane raises the highest, adding to one adds to the sum. */
  lemma {:induction false} OneLane(lanes: seq<real>, l: nat, v: real)
    requires l < |lanes|
    ensures AllMax(lanes[l := MaxR(lanes[l], v)]) == MaxR(AllMax(lanes), if v < 0.0 then 0.0 else v)
    ensures AllSum(lanes[l := lanes[l] + v]) == AllSum(lanes) + v
    decreases |lanes|
  {
    var n := |lanes| - 1;
    if l == n {
      assert lanes[l := MaxR(lanes[l], v)][..n] == lanes[..n] && lanes[l := lanes[l] + v][..n] == lanes[..n];
    } else {
      OneLane(lanes[..n], l, v);
      assert lanes[l := MaxR(lanes[l], v)][..n] == lanes[..n][l := MaxR(lanes[..n][l], v)];
      assert lanes[l := lanes[l] + v][..n] == lanes[..n][l := lanes[..n][l] + v];
    }
  }

  lemma EmptyLanes(n: nat)
    ensures AllMax(seq(n, i => 0.0)) == 0.0 && AllSum(seq(n, i => 0.0)) == 0.0
  {
    if n > 0 {
      EmptyLanes(n - 1);
      assert seq(n, i => 0.0)[..n - 1] == seq(n - 1, i => 0.0);
    }
  }

  lemma OneMore(xs: seq<real>, s: nat)
    requires s < |xs|
    ensures MaxAbs(xs[..s + 1]) == MaxR(MaxAbs(xs[..s]), Abs(xs[s])) && SumSquares(xs[..s + 1]) == SumSquares(xs[..s]) + Square(xs[s])
    ensures forall w :: KAll(w, xs[..s + 1]) == KStep(KAll(w, xs[..s]), xs[s])
  {
    assert xs[..s + 1][..s] == xs[..s];
  }

  /** The next 8 samples, one to each lane. */
  method EightMore(xs: seq<real>, s: nat, pk0: seq<real>, sq0: seq<real>) returns (pk: seq<real>, sq: seq<real>)
    requires s + 8 <= |xs| && |pk0| == |sq0| == 8 && AllMax(pk0) == MaxAbs(xs[..s]) && AllSum(sq0) == SumSquares(xs[..s])
    ensures |pk| == |sq| == 8 && AllMax(pk) == MaxAbs(xs[..s + 8]) && AllSum(sq) == SumSquares(xs[..s + 8])
  {
    hide AllMax, AllSum, MaxAbs, SumSquares, Square;
    pk, sq := pk0, sq0;
    for l := 0 to 8
      invariant |pk| == |sq| == 8
      invariant AllMax(pk) == MaxAbs(xs[..s + l]) && AllSum(sq) == SumSquares(xs[..s + l])
    {
      OneMore(xs, s + l);
      OneLane(pk, l, Abs(xs[s + l]));
      OneLane(sq, l, Square(xs[s + l]));
      pk := pk[l := MaxR(pk[l], Abs(xs[s + l]))];
      sq := sq[l := sq[l] + Square(xs[s + l])];
    }
  }

  /** The lanes into the peak and the sum. */
  method Merge(pk: seq<real>, sq: seq<real>, peak0: real, sum0: real) returns (peak: real, sum: real)
    requires |pk| == |sq| == 8 && peak0 >= 0.0
    ensures peak == MaxR(peak0, AllMax(pk)) && sum == sum0 + AllSum(sq)
  {
    peak, sum := peak0, sum0;
    for l := 0 to 8
      invariant peak == MaxR(peak0, AllMax(pk[..l])) && sum == sum0 + AllSum(sq[..l])
    {
      assert pk[..l + 1][..l] == pk[..l] && sq[..l + 1][..l] == sq[..l];
      peak := MaxR(peak, pk[l]);
      sum := sum + sq[l];
    }
    assert pk[..8] == pk && sq[..8] == sq;
  }

  /** The peak and the sum of squares of a chunk, in 8 lanes and a rest. */
  method PeakAndSquares(xs: seq<real>, peak0: real) returns (peak: real, sum: real)
    requires peak0 >= 0.0
    ensures peak == MaxR(peak0, MaxAbs(xs)) && sum == SumSquares(xs)
  {
    hide AllMax, AllSum, Square;
    var pk, sq := seq(8, i => 0.0), seq(8, i => 0.0);
    EmptyLanes(8);
    var s := 0;
    while s + 8 <= |xs|
      invariant 0 <= s <= |xs| && |pk| == |sq| == 8
      invariant AllMax(pk) == MaxAbs(xs[..s]) && AllSum(sq) == SumSquares(xs[..s])
    {
      pk, sq := EightMore(xs, s, pk, sq);
      s := s + 8;
    }
    sum := 0.0;
    peak := peak0;
    while s < |xs|
      invariant 0 <= s <= |xs| && peak >= 0.0
      invariant MaxR(peak, AllMax(pk)) == MaxR(peak0, MaxAbs(xs[..s])) && sum + AllSum(sq) == SumSquares(xs[..s])
    {
      OneMore(xs, s);
      peak := MaxR(peak, Abs(xs[s]));
      sum := sum + Square(xs[s]);
      s := s + 1;
    }
    assert xs[..s] == xs;
    peak, sum := Merge(pk, sq, peak, sum);
  }

  /** The K-weighting of a chunk, sample after sample. */
  method Weigh(xs: seq<real>, w0: Weighting) returns (w: Weighting)
    ensures w == KAll(w0, xs)
  {
    hide KStep;
    w := w0;
    for i := 0 to |xs|
      invariant w == KAll(w0, xs[..i])
    {
      OneMore(xs, i);
      w := KStep(w, xs[i]);
    }
    assert xs[..|xs|] == xs;
  }

  /** A phase's value at sample i behind the history. */
  function AccAt(all: seq<real>, p: nat, i: nat, taps: nat): real
    requires p < 4 && i + 12 <= |all| && taps <= 12
  {
    Filtered(p, all[i..i + 12], taps)
  }

  /** One phase as a block filter, a pass per tap. */
  method FilterPhase(all: seq<real>, m: nat, p: nat, acc: array<real>)
    requires |all| == m + 11 && p < 4 && acc.Length == m
    modifies acc
    ensures forall i :: 0 <= i < m ==> acc[i] == AccAt(all, p, i, 12)
  {
    for i := 0 to m
      invariant forall j :: 0 <= j < i ==> acc[j] == 0.0
    {
      acc[i] := 0.0;
    }
    for tap := 0 to 12
      invariant forall i :: 0 <= i < m ==> acc[i] == AccAt(all, p, i, tap)
    {
      FilterTap(all, m, p, tap, acc);
    }
  }

  method FilterTap(all: seq<real>, m: nat, p: nat, tap: nat, acc: array<real>)
    requires |all| == m + 11 && p < 4 && acc.Length == m && tap < 12
    requires forall i :: 0 <= i < m ==> acc[i] == AccAt(all, p, i, tap)
    modifies acc
    ensures forall i :: 0 <= i < m ==> acc[i] == AccAt(all, p, i, tap + 1)
  {
    hide Phase;
    var cf := Phase(p)[tap];
    for i := 0 to m
      invariant forall j :: 0 <= j < i ==> acc[j] == AccAt(all, p, j, tap + 1)
      invariant forall j :: i <= j < m ==> acc[j] == AccAt(all, p, j, tap)
    {
      assert all[i..i + 12][11 - tap] == all[i + 11 - tap];
      acc[i] := acc[i] + cf * all[11 - tap + i];
    }
  }

  /** The highest value of one phase, in 8 lanes and a rest. */
  method PhasePeak(acc: seq<real>, tl0: seq<real>, tp0: real) returns (tl: seq<real>, tp: real)
    requires |tl0| == 8 && tp0 >= 0.0
    ensures |tl| == 8 && tp >= 0.0 && MaxR(tp, AllMax(tl)) == MaxR(MaxR(tp0, AllMax(tl0)), MaxAbs(acc))
  {
    hide AllMax, Square;
    tl, tp := tl0, tp0;
    var i := 0;
    while i + 8 <= |acc|
      invariant 0 <= i <= |acc| && |tl| == 8 && AllMax(tl) == MaxR(AllMax(tl0), MaxAbs(acc[..i]))
    {
      for l := 0 to 8
        invariant |tl| == 8 && AllMax(tl) == MaxR(AllMax(tl0), MaxAbs(acc[..i + l]))
      {
        OneMore(acc, i + l);
        OneLane(tl, l, Abs(acc[i + l]));
        tl := tl[l := MaxR(tl[l], Abs(acc[i + l]))];
      }
      i := i + 8;
    }
    while i < |acc|
      invariant 0 <= i <= |acc| && |tl| == 8 && tp >= 0.0 && MaxR(tp, AllMax(tl)) == MaxR(MaxR(tp0, AllMax(tl0)), MaxAbs(acc[..i]))
    {
      OneMore(acc, i);
      tp := MaxR(tp, Abs(acc[i]));
      i := i + 1;
    }
    assert acc[..i] == acc;
  }

  /** The highest value of phase p over the first n windows. */
  function MaxPhase(all: seq<real>, p: nat, n: nat): (r: real)
    requires p < 4 && |all| >= n + 11
    ensures r >= 0.0
  {
    if n == 0 then 0.0 else MaxR(MaxPhase(all, p, n - 1), Abs(AccAt(all, p, n - 1, 12)))
  }

  lemma {:induction false} PhasesAreBetween(all: seq<real>, n: nat)
    requires |all| >= n + 11
    ensures MaxBetween(all, n) == MaxR(MaxR(MaxPhase(all, 0, n), MaxPhase(all, 1, n)), MaxR(MaxPhase(all, 2, n), MaxPhase(all, 3, n)))
  {
    hide Filtered;
    if n > 0 { PhasesAreBetween(all, n - 1); }
  }

  lemma {:induction false} AccIsPhase(all: seq<real>, p: nat, acc: seq<real>, n: nat)
    requires p < 4 && |all| == |acc| + 11 && n <= |acc| && forall i :: 0 <= i < |acc| ==> acc[i] == AccAt(all, p, i, 12)
    ensures MaxAbs(acc[..n]) == MaxPhase(all, p, n)
  {
    hide AccAt;
    if n > 0 {
      AccIsPhase(all, p, acc, n - 1);
      OneMore(acc, n - 1);
    }
  }

  /** The true peak of a chunk: each phase as a block filter, the history carried over. */
  method TruePeak(history: seq<real>, xs: seq<real>, tp0: real) returns (tp: real)
    requires |history| == 11 && tp0 >= 0.0
    ensures tp == MaxR(tp0, MaxBetween(history + xs, |xs|))
  {
    hide Between, AccAt, MaxAbs;
    var all := history + xs;
    var m := |xs|;
    var acc := new real[m];
    var tl := seq(8, i => 0.0);
    EmptyLanes(8);
    tp := tp0;
    ghost var high := tp0;
    for p := 0 to 4
      invariant |tl| == 8 && tp >= 0.0 && MaxR(tp, AllMax(tl)) == high
      invariant p == 0 ==> high == tp0
      invariant p == 1 ==> high == MaxR(tp0, MaxPhase(all, 0, m))
      invariant p == 2 ==> high == MaxR(tp0, MaxR(MaxPhase(all, 0, m), MaxPhase(all, 1, m)))
      invariant p == 3 ==> high == MaxR(tp0, MaxR(MaxR(MaxPhase(all, 0, m), MaxPhase(all, 1, m)), MaxPhase(all, 2, m)))
      invariant p == 4 ==> high == MaxR(tp0, MaxR(MaxR(MaxPhase(all, 0, m), MaxPhase(all, 1, m)), MaxR(MaxPhase(all, 2, m), MaxPhase(all, 3, m))))
    {
      FilterPhase(all, m, p, acc);
      AccIsPhase(all, p, acc[..], m);
      assert acc[..][..m] == acc[..];
      tl, tp := PhasePeak(acc[..], tl, tp);
      high := MaxR(high, MaxPhase(all, p, m));
    }
    PhasesAreBetween(all, m);
    for l := 0 to 8
      invariant tp >= 0.0 && MaxR(tp, AllMax(tl[l..])) == high
    {
      FirstLane(tl[l..]);
      tp := MaxR(tp, tl[l]);
      assert tl[l..][1..] == tl[l + 1..];
    }
    assert tl[8..] == [];
  }

  lemma {:induction false} FirstLane(lanes: seq<real>)
    requires |lanes| > 0
    ensures AllMax(lanes) == MaxR(AllMax(lanes[1..]), if lanes[0] < 0.0 then 0.0 else lanes[0])
    decreases |lanes|
  {
    if |lanes| > 1 {
      FirstLane(lanes[..|lanes| - 1]);
      assert lanes[1..][..|lanes| - 2] == lanes[..|lanes| - 1][1..];
    }
  }

  function Overs(xs: seq<real>): nat {
    if |xs| == 0 then 0 else Overs(xs[..|xs| - 1]) + if Abs(xs[|xs| - 1]) >= 1.0 then 1 else 0
  }

  /** Below full scale there is nothing over. */
  lemma {:induction false} NoOvers(xs: seq<real>)
    requires MaxAbs(xs) < 1.0
    ensures Overs(xs) == 0
    decreases |xs|
  {
    if |xs| > 0 { NoOvers(xs[..|xs| - 1]); }
  }

  /** A chunk through one channel: the channel as after each of its samples, and its overs counted exactly. */
  method Run(ch: Channel, xs: seq<real>, program: bool, overs0: nat) returns (r: Channel, overs: nat)
    requires ChannelOk(ch) && ch.truePeak >= (if program then ch.peak else 0.0)
    ensures r == FeedAll(ch, xs, program) && overs == overs0 + (if program then Overs(xs) else 0)
  {
    hide MaxAbs, SumSquares, KAll, MaxBetween, AllMax, AllSum;
    FeedParts(ch, xs, program);
    var peak, sum := PeakAndSquares(xs, ch.peak);
    r := ch.(peak := peak, sum := ch.sum + sum);
    overs := overs0;
    if !program {
      return;
    }
    if peak >= 1.0 {
      for i := 0 to |xs|
        invariant overs == overs0 + Overs(xs[..i])
      {
        assert xs[..i + 1][..i] == xs[..i];
        overs := overs + if Abs(xs[i]) >= 1.0 then 1 else 0;
      }
      assert xs[..|xs|] == xs;
    } else {
      NoOvers(xs);
    }
    var k := Weigh(xs, ch.k);
    var tp := TruePeak(ch.history, xs, ch.truePeak);
    r := r.(k := k, truePeak := MaxR(tp, peak), history := (ch.history + xs)[|xs|..]);
  }

  // ---- blocks of the sample index -----------------------------------------------------------------------

  /** What a finished block says of a channel: its peak, mean square, true peak and K-weighted power. */
  datatype ChannelBlock = ChannelBlock(peak: real, ms: real, truePeak: real, power: real)

  datatype Block = Block(number: nat, channels: seq<ChannelBlock>)

  /** The block that runs with `filled` samples, the overs, and every block finished so far. */
  datatype Core = Core(ch: seq<Channel>, filled: nat, overs: nat, blocks: seq<Block>)

  /** The meter, and the sample index it goes on at. */
  datatype State = State(core: Core, next: nat, started: bool)

  ghost predicate Ok(s: Core, program: bool) {
    forall c :: 0 <= c < |s.ch| ==> ChannelOk(s.ch[c]) && s.ch[c].truePeak >= if program then s.ch[c].peak else 0.0
  }

  /** Rows of n samples, one for each channel. */
  predicate Rows(rows: seq<seq<real>>, channels: nat, n: nat) {
    |rows| == channels && forall c :: 0 <= c < channels ==> |rows[c]| == n
  }

  function Divisor(filled: nat): real {
    if filled == 0 then 1.0 else filled as real
  }

  function Finished(ch: Channel, filled: nat): ChannelBlock {
    ChannelBlock(ch.peak, ch.sum / Divisor(filled), ch.truePeak, ch.k.ks / Divisor(filled))
  }

  function Next(ch: Channel): Channel {
    ch.(peak := 0.0, truePeak := 0.0, sum := 0.0, k := ch.k.(ks := 0.0))
  }

  function EndBlock(s: Core, number: nat): Core {
    s.(blocks := s.blocks + [Block(number, seq(|s.ch|, c requires 0 <= c < |s.ch| => Finished(s.ch[c], s.filled)))],
       ch := seq(|s.ch|, c requires 0 <= c < |s.ch| => Next(s.ch[c])), filled := 0)
  }

  function EndAt(s: Core, index: nat): Core {
    if index % BLOCK == 0 && index > 0 then EndBlock(s, index / BLOCK - 1) else s
  }

  /** Each channel fed its samples [start, end). */
  ghost function FedEach(s: Core, rows: seq<seq<real>>, start: nat, end: nat, program: bool): (r: Core)
    requires Ok(s, program) && start <= end && |rows| == |s.ch| && forall c :: 0 <= c < |rows| ==> end <= |rows[c]|
    ensures |r.ch| == |s.ch|
  {
    s.(ch := seq(|s.ch|, c requires 0 <= c < |s.ch| && Ok(s, program) && |rows| == |s.ch| && start <= end <= |rows[c]| => FeedAll(s.ch[c], rows[c][start..end], program)),
       filled := s.filled + (end - start), overs := s.overs + if program then OversEach(rows, start, end, |rows|) else 0)
  }

  function OversEach(rows: seq<seq<real>>, start: nat, end: nat, c: nat): nat
    requires start <= end && c <= |rows| && forall d :: 0 <= d < |rows| ==> end <= |rows[d]|
  {
    if c == 0 then 0 else OversEach(rows, start, end, c - 1) + Overs(rows[c - 1][start..end])
  }

  lemma FedOk(s: Core, rows: seq<seq<real>>, start: nat, end: nat, program: bool)
    requires Ok(s, program) && start <= end && |rows| == |s.ch| && forall c :: 0 <= c < |rows| ==> end <= |rows[c]|
    ensures Ok(FedEach(s, rows, start, end, program), program)
  {
    forall c | 0 <= c < |s.ch| {
      FeedParts(s.ch[c], rows[c][start..end], program);
    }
  }

  lemma EndOk(s: Core, index: nat, program: bool)
    requires Ok(s, program)
    ensures Ok(EndAt(s, index), program) && |EndAt(s, index).ch| == |s.ch|
  {
  }

  /** The meter after samples start .. end - 1 of the rows, whose first sample has index `first`, one after the other. */
  ghost function Samples(s: Core, rows: seq<seq<real>>, first: nat, start: nat, end: nat, program: bool): (r: Core)
    requires Ok(s, program) && start <= end && |rows| == |s.ch| && forall c :: 0 <= c < |rows| ==> end <= |rows[c]|
    ensures Ok(r, program) && |r.ch| == |s.ch|
    decreases end
  {
    if start == end then s
    else
      var before := Samples(s, rows, first, start, end - 1, program);
      FedOk(before, rows, end - 1, end, program);
      EndOk(FedEach(before, rows, end - 1, end, program), first + end, program);
      EndAt(FedEach(before, rows, end - 1, end, program), first + end)
  }

  /** A start, or a jump in the sample index, begins a new block from here. */
  function Restarted(s: State, first: nat): Core {
    if s.started && first == s.next then s.core else s.core.(filled := 0, ch := seq(|s.core.ch|, c => SILENT))
  }

  lemma RestartedOk(s: State, first: nat, program: bool)
    requires Ok(s.core, program)
    ensures Ok(Restarted(s, first), program) && |Restarted(s, first).ch| == |s.core.ch|
  {
  }

  ghost function Add(s: State, rows: seq<seq<real>>, n: nat, first: nat, program: bool): State
    requires Ok(s.core, program) && Rows(rows, |s.core.ch|, n)
  {
    RestartedOk(s, first, program);
    State(Samples(Restarted(s, first), rows, first, 0, n, program), first + n, true)
  }

  lemma {:induction false} SamplesJoin(s: Core, rows: seq<seq<real>>, first: nat, start: nat, mid: nat, end: nat, program: bool)
    requires Ok(s, program) && start <= mid <= end && |rows| == |s.ch| && forall c :: 0 <= c < |rows| ==> end <= |rows[c]|
    ensures Samples(s, rows, first, start, end, program) == Samples(Samples(s, rows, first, start, mid, program), rows, first, mid, end, program)
    decreases end
  {
    hide FedEach, EndAt;
    if mid < end { SamplesJoin(s, rows, first, start, mid, end - 1, program); }
  }

  /** Equal stretches have equal fronts and equal last samples. */
  lemma SliceSame(a: seq<real>, b: seq<real>, i: nat, j: nat, n: nat)
    requires 0 < n && i + n <= |a| && j + n <= |b| && a[i..i + n] == b[j..j + n]
    ensures a[i..i + n - 1] == b[j..j + n - 1] && a[i + n - 1..i + n] == b[j + n - 1..j + n]
  {
    assert a[i..i + n - 1] == a[i..i + n][..n - 1] && b[j..j + n - 1] == b[j..j + n][..n - 1];
    assert a[i + n - 1..i + n] == a[i..i + n][n - 1..] && b[j + n - 1..j + n] == b[j..j + n][n - 1..];
  }

  ghost predicate SameStretch(a: seq<seq<real>>, b: seq<seq<real>>, i: nat, j: nat, n: nat) {
    |a| == |b| && forall c :: 0 <= c < |a| ==> i + n <= |a[c]| && j + n <= |b[c]| && a[c][i..i + n] == b[c][j..j + n]
  }

  lemma StretchSplits(a: seq<seq<real>>, b: seq<seq<real>>, i: nat, j: nat, n: nat)
    requires 0 < n && SameStretch(a, b, i, j, n)
    ensures SameStretch(a, b, i, j, n - 1) && SameStretch(a, b, i + n - 1, j + n - 1, 1)
  {
    forall c | 0 <= c < |a| {
      SliceSame(a[c], b[c], i, j, n);
    }
  }

  /** Samples of rows that hold the same values, at the same indices, are the same. */
  lemma {:induction false} SamplesSame(s: Core, a: seq<seq<real>>, b: seq<seq<real>>, first: nat, shift: nat, n: nat, program: bool)
    requires Ok(s, program) && |a| == |b| == |s.ch| && SameStretch(a, b, shift, 0, n)
    ensures Samples(s, a, first, shift, shift + n, program) == Samples(s, b, first + shift, 0, n, program)
    decreases n
  {
    hide EndAt, FedEach, Ok;
    if 0 < n {
      StretchSplits(a, b, shift, 0, n);
      SamplesSame(s, a, b, first, shift, n - 1, program);
      FedSame(Samples(s, b, first + shift, 0, n - 1, program), a, b, shift + n - 1, n - 1, program);
    }
  }

  lemma FedSame(s: Core, a: seq<seq<real>>, b: seq<seq<real>>, i: nat, j: nat, program: bool)
    requires Ok(s, program) && |a| == |b| == |s.ch| && SameStretch(a, b, i, j, 1)
    ensures FedEach(s, a, i, i + 1, program) == FedEach(s, b, j, j + 1, program)
  {
    hide FeedAll, Overs;
    OversSame(a, b, i, j, |a|);
    var x, y := FedEach(s, a, i, i + 1, program), FedEach(s, b, j, j + 1, program);
    assert x.ch == y.ch;
  }

  lemma {:induction false} OversSame(a: seq<seq<real>>, b: seq<seq<real>>, i: nat, j: nat, c: nat)
    requires |a| == |b| && c <= |a| && forall d :: 0 <= d < |a| ==> i < |a[d]| && j < |b[d]| && a[d][i..i + 1] == b[d][j..j + 1]
    ensures OversEach(a, i, i + 1, c) == OversEach(b, j, j + 1, c)
  {
    hide Overs;
    if c > 0 { OversSame(a, b, i, j, c - 1); }
  }

  function Joined(a: seq<seq<real>>, b: seq<seq<real>>): (r: seq<seq<real>>)
    requires |a| == |b|
    ensures |r| == |a| && forall c :: 0 <= c < |r| ==> r[c] == a[c] + b[c]
  {
    seq(|a|, c requires 0 <= c < |a| && |a| == |b| => a[c] + b[c])
  }

  lemma JoinedStretches(a: seq<seq<real>>, n: nat, b: seq<seq<real>>, m: nat)
    requires |a| == |b| && Rows(a, |a|, n) && Rows(b, |a|, m)
    ensures Rows(Joined(a, b), |a|, n + m) && SameStretch(Joined(a, b), a, 0, 0, n) && SameStretch(Joined(a, b), b, n, 0, m)
  {
  }

  /** A contiguous stream leaves the same meter however it is cut into calls of add. */
  lemma ChunkingDoesNotMatter(s: State, a: seq<seq<real>>, n: nat, b: seq<seq<real>>, m: nat, first: nat, program: bool)
    requires Ok(s.core, program) && Rows(a, |s.core.ch|, n) && Rows(b, |s.core.ch|, m)
    ensures var one := Add(s, a, n, first, program);
            && Ok(one.core, program) && |one.core.ch| == |s.core.ch| && Rows(Joined(a, b), |s.core.ch|, n + m)
            && Add(one, b, m, first + n, program) == Add(s, Joined(a, b), n + m, first, program)
  {
    hide Ok, Joined, FedEach, EndAt;
    RestartedOk(s, first, program);
    var r, rows := Restarted(s, first), Joined(a, b);
    JoinedStretches(a, n, b, m);
    SamplesJoin(r, rows, first, 0, n, n + m, program);
    SamplesSame(r, rows, a, first, 0, n, program);
    SamplesSame(Samples(r, a, first, 0, n, program), rows, b, first, n, m, program);
  }

  // ---- a chunk up to the end of a block ------------------------------------------------------------------

  lemma {:induction false} OversJoin(a: seq<real>, b: seq<real>)
    ensures Overs(a + b) == Overs(a) + Overs(b)
    decreases |b|
  {
    if |b| == 0 { assert a + b == a; } else {
      OversJoin(a, b[..|b| - 1]);
      assert (a + b)[..|a + b| - 1] == a + b[..|b| - 1];
    }
  }

  lemma {:induction false} OversEachJoin(rows: seq<seq<real>>, start: nat, mid: nat, end: nat, c: nat)
    requires start <= mid <= end && c <= |rows| && forall d :: 0 <= d < |rows| ==> end <= |rows[d]|
    ensures OversEach(rows, start, end, c) == OversEach(rows, start, mid, c) + OversEach(rows, mid, end, c)
  {
    hide Overs;
    if c > 0 {
      OversEachJoin(rows, start, mid, end, c - 1);
      assert rows[c - 1][start..end] == rows[c - 1][start..mid] + rows[c - 1][mid..end];
      OversJoin(rows[c - 1][start..mid], rows[c - 1][mid..end]);
    }
  }

  lemma FedJoins(s: Core, rows: seq<seq<real>>, start: nat, mid: nat, end: nat, program: bool)
    requires Ok(s, program) && start <= mid <= end && |rows| == |s.ch| && forall c :: 0 <= c < |rows| ==> end <= |rows[c]|
    ensures Ok(FedEach(s, rows, start, mid, program), program)
    ensures FedEach(FedEach(s, rows, start, mid, program), rows, mid, end, program) == FedEach(s, rows, start, end, program)
  {
    hide FeedAll, OversEach;
    FedOk(s, rows, start, mid, program);
    OversEachJoin(rows, start, mid, end, |rows|);
    var x, y := FedEach(FedEach(s, rows, start, mid, program), rows, mid, end, program), FedEach(s, rows, start, end, program);
    forall c | 0 <= c < |rows| ensures x.ch[c] == y.ch[c] {
      FeedJoins(s.ch[c], rows[c][start..mid], rows[c][mid..end], program);
      assert rows[c][start..end] == rows[c][start..mid] + rows[c][mid..end];
    }
    assert x.ch == y.ch;
  }

  /** Samples that reach at most the end of their block go through each channel at once. */
  lemma {:induction false} ChunkIs(s: Core, rows: seq<seq<real>>, first: nat, start: nat, end: nat, program: bool)
    requires Ok(s, program) && start < end && |rows| == |s.ch| && forall c :: 0 <= c < |rows| ==> end <= |rows[c]|
    requires (first + start) % BLOCK + (end - start) <= BLOCK
    ensures Samples(s, rows, first, start, end, program) == EndAt(FedEach(s, rows, start, end, program), first + end)
    decreases end
  {
    hide FedEach, Ok, EndBlock;
    if start < end - 1 {
      ChunkIs(s, rows, first, start, end - 1, program);
      FedJoins(s, rows, start, end - 1, end, program);
      assert (first + end - 1) % BLOCK == (first + start) % BLOCK + (end - 1 - start);
    }
  }

  // ---- windows of finished blocks --------------------------------------------------------------------------

  /** How far back of n values slot k's newest one is. */
  function Back(n: nat, k: nat, size: nat): nat
    requires size == 10 || size == 30
  {
    if size == 10 then (n - 1 - k) % 10 else (n - 1 - k) % 30
  }

  lemma BackSteps(n: nat, k: nat, size: nat)
    requires (size == 10 || size == 30) && k < size
    ensures Back(n + 1, k, size) == if k == SlotFor(n, size) then 0 else Back(n, k, size) + 1
  {
    BackIs(n, k, size);
    BackIs(n + 1, k, size);
    SlotSteps(n, size);
  }

  lemma SlotSteps(n: nat, size: nat)
    requires size == 10 || size == 30
    ensures SlotFor(n + 1, size) == if SlotFor(n, size) + 1 == size then 0 else SlotFor(n, size) + 1
  {
  }

  lemma BackIs(n: nat, k: nat, size: nat)
    requires (size == 10 || size == 30) && k < size
    ensures var r := SlotFor(n, size); Back(n, k, size) == if k < r then r - 1 - k else r - 1 - k + size
  {
    if size == 10 { Back10(n, k); } else { Back30(n, k); }
  }

  lemma Back10(n: nat, k: nat)
    requires k < 10
    ensures (n - 1 - k) % 10 == if k < n % 10 then n % 10 - 1 - k else n % 10 - 1 - k + 10
  {
    var q := n / 10;
    assert n - 1 - k == 10 * q + (n % 10 - 1 - k);
  }

  lemma Back30(n: nat, k: nat)
    requires k < 30
    ensures (n - 1 - k) % 30 == if k < n % 30 then n % 30 - 1 - k else n % 30 - 1 - k + 30
  {
    var q := n / 30;
    assert n - 1 - k == 30 * q + (n % 30 - 1 - k);
  }

  /** What slot k of a ring holds after the values of `hist`: the newest one at an index congruent to k, or 0. */
  function RingValue(hist: seq<real>, size: nat, k: nat): real
    requires size == 10 || size == 30
  {
    var j := |hist| - 1 - Back(|hist|, k, size);
    if 0 <= j < |hist| then hist[j] else 0.0
  }

  ghost predicate RingHolds(ring: seq<real>, hist: seq<real>, size: nat) {
    (size == 10 || size == 30) && |ring| == size && forall k :: 0 <= k < size ==> ring[k] == RingValue(hist, size, k)
  }

  function SlotFor(n: nat, size: nat): (k: nat)
    requires size == 10 || size == 30
    ensures k < size
  {
    if size == 10 then n % 10 else n % 30
  }

  lemma PutHolds(ring: seq<real>, hist: seq<real>, size: nat, v: real)
    requires RingHolds(ring, hist, size)
    ensures RingHolds(ring[SlotFor(|hist|, size) := v], hist + [v], size)
  {
    hide Back, SlotFor;
    var more := hist + [v];
    forall k | 0 <= k < size ensures ring[SlotFor(|hist|, size) := v][k] == RingValue(more, size, k) {
      BackSteps(|hist|, k, size);
    }
  }

  /** The last n values. */
  function LastOf(hist: seq<real>, n: nat): seq<real> {
    if |hist| <= n then hist else hist[|hist| - n..]
  }

  lemma {:induction false} LanesJoin(a: seq<real>, b: seq<real>)
    ensures AllSum(a + b) == AllSum(a) + AllSum(b) && AllMax(a + b) == MaxR(AllMax(a), AllMax(b))
    decreases |b|
  {
    if |b| == 0 { assert a + b == a; } else {
      LanesJoin(a, b[..|b| - 1]);
      assert (a + b)[..|a + b| - 1] == a + b[..|b| - 1];
    }
  }

  /** The ring is the last values, turned round. */
  lemma RingIsWindow(ring: seq<real>, hist: seq<real>, size: nat)
    requires RingHolds(ring, hist, size)
    ensures AllSum(ring) == AllSum(LastOf(hist, size)) && AllMax(ring) == AllMax(LastOf(hist, size))
    ensures |hist| <= size ==> ring[..|hist|] == hist
  {
    var n := |hist|;
    if n <= size {
      EmptyLanes(size - n);
      LanesJoin(hist, seq(size - n, i => 0.0));
      SmallRing(ring, hist, size);
    } else {
      var w, r := LastOf(hist, size), SlotFor(n, size);
      TurnedRing(ring, hist, size);
      LanesJoin(w[size - r..], w[..size - r]);
      LanesJoin(w[..size - r], w[size - r..]);
      assert w[..size - r] + w[size - r..] == w;
    }
  }

  lemma SmallRing(ring: seq<real>, hist: seq<real>, size: nat)
    requires RingHolds(ring, hist, size) && |hist| <= size
    ensures ring == hist + seq(size - |hist|, i => 0.0)
  {
    var n := |hist|;
    forall k | 0 <= k < size ensures ring[k] == if k < n then hist[k] else 0.0 {
      BackIs(n, k, size);
    }
  }

  lemma TurnedRing(ring: seq<real>, hist: seq<real>, size: nat)
    requires RingHolds(ring, hist, size) && |hist| > size
    ensures var w, r := LastOf(hist, size), SlotFor(|hist|, size); ring == w[size - r..] + w[..size - r]
  {
    hide Back, SlotFor;
    var n := |hist|;
    var w, r := LastOf(hist, size), SlotFor(n, size);
    forall k | 0 <= k < size ensures ring[k] == if k < r then w[size - r + k] else w[k - r] {
      BackIs(n, k, size);
    }
  }

  /** The slots of a 30-ring that hold the newest 4 of n + 1 values. */
  function Newest4(ring: seq<real>, n: nat): (r: seq<real>)
    requires |ring| == 30
    ensures |r| == 30 && forall k :: 0 <= k < 30 ==> r[k] == if (n + 30 - k) % 30 < 4 then ring[k] else 0.0
  {
    seq(30, k requires 0 <= k < 30 && |ring| == 30 => if (n + 30 - k) % 30 < 4 then ring[k] else 0.0)
  }

  /** All but the last 4 values as 0. */
  function Faded(hist: seq<real>): (r: seq<real>)
    ensures |r| == |hist| && forall j :: 0 <= j < |r| ==> r[j] == if j > |hist| - 5 then hist[j] else 0.0
  {
    seq(|hist|, j requires 0 <= j < |hist| => if j > |hist| - 5 then hist[j] else 0.0)
  }

  lemma Plus30(x: int)
    ensures (x + 30) % 30 == x % 30
  {
  }

  lemma Newest4Holds(ring: seq<real>, hist: seq<real>)
    requires RingHolds(ring, hist, 30) && |hist| > 0
    ensures RingHolds(Newest4(ring, |hist| - 1), Faded(hist), 30)
  {
    var n := |hist| - 1;
    forall k | 0 <= k < 30 ensures Newest4(ring, n)[k] == RingValue(Faded(hist), 30, k) {
      Plus30(n - k);
      assert (n + 30 - k) % 30 == Back(|hist|, k, 30);
    }
  }

  lemma FadedWindow(hist: seq<real>)
    ensures AllSum(LastOf(Faded(hist), 30)) == AllSum(LastOf(hist, 4))
  {
    var w, last := LastOf(Faded(hist), 30), LastOf(hist, 4);
    var zeros := |w| - |last|;
    assert w == seq(zeros, i => 0.0) + last;
    EmptyLanes(zeros);
    LanesJoin(seq(zeros, i => 0.0), last);
  }

  /** They are the last 4 values. */
  lemma Newest4IsWindow(ring: seq<real>, hist: seq<real>)
    requires RingHolds(ring, hist, 30) && |ring| == 30 && |hist| > 0
    ensures AllSum(Newest4(ring, |hist| - 1)) == AllSum(LastOf(hist, 4))
  {
    hide RingHolds, LastOf, Newest4, Faded;
    Newest4Holds(ring, hist);
    RingIsWindow(Newest4(ring, |hist| - 1), Faded(hist), 30);
    FadedWindow(hist);
  }

  // ---- the meter in place -----------------------------------------------------------------------------------

  /** A channel's last 10 blocks. */
  datatype Second = Second(peak: seq<real>, ms: seq<real>, truePeak: seq<real>)

  function Peaks(blocks: seq<Block>, c: nat): (r: seq<real>)
    requires forall b :: 0 <= b < |blocks| ==> c < |blocks[b].channels|
    ensures |r| == |blocks| && forall b :: 0 <= b < |r| ==> r[b] == blocks[b].channels[c].peak
  {
    seq(|blocks|, b requires 0 <= b < |blocks| && c < |blocks[b].channels| => blocks[b].channels[c].peak)
  }

  function Squares(blocks: seq<Block>, c: nat): (r: seq<real>)
    requires forall b :: 0 <= b < |blocks| ==> c < |blocks[b].channels|
    ensures |r| == |blocks| && forall b :: 0 <= b < |r| ==> r[b] == blocks[b].channels[c].ms
  {
    seq(|blocks|, b requires 0 <= b < |blocks| && c < |blocks[b].channels| => blocks[b].channels[c].ms)
  }

  function TruePeaks(blocks: seq<Block>, c: nat): (r: seq<real>)
    requires forall b :: 0 <= b < |blocks| ==> c < |blocks[b].channels|
    ensures |r| == |blocks| && forall b :: 0 <= b < |r| ==> r[b] == blocks[b].channels[c].truePeak
  {
    seq(|blocks|, b requires 0 <= b < |blocks| && c < |blocks[b].channels| => blocks[b].channels[c].truePeak)
  }

  /** A pair's K-weighted power in a block: its two channels', or the last one's alone. */
  function PairPower(channels: seq<ChannelBlock>, p: nat): real
    requires 2 * p < |channels|
  {
    channels[2 * p].power + if 2 * p + 1 < |channels| then channels[2 * p + 1].power else 0.0
  }

  function Powers(blocks: seq<Block>, p: nat): (r: seq<real>)
    requires forall b :: 0 <= b < |blocks| ==> 2 * p < |blocks[b].channels|
    ensures |r| == |blocks| && forall b :: 0 <= b < |r| ==> r[b] == PairPower(blocks[b].channels, p)
  {
    seq(|blocks|, b requires 0 <= b < |blocks| && 2 * p < |blocks[b].channels| => PairPower(blocks[b].channels, p))
  }

  /** What is shown of a channel after a block: the block, and the last second. */
  datatype Shown = Shown(now: ChannelBlock, peak1s: real, ms1s: real, truePeak1s: real)

  /** A pair's mean powers of the last 4 and the last 30 blocks. */
  datatype Loudness = Loudness(momentary: real, shortTerm: real)

  ghost predicate SecondHolds(r: Second, blocks: seq<Block>, c: nat)
    requires forall b :: 0 <= b < |blocks| ==> c < |blocks[b].channels|
  {
    RingHolds(r.peak, Peaks(blocks, c), 10) && RingHolds(r.ms, Squares(blocks, c), 10) && RingHolds(r.truePeak, TruePeaks(blocks, c), 10)
  }

  /** The last second of a channel as a window over its finished blocks. */
  function ShownOf(blocks: seq<Block>, c: nat): Shown
    requires |blocks| > 0 && forall b :: 0 <= b < |blocks| ==> c < |blocks[b].channels|
  {
    Shown(blocks[|blocks| - 1].channels[c], AllMax(LastOf(Peaks(blocks, c), 10)),
          AllSum(LastOf(Squares(blocks, c), 10)) / Min(|blocks|, 10) as real, AllMax(LastOf(TruePeaks(blocks, c), 10)))
  }

  function LoudnessOf(blocks: seq<Block>, p: nat): Loudness
    requires forall b :: 0 <= b < |blocks| ==> 2 * p < |blocks[b].channels|
  {
    Loudness(AllSum(LastOf(Powers(blocks, p), 4)) / 4.0, AllSum(LastOf(Powers(blocks, p), 30)) / 30.0)
  }

  /** The highest and the sum of the first n slots. */
  method Window(ring: seq<real>, n: nat) returns (high: real, sum: real)
    requires n <= |ring|
    ensures high == AllMax(ring[..n]) && sum == AllSum(ring[..n])
  {
    high, sum := 0.0, 0.0;
    for k := 0 to n
      invariant high == AllMax(ring[..k]) && sum == AllSum(ring[..k])
    {
      assert ring[..k + 1][..k] == ring[..k];
      high := MaxR(high, ring[k]);
      sum := sum + ring[k];
    }
  }

  lemma UsedIsWindow(ring: seq<real>, hist: seq<real>)
    requires RingHolds(ring, hist, 10)
    ensures |ring| == 10 && AllMax(ring[..Min(|hist|, 10)]) == AllMax(LastOf(hist, 10)) && AllSum(ring[..Min(|hist|, 10)]) == AllSum(LastOf(hist, 10))
  {
    RingIsWindow(ring, hist, 10);
    assert ring[..10] == ring;
  }

  /** A channel's block into its last second. */
  method EndChannel(r0: Second, b: ChannelBlock, ghost blocks: seq<Block>, c: nat, n: nat, ghost number: nat, ghost all: seq<ChannelBlock>) returns (r: Second, shown: Shown)
    requires n == |blocks| && c < |all| && all[c] == b && (forall i :: 0 <= i < |blocks| ==> c < |blocks[i].channels|) && SecondHolds(r0, blocks, c)
    ensures var more := blocks + [Block(number, all)]; SecondHolds(r, more, c) && shown == ShownOf(more, c)
  {
    hide RingHolds, AllMax, AllSum, LastOf;
    ghost var more := blocks + [Block(number, all)];
    var slot := SlotFor(n, 10);
    SecondSizes(r0, blocks, c);
    PutHolds(r0.peak, Peaks(blocks, c), 10, b.peak);
    PutHolds(r0.ms, Squares(blocks, c), 10, b.ms);
    PutHolds(r0.truePeak, TruePeaks(blocks, c), 10, b.truePeak);
    assert Peaks(more, c) == Peaks(blocks, c) + [b.peak];
    assert Squares(more, c) == Squares(blocks, c) + [b.ms];
    assert TruePeaks(more, c) == TruePeaks(blocks, c) + [b.truePeak];
    r := Second(r0.peak[slot := b.peak], r0.ms[slot := b.ms], r0.truePeak[slot := b.truePeak]);
    var used := Min(n + 1, 10);
    UsedIsWindow(r.peak, Peaks(more, c));
    UsedIsWindow(r.ms, Squares(more, c));
    UsedIsWindow(r.truePeak, TruePeaks(more, c));
    var p, _ := Window(r.peak, used);
    var _, sum := Window(r.ms, used);
    var t, _ := Window(r.truePeak, used);
    shown := Shown(b, p, sum / used as real, t);
  }

  lemma SecondSizes(r: Second, blocks: seq<Block>, c: nat)
    requires (forall b :: 0 <= b < |blocks| ==> c < |blocks[b].channels|) && SecondHolds(r, blocks, c)
    ensures |r.peak| == |r.ms| == |r.truePeak| == 10
  {
  }

  lemma LaneStep(lanes: seq<real>, k: nat)
    requires k < |lanes|
    ensures AllSum(lanes[..k + 1]) == AllSum(lanes[..k]) + lanes[k]
  {
    assert lanes[..k + 1][..k] == lanes[..k];
  }

  lemma NoLanes(lanes: seq<real>)
    ensures AllSum(lanes[..0]) == 0.0
  {
  }

  /** A pair's block into its last 3 seconds. */
  method EndPair(ring0: seq<real>, z: real, ghost hist: seq<real>, n: nat) returns (ring: seq<real>, loudness: Loudness)
    requires n == |hist| && RingHolds(ring0, hist, 30) && |ring0| == 30
    ensures RingHolds(ring, hist + [z], 30) && loudness == Loudness(AllSum(LastOf(hist + [z], 4)) / 4.0, AllSum(LastOf(hist + [z], 30)) / 30.0)
  {
    hide RingHolds, LastOf, AllSum, AllMax, Newest4;
    PutHolds(ring0, hist, 30, z);
    ring := ring0[SlotFor(n, 30) := z];
    var m4, m30 := 0.0, 0.0;
    NoLanes(ring);
    NoLanes(Newest4(ring, n));
    ghost var newest := Newest4(ring, n);
    for k := 0 to 30
      invariant m30 == AllSum(ring[..k]) && m4 == AllSum(newest[..k])
    {
      LaneStep(ring, k);
      LaneStep(newest, k);
      m30 := m30 + ring[k];
      if (n + 30 - k) % 30 < 4 {
        m4 := m4 + ring[k];
      }
    }
    assert ring[..30] == ring && newest[..30] == newest;
    RingIsWindow(ring, hist + [z], 30);
    Newest4IsWindow(ring, hist + [z]);
    loudness := Loudness(m4 / 4.0, m30 / 30.0);
  }

  class Meter {
    const channels: nat
    const program: bool
    var ch: seq<Channel>
    var filled: nat
    var next: nat
    var started: bool
    var blocks: nat
    var overs: nat
    /** Per channel the last 10 blocks, per pair the last 30. */
    var seconds: seq<Second>
    var pairs: seq<seq<real>>
    var shown: seq<Shown>
    var loudness: seq<Loudness>
    ghost var finished: seq<Block>

    ghost function Abs(): State
      reads this
    {
      State(Core(ch, filled, overs, finished), next, started)
    }

    ghost predicate Shaped()
      reads this
    {
      && |ch| == |seconds| == channels >= 1 && |pairs| == (channels + 1) / 2 && blocks == |finished|
      && forall b :: 0 <= b < |finished| ==> |finished[b].channels| == channels
    }

    ghost predicate RingsHold()
      reads this
      requires Shaped()
    {
      && (forall c :: 0 <= c < channels ==> SecondHolds(seconds[c], finished, c))
      && (program ==> forall p :: 0 <= p < |pairs| ==> RingHolds(pairs[p], Powers(finished, p), 30) && |pairs[p]| == 30)
    }

    ghost predicate Valid()
      reads this
    {
      Shaped() && Ok(Abs().core, program) && RingsHold()
    }

    constructor (channels: nat, program: bool)
      ensures Valid() && this.channels == (if channels == 0 then 1 else channels) && this.program == program
      ensures finished == [] && !started && overs == 0
    {
      var n := if channels == 0 then 1 else channels;
      this.channels, this.program := n, program;
      ch := seq(n, c => SILENT);
      filled, next, started, blocks, overs := 0, 0, false, 0, 0;
      seconds := seq(n, c => Second(seq(10, k => 0.0), seq(10, k => 0.0), seq(10, k => 0.0)));
      pairs := seq((n + 1) / 2, p => seq(30, k => 0.0));
      shown, loudness, finished := [], [], [];
    }

    method NewSeconds(number: nat, all: seq<ChannelBlock>) returns (news: seq<Second>, shows: seq<Shown>)
      requires Shaped() && RingsHold() && |all| == channels
      ensures |news| == |shows| == channels && forall b :: 0 <= b < |finished| ==> |finished[b].channels| == channels
      ensures var more := finished + [Block(number, all)]; forall c :: 0 <= c < channels ==> SecondHolds(news[c], more, c) && shows[c] == ShownOf(more, c)
    {
      hide SecondHolds, ShownOf;
      ghost var more := finished + [Block(number, all)];
      news, shows := [], [];
      for c := 0 to channels
        invariant |news| == |shows| == c
        invariant forall d :: 0 <= d < c ==> SecondHolds(news[d], more, d) && shows[d] == ShownOf(more, d)
      {
        var r, s := EndChannel(seconds[c], all[c], finished, c, blocks, number, all);
        news, shows := news + [r], shows + [s];
      }
    }

    method NewPairs(number: nat, all: seq<ChannelBlock>) returns (rings: seq<seq<real>>, louds: seq<Loudness>)
      requires Shaped() && RingsHold() && |all| == channels && program
      ensures |rings| == |louds| == |pairs| == (channels + 1) / 2 && forall b :: 0 <= b < |finished| ==> |finished[b].channels| == channels
      ensures var more := finished + [Block(number, all)];
              forall p :: 0 <= p < |pairs| ==> RingHolds(rings[p], Powers(more, p), 30) && |rings[p]| == 30 && louds[p] == LoudnessOf(more, p)
    {
      hide RingHolds, LastOf, SecondHolds;
      ghost var more := finished + [Block(number, all)];
      rings, louds := [], [];
      for p := 0 to |pairs|
        invariant |rings| == |louds| == p
        invariant forall q :: 0 <= q < p ==> RingHolds(rings[q], Powers(more, q), 30) && |rings[q]| == 30 && louds[q] == LoudnessOf(more, q)
      {
        var ring, loud := EndPair(pairs[p], PairPower(all, p), Powers(finished, p), blocks);
        assert Powers(more, p) == Powers(finished, p) + [PairPower(all, p)];
        RingSize(ring, Powers(more, p));
        rings, louds := rings + [ring], louds + [loud];
      }
    }

    /** The finished block into every channel's and pair's window. */
    method PutBlock(number: nat, all: seq<ChannelBlock>)
      requires Shaped() && RingsHold() && |all| == channels
      modifies this
      ensures Shaped() && RingsHold() && finished == old(finished) + [Block(number, all)] && blocks == old(blocks) + 1
      ensures ch == old(ch) && filled == old(filled) && next == old(next) && started == old(started) && overs == old(overs)
      ensures |shown| == channels && forall c :: 0 <= c < channels ==> shown[c] == ShownOf(finished, c)
      ensures program ==> |loudness| == |pairs| && forall p :: 0 <= p < |pairs| ==> loudness[p] == LoudnessOf(finished, p)
    {
      hide SecondHolds, RingHolds, ShownOf, LoudnessOf;
      var news, shows := NewSeconds(number, all);
      if program {
        var rings, louds := NewPairs(number, all);
        pairs, loudness := rings, louds;
      }
      seconds, shown := news, shows;
      finished := finished + [Block(number, all)];
      blocks := blocks + 1;
    }

    method FinishBlock(number: nat)
      requires Valid()
      modifies this
      ensures Valid() && Abs() == old(Abs()).(core := EndBlock(old(Abs()).core, number)) && |finished| == old(|finished|) + 1
      ensures |shown| == channels && forall c :: 0 <= c < channels ==> shown[c] == ShownOf(finished, c)
      ensures program ==> |loudness| == |pairs| && forall p :: 0 <= p < |pairs| ==> loudness[p] == LoudnessOf(finished, p)
    {
      ghost var core := Abs().core;
      var all := seq(channels, c requires 0 <= c < |ch| reads this => Finished(ch[c], filled));
      assert Block(number, all) == EndBlock(core, number).blocks[|finished|];
      PutBlock(number, all);
      ch := seq(|ch|, c requires 0 <= c < |ch| reads this => Next(ch[c]));
      filled := 0;
    }

    /** One channel's samples of a chunk; without any it is silence, in pieces. */
    method FeedChannel(ch0: Channel, x: Option<seq<real>>, m: nat, overs0: nat) returns (r: Channel, count: nat)
      requires ChannelOk(ch0) && ch0.truePeak >= (if program then ch0.peak else 0.0) && (x.Some? ==> |x.value| == m)
      ensures var xs := x.GetOr(Zeros(m)); r == FeedAll(ch0, xs, program) && count == overs0 + if program then Overs(xs) else 0
    {
      hide FeedAll, Overs;
      if x.Some? {
        r, count := Run(ch0, x.value, program, overs0);
        return;
      }
      FeedNone(ch0, program);
      r, count := ch0, overs0;
      var k := 0;
      while k < m
        invariant 0 <= k <= m && r == FeedAll(ch0, Zeros(k), program) && count == overs0 + if program then Overs(Zeros(k)) else 0
      {
        var piece := Min(4096, m - k);
        FeedPeaks(ch0, Zeros(k), program);
        FeedJoins(ch0, Zeros(k), Zeros(piece), program);
        OversJoin(Zeros(k), Zeros(piece));
        assert Zeros(k) + Zeros(piece) == Zeros(k + piece);
        r, count := Run(r, Zeros(piece), program, count);
        k := k + piece;
      }
    }

    method FeedChannels(x: Option<seq<seq<real>>>, n: nat, done: nat, m: nat, ghost rows: seq<seq<real>>, ghost core: Core)
      requires Ok(core, program) && ch == core.ch && |ch| == channels && overs == core.overs && done + m <= n
      requires (x.Some? ==> Rows(x.value, channels, n)) && rows == RowsOf(x, channels, n) && Rows(rows, channels, n)
      modifies this`ch, this`overs
      ensures |ch| == channels && forall c :: 0 <= c < channels ==> ch[c] == FeedAll(core.ch[c], rows[c][done..done + m], program)
      ensures overs == core.overs + if program then OversEach(rows, done, done + m, channels) else 0
    {
      hide FeedAll, Overs, ChannelOk, Zeros, RowsOf;
      for c := 0 to channels
        invariant |ch| == channels && forall d :: c <= d < channels ==> ch[d] == core.ch[d]
        invariant forall d :: 0 <= d < c ==> ch[d] == FeedAll(core.ch[d], rows[d][done..done + m], program)
        invariant overs == core.overs + if program then OversEach(rows, done, done + m, c) else 0
      {
        var row := if x.Some? then Some(x.value[c][done..done + m]) else None;
        RowPart(x, channels, n, c, done, m);
        OkAt(core, program, c);
        var r, count := FeedChannel(ch[c], row, m, overs);
        ch := ch[c := r];
        overs := count;
      }
    }

    /** A chunk of every channel's samples. */
    method FeedChunk(x: Option<seq<seq<real>>>, n: nat, done: nat, m: nat)
      requires Valid() && done + m <= n && (x.Some? ==> Rows(x.value, channels, n))
      modifies this`ch, this`overs, this`filled
      ensures Valid() && Rows(RowsOf(x, channels, n), channels, n)
      ensures Abs() == old(Abs()).(core := FedEach(old(Abs()).core, RowsOf(x, channels, n), done, done + m, program))
    {
      hide FeedAll, OversEach, SecondHolds, RingHolds, Powers, ChannelOk, RowsOf;
      ghost var rows, core := RowsOf(x, channels, n), Abs().core;
      RowsFit(x, channels, n);
      FedOk(core, rows, done, done + m, program);
      FeedChannels(x, n, done, m, rows, core);
      filled := filled + m;
      assert ch == FedEach(core, rows, done, done + m, program).ch;
    }

    /** The next samples up to the end of their block, and that end. */
    method AddChunk(x: Option<seq<seq<real>>>, n: nat, first: nat, done: nat, ghost core: Core) returns (m: nat, ended: bool)
      requires Valid() && (x.Some? ==> Rows(x.value, channels, n)) && done < n
      requires Ok(core, program) && |core.ch| == channels && Rows(RowsOf(x, channels, n), channels, n)
      requires Abs().core == Samples(core, RowsOf(x, channels, n), first, 0, done, program)
      modifies this
      ensures Valid() && 0 < m <= n - done && started == old(started)
      ensures Abs().core == Samples(core, RowsOf(x, channels, n), first, 0, done + m, program)
      ensures |finished| == old(|finished|) + (if ended then 1 else 0)
      ensures if ended then |shown| == channels && forall c :: 0 <= c < channels ==> shown[c] == ShownOf(finished, c)
              else shown == old(shown) && loudness == old(loudness) && finished == old(finished)
      ensures program && ended ==> |loudness| == |pairs| && forall p :: 0 <= p < |pairs| ==> loudness[p] == LoudnessOf(finished, p)
    {
      hide FedEach, EndBlock, SecondHolds, RingHolds, Powers, ShownOf, LoudnessOf, RowsOf, Ok;
      ghost var rows := RowsOf(x, channels, n);
      var pos := (first + done) % BLOCK;
      m := Min(n - done, BLOCK - pos);
      SamplesJoin(core, rows, first, 0, done, done + m, program);
      ChunkIs(Abs().core, rows, first, done, done + m, program);
      FeedChunk(x, n, done, m);
      ended := false;
      if (first + done + m) % BLOCK == 0 {
        FinishBlock((first + done + m) / BLOCK - 1);
        ended := true;
      }
    }

    /** Samples [first, first + n) of every channel; without any they are silent. True when a block finished. */
    method AddSamples(x: Option<seq<seq<real>>>, n: nat, first: nat) returns (ended: bool)
      requires Valid() && (x.Some? ==> Rows(x.value, channels, n))
      modifies this
      ensures Valid() && Rows(RowsOf(x, channels, n), channels, n) && Abs() == Add(old(Abs()), RowsOf(x, channels, n), n, first, program)
      ensures ended == (|finished| > old(|finished|))
      ensures ended ==> |shown| == channels && forall c :: 0 <= c < channels ==> shown[c] == ShownOf(finished, c)
      ensures program && ended ==> |loudness| == |pairs| && forall p :: 0 <= p < |pairs| ==> loudness[p] == LoudnessOf(finished, p)
    {
      hide FedEach, EndAt, SecondHolds, RingHolds, Powers, ShownOf, LoudnessOf, RowsOf;
      ghost var rows := RowsOf(x, channels, n);
      RowsFit(x, channels, n);
      Restart(first);
      ghost var core := Abs().core;
      ended := false;
      var done := 0;
      ghost var before := |finished|;
      while done < n
        invariant 0 <= done <= n && Valid() && started && Abs().core == Samples(core, rows, first, 0, done, program)
        invariant ended == (|finished| > before) && |finished| >= before
        invariant ended ==> |finished| > 0 && |shown| == channels && forall c :: 0 <= c < channels ==> shown[c] == ShownOf(finished, c)
        invariant program && ended ==> |loudness| == |pairs| && forall p :: 0 <= p < |pairs| ==> loudness[p] == LoudnessOf(finished, p)
      {
        var m, now := AddChunk(x, n, first, done, core);
        done := done + m;
        ended := ended || now;
      }
      next := first + n;
      RowsFit(x, channels, n);
      assert Abs() == State(Samples(core, rows, first, 0, n, program), first + n, true);
    }

    method Restart(first: nat)
      requires Valid()
      modifies this`started, this`filled, this`ch
      ensures Valid() && started && Abs().core == Restarted(old(Abs()), first) && finished == old(finished)
    {
      if !started || first != next {
        started := true;
        filled := 0;
        ch := seq(|ch|, c => SILENT);
      }
    }
  }

  lemma RowsFit(x: Option<seq<seq<real>>>, channels: nat, n: nat)
    requires x.Some? ==> Rows(x.value, channels, n)
    ensures Rows(RowsOf(x, channels, n), channels, n)
  {
  }

  lemma RowPart(x: Option<seq<seq<real>>>, channels: nat, n: nat, c: nat, done: nat, m: nat)
    requires (x.Some? ==> Rows(x.value, channels, n)) && c < channels && done + m <= n
    ensures Rows(RowsOf(x, channels, n), channels, n)
    ensures RowsOf(x, channels, n)[c][done..done + m] == if x.Some? then x.value[c][done..done + m] else Zeros(m)
  {
  }

  lemma OkAt(s: Core, program: bool, c: nat)
    requires Ok(s, program) && c < |s.ch|
    ensures ChannelOk(s.ch[c]) && s.ch[c].truePeak >= if program then s.ch[c].peak else 0.0
  {
  }

  lemma FeedPeaks(ch: Channel, xs: seq<real>, program: bool)
    requires ChannelOk(ch) && ch.truePeak >= (if program then ch.peak else 0.0)
    ensures FeedAll(ch, xs, program).truePeak >= if program then FeedAll(ch, xs, program).peak else 0.0
  {
    FeedParts(ch, xs, program);
  }

  lemma FeedNone(ch: Channel, program: bool)
    requires ChannelOk(ch)
    ensures FeedAll(ch, Zeros(0), program) == ch && Overs(Zeros(0)) == 0
  {
  }

  function Zeros(m: nat): seq<real> {
    seq(m, i => 0.0)
  }

  /** The rows a call of add stands for. */
  function RowsOf(x: Option<seq<seq<real>>>, channels: nat, n: nat): seq<seq<real>> {
    x.GetOr(seq(channels, c => Zeros(n)))
  }

  lemma RingSize(ring: seq<real>, hist: seq<real>)
    requires RingHolds(ring, hist, 30)
    ensures |ring| == 30
  {
  }
}
