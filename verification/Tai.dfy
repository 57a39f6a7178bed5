/** The grain clock (engine/src/core/tai.cpp) and the sample ranges of the PGM audio
    (engine/src/core/audio.cpp, and runAudio in engine/src/engine/engine.cpp). */
module Tai {

  datatype Rate = Rate(num: int, den: int)
  {
    predicate Ok() {
      num > 0 && den > 0
    }

    /** Nanoseconds of `num` grains. */
    function Billion(): int {
      1_000_000_000 * den
    }
  }

  /** What the index functions give for a rate that is none. */
  const NO_INDEX: nat := 0xffff_ffff_ffff_ffff

  function TimestampToIndex(rate: Rate, ns: nat): nat {
    if !rate.Ok() then NO_INDEX else
      Product(ns, rate.num);
      FloorReaches(ns * rate.num + 500_000_000 * rate.den, rate.Billion(), 0);
      (ns * rate.num + 500_000_000 * rate.den) / rate.Billion()
  }

  function IndexToTimestamp(rate: Rate, index: nat): nat {
    if !rate.Ok() then NO_INDEX else
      Product(index, rate.Billion());
      FloorReaches(index * rate.Billion() + rate.num / 2, rate.num, 0);
      (index * rate.Billion() + rate.num / 2) / rate.num
  }

  function WindowStart(rate: Rate, index: nat): nat {
    if !rate.Ok() || index == 0 then 0 else
      WindowRises(rate, index);
      FloorReaches(index * rate.Billion() - 500_000_000 * rate.den + rate.num - 1, rate.num, 0);
      (index * rate.Billion() - 500_000_000 * rate.den + rate.num - 1) / rate.num
  }

  lemma WindowRises(rate: Rate, index: nat)
    requires rate.Ok() && index >= 1
    ensures index * rate.Billion() >= rate.Billion()
  {
    var more := index - 1;
    Product(more, rate.Billion());
    assert index * rate.Billion() == more * rate.Billion() + rate.Billion();
  }

  lemma Product(a: nat, b: nat)
    ensures a * b >= 0
  {
  }

  /** a / d reaches i exactly when a reaches i * d. */
  lemma FloorReaches(a: int, d: int, i: int)
    requires d >= 1
    ensures a / d >= i <==> a >= i * d
  {
    var q, r := a / d, a % d;
    assert a == q * d + r && 0 <= r < d;
    if q >= i {
      Product(q - i, d);
      assert (q - i) * d == q * d - i * d;
    } else {
      Product(i - q - 1, d);
      assert (i - q - 1) * d == i * d - q * d - d;
    }
  }

  /** The current grain is at least i exactly from the start of i's window on. */
  lemma WindowIsWhereTheGrainStarts(rate: Rate, t: nat, i: nat)
    requires rate.Ok()
    ensures TimestampToIndex(rate, t) >= i <==> t >= WindowStart(rate, i)
  {
    if i > 0 {
      WindowRises(rate, i);
      var half := 500_000_000 * rate.den;
      FloorReaches(t * rate.num + half, rate.Billion(), i);
      var need := i * rate.Billion() - half;
      FloorReaches(need + rate.num - 1, rate.num, t + 1);
      assert (t + 1) * rate.num == t * rate.num + rate.num;
    }
  }

  /** A grain's timestamp is in its own window at every rate of at most one grain a nanosecond. */
  lemma RoundTrip(rate: Rate, i: nat)
    requires rate.Ok() && rate.num <= rate.Billion()
    ensures TimestampToIndex(rate, IndexToTimestamp(rate, i)) == i
  {
    var n, d := rate.num, rate.Billion();
    var t := IndexToTimestamp(rate, i);
    var a := i * d + n / 2;
    assert t * n + a % n == a;
    var x := t * n + 500_000_000 * rate.den;
    FloorReaches(x, d, i);
    assert (i + 1) * d == i * d + d;
    if n == d {
      WholeGrains(i, n);
      assert t == i;
    }
    FloorReaches(x, d, i + 1);
  }

  lemma WholeGrains(i: nat, n: int)
    requires n >= 1
    ensures (i * n + n / 2) / n == i
  {
    FloorReaches(i * n + n / 2, n, i);
    FloorReaches(i * n + n / 2, n, i + 1);
    assert (i + 1) * n == i * n + n;
  }

  predicate TripsBack(rate: Rate, i: nat) {
    TimestampToIndex(rate, IndexToTimestamp(rate, i)) == i
  }

  /** While grains have timestamps of their own, the i-th is at least i nanoseconds late. */
  lemma {:induction false} Climbs(rate: Rate, i: nat)
    requires rate.Ok() && forall k :: 0 <= k <= i ==> TripsBack(rate, k)
    ensures IndexToTimestamp(rate, i) >= i
  {
    hide TimestampToIndex, IndexToTimestamp;
    if i > 0 {
      Climbs(rate, i - 1);
      TimeStep(rate, i - 1);
      assert TripsBack(rate, i - 1) && TripsBack(rate, i);
    }
  }

  /** Every grain's timestamp has that grain as its index exactly at rates of at most a grain a nanosecond. */
  lemma RoundTripExactly(rate: Rate)
    requires rate.Ok()
    ensures (forall i: nat :: TripsBack(rate, i)) <==> rate.num <= rate.Billion()
  {
    var n := rate.num;
    WholeGrains(rate.Billion(), n);
    assert n * rate.Billion() == rate.Billion() * n;
    if n <= rate.Billion() {
      forall i: nat ensures TripsBack(rate, i) {
        RoundTrip(rate, i);
      }
    } else if forall i: nat :: TripsBack(rate, i) {
      Climbs(rate, n);
    }
  }

  // ---- the output index --------------------------------------------------------------------------

  datatype NextIndex = NextIndex(index: nat, skipped: nat)

  function NextOutputIndex(next: nat, current: nat): NextIndex {
    if next == 0 || next > current + 1 then NextIndex(current, 0)
    else if current > next then NextIndex(current, current - next)
    else NextIndex(next, 0)
  }

  // ---- samples -----------------------------------------------------------------------------------

  const AUDIO := Rate(48000, 1)

  datatype Range = Range(first: nat, end: nat)

  function SampleOf(rate: Rate, index: nat): nat {
    TimestampToIndex(AUDIO, IndexToTimestamp(rate, index))
  }

  function GrainSamples(rate: Rate, index: nat): Range {
    Range(SampleOf(rate, index), SampleOf(rate, index + 1))
  }

  /** The bound the delay lines are sized by. */
  function GrainMax(rate: Rate): int
    requires rate.Ok()
  {
    (48000 * rate.den + rate.num - 1) / rate.num + 1
  }

  lemma TimeStep(rate: Rate, i: nat)
    requires rate.Ok()
    ensures var step := IndexToTimestamp(rate, i + 1) - IndexToTimestamp(rate, i);
            step >= 0 && (step - 1) * rate.num < rate.Billion()
  {
    var n, d := rate.num, rate.Billion();
    var a := i * d + n / 2;
    var t, u := a / n, (a + d) / n;
    assert (i + 1) * d + n / 2 == a + d;
    assert t * n + a % n == a && u * n + (a + d) % n == a + d;
    assert (u - t) * n == d + a % n - (a + d) % n;
    assert (u - t - 1) * n == (u - t) * n - n;
    FloorReaches(a + d, n, t);
  }

  /** No grain is longer than GrainMax samples, and none ends before it starts. */
  lemma GrainIsBounded(rate: Rate, i: nat)
    requires rate.Ok()
    ensures var r := GrainSamples(rate, i); r.first <= r.end <= r.first + GrainMax(rate)
  {
    TimeStep(rate, i);
    var n := rate.num;
    var t, u := IndexToTimestamp(rate, i), IndexToTimestamp(rate, i + 1);
    var r := GrainSamples(rate, i);
    var step, len := u - t, r.end - r.first;
    assert len * 1_000_000_000 < step * 48000 + 1_000_000_000;
    assert (len - 1) * 1_000_000_000 < step * 48000;
    Scale(step * 48000 - (len - 1) * 1_000_000_000 - 1, n);
    var p, q := (len - 1) * n, (step - 1) * n;
    assert (step * 48000 - (len - 1) * 1_000_000_000 - 1) * n == 48000 * q + 48000 * n - 1_000_000_000 * p - n;
    FloorReaches(48000 * rate.den + n - 1, n, len - 1);
  }

  lemma Scale(x: int, n: nat)
    requires x >= 0
    ensures x * n >= 0
  {
  }

  // ---- the PGM audio's grains ----------------------------------------------------------------------

  const MOST_GRAINS := 25

  /** The first grain a job writes: the one after the last job's, unless that is too long ago. */
  function FirstGrain(last: nat, index: nat): (r: nat)
    ensures r <= index
  {
    if last != 0 && index > last && index - last <= MOST_GRAINS then last + 1 else index
  }

  function Grains(first: nat, index: nat): (r: seq<nat>)
    requires first <= index
    ensures |r| == index + 1 - first && forall k :: 0 <= k < |r| ==> r[k] == first + k
  {
    seq(index + 1 - first, k requires 0 <= k => first + k)
  }

  /** The grains written for a run of jobs, after one of grain `last`. */
  function Written(last: nat, jobs: seq<nat>): seq<nat>
    decreases |jobs|
  {
    if |jobs| == 0 then [] else Grains(FirstGrain(last, jobs[0]), jobs[0]) + Written(jobs[0], jobs[1..])
  }

  function Gap(s: seq<nat>, i: nat): int
    requires i + 1 < |s|
  {
    s[i + 1] as int - s[i]
  }

  ghost predicate Consecutive(s: seq<nat>) {
    forall i :: 0 <= i < |s| - 1 ==> Gap(s, i) == 1
  }

  ghost predicate Increasing(s: seq<nat>) {
    forall i :: 0 <= i < |s| - 1 ==> Gap(s, i) > 0
  }

  ghost predicate NoLongGap(s: seq<nat>) {
    forall i :: 0 <= i < |s| - 1 ==> Gap(s, i) <= MOST_GRAINS
  }

  /** x + [y] + z at its joint. */
  lemma Joint(x: seq<nat>, y: nat, z: seq<nat>)
    ensures Consecutive(x + [y] + z) <==> Consecutive(x + [y]) && Consecutive([y] + z)
    ensures Increasing(x + [y] + z) <==> Increasing(x + [y]) && Increasing([y] + z)
    ensures NoLongGap(x + [y] + z) <==> NoLongGap(x + [y]) && NoLongGap([y] + z)
  {
    var w, a, b := x + [y] + z, x + [y], [y] + z;
    forall i | 0 <= i < |w| - 1 ensures Gap(w, i) == if i < |x| then Gap(a, i) else Gap(b, i - |x|) {
    }
    forall i | 0 <= i < |b| - 1 ensures Gap(b, i) == Gap(w, |x| + i) {
    }
    forall i | 0 <= i < |a| - 1 ensures Gap(a, i) == Gap(w, i) {
    }
  }

  /** However many grains were skipped or dropped between jobs, no grain is written twice, and none is
      left out exactly when no two jobs are more than MOST_GRAINS grains apart. */
  lemma {:induction false} NoHoleNoOverlap(last: nat, jobs: seq<nat>)
    requires last > 0 && Increasing([last] + jobs)
    ensures Increasing([last] + Written(last, jobs))
    ensures Consecutive([last] + Written(last, jobs)) <==> NoLongGap([last] + jobs)
    decreases |jobs|
  {
    hide Consecutive, Increasing, NoLongGap;
    if |jobs| == 0 {
      Alone(last);
      assert [last] + jobs == [last] == [last] + Written(last, jobs);
    } else {
      var j, rest := jobs[0], jobs[1..];
      assert [last] + jobs == [last] + [j] + rest;
      Joint([last], j, rest);
      Rises(last, j);
      NoHoleNoOverlap(j, rest);
      var first := FirstGrain(last, j);
      var head := [last] + Grains(first, j)[..j - first];
      assert [last] + Written(last, jobs) == head + [j] + Written(j, rest);
      Joint(head, j, Written(j, rest));
      HeadIs(last, j);
    }
  }

  lemma Alone(last: nat)
    ensures Consecutive([last]) && Increasing([last]) && NoLongGap([last])
  {
  }

  lemma Rises(last: nat, j: nat)
    requires Increasing([last] + [j])
    ensures last < j
  {
    assert Gap([last] + [j], 0) == j - last;
  }

  lemma HeadIs(last: nat, j: nat)
    requires 0 < last < j
    ensures var head := [last] + Grains(FirstGrain(last, j), j)[..j - FirstGrain(last, j)];
            Increasing(head + [j]) && (Consecutive(head + [j]) <==> j - last <= MOST_GRAINS) && (NoLongGap([last] + [j]) <==> j - last <= MOST_GRAINS)
  {
    var first := FirstGrain(last, j);
    var all := [last] + Grains(first, j)[..j - first] + [j];
    assert forall i :: 1 <= i < |all| ==> all[i] == first + i - 1;
    forall i | 0 <= i < |all| - 1 ensures Gap(all, i) == if i == 0 then first - last else 1 {
    }
    assert Gap(all, 0) == first - last && Gap([last] + [j], 0) == j - last;
  }

  /** The samples of grains written one after the other. */
  function Samples(rate: Rate, grains: seq<nat>): seq<nat>
    requires rate.Ok()
  {
    if |grains| == 0 then []
    else
      GrainIsBounded(rate, grains[0]);
      var r := GrainSamples(rate, grains[0]);
      Interval(r.first, r.end) + Samples(rate, grains[1..])
  }

  function Interval(first: nat, end: nat): (r: seq<nat>)
    requires first <= end
    ensures |r| == end - first && forall k :: 0 <= k < |r| ==> r[k] == first + k
  {
    seq(end - first, k requires 0 <= k => first + k)
  }

  /** Consecutive grains are one interval of samples, each once. */
  lemma {:induction false} SamplesAreAnInterval(rate: Rate, grains: seq<nat>)
    requires rate.Ok() && |grains| > 0 && Consecutive(grains)
    ensures var first, end := SampleOf(rate, grains[0]), SampleOf(rate, grains[|grains| - 1] + 1);
            first <= end && Samples(rate, grains) == Interval(first, end)
    decreases |grains|
  {
    hide SampleOf;
    GrainIsBounded(rate, grains[0]);
    var rest := grains[1..];
    if |rest| > 0 {
      forall i | 0 <= i < |rest| - 1 ensures Gap(rest, i) == Gap(grains, i + 1) {
      }
      assert Gap(grains, 0) == rest[0] as int - grains[0];
      SamplesAreAnInterval(rate, rest);
    }
  }

  class PgmAudio {
    const rate: Rate
    /** The grain of the last job; 0 before the first. */
    var last: nat
    ghost var written: seq<nat>

    constructor (rate: Rate)
      ensures this.rate == rate && last == 0 && written == []
    {
      this.rate := rate;
      last := 0;
      written := [];
    }

    /** Sound for every grain since the last job's. */
    method RunJob(index: nat)
      modifies this
      ensures last == index
      ensures written == old(written) + Grains(FirstGrain(old(last), index), index)
    {
      var first := index;
      if last != 0 && index > last && index - last <= MOST_GRAINS {
        first := last + 1;
      }
      for k := first to index + 1
        invariant last == old(last) && written == old(written) + Grains(first, index)[..k - first]
      {
        written := written + [k];
      }
      last := index;
    }
  }
}
