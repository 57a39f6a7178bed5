/** The output grains of the engine (engine/src/engine/engine.cpp): the render thread follows the grain
    clock and fills one of three slots, the writer thread commits them in order. */
module OutputGrains {
  import opened Wrappers
  import opened Tai
  import opened FramePool

  /** The render thread waits for its next grain, renders grain `index`, or has one to hand over. */
  datatype Phase = Waiting | Rendering(index: nat) | HandingOver(slot: nat)

  /** `index` is the grain in each slot; the writer works on slot `writing`, whose grain is committed
      already when `done`. `clock` is when the render thread last read the time, `first` its first grain. */
  datatype Slots = Slots(
    busy: seq<bool>, index: seq<nat>, queue: seq<nat>, writing: Option<nat>, done: bool, phase: Phase,
    next: nat, clock: nat, first: Option<nat>, skipped: nat, rendered: seq<nat>, committed: seq<nat>)

  const START := Slots([false, false, false], [0, 0, 0], [], None, false, Waiting, 0, 0, None, 0, [], [])

  datatype Step =
    | StartGrain(now: nat, awake: nat)
    | EndRender
    | Enqueue
    | Take
    | Commit
    | Finish

  /** The render thread reads the time at `now`, sleeps until the grain's window has started, and renders
      the grain unless its slot is still being written. */
  function Started(rate: Rate, s: Slots, now: nat, awake: nat): Slots {
    var step := NextOutputIndex(s.next, TimestampToIndex(rate, now));
    var seen := s.(next := step.index + 1, clock := awake, first := if s.first.None? then Some(step.index) else s.first,
                   skipped := s.skipped + step.skipped);
    if |s.busy| == SLOTS && s.busy[step.index % SLOTS] then seen.(skipped := seen.skipped + 1) else seen.(phase := Rendering(step.index))
  }

  /** Steps a thread can make now, with time going forward. */
  predicate Enabled(rate: Rate, s: Slots, e: Step) {
    match e
    case StartGrain(now, awake) =>
      s.phase.Waiting? && s.clock <= now <= awake && awake >= WindowStart(rate, NextOutputIndex(s.next, TimestampToIndex(rate, now)).index)
    case EndRender => s.phase.Rendering?
    case Enqueue => s.phase.HandingOver?
    case Take => s.writing.None? && |s.queue| > 0
    case Commit => s.writing.Some? && !s.done
    case Finish => s.writing.Some? && s.done
  }

  function Apply(rate: Rate, s: Slots, e: Step): Slots
    requires |s.busy| == |s.index| == SLOTS && Enabled(rate, s, e) && (s.writing.Some? ==> s.writing.value < SLOTS)
  {
    match e
    case StartGrain(now, awake) => Started(rate, s, now, awake)
    case EndRender => Ended(s)
    case Enqueue => s.(queue := s.queue + [s.phase.slot], phase := Waiting)
    case Take => s.(writing := Some(s.queue[0]), queue := s.queue[1..], done := false)
    case Commit => s.(committed := s.committed + [s.index[s.writing.value]], done := true)
    case Finish => s.(busy := s.busy[s.writing.value := false], writing := None, done := false)
  }

  // ---- what every step keeps ---------------------------------------------------------------------

  /** The slots on their way, oldest first. */
  function OnTheWay(s: Slots): seq<nat> {
    (if s.writing.Some? then [s.writing.value] else []) + s.queue + (if s.phase.HandingOver? then [s.phase.slot] else [])
  }

  /** Those whose grain is not committed yet. */
  function ToCommit(s: Slots): seq<nat> {
    (if s.writing.Some? && !s.done then [s.writing.value] else []) + s.queue + (if s.phase.HandingOver? then [s.phase.slot] else [])
  }

  function GrainsOf(index: seq<nat>, slots: seq<nat>): (r: seq<nat>)
    requires forall i :: 0 <= i < |slots| ==> slots[i] < |index|
    ensures |r| == |slots| && forall i :: 0 <= i < |r| ==> r[i] == index[slots[i]]
  {
    seq(|slots|, i requires 0 <= i < |slots| => index[slots[i]])
  }

  ghost predicate SlotsOk(s: Slots) {
    && |s.busy| == |s.index| == SLOTS && Distinct(OnTheWay(s))
    && (forall i :: 0 <= i < |OnTheWay(s)| ==> OnTheWay(s)[i] < SLOTS && s.index[OnTheWay(s)[i]] % SLOTS == OnTheWay(s)[i])
    && (forall k :: 0 <= k < SLOTS ==> (s.busy[k] <==> k in OnTheWay(s)))
    && (s.phase.Rendering? ==> !s.busy[s.phase.index % SLOTS])
    && (if s.writing.Some? then s.writing.value < SLOTS else !s.done)
  }

  lemma InHere(s: Slots)
    requires SlotsOk(s)
    ensures forall i :: 0 <= i < |ToCommit(s)| ==> ToCommit(s)[i] < |s.index|
  {
    var cut := if s.writing.Some? && s.done then 1 else 0;
    assert ToCommit(s) == OnTheWay(s)[cut..];
  }

  /** Every grain rendered is committed once, in its order: what is committed and what is on its way are
      the grains rendered. */
  ghost predicate InOrder(s: Slots)
    requires SlotsOk(s)
  {
    InHere(s);
    s.rendered == s.committed + GrainsOf(s.index, ToCommit(s))
  }

  /** Every grain since the first is rendered or counted skipped, and the next one is at most one ahead of the clock. */
  ghost predicate ClockOk(rate: Rate, s: Slots) {
    && Rising(s.rendered) && (forall i :: 0 <= i < |s.rendered| ==> s.rendered[i] < s.next)
    && (s.phase.Rendering? ==> s.next == s.phase.index + 1 && (forall i :: 0 <= i < |s.rendered| ==> s.rendered[i] < s.phase.index))
    && s.next <= TimestampToIndex(rate, s.clock) + 1
    && (s.next == 0 <==> s.first.None?) && (s.first.None? ==> s.rendered == [] && s.skipped == 0 && !s.phase.Rendering?)
    && (s.first.Some? ==> s.next - s.first.value == |s.rendered| + s.skipped + if s.phase.Rendering? then 1 else 0)
  }

  ghost predicate Rising(s: seq<nat>) {
    forall i, j :: 0 <= i < j < |s| ==> s[i] < s[j]
  }

  ghost predicate Inv(rate: Rate, s: Slots) {
    SlotsOk(s) && InOrder(s) && ClockOk(rate, s)
  }

  lemma StartSlots(rate: Rate, s: Slots, now: nat, awake: nat)
    requires SlotsOk(s) && InOrder(s) && s.phase.Waiting?
    ensures SlotsOk(Started(rate, s, now, awake)) && InOrder(Started(rate, s, now, awake))
  {
    hide TimestampToIndex, NextOutputIndex;
    var r := Started(rate, s, now, awake);
    assert OnTheWay(r) == OnTheWay(s) && ToCommit(r) == ToCommit(s);
  }

  lemma StartClockOk(rate: Rate, s: Slots, now: nat, awake: nat)
    requires rate.Ok() && Inv(rate, s) && Enabled(rate, s, StartGrain(now, awake))
    ensures Inv(rate, Started(rate, s, now, awake))
  {
    StartSlots(rate, s, now, awake);
    hide TimestampToIndex, WindowStart, SlotsOk, InOrder;
    var index := NextOutputIndex(s.next, TimestampToIndex(rate, now)).index;
    Later(rate, s.clock, now);
    WindowIsWhereTheGrainStarts(rate, awake, index);
  }

  /** Time going forward never takes the grain back. */
  lemma Later(rate: Rate, t: nat, u: nat)
    requires rate.Ok() && t <= u
    ensures TimestampToIndex(rate, t) <= TimestampToIndex(rate, u)
  {
    WindowIsWhereTheGrainStarts(rate, t, TimestampToIndex(rate, t));
    WindowIsWhereTheGrainStarts(rate, u, TimestampToIndex(rate, t));
  }

  function Ended(s: Slots): Slots
    requires s.phase.Rendering? && |s.busy| == |s.index| == SLOTS
  {
    var k := s.phase.index % SLOTS;
    s.(index := s.index[k := s.phase.index], busy := s.busy[k := true], rendered := s.rendered + [s.phase.index], phase := HandingOver(k))
  }

  lemma EndRenderSlots(s: Slots)
    requires SlotsOk(s) && s.phase.Rendering?
    ensures var k := s.phase.index % SLOTS;
            SlotsOk(Ended(s)) && OnTheWay(Ended(s)) == OnTheWay(s) + [k] && ToCommit(Ended(s)) == ToCommit(s) + [k] && k !in OnTheWay(s)
  {
    var k := s.phase.index % SLOTS;
    assert OnTheWay(Ended(s)) == OnTheWay(s) + [k];
    assert k !in OnTheWay(s);
  }

  lemma EndRenderOk(rate: Rate, s: Slots)
    requires Inv(rate, s) && s.phase.Rendering?
    ensures Inv(rate, Ended(s))
  {
    hide TimestampToIndex, WindowStart;
    EndRenderSlots(s);
    InHere(s);
    InHere(Ended(s));
    var cut := if s.writing.Some? && s.done then 1 else 0;
    assert ToCommit(s) == OnTheWay(s)[cut..];
    assert GrainsOf(Ended(s).index, ToCommit(Ended(s))) == GrainsOf(s.index, ToCommit(s)) + [s.phase.index];
  }

  lemma EnqueueOk(rate: Rate, s: Slots)
    requires Inv(rate, s) && s.phase.HandingOver?
    ensures Inv(rate, Apply(rate, s, Enqueue))
  {
    hide TimestampToIndex, WindowStart;
    var r := Apply(rate, s, Enqueue);
    assert OnTheWay(r) == OnTheWay(s) && ToCommit(r) == ToCommit(s);
  }

  lemma TakeOk(rate: Rate, s: Slots)
    requires Inv(rate, s) && Enabled(rate, s, Take)
    ensures Inv(rate, Apply(rate, s, Take))
  {
    hide TimestampToIndex, WindowStart;
    assert OnTheWay(s)[0] == s.queue[0];
    var r := Apply(rate, s, Take);
    assert OnTheWay(r) == OnTheWay(s) && ToCommit(r) == ToCommit(s);
  }

  lemma CommitOk(rate: Rate, s: Slots)
    requires Inv(rate, s) && Enabled(rate, s, Commit)
    ensures s.writing.value < SLOTS && Inv(rate, Apply(rate, s, Commit))
  {
    hide TimestampToIndex, WindowStart;
    assert OnTheWay(s)[0] == s.writing.value;
    var r := Apply(rate, s, Commit);
    assert OnTheWay(r) == OnTheWay(s) && ToCommit(s) == [s.writing.value] + ToCommit(r);
    InHere(s);
    InHere(r);
    assert GrainsOf(s.index, ToCommit(s)) == [s.index[s.writing.value]] + GrainsOf(r.index, ToCommit(r));
  }

  lemma FinishOk(rate: Rate, s: Slots)
    requires Inv(rate, s) && Enabled(rate, s, Finish)
    ensures s.writing.value < SLOTS && Inv(rate, Apply(rate, s, Finish))
  {
    hide TimestampToIndex, WindowStart;
    assert OnTheWay(s)[0] == s.writing.value;
    var r := Apply(rate, s, Finish);
    assert OnTheWay(r) == OnTheWay(s)[1..] && ToCommit(s) == ToCommit(r);
    forall k | 0 <= k < SLOTS ensures r.busy[k] <==> k in OnTheWay(r) {
      assert s.busy[k] <==> k in OnTheWay(s);
      if k in OnTheWay(s) && k != s.writing.value {
        var i :| 0 <= i < |OnTheWay(s)| && OnTheWay(s)[i] == k;
        assert OnTheWay(r)[i - 1] == k;
      }
    }
  }

  lemma ApplyInv(rate: Rate, s: Slots, e: Step)
    requires rate.Ok() && Inv(rate, s) && Enabled(rate, s, e)
    ensures (s.writing.Some? ==> s.writing.value < SLOTS) && Inv(rate, Apply(rate, s, e))
  {
    hide Started, TimestampToIndex, WindowStart;
    if s.writing.Some? { assert OnTheWay(s)[0] == s.writing.value; }
    match e
    case StartGrain(now, awake) => StartClockOk(rate, s, now, awake);
    case EndRender => EndRenderOk(rate, s);
    case Enqueue => EnqueueOk(rate, s);
    case Take => TakeOk(rate, s);
    case Commit => CommitOk(rate, s);
    case Finish => FinishOk(rate, s);
  }

  // ---- the two threads' steps in place -------------------------------------------------------------

  class Output {
    const rate: Rate
    var busy: seq<bool>
    var index: seq<nat>
    var queue: seq<nat>
    var writing: Option<nat>
    var done: bool
    var phase: Phase
    var next: nat
    var clock: nat
    var first: Option<nat>
    var skipped: nat
    var rendered: seq<nat>
    var committed: seq<nat>

    ghost function Abs(): Slots
      reads this
    {
      Slots(busy, index, queue, writing, done, phase, next, clock, first, skipped, rendered, committed)
    }

    ghost predicate Valid()
      reads this
    {
      rate.Ok() && Inv(rate, Abs())
    }

    constructor (rate: Rate)
      requires rate.Ok()
      ensures Valid() && Abs() == START && this.rate == rate
    {
      this.rate := rate;
      busy, index, queue, writing, done, phase := [false, false, false], [0, 0, 0], [], None, false, Waiting;
      next, clock, first, skipped, rendered, committed := 0, 0, None, 0, [], [];
    }

    /** The render thread's next grain: never behind the clock, dropped while its slot is still written. */
    method NextGrain(now: nat, awake: nat)
      requires Valid() && Enabled(rate, Abs(), StartGrain(now, awake))
      modifies this
      ensures Valid() && Abs() == Started(rate, old(Abs()), now, awake)
    {
      hide Inv, TimestampToIndex, WindowStart;
      ApplyInv(rate, Abs(), StartGrain(now, awake));
      SlotCount(rate, Abs());
      var step := NextOutputIndex(next, TimestampToIndex(rate, now));
      skipped := skipped + step.skipped;
      clock := awake;
      if first.None? {
        first := Some(step.index);
      }
      next := step.index + 1;
      if busy[step.index % SLOTS] {
        skipped := skipped + 1;
        return;
      }
      phase := Rendering(step.index);
    }

    /** The rendered grain is its slot's, which is busy from now on. */
    method RenderDone()
      requires Valid() && phase.Rendering?
      modifies this
      ensures Valid() && |old(busy)| == |old(index)| == SLOTS && Abs() == Ended(old(Abs()))
    {
      hide Inv;
      EndRenderOk(rate, Abs());
      SlotCount(rate, Abs());
      var grain := phase.index;
      index := index[grain % SLOTS := grain];
      busy := busy[grain % SLOTS := true];
      rendered := rendered + [grain];
      phase := HandingOver(grain % SLOTS);
    }

    method HandOver()
      requires Valid() && phase.HandingOver?
      modifies this
      ensures Valid() && Abs() == old(Abs()).(queue := old(queue) + [old(phase).slot], phase := Waiting)
    {
      EnqueueOk(rate, Abs());
      queue := queue + [phase.slot];
      phase := Waiting;
    }

    method TakeSlot()
      requires Valid() && writing.None? && |queue| > 0
      modifies this
      ensures Valid() && Abs() == old(Abs()).(writing := Some(old(queue)[0]), queue := old(queue)[1..], done := false)
    {
      TakeOk(rate, Abs());
      writing := Some(queue[0]);
      queue := queue[1..];
      done := false;
    }

    method CommitGrain()
      requires Valid() && writing.Some? && !done
      modifies this
      ensures Valid() && old(writing).value < |old(index)| && Abs() == old(Abs()).(committed := old(committed) + [old(index)[old(writing).value]], done := true)
    {
      CommitOk(rate, Abs());
      committed := committed + [index[writing.value]];
      done := true;
    }

    method FreeSlot()
      requires Valid() && writing.Some? && done
      modifies this
      ensures Valid() && old(writing).value < |old(busy)| && Abs() == old(Abs()).(busy := old(busy)[old(writing).value := false], writing := None, done := false)
    {
      FinishOk(rate, Abs());
      busy := busy[writing.value := false];
      writing := None;
      done := false;
    }
  }

  lemma SlotCount(rate: Rate, s: Slots)
    requires Inv(rate, s)
    ensures |s.busy| == |s.index| == SLOTS
  {
  }
}
