/** The input, render and writer threads together (engine/src/engine/engine.cpp): any interleaving of their
    steps over one input's frames and the three output slots. */
module EngineThreads {
  import opened Wrappers
  import opened Tai
  import opened FramePool
  import OG = OutputGrains

  datatype St = St(pool: Pool, slots: OG.Slots, routed: bool)

  /** The ring keeps latency + 2 grains; the pool has a frame for each, one for each slot, and one to upload to. */
  function Start(latency: nat): St {
    var n := latency + 2 + SLOTS + 1;
    St(Pool(n, latency + 2, seq(n, i => i), None, [], [None, None, None], seq(n, i => 0), 0), OG.START, false)
  }

  datatype Event =
    | AcquireFrame
    | UploadGrain(index: nat)
    | PushFrame
    | DropFrame
    | Reroute(on: bool)
    | PickFrame(j: nat, hold: nat)
    | LetGoFrames
    | Output(step: OG.Step)

  predicate Enabled(rate: Rate, s: St, e: Event) {
    match e
    case AcquireFrame => s.pool.uploading.None?
    case UploadGrain(index) => s.pool.uploading.Some?
    case PushFrame => s.pool.uploading.Some?
    case DropFrame => s.pool.uploading.Some?
    case Reroute(on) => true
    case PickFrame(j, hold) => s.slots.phase.Rendering?
    case LetGoFrames => s.slots.writing.Some? && s.slots.done
    case Output(step) => OG.Enabled(rate, s.slots, step)
  }

  function Apply(rate: Rate, s: St, e: Event): St
    requires Inv(rate, s) && Enabled(rate, s, e)
  {
    match e
    case AcquireFrame => s.(pool := Acquire(s.pool))
    case UploadGrain(index) => s.(pool := Upload(s.pool, index))
    case PushFrame => s.(pool := Push(s.pool))
    case DropFrame => s.(pool := Discard(s.pool))
    case Reroute(on) => s.(pool := Clear(s.pool), routed := on)
    case PickFrame(j, hold) => s.(pool := Hold(s.pool, s.slots.phase.index % SLOTS, s.routed, j, hold))
    case LetGoFrames => s.(pool := LetGo(s.pool, s.slots.writing.value))
    case Output(step) => s.(slots := OG.Apply(rate, s.slots, step))
  }

  ghost predicate Inv(rate: Rate, s: St) {
    && PoolOk(s.pool) && |s.pool.recent| <= s.pool.depth && s.pool.n >= s.pool.depth + SLOTS + 1 && s.pool.exhausted == 0
    && OG.Inv(rate, s.slots)
  }

  lemma StartInv(rate: Rate, latency: nat)
    requires rate.Ok()
    ensures Inv(rate, Start(latency))
  {
    var s := Start(latency);
    forall id | 0 <= id < s.pool.n ensures id in s.pool.free {
      assert s.pool.free[id] == id;
    }
  }

  lemma ApplyInv(rate: Rate, s: St, e: Event)
    requires rate.Ok() && Inv(rate, s) && Enabled(rate, s, e)
    ensures Inv(rate, Apply(rate, s, e))
    ensures e.AcquireFrame? ==> Apply(rate, s, e).pool.uploading.Some? && !Referenced(s.pool, Apply(rate, s, e).pool.uploading.value)
  {
    hide PoolOk, OG.Inv;
    match e
    case AcquireFrame => AcquireOk(s.pool); OneIsFree(s.pool);
    case UploadGrain(index) => UploadOk(s.pool, index);
    case PushFrame => PushOk(s.pool);
    case DropFrame => DiscardOk(s.pool);
    case Reroute(on) => ClearOk(s.pool);
    case PickFrame(j, hold) => HoldOk(s.pool, s.slots.phase.index % SLOTS, s.routed, j, hold); LetGoOk(s.pool, s.slots.phase.index % SLOTS);
    case LetGoFrames => WritingSlot(rate, s.slots); LetGoOk(s.pool, s.slots.writing.value);
    case Output(step) => OG.ApplyInv(rate, s.slots, step);
  }

  lemma WritingSlot(rate: Rate, s: OG.Slots)
    requires OG.Inv(rate, s) && s.writing.Some?
    ensures s.writing.value < SLOTS
  {
  }

  /** Enabled one after the other. */
  ghost predicate Follows(rate: Rate, s: St, events: seq<Event>)
    requires rate.Ok() && Inv(rate, s)
    decreases |events|
  {
    |events| > 0 ==>
      && Enabled(rate, s, events[0])
      && (ApplyInv(rate, s, events[0]); Follows(rate, Apply(rate, s, events[0]), events[1..]))
  }

  ghost function Run(rate: Rate, s: St, events: seq<Event>): St
    requires rate.Ok() && Inv(rate, s) && Follows(rate, s, events)
    decreases |events|
  {
    if |events| == 0 then s
    else
      ApplyInv(rate, s, events[0]);
      Run(rate, Apply(rate, s, events[0]), events[1..])
  }

  lemma {:induction false} EveryRunKeepsInv(rate: Rate, s: St, events: seq<Event>)
    requires rate.Ok() && Inv(rate, s) && Follows(rate, s, events)
    ensures Inv(rate, Run(rate, s, events))
    decreases |events|
  {
    hide Inv;
    if |events| > 0 {
      ApplyInv(rate, s, events[0]);
      EveryRunKeepsInv(rate, Apply(rate, s, events[0]), events[1..]);
    }
  }

  /** Under any interleaving: the input thread always finds a frame, and never one the ring or an output
      slot still reads; no slot is queued twice; the grains committed are the first of those rendered, each
      once and in rising order; and every grain since the first was rendered or counted skipped, once. */
  lemma NothingIsLost(rate: Rate, latency: nat, events: seq<Event>)
    requires rate.Ok()
    ensures Inv(rate, Start(latency))
    ensures Follows(rate, Start(latency), events) ==>
              var s := Run(rate, Start(latency), events);
              && s.pool.exhausted == 0
              && (s.pool.uploading.None? ==> |s.pool.free| > 0)
              && (forall k :: 0 <= k < |s.pool.free| ==> !Referenced(s.pool, s.pool.free[k]))
              && Distinct(OG.OnTheWay(s.slots))
              && s.slots.committed <= s.slots.rendered && OG.Rising(s.slots.rendered)
              && (s.slots.phase.Waiting? && s.slots.first.Some? ==> s.slots.next - s.slots.first.value == |s.slots.rendered| + s.slots.skipped)
  {
    StartInv(rate, latency);
    if Follows(rate, Start(latency), events) {
      EveryRunKeepsInv(rate, Start(latency), events);
      var s := Run(rate, Start(latency), events);
      if s.pool.uploading.None? { OneIsFree(s.pool); }
    }
  }

  lemma RenderedSlotIsFree(rate: Rate, s: OG.Slots, k: nat)
    requires OG.Inv(rate, s) && s.phase.Rendering? && k in OG.OnTheWay(s)
    ensures k != s.phase.index % SLOTS
  {
  }

  /** From its pick until the writer lets it go, the frame of a slot on its way is neither replaced nor written to. */
  lemma SlotKeepsItsFrame(rate: Rate, s: St, e: Event, k: nat)
    requires rate.Ok() && Inv(rate, s) && Enabled(rate, s, e) && k < SLOTS
    requires k in OG.OnTheWay(s.slots) && !(e.LetGoFrames? && s.slots.writing == Some(k))
    ensures Inv(rate, Apply(rate, s, e))
    ensures var f := s.pool.held[k];
            && Apply(rate, s, e).pool.held[k] == f
            && (f.Some? ==> f.value.id < |s.pool.data| == |Apply(rate, s, e).pool.data|
                            && s.pool.data[f.value.id] == f.value.index == Apply(rate, s, e).pool.data[f.value.id])
  {
    hide OG.Inv, OG.Apply, OG.Enabled;
    ApplyInv(rate, s, e);
    if s.slots.phase.Rendering? { RenderedSlotIsFree(rate, s.slots, k); }
    var f := s.pool.held[k];
    if f.Some? { assert FrameOk(s.pool, f.value) && InSlot(s.pool, f.value.id); }
    match e
    case AcquireFrame =>
    case UploadGrain(index) =>
    case PushFrame => PushOk(s.pool);
    case DropFrame => DiscardOk(s.pool);
    case Reroute(on) => ClearOk(s.pool);
    case PickFrame(j, hold) => HoldOk(s.pool, s.slots.phase.index % SLOTS, s.routed, j, hold); LetGoOk(s.pool, s.slots.phase.index % SLOTS);
    case LetGoFrames => WritingSlot(rate, s.slots); LetGoOk(s.pool, s.slots.writing.value);
    case Output(step) =>
  }
}
