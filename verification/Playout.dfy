/** A clip player's transport (engine/src/core/playout.cpp): what the control thread does to it, what it
    shows in each output grain, and the class that does so in place. */
module Playout {
  import opened Wrappers
  import opened RealMath

  datatype State = Empty | Cued | Playing | Paused | Ended

  /** `shown` is the frame on air now, `position` the one of the next playing grain; the sequence numbers
      count the frames of one jump in play order. */
  datatype Transport = Transport(
    state: State, frames: int, shown: int, position: int, shownSeq: int, nextSeq: int, jumpFrame: int,
    loop: bool, playOnCut: bool, onAir: bool, started: bool, lastIndex: nat, endedAt: Option<nat>, generation: nat)
  {
    /** The clip goes on at its first frame after its last one. */
    predicate Wraps() {
      loop && frames > 1
    }
  }

  /** What one grain shows: frame -1 is black. */
  datatype Step = Step(frame: int, playing: bool, generation: nat, order: int)

  datatype Cursor = Cursor(generation: nat, start: int, frames: int, loop: bool, empty: bool)

  const FRESH := Transport(Empty, 0, 0, 0, 0, 0, 0, false, false, false, false, 0, None, 1)

  /** A frame number past the end goes on at the first frame. */
  function Wrap(x: int, frames: int): int
    requires frames >= 1
  {
    x % frames
  }

  lemma WrapRange(x: int, m: int)
    requires m >= 1
    ensures 0 <= Wrap(x, m) < m && (0 <= x < m ==> Wrap(x, m) == x)
  {
  }

  lemma WrapAdd(a: int, b: int, m: int)
    requires m >= 1
    ensures Wrap(Wrap(a, m) + b, m) == Wrap(a + b, m)
  {
    var d := a / m;
    DivModIs(a + b, d + (a % m + b) / m, (a % m + b) % m, m);
  }

  lemma WrapIsNext(x: int, m: int)
    requires 0 <= x < m
    ensures Wrap(x + 1, m) == if x + 1 < m then x + 1 else 0
  {
    if x + 1 == m { DivModIs(x + 1, 1, 0, m); }
  }

  lemma DivModIs(x: int, d: int, r: int, m: int)
    requires m >= 1 && 0 <= r < m && x == d * m + r
    ensures x / m == d && x % m == r
  {
    var e := d - x / m;
    assert e * m == x % m - r;
    MulAtLeast(e, m);
    MulAtLeast(-e, m);
  }

  lemma MulAtLeast(e: int, m: int)
    requires m >= 1
    ensures e >= 1 ==> e * m >= m
  {
  }

  function AtLeast0(x: int): nat {
    if x < 0 then 0 else x
  }

  function Jump(t: Transport, frame: int): Transport {
    var at := Clamp(frame, 0, Max(0, t.frames - 1));
    t.(position := at, shown := at, jumpFrame := at, shownSeq := 0, nextSeq := 0, generation := t.generation + 1,
       started := false, endedAt := None)
  }

  function Load(t: Transport, frames: int, loop: bool, playOnCut: bool): Transport {
    Jump(t.(frames := Max(1, frames), loop := loop, playOnCut := playOnCut, state := Cued), 0)
  }

  function Unload(t: Transport): Transport {
    Jump(t.(frames := 0, state := Empty), 0)
  }

  function Cue(t: Transport, frame: int): Transport {
    if t.state.Empty? then t else Jump(t.(state := Cued), frame)
  }

  function Play(t: Transport): Transport {
    if t.state.Empty? || t.state.Playing? then t
    else (if t.state.Ended? then Jump(t, 0) else t).(state := Playing, started := false, endedAt := None)
  }

  function Pause(t: Transport): Transport {
    if t.state.Playing? then t.(state := Paused) else t
  }

  function Stop(t: Transport): Transport {
    if t.state.Empty? then t else Jump(t.(state := Cued), 0)
  }

  function EndIndex(t: Transport): Option<int> {
    if t.state.Ended? then (if t.endedAt.Some? then Some(t.endedAt.value as int) else None)
    else if !t.state.Playing? || t.loop || !t.started then None
    else Some(t.lastIndex + (t.frames - 1 - t.shown))
  }

  // ---- one grain -------------------------------------------------------------------------------

  /** Going on air starts a clip that plays on cut. */
  function GoOnAir(t: Transport, onAir: bool): Transport {
    var heard := t.(onAir := onAir);
    if onAir && !t.onAir && t.playOnCut && (t.state.Cued? || t.state.Paused? || t.state.Ended?)
    then (if t.state.Ended? then Jump(heard, 0) else heard).(state := Playing, started := false)
    else heard
  }

  /** The grains skipped before grain `index`, past which a playing clip goes too. */
  function Skipped(t: Transport, index: nat): nat {
    if t.started && index > t.lastIndex + 1 then index - t.lastIndex - 1 else 0
  }

  function PlayGrain(t: Transport, index: nat): (Transport, Step)
    requires t.frames >= 1
  {
    var skipped := Skipped(t, index);
    if t.position + skipped >= t.frames && !t.loop && skipped > 0 then
      var r := t.(endedAt := Some(t.lastIndex + 1 + Max(0, t.frames - 1 - t.position)), shown := t.frames - 1, position := t.frames - 1,
                  nextSeq := t.nextSeq + (t.frames - 1 - t.position), shownSeq := t.nextSeq + (t.frames - 1 - t.position),
                  state := Ended, lastIndex := index);
      (r, Step(r.shown, false, r.generation, r.shownSeq))
    else
      var at := if t.position + skipped >= t.frames && skipped > 0 then Wrap(t.position + skipped, t.frames) else t.position + skipped;
      var order := t.nextSeq + skipped;
      var shown := t.(started := true, lastIndex := index, shown := at, shownSeq := order, position := at, nextSeq := order);
      var r := if at + 1 < t.frames then shown.(position := at + 1, nextSeq := order + 1)
               else if t.Wraps() then shown.(position := 0, nextSeq := order + 1)
               else shown.(state := Ended, endedAt := Some(index));
      (r, Step(at, true, t.generation, order))
  }

  function Advance(t: Transport, index: nat, onAir: bool): (Transport, Step)
    requires t.state.Empty? || t.frames >= 1
  {
    var on := GoOnAir(t, onAir);
    if on.state.Empty? then (on, Step(-1, false, on.generation, 0))
    else if !on.state.Playing? then (on.(lastIndex := index), Step(on.shown, false, on.generation, on.shownSeq))
    else PlayGrain(on, index)
  }

  // ---- every run -------------------------------------------------------------------------------

  /** Frame `frame` is the one the decoder numbers `order` after the jump. */
  predicate Numbered(t: Transport, frame: int, order: int) {
    t.frames >= 1 && 0 <= frame < t.frames && order >= 0 && frame == Wrap(t.jumpFrame + order, t.frames)
  }

  /** What holds between any two calls. */
  predicate Sound(t: Transport) {
    && (t.state.Empty? <==> t.frames == 0) && t.frames >= 0
    && (t.state.Empty? ==> t.shown == t.position == 0)
    && (!t.state.Empty? ==> 0 <= t.jumpFrame < t.frames && 0 <= t.shown < t.frames && 0 <= t.position < t.frames)
    && (!t.state.Empty? ==> Numbered(t, t.shown, t.shownSeq) && Numbered(t, t.position, t.nextSeq))
    && t.shownSeq <= t.nextSeq
    && (t.endedAt.Some? <==> t.state.Ended?)
    && (t.state.Ended? ==> t.shown == t.position == t.frames - 1 && t.nextSeq == t.shownSeq)
    && (t.state.Playing? && t.started ==> t.nextSeq == t.shownSeq + 1)
  }

  datatype Command =
    | CmdLoad(frames: int, loop: bool, playOnCut: bool) | CmdUnload | CmdLoop(on: bool) | CmdPlayOnCut(on: bool)
    | CmdCue(frame: int) | CmdPlay | CmdPause | CmdStop | CmdAdvance(index: nat, onAir: bool)

  function Obey(t: Transport, c: Command): Transport
    requires t.state.Empty? || t.frames >= 1
  {
    match c
    case CmdLoad(frames, loop, playOnCut) => Load(t, frames, loop, playOnCut)
    case CmdUnload => Unload(t)
    case CmdLoop(on) => t.(loop := on)
    case CmdPlayOnCut(on) => t.(playOnCut := on)
    case CmdCue(frame) => Cue(t, frame)
    case CmdPlay => Play(t)
    case CmdPause => Pause(t)
    case CmdStop => Stop(t)
    case CmdAdvance(index, onAir) => Advance(t, index, onAir).0
  }

  /** One generation is one jump: its start and clip stay, its sequence numbers never go back. */
  predicate SameJump(t: Transport, r: Transport) {
    && t.generation <= r.generation
    && (t.generation == r.generation ==>
          t.jumpFrame == r.jumpFrame && t.frames == r.frames && t.state.Empty? == r.state.Empty? && t.shownSeq <= r.shownSeq && t.nextSeq <= r.nextSeq)
  }

  /** Playing `ahead` frames on moves the number by as many. */
  lemma NumberedOn(t: Transport, frame: int, order: int, ahead: nat)
    requires t.frames >= 1 && Numbered(t, frame, order)
    ensures Numbered(t, Wrap(frame + ahead, t.frames), order + ahead)
    ensures frame + ahead < t.frames ==> Wrap(frame + ahead, t.frames) == frame + ahead
    ensures frame + ahead == t.frames ==> Wrap(frame + ahead, t.frames) == 0
  {
    hide Wrap;
    WrapAdd(t.jumpFrame + order, ahead, t.frames);
    WrapRange(frame + ahead, t.frames);
    if frame + ahead == t.frames { WrapIsNext(t.frames - 1, t.frames); }
  }

  lemma JumpIsSound(t: Transport, frame: int)
    requires t.frames >= 0 && (t.state.Empty? <==> t.frames == 0) && !t.state.Ended?
    ensures Sound(Jump(t, frame)) && Jump(t, frame).generation > t.generation
  {
    hide Wrap;
    if t.frames >= 1 { WrapRange(Jump(t, frame).jumpFrame, t.frames); }
  }

  lemma PlayGrainKeepsSound(t: Transport, index: nat)
    requires Sound(t) && t.state.Playing?
    ensures var (r, step) := PlayGrain(t, index);
            && Sound(r) && SameJump(t, r) && r.onAir == t.onAir && !r.state.Empty? && Numbered(r, step.frame, step.order) && step.generation == r.generation && t.nextSeq <= step.order
            && step == Step(r.shown, step.playing, r.generation, r.shownSeq)
  {
    var skipped := Skipped(t, index);
    if t.position + skipped >= t.frames && !t.loop && skipped > 0 {
      NumberedOn(t, t.position, t.nextSeq, t.frames - 1 - t.position);
    } else {
      NumberedOn(t, t.position, t.nextSeq, skipped);
      NumberedOn(t, (t.position + skipped) % t.frames, t.nextSeq + skipped, 1);
    }
  }

  /** Every grain shows the frame its generation and sequence number stand for, or black without a clip. */
  lemma AdvanceKeepsSound(t: Transport, index: nat, onAir: bool)
    requires Sound(t)
    ensures var (r, step) := Advance(t, index, onAir);
            && Sound(r) && SameJump(t, r) && r.onAir == onAir
            && step == Step(if r.state.Empty? then -1 else r.shown, step.playing, r.generation, if r.state.Empty? then 0 else r.shownSeq)
            && (!r.state.Empty? ==> Numbered(r, step.frame, step.order))
  {
    hide PlayGrain, Wrap;
    var on := GoOnAir(t, onAir);
    if t.state.Ended? { JumpIsSound(t.(onAir := onAir, state := Playing), 0); }
    assert Sound(on) && SameJump(t, on);
    if on.state.Playing? { PlayGrainKeepsSound(on, index); }
  }

  /** Between any two calls of a run the transport is sound: Ended exactly when an end grain is recorded,
      and every frame numbered as the decoder numbers it. */
  lemma ObeyKeepsSound(t: Transport, c: Command)
    requires Sound(t)
    ensures Sound(Obey(t, c)) && SameJump(t, Obey(t, c))
  {
    hide Wrap, Advance;
    match c
    case CmdLoad(frames, loop, playOnCut) => JumpIsSound(t.(frames := Max(1, frames), loop := loop, playOnCut := playOnCut, state := Cued), 0);
    case CmdUnload => JumpIsSound(t.(frames := 0, state := Empty), 0);
    case CmdCue(frame) => if !t.state.Empty? { JumpIsSound(t.(state := Cued), frame); }
    case CmdStop => if !t.state.Empty? { JumpIsSound(t.(state := Cued), 0); }
    case CmdPlay => if t.state.Ended? { JumpIsSound(t.(state := Playing), 0); }
    case CmdAdvance(index, onAir) => AdvanceKeepsSound(t, index, onAir);
    case _ =>
  }

  ghost function Run(t: Transport, commands: seq<Command>): Transport
    requires Sound(t)
    decreases |commands|
  {
    if |commands| == 0 then t
    else
      ObeyKeepsSound(t, commands[0]);
      Run(Obey(t, commands[0]), commands[1..])
  }

  lemma {:induction false} EveryRunIsSound(t: Transport, commands: seq<Command>)
    requires Sound(t)
    ensures Sound(Run(t, commands)) && SameJump(t, Run(t, commands))
    decreases |commands|
  {
    if |commands| > 0 {
      ObeyKeepsSound(t, commands[0]);
      EveryRunIsSound(Obey(t, commands[0]), commands[1..]);
    }
  }

  // ---- the timeline ----------------------------------------------------------------------------

  /** The grain that shows the last frame of a clip without a loop that shows `position` in grain s. */
  function LastGrain(t: Transport, s: nat): int {
    s + (t.frames - 1 - t.position)
  }

  /** What a clip that was started on t and first shown in grain s shows in grain i. */
  function Due(t: Transport, s: nat, i: nat): Step
    requires t.frames >= 1 && s <= i
  {
    if t.Wraps() then Step(Wrap(t.position + (i - s), t.frames), true, t.generation, t.nextSeq + (i - s))
    else if i <= LastGrain(t, s) then Step(t.position + (i - s), true, t.generation, t.nextSeq + (i - s))
    else Step(t.frames - 1, false, t.generation, t.nextSeq + (t.frames - 1 - t.position))
  }

  /** Transport r, after grain i, of that clip. */
  predicate OnTime(t: Transport, s: nat, r: Transport, i: nat)
    requires t.frames >= 1 && s <= i
  {
    var due := Due(t, s, i);
    && (r.shown, r.shownSeq, r.generation, r.lastIndex) == (due.frame, due.order, t.generation, i)
    && (r.frames, r.loop, r.playOnCut, r.jumpFrame) == (t.frames, t.loop, t.playOnCut, t.jumpFrame)
    && if t.Wraps() || i < LastGrain(t, s)
       then r.state == Playing && r.started && r.nextSeq == r.shownSeq + 1 && r.position == Wrap(r.shown + 1, t.frames) && r.endedAt.None?
       else r.state == Ended && r.position == r.shown && r.nextSeq == r.shownSeq && r.endedAt == Some(AtLeast0(LastGrain(t, s)))
  }

  lemma FirstGrain(t: Transport, s: nat, onAir: bool)
    requires Sound(t) && t.state.Playing? && !t.started
    ensures Advance(t, s, onAir).1 == Due(t, s, s) && OnTime(t, s, Advance(t, s, onAir).0, s)
  {
    NumberedOn(t, t.position, t.nextSeq, 0);
    NumberedOn(t, t.position, t.nextSeq, 1);
  }

  /** A later grain, however many were skipped since grain j. */
  lemma LaterGrain(t: Transport, s: nat, r: Transport, j: nat, i: nat, onAir: bool)
    requires Sound(t) && t.state.Playing? && s <= j < i && OnTime(t, s, r, j) && Sound(r)
    requires r.state.Ended? && r.playOnCut ==> !onAir || r.onAir
    ensures Advance(r, i, onAir).1 == Due(t, s, i) && OnTime(t, s, Advance(r, i, onAir).0, i)
  {
    hide Wrap, Numbered;
    if r.state.Playing? {
      var ahead := i - j - 1;
      if t.Wraps() {
        WrapAdd(t.position + (j - s), 1, t.frames);
        WrapAdd(t.position + (j - s + 1), ahead, t.frames);
        WrapRange(r.position + ahead, t.frames);
        WrapRange(t.position + (j - s + 1), t.frames);
        WrapIsNext(Wrap(t.position + (i - s), t.frames), t.frames);
        assert t.position + (j - s) + 1 == t.position + (j - s + 1) && t.position + (j - s + 1) + ahead == t.position + (i - s);
      } else {
        WrapRange(r.shown + 1, t.frames);
        WrapRange(t.position + (i - s) + 1, t.frames);
      }
    }
  }

  datatype Tick = Tick(index: nat, onAir: bool)

  ghost predicate Increasing(ticks: seq<Tick>) {
    forall a, b :: 0 <= a < b < |ticks| ==> ticks[a].index < ticks[b].index
  }

  /** The transport after the grains of `ticks`. */
  ghost function Shown(t: Transport, ticks: seq<Tick>): Transport
    requires Sound(t)
    decreases |ticks|
  {
    if |ticks| == 0 then t
    else
      AdvanceKeepsSound(t, ticks[0].index, ticks[0].onAir);
      Shown(Advance(t, ticks[0].index, ticks[0].onAir).0, ticks[1..])
  }

  /** Whether the player was on air before tick a. */
  function OnAirBefore(ticks: seq<Tick>, onAir: bool, a: nat): bool
    requires a <= |ticks|
  {
    if a == 0 then onAir else ticks[a - 1].onAir
  }

  /** No grain after the clip's end brings the player on air while it plays on cut, which would start it again. */
  ghost predicate NotRestarted(t: Transport, s: nat, ticks: seq<Tick>, onAir: bool) {
    t.playOnCut && !t.Wraps() ==>
      forall a :: 0 <= a < |ticks| && ticks[a].index > LastGrain(t, s) && ticks[a].onAir ==> OnAirBefore(ticks, onAir, a)
  }

  lemma {:induction false} StaysOnTime(t: Transport, s: nat, r: Transport, j: nat, ticks: seq<Tick>)
    requires Sound(t) && t.state.Playing? && s <= j && OnTime(t, s, r, j) && Sound(r)
    requires Increasing(ticks) && (|ticks| > 0 ==> j < ticks[0].index) && NotRestarted(t, s, ticks, r.onAir)
    ensures var i := if |ticks| == 0 then j else ticks[|ticks| - 1].index;
            s <= i && Sound(Shown(r, ticks)) && OnTime(t, s, Shown(r, ticks), i)
            && Shown(r, ticks).onAir == if |ticks| == 0 then r.onAir else ticks[|ticks| - 1].onAir
    decreases |ticks|
  {
    hide Advance, OnTime, Numbered, NotRestarted;
    if |ticks| > 0 {
      var next := Advance(r, ticks[0].index, ticks[0].onAir).0;
      FirstTick(t, s, r, j, ticks);
      LaterGrain(t, s, r, j, ticks[0].index, ticks[0].onAir);
      AdvanceKeepsSound(r, ticks[0].index, ticks[0].onAir);
      StaysOnTime(t, s, next, ticks[0].index, ticks[1..]);
    }
  }

  lemma FirstTick(t: Transport, s: nat, r: Transport, j: nat, ticks: seq<Tick>)
    requires t.frames >= 1 && s <= j && OnTime(t, s, r, j) && |ticks| > 0 && j < ticks[0].index && NotRestarted(t, s, ticks, r.onAir)
    ensures r.state.Ended? && r.playOnCut ==> !ticks[0].onAir || r.onAir
    ensures NotRestarted(t, s, ticks[1..], ticks[0].onAir)
  {
    assert OnAirBefore(ticks, r.onAir, 0) == r.onAir;
    if t.playOnCut && !t.Wraps() {
      forall a | 0 <= a < |ticks| - 1 && ticks[1..][a].index > LastGrain(t, s) && ticks[1..][a].onAir
        ensures OnAirBefore(ticks[1..], ticks[0].onAir, a)
      {
        assert ticks[1..][a] == ticks[a + 1] && OnAirBefore(ticks, r.onAir, a + 1);
      }
    }
  }

  /** A clip started on frame p and first shown in grain s shows in every later rendered grain i frame
      (p + i - s) mod frames when it loops, and min(p + i - s, frames - 1) otherwise, whatever grains were
      rendered in between; the grain it ends in is known from its first grain on. */
  lemma ClipStaysOnTheTimeline(t: Transport, s: nat, first: bool, ticks: seq<Tick>, i: nat, onAir: bool)
    requires Sound(t) && t.state.Playing? && !t.started
    requires var all := ticks + [Tick(i, onAir)];
             Increasing(all) && s < all[0].index && NotRestarted(t, s, all, first)
    ensures var r := Advance(t, s, first).0;
            && Sound(r) && Sound(Shown(r, ticks)) && s < i
            && var (after, step) := Advance(Shown(r, ticks), i, onAir);
               && step == Due(t, s, i)
               && (!t.Wraps() ==> step.frame == if t.position + (i - s) < t.frames then t.position + (i - s) else t.frames - 1)
               && EndIndex(after) == if !t.Wraps() && (!t.loop || i >= LastGrain(t, s)) then Some(LastGrain(t, s)) else None
  {
    hide Advance, OnTime, Numbered, NotRestarted, EndIndex, Due;
    var all := ticks + [Tick(i, onAir)];
    var r := Advance(t, s, first).0;
    FirstGrain(t, s, first);
    AdvanceKeepsSound(t, s, first);
    AllIncrease(t, s, ticks, Tick(i, onAir), first);
    StaysOnTime(t, s, r, s, ticks);
    var before := Shown(r, ticks);
    var j := if |ticks| == 0 then s else ticks[|ticks| - 1].index;
    assert ([Tick(i, onAir)])[0] == Tick(i, onAir);
    FirstTick(t, s, before, j, [Tick(i, onAir)]);
    LaterGrain(t, s, before, j, i, onAir);
    EndIsKnown(t, s, Advance(before, i, onAir).0, i);
  }

  /** What holds of the ticks and one more holds of the ticks, and of that one after them. */
  lemma AllIncrease(t: Transport, s: nat, ticks: seq<Tick>, last: Tick, first: bool)
    requires t.frames >= 1 && Increasing(ticks + [last]) && s < (ticks + [last])[0].index && NotRestarted(t, s, ticks + [last], first)
    ensures Increasing(ticks) && NotRestarted(t, s, ticks, first) && s < last.index
    ensures |ticks| > 0 ==> s < ticks[0].index && ticks[|ticks| - 1].index < last.index
    ensures NotRestarted(t, s, [last], if |ticks| == 0 then first else ticks[|ticks| - 1].onAir)
  {
    var all := ticks + [last];
    assert all[|ticks|] == last && forall a :: 0 <= a < |ticks| ==> ticks[a] == all[a];
    assert |ticks| > 0 ==> all[0].index < all[|ticks|].index && all[|ticks| - 1].index < all[|ticks|].index;
    forall a, b | 0 <= a < b < |ticks| ensures ticks[a].index < ticks[b].index { assert all[a].index < all[b].index; }
    if t.playOnCut && !t.Wraps() {
      forall a | 0 <= a <= |ticks| && all[a].index > LastGrain(t, s) && all[a].onAir
        ensures OnAirBefore(ticks, first, a)
      {
        assert OnAirBefore(all, first, a);
      }
    }
  }

  lemma EndIsKnown(t: Transport, s: nat, r: Transport, i: nat)
    requires t.frames >= 1 && 0 <= t.position < t.frames && s <= i && OnTime(t, s, r, i)
    ensures EndIndex(r) == if !t.Wraps() && (!t.loop || i >= LastGrain(t, s)) then Some(LastGrain(t, s)) else None
    ensures var due := Due(t, s, i);
            !t.Wraps() ==> due.frame == if t.position + (i - s) < t.frames then t.position + (i - s) else t.frames - 1
  {
  }

  /** While a clip plays without a loop, the grain in which it ends: the one endIndex tells, except right
      after the wrap of a loop that was then switched off, when the clip plays once more from its start. */
  lemma EndIndexIsRightExactly(t: Transport, i: nat, onAir: bool)
    requires Sound(t) && t.state.Playing? && t.started && !t.loop && t.frames >= 1
    requires i >= t.lastIndex + 1 + (t.frames - 1 - t.position)
    ensures Advance(t, i, onAir).0.state == Ended
    ensures Advance(t, i, onAir).0.endedAt == Some(t.lastIndex + 1 + (t.frames - 1 - t.position) as nat)
    ensures EndIndex(t) == EndIndex(Advance(t, i, onAir).0) <==> t.shown != t.frames - 1
  {
    NumberedOn(t, t.shown, t.shownSeq, 1);
    if t.shown + 1 < t.frames { WrapRange(t.shown + 1, t.frames); }
  }

  /** A loop of two frames that was started. */
  function TwoFrameLoop(): (t: Transport)
    ensures t == Transport(Playing, 2, 0, 0, 0, 0, 0, true, false, false, false, 0, None, 2)
  {
    Play(Load(FRESH, 2, true, false))
  }

  /** It after grain 10. */
  function LoopedOnce(): (t: Transport)
    ensures t == Transport(Playing, 2, 0, 1, 0, 1, 0, true, false, false, true, 10, None, 2)
  {
    Advance(TwoFrameLoop(), 10, false).0
  }

  /** It after grains 10 and 11. */
  function LoopedTwice(): (t: Transport)
    ensures t == Transport(Playing, 2, 1, 0, 1, 2, 0, true, false, false, true, 11, None, 2)
  {
    Advance(LoopedOnce(), 11, false).0
  }

  /** Switched off on its last frame, its end is told two grains too early. */
  lemma EndIndexAfterLoopOff()
    ensures var t := LoopedTwice().(loop := false);
            Sound(t) && EndIndex(t) == Some(11) && Advance(t, 12, false).1.frame == 0 && EndIndex(Advance(t, 13, false).0) == Some(13)
  {
    hide LoopedTwice;
  }

  // ---- the transport in place ------------------------------------------------------------------

  class Playout {
    var state: State
    var frames: int
    var shown: int
    var position: int
    var shownSeq: int
    var nextSeq: int
    var jumpFrame: int
    var loop: bool
    var playOnCut: bool
    var onAir: bool
    var started: bool
    var lastIndex: nat
    var endedAt: Option<nat>
    var generation: nat

    ghost function Abs(): Transport
      reads this
    {
      Transport(state, frames, shown, position, shownSeq, nextSeq, jumpFrame, loop, playOnCut, onAir, started, lastIndex, endedAt, generation)
    }

    ghost predicate Valid()
      reads this
    {
      Sound(Abs())
    }

    constructor ()
      ensures Valid() && Abs() == FRESH
    {
      state, frames, shown, position, shownSeq, nextSeq, jumpFrame := Empty, 0, 0, 0, 0, 0, 0;
      loop, playOnCut, onAir, started, lastIndex, endedAt, generation := false, false, false, false, 0, None, 1;
    }

    method JumpTo(frame: int)
      modifies this
      ensures Abs() == Jump(old(Abs()), frame)
    {
      position := Clamp(frame, 0, Max(0, frames - 1));
      shown := position;
      jumpFrame := position;
      nextSeq := 0;
      shownSeq := 0;
      generation := generation + 1;
      started := false;
      endedAt := None;
    }

    method LoadClip(length: int, looping: bool, onCut: bool)
      requires Valid()
      modifies this
      ensures Valid() && Abs() == Load(old(Abs()), length, looping, onCut)
    {
      ObeyKeepsSound(Abs(), CmdLoad(length, looping, onCut));
      frames := Max(1, length);
      loop := looping;
      playOnCut := onCut;
      state := Cued;
      JumpTo(0);
    }

    method UnloadClip()
      requires Valid()
      modifies this
      ensures Valid() && Abs() == Unload(old(Abs()))
    {
      ObeyKeepsSound(Abs(), CmdUnload);
      frames := 0;
      state := Empty;
      JumpTo(0);
    }

    method SetLoop(on: bool)
      requires Valid()
      modifies this`loop
      ensures Valid() && Abs() == old(Abs()).(loop := on)
    {
      loop := on;
    }

    method SetPlayOnCut(on: bool)
      requires Valid()
      modifies this`playOnCut
      ensures Valid() && Abs() == old(Abs()).(playOnCut := on)
    {
      playOnCut := on;
    }

    method CueAt(frame: int)
      requires Valid()
      modifies this
      ensures Valid() && Abs() == Cue(old(Abs()), frame)
    {
      ObeyKeepsSound(Abs(), CmdCue(frame));
      if state == Empty {
        return;
      }
      state := Cued;
      JumpTo(frame);
    }

    method PlayClip()
      requires Valid()
      modifies this
      ensures Valid() && Abs() == Play(old(Abs()))
    {
      hide Wrap, Numbered, Advance, Load, Cue, Stop;
      ObeyKeepsSound(Abs(), CmdPlay);
      if state == Empty || state == Playing {
        return;
      }
      if state == Ended {
        JumpTo(0);
      }
      state := Playing;
      started := false;
      endedAt := None;
    }

    method PauseClip()
      requires Valid()
      modifies this`state
      ensures Valid() && Abs() == Pause(old(Abs()))
    {
      if state == Playing {
        state := Paused;
      }
    }

    method StopClip()
      requires Valid()
      modifies this
      ensures Valid() && Abs() == Stop(old(Abs()))
    {
      ObeyKeepsSound(Abs(), CmdStop);
      if state == Empty {
        return;
      }
      state := Cued;
      JumpTo(0);
    }

    /** The clip's part of one grain; `ended`: its last frame was due in a grain that was skipped. */
    method PlayOn(index: nat) returns (step: Step)
      requires Valid() && state == Playing
      modifies this
      ensures (Abs(), step) == PlayGrain(old(Abs()), index)
    {
      hide Wrap, Numbered;
      if started && index > lastIndex + 1 {
        var skipped := index - lastIndex - 1;
        position := position + skipped;
        nextSeq := nextSeq + skipped;
        if position >= frames {
          if loop {
            position := Wrap(position, frames);
          } else {
            endedAt := Some(lastIndex + 1 + (frames - 1 - (position - skipped)));
            nextSeq := nextSeq - (position - (frames - 1));
            position := frames - 1;
            shown := frames - 1;
            shownSeq := nextSeq;
            state := Ended;
            lastIndex := index;
            return Step(shown, false, generation, shownSeq);
          }
        }
      }
      started := true;
      lastIndex := index;
      shown := position;
      shownSeq := nextSeq;
      step := Step(shown, true, generation, shownSeq);
      if position + 1 < frames {
        position := position + 1;
        nextSeq := nextSeq + 1;
      } else if loop && frames > 1 {
        position := 0;
        nextSeq := nextSeq + 1;
      } else {
        state := Ended;
        endedAt := Some(index);
      }
    }

    method HearAir(air: bool)
      requires Valid()
      modifies this
      ensures Valid() && Abs() == GoOnAir(old(Abs()), air)
    {
      hide Wrap;
      if Abs().state.Ended? { JumpIsSound(Abs().(onAir := air, state := Playing), 0); }
      var rising := air && !onAir;
      onAir := air;
      if rising && playOnCut && (state == Cued || state == Paused || state == Ended) {
        if state == Ended {
          JumpTo(0);
        }
        state := Playing;
        started := false;
      }
    }

    method AdvanceTo(index: nat, air: bool) returns (step: Step)
      requires Valid()
      modifies this
      ensures Valid() && (Abs(), step) == Advance(old(Abs()), index, air)
    {
      hide PlayGrain, Wrap, GoOnAir, Numbered;
      AdvanceKeepsSound(Abs(), index, air);
      HearAir(air);
      if state == Empty {
        return Step(-1, false, generation, 0);
      }
      if state != Playing {
        lastIndex := index;
        return Step(shown, false, generation, shownSeq);
      }
      step := PlayOn(index);
    }

    /** Where the decoder starts: inside the clip, and the frame on show is its number from there on. */
    method DecoderCursor() returns (r: Cursor)
      requires Valid()
      ensures r == Cursor(generation, jumpFrame, frames, loop, state == Empty)
      ensures !r.empty ==> 0 <= r.start < r.frames && shown == Wrap(r.start + shownSeq, r.frames) && position == Wrap(r.start + nextSeq, r.frames)
      ensures r.empty <==> r.frames == 0
    {
      r := Cursor(generation, jumpFrame, frames, loop, state == Empty);
    }

    /** The grain the clip ends in: told exactly for a clip that has ended or that plays without a loop, and
        never before the grain on show. */
    method EndGrain() returns (r: Option<int>)
      requires Valid()
      ensures r == EndIndex(Abs())
      ensures r.Some? <==> state == Ended || (state == Playing && !loop && started)
      ensures r.Some? && state == Playing ==> r.value >= lastIndex && (r.value == lastIndex <==> shown == frames - 1)
    {
      if state == Ended {
        return if endedAt.Some? then Some(endedAt.value as int) else None;
      }
      if state != Playing || loop || !started {
        return None;
      }
      return Some(lastIndex + (frames - 1 - shown));
    }
  }
}
