/** The mixer as the engine runs it: the control thread's commands and the render thread's grain change
    its fields in place. Each method is proved to do what MixerCommands says of the whole state. */
module Mixer {
  import opened Wrappers
  import opened RealMath
  import opened Keyframes
  import opened MixerTypes
  import opened MixerModel
  import opened MixerInvariant
  import opened MixerCommands
  import Crossfade
  import Visibility

  /** A stinger that was taken waits for its first frame, at most STINGER_WAIT grains. */
  method AwaitStinger(s0: Me, index: nat, ready: seq<bool>) returns (s: Me, waits: nat, cuts: nat)
    ensures Wait(s, cuts == 1, waits == 1) == AwaitSting(s0, index, ready) && waits <= 1 && cuts <= 1
  {
    s, waits, cuts := s0, 0, 0;
    if s.pending && s.sting.player > 0 {
      var p := s.sting.player - 1;
      if !s.waiting {
        s := s.(waiting := true, start := index);
      }
      if p < |ready| && ready[p] {
        s := s.(waiting := false);
      } else if index >= s.start && index - s.start < STINGER_WAIT {
        waits := waits + 1;
      } else {
        cuts := cuts + 1;
        s := FinishMix(s);
      }
    }
  }

  /** The T-bar's, the stinger's or the automatic transition's step in one grain. */
  method ProgressMe(m: int, s0: Me, index: nat, cut: bool) returns (s: Me, plan: MePlan, tie: TieStep, ended: bool)
    requires s0.mixing ==> s0.frames >= 1
    ensures (s, plan, tie, ended) == Progress(m, s0, index, cut)
  {
    hide AutoT, Crossfade.StingerFadeT;
    s, tie, ended := s0, NO_TIE_STEP.(cut := cut), false;
    plan := MePlan(m, s.program, if s.mixing then s.target else s.preview, 0.0, 0.0, false, s.mixing && s.wiping, s.wipe,
                   0, 0, false, s.preview, 0.0, 0.0, [], false);
    if s.mixing && s.manual {
      plan := plan.(mixing := true, t := s.t, tPrev := s.tLast);
      s := s.(tLast := s.t);
      tie := tie.(active := true, t := s.t);
      if s.t >= 1.0 {
        s := FinishMix(s);
        tie := tie.(end := true);
        ended := true;
      } else if s.t <= 0.0 {
        s := s.(mixing := false, manual := false, wiping := false, after := None);
        tie := tie.(active := false, back := true);
        ended := true;
      }
    } else if s.mixing && s.sting.player > 0 {
      var f := Min(if index >= s.start then index - s.start else 0, s.frames - 1);
      plan := plan.(stinger := s.sting.player, stingerFrame := f, cutDone := f >= s.sting.cut,
                    tPrev := Crossfade.StingerFadeT(f - 1, s.sting.cut, s.frames), t := Crossfade.StingerFadeT(f, s.sting.cut, s.frames));
      s := s.(position := f + 1);
      tie := tie.(cut := plan.cutDone);
      if f >= s.frames - 1 {
        s := FinishMix(s);
        tie := tie.(end := true);
        ended := true;
      }
    } else if s.mixing {
      var done := if index >= s.start then index - s.start + 1 else 1;
      var step := Min(done, s.frames);
      plan := plan.(mixing := true, t := if step >= s.frames then 1.0 else AutoT(s, step), tPrev := AutoT(s, step - 1));
      s := s.(position := step);
      tie := tie.(active := true, t := plan.t);
      if step >= s.frames {
        s := FinishMix(s);
        tie := tie.(end := true);
        ended := true;
      }
    }
  }

  /** The stinger, fade and transition of one ME in one grain. */
  method MeGrain(m: int, s0: Me, ftb0: Fade, index: nat, ready: seq<bool>) returns (r: MeStep, ftb: Fade)
    requires (s0.Running() ==> s0.frames >= 1) && (FadeRuns(ftb0) ==> ftb0.frames >= 1)
    ensures r == FrameMe(m, s0, ftb0, index, ready)
    ensures ftb == FadeAdvance(ftb0, index).0
  {
    hide Progress;
    var s, waits, cuts := AwaitStinger(s0, index, ready);
    var played := 0;
    if s.pending && !s.waiting {
      s := s.(pending := false, mixing := true, start := index);
      if s.sting.player > 0 {
        played := played + 1;
      }
    }
    var t, plan, tie, ended := ProgressMe(m, s, index, cuts == 1);
    ftb := FadeAdvance(ftb0, index).0;
    r := MeStep(t, plan.(ftbPrev := ftb0.gain, ftb := ftb.gain), tie, ended || cuts == 1, waits, cuts, played);
  }

  /** A keyer follows the transition it is tied to, if any. */
  method FollowTransition(k0: Keyer, tie: TieStep) returns (k: Keyer, tieEnded: bool, ended: bool)
    requires KeyShape(k0) && k0.tie.me >= 0
    ensures (k, tieEnded, ended) == FollowTie(k0, tie)
  {
    k, ended, tieEnded := k0, false, false;
    if k.tie.me > 0 {
      if k.tie.atCut {
        tieEnded := tie.end && !tie.cut;
        if tie.cut {
          k := CutKey(k, !k.fade.on);
          ended := true;
        }
      } else if tie.back {
        k := TieEnd(k, false);
        ended := true;
      } else if tie.active {
        k := TieAdvance(k, tie.t);
        tieEnded := tie.end;
      }
    }
  }

  /** One keyer in one grain: its tie, then its own fade and run, then what ends after the grain. */
  method KeyGrain(number: int, k0: Keyer, tie: TieStep, index: nat) returns (r: KeyStep)
    requires KeyShape(k0) && k0.tie.me >= 0
    ensures r == FrameKey(number, k0, tie, index)
  {
    hide FollowTie, TieAdvance;
    var k, tieEnded, ended := FollowTransition(k0, tie);
    var (fade, fadeEnded) := FadeAdvance(k.fade, index);
    k := k.(fade := fade);
    var (moved, runEnded) := RunAdvance(k, index);
    k := moved;
    var plan := KeyPlan(number, k.me, k.upstream, k.fade.gain, k.settings);
    if tieEnded {
      k := TieEnd(k, true);
    }
    if runEnded {
      if k.box.flying && !k.fade.on {
        k := k.(fade := k.fade.(gain := 0.0));
      }
      k := k.(box := k.box.(flying := false));
    }
    r := KeyStep(k, plan, ended || fadeEnded || tieEnded || runEnded);
  }

  /** Step m of a grain. */
  ghost predicate IsStep(st: St, m: nat, step: MeStep, index: nat, ready: seq<bool>) {
    Framable(st) && m < |st.me| && step == FrameMe(m + 1, st.me[m], st.ftbs[m], index, ready)
  }

  ghost predicate AreSteps(st: St, steps: seq<MeStep>, index: nat, ready: seq<bool>) {
    |steps| == |st.me| && forall m :: 0 <= m < |steps| ==> IsStep(st, m, steps[m], index, ready)
  }

  lemma TheyAreSteps(st: St, index: nat, ready: seq<bool>)
    requires Framable(st)
    ensures AreSteps(st, MeSteps(st, index, ready), index, ready)
  {
    forall m | 0 <= m < |st.me| ensures IsStep(st, m, MeSteps(st, index, ready)[m], index, ready) {
      MeStepsAt(st, index, ready, m);
    }
  }

  lemma TallyStep(steps: seq<MeStep>, m: nat)
    requires m <= |steps|
    ensures if m == |steps| then Tally(steps[m..]) == Counts(0, 0, 0)
            else Tally(steps[m..]) == Counts(steps[m].waits + Tally(steps[m + 1..]).waits, steps[m].cuts + Tally(steps[m + 1..]).cuts,
                                             steps[m].played + Tally(steps[m + 1..]).played)
  {
    if m < |steps| { assert steps[m..][1..] == steps[m + 1..]; }
  }

  method MeGrainOf(m: nat, s0: Me, ftb0: Fade, index: nat, ready: seq<bool>, ghost st: St, ghost step: MeStep) returns (r: MeStep, ftb: Fade)
    requires IsStep(st, m, step, index, ready) && s0 == st.me[m] && ftb0 == st.ftbs[m]
    ensures r == step && ftb == NextFtbs(st.ftbs, index)[m]
  {
    r, ftb := MeGrain(m + 1, s0, ftb0, index, ready);
  }

  class Mixer {
    const c: Config
    var state: seq<Me>
    /** Per ME its held take. */
    var deferred: seq<Option<Deferred>>
    var keys: seq<Keyer>
    /** One Fade to Black per ME. */
    var ftbs: seq<Fade>
    var stingerWaits: nat
    var stingerCuts: nat
    var stingersPlayed: nat

    ghost function Abs(): St
      reads this
    {
      St(state, deferred, keys, ftbs, stingerWaits, stingerCuts, stingersPlayed)
    }

    ghost predicate Valid()
      reads this
    {
      Inv(c, Abs())
    }

    constructor (mes: int, inputs: int, players: int, keyers: seq<KeyerSpec>)
      requires forall k :: 0 <= k < |keyers| ==> 1 <= keyers[k].me <= Max(1, mes)
      ensures c == Config(Max(1, mes), Max(0, inputs), Max(0, players), keyers)
      ensures Valid() && Abs() == Initial(c)
    {
      var config := Config(Max(1, mes), Max(0, inputs), Max(0, players), keyers);
      c := config;
      var start := Initial(config);
      state, deferred, keys, ftbs := start.me, start.deferred, start.keys, start.ftbs;
      stingerWaits, stingerCuts, stingersPlayed := 0, 0, 0;
      new;
      InitialInv(c);
    }

    // ---- ties --------------------------------------------------------------------------------

    method EndTiesOf(me: int)
      requires KeysShape(keys)
      modifies this`keys
      ensures keys == EndTies(old(keys), me, true)
    {
      var k := 0;
      while k < |keys|
        invariant 0 <= k <= |keys| == |old(keys)|
        invariant forall i :: 0 <= i < k ==> keys[i] == if old(keys)[i].tie.me == me then TieEnd(old(keys)[i], true) else old(keys)[i]
        invariant forall i :: k <= i < |keys| ==> keys[i] == old(keys)[i]
      {
        if keys[k].tie.me == me {
          keys := keys[k := TieEnd(keys[k], true)];
        }
        k := k + 1;
      }
    }

    method StartTiesOf(tied: seq<int>, me: int, atCut: bool)
      requires forall i :: 0 <= i < |tied| ==> 1 <= tied[i] <= |keys|
      requires forall i, j :: 0 <= i < j < |tied| ==> tied[i] != tied[j]
      modifies this`keys
      ensures keys == StartTies(old(keys), tied, me, atCut)
    {
      for i := 0 to |tied|
        invariant |keys| == |old(keys)| && keys == StartTies(old(keys), tied[..i], me, atCut)
      {
        keys := keys[tied[i] - 1 := TieStart(keys[tied[i] - 1], me, atCut)];
        assert tied[..i + 1] == tied[..i] + [tied[i]];
      }
      assert tied[..|tied|] == tied;
    }

    method CutTiesOf(tied: seq<int>)
      requires forall i :: 0 <= i < |tied| ==> 1 <= tied[i] <= |keys|
      requires forall i, j :: 0 <= i < j < |tied| ==> tied[i] != tied[j]
      modifies this`keys
      ensures keys == CutTies(old(keys), tied)
    {
      for i := 0 to |tied|
        invariant |keys| == |old(keys)| && keys == CutTies(old(keys), tied[..i])
      {
        keys := keys[tied[i] - 1 := CutKey(keys[tied[i] - 1], !keys[tied[i] - 1].fade.on)];
        assert tied[..i + 1] == tied[..i] + [tied[i]];
      }
      assert tied[..|tied|] == tied;
    }

    // ---- takes -------------------------------------------------------------------------------

    method TakeOver(me: int, d: Deferred) returns (r: MixResult)
      requires Valid()
      modifies this
      ensures Valid() && KeysShape(old(keys))
      ensures (Abs(), r) == Take(c, old(Abs()), me, d)
    {
      TakeInv(c, Abs(), me, d);
      if !c.ValidMe(me) {
        return BadMe;
      }
      if !c.SourceAllowed(me, d.target) || (d.preview.Some? && !c.SourceAllowed(me, d.preview.value)) {
        return BadSource;
      }
      if d.frames < 0 || d.frames > MAX_FRAMES {
        return BadFrames;
      }
      assert MeAt(c, Abs(), me - 1);
      var s := FinishMix(state[me - 1]);
      state := state[me - 1 := s];
      EndTiesOf(me);
      assert Abs() == EndTransition(old(Abs()), me);
      var tied := if d.ties then s.next.ties else [];
      if d.kind == Stinger && d.sting.player > 0 && d.sting.frames > 0 {
        state := state[me - 1 := s.(target := d.target, after := d.preview, frames := d.sting.frames,
                                    sting := d.sting.(cut := Clamp(d.sting.cut, 0, d.sting.frames)), pending := true)];
        StartTiesOf(tied, me, true);
      } else if d.frames == 0 || d.kind == Cut || d.kind == Stinger {
        s := s.(program := d.target);
        if d.preview.Some? {
          s := s.(preview := d.preview.value);
        }
        state := state[me - 1 := s];
        CutTiesOf(tied);
      } else {
        state := state[me - 1 := s.(target := d.target, after := d.preview, frames := d.frames, pending := true,
                                    wiping := d.kind == Wipe, wipe := s.next.wipe)];
        StartTiesOf(tied, me, false);
      }
      r := Ok;
    }

    method HoldTake(me: int, d: Deferred) returns (r: MixResult)
      requires Valid()
      modifies this`deferred
      ensures Valid() && (Abs(), r) == TakeAt(c, old(Abs()), me, d)
    {
      TakeAtInv(c, Abs(), me, d);
      if !c.ValidMe(me) {
        return BadMe;
      }
      if !c.SourceAllowed(me, d.target) || (d.preview.Some? && !c.SourceAllowed(me, d.preview.value)) {
        return BadSource;
      }
      if d.frames < 0 || d.frames > MAX_FRAMES {
        return BadFrames;
      }
      deferred := deferred[me - 1 := Some(d)];
      r := Ok;
    }

    /** Collects the takes due and no longer holds them. */
    method CollectDue(index: nat, all: bool, me: Option<int>) returns (due: seq<Option<Deferred>>)
      requires |deferred| == |state|
      modifies this`deferred
      ensures due == DueTakes(old(Abs()), index, all, me) && deferred == StillHeld(old(Abs()), index, all, me)
    {
      ghost var st := Abs();
      due := [];
      var m := 0;
      while m < |state|
        invariant 0 <= m <= |state| == |deferred| && |due| == m && |deferred| == |st.deferred|
        invariant forall i :: 0 <= i < m ==> due[i] == DueTakes(st, index, all, me)[i] && deferred[i] == StillHeld(st, index, all, me)[i]
        invariant forall i :: m <= i < |deferred| ==> deferred[i] == st.deferred[i]
      {
        var held := deferred[m];
        if held.Some? && (me.Some? ==> m + 1 == me.value) && (all || held.value.at <= index) {
          due := due + [held];
          deferred := deferred[m := None];
        } else {
          due := due + [None];
        }
        m := m + 1;
      }
    }

    method MakeOne(m: nat, d: Deferred, stamp: nat)
      requires Valid() && m < c.mes && DeferredOk(c, m + 1, d)
      modifies this
      ensures Valid() && KeysShape(old(keys)) && Abs() == Stamp(MakeTake(old(Abs()), m + 1, d), m, stamp)
    {
      hide MakeTake;
      StampedTakeInv(c, Abs(), m, d, stamp);
      assert TakeCheck(c, m + 1, d) == Ok;
      var made := TakeOver(m + 1, d);
      state := state[m := state[m].(heldMade := stamp)];
    }

    /** Collects the takes due, then makes them in the order of their MEs. */
    method MakeHeld(index: nat, all: bool, me: Option<int>)
      requires Valid()
      modifies this
      ensures Valid() && Abs() == RunHeld(c, old(Abs()), index, all, me)
    {
      hide MakeTake, Stamp, DueTakes, StillHeld;
      ghost var st := Abs();
      var due := CollectDue(index, all, me);
      ClearedInv(c, st, index, all, me);
      ghost var cleared := st.(deferred := StillHeld(st, index, all, me));
      var stamp := if all then 0 else index;
      var m := 0;
      while m < |due|
        invariant 0 <= m <= |due| == c.mes && Inv(c, Abs()) && DueOk(c, due)
        invariant ReleaseFrom(c, cleared, due, 0, stamp) == ReleaseFrom(c, Abs(), due, m, stamp)
      {
        if due[m].Some? {
          MakeOne(m, due[m].value, stamp);
        }
        m := m + 1;
      }
    }

    method RunDeferred(me: Option<int>)
      requires Valid()
      modifies this
      ensures Valid() && Abs() == RunHeld(c, old(Abs()), 0, true, me)
    {
      MakeHeld(0, true, me);
    }

    method CutOver(me: int) returns (r: MixResult)
      requires Valid()
      modifies this
      ensures Valid() && KeysShape(old(keys)) && (Abs(), r) == CutMe(c, old(Abs()), me)
    {
      ShapeOfInv(c, Abs());
      if !c.ValidMe(me) {
        return BadMe;
      }
      var s := state[me - 1];
      r := TakeOver(me, Deferred(0, s.preview, 0, Some(s.program), Transition.Cut, NO_STING, !(s.pending || s.mixing)));
    }

    method AutoTransition(me: int, frames: Option<int>) returns (r: MixResult)
      requires Valid()
      modifies this
      ensures Valid() && KeysShape(old(keys)) && (Abs(), r) == Auto(c, old(Abs()), me, frames)
    {
      AutoInv(c, Abs(), me, frames);
      if !c.ValidMe(me) {
        return BadMe;
      }
      if frames.Some? && (frames.value < 1 || frames.value > MAX_FRAMES) {
        return BadFrames;
      }
      var s := state[me - 1];
      if s.manual {
        var rate := frames.GetOr(s.next.frames);
        var going := s.(frames := FramesLeft(rate, s.t), from := s.t, manual := false,
                        mixing := false, pending := true, position := 0);
        state := state[me - 1 := going];
        assert Abs() == Auto(c, old(Abs()), me, frames).0;
        return Ok;
      }
      if s.mixing || s.pending {
        return Busy;
      }
      r := TakeOver(me, Deferred(0, s.preview, frames.GetOr(s.next.frames), Some(s.program), s.next.kind, NO_STING, true));
    }

    method SetPosition(me: int, t: real) returns (r: MixResult)
      requires Valid()
      modifies this
      ensures Valid() && KeysShape(old(keys)) && (Abs(), r) == Position(c, old(Abs()), me, t)
    {
      PositionInv(c, Abs(), me, t);
      if !c.ValidMe(me) {
        return BadMe;
      }
      if !(0.0 <= t <= 1.0) {
        return BadPosition;
      }
      var s := state[me - 1];
      if s.pending || (s.mixing && !s.manual) {
        return Busy;
      }
      assert MeAt(c, Abs(), me - 1);
      if !s.mixing {
        if t <= 0.0 {
          return Ok;
        }
        if s.next.kind == Stinger || s.next.kind == Transition.Cut {
          ChangeMeInv(c, Abs(), me, s.(t := t));
          state := state[me - 1 := s.(t := t)];
          r := AutoTransition(me, None);
          return;
        }
        s := s.(target := s.preview, after := Some(s.program), frames := s.next.frames, wiping := s.next.kind == Wipe,
                wipe := s.next.wipe, mixing := true, manual := true, tLast := 0.0);
        StartTiesOf(s.next.ties, me, false);
      }
      state := state[me - 1 := s.(t := t)];
      r := Ok;
    }

    // ---- buses, settings, Fade to Black --------------------------------------------------------

    method ChangeProgram(me: int, source: Source) returns (r: MixResult)
      requires Valid()
      modifies this
      ensures Valid() && KeysShape(old(keys)) && (Abs(), r) == SetProgram(c, old(Abs()), me, source)
    {
      SetProgramInv(c, Abs(), me, source);
      if !c.ValidMe(me) {
        return BadMe;
      }
      if !c.SourceAllowed(me, source) {
        return BadSource;
      }
      state := state[me - 1 := Halt(state[me - 1]).(program := source)];
      EndTiesOf(me);
      r := Ok;
    }

    method ChangePreview(me: int, source: Source) returns (r: MixResult)
      requires Valid()
      modifies this`state
      ensures Valid() && (Abs(), r) == SetPreview(c, old(Abs()), me, source)
    {
      SetPreviewInv(c, Abs(), me, source);
      if !c.ValidMe(me) {
        return BadMe;
      }
      if !c.SourceAllowed(me, source) {
        return BadSource;
      }
      state := state[me - 1 := state[me - 1].(preview := source, after := None)];
      r := Ok;
    }

    method NextTransition(me: int, next: TransitionSettings) returns (r: MixResult)
      requires Valid()
      modifies this`state
      ensures Valid() && (Abs(), r) == SetTransition(c, old(Abs()), me, next)
    {
      SetTransitionInv(c, Abs(), me, next);
      if !c.ValidMe(me) {
        return BadMe;
      }
      if next.frames < 1 || next.frames > MAX_FRAMES {
        return BadFrames;
      }
      if next.wipe.pattern !in WIPE_CODES || !Unit(next.wipe.soft) || !Unit(next.wipe.border) {
        return BadPattern;
      }
      var valid := CheckTies(me, next.ties);
      if !valid {
        return BadTies;
      }
      state := state[me - 1 := state[me - 1].(next := next)];
      r := Ok;
    }

    method CheckTies(me: int, ties: seq<int>) returns (valid: bool)
      ensures valid == c.TiesValid(me, ties)
    {
      for i := 0 to |ties|
        invariant forall j :: 0 <= j < i ==> c.ValidKey(ties[j]) && c.keyers[ties[j] - 1] == KeyerSpec(me, true)
        invariant forall j, k :: 0 <= j < k < i ==> ties[j] != ties[k]
      {
        var k := ties[i];
        if !(1 <= k <= |c.keyers|) || c.keyers[k - 1].me != me || !c.keyers[k - 1].upstream || k in ties[..i] {
          return false;
        }
      }
      return true;
    }

    method FtbSwitch(me: int, on: bool) returns (r: MixResult)
      requires Valid()
      modifies this`ftbs
      ensures Valid() && (Abs(), r) == FtbSet(c, old(Abs()), me, on)
    {
      FtbInv(c, Abs(), me, on, 1);
      if !c.ValidMe(me) {
        return BadMe;
      }
      ftbs := ftbs[me - 1 := FadeSet(ftbs[me - 1], on)];
      r := Ok;
    }

    method FtbFade(me: int, frames: int) returns (r: MixResult)
      requires Valid()
      modifies this`ftbs
      ensures Valid() && (Abs(), r) == FtbAuto(c, old(Abs()), me, frames)
    {
      FtbInv(c, Abs(), me, true, frames);
      if !c.ValidMe(me) {
        return BadMe;
      }
      if frames < 1 || frames > MAX_FRAMES {
        return BadFrames;
      }
      ftbs := ftbs[me - 1 := FadeAuto(ftbs[me - 1], frames)];
      r := Ok;
    }

    // ---- keyers --------------------------------------------------------------------------------

    method KeyCut(key: int, on: bool) returns (r: MixResult)
      requires Valid()
      modifies this`keys
      ensures Valid() && (Abs(), r) == KeySet(c, old(Abs()), key, on)
    {
      KeySetInv(c, Abs(), key, on);
      if !(1 <= key <= |keys|) {
        return BadMe;
      }
      keys := keys[key - 1 := CutKey(keys[key - 1], on)];
      r := Ok;
    }

    method KeyFade(key: int, frames: int) returns (r: MixResult)
      requires Valid()
      modifies this`keys
      ensures Valid() && (Abs(), r) == KeyAuto(c, old(Abs()), key, frames)
    {
      KeyAutoInv(c, Abs(), key, frames);
      if !(1 <= key <= |keys|) {
        return BadMe;
      }
      if frames < 1 || frames > MAX_FRAMES {
        return BadFrames;
      }
      var k := keys[key - 1];
      var tiedFly := k.tie.me > 0 && k.tie.fly && !k.tie.atCut;
      k := Untie(k);
      if CanFly(k) {
        var turningBack := (k.box.flying && (k.box.pending || k.box.active)) || tiedFly;
        k := k.(fade := k.fade.(on := !k.fade.on, pending := false, running := false, gain := 1.0));
        if k.fade.on && !turningBack {
          k := JumpTo(k, 0);
        }
        k := StartRun(k, if k.fade.on then |k.keyframes| - 1 else 0, Off, false);
        k := k.(box := k.box.(flying := true));
      } else {
        k := k.(fade := FadeAuto(k.fade, frames));
      }
      keys := keys[key - 1 := k];
      r := Ok;
    }

    method ChangeKey(key: int, settings: KeySettings, editBox: Option<DmeSettings -> DmeSettings>) returns (r: MixResult)
      requires Valid()
      modifies this`keys
      ensures Valid() && (Abs(), r) == SetKey(c, old(Abs()), key, settings, editBox)
    {
      KeySettingsInv(c, Abs(), key, settings, editBox);
      if !(1 <= key <= |keys|) {
        return BadMe;
      }
      if !Unit(settings.clip) || !Unit(settings.soft) || !Unit(settings.gain) || (settings.luma && settings.pip) {
        return BadKey;
      }
      var k := keys[key - 1];
      if (settings.luma || settings.pip) && !c.SourceAllowed(k.me, settings.source) {
        return BadSource;
      }
      var box := if editBox.Some? then editBox.value(k.settings.dme) else settings.dme;
      box := box.(enabled := settings.pip || box.enabled);
      if box.enabled && (!k.upstream || !DmeValid(box)) {
        return BadDme;
      }
      var moved := box.state != k.settings.dme.state;
      k := k.(settings := settings.(dme := box));
      if moved {
        k := PlaceOnPath(StopRun(k));
      }
      keys := keys[key - 1 := k];
      r := Ok;
    }

    method ChangeKeyframes(key: int, keyframes: seq<Keyframe>) returns (r: MixResult)
      requires Valid()
      modifies this`keys
      ensures Valid() && (Abs(), r) == SetKeyframes(c, old(Abs()), key, keyframes)
    {
      KeyframesInv(c, Abs(), key, keyframes);
      if !(1 <= key <= |keys|) {
        return BadMe;
      }
      if !keys[key - 1].upstream {
        return BadDme;
      }
      if |keyframes| > MAX_KEYFRAMES {
        return BadKeyframes;
      }
      for j := 0 to |keyframes|
        invariant keys == old(keys) && KeyframesCheck(keyframes, 0) == KeyframesCheck(keyframes, j)
      {
        if keyframes[j].frames < 1 || keyframes[j].frames > MAX_FRAMES {
          return BadFrames;
        }
        if !DmeValid(keyframes[j].box) {
          return BadDme;
        }
      }
      keys := keys[key - 1 := PlaceOnPath(StopRun(keys[key - 1]).(keyframes := keyframes))];
      r := Ok;
    }

    method KeyStart(key: int, to: Option<int>, reverse: bool, loop: Loop, frames: Option<int>) returns (r: MixResult)
      requires Valid()
      modifies this`keys
      ensures Valid() && (Abs(), r) == RunKey(c, old(Abs()), key, to, reverse, loop, frames)
    {
      KeyRunInv(c, Abs(), key, to, reverse, loop, frames);
      if !(1 <= key <= |keys|) {
        return BadMe;
      }
      if frames.Some? && (frames.value != 0 || loop != Off) {
        return BadFrames;
      }
      var k := keys[key - 1];
      if !k.upstream || !(k.settings.pip || k.settings.dme.enabled) {
        return BadDme;
      }
      var n := |k.keyframes|;
      var j := to.GetOr(if reverse then 0 else n - 1);
      if n == 0 || j < 0 || j >= n || (loop != Off && n < 2) {
        return BadKeyframes;
      }
      k := StopRun(k);
      if frames.Some? {
        k := JumpTo(k, j);
      } else {
        k := StartRun(k, j, loop, reverse);
      }
      keys := keys[key - 1 := k];
      r := Ok;
    }

    method KeyStop(key: int) returns (r: MixResult)
      requires Valid()
      modifies this`keys
      ensures Valid() && (Abs(), r) == StopKey(c, old(Abs()), key)
    {
      KeyStopInv(c, Abs(), key);
      if !(1 <= key <= |keys|) {
        return BadMe;
      }
      keys := keys[key - 1 := StopRun(keys[key - 1])];
      r := Ok;
    }

    // ---- one grain -----------------------------------------------------------------------------

    /** The MEs of a grain from the highest down. */
    method MeGrains(index: nat, ready: seq<bool>, ghost st: St, ghost steps: seq<MeStep>) returns (plans: seq<MePlan>, ties: seq<TieStep>)
      requires Framable(st) && st == Abs() && AreSteps(st, steps, index, ready)
      modifies this`state, this`ftbs, this`stingerWaits, this`stingerCuts, this`stingersPlayed
      ensures state == NextMes(steps) && ftbs == NextFtbs(st.ftbs, index) && plans == MePlans(steps)
      ensures |ties| == |steps| && forall m :: 0 <= m < |ties| ==> ties[m] == steps[m].tie
      ensures stingerWaits == st.waits + Tally(steps).waits
      ensures stingerCuts == st.cuts + Tally(steps).cuts
      ensures stingersPlayed == st.played + Tally(steps).played
    {
      hide IsStep, KeysShape, Tally;
      ghost var nextFtbs := NextFtbs(st.ftbs, index);
      plans, ties := [], seq(|state|, i => NO_TIE_STEP);
      var m := |state|;
      TallyStep(steps, m);
      while m > 0
        invariant 0 <= m <= |state| == |ftbs| == |ties| == |steps| == |st.me| && |plans| == |state| - m
        invariant forall i :: 0 <= i < m ==> state[i] == st.me[i] && ftbs[i] == st.ftbs[i]
        invariant forall i :: m <= i < |state| ==> state[i] == steps[i].me && ties[i] == steps[i].tie && ftbs[i] == nextFtbs[i]
        invariant forall j :: 0 <= j < |plans| ==> plans[j] == steps[|steps| - 1 - j].plan
        invariant stingerWaits == st.waits + Tally(steps[m..]).waits
        invariant stingerCuts == st.cuts + Tally(steps[m..]).cuts
        invariant stingersPlayed == st.played + Tally(steps[m..]).played
        decreases m
      {
        m := m - 1;
        assert IsStep(st, m, steps[m], index, ready);
        var r, ftb := MeGrainOf(m, state[m], ftbs[m], index, ready, st, steps[m]);
        state := state[m := r.me];
        ftbs := ftbs[m := ftb];
        ties := ties[m := r.tie];
        plans := plans + [r.plan];
        stingerWaits, stingerCuts, stingersPlayed := stingerWaits + r.waits, stingerCuts + r.cuts, stingersPlayed + r.played;
        TallyStep(steps, m);
      }
      assert steps[0..] == steps;
      assert state == NextMes(steps);
      assert ftbs == nextFtbs;
      assert plans == MePlans(steps);
    }

    method KeyGrains(index: nat, ties: seq<TieStep>, ghost st: St, ghost steps: seq<MeStep>) returns (plans: seq<KeyPlan>)
      requires Framable(st) && |steps| == |st.me| == |ties| && keys == st.keys
      requires forall m :: 0 <= m < |ties| ==> ties[m] == steps[m].tie
      modifies this`keys
      ensures keys == NextKeys(KeySteps(st, steps, index)) && plans == KeyPlans(KeySteps(st, steps, index))
    {
      hide FrameKey, KeySteps;
      ghost var keySteps := KeySteps(st, steps, index);
      plans := [];
      var k := 0;
      while k < |keys|
        invariant 0 <= k <= |keys| == |st.keys| == |keySteps| && |plans| == k
        invariant forall i :: 0 <= i < k ==> keys[i] == keySteps[i].key && plans[i] == keySteps[i].plan
        invariant forall i :: k <= i < |keys| ==> keys[i] == st.keys[i]
      {
        KeyStepsAt(st, steps, index, k);
        var tie := if keys[k].tie.me > 0 then ties[keys[k].tie.me - 1] else NO_TIE_STEP;
        var r := KeyGrain(k + 1, keys[k], tie, index);
        keys := keys[k := r.key];
        plans := plans + [r.plan];
        k := k + 1;
      }
      assert keys == NextKeys(keySteps);
      assert plans == KeyPlans(keySteps);
    }

    method PlanGrains(index: nat, ready: seq<bool>, ghost st: St) returns (plan: FramePlan)
      requires Framable(st) && st == Abs()
      modifies this`state, this`ftbs, this`keys, this`stingerWaits, this`stingerCuts, this`stingersPlayed
      ensures (Abs(), plan) == PlanGrain(st, index, ready)
    {
      hide FrameMe, FrameKey, IsStep, AreSteps, MeSteps, KeySteps, Tally, KeyShape;
      ghost var steps := MeSteps(st, index, ready);
      TheyAreSteps(st, index, ready);
      var mePlans, ties := MeGrains(index, ready, st, steps);
      var keyPlans := KeyGrains(index, ties, st, steps);
      plan := FramePlan(mePlans, keyPlans);
    }

    method PlanFrame(index: nat, ready: seq<bool>) returns (plan: FramePlan)
      requires Valid()
      modifies this
      ensures Valid() && (Abs(), plan) == Frame(c, old(Abs()), index, ready)
    {
      FrameInv(c, Abs(), index, ready);
      MakeHeld(index, false, None);
      FramableOfInv(c, Abs());
      plan := PlanGrains(index, ready, Abs());
      plan := Visibility.MarkVisibility(plan);
    }
  }
}
