/** A keyer tied to a transition goes to its other state exactly once, by whatever way the transition
    ends, and stays where it was when the T-bar goes back: a conservation law over every run. */
module MixerTies {
  import opened Wrappers
  import opened Keyframes
  import opened MixerTypes
  import opened MixerModel
  import opened MixerInvariant
  import opened MixerCommands
  import Visibility

  /** The state keyer k is in, or will be in when the transition it is tied to is over. */
  predicate NetOn(k: Keyer) {
    if k.Tied() && k.tie.atCut then !k.fade.on else k.fade.on
  }

  predicate Odd(n: nat) {
    n % 2 == 1
  }

  function Once(b: bool): nat {
    if b then 1 else 0
  }

  /** From one state to the other keyer k's net state went to its other value n times. */
  predicate Flipped(st: St, st': St, n: nat, k: nat) {
    k < |st.keys| == |st'.keys| && NetOn(st'.keys[k]) == (NetOn(st.keys[k]) != Odd(n))
  }

  lemma FlipsAdd(a: St, b: St, d: St, n: nat, m: nat, k: nat)
    requires Flipped(a, b, n, k) && Flipped(b, d, m, k)
    ensures Flipped(a, d, n + m, k)
  {
    assert Odd(n + m) == (Odd(n) != Odd(m));
  }

  lemma EndKeepsNet(c: Config, n: int, k: Keyer)
    requires KeyOk(c, n, k) && k.Tied()
    ensures NetOn(TieEnd(k, true)) == NetOn(k) && !TieEnd(k, true).Tied()
    ensures !k.tie.atCut ==> NetOn(TieEnd(k, false)) == !NetOn(k)
  {
    TieEndOk(c, n, k, true);
    TieEndOk(c, n, k, false);
    if k.tie.atCut { CutKeyOk(c, n, Untie(k), !k.fade.on); }
  }

  lemma StartFlipsNet(c: Config, n: int, k: Keyer, atCut: bool)
    requires KeyOk(c, n, k) && !k.Tied() && k.upstream
    ensures NetOn(TieStart(k, k.me, atCut)) == !NetOn(k)
    ensures NetOn(CutKey(k, !k.fade.on)) == !NetOn(k)
  {
    TieStartOk(c, n, k, atCut);
    CutKeyOk(c, n, k, !k.fade.on);
  }

  /** One grain leaves the net state alone, except the T-bar's return to 0. */
  lemma GrainNet(c: Config, n: int, s: Me, s': Me, k: Keyer, tie: TieStep, index: nat)
    requires KeyOk(c, n, k) && Coupled(s, k) && StepFits(s, s', tie)
    ensures NetOn(FrameKey(n, k, tie, index).key) == (NetOn(k) != (k.Tied() && tie.back))
  {
    hide FollowTie, RunAdvance, TieEnd, PathOk, LeadOk;
    FollowTieOk(c, n, s, s', k, tie);
    FollowNet(c, n, s, s', k, tie);
    var (k1, tieEnded, moved) := FollowTie(k, tie);
    FadeAdvanceOk(k1.fade, index);
    var k1' := k1.(fade := FadeAdvance(k1.fade, index).0);
    RunAdvanceOk(c, n, k1', index);
    var k2 := RunAdvance(k1', index).0;
    if tieEnded { EndKeepsNet(c, n, k2); }
  }

  lemma FollowNet(c: Config, n: int, s: Me, s': Me, k: Keyer, tie: TieStep)
    requires KeyOk(c, n, k) && Coupled(s, k) && StepFits(s, s', tie)
    ensures NetOn(FollowTie(k, tie).0) == (NetOn(k) != (k.Tied() && tie.back))
  {
    if k.Tied() {
      if k.tie.atCut {
        if tie.cut { CutKeyOk(c, n, k, !k.fade.on); }
      } else if tie.back {
        EndKeepsNet(c, n, k);
      } else if tie.active {
        TieAdvanceOk(c, n, k, tie.t);
      }
    }
  }

  // ---- what a step toggles ---------------------------------------------------------------------

  /** A take with ties on keyer k's ME. */
  predicate TakeToggles(st: St, me: int, d: Deferred, k: nat)
    requires 1 <= me <= |st.me| && k < |st.keys|
  {
    d.ties && k + 1 in st.me[me - 1].next.ties
  }

  lemma EndTransitionNet(c: Config, st: St, me: int, k: nat)
    requires Inv(c, st) && c.ValidMe(me) && k < |st.keys|
    ensures KeysShape(st.keys)
    ensures NetOn(EndTransition(st, me).keys[k]) == NetOn(st.keys[k])
  {
    ShapeOfInv(c, st);
    assert KeyAt(c, st, k);
    if st.keys[k].tie.me == me { EndKeepsNet(c, k + 1, st.keys[k]); }
  }

  lemma StartTakeNet(c: Config, st: St, me: int, d: Deferred, k: nat)
    requires Inv(c, st) && c.ValidMe(me) && Free(st, me) && k < |st.keys|
    ensures NetOn(StartTake(st, me, d).keys[k]) == (NetOn(st.keys[k]) != TakeToggles(st, me, d, k))
  {
    if TakeToggles(st, me, d, k) {
      OwnTie(c, st, me, k);
      StartFlipsNet(c, k + 1, st.keys[k], true);
      StartFlipsNet(c, k + 1, st.keys[k], false);
    }
  }

  /** A keyer in an ME's ties is an upstream keyer of that ME. */
  lemma OwnTie(c: Config, st: St, me: int, k: nat)
    requires Inv(c, st) && c.ValidMe(me) && k < |st.keys| && k + 1 in st.me[me - 1].next.ties
    ensures KeyOk(c, k + 1, st.keys[k]) && st.keys[k].me == me && st.keys[k].upstream
  {
    assert KeyAt(c, st, k) && MeAt(c, st, me - 1);
    assert c.keyers[k] == KeyerSpec(me, true);
  }

  lemma TakeNet(c: Config, st: St, me: int, d: Deferred, k: nat)
    requires Inv(c, st) && c.ValidMe(me) && DeferredOk(c, me, d) && k < |st.keys|
    ensures KeysShape(st.keys) && |MakeTake(st, me, d).keys| == |st.keys|
    ensures NetOn(MakeTake(st, me, d).keys[k]) == (NetOn(st.keys[k]) != TakeToggles(st, me, d, k))
  {
    EndTransitionInv(c, st, me);
    EndTransitionNet(c, st, me, k);
    StartTakeNet(c, EndTransition(st, me), me, d, k);
  }

  /** A take changes its own ME and that ME's keyers, and no settings of the next transition. */
  lemma TakeIsLocal(c: Config, st: St, me: int, d: Deferred)
    requires Inv(c, st) && c.ValidMe(me) && DeferredOk(c, me, d)
    ensures KeysShape(st.keys)
    ensures var r := MakeTake(st, me, d);
            && |r.me| == |st.me| && |r.keys| == |st.keys|
            && (forall m :: 0 <= m < c.mes && m != me - 1 ==> r.me[m] == st.me[m])
            && r.me[me - 1].next == st.me[me - 1].next
            && (forall k :: 0 <= k < |st.keys| && st.keys[k].me != me ==> r.keys[k] == st.keys[k])
  {
    ShapeOfInv(c, st);
    forall k | 0 <= k < |st.keys| && st.keys[k].me != me
      ensures st.keys[k].tie.me != me && k + 1 !in st.me[me - 1].next.ties
    {
      assert KeyAt(c, st, k) && MeAt(c, st, me - 1);
    }
  }

  predicate HeldToggles(st: St, due: seq<Option<Deferred>>, m: nat, k: nat)
    requires |due| == |st.me| && k < |st.keys|
  {
    var i := st.keys[k].me - 1;
    m <= i < |due| && due[i].Some? && TakeToggles(st, i + 1, due[i].value, k)
  }

  lemma StampedTakeNet(c: Config, st: St, due: seq<Option<Deferred>>, m: nat, stamp: nat, k: nat)
    requires Inv(c, st) && DueOk(c, due) && m < c.mes && due[m].Some? && k < |st.keys|
    ensures KeysShape(st.keys)
    ensures var r := Stamp(MakeTake(st, m + 1, due[m].value), m, stamp);
            && |r.keys| == |st.keys| && |r.me| == |st.me| && r.keys[k].me == st.keys[k].me
            && HeldToggles(r, due, m + 1, k) == HeldToggles(st, due, m + 1, k)
            && NetOn(r.keys[k]) == (NetOn(st.keys[k]) != (HeldToggles(st, due, m, k) && !HeldToggles(st, due, m + 1, k)))
  {
    var d := due[m].value;
    StampedTakeInv(c, st, m, d, stamp);
    TakeIsLocal(c, st, m + 1, d);
    TakeNet(c, st, m + 1, d, k);
    var r := Stamp(MakeTake(st, m + 1, d), m, stamp);
    assert KeyAt(c, r, k) && KeyAt(c, st, k);
    if TakeToggles(st, m + 1, d, k) { OwnTie(c, st, m + 1, k); }
  }

  lemma {:induction false} ReleaseNet(c: Config, st: St, due: seq<Option<Deferred>>, m: nat, stamp: nat, k: nat)
    requires Inv(c, st) && DueOk(c, due) && m <= c.mes && k < |st.keys|
    ensures |ReleaseFrom(c, st, due, m, stamp).keys| == |st.keys|
    ensures NetOn(ReleaseFrom(c, st, due, m, stamp).keys[k]) == (NetOn(st.keys[k]) != HeldToggles(st, due, m, k))
    decreases c.mes - m
  {
    if m < c.mes {
      if due[m].None? {
        ReleaseNet(c, st, due, m + 1, stamp, k);
      } else {
        StampedTakeInv(c, st, m, due[m].value, stamp);
        StampedTakeNet(c, st, due, m, stamp, k);
        ReleaseNet(c, Stamp(MakeTake(st, m + 1, due[m].value), m, stamp), due, m + 1, stamp, k);
      }
    } else {
      KeyPlace(c, st, k);
    }
  }

  lemma KeyPlace(c: Config, st: St, k: nat)
    requires Inv(c, st) && k < |st.keys|
    ensures KeyOk(c, k + 1, st.keys[k]) && 1 <= st.keys[k].me <= |st.me| && Coupled(st.me[st.keys[k].me - 1], st.keys[k])
  {
    assert KeyAt(c, st, k);
  }

  /** The T-bar of the keyer's ME goes back to 0 in this grain, with the keyer tied. */
  predicate GoesBack(st: St, k: nat)
    requires k < |st.keys| && 1 <= st.keys[k].me <= |st.me|
  {
    var s := st.me[st.keys[k].me - 1];
    st.keys[k].Tied() && s.manual && s.t <= 0.0
  }

  lemma KeyStepNet(c: Config, st: St, k: nat, index: nat, steps: seq<MeStep>)
    requires Inv(c, st) && k < |st.keys| && StepsFit(c, st, steps)
    ensures KeyShape(st.keys[k])
    ensures NetOn(FrameKey(k + 1, st.keys[k], TieStepOf(st.keys[k], steps), index).key)
         == (NetOn(st.keys[k]) != (st.keys[k].Tied() && steps[st.keys[k].me - 1].tie.back))
  {
    KeyPlace(c, st, k);
    var key := st.keys[k];
    var own := steps[key.me - 1].tie;
    GrainNet(c, k + 1, st.me[key.me - 1], steps[key.me - 1].me, key, own, index);
    if !key.Tied() {
      UntiedIgnores(k + 1, key, own, TieStepOf(key, steps), index);
    }
  }

  lemma BackStep(c: Config, st: St, index: nat, ready: seq<bool>, m: nat)
    requires Inv(c, st) && m < c.mes
    ensures Framable(st)
    ensures MeSteps(st, index, ready)[m].tie.back <==> st.me[m].manual && st.me[m].t <= 0.0
  {
    hide FrameMe;
    FramableOfInv(c, st);
    assert MeAt(c, st, m);
    BackExactly(c, m + 1, st.me[m], st.ftbs[m], index, ready);
    MeStepsAt(st, index, ready, m);
  }

  lemma PlanGrainKey(c: Config, st: St, index: nat, ready: seq<bool>, k: nat)
    requires Inv(c, st) && k < |st.keys|
    ensures Framable(st) && KeyShape(st.keys[k]) && |MeSteps(st, index, ready)| == |st.me|
    ensures var r := PlanGrain(st, index, ready).0;
            && |r.keys| == |st.keys| && |r.me| == |st.me|
            && r.keys[k] == FrameKey(k + 1, st.keys[k], TieStepOf(st.keys[k], MeSteps(st, index, ready)), index).key
    ensures var plan := PlanGrain(st, index, ready).1;
            && |plan.keys| == |st.keys|
            && plan.keys[k] == FrameKey(k + 1, st.keys[k], TieStepOf(st.keys[k], MeSteps(st, index, ready)), index).plan
  {
    hide FrameMe, FrameKey;
    FramableOfInv(c, st);
    KeyStepsAt(st, MeSteps(st, index, ready), index, k);
  }

  lemma KeyNet(c: Config, st: St, st': St, steps: seq<MeStep>, index: nat, k: nat)
    requires Inv(c, st) && k < |st.keys| == |st'.keys| && StepsFit(c, st, steps) && KeyShape(st.keys[k])
    requires st'.keys[k] == FrameKey(k + 1, st.keys[k], TieStepOf(st.keys[k], steps), index).key
    requires var s := st.me[st.keys[k].me - 1]; steps[st.keys[k].me - 1].tie.back <==> s.manual && s.t <= 0.0
    ensures Flipped(st, st', Once(GoesBack(st, k)), k)
  {
    KeyStepNet(c, st, k, index, steps);
  }

  lemma PlanGrainNet(c: Config, st: St, index: nat, ready: seq<bool>, k: nat)
    requires Inv(c, st) && k < |st.keys|
    ensures Framable(st) && Flipped(st, PlanGrain(st, index, ready).0, Once(GoesBack(st, k)), k)
  {
    MeStepsFit(c, st, index, ready);
    PlanGrainKey(c, st, index, ready, k);
    BackStep(c, st, index, ready, st.keys[k].me - 1);
    KeyNet(c, st, PlanGrain(st, index, ready).0, MeSteps(st, index, ready), index, k);
  }

  lemma BackExactly(c: Config, m: int, s: Me, ftb: Fade, index: nat, ready: seq<bool>)
    requires MeOk(c, m, s) && FadeOk(ftb)
    ensures FrameMe(m, s, ftb, index, ready).tie.back <==> s.manual && s.t <= 0.0
  {
  }

  /** The ME's state for a T-bar that stands still starts its tied transition (or, set to cut or
      stinger, its Auto) at the first t > 0. */
  predicate BarStarts(c: Config, st: St, me: int, t: real)
    requires |st.me| == c.mes
  {
    c.ValidMe(me) && Unit(t) && t > 0.0 && !st.me[me - 1].Running()
  }

  /** ME me is keyer k's, and its next transition has the keyer in its ties. */
  predicate TiedNext(st: St, me: int, k: nat) {
    k < |st.keys| && me == st.keys[k].me && 1 <= me <= |st.me| && k + 1 in st.me[me - 1].next.ties
  }

  ghost function FrameToggles(c: Config, st: St, index: nat, k: nat): nat
    requires Inv(c, st) && k < |st.keys|
  {
    RunHeldInv(c, st, index, false, None);
    KeyPlace(c, RunHeld(c, st, index, false, None), k);
    Once(HeldToggles(st, DueTakes(st, index, false, None), 0, k)) + Once(GoesBack(RunHeld(c, st, index, false, None), k))
  }

  /** How often a step takes keyer k to its other state. */
  ghost function Toggles(c: Config, st: St, e: Event, k: nat): nat
    requires Inv(c, st) && k < |st.keys|
  {
    ShapeOfInv(c, st);
    match e
    case EvTake(me, d) => Once(TakeCheck(c, me, d) == Ok && d.ties && TiedNext(st, me, k))
    case EvCut(me) => Once(c.ValidMe(me) && !st.me[me - 1].Running() && TiedNext(st, me, k))
    case EvAuto(me, rate) => Once(Auto(c, st, me, rate).1 == Ok && !st.me[me - 1].Running() && TiedNext(st, me, k))
    case EvPosition(me, t) => Once(BarStarts(c, st, me, t) && TiedNext(st, me, k))
    case EvRunDeferred(which) => Once(HeldToggles(st, DueTakes(st, 0, true, which), 0, k))
    case EvFrame(index, ready) => FrameToggles(c, st, index, k)
    case _ => 0
  }

  /** The step is keyer k's own command. */
  predicate OwnCommand(e: Event, k: nat) {
    KeyerCommand(e) && k + 1 == (match e
                                 case EvKeySet(key, _) => key
                                 case EvKeyAuto(key, _) => key
                                 case EvKeySettings(key, _, _) => key
                                 case EvKeyKeyframes(key, _) => key
                                 case EvKeyRun(key, _, _, _, _) => key
                                 case EvKeyStop(key) => key
                                 case _ => 0)
  }

  lemma TakeEventNet(c: Config, st: St, me: int, d: Deferred, k: nat)
    requires Inv(c, st) && k < |st.keys|
    ensures KeysShape(st.keys)
    ensures NetOn(Take(c, st, me, d).0.keys[k]) ==
            (NetOn(st.keys[k]) != (TakeCheck(c, me, d) == Ok && d.ties && TiedNext(st, me, k)))
  {
    ShapeOfInv(c, st);
    if TakeCheck(c, me, d) == Ok {
      TakeNet(c, st, me, d, k);
      assert KeyAt(c, st, k) && MeAt(c, st, me - 1);
      if k + 1 in st.me[me - 1].next.ties { assert c.keyers[k] == KeyerSpec(me, true); }
    }
  }

  lemma ProgramNet(c: Config, st: St, me: int, source: Source, k: nat)
    requires Inv(c, st) && k < |st.keys|
    ensures KeysShape(st.keys) && NetOn(SetProgram(c, st, me, source).0.keys[k]) == NetOn(st.keys[k])
  {
    ShapeOfInv(c, st);
    assert KeyAt(c, st, k);
    if st.keys[k].tie.me == me && st.keys[k].Tied() { EndKeepsNet(c, k + 1, st.keys[k]); }
  }

  lemma AutoNet(c: Config, st: St, me: int, rate: Option<int>, k: nat)
    requires Inv(c, st) && k < |st.keys|
    ensures KeysShape(st.keys)
    ensures NetOn(Auto(c, st, me, rate).0.keys[k]) ==
            (NetOn(st.keys[k]) != (Auto(c, st, me, rate).1 == Ok && !st.me[me - 1].Running() && TiedNext(st, me, k)))
  {
    ShapeOfInv(c, st);
    if c.ValidMe(me) {
      TakeEventNet(c, st, me, AutoTake(st, me, rate), k);
      assert MeAt(c, st, me - 1);
    }
  }

  lemma PositionNet(c: Config, st: St, me: int, t: real, k: nat)
    requires Inv(c, st) && k < |st.keys|
    ensures KeysShape(st.keys)
    ensures NetOn(Position(c, st, me, t).0.keys[k]) ==
            (NetOn(st.keys[k]) != (BarStarts(c, st, me, t) && TiedNext(st, me, k)))
  {
    ShapeOfInv(c, st);
    if BarStarts(c, st, me, t) {
      var s := st.me[me - 1];
      assert MeAt(c, st, me - 1) && KeyAt(c, st, k);
      if s.next.kind == Stinger || s.next.kind == Cut {
        ChangeMeInv(c, st, me, s.(t := t));
        var st' := st.(me := st.me[me - 1 := s.(t := t)]);
        AutoNet(c, st', me, None, k);
        assert TakeCheck(c, me, AutoTake(st', me, None)) == Ok;
      } else if k + 1 in s.next.ties {
        assert c.keyers[k] == KeyerSpec(me, true);
        FreeOfIdle(c, st, me);
        StartFlipsNet(c, k + 1, st.keys[k], false);
      }
    }
  }

  lemma FrameNet(c: Config, st: St, index: nat, ready: seq<bool>, k: nat)
    requires Inv(c, st) && k < |st.keys|
    ensures Flipped(st, Frame(c, st, index, ready).0, FrameToggles(c, st, index, k), k)
  {
    hide RunHeld, PlanGrain, HeldToggles, GoesBack, Flipped;
    RunHeldInv(c, st, index, false, None);
    HeldNet(c, st, index, false, None, k);
    var held := RunHeld(c, st, index, false, None);
    PlanGrainNet(c, held, index, ready, k);
    FlipsAdd(st, held, PlanGrain(held, index, ready).0, Once(HeldToggles(st, DueTakes(st, index, false, None), 0, k)), Once(GoesBack(held, k)), k);
  }

  lemma HeldNet(c: Config, st: St, index: nat, all: bool, which: Option<int>, k: nat)
    requires Inv(c, st) && k < |st.keys|
    ensures Flipped(st, RunHeld(c, st, index, all, which), Once(HeldToggles(st, DueTakes(st, index, all, which), 0, k)), k)
  {
    ClearedInv(c, st, index, all, which);
    var due := DueTakes(st, index, all, which);
    var cleared := st.(deferred := StillHeld(st, index, all, which));
    ReleaseNet(c, cleared, due, 0, if all then 0 else index, k);
    assert HeldToggles(cleared, due, 0, k) == HeldToggles(st, due, 0, k);
  }

  lemma CutNet(c: Config, st: St, me: int, k: nat)
    requires Inv(c, st) && k < |st.keys|
    ensures KeysShape(st.keys)
    ensures NetOn(CutMe(c, st, me).0.keys[k]) ==
            (NetOn(st.keys[k]) != (c.ValidMe(me) && !st.me[me - 1].Running() && TiedNext(st, me, k)))
  {
    ShapeOfInv(c, st);
    if c.ValidMe(me) {
      assert MeAt(c, st, me - 1);
      TakeEventNet(c, st, me, CutTake(st, me), k);
    }
  }

  lemma TakeStepNet(c: Config, st: St, e: Event, k: nat)
    requires Inv(c, st) && k < |st.keys| && (e.EvProgram? || e.EvTake? || e.EvRunDeferred? || e.EvCut? || e.EvFrame?)
    ensures Flipped(st, Apply(c, st, e), Toggles(c, st, e, k), k)
  {
    hide Frame, FrameToggles, RunHeld, HeldToggles;
    ShapeOfInv(c, st);
    match e
    case EvProgram(me, source) => ProgramNet(c, st, me, source, k);
    case EvTake(me, d) => TakeEventNet(c, st, me, d, k);
    case EvRunDeferred(which) => HeldNet(c, st, 0, true, which, k);
    case EvCut(me) => CutNet(c, st, me, k);
    case EvFrame(index, ready) => FrameNet(c, st, index, ready, k);
  }

  lemma OtherStepNet(c: Config, st: St, e: Event, k: nat)
    requires Inv(c, st) && k < |st.keys| && !OwnCommand(e, k)
    requires !e.EvProgram? && !e.EvTake? && !e.EvRunDeferred? && !e.EvCut? && !e.EvFrame? && !e.EvAuto? && !e.EvPosition?
    ensures Flipped(st, Apply(c, st, e), Toggles(c, st, e, k), k)
  {
  }

  lemma BarStepNet(c: Config, st: St, e: Event, k: nat)
    requires Inv(c, st) && k < |st.keys| && (e.EvAuto? || e.EvPosition?)
    ensures Flipped(st, Apply(c, st, e), Toggles(c, st, e, k), k)
  {
    ShapeOfInv(c, st);
    match e
    case EvAuto(me, rate) => AutoNet(c, st, me, rate, k);
    case EvPosition(me, t) => PositionNet(c, st, me, t, k);
  }

  /** One step takes the net state of a keyer to its other value exactly as often as it toggles. */
  lemma StepNet(c: Config, st: St, e: Event, k: nat)
    requires Inv(c, st) && k < |st.keys| && !OwnCommand(e, k)
    ensures Flipped(st, Apply(c, st, e), Toggles(c, st, e, k), k)
  {
    if e.EvProgram? || e.EvTake? || e.EvRunDeferred? || e.EvCut? || e.EvFrame? {
      TakeStepNet(c, st, e, k);
    } else if e.EvAuto? || e.EvPosition? {
      BarStepNet(c, st, e, k);
    } else {
      OtherStepNet(c, st, e, k);
    }
  }

  ghost function ToggleCount(c: Config, st: St, events: seq<Event>, k: nat): nat
    requires Inv(c, st) && k < |st.keys|
    decreases |events|
  {
    if |events| == 0 then 0
    else
      ApplyInv(c, st, events[0]);
      Toggles(c, st, events[0], k) + ToggleCount(c, Apply(c, st, events[0]), events[1..], k)
  }

  /** Over every run without keyer k's own commands its net state is its old one, flipped once for every
      tied take, cut, Auto or T-bar start and once for every T-bar taken back to 0: not by which grains
      were rendered, nor by how a transition ended. */
  lemma {:induction false} NetStateIsConserved(c: Config, st: St, events: seq<Event>, k: nat)
    requires Inv(c, st) && k < |st.keys|
    requires forall i :: 0 <= i < |events| ==> !OwnCommand(events[i], k)
    ensures Flipped(st, Run(c, st, events), ToggleCount(c, st, events, k), k)
    decreases |events|
  {
    hide Apply, Toggles;
    if |events| > 0 {
      ApplyInv(c, st, events[0]);
      StepNet(c, st, events[0], k);
      var next, n := Apply(c, st, events[0]), Toggles(c, st, events[0], k);
      NetStateIsConserved(c, next, events[1..], k);
      FlipsAdd(st, next, Run(c, next, events[1..]), n, ToggleCount(c, next, events[1..], k), k);
    }
  }

  /** A tied keyer whose tie is over at the end of a run without toggles is on exactly when the tie meant it to be. */
  lemma TiedKeyerArrives(c: Config, st: St, events: seq<Event>, k: nat)
    requires Inv(c, st) && k < |st.keys| && st.keys[k].Tied()
    requires forall i :: 0 <= i < |events| ==> !OwnCommand(events[i], k)
    requires ToggleCount(c, st, events, k) == 0
    ensures var r := Run(c, st, events);
            k < |r.keys| && (!r.keys[k].Tied() ==> r.keys[k].fade.on == (if st.keys[k].tie.atCut then !st.keys[k].fade.on else st.keys[k].fade.on))
  {
    NetStateIsConserved(c, st, events, k);
  }

  // ---- the T-bar back at 0 -----------------------------------------------------------------------

  /** A rendered grain of a T-bar between its ends. */
  datatype LeverGrain = LeverGrain(t: real, index: nat)

  function BarStep(t: real): TieStep {
    TieStep(true, t, false, false, false)
  }

  /** The T-bar back at 0. */
  const BACK := TieStep(false, 0.0, false, false, true)

  /** Tied to a Mix or Wipe. */
  predicate Following(c: Config, n: int, k: Keyer) {
    KeyOk(c, n, k) && k.Tied() && !k.tie.atCut
  }

  ghost predicate LeversOk(grains: seq<LeverGrain>) {
    forall g :: 0 <= g < |grains| ==> Unit(grains[g].t)
  }

  /** What a tied keyer keeps in every grain of the T-bar; one that flies moves only its box's state. */
  predicate SameTie(k: Keyer, r: Keyer) {
    && r.tie == k.tie && r.fade.on == k.fade.on && r.keyframes == k.keyframes
    && (k.tie.fly ==> r.settings == k.settings.(dme := k.settings.dme.(state := r.settings.dme.state)))
  }

  lemma BarGrainKeeps(c: Config, n: int, k: Keyer, t: real, index: nat)
    requires Following(c, n, k) && Unit(t)
    ensures Following(c, n, FrameKey(n, k, BarStep(t), index).key) && SameTie(k, FrameKey(n, k, BarStep(t), index).key)
  {
    TieAdvanceOk(c, n, k, t);
    var k1 := TieAdvance(k, t);
    RunAdvanceOk(c, n, k1, index);
    if k.tie.fly && k.tie.onPath {
      PathKeepsTheRest(k.keyframes, TieAt(k.tie.u0, k.tie.u1, t), k.settings.dme, k.settings.dme);
    }
    assert k1.(fade := k1.fade) == k1;
    hide TieAdvance, PathOk;
  }

  /** A tied keyer after any grains of the T-bar. */
  ghost function Led(c: Config, n: int, k: Keyer, grains: seq<LeverGrain>): Keyer
    requires Following(c, n, k) && LeversOk(grains)
    decreases |grains|
  {
    if |grains| == 0 then k
    else
      BarGrainKeeps(c, n, k, grains[0].t, grains[0].index);
      Led(c, n, FrameKey(n, k, BarStep(grains[0].t), grains[0].index).key, grains[1..])
  }

  lemma {:induction false} LedKeeps(c: Config, n: int, k: Keyer, grains: seq<LeverGrain>)
    requires Following(c, n, k) && LeversOk(grains)
    ensures Following(c, n, Led(c, n, k, grains)) && SameTie(k, Led(c, n, k, grains))
    decreases |grains|
  {
    if |grains| > 0 {
      BarGrainKeeps(c, n, k, grains[0].t, grains[0].index);
      LedKeeps(c, n, FrameKey(n, k, BarStep(grains[0].t), grains[0].index).key, grains[1..]);
    }
  }

  /** Where a keyer's box is when the T-bar it is tied to goes back: a keyer that flies on, and was not
      flying, is sent to keyframe 0 when it is tied. */
  function BoxBack(k: Keyer): DmeSettings
    requires |k.keyframes| > 0
  {
    if k.fade.on || (k.box.flying && k.RunsNow()) then k.settings.dme
    else k.settings.dme.(state := k.keyframes[0].box.state)
  }

  /** Tied to a T-bar and taken back to 0 the keyer has its state and gain again, whatever grains were
      shown in between, and a fade or a fly of its own does not go on. */
  lemma BackRestores(c: Config, n: int, k: Keyer, grains: seq<LeverGrain>, index: nat)
    requires KeyOk(c, n, k) && !k.Tied() && k.upstream && LeversOk(grains)
    ensures var tied := TieStart(k, k.me, false);
            && Following(c, n, tied) && KeyShape(Led(c, n, tied, grains))
            && var back := FrameKey(n, Led(c, n, tied, grains), BACK, index).key;
               && back.fade.on == k.fade.on && back.fade.gain == k.fade.gain
               && !back.Tied() && !FadeRuns(back.fade) && (tied.tie.fly ==> !back.RunsNow())
  {
    var tied := TieStart(k, k.me, false);
    TieStartOk(c, n, k, false);
    LedKeeps(c, n, tied, grains);
    BackGrain(c, n, Led(c, n, tied, grains), index);
  }

  /** The grain in which the T-bar is back at 0. */
  lemma BackGrain(c: Config, n: int, k: Keyer, index: nat)
    requires Following(c, n, k)
    ensures var back := FrameKey(n, k, BACK, index).key;
            && back.fade == k.fade.(on := !k.fade.on, gain := k.tie.gain0) && !back.Tied()
            && (k.tie.fly ==> !back.RunsNow() && back.settings == TieAdvance(k, 0.0).settings)
  {
    hide PathOk;
    TieEndOk(c, n, k, false);
    RunAdvanceOk(c, n, TieEnd(k, false), index);
  }

  /** A tied fly at t = 0 stands where it was tied. */
  lemma FlyAtZero(c: Config, n: int, k: Keyer, r: Keyer)
    requires KeyOk(c, n, k) && k.TiedFly() && KeyOk(c, n, r) && SameTie(k, r)
    requires k.tie.box == k.settings.dme && (k.tie.onPath ==> k.settings.dme == PathAt(k.keyframes, k.tie.u0, k.settings.dme))
    ensures TieAdvance(r, 0.0).settings.dme == k.settings.dme
  {
    EaseShape(k.keyframes[k.tie.target].ease, 0.0, 0.0);
    BetweenEnds(r.settings.dme, k.tie.box, k.keyframes[k.tie.target].box);
    if k.tie.onPath {
      assert TieAt(k.tie.u0, k.tie.u1, 0.0) == k.tie.u0;
      PathKeepsTheRest(k.keyframes, k.tie.u0, r.settings.dme, k.settings.dme);
    }
  }

  /** A keyer that flies with the T-bar has its box where BoxBack says: where it was exactly when it was on,
      was flying, or stood at keyframe 0. */
  lemma BackRestoresBox(c: Config, n: int, k: Keyer, grains: seq<LeverGrain>, index: nat)
    requires KeyOk(c, n, k) && !k.Tied() && k.upstream && CanFly(k) && LeversOk(grains)
    ensures var tied := TieStart(k, k.me, false);
            && Following(c, n, tied) && KeyShape(Led(c, n, tied, grains))
            && var back := FrameKey(n, Led(c, n, tied, grains), BACK, index).key;
               && back.settings.dme == BoxBack(k)
               && (back.settings.dme == k.settings.dme <==>
                     (k.fade.on || (k.box.flying && k.RunsNow()) || k.settings.dme.state == k.keyframes[0].box.state))
  {
    var tied := TieStart(k, k.me, false);
    TieStartOk(c, n, k, false);
    BetweenEnds(k.settings.dme, k.keyframes[0].box, k.keyframes[0].box);
    LedKeeps(c, n, tied, grains);
    BackGrain(c, n, Led(c, n, tied, grains), index);
    FlyAtZero(c, n, tied, Led(c, n, tied, grains));
  }

  const ONE_ME := Config(1, 2, 0, [KeyerSpec(1, true)])

  function BoxAt(x: real): DmeSettings {
    DEFAULT_BOX.(enabled := true, state := DEFAULT_BOX.state.(x := x))
  }

  /** A keyer off air with its box in the middle, set to fly from the left to the right. */
  const FLIER := InitialKey(KeyerSpec(1, true)).(
    settings := DEFAULT_KEY.(fly := true, dme := BoxAt(0.5)),
    keyframes := [Keyframe(BoxAt(0.25), 10, Linear), Keyframe(BoxAt(0.75), 10, Linear)])

  /** Its box does not come back: the lever leaves it on the left, whatever was shown. */
  lemma FlierStaysLeft(grains: seq<LeverGrain>, index: nat)
    requires LeversOk(grains)
    ensures KeyOk(ONE_ME, 1, FLIER) && Following(ONE_ME, 1, TieStart(FLIER, 1, false))
    ensures KeyShape(Led(ONE_ME, 1, TieStart(FLIER, 1, false), grains))
    ensures FLIER.settings.dme.state.x == 0.5
    ensures FrameKey(1, Led(ONE_ME, 1, TieStart(FLIER, 1, false), grains), BACK, index).key.settings.dme.state.x == 0.25
  {
    BackRestoresBox(ONE_ME, 1, FLIER, grains, index);
  }

  // ---- a tied keyer's own run ---------------------------------------------------------------------

  /** A run, a stop or new keyframes for keyer k, accepted. */
  predicate RunCommand(c: Config, st: St, e: Event, k: nat)
    requires |st.keys| == |c.keyers|
  {
    match e
    case EvKeyRun(key, to, reverse, loop, jump) => key == k + 1 && RunKey(c, st, key, to, reverse, loop, jump).1 == Ok
    case EvKeyStop(key) => key == k + 1 && StopKey(c, st, key).1 == Ok
    case EvKeyKeyframes(key, keyframes) => key == k + 1 && SetKeyframes(c, st, key, keyframes).1 == Ok
    case _ => false
  }

  /** Such a command takes a tied keyer out of its tie exactly when it flies with a Mix or Wipe, and it then
      stays on air in full; a tied fade and a keyer waiting for a stinger's cut point stay tied. */
  lemma StopUntiesExactly(c: Config, st: St, e: Event, k: nat)
    requires Inv(c, st) && k < |st.keys| && st.keys[k].Tied() && RunCommand(c, st, e, k)
    ensures |Apply(c, st, e).keys| == |st.keys|
    ensures var (was, r) := (st.keys[k], Apply(c, st, e).keys[k]);
            && (r.Tied() <==> !(was.tie.fly && !was.tie.atCut)) && (r.Tied() ==> r.tie == was.tie)
            && (!r.Tied() ==> r.fade.on && r.fade.gain == 1.0)
  {
    assert KeyAt(c, st, k);
    StopRunOk(c, k + 1, st.keys[k]);
  }

  const TIED_NEXT := TransitionSettings(Mix, 25, DEFAULT_WIPE, [1])

  /** A keyer tied to an Auto whose box does not fly, and its run to keyframe 0 during it. */
  const TIED_FADE: seq<Event> := [
    EvKeySettings(1, DEFAULT_KEY.(dme := BoxAt(0.5)), None),
    EvKeyKeyframes(1, [Keyframe(BoxAt(0.25), 10, Linear)]),
    EvTransition(1, TIED_NEXT),
    EvAuto(1, None),
    EvKeyRun(1, Some(0), false, Off, None)]

  /** The keyer once it has its box and its keyframe. */
  const BOXED := InitialKey(KeyerSpec(1, true)).(settings := DEFAULT_KEY.(dme := BoxAt(0.5)), keyframes := [Keyframe(BoxAt(0.25), 10, Linear)])

  lemma BoxedFirst()
    ensures Inv(ONE_ME, Initial(ONE_ME)) && Inv(ONE_ME, Apply(ONE_ME, Initial(ONE_ME), TIED_FADE[0]))
    ensures var r := Apply(ONE_ME, Apply(ONE_ME, Initial(ONE_ME), TIED_FADE[0]), TIED_FADE[1]);
            r.keys == [BOXED] && r.me == [InitialMe(ONE_ME, 1)]
  {
    InitialInv(ONE_ME);
    hide Inv, KeyTime;
    var st := Initial(ONE_ME);
    ApplyInv(ONE_ME, st, TIED_FADE[0]);
    assert BoxAt(0.5).state == DEFAULT_BOX.state;
    assert Apply(ONE_ME, st, TIED_FADE[0]) == st.(keys := [BOXED.(keyframes := [])]);
  }

  lemma TiesSet(st: St)
    requires Inv(ONE_ME, st) && st.me == [InitialMe(ONE_ME, 1)]
    ensures Apply(ONE_ME, st, TIED_FADE[2]) == st.(me := [InitialMe(ONE_ME, 1).(next := TIED_NEXT)])
  {
    hide Inv;
  }

  lemma AutoTies(st: St)
    requires Inv(ONE_ME, st) && st.keys == [BOXED] && st.me == [InitialMe(ONE_ME, 1).(next := TIED_NEXT)]
    ensures var r := Apply(ONE_ME, st, TIED_FADE[3]);
            |r.me| == 1 && r.me[0].Running() && r.keys == [TieStart(BOXED, 1, false)]
  {
    hide Inv, KeyTime, TieStart, TieEnd, KeyShape;
    ShapeOfInv(ONE_ME, st);
    var d := AutoTake(st, 1, None);
    assert TakeCheck(ONE_ME, 1, d) == Ok;
    var ended := EndTransition(st, 1);
    assert ended.keys == st.keys && ended.me[0].next == TIED_NEXT;
    var r := StartTake(ended, 1, d);
    assert r.keys[0] == TieStart(BOXED, 1, false);
    assert r.keys == [TieStart(BOXED, 1, false)];
  }

  lemma TiesAtAuto(st: St)
    requires Inv(ONE_ME, st) && st.keys == [BOXED] && st.me == [InitialMe(ONE_ME, 1)]
    ensures Inv(ONE_ME, Apply(ONE_ME, st, TIED_FADE[2]))
    ensures var r := Apply(ONE_ME, Apply(ONE_ME, st, TIED_FADE[2]), TIED_FADE[3]);
            |r.me| == 1 && r.me[0].Running() && r.keys == [TieStart(BOXED, 1, false)]
  {
    hide Inv, Apply, TieStart;
    ApplyInv(ONE_ME, st, TIED_FADE[2]);
    TiesSet(st);
    AutoTies(Apply(ONE_ME, st, TIED_FADE[2]));
  }

  lemma {:induction false} RunOfFive(c: Config, st: St, e: seq<Event>)
    requires Inv(c, st) && |e| == 5
    ensures Inv(c, Apply(c, st, e[0])) && Inv(c, Apply(c, Apply(c, st, e[0]), e[1]))
    ensures Inv(c, Apply(c, Apply(c, Apply(c, st, e[0]), e[1]), e[2]))
    ensures Inv(c, Apply(c, Apply(c, Apply(c, Apply(c, st, e[0]), e[1]), e[2]), e[3]))
    ensures Run(c, st, e) == Apply(c, Apply(c, Apply(c, Apply(c, Apply(c, st, e[0]), e[1]), e[2]), e[3]), e[4])
  {
    hide Inv, Apply;
    ApplyInv(c, st, e[0]);
    var a := Apply(c, st, e[0]);
    ApplyInv(c, a, e[1]);
    ApplyInv(c, Apply(c, a, e[1]), e[2]);
    ApplyInv(c, Apply(c, Apply(c, a, e[1]), e[2]), e[3]);
    var d := Apply(c, Apply(c, Apply(c, a, e[1]), e[2]), e[3]);
    assert Run(c, st, e) == Run(c, a, e[1..]);
    assert Run(c, a, e[1..]) == Run(c, Apply(c, a, e[1]), e[1..][1..]);
    assert e[1..][1..] == e[2..] && e[2..][1..] == e[3..] && e[3..][1..] == e[4..] && e[4..][1..] == [];
    assert Run(c, d, e[4..]) == Apply(c, d, e[4]);
  }

  /** The run starts and the keyer is still tied. */
  lemma FadeStaysTied()
    ensures Inv(ONE_ME, Initial(ONE_ME))
    ensures var r := Run(ONE_ME, Initial(ONE_ME), TIED_FADE);
            |r.me| == |r.keys| == 1 && r.me[0].Running() && r.keys[0].Tied() && r.keys[0].RunsNow()
  {
    hide Inv, Apply, KeyTime;
    BoxedFirst();
    RunOfFive(ONE_ME, Initial(ONE_ME), TIED_FADE);
    var st := Apply(ONE_ME, Apply(ONE_ME, Initial(ONE_ME), TIED_FADE[0]), TIED_FADE[1]);
    TiesAtAuto(st);
    TiedRuns(Apply(ONE_ME, Apply(ONE_ME, st, TIED_FADE[2]), TIED_FADE[3]));
  }

  lemma TiedRuns(st: St)
    requires Inv(ONE_ME, st) && st.keys == [TieStart(BOXED, 1, false)]
    ensures var r := Apply(ONE_ME, st, TIED_FADE[4]);
            r.me == st.me && |r.keys| == 1 && r.keys[0].Tied() && r.keys[0].RunsNow()
  {
    hide Inv, KeyTime;
    ShapeOfInv(ONE_ME, st);
  }
}
