/** However a transition ends - after its last grain, by a take over it, at a stinger's cut point or after
    its wait - the buses and the tied keyers are the same; and exactly what a T-bar at 0 changes of that. */
module MixerEndings {
  import opened Wrappers
  import opened RealMath
  import opened Keyframes
  import opened MixerTypes
  import opened MixerModel
  import opened MixerInvariant
  import opened MixerCommands
  import MixerTies
  import opened MixerTimeline
  import Visibility

  // ---- the buses ---------------------------------------------------------------------------------

  /** Program and Preview when the ME's transition, if any, is over. */
  datatype Buses = Buses(program: Source, preview: Source)

  function EndOf(s: Me): Buses {
    if s.Running() then Buses(s.target, s.after.GetOr(s.preview)) else Buses(s.program, s.preview)
  }

  /** The T-bar stands at 0: the transition ends without the swap. */
  predicate BarAtZero(s: Me) {
    s.manual && s.t <= 0.0
  }

  lemma GrainKeepsEnd(c: Config, m: int, s: Me, f: Fade, i: nat, ready: seq<bool>)
    requires MeOk(c, m, s) && FadeOk(f) && !BarAtZero(s)
    ensures EndOf(FrameMe(m, s, f, i, ready).me) == EndOf(s) && !BarAtZero(FrameMe(m, s, f, i, ready).me)
    ensures BarAtZero(FrameMe(m, s, f, i, ready).me) ==> s.manual
  {
  }

  /** A transition that has started ends at the latest in the first grain rendered from start + frames - 1
      on, and that grain shows its last step; before that grain it goes on. */
  lemma EndsInTime(c: Config, m: int, s: Me, f: Fade, i: nat, ready: seq<bool>)
    requires MeOk(c, m, s) && FadeOk(f) && s.mixing && !s.manual && i >= s.start
    ensures var r := FrameMe(m, s, f, i, ready);
            && (!r.me.Running() <==> i - s.start + 1 >= s.frames)
            && (!r.me.Running() ==> r.plan.t == 1.0 && (s.sting.player > 0 ==> r.plan.stingerFrame == s.frames - 1))
            && (s.sting.player == 0 ==> (r.plan.t == 1.0 <==> !r.me.Running() || s.from == 1.0))
  {
    hide FadeAdvance;
    if s.sting.player == 0 && i - s.start + 1 < s.frames {
      var step := i - s.start + 1;
      var q := step as real / s.frames as real;
      ShareBelowOne(step as real, s.frames as real);
      var d := (1.0 - s.from) * (1.0 - q);
      assert 1.0 - AutoT(s, step) == d;
      if s.from < 1.0 { Positive(1.0 - s.from, 1.0 - q); }
    }
  }

  lemma Positive(a: real, b: real)
    requires a > 0.0 && b > 0.0
    ensures a * b > 0.0
  {
  }

  /** An Auto from 0 is at the exact share of its grains, whichever of them were rendered. */
  lemma AutoClock(c: Config, m: int, s: Me, f: Fade, i: nat, ready: seq<bool>)
    requires MeOk(c, m, s) && FadeOk(f) && s.mixing && !s.manual && s.sting.player == 0 && s.from == 0.0 && i >= s.start
    ensures var p := FrameMe(m, s, f, i, ready).plan;
            && p.mixing && p.a == s.program && p.b == s.target
            && (i - s.start + 1 < s.frames ==> p.t * s.frames as real == (i - s.start + 1) as real)
            && (i - s.start + 1 >= s.frames ==> p.t == 1.0)
  {
  }

  // ---- one ME's part of a grain --------------------------------------------------------------------

  predicate NotDue(st: St, m: nat, i: nat) {
    m < |st.deferred| && (st.deferred[m].Some? ==> st.deferred[m].value.at > i)
  }

  lemma {:induction false} ReleaseElsewhere(c: Config, st: St, due: seq<Option<Deferred>>, m: nat, stamp: nat, own: nat)
    requires Inv(c, st) && DueOk(c, due) && m <= c.mes && own < c.mes && due[own].None?
    ensures var r := ReleaseFrom(c, st, due, m, stamp);
            && |r.me| == c.mes && |r.keys| == |st.keys| && r.me[own] == st.me[own]
            && forall k :: 0 <= k < |st.keys| && st.keys[k].me == own + 1 ==> r.keys[k] == st.keys[k]
    decreases c.mes - m
  {
    if m < c.mes {
      if due[m].None? {
        ReleaseElsewhere(c, st, due, m + 1, stamp, own);
      } else {
        StampedTakeInv(c, st, m, due[m].value, stamp);
        MixerTies.TakeIsLocal(c, st, m + 1, due[m].value);
        ReleaseElsewhere(c, Stamp(MakeTake(st, m + 1, due[m].value), m, stamp), due, m + 1, stamp, own);
      }
    }
  }

  /** Without a take due the held takes made in a grain leave the ME and its keyers alone. */
  lemma OwnHeld(c: Config, st: St, m: nat, i: nat)
    requires Inv(c, st) && m < c.mes && NotDue(st, m, i)
    ensures var r := RunHeld(c, st, i, false, None);
            && Inv(c, r) && r.me[m] == st.me[m] && r.deferred[m] == st.deferred[m] && r.ftbs[m] == st.ftbs[m]
            && |r.keys| == |st.keys| && forall k :: 0 <= k < |st.keys| && st.keys[k].me == m + 1 ==> r.keys[k] == st.keys[k]
  {
    ClearedInv(c, st, i, false, None);
    RunHeldInv(c, st, i, false, None);
    ReleaseElsewhere(c, st.(deferred := StillHeld(st, i, false, None)), DueTakes(st, i, false, None), 0, i, m);
  }

  lemma MePlansAt(steps: seq<MeStep>, m: nat)
    requires m < |steps|
    ensures |MePlans(steps)| == |steps| && MePlans(steps)[|steps| - 1 - m] == steps[m].plan
  {
  }

  lemma PlanGrainMe(c: Config, st: St, m: nat, i: nat, ready: seq<bool>)
    requires Inv(c, st) && m < c.mes
    ensures Framable(st) && MeOk(c, m + 1, st.me[m]) && FadeOk(st.ftbs[m])
    ensures var (r, plan) := PlanGrain(st, i, ready);
            var step := FrameMe(m + 1, st.me[m], st.ftbs[m], i, ready);
            && |r.me| == |r.ftbs| == |plan.mes| == c.mes && r.me[m] == step.me && r.ftbs[m] == FadeAdvance(st.ftbs[m], i).0
            && r.deferred == st.deferred && plan.mes[c.mes - 1 - m] == step.plan
  {
    hide FrameMe, FrameKey, FadeAdvance;
    FramableOfInv(c, st);
    assert MeAt(c, st, m);
    MePlansAt(MeSteps(st, i, ready), m);
    MeStepsAt(st, i, ready, m);
  }

  /** Without a take due the ME's grain is its own step. */
  lemma OwnGrain(c: Config, st: St, m: nat, i: nat, ready: seq<bool>)
    requires Inv(c, st) && m < c.mes && NotDue(st, m, i)
    ensures MeOk(c, m + 1, st.me[m]) && FadeOk(st.ftbs[m])
    ensures var (r, plan) := Frame(c, st, i, ready);
            var step := FrameMe(m + 1, st.me[m], st.ftbs[m], i, ready);
            && |r.me| == |r.deferred| == |r.ftbs| == |plan.mes| == c.mes
            && r.me[m] == step.me && r.deferred[m] == st.deferred[m] && r.ftbs[m] == FadeAdvance(st.ftbs[m], i).0
            && plan.mes[c.mes - 1 - m] == Visibility.MarkMe(step.plan, plan.keys)
  {
    assert MeAt(c, st, m);
    OwnHeld(c, st, m, i);
    PlanGrainMe(c, RunHeld(c, st, i, false, None), m, i, ready);
  }

  lemma PlanGrainOwnKey(c: Config, st: St, k: nat, i: nat, ready: seq<bool>)
    requires Inv(c, st) && k < |st.keys|
    ensures Framable(st) && KeyAt(c, st, k) && MeAt(c, st, st.keys[k].me - 1)
    ensures var key := st.keys[k];
            var step := FrameKey(k + 1, key, FrameMe(key.me, st.me[key.me - 1], st.ftbs[key.me - 1], i, ready).tie, i);
            var (r, plan) := PlanGrain(st, i, ready);
            |r.keys| == |plan.keys| == |st.keys| && r.keys[k] == step.key && plan.keys[k] == step.plan
  {
    hide FrameMe, FrameKey, PlanGrain, MeSteps;
    assert KeyAt(c, st, k);
    var key := st.keys[k];
    assert MeAt(c, st, key.me - 1);
    MixerTies.PlanGrainKey(c, st, i, ready, k);
    MeStepsAt(st, i, ready, key.me - 1);
    if !key.Tied() {
      UntiedIgnores(k + 1, key, TieStepOf(key, MeSteps(st, i, ready)), MeSteps(st, i, ready)[key.me - 1].tie, i);
    }
  }

  lemma OwnHeldKey(c: Config, st: St, k: nat, i: nat)
    requires Inv(c, st) && k < |st.keys| && NotDue(st, st.keys[k].me - 1, i)
    ensures KeyAt(c, st, k) && MeAt(c, st, st.keys[k].me - 1)
    ensures var (m, r) := (st.keys[k].me - 1, RunHeld(c, st, i, false, None));
            Inv(c, r) && |r.keys| == |st.keys| && r.keys[k] == st.keys[k] && r.me[m] == st.me[m] && r.ftbs[m] == st.ftbs[m]
  {
    hide RunHeld, KeyOk, MeOk;
    assert KeyAt(c, st, k);
    assert MeAt(c, st, st.keys[k].me - 1);
    OwnHeld(c, st, st.keys[k].me - 1, i);
  }

  /** And so is the grain of a keyer on it. */
  lemma OwnKeyGrain(c: Config, st: St, k: nat, i: nat, ready: seq<bool>)
    requires Inv(c, st) && k < |st.keys| && NotDue(st, st.keys[k].me - 1, i)
    ensures KeyAt(c, st, k) && MeAt(c, st, st.keys[k].me - 1)
    ensures var key := st.keys[k];
            var step := FrameKey(k + 1, key, FrameMe(key.me, st.me[key.me - 1], st.ftbs[key.me - 1], i, ready).tie, i);
            var (r, plan) := Frame(c, st, i, ready);
            |r.keys| == |plan.keys| == |st.keys| && r.keys[k] == step.key && plan.keys[k] == step.plan
  {
    hide FrameMe, FrameKey, PlanGrain, RunHeld, Framable;
    OwnHeldKey(c, st, k, i);
    PlanGrainOwnKey(c, RunHeld(c, st, i, false, None), k, i, ready);
  }

  // ---- the keyers --------------------------------------------------------------------------------

  /** Where a tied keyer's box will be, when the transition decides that. */
  function GoalBox(k: Keyer): Option<BoxState>
  {
    if (k.TiedFly() || (k.tie.atCut && CanFly(k))) && |k.keyframes| > 0 then Some(k.keyframes[FlyTarget(k, MixerTies.NetOn(k))].box.state) else None
  }

  /** The keyer is, off its tie, in state `on` at that state's gain, its box at `box` when that is given. */
  predicate Arrived(k: Keyer, on: bool, box: Option<BoxState>) {
    && !k.Tied() && !FadeRuns(k.fade) && k.fade.on == on && k.fade.gain == OnGain(on)
    && (box.Some? ==> !k.RunsNow() && k.settings.dme.state == box.value)
  }

  predicate OnItsWay(c: Config, n: int, k: Keyer, on: bool, box: Option<BoxState>) {
    KeyOk(c, n, k) && k.Tied() && MixerTies.NetOn(k) == on && GoalBox(k) == box
  }

  /** A grain of a run or of a tied fly changes the state of the box and nothing else of the settings. */
  lemma GrainKeepsFly(k: Keyer, i: nat)
    requires KeyShape(k)
    ensures RunAdvance(k, i).0.keyframes == k.keyframes && CanFly(RunAdvance(k, i).0) == CanFly(k)
  {
    if k.RunsNow() {
      var start := if k.box.pending then i else k.box.start;
      RunKeepsTheRest(k.keyframes, k.box.run, Done(start, i), k.settings.dme, k.settings.dme);
    }
  }

  predicate EnRoute(c: Config, n: int, k: Keyer, on: bool, box: Option<BoxState>) {
    OnItsWay(c, n, k, on, box) || Arrived(k, on, box)
  }

  lemma EndArrives(c: Config, n: int, k: Keyer)
    requires KeyOk(c, n, k) && k.Tied()
    ensures Arrived(TieEnd(k, true), MixerTies.NetOn(k), GoalBox(k))
  {
    if k.tie.atCut {
      CutKeyOk(c, n, Untie(k), !k.fade.on);
      if CanFly(k) { StopRunOk(c, n, Untie(k)); }
    } else if k.tie.fly {
      var target := k.tie.target;
      EaseShape(k.keyframes[target].ease, 1.0, 1.0);
      BetweenEnds(k.settings.dme, k.tie.box, k.keyframes[target].box);
      assert TieAt(k.tie.u0, k.tie.u1, 1.0) == k.tie.u1;
      PathAtKeyframe(k.keyframes, target, k.settings.dme);
    }
  }

  lemma CutArrives(c: Config, n: int, k: Keyer)
    requires KeyOk(c, n, k) && k.Tied() && k.tie.atCut
    ensures Arrived(CutKey(k, !k.fade.on), MixerTies.NetOn(k), GoalBox(k)) && KeyOk(c, n, CutKey(k, !k.fade.on))
  {
    CutKeyOk(c, n, k, !k.fade.on);
    if CanFly(k) { StopRunOk(c, n, Untie(k)); }
  }

  lemma ArrivedStays(n: int, k: Keyer, on: bool, box: Option<BoxState>, tie: TieStep, i: nat)
    requires KeyShape(k) && Arrived(k, on, box)
    ensures Arrived(FrameKey(n, k, tie, i).key, on, box)
  {
  }

  /** A step of the way changes neither the goal nor whether the keyer gets there. */
  lemma WayGoesOn(c: Config, n: int, s: Me, s': Me, k: Keyer, on: bool, box: Option<BoxState>, tie: TieStep, i: nat)
    requires OnItsWay(c, n, k, on, box) && Coupled(s, k) && StepFits(s, s', tie) && !tie.back
    ensures OnItsWay(c, n, FrameKey(n, k, tie, i).key, on, box) || Arrived(FrameKey(n, k, tie, i).key, on, box)
  {
    FrameKeyOk(c, n, s, s', k, tie, i);
    if k.tie.atCut && tie.cut {
      CutStep(c, n, k, tie, i);
      CutArrives(c, n, k);
      ArrivedStays(n, CutKey(k, !k.fade.on), on, box, tie, i);
    } else if k.tie.atCut {
      WaitStep(c, n, k, tie, i);
      FadeAdvanceOk(k.fade, i);
      WaitingOk(c, n, k, i);
      GrainKeepsFly(k.(fade := FadeAdvance(k.fade, i).0), i);
      var (k2, runEnded) := RunAdvance(k.(fade := FadeAdvance(k.fade, i).0), i);
      SettleGoal(c, n, k, k2, tie.end, runEnded, on, box);
    } else {
      FollowedGoal(c, n, k, tie, i, on, box);
    }
  }

  lemma SettleGoal(c: Config, n: int, k: Keyer, k2: Keyer, tieEnded: bool, runEnded: bool, on: bool, box: Option<BoxState>)
    requires OnItsWay(c, n, k, on, box) && KeyOk(c, n, k2) && k2.Tied()
    requires k2.tie == k.tie && k2.fade.on == k.fade.on && k2.keyframes == k.keyframes && (k.tie.atCut ==> CanFly(k2) == CanFly(k))
    ensures var r := SettleKey(k2, tieEnded, runEnded);
            if tieEnded then Arrived(r, on, box) else r.Tied() && MixerTies.NetOn(r) == on && GoalBox(r) == box
  {
    if tieEnded {
      EndArrives(c, n, k2);
    }
  }

  lemma FollowedGoal(c: Config, n: int, k: Keyer, tie: TieStep, i: nat, on: bool, box: Option<BoxState>)
    requires OnItsWay(c, n, k, on, box) && !k.tie.atCut && !tie.back && (tie.active ==> Unit(tie.t))
    ensures var r := FrameKey(n, k, tie, i).key; (r.Tied() && MixerTies.NetOn(r) == on && GoalBox(r) == box) || Arrived(r, on, box)
  {
    var k1 := FollowTie(k, tie).0;
    if tie.active { TieAdvanceOk(c, n, k, tie.t); }
    assert !FadeRuns(k1.fade);
    RunAdvanceOk(c, n, k1, i);
    GrainKeepsFly(k1, i);
    var (k2, runEnded) := RunAdvance(k1, i);
    assert k1.(fade := FadeAdvance(k1.fade, i).0) == k1;
    SettleGoal(c, n, k, k2, FollowTie(k, tie).1, runEnded, on, box);
  }

  // ---- any way to the end --------------------------------------------------------------------------

  /** Nothing is held for ME m + 1, and its T-bar does not stand at 0. */
  predicate LeftAlone(st: St, m: nat) {
    m < |st.me| == |st.deferred| && st.deferred[m].None? && !BarAtZero(st.me[m])
  }

  lemma LeftAloneStays(c: Config, st: St, m: nat, i: nat, ready: seq<bool>)
    requires Inv(c, st) && m < c.mes && LeftAlone(st, m)
    ensures LeftAlone(Frame(c, st, i, ready).0, m) && EndOf(Frame(c, st, i, ready).0.me[m]) == EndOf(st.me[m])
  {
    OwnGrain(c, st, m, i, ready);
    GrainKeepsEnd(c, m + 1, st.me[m], st.ftbs[m], i, ready);
  }

  /** Any grains leave the buses an ME will end at alone; when its transition is over it is there. */
  lemma {:induction false} BusesArrive(c: Config, st: St, ticks: seq<Tick>, m: nat)
    requires Inv(c, st) && m < c.mes && LeftAlone(st, m)
    ensures m < |Render(c, st, ticks).me| && EndOf(Render(c, st, ticks).me[m]) == EndOf(st.me[m])
    decreases |ticks|
  {
    if |ticks| > 0 {
      LeftAloneStays(c, st, m, ticks[0].index, ticks[0].ready);
      FrameInv(c, st, ticks[0].index, ticks[0].ready);
      BusesArrive(c, Frame(c, st, ticks[0].index, ticks[0].ready).0, ticks[1..], m);
    }
  }

  lemma KeyStepArrives(c: Config, n: int, s: Me, f: Fade, k: Keyer, i: nat, ready: seq<bool>, on: bool, box: Option<BoxState>)
    requires c.Ok() && KeyOk(c, n, k) && MeOk(c, k.me, s) && FadeOk(f) && Coupled(s, k) && !BarAtZero(s) && EnRoute(c, n, k, on, box)
    ensures EnRoute(c, n, FrameKey(n, k, FrameMe(k.me, s, f, i, ready).tie, i).key, on, box)
  {
    var step := FrameMe(k.me, s, f, i, ready);
    FrameMeOk(c, k.me, s, f, i, ready);
    if k.Tied() {
      WayGoesOn(c, n, s, step.me, k, on, box, step.tie, i);
    } else {
      ArrivedStays(n, k, on, box, step.tie, i);
    }
  }

  lemma OwnStepArrives(c: Config, st: St, i: nat, ready: seq<bool>, k: nat, on: bool, box: Option<BoxState>)
    requires Inv(c, st) && k < |st.keys| && LeftAlone(st, st.keys[k].me - 1) && EnRoute(c, k + 1, st.keys[k], on, box)
    ensures KeyAt(c, st, k) && MeAt(c, st, st.keys[k].me - 1)
    ensures var m := st.keys[k].me - 1;
            EnRoute(c, k + 1, FrameKey(k + 1, st.keys[k], FrameMe(m + 1, st.me[m], st.ftbs[m], i, ready).tie, i).key, on, box)
  {
    assert KeyAt(c, st, k);
    var m := st.keys[k].me - 1;
    assert MeAt(c, st, m);
    KeyStepArrives(c, k + 1, st.me[m], st.ftbs[m], st.keys[k], i, ready, on, box);
  }

  lemma KeyGrainArrives(c: Config, st: St, i: nat, ready: seq<bool>, k: nat, on: bool, box: Option<BoxState>)
    requires Inv(c, st) && k < |st.keys| && LeftAlone(st, st.keys[k].me - 1) && EnRoute(c, k + 1, st.keys[k], on, box)
    ensures var r := Frame(c, st, i, ready).0; |r.keys| == |st.keys| && EnRoute(c, k + 1, r.keys[k], on, box)
  {
    OwnStepArrives(c, st, i, ready, k, on, box);
    OwnKeyGrain(c, st, k, i, ready);
  }

  /** Keyer k gets, or has got, to its goal, and nothing of its ME is held or goes back. */
  ghost predicate Going(c: Config, st: St, k: nat, on: bool, box: Option<BoxState>) {
    && Inv(c, st) && k < |st.keys| && LeftAlone(st, st.keys[k].me - 1)
    && EnRoute(c, k + 1, st.keys[k], on, box)
  }

  lemma HomeStays(c: Config, st: St, r: St, i: nat, ready: seq<bool>, k: nat)
    requires Inv(c, st) && Inv(c, r) && k < |st.keys| && LeftAlone(st, st.keys[k].me - 1) && r == Frame(c, st, i, ready).0
    ensures k < |r.keys| && LeftAlone(r, r.keys[k].me - 1)
  {
    SameOwner(c, st, r, k);
    LeftAloneStays(c, st, st.keys[k].me - 1, i, ready);
  }

  lemma GoingOn(c: Config, st: St, r: St, i: nat, ready: seq<bool>, k: nat, on: bool, box: Option<BoxState>)
    requires Going(c, st, k, on, box) && Inv(c, r) && r == Frame(c, st, i, ready).0
    ensures Going(c, r, k, on, box)
  {
    HomeStays(c, st, r, i, ready, k);
    KeyGrainArrives(c, st, i, ready, k, on, box);
  }

  lemma {:induction false} KeyersArrive(c: Config, st: St, ticks: seq<Tick>, k: nat, on: bool, box: Option<BoxState>)
    requires Going(c, st, k, on, box)
    ensures Going(c, Render(c, st, ticks), k, on, box)
    decreases |ticks|
  {
    if |ticks| > 0 {
      FrameInv(c, st, ticks[0].index, ticks[0].ready);
      GoingOn(c, st, Frame(c, st, ticks[0].index, ticks[0].ready).0, ticks[0].index, ticks[0].ready, k, on, box);
      KeyersArrive(c, Frame(c, st, ticks[0].index, ticks[0].ready).0, ticks[1..], k, on, box);
    }
  }

  lemma SameOwner(c: Config, a: St, b: St, k: nat)
    requires Inv(c, a) && Inv(c, b) && k < |a.keys|
    ensures |b.keys| == |a.keys| && b.keys[k].me == a.keys[k].me && 1 <= a.keys[k].me <= c.mes
  {
    assert KeyAt(c, a, k) && KeyAt(c, b, k);
  }

  /** Ending ME m + 1's transition now, as a take or a Cut over it does, gives the same buses as rendering
      any grains, in any rhythm, until it is over. */
  lemma EarlyEndSwapsAlike(c: Config, st: St, ticks: seq<Tick>, m: nat)
    requires Inv(c, st) && m < c.mes && LeftAlone(st, m)
    ensures KeysShape(st.keys) && m < |Render(c, st, ticks).me|
    ensures var (late, early) := (Render(c, st, ticks).me[m], EndTransition(st, m + 1).me[m]);
            !late.Running() ==> late.program == early.program && late.preview == early.preview
  {
    ShapeOfInv(c, st);
    BusesArrive(c, st, ticks, m);
  }

  /** And every keyer tied to it, which a new Program completes too, the same state and gain, and the same keyframe when it flies with it. */
  lemma EarlyEndTiesAlike(c: Config, st: St, ticks: seq<Tick>, k: nat)
    requires Inv(c, st) && k < |st.keys| && st.keys[k].Tied() && LeftAlone(st, st.keys[k].me - 1)
    ensures KeysShape(st.keys) && k < |Render(c, st, ticks).keys|
    ensures var (late, early) := (Render(c, st, ticks).keys[k], EndTransition(st, st.keys[k].me).keys[k]);
            var (on, box) := (MixerTies.NetOn(st.keys[k]), GoalBox(st.keys[k]));
            Arrived(early, on, box) && (!late.Tied() ==> Arrived(late, on, box))
  {
    ShapeOfInv(c, st);
    assert KeyAt(c, st, k);
    KeyersArrive(c, st, ticks, k, MixerTies.NetOn(st.keys[k]), GoalBox(st.keys[k]));
    EndArrives(c, k + 1, st.keys[k]);
  }

  // ---- a T-bar at 0 --------------------------------------------------------------------------------

  /** With the T-bar at 0 the next grain goes back, and ending the transition now does not: the two give the
      same Program exactly when the target is on Program already, and the same Preview exactly when what
      the transition puts on Preview is there already. */
  lemma BarAtZeroGoesBack(c: Config, st: St, m: nat, i: nat, ready: seq<bool>)
    requires Inv(c, st) && m < c.mes && NotDue(st, m, i) && BarAtZero(st.me[m])
    ensures KeysShape(st.keys) && |Frame(c, st, i, ready).0.me| == c.mes
    ensures var (s, late, early) := (st.me[m], Frame(c, st, i, ready).0.me[m], EndTransition(st, m + 1).me[m]);
            && late.program == s.program && late.preview == s.preview && !late.Running() && !early.Running()
            && (late.program == early.program <==> s.target == s.program)
            && (late.preview == early.preview <==> s.after.GetOr(s.preview) == s.preview)
  {
    ShapeOfInv(c, st);
    OwnGrain(c, st, m, i, ready);
  }

  /** And a keyer tied to it always ends in the other state: off where it would be on, and on where off. */
  lemma BarAtZeroLeavesKeys(c: Config, st: St, k: nat, i: nat, ready: seq<bool>)
    requires Inv(c, st) && k < |st.keys| && st.keys[k].Tied() && NotDue(st, st.keys[k].me - 1, i)
    requires BarAtZero(st.me[st.keys[k].me - 1])
    ensures KeysShape(st.keys) && |Frame(c, st, i, ready).0.keys| == |st.keys|
    ensures var (late, early) := (Frame(c, st, i, ready).0.keys[k], EndTransition(st, st.keys[k].me).keys[k]);
            && !late.Tied() && !early.Tied() && early.fade.on == MixerTies.NetOn(st.keys[k]) && late.fade.on == !early.fade.on
            && late.fade.gain == st.keys[k].tie.gain0 && early.fade.gain == OnGain(early.fade.on)
  {
    hide FrameMe, FrameKey, Frame;
    ShapeOfInv(c, st);
    OwnKeyGrain(c, st, k, i, ready);
    var (key, m) := (st.keys[k], st.keys[k].me - 1);
    BarBack(c, m + 1, st.me[m], st.ftbs[m], i, ready);
    EndArrives(c, k + 1, key);
    BackOfTie(c, k + 1, key, FrameMe(m + 1, st.me[m], st.ftbs[m], i, ready).tie, i);
  }

  lemma BarBack(c: Config, m: int, s: Me, f: Fade, i: nat, ready: seq<bool>)
    requires MeOk(c, m, s) && FadeOk(f) && BarAtZero(s)
    ensures FrameMe(m, s, f, i, ready).tie.back
  {
  }

  lemma BackOfTie(c: Config, n: int, k: Keyer, tie: TieStep, i: nat)
    requires KeyOk(c, n, k) && k.Tied() && !k.tie.atCut && tie.back
    ensures var r := FrameKey(n, k, tie, i).key;
            !r.Tied() && r.fade.on == !MixerTies.NetOn(k) && r.fade.gain == k.tie.gain0
  {
    TieEndOk(c, n, k, false);
    RunAdvanceOk(c, n, TieEnd(k, false), i);
  }

  /** Such a state: the lever goes up and back to 0 before the next grain. That grain leaves input 1 on
      Program; a take before it starts from input 2 there. */
  const UP_AND_BACK: seq<Event> := [EvPosition(1, 0.5), EvPosition(1, 0.0)]

  lemma LeverUp(st: St)
    requires Inv(MixerTies.ONE_ME, st) && st == Initial(MixerTies.ONE_ME)
    ensures var r := Apply(MixerTies.ONE_ME, st, EvPosition(1, 0.5));
            && |r.me| == 1 && r.me[0].mixing && r.me[0].manual && r.me[0].program == Input(1) && r.me[0].target == Input(2)
            && r.deferred == [None]
  {
    hide Inv, KeyShape;
    ShapeOfInv(MixerTies.ONE_ME, st);
  }

  lemma LeverBack(st: St)
    requires Inv(MixerTies.ONE_ME, st) && |st.me| == 1 && st.me[0].mixing && !st.me[0].pending && st.me[0].manual
    ensures Apply(MixerTies.ONE_ME, st, EvPosition(1, 0.0)) == st.(me := [st.me[0].(t := 0.0)])
  {
    hide Inv, KeyShape;
    ShapeOfInv(MixerTies.ONE_ME, st);
  }

  lemma LeverUpAndBack(i: nat, ready: seq<bool>)
    ensures Inv(MixerTies.ONE_ME, Initial(MixerTies.ONE_ME))
    ensures var st := Run(MixerTies.ONE_ME, Initial(MixerTies.ONE_ME), UP_AND_BACK);
            && Inv(MixerTies.ONE_ME, st) && KeysShape(st.keys) && |Frame(MixerTies.ONE_ME, st, i, ready).0.me| == 1
            && Frame(MixerTies.ONE_ME, st, i, ready).0.me[0].program == Input(1)
            && EndTransition(st, 1).me[0].program == Input(2)
  {
    var c := MixerTies.ONE_ME;
    InitialInv(c);
    var (st, up, back) := (Initial(c), EvPosition(1, 0.5), EvPosition(1, 0.0));
    ApplyInv(c, st, up);
    var a := Apply(c, st, up);
    LeverUp(st);
    assert MeAt(c, a, 0);
    hide Inv, Frame, KeyShape, Apply;
    ApplyInv(c, a, back);
    LeverBack(a);
    assert UP_AND_BACK[1..] == [back] && [back][1..] == [];
    assert Run(c, st, UP_AND_BACK) == Run(c, a, [back]) == Apply(c, a, back);
    ShapeOfInv(c, Apply(c, a, back));
    BarAtZeroGoesBack(c, Apply(c, a, back), 0, i, ready);
  }
}
