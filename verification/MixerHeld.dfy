/** Takes held for a grain, a stinger's wait, and what a Cut during a transition does. */
module MixerHeld {
  import opened Wrappers
  import opened RealMath
  import opened Keyframes
  import opened MixerTypes
  import opened MixerModel
  import opened MixerInvariant
  import opened MixerCommands
  import opened MixerTimeline
  import opened MixerEndings
  import MixerTies
  import Visibility

  // ---- held takes --------------------------------------------------------------------------------

  /** An ME without a transition after a take. */
  function TakenMe(s: Me, d: Deferred): Me {
    if d.kind == Stinger && d.sting.player > 0 && d.sting.frames > 0 then
      s.(target := d.target, after := d.preview, frames := d.sting.frames,
         sting := d.sting.(cut := Clamp(d.sting.cut, 0, d.sting.frames)), pending := true)
    else if d.frames == 0 || d.kind == Cut || d.kind == Stinger then
      s.(program := d.target, preview := d.preview.GetOr(s.preview))
    else
      s.(target := d.target, after := d.preview, frames := d.frames, pending := true, wiping := d.kind == Wipe, wipe := s.next.wipe)
  }

  lemma TakeOfMe(st: St, m: nat, d: Deferred)
    requires m < |st.me| && KeysShape(st.keys)
    ensures |MakeTake(st, m + 1, d).me| == |st.me| && MakeTake(st, m + 1, d).me[m] == TakenMe(FinishMix(st.me[m]), d)
  {
  }

  lemma {:induction false} ReleaseOwn(c: Config, st: St, due: seq<Option<Deferred>>, m: nat, stamp: nat, own: nat)
    requires Inv(c, st) && DueOk(c, due) && m <= own < c.mes && due[own].Some?
    ensures |ReleaseFrom(c, st, due, m, stamp).me| == c.mes
    ensures ReleaseFrom(c, st, due, m, stamp).me[own] == TakenMe(FinishMix(st.me[own]), due[own].value).(heldMade := stamp)
    decreases c.mes - m
  {
    if due[m].Some? {
      var d := due[m].value;
      StampedTakeInv(c, st, m, d, stamp);
      MixerTies.TakeIsLocal(c, st, m + 1, d);
      TakeOfMe(st, m, d);
      var r := Stamp(MakeTake(st, m + 1, d), m, stamp);
      if m == own {
        ReleaseLater(c, r, due, m + 1, stamp, own);
      } else {
        ReleaseOwn(c, r, due, m + 1, stamp, own);
      }
    } else {
      ReleaseOwn(c, st, due, m + 1, stamp, own);
    }
  }

  lemma {:induction false} ReleaseLater(c: Config, st: St, due: seq<Option<Deferred>>, m: nat, stamp: nat, own: nat)
    requires Inv(c, st) && DueOk(c, due) && own < m <= c.mes
    ensures |ReleaseFrom(c, st, due, m, stamp).me| == c.mes && ReleaseFrom(c, st, due, m, stamp).me[own] == st.me[own]
    decreases c.mes - m
  {
    hide MakeTake;
    if m < c.mes {
      if due[m].Some? {
        StampedTakeInv(c, st, m, due[m].value, stamp);
        MixerTies.TakeIsLocal(c, st, m + 1, due[m].value);
        ReleaseLater(c, Stamp(MakeTake(st, m + 1, due[m].value), m, stamp), due, m + 1, stamp, own);
      } else {
        ReleaseLater(c, st, due, m + 1, stamp, own);
      }
    }
  }

  /** The state a grain is planned from when ME m + 1's held take is due. */
  lemma HeldMe(c: Config, st: St, m: nat, i: nat)
    requires Inv(c, st) && m < c.mes && st.deferred[m].Some? && st.deferred[m].value.at <= i
    ensures var r := RunHeld(c, st, i, false, None);
            && Inv(c, r) && r.me[m] == TakenMe(FinishMix(st.me[m]), st.deferred[m].value).(heldMade := i)
            && r.deferred[m].None? && r.ftbs[m] == st.ftbs[m]
  {
    ClearedInv(c, st, i, false, None);
    RunHeldInv(c, st, i, false, None);
    ReleaseOwn(c, st.(deferred := StillHeld(st, i, false, None)), DueTakes(st, i, false, None), 0, i, m);
  }

  /** The step of a grain in which ME m + 1's held take is made. */
  lemma HeldStep(c: Config, st: St, m: nat, i: nat, ready: seq<bool>)
    requires Inv(c, st) && m < c.mes && st.deferred[m].Some? && st.deferred[m].value.at <= i
    ensures var s := TakenMe(FinishMix(st.me[m]), st.deferred[m].value).(heldMade := i);
            var (r, plan) := Frame(c, st, i, ready);
            && MeOk(c, m + 1, s) && FadeOk(st.ftbs[m])
            && |r.me| == |r.deferred| == |plan.mes| == c.mes && r.deferred[m].None?
            && r.me[m] == FrameMe(m + 1, s, st.ftbs[m], i, ready).me
            && plan.mes[c.mes - 1 - m] == Visibility.MarkMe(FrameMe(m + 1, s, st.ftbs[m], i, ready).plan, plan.keys)
  {
    HeldMe(c, st, m, i);
    PlanGrainMe(c, RunHeld(c, st, i, false, None), m, i, ready);
  }

  predicate CutLike(d: Deferred) {
    !(d.kind == Stinger && d.sting.player > 0 && d.sting.frames > 0) && (d.frames == 0 || d.kind == Cut || d.kind == Stinger)
  }

  predicate MixLike(d: Deferred) {
    (d.kind == Mix || d.kind == Wipe) && d.frames > 0
  }

  /** What the grain of a held take shows, from the ME as it was before. */
  predicate ShowsTake(before: Me, d: Deferred, p: MePlan) {
    && (CutLike(d) ==> p.a == d.target && p.preview == d.preview.GetOr(EndOf(before).preview) && !p.mixing && p.stinger == 0)
    && (MixLike(d) ==> p.mixing && p.a == EndOf(before).program && p.b == d.target && p.t * d.frames as real == 1.0
                       && p.tPrev == 0.0 && p.wiping == (d.kind == Wipe))
  }

  /** The Mix or Wipe d, from its first grain `at` on. */
  predicate RunsTake(s: Me, d: Deferred, at: nat) {
    s.mixing && !s.pending && !s.manual && s.start == at && s.frames == d.frames && s.from == 0.0 && s.sting.player == 0 && s.target == d.target
  }

  lemma MadeStep(c: Config, m: int, before: Me, s: Me, d: Deferred, f: Fade, i: nat, ready: seq<bool>)
    requires s == TakenMe(FinishMix(before), d).(heldMade := i) && MeOk(c, m, s) && FadeOk(f)
    ensures var r := FrameMe(m, s, f, i, ready);
            && r.me.heldMade == i && ShowsTake(before, d, r.plan)
            && (MixLike(d) && d.frames > 1 ==> RunsTake(r.me, d, i))
  {
  }

  /** Before its grain a held take stays held. */
  lemma HeldTakeWaits(c: Config, st: St, m: nat, i: nat, ready: seq<bool>)
    requires Inv(c, st) && m < c.mes && st.deferred[m].Some? && i < st.deferred[m].value.at
    ensures var r := Frame(c, st, i, ready).0;
            |r.me| == |r.deferred| == c.mes && r.deferred[m] == st.deferred[m] && (!BarAtZero(st.me[m]) ==> EndOf(r.me[m]) == EndOf(st.me[m]))
  {
    OwnGrain(c, st, m, i, ready);
    if !BarAtZero(st.me[m]) { GrainKeepsEnd(c, m + 1, st.me[m], st.ftbs[m], i, ready); }
  }

  /** It is made, once, in the first grain rendered from its own on: a cut shows its target there, a Mix
      or Wipe its first step, both from the Program the transition before ended at. */
  ghost predicate MadeIn(c: Config, st: St, m: nat, i: nat, r: St, plan: FramePlan)
    requires m < |st.me| && m < |st.deferred| && st.deferred[m].Some?
  {
    && |r.me| == |r.deferred| == |plan.mes| == c.mes && m < c.mes
    && r.deferred[m].None? && r.me[m].heldMade == i
    && ShowsTake(st.me[m], st.deferred[m].value, plan.mes[c.mes - 1 - m])
    && (MixLike(st.deferred[m].value) && st.deferred[m].value.frames > 1 ==> RunsTake(r.me[m], st.deferred[m].value, i))
  }

  lemma HeldTakeIsMade(c: Config, st: St, m: nat, i: nat, ready: seq<bool>)
    requires Inv(c, st) && m < c.mes && st.deferred[m].Some? && i >= st.deferred[m].value.at
    ensures MadeIn(c, st, m, i, Frame(c, st, i, ready).0, Frame(c, st, i, ready).1)
  {
    HeldStep(c, st, m, i, ready);
    StepMakes(c, st, m, i, ready, Frame(c, st, i, ready).0, Frame(c, st, i, ready).1);
  }

  lemma StepMakes(c: Config, st: St, m: nat, i: nat, ready: seq<bool>, r: St, plan: FramePlan)
    requires m < |st.me| && m < |st.deferred| && m < |st.ftbs| && st.deferred[m].Some?
    requires var s := TakenMe(FinishMix(st.me[m]), st.deferred[m].value).(heldMade := i);
             && MeOk(c, m + 1, s) && FadeOk(st.ftbs[m])
             && |r.me| == |r.deferred| == |plan.mes| == c.mes && m < c.mes && r.deferred[m].None?
             && r.me[m] == FrameMe(m + 1, s, st.ftbs[m], i, ready).me
             && plan.mes[c.mes - 1 - m] == Visibility.MarkMe(FrameMe(m + 1, s, st.ftbs[m], i, ready).plan, plan.keys)
    ensures MadeIn(c, st, m, i, r, plan)
  {
    var d := st.deferred[m].value;
    MadeStep(c, m + 1, st.me[m], TakenMe(FinishMix(st.me[m]), d).(heldMade := i), d, st.ftbs[m], i, ready);
  }

  lemma TakeClock(c: Config, m: int, s: Me, d: Deferred, at: nat, f: Fade, i: nat, ready: seq<bool>)
    requires MeOk(c, m, s) && FadeOk(f) && RunsTake(s, d, at) && at < i <= at + d.frames - 1
    ensures var r := FrameMe(m, s, f, i, ready);
            && r.plan.t * d.frames as real == (i - at + 1) as real && (r.plan.t == 1.0 <==> i == at + d.frames - 1)
            && if i < at + d.frames - 1 then RunsTake(r.me, d, at) else !r.me.Running() && r.me.program == d.target
  {
    EndsInTime(c, m, s, f, i, ready);
    AutoClock(c, m, s, f, i, ready);
  }

  /** ME m + 1 runs the take, with nothing more held for it. */
  ghost predicate Taking(c: Config, st: St, m: nat, d: Deferred, at: nat) {
    Inv(c, st) && m < c.mes && st.deferred[m].None? && RunsTake(st.me[m], d, at)
  }

  lemma TakingGoesOn(c: Config, st: St, m: nat, d: Deferred, at: nat, i: nat, ready: seq<bool>)
    requires Taking(c, st, m, d, at) && at < i < at + d.frames - 1
    ensures Taking(c, Frame(c, st, i, ready).0, m, d, at)
  {
    FrameInv(c, st, i, ready);
    OwnGrain(c, st, m, i, ready);
    TakeClock(c, m + 1, st.me[m], d, at, st.ftbs[m], i, ready);
  }

  lemma {:induction false} TakingThrough(c: Config, st: St, ticks: seq<Tick>, m: nat, d: Deferred, at: nat)
    requires Taking(c, st, m, d, at)
    requires forall t :: 0 <= t < |ticks| ==> at < ticks[t].index < at + d.frames - 1
    ensures Taking(c, Render(c, st, ticks), m, d, at)
    decreases |ticks|
  {
    if |ticks| > 0 {
      FrameInv(c, st, ticks[0].index, ticks[0].ready);
      TakingGoesOn(c, st, m, d, at, ticks[0].index, ticks[0].ready);
      TakingThrough(c, Frame(c, st, ticks[0].index, ticks[0].ready).0, ticks[1..], m, d, at);
    }
  }

  /** Grain i of the take d that started in grain `at`: its share of the way, and the swap after its last. */
  predicate ShowsTakeAt(me: Me, p: MePlan, d: Deferred, at: nat, i: nat) {
    && at <= i && p.t * d.frames as real == (i - at + 1) as real
    && (p.t == 1.0 <==> i == at + d.frames - 1)
    && (i == at + d.frames - 1 ==> !me.Running() && me.program == d.target)
  }

  lemma TakingShows(c: Config, st: St, m: nat, d: Deferred, at: nat, i: nat, later: seq<bool>)
    requires Taking(c, st, m, d, at) && at < i <= at + d.frames - 1
    ensures var (r, plan) := Frame(c, st, i, later);
            |plan.mes| == |r.me| == c.mes && ShowsTakeAt(r.me[m], plan.mes[c.mes - 1 - m], d, at, i)
  {
    OwnGrain(c, st, m, i, later);
    StepShows(c, m + 1, st.me[m], d, at, st.ftbs[m], i, later, Frame(c, st, i, later).1.mes[c.mes - 1 - m], Frame(c, st, i, later).1.keys);
  }

  lemma StepShows(c: Config, m: int, s: Me, d: Deferred, at: nat, f: Fade, i: nat, ready: seq<bool>, p: MePlan, keys: seq<KeyPlan>)
    requires MeOk(c, m, s) && FadeOk(f) && RunsTake(s, d, at) && at < i <= at + d.frames - 1
    requires p == Visibility.MarkMe(FrameMe(m, s, f, i, ready).plan, keys)
    ensures ShowsTakeAt(FrameMe(m, s, f, i, ready).me, p, d, at, i)
  {
    TakeClock(c, m, s, d, at, f, i, ready);
  }

  /** A held Mix or Wipe of more than one grain starts in the grain it is made in. */
  lemma HeldMixStarts(c: Config, st: St, m: nat, at: nat, ready: seq<bool>)
    requires Inv(c, st) && m < c.mes && st.deferred[m].Some? && MixLike(st.deferred[m].value)
    requires st.deferred[m].value.frames > 1 && at >= st.deferred[m].value.at
    ensures Taking(c, Frame(c, st, at, ready).0, m, st.deferred[m].value, at)
  {
    FrameInv(c, st, at, ready);
    HeldTakeIsMade(c, st, m, at, ready);
  }

  /** A Mix or Wipe of N grains that starts in grain E - N + 1 shows its target in full first in grain E,
      whichever grains in between were rendered, and the buses have swapped after it. */
  lemma TakeEndsOnItsGrain(c: Config, st: St, m: nat, d: Deferred, at: nat, ticks: seq<Tick>, i: nat, later: seq<bool>, E: nat)
    requires Taking(c, st, m, d, at) && at + d.frames == E + 1 && at < i <= E
    requires forall t :: 0 <= t < |ticks| ==> at < ticks[t].index < i
    ensures Inv(c, Render(c, st, ticks))
    ensures var (r, plan) := Frame(c, Render(c, st, ticks), i, later);
            && |plan.mes| == |r.me| == c.mes && ShowsTakeAt(r.me[m], plan.mes[c.mes - 1 - m], d, at, i)
            && (plan.mes[c.mes - 1 - m].t == 1.0 <==> i == E)
  {
    TakingThrough(c, st, ticks, m, d, at);
    TakingShows(c, Render(c, st, ticks), m, d, at, i, later);
  }

  // ---- a stinger's wait ----------------------------------------------------------------------------

  predicate NeverReady(ticks: seq<Tick>, player: int) {
    forall t :: 0 <= t < |ticks| ==> player - 1 < 0 || player - 1 >= |ticks[t].ready| || !ticks[t].ready[player - 1]
  }

  ghost predicate NeverDue(st: St, m: nat, ticks: seq<Tick>) {
    forall t :: 0 <= t < |ticks| ==> NotDue(st, m, ticks[t].index)
  }

  lemma WaitGrain(c: Config, m: int, s: Me, f: Fade, i: nat, ready: seq<bool>)
    requires MeOk(c, m, s) && FadeOk(f) && s.pending && s.sting.player > 0
    requires s.sting.player - 1 >= |ready| || !ready[s.sting.player - 1]
    requires s.waiting ==> s.start <= i
    ensures var first := if s.waiting then s.start else i;
            FrameMe(m, s, f, i, ready).me ==
              if i - first < STINGER_WAIT then s.(waiting := true, start := first) else FinishMix(s).(start := first)
  {
  }

  /** A stinger whose player never gets ready waits, Program unchanged, until the first rendered grain at
      least STINGER_WAIT after the one it began to wait in; there it is a cut. Whatever else the mixer does. */
  lemma {:induction false} StingerWaits(c: Config, st: St, ticks: seq<Tick>, m: nat)
    requires Inv(c, st) && m < c.mes && |ticks| > 0 && NeverDue(st, m, ticks)
    requires var s := st.me[m];
             && s.pending && s.sting.player > 0 && NeverReady(ticks, s.sting.player)
             && (s.waiting ==> s.start <= ticks[0].index)
             && forall t :: 0 <= t < |ticks| - 1 ==> ticks[t].index < (if s.waiting then s.start else ticks[0].index) + STINGER_WAIT
    requires forall t, u :: 0 <= t < u < |ticks| ==> ticks[t].index < ticks[u].index
    ensures |Render(c, st, ticks).me| == c.mes
    ensures var (s, r) := (st.me[m], Render(c, st, ticks).me[m]);
            var first := if s.waiting then s.start else ticks[0].index;
            if ticks[|ticks| - 1].index - first < STINGER_WAIT
            then r == s.(waiting := true, start := first)
            else r == FinishMix(s).(start := first) && r.program == s.target
    decreases |ticks|
  {
    hide Frame, FrameMe, MeOk;
    var (x, ready) := (ticks[0].index, ticks[0].ready);
    FrameInv(c, st, x, ready);
    OwnGrain(c, st, m, x, ready);
    WaitGrain(c, m + 1, st.me[m], st.ftbs[m], x, ready);
    var a := Frame(c, st, x, ready).0;
    if |ticks| > 1 {
      forall t | 0 <= t < |ticks[1..]| ensures NotDue(a, m, ticks[1..][t].index) {
        assert ticks[1..][t] == ticks[t + 1] && NotDue(st, m, ticks[t + 1].index);
      }
      StingerWaits(c, a, ticks[1..], m);
    } else {
      assert Render(c, st, ticks) == a;
    }
  }

  /** It starts in the first rendered grain its player is ready for, with its first frame. */
  lemma StingerStarts(c: Config, m: int, s: Me, f: Fade, i: nat, ready: seq<bool>)
    requires MeOk(c, m, s) && FadeOk(f) && s.pending && s.sting.player > 0
    requires s.sting.player - 1 < |ready| && ready[s.sting.player - 1]
    ensures var r := FrameMe(m, s, f, i, ready);
            && r.plan.stinger == s.sting.player && r.plan.stingerFrame == 0 && r.plan.a == s.program && r.plan.b == s.target
            && r.played == 1 && r.waits == 0 && r.cuts == 0
            && (s.frames > 1 ==> r.me.mixing && r.me.start == i)
  {
  }

  /** Started in grain s it shows frame f in grain s + f, the new background exactly from the cut frame on. */
  lemma StingerClock(c: Config, m: int, s: Me, f: Fade, i: nat, ready: seq<bool>)
    requires MeOk(c, m, s) && FadeOk(f) && s.mixing && s.sting.player > 0 && s.start <= i < s.start + s.frames
    ensures var p := FrameMe(m, s, f, i, ready).plan;
            && p.stingerFrame == i - s.start && p.Background() == (if i - s.start >= s.sting.cut then s.target else s.program)
            && !p.mixing
  {
  }

  // ---- a Cut during a transition -------------------------------------------------------------------

  /** A Cut while a transition runs gives the buses the transition would have ended at exactly when its
      target is still on Preview and what it puts on Preview is on Program. */
  lemma CutEndsItExactly(c: Config, st: St, me: int)
    requires Inv(c, st) && c.ValidMe(me) && st.me[me - 1].Running()
    ensures KeysShape(st.keys)
    ensures var s := st.me[me - 1];
            var r := CutMe(c, st, me);
            && r.1 == Ok && |r.0.me| == c.mes && !r.0.me[me - 1].Running()
            && (EndOf(r.0.me[me - 1]) == EndOf(s) <==>
                  s.preview == s.target && (if s.after.Some? then s.program == s.after.value else s.program == s.preview))
  {
    ShapeOfInv(c, st);
    assert MeAt(c, st, me - 1);
  }

  /** An Auto during which Preview is set: the Cut takes the new Preview, not the Auto's target. */
  lemma CutAfterNewPreview(c: Config, st: St, me: int, a: Source, b: Source, w: Source)
    requires Inv(c, st) && c.ValidMe(me) && !st.me[me - 1].Running()
    requires st.me[me - 1].program == a && st.me[me - 1].preview == b && c.SourceAllowed(me, w) && w != b
    requires st.me[me - 1].next.kind == Mix
    ensures KeysShape(st.keys)
    ensures var auto := Auto(c, st, me, None).0;
            && KeysShape(auto.keys) && |auto.me| == c.mes && auto.me[me - 1].Running() && EndOf(auto.me[me - 1]) == Buses(b, a)
            && var changed := SetPreview(c, auto, me, w).0;
               && KeysShape(changed.keys) && |changed.me| == c.mes && EndOf(changed.me[me - 1]).program == b
               && |CutMe(c, changed, me).0.me| == c.mes && EndOf(CutMe(c, changed, me).0.me[me - 1]) == Buses(w, a)
  {
    ShapeOfInv(c, st);
    assert MeAt(c, st, me - 1);
    AutoInv(c, st, me, None);
    var auto := Auto(c, st, me, None).0;
    ShapeOfInv(c, auto);
    SetPreviewInv(c, auto, me, w);
    ShapeOfInv(c, SetPreview(c, auto, me, w).0);
  }
}
