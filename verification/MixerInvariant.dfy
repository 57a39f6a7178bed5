/** What holds of the mixer between any two steps, and why every step of one ME and one keyer keeps it. */
module MixerInvariant {
  import opened Wrappers
  import opened RealMath
  import opened Keyframes
  import opened MixerTypes
  import opened MixerModel
  import Crossfade

  predicate Unit(v: real) {
    0.0 <= v <= 1.0
  }

  predicate FadeOk(f: Fade) {
    Unit(f.gain) && Unit(f.from) && Unit(f.to) && (FadeRuns(f) ==> f.frames >= 1)
  }

  predicate SettingsOk(c: Config, me: int, upstream: bool, s: KeySettings) {
    && Unit(s.clip) && Unit(s.soft) && Unit(s.gain)
    && !(s.luma && s.pip)
    && (s.luma || s.pip ==> c.SourceAllowed(me, s.source))
    && (s.pip ==> s.dme.enabled)
    && (s.dme.enabled ==> upstream)
  }

  /** A keyer that fades with a Mix is heading for the gain of its state; one that flies is heading
      for the last keyframe (on) or keyframe 0 (off); neither has a fade or a fly of its own. */
  predicate TieOk(k: Keyer) {
    && (!k.Tied() ==> !k.tie.atCut)
    && (k.Tied() ==> k.tie.me == k.me && k.upstream)
    && (k.Tied() && !k.tie.atCut ==>
          && !FadeRuns(k.fade) && !k.box.flying && Unit(k.tie.gain0)
          && (!k.tie.fly ==> Unit(k.tie.from) && k.tie.to == OnGain(k.fade.on))
          && (k.tie.fly ==> |k.keyframes| >= 2 && !k.RunsNow() && k.tie.target == FlyTarget(k, k.fade.on)
                            && k.tie.u1 == KeyTime(k.keyframes, k.tie.target)))
  }

  /** A box that counts as on the keyframes' path is where the path is at its u. */
  predicate PathOk(keyframes: seq<Keyframe>, box: DmeSettings, onPath: bool, u: real)
    requires KeyframesOk(keyframes)
  {
    onPath ==> box == PathAt(keyframes, u, box)
  }

  /** A run that leads in from off the path goes on from the time of the keyframe it leads to. */
  predicate LeadOk(keyframes: seq<Keyframe>, run: DmeRun) {
    run.leadFrames > 0 ==> run.u0 == KeyTime(keyframes, run.leadTo)
  }

  predicate KeyOk(c: Config, number: int, k: Keyer) {
    && c.ValidKey(number) && c.keyers[number - 1] == KeyerSpec(k.me, k.upstream) && c.ValidMe(k.me)
    && FadeOk(k.fade) && KeyframesOk(k.keyframes) && (|k.keyframes| > 0 ==> k.upstream)
    && SettingsOk(c, k.me, k.upstream, k.settings)
    && (k.RunsNow() ==> RunOk(k.keyframes, k.box.run) && LeadOk(k.keyframes, k.box.run))
    && PathOk(k.keyframes, k.settings.dme, k.box.onPath, k.box.u)
    && TieOk(k)
  }

  predicate NextOk(c: Config, m: int, next: TransitionSettings) {
    1 <= next.frames <= MAX_FRAMES && c.TiesValid(m, next.ties)
  }

  predicate MeOk(c: Config, m: int, s: Me) {
    && c.SourceAllowed(m, s.program) && c.SourceAllowed(m, s.preview) && c.SourceAllowed(m, s.target)
    && (s.after.Some? ==> c.SourceAllowed(m, s.after.value))
    && !(s.pending && s.mixing)
    && (s.Running() ==> s.frames >= 1)
    && (!s.Running() ==> !s.manual && s.from == 0.0 && s.after.None? && s.sting == NO_STING && !s.waiting)
    && Unit(s.from) && (s.manual ==> s.mixing && s.sting == NO_STING && Unit(s.t) && Unit(s.tLast) && s.from == 0.0)
    && (s.waiting ==> s.pending && s.sting.player > 0)
    && s.sting.player >= 0 && (s.sting.player > 0 ==> s.frames == s.sting.frames && 0 <= s.sting.cut <= s.frames && s.from == 0.0)
    && NextOk(c, m, s.next)
  }

  predicate DeferredOk(c: Config, m: int, d: Deferred) {
    c.SourceAllowed(m, d.target) && (d.preview.Some? ==> c.SourceAllowed(m, d.preview.value)) && 0 <= d.frames <= MAX_FRAMES
  }

  /** A tied keyer's ME has a transition; the keyer waits for a cut point exactly when it is a stinger. */
  predicate Coupled(s: Me, k: Keyer) {
    k.Tied() ==> s.Running() && (k.tie.atCut <==> s.sting.player > 0)
  }

  predicate Shaped(c: Config, st: St) {
    && c.Ok() && |st.me| == |st.deferred| == |st.ftbs| == c.mes && |st.keys| == |c.keyers|
    && (forall k :: 0 <= k < |st.keys| ==> 1 <= st.keys[k].me <= c.mes && 0 <= st.keys[k].tie.me <= c.mes)
  }

  predicate MeAt(c: Config, st: St, m: int)
    requires Shaped(c, st) && 0 <= m < c.mes
  {
    && MeOk(c, m + 1, st.me[m]) && FadeOk(st.ftbs[m])
    && (st.deferred[m].Some? ==> DeferredOk(c, m + 1, st.deferred[m].value))
  }

  predicate KeyAt(c: Config, st: St, k: int)
    requires Shaped(c, st) && 0 <= k < |st.keys|
  {
    KeyOk(c, k + 1, st.keys[k]) && Coupled(st.me[st.keys[k].me - 1], st.keys[k])
  }

  ghost predicate Inv(c: Config, st: St) {
    && Shaped(c, st)
    && (forall m :: 0 <= m < c.mes ==> MeAt(c, st, m))
    && (forall k :: 0 <= k < |st.keys| ==> KeyAt(c, st, k))
  }

  // ---- fades -----------------------------------------------------------------------------------

  lemma Fraction(a: nat, b: int)
    requires a <= b && b >= 1
    ensures 0.0 <= a as real / b as real <= 1.0
    ensures a == b ==> a as real / b as real == 1.0
    ensures a == 0 ==> a as real / b as real == 0.0
  {
    var q := a as real / b as real;
    assert q * b as real == a as real;
    Cancel(0.0, q, b as real);
    Cancel(q, 1.0, b as real);
  }

  /** A fade's gain never leaves [0, 1], and in each of its grains it is the exact share of the way. */
  lemma FadeAdvanceOk(f: Fade, index: nat)
    requires FadeOk(f)
    ensures FadeOk(FadeAdvance(f, index).0)
    ensures FadeAdvance(f, index).0.on == f.on
    ensures !FadeRuns(f) ==> FadeAdvance(f, index) == (f, false)
  {
    if FadeRuns(f) {
      var start := if f.pending then index else f.start;
      var done := Done(start, index);
      if done < f.frames {
        Fraction(done, f.frames);
        MeanStays(f.from, f.to, done as real / f.frames as real, 0.0, 1.0);
      }
    }
  }

  lemma FadeAutoOk(f: Fade, frames: int)
    requires FadeOk(f)
    ensures FadeOk(FadeAuto(f, frames))
  {
  }

  // ---- keyers ----------------------------------------------------------------------------------

  /** On the path at u, at a keyframe's time, and with other settings than the animated ones. */
  lemma PathOkAt(keyframes: seq<Keyframe>, u: real, box: DmeSettings)
    requires KeyframesOk(keyframes)
    ensures PathOk(keyframes, PathAt(keyframes, u, box), true, u)
  {
    if |keyframes| > 0 { PathKeepsTheRest(keyframes, u, PathAt(keyframes, u, box), box); }
  }

  lemma PathOkAtKeyframe(keyframes: seq<Keyframe>, j: nat, box: DmeSettings)
    requires KeyframesOk(keyframes) && j < |keyframes| && box.state == keyframes[j].box.state
    ensures PathOk(keyframes, box, true, KeyTime(keyframes, j))
  {
    PathAtKeyframe(keyframes, j, box);
  }

  lemma PathOkAlike(keyframes: seq<Keyframe>, box: DmeSettings, other: DmeSettings, onPath: bool, u: real)
    requires KeyframesOk(keyframes) && PathOk(keyframes, box, onPath, u) && DmeSameState(other, box)
    ensures PathOk(keyframes, other, onPath, u)
  {
    if |keyframes| > 0 { PathKeepsTheRest(keyframes, u, other, box); }
  }

  /** Wherever a run is, its box is where it says. */
  lemma RunOnPath(keyframes: seq<Keyframe>, run: DmeRun, f: nat, box: DmeSettings)
    requires KeyframesOk(keyframes) && RunOk(keyframes, run) && LeadOk(keyframes, run)
    ensures var s := RunAt(keyframes, run, f, box); PathOk(keyframes, s.box, s.onPath, s.u)
  {
    if run.leadFrames > 0 && f <= run.leadFrames {
      if f == run.leadFrames {
        DivIs(f as real, run.leadFrames as real, 1.0);
        EaseShape(run.leadEase, 1.0, 1.0);
        BetweenEnds(box, run.from, keyframes[run.leadTo].box);
        PathOkAtKeyframe(keyframes, run.leadTo, RunAt(keyframes, run, f, box).box);
      }
    } else {
      PathOkAt(keyframes, RunPosition(keyframes, run, f - run.leadFrames).0, box);
    }
  }

  /** A box set by hand is on the path exactly at a keyframe. */
  lemma PlacedOnPath(k: Keyer)
    requires KeyframesOk(k.keyframes)
    ensures var r := PlaceOnPath(k); PathOk(r.keyframes, r.settings.dme, r.box.onPath, r.box.u)
  {
    var j := KeyframeOf(k.keyframes, k.settings.dme);
    if j >= 0 { PathOkAtKeyframe(k.keyframes, j, k.settings.dme); }
  }

  lemma JumpKeepsOk(c: Config, n: int, k: Keyer, j: int)
    requires KeyOk(c, n, k) && 0 <= j < |k.keyframes| && !k.TiedFly()
    ensures KeyOk(c, n, JumpTo(k, j))
    ensures JumpTo(k, j).fade == k.fade && JumpTo(k, j).tie == k.tie
    ensures JumpTo(k, j).settings == k.settings.(dme := k.settings.dme.(state := k.keyframes[j].box.state))
  {
    hide PathOk, KeyTime;
    BetweenEnds(k.settings.dme, k.keyframes[j].box, k.keyframes[j].box);
    PathOkAtKeyframe(k.keyframes, j, JumpTo(k, j).settings.dme);
  }

  lemma StopRunOk(c: Config, n: int, k: Keyer)
    requires KeyOk(c, n, k)
    ensures KeyOk(c, n, StopRun(k)) && !StopRun(k).TiedFly() && !StopRun(k).RunsNow()
    ensures StopRun(k).Tied() ==> k.Tied() && StopRun(k).tie == k.tie
  {
    hide PathOk, LeadOk;
  }

  lemma StartRunOk(c: Config, n: int, k: Keyer, to: int, loop: Loop, reverse: bool)
    requires KeyOk(c, n, k) && !k.TiedFly() && |k.keyframes| > 0
    ensures KeyOk(c, n, StartRun(k, to, loop, reverse))
  {
    hide PathOk, KeyTime;
  }

  lemma CutKeyOk(c: Config, n: int, k: Keyer, on: bool)
    requires KeyOk(c, n, k)
    ensures KeyOk(c, n, CutKey(k, on))
    ensures !CutKey(k, on).Tied() && CutKey(k, on).fade == FadeSet(k.fade, on)
    ensures CanFly(k) ==> CutKey(k, on).settings == k.settings.(dme := k.settings.dme.(state := k.keyframes[FlyTarget(k, on)].box.state))
  {
    var free := Untie(k);
    if CanFly(free) {
      hide PathOk, LeadOk;
      StopRunOk(c, n, free);
      JumpKeepsOk(c, n, StopRun(free), FlyTarget(free, on));
    }
  }

  lemma TieStartOk(c: Config, n: int, k: Keyer, atCut: bool)
    requires KeyOk(c, n, k) && !k.Tied() && k.upstream
    ensures KeyOk(c, n, TieStart(k, k.me, atCut))
    ensures TieStart(k, k.me, atCut).tie.me == k.me && TieStart(k, k.me, atCut).tie.atCut == atCut
  {
    if !atCut && CanFly(k) {
      var held := k.(fade := k.fade.(on := !k.fade.on, pending := false, running := false),
                     box := k.box.(pending := false, active := false, flying := false));
      JumpKeepsOk(c, n, held, 0);
    }
  }

  lemma TieAdvanceOk(c: Config, n: int, k: Keyer, t: real)
    requires KeyOk(c, n, k) && k.Tied() && !k.tie.atCut && Unit(t)
    ensures KeyOk(c, n, TieAdvance(k, t))
    ensures TieAdvance(k, t).tie == k.tie && TieAdvance(k, t).fade.on == k.fade.on
  {
    if !k.tie.fly {
      MeanStays(k.tie.from, k.tie.to, t, 0.0, 1.0);
    } else if k.tie.onPath {
      PathKeepsTheRest(k.keyframes, TieAt(k.tie.u0, k.tie.u1, t), k.settings.dme, k.settings.dme);
      PathOkAt(k.keyframes, TieAt(k.tie.u0, k.tie.u1, t), k.settings.dme);
    } else if t >= 1.0 {
      var target := k.keyframes[k.tie.target];
      EaseShape(target.ease, 1.0, 1.0);
      BetweenEnds(k.settings.dme, k.tie.box, target.box);
      PathOkAtKeyframe(k.keyframes, k.tie.target, TieAdvance(k, t).settings.dme);
    }
  }

  lemma TieEndOk(c: Config, n: int, k: Keyer, complete: bool)
    requires KeyOk(c, n, k) && k.Tied()
    ensures KeyOk(c, n, TieEnd(k, complete)) && !TieEnd(k, complete).Tied()
  {
    hide PathOk, LeadOk, CutKey;
    if k.tie.atCut {
      if complete { CutKeyOk(c, n, Untie(k), !k.fade.on); }
    } else {
      TieAdvanceOk(c, n, k, if complete then 1.0 else 0.0);
    }
  }

  lemma RunAdvanceOk(c: Config, n: int, k: Keyer, index: nat)
    requires KeyOk(c, n, k)
    ensures KeyOk(c, n, RunAdvance(k, index).0)
    ensures RunAdvance(k, index).0.tie == k.tie && RunAdvance(k, index).0.fade == k.fade && RunAdvance(k, index).0.box.flying == k.box.flying
  {
    if k.RunsNow() {
      var start := if k.box.pending then index else k.box.start;
      RunKeepsTheRest(k.keyframes, k.box.run, Done(start, index), k.settings.dme, k.settings.dme);
      RunOnPath(k.keyframes, k.box.run, Done(start, index), k.settings.dme);
    }
  }

  // ---- one ME in one grain ---------------------------------------------------------------------

  /** What a tied keyer of the ME may count on: it is told when the transition is over. */
  predicate StepFits(s: Me, s': Me, tie: TieStep) {
    && (s'.Running() ==> s.Running() && s'.sting == s.sting && !tie.end && !tie.back)
    && (s.Running() && !s'.Running() ==> if s.sting.player > 0 then tie.cut || tie.end else tie.back || (tie.active && tie.end))
    && (s.sting.player > 0 ==> !tie.active && !tie.back)
    && (tie.cut ==> s.sting.player > 0)
    && (tie.active ==> Unit(tie.t) && (tie.end ==> tie.t == 1.0))
    && (tie.back ==> s.manual && s.t <= 0.0)
  }

  lemma AutoTUnit(s: Me, step: nat)
    requires Unit(s.from) && s.frames >= 1 && step <= s.frames
    ensures s.from <= AutoT(s, step) <= 1.0
    ensures step == 0 ==> AutoT(s, step) == s.from
    ensures step == s.frames ==> AutoT(s, step) == 1.0
  {
    Fraction(step, s.frames);
    MeanStays(s.from, 1.0, step as real / s.frames as real, s.from, 1.0);
  }

  predicate PlanOk(c: Config, m: int, p: MePlan) {
    && p.me == m && c.SourceAllowed(m, p.a) && c.SourceAllowed(m, p.b) && c.SourceAllowed(m, p.preview)
    && Unit(p.t) && Unit(p.tPrev) && Unit(p.ftb) && Unit(p.ftbPrev)
    && (p.wiping ==> p.mixing || p.stinger > 0) && !(p.mixing && p.stinger > 0)
  }

  lemma AwaitOk(c: Config, m: int, s: Me, index: nat, ready: seq<bool>)
    requires MeOk(c, m, s)
    ensures var w := AwaitSting(s, index, ready);
            && MeOk(c, m, w.me)
            && (w.expired ==> s.pending && s.sting.player > 0 && w.me == FinishMix(w.me))
            && (!w.expired ==> w.me.Running() == s.Running() && w.me.sting == s.sting && w.me.mixing == s.mixing && w.me.manual == s.manual && w.me.t == s.t)
            && (w.expired ==> !w.me.Running())
            && w.me.(waiting := false, start := 0) == (if w.expired then FinishMix(s) else s).(waiting := false, start := 0)
  {
  }

  lemma StingProgressOk(c: Config, m: int, s: Me, index: nat)
    requires MeOk(c, m, s) && s.mixing && s.sting.player > 0
    ensures var (me, plan, tie, ended) := Progress(m, s, index, false);
            MeOk(c, m, me) && StepFits(s, me, tie) && PlanOk(c, m, plan) && me.next == s.next
  {
    Crossfade.StingerFadeShape(StingFrame(s, index), s.sting.cut, s.frames);
  }

  lemma AutoProgressOk(c: Config, m: int, s: Me, index: nat)
    requires MeOk(c, m, s) && s.mixing && !s.manual && s.sting.player == 0
    ensures var (me, plan, tie, ended) := Progress(m, s, index, false);
            MeOk(c, m, me) && StepFits(s, me, tie) && PlanOk(c, m, plan) && me.next == s.next
  {
    var step := Min(Done(s.start, index), s.frames);
    AutoTUnit(s, step);
    AutoTUnit(s, step - 1);
  }

  lemma ManualProgressOk(c: Config, m: int, s: Me, index: nat)
    requires MeOk(c, m, s) && s.mixing && s.manual
    ensures var (me, plan, tie, ended) := Progress(m, s, index, false);
            MeOk(c, m, me) && StepFits(s, me, tie) && PlanOk(c, m, plan) && me.next == s.next
  {
  }

  lemma FrameMeOk(c: Config, m: int, s: Me, ftb: Fade, index: nat, ready: seq<bool>)
    requires c.Ok() && MeOk(c, m, s) && FadeOk(ftb)
    ensures var r := FrameMe(m, s, ftb, index, ready);
            MeOk(c, m, r.me) && StepFits(s, r.me, r.tie) && PlanOk(c, m, r.plan) && r.me.next == s.next
  {
    AwaitOk(c, m, s, index, ready);
    var w := AwaitSting(s, index, ready);
    var b := Begin(w.me, index);
    assert MeOk(c, m, b) && b.next == s.next;
    FadeAdvanceOk(ftb, index);
    if b.mixing {
      assert !w.expired && b.sting == s.sting && s.Running();
      if b.manual { ManualProgressOk(c, m, b, index); assert s.manual && s.t == b.t; }
      else if b.sting.player > 0 { StingProgressOk(c, m, b, index); }
      else { AutoProgressOk(c, m, b, index); }
    }
  }

  // ---- one keyer in one grain ------------------------------------------------------------------

  lemma FollowTieOk(c: Config, n: int, s: Me, s': Me, k: Keyer, tie: TieStep)
    requires KeyOk(c, n, k) && Coupled(s, k) && StepFits(s, s', tie)
    ensures var r := FollowTie(k, tie);
            && KeyOk(c, n, r.0)
            && (r.1 ==> r.0.Tied())
            && (r.0.Tied() && !r.1 ==> s'.Running() && r.0.tie == k.tie)
            && (r.0.Tied() ==> r.0.tie == k.tie && r.0.fade.on == k.fade.on)
  {
    hide PathOk, LeadOk, CutKey, TieEnd, TieAdvance;
    if k.Tied() {
      if k.tie.atCut {
        if tie.cut { CutKeyOk(c, n, k, !k.fade.on); }
      } else if tie.back {
        TieEndOk(c, n, k, false);
      } else if tie.active {
        TieAdvanceOk(c, n, k, tie.t);
      }
    }
  }

  lemma FrameKeyOk(c: Config, n: int, s: Me, s': Me, k: Keyer, tie: TieStep, index: nat)
    requires KeyOk(c, n, k) && Coupled(s, k) && StepFits(s, s', tie)
    ensures var r := FrameKey(n, k, tie, index);
            KeyOk(c, n, r.key) && Coupled(s', r.key) && Unit(r.plan.gain) && SettingsOk(c, k.me, k.upstream, r.plan.settings)
  {
    hide PathOk, LeadOk, FollowTie, RunAdvance, TieEnd, FadeAdvance;
    FollowTieOk(c, n, s, s', k, tie);
    var (k1, tieEnded, moved) := FollowTie(k, tie);
    FadeAdvanceOk(k1.fade, index);
    var k1' := k1.(fade := FadeAdvance(k1.fade, index).0);
    RunAdvanceOk(c, n, k1', index);
    var (k2, runEnded) := RunAdvance(k1', index);
    if tieEnded { TieEndOk(c, n, k2, true); }
  }
}
