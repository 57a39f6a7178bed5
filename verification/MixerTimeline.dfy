/** Why plans follow the grain index: what one ME, fade, run or keyer does in a grain does not depend on
    an earlier grain it is inside of. */
module MixerTimeline {
  import opened Wrappers
  import opened Keyframes
  import opened MixerTypes
  import opened MixerModel
  import opened MixerInvariant
  import opened MixerCommands
  import Visibility

  // ---- one ME, one fade, one run, one keyer ------------------------------------------------------

  /** Grain j is not the last of the ME's transition, which has started and is no T-bar's. */
  predicate MeInside(s: Me, j: nat) {
    !s.pending && !s.manual && (s.mixing ==> j >= s.start && j - s.start + 1 < s.frames)
  }

  lemma MeSkips(c: Config, m: int, s: Me, f: Fade, g: Fade, j: nat, i: nat, ready: seq<bool>, later: seq<bool>)
    requires MeOk(c, m, s) && FadeOk(f) && FadeOk(g) && MeInside(s, j) && j < i
    ensures var r := FrameMe(m, s, f, j, ready).me;
            && MeOk(c, m, r) && FrameMe(m, r, g, i, later).me == FrameMe(m, s, g, i, later).me
            && FrameMe(m, r, g, i, later).plan == FrameMe(m, s, g, i, later).plan
            && FrameMe(m, r, g, i, later).tie == FrameMe(m, s, g, i, later).tie
            && !FrameMe(m, s, f, j, ready).tie.end && !FrameMe(m, s, f, j, ready).tie.back
            && r == s.(position := r.position)
  {
    hide Progress, FadeAdvance;
    ProgressSkips(c, m, s, j, i);
  }

  lemma ProgressSkips(c: Config, m: int, s: Me, j: nat, i: nat)
    requires MeOk(c, m, s) && MeInside(s, j) && j < i
    ensures var (r, plan, tie, ended) := Progress(m, s, j, false);
            && MeOk(c, m, r) && r == s.(position := r.position) && !tie.end && !tie.back
            && Progress(m, r, i, false) == Progress(m, s, i, false)
  {
    hide Crossfade.StingerFadeT;
    var (r, plan, tie, ended) := Progress(m, s, j, false);
    assert MeOk(c, m, r);
    assert r == s.(position := r.position) && !tie.end && !tie.back;
    assert Progress(m, r, i, false).0 == Progress(m, s, i, false).0;
    assert Progress(m, r, i, false).1 == Progress(m, s, i, false).1;
    assert Progress(m, r, i, false).2 == Progress(m, s, i, false).2;
  }

  lemma FadeSkips(f: Fade, j: nat, i: nat)
    requires FadeOk(f) && !f.pending && j <= i
    ensures FadeOk(FadeAdvance(f, j).0) && FadeAdvance(FadeAdvance(f, j).0, i).0 == FadeAdvance(f, i).0
    ensures !FadeAdvance(f, j).0.pending
  {
    FadeAdvanceOk(f, j);
  }

  /** Grain j is not the last of the keyer's own run, which has started. */
  predicate RunInside(k: Keyer, j: nat)
    requires KeyShape(k)
  {
    !k.box.pending && (k.box.active ==> !RunAdvance(k, j).1)
  }

  lemma RunSkips(k: Keyer, f: Fade, g: Fade, j: nat, i: nat)
    requires KeyShape(k) && RunInside(k, j) && (FadeRuns(f) ==> f.frames >= 1) && (FadeRuns(g) ==> g.frames >= 1)
    ensures var r := RunAdvance(k.(fade := f), j).0;
            && KeyShape(r) && r == k.(fade := f, settings := r.settings, box := r.box)
            && r.settings == k.settings.(dme := k.settings.dme.(state := r.settings.dme.state))
            && r.box.pending == k.box.pending && r.box.active == k.box.active && r.box.flying == k.box.flying
            && (!k.RunsNow() ==> r.box == k.box && r.settings == k.settings)
            && RunAdvance(r.(fade := g), i) == RunAdvance(k.(fade := g), i)
  {
    if k.RunsNow() {
      var b := RunAdvance(k, j).0.settings.dme;
      RunKeepsTheRest(k.keyframes, k.box.run, Done(k.box.start, j), k.settings.dme, k.settings.dme);
      RunKeepsTheRest(k.keyframes, k.box.run, Done(k.box.start, i), k.settings.dme, k.settings.dme);
      RunKeepsTheRest(k.keyframes, k.box.run, Done(k.box.start, i), b, k.settings.dme);
    }
  }

  /** The same keyer but for the step number left over from a run that was stopped. */
  predicate SameKey(k: Keyer, k': Keyer) {
    k.(box := k.box.(step := 0)) == k'.(box := k'.box.(step := 0))
  }

  /** Grain i shows the same and leaves the same keyer from r as from k. */
  predicate SameStep(r: KeyStep, s: KeyStep) {
    SameKey(r.key, s.key) && r.plan == s.plan
  }

  lemma UntiedSkips(c: Config, n: int, k: Keyer, tj: TieStep, ti: TieStep, j: nat, i: nat)
    requires KeyOk(c, n, k) && !k.Tied() && !k.fade.pending && RunInside(k, j) && j <= i
    ensures KeyShape(FrameKey(n, k, tj, j).key) && SameStep(FrameKey(n, FrameKey(n, k, tj, j).key, ti, i), FrameKey(n, k, ti, i))
  {
    FadeSkips(k.fade, j, i);
    FadeAdvanceOk(k.fade, i);
    RunSkips(k, FadeAdvance(k.fade, j).0, FadeAdvance(k.fade, i).0, j, i);
  }

  /** Following a transition to t and then to u is following it to u. */
  lemma AdvanceTwice(k: Keyer, t: real, u: real)
    requires KeyShape(k) && k.TiedFly()
    ensures KeyframesOk(TieAdvance(k, t).keyframes) && TieAdvance(k, t).tie == k.tie
    ensures TieAdvance(TieAdvance(k, t), u) == TieAdvance(k, u)
  {
    var a, b := TieAt(k.tie.u0, k.tie.u1, t), TieAt(k.tie.u0, k.tie.u1, u);
    PathKeepsTheRest(k.keyframes, a, k.settings.dme, k.settings.dme);
    PathKeepsTheRest(k.keyframes, b, k.settings.dme, k.settings.dme);
    PathKeepsTheRest(k.keyframes, b, TieAdvance(k, t).settings.dme, k.settings.dme);
  }

  predicate Follows(tie: TieStep) {
    tie.active && !tie.back
  }

  /** A tied fly has nothing else that moves. */
  lemma FlyStep(c: Config, n: int, k: Keyer, tie: TieStep, i: nat)
    requires KeyOk(c, n, k) && k.TiedFly() && Follows(tie)
    ensures KeyShape(TieAdvance(k, tie.t)) && TieAdvance(k, tie.t).tie == k.tie
    ensures FrameKey(n, k, tie, i).key == SettleKey(TieAdvance(k, tie.t), tie.end, false)
    ensures FrameKey(n, k, tie, i).plan == KeyPlan(n, k.me, k.upstream, 1.0, TieAdvance(k, tie.t).settings)
  {
  }

  lemma TiedFlySkips(c: Config, n: int, k: Keyer, tj: TieStep, ti: TieStep, j: nat, i: nat)
    requires KeyOk(c, n, k) && k.TiedFly() && Follows(tj) && !tj.end && Follows(ti) && Unit(tj.t)
    ensures KeyShape(FrameKey(n, k, tj, j).key) && SameStep(FrameKey(n, FrameKey(n, k, tj, j).key, ti, i), FrameKey(n, k, ti, i))
  {
    TieAdvanceOk(c, n, k, tj.t);
    AdvanceTwice(k, tj.t, ti.t);
    FlyStep(c, n, k, tj, j);
    FlyStep(c, n, k, ti, i);
    FlyStep(c, n, TieAdvance(k, tj.t), ti, i);
  }

  lemma TiedFadeSkips(c: Config, n: int, k: Keyer, tj: TieStep, ti: TieStep, j: nat, i: nat)
    requires KeyOk(c, n, k) && k.Tied() && !k.tie.atCut && !k.tie.fly && RunInside(k, j)
    requires Follows(tj) && !tj.end && Follows(ti)
    ensures KeyShape(FrameKey(n, k, tj, j).key) && SameStep(FrameKey(n, FrameKey(n, k, tj, j).key, ti, i), FrameKey(n, k, ti, i))
  {
    var f, g := TieAdvance(k, tj.t).fade, TieAdvance(k, ti.t).fade;
    RunSkips(k, f, g, j, i);
    var r := RunAdvance(k.(fade := f), j).0;
    assert FrameKey(n, k, tj, j).key == r;
    assert TieAdvance(r, ti.t) == r.(fade := g);
  }

  /** Cutting does not care how far the keyer's own fade and run have come. */
  lemma CutFlyAfter(c: Config, n: int, k: Keyer, r: Keyer)
    requires KeyOk(c, n, k) && CanFly(k)
    requires r == k.(fade := r.fade, settings := k.settings.(dme := r.settings.dme), box := r.box) && !k.TiedFly()
    requires r.fade == k.fade.(running := r.fade.running, gain := r.fade.gain) && r.settings.dme == k.settings.dme.(state := r.settings.dme.state)
    requires r.box.run == k.box.run && r.box.start == k.box.start
    ensures SameKey(CutKey(r, !r.fade.on), CutKey(k, !k.fade.on)) && !CutKey(r, !r.fade.on).RunsNow() && !CutKey(k, !k.fade.on).RunsNow()
  {
    hide CutKey, DmeBetween, KeyTime;
    var to := k.keyframes[FlyTarget(k, !k.fade.on)].box;
    BetweenEnds(k.settings.dme, to, to);
    BetweenEnds(r.settings.dme, to, to);
    FlyCut(k, !k.fade.on);
    FlyCut(r, !k.fade.on);
  }

  /** A cut of a keyer that flies: its run is gone and its box jumps to the end of its path. */
  lemma FlyCut(k: Keyer, on: bool)
    requires CanFly(k) && !k.TiedFly()
    ensures var to := FlyTarget(k, on);
            CutKey(k, on) == Untie(k).(fade := FadeSet(k.fade, on), settings := k.settings.(dme := DmeWithState(k.settings.dme, k.keyframes[to].box)),
                                       box := k.box.(pending := false, active := false, flying := false, onPath := true, u := KeyTime(k.keyframes, to), keyframe := to))
  {
    hide KeyTime, DmeBetween, DmeWithState;
  }

  lemma CutAfter(c: Config, n: int, k: Keyer, f: Fade, j: nat, i: nat)
    requires KeyOk(c, n, k) && RunInside(k, j) && FadeOk(f) && k.Tied() && k.tie.atCut
    requires f == k.fade.(running := f.running, gain := f.gain)
    ensures var r := RunAdvance(k.(fade := f), j).0;
            && KeyShape(r) && KeyShape(CutKey(r, !r.fade.on)) && KeyShape(CutKey(k, !k.fade.on))
            && RunAdvance(CutKey(r, !r.fade.on), i).1 == RunAdvance(CutKey(k, !k.fade.on), i).1
            && SameKey(RunAdvance(CutKey(r, !r.fade.on), i).0, RunAdvance(CutKey(k, !k.fade.on), i).0)
  {
    CutKeyOk(c, n, k, !k.fade.on);
    var g := FadeSet(k.fade, !k.fade.on);
    RunSkips(k, f, g, j, i);
    var r := RunAdvance(k.(fade := f), j).0;
    if CanFly(k) {
      CutFlyAfter(c, n, k, r);
    } else {
      UntieKeepsRun(k, g, i);
      UntieKeepsRun(r, g, i);
    }
  }

  lemma UntieKeepsRun(k: Keyer, g: Fade, i: nat)
    requires KeyShape(k) && (FadeRuns(g) ==> g.frames >= 1) && !k.TiedFly()
    ensures KeyShape(Untie(k).(fade := g))
    ensures RunAdvance(Untie(k).(fade := g), i) == (Untie(RunAdvance(k.(fade := g), i).0), RunAdvance(k.(fade := g), i).1)
  {
  }

  lemma CutStep(c: Config, n: int, k: Keyer, tie: TieStep, i: nat)
    requires KeyOk(c, n, k) && k.Tied() && k.tie.atCut && tie.cut
    ensures var cut := CutKey(k, !k.fade.on);
            && KeyOk(c, n, cut) && !cut.Tied() && !cut.fade.pending
            && FrameKey(n, k, tie, i).key == FrameKey(n, cut, tie, i).key && FrameKey(n, k, tie, i).plan == FrameKey(n, cut, tie, i).plan
  {
    CutKeyOk(c, n, k, !k.fade.on);
  }

  lemma WaitStep(c: Config, n: int, k: Keyer, tie: TieStep, i: nat)
    requires KeyOk(c, n, k) && k.Tied() && k.tie.atCut && !tie.cut
    ensures var (k2, runEnded) := RunAdvance(k.(fade := FadeAdvance(k.fade, i).0), i);
            && KeyShape(k2) && k2.tie == k.tie
            && FrameKey(n, k, tie, i).key == SettleKey(k2, tie.end, runEnded)
            && FrameKey(n, k, tie, i).plan == KeyPlan(n, k2.me, k2.upstream, k2.fade.gain, k2.settings)
  {
    FadeAdvanceOk(k.fade, i);
    RunAdvanceOk(c, n, k.(fade := FadeAdvance(k.fade, i).0), i);
  }

  /** The keyer after a grain in which it goes on waiting. */
  function Waited(k: Keyer, j: nat): Keyer
    requires KeyShape(k)
  {
    RunAdvance(k.(fade := FadeAdvance(k.fade, j).0), j).0
  }

  lemma WaitedStep(c: Config, n: int, k: Keyer, tie: TieStep, j: nat)
    requires KeyOk(c, n, k) && k.Tied() && k.tie.atCut && RunInside(k, j) && !tie.end && !tie.cut
    ensures FrameKey(n, k, tie, j).key == Waited(k, j) && KeyOk(c, n, Waited(k, j))
    ensures Waited(k, j).tie == k.tie && Waited(k, j).fade == FadeAdvance(k.fade, j).0
  {
    WaitStep(c, n, k, tie, j);
    WaitingOk(c, n, k, j);
    RunSkips(k, FadeAdvance(k.fade, j).0, k.fade, j, j);
  }

  lemma WaitsOn(c: Config, n: int, k: Keyer, tie: TieStep, j: nat, i: nat)
    requires KeyOk(c, n, k) && k.Tied() && k.tie.atCut && !k.fade.pending && RunInside(k, j) && j <= i && !tie.cut
    requires KeyOk(c, n, Waited(k, j)) && Waited(k, j).tie == k.tie && Waited(k, j).fade == FadeAdvance(k.fade, j).0
    ensures SameStep(FrameKey(n, Waited(k, j), tie, i), FrameKey(n, k, tie, i))
  {
    FadeSkips(k.fade, j, i);
    FadeAdvanceOk(k.fade, i);
    RunSkips(k, FadeAdvance(k.fade, j).0, FadeAdvance(k.fade, i).0, j, i);
    WaitStep(c, n, k, tie, i);
    WaitStep(c, n, Waited(k, j), tie, i);
  }

  lemma CutsThen(c: Config, n: int, k: Keyer, tie: TieStep, j: nat, i: nat)
    requires KeyOk(c, n, k) && k.Tied() && k.tie.atCut && !k.fade.pending && RunInside(k, j) && j <= i && tie.cut
    requires KeyOk(c, n, Waited(k, j)) && Waited(k, j).tie == k.tie && Waited(k, j).fade == FadeAdvance(k.fade, j).0
    ensures SameStep(FrameKey(n, Waited(k, j), tie, i), FrameKey(n, k, tie, i))
  {
    var r := Waited(k, j);
    FadeAdvanceOk(k.fade, j);
    CutAfter(c, n, k, FadeAdvance(k.fade, j).0, j, i);
    CutStep(c, n, k, tie, i);
    CutStep(c, n, r, tie, i);
    CutKeyOk(c, n, k, !k.fade.on);
    CutKeyOk(c, n, r, !r.fade.on);
    SettledSame(n, CutKey(r, !r.fade.on), CutKey(k, !k.fade.on), tie, i);
  }

  /** A keyer that waits for a stinger's cut point. */
  lemma CutSkips(c: Config, n: int, k: Keyer, tj: TieStep, ti: TieStep, j: nat, i: nat)
    requires KeyOk(c, n, k) && k.Tied() && k.tie.atCut && !k.fade.pending && RunInside(k, j) && j <= i
    requires !tj.end && (tj.cut ==> ti.cut)
    ensures KeyShape(FrameKey(n, k, tj, j).key) && SameStep(FrameKey(n, FrameKey(n, k, tj, j).key, ti, i), FrameKey(n, k, ti, i))
  {
    if tj.cut {
      CutStep(c, n, k, tj, j);
      CutStep(c, n, k, ti, i);
      CutRunInside(c, n, k, j);
      UntiedSkips(c, n, CutKey(k, !k.fade.on), tj, ti, j, i);
    } else {
      WaitedStep(c, n, k, tj, j);
      if ti.cut { CutsThen(c, n, k, ti, j, i); } else { WaitsOn(c, n, k, ti, j, i); }
    }
  }

  lemma CutRunInside(c: Config, n: int, k: Keyer, j: nat)
    requires KeyOk(c, n, k) && RunInside(k, j)
    ensures KeyShape(CutKey(k, !k.fade.on)) && RunInside(CutKey(k, !k.fade.on), j)
  {
    CutKeyOk(c, n, k, !k.fade.on);
  }

  lemma WaitingOk(c: Config, n: int, k: Keyer, j: nat)
    requires KeyOk(c, n, k)
    ensures KeyOk(c, n, k.(fade := FadeAdvance(k.fade, j).0)) || (k.Tied() && !k.tie.atCut)
    ensures k.tie.atCut ==> KeyOk(c, n, RunAdvance(k.(fade := FadeAdvance(k.fade, j).0), j).0)
  {
    FadeAdvanceOk(k.fade, j);
    if k.tie.atCut || !k.Tied() { RunAdvanceOk(c, n, k.(fade := FadeAdvance(k.fade, j).0), j); }
  }

  lemma SettledSame(n: int, r: Keyer, k: Keyer, tie: TieStep, i: nat)
    requires KeyShape(r) && KeyShape(k) && !r.Tied() && !k.Tied() && !FadeRuns(r.fade) && !FadeRuns(k.fade)
    requires RunAdvance(r, i).1 == RunAdvance(k, i).1 && SameKey(RunAdvance(r, i).0, RunAdvance(k, i).0)
    ensures SameStep(FrameKey(n, r, tie, i), FrameKey(n, k, tie, i))
  {
  }

  // ---- a tied keyer --------------------------------------------------------------------------------

  /** What an ME inside its transition tells its tied keyers in grain j and in a later grain i. */
  lemma TieSkips(c: Config, m: int, s: Me, f: Fade, j: nat, i: nat, ready: seq<bool>, later: seq<bool>)
    requires c.Ok() && MeOk(c, m, s) && FadeOk(f) && MeInside(s, j) && j < i && s.mixing
    ensures var (tj, ti) := (FrameMe(m, s, f, j, ready).tie, FrameMe(m, s, f, i, later).tie);
            && !tj.end
            && (s.sting.player > 0 ==> (tj.cut ==> ti.cut))
            && (s.sting.player == 0 ==> Follows(tj) && Follows(ti) && Unit(tj.t))
  {
    FrameMeOk(c, m, s, f, j, ready);
  }

  /** The tie steps of an ME in grain j and in a later grain i. */
  predicate TiesSkip(s: Me, tj: TieStep, ti: TieStep) {
    s.mixing && s.sting.player >= 0 && !tj.end && (s.sting.player > 0 ==> (tj.cut ==> ti.cut)) && (s.sting.player == 0 ==> Follows(tj) && Follows(ti) && Unit(tj.t))
  }

  predicate KeyInside(k: Keyer, j: nat)
    requires KeyShape(k)
  {
    !k.fade.pending && RunInside(k, j)
  }

  /** A keyer's grain i does not care whether grain j was rendered before it. */
  lemma KeySkips(c: Config, n: int, s: Me, k: Keyer, tj: TieStep, ti: TieStep, j: nat, i: nat)
    requires KeyOk(c, n, k) && Coupled(s, k) && KeyInside(k, j) && j <= i && !s.pending
    requires s.mixing ==> TiesSkip(s, tj, ti)
    ensures KeyShape(FrameKey(n, k, tj, j).key) && SameStep(FrameKey(n, FrameKey(n, k, tj, j).key, ti, i), FrameKey(n, k, ti, i))
  {
    if !k.Tied() { UntiedSkips(c, n, k, tj, ti, j, i); }
    else if k.tie.atCut { CutSkips(c, n, k, tj, ti, j, i); }
    else if k.tie.fly { TiedFlySkips(c, n, k, tj, ti, j, i); }
    else { TiedFadeSkips(c, n, k, tj, ti, j, i); }
  }

  lemma UntiedStays(c: Config, n: int, k: Keyer, tj: TieStep, j: nat, i: nat)
    requires KeyOk(c, n, k) && !k.Tied() && KeyInside(k, j) && KeyInside(k, i)
    ensures KeyShape(FrameKey(n, k, tj, j).key) && KeyInside(FrameKey(n, k, tj, j).key, i)
  {
    FadeAdvanceOk(k.fade, j);
    RunSkips(k, FadeAdvance(k.fade, j).0, FadeAdvance(k.fade, j).0, j, i);
  }

  /** A later grain that was inside stays inside. */
  lemma KeyStaysInside(c: Config, n: int, s: Me, k: Keyer, tj: TieStep, j: nat, i: nat)
    requires KeyOk(c, n, k) && Coupled(s, k) && KeyInside(k, j) && KeyInside(k, i) && !s.pending
    requires s.mixing ==> TiesSkip(s, tj, tj)
    ensures KeyShape(FrameKey(n, k, tj, j).key) && KeyInside(FrameKey(n, k, tj, j).key, i)
  {
    if !k.Tied() {
      UntiedStays(c, n, k, tj, j, i);
    } else if k.tie.atCut {
      if tj.cut {
        CutStep(c, n, k, tj, j);
        CutRunInside(c, n, k, j);
        CutRunInside(c, n, k, i);
        UntiedStays(c, n, CutKey(k, !k.fade.on), tj, j, i);
      } else {
        WaitedStep(c, n, k, tj, j);
        FadeAdvanceOk(k.fade, j);
        RunSkips(k, FadeAdvance(k.fade, j).0, FadeAdvance(k.fade, j).0, j, i);
      }
    } else if k.tie.fly {
      FlyStep(c, n, k, tj, j);
    } else {
      var f := TieAdvance(k, tj.t).fade;
      RunSkips(k, f, f, j, i);
      assert FrameKey(n, k, tj, j).key == RunAdvance(k.(fade := f), j).0;
    }
  }

  /** The Fade to Black changes only its own part of a plan. */
  lemma FtbOnly(m: int, s: Me, f: Fade, g: Fade, i: nat, ready: seq<bool>)
    requires FadeOk(f) && FadeOk(g) && (s.Running() ==> s.frames >= 1)
    ensures var (x, y) := (FrameMe(m, s, f, i, ready), FrameMe(m, s, g, i, ready));
            x.me == y.me && x.tie == y.tie && x.plan == y.plan.(ftb := x.plan.ftb, ftbPrev := x.plan.ftbPrev)
    ensures FrameMe(m, s, f, i, ready).plan.ftb == FadeAdvance(f, i).0.gain
  {
  }

  // ---- any grains ----------------------------------------------------------------------------------

  /** A grain rendered: its index, and the stinger players ready for it. */
  datatype Tick = Tick(index: nat, ready: seq<bool>)

  ghost function Render(c: Config, st: St, ticks: seq<Tick>): St
    requires Inv(c, st)
    decreases |ticks|
  {
    if |ticks| == 0 then st
    else
      FrameInv(c, st, ticks[0].index, ticks[0].ready);
      Render(c, Frame(c, st, ticks[0].index, ticks[0].ready).0, ticks[1..])
  }

  lemma {:induction false} RenderInv(c: Config, st: St, ticks: seq<Tick>)
    requires Inv(c, st)
    ensures Inv(c, Render(c, st, ticks))
    decreases |ticks|
  {
    if |ticks| > 0 {
      FrameInv(c, st, ticks[0].index, ticks[0].ready);
      RenderInv(c, Frame(c, st, ticks[0].index, ticks[0].ready).0, ticks[1..]);
    }
  }
}
