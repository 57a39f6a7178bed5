/** The strip mixer of the PGM audio (engine/src/core/audiomix.cpp): per ME a sum of strips, each with a level,
    audio follow video (AFV) and a weight that follows the picture; every change ramps over one grain. The
    channels of a source are mixed alike: this is one of them. */
module AudioMix {
  import opened Wrappers
  import opened RealMath
  import opened MixerTypes
  import opened Crossfade

  // ---- curves over one grain -----------------------------------------------------------------------

  /** The curves the code has from libm: a quarter turn, the S-shaped step for 0 < u < 1, and decibels. */
  datatype Curves = Curves(trig: Trig, step: real -> real, pow: real -> real)

  /** At k of n samples into a grain; k == 0 is where the last grain ended. */
  function SmoothAt(c: Curves, k: nat, n: nat): real {
    if k >= n then 1.0 else if k == 0 then 0.0 else c.step(k as real / n as real)
  }

  function RampAt(c: Curves, g0: real, g1: real, k: nat, n: nat): real {
    if k >= n then g1 else g0 + (g1 - g0) * SmoothAt(c, k, n)
  }

  function LinearAt(g0: real, g1: real, k: nat, n: nat): real
    requires n > 0
  {
    g0 + (g1 - g0) * k as real / n as real
  }

  /** A transition moves t evenly over the grain. */
  function TransitionAt(c: Curves, tPrev: real, t: real, k: nat, n: nat): Gains
    requires n > 0
  {
    CrossfadeAt(c.trig, LinearAt(tPrev, t, k, n))
  }

  /** A weight on the equal-power curve, for a Cut. */
  function CutAt(c: Curves, w0: real, w1: real, k: nat, n: nat): real {
    if w0 == w1 || k >= n then w1
    else
      var g := CrossfadeAt(c.trig, SmoothAt(c, k, n));
      if w1 < w0 then w1 + (w0 - w1) * g.a else w0 + (w1 - w0) * g.b
  }

  lemma CurveEnds(c: Curves, x: real, y: real, n: nat)
    requires n > 0
    ensures RampAt(c, x, y, 0, n) == x && RampAt(c, x, y, n, n) == y
    ensures LinearAt(x, y, 0, n) == x && LinearAt(x, y, n, n) == y
    ensures CutAt(c, x, y, 0, n) == x && CutAt(c, x, y, n, n) == y
  {
    DivIs((y - x) * 0.0, n as real, 0.0);
    DivIs((y - x) * n as real, n as real, y - x);
  }

  /** -90 dB and below is off, 0 dB exactly 1. */
  function DbToGain(c: Curves, db: real): real {
    if !(db > -90.0) then 0.0 else if db == 0.0 then 1.0 else c.pow(db)
  }

  // ---- strips ----------------------------------------------------------------------------------------

  datatype StripSettings = StripSettings(faderDb: real, mute: bool, afv: bool)

  datatype MeSettings = MeSettings(masterDb: real, strips: seq<StripSettings>)

  function Level(c: Curves, s: StripSettings): real {
    if s.mute then 0.0 else DbToGain(c, s.faderDb)
  }

  function Afv(s: StripSettings): real {
    if s.afv then 1.0 else 0.0
  }

  /** The strips: inputs, clip players, MEs, the stinger. */
  datatype Desk = Desk(mes: nat, inputs: nat, players: nat)
  {
    function Slots(): nat {
      inputs + players + mes + 1
    }

    /** Only the Programs of higher MEs are strips of an ME. */
    predicate HasStrip(me: int, s: int) {
      1 <= me <= mes && (0 <= s < inputs + players || inputs + players + me <= s < inputs + players + mes)
    }

    function SlotOf(me: int, source: Source): (s: int)
      ensures s == -1 || (0 <= s < Slots() - 1 && HasStrip(me, s))
    {
      if !(1 <= me <= mes) then -1 else
      match source
      case Input(i) => if 1 <= i <= inputs then i - 1 else -1
      case Player(i) => if 1 <= i <= players then inputs + i - 1 else -1
      case Reentry(n) => if me < n <= mes then inputs + players + n - 1 else -1
      case Black => -1
    }
  }

  /** Where each strip ended the last grain, and what was published of it. */
  datatype MeRun = MeRun(primed: bool, master: real, level: seq<real>, afv: seq<real>, weight: seq<real>, gain: seq<real>)

  /** What a grain's plan means for the strips: A's and B's, whether they follow the transition's curve, and
      which ones a visible key shows. */
  datatype Roles = Roles(a: int, b: int, transition: bool, background: bool, covered: bool, keyed: seq<bool>, tPrev: real, t: real)

  predicate Follows(r: Roles, s: nat) {
    r.background && (s == r.a || s == r.b) && (s < |r.keyed| ==> !r.keyed[s])
  }

  /** Both sides of the transition are this one strip. */
  predicate Doubled(r: Roles, s: nat) {
    Follows(r, s) && r.a == r.b
  }

  predicate KeyedAt(r: Roles, s: nat) {
    s < |r.keyed| && r.keyed[s]
  }

  /** The weight a strip that does not follow the transition goes to. */
  function TargetWeight(r: Roles, s: nat): real {
    if KeyedAt(r, s) || (!r.transition && s == r.a && !r.covered) then 1.0 else 0.0
  }

  /** The weight a strip has at the end of the grain. */
  function EndWeight(c: Curves, r: Roles, s: nat): real {
    if !Follows(r, s) then TargetWeight(r, s)
    else SideWeight(CrossfadeAt(c.trig, r.t), r, s)
  }

  function SideWeight(g: Gains, r: Roles, s: nat): real {
    if r.a == r.b then g.a + g.b else if s == r.a then g.a else g.b
  }

  const DEADBAND := 0.000001

  /** What A's (or B's) curve is moved by, where the last grain left the strip elsewhere. */
  function OffsetAt(c: Curves, w0: real, start: real, k: nat, n: nat): real {
    var off := w0 - start;
    if off > DEADBAND || off < -DEADBAND then off * RampAt(c, 1.0, 0.0, k, n) else 0.0
  }

  function Blend(l: real, a: real, w: real): real {
    l * (if a == 1.0 then w else if a == 0.0 then 1.0 else a * w + (1.0 - a))
  }

  /** A strip's gain where its weight is w: its level and its AFV on their ramps. */
  function StripGainAt(c: Curves, run: MeRun, target: StripSettings, s: nat, w: real, k: nat, n: nat): real
    requires s < |run.level| == |run.afv|
  {
    Blend(RampAt(c, run.level[s], Level(c, target), k, n), RampAt(c, run.afv[s], Afv(target), k, n), w)
  }

  predicate Fits(run: MeRun, target: MeSettings, r: Roles, slots: nat) {
    && |run.level| == |run.afv| == |run.weight| == |run.gain| == |target.strips| == |r.keyed| == slots
    && r.a < slots - 1 && r.b < slots - 1 && -1 <= r.a && -1 <= r.b && slots >= 1
    && (r.background ==> r.transition) && (!r.transition ==> r.b == -1)
    && forall s :: 0 <= s < slots ==> run.afv[s] == 0.0 || run.afv[s] == 1.0
  }

  /** The gain of A's term in a transition. */
  function TermA(c: Curves, run: MeRun, target: MeSettings, r: Roles, k: nat, n: nat): real
    requires n > 0 && 0 <= r.a < |run.level| == |run.afv| == |run.weight| == |target.strips|
  {
    var start := SideWeight(CrossfadeAt(c.trig, r.tPrev), r, r.a);
    StripGainAt(c, run, target.strips[r.a], r.a, TransitionAt(c, r.tPrev, r.t, k, n).a + OffsetAt(c, run.weight[r.a], start, k, n), k, n)
  }

  function TermB(c: Curves, run: MeRun, target: MeSettings, r: Roles, k: nat, n: nat): real
    requires n > 0 && 0 <= r.b < |run.level| == |run.afv| == |run.weight| == |target.strips|
  {
    var off := if r.a == r.b then 0.0 else OffsetAt(c, run.weight[r.b], CrossfadeAt(c.trig, r.tPrev).b, k, n);
    StripGainAt(c, run, target.strips[r.b], r.b, TransitionAt(c, r.tPrev, r.t, k, n).b + off, k, n)
  }

  /** The gain of any other strip: its weight cuts over the grain, or stays. */
  function OtherTerm(c: Curves, run: MeRun, target: MeSettings, r: Roles, s: nat, k: nat, n: nat): real
    requires s < |run.level| == |run.afv| == |run.weight| == |target.strips|
  {
    StripGainAt(c, run, target.strips[s], s, CutAt(c, run.weight[s], TargetWeight(r, s), k, n), k, n)
  }

  /** All that is heard of a strip, k of n samples into the grain. */
  function TotalAt(c: Curves, run: MeRun, target: MeSettings, r: Roles, s: nat, k: nat, n: nat): real
    requires n > 0 && s < |run.level| == |run.afv| == |run.weight| == |target.strips|
  {
    if !Follows(r, s) then OtherTerm(c, run, target, r, s, k, n)
    else (if s == r.a then TermA(c, run, target, r, k, n) else 0.0) + (if s == r.b then TermB(c, run, target, r, k, n) else 0.0)
  }

  /** What is published of a strip: its level with its weight, or without it when AFV is off. */
  function Published(level: real, afv: real, weight: real): real {
    level * if afv == 1.0 then weight else 1.0
  }

  /** Strip s after the grain, as TotalAt leaves it. */
  function EndOf(c: Curves, target: MeSettings, r: Roles, s: nat): real
    requires s < |target.strips|
  {
    Published(Level(c, target.strips[s]), Afv(target.strips[s]), EndWeight(c, r, s))
  }

  predicate Near(x: real, y: real, margin: real) {
    -margin <= x - y <= margin
  }

  /** The gain of a strip at the end of the grain is the one published, and the grain starts where the last
      one ended (but for the deadband): except that a strip on both sides of a transition is summed twice,
      which is the same exactly while its AFV is on or its level is 0. */
  lemma GainsGoOn(c: Curves, run: MeRun, target: MeSettings, r: Roles, slots: nat, s: nat, n: nat)
    requires n > 0 && Fits(run, target, r, slots) && s < slots - 1 && run.level[s] >= 0.0
    ensures TotalAt(c, run, target, r, s, n, n) == EndOf(c, target, r, s) + (if Doubled(r, s) && Afv(target.strips[s]) == 0.0 then Level(c, target.strips[s]) else 0.0)
    ensures Near(TotalAt(c, run, target, r, s, 0, n),
                 Published(run.level[s], run.afv[s], run.weight[s]) + (if Doubled(r, s) && run.afv[s] == 0.0 then run.level[s] else 0.0),
                 run.level[s] * DEADBAND)
  {
    var l0, a0, l1, a1 := run.level[s], run.afv[s], Level(c, target.strips[s]), Afv(target.strips[s]);
    CurveEnds(c, l0, l1, n);
    CurveEnds(c, a0, a1, n);
    CurveEnds(c, run.weight[s], TargetWeight(r, s), n);
    CurveEnds(c, 1.0, 0.0, n);
    CurveEnds(c, r.tPrev, r.t, n);
    if Follows(r, s) {
      FollowerEnds(c, run, target, r, slots, s, n);
      FollowerStarts(c, run, target, r, slots, s, n);
    }
  }

  lemma FollowerEnds(c: Curves, run: MeRun, target: MeSettings, r: Roles, slots: nat, s: nat, n: nat)
    requires n > 0 && Fits(run, target, r, slots) && s < slots - 1 && Follows(r, s)
    ensures TotalAt(c, run, target, r, s, n, n) == EndOf(c, target, r, s) + (if Doubled(r, s) && Afv(target.strips[s]) == 0.0 then Level(c, target.strips[s]) else 0.0)
  {
    CurveEnds(c, run.level[s], Level(c, target.strips[s]), n);
    CurveEnds(c, run.afv[s], Afv(target.strips[s]), n);
    CurveEnds(c, 1.0, 0.0, n);
    CurveEnds(c, r.tPrev, r.t, n);
    hide RampAt, LinearAt, CutAt, CrossfadeAt, Level;
    var g := CrossfadeAt(c.trig, r.t);
    Distribute(Level(c, target.strips[s]), g.a, g.b, g.a + g.b);
  }

  /** A follower's gain at the start: its level, times its sides' starts and the offset onto where it was. */
  lemma FollowerStartsAt(c: Curves, run: MeRun, target: MeSettings, r: Roles, slots: nat, s: nat, n: nat)
    requires n > 0 && Fits(run, target, r, slots) && s < slots - 1 && Follows(r, s)
    ensures var g := CrossfadeAt(c.trig, r.tPrev);
            var off := OffsetAt(c, run.weight[s], SideWeight(g, r, s), 0, n);
            var l, a := run.level[s], run.afv[s];
            && Near(SideWeight(g, r, s) + off, run.weight[s], DEADBAND)
            && TotalAt(c, run, target, r, s, 0, n) ==
               if r.a == r.b then Published(l, a, g.a + off) + Published(l, a, g.b) else Published(l, a, SideWeight(g, r, s) + off)
  {
    CurveEnds(c, run.level[s], Level(c, target.strips[s]), n);
    CurveEnds(c, run.afv[s], Afv(target.strips[s]), n);
    CurveEnds(c, 1.0, 0.0, n);
    CurveEnds(c, r.tPrev, r.t, n);
    hide RampAt, LinearAt, CutAt, CrossfadeAt, Level;
  }

  lemma FollowerStarts(c: Curves, run: MeRun, target: MeSettings, r: Roles, slots: nat, s: nat, n: nat)
    requires n > 0 && Fits(run, target, r, slots) && s < slots - 1 && run.level[s] >= 0.0 && Follows(r, s)
    ensures Near(TotalAt(c, run, target, r, s, 0, n),
                 Published(run.level[s], run.afv[s], run.weight[s]) + (if Doubled(r, s) && run.afv[s] == 0.0 then run.level[s] else 0.0),
                 run.level[s] * DEADBAND)
  {
    FollowerStartsAt(c, run, target, r, slots, s, n);
    hide TotalAt, CrossfadeAt, OffsetAt, Published;
    var g := CrossfadeAt(c.trig, r.tPrev);
    var off := OffsetAt(c, run.weight[s], SideWeight(g, r, s), 0, n);
    var l, a, w := run.level[s], run.afv[s], SideWeight(g, r, s) + off;
    PublishedNear(l, a, w, run.weight[s]);
    if r.a == r.b {
      PublishedSum(l, a, g.a + off, g.b);
      assert g.a + off + g.b == w;
    }
  }

  lemma PublishedNear(l: real, a: real, x: real, y: real)
    requires l >= 0.0 && Near(x, y, DEADBAND)
    ensures Near(Published(l, a, x), Published(l, a, y), l * DEADBAND)
  {
    Scaled(l, x, y);
    Scaled(l, 1.0, 1.0);
  }

  /** Two sides with AFV off are heard twice. */
  lemma PublishedSum(l: real, a: real, x: real, y: real)
    requires a == 0.0 || a == 1.0
    ensures Published(l, a, x) + Published(l, a, y) == Published(l, a, x + y) + if a == 0.0 then l else 0.0
  {
    Distribute(l, x, y, x + y);
  }

  lemma Distribute(l: real, x: real, y: real, w: real)
    ensures w == x + y ==> l * x + l * y == l * w
  {
  }

  lemma Scaled(l: real, w: real, v: real)
    requires l >= 0.0 && Near(w, v, DEADBAND)
    ensures Near(l * w, l * v, l * DEADBAND)
  {
    ProductRises(l, w - v + DEADBAND, l, w - v + DEADBAND);
    ProductRises(l, v - w + DEADBAND, l, v - w + DEADBAND);
    assert l * (w - v + DEADBAND) == l * w - l * v + l * DEADBAND;
    assert l * (v - w + DEADBAND) == l * v - l * w + l * DEADBAND;
  }

  // ---- from grain to grain ---------------------------------------------------------------------------

  function RolesOf(desk: Desk, plan: MePlan): Roles {
    var transition := plan.mixing || plan.stinger > 0;
    Roles(desk.SlotOf(plan.me, plan.a), if transition then desk.SlotOf(plan.me, plan.b) else -1, transition,
          transition && !plan.backgroundCovered, plan.backgroundCovered,
          seq(desk.Slots(), s requires 0 <= s => exists i :: 0 <= i < |plan.keyed| && desk.SlotOf(plan.me, plan.keyed[i]) == s),
          plan.tPrev, plan.t)
  }

  /** A strip's weight in the first grain: where its plan starts. */
  function FirstWeight(c: Curves, r: Roles, s: nat): real {
    if KeyedAt(r, s) then 1.0
    else
      var g := CrossfadeAt(c.trig, r.tPrev);
      (if s == r.a then (if r.transition then g.a else if r.covered then 0.0 else 1.0) else 0.0) + (if s == r.b then g.b else 0.0)
  }

  /** The first grain starts where its settings and plan are. */
  function Primed(c: Curves, run: MeRun, target: MeSettings, r: Roles): MeRun {
    if run.primed then run
    else
      var slots := |target.strips|;
      run.(primed := true, master := DbToGain(c, target.masterDb),
           level := seq(slots, s requires 0 <= s < |target.strips| => Level(c, target.strips[s])),
           afv := seq(slots, s requires 0 <= s < |target.strips| => Afv(target.strips[s])),
           weight := seq(slots, s requires 0 <= s => FirstWeight(c, r, s)))
  }

  /** The state after a grain of ME `me`. */
  function After(c: Curves, desk: Desk, me: int, run: MeRun, target: MeSettings, r: Roles): (q: MeRun)
    requires |run.level| == |run.afv| == |run.weight| == |run.gain| == |target.strips| == desk.Slots()
    ensures |q.level| == |q.afv| == |q.weight| == |q.gain| == desk.Slots()
  {
    var slots, sting := desk.Slots(), desk.Slots() - 1;
    MeRun(true, DbToGain(c, target.masterDb),
          seq(slots, s requires 0 <= s < |target.strips| && 0 <= s < |run.level| =>
            if desk.HasStrip(me, s) || s == sting then Level(c, target.strips[s]) else run.level[s]),
          seq(slots, s requires 0 <= s < |target.strips| && 0 <= s < |run.afv| =>
            if s == sting then 0.0 else if desk.HasStrip(me, s) then Afv(target.strips[s]) else run.afv[s]),
          seq(slots, s requires 0 <= s < |run.weight| => if desk.HasStrip(me, s) then EndWeight(c, r, s) else run.weight[s]),
          seq(slots, s requires 0 <= s < |target.strips| && 0 <= s < |run.gain| =>
            if s == sting then Level(c, target.strips[s]) else if desk.HasStrip(me, s) then EndOf(c, target, r, s) else run.gain[s]))
  }

  /** What one grain leaves of ME `me`. */
  function Mixed(c: Curves, desk: Desk, run: MeRun, target: MeSettings, plan: MePlan): MeRun
    requires Shaped(desk, run, target)
  {
    var r := RolesOf(desk, plan);
    After(c, desk, plan.me, Primed(c, run, target, r), target, r)
  }

  predicate Shaped(desk: Desk, run: MeRun, target: MeSettings) {
    |run.level| == |run.afv| == |run.weight| == |run.gain| == |target.strips| == desk.Slots()
  }

  ghost predicate CurvesOk(c: Curves) {
    forall db :: c.pow(db) >= 0.0
  }

  /** A run that stands where its published gains say. */
  ghost predicate Stands(desk: Desk, me: int, run: MeRun) {
    && |run.level| == |run.afv| == |run.weight| == |run.gain| == desk.Slots()
    && (forall s :: 0 <= s < |run.level| ==> run.level[s] >= 0.0 && (run.afv[s] == 0.0 || run.afv[s] == 1.0))
    && (forall s :: desk.HasStrip(me, s) && run.primed ==> run.gain[s] == Published(run.level[s], run.afv[s], run.weight[s]))
  }

  lemma RolesFit(desk: Desk, run: MeRun, target: MeSettings, plan: MePlan)
    requires Shaped(desk, run, target) && plan.me >= 1 && forall s :: 0 <= s < |run.afv| ==> run.afv[s] == 0.0 || run.afv[s] == 1.0
    ensures Fits(run, target, RolesOf(desk, plan), desk.Slots())
  {
  }

  lemma PrimedStands(c: Curves, desk: Desk, run: MeRun, target: MeSettings, r: Roles)
    requires CurvesOk(c) && |target.strips| == desk.Slots() && |run.gain| == desk.Slots()
    requires run.primed ==> |run.level| == |run.afv| == |run.weight| == desk.Slots()
    requires run.primed ==> forall s :: 0 <= s < |run.level| ==> run.level[s] >= 0.0 && (run.afv[s] == 0.0 || run.afv[s] == 1.0)
    ensures var p := Primed(c, run, target, r);
            && p.primed && Shaped(desk, p, target)
            && forall s :: 0 <= s < |p.level| ==> p.level[s] >= 0.0 && (p.afv[s] == 0.0 || p.afv[s] == 1.0)
  {
    forall s | 0 <= s < |target.strips| ensures Level(c, target.strips[s]) >= 0.0 {
      assert c.pow(target.strips[s].faderDb) >= 0.0;
    }
  }

  /** Over every run of plans and settings of an ME, in every grain but the first: each strip starts where its
      gain was published last and ends at the gain that is published now, but for the strip on both sides
      of a transition with its AFV off; and the master goes on from where it was to where it is set. */
  lemma StripsNeverJump(c: Curves, desk: Desk, run: MeRun, target: MeSettings, plan: MePlan, s: nat, n: nat)
    requires CurvesOk(c) && Stands(desk, plan.me, run) && Shaped(desk, run, target) && 1 <= plan.me && n > 0 && desk.HasStrip(plan.me, s)
    ensures var r := RolesOf(desk, plan);
            var p := Primed(c, run, target, r);
            var q := Mixed(c, desk, run, target, plan);
            && Stands(desk, plan.me, q) && q.primed && Shaped(desk, p, target)
            && TotalAt(c, p, target, r, s, n, n) == q.gain[s] + (if Doubled(r, s) && q.afv[s] == 0.0 then q.level[s] else 0.0)
            && (run.primed ==>
                  && Near(TotalAt(c, p, target, r, s, 0, n), run.gain[s] + (if Doubled(r, s) && run.afv[s] == 0.0 then run.level[s] else 0.0), run.level[s] * DEADBAND)
                  && RampAt(c, run.master, q.master, 0, n) == run.master && RampAt(c, run.master, q.master, n, n) == q.master)
  {
    var r := RolesOf(desk, plan);
    var p := Primed(c, run, target, r);
    PrimedStands(c, desk, run, target, r);
    RolesFit(desk, p, target, plan);
    MixedStands(c, desk, run, target, plan);
    hide TotalAt, Fits, RolesOf, Level;
    GainsGoOn(c, p, target, r, desk.Slots(), s, n);
    CurveEnds(c, run.master, DbToGain(c, target.masterDb), n);
  }

  /** Strip s of the ME starts the next grain where it ended the first one, within the deadband. */
  predicate NoJump(c: Curves, desk: Desk, run: MeRun, first: Grain, next: Grain, s: nat, n: nat, m: nat)
    requires Shaped(desk, run, first.target) && |next.target.strips| == desk.Slots() && n > 0 && m > 0 && s < desk.Slots()
  {
    var (r1, q) := (RolesOf(desk, first.plan), Mixed(c, desk, run, first.target, first.plan));
    Near(TotalAt(c, q, next.target, RolesOf(desk, next.plan), s, 0, m),
         TotalAt(c, Primed(c, run, first.target, r1), first.target, r1, s, n, n), q.level[s] * DEADBAND)
  }

  /** From grain to grain: a strip goes on where it ended exactly when it is silent, its AFV is on, or it is on
      both sides of a transition in both grains or in neither. */
  lemma NoJumpExactly(c: Curves, desk: Desk, run: MeRun, first: Grain, next: Grain, s: nat, n: nat, m: nat)
    requires CurvesOk(c) && Stands(desk, first.plan.me, run) && Shaped(desk, run, first.target) && |next.target.strips| == desk.Slots()
    requires 1 <= first.plan.me == next.plan.me && n > 0 && m > 0 && desk.HasStrip(first.plan.me, s)
    ensures NoJump(c, desk, run, first, next, s, n, m) <==>
              Level(c, first.target.strips[s]) == 0.0 || first.target.strips[s].afv
              || (Doubled(RolesOf(desk, first.plan), s) <==> Doubled(RolesOf(desk, next.plan), s))
  {
    StripsNeverJump(c, desk, run, first.target, first.plan, s, n);
    var q := Mixed(c, desk, run, first.target, first.plan);
    StripsNeverJump(c, desk, q, next.target, next.plan, s, m);
    MixedLevel(c, desk, run, first.target, first.plan, s);
    hide TotalAt, RolesOf, Mixed, Doubled, Level;
    assert Primed(c, q, next.target, RolesOf(desk, next.plan)) == q;
  }

  lemma MixedLevel(c: Curves, desk: Desk, run: MeRun, target: MeSettings, plan: MePlan, s: nat)
    requires Shaped(desk, run, target) && desk.HasStrip(plan.me, s)
    ensures var q := Mixed(c, desk, run, target, plan);
            Shaped(desk, q, target) && q.level[s] == Level(c, target.strips[s]) && q.afv[s] == Afv(target.strips[s])
  {
    hide Level, RolesOf, EndWeight, EndOf;
  }

  const ONE_INPUT := Desk(1, 1, 0)
  const UNITY := MeSettings(0.0, [StripSettings(0.0, false, false), StripSettings(0.0, false, false), StripSettings(0.0, false, false)])

  /** An input on air, and a Mix from that input to itself. */
  function SelfMix(mixing: bool, tPrev: real, t: real): Grain {
    Grain(MePlan(1, Input(1), if mixing then Input(1) else Black, t, tPrev, mixing, false, WipeSettings(1, false, 0.0, 0.0, 940, 512, 512),
                 0, 0, false, Black, 0.0, 0.0, [], false), UNITY)
  }

  lemma SelfRoles(mixing: bool, tPrev: real, t: real)
    ensures Doubled(RolesOf(ONE_INPUT, SelfMix(mixing, tPrev, t).plan), 0) <==> mixing
  {
  }

  /** Its AFV off and at 0 dB, it jumps where that Mix starts and where it has ended, and not in between. */
  lemma SelfMixJumps(c: Curves, run: MeRun, n: nat)
    requires CurvesOk(c) && Stands(ONE_INPUT, 1, run) && n > 0
    ensures !NoJump(c, ONE_INPUT, run, SelfMix(false, 0.0, 0.0), SelfMix(true, 0.0, 0.5), 0, n, n)
    ensures !NoJump(c, ONE_INPUT, run, SelfMix(true, 0.5, 1.0), SelfMix(false, 0.0, 0.0), 0, n, n)
    ensures NoJump(c, ONE_INPUT, run, SelfMix(true, 0.0, 0.5), SelfMix(true, 0.5, 1.0), 0, n, n)
  {
    var (still, half, full) := (SelfMix(false, 0.0, 0.0), SelfMix(true, 0.0, 0.5), SelfMix(true, 0.5, 1.0));
    SelfRoles(false, 0.0, 0.0);
    SelfRoles(true, 0.0, 0.5);
    SelfRoles(true, 0.5, 1.0);
    hide NoJump, RolesOf, Doubled;
    NoJumpExactly(c, ONE_INPUT, run, still, half, 0, n, n);
    NoJumpExactly(c, ONE_INPUT, run, full, still, 0, n, n);
    NoJumpExactly(c, ONE_INPUT, run, half, full, 0, n, n);
  }

  lemma MixedStands(c: Curves, desk: Desk, run: MeRun, target: MeSettings, plan: MePlan)
    requires CurvesOk(c) && Stands(desk, plan.me, run) && Shaped(desk, run, target)
    ensures Stands(desk, plan.me, Mixed(c, desk, run, target, plan)) && Mixed(c, desk, run, target, plan).primed
  {
    var r := RolesOf(desk, plan);
    PrimedStands(c, desk, run, target, r);
    hide RolesOf;
    forall s | 0 <= s < |target.strips| ensures Level(c, target.strips[s]) >= 0.0 {
      assert c.pow(target.strips[s].faderDb) >= 0.0;
    }
  }

  datatype Grain = Grain(plan: MePlan, target: MeSettings)

  ghost function RunOf(c: Curves, desk: Desk, me: int, run: MeRun, grains: seq<Grain>): MeRun
    requires CurvesOk(c) && Stands(desk, me, run)
    requires forall i :: 0 <= i < |grains| ==> grains[i].plan.me == me && |grains[i].target.strips| == desk.Slots()
    decreases |grains|
  {
    if |grains| == 0 then run
    else
      MixedStands(c, desk, run, grains[0].target, grains[0].plan);
      RunOf(c, desk, me, Mixed(c, desk, run, grains[0].target, grains[0].plan), grains[1..])
  }

  lemma {:induction false} EveryRunStands(c: Curves, desk: Desk, me: int, run: MeRun, grains: seq<Grain>)
    requires CurvesOk(c) && Stands(desk, me, run)
    requires forall i :: 0 <= i < |grains| ==> grains[i].plan.me == me && |grains[i].target.strips| == desk.Slots()
    ensures Stands(desk, me, RunOf(c, desk, me, run, grains)) && (|grains| > 0 || run.primed ==> RunOf(c, desk, me, run, grains).primed)
    decreases |grains|
  {
    hide Mixed;
    if |grains| > 0 {
      MixedStands(c, desk, run, grains[0].target, grains[0].plan);
      EveryRunStands(c, desk, me, Mixed(c, desk, run, grains[0].target, grains[0].plan), grains[1..]);
    }
  }

  // ---- one sample of an ME -----------------------------------------------------------------------------

  /** Strips s .. of the sample: those that do not follow the transition; x is each strip's source, 0 when silent. */
  function OthersFrom(c: Curves, desk: Desk, me: int, run: MeRun, target: MeSettings, r: Roles, x: seq<real>, s: nat, k: nat, n: nat): real
    requires Shaped(desk, run, target) && |x| == desk.Slots() && n > 0
    decreases desk.Slots() - s
  {
    if s >= desk.Slots() - 1 then 0.0
    else (if desk.HasStrip(me, s) && !Follows(r, s) then x[s] * OtherTerm(c, run, target, r, s, k, n) else 0.0)
         + OthersFrom(c, desk, me, run, target, r, x, s + 1, k, n)
  }

  /** A transition's two sides, then every other strip. */
  function SumAt(c: Curves, desk: Desk, me: int, run: MeRun, target: MeSettings, r: Roles, x: seq<real>, k: nat, n: nat): real
    requires Fits(run, target, r, desk.Slots()) && |x| == desk.Slots() && n > 0
  {
    (if r.a >= 0 && Follows(r, r.a) then x[r.a] * TermA(c, run, target, r, k, n) else 0.0)
    + (if r.b >= 0 && Follows(r, r.b) then x[r.b] * TermB(c, run, target, r, k, n) else 0.0)
    + OthersFrom(c, desk, me, run, target, r, x, 0, k, n)
  }

  /** Every strip of the ME once, at its whole gain. */
  function StripsFrom(c: Curves, desk: Desk, me: int, run: MeRun, target: MeSettings, r: Roles, x: seq<real>, s: nat, k: nat, n: nat): real
    requires Shaped(desk, run, target) && |x| == desk.Slots() && n > 0
    decreases desk.Slots() - s
  {
    if s >= desk.Slots() - 1 then 0.0
    else (if desk.HasStrip(me, s) then x[s] * TotalAt(c, run, target, r, s, k, n) else 0.0) + StripsFrom(c, desk, me, run, target, r, x, s + 1, k, n)
  }

  /** A side's own share from strip s on. */
  function SideFrom(r: Roles, x: seq<real>, side: int, term: real, s: nat): real
    requires side < |x|
  {
    if side >= s && Follows(r, side) then x[side] * term else 0.0
  }

  lemma SideStep(r: Roles, x: seq<real>, side: int, term: real, s: nat)
    requires side < |x|
    ensures SideFrom(r, x, side, term, s) == (if side == s && Follows(r, s) then x[s] * term else 0.0) + SideFrom(r, x, side, term, s + 1)
    ensures side < s ==> SideFrom(r, x, side, term, s) == 0.0
  {
  }

  /** What strip s itself gives: as one that does not follow, or as either side. */
  lemma StripShare(c: Curves, run: MeRun, target: MeSettings, r: Roles, v: real, s: nat, k: nat, n: nat, ta: real, tb: real)
    requires n > 0 && s < |run.level| == |run.afv| == |run.weight| == |target.strips|
    requires (s == r.a ==> ta == TermA(c, run, target, r, k, n)) && (s == r.b ==> tb == TermB(c, run, target, r, k, n))
    ensures v * TotalAt(c, run, target, r, s, k, n) ==
            if !Follows(r, s) then v * OtherTerm(c, run, target, r, s, k, n) else (if s == r.a then v * ta else 0.0) + (if s == r.b then v * tb else 0.0)
  {
    hide TermA, TermB, OtherTerm;
    Distribute(v, if s == r.a then ta else 0.0, if s == r.b then tb else 0.0, TotalAt(c, run, target, r, s, k, n));
  }

  lemma {:induction false} OncePerStrip(c: Curves, desk: Desk, me: int, run: MeRun, target: MeSettings, r: Roles, x: seq<real>, s: nat, k: nat, n: nat, ta: real, tb: real)
    requires Fits(run, target, r, desk.Slots()) && Shaped(desk, run, target) && |x| == desk.Slots() && n > 0 && r.a < |x| && r.b < |x|
    requires (r.a >= 0 ==> desk.HasStrip(me, r.a) && ta == TermA(c, run, target, r, k, n))
    requires (r.b >= 0 ==> desk.HasStrip(me, r.b) && tb == TermB(c, run, target, r, k, n))
    ensures StripsFrom(c, desk, me, run, target, r, x, s, k, n) ==
            SideFrom(r, x, r.a, ta, s) + SideFrom(r, x, r.b, tb, s) + OthersFrom(c, desk, me, run, target, r, x, s, k, n)
    decreases desk.Slots() - s
  {
    hide TotalAt, TermA, TermB, OtherTerm, Follows, Fits, SideFrom;
    SideStep(r, x, r.a, ta, s);
    SideStep(r, x, r.b, tb, s);
    if s < desk.Slots() - 1 {
      OncePerStrip(c, desk, me, run, target, r, x, s + 1, k, n, ta, tb);
      StripShare(c, run, target, r, x[s], s, k, n, ta, tb);
    }
  }

  /** The sum as it is made is every strip once, at the gain TotalAt gives. */
  lemma SumIsOfStrips(c: Curves, desk: Desk, run: MeRun, target: MeSettings, plan: MePlan, x: seq<real>, k: nat, n: nat)
    requires Shaped(desk, run, target) && |x| == desk.Slots() && n > 0 && Fits(run, target, RolesOf(desk, plan), desk.Slots())
    ensures var r := RolesOf(desk, plan);
            SumAt(c, desk, plan.me, run, target, r, x, k, n) == StripsFrom(c, desk, plan.me, run, target, r, x, 0, k, n)
  {
    hide TermA, TermB, OtherTerm, TotalAt;
    var r := RolesOf(desk, plan);
    OncePerStrip(c, desk, plan.me, run, target, r, x, 0, k, n, if r.a >= 0 then TermA(c, run, target, r, k, n) else 0.0,
                 if r.b >= 0 then TermB(c, run, target, r, k, n) else 0.0);
  }

  /** The stinger's sound x while one runs. */
  function StingAt(c: Curves, plan: MePlan, x: real, l0: real, l1: real, k: nat, n: nat): real {
    if plan.stinger > 0 then x * RampAt(c, l0, l1, k, n) else 0.0
  }

  function StripsAndSting(c: Curves, desk: Desk, run: MeRun, target: MeSettings, plan: MePlan, x: seq<real>, k: nat, n: nat): real
    requires Fits(run, target, RolesOf(desk, plan), desk.Slots()) && |x| == desk.Slots() && n > 0
  {
    var sting := desk.Slots() - 1;
    SumAt(c, desk, plan.me, run, target, RolesOf(desk, plan), x, k, n)
    + StingAt(c, plan, x[sting], run.level[sting], Level(c, target.strips[sting]), k, n)
  }

  /** A sample of the ME: the strips and the stinger, the master, Fade to Black. */
  function SampleAt(c: Curves, desk: Desk, run: MeRun, target: MeSettings, plan: MePlan, x: seq<real>, k: nat, n: nat): real
    requires Fits(run, target, RolesOf(desk, plan), desk.Slots()) && |x| == desk.Slots() && n > 0
  {
    StripsAndSting(c, desk, run, target, plan, x, k, n)
    * RampAt(c, run.master, DbToGain(c, target.masterDb), k, n) * (1.0 - LinearAt(plan.ftbPrev, plan.ftb, k, n))
  }

  // ---- the default mix is the simple crossfade ---------------------------------------------------------

  function CrossfadeSample(c: Curves, a: real, b: real, t0: real, t1: real, k: nat, n: nat): real
    requires n > 0
  {
    var g := TransitionAt(c, t0, t1, k, n);
    a * g.a + b * g.b
  }

  /** Every fader at 0 dB, AFV on (the stinger has none), no fade, no key that is heard, and no strip that is
      still on its way from somewhere else. */
  ghost predicate Default(c: Curves, desk: Desk, run: MeRun, target: MeSettings, plan: MePlan)
    requires Shaped(desk, run, target)
  {
    var r := RolesOf(desk, plan);
    && run.master == 1.0 && target.masterDb == 0.0 && plan.ftb == 0.0 && plan.ftbPrev == 0.0 && plan.keyed == [] && !plan.backgroundCovered
    && (forall s :: 0 <= s < desk.Slots() - 1 ==> run.level[s] == 1.0 && run.afv[s] == 1.0 && target.strips[s] == StripSettings(0.0, false, true))
    && (forall s :: 0 <= s < desk.Slots() - 1 ==>
          if s == r.a || s == r.b then Near(run.weight[s], FirstWeight(c, r, s), if r.transition then DEADBAND else 0.0) else run.weight[s] == 0.0)
  }

  lemma DefaultGain(c: Curves, desk: Desk, run: MeRun, target: MeSettings, plan: MePlan, s: nat, k: nat, n: nat)
    requires Shaped(desk, run, target) && n > 0 && Default(c, desk, run, target, plan) && s < desk.Slots() - 1
    requires !(plan.mixing || plan.stinger > 0) ==> plan.t == 0.0 && plan.tPrev == 0.0
    ensures var r := RolesOf(desk, plan);
            var g := TransitionAt(c, plan.tPrev, plan.t, k, n);
            TotalAt(c, run, target, r, s, k, n) == (if s == r.a then g.a else 0.0) + (if s == r.b then g.b else 0.0)
  {
    var r := RolesOf(desk, plan);
    assert !KeyedAt(r, s);
    if !r.transition {
      DivIs((0.0 - 0.0) * k as real, n as real, 0.0);
    }
  }

  lemma {:induction false} DefaultSum(c: Curves, desk: Desk, run: MeRun, target: MeSettings, plan: MePlan, x: seq<real>, s: nat, k: nat, n: nat)
    requires Shaped(desk, run, target) && n > 0 && Default(c, desk, run, target, plan) && |x| == desk.Slots()
    requires !(plan.mixing || plan.stinger > 0) ==> plan.t == 0.0 && plan.tPrev == 0.0
    ensures var r := RolesOf(desk, plan);
            var g := TransitionAt(c, plan.tPrev, plan.t, k, n);
            StripsFrom(c, desk, plan.me, run, target, r, x, s, k, n) == (if r.a >= s then x[r.a] * g.a else 0.0) + (if r.b >= s then x[r.b] * g.b else 0.0)
    decreases desk.Slots() - s
  {
    hide TotalAt, TransitionAt;
    if s < desk.Slots() - 1 {
      DefaultGain(c, desk, run, target, plan, s, k, n);
      DefaultSum(c, desk, run, target, plan, x, s + 1, k, n);
      var g := TransitionAt(c, plan.tPrev, plan.t, k, n);
      Distribute(x[s], g.a, g.b, g.a + g.b);
    }
  }

  /** With default settings and no stinger sound every sample is the equal-power crossfade of A and B from
      tPrev to t (Black is silence); without a transition it is A alone. */
  lemma DefaultIsTheCrossfade(c: Curves, desk: Desk, run: MeRun, target: MeSettings, plan: MePlan, x: seq<real>, k: nat, n: nat)
    requires Shaped(desk, run, target) && n > 0 && Default(c, desk, run, target, plan) && |x| == desk.Slots() && x[desk.Slots() - 1] == 0.0
    requires !(plan.mixing || plan.stinger > 0) ==> plan.t == 0.0 && plan.tPrev == 0.0
    requires Fits(run, target, RolesOf(desk, plan), desk.Slots())
    ensures var r := RolesOf(desk, plan);
            SampleAt(c, desk, run, target, plan, x, k, n) ==
            CrossfadeSample(c, if r.a >= 0 then x[r.a] else 0.0, if r.b >= 0 then x[r.b] else 0.0, plan.tPrev, plan.t, k, n)
  {
    hide TransitionAt, SumAt, StripsFrom;
    SumIsOfStrips(c, desk, run, target, plan, x, k, n);
    DefaultSum(c, desk, run, target, plan, x, 0, k, n);
    CurveEnds(c, 0.0, 0.0, n);
    DivIs((0.0 - 0.0) * k as real, n as real, 0.0);
  }

  predicate InTransition(plan: MePlan) {
    plan.mixing || plan.stinger > 0
  }

  /** The next plan goes on where this one ends: the transition itself, its end or its T-bar back at 0, or its start. */
  predicate GoesOn(p: MePlan, q: MePlan) {
    p.me == q.me &&
    if InTransition(p) && InTransition(q) then q.a == p.a && q.b == p.b && q.tPrev == p.t
    else if InTransition(p) then (p.t >= 1.0 && q.a == p.b) || (p.t <= 0.0 && q.a == p.a)
    else q.a == p.a && (InTransition(q) ==> q.tPrev <= 0.0)
  }

  predicate PlainPlan(plan: MePlan) {
    plan.ftb == 0.0 && plan.ftbPrev == 0.0 && plan.keyed == [] && !plan.backgroundCovered
  }

  predicate PlainSettings(desk: Desk, target: MeSettings) {
    |target.strips| == desk.Slots() && target.masterDb == 0.0
    && forall s :: 0 <= s < desk.Slots() - 1 ==> target.strips[s] == StripSettings(0.0, false, true)
  }

  /** The first grain is a default one when its settings and plan are, and so is every grain that goes on from one. */
  lemma DefaultStarts(c: Curves, desk: Desk, run: MeRun, target: MeSettings, plan: MePlan)
    requires Shaped(desk, run, target) && !run.primed && PlainSettings(desk, target) && PlainPlan(plan)
    ensures var p := Primed(c, run, target, RolesOf(desk, plan));
            Shaped(desk, p, target) && Default(c, desk, p, target, plan)
  {
  }

  lemma DefaultWeights(c: Curves, desk: Desk, p: MePlan, q: MePlan, s: nat)
    requires PlainPlan(p) && PlainPlan(q) && GoesOn(p, q)
    ensures var r, t := RolesOf(desk, p), RolesOf(desk, q);
            EndWeight(c, r, s) == if s == t.a || s == t.b then FirstWeight(c, t, s) else 0.0
  {
    assert !KeyedAt(RolesOf(desk, p), s) && !KeyedAt(RolesOf(desk, q), s);
  }

  lemma DefaultGoesOn(c: Curves, desk: Desk, run: MeRun, target: MeSettings, p: MePlan, next: MeSettings, q: MePlan)
    requires Shaped(desk, run, target) && run.primed && Default(c, desk, run, target, p)
    requires PlainSettings(desk, target) && PlainSettings(desk, next) && PlainPlan(p) && PlainPlan(q) && GoesOn(p, q) && 1 <= p.me <= desk.mes
    ensures var r := Mixed(c, desk, run, target, p);
            Shaped(desk, r, next) && r.primed && Default(c, desk, r, next, q)
  {
    hide CrossfadeAt, EndWeight, FirstWeight;
    var r := Mixed(c, desk, run, target, p);
    var t := RolesOf(desk, q);
    forall s | 0 <= s < desk.Slots() - 1
      ensures if s == t.a || s == t.b then r.weight[s] == FirstWeight(c, t, s) else r.weight[s] == 0.0
    {
      DefaultWeights(c, desk, p, q, s);
    }
  }

  // ---- re-entry ------------------------------------------------------------------------------------------

  /** One sample of ME `me`: its strips' gains, what the stinger adds, and the master with Fade to Black. */
  datatype MeSample = MeSample(me: int, gains: seq<real>, sting: real, factor: real)

  function Weigh(desk: Desk, me: int, gains: seq<real>, x: seq<real>, s: nat): real
    requires |gains| == |x| == desk.Slots()
    decreases desk.Slots() - s
  {
    if s >= desk.Slots() - 1 then 0.0 else (if desk.HasStrip(me, s) then x[s] * gains[s] else 0.0) + Weigh(desk, me, gains, x, s + 1)
  }

  /** The strips' sources: the inputs' and players' sound, and the MEs' outputs of now. */
  function Sources(desk: Desk, sound: seq<real>, outs: seq<real>): (x: seq<real>)
    requires |sound| == desk.inputs + desk.players && |outs| == desk.mes
    ensures |x| == desk.Slots()
  {
    sound + outs + [0.0]
  }

  function OutOf(desk: Desk, m: MeSample, sound: seq<real>, outs: seq<real>): real
    requires |sound| == desk.inputs + desk.players && |outs| == desk.mes && |m.gains| == desk.Slots()
  {
    (Weigh(desk, m.me, m.gains, Sources(desk, sound, outs), 0) + m.sting) * m.factor
  }

  function MixInOrder(desk: Desk, mes: seq<MeSample>, sound: seq<real>, outs: seq<real>): (r: seq<real>)
    requires |sound| == desk.inputs + desk.players && |outs| == desk.mes
    requires forall j :: 0 <= j < |mes| ==> 1 <= mes[j].me <= desk.mes && |mes[j].gains| == desk.Slots()
    ensures |r| == desk.mes
    decreases |mes|
  {
    if |mes| == 0 then outs
    else
      var m := mes[0];
      var v := OutOf(desk, m, sound, outs);
      MixInOrder(desk, mes[1..], sound, outs[m.me - 1 := v])
  }

  lemma {:induction false} WeighsOnlyItsStrips(desk: Desk, me: int, gains: seq<real>, x: seq<real>, y: seq<real>, s: nat)
    requires |gains| == |x| == |y| == desk.Slots() && forall t :: desk.HasStrip(me, t) ==> x[t] == y[t]
    ensures Weigh(desk, me, gains, x, s) == Weigh(desk, me, gains, y, s)
    decreases desk.Slots() - s
  {
    if s < desk.Slots() - 1 { WeighsOnlyItsStrips(desk, me, gains, x, y, s + 1); }
  }

  /** MEs mixed from the highest down hear the re-entered Programs of this grain: what the buffers held before
      is heard nowhere. */
  lemma {:induction false} OldProgramsAreNotHeard(desk: Desk, mes: seq<MeSample>, sound: seq<real>, outs: seq<real>, others: seq<real>)
    requires |sound| == desk.inputs + desk.players && |outs| == |others| == desk.mes
    requires |mes| <= desk.mes && forall j :: 0 <= j < |mes| ==> mes[j].me == |mes| - j && |mes[j].gains| == desk.Slots()
    requires forall n :: |mes| <= n < desk.mes ==> outs[n] == others[n]
    ensures MixInOrder(desk, mes, sound, outs) == MixInOrder(desk, mes, sound, others)
    decreases |mes|
  {
    if |mes| > 0 {
      var m := mes[0];
      WeighsOnlyItsStrips(desk, m.me, m.gains, Sources(desk, sound, outs), Sources(desk, sound, others), 0);
      var v := OutOf(desk, m, sound, outs);
      var x, y := Sources(desk, sound, outs), Sources(desk, sound, others);
      assert forall t :: desk.HasStrip(m.me, t) ==> x[t] == y[t];
      assert v == OutOf(desk, m, sound, others);
      OldProgramsAreNotHeard(desk, mes[1..], sound, outs[m.me - 1 := v], others[m.me - 1 := v]);
    } else {
      assert outs == others;
    }
  }

  lemma {:induction false} StripsAreWeighed(c: Curves, desk: Desk, me: int, run: MeRun, target: MeSettings, r: Roles, x: seq<real>, gains: seq<real>, s: nat, k: nat, n: nat)
    requires Shaped(desk, run, target) && |x| == |gains| == desk.Slots() && n > 0
    requires forall t :: 0 <= t < desk.Slots() ==> gains[t] == TotalAt(c, run, target, r, t, k, n)
    ensures StripsFrom(c, desk, me, run, target, r, x, s, k, n) == Weigh(desk, me, gains, x, s)
    decreases desk.Slots() - s
  {
    hide TotalAt;
    if s < desk.Slots() - 1 { StripsAreWeighed(c, desk, me, run, target, r, x, gains, s + 1, k, n); }
  }

  /** One sample of one ME's grain as MixInOrder takes it. */
  function SampleOf(c: Curves, desk: Desk, run: MeRun, target: MeSettings, plan: MePlan, sting: real, k: nat, n: nat): (m: MeSample)
    requires Fits(run, target, RolesOf(desk, plan), desk.Slots()) && n > 0
    ensures |m.gains| == desk.Slots()
  {
    var r, s := RolesOf(desk, plan), desk.Slots() - 1;
    MeSample(plan.me, seq(desk.Slots(), t requires 0 <= t < |run.level| && Fits(run, target, r, desk.Slots()) => TotalAt(c, run, target, r, t, k, n)),
             StingAt(c, plan, sting, run.level[s], Level(c, target.strips[s]), k, n),
             RampAt(c, run.master, DbToGain(c, target.masterDb), k, n) * (1.0 - LinearAt(plan.ftbPrev, plan.ftb, k, n)))
  }

  /** The sample each ME makes is the one MixInOrder passes on to the MEs below. */
  lemma SampleGoesOn(c: Curves, desk: Desk, run: MeRun, target: MeSettings, plan: MePlan, x: seq<real>, k: nat, n: nat)
    requires Fits(run, target, RolesOf(desk, plan), desk.Slots()) && |x| == desk.Slots() && n > 0
    ensures var m := SampleOf(c, desk, run, target, plan, x[desk.Slots() - 1], k, n);
            SampleAt(c, desk, run, target, plan, x, k, n) == (Weigh(desk, m.me, m.gains, x, 0) + m.sting) * m.factor
  {
    hide TotalAt, RolesOf, RampAt, LinearAt, StingAt, SumAt, Level, DbToGain, Weigh, StripsFrom;
    var m := SampleOf(c, desk, run, target, plan, x[desk.Slots() - 1], k, n);
    SumIsOfStrips(c, desk, run, target, plan, x, k, n);
    StripsAreWeighed(c, desk, plan.me, run, target, RolesOf(desk, plan), x, m.gains, 0, k, n);
    Associate(Weigh(desk, m.me, m.gains, x, 0) + m.sting, RampAt(c, run.master, DbToGain(c, target.masterDb), k, n), 1.0 - LinearAt(plan.ftbPrev, plan.ftb, k, n));
  }

  lemma Associate(x: real, y: real, z: real)
    ensures x * y * z == x * (y * z)
  {
  }

  // ---- the loops that write the curves and the sum -----------------------------------------------------

  method SmoothRamp(c: Curves, g0: real, g1: real, n: nat, out: array<real>)
    requires out.Length == n
    modifies out
    ensures forall s :: 0 <= s < n ==> out[s] == RampAt(c, g0, g1, s + 1, n)
  {
    var d := g1 - g0;
    var s := 0;
    while s + 1 < n
      invariant 0 <= s <= n && (n > 0 ==> s < n)
      invariant forall i :: 0 <= i < s ==> out[i] == RampAt(c, g0, g1, i + 1, n)
    {
      out[s] := g0 + d * SmoothAt(c, s + 1, n);
      s := s + 1;
    }
    if n > 0 {
      out[n - 1] := g1;
    }
  }

  method LinearRamp(g0: real, g1: real, n: nat, out: array<real>)
    requires out.Length == n
    modifies out
    ensures forall s :: 0 <= s < n ==> out[s] == LinearAt(g0, g1, s + 1, n)
  {
    for s := 0 to n
      invariant forall i :: 0 <= i < s ==> out[i] == LinearAt(g0, g1, i + 1, n)
    {
      out[s] := LinearAt(g0, g1, s + 1, n);
    }
  }

  method TransitionCurve(c: Curves, tPrev: real, t: real, n: nat, a: array<real>, b: array<real>)
    requires a.Length == n == b.Length && a != b
    modifies a, b
    ensures forall s :: 0 <= s < n ==> a[s] == TransitionAt(c, tPrev, t, s + 1, n).a && b[s] == TransitionAt(c, tPrev, t, s + 1, n).b
  {
    for s := 0 to n
      invariant forall i :: 0 <= i < s ==> a[i] == TransitionAt(c, tPrev, t, i + 1, n).a && b[i] == TransitionAt(c, tPrev, t, i + 1, n).b
    {
      var g := CrossfadeAt(c.trig, LinearAt(tPrev, t, s + 1, n));
      a[s] := g.a;
      b[s] := g.b;
    }
  }

  /** The simple crossfade of two sources over one grain. */
  method CrossfadeBlock(c: Curves, a: seq<real>, b: seq<real>, t0: real, t1: real, out: array<real>)
    requires |a| == |b| == out.Length
    modifies out
    ensures forall s :: 0 <= s < out.Length ==> out[s] == CrossfadeSample(c, a[s], b[s], t0, t1, s + 1, out.Length)
  {
    for s := 0 to out.Length
      invariant forall i :: 0 <= i < s ==> out[i] == CrossfadeSample(c, a[i], b[i], t0, t1, i + 1, out.Length)
    {
      var g := CrossfadeAt(c.trig, LinearAt(t0, t1, s + 1, out.Length));
      out[s] := a[s] * g.a + b[s] * g.b;
    }
  }

  method CutCurve(c: Curves, w0: real, w1: real, n: nat, out: array<real>)
    requires out.Length == n
    modifies out
    ensures forall s :: 0 <= s < n ==> out[s] == CutAt(c, w0, w1, s + 1, n)
  {
    if n == 0 {
      return;
    }
    if w0 == w1 {
      for s := 0 to n
        invariant forall i :: 0 <= i < s ==> out[i] == w1
      {
        out[s] := w1;
      }
      return;
    }
    var s := 0;
    while s + 1 < n
      invariant 0 <= s < n
      invariant forall i :: 0 <= i < s ==> out[i] == CutAt(c, w0, w1, i + 1, n)
    {
      var g := CrossfadeAt(c.trig, SmoothAt(c, s + 1, n));
      out[s] := if w1 < w0 then w1 + (w0 - w1) * g.a else w0 + (w1 - w0) * g.b;
      s := s + 1;
    }
    out[n - 1] := w1;
  }

  lemma RampFlat(c: Curves, x: real, n: nat)
    ensures forall k :: 0 <= k ==> RampAt(c, x, x, k, n) == x
  {
    forall k | 0 <= k ensures RampAt(c, x, x, k, n) == x {
      assert (x - x) * SmoothAt(c, k, n) == 0.0;
    }
  }

  /** One gain for all, or one per sample. */
  function GainAt(gc: Option<real>, gain: array<real>, s: nat): real
    reads gain
    requires s < gain.Length
  {
    if gc.Some? then gc.value else gain[s]
  }

  /** A strip's gain over the grain where its weight is `weight` (or stays wc): per sample, or one for all. */
  method StripGain(c: Curves, l0: real, l1: real, a0: real, a1: real, weight: Option<array<real>>, wc: real, n: nat, gain: array<real>) returns (gc: Option<real>)
    requires gain.Length == n && (weight.Some? ==> weight.value.Length == n && weight.value != gain)
    modifies gain
    ensures forall s :: 0 <= s < n ==>
              GainAt(gc, gain, s) ==
              Blend(RampAt(c, l0, l1, s + 1, n), RampAt(c, a0, a1, s + 1, n), if weight.Some? then weight.value[s] else wc)
  {
    hide RampAt, Blend;
    RampFlat(c, l1, n);
    RampFlat(c, a1, n);
    if l0 == l1 && a0 == a1 && weight.None? {
      return Some(Blend(l1, a1, wc));
    }
    var ramp, blend := new real[n], new real[n];
    if l0 != l1 {
      SmoothRamp(c, l0, l1, n, ramp);
    }
    if a0 != a1 {
      SmoothRamp(c, a0, a1, n, blend);
    }
    for s := 0 to n
      modifies gain
      invariant forall i :: 0 <= i < s ==>
                  gain[i] == Blend(RampAt(c, l0, l1, i + 1, n), RampAt(c, a0, a1, i + 1, n), if weight.Some? then weight.value[i] else wc)
    {
      var l := if l0 != l1 then ramp[s] else l1;
      var w := if weight.Some? then weight.value[s] else wc;
      var a := if a0 != a1 then blend[s] else a1;
      gain[s] := Blend(l, a, w);
    }
    gc := None;
  }

  /** x times a gain into the sum: the first term is put, the others added. */
  method AddTerm(dst: array<real>, first: bool, x: seq<real>, gain: array<real>, gc: Option<real>)
    requires dst.Length == gain.Length == |x| && dst != gain
    modifies dst
    ensures forall s :: 0 <= s < dst.Length ==>
              dst[s] == (if first then 0.0 else old(dst[s])) + x[s] * GainAt(gc, gain, s)
  {
    for s := 0 to dst.Length
      invariant forall i :: s <= i < dst.Length ==> dst[i] == old(dst[i])
      invariant forall i :: 0 <= i < s ==> dst[i] == (if first then 0.0 else old(dst[i])) + x[i] * GainAt(gc, gain, i)
    {
      var v := x[s] * GainAt(gc, gain, s);
      dst[s] := if first then v else dst[s] + v;
    }
  }

  lemma ZeroTimes(x: real, y: real)
    ensures x == 0.0 || y == 0.0 ==> x * y == 0.0
  {
  }

  /** The sound of strip s at sample i; nothing is silence. */
  function Sound(x: seq<Option<seq<real>>>, s: nat, i: nat): real
    requires s < |x| && (x[s].Some? ==> i < |x[s].value|)
  {
    if x[s].Some? then x[s].value[i] else 0.0
  }

  predicate LongEnough(x: seq<Option<seq<real>>>, n: nat) {
    forall s :: 0 <= s < |x| && x[s].Some? ==> |x[s].value| == n
  }

  function Column(x: seq<Option<seq<real>>>, i: nat, n: nat): (r: seq<real>)
    requires LongEnough(x, n) && i < n
    ensures |r| == |x| && forall s :: 0 <= s < |x| ==> r[s] == Sound(x, s, i)
  {
    seq(|x|, s requires 0 <= s < |x| && LongEnough(x, n) => Sound(x, s, i))
  }

  /** Strip s finished at its settings and weight `end`. */
  function Fin(c: Curves, run: MeRun, target: StripSettings, s: nat, end: real): MeRun
    requires s < |run.level| == |run.afv| == |run.weight| == |run.gain|
  {
    run.(level := run.level[s := Level(c, target)], afv := run.afv[s := Afv(target)],
         weight := run.weight[s := end], gain := run.gain[s := Published(Level(c, target), Afv(target), end)])
  }

  function FinishSides(c: Curves, run: MeRun, target: MeSettings, r: Roles): (q: MeRun)
    requires |run.level| == |run.afv| == |run.weight| == |run.gain| == |target.strips| && r.a < |run.level| && r.b < |run.level|
    ensures |q.level| == |q.afv| == |q.weight| == |q.gain| == |run.level|
  {
    var one := if r.a >= 0 && Follows(r, r.a) then Fin(c, run, target.strips[r.a], r.a, EndWeight(c, r, r.a)) else run;
    if r.b >= 0 && r.b != r.a && Follows(r, r.b) then Fin(c, one, target.strips[r.b], r.b, EndWeight(c, r, r.b)) else one
  }

  function FinishFrom(c: Curves, desk: Desk, me: int, run: MeRun, target: MeSettings, r: Roles, s: nat): (q: MeRun)
    requires Shaped(desk, run, target)
    ensures Shaped(desk, q, target) && q.primed == run.primed && q.master == run.master
    ensures forall t :: 0 <= t < desk.Slots() ==>
              if s <= t < desk.Slots() - 1 && desk.HasStrip(me, t) && !Follows(r, t)
              then q.level[t] == Level(c, target.strips[t]) && q.afv[t] == Afv(target.strips[t]) && q.weight[t] == TargetWeight(r, t)
                   && q.gain[t] == Published(Level(c, target.strips[t]), Afv(target.strips[t]), TargetWeight(r, t))
              else q.level[t] == run.level[t] && q.afv[t] == run.afv[t] && q.weight[t] == run.weight[t] && q.gain[t] == run.gain[t]
    decreases desk.Slots() - s
  {
    if s >= desk.Slots() - 1 then run
    else FinishFrom(c, desk, me, if desk.HasStrip(me, s) && !Follows(r, s) then Fin(c, run, target.strips[s], s, TargetWeight(r, s)) else run, target, r, s + 1)
  }

  /** Both sides of a transition in one sample. */
  function SidesAt(c: Curves, run: MeRun, target: MeSettings, r: Roles, x: seq<real>, k: nat, n: nat): real
    requires n > 0 && r.a < |x| == |run.level| == |run.afv| == |run.weight| == |target.strips| && r.b < |x|
  {
    (if r.a >= 0 && Follows(r, r.a) then x[r.a] * TermA(c, run, target, r, k, n) else 0.0)
    + (if r.b >= 0 && Follows(r, r.b) then x[r.b] * TermB(c, run, target, r, k, n) else 0.0)
  }

  /** The mix of one ME, grain by grain. */
  class MeMixer {
    const c: Curves
    const desk: Desk
    const me: int
    var run: MeRun

    ghost predicate Valid()
      reads this
    {
      1 <= me <= desk.mes && CurvesOk(c) && Stands(desk, me, run)
    }

    constructor (c: Curves, desk: Desk, me: int)
      requires 1 <= me <= desk.mes && CurvesOk(c)
      ensures Valid() && !run.primed && this.c == c && this.desk == desk && this.me == me
    {
      this.c, this.desk, this.me := c, desk, me;
      var n := desk.Slots();
      run := MeRun(false, 1.0, seq(n, i => 1.0), seq(n, i => 1.0), seq(n, i => 0.0), seq(n, i => 0.0));
    }

    /** A's or B's curve, moved onto where the last grain left the strip. */
    method SideCurve(w0: real, start: real, curve: array<real>, n: nat) returns (weight: array<real>)
      requires curve.Length == n
      ensures weight.Length == n && (weight == curve || fresh(weight))
      ensures forall i :: 0 <= i < n ==> weight[i] == curve[i] + OffsetAt(c, w0, start, i + 1, n)
    {
      weight := curve;
      var off := w0 - start;
      if off > DEADBAND || off < -DEADBAND {
        weight := new real[n];
        SmoothRamp(c, 1.0, 0.0, n, weight);
        for i := 0 to n
          modifies weight
          invariant forall j :: 0 <= j < i ==> weight[j] == curve[j] + OffsetAt(c, w0, start, j + 1, n)
          invariant forall j :: i <= j < n ==> weight[j] == RampAt(c, 1.0, 0.0, j + 1, n)
        {
          weight[i] := curve[i] + off * weight[i];
        }
      }
    }

    /** One strip into the sum at its gain. */
    method AddStrip(target: StripSettings, s: nat, weight: Option<array<real>>, wc: real, x: seq<Option<seq<real>>>, n: nat, dst: array<real>, first: bool)
      returns (still: bool)
      requires s < |run.level| == |run.afv| && s < |x| && LongEnough(x, n) && dst.Length == n
      requires weight.Some? ==> weight.value.Length == n && weight.value != dst
      modifies dst
      ensures forall i :: 0 <= i < n ==>
                (if still then 0.0 else dst[i]) == (if first then 0.0 else old(dst[i]))
                + Sound(x, s, i) * StripGainAt(c, run, target, s, if weight.Some? then old(weight.value[i]) else wc, i + 1, n)
    {
      hide RampAt, Blend;
      var gain := new real[n];
      var gc := StripGain(c, run.level[s], Level(c, target), run.afv[s], Afv(target), weight, wc, n, gain);
      if x[s].None? || gc == Some(0.0) {
        still := first;
        forall i | 0 <= i < n
          ensures Sound(x, s, i) * StripGainAt(c, run, target, s, if weight.Some? then old(weight.value[i]) else wc, i + 1, n) == 0.0
        {
          assert GainAt(gc, gain, i) == StripGainAt(c, run, target, s, if weight.Some? then old(weight.value[i]) else wc, i + 1, n);
          ZeroTimes(Sound(x, s, i), StripGainAt(c, run, target, s, if weight.Some? then old(weight.value[i]) else wc, i + 1, n));
        }
        return;
      }
      AddTerm(dst, first, x[s].value, gain, gc);
      still := false;
      forall i | 0 <= i < n
        ensures GainAt(gc, gain, i) == StripGainAt(c, run, target, s, if weight.Some? then old(weight.value[i]) else wc, i + 1, n)
      {
      }
    }

    method Finish(s: nat, target: StripSettings, end: real)
      requires s < |run.level| == |run.afv| == |run.weight| == |run.gain|
      modifies this`run
      ensures run == Fin(c, old(run), target, s, end)
    {
      var level, afv := Level(c, target), Afv(target);
      run := run.(level := run.level[s := level], afv := run.afv[s := afv], weight := run.weight[s := end],
                  gain := run.gain[s := Published(level, afv, end)]);
    }

    ghost function Val(first: bool, dst: array<real>, i: nat): real
      reads dst
      requires i < dst.Length
    {
      if first then 0.0 else dst[i]
    }

    /** One side of a transition. Black has no strip and no sound. */
    method AddSide(target: MeSettings, r: Roles, s: int, start: Option<real>, curve: array<real>, x: seq<Option<seq<real>>>, n: nat, dst: array<real>, first: bool)
      returns (still: bool)
      requires Fits(run, target, r, desk.Slots()) && |x| == desk.Slots() && LongEnough(x, n)
      requires (s == r.a || s == r.b) && r.background && n > 0
      requires dst.Length == curve.Length == n && dst != curve
      modifies dst
      ensures forall i :: 0 <= i < n ==>
                Val(still, dst, i) == old(Val(first, dst, i))
                + (if s >= 0 && Follows(r, s)
                   then Sound(x, s, i) * StripGainAt(c, run, target.strips[s], s, curve[i] + (if start.Some? then OffsetAt(c, run.weight[s], start.value, i + 1, n) else 0.0), i + 1, n)
                   else 0.0)
    {
      hide StripGainAt, OffsetAt;
      if s < 0 || r.keyed[s] {
        return first;
      }
      var weight := curve;
      if start.Some? {
        weight := SideCurve(run.weight[s], start.value, curve, n);
      }
      still := AddStrip(target.strips[s], s, Some(weight), 0.0, x, n, dst, first);
    }

    method MixA(target: MeSettings, r: Roles, curve: array<real>, x: seq<Option<seq<real>>>, n: nat, dst: array<real>, first: bool) returns (still: bool)
      requires Fits(run, target, r, desk.Slots()) && |x| == desk.Slots() && LongEnough(x, n) && n > 0 && r.background
      requires dst.Length == curve.Length == n && dst != curve && forall i :: 0 <= i < n ==> curve[i] == TransitionAt(c, r.tPrev, r.t, i + 1, n).a
      modifies dst
      ensures forall i :: 0 <= i < n ==>
                Val(still, dst, i) == old(Val(first, dst, i)) + if r.a >= 0 && Follows(r, r.a) then Sound(x, r.a, i) * TermA(c, run, target, r, i + 1, n) else 0.0
    {
      hide StripGainAt, OffsetAt, TransitionAt, CrossfadeAt;
      var starts := CrossfadeAt(c.trig, r.tPrev);
      still := AddSide(target, r, r.a, Some(if r.a == r.b then starts.a + starts.b else starts.a), curve, x, n, dst, first);
    }

    method MixB(target: MeSettings, r: Roles, curve: array<real>, x: seq<Option<seq<real>>>, n: nat, dst: array<real>, first: bool) returns (still: bool)
      requires Fits(run, target, r, desk.Slots()) && |x| == desk.Slots() && LongEnough(x, n) && n > 0 && r.background
      requires dst.Length == curve.Length == n && dst != curve && forall i :: 0 <= i < n ==> curve[i] == TransitionAt(c, r.tPrev, r.t, i + 1, n).b
      modifies dst
      ensures forall i :: 0 <= i < n ==>
                Val(still, dst, i) == old(Val(first, dst, i)) + if r.b >= 0 && Follows(r, r.b) then Sound(x, r.b, i) * TermB(c, run, target, r, i + 1, n) else 0.0
    {
      hide StripGainAt, OffsetAt, TransitionAt, CrossfadeAt;
      var starts := CrossfadeAt(c.trig, r.tPrev);
      still := AddSide(target, r, r.b, if r.a == r.b then None else Some(starts.b), curve, x, n, dst, first);
    }

    /** A transition's A and B on its curve. */
    method MixSides(target: MeSettings, r: Roles, x: seq<Option<seq<real>>>, n: nat, dst: array<real>) returns (first: bool)
      requires Fits(run, target, r, desk.Slots()) && |x| == desk.Slots() && LongEnough(x, n) && n > 0 && dst.Length == n
      modifies dst
      ensures forall i :: 0 <= i < n ==> Val(first, dst, i) == SidesAt(c, run, target, r, Column(x, i, n), i + 1, n)
    {
      hide TermA, TermB, TransitionAt;
      first := true;
      if r.background {
        var a, b := new real[n], new real[n];
        TransitionCurve(c, r.tPrev, r.t, n, a, b);
        first := MixA(target, r, a, x, n, dst, first);
        first := MixB(target, r, b, x, n, dst, first);
      }
    }

    method FinishBoth(target: MeSettings, r: Roles)
      requires Fits(run, target, r, desk.Slots())
      modifies this`run
      ensures run == FinishSides(c, old(run), target, r)
    {
      hide CrossfadeAt;
      if r.background {
        var ends := CrossfadeAt(c.trig, r.t);
        if r.a >= 0 && !r.keyed[r.a] {
          Finish(r.a, target.strips[r.a], if r.a == r.b then ends.a + ends.b else ends.a);
        }
        if r.b >= 0 && r.b != r.a && !r.keyed[r.b] {
          Finish(r.b, target.strips[r.b], ends.b);
        }
      }
    }

    /** A strip that does not follow the transition: its weight cuts over the grain, or stays. */
    method AddOther(target: MeSettings, r: Roles, s: nat, x: seq<Option<seq<real>>>, n: nat, dst: array<real>, first: bool) returns (still: bool)
      requires Fits(run, target, r, desk.Slots()) && |x| == desk.Slots() && LongEnough(x, n) && n > 0 && dst.Length == n && s < desk.Slots()
      modifies dst
      ensures forall i :: 0 <= i < n ==>
                Val(still, dst, i) == old(Val(first, dst, i)) + Sound(x, s, i) * OtherTerm(c, run, target, r, s, i + 1, n)
    {
      hide StripGainAt;
      var w0, w1 := run.weight[s], TargetWeight(r, s);
      var weight: Option<array<real>> := None;
      if w0 != w1 {
        var cut := new real[n];
        CutCurve(c, w0, w1, n, cut);
        weight := Some(cut);
      }
      still := AddStrip(target.strips[s], s, weight, w1, x, n, dst, first);
    }

    /** Strip s of the ME, unless it follows the transition, and where it ends. */
    method MixOther(target: MeSettings, r: Roles, s: nat, x: seq<Option<seq<real>>>, n: nat, dst: array<real>, first: bool, ghost p: MeRun) returns (still: bool)
      requires Fits(run, target, r, desk.Slots()) && |x| == desk.Slots() && LongEnough(x, n) && n > 0 && dst.Length == n && s < desk.Slots() - 1
      requires Shaped(desk, p, target) && run.level[s] == p.level[s] && run.afv[s] == p.afv[s] && run.weight[s] == p.weight[s]
      modifies dst, this`run
      ensures run == if desk.HasStrip(me, s) && !Follows(r, s) then Fin(c, old(run), target.strips[s], s, TargetWeight(r, s)) else old(run)
      ensures forall i :: 0 <= i < n ==>
                Val(still, dst, i) == old(Val(first, dst, i)) + if desk.HasStrip(me, s) && !Follows(r, s) then Sound(x, s, i) * OtherTerm(c, p, target, r, s, i + 1, n) else 0.0
    {
      hide TargetWeight, RampAt, Blend, CutAt;
      still := first;
      if desk.HasStrip(me, s) && !Follows(r, s) {
        still := AddOther(target, r, s, x, n, dst, first);
        Finish(s, target.strips[s], TargetWeight(r, s));
      }
    }

    /** The sum so far and the strips from s on. */
    ghost function SumFrom(first: bool, dst: array<real>, i: nat, p: MeRun, target: MeSettings, r: Roles, x: seq<Option<seq<real>>>, s: nat, n: nat): real
      reads dst
      requires i < dst.Length == n && Shaped(desk, p, target) && |x| == desk.Slots() && LongEnough(x, n)
    {
      Val(first, dst, i) + OthersFrom(c, desk, me, p, target, r, Column(x, i, n), s, i + 1, n)
    }

    /** Every other strip of the ME. */
    method MixOthers(target: MeSettings, r: Roles, x: seq<Option<seq<real>>>, n: nat, dst: array<real>, first: bool) returns (still: bool)
      requires Fits(run, target, r, desk.Slots()) && |x| == desk.Slots() && LongEnough(x, n) && n > 0 && dst.Length == n
      modifies dst, this`run
      ensures run == FinishFrom(c, desk, me, old(run), target, r, 0)
      ensures forall i :: 0 <= i < n ==> Val(still, dst, i) == old(SumFrom(first, dst, i, run, target, r, x, 0, n))
    {
      hide OtherTerm, TargetWeight, Follows, Column, Fits, OthersFrom, FinishFrom, Fin;
      ghost var p := run;
      AfvStays(run, target, r, desk.Slots());
      still := first;
      var s := 0;
      while s < desk.Slots() - 1
        invariant 0 <= s <= desk.Slots() - 1 && Shaped(desk, run, target)
        invariant Fits(run, target, r, desk.Slots()) && FinishFrom(c, desk, me, run, target, r, s) == FinishFrom(c, desk, me, p, target, r, 0)
        invariant forall t :: s <= t < desk.Slots() ==> run.level[t] == p.level[t] && run.afv[t] == p.afv[t] && run.weight[t] == p.weight[t]
        invariant forall i :: 0 <= i < n ==> SumFrom(still, dst, i, p, target, r, x, s, n) == old(SumFrom(first, dst, i, run, target, r, x, 0, n))
      {
        FitsAfter(c, run, target, r, desk.Slots(), s);
        ghost var before, had := run, still;
        label here:
        still := MixOther(target, r, s, x, n, dst, still, p);
        forall i | 0 <= i < n ensures SumFrom(still, dst, i, p, target, r, x, s + 1, n) == old@here(SumFrom(had, dst, i, p, target, r, x, s, n)) {
          OthersStep(c, desk, me, p, target, r, x, s, i, n);
        }
        FinishStep(c, desk, me, before, target, r, s);
        s := s + 1;
      }
      forall i | 0 <= i < n ensures Val(still, dst, i) == SumFrom(still, dst, i, p, target, r, x, s, n) {
        NoMoreOthers(c, desk, me, p, target, r, Column(x, i, n), s, i + 1, n);
      }
      assert FinishFrom(c, desk, me, run, target, r, s) == run by { LastFinish(c, desk, me, run, target, r, s); }
    }

    method Silence(dst: array<real>, first: bool)
      modifies dst
      ensures forall i :: 0 <= i < dst.Length ==> dst[i] == old(Val(first, dst, i))
    {
      if first {
        for i := 0 to dst.Length
          invariant forall j :: 0 <= j < i ==> dst[j] == 0.0
        {
          dst[i] := 0.0;
        }
      }
    }

    /** Silence when nothing was heard; then the stinger's own sound at its strip's level. */
    method MixSting(target: MeSettings, plan: MePlan, x: seq<Option<seq<real>>>, n: nat, dst: array<real>, first: bool)
      requires Shaped(desk, run, target) && |x| == desk.Slots() && LongEnough(x, n) && n > 0 && dst.Length == n
      requires x[desk.Slots() - 1].Some? ==> plan.stinger > 0
      modifies dst, this`run
      ensures var s, l1 := desk.Slots() - 1, Level(c, target.strips[desk.Slots() - 1]);
              && run == old(run).(level := old(run).level[s := l1], afv := old(run).afv[s := 0.0], gain := old(run).gain[s := l1])
              && forall i :: 0 <= i < n ==> dst[i] == old(Val(first, dst, i)) + StingAt(c, plan, Sound(x, s, i), old(run).level[s], l1, i + 1, n)
    {
      hide RampAt, Level;
      Silence(dst, first);
      var s := desk.Slots() - 1;
      var l0, l1 := run.level[s], Level(c, target.strips[s]);
      RampFlat(c, l1, n);
      if x[s].Some? && (l0 != 0.0 || l1 != 0.0) {
        var ramp := new real[n];
        if l0 != l1 {
          SmoothRamp(c, l0, l1, n, ramp);
        }
        AddTerm(dst, false, x[s].value, ramp, if l0 != l1 then None else Some(l1));
      }
      run := run.(level := run.level[s := l1], afv := run.afv[s := 0.0], gain := run.gain[s := l1]);
    }

    /** The sound times a gain per sample. */
    method Scale(dst: array<real>, gain: array<real>, gc: Option<real>)
      requires dst.Length == gain.Length && dst != gain
      modifies dst
      ensures forall i :: 0 <= i < dst.Length ==> dst[i] == old(dst[i]) * GainAt(gc, gain, i)
    {
      for i := 0 to dst.Length
        invariant forall j :: i <= j < dst.Length ==> dst[j] == old(dst[j])
        invariant forall j :: 0 <= j < i ==> dst[j] == old(dst[j]) * GainAt(gc, gain, j)
      {
        dst[i] := dst[i] * GainAt(gc, gain, i);
      }
    }

    /** The master on its ramp. */
    method MixMaster(target: MeSettings, n: nat, dst: array<real>)
      requires dst.Length == n
      modifies dst, this`run
      ensures run == old(run).(master := DbToGain(c, target.masterDb))
      ensures forall i :: 0 <= i < n ==> dst[i] == old(dst[i]) * RampAt(c, old(run).master, DbToGain(c, target.masterDb), i + 1, n)
    {
      hide RampAt;
      var m0, m1 := run.master, DbToGain(c, target.masterDb);
      RampFlat(c, m1, n);
      if m0 != 1.0 || m1 != 1.0 {
        var ramp := new real[n];
        if m0 != m1 {
          SmoothRamp(c, m0, m1, n, ramp);
        }
        Scale(dst, ramp, if m0 != m1 then None else Some(m1));
      }
      run := run.(master := m1);
    }

    /** Fade to Black over the whole sound. */
    method MixBlack(plan: MePlan, n: nat, dst: array<real>)
      requires dst.Length == n && plan.ftb >= 0.0 && plan.ftbPrev >= 0.0
      modifies dst
      ensures forall i :: 0 <= i < n ==> dst[i] == old(dst[i]) * (1.0 - LinearAt(plan.ftbPrev, plan.ftb, i + 1, n))
    {
      if plan.ftb > 0.0 || plan.ftbPrev > 0.0 {
        var ramp := new real[n];
        LinearRamp(plan.ftbPrev, plan.ftb, n, ramp);
        for i := 0 to n
          modifies ramp
          invariant forall j :: i <= j < n ==> ramp[j] == LinearAt(plan.ftbPrev, plan.ftb, j + 1, n)
          invariant forall j :: 0 <= j < i ==> ramp[j] == 1.0 - LinearAt(plan.ftbPrev, plan.ftb, j + 1, n)
        {
          ramp[i] := 1.0 - ramp[i];
        }
        Scale(dst, ramp, None);
      } else {
        if n > 0 { NoBlack(n); }
      }
    }

    /** The two sides, the other strips and the stinger. */
    method MixStrips(plan: MePlan, target: MeSettings, r: Roles, x: seq<Option<seq<real>>>, n: nat, dst: array<real>)
      requires r == RolesOf(desk, plan) && plan.me == me && Fits(run, target, r, desk.Slots()) && |x| == desk.Slots() && LongEnough(x, n) && n > 0 && dst.Length == n
      requires x[desk.Slots() - 1].Some? ==> plan.stinger > 0
      modifies dst, this`run
      ensures var s, l1 := desk.Slots() - 1, Level(c, target.strips[desk.Slots() - 1]);
              && Shaped(desk, FinishSides(c, old(run), target, r), target)
              && var q := FinishFrom(c, desk, me, FinishSides(c, old(run), target, r), target, r, 0);
                 run == q.(level := q.level[s := l1], afv := q.afv[s := 0.0], gain := q.gain[s := l1])
      ensures forall i :: 0 <= i < n ==> dst[i] == StripsAndSting(c, desk, old(run), target, plan, Column(x, i, n), i + 1, n)
    {
      hide RolesOf, FinishSides, FinishFrom, RampAt, TermA, TermB, OthersFrom, Level, StingAt;
      ghost var p := run;
      var first := MixSides(target, r, x, n, dst);
      FinishBoth(target, r);
      SidesFit(c, desk, p, target, r);
      ghost var q := run;
      first := MixOthers(target, r, x, n, dst, first);
      RestUntouched(c, desk, me, p, target, r);
      MixSting(target, plan, x, n, dst, first);
      forall i | 0 <= i < n ensures dst[i] == StripsAndSting(c, desk, p, target, plan, Column(x, i, n), i + 1, n) {
        SidesLeaveOthers(c, desk, me, p, q, target, r, Column(x, i, n), 0, i + 1, n);
      }
    }

    /** One grain: every sample is SampleAt's, and the run stands where Mixed says. */
    method Mix(plan: MePlan, target: MeSettings, x: seq<Option<seq<real>>>, n: nat, dst: array<real>)
      requires Valid() && plan.me == me && |target.strips| == |x| == desk.Slots() && LongEnough(x, n) && n > 0 && dst.Length == n
      requires plan.ftb >= 0.0 && plan.ftbPrev >= 0.0 && (x[desk.Slots() - 1].Some? ==> plan.stinger > 0)
      modifies dst, this
      ensures Valid() && run == Mixed(c, desk, old(run), target, plan)
      ensures var p := Primed(c, old(run), target, RolesOf(desk, plan));
              && Fits(p, target, RolesOf(desk, plan), desk.Slots())
              && forall i :: 0 <= i < n ==> dst[i] == SampleAt(c, desk, p, target, plan, Column(x, i, n), i + 1, n)
    {
      hide RolesOf, Primed, FinishSides, FinishFrom, RampAt, LinearAt, StripsAndSting, Level, Fits, Mixed, Column, LongEnough, DbToGain;
      MixedStands(c, desk, run, target, plan);
      ghost var was := run;
      var r := RolesOf(desk, plan);
      PrimedFits(c, desk, me, run, target, plan);
      run := Primed(c, run, target, r);
      ghost var p := run;
      MixStrips(plan, target, r, x, n, dst);
      RestUntouched(c, desk, me, p, target, r);
      EndsAsAfter(c, desk, plan, was, p, target, r);
      MixMaster(target, n, dst);
      MixBlack(plan, n, dst);
    }
  }

  lemma NoBlack(n: nat)
    requires n > 0
    ensures forall k: nat :: LinearAt(0.0, 0.0, k, n) == 0.0
  {
    forall k: nat ensures LinearAt(0.0, 0.0, k, n) == 0.0 {
      DivIs((0.0 - 0.0) * k as real, n as real, 0.0);
    }
  }

  /** Before the stinger its level, and the master, are where the grain began. */
  lemma RestUntouched(c: Curves, desk: Desk, me: int, p: MeRun, target: MeSettings, r: Roles)
    requires Fits(p, target, r, desk.Slots())
    ensures Shaped(desk, FinishSides(c, p, target, r), target)
    ensures var q := FinishFrom(c, desk, me, FinishSides(c, p, target, r), target, r, 0);
            q.level[desk.Slots() - 1] == p.level[desk.Slots() - 1] && q.master == p.master && q.primed == p.primed
  {
    hide Level, EndWeight;
    SidesFit(c, desk, p, target, r);
  }

  lemma PrimedFits(c: Curves, desk: Desk, me: int, run: MeRun, target: MeSettings, plan: MePlan)
    requires CurvesOk(c) && Stands(desk, me, run) && Shaped(desk, run, target) && 1 <= plan.me == me <= desk.mes
    ensures Fits(Primed(c, run, target, RolesOf(desk, plan)), target, RolesOf(desk, plan), desk.Slots())
    ensures Shaped(desk, Primed(c, run, target, RolesOf(desk, plan)), target)
  {
    PrimedStands(c, desk, run, target, RolesOf(desk, plan));
    RolesFit(desk, Primed(c, run, target, RolesOf(desk, plan)), target, plan);
  }

  lemma SidesFit(c: Curves, desk: Desk, run: MeRun, target: MeSettings, r: Roles)
    requires Fits(run, target, r, desk.Slots())
    ensures Shaped(desk, FinishSides(c, run, target, r), target) && Fits(FinishSides(c, run, target, r), target, r, desk.Slots())
  {
    hide Level, EndWeight;
  }

  /** Finishing the two sides changes nothing for the others. */
  lemma {:induction false} SidesLeaveOthers(c: Curves, desk: Desk, me: int, p: MeRun, q: MeRun, target: MeSettings, r: Roles, x: seq<real>, s: nat, k: nat, n: nat)
    requires Fits(p, target, r, desk.Slots()) && q == FinishSides(c, p, target, r) && |x| == desk.Slots() && n > 0
    ensures Shaped(desk, q, target)
    ensures OthersFrom(c, desk, me, q, target, r, x, s, k, n) == OthersFrom(c, desk, me, p, target, r, x, s, k, n)
    decreases desk.Slots() - s
  {
    hide OtherTerm, EndWeight, Level, FinishSides, EndOf;
    SidesFit(c, desk, p, target, r);
    if s < desk.Slots() - 1 {
      SideEnds(c, desk, p, target, r, s);
      SidesLeaveOthers(c, desk, me, p, q, target, r, x, s + 1, k, n);
      if !Follows(r, s) { SameTerm(c, q, p, target, r, s, k, n); }
    }
  }

  /** A strip after its sides, or the others, were finished. */
  lemma SideEnds(c: Curves, desk: Desk, p: MeRun, target: MeSettings, r: Roles, s: nat)
    requires Fits(p, target, r, desk.Slots()) && s < desk.Slots()
    ensures var q := FinishSides(c, p, target, r);
            && Shaped(desk, q, target)
            && if Follows(r, s) && s < desk.Slots() - 1
               then q.level[s] == Level(c, target.strips[s]) && q.afv[s] == Afv(target.strips[s]) && q.weight[s] == EndWeight(c, r, s) && q.gain[s] == EndOf(c, target, r, s)
               else q.level[s] == p.level[s] && q.afv[s] == p.afv[s] && q.weight[s] == p.weight[s] && q.gain[s] == p.gain[s]
  {
    hide Level, EndWeight;
    SidesFit(c, desk, p, target, r);
  }

  /** The sides and the others together leave each strip as After says. */
  lemma StripEnds(c: Curves, desk: Desk, me: int, p: MeRun, target: MeSettings, r: Roles, s: nat)
    requires Fits(p, target, r, desk.Slots()) && s < desk.Slots() - 1
    requires (r.a >= 0 ==> desk.HasStrip(me, r.a)) && (r.b >= 0 ==> desk.HasStrip(me, r.b))
    ensures Shaped(desk, FinishSides(c, p, target, r), target)
    ensures var q, m := FinishFrom(c, desk, me, FinishSides(c, p, target, r), target, r, 0), After(c, desk, me, p, target, r);
            q.level[s] == m.level[s] && q.afv[s] == m.afv[s] && q.weight[s] == m.weight[s] && q.gain[s] == m.gain[s]
  {
    hide Level, EndWeight, TargetWeight, FinishSides;
    SideEnds(c, desk, p, target, r, s);
    SideWeights(c, r);
  }

  lemma LastReplaced(x: seq<real>, y: seq<real>, v: real)
    requires |x| == |y| > 0 && y[|y| - 1] == v && forall s :: 0 <= s < |x| - 1 ==> x[s] == y[s]
    ensures x[|x| - 1 := v] == y
  {
  }

  lemma StingEnds(c: Curves, desk: Desk, me: int, p: MeRun, target: MeSettings, r: Roles)
    requires Shaped(desk, p, target)
    ensures var (s, m) := (desk.Slots() - 1, After(c, desk, me, p, target, r));
            && m.level[s] == m.gain[s] == Level(c, target.strips[s]) && m.afv[s] == 0.0
            && (desk.HasStrip(me, s) || m.weight[s] == p.weight[s]) && m.primed && m.master == DbToGain(c, target.masterDb)
  {
    hide Level, EndWeight, EndOf, DbToGain;
  }

  lemma StripsEnd(c: Curves, desk: Desk, me: int, p: MeRun, target: MeSettings, r: Roles)
    requires Fits(p, target, r, desk.Slots())
    requires (r.a >= 0 ==> desk.HasStrip(me, r.a)) && (r.b >= 0 ==> desk.HasStrip(me, r.b))
    ensures Shaped(desk, p, target) && Shaped(desk, FinishSides(c, p, target, r), target)
    ensures var q, m := FinishFrom(c, desk, me, FinishSides(c, p, target, r), target, r, 0), After(c, desk, me, p, target, r);
            && Shaped(desk, q, target) && Shaped(desk, m, target)
            && forall s :: 0 <= s < desk.Slots() - 1 ==> q.level[s] == m.level[s] && q.afv[s] == m.afv[s] && q.weight[s] == m.weight[s] && q.gain[s] == m.gain[s]
  {
    hide Level, FinishSides, FinishFrom, After;
    SidesFit(c, desk, p, target, r);
    forall s | 0 <= s < desk.Slots() - 1
      ensures var q, m := FinishFrom(c, desk, me, FinishSides(c, p, target, r), target, r, 0), After(c, desk, me, p, target, r);
              q.level[s] == m.level[s] && q.afv[s] == m.afv[s] && q.weight[s] == m.weight[s] && q.gain[s] == m.gain[s]
    {
      StripEnds(c, desk, me, p, target, r, s);
    }
  }

  /** The stinger keeps its weight. */
  lemma StingWeight(c: Curves, desk: Desk, me: int, p: MeRun, target: MeSettings, r: Roles)
    requires Fits(p, target, r, desk.Slots())
    ensures Shaped(desk, p, target) && Shaped(desk, FinishSides(c, p, target, r), target)
    ensures var s := desk.Slots() - 1;
            FinishFrom(c, desk, me, FinishSides(c, p, target, r), target, r, 0).weight[s] == After(c, desk, me, p, target, r).weight[s] == p.weight[s]
  {
    hide Level, EndWeight, EndOf, FinishSides, FinishFrom, DbToGain;
    SidesFit(c, desk, p, target, r);
    SideEnds(c, desk, p, target, r, desk.Slots() - 1);
    assert !desk.HasStrip(me, desk.Slots() - 1);
  }

  lemma EndsAsAfter(c: Curves, desk: Desk, plan: MePlan, run: MeRun, p: MeRun, target: MeSettings, r: Roles)
    requires Shaped(desk, run, target) && r == RolesOf(desk, plan) && p == Primed(c, run, target, r) && Fits(p, target, r, desk.Slots())
    ensures Shaped(desk, FinishSides(c, p, target, r), target)
    ensures var q := FinishFrom(c, desk, plan.me, FinishSides(c, p, target, r), target, r, 0);
            var s, l1 := desk.Slots() - 1, Level(c, target.strips[desk.Slots() - 1]);
            p.primed && q.(level := q.level[s := l1], afv := q.afv[s := 0.0], gain := q.gain[s := l1], master := DbToGain(c, target.masterDb))
            == Mixed(c, desk, run, target, plan)
  {
    assert p.primed && (r.a >= 0 ==> desk.HasStrip(plan.me, r.a)) && (r.b >= 0 ==> desk.HasStrip(plan.me, r.b));
    EndsAs(c, desk, plan.me, p, target, r);
    hide Level, DbToGain, FinishSides, FinishFrom, Primed, RolesOf, Fits, After;
    assert Mixed(c, desk, run, target, plan) == After(c, desk, plan.me, p, target, r);
  }

  lemma EndsAs(c: Curves, desk: Desk, me: int, p: MeRun, target: MeSettings, r: Roles)
    requires Fits(p, target, r, desk.Slots()) && p.primed
    requires (r.a >= 0 ==> desk.HasStrip(me, r.a)) && (r.b >= 0 ==> desk.HasStrip(me, r.b))
    ensures Shaped(desk, p, target) && Shaped(desk, FinishSides(c, p, target, r), target)
    ensures var q := FinishFrom(c, desk, me, FinishSides(c, p, target, r), target, r, 0);
            var s, l1 := desk.Slots() - 1, Level(c, target.strips[desk.Slots() - 1]);
            q.(level := q.level[s := l1], afv := q.afv[s := 0.0], gain := q.gain[s := l1], master := DbToGain(c, target.masterDb))
            == After(c, desk, me, p, target, r)
  {
    hide Level, DbToGain, FinishSides, FinishFrom, Fits, After;
    StripsEnd(c, desk, me, p, target, r);
    StingWeight(c, desk, me, p, target, r);
    StingEnds(c, desk, me, p, target, r);
    RestUntouched(c, desk, me, p, target, r);
    var q := FinishFrom(c, desk, me, FinishSides(c, p, target, r), target, r, 0);
    var m := After(c, desk, me, p, target, r);
    var sting, l1 := desk.Slots() - 1, Level(c, target.strips[desk.Slots() - 1]);
    LastReplaced(q.level, m.level, l1);
    LastReplaced(q.afv, m.afv, 0.0);
    LastReplaced(q.weight, m.weight, q.weight[sting]);
    LastReplaced(q.gain, m.gain, l1);
  }

  lemma SideWeights(c: Curves, r: Roles)
    ensures forall s: nat :: !Follows(r, s) ==> EndWeight(c, r, s) == TargetWeight(r, s)
  {
  }

  lemma NoMoreOthers(c: Curves, desk: Desk, me: int, p: MeRun, target: MeSettings, r: Roles, x: seq<real>, s: nat, k: nat, n: nat)
    requires Shaped(desk, p, target) && |x| == desk.Slots() && n > 0 && s >= desk.Slots() - 1
    ensures OthersFrom(c, desk, me, p, target, r, x, s, k, n) == 0.0
  {
  }

  lemma LastFinish(c: Curves, desk: Desk, me: int, run: MeRun, target: MeSettings, r: Roles, s: nat)
    requires Shaped(desk, run, target) && s >= desk.Slots() - 1
    ensures FinishFrom(c, desk, me, run, target, r, s) == run
  {
  }

  lemma OthersStep(c: Curves, desk: Desk, me: int, p: MeRun, target: MeSettings, r: Roles, x: seq<Option<seq<real>>>, s: nat, i: nat, n: nat)
    requires Shaped(desk, p, target) && |x| == desk.Slots() && LongEnough(x, n) && i < n && s < desk.Slots() - 1
    ensures OthersFrom(c, desk, me, p, target, r, Column(x, i, n), s, i + 1, n) ==
            (if desk.HasStrip(me, s) && !Follows(r, s) then Sound(x, s, i) * OtherTerm(c, p, target, r, s, i + 1, n) else 0.0)
            + OthersFrom(c, desk, me, p, target, r, Column(x, i, n), s + 1, i + 1, n)
  {
    hide OtherTerm;
  }

  lemma FinishStep(c: Curves, desk: Desk, me: int, run: MeRun, target: MeSettings, r: Roles, s: nat)
    requires Shaped(desk, run, target) && s < desk.Slots() - 1
    ensures FinishFrom(c, desk, me, run, target, r, s) ==
            FinishFrom(c, desk, me, if desk.HasStrip(me, s) && !Follows(r, s) then Fin(c, run, target.strips[s], s, TargetWeight(r, s)) else run, target, r, s + 1)
  {
  }

  lemma AfvStays(run: MeRun, target: MeSettings, r: Roles, slots: nat)
    requires Fits(run, target, r, slots)
    ensures |run.level| == |run.afv| == |run.weight| == |run.gain| == |target.strips| == slots
  {
  }

  lemma FitsAfter(c: Curves, run: MeRun, target: MeSettings, r: Roles, slots: nat, s: nat)
    requires Fits(run, target, r, slots) && s < slots - 1
    ensures |run.level| == |run.afv| == |run.weight| == |run.gain| == |target.strips| == slots
    ensures var f := Fin(c, run, target.strips[s], s, TargetWeight(r, s));
            && Fits(f, target, r, slots) && |f.level| == |f.afv| == |f.weight| == |f.gain| == slots
            && forall t :: 0 <= t < slots && t != s ==> f.level[t] == run.level[t] && f.afv[t] == run.afv[t] && f.weight[t] == run.weight[t]
  {
  }

  lemma SameTerm(c: Curves, run: MeRun, p: MeRun, target: MeSettings, r: Roles, s: nat, k: nat, n: nat)
    requires s < |run.level| == |run.afv| == |run.weight| == |target.strips| == |p.level| == |p.afv| == |p.weight|
    requires run.level[s] == p.level[s] && run.afv[s] == p.afv[s] && run.weight[s] == p.weight[s]
    ensures OtherTerm(c, run, target, r, s, k, n) == OtherTerm(c, p, target, r, s, k, n)
  {
  }
}
