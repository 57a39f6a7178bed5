/** Plans follow the grain index: inside a transition, a fade or a run a grain shows the same whatever
    grains were rendered before it, and whatever the rest of the mixer does meanwhile. */
module MixerSkips {
  import opened Wrappers
  import opened Keyframes
  import opened MixerTypes
  import opened MixerModel
  import opened MixerInvariant
  import opened MixerCommands
  import opened MixerTimeline
  import opened MixerEndings
  import Visibility

  /** Rendered grains in rising order, all before grain i. */
  predicate Rising(ticks: seq<Tick>, i: nat) {
    && (forall t :: 0 <= t < |ticks| ==> ticks[t].index < i)
    && (forall t, u :: 0 <= t < u < |ticks| ==> ticks[t].index < ticks[u].index)
  }

  /** The ME's transition is under way in every one of these grains. */
  predicate Mixes(s: Me, ticks: seq<Tick>) {
    forall t :: 0 <= t < |ticks| ==> MeInside(s, ticks[t].index)
  }

  // ---- one ME --------------------------------------------------------------------------------------

  /** ME m + 1 after grains inside its transition. */
  ghost predicate MeKept(c: Config, st: St, r: St, m: nat) {
    && Inv(c, st) && Inv(c, r) && m < c.mes
    && r.deferred[m] == st.deferred[m] && r.me[m] == st.me[m].(position := r.me[m].position)
  }

  /** Its part of grain i from r and from st. */
  ghost predicate SameMe(m: int, r: Me, s: Me, g: Fade, i: nat, ready: seq<bool>)
    requires (r.Running() ==> r.frames >= 1) && (s.Running() ==> s.frames >= 1) && (FadeRuns(g) ==> g.frames >= 1)
  {
    var (x, y) := (FrameMe(m, r, g, i, ready), FrameMe(m, s, g, i, ready));
    x.me == y.me && x.plan == y.plan && x.tie == y.tie
  }

  lemma MeOfInv(c: Config, st: St, m: nat)
    requires Inv(c, st) && m < c.mes
    ensures MeOk(c, m + 1, st.me[m]) && FadeOk(st.ftbs[m])
  {
    assert MeAt(c, st, m);
  }

  lemma MeTick(c: Config, st: St, m: nat, g: Fade, x: nat, ready: seq<bool>, i: nat, later: seq<bool>)
    requires Inv(c, st) && m < c.mes && NotDue(st, m, i) && FadeOk(g) && MeInside(st.me[m], x) && x < i
    ensures var a := Frame(c, st, x, ready).0;
            && MeKept(c, st, a, m) && MeOk(c, m + 1, a.me[m]) && MeOk(c, m + 1, st.me[m])
            && SameMe(m + 1, a.me[m], st.me[m], g, i, later)
  {
    hide FrameMe, MeOk, MeInside;
    FrameInv(c, st, x, ready);
    OwnGrain(c, st, m, x, ready);
    MeSkips(c, m + 1, st.me[m], st.ftbs[m], g, x, i, ready, later);
  }

  /** Whatever grains inside an ME's transition were rendered, a later grain does the same on it. The rest
      of the mixer may do anything: start and end transitions, make held takes, move levers. */
  lemma {:induction false} MeRenderSkips(c: Config, st: St, ticks: seq<Tick>, m: nat, g: Fade, i: nat, later: seq<bool>)
    requires Inv(c, st) && m < c.mes && NotDue(st, m, i) && FadeOk(g) && Rising(ticks, i) && Mixes(st.me[m], ticks)
    ensures MeKept(c, st, Render(c, st, ticks), m)
    ensures MeOk(c, m + 1, st.me[m]) && MeOk(c, m + 1, Render(c, st, ticks).me[m])
    ensures SameMe(m + 1, Render(c, st, ticks).me[m], st.me[m], g, i, later)
    decreases |ticks|
  {
    hide FrameMe, MeOk;
    MeOfInv(c, st, m);
    if |ticks| > 0 {
      MeTick(c, st, m, g, ticks[0].index, ticks[0].ready, i, later);
      MeRenderSkips(c, Frame(c, st, ticks[0].index, ticks[0].ready).0, ticks[1..], m, g, i, later);
    }
  }

  /** The mix, wipe or stinger of a plan: all but its Fade to Black and what its keys show. */
  function Mix(p: MePlan): MePlan {
    p.(ftb := 0.0, ftbPrev := 0.0, keyed := [], backgroundCovered := false)
  }

  /** Grain i from st, where ME m + 1 is as from s. */
  lemma MeGrainIs(c: Config, st: St, s: St, m: nat, i: nat, ready: seq<bool>)
    requires MeKept(c, s, st, m) && NotDue(s, m, i) && MeOk(c, m + 1, st.me[m]) && MeOk(c, m + 1, s.me[m])
    requires FadeOk(s.ftbs[m]) && SameMe(m + 1, st.me[m], s.me[m], s.ftbs[m], i, ready)
    ensures var (r, p) := Frame(c, st, i, ready);
            var step := FrameMe(m + 1, s.me[m], s.ftbs[m], i, ready);
            && |r.me| == |p.mes| == |r.deferred| == c.mes && r.me[m] == step.me && r.deferred[m] == s.deferred[m]
            && Mix(p.mes[c.mes - 1 - m]) == Mix(step.plan) && p.mes[c.mes - 1 - m].me == m + 1
  {
    hide FrameMe, MeOk;
    MeOfInv(c, st, m);
    OwnGrain(c, st, m, i, ready);
    FtbOnly(m + 1, st.me[m], st.ftbs[m], s.ftbs[m], i, ready);
    FrameMeOk(c, m + 1, st.me[m], st.ftbs[m], i, ready);
  }

  /** So its buses and its mix, wipe or stinger follow the grain index alone. */
  lemma MeFollowsTheIndex(c: Config, st: St, some: seq<Tick>, others: seq<Tick>, m: nat, i: nat, ready: seq<bool>)
    requires Inv(c, st) && m < c.mes && NotDue(st, m, i)
    requires Rising(some, i) && Mixes(st.me[m], some) && Rising(others, i) && Mixes(st.me[m], others)
    ensures Inv(c, Render(c, st, some)) && Inv(c, Render(c, st, others))
    ensures var ((r, p), (q, o)) := (Frame(c, Render(c, st, some), i, ready), Frame(c, Render(c, st, others), i, ready));
            && |r.me| == |q.me| == |p.mes| == |o.mes| == |r.deferred| == |q.deferred| == c.mes
            && r.me[m] == q.me[m] && r.deferred[m] == q.deferred[m] && Mix(p.mes[c.mes - 1 - m]) == Mix(o.mes[c.mes - 1 - m])
            && p.mes[c.mes - 1 - m].me == m + 1 == o.mes[c.mes - 1 - m].me
  {
    hide FrameMe, MeOk, Frame;
    MeOfInv(c, st, m);
    MeRenderSkips(c, st, some, m, st.ftbs[m], i, ready);
    MeRenderSkips(c, st, others, m, st.ftbs[m], i, ready);
    MeGrainIs(c, Render(c, st, some), st, m, i, ready);
    MeGrainIs(c, Render(c, st, others), st, m, i, ready);
  }

  // ---- one Fade to Black ---------------------------------------------------------------------------

  lemma FtbGrain(c: Config, st: St, m: nat, x: nat, ready: seq<bool>)
    requires Inv(c, st) && m < c.mes
    ensures FadeOk(st.ftbs[m])
    ensures var (r, p) := Frame(c, st, x, ready);
            |r.ftbs| == |p.mes| == c.mes && r.ftbs[m] == FadeAdvance(st.ftbs[m], x).0 && p.mes[c.mes - 1 - m].ftb == r.ftbs[m].gain
  {
    hide FadeAdvance, Progress;
    MeOfInv(c, st, m);
    RunHeldInv(c, st, x, false, None);
    PlanGrainMe(c, RunHeld(c, st, x, false, None), m, x, ready);
  }

  lemma {:induction false} FtbRenderSkips(c: Config, st: St, ticks: seq<Tick>, m: nat, i: nat)
    requires Inv(c, st) && m < c.mes && !st.ftbs[m].pending && Rising(ticks, i)
    ensures Inv(c, Render(c, st, ticks)) && FadeOk(st.ftbs[m]) && FadeOk(Render(c, st, ticks).ftbs[m])
    ensures FadeAdvance(Render(c, st, ticks).ftbs[m], i).0 == FadeAdvance(st.ftbs[m], i).0
    decreases |ticks|
  {
    hide FadeAdvance, FadeOk, Frame;
    MeOfInv(c, st, m);
    if |ticks| > 0 {
      FrameInv(c, st, ticks[0].index, ticks[0].ready);
      FtbGrain(c, st, m, ticks[0].index, ticks[0].ready);
      FadeSkips(st.ftbs[m], ticks[0].index, i);
      FtbRenderSkips(c, Frame(c, st, ticks[0].index, ticks[0].ready).0, ticks[1..], m, i);
    }
  }

  /** A Fade to Black that has started follows the grain index alone. */
  lemma FtbFollowsTheIndex(c: Config, st: St, some: seq<Tick>, others: seq<Tick>, m: nat, i: nat, ready: seq<bool>)
    requires Inv(c, st) && m < c.mes && !st.ftbs[m].pending && Rising(some, i) && Rising(others, i)
    ensures Inv(c, Render(c, st, some)) && Inv(c, Render(c, st, others))
    ensures var ((r, p), (q, o)) := (Frame(c, Render(c, st, some), i, ready), Frame(c, Render(c, st, others), i, ready));
            && |r.ftbs| == |q.ftbs| == |p.mes| == |o.mes| == c.mes
            && r.ftbs[m] == q.ftbs[m] && p.mes[c.mes - 1 - m].ftb == o.mes[c.mes - 1 - m].ftb
  {
    FtbRenderSkips(c, st, some, m, i);
    FtbRenderSkips(c, st, others, m, i);
    FtbGrain(c, Render(c, st, some), m, i, ready);
    FtbGrain(c, Render(c, st, others), m, i, ready);
  }

  // ---- one keyer -----------------------------------------------------------------------------------

  /** Grain x is inside the keyer's own fade and run and, if it is tied, inside its ME's transition. */
  predicate KeyerInside(s: Me, k: Keyer, x: nat)
    requires KeyShape(k)
  {
    KeyInside(k, x) && (k.Tied() ==> MeInside(s, x))
  }

  ghost predicate KeyMixes(st: St, k: nat, ticks: seq<Tick>) {
    && k < |st.keys| && 1 <= st.keys[k].me <= |st.me| && KeyShape(st.keys[k])
    && forall t :: 0 <= t < |ticks| ==> KeyerInside(st.me[st.keys[k].me - 1], st.keys[k], ticks[t].index)
  }

  /** One grain of the keyer on an ME in state s, with a Fade to Black g. */
  function KeyGrain(n: int, s: Me, g: Fade, k: Keyer, i: nat, ready: seq<bool>): KeyStep
    requires KeyShape(k) && (s.Running() ==> s.frames >= 1) && (FadeRuns(g) ==> g.frames >= 1)
  {
    FrameKey(n, k, FrameMe(k.me, s, g, i, ready).tie, i)
  }

  /** The Fade to Black is nothing to the keyer. */
  lemma AnyFtb(n: int, s: Me, f: Fade, g: Fade, k: Keyer, i: nat, ready: seq<bool>)
    requires KeyShape(k) && FadeOk(f) && FadeOk(g) && (s.Running() ==> s.frames >= 1)
    ensures KeyGrain(n, s, f, k, i, ready) == KeyGrain(n, s, g, k, i, ready)
  {
    FtbOnly(k.me, s, f, g, i, ready);
  }

  /** A keyer that is not tied. */
  lemma LooseTick(c: Config, n: int, s: Me, s': Me, g: Fade, k: Keyer, x: nat, ready: seq<bool>, i: nat, later: seq<bool>)
    requires KeyOk(c, n, k) && !k.Tied() && MeOk(c, k.me, s) && MeOk(c, k.me, s') && FadeOk(g) && KeyInside(k, x) && x < i
    ensures var r := KeyGrain(n, s, g, k, x, ready).key;
            KeyOk(c, n, r) ==> !r.Tied() && r.me == k.me && SameStep(KeyGrain(n, s', g, r, i, later), KeyGrain(n, s, g, k, i, later))
  {
    hide FrameKey, FrameMe;
    var r := KeyGrain(n, s, g, k, x, ready).key;
    if KeyOk(c, n, r) {
      StaysLoose(c, n, k, FrameMe(k.me, s, g, x, ready).tie, x);
      LooseSkips(c, n, k, r, FrameMe(k.me, s, g, x, ready).tie, FrameMe(k.me, s, g, i, later).tie, FrameMe(k.me, s', g, i, later).tie, x, i);
    }
  }

  lemma StaysLoose(c: Config, n: int, k: Keyer, tie: TieStep, x: nat)
    requires KeyOk(c, n, k) && !k.Tied()
    ensures !FrameKey(n, k, tie, x).key.Tied() && FrameKey(n, k, tie, x).key.me == k.me
  {
  }

  lemma LooseSkips(c: Config, n: int, k: Keyer, r: Keyer, tx: TieStep, ti: TieStep, other: TieStep, x: nat, i: nat)
    requires KeyOk(c, n, k) && !k.Tied() && KeyInside(k, x) && x < i && r == FrameKey(n, k, tx, x).key && KeyOk(c, n, r) && !r.Tied()
    ensures SameStep(FrameKey(n, r, other, i), FrameKey(n, k, ti, i))
  {
    hide FrameKey;
    UntiedSkips(c, n, k, tx, ti, x, i);
    UntiedIgnores(n, r, ti, other, i);
  }

  /** A tied one. */
  lemma TiedTick(c: Config, n: int, s: Me, g: Fade, k: Keyer, x: nat, ready: seq<bool>, i: nat, later: seq<bool>)
    requires c.Ok() && KeyOk(c, n, k) && k.Tied() && MeOk(c, k.me, s) && Coupled(s, k) && FadeOk(g) && KeyerInside(s, k, x) && x < i
    ensures var s' := FrameMe(k.me, s, g, x, ready).me;
            var r := KeyGrain(n, s, g, k, x, ready).key;
            && MeOk(c, k.me, s') && s' == s.(position := s'.position)
            && (KeyOk(c, n, r) && r.me == k.me ==> SameStep(KeyGrain(n, s', g, r, i, later), KeyGrain(n, s, g, k, i, later)))
  {
    hide FrameKey, FrameMe, KeyOk, SameStep;
    MeSkips(c, k.me, s, g, g, x, i, ready, later);
    TieSkips(c, k.me, s, g, x, i, ready, later);
    KeySkips(c, n, s, k, FrameMe(k.me, s, g, x, ready).tie, FrameMe(k.me, s, g, i, later).tie, x, i);
  }

  lemma InsideLater(c: Config, n: int, s: Me, g: Fade, k: Keyer, x: nat, ready: seq<bool>, y: nat)
    requires c.Ok() && KeyOk(c, n, k) && MeOk(c, k.me, s) && Coupled(s, k) && FadeOk(g)
    requires KeyerInside(s, k, x) && KeyerInside(s, k, y) && x < y
    ensures var r := KeyGrain(n, s, g, k, x, ready).key;
            && KeyShape(r) && KeyInside(r, y) && (r.Tied() ==> k.Tied())
  {
    hide FrameMe;
    var tie := FrameMe(k.me, s, g, x, ready).tie;
    if k.Tied() {
      TieSkips(c, k.me, s, g, x, y, ready, ready);
      KeyStaysInside(c, n, s, k, tie, x, y);
    } else {
      StaysLoose(c, n, k, tie, x);
      UntiedStays(c, n, k, tie, x, y);
    }
  }

  /** Keyer k + 1 and its ME after grains inside. */
  ghost predicate KeyKept(c: Config, st: St, r: St, k: nat) {
    && Inv(c, st) && Inv(c, r) && k < |st.keys| && KeyShape(st.keys[k]) && KeyShape(r.keys[k])
    && r.keys[k].me == st.keys[k].me && r.deferred[st.keys[k].me - 1] == st.deferred[st.keys[k].me - 1]
  }

  ghost predicate SameKeyer(n: int, rs: Me, r: Keyer, s: Me, k: Keyer, g: Fade, i: nat, ready: seq<bool>)
    requires (rs.Running() ==> rs.frames >= 1) && (s.Running() ==> s.frames >= 1) && (FadeRuns(g) ==> g.frames >= 1)
    requires KeyShape(r) && KeyShape(k)
  {
    SameStep(KeyGrain(n, rs, g, r, i, ready), KeyGrain(n, s, g, k, i, ready))
  }

  lemma KeyOfInv(c: Config, st: St, k: nat)
    requires Inv(c, st) && k < |st.keys|
    ensures KeyOk(c, k + 1, st.keys[k]) && 1 <= st.keys[k].me <= c.mes && Coupled(st.me[st.keys[k].me - 1], st.keys[k])
    ensures MeOk(c, st.keys[k].me, st.me[st.keys[k].me - 1]) && FadeOk(st.ftbs[st.keys[k].me - 1])
  {
    assert KeyAt(c, st, k);
    assert MeAt(c, st, st.keys[k].me - 1);
  }

  lemma KeyTick(c: Config, st: St, k: nat, x: nat, ready: seq<bool>, i: nat, later: seq<bool>)
    requires Inv(c, st) && KeyMixes(st, k, [Tick(x, ready)]) && NotDue(st, st.keys[k].me - 1, i) && x < i
    ensures var a := Frame(c, st, x, ready).0;
            && KeyKept(c, st, a, k) && MeOk(c, st.keys[k].me, a.me[st.keys[k].me - 1]) && MeOk(c, st.keys[k].me, st.me[st.keys[k].me - 1])
            && FadeOk(st.ftbs[st.keys[k].me - 1])
            && SameKeyer(k + 1, a.me[st.keys[k].me - 1], a.keys[k], st.me[st.keys[k].me - 1], st.keys[k], st.ftbs[st.keys[k].me - 1], i, later)
  {
    hide FrameKey, FrameMe, SameStep, Frame;
    KeyOfInv(c, st, k);
    FrameInv(c, st, x, ready);
    var a := Frame(c, st, x, ready).0;
    SameOwner(c, st, a, k);
    KeyOfInv(c, a, k);
    var m := st.keys[k].me - 1;
    OwnGrain(c, st, m, x, ready);
    OwnKeyGrain(c, st, k, x, ready);
    assert [Tick(x, ready)][0].index == x;
    if st.keys[k].Tied() {
      TiedTick(c, k + 1, st.me[m], st.ftbs[m], st.keys[k], x, ready, i, later);
    } else {
      LooseTick(c, k + 1, st.me[m], a.me[m], st.ftbs[m], st.keys[k], x, ready, i, later);
    }
  }

  lemma KeyMixesOn(c: Config, st: St, k: nat, ticks: seq<Tick>, i: nat)
    requires Inv(c, st) && |ticks| > 0 && Rising(ticks, i) && KeyMixes(st, k, ticks) && NotDue(st, st.keys[k].me - 1, i)
    ensures KeyMixes(Frame(c, st, ticks[0].index, ticks[0].ready).0, k, ticks[1..]) && KeyMixes(st, k, [ticks[0]])
  {
    hide FrameKey, FrameMe, Frame, KeyInside;
    var (x, ready) := (ticks[0].index, ticks[0].ready);
    KeyOfInv(c, st, k);
    FrameInv(c, st, x, ready);
    var a := Frame(c, st, x, ready).0;
    SameOwner(c, st, a, k);
    KeyOfInv(c, a, k);
    var m := st.keys[k].me - 1;
    OwnGrain(c, st, m, x, ready);
    OwnKeyGrain(c, st, k, x, ready);
    assert KeyerInside(st.me[m], st.keys[k], x);
    if st.keys[k].Tied() { MeSkips(c, m + 1, st.me[m], st.ftbs[m], st.ftbs[m], x, i, ready, ready); }
    forall t | 0 <= t < |ticks[1..]| ensures KeyerInside(a.me[m], a.keys[k], ticks[1..][t].index) {
      assert ticks[1..][t] == ticks[t + 1];
      InsideLater(c, k + 1, st.me[m], st.ftbs[m], st.keys[k], x, ready, ticks[t + 1].index);
    }
  }

  /** Whatever grains inside a keyer's fade, run and tie were rendered, a later grain does the same with it;
      again the rest of the mixer may do anything. */
  lemma {:induction false} KeyRenderSkips(c: Config, st: St, ticks: seq<Tick>, k: nat, g: Fade, i: nat, later: seq<bool>)
    requires Inv(c, st) && k < |st.keys| && Rising(ticks, i) && KeyMixes(st, k, ticks) && NotDue(st, st.keys[k].me - 1, i) && FadeOk(g)
    ensures KeyKept(c, st, Render(c, st, ticks), k)
    ensures var (m, r) := (st.keys[k].me - 1, Render(c, st, ticks));
            && MeOk(c, m + 1, st.me[m]) && MeOk(c, m + 1, r.me[m])
            && SameKeyer(k + 1, r.me[m], r.keys[k], st.me[m], st.keys[k], g, i, later)
    decreases |ticks|
  {
    hide KeyGrain, KeyShape, Frame, KeyMixes, KeyOk;
    KeyOfInv(c, st, k);
    ShapeOfInv(c, st);
    if |ticks| > 0 {
      var (x, ready) := (ticks[0].index, ticks[0].ready);
      KeyMixesOn(c, st, k, ticks, i);
      KeyTick(c, st, k, x, ready, i, later);
      var a := Frame(c, st, x, ready).0;
      var m := st.keys[k].me - 1;
      AnyFtb(k + 1, st.me[m], st.ftbs[m], g, st.keys[k], i, later);
      AnyFtb(k + 1, a.me[m], st.ftbs[m], g, a.keys[k], i, later);
      KeyRenderSkips(c, a, ticks[1..], k, g, i, later);
    }
  }

  /** Grain i from st, where keyer k + 1 and its ME are as from s. */
  lemma KeyGrainIs(c: Config, st: St, s: St, k: nat, i: nat, ready: seq<bool>)
    requires KeyKept(c, s, st, k) && NotDue(s, s.keys[k].me - 1, i) && FadeOk(s.ftbs[s.keys[k].me - 1])
    requires var m := s.keys[k].me - 1;
             && MeOk(c, m + 1, s.me[m]) && MeOk(c, m + 1, st.me[m])
             && SameKeyer(k + 1, st.me[m], st.keys[k], s.me[m], s.keys[k], s.ftbs[m], i, ready)
    ensures KeyKept(c, s, st, k)
    ensures var (r, p) := Frame(c, st, i, ready);
            var step := KeyGrain(k + 1, s.me[s.keys[k].me - 1], s.ftbs[s.keys[k].me - 1], s.keys[k], i, ready);
            |r.keys| == |p.keys| == |s.keys| && SameKey(r.keys[k], step.key) && p.keys[k] == step.plan
  {
    hide FrameMe, FrameKey, Frame, SameKey;
    var m := s.keys[k].me - 1;
    SameOwner(c, s, st, k);
    MeOfInv(c, st, m);
    OwnKeyGrain(c, st, k, i, ready);
    AnyFtb(k + 1, st.me[m], st.ftbs[m], s.ftbs[m], st.keys[k], i, ready);
  }

  /** So its gain, box and state follow the grain index alone. */
  lemma KeyerFollowsTheIndex(c: Config, st: St, some: seq<Tick>, others: seq<Tick>, k: nat, i: nat, ready: seq<bool>)
    requires Inv(c, st) && k < |st.keys| && NotDue(st, st.keys[k].me - 1, i)
    requires Rising(some, i) && KeyMixes(st, k, some) && Rising(others, i) && KeyMixes(st, k, others)
    ensures Inv(c, Render(c, st, some)) && Inv(c, Render(c, st, others))
    ensures var ((r, p), (q, o)) := (Frame(c, Render(c, st, some), i, ready), Frame(c, Render(c, st, others), i, ready));
            && |r.keys| == |q.keys| == |p.keys| == |o.keys| == |st.keys|
            && SameKey(r.keys[k], q.keys[k]) && p.keys[k] == o.keys[k]
  {
    hide FrameKey, FrameMe, KeyGrain, Frame, KeyShape, MeOk, FadeOk, KeyMixes;
    KeyOfInv(c, st, k);
    var g := st.ftbs[st.keys[k].me - 1];
    KeyRenderSkips(c, st, some, k, g, i, ready);
    KeyRenderSkips(c, st, others, k, g, i, ready);
    KeyGrainIs(c, Render(c, st, some), st, k, i, ready);
    KeyGrainIs(c, Render(c, st, others), st, k, i, ready);
  }

  // ---- the whole mixer -----------------------------------------------------------------------------

  /** No take is due up to grain i, and every transition, fade and run is under way in all the ticks. */
  ghost predicate Inside(st: St, ticks: seq<Tick>, i: nat) {
    && Rising(ticks, i)
    && (forall m :: 0 <= m < |st.me| ==> NotDue(st, m, i) && Mixes(st.me[m], ticks))
    && (forall m :: 0 <= m < |st.ftbs| ==> !st.ftbs[m].pending)
    && (forall k :: 0 <= k < |st.keys| ==> KeyMixes(st, k, ticks))
  }

  /** The same state but for the counters and left-over step numbers. */
  ghost predicate SameState(a: St, b: St) {
    && a.me == b.me && a.deferred == b.deferred && a.ftbs == b.ftbs && |a.keys| == |b.keys|
    && forall k :: 0 <= k < |a.keys| ==> SameKey(a.keys[k], b.keys[k])
  }

  /** The same picture and sound; only the Fade to Black of the grain rendered before may differ. */
  ghost predicate SameFrame(a: FramePlan, b: FramePlan) {
    && a.keys == b.keys && |a.mes| == |b.mes|
    && forall j :: 0 <= j < |a.mes| ==> a.mes[j].(ftbPrev := 0.0) == b.mes[j].(ftbPrev := 0.0)
  }

  /** The keys of a plan decide what is marked in it. */
  lemma MarkedAlike(p: MePlan, q: MePlan, keys: seq<KeyPlan>)
    requires p == Visibility.MarkMe(p, keys) && q == Visibility.MarkMe(q, keys) && p.me == q.me && p.ftb == q.ftb && Mix(p) == Mix(q)
    ensures p.(ftbPrev := 0.0) == q.(ftbPrev := 0.0)
  {
  }

  lemma FrameIsMarked(c: Config, st: St, i: nat, ready: seq<bool>, j: nat)
    requires Inv(c, st)
    ensures var p := Frame(c, st, i, ready).1; j < |p.mes| ==> p.mes[j] == Visibility.MarkMe(p.mes[j], p.keys)
  {
    hide PlanGrain;
  }

  lemma FrameSizes(c: Config, st: St, ticks: seq<Tick>, i: nat, ready: seq<bool>)
    requires Inv(c, st) && Inv(c, Render(c, st, ticks))
    ensures var (r, p) := Frame(c, Render(c, st, ticks), i, ready); Shaped(c, r) && |p.keys| == |st.keys| && |p.mes| == c.mes
  {
    hide FrameMe, FrameKey;
    FrameInv(c, Render(c, st, ticks), i, ready);
    RunHeldInv(c, Render(c, st, ticks), i, false, None);
    FramableOfInv(c, RunHeld(c, Render(c, st, ticks), i, false, None));
  }

  /** Whatever grains of its transitions, fades and runs were rendered and whatever were skipped, a grain
      shows the same and leaves the mixer in the same state. */
  lemma PlansFollowTheIndex(c: Config, st: St, some: seq<Tick>, others: seq<Tick>, i: nat, ready: seq<bool>)
    requires Inv(c, st) && Inside(st, some, i) && Inside(st, others, i)
    ensures Inv(c, Render(c, st, some)) && Inv(c, Render(c, st, others))
    ensures var (a, b) := (Frame(c, Render(c, st, some), i, ready), Frame(c, Render(c, st, others), i, ready));
            SameState(a.0, b.0) && SameFrame(a.1, b.1)
  {
    hide Frame, SameKey, KeyMixes, Mixes, NotDue, Rising, Mix;
    RenderInv(c, st, some);
    RenderInv(c, st, others);
    var (a, b) := (Frame(c, Render(c, st, some), i, ready), Frame(c, Render(c, st, others), i, ready));
    FrameInv(c, Render(c, st, some), i, ready);
    FrameInv(c, Render(c, st, others), i, ready);
    forall k | 0 <= k < |st.keys|
      ensures |a.0.keys| == |b.0.keys| == |a.1.keys| == |b.1.keys| == |st.keys| && SameKey(a.0.keys[k], b.0.keys[k]) && a.1.keys[k] == b.1.keys[k]
    {
      assert KeyAt(c, st, k);
      KeyerFollowsTheIndex(c, st, some, others, k, i, ready);
    }
    FrameSizes(c, st, some, i, ready);
    FrameSizes(c, st, others, i, ready);
    assert a.1.keys == b.1.keys;
    forall m | 0 <= m < c.mes
      ensures a.0.me[m] == b.0.me[m] && a.0.deferred[m] == b.0.deferred[m] && a.0.ftbs[m] == b.0.ftbs[m]
    {
      MeFollowsTheIndex(c, st, some, others, m, i, ready);
      FtbFollowsTheIndex(c, st, some, others, m, i, ready);
    }
    forall j | 0 <= j < c.mes ensures a.1.mes[j].(ftbPrev := 0.0) == b.1.mes[j].(ftbPrev := 0.0) {
      MeFollowsTheIndex(c, st, some, others, c.mes - 1 - j, i, ready);
      FtbFollowsTheIndex(c, st, some, others, c.mes - 1 - j, i, ready);
      FrameIsMarked(c, Render(c, st, some), i, ready, j);
      FrameIsMarked(c, Render(c, st, others), i, ready, j);
      MarkedAlike(a.1.mes[j], b.1.mes[j], a.1.keys);
    }
  }
}
