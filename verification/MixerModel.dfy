/** What each step of the mixer does to its state, as functions (engine/src/core/mixer.cpp). The class
    in Mixer.dfy is proved to do exactly this; the promises are proved about these functions. */
module MixerModel {
  import opened Wrappers
  import opened RealMath
  import opened Keyframes
  import opened MixerTypes
  import Crossfade

  // ---- transitions -----------------------------------------------------------------------------

  /** A pending or running transition ended as if it had run to its end. */
  function FinishMix(s: Me): Me {
    var done := if s.Running() then s.(program := s.target, preview := s.after.GetOr(s.preview)) else s;
    Halt(done)
  }

  /** No transition: its progress, its target's Preview and its stinger are gone. */
  function Halt(s: Me): Me {
    s.(pending := false, mixing := false, wiping := false, manual := false, from := 0.0, after := None,
       position := 0, sting := NO_STING, waiting := false)
  }

  // ---- fades -----------------------------------------------------------------------------------

  function OnGain(on: bool): real {
    if on then 1.0 else 0.0
  }

  function FadeSet(f: Fade, on: bool): Fade {
    f.(on := on, pending := false, running := false, gain := OnGain(on))
  }

  function Distance(a: real, b: real): real {
    if a > b then a - b else b - a
  }

  function FadeAuto(f: Fade, frames: int): Fade {
    var to := OnGain(!f.on);
    f.(on := !f.on, from := f.gain, to := to,
       frames := Max(1, (frames as real * Distance(to, f.gain) + 0.5).Floor), pending := true, running := false)
  }

  /** The grains of a transition or fade done in grain `index`, from grain `start`. */
  function Done(start: nat, index: nat): nat {
    if index >= start then index - start + 1 else 1
  }

  predicate FadeRuns(f: Fade) {
    f.pending || f.running
  }

  /** The fade in grain `index`, and whether it ended there. */
  function FadeAdvance(f: Fade, index: nat): (Fade, bool)
    requires FadeRuns(f) ==> f.frames >= 1
  {
    if !FadeRuns(f) then (f, false)
    else
      var start := if f.pending then index else f.start;
      var done := Done(start, index);
      if done >= f.frames then (f.(pending := false, running := false, start := start, gain := f.to), true)
      else (f.(pending := false, running := true, start := start, gain := f.from + (f.to - f.from) * (done as real / f.frames as real)), false)
  }

  // ---- boxes -----------------------------------------------------------------------------------

  predicate Boxed(settings: KeySettings) {
    settings.pip || settings.dme.enabled
  }

  predicate CanFly(k: Keyer) {
    k.settings.fly && k.upstream && Boxed(k.settings) && |k.keyframes| >= 2
  }

  function PlaceOnPath(k: Keyer): Keyer {
    var j := KeyframeOf(k.keyframes, k.settings.dme);
    k.(box := k.box.(keyframe := j, onPath := j >= 0, u := if j >= 0 then KeyTime(k.keyframes, j) else 0.0))
  }

  function JumpTo(k: Keyer, j: int): Keyer
    requires 0 <= j < |k.keyframes|
  {
    k.(settings := k.settings.(dme := DmeWithState(k.settings.dme, k.keyframes[j].box)),
       box := k.box.(pending := false, active := false, onPath := true, u := KeyTime(k.keyframes, j), keyframe := j))
  }

  function StartRun(k: Keyer, to: int, loop: Loop, reverse: bool): Keyer {
    k.(box := k.box.(run := RunFrom(k.keyframes, k.settings.dme, k.box.onPath, k.box.u, to, loop, reverse),
                     pending := true, active := false, step := 0))
  }

  function Untie(k: Keyer): Keyer {
    k.(tie := k.tie.(me := 0, atCut := false))
  }

  function StopRun(k: Keyer): Keyer {
    var staysOn := !k.fade.on && ((k.box.flying && k.RunsNow()) || k.TiedFly());
    var held := k.(fade := k.fade.(on := k.fade.on || staysOn), box := k.box.(pending := false, active := false, flying := false));
    if k.TiedFly() then Untie(held.(fade := held.fade.(gain := 1.0))) else held
  }

  /** What the code indexes without asking: the target of a tied fly and of a run's lead-in. */
  predicate KeyShape(k: Keyer) {
    && KeyframesOk(k.keyframes)
    && (k.TiedFly() ==> 0 <= k.tie.target < |k.keyframes|)
    && (k.RunsNow() ==> RunOk(k.keyframes, k.box.run))
    && (FadeRuns(k.fade) ==> k.fade.frames >= 1)
  }

  /** The box in grain `index`, and whether its run ended there. */
  function RunAdvance(k: Keyer, index: nat): (Keyer, bool)
    requires KeyShape(k)
  {
    if !k.RunsNow() then (k, false)
    else
      var start := if k.box.pending then index else k.box.start;
      var step := Done(start, index);
      var s := RunAt(k.keyframes, k.box.run, step, k.settings.dme);
      (k.(settings := k.settings.(dme := s.box),
          box := k.box.(pending := false, active := !s.done, start := start, step := step, onPath := s.onPath, u := s.u, keyframe := s.keyframe)),
       s.done)
  }

  /** The last keyframe when on, keyframe 0 when off. */
  function FlyTarget(k: Keyer, on: bool): int {
    if on then |k.keyframes| - 1 else 0
  }

  function CutKey(k: Keyer, on: bool): Keyer {
    var free := Untie(k);
    var placed := if CanFly(free) then JumpTo(StopRun(free), FlyTarget(free, on)) else free;
    placed.(fade := FadeSet(placed.fade, on))
  }

  // ---- ties ------------------------------------------------------------------------------------

  function TieStart(k: Keyer, me: int, atCut: bool): Keyer {
    if atCut then k.(tie := k.tie.(me := me, atCut := true))
    else
      var turningBack := k.box.flying && k.RunsNow();
      var on := !k.fade.on;
      var fly := CanFly(k);
      var held := k.(fade := k.fade.(on := on, pending := false, running := false),
                     box := k.box.(pending := false, active := false, flying := false));
      var tie := k.tie.(me := me, atCut := false, fly := fly, gain0 := k.fade.gain);
      if !fly then held.(tie := tie.(from := k.fade.gain, to := OnGain(on)))
      else
        var placed := if on && !turningBack then JumpTo(held, 0) else held;
        var target := FlyTarget(k, on);
        placed.(tie := tie.(target := target, onPath := placed.box.onPath, u0 := placed.box.u, u1 := KeyTime(k.keyframes, target),
                            box := placed.settings.dme))
  }

  function TieAt(from: real, to: real, t: real): real {
    from * (1.0 - t) + to * t
  }

  /** A tied keyer at its transition's t. */
  function TieAdvance(k: Keyer, t: real): Keyer
    requires KeyframesOk(k.keyframes)
    requires k.tie.fly ==> 0 <= k.tie.target < |k.keyframes|
  {
    if !k.tie.fly then k.(fade := k.fade.(gain := TieAt(k.tie.from, k.tie.to, t)))
    else
      var target := k.keyframes[k.tie.target];
      var u := if k.tie.onPath then TieAt(k.tie.u0, k.tie.u1, t) else k.tie.u1;
      var box := if k.tie.onPath then PathAt(k.keyframes, u, k.settings.dme)
                 else DmeBetween(k.settings.dme, k.tie.box, target.box, EaseAt(target.ease, t));
      k.(fade := k.fade.(gain := 1.0), settings := k.settings.(dme := box),
         box := k.box.(onPath := k.tie.onPath || t >= 1.0, u := u, keyframe := k.tie.target))
  }

  function TieEnd(k: Keyer, complete: bool): Keyer
    requires KeyShape(k)
    requires k.tie.me >= 0
  {
    if k.tie.me == 0 then k
    else if k.tie.atCut then
      var free := Untie(k);
      if complete then CutKey(free, !free.fade.on) else free
    else
      var last := TieAdvance(k, if complete then 1.0 else 0.0);
      Untie(if !complete then last.(fade := last.fade.(on := !last.fade.on, gain := k.tie.gain0))
            else if k.tie.fly && !last.fade.on then last.(fade := last.fade.(gain := 0.0))
            else last)
  }

  ghost predicate KeysShape(keys: seq<Keyer>) {
    forall k :: 0 <= k < |keys| ==> KeyShape(keys[k]) && keys[k].tie.me >= 0
  }

  function EndTies(keys: seq<Keyer>, me: int, complete: bool): (r: seq<Keyer>)
    requires KeysShape(keys)
    ensures |r| == |keys|
    ensures forall k :: 0 <= k < |keys| ==> r[k] == if keys[k].tie.me == me then TieEnd(keys[k], complete) else keys[k]
  {
    seq(|keys|, k requires 0 <= k < |keys| && KeysShape(keys) => if keys[k].tie.me == me then TieEnd(keys[k], complete) else keys[k])
  }

  function StartTies(keys: seq<Keyer>, ties: seq<int>, me: int, atCut: bool): (r: seq<Keyer>)
    ensures |r| == |keys|
    ensures forall k :: 0 <= k < |keys| ==> r[k] == if k + 1 in ties then TieStart(keys[k], me, atCut) else keys[k]
  {
    seq(|keys|, k requires 0 <= k < |keys| => if k + 1 in ties then TieStart(keys[k], me, atCut) else keys[k])
  }

  function CutTies(keys: seq<Keyer>, ties: seq<int>): (r: seq<Keyer>)
    ensures |r| == |keys|
    ensures forall k :: 0 <= k < |keys| ==> r[k] == if k + 1 in ties then CutKey(keys[k], !keys[k].fade.on) else keys[k]
  {
    seq(|keys|, k requires 0 <= k < |keys| => if k + 1 in ties then CutKey(keys[k], !keys[k].fade.on) else keys[k])
  }

  // ---- one grain of one ME ---------------------------------------------------------------------

  /** One ME in one grain: its new state, its plan, what it does to its tied keyers, whether a bus
      changed, and what it adds to the stinger counters. */
  datatype MeStep = MeStep(me: Me, plan: MePlan, tie: TieStep, ended: bool, waits: nat, cuts: nat, played: nat)

  /** A stinger that waits for its first frame: it may start, wait on, or become a cut. */
  datatype Wait = Wait(me: Me, expired: bool, counted: bool)

  function AwaitSting(s: Me, index: nat, ready: seq<bool>): Wait {
    if !(s.pending && s.sting.player > 0) then Wait(s, false, false)
    else
      var w := if s.waiting then s else s.(waiting := true, start := index);
      var p := s.sting.player - 1;
      if p < |ready| && ready[p] then Wait(w.(waiting := false), false, false)
      else if index >= w.start && index - w.start < STINGER_WAIT then Wait(w, false, true)
      else Wait(FinishMix(w), true, false)
  }

  function Begin(s: Me, index: nat): Me {
    if s.pending && !s.waiting then s.(pending := false, mixing := true, start := index) else s
  }

  function AutoT(s: Me, step: int): real
    requires s.frames >= 1
  {
    s.from + (1.0 - s.from) * (step as real / s.frames as real)
  }

  function BasePlan(m: int, s: Me): MePlan {
    MePlan(m, s.program, if s.mixing then s.target else s.preview, 0.0, 0.0, false, s.mixing && s.wiping, s.wipe,
           0, 0, false, s.preview, 0.0, 0.0, [], false)
  }

  /** The stinger frame shown in grain `index`. */
  function StingFrame(s: Me, index: nat): int {
    Min(if index >= s.start then index - s.start else 0, s.frames - 1)
  }

  function Progress(m: int, s: Me, index: nat, cut: bool): (r: (Me, MePlan, TieStep, bool))
    requires s.mixing ==> s.frames >= 1
  {
    var plan := BasePlan(m, s);
    var none := NO_TIE_STEP.(cut := cut);
    if s.mixing && s.manual then
      var held := s.(tLast := s.t);
      var shown := plan.(mixing := true, t := s.t, tPrev := s.tLast);
      if s.t >= 1.0 then (FinishMix(held), shown, none.(active := true, t := s.t, end := true), true)
      else if s.t <= 0.0 then
        (held.(mixing := false, manual := false, wiping := false, after := None), shown, none.(active := false, t := s.t, back := true), true)
      else (held, shown, none.(active := true, t := s.t), false)
    else if s.mixing && s.sting.player > 0 then
      var f := StingFrame(s, index);
      var shown := plan.(stinger := s.sting.player, stingerFrame := f, cutDone := f >= s.sting.cut,
                         tPrev := Crossfade.StingerFadeT(f - 1, s.sting.cut, s.frames), t := Crossfade.StingerFadeT(f, s.sting.cut, s.frames));
      if f >= s.frames - 1 then (FinishMix(s), shown, none.(cut := f >= s.sting.cut, end := true), true)
      else (s.(position := f + 1), shown, none.(cut := f >= s.sting.cut), false)
    else if s.mixing then
      var step := Min(Done(s.start, index), s.frames);
      var shown := plan.(mixing := true, t := if step >= s.frames then 1.0 else AutoT(s, step), tPrev := AutoT(s, step - 1));
      if step >= s.frames then (FinishMix(s), shown, none.(active := true, t := shown.t, end := true), true)
      else (s.(position := step), shown, none.(active := true, t := shown.t), false)
    else (s, plan, none, false)
  }

  function FrameMe(m: int, s: Me, ftb: Fade, index: nat, ready: seq<bool>): (r: MeStep)
    requires s.Running() ==> s.frames >= 1
    requires FadeRuns(ftb) ==> ftb.frames >= 1
  {
    var w := AwaitSting(s, index, ready);
    var b := Begin(w.me, index);
    var (me, plan, tie, ended) := Progress(m, b, index, w.expired);
    MeStep(me, plan.(ftbPrev := ftb.gain, ftb := FadeAdvance(ftb, index).0.gain), tie, ended || w.expired,
           if w.counted then 1 else 0, if w.expired then 1 else 0, if w.me.pending && !w.me.waiting && b.sting.player > 0 then 1 else 0)
  }

  // ---- one grain of one keyer ------------------------------------------------------------------

  datatype KeyStep = KeyStep(key: Keyer, plan: KeyPlan, ended: bool)

  /** A tied keyer before its own fade and run: it cuts, goes back, or follows t; and whether its tie
      ends after this grain. */
  function FollowTie(k: Keyer, tie: TieStep): (r: (Keyer, bool, bool))
    requires KeyShape(k)
    ensures KeyShape(r.0) && (r.1 ==> r.0.tie.me > 0)
  {
    if k.tie.me <= 0 then (k, false, false)
    else if k.tie.atCut then
      (if tie.cut then CutKey(k, !k.fade.on) else k, tie.end && !tie.cut, tie.cut)
    else if tie.back then (TieEnd(k, false), false, true)
    else if tie.active then (TieAdvance(k, tie.t), tie.end, false)
    else (k, false, false)
  }

  /** After the grain was shown: the end of a tie, and the end of a run (a fly off goes off air). */
  function SettleKey(k: Keyer, tieEnded: bool, runEnded: bool): Keyer
    requires tieEnded ==> KeyShape(k) && k.tie.me >= 0
  {
    var k1 := if tieEnded then TieEnd(k, true) else k;
    if runEnded then
      k1.(fade := k1.fade.(gain := if k1.box.flying && !k1.fade.on then 0.0 else k1.fade.gain), box := k1.box.(flying := false))
    else k1
  }

  function FrameKey(number: int, k: Keyer, tie: TieStep, index: nat): KeyStep
    requires KeyShape(k)
  {
    var (k1, tieEnded, moved) := FollowTie(k, tie);
    var (f, fadeEnded) := FadeAdvance(k1.fade, index);
    var (k2, runEnded) := RunAdvance(k1.(fade := f), index);
    KeyStep(SettleKey(k2, tieEnded, runEnded), KeyPlan(number, k2.me, k2.upstream, k2.fade.gain, k2.settings),
            moved || fadeEnded || tieEnded || runEnded)
  }
}
