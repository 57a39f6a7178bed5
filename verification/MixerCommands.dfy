/** The mixer's commands and its grain on the whole state, and the invariant over every run of them. */
module MixerCommands {
  import opened Wrappers
  import opened RealMath
  import opened Keyframes
  import opened MixerTypes
  import opened MixerModel
  import opened MixerInvariant
  import Visibility

  lemma ShapeOfInv(c: Config, st: St)
    requires Inv(c, st)
    ensures KeysShape(st.keys)
  {
    forall k | 0 <= k < |st.keys| ensures KeyShape(st.keys[k]) && st.keys[k].tie.me >= 0 {
      assert KeyAt(c, st, k);
    }
  }

  /** A step may change one ME and the keyers on it. */
  lemma ChangeInv(c: Config, st: St, me: int, s: Me, keys: seq<Keyer>)
    requires Inv(c, st) && c.ValidMe(me) && MeOk(c, me, s) && |keys| == |st.keys|
    requires forall k :: 0 <= k < |keys| && st.keys[k].me != me ==> keys[k] == st.keys[k]
    requires forall k :: 0 <= k < |keys| && st.keys[k].me == me ==> KeyOk(c, k + 1, keys[k]) && Coupled(s, keys[k])
    ensures Inv(c, st.(me := st.me[me - 1 := s], keys := keys))
  {
    var st' := st.(me := st.me[me - 1 := s], keys := keys);
    forall k | 0 <= k < |keys| ensures KeyAt(c, st', k) {
      assert KeyAt(c, st, k);
    }
    forall m | 0 <= m < c.mes ensures MeAt(c, st', m) {
      assert MeAt(c, st, m) && MeAt(c, st, me - 1);
    }
  }

  /** A change of one ME that neither starts nor ends a transition. */
  lemma ChangeMeInv(c: Config, st: St, me: int, s: Me)
    requires Inv(c, st) && c.ValidMe(me) && MeOk(c, me, s)
    requires s.Running() == st.me[me - 1].Running() && s.sting == st.me[me - 1].sting
    ensures Inv(c, st.(me := st.me[me - 1 := s]))
  {
    forall k | 0 <= k < |st.keys| && st.keys[k].me == me ensures KeyOk(c, k + 1, st.keys[k]) && Coupled(s, st.keys[k]) {
      assert KeyAt(c, st, k);
    }
    ChangeInv(c, st, me, s, st.keys);
    assert st.(me := st.me[me - 1 := s]) == st.(me := st.me[me - 1 := s], keys := st.keys);
  }

  // ---- takes -----------------------------------------------------------------------------------

  /** ME me's transition, if any, ended as at its end, its tied keyers with it. */
  function EndTransition(st: St, me: int): St
    requires 1 <= me <= |st.me| && KeysShape(st.keys)
  {
    st.(me := st.me[me - 1 := FinishMix(st.me[me - 1])], keys := EndTies(st.keys, me, true))
  }

  /** A take on an ME without a transition. */
  function StartTake(st: St, me: int, d: Deferred): St
    requires 1 <= me <= |st.me|
  {
    var s := st.me[me - 1];
    var tied := if d.ties then s.next.ties else [];
    if d.kind == Stinger && d.sting.player > 0 && d.sting.frames > 0 then
      var sting := d.sting.(cut := Clamp(d.sting.cut, 0, d.sting.frames));
      st.(me := st.me[me - 1 := s.(target := d.target, after := d.preview, frames := d.sting.frames, sting := sting, pending := true)],
          keys := StartTies(st.keys, tied, me, true))
    else if d.frames == 0 || d.kind == Cut || d.kind == Stinger then
      st.(me := st.me[me - 1 := s.(program := d.target, preview := d.preview.GetOr(s.preview))], keys := CutTies(st.keys, tied))
    else
      st.(me := st.me[me - 1 := s.(target := d.target, after := d.preview, frames := d.frames, pending := true,
                                   wiping := d.kind == Wipe, wipe := s.next.wipe)],
          keys := StartTies(st.keys, tied, me, false))
  }

  function MakeTake(st: St, me: int, d: Deferred): St
    requires 1 <= me <= |st.me| && KeysShape(st.keys)
  {
    StartTake(EndTransition(st, me), me, d)
  }

  /** ME me has no transition and no keyer tied to it. */
  predicate Free(st: St, me: int)
    requires 1 <= me <= |st.me|
  {
    !st.me[me - 1].Running() && forall k :: 0 <= k < |st.keys| ==> st.keys[k].tie.me != me
  }

  lemma EndTiesInv(c: Config, st: St, me: int, s: Me)
    requires Inv(c, st) && c.ValidMe(me) && MeOk(c, me, s) && !s.Running()
    ensures KeysShape(st.keys)
    ensures var r := st.(me := st.me[me - 1 := s], keys := EndTies(st.keys, me, true)); Inv(c, r) && Free(r, me)
  {
    ShapeOfInv(c, st);
    var keys := EndTies(st.keys, me, true);
    forall k | 0 <= k < |keys|
      ensures keys[k].tie.me != me
      ensures st.keys[k].me != me ==> keys[k] == st.keys[k]
      ensures st.keys[k].me == me ==> KeyOk(c, k + 1, keys[k]) && Coupled(s, keys[k])
    {
      assert KeyAt(c, st, k);
      if st.keys[k].tie.me == me { TieEndOk(c, k + 1, st.keys[k], true); }
    }
    ChangeInv(c, st, me, s, keys);
  }

  lemma FinishMixOk(c: Config, me: int, s: Me)
    requires MeOk(c, me, s)
    ensures MeOk(c, me, FinishMix(s)) && !FinishMix(s).Running()
  {
  }

  lemma EndTransitionInv(c: Config, st: St, me: int)
    requires Inv(c, st) && c.ValidMe(me)
    ensures KeysShape(st.keys)
    ensures Inv(c, EndTransition(st, me)) && Free(EndTransition(st, me), me)
  {
    assert MeAt(c, st, me - 1);
    FinishMixOk(c, me, st.me[me - 1]);
    EndTiesInv(c, st, me, FinishMix(st.me[me - 1]));
  }

  /** The keyers tied to a new transition of a free ME. */
  lemma StartTiesInv(c: Config, st: St, me: int, s: Me, tied: seq<int>, atCut: bool)
    requires Inv(c, st) && c.ValidMe(me) && Free(st, me) && c.TiesValid(me, tied)
    requires MeOk(c, me, s) && s.Running() && (atCut <==> s.sting.player > 0)
    ensures Inv(c, st.(me := st.me[me - 1 := s], keys := StartTies(st.keys, tied, me, atCut)))
  {
    var keys := StartTies(st.keys, tied, me, atCut);
    forall k | 0 <= k < |keys|
      ensures st.keys[k].me != me ==> keys[k] == st.keys[k]
      ensures st.keys[k].me == me ==> KeyOk(c, k + 1, keys[k]) && Coupled(s, keys[k])
    {
      assert KeyAt(c, st, k);
      if k + 1 in tied {
        assert c.keyers[k] == KeyerSpec(me, true);
        TieStartOk(c, k + 1, st.keys[k], atCut);
      }
    }
    ChangeInv(c, st, me, s, keys);
  }

  lemma CutTiesInv(c: Config, st: St, me: int, s: Me, tied: seq<int>)
    requires Inv(c, st) && c.ValidMe(me) && Free(st, me) && c.TiesValid(me, tied)
    requires MeOk(c, me, s)
    ensures Inv(c, st.(me := st.me[me - 1 := s], keys := CutTies(st.keys, tied)))
  {
    var keys := CutTies(st.keys, tied);
    forall k | 0 <= k < |keys|
      ensures st.keys[k].me != me ==> keys[k] == st.keys[k]
      ensures st.keys[k].me == me ==> KeyOk(c, k + 1, keys[k]) && Coupled(s, keys[k])
    {
      assert KeyAt(c, st, k);
      if k + 1 in tied {
        assert c.keyers[k] == KeyerSpec(me, true);
        CutKeyOk(c, k + 1, st.keys[k], !st.keys[k].fade.on);
      }
    }
    ChangeInv(c, st, me, s, keys);
  }

  lemma StartTakeInv(c: Config, st: St, me: int, d: Deferred)
    requires Inv(c, st) && c.ValidMe(me) && DeferredOk(c, me, d) && Free(st, me)
    ensures Inv(c, StartTake(st, me, d))
  {
    var s := st.me[me - 1];
    assert MeAt(c, st, me - 1);
    var tied := if d.ties then s.next.ties else [];
    if d.kind == Stinger && d.sting.player > 0 && d.sting.frames > 0 {
      StartTiesInv(c, st, me, StartTake(st, me, d).me[me - 1], tied, true);
    } else if d.frames == 0 || d.kind == Cut || d.kind == Stinger {
      CutTiesInv(c, st, me, StartTake(st, me, d).me[me - 1], tied);
    } else {
      StartTiesInv(c, st, me, StartTake(st, me, d).me[me - 1], tied, false);
    }
  }

  lemma MakeTakeInv(c: Config, st: St, me: int, d: Deferred)
    requires Inv(c, st) && c.ValidMe(me) && DeferredOk(c, me, d)
    ensures KeysShape(st.keys) && Inv(c, MakeTake(st, me, d))
  {
    EndTransitionInv(c, st, me);
    StartTakeInv(c, EndTransition(st, me), me, d);
  }

  function TakeCheck(c: Config, me: int, d: Deferred): MixResult {
    if !c.ValidMe(me) then BadMe
    else if !c.SourceAllowed(me, d.target) || (d.preview.Some? && !c.SourceAllowed(me, d.preview.value)) then BadSource
    else if d.frames < 0 || d.frames > MAX_FRAMES then BadFrames
    else Ok
  }

  function Take(c: Config, st: St, me: int, d: Deferred): (St, MixResult)
    requires |st.me| == c.mes && KeysShape(st.keys)
  {
    if TakeCheck(c, me, d) == Ok then (MakeTake(st, me, d), Ok) else (st, TakeCheck(c, me, d))
  }

  function TakeAt(c: Config, st: St, me: int, d: Deferred): (St, MixResult)
    requires |st.deferred| == c.mes
  {
    if TakeCheck(c, me, d) == Ok then (st.(deferred := st.deferred[me - 1 := Some(d)]), Ok) else (st, TakeCheck(c, me, d))
  }

  predicate Due(held: Option<Deferred>, m: int, index: nat, all: bool, me: Option<int>) {
    held.Some? && (me.Some? ==> m == me.value) && (all || held.value.at <= index)
  }

  function Stamp(st: St, m: nat, stamp: nat): St
    requires m < |st.me|
  {
    st.(me := st.me[m := st.me[m].(heldMade := stamp)])
  }

  lemma StampedTakeInv(c: Config, st: St, m: nat, d: Deferred, stamp: nat)
    requires Inv(c, st) && m < c.mes && DeferredOk(c, m + 1, d)
    ensures KeysShape(st.keys)
    ensures Inv(c, Stamp(MakeTake(st, m + 1, d), m, stamp))
    ensures MakeTake(st, m + 1, d).deferred == st.deferred && MakeTake(st, m + 1, d).ftbs == st.ftbs
  {
    MakeTakeInv(c, st, m + 1, d);
    var r := MakeTake(st, m + 1, d);
    assert MeAt(c, r, m);
    ChangeMeInv(c, r, m + 1, r.me[m].(heldMade := stamp));
  }

  ghost predicate DueOk(c: Config, due: seq<Option<Deferred>>) {
    |due| == c.mes && forall i :: 0 <= i < c.mes && due[i].Some? ==> DeferredOk(c, i + 1, due[i].value)
  }

  /** The held takes due, made in the order of their MEs, from ME m + 1 on. */
  ghost function ReleaseFrom(c: Config, st: St, due: seq<Option<Deferred>>, m: nat, stamp: nat): St
    requires Inv(c, st) && DueOk(c, due) && m <= c.mes
    decreases c.mes - m
  {
    if m == c.mes then st
    else if due[m].None? then ReleaseFrom(c, st, due, m + 1, stamp)
    else
      StampedTakeInv(c, st, m, due[m].value, stamp);
      ReleaseFrom(c, Stamp(MakeTake(st, m + 1, due[m].value), m, stamp), due, m + 1, stamp)
  }

  function DueTakes(st: St, index: nat, all: bool, me: Option<int>): (r: seq<Option<Deferred>>)
    ensures |r| == |st.deferred|
    ensures forall m :: 0 <= m < |r| ==> r[m] == if Due(st.deferred[m], m + 1, index, all, me) then st.deferred[m] else None
  {
    seq(|st.deferred|, m requires 0 <= m < |st.deferred| => if Due(st.deferred[m], m + 1, index, all, me) then st.deferred[m] else None)
  }

  function StillHeld(st: St, index: nat, all: bool, me: Option<int>): (r: seq<Option<Deferred>>)
    ensures |r| == |st.deferred|
    ensures forall m :: 0 <= m < |r| ==> r[m] == if Due(st.deferred[m], m + 1, index, all, me) then None else st.deferred[m]
  {
    seq(|st.deferred|, m requires 0 <= m < |st.deferred| => if Due(st.deferred[m], m + 1, index, all, me) then None else st.deferred[m])
  }

  lemma ClearedInv(c: Config, st: St, index: nat, all: bool, me: Option<int>)
    requires Inv(c, st)
    ensures Inv(c, st.(deferred := StillHeld(st, index, all, me))) && DueOk(c, DueTakes(st, index, all, me))
  {
    var st' := st.(deferred := StillHeld(st, index, all, me));
    forall m | 0 <= m < c.mes
      ensures MeAt(c, st', m)
      ensures DueTakes(st, index, all, me)[m].Some? ==> DeferredOk(c, m + 1, DueTakes(st, index, all, me)[m].value)
    {
      assert MeAt(c, st, m);
    }
    SameKeysInv(c, st, st');
  }

  /** The keyers of a state with the same MEs and keyers. */
  lemma SameKeysInv(c: Config, st: St, st': St)
    requires Inv(c, st) && Shaped(c, st') && st'.me == st.me && st'.keys == st.keys
    ensures forall k :: 0 <= k < |st'.keys| ==> KeyAt(c, st', k)
  {
    forall k | 0 <= k < |st'.keys| ensures KeyAt(c, st', k) {
      assert KeyAt(c, st, k);
    }
  }

  ghost function RunHeld(c: Config, st: St, index: nat, all: bool, me: Option<int>): St
    requires Inv(c, st)
  {
    ClearedInv(c, st, index, all, me);
    ReleaseFrom(c, st.(deferred := StillHeld(st, index, all, me)), DueTakes(st, index, all, me), 0, if all then 0 else index)
  }

  lemma {:induction false} ReleaseInv(c: Config, st: St, due: seq<Option<Deferred>>, m: nat, stamp: nat)
    requires Inv(c, st) && DueOk(c, due) && m <= c.mes
    ensures Inv(c, ReleaseFrom(c, st, due, m, stamp))
    ensures ReleaseFrom(c, st, due, m, stamp).deferred == st.deferred && ReleaseFrom(c, st, due, m, stamp).ftbs == st.ftbs
    decreases c.mes - m
  {
    if m < c.mes {
      if due[m].Some? {
        StampedTakeInv(c, st, m, due[m].value, stamp);
        ReleaseInv(c, Stamp(MakeTake(st, m + 1, due[m].value), m, stamp), due, m + 1, stamp);
      } else {
        ReleaseInv(c, st, due, m + 1, stamp);
      }
    }
  }

  lemma RunHeldInv(c: Config, st: St, index: nat, all: bool, me: Option<int>)
    requires Inv(c, st)
    ensures Inv(c, RunHeld(c, st, index, all, me))
    ensures RunHeld(c, st, index, all, me).deferred == StillHeld(st, index, all, me)
    ensures RunHeld(c, st, index, all, me).ftbs == st.ftbs
  {
    ClearedInv(c, st, index, all, me);
    ReleaseInv(c, st.(deferred := StillHeld(st, index, all, me)), DueTakes(st, index, all, me), 0, if all then 0 else index);
  }

  // ---- buses and transitions -------------------------------------------------------------------

  function SetProgram(c: Config, st: St, me: int, source: Source): (St, MixResult)
    requires |st.me| == c.mes && KeysShape(st.keys)
  {
    if !c.ValidMe(me) then (st, BadMe)
    else if !c.SourceAllowed(me, source) then (st, BadSource)
    else (st.(me := st.me[me - 1 := Halt(st.me[me - 1]).(program := source)], keys := EndTies(st.keys, me, true)), Ok)
  }

  function SetPreview(c: Config, st: St, me: int, source: Source): (St, MixResult)
    requires |st.me| == c.mes
  {
    if !c.ValidMe(me) then (st, BadMe)
    else if !c.SourceAllowed(me, source) then (st, BadSource)
    else (st.(me := st.me[me - 1 := st.me[me - 1].(preview := source, after := None)]), Ok)
  }

  function SetTransition(c: Config, st: St, me: int, next: TransitionSettings): (St, MixResult)
    requires |st.me| == c.mes
  {
    if !c.ValidMe(me) then (st, BadMe)
    else if next.frames < 1 || next.frames > MAX_FRAMES then (st, BadFrames)
    else if next.wipe.pattern !in WIPE_CODES || !Unit(next.wipe.soft) || !Unit(next.wipe.border) then (st, BadPattern)
    else if !c.TiesValid(me, next.ties) then (st, BadTies)
    else (st.(me := st.me[me - 1 := st.me[me - 1].(next := next)]), Ok)
  }

  function CutTake(st: St, me: int): Deferred
    requires 1 <= me <= |st.me|
  {
    var s := st.me[me - 1];
    Deferred(0, s.preview, 0, Some(s.program), Transition.Cut, NO_STING, !s.Running())
  }

  function CutMe(c: Config, st: St, me: int): (St, MixResult)
    requires |st.me| == c.mes && KeysShape(st.keys)
  {
    if !c.ValidMe(me) then (st, BadMe) else Take(c, st, me, CutTake(st, me))
  }

  function AutoTake(st: St, me: int, frames: Option<int>): Deferred
    requires 1 <= me <= |st.me|
  {
    var s := st.me[me - 1];
    Deferred(0, s.preview, frames.GetOr(s.next.frames), Some(s.program), s.next.kind, NO_STING, true)
  }

  /** The grains left to a lever at t, at a rate for the whole way. */
  function FramesLeft(rate: int, t: real): int {
    Max(1, (rate as real * (1.0 - t) + 0.5).Floor)
  }

  function ResumeAuto(s: Me, rate: int): Me {
    s.(frames := FramesLeft(rate, s.t), from := s.t, manual := false, mixing := false, pending := true, position := 0)
  }

  function Auto(c: Config, st: St, me: int, frames: Option<int>): (St, MixResult)
    requires |st.me| == c.mes && KeysShape(st.keys)
  {
    if !c.ValidMe(me) then (st, BadMe)
    else if frames.Some? && (frames.value < 1 || frames.value > MAX_FRAMES) then (st, BadFrames)
    else
      var s := st.me[me - 1];
      if s.manual then (st.(me := st.me[me - 1 := ResumeAuto(s, frames.GetOr(s.next.frames))]), Ok)
      else if s.Running() then (st, Busy)
      else Take(c, st, me, AutoTake(st, me, frames))
  }

  function StartManual(s: Me): Me {
    s.(target := s.preview, after := Some(s.program), frames := s.next.frames, wiping := s.next.kind == Wipe, wipe := s.next.wipe,
       mixing := true, manual := true, tLast := 0.0)
  }

  function Position(c: Config, st: St, me: int, t: real): (St, MixResult)
    requires |st.me| == c.mes && KeysShape(st.keys)
  {
    if !c.ValidMe(me) then (st, BadMe)
    else if !Unit(t) then (st, BadPosition)
    else
      var s := st.me[me - 1];
      if s.pending || (s.mixing && !s.manual) then (st, Busy)
      else if s.mixing then (st.(me := st.me[me - 1 := s.(t := t)]), Ok)
      else if t <= 0.0 then (st, Ok)
      else if s.next.kind == Stinger || s.next.kind == Transition.Cut then
        Auto(c, st.(me := st.me[me - 1 := s.(t := t)]), me, None)
      else
        (st.(me := st.me[me - 1 := StartManual(s).(t := t)], keys := StartTies(st.keys, s.next.ties, me, false)), Ok)
  }

  function FtbSet(c: Config, st: St, me: int, on: bool): (St, MixResult)
    requires |st.ftbs| == c.mes
  {
    if !c.ValidMe(me) then (st, BadMe) else (st.(ftbs := st.ftbs[me - 1 := FadeSet(st.ftbs[me - 1], on)]), Ok)
  }

  function FtbAuto(c: Config, st: St, me: int, frames: int): (St, MixResult)
    requires |st.ftbs| == c.mes
  {
    if !c.ValidMe(me) then (st, BadMe)
    else if frames < 1 || frames > MAX_FRAMES then (st, BadFrames)
    else (st.(ftbs := st.ftbs[me - 1 := FadeAuto(st.ftbs[me - 1], frames)]), Ok)
  }

  // ---- keyer commands --------------------------------------------------------------------------

  /** Keyer `key` becomes k. */
  function PutKey(st: St, key: int, k: Keyer): St
    requires 1 <= key <= |st.keys|
  {
    st.(keys := st.keys[key - 1 := k])
  }

  function KeySet(c: Config, st: St, key: int, on: bool): (St, MixResult)
    requires |st.keys| == |c.keyers|
  {
    if !c.ValidKey(key) then (st, BadMe) else (PutKey(st, key, CutKey(st.keys[key - 1], on)), Ok)
  }

  function AutoKey(k: Keyer, frames: int): Keyer {
    var free := Untie(k);
    if CanFly(k) then
      var turningBack := (k.box.flying && k.RunsNow()) || k.TiedFly();
      var on := !k.fade.on;
      var shown := free.(fade := free.fade.(on := on, pending := false, running := false, gain := 1.0));
      var placed := if on && !turningBack then JumpTo(shown, 0) else shown;
      var run := StartRun(placed, FlyTarget(k, on), Off, false);
      run.(box := run.box.(flying := true))
    else free.(fade := FadeAuto(free.fade, frames))
  }

  function KeyAuto(c: Config, st: St, key: int, frames: int): (St, MixResult)
    requires |st.keys| == |c.keyers|
  {
    if !c.ValidKey(key) then (st, BadMe)
    else if frames < 1 || frames > MAX_FRAMES then (st, BadFrames)
    else (PutKey(st, key, AutoKey(st.keys[key - 1], frames)), Ok)
  }

  /** The box a settings command gives: the current one edited, or the settings' own. */
  function NewBox(k: Keyer, settings: KeySettings, editBox: Option<DmeSettings -> DmeSettings>): DmeSettings {
    var box := if editBox.Some? then editBox.value(k.settings.dme) else settings.dme;
    box.(enabled := settings.pip || box.enabled)
  }

  function ChangeSettings(k: Keyer, settings: KeySettings, box: DmeSettings): Keyer {
    var changed := k.(settings := settings.(dme := box));
    if DmeSameState(box, k.settings.dme) then changed else PlaceOnPath(StopRun(changed))
  }

  function SetKey(c: Config, st: St, key: int, settings: KeySettings, editBox: Option<DmeSettings -> DmeSettings>): (St, MixResult)
    requires |st.keys| == |c.keyers|
  {
    if !c.ValidKey(key) then (st, BadMe)
    else
      var k := st.keys[key - 1];
      if !Unit(settings.clip) || !Unit(settings.soft) || !Unit(settings.gain) then (st, BadKey)
      else if settings.luma && settings.pip then (st, BadKey)
      else if (settings.luma || settings.pip) && !c.SourceAllowed(k.me, settings.source) then (st, BadSource)
      else
        var box := NewBox(k, settings, editBox);
        if box.enabled && (!k.upstream || !DmeValid(box)) then (st, BadDme)
        else (PutKey(st, key, ChangeSettings(k, settings, box)), Ok)
  }

  /** What is wrong with the first bad keyframe, from keyframe j on. */
  function KeyframesCheck(keyframes: seq<Keyframe>, j: nat): (r: MixResult)
    requires j <= |keyframes|
    ensures r == Ok <==> forall i :: j <= i < |keyframes| ==> 1 <= keyframes[i].frames <= MAX_FRAMES && DmeValid(keyframes[i].box)
    decreases |keyframes| - j
  {
    if j == |keyframes| then Ok
    else if keyframes[j].frames < 1 || keyframes[j].frames > MAX_FRAMES then BadFrames
    else if !DmeValid(keyframes[j].box) then BadDme
    else KeyframesCheck(keyframes, j + 1)
  }

  function SetKeyframes(c: Config, st: St, key: int, keyframes: seq<Keyframe>): (St, MixResult)
    requires |st.keys| == |c.keyers|
  {
    if !c.ValidKey(key) then (st, BadMe)
    else if !st.keys[key - 1].upstream then (st, BadDme)
    else if |keyframes| > MAX_KEYFRAMES then (st, BadKeyframes)
    else if KeyframesCheck(keyframes, 0) != Ok then (st, KeyframesCheck(keyframes, 0))
    else (PutKey(st, key, PlaceOnPath(StopRun(st.keys[key - 1]).(keyframes := keyframes))), Ok)
  }

  function RunKey(c: Config, st: St, key: int, to: Option<int>, reverse: bool, loop: Loop, frames: Option<int>): (St, MixResult)
    requires |st.keys| == |c.keyers|
  {
    if !c.ValidKey(key) then (st, BadMe)
    else if frames.Some? && (frames.value != 0 || loop != Off) then (st, BadFrames)
    else
      var k := st.keys[key - 1];
      if !k.upstream || !Boxed(k.settings) then (st, BadDme)
      else
        var n := |k.keyframes|;
        var j := to.GetOr(if reverse then 0 else n - 1);
        if n == 0 || j < 0 || j >= n || (loop != Off && n < 2) then (st, BadKeyframes)
        else (PutKey(st, key, if frames.Some? then JumpTo(StopRun(k), j) else StartRun(StopRun(k), j, loop, reverse)), Ok)
  }

  function StopKey(c: Config, st: St, key: int): (St, MixResult)
    requires |st.keys| == |c.keyers|
  {
    if !c.ValidKey(key) then (st, BadMe) else (PutKey(st, key, StopRun(st.keys[key - 1])), Ok)
  }

  // ---- one grain -------------------------------------------------------------------------------

  ghost predicate Framable(st: St) {
    && |st.ftbs| == |st.me| && KeysShape(st.keys) && FadesFit(st.ftbs)
    && (forall m :: 0 <= m < |st.me| ==> st.me[m].Running() ==> st.me[m].frames >= 1)
    && (forall k :: 0 <= k < |st.keys| ==> st.keys[k].tie.me <= |st.me|)
  }

  /** The steps of the MEs from number m + 1 on. */
  function MeSteps(st: St, index: nat, ready: seq<bool>, m: nat := 0): (r: seq<MeStep>)
    requires Framable(st) && m <= |st.me|
    ensures |r| == |st.me| - m
    decreases |st.me| - m
  {
    if m == |st.me| then []
    else [FrameMe(m + 1, st.me[m], st.ftbs[m], index, ready)] + MeSteps(st, index, ready, m + 1)
  }

  lemma {:induction false} MeStepsAt(st: St, index: nat, ready: seq<bool>, m: nat, first: nat := 0)
    requires Framable(st) && first <= m < |st.me|
    ensures MeSteps(st, index, ready, first)[m - first] == FrameMe(m + 1, st.me[m], st.ftbs[m], index, ready)
    decreases m - first
  {
    hide FrameMe;
    if first < m { MeStepsAt(st, index, ready, m, first + 1); }
  }

  /** What the ME keyer k is tied to tells it in this grain. */
  function TieStepOf(k: Keyer, steps: seq<MeStep>): TieStep
    requires k.tie.me <= |steps|
  {
    if k.tie.me > 0 then steps[k.tie.me - 1].tie else NO_TIE_STEP
  }

  /** The steps of the keyers from number k + 1 on. */
  function KeySteps(st: St, steps: seq<MeStep>, index: nat, k: nat := 0): (r: seq<KeyStep>)
    requires Framable(st) && |steps| == |st.me| && k <= |st.keys|
    ensures |r| == |st.keys| - k
    decreases |st.keys| - k
  {
    if k == |st.keys| then []
    else [FrameKey(k + 1, st.keys[k], TieStepOf(st.keys[k], steps), index)] + KeySteps(st, steps, index, k + 1)
  }

  lemma {:induction false} KeyStepsAt(st: St, steps: seq<MeStep>, index: nat, k: nat, first: nat := 0)
    requires Framable(st) && |steps| == |st.me| && first <= k < |st.keys|
    ensures KeySteps(st, steps, index, first)[k - first] == FrameKey(k + 1, st.keys[k], TieStepOf(st.keys[k], steps), index)
    decreases k - first
  {
    hide FrameKey;
    if first < k {
      KeyStepsAt(st, steps, index, k, first + 1);
      var rest := KeySteps(st, steps, index, first + 1);
      assert KeySteps(st, steps, index, first)[k - first] == rest[k - (first + 1)];
    }
  }

  /** What a grain adds to the stinger counters. */
  datatype Counts = Counts(waits: nat, cuts: nat, played: nat)

  function Tally(steps: seq<MeStep>): Counts {
    if |steps| == 0 then Counts(0, 0, 0)
    else
      var rest := Tally(steps[1..]);
      Counts(steps[0].waits + rest.waits, steps[0].cuts + rest.cuts, steps[0].played + rest.played)
  }

  function NextMes(steps: seq<MeStep>): (r: seq<Me>)
    ensures |r| == |steps| && forall m :: 0 <= m < |r| ==> r[m] == steps[m].me
  {
    seq(|steps|, m requires 0 <= m < |steps| => steps[m].me)
  }

  function MePlans(steps: seq<MeStep>): (r: seq<MePlan>)
    ensures |r| == |steps| && forall j :: 0 <= j < |r| ==> r[j] == steps[|steps| - 1 - j].plan
  {
    seq(|steps|, j requires 0 <= j < |steps| => steps[|steps| - 1 - j].plan)
  }

  function NextKeys(steps: seq<KeyStep>): (r: seq<Keyer>)
    ensures |r| == |steps| && forall k :: 0 <= k < |r| ==> r[k] == steps[k].key
  {
    seq(|steps|, k requires 0 <= k < |steps| => steps[k].key)
  }

  function KeyPlans(steps: seq<KeyStep>): (r: seq<KeyPlan>)
    ensures |r| == |steps| && forall k :: 0 <= k < |r| ==> r[k] == steps[k].plan
  {
    seq(|steps|, k requires 0 <= k < |steps| => steps[k].plan)
  }

  ghost predicate FadesFit(fades: seq<Fade>) {
    forall m :: 0 <= m < |fades| ==> FadeRuns(fades[m]) ==> fades[m].frames >= 1
  }

  function NextFtbs(ftbs: seq<Fade>, index: nat): (r: seq<Fade>)
    requires FadesFit(ftbs)
    ensures |r| == |ftbs| && forall m :: 0 <= m < |r| ==> r[m] == FadeAdvance(ftbs[m], index).0
  {
    seq(|ftbs|, m requires 0 <= m < |ftbs| && FadesFit(ftbs) => FadeAdvance(ftbs[m], index).0)
  }

  /** The grain of a state whose held takes were made: the MEs' plans from the highest down, then the keyers. */
  function PlanGrain(st: St, index: nat, ready: seq<bool>): (r: (St, FramePlan))
    requires Framable(st)
  {
    var steps := MeSteps(st, index, ready);
    var keySteps := KeySteps(st, steps, index);
    var tally := Tally(steps);
    (St(NextMes(steps), st.deferred, NextKeys(keySteps), NextFtbs(st.ftbs, index),
        st.waits + tally.waits, st.cuts + tally.cuts, st.played + tally.played),
     FramePlan(MePlans(steps), KeyPlans(keySteps)))
  }

  lemma FramableOfInv(c: Config, st: St)
    requires Inv(c, st)
    ensures Framable(st)
  {
    ShapeOfInv(c, st);
    forall m | 0 <= m < c.mes
      ensures (st.me[m].Running() ==> st.me[m].frames >= 1) && (FadeRuns(st.ftbs[m]) ==> st.ftbs[m].frames >= 1)
    {
      assert MeAt(c, st, m);
    }
    forall k | 0 <= k < |st.keys| ensures st.keys[k].tie.me <= |st.me| {
      assert KeyAt(c, st, k);
    }
  }

  ghost function Frame(c: Config, st: St, index: nat, ready: seq<bool>): (St, FramePlan)
    requires Inv(c, st)
  {
    RunHeldInv(c, st, index, false, None);
    FramableOfInv(c, RunHeld(c, st, index, false, None));
    var (r, plan) := PlanGrain(RunHeld(c, st, index, false, None), index, ready);
    (r, Visibility.MarkVisibility(plan))
  }

  lemma MeStepInv(c: Config, st: St, m: nat, index: nat, ready: seq<bool>)
    requires Inv(c, st) && m < c.mes
    ensures Framable(st)
    ensures var r := FrameMe(m + 1, st.me[m], st.ftbs[m], index, ready);
            MeOk(c, m + 1, r.me) && StepFits(st.me[m], r.me, r.tie) && PlanOk(c, m + 1, r.plan)
  {
    hide FrameMe, StepFits, PlanOk;
    FramableOfInv(c, st);
    assert MeAt(c, st, m);
    FrameMeOk(c, m + 1, st.me[m], st.ftbs[m], index, ready);
  }

  /** Steps that fit: each ME's new state is sound and tells its tied keyers what they count on. */
  ghost predicate StepsFit(c: Config, st: St, steps: seq<MeStep>)
    requires |st.me| == c.mes
  {
    |steps| == c.mes
    && forall m :: 0 <= m < c.mes ==> MeOk(c, m + 1, steps[m].me) && StepFits(st.me[m], steps[m].me, steps[m].tie) && PlanOk(c, m + 1, steps[m].plan)
  }

  lemma MeStepsFit(c: Config, st: St, index: nat, ready: seq<bool>)
    requires Inv(c, st)
    ensures Framable(st) && StepsFit(c, st, MeSteps(st, index, ready))
  {
    FramableOfInv(c, st);
    forall m | 0 <= m < c.mes
      ensures var r := MeSteps(st, index, ready)[m];
              MeOk(c, m + 1, r.me) && StepFits(st.me[m], r.me, r.tie) && PlanOk(c, m + 1, r.plan)
    {
      MeStepInv(c, st, m, index, ready);
      MeStepsAt(st, index, ready, m);
    }
  }

  /** A keyer's step next to fitting steps of the MEs. */
  predicate KeyStepOk(c: Config, k: Keyer, number: int, s': Me, r: KeyStep) {
    && KeyOk(c, number, r.key) && r.key.me == k.me && Coupled(s', r.key)
    && Unit(r.plan.gain) && SettingsOk(c, k.me, k.upstream, r.plan.settings)
  }

  lemma KeyStepInv(c: Config, st: St, k: nat, index: nat, steps: seq<MeStep>)
    requires Inv(c, st) && k < |st.keys| && StepsFit(c, st, steps)
    ensures KeyShape(st.keys[k])
    ensures KeyStepOk(c, st.keys[k], k + 1, steps[st.keys[k].me - 1].me, FrameKey(k + 1, st.keys[k], TieStepOf(st.keys[k], steps), index))
  {
    var key := st.keys[k];
    var m := key.me - 1;
    assert KeyAt(c, st, k);
    var own, tie := steps[m].tie, TieStepOf(key, steps);
    FrameKeyOk(c, k + 1, st.me[m], steps[m].me, key, own, index);
    KeepsPlace(c, k + 1, key, FrameKey(k + 1, key, own, index).key);
    if !key.Tied() {
      UntiedIgnores(k + 1, key, own, tie, index);
    }
  }

  lemma KeepsPlace(c: Config, n: int, k: Keyer, k': Keyer)
    requires KeyOk(c, n, k) && KeyOk(c, n, k')
    ensures k.me == k'.me && k.upstream == k'.upstream
  {
  }

  lemma PlanGrainInv(c: Config, st: St, index: nat, ready: seq<bool>)
    requires Inv(c, st)
    ensures Framable(st)
    ensures Inv(c, PlanGrain(st, index, ready).0)
  {
    hide FrameKey, FrameMe, KeyStepOk, StepsFit;
    MeStepsFit(c, st, index, ready);
    var steps := MeSteps(st, index, ready);
    var keySteps := KeySteps(st, steps, index);
    forall k | 0 <= k < |st.keys|
      ensures KeyStepOk(c, st.keys[k], k + 1, steps[st.keys[k].me - 1].me, keySteps[k])
    {
      KeyStepInv(c, st, k, index, steps);
      KeyStepsAt(st, steps, index, k);
    }
    NextStateInv(c, st, index, steps, keySteps, PlanGrain(st, index, ready).0);
  }

  lemma NextStateInv(c: Config, st: St, index: nat, steps: seq<MeStep>, keySteps: seq<KeyStep>, st': St)
    requires Inv(c, st) && StepsFit(c, st, steps) && |keySteps| == |st.keys|
    requires forall k :: 0 <= k < |st.keys| ==> KeyStepOk(c, st.keys[k], k + 1, steps[st.keys[k].me - 1].me, keySteps[k])
    requires Framable(st) && st'.me == NextMes(steps) && st'.keys == NextKeys(keySteps) && st'.deferred == st.deferred && st'.ftbs == NextFtbs(st.ftbs, index)
    ensures Inv(c, st')
  {
    forall m | 0 <= m < c.mes ensures MeAt(c, st', m) {
      assert MeAt(c, st, m);
      FadeAdvanceOk(st.ftbs[m], index);
    }
    forall k | 0 <= k < |st.keys| ensures KeyAt(c, st', k) {
      assert KeyAt(c, st, k);
    }
  }

  /** Every plan of a grain: sources its ME may take, in descending order, t and gains in [0, 1]. */
  ghost predicate PlansOk(c: Config, st: St, plan: FramePlan) {
    && |plan.mes| == c.mes && |plan.keys| == |st.keys|
    && (forall j :: 0 <= j < c.mes ==> PlanOk(c, c.mes - j, plan.mes[j]))
    && (forall k :: 0 <= k < |st.keys| ==> Unit(plan.keys[k].gain) && SettingsOk(c, st.keys[k].me, st.keys[k].upstream, plan.keys[k].settings))
  }

  lemma PlanGrainOk(c: Config, st: St, index: nat, ready: seq<bool>)
    requires Inv(c, st)
    ensures Framable(st) && PlansOk(c, st, PlanGrain(st, index, ready).1)
  {
    hide FrameKey, FrameMe, KeyStepOk, StepsFit;
    MeStepsFit(c, st, index, ready);
    var steps := MeSteps(st, index, ready);
    var keySteps := KeySteps(st, steps, index);
    forall k | 0 <= k < |st.keys|
      ensures KeyStepOk(c, st.keys[k], k + 1, steps[st.keys[k].me - 1].me, keySteps[k])
    {
      KeyStepInv(c, st, k, index, steps);
      KeyStepsAt(st, steps, index, k);
    }
    StepPlansOk(c, st, steps, keySteps, PlanGrain(st, index, ready).1);
  }

  lemma StepPlansOk(c: Config, st: St, steps: seq<MeStep>, keySteps: seq<KeyStep>, plan: FramePlan)
    requires Inv(c, st) && StepsFit(c, st, steps) && |keySteps| == |st.keys|
    requires forall k :: 0 <= k < |st.keys| ==> KeyStepOk(c, st.keys[k], k + 1, steps[st.keys[k].me - 1].me, keySteps[k])
    requires plan.mes == MePlans(steps) && plan.keys == KeyPlans(keySteps)
    ensures PlansOk(c, st, plan)
  {
  }

  lemma UntiedIgnores(n: int, k: Keyer, tie: TieStep, other: TieStep, index: nat)
    requires KeyShape(k) && !k.Tied()
    ensures FrameKey(n, k, tie, index) == FrameKey(n, k, other, index)
  {
  }

  // ---- runs ------------------------------------------------------------------------------------

  datatype Event =
    | EvProgram(me: int, source: Source)
    | EvPreview(me: int, source: Source)
    | EvTransition(me: int, next: TransitionSettings)
    | EvTake(me: int, d: Deferred)
    | EvTakeAt(me: int, d: Deferred)
    | EvRunDeferred(which: Option<int>)
    | EvCut(me: int)
    | EvAuto(me: int, rate: Option<int>)
    | EvPosition(me: int, t: real)
    | EvFtbSet(me: int, on: bool)
    | EvFtbAuto(me: int, frames: int)
    | EvKeySet(key: int, on: bool)
    | EvKeyAuto(key: int, frames: int)
    | EvKeySettings(key: int, settings: KeySettings, editBox: Option<DmeSettings -> DmeSettings>)
    | EvKeyKeyframes(key: int, keyframes: seq<Keyframe>)
    | EvKeyRun(key: int, to: Option<int>, reverse: bool, loop: Loop, jump: Option<int>)
    | EvKeyStop(key: int)
    | EvFrame(index: nat, ready: seq<bool>)

  ghost function Apply(c: Config, st: St, e: Event): St
    requires Inv(c, st)
  {
    ShapeOfInv(c, st);
    match e
    case EvProgram(me, source) => SetProgram(c, st, me, source).0
    case EvPreview(me, source) => SetPreview(c, st, me, source).0
    case EvTransition(me, next) => SetTransition(c, st, me, next).0
    case EvTake(me, d) => Take(c, st, me, d).0
    case EvTakeAt(me, d) => TakeAt(c, st, me, d).0
    case EvRunDeferred(which) => RunHeld(c, st, 0, true, which)
    case EvCut(me) => CutMe(c, st, me).0
    case EvAuto(me, rate) => Auto(c, st, me, rate).0
    case EvPosition(me, t) => Position(c, st, me, t).0
    case EvFtbSet(me, on) => FtbSet(c, st, me, on).0
    case EvFtbAuto(me, frames) => FtbAuto(c, st, me, frames).0
    case EvKeySet(key, on) => KeySet(c, st, key, on).0
    case EvKeyAuto(key, frames) => KeyAuto(c, st, key, frames).0
    case EvKeySettings(key, settings, editBox) => SetKey(c, st, key, settings, editBox).0
    case EvKeyKeyframes(key, keyframes) => SetKeyframes(c, st, key, keyframes).0
    case EvKeyRun(key, to, reverse, loop, jump) => RunKey(c, st, key, to, reverse, loop, jump).0
    case EvKeyStop(key) => StopKey(c, st, key).0
    case EvFrame(index, ready) => Frame(c, st, index, ready).0
  }

  lemma TakeInv(c: Config, st: St, me: int, d: Deferred)
    requires Inv(c, st)
    ensures KeysShape(st.keys) && Inv(c, Take(c, st, me, d).0)
  {
    ShapeOfInv(c, st);
    if TakeCheck(c, me, d) == Ok { MakeTakeInv(c, st, me, d); }
  }

  lemma SetProgramInv(c: Config, st: St, me: int, source: Source)
    requires Inv(c, st)
    ensures KeysShape(st.keys) && Inv(c, SetProgram(c, st, me, source).0)
  {
    ShapeOfInv(c, st);
    if SetProgram(c, st, me, source).1 == Ok {
      assert MeAt(c, st, me - 1);
      EndTiesInv(c, st, me, Halt(st.me[me - 1]).(program := source));
    }
  }

  lemma SetPreviewInv(c: Config, st: St, me: int, source: Source)
    requires Inv(c, st)
    ensures Inv(c, SetPreview(c, st, me, source).0)
  {
    if SetPreview(c, st, me, source).1 == Ok {
      assert MeAt(c, st, me - 1);
      ChangeMeInv(c, st, me, st.me[me - 1].(preview := source, after := None));
    }
  }

  lemma SetTransitionInv(c: Config, st: St, me: int, next: TransitionSettings)
    requires Inv(c, st)
    ensures Inv(c, SetTransition(c, st, me, next).0)
  {
    if SetTransition(c, st, me, next).1 == Ok {
      assert MeAt(c, st, me - 1);
      ChangeMeInv(c, st, me, st.me[me - 1].(next := next));
    }
  }

  lemma TakeAtInv(c: Config, st: St, me: int, d: Deferred)
    requires Inv(c, st)
    ensures Inv(c, TakeAt(c, st, me, d).0)
  {
    var st' := TakeAt(c, st, me, d).0;
    forall m | 0 <= m < c.mes ensures MeAt(c, st', m) {
      assert MeAt(c, st, m);
    }
    SameKeysInv(c, st, st');
  }

  lemma FtbInv(c: Config, st: St, me: int, on: bool, frames: int)
    requires Inv(c, st)
    ensures Inv(c, FtbSet(c, st, me, on).0) && Inv(c, FtbAuto(c, st, me, frames).0)
  {
    var atOnce, faded := FtbSet(c, st, me, on).0, FtbAuto(c, st, me, frames).0;
    forall m | 0 <= m < c.mes ensures MeAt(c, atOnce, m) && MeAt(c, faded, m) {
      assert MeAt(c, st, m);
      FadeAutoOk(st.ftbs[m], frames);
    }
    SameKeysInv(c, st, atOnce);
    SameKeysInv(c, st, faded);
  }

  lemma AutoInv(c: Config, st: St, me: int, frames: Option<int>)
    requires Inv(c, st)
    ensures KeysShape(st.keys) && Inv(c, Auto(c, st, me, frames).0)
  {
    ShapeOfInv(c, st);
    if c.ValidMe(me) {
      var s := st.me[me - 1];
      assert MeAt(c, st, me - 1);
      if s.manual { ChangeMeInv(c, st, me, ResumeAuto(s, frames.GetOr(s.next.frames))); }
      TakeInv(c, st, me, AutoTake(st, me, frames));
    }
  }

  lemma FreeOfIdle(c: Config, st: St, me: int)
    requires Inv(c, st) && c.ValidMe(me) && !st.me[me - 1].Running()
    ensures Free(st, me)
  {
    forall k | 0 <= k < |st.keys| ensures st.keys[k].tie.me != me {
      assert KeyAt(c, st, k);
    }
  }

  lemma PositionInv(c: Config, st: St, me: int, t: real)
    requires Inv(c, st)
    ensures KeysShape(st.keys) && Inv(c, Position(c, st, me, t).0)
  {
    ShapeOfInv(c, st);
    if c.ValidMe(me) && Unit(t) {
      var s := st.me[me - 1];
      assert MeAt(c, st, me - 1);
      ChangeMeInv(c, st, me, s.(t := t));
      AutoInv(c, st.(me := st.me[me - 1 := s.(t := t)]), me, None);
      if !s.Running() {
        FreeOfIdle(c, st, me);
        StartTiesInv(c, st, me, StartManual(s).(t := t), s.next.ties, false);
      }
    }
  }

  /** A keyer's own command may change that keyer only, and never ties it. */
  lemma PutKeyInv(c: Config, st: St, key: int, k: Keyer)
    requires Inv(c, st) && c.ValidKey(key) && KeyOk(c, key, k)
    requires k.Tied() ==> k.tie == st.keys[key - 1].tie
    ensures Inv(c, PutKey(st, key, k))
  {
    assert KeyAt(c, st, key - 1);
    var st' := PutKey(st, key, k);
    forall i | 0 <= i < |st.keys| ensures KeyAt(c, st', i) {
      assert KeyAt(c, st, i);
    }
    forall m | 0 <= m < c.mes ensures MeAt(c, st', m) {
      assert MeAt(c, st, m);
    }
  }

  lemma KeySetInv(c: Config, st: St, key: int, on: bool)
    requires Inv(c, st)
    ensures Inv(c, KeySet(c, st, key, on).0)
  {
    if c.ValidKey(key) {
      assert KeyAt(c, st, key - 1);
      CutKeyOk(c, key, st.keys[key - 1], on);
      PutKeyInv(c, st, key, CutKey(st.keys[key - 1], on));
    }
  }

  lemma KeyStopInv(c: Config, st: St, key: int)
    requires Inv(c, st)
    ensures Inv(c, StopKey(c, st, key).0)
  {
    if c.ValidKey(key) {
      assert KeyAt(c, st, key - 1);
      StopRunOk(c, key, st.keys[key - 1]);
      PutKeyInv(c, st, key, StopRun(st.keys[key - 1]));
    }
  }

  lemma KeyAutoInv(c: Config, st: St, key: int, frames: int)
    requires Inv(c, st)
    ensures Inv(c, KeyAuto(c, st, key, frames).0)
  {
    if c.ValidKey(key) && 1 <= frames <= MAX_FRAMES {
      var k := st.keys[key - 1];
      assert KeyAt(c, st, key - 1);
      var free := Untie(k);
      if CanFly(k) {
        var shown := free.(fade := free.fade.(on := !k.fade.on, pending := false, running := false, gain := 1.0));
        JumpKeepsOk(c, key, shown, 0);
        StartRunOk(c, key, shown, FlyTarget(k, !k.fade.on), Off, false);
        StartRunOk(c, key, JumpTo(shown, 0), FlyTarget(k, !k.fade.on), Off, false);
      }
      PutKeyInv(c, st, key, AutoKey(k, frames));
    }
  }

  lemma ChangeSettingsOk(c: Config, key: int, k: Keyer, settings: KeySettings, box: DmeSettings)
    requires KeyOk(c, key, k) && SettingsOk(c, k.me, k.upstream, settings.(dme := box))
    ensures KeyOk(c, key, ChangeSettings(k, settings, box))
    ensures ChangeSettings(k, settings, box).Tied() ==> ChangeSettings(k, settings, box).tie == k.tie
  {
    hide PathOk, LeadOk;
    if DmeSameState(box, k.settings.dme) {
      PathOkAlike(k.keyframes, k.settings.dme, box, k.box.onPath, k.box.u);
    } else {
      StopRunOk(c, key, k);
      PlacedOnPath(StopRun(k.(settings := settings.(dme := box))));
    }
  }

  lemma KeySettingsInv(c: Config, st: St, key: int, settings: KeySettings, editBox: Option<DmeSettings -> DmeSettings>)
    requires Inv(c, st)
    ensures Inv(c, SetKey(c, st, key, settings, editBox).0)
  {
    if SetKey(c, st, key, settings, editBox).1 == Ok {
      var k := st.keys[key - 1];
      assert KeyAt(c, st, key - 1);
      ChangeSettingsOk(c, key, k, settings, NewBox(k, settings, editBox));
      PutKeyInv(c, st, key, ChangeSettings(k, settings, NewBox(k, settings, editBox)));
    }
  }

  lemma KeyframesInv(c: Config, st: St, key: int, keyframes: seq<Keyframe>)
    requires Inv(c, st)
    ensures Inv(c, SetKeyframes(c, st, key, keyframes).0)
  {
    if SetKeyframes(c, st, key, keyframes).1 == Ok {
      assert KeyAt(c, st, key - 1);
      StopRunOk(c, key, st.keys[key - 1]);
      PlacedOnPath(StopRun(st.keys[key - 1]).(keyframes := keyframes));
      PutKeyInv(c, st, key, PlaceOnPath(StopRun(st.keys[key - 1]).(keyframes := keyframes)));
    }
  }

  lemma KeyRunInv(c: Config, st: St, key: int, to: Option<int>, reverse: bool, loop: Loop, frames: Option<int>)
    requires Inv(c, st)
    ensures Inv(c, RunKey(c, st, key, to, reverse, loop, frames).0)
  {
    var r := RunKey(c, st, key, to, reverse, loop, frames);
    if r.1 == Ok {
      var k := st.keys[key - 1];
      assert KeyAt(c, st, key - 1);
      var j := to.GetOr(if reverse then 0 else |k.keyframes| - 1);
      StopRunOk(c, key, k);
      JumpKeepsOk(c, key, StopRun(k), j);
      StartRunOk(c, key, StopRun(k), j, loop, reverse);
      PutKeyInv(c, st, key, r.0.keys[key - 1]);
    }
  }

  lemma FrameInv(c: Config, st: St, index: nat, ready: seq<bool>)
    requires Inv(c, st)
    ensures Inv(c, Frame(c, st, index, ready).0)
  {
    RunHeldInv(c, st, index, false, None);
    PlanGrainInv(c, RunHeld(c, st, index, false, None), index, ready);
  }

  predicate KeyerCommand(e: Event) {
    e.EvKeySet? || e.EvKeyAuto? || e.EvKeySettings? || e.EvKeyKeyframes? || e.EvKeyRun? || e.EvKeyStop?
  }

  lemma ApplyKeyInv(c: Config, st: St, e: Event)
    requires Inv(c, st) && KeyerCommand(e)
    ensures Inv(c, Apply(c, st, e))
  {
    match e
    case EvKeySet(key, on) => KeySetInv(c, st, key, on);
    case EvKeyAuto(key, frames) => KeyAutoInv(c, st, key, frames);
    case EvKeySettings(key, settings, editBox) => KeySettingsInv(c, st, key, settings, editBox);
    case EvKeyKeyframes(key, keyframes) => KeyframesInv(c, st, key, keyframes);
    case EvKeyRun(key, to, reverse, loop, jump) => KeyRunInv(c, st, key, to, reverse, loop, jump);
    case EvKeyStop(key) => KeyStopInv(c, st, key);
  }

  lemma ApplyTakeInv(c: Config, st: St, e: Event)
    requires Inv(c, st) && (e.EvProgram? || e.EvTake? || e.EvTakeAt? || e.EvRunDeferred? || e.EvCut? || e.EvFrame?)
    ensures Inv(c, Apply(c, st, e))
  {
    match e
    case EvProgram(me, source) => SetProgramInv(c, st, me, source);
    case EvTake(me, d) => TakeInv(c, st, me, d);
    case EvTakeAt(me, d) => TakeAtInv(c, st, me, d);
    case EvRunDeferred(which) => RunHeldInv(c, st, 0, true, which);
    case EvCut(me) => if c.ValidMe(me) { TakeInv(c, st, me, CutTake(st, me)); }
    case EvFrame(index, ready) => FrameInv(c, st, index, ready);
  }

  lemma ApplyMeInv(c: Config, st: St, e: Event)
    requires Inv(c, st) && (e.EvPreview? || e.EvTransition? || e.EvAuto? || e.EvPosition? || e.EvFtbSet? || e.EvFtbAuto?)
    ensures Inv(c, Apply(c, st, e))
  {
    match e
    case EvPreview(me, source) => SetPreviewInv(c, st, me, source);
    case EvTransition(me, next) => SetTransitionInv(c, st, me, next);
    case EvAuto(me, rate) => AutoInv(c, st, me, rate);
    case EvPosition(me, t) => PositionInv(c, st, me, t);
    case EvFtbSet(me, on) => FtbInv(c, st, me, on, 1);
    case EvFtbAuto(me, frames) => FtbInv(c, st, me, true, frames);
  }

  lemma ApplyInv(c: Config, st: St, e: Event)
    requires Inv(c, st)
    ensures Inv(c, Apply(c, st, e))
  {
    if KeyerCommand(e) { ApplyKeyInv(c, st, e); }
    else if e.EvProgram? || e.EvTake? || e.EvTakeAt? || e.EvRunDeferred? || e.EvCut? || e.EvFrame? { ApplyTakeInv(c, st, e); }
    else { ApplyMeInv(c, st, e); }
  }

  ghost function Run(c: Config, st: St, events: seq<Event>): St
    requires Inv(c, st)
    decreases |events|
  {
    if |events| == 0 then st
    else
      ApplyInv(c, st, events[0]);
      Run(c, Apply(c, st, events[0]), events[1..])
  }

  // ---- the start -------------------------------------------------------------------------------

  const DEFAULT_WIPE := WipeSettings(1, false, 0.0, 0.0, 940, 512, 512)
  const DEFAULT_BOX := DmeSettings(false, BoxState(0.5, 0.5, 0.5, 0.0, 0.0, 0.0, 0.0, 0.0, 0.0, 0.0, 1.0, 0.0, 0.0, 0.0, 0.0), 940, 512, 512)
  const DEFAULT_KEY := KeySettings(false, false, Black, 0.0, 0.0, 1.0, false, false, DEFAULT_BOX)
  const NO_FADE := Fade(false, 0.0, 0.0, 0.0, 0, false, false, 0)

  /** ME m starts on inputs 2m - 1 and 2m, wrapped to the inputs there are. */
  function InitialMe(c: Config, m: int): Me
    requires c.inputs >= 0
  {
    var program := if c.inputs > 0 then Input((2 * m - 2) % c.inputs + 1) else Black;
    var preview := if c.inputs > 0 then Input((2 * m - 1) % c.inputs + 1) else Black;
    Me(program, preview, Black, None, 0, false, false, false, DEFAULT_WIPE, 0, 0, 0.0, false, 0.0, 0.0, NO_STING, false,
       TransitionSettings(Mix, 25, DEFAULT_WIPE, []), 0)
  }

  function InitialKey(spec: KeyerSpec): Keyer {
    Keyer(spec.me, spec.upstream, DEFAULT_KEY, NO_FADE, [],
          BoxRun(false, 0.0, -1, false, false, 0, 0, DmeRun(DEFAULT_BOX, 0, 0, Linear, 0.0, 0.0, Off, false), false),
          Tie(0, false, false, 0.0, 0.0, 0.0, false, 0.0, 0.0, 0, DEFAULT_BOX))
  }

  function Initial(c: Config): St
    requires c.Ok()
  {
    St(seq(c.mes, m requires 0 <= m && c.Ok() => InitialMe(c, m + 1)), seq(c.mes, m => None),
       seq(|c.keyers|, k requires 0 <= k < |c.keyers| => InitialKey(c.keyers[k])), seq(c.mes, m => NO_FADE), 0, 0, 0)
  }

  lemma InitialInv(c: Config)
    requires c.Ok()
    ensures Inv(c, Initial(c))
  {
    forall m | 0 <= m < c.mes ensures MeAt(c, Initial(c), m) {
    }
    forall k | 0 <= k < |c.keyers| ensures KeyAt(c, Initial(c), k) {
      assert c.keyers[k] == KeyerSpec(c.keyers[k].me, c.keyers[k].upstream);
    }
  }

  /** Over every run of commands and grains: every bus, target, held take and key source is one its ME
      may take (a re-entered ME is a higher one, so the descending render order never waits on itself),
      every gain stays in [0, 1], and a tied keyer always has a transition to follow. */
  lemma {:induction false} EveryRunKeepsInv(c: Config, st: St, events: seq<Event>)
    requires Inv(c, st)
    ensures Inv(c, Run(c, st, events))
    decreases |events|
  {
    if |events| > 0 {
      ApplyInv(c, st, events[0]);
      EveryRunKeepsInv(c, Apply(c, st, events[0]), events[1..]);
    }
  }
}
