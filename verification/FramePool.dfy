/** The device frames of one input (engine/src/engine/engine.cpp): its pool, its ring of the newest grains,
    and the grains the output slots read. The input, render and writer threads share them; each section
    under a lock is one step. A frame is free again when its last reference goes. */
module FramePool {
  import opened Wrappers
  import opened RealMath
  import opened Sets

  const SLOTS := 3

  /** A device frame with the grain that was uploaded to it. */
  datatype Frame = Frame(id: nat, index: nat)

  /** `uploading`: the frame the input thread holds; `held`: what each output slot reads; `data`: the grain
      in each frame's memory. */
  datatype Pool = Pool(
    n: nat, depth: nat, free: seq<nat>, uploading: Option<nat>, recent: seq<Frame>, held: seq<Option<Frame>>,
    data: seq<nat>, exhausted: nat)

  predicate InRing(p: Pool, id: nat) {
    exists i :: 0 <= i < |p.recent| && p.recent[i].id == id
  }

  predicate InSlot(p: Pool, id: nat) {
    exists k :: 0 <= k < |p.held| && p.held[k].Some? && p.held[k].value.id == id
  }

  predicate Referenced(p: Pool, id: nat) {
    p.uploading == Some(id) || InRing(p, id) || InSlot(p, id)
  }

  /** A reference to frame `id` went: the frame is free if it was the last one. */
  function Release(p: Pool, id: nat): Pool {
    if Referenced(p, id) then p else p.(free := p.free + [id])
  }

  // ---- the input thread --------------------------------------------------------------------------

  function Acquire(p: Pool): Pool {
    if |p.free| == 0 then p.(exhausted := p.exhausted + 1)
    else p.(uploading := Some(p.free[|p.free| - 1]), free := p.free[..|p.free| - 1])
  }

  function Upload(p: Pool, index: nat): Pool {
    if p.uploading.Some? && p.uploading.value < |p.data| then p.(data := p.data[p.uploading.value := index]) else p
  }

  /** The ring without its oldest frames. */
  function Trim(p: Pool): (r: Pool)
    ensures r.held == p.held
    decreases |p.recent|
  {
    if |p.recent| <= p.depth then p else Trim(Release(p.(recent := p.recent[1..]), p.recent[0].id))
  }

  function Push(p: Pool): Pool {
    if p.uploading.Some? && p.uploading.value < |p.data| then
      Trim(p.(uploading := None, recent := p.recent + [Frame(p.uploading.value, p.data[p.uploading.value])]))
    else p
  }

  /** Routed elsewhere while the grain was read: it is dropped. */
  function Discard(p: Pool): Pool {
    if p.uploading.Some? then Release(p.(uploading := None), p.uploading.value) else p
  }

  /** A new route empties the ring. */
  function Clear(p: Pool): (r: Pool)
    decreases |p.recent|
  {
    if |p.recent| == 0 then p else Clear(Release(p.(recent := p.recent[1..]), p.recent[0].id))
  }

  // ---- the render and writer threads -------------------------------------------------------------

  /** The newest frame of the ring from position `from` - 1 down that is not after grain j. */
  function NewestUpTo(recent: seq<Frame>, j: nat, from: nat): (r: Option<nat>)
    requires from <= |recent|
    ensures r.Some? ==> r.value < from && recent[r.value].index <= j && forall i :: r.value < i < from ==> recent[i].index > j
    ensures r.None? ==> forall i :: 0 <= i < from ==> recent[i].index > j
  {
    if from == 0 then None else if recent[from - 1].index <= j then Some(from - 1) else NewestUpTo(recent, j, from - 1)
  }

  /** Grain j, else an older one while it is within the hold time, else nothing; of a source that is ahead its oldest. */
  function Pick(recent: seq<Frame>, routed: bool, j: nat, hold: nat): Option<Frame> {
    if !routed || |recent| == 0 then None
    else
      var k := NewestUpTo(recent, j, |recent|);
      if k.None? then Some(recent[0])
      else if recent[k.value].index != j && hold > 0 && recent[k.value].index + hold < j then None
      else Some(recent[k.value])
  }

  /** Slot k lets its frame go. */
  function LetGo(p: Pool, k: nat): Pool {
    if k < |p.held| && p.held[k].Some? then Release(p.(held := p.held[k := None]), p.held[k].value.id) else p
  }

  function Hold(p: Pool, k: nat, routed: bool, j: nat, hold: nat): Pool
    requires k < |p.held|
  {
    var r := LetGo(p, k);
    r.(held := r.held[k := Pick(r.recent, routed, j, hold)])
  }

  // ---- what every step keeps ---------------------------------------------------------------------

  ghost predicate Distinct(s: seq<nat>) {
    forall i, j :: 0 <= i < j < |s| ==> s[i] != s[j]
  }

  ghost predicate RingDistinct(s: seq<Frame>) {
    forall i, j :: 0 <= i < j < |s| ==> s[i].id != s[j].id
  }

  /** Every frame is free or referenced, never both; the frame that is uploaded to is nobody else's; and
      what the ring and the slots hold is still what was uploaded. */
  ghost predicate PoolOk(p: Pool) {
    && |p.held| == SLOTS && |p.data| == p.n && Distinct(p.free) && RingDistinct(p.recent)
    && (forall i :: 0 <= i < |p.free| ==> p.free[i] < p.n && !Referenced(p, p.free[i]))
    && (forall id :: 0 <= id < p.n ==> id in p.free || Referenced(p, id))
    && (p.uploading.Some? ==> p.uploading.value < p.n && !InRing(p, p.uploading.value) && !InSlot(p, p.uploading.value))
    && (forall i :: 0 <= i < |p.recent| ==> FrameOk(p, p.recent[i]))
    && (forall k :: 0 <= k < |p.held| ==> p.held[k].Some? ==> FrameOk(p, p.held[k].value))
  }

  ghost predicate FrameOk(p: Pool, f: Frame) {
    f.id < |p.data| && p.data[f.id] == f.index
  }

  /** PoolOk but for frame `id`, whose reference just went. */
  ghost predicate Loose(p: Pool, id: nat) {
    && |p.held| == SLOTS && |p.data| == p.n && Distinct(p.free) && RingDistinct(p.recent)
    && (forall i :: 0 <= i < |p.free| ==> p.free[i] < p.n && !Referenced(p, p.free[i]))
    && (forall x :: 0 <= x < p.n && x != id ==> x in p.free || Referenced(p, x))
    && (p.uploading.Some? ==> p.uploading.value < p.n && !InRing(p, p.uploading.value) && !InSlot(p, p.uploading.value))
    && (forall i :: 0 <= i < |p.recent| ==> FrameOk(p, p.recent[i]))
    && (forall k :: 0 <= k < |p.held| ==> p.held[k].Some? ==> FrameOk(p, p.held[k].value))
    && id < p.n && id !in p.free
  }

  lemma ReleaseOk(p: Pool, id: nat)
    requires Loose(p, id)
    ensures PoolOk(Release(p, id))
  {
    var r := Release(p, id);
    forall x ensures Referenced(r, x) == Referenced(p, x) {
      assert InRing(r, x) == InRing(p, x) && InSlot(r, x) == InSlot(p, x);
    }
    forall x | 0 <= x < p.n ensures x in r.free || Referenced(r, x) {
      if x != id { assert x in p.free || Referenced(p, x); }
    }
  }

  lemma AcquireOk(p: Pool)
    requires PoolOk(p) && p.uploading.None?
    ensures PoolOk(Acquire(p))
    ensures Acquire(p).uploading.Some? ==> !Referenced(p, Acquire(p).uploading.value)
  {
    var r := Acquire(p);
    if |p.free| > 0 {
      var id := p.free[|p.free| - 1];
      forall x ensures InRing(r, x) == InRing(p, x) && InSlot(r, x) == InSlot(p, x) {
      }
      assert !Referenced(p, id);
      forall x | 0 <= x < p.n ensures x in r.free || Referenced(r, x) {
        if x in p.free && x != id {
          var i :| 0 <= i < |p.free| && p.free[i] == x;
          assert r.free[i] == x;
        }
      }
    }
  }

  /** A step that only takes a frame out of the ring or out of a slot leaves it loose. */
  lemma OldestLoose(p: Pool)
    requires PoolOk(p) && |p.recent| > 0
    ensures Loose(p.(recent := p.recent[1..]), p.recent[0].id)
  {
    var r, id := p.(recent := p.recent[1..]), p.recent[0].id;
    assert InRing(p, id);
    forall x ensures InRing(r, x) ==> InRing(p, x) {
      if InRing(r, x) {
        var i :| 0 <= i < |r.recent| && r.recent[i].id == x;
        assert p.recent[i + 1].id == x;
      }
    }
    forall x | InRing(p, x) && x != id ensures InRing(r, x) {
      var i :| 0 <= i < |p.recent| && p.recent[i].id == x;
      assert r.recent[i - 1].id == x;
    }
    SlotsSame(p, r);
    forall i | 0 <= i < |p.free| ensures !Referenced(r, p.free[i]) {
      assert !Referenced(p, p.free[i]);
    }
    forall i | 0 <= i < |r.recent| ensures FrameOk(r, r.recent[i]) {
      assert FrameOk(p, p.recent[i + 1]);
    }
    forall k | 0 <= k < |r.held| && r.held[k].Some? ensures FrameOk(r, r.held[k].value) {
      assert FrameOk(p, p.held[k].value);
    }
  }

  lemma SlotsSame(p: Pool, r: Pool)
    requires p.held == r.held
    ensures forall x :: InSlot(r, x) == InSlot(p, x)
  {
  }

  lemma RingSame(p: Pool, r: Pool)
    requires p.recent == r.recent
    ensures forall x :: InRing(r, x) == InRing(p, x)
  {
  }

  lemma {:induction false} TrimOk(p: Pool)
    requires PoolOk(p)
    ensures PoolOk(Trim(p)) && |Trim(p).recent| <= if |p.recent| <= p.depth then |p.recent| else p.depth
    ensures Trim(p) == p.(free := Trim(p).free, recent := Trim(p).recent)
    decreases |p.recent|
  {
    if |p.recent| > p.depth {
      OldestLoose(p);
      ReleaseOk(p.(recent := p.recent[1..]), p.recent[0].id);
      TrimOk(Release(p.(recent := p.recent[1..]), p.recent[0].id));
    }
  }

  lemma {:induction false} ClearOk(p: Pool)
    requires PoolOk(p)
    ensures PoolOk(Clear(p)) && Clear(p).recent == []
    ensures Clear(p) == p.(free := Clear(p).free, recent := [])
    decreases |p.recent|
  {
    if |p.recent| > 0 {
      OldestLoose(p);
      ReleaseOk(p.(recent := p.recent[1..]), p.recent[0].id);
      ClearOk(Release(p.(recent := p.recent[1..]), p.recent[0].id));
    }
  }

  lemma UploadOk(p: Pool, index: nat)
    requires PoolOk(p)
    ensures PoolOk(Upload(p, index))
  {
    var r := Upload(p, index);
    SlotsSame(p, r);
    RingSame(p, r);
    if p.uploading.Some? {
      forall i | 0 <= i < |r.recent| ensures FrameOk(r, r.recent[i]) {
        assert FrameOk(p, p.recent[i]) && InRing(p, p.recent[i].id);
      }
      forall k | 0 <= k < |r.held| && r.held[k].Some? ensures FrameOk(r, r.held[k].value) {
        assert FrameOk(p, p.held[k].value) && InSlot(p, p.held[k].value.id);
      }
    }
  }

  lemma PushOk(p: Pool)
    requires PoolOk(p)
    ensures PoolOk(Push(p)) && (|p.recent| <= p.depth ==> |Push(p).recent| <= p.depth)
    ensures Push(p) == p.(free := Push(p).free, recent := Push(p).recent, uploading := Push(p).uploading)
  {
    if p.uploading.Some? {
      var id := p.uploading.value;
      var r := p.(uploading := None, recent := p.recent + [Frame(id, p.data[id])]);
      SlotsSame(p, r);
      forall x ensures InRing(r, x) == (InRing(p, x) || x == id) {
        if InRing(p, x) {
          var i :| 0 <= i < |p.recent| && p.recent[i].id == x;
          assert r.recent[i].id == x;
        }
        assert r.recent[|p.recent|].id == id;
      }
      forall i | 0 <= i < |p.recent| ensures p.recent[i].id != id {
        assert !InRing(p, id);
      }
      forall i | 0 <= i < |p.free| ensures !Referenced(r, p.free[i]) {
        assert !Referenced(p, p.free[i]);
      }
      forall x | 0 <= x < p.n ensures x in r.free || Referenced(r, x) {
        assert x in p.free || Referenced(p, x);
      }
      forall i | 0 <= i < |r.recent| ensures FrameOk(r, r.recent[i]) {
        if i < |p.recent| { assert FrameOk(p, p.recent[i]); }
      }
      TrimOk(r);
    }
  }

  lemma DiscardOk(p: Pool)
    requires PoolOk(p)
    ensures PoolOk(Discard(p))
    ensures Discard(p) == p.(free := Discard(p).free, uploading := None)
  {
    if p.uploading.Some? {
      var r := p.(uploading := None);
      SlotsSame(p, r);
      RingSame(p, r);
      assert Referenced(p, p.uploading.value);
      forall i | 0 <= i < |p.free| ensures !Referenced(r, p.free[i]) {
        assert !Referenced(p, p.free[i]);
      }
      ReleaseOk(r, p.uploading.value);
    }
  }

  lemma LetGoOk(p: Pool, k: nat)
    requires PoolOk(p) && k < SLOTS
    ensures PoolOk(LetGo(p, k)) && LetGo(p, k).held[k].None?
    ensures LetGo(p, k) == p.(free := LetGo(p, k).free, held := p.held[k := None])
  {
    if p.held[k].Some? {
      var id := p.held[k].value.id;
      var r := p.(held := p.held[k := None]);
      RingSame(p, r);
      assert InSlot(p, id) && FrameOk(p, p.held[k].value);
      forall x ensures InSlot(r, x) ==> InSlot(p, x) {
        if InSlot(r, x) {
          var i :| 0 <= i < |r.held| && r.held[i].Some? && r.held[i].value.id == x;
          assert p.held[i] == r.held[i];
        }
      }
      forall x | InSlot(p, x) && x != id ensures InSlot(r, x) {
        var i :| 0 <= i < |p.held| && p.held[i].Some? && p.held[i].value.id == x;
        assert r.held[i] == p.held[i];
      }
      forall i | 0 <= i < |p.free| ensures !Referenced(r, p.free[i]) {
        assert !Referenced(p, p.free[i]);
      }
      forall x | 0 <= x < p.n && x != id ensures x in r.free || Referenced(r, x) {
        assert x in p.free || Referenced(p, x);
      }
      ReleaseOk(r, id);
    }
  }

  lemma HoldOk(p: Pool, k: nat, routed: bool, j: nat, hold: nat)
    requires PoolOk(p) && k < SLOTS
    ensures PoolOk(Hold(p, k, routed, j, hold))
    ensures Hold(p, k, routed, j, hold) == LetGo(p, k).(held := p.held[k := Pick(p.recent, routed, j, hold)])
  {
    LetGoOk(p, k);
    var q := LetGo(p, k);
    var f := Pick(q.recent, routed, j, hold);
    if f.Some? {
      var i :| 0 <= i < |q.recent| && q.recent[i] == f.value;
      TakesFromRing(q, k, i);
    } else {
      assert q.held[k := None] == q.held;
    }
  }

  lemma TakesFromRing(q: Pool, k: nat, i: nat)
    requires PoolOk(q) && k < SLOTS && q.held[k].None? && i < |q.recent|
    ensures PoolOk(q.(held := q.held[k := Some(q.recent[i])]))
  {
    var r := q.(held := q.held[k := Some(q.recent[i])]);
    RingSame(q, r);
    assert InRing(q, q.recent[i].id) && FrameOk(q, q.recent[i]);
    forall x ensures InSlot(r, x) ==> InSlot(q, x) || x == q.recent[i].id {
      if InSlot(r, x) {
        var s :| 0 <= s < |r.held| && r.held[s].Some? && r.held[s].value.id == x;
        if s != k { assert q.held[s] == r.held[s]; }
      }
    }
    forall x | InSlot(q, x) ensures InSlot(r, x) {
      var s :| 0 <= s < |q.held| && q.held[s].Some? && q.held[s].value.id == x;
      assert r.held[s] == q.held[s];
    }
    forall i | 0 <= i < |q.free| ensures !Referenced(r, q.free[i]) {
      assert !Referenced(q, q.free[i]);
    }
    forall s | 0 <= s < |r.held| && r.held[s].Some? ensures FrameOk(r, r.held[s].value) {
      if s != k { assert FrameOk(q, q.held[s].value); }
    }
  }

  // ---- the pool is large enough --------------------------------------------------------------------

  function Ids(recent: seq<Frame>): (r: set<nat>)
    ensures |r| <= |recent| && forall i :: 0 <= i < |recent| ==> recent[i].id in r
  {
    if |recent| == 0 then {} else {recent[0].id} + Ids(recent[1..])
  }

  function SlotIds(held: seq<Option<Frame>>): (r: set<nat>)
    ensures |r| <= |held| && forall k :: 0 <= k < |held| && held[k].Some? ==> held[k].value.id in r
  {
    if |held| == 0 then {} else (if held[0].Some? then {held[0].value.id} else {}) + SlotIds(held[1..])
  }

  /** With a frame more than the ring and the slots can hold, one is always free for the next grain. */
  lemma OneIsFree(p: Pool)
    requires PoolOk(p) && p.uploading.None? && |p.recent| <= p.depth && p.n >= p.depth + SLOTS + 1
    ensures |p.free| > 0
  {
    if |p.free| == 0 {
      var used := Ids(p.recent) + SlotIds(p.held);
      forall x | x in Below(p.n) ensures x in used {
        assert Referenced(p, x);
      }
      SmallerSet(Below(p.n), used);
    }
  }

  /** A pool of n frames as it is made. */
  function Fresh(n: nat, depth: nat): Pool {
    Pool(n, depth, seq(n, i => i), None, [], [None, None, None], seq(n, i => 0), 0)
  }

  /** Grain g is read into the ring; the first three are picked for a slot each. */
  function ReadGrain(p: Pool, g: nat): (r: Pool)
    requires |p.held| == SLOTS
    ensures |r.held| == SLOTS
  {
    var q := Push(Upload(Acquire(p), g));
    if g < SLOTS then Hold(q, g, true, g, 0) else q
  }

  /** The frame grain g goes into: they are taken from the last one down. */
  function FrameOf(n: nat, g: int): Frame {
    Frame(Max(0, n - 1 - g), Max(0, g))
  }

  /** What the pool is after g grains: the ring holds the newest, and the slots still read the first three. */
  function Filled(depth: nat, g: nat): Pool {
    var n := depth + SLOTS;
    Pool(n, depth, seq(Max(0, n - g), i => i), None, seq(Min(g, depth), i => FrameOf(n, Max(0, g - depth) + i)),
         seq(SLOTS, k => if k < g then Some(FrameOf(n, k)) else None),
         seq(n, id requires 0 <= id < n => if n - 1 - id < g then n - 1 - id else 0), 0)
  }

  lemma FilledAt(depth: nat, g: nat, i: nat)
    requires i < Min(g, depth)
    ensures |Filled(depth, g).recent| == Min(g, depth) && Filled(depth, g).recent[i] == FrameOf(depth + SLOTS, Max(0, g - depth) + i)
  {
  }

  lemma GrainUploaded(depth: nat, g: nat)
    requires depth >= 1 && g < depth + SLOTS
    ensures var p := Filled(depth, g);
            Upload(Acquire(p), g) == p.(uploading := Some(depth + SLOTS - 1 - g), free := Filled(depth, g + 1).free, data := Filled(depth, g + 1).data)
  {
    var p, n := Filled(depth, g), depth + SLOTS;
    assert p.free[n - g - 1] == n - g - 1 && p.free[..n - g - 1] == Filled(depth, g + 1).free;
    assert Upload(Acquire(p), g).data == Filled(depth, g + 1).data;
  }

  /** The oldest frame of a full ring leaves it, and a slot still reads it. */
  lemma OldestIsRead(depth: nat, g: nat, p: Pool)
    requires depth >= 1 && depth <= g < depth + SLOTS && p.held == Filled(depth, g).held && p.depth == depth
    requires p.recent == Filled(depth, g).recent + [Frame(depth + SLOTS - 1 - g, g)]
    ensures Trim(p) == p.(recent := Filled(depth, g + 1).recent)
  {
    FilledAt(depth, g, 0);
    var was := Filled(depth, g).recent;
    assert p.recent[0] == was[0];
    var less := p.(recent := p.recent[1..]);
    forall i | 0 <= i < depth ensures less.recent[i] == Filled(depth, g + 1).recent[i] {
      FilledAt(depth, g + 1, i);
      if i + 1 < depth { FilledAt(depth, g, i + 1); }
    }
    assert less.recent == Filled(depth, g + 1).recent;
    assert was[0] == FrameOf(depth + SLOTS, g - depth);
    assert less.held[g - depth] == Some(p.recent[0]);
    assert InSlot(less, p.recent[0].id);
    assert Release(less, p.recent[0].id) == less;
  }

  lemma GrainPushed(depth: nat, g: nat)
    requires depth >= 1 && g < depth + SLOTS
    ensures Push(Upload(Acquire(Filled(depth, g)), g)) == Filled(depth, g + 1).(held := Filled(depth, g).held)
  {
    hide Trim;
    GrainUploaded(depth, g);
    var u := Upload(Acquire(Filled(depth, g)), g);
    var id := depth + SLOTS - 1 - g;
    assert u.data[id] == g;
    var pushed := u.(uploading := None, recent := u.recent + [Frame(id, g)]);
    if g >= depth {
      OldestIsRead(depth, g, pushed);
    } else {
      forall i | 0 <= i <= g ensures pushed.recent[i] == Filled(depth, g + 1).recent[i] {
        FilledAt(depth, g + 1, i);
        if i < g { FilledAt(depth, g, i); }
      }
      assert pushed.recent == Filled(depth, g + 1).recent;
      Short(pushed);
    }
  }

  lemma Short(p: Pool)
    requires |p.recent| <= p.depth
    ensures Trim(p) == p
  {
  }

  lemma GrainRead(depth: nat, g: nat)
    requires depth >= 1 && g < depth + SLOTS
    ensures ReadGrain(Filled(depth, g), g) == Filled(depth, g + 1)
  {
    hide Push, Upload, Acquire;
    GrainPushed(depth, g);
    var q, r := Push(Upload(Acquire(Filled(depth, g)), g)), Filled(depth, g + 1);
    if g < SLOTS {
      var last := |q.recent| - 1;
      FilledAt(depth, g + 1, last);
      assert q.recent[last] == FrameOf(depth + SLOTS, g);
      assert Pick(q.recent, true, g, 0) == Some(q.recent[last]);
      assert Hold(q, g, true, g, 0).held == r.held;
    } else {
      assert q.held == r.held;
    }
  }

  /** The pool after the grains 0 .. g - 1. */
  function ReadUpTo(depth: nat, g: nat): (p: Pool)
    ensures |p.held| == SLOTS
  {
    if g == 0 then Fresh(depth + SLOTS, depth) else ReadGrain(ReadUpTo(depth, g - 1), g - 1)
  }

  lemma {:induction false} ReadIsFilled(depth: nat, g: nat)
    requires depth >= 1 && g <= depth + SLOTS
    ensures ReadUpTo(depth, g) == Filled(depth, g)
  {
    if g == 0 {
      assert Fresh(depth + SLOTS, depth) == Filled(depth, 0);
    } else {
      ReadIsFilled(depth, g - 1);
      GrainRead(depth, g - 1);
    }
  }

  /** With one frame less the first depth + 3 grains leave none for the next: the ring holds the newest,
      and the writer still reads the first three. */
  lemma OneLessIsTooFew(depth: nat)
    requires depth >= 1
    ensures var p := ReadUpTo(depth, depth + SLOTS);
            p.n == depth + SLOTS && p.uploading.None? && p.exhausted == 0 && Acquire(p).exhausted == 1
  {
    ReadIsFilled(depth, depth + SLOTS);
  }

  // ---- in place ----------------------------------------------------------------------------------

  class InputFrames {
    const n: nat
    const depth: nat
    var free: seq<nat>
    var uploading: Option<nat>
    var recent: seq<Frame>
    var held: seq<Option<Frame>>
    var data: seq<nat>
    var exhausted: nat

    function Abs(): Pool
      reads this
    {
      Pool(n, depth, free, uploading, recent, held, data, exhausted)
    }

    ghost predicate Valid()
      reads this
    {
      PoolOk(Abs()) && |recent| <= depth
    }

    constructor (n: nat, depth: nat)
      ensures this.n == n && this.depth == depth && Valid() && recent == [] && uploading.None? && exhausted == 0
      ensures held == [None, None, None] && |free| == n
    {
      this.n, this.depth := n, depth;
      free := seq(n, i => i);
      uploading, recent, held, data, exhausted := None, [], [None, None, None], seq(n, i => 0), 0;
      new;
      forall id | 0 <= id < n ensures id in free {
        assert free[id] == id;
      }
    }

    method AcquireFrame() returns (frame: Option<nat>)
      requires Valid() && uploading.None?
      modifies this
      ensures Valid() && Abs() == Acquire(old(Abs())) && frame == uploading
      ensures frame.Some? ==> !Referenced(old(Abs()), frame.value)
      ensures n >= depth + SLOTS + 1 ==> frame.Some?
    {
      AcquireOk(Abs());
      if n >= depth + SLOTS + 1 { OneIsFree(Abs()); }
      if |free| == 0 {
        exhausted := exhausted + 1;
        return None;
      }
      frame := Some(free[|free| - 1]);
      uploading := frame;
      free := free[..|free| - 1];
    }

    /** The last reference to a frame gives it back. */
    method GiveBack(id: nat)
      modifies this`free
      ensures Abs() == Release(old(Abs()), id)
    {
      if !Referenced(Abs(), id) {
        free := free + [id];
      }
    }

    /** The grain that was uploaded goes into the ring, the oldest ones out of it. */
    method PushGrain(index: nat)
      requires Valid() && uploading.Some?
      modifies this
      ensures Valid() && Abs() == Push(Upload(old(Abs()), index))
    {
      UploadOk(Abs(), index);
      PushOk(Upload(Abs(), index));
      data := data[uploading.value := index];
      recent := recent + [Frame(uploading.value, index)];
      uploading := None;
      while |recent| > depth
        invariant Trim(Abs()) == Push(Upload(old(Abs()), index))
        decreases |recent|
      {
        var oldest := recent[0].id;
        recent := recent[1..];
        GiveBack(oldest);
      }
    }

    method ClearRing()
      requires Valid()
      modifies this
      ensures Valid() && Abs() == Clear(old(Abs()))
    {
      ClearOk(Abs());
      while |recent| > 0
        invariant Clear(Abs()) == Clear(old(Abs()))
        decreases |recent|
      {
        var oldest := recent[0].id;
        recent := recent[1..];
        GiveBack(oldest);
      }
    }

    method PickGrain(routed: bool, j: nat, hold: nat) returns (frame: Option<Frame>)
      ensures frame == Pick(recent, routed, j, hold)
    {
      if !routed || |recent| == 0 {
        return None;
      }
      var i := |recent|;
      while i > 0
        invariant 0 <= i <= |recent| && NewestUpTo(recent, j, |recent|) == NewestUpTo(recent, j, i)
      {
        i := i - 1;
        if recent[i].index <= j {
          if recent[i].index == j {
            return Some(recent[i]);
          }
          if hold > 0 && recent[i].index + hold < j {
            return None;
          }
          return Some(recent[i]);
        }
      }
      frame := Some(recent[0]);
    }

    method LetGoOf(k: nat)
      requires Valid() && k < SLOTS
      modifies this
      ensures Valid() && Abs() == LetGo(old(Abs()), k)
    {
      LetGoOk(Abs(), k);
      if held[k].Some? {
        var id := held[k].value.id;
        held := held[k := None];
        GiveBack(id);
      }
    }

    method HoldGrain(k: nat, routed: bool, j: nat, hold: nat)
      requires Valid() && k < SLOTS
      modifies this
      ensures Valid() && Abs() == Hold(old(Abs()), k, routed, j, hold)
    {
      HoldOk(Abs(), k, routed, j, hold);
      LetGoOk(Abs(), k);
      LetGoOf(k);
      var frame := PickGrain(routed, j, hold);
      held := held[k := frame];
    }
  }

  /** In a ring of rising grains: grain j if it is there, else the newest before it unless that is too old,
      else of a source that is ahead the oldest one. */
  lemma PickIsTheGrain(recent: seq<Frame>, j: nat, hold: nat)
    requires |recent| > 0 && forall a, b :: 0 <= a < b < |recent| ==> recent[a].index < recent[b].index
    ensures var f := Pick(recent, true, j, hold);
            && (f.Some? ==> f.value in recent)
            && (forall i :: 0 <= i < |recent| && recent[i].index == j ==> f == Some(recent[i]))
            && (f.Some? && f.value.index < j ==> (forall i :: 0 <= i < |recent| ==> recent[i].index <= f.value.index || recent[i].index > j)
                                                 && (hold > 0 ==> f.value.index + hold >= j))
            && (f.Some? && f.value.index > j <==> recent[0].index > j)
            && (f.None? <==> hold > 0 && recent[0].index <= j && forall i :: 0 <= i < |recent| && recent[i].index <= j ==> recent[i].index + hold < j)
  {
    var k := NewestUpTo(recent, j, |recent|);
    if k.Some? {
      forall i | 0 <= i < |recent| ensures recent[i].index <= recent[k.value].index || recent[i].index > j {
      }
    }
  }
}
