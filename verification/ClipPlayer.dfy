/** A clip player (engine/src/engine/player.cpp): the decoder thread fills a queue while the control
    thread moves the transport and the render thread takes the frame of each grain. Every section under
    the player's lock, and every call of the transport's, is one step; steps interleave in any order. */
module ClipPlayer {
  import opened Wrappers
  import opened RealMath
  import opened Playout

  const AHEAD := 5

  /** A file as it was number (each opening its own number): the frames it says it has, and which frame
      numbers its pictures carry. */
  datatype Media = Media(number: nat, frames: int, still: bool, present: seq<bool>)
  {
    function Length(): int {
      Max(1, frames)
    }

    /** The last frame of its count is there. */
    predicate HasLast() {
      Length() <= |present| && present[Length() - 1]
    }
  }

  /** A decoded picture with its sound; `missed` is its decoder's. */
  datatype Decoded = Decoded(media: Media, generation: nat, order: int, frame: int, missed: int)

  datatype Picture = NoPicture | Still(media: Media) | Clip(item: Decoded)

  /** Where one generation's frames start. */
  datatype JumpPoint = JumpPoint(media: Media, start: int, frames: int)

  /** The decoder's own variables, and how many frames of the count it did not find where it started a loop
      over (less those it found past it). */
  datatype Decoder = Decoder(loaded: Option<Media>, generation: nat, nextSeq: int, nextFrame: int, atEnd: bool, missed: int)

  /** Where the decoder is in its loop: before it looks at what is wanted, after that, or decoding a frame. */
  datatype Phase = Idle | Looked(want: Option<Media>, cursor: Cursor, full: bool) | Decoding

  /** `jumps`, `top` (the last generation the decoder went to), `number` (files opened) and every `missed` are
      history no code reads. */
  datatype St = St(
    t: Transport, media: Option<Media>, still: Option<Media>, queue: seq<Decoded>, shown: Picture, asked: Option<Step>,
    phase: Phase, d: Decoder, jumps: map<nat, JumpPoint>, top: nat, number: nat)

  datatype Event =
    | Control(command: Command)
    | OpenFile(frames: int, isStill: bool, present: seq<bool>, loop: bool, playOnCut: bool)
    | Clear
    | Ask(index: nat, onAir: bool)
    | Show
    | Look
    | Sync(gotPicture: bool)
    | GiveUp
    | Finish(ok: bool)

  // ---- the control thread ----------------------------------------------------------------------

  /** The transport after a command; its jump is recorded. */
  function Move(s: St, t: Transport): St {
    if t.state.Empty? || s.media.None? then s.(t := t)
    else s.(t := t, jumps := s.jumps[t.generation := JumpPoint(s.media.value, t.jumpFrame, t.frames)])
  }

  /** Commands other than a load move the transport alone. */
  predicate TransportOnly(c: Command) {
    !c.CmdLoad? && !c.CmdUnload? && !c.CmdAdvance?
  }

  function Open(s: St, frames: int, isStill: bool, present: seq<bool>, loop: bool, playOnCut: bool): St {
    var media := Media(s.number, frames, isStill, present);
    Move(s.(media := Some(media), still := None, queue := [], number := s.number + 1), Load(s.t, frames, loop, playOnCut))
  }

  function ClearAll(s: St): St {
    s.(media := None, still := None, queue := [], t := Unload(s.t))
  }

  // ---- the render thread -----------------------------------------------------------------------

  function AskStep(s: St, index: nat, onAir: bool): St
    requires s.t.state.Empty? || s.t.frames >= 1
  {
    var (t, step) := Advance(s.t, index, onAir);
    Move(s, t).(asked := Some(step))
  }

  predicate Earlier(item: Decoded, generation: nat, order: int) {
    item.generation < generation || (item.generation == generation && item.order < order)
  }

  /** The queue without the frames before (generation, order). */
  function DropEarlier(queue: seq<Decoded>, generation: nat, order: int): (r: seq<Decoded>)
    ensures |r| <= |queue| && r == queue[|queue| - |r|..]
    ensures forall i :: 0 <= i < |queue| - |r| ==> Earlier(queue[i], generation, order)
    ensures |r| > 0 ==> !Earlier(r[0], generation, order)
  {
    if |queue| > 0 && Earlier(queue[0], generation, order) then DropEarlier(queue[1..], generation, order) else queue
  }

  predicate Matches(item: Decoded, step: Step) {
    item.generation == step.generation && item.order == step.order
  }

  function ShowStep(s: St, step: Step): St {
    if step.frame < 0 then s.(shown := NoPicture, asked := None)
    else if s.still.Some? then s.(shown := Still(s.still.value), asked := None)
    else
      var queue := DropEarlier(s.queue, step.generation, step.order);
      s.(queue := queue, asked := None, shown := if |queue| > 0 && Matches(queue[0], step) then Clip(queue[0]) else s.shown)
  }

  /** The picture whose sound plays with a step, if any. */
  function SoundOf(shown: Picture, step: Step): Option<Decoded> {
    if step.playing && shown.Clip? && Matches(shown.item, step) then Some(shown.item) else None
  }

  // ---- the decoder thread ----------------------------------------------------------------------

  /** Looks at what is wanted. (The decoder only sleeps where the code finds nothing to do.) */
  function LookStep(s: St): St {
    var t := s.t;
    s.(phase := Looked(s.media, Cursor(t.generation, t.jumpFrame, t.frames, t.loop, t.state.Empty?), |s.queue| >= AHEAD))
  }

  function DropOld(queue: seq<Decoded>, generation: nat): (r: seq<Decoded>)
    ensures |r| <= |queue| && r == queue[|queue| - |r|..]
  {
    if |queue| > 0 && queue[0].generation < generation then DropOld(queue[1..], generation) else queue
  }

  /** A new file starts with no generation. */
  function TakeMedia(d: Decoder, want: Option<Media>): Decoder {
    if want != d.loaded then d.(loaded := want, generation := 0) else d
  }

  /** A new generation starts at its jump frame. */
  function TakeJump(d: Decoder, cursor: Cursor): Decoder {
    if cursor.generation != d.generation then d.(generation := cursor.generation, nextSeq := 0, nextFrame := cursor.start, atEnd := false, missed := 0)
    else d
  }

  /** The decoder on the generation it saw, without the queue's older frames. */
  function GoneTo(s: St, cursor: Cursor): St {
    if cursor.generation == s.d.generation then s
    else s.(d := TakeJump(s.d, cursor), top := cursor.generation, queue := DropOld(s.queue, cursor.generation))
  }

  predicate PastEnd(d: Decoder, cursor: Cursor) {
    d.nextFrame >= cursor.frames || d.atEnd
  }

  /** A loop starts over: what is left of the count is missed. */
  function StartOver(d: Decoder, frames: int): Decoder {
    d.(nextFrame := 0, atEnd := false, missed := d.missed + frames - d.nextFrame)
  }

  lemma GonePhase(s: St, cursor: Cursor)
    ensures GoneTo(s.(phase := Idle), cursor) == GoneTo(s, cursor).(phase := Idle)
  {
  }

  function SyncTo(s: St, want: Option<Media>, cursor: Cursor, full: bool, gotPicture: bool): St {
    var d := TakeMedia(s.d, want);
    if want != s.d.loaded && want.Some? && want.value.still then
      if !gotPicture then s.(d := d.(loaded := None), phase := Idle)
      else s.(d := d, phase := Idle, still := if s.media == want then want else s.still)
    else if want.None? || want.value.still || cursor.empty then s.(d := d, phase := Idle)
    else
      var moved := GoneTo(s.(d := d), cursor);
      var e := moved.d;
      if full then moved.(phase := Idle)
      else if PastEnd(e, cursor) then
        if !cursor.loop then moved.(d := e.(atEnd := true), phase := Idle)
        else moved.(d := StartOver(e, cursor.frames), phase := Decoding)
      else moved.(phase := Decoding)
  }

  /** The number of the first picture from `want` on. */
  function Produce(present: seq<bool>, want: int): (made: Option<int>)
    requires want >= 0
    ensures made.Some? ==> want <= made.value < |present| && present[made.value] && forall i :: want <= i < made.value ==> !present[i]
    ensures made.None? ==> forall i :: want <= i < |present| ==> !present[i]
    decreases |present| - want
  {
    if want >= |present| then None else if present[want] then Some(want) else Produce(present, want + 1)
  }

  function Item(d: Decoder, made: int): Decoded
    requires d.loaded.Some?
  {
    Decoded(d.loaded.value, d.generation, d.nextSeq + (made - d.nextFrame), made, d.missed)
  }

  function FinishFrame(s: St, ok: bool): St
    requires s.d.loaded.Some? && s.d.nextFrame >= 0
  {
    var d := s.d;
    var made := Produce(d.loaded.value.present, d.nextFrame);
    if made.None? then s.(d := d.(atEnd := true), phase := Idle)
    else if !ok then s.(phase := Idle)
    else
      var item := Item(d, made.value);
      s.(d := d.(nextSeq := item.order + 1, nextFrame := made.value + 1), phase := Idle,
         queue := if s.t.generation == d.generation && s.media == d.loaded then s.queue + [item] else s.queue)
  }

  // ---- what every step keeps ---------------------------------------------------------------------

  /** The frame that `order` stands for after the jump of a generation: (jump frame + order) mod frames. */
  predicate Named(jumps: map<nat, JumpPoint>, generation: nat, order: int, frame: int) {
    && generation in jumps && jumps[generation].frames >= 1
    && frame == Wrap(jumps[generation].start + order, jumps[generation].frames)
  }

  /** The picture is of its generation's file, and its frame is the one its number stands for but for the
      missed ones: none in a file that has its last frame. */
  predicate IsFrame(jumps: map<nat, JumpPoint>, item: Decoded) {
    && item.generation in jumps && jumps[item.generation].media == item.media && item.frame >= 0
    && var p := jumps[item.generation];
       && p.frames >= 1 && Wrap(item.frame, p.frames) == Wrap(p.start + item.order + item.missed, p.frames)
       && (item.media.HasLast() ==> item.missed == 0 && item.frame < p.frames)
  }

  predicate ItemOk(item: Decoded, jumps: map<nat, JumpPoint>, top: nat, d: Decoder) {
    IsFrame(jumps, item) && 1 <= item.generation <= top && (item.generation == d.generation ==> item.order < d.nextSeq)
  }

  ghost predicate Ordered(queue: seq<Decoded>) {
    forall i, j :: 0 <= i < j < |queue| ==> Earlier(queue[i], queue[j].generation, queue[j].order)
  }

  ghost predicate QueueOk(queue: seq<Decoded>, jumps: map<nat, JumpPoint>, top: nat, d: Decoder) {
    |queue| <= AHEAD && Ordered(queue) && forall i :: 0 <= i < |queue| ==> ItemOk(queue[i], jumps, top, d)
  }

  ghost predicate HistoryOk(t: Transport, media: Option<Media>, still: Option<Media>, jumps: map<nat, JumpPoint>, number: nat) {
    && Sound(t) && t.generation >= 1
    && (forall g :: g in jumps ==> 1 <= g <= t.generation && JumpOk(jumps[g], number))
    && (if t.state.Empty? then t.generation !in jumps
        else media.Some? && t.generation in jumps && jumps[t.generation] == JumpPoint(media.value, t.jumpFrame, t.frames))
    && (still.Some? ==> still == media)
  }

  predicate JumpOk(p: JumpPoint, number: nat) {
    p.media.number < number && 0 <= p.start < p.frames == p.media.Length()
  }

  /** The decoder follows its generation: its next frame carries its next number, but for the missed ones. */
  predicate Follows(d: Decoder, jumps: map<nat, JumpPoint>, top: nat) {
    && d.generation == top && d.generation in jumps && d.loaded == Some(jumps[d.generation].media) && !d.loaded.value.still
    && d.nextSeq >= 0 && d.nextFrame >= 0 && jumps[d.generation].frames == d.loaded.value.Length()
    && InStep(d, jumps[d.generation])
  }

  predicate InStep(d: Decoder, p: JumpPoint) {
    && p.frames >= 1 && Wrap(p.start + d.nextSeq + d.missed, p.frames) == Wrap(d.nextFrame, p.frames)
    && (p.media.HasLast() ==> d.missed == 0 && d.nextFrame <= p.frames && (d.atEnd ==> d.nextFrame == p.frames))
  }

  predicate DecoderOk(d: Decoder, jumps: map<nat, JumpPoint>, top: nat, generation: nat) {
    top <= generation && if d.generation > 0 then Follows(d, jumps, top) else top < generation
  }

  /** What the decoder saw when it looked still holds of the history. */
  predicate PhaseOk(phase: Phase, d: Decoder, jumps: map<nat, JumpPoint>, top: nat, generation: nat, ahead: nat) {
    match phase
    case Idle => true
    case Looked(want, cursor, full) => SawOk(want, cursor, d, jumps, top, generation) && (!full ==> ahead < AHEAD)
    case Decoding => d.generation > 0 && d.loaded.Some? && d.nextFrame < d.loaded.value.Length() && ahead < AHEAD
  }

  predicate SawOk(want: Option<Media>, cursor: Cursor, d: Decoder, jumps: map<nat, JumpPoint>, top: nat, generation: nat) {
    && top <= cursor.generation <= generation && (d.generation == 0 ==> top < cursor.generation)
    && if cursor.empty then cursor.generation !in jumps
       else cursor.generation in jumps && want.Some? && jumps[cursor.generation] == JumpPoint(want.value, cursor.start, cursor.frames)
  }

  predicate AskedOk(asked: Option<Step>, jumps: map<nat, JumpPoint>) {
    asked.Some? && asked.value.frame >= 0 ==> Named(jumps, asked.value.generation, asked.value.order, asked.value.frame)
  }

  predicate ShownOk(shown: Picture, jumps: map<nat, JumpPoint>) {
    shown.Clip? ==> IsFrame(jumps, shown.item)
  }

  ghost predicate Inv(s: St) {
    && HistoryOk(s.t, s.media, s.still, s.jumps, s.number) && DecoderOk(s.d, s.jumps, s.top, s.t.generation)
    && QueueOk(s.queue, s.jumps, s.top, s.d) && PhaseOk(s.phase, s.d, s.jumps, s.top, s.t.generation, |s.queue|)
    && AskedOk(s.asked, s.jumps) && ShownOk(s.shown, s.jumps)
  }

  /** Control events move the transport alone. */
  predicate EventOk(e: Event) {
    e.Control? ==> TransportOnly(e.command)
  }

  function Apply(s: St, e: Event): St
    requires s.t.state.Empty? || s.t.frames >= 1
    requires s.phase.Decoding? ==> s.d.loaded.Some? && s.d.nextFrame >= 0
  {
    match e
    case Control(command) => Move(s, Obey(s.t, command))
    case OpenFile(frames, isStill, present, loop, playOnCut) => Open(s, frames, isStill, present, loop, playOnCut)
    case Clear => ClearAll(s)
    case Ask(index, onAir) => AskStep(s, index, onAir)
    case Show => if s.asked.Some? then ShowStep(s, s.asked.value) else s
    case Look => LookStep(s)
    case Sync(gotPicture) => if s.phase.Looked? then SyncTo(s, s.phase.want, s.phase.cursor, s.phase.full, gotPicture) else s
    case GiveUp => s.(phase := Idle)
    case Finish(ok) => if s.phase.Decoding? then FinishFrame(s, ok) else s
  }

  /** A move of the transport on the same clip. */
  predicate SameClip(t: Transport, r: Transport) {
    && Sound(r) && SameJump(t, r) && r.state.Empty? == t.state.Empty? && r.frames == t.frames
    && (r.state.Empty? ==> r.generation == t.generation)
  }

  /** History that only grows keeps what holds of it. */
  ghost predicate Grows(jumps: map<nat, JumpPoint>, more: map<nat, JumpPoint>) {
    forall g :: g in jumps ==> g in more && more[g] == jumps[g]
  }

  lemma GrowthKeeps(s: St, r: St)
    requires Inv(s) && Grows(s.jumps, r.jumps) && (forall g :: g in r.jumps && g !in s.jumps ==> g > s.t.generation)
    requires r.t.generation >= s.t.generation
    ensures DecoderOk(s.d, r.jumps, s.top, r.t.generation) && QueueOk(s.queue, r.jumps, s.top, s.d)
    ensures PhaseOk(s.phase, s.d, r.jumps, s.top, r.t.generation, |s.queue|)
    ensures AskedOk(s.asked, r.jumps) && ShownOk(s.shown, r.jumps)
  {
    hide Wrap, Sound;
    forall i | 0 <= i < |s.queue| ensures ItemOk(s.queue[i], r.jumps, s.top, s.d) {
      assert ItemOk(s.queue[i], s.jumps, s.top, s.d);
    }
  }

  lemma MoveInv(s: St, t: Transport)
    requires Inv(s) && SameClip(s.t, t)
    ensures Inv(Move(s, t))
  {
    hide Wrap, Numbered, DecoderOk, QueueOk, PhaseOk, AskedOk, ShownOk;
    GrowthKeeps(s, Move(s, t));
  }

  lemma ObeySameClip(t: Transport, c: Command)
    requires Sound(t) && (TransportOnly(c) || c.CmdAdvance?)
    ensures SameClip(t, Obey(t, c))
  {
    hide Wrap, Numbered;
    ObeyKeepsSound(t, c);
  }

  lemma OpenInv(s: St, frames: int, isStill: bool, present: seq<bool>, loop: bool, playOnCut: bool)
    requires Inv(s)
    ensures Inv(Open(s, frames, isStill, present, loop, playOnCut))
  {
    hide Wrap, Numbered, DecoderOk, SawOk, AskedOk, ShownOk;
    ObeyKeepsSound(s.t, CmdLoad(frames, loop, playOnCut));
    GrowthKeeps(s, Open(s, frames, isStill, present, loop, playOnCut));
  }

  lemma ClearInv(s: St)
    requires Inv(s)
    ensures Inv(ClearAll(s))
  {
    hide Wrap, Numbered, DecoderOk, SawOk, AskedOk, ShownOk;
    ObeyKeepsSound(s.t, CmdUnload);
    GrowthKeeps(s, ClearAll(s));
  }

  lemma AskInv(s: St, index: nat, onAir: bool)
    requires Inv(s)
    ensures Inv(AskStep(s, index, onAir))
  {
    hide Wrap, Advance, DecoderOk, QueueOk, PhaseOk, ShownOk;
    ObeySameClip(s.t, CmdAdvance(index, onAir));
    AdvanceKeepsSound(s.t, index, onAir);
    MoveInv(s, Advance(s.t, index, onAir).0);
  }

  /** A tail of a good queue, which takes no more room. */
  lemma TailOk(queue: seq<Decoded>, r: seq<Decoded>, jumps: map<nat, JumpPoint>, top: nat, d: Decoder)
    requires QueueOk(queue, jumps, top, d) && |r| <= |queue| && r == queue[|queue| - |r|..]
    ensures QueueOk(r, jumps, top, d)
  {
    hide ItemOk;
    var k := |queue| - |r|;
    forall i | 0 <= i < |r| ensures ItemOk(r[i], jumps, top, d) {
      assert ItemOk(queue[k + i], jumps, top, d);
    }
  }

  lemma ShowInv(s: St, step: Step)
    requires Inv(s)
    ensures Inv(ShowStep(s, step))
  {
    hide HistoryOk, Wrap, DecoderOk, SawOk;
    var r := ShowStep(s, step);
    TailOk(s.queue, r.queue, s.jumps, s.top, s.d);
  }

  lemma LookInv(s: St)
    requires Inv(s)
    ensures Inv(LookStep(s))
  {
    hide Wrap, QueueOk, Numbered, Follows;
  }

  /** A file that changed came with a later generation. */
  lemma TakeMediaOk(want: Option<Media>, cursor: Cursor, d: Decoder, jumps: map<nat, JumpPoint>, top: nat, generation: nat)
    requires DecoderOk(d, jumps, top, generation) && SawOk(want, cursor, d, jumps, top, generation)
    ensures var e := TakeMedia(d, want);
            && DecoderOk(e, jumps, top, generation) && SawOk(want, cursor, e, jumps, top, generation) && e.loaded == want
            && (e.generation == 0 || e == d) && (want != d.loaded ==> top < generation)
  {
    hide Wrap;
  }

  /** A new generation starts at its jump frame with number 0. */
  lemma TakeJumpOk(want: Option<Media>, cursor: Cursor, d: Decoder, jumps: map<nat, JumpPoint>, top: nat, generation: nat)
    requires DecoderOk(d, jumps, top, generation) && SawOk(want, cursor, d, jumps, top, generation) && d.loaded == want
    requires want.Some? && !want.value.still && !cursor.empty && JumpOk(jumps[cursor.generation], generation + want.value.number + 1)
    ensures var e := TakeJump(d, cursor);
            && Follows(e, jumps, cursor.generation) && e.generation == cursor.generation > 0 && e.loaded == want
            && jumps[e.generation].frames == cursor.frames >= 1 && cursor.frames == want.value.Length()
            && (cursor.generation != d.generation ==> top < cursor.generation) && (cursor.generation == d.generation ==> top == cursor.generation)
  {
    hide Wrap;
  }

  /** At the end of a loop the next frame is frame 0 again. */
  lemma LoopsRound(d: Decoder, cursor: Cursor, jumps: map<nat, JumpPoint>)
    requires Follows(d, jumps, cursor.generation) && cursor.frames == jumps[d.generation].frames >= 1 && PastEnd(d, cursor)
    ensures Follows(StartOver(d, cursor.frames), jumps, cursor.generation) && Follows(d.(atEnd := true), jumps, cursor.generation)
  {
    hide Wrap;
    var p := jumps[d.generation];
    WrapSame(p.start + d.nextSeq + d.missed, d.nextFrame, p.frames - d.nextFrame, p.frames);
    assert p.start + d.nextSeq + d.missed + (p.frames - d.nextFrame) == p.start + d.nextSeq + StartOver(d, cursor.frames).missed;
    WrapIsNext(p.frames - 1, p.frames);
    WrapRange(0, p.frames);
  }

  /** Numbers that are alike stay alike. */
  lemma WrapSame(a: int, b: int, ahead: int, m: int)
    requires m >= 1 && Wrap(a, m) == Wrap(b, m)
    ensures Wrap(a + ahead, m) == Wrap(b + ahead, m)
  {
    hide Wrap;
    WrapAdd(a, ahead, m);
    WrapAdd(b, ahead, m);
  }

  lemma SyncInv(s: St, want: Option<Media>, cursor: Cursor, full: bool, gotPicture: bool)
    requires Inv(s) && s.phase == Looked(want, cursor, full)
    ensures Inv(SyncTo(s, want, cursor, full, gotPicture))
  {
    hide Wrap, Numbered, SawOk, Follows, TakeMedia;
    var d := TakeMedia(s.d, want);
    TakeMediaOk(want, cursor, s.d, s.jumps, s.top, s.t.generation);
    if want.Some? && !want.value.still && !cursor.empty {
      SyncFollows(s, want, cursor, full, gotPicture, d);
    }
  }

  /** The queue after the decoder went to what it saw. */
  lemma GoneQueue(queue: seq<Decoded>, jumps: map<nat, JumpPoint>, top: nat, d: Decoder, cursor: Cursor, e: Decoder)
    requires QueueOk(queue, jumps, top, d) && e.generation == cursor.generation
    requires if cursor.generation == d.generation then e.nextSeq == d.nextSeq else top < cursor.generation
    ensures if cursor.generation == d.generation then QueueOk(queue, jumps, top, e)
            else QueueOk(DropOld(queue, cursor.generation), jumps, cursor.generation, e)
  {
    hide IsFrame;
    var more := if cursor.generation == d.generation then top else cursor.generation;
    forall i | 0 <= i < |queue| ensures ItemOk(queue[i], jumps, more, e) {
      assert ItemOk(queue[i], jumps, top, d);
    }
    if cursor.generation != d.generation { TailOk(queue, DropOld(queue, cursor.generation), jumps, more, e); }
  }

  lemma SyncFollows(s: St, want: Option<Media>, cursor: Cursor, full: bool, gotPicture: bool, d: Decoder)
    requires Inv(s) && s.phase == Looked(want, cursor, full) && d == TakeMedia(s.d, want)
    requires DecoderOk(d, s.jumps, s.top, s.t.generation) && SawOk(want, cursor, d, s.jumps, s.top, s.t.generation) && d.loaded == want
    requires want.Some? && !want.value.still && !cursor.empty && (d.generation == 0 || d == s.d)
    ensures Inv(SyncTo(s, want, cursor, full, gotPicture))
  {
    TakeJumpOk(want, cursor, d, s.jumps, s.top, s.t.generation);
    var e := TakeJump(d, cursor);
    var r := SyncTo(s, want, cursor, full, gotPicture);
    if PastEnd(e, cursor) { LoopsRound(e, cursor, s.jumps); }
    UnusedQueue(s, d);
    GoneQueue(s.queue, s.jumps, s.top, d, cursor, r.d);
    hide Wrap, Numbered, Follows, TakeMedia, QueueOk, AskedOk, ShownOk;
  }

  /** A decoder without a generation says nothing about the queue. */
  lemma UnusedQueue(s: St, d: Decoder)
    requires Inv(s) && (d.generation == 0 || d == s.d)
    ensures QueueOk(s.queue, s.jumps, s.top, d)
  {
    forall i | 0 <= i < |s.queue| ensures ItemOk(s.queue[i], s.jumps, s.top, d) {
      assert ItemOk(s.queue[i], s.jumps, s.top, s.d);
    }
  }

  /** The next picture decoded is the one its number stands for, but for the missed ones, and the decoder
      follows on; only a file without its last frame ends before it. */
  lemma ItemIsFrame(d: Decoder, jumps: map<nat, JumpPoint>, top: nat)
    requires Follows(d, jumps, top) && d.nextFrame < d.loaded.value.Length()
    ensures var made := Produce(d.loaded.value.present, d.nextFrame);
            && (made.None? ==> !d.loaded.value.HasLast())
            && (made.Some? ==>
                  var item := Item(d, made.value);
                  && IsFrame(jumps, item) && item.order >= d.nextSeq
                  && Follows(d.(nextSeq := item.order + 1, nextFrame := made.value + 1, atEnd := false), jumps, top)
                  && Follows(d.(nextSeq := item.order + 1, nextFrame := made.value + 1), jumps, top))
  {
    hide Wrap;
    var made := Produce(d.loaded.value.present, d.nextFrame);
    if made.Some? {
      var p := jumps[d.generation];
      var (now, ahead) := (p.start + d.nextSeq + d.missed, made.value - d.nextFrame);
      WrapSame(now, d.nextFrame, ahead, p.frames);
      WrapSame(now, d.nextFrame, ahead + 1, p.frames);
      assert now + ahead == p.start + Item(d, made.value).order + d.missed && now + (ahead + 1) == p.start + (Item(d, made.value).order + 1) + d.missed;
      assert d.nextFrame + ahead == made.value && d.nextFrame + (ahead + 1) == made.value + 1;
    }
  }

  lemma FinishInv(s: St, ok: bool)
    requires Inv(s) && s.phase.Decoding?
    ensures Inv(FinishFrame(s, ok))
  {
    hide Wrap, Numbered, Produce;
    ItemIsFrame(s.d, s.jumps, s.top);
    var r := FinishFrame(s, ok);
    forall i | 0 <= i < |s.queue| ensures ItemOk(s.queue[i], s.jumps, r.top, r.d) {
      assert ItemOk(s.queue[i], s.jumps, s.top, s.d);
    }
  }

  lemma ApplyInv(s: St, e: Event)
    requires Inv(s) && EventOk(e)
    ensures (s.t.state.Empty? || s.t.frames >= 1) && (s.phase.Decoding? ==> s.d.loaded.Some? && s.d.nextFrame >= 0)
    ensures Inv(Apply(s, e))
  {
    hide Wrap, Numbered, Advance, SyncTo, FinishFrame, ShowStep, Open, Produce, Obey;
    match e
    case Control(command) => ObeySameClip(s.t, command); MoveInv(s, Obey(s.t, command));
    case OpenFile(frames, isStill, present, loop, playOnCut) => OpenInv(s, frames, isStill, present, loop, playOnCut);
    case Clear => ClearInv(s);
    case Ask(index, onAir) => AskInv(s, index, onAir);
    case Show => if s.asked.Some? { ShowInv(s, s.asked.value); }
    case Look => LookInv(s);
    case Sync(gotPicture) => if s.phase.Looked? { SyncInv(s, s.phase.want, s.phase.cursor, s.phase.full, gotPicture); }
    case GiveUp =>
    case Finish(ok) => if s.phase.Decoding? { FinishInv(s, ok); }
  }

  const START := St(FRESH, None, None, [], NoPicture, None, Idle, Decoder(None, 0, 0, 0, false, 0), map[], 0, 0)

  lemma StartInv()
    ensures Inv(START)
  {
  }

  ghost function Run(s: St, events: seq<Event>): St
    requires Inv(s) && forall i :: 0 <= i < |events| ==> EventOk(events[i])
    decreases |events|
  {
    if |events| == 0 then s
    else
      ApplyInv(s, events[0]);
      Run(Apply(s, events[0]), events[1..])
  }

  lemma {:induction false} EveryRunKeepsInv(s: St, events: seq<Event>)
    requires Inv(s) && forall i :: 0 <= i < |events| ==> EventOk(events[i])
    ensures Inv(Run(s, events))
    decreases |events|
  {
    hide Inv, Apply;
    if |events| > 0 {
      ApplyInv(s, events[0]);
      EveryRunKeepsInv(Apply(s, events[0]), events[1..]);
    }
  }

  // ---- what is shown ---------------------------------------------------------------------------

  /** Under any interleaving the queue is at most AHEAD long and strictly ordered by (generation, order); the
      picture a grain takes from it, and the sound it plays, is of the file of its step's jump and exactly the
      frame the step asked for if and only if it is in the file's count and the frames its decoder missed are
      whole rounds of it: always for a file that has its last frame, and for a clip that never started over.
      And it takes one when the queue holds it. */
  lemma ShownIsAsked(events: seq<Event>)
    requires forall i :: 0 <= i < |events| ==> EventOk(events[i])
    ensures Inv(START)
    ensures var s := Run(START, events);
            && |s.queue| <= AHEAD && Ordered(s.queue)
            && (s.asked.Some? ==> ShowsAsked(s, s.asked.value))
  {
    hide Apply, HistoryOk, DecoderOk, PhaseOk, Wrap;
    StartInv();
    EveryRunKeepsInv(START, events);
    var s := Run(START, events);
    if s.asked.Some? { ShowsTheAsked(s, s.asked.value); }
  }

  /** Which frame of the clip a picture asked for is, and when it is the one that was asked for. */
  predicate IsAsked(p: JumpPoint, item: Decoded, frame: int) {
    && item.media == p.media && p.frames >= 1 && 0 <= frame < p.frames
    && Wrap(item.frame, p.frames) == Wrap(frame + item.missed, p.frames)
    && (item.frame == frame <==> item.frame < p.frames && Wrap(item.missed, p.frames) == 0)
    && (item.media.HasLast() || (item.missed == 0 && item.frame < p.frames) ==> item.frame == frame)
  }

  lemma NumberedIsAsked(jumps: map<nat, JumpPoint>, item: Decoded, step: Step)
    requires IsFrame(jumps, item) && Matches(item, step) && Named(jumps, step.generation, step.order, step.frame)
    ensures IsAsked(jumps[step.generation], item, step.frame)
  {
    hide Wrap;
    var p := jumps[step.generation];
    var (m, n) := (item.missed, p.frames);
    WrapRange(p.start + step.order, n);
    WrapRange(step.frame, n);
    WrapSame(p.start + step.order, step.frame, m, n);
    WrapRange(item.frame, n);
    WrapAdd(m, step.frame, n);
    WrapRange(0, n);
    if Wrap(step.frame + m, n) == step.frame {
      WrapSame(step.frame + m, step.frame, -step.frame, n);
    }
  }

  ghost predicate ShowsAsked(s: St, step: Step) {
    var r := ShowStep(s, step).shown;
    && (step.frame < 0 ==> r == NoPicture)
    && (r.Clip? && Matches(r.item, step) && step.frame >= 0 ==>
          step.generation in s.jumps && IsAsked(s.jumps[step.generation], r.item, step.frame))
    && (SoundOf(r, step).Some? ==> step.playing && r == Clip(SoundOf(r, step).value) && Matches(r.item, step))
    && (step.frame >= 0 && s.still.None? && (exists i :: 0 <= i < |s.queue| && Matches(s.queue[i], step)) ==> r.Clip? && Matches(r.item, step))
  }

  lemma OrderedAt(queue: seq<Decoded>, i: nat, j: nat)
    requires Ordered(queue) && i <= j < |queue|
    ensures i == j || Earlier(queue[i], queue[j].generation, queue[j].order)
  {
  }

  /** In an ordered queue the frame asked for is what is left first. */
  lemma QueuedIsTaken(queue: seq<Decoded>, step: Step)
    requires Ordered(queue)
    ensures var r := DropEarlier(queue, step.generation, step.order);
            (exists i :: 0 <= i < |queue| && Matches(queue[i], step)) ==> |r| > 0 && Matches(r[0], step)
  {
    var r := DropEarlier(queue, step.generation, step.order);
    var dropped := |queue| - |r|;
    forall i | 0 <= i < |queue| && Matches(queue[i], step) ensures |r| > 0 && r[0] == queue[i] {
      assert dropped <= i && queue[i] == r[i - dropped];
      OrderedAt(queue, dropped, i);
    }
  }

  /** What is left first in a good queue is the frame its number stands for. */
  lemma FirstIsFrame(queue: seq<Decoded>, step: Step, jumps: map<nat, JumpPoint>, top: nat, d: Decoder)
    requires QueueOk(queue, jumps, top, d)
    ensures var r := DropEarlier(queue, step.generation, step.order);
            |r| > 0 ==> IsFrame(jumps, r[0])
  {
    hide IsFrame;
    var r := DropEarlier(queue, step.generation, step.order);
    if |r| > 0 { assert r[0] == queue[|queue| - |r|] && ItemOk(queue[|queue| - |r|], jumps, top, d); }
  }

  lemma ShowsTheAsked(s: St, step: Step)
    requires Inv(s) && s.asked == Some(step)
    ensures ShowsAsked(s, step)
  {
    hide HistoryOk, DecoderOk, PhaseOk, Wrap, Ordered, DropEarlier, ItemOk;
    hide IsAsked;
    QueuedIsTaken(s.queue, step);
    FirstIsFrame(s.queue, step, s.jumps, s.top, s.d);
    var r := ShowStep(s, step).shown;
    if r.Clip? && Matches(r.item, step) && step.frame >= 0 { NumberedIsAsked(s.jumps, r.item, step); }
  }

  // ---- files whose last frame is not there -------------------------------------------------------

  /** The next picture the decoder makes of a looping clip: at the end of the file it starts over. */
  function NextItem(d: Decoder, frames: int): Option<Decoded>
    requires d.loaded.Some? && 0 <= d.nextFrame < frames
  {
    var made := Produce(d.loaded.value.present, d.nextFrame);
    if made.Some? then Some(Item(d, made.value))
    else
      var again := Produce(d.loaded.value.present, 0);
      if again.Some? then Some(Item(StartOver(d, frames), again.value)) else None
  }

  /** It is what the decoder queues: at once, or after it has found the end and gone round. */
  lemma NextItemIsQueued(s: St, cursor: Cursor)
    requires Inv(s) && s.phase.Decoding? && s.t.generation == s.d.generation && s.media == s.d.loaded
    requires cursor == Cursor(s.t.generation, s.t.jumpFrame, s.t.frames, true, false)
    ensures s.d.loaded.Some? && 0 <= s.d.nextFrame < cursor.frames
    ensures var (item, r) := (NextItem(s.d, cursor.frames), FinishFrame(s, true));
            if Produce(s.d.loaded.value.present, s.d.nextFrame).Some? then item.Some? && r.queue == s.queue + [item.value]
            else
              var again := SyncTo(r, s.media, cursor, false, true);
              && again.phase == Decoding && again.d.loaded.Some? && again.d.nextFrame >= 0
              && (item.Some? ==> FinishFrame(again, true).queue == s.queue + [item.value])
  {
    hide Wrap, Numbered, Produce;
  }

  /** In a loop, the next picture of a decoder that is in step carries the number of its own frame exactly when
      the file has a frame from there to its count; a file that ends earlier puts it out of step. */
  lemma LoopNeedsItsLastFrame(d: Decoder, start: int, frames: int)
    requires d.loaded.Some? && 0 <= d.nextFrame < frames && Wrap(start + d.nextSeq, frames) == d.nextFrame
    ensures var (item, present) := (NextItem(d, frames), d.loaded.value.present);
            item.Some? ==> (item.value.frame == Wrap(start + item.value.order, frames) <==>
                              exists i :: d.nextFrame <= i < frames && i < |present| && present[i])
  {
    hide Wrap, Produce;
    var (item, made) := (NextItem(d, frames), Produce(d.loaded.value.present, d.nextFrame));
    if item.Some? {
      var ahead := item.value.order - d.nextSeq;
      WrapRange(d.nextFrame, frames);
      WrapSame(start + d.nextSeq, d.nextFrame, ahead, frames);
      assert start + d.nextSeq + ahead == start + item.value.order;
      WrapRange(start + item.value.order, frames);
      WrapRange(d.nextFrame + ahead, frames);
      if made.None? {
        assert item.value.frame == ahead < d.nextFrame;
        if d.nextFrame + ahead >= frames { RoundAgain(d.nextFrame + ahead, frames); }
      }
    }
  }

  lemma RoundAgain(x: int, m: int)
    requires 1 <= m <= x < 2 * m
    ensures Wrap(x, m) == x - m
  {
    DivModIs(x, 1, x - m, m);
  }

  // ---- such a run ----------------------------------------------------------------------------------

  /** A looping clip that says three frames and has one. */
  const SHORT := Media(0, 3, false, [true])

  /** It is opened and played. */
  const PLAYS: seq<Event> := [OpenFile(3, false, [true], true, false), Control(CmdPlay), GiveUp]

  /** One turn of the decoder's loop. */
  const TURN: seq<Event> := [Look, Sync(true), Finish(true)]

  /** One grain shows its frame and the next asks for its own. */
  const GRAINS: seq<Event> := [Ask(0, true), Show, Ask(1, true)]

  const FIRST := Decoded(SHORT, 2, 0, 0, 0)
  const SECOND := Decoded(SHORT, 2, 1, 0, 2)

  const PLAYING := Transport(Playing, 3, 0, 0, 0, 0, 0, true, false, false, false, 0, None, 2)
  const PLAYING_1 := PLAYING.(onAir := true, started := true, position := 1, nextSeq := 1)

  const OPENED := START.(
    t := PLAYING,
    media := Some(SHORT), jumps := map[2 := JumpPoint(SHORT, 0, 3)], number := 1)
  const MADE_FIRST := OPENED.(queue := [FIRST], d := Decoder(Some(SHORT), 2, 1, 1, false, 0), top := 2)
  const AT_END := MADE_FIRST.(d := MADE_FIRST.d.(atEnd := true))
  const MADE_SECOND := AT_END.(queue := [FIRST, SECOND], d := Decoder(Some(SHORT), 2, 2, 1, false, 2))

  lemma {:induction false} RunOfBoth(s: St, events: seq<Event>, more: seq<Event>)
    requires Inv(s) && (forall i :: 0 <= i < |events| ==> EventOk(events[i])) && (forall i :: 0 <= i < |more| ==> EventOk(more[i]))
    ensures Inv(Run(s, events)) && Run(s, events + more) == Run(Run(s, events), more)
    decreases |events|
  {
    hide Inv, Apply;
    if |events| == 0 {
      assert events + more == more;
    } else {
      ApplyInv(s, events[0]);
      assert (events + more)[1..] == events[1..] + more;
      RunOfBoth(Apply(s, events[0]), events[1..], more);
    }
  }

  /** One step, by any thread. */
  ghost function Next(s: St, e: Event): (r: St)
    requires Inv(s) && EventOk(e)
    ensures Inv(r)
  {
    ApplyInv(s, e);
    Apply(s, e)
  }

  lemma RunOfOne(s: St, e: Event)
    requires Inv(s) && EventOk(e)
    ensures Run(s, [e]) == Next(s, e)
  {
    hide Inv, Apply;
    ApplyInv(s, e);
    assert [e][1..] == [];
  }

  lemma RunOfThree(s: St, e: Event, f: Event, g: Event)
    requires Inv(s) && EventOk(e) && EventOk(f) && EventOk(g)
    ensures Run(s, [e, f, g]) == Next(Next(Next(s, e), f), g)
  {
    hide Inv, Run, Next;
    RunOfOne(s, e);
    RunOfOne(Next(s, e), f);
    RunOfOne(Next(Next(s, e), f), g);
    RunOfBoth(s, [e], [f]);
    RunOfBoth(s, [e, f], [g]);
    assert [e] + [f] == [e, f] && [e, f] + [g] == [e, f, g];
  }

  lemma ShortOpens()
    ensures Inv(START) && Run(START, PLAYS) == OPENED && Inv(OPENED)
  {
    hide Wrap, Inv;
    StartInv();
    RunOfThree(START, PLAYS[0], PLAYS[1], PLAYS[2]);
    var a := Apply(START, PLAYS[0]);
    assert a == OPENED.(t := OPENED.t.(state := Cued));
    assert OPENED.jumps[2 := JumpPoint(SHORT, 0, 3)] == OPENED.jumps;
    assert Apply(a, PLAYS[1]) == OPENED;
  }

  /** A turn of a decoder that finds its clip loaded and room in the queue. */
  lemma TurnIs(s: St, end: St, r: St)
    requires Inv(s) && s.phase == Idle && |s.queue| < AHEAD
    requires end == SyncTo(LookStep(s), s.media, LookStep(s).phase.cursor, false, true)
    requires end.phase == Decoding && end.d.loaded.Some? && end.d.nextFrame >= 0 && r == FinishFrame(end, true)
    ensures Run(s, TURN) == r && Inv(r)
  {
    hide SyncTo, FinishFrame, Inv;
    RunOfThree(s, Look, Sync(true), Finish(true));
    assert TURN == [Look, Sync(true), Finish(true)];
  }

  /** It makes frame 0, */
  lemma FirstTurn()
    requires Inv(OPENED)
    ensures Run(OPENED, TURN) == MADE_FIRST && Inv(MADE_FIRST)
  {
    hide Wrap, Inv, Run;
    var end := OPENED.(phase := Decoding, top := 2, d := Decoder(Some(SHORT), 2, 0, 0, false, 0));
    FirstSync(OPENED);
    assert Produce([true], 0) == Some(0);
    assert FinishFrame(end, true) == MADE_FIRST;
    TurnIs(OPENED, end, MADE_FIRST);
  }

  lemma FirstSync(s: St)
    requires s.media == Some(SHORT) && s.t == PLAYING && s.queue == [] && s.d == START.d
    ensures SyncTo(LookStep(s), s.media, LookStep(s).phase.cursor, false, true)
         == s.(phase := Decoding, top := 2, d := Decoder(Some(SHORT), 2, 0, 0, false, 0))
  {
    assert DropOld([], 2) == [];
    var d := TakeMedia(s.d, s.media);
    assert d == Decoder(Some(SHORT), 0, 0, 0, false, 0);
    assert TakeJump(d, LookStep(s).phase.cursor) == Decoder(Some(SHORT), 2, 0, 0, false, 0);
  }

  /** finds the end of the file, */
  lemma SecondTurn()
    requires Inv(MADE_FIRST)
    ensures Run(MADE_FIRST, TURN) == AT_END && Inv(AT_END)
  {
    hide Wrap, Inv, Run;
    var end := MADE_FIRST.(phase := Decoding);
    assert SyncTo(LookStep(MADE_FIRST), MADE_FIRST.media, LookStep(MADE_FIRST).phase.cursor, false, true) == end;
    assert Produce([true], 1) == None;
    assert FinishFrame(end, true) == AT_END;
    TurnIs(MADE_FIRST, end, AT_END);
  }

  /** and makes frame 0 again, as number 1. */
  lemma ThirdTurn()
    requires Inv(AT_END)
    ensures Run(AT_END, TURN) == MADE_SECOND && Inv(MADE_SECOND)
  {
    hide Wrap, Inv, Run;
    var end := AT_END.(phase := Decoding, d := Decoder(Some(SHORT), 2, 1, 0, false, 2));
    assert SyncTo(LookStep(AT_END), AT_END.media, LookStep(AT_END).phase.cursor, false, true) == end;
    assert Produce([true], 0) == Some(0);
    assert FinishFrame(end, true) == MADE_SECOND;
    TurnIs(AT_END, end, MADE_SECOND);
  }

  /** A clip without its last frame can show, and sound, the wrong one: grain 1 asks for frame 1 and gets
      frame 0. */
  lemma ShortClipIsWrong()
    ensures Inv(START)
    ensures var s := Run(START, PLAYS + TURN + TURN + TURN + GRAINS);
            && s.asked == Some(Step(1, true, 2, 1))
            && var r := ShowStep(s, s.asked.value).shown;
               r == Clip(SECOND) && r.item.frame == 0 && SoundOf(r, s.asked.value) == Some(SECOND)
  {
    hide Inv, Apply, Run, ShowStep, SoundOf;
    ShortOpens();
    FirstTurn();
    SecondTurn();
    ThirdTurn();
    RunOfBoth(START, PLAYS, TURN);
    RunOfBoth(START, PLAYS + TURN, TURN);
    RunOfBoth(START, PLAYS + TURN + TURN, TURN);
    RunOfBoth(START, PLAYS + TURN + TURN + TURN, GRAINS);
    ShortGrains();
  }

  lemma ShortGrains()
    requires Inv(MADE_SECOND)
    ensures var s := Run(MADE_SECOND, GRAINS);
            && s.asked == Some(Step(1, true, 2, 1))
            && var r := ShowStep(s, s.asked.value).shown;
               r == Clip(SECOND) && SoundOf(r, s.asked.value) == Some(SECOND)
  {
    hide Inv, Advance, ShowStep, MADE_SECOND;
    assert GRAINS == [Ask(0, true), Show, Ask(1, true)];
    RunOfThree(MADE_SECOND, Ask(0, true), Show, Ask(1, true));
    ShortSteps();
    BothQueued();
    AskIs(MADE_SECOND, 0, PLAYING_1, Step(0, true, 2, 0));
    var a := AskStep(MADE_SECOND, 0, true);
    ShowFirst(a);
    var b := ShowStep(a, a.asked.value);
    AskIs(b, 1, Advance(PLAYING_1, 1, true).0, Step(1, true, 2, 1));
    ShowSecond(AskStep(b, 1, true));
  }

  lemma BothQueued()
    ensures MADE_SECOND.queue == [FIRST, SECOND] && MADE_SECOND.still.None? && MADE_SECOND.t == PLAYING
  {
  }

  /** The transport in a grain that follows the last one. */
  lemma NextStep(t: Transport, index: nat)
    requires t.state.Playing? && t.frames >= 1 && t.position + 1 < t.frames && (t.started ==> index <= t.lastIndex + 1)
    ensures Advance(t, index, true) ==
            (t.(onAir := true, started := true, lastIndex := index, shown := t.position, shownSeq := t.nextSeq, position := t.position + 1, nextSeq := t.nextSeq + 1),
             Step(t.position, true, t.generation, t.nextSeq))
  {
  }

  lemma ShortSteps()
    ensures Advance(PLAYING, 0, true) == (PLAYING_1, Step(0, true, 2, 0)) && Advance(PLAYING_1, 1, true).1 == Step(1, true, 2, 1)
  {
    hide Advance;
    NextStep(PLAYING, 0);
    NextStep(PLAYING_1, 1);
  }

  lemma AskIs(s: St, index: nat, t: Transport, step: Step)
    requires (s.t.state.Empty? || s.t.frames >= 1) && Advance(s.t, index, true) == (t, step)
    ensures var r := AskStep(s, index, true); r.asked == Some(step) && r.t == t && r.queue == s.queue && r.still == s.still && r.shown == s.shown
  {
    hide Advance;
  }

  lemma ShowFirst(s: St)
    requires s.queue == [FIRST, SECOND] && s.still.None? && s.asked == Some(Step(0, true, 2, 0))
    ensures var r := ShowStep(s, s.asked.value); r.queue == s.queue && r.still.None? && r.t == s.t && r.asked.None?
  {
    assert !Earlier(s.queue[0], 2, 0);
  }

  lemma ShowSecond(s: St)
    requires s.queue == [FIRST, SECOND] && s.still.None? && s.asked == Some(Step(1, true, 2, 1))
    ensures var r := ShowStep(s, s.asked.value).shown; r == Clip(SECOND) && SoundOf(r, s.asked.value) == Some(SECOND)
  {
    assert Earlier(s.queue[0], 2, 1) && s.queue[1..] == [SECOND] && !Earlier(SECOND, 2, 1);
    assert DropEarlier([SECOND], 2, 1) == [SECOND];
    assert DropEarlier(s.queue, 2, 1) == [SECOND];
  }

  lemma DecodingHas(s: St)
    requires Inv(s) && s.phase.Decoding?
    ensures s.d.loaded.Some? && s.d.nextFrame >= 0
  {
  }

  // ---- the player in place ---------------------------------------------------------------------

  /** Pictures before the wanted one are passed over. */
  method FindPicture(present: seq<bool>, want: int) returns (made: Option<int>)
    requires want >= 0
    ensures made == Produce(present, want)
  {
    var at := want;
    while at < |present| && !present[at]
      invariant want <= at && Produce(present, want) == Produce(present, at)
    {
      at := at + 1;
    }
    made := if at < |present| then Some(at) else None;
  }

  /** Frames before (generation, order) were shown or skipped: they go. */
  method DropShown(frames: seq<Decoded>, generation: nat, order: int) returns (r: seq<Decoded>)
    ensures r == DropEarlier(frames, generation, order)
  {
    r := frames;
    while |r| > 0 && (r[0].generation < generation || (r[0].generation == generation && r[0].order < order))
      invariant DropEarlier(frames, generation, order) == DropEarlier(r, generation, order)
      decreases |r|
    {
      r := r[1..];
    }
  }

  /** Frames of generations before this one go. */
  method DropReplaced(frames: seq<Decoded>, generation: nat) returns (r: seq<Decoded>)
    ensures r == DropOld(frames, generation)
  {
    r := frames;
    while |r| > 0 && r[0].generation < generation
      invariant DropOld(frames, generation) == DropOld(r, generation)
      decreases |r|
    {
      r := r[1..];
    }
  }

  /** What the threads share, the decoder's own variables, and the history. */
  class ClipPlayer {
    var playout: Transport
    var media: Option<Media>
    var still: Option<Media>
    var queue: seq<Decoded>
    var shown: Picture
    var asked: Option<Step>
    var phase: Phase
    var loaded: Option<Media>
    var generation: nat
    var nextSeq: int
    var nextFrame: int
    var atEnd: bool
    var missed: int
    var number: nat
    ghost var jumps: map<nat, JumpPoint>
    ghost var top: nat

    ghost function Abs(): St
      reads this
    {
      St(playout, media, still, queue, shown, asked, phase, Decoder(loaded, generation, nextSeq, nextFrame, atEnd, missed), jumps, top, number)
    }

    ghost predicate Valid()
      reads this
    {
      Inv(Abs())
    }

    constructor ()
      ensures Valid() && Abs() == START
    {
      playout, media, still, queue, shown, asked, phase := FRESH, None, None, [], NoPicture, None, Idle;
      loaded, generation, nextSeq, nextFrame, atEnd, missed, number, jumps, top := None, 0, 0, 0, false, 0, 0, map[], 0;
      new;
      StartInv();
    }

    method Record()
      modifies this`jumps
      ensures Abs() == Move(old(Abs()).(t := playout), playout)
    {
      if !playout.state.Empty? && media.Some? {
        jumps := jumps[playout.generation := JumpPoint(media.value, playout.jumpFrame, playout.frames)];
      }
    }

    method OpenClip(frames: int, isStill: bool, present: seq<bool>, loop: bool, playOnCut: bool)
      requires Valid()
      modifies this
      ensures Valid() && Abs() == Open(old(Abs()), frames, isStill, present, loop, playOnCut)
    {
      hide Inv, Load;
      OpenInv(Abs(), frames, isStill, present, loop, playOnCut);
      media := Some(Media(number, frames, isStill, present));
      number := number + 1;
      still := None;
      queue := [];
      playout := Load(playout, frames, loop, playOnCut);
      Record();
    }

    method CloseClip()
      requires Valid()
      modifies this
      ensures Valid() && Abs() == ClearAll(old(Abs()))
    {
      ClearInv(Abs());
      media, still, queue := None, None, [];
      playout := Unload(playout);
    }

    method Order(command: Command)
      requires Valid() && TransportOnly(command)
      modifies this
      ensures Valid() && Abs() == Apply(old(Abs()), Control(command))
    {
      hide Obey;
      ApplyInv(Abs(), Control(command));
      playout := Obey(playout, command);
      Record();
    }

    /** The first half of a grain: the transport's step. */
    method AskFor(index: nat, onAir: bool)
      requires Valid()
      modifies this
      ensures Valid() && Abs() == AskStep(old(Abs()), index, onAir)
    {
      hide Advance;
      AskInv(Abs(), index, onAir);
      var (t, step) := Advance(playout, index, onAir);
      playout := t;
      Record();
      asked := Some(step);
    }

    /** A new generation starts at its jump frame. */
    method StartAt(cursor: Cursor)
      requires cursor.generation != generation
      modifies this`generation, this`nextSeq, this`nextFrame, this`atEnd, this`missed, this`top
      ensures Abs() == old(Abs()).(d := TakeJump(old(Abs()).d, cursor), top := cursor.generation)
    {
      generation, nextSeq, nextFrame, atEnd, missed := cursor.generation, 0, cursor.start, false, 0;
      top := generation;
    }

    /** The decoder on the generation it saw. */
    method GoTo(cursor: Cursor)
      modifies this
      ensures Abs() == GoneTo(old(Abs()), cursor)
    {
      hide DropOld, TakeJump;
      if cursor.generation != generation {
        StartAt(cursor);
        queue := DropReplaced(queue, cursor.generation);
      }
    }

    /** The second half: the picture and the sound of the step, from the queue. */
    method TakeFrame() returns (sound: Option<Decoded>)
      requires Valid() && asked.Some?
      modifies this
      ensures Valid() && Abs() == ShowStep(old(Abs()), old(asked).value) && sound == SoundOf(shown, old(asked).value)
    {
      hide Inv, DropEarlier;
      var step := asked.value;
      ShowInv(Abs(), step);
      asked := None;
      if step.frame < 0 {
        shown := NoPicture;
        return None;
      }
      if still.Some? {
        shown := Still(still.value);
        return None;
      }
      queue := DropShown(queue, step.generation, step.order);
      if |queue| > 0 && queue[0].generation == step.generation && queue[0].order == step.order {
        shown := Clip(queue[0]);
      }
      sound := if step.playing && shown.Clip? && Matches(shown.item, step) then Some(shown.item) else None;
    }

    method LookAround()
      requires Valid()
      modifies this`phase
      ensures Valid() && Abs() == LookStep(old(Abs()))
    {
      LookInv(Abs());
      phase := Looked(media, Cursor(playout.generation, playout.jumpFrame, playout.frames, playout.loop, playout.state.Empty?), |queue| >= AHEAD);
    }

    /** The decoder goes on at frame 0. */
    method GoRound(frames: int)
      modifies this
      ensures Abs() == old(Abs()).(d := StartOver(old(Abs()).d, frames))
    {
      missed := missed + frames - nextFrame;
      nextFrame := 0;
      atEnd := false;
    }

    /** A new file; a still is uploaded at once. True when that was all there was to do. */
    method TakeFile(want: Option<Media>, gotPicture: bool) returns (done: bool)
      modifies this`loaded, this`generation, this`still
      ensures done == (want != old(loaded) && want.Some? && want.value.still)
      ensures !done ==> Abs() == old(Abs()).(d := TakeMedia(old(Abs()).d, want))
      ensures done && !gotPicture ==> Abs() == old(Abs()).(d := TakeMedia(old(Abs()).d, want).(loaded := None))
      ensures done && gotPicture ==> Abs() == old(Abs()).(d := TakeMedia(old(Abs()).d, want), still := if media == want then want else old(still))
    {
      done := false;
      if want != loaded {
        loaded := want;
        generation := 0;
        if want.Some? && want.value.still {
          if !gotPicture {
            loaded := None;
          } else if media == want {
            still := want;
          }
          done := true;
        }
      }
    }

    /** A new file and a new generation reset the decoder; then it knows whether there is a frame to decode. */
    method SyncDecoder(want: Option<Media>, cursor: Cursor, full: bool, gotPicture: bool)
      requires Valid() && phase == Looked(want, cursor, full)
      modifies this
      ensures Valid() && Abs() == SyncTo(old(Abs()), want, cursor, full, gotPicture)
    {
      hide Inv, GoneTo, StartOver, TakeMedia;
      GonePhase(Abs().(d := TakeMedia(Abs().d, want)), cursor);
      SyncInv(Abs(), want, cursor, full, gotPicture);
      phase := Idle;
      var done := TakeFile(want, gotPicture);
      if done || want.None? || want.value.still || cursor.empty {
        return;
      }
      GoTo(cursor);
      if full {
        return;
      }
      if nextFrame >= cursor.frames || atEnd {
        if !cursor.loop {
          atEnd := true;
          return;
        }
        GoRound(cursor.frames);
      }
      phase := Decoding;
    }

    /** Decodes the next frame; it is queued only if its jump is still the one that is wanted. */
    method DecodeNext(ok: bool)
      requires Valid() && phase == Decoding
      modifies this
      ensures Valid() && old(loaded).Some? && old(nextFrame) >= 0 && Abs() == FinishFrame(old(Abs()), ok)
    {
      hide Inv, Produce;
      DecodingHas(Abs());
      FinishInv(Abs(), ok);
      phase := Idle;
      var found := FindPicture(loaded.value.present, nextFrame);
      if found.None? {
        atEnd := true;
        return;
      }
      if !ok {
        return;
      }
      var made := found.value;
      var item := Decoded(loaded.value, generation, nextSeq + (made - nextFrame), made, missed);
      nextSeq := item.order + 1;
      nextFrame := made + 1;
      if playout.generation == generation && media == loaded {
        queue := queue + [item];
      }
    }
  }
}
