# FlowXer's media engine: a model of its core

FlowXer mixes live video and sound grain by grain. Its deterministic core lives under
`engine/src/core`; `engine/src/engine/engine.cpp` and `engine/src/engine/player.cpp` wrap it in threads
and bounded queues. This project models that core in Dafny and proves what it keeps over whole runs.
Indices and integers are unbounded, samples and gains are real numbers, and every section the code runs
under a lock is one step.

- **The mixer** (`MixerTypes`, `MixerModel`, `MixerCommands`, the class in `Mixer`): buses, Auto, lever,
  stinger with its wait, held takes, keyer fades, flies and ties, as functions on one state and as the
  class whose fields they change. `MixerInvariant` holds the invariant, `MixerTies` what each keyer's
  state comes to, `MixerEndings` how transitions end, `MixerTimeline` and `MixerSkips` why skipped grains
  do not matter, `MixerHeld` held takes and stingers. `Keyframes`, `Crossfade` and `Visibility` are what it calls.
- **Clip players** (`Playout`, `ClipPlayer`): the transport on the timeline, and the decoder against it.
- **The threads** (`FramePool`, `OutputGrains`, `EngineThreads`, `KeyFlows`): input frames, output slots,
  the clock, and the sharing of key flows.
- **Sound** (`Tai`, `DelayLine`, `AudioMix`, `Meter`): sample ranges, delay, the strip mixer, the meters.
- **Pictures** (`V210`, `LinearPlanes`, `Dme`): packing, the linear planes, the box resample.

`RealMath`, `Sets` and `Wrappers` are small helpers. The letters of a step are the code's: `me` counts from 1,
`keys[k]` is keyer k + 1.

## What the code does not promise, exactly

- A cut during a transition takes the Preview of that moment: it is the transition's end exactly when
  Preview is still the target and Program the Preview it would leave (`MixerHeld.CutEndsItExactly`).
- A lever taken back to 0 gives a tied keyer its state and gain back, but its box only under the condition
  of `MixerTies.BackRestoresBox` (`MixerTies.FlierStaysLeft` is a keyer whose box does not come back).
- With the lever at 0 and the next grain not yet rendered, ending the transition now swaps the buses and
  completes the ties, and that grain would not: `MixerEndings.BarAtZeroGoesBack` and `BarAtZeroLeavesKeys`
  say exactly when the two agree, `LeverUpAndBack` leads to such a state.
- `docs/engine-p4.md:325-327` says that a run, a stop or new keyframes take a keyer out of its tie; the
  code does so only for a fly with a Mix or Wipe (`MixerTies.StopUntiesExactly`, and `FadeStaysTied` for a
  fade that stays tied). The model follows the code.
- `endIndex` is right for a playing clip exactly when the clip does not show its last frame
  (`Playout.EndIndexIsRightExactly`, with `Playout.EndIndexAfterLoopOff`): a loop that is switched off on its
  last frame plays once more.
- A strip that is on both sides of a transition with AFV off is summed twice, so its gain jumps and is not
  the one published (`AudioMix.GainsGoOn` gives the exact difference, `NoJumpExactly` when it jumps from one
  grain to the next, `SelfMixJumps` a Mix where it does).
- A looping clip whose file ends before its count falls out of step with the transport where it starts over
  (`ClipPlayer.LoopNeedsItsLastFrame`), and shows the asked frame again only once the frames it missed are
  whole rounds (`ClipPlayer.ShownIsAsked`); `ShortClipIsWrong` is such a run.
- A transition whose last grain was skipped shows its last step in the next rendered grain
  (`MixerEndings.EndsInTime`).

## Model

| member | source | states |
|---|---|---|
| `MixerCommands.EveryRunKeepsInv` | engine/src/core/mixer.cpp:88-134 | over every run of commands and grains every bus, target, held take and key source is one its ME may take (a re-entered ME is a higher one), every gain and t is in [0, 1], every index in range, and a tied keyer always has a running transition, a stinger exactly when it waits for the cut point |
| `MixerCommands.ApplyInv` | engine/src/core/mixer.cpp:167-1145 | each command and each grain keeps that invariant |
| `MixerCommands.InitialInv` | engine/src/core/mixer.cpp:88-114 | the mixer starts in it |
| `MixerCommands.PlanGrainOk` | engine/src/core/mixer.cpp:962-1145 | every plan of a grain names only sources its ME may take, MEs from the highest down, with t and gains in [0, 1] |
| `MixerCommands.RunHeldInv` | engine/src/core/mixer.cpp:327-353 | making the held takes keeps the invariant and leaves exactly the takes that were not due |
| `MixerCommands.KeyframesCheck` | engine/src/core/mixer.cpp:832-866 | new keyframes are refused exactly when some keyframe has a bad rate or box |
| `MixerTies.NetStateIsConserved` | engine/src/core/mixer.cpp:642-751 | over every run without a keyer's own commands its net state (on, or what its tie will make it) is its old one flipped once for every tied take, cut, Auto or lever start and once for every lever taken back to 0: not by which grains were rendered nor by how a transition ended |
| `MixerTies.StepNet` | engine/src/core/mixer.cpp:642-751 | one event flips the net state exactly as often as it toggles the keyer |
| `MixerTies.TiedKeyerArrives` | engine/src/core/mixer.cpp:705-734 | a tied keyer whose tie is over is on exactly as the tie meant it to be |
| `MixerTies.BackRestores` | engine/src/core/mixer.cpp:705-734 | a lever back at 0 gives on and gain back as before the tie, whatever grains of the lever were shown in between, and no fade or fly of the keyer's own goes on |
| `MixerTies.BackRestoresBox` | engine/src/core/mixer.cpp:668-671 | after any grains of the lever it gives the box back exactly when the keyer was on, already flying, or stood at keyframe 0, and else leaves it at keyframe 0 |
| `MixerTies.FlierStaysLeft` | engine/src/core/mixer.cpp:668-671 | a keyer whose box does not come back, whatever the lever showed |
| `MixerTies.StopUntiesExactly` | engine/src/core/mixer.cpp:585-603 | a run, a jump, a stop or new keyframes, once accepted, take a tied keyer out of its tie exactly when it flies with a Mix or Wipe; it then stays on in full |
| `MixerTies.FadeStaysTied` | engine/src/core/mixer.cpp:868-904 | a run from the start: a keyer fading with an Auto starts a run of its own and is still tied |
| `MixerEndings.EndsInTime` | engine/src/core/mixer.cpp:1043-1083 | a running transition ends exactly in the first rendered grain from start + frames - 1 on, at t = 1; before that it goes on |
| `MixerEndings.AutoClock` | engine/src/core/mixer.cpp:1063-1083 | an Auto from 0 shows A to B at exactly its share of grains, whichever were rendered |
| `MixerEndings.GrainKeepsEnd` | engine/src/core/mixer.cpp:146-165 | no grain changes where a transition will leave Program and Preview, but for a lever at 0 |
| `MixerEndings.BusesArrive` | engine/src/core/mixer.cpp:1016-1083 | whatever grains are rendered, the buses are on their way to the same end |
| `MixerEndings.EarlyEndSwapsAlike` | engine/src/core/mixer.cpp:146-165 | ending a transition early gives the same Program and Preview as letting it run out in any rhythm of grains, unless its lever stands at 0 |
| `MixerEndings.EarlyEndTiesAlike` | engine/src/core/mixer.cpp:742-751 | and leaves each tied keyer with the same on and gain, a fly with the same box |
| `MixerEndings.BarAtZeroGoesBack` | engine/src/core/mixer.cpp:1016-1036 | with the lever at 0 the next grain keeps Program and Preview; ending now gives the same Program exactly when the target is on it, the same Preview exactly when it is what the transition puts there |
| `MixerEndings.BarAtZeroLeavesKeys` | engine/src/core/mixer.cpp:705-734 | and leaves every tied keyer in the other state than ending now |
| `MixerEndings.LeverUpAndBack` | engine/src/core/mixer.cpp:423-472 | a run from the start to such a state, where the two Programs differ |
| `MixerEndings.KeyersArrive` | engine/src/core/mixer.cpp:1091-1126 | a tied keyer arrives at that end over every run of grains |
| `MixerSkips.MeFollowsTheIndex` | engine/src/core/mixer.cpp:962-1089 | two strictly rising runs of grains inside one ME's transition leave the same buses and show the same mix, wipe or stinger in the next grain, whatever the rest of the mixer does meanwhile |
| `MixerSkips.KeyerFollowsTheIndex` | engine/src/core/mixer.cpp:1090-1137 | the same for one keyer's plan and state: its own fade and run, and its tie while its own ME is inside its transition |
| `MixerSkips.FtbFollowsTheIndex` | engine/src/core/mixer.cpp:493-515 | and for one ME's Fade to Black |
| `MixerSkips.MeRenderSkips` | engine/src/core/mixer.cpp:1016-1089 | leaving out grains of an ME's transition changes nothing about it in a later grain |
| `MixerSkips.KeyRenderSkips` | engine/src/core/mixer.cpp:1090-1137 | nor about a keyer |
| `MixerSkips.PlansFollowTheIndex` | engine/src/core/mixer.cpp:962-1143 | where all of them are inside, the whole plan and state are the same whichever grains were rendered |
| `MixerTimeline.MeSkips` | engine/src/core/mixer.cpp:1016-1083 | one ME's grain does not depend on an earlier one inside the transition |
| `MixerTimeline.KeySkips` | engine/src/core/mixer.cpp:1091-1126 | nor does a keyer's: fade, fly, run and every kind of tie |
| `MixerTimeline.FadeSkips` | engine/src/core/mixer.cpp:493-515 | a fade in grain i is the same whether grain j was rendered or not |
| `MixerTimeline.RunSkips` | engine/src/core/mixer.cpp:605-628 | so is a keyframe run |
| `MixerHeld.HeldTakeWaits` | engine/src/core/mixer.cpp:327-348 | a held take waits unchanged in every grain before its own |
| `MixerHeld.HeldTakeIsMade` | engine/src/core/mixer.cpp:327-348 | it is made in the first rendered grain at or after its own, from what is on air there |
| `MixerHeld.HeldMixStarts` | engine/src/core/mixer.cpp:327-348 | a held Mix or Wipe starts in that grain |
| `MixerHeld.TakeEndsOnItsGrain` | engine/src/core/mixer.cpp:308-325 | a Mix of N grains held for grain E - N + 1 shows its target in full first in grain E |
| `MixerHeld.StingerWaits` | engine/src/core/mixer.cpp:973-998 | over any run of the mixer's grains a stinger whose player is never ready waits with Program unchanged until the first grain at least 50 after it began to wait, and is a cut there |
| `MixerHeld.StingerStarts` | engine/src/core/mixer.cpp:973-1008 | it starts with its first frame in the first rendered grain its player is ready for |
| `MixerHeld.StingerClock` | engine/src/core/mixer.cpp:1043-1062 | its frame is the grains since its start, its background switches at the cut frame, and it ends with its last frame |
| `MixerHeld.CutEndsItExactly` | engine/src/core/mixer.cpp:355-373 | a cut during a transition ends it as its natural end would exactly when Preview is still its target and Program the Preview it would leave |
| `MixerHeld.CutAfterNewPreview` | engine/src/core/mixer.cpp:355-373 | a new Preview during a transition is such a case where it does not |
| `MixerInvariant.FadeAdvanceOk` | engine/src/core/mixer.cpp:493-515 | a fade stays in [0, 1] and ends at exactly 0 or 1 |
| `MixerInvariant.FadeAutoOk` | engine/src/core/mixer.cpp:482-491 | a fade turned back starts from the current gain with at least one grain |
| `MixerInvariant.StopRunOk` | engine/src/core/mixer.cpp:585-603 | stopping keeps a keyer sound |
| `MixerInvariant.CutKeyOk` | engine/src/core/mixer.cpp:630-640 | a cut keyer is sound, untied and not fading |
| `MixerInvariant.TieStartOk` | engine/src/core/mixer.cpp:642-677 | a tied keyer has a target in range and no fade or run of its own |
| `MixerInvariant.TieAdvanceOk` | engine/src/core/mixer.cpp:679-703 | following t keeps the tie and a gain in [0, 1] |
| `MixerInvariant.TieEndOk` | engine/src/core/mixer.cpp:705-734 | an ended tie leaves a sound, untied keyer |
| `MixerInvariant.RunAdvanceOk` | engine/src/core/mixer.cpp:605-628 | a run keeps its keyframes in range, and its box where the path says |
| `MixerInvariant.RunOnPath` | engine/src/core/keyframes.cpp:227-330 | wherever a run says it is on the path, its box is where the path is |
| `MixerInvariant.FollowTieOk` | engine/src/core/mixer.cpp:1095-1118 | following a transition keeps the keyer sound, and tied only while the transition goes on |
| `MixerInvariant.FrameMeOk` | engine/src/core/mixer.cpp:969-1089 | one ME's grain keeps the ME sound and tells its tied keyers a step that fits its transition |
| `MixerInvariant.FrameKeyOk` | engine/src/core/mixer.cpp:1090-1137 | one keyer's grain keeps it sound and tied only to a transition that goes on |
| `Mixer.Mixer.constructor` | engine/src/core/mixer.cpp:88-114 | a mixer with every ME, keyer and fade at its start |
| `Mixer.Mixer.TakeOver` | engine/src/core/mixer.cpp:244-306 | ends what runs, then takes: a stinger, a cut, or a Mix or Wipe with the tied keyers, or the error |
| `Mixer.Mixer.HoldTake` | engine/src/core/mixer.cpp:308-325 | holds a take for a grain, replacing the ME's held one |
| `Mixer.Mixer.MakeHeld` | engine/src/core/mixer.cpp:327-348 | makes the takes due, in the order of their MEs, with the grain as stamp |
| `Mixer.Mixer.RunDeferred` | engine/src/core/mixer.cpp:350-353 | makes every held take (or one ME's) at once |
| `Mixer.Mixer.CutOver` | engine/src/core/mixer.cpp:355-373 | takes Preview to Program at once |
| `Mixer.Mixer.AutoTransition` | engine/src/core/mixer.cpp:375-421 | starts the next transition, or finishes a lever's way at its rate |
| `Mixer.Mixer.SetPosition` | engine/src/core/mixer.cpp:423-472 | the lever: starts, follows, or refuses |
| `Mixer.Mixer.ChangeProgram` | engine/src/core/mixer.cpp:167-194 | a new Program stops the transition and ends its ties |
| `Mixer.Mixer.ChangePreview` | engine/src/core/mixer.cpp:196-215 | a new Preview stays after the transition |
| `Mixer.Mixer.NextTransition` | engine/src/core/mixer.cpp:217-242 | the next transition, or why it is refused |
| `Mixer.Mixer.CheckTies` | engine/src/core/mixer.cpp:753-766 | true exactly for distinct upstream keyers of that ME |
| `Mixer.Mixer.FtbSwitch` | engine/src/core/mixer.cpp:517-529 | Fade to Black at once |
| `Mixer.Mixer.FtbFade` | engine/src/core/mixer.cpp:531-547 | Fade to Black over its grains |
| `Mixer.Mixer.KeyCut` | engine/src/core/mixer.cpp:768-780 | a keyer on or off at once |
| `Mixer.Mixer.KeyFade` | engine/src/core/mixer.cpp:920-960 | a keyer fades, or flies from or to its keyframes |
| `Mixer.Mixer.ChangeKey` | engine/src/core/mixer.cpp:782-830 | new key settings with the box edited under the lock, or why they are refused |
| `Mixer.Mixer.ChangeKeyframes` | engine/src/core/mixer.cpp:832-866 | new keyframes, or the first error |
| `Mixer.Mixer.KeyStart` | engine/src/core/mixer.cpp:868-904 | a run or a jump to a keyframe |
| `Mixer.Mixer.KeyStop` | engine/src/core/mixer.cpp:906-918 | a run stops |
| `Mixer.Mixer.MeGrains` | engine/src/core/mixer.cpp:969-1089 | the loop over the MEs from the highest down gives each ME's step, plan and counters |
| `Mixer.Mixer.KeyGrains` | engine/src/core/mixer.cpp:1090-1137 | the loop over the keyers gives each keyer's step and plan |
| `Mixer.Mixer.PlanFrame` | engine/src/core/mixer.cpp:962-1145 | one grain: held takes, MEs, keyers, what the keys show |
| `Keyframes.EaseShape` | engine/src/core/keyframes.cpp:83-100 | every ease only rises, from exactly 0 to exactly 1 |
| `Keyframes.BetweenEnds` | engine/src/core/keyframes.cpp:134-153 | between two boxes the state is exactly the first at 0 and the second at 1, and nothing else changes |
| `Keyframes.DmeKeyTime` | engine/src/core/keyframes.cpp:155-163 | the time of a keyframe is the sum of the rates before it |
| `Keyframes.DmePathAt` | engine/src/core/keyframes.cpp:165-187 | the path at u is the segment u lies in, at its ease |
| `Keyframes.KeyTimeRises` | engine/src/core/keyframes.cpp:155-163 | keyframe times strictly rise |
| `Keyframes.PathAtKeyframe` | engine/src/core/keyframes.cpp:165-187 | the path at a keyframe's time is that keyframe's box exactly |
| `Keyframes.PathKeepsTheRest` | engine/src/core/keyframes.cpp:134-187 | the path changes only the animated state, whatever box it starts from |
| `Keyframes.RunArrives` | engine/src/core/keyframes.cpp:227-330 | a run to a keyframe ends there exactly, exactly when its length is over, from on or off the path |
| `Keyframes.LoopsRepeat` | engine/src/core/keyframes.cpp:270-310 | a loop shows the same again one period later |
| `Keyframes.PingPongNeverJumps` | engine/src/core/keyframes.cpp:270-310 | a ping-pong moves by at most one grain's way per grain, also where it turns |
| `Crossfade.StingerFadeShape` | engine/src/core/audio.cpp:31-42 | the background fade only rises, by at most a quarter a frame, around the cut frame, and ends at exactly 1 |
| `Visibility.KeyVisibilityOf` | engine/src/core/visibility.cpp:45-87 | the loop from the top down reports what VisibilityOf says |
| `Visibility.ReportsExactlyTheVisible` | engine/src/core/visibility.cpp:45-87 | a source is reported exactly when a showing luma or pip layer carries it with no covering pip above; covered exactly when some layer covers |
| `Visibility.UnreportedIsUnseen` | engine/src/engine/engine.cpp:1943-2052 | Program - upstream keys, stinger, DSKs, Fade to Black - is the same whatever an unreported source shows, and whatever the background shows when covered |
| `Visibility.ReportedMatters` | engine/src/engine/engine.cpp:1943-2052 | a reported source can be the picture, under any Fade to Black |
| `Visibility.UncoveredMatters` | engine/src/engine/engine.cpp:1943-2052 | so can a background that is not covered |
| `Visibility.CoveringBoxShows` | engine/src/core/visibility.cpp:27-43 | a box that covers the raster shows on it and covers every point |
| `Playout.ClipStaysOnTheTimeline` | engine/src/core/playout.cpp:113-183 | a clip started on frame p in grain s shows (p + i - s) mod frames in a loop and min(p + i - s, frames - 1) otherwise in every rendered grain i, whatever was skipped; the end grain is told from the first grain on |
| `Playout.StaysOnTime` | engine/src/core/playout.cpp:113-183 | the transport after any run of grains is where its start says |
| `Playout.EveryRunIsSound` | engine/src/core/playout.cpp:25-183 | between any two calls: Ended exactly when an end grain is recorded, every frame is (jump frame + number) mod frames, numbers never go back within a generation |
| `Playout.AdvanceKeepsSound` | engine/src/core/playout.cpp:113-183 | each grain shows the frame its generation and number stand for, or black |
| `Playout.EndIndexIsRightExactly` | engine/src/core/playout.cpp:203-215 | the end grain told for a clip that plays is the one it ends in exactly when it does not show its last frame: after a loop was switched off on it the clip plays once more |
| `Playout.EndIndexAfterLoopOff` | engine/src/core/playout.cpp:203-215 | a two-frame loop switched off on its last frame tells its end two grains early |
| `Playout.Playout.LoadClip` | engine/src/core/playout.cpp:36-44 | cued on its first frame, at least one frame |
| `Playout.Playout.UnloadClip` | engine/src/core/playout.cpp:46-52 | empty and black |
| `Playout.Playout.CueAt` | engine/src/core/playout.cpp:66-75 | holds the clamped frame |
| `Playout.Playout.PlayClip` | engine/src/core/playout.cpp:77-91 | plays on, from the start when it had ended |
| `Playout.Playout.PauseClip` | engine/src/core/playout.cpp:93-100 | holds the frame on air |
| `Playout.Playout.StopClip` | engine/src/core/playout.cpp:102-111 | holds the first frame |
| `Playout.Playout.PlayOn` | engine/src/core/playout.cpp:136-182 | a playing grain with the skipped ones, to the end or around |
| `Playout.Playout.AdvanceTo` | engine/src/core/playout.cpp:113-183 | one grain, with play on cut |
| `Playout.Playout.EndGrain` | engine/src/core/playout.cpp:203-215 | the end grain, told exactly when the clip has ended or plays without a loop; the grain on show exactly at the last frame |
| `Playout.Playout.DecoderCursor` | engine/src/core/playout.cpp:185-189 | where the decoder starts, inside the clip; the frames on show and next are its numbers from there |
| `ClipPlayer.ShownIsAsked` | engine/src/engine/player.cpp:616-866 | under any interleaving the queue is at most 5 long and strictly ordered by generation and number; what a grain takes from it, and the sound it plays, is of the asked jump's file, and the asked frame if and only if it is in the file's count and the frames the decoder missed where it started over are whole rounds: always for a file that has its last frame and for a clip that never started over early; and it takes one whenever the queue holds it |
| `ClipPlayer.EveryRunKeepsInv` | engine/src/engine/player.cpp:616-972 | every step of the control, render and decoder threads keeps the protocol's invariant |
| `ClipPlayer.ApplyInv` | engine/src/engine/player.cpp:616-972 | step by step |
| `ClipPlayer.ItemIsFrame` | engine/src/engine/player.cpp:726-756 | the next decoded picture is the one its number stands for, but for the frames missed where the decoder started over, of which a file that has its last frame has none |
| `ClipPlayer.LoopNeedsItsLastFrame` | engine/src/engine/player.cpp:684-696 | in a loop the next picture of a decoder in step carries its own number exactly when the file has a frame from there to its count |
| `ClipPlayer.NextItemIsQueued` | engine/src/engine/player.cpp:684-757 | that picture is what the decoder queues: at once, or after the end of the file and frame 0 again |
| `ClipPlayer.ShortClipIsWrong` | engine/src/engine/player.cpp:684-866 | a run from the start in which grain 1 asks for frame 1 of a three-frame clip with one picture, and shows and sounds frame 0 |
| `ClipPlayer.Produce` | engine/src/engine/player.cpp:486-531 | the first frame number from the wanted one on, or the end of the file |
| `ClipPlayer.ClipPlayer.OpenClip` | engine/src/engine/player.cpp:917-927 | a new file replaces queue, still and transport under one lock |
| `ClipPlayer.ClipPlayer.CloseClip` | engine/src/engine/player.cpp:874-887 | nothing loaded |
| `ClipPlayer.ClipPlayer.Order` | engine/src/engine/player.cpp:929-951 | the transport's own commands |
| `ClipPlayer.ClipPlayer.AskFor` | engine/src/engine/player.cpp:803-812 | the first half of a grain: the step |
| `ClipPlayer.ClipPlayer.TakeFrame` | engine/src/engine/player.cpp:813-866 | the second half: the picture and the sound of that step |
| `ClipPlayer.ClipPlayer.LookAround` | engine/src/engine/player.cpp:618-633 | what is wanted, read under one lock |
| `ClipPlayer.ClipPlayer.SyncDecoder` | engine/src/engine/player.cpp:634-695 | new file, new generation, end of a loop |
| `ClipPlayer.ClipPlayer.DecodeNext` | engine/src/engine/player.cpp:726-757 | decodes, and queues only for the jump that is still wanted |
| `EngineThreads.NothingIsLost` | engine/src/engine/engine.cpp:209-266 | under any interleaving of input, render and writer thread the pool of latency + 2 + 3 + 1 frames always has one for the next grain; no slot is queued twice; the committed grains are the first rendered ones, each once and rising; every grain since the first is rendered or counted skipped |
| `EngineThreads.SlotKeepsItsFrame` | engine/src/engine/engine.cpp:2106-2116 | from its pick until the writer lets it go a slot's frame is neither replaced nor written to |
| `EngineThreads.EveryRunKeepsInv` | engine/src/engine/engine.cpp:2124-2288 | every step keeps the joint invariant |
| `EngineThreads.ApplyInv` | engine/src/engine/engine.cpp:2124-2288 | and a frame that is handed out is referenced by nobody |
| `FramePool.OneIsFree` | engine/src/engine/engine.cpp:965-968 | with depth + 3 + 1 frames one is free whenever the input thread holds none |
| `FramePool.OneLessIsTooFew` | engine/src/engine/engine.cpp:965-968 | with one frame less the first depth + 3 grains, the first three still being written, leave none for the next |
| `FramePool.PickIsTheGrain` | engine/src/engine/engine.cpp:1644-1679 | grain j if the ring has it, else the newest before it within the hold time, else nothing; of a source ahead its oldest |
| `FramePool.InputFrames.AcquireFrame` | engine/src/engine/engine.cpp:246-258 | a frame nobody references, always one with a large enough pool |
| `FramePool.InputFrames.PushGrain` | engine/src/engine/engine.cpp:1512-1540 | into the ring, its oldest out, released with their last reference |
| `FramePool.InputFrames.ClearRing` | engine/src/engine/engine.cpp:1618-1628 | a new route empties the ring |
| `FramePool.InputFrames.PickGrain` | engine/src/engine/engine.cpp:1647-1679 | the loop from the newest grain down |
| `FramePool.InputFrames.HoldGrain` | engine/src/engine/engine.cpp:2106-2116 | a slot holds the picked frame |
| `FramePool.InputFrames.LetGoOf` | engine/src/engine/engine.cpp:2283-2283 | the writer lets it go |
| `OutputGrains.ApplyInv` | engine/src/engine/engine.cpp:2124-2288 | slots, order and clock hold after every step of the two threads |
| `OutputGrains.StartClockOk` | engine/src/engine/engine.cpp:2124-2156 | with the clock going forward the next grain is never behind it and at most one ahead |
| `OutputGrains.Output.NextGrain` | engine/src/engine/engine.cpp:2124-2152 | the grain due, counting the skipped, dropped while its slot is written |
| `OutputGrains.Output.RenderDone` | engine/src/engine/engine.cpp:2153-2155 | the slot is busy with the grain |
| `OutputGrains.Output.HandOver` | engine/src/engine/engine.cpp:2157-2161 | queued for the writer |
| `OutputGrains.Output.TakeSlot` | engine/src/engine/engine.cpp:2861-2883 | the oldest queued slot |
| `OutputGrains.Output.CommitGrain` | engine/src/engine/engine.cpp:2204-2225 | its grain committed |
| `OutputGrains.Output.FreeSlot` | engine/src/engine/engine.cpp:2283-2287 | the slot is free again |
| `KeyFlows.SharedExactly` | engine/src/engine/engine.cpp:1555-1616 | two routed keyers share a slot exactly when they are routed to the same flow; a used slot reads its keyers' flow, an unused one nothing |
| `KeyFlows.OneIsFree` | engine/src/engine/engine.cpp:1584-1600 | a keyer without a slot leaves one free |
| `KeyFlows.KeyFlows.RouteKeyer` | engine/src/engine/engine.cpp:1555-1616 | the table fits the new wish, no other keyer moves, the same flow again changes nothing, frames are given to a slot only when all that have some are in use |
| `KeyFlows.KeyFlows.FreeSlot` | engine/src/engine/engine.cpp:1584-1600 | a slot no keyer uses, one with frames if there is one |
| `Tai.WindowIsWhereTheGrainStarts` | engine/src/core/tai.cpp:9-38 | a timestamp's index is at least i exactly when the timestamp is at least windowStart(i) |
| `Tai.RoundTripExactly` | engine/src/core/tai.cpp:9-27 | every grain's timestamp has that grain as its index exactly at rates of at most a grain a nanosecond |
| `Tai.GrainIsBounded` | engine/src/core/audio.cpp:44-48 | no grain is longer than the bound the delay lines are sized by, none ends before it starts |
| `Tai.NoHoleNoOverlap` | engine/src/engine/engine.cpp:2774-2795 | the PGM audio never writes a grain twice, and leaves none out exactly when no two jobs are more than 25 grains apart |
| `Tai.SamplesAreAnInterval` | engine/src/engine/engine.cpp:2531-2532 | consecutive grains are one interval of samples, each once |
| `Tai.PgmAudio.RunJob` | engine/src/engine/engine.cpp:2774-2795 | a job writes every grain since the last one |
| `DelayLine.DelayLine.Put` | engine/src/core/audiomix.cpp:188-206 | written anywhere: the ring then holds exactly the newest of these samples and those of the others whose places were not taken |
| `DelayLine.DelayLine.TakeSlice` | engine/src/engine/engine.cpp:2465-2476 | a slice of every channel put and committed: the line holds every sample from its start to its new end, the new ones and the old ones still in reach |
| `DelayLine.DelayLine.Begin` | engine/src/core/audiomix.cpp:178-186 | goes on, or is empty after a gap |
| `DelayLine.DelayLine.Commit` | engine/src/core/audiomix.cpp:208-219 | ends at the newest index and starts length samples before it, or where the history began |
| `DelayLine.DelayLine.Read` | engine/src/core/audiomix.cpp:226-245 | each sample is the one in the ring inside [start, end) and 0 outside; all of them are there when the line covers them without a hole |
| `DelayLine.DelayLine.ReadMapped` | engine/src/core/audiomix.cpp:247-261 | each row is its input channel's, or silence |
| `DelayLine.DelayLine.Reset` | engine/src/core/audiomix.cpp:168-176 | an empty line |
| `DelayLine.SlotsDiffer` | engine/src/core/audiomix.cpp:188-206 | samples less than a ring apart never share a place |
| `DelayLine.WindowIsHeld` | engine/src/core/audiomix.cpp:141-145 | a line of the engine's length, filled to a grain's end, holds the grain's window at any delay exactly when its history goes back as far |
| `DelayLine.ChannelMap` | engine/src/core/audiomix.cpp:147-164 | one to one, a mono input on all, or as mapped; anything else silent |
| `AudioMix.StripsNeverJump` | engine/src/core/audiomix.cpp:608-762 | over every run each strip ends a grain at the gain published for it and starts the next one there (within 1e-6), and so the master; but for a strip on both sides of a transition with AFV off |
| `AudioMix.GainsGoOn` | engine/src/core/audiomix.cpp:608-718 | the exact difference: that strip is heard twice, at the end and at the start alike |
| `AudioMix.NoJumpExactly` | engine/src/core/audiomix.cpp:608-718 | from one grain to the next a strip goes on where it ended exactly when it is silent, its AFV is on, or it is on both sides of a transition in both grains or in neither |
| `AudioMix.SelfMixJumps` | engine/src/core/audiomix.cpp:608-718 | an input mixed to itself with AFV off jumps where the Mix starts and where it has ended |
| `AudioMix.EveryRunStands` | engine/src/core/audiomix.cpp:474-763 | every run of plans and settings keeps what that needs |
| `AudioMix.SumIsOfStrips` | engine/src/core/audiomix.cpp:644-717 | the sum as the code makes it is every strip of the ME once, at its whole gain |
| `AudioMix.DefaultIsTheCrossfade` | engine/src/core/audiomix.cpp:67-78 | with default settings, no heard key and no fade every sample is the equal-power crossfade of A and B from tPrev to t, also when A is B or Black |
| `AudioMix.DefaultGoesOn` | engine/src/core/audiomix.cpp:608-718 | a default grain is followed by default grains while the plans go on: the transition, its end, its lever back at 0, its start |
| `AudioMix.DefaultStarts` | engine/src/core/audiomix.cpp:523-550 | the first grain is one |
| `AudioMix.OldProgramsAreNotHeard` | engine/src/core/audiomix.cpp:589-605 | MEs mixed from the highest down hear this grain's re-entered Programs; what the buffers held before is heard nowhere |
| `AudioMix.SampleGoesOn` | engine/src/core/audiomix.cpp:589-775 | each ME's sample is the one passed on to the MEs below |
| `AudioMix.CurveEnds` | engine/src/core/audiomix.cpp:44-97 | every curve starts at its first value and ends exactly at its second |
| `AudioMix.SmoothRamp` | engine/src/core/audiomix.cpp:44-55 | each sample on the S-shaped ramp |
| `AudioMix.LinearRamp` | engine/src/core/audiomix.cpp:57-65 | each sample on the line |
| `AudioMix.TransitionCurve` | engine/src/core/audiomix.cpp:67-78 | both sides of the crossfade |
| `AudioMix.CutCurve` | engine/src/core/audiomix.cpp:80-97 | a weight on the equal-power curve |
| `AudioMix.StripGain` | engine/src/core/audiomix.cpp:608-635 | level times AFV blend, per sample or one for all |
| `AudioMix.CrossfadeBlock` | engine/src/core/audio.cpp:21-29 | the simple crossfade of two sources |
| `AudioMix.MeMixer.Mix` | engine/src/core/audiomix.cpp:494-775 | the whole grain of an ME: every sample is strips, stinger, master and Fade to Black as specified, and the run stands where the next grain starts |
| `AudioMix.MeMixer.MixSides` | engine/src/core/audiomix.cpp:644-689 | A and B on the transition's curve, moved onto where they were |
| `AudioMix.MeMixer.MixOthers` | engine/src/core/audiomix.cpp:690-718 | every other strip with its weight, and where each ends |
| `V210.AccessorsAgree` | engine/src/core/pixel.hpp:66-102 | a sample read in place is the one unpacking its group gives, at every x |
| `V210.GroupRoundTrip` | engine/src/core/pixel.hpp:41-64 | a group of 10-bit samples survives packing |
| `V210.UnpackThenPack` | engine/src/core/pixel.hpp:41-64 | packing an unpacked group loses only the two top bits of each word |
| `V210.LumaRoundTrip` | engine/src/core/v210.cpp:16-71 | every luma sample of a packed line reads back, at any width |
| `V210.ChromaRoundTrip` | engine/src/core/v210.cpp:16-71 | and every Cb and Cr sample |
| `V210.PictureRoundTrip` | engine/src/core/v210.cpp:16-71 | packing a picture of 10-bit samples and unpacking it is the identity, at every width and height |
| `V210.PackV210` | engine/src/core/v210.cpp:44-71 | each line packed, zeros behind it |
| `V210.UnpackV210` | engine/src/core/v210.cpp:16-42 | each sample is the one read in place |
| `LinearPlanes.PlanesApart` | engine/src/core/dme.hpp:298-310 | the lines of the four planes never overlap and lie inside the buffer |
| `LinearPlanes.UnpackPixel` | engine/src/core/dme.hpp:368-381 | a pixel's samples and nothing else |
| `LinearPlanes.Unpack` | engine/src/core/dme.cpp:144-154 | the planes hold exactly what is fetched from the packed lines |
| `LinearPlanes.UnpackedReadsTheSame` | engine/src/core/dme.hpp:408-421 | every sample of the resample is the same from the packed lines and from the planes |
| `Dme.WindowFits` | engine/src/core/dme.hpp:169-177 | the filter window never holds more samples than there are taps, at most 32 |
| `Dme.RawSumIsPositive` | engine/src/core/dme.hpp:181-197 | the weights' sum that the code divides by is always positive |
| `Dme.WeightsSumToOne` | engine/src/core/dme.hpp:181-197 | the weights of every output sample sum to exactly 1 |
| `Dme.Weights` | engine/src/core/dme.hpp:181-197 | the two loops give each weight and the first tap |
| `Dme.MakeBox` | engine/src/core/dme.cpp:10-61 | crop inside the source on whole samples, buffer inside the raster, filter in range, the rows to compute; the whole raster for a centred uncropped size 1 |
| `Dme.FilterFits` | engine/src/core/dme.cpp:30-33 | the support and taps of any size fit the filter |
| `Dme.ColumnFits` | engine/src/core/dme.hpp:232-254 | every table entry, plane and source index of the horizontal pass is in bounds |
| `Dme.RowsFit` | engine/src/core/dme.cpp:53-61 | the rows computed lie in the crop and there is always one |
| `Dme.RowClampIsIdle` | engine/src/core/dme.hpp:423-437 | a row with weight is never moved by the clamp |
| `Dme.Resample` | engine/src/core/dme.cpp:106-142 | the two passes over the needed rows give what they would give over the whole crop |
| `Dme.HPass` | engine/src/core/dme.cpp:117-133 | the horizontal pass of every needed row |
| `Dme.WholeRasterIsTheSource` | engine/src/core/dme.cpp:106-142 | a size-1 centred uncropped box reproduces its opaque source exactly |
| `Meter.ChunkingDoesNotMatter` | engine/src/core/meter.cpp:194-238 | a contiguous stream leaves the same meter, and the same finished blocks, however it is cut into calls |
| `Meter.Run` | engine/src/core/meter.cpp:90-192 | a chunk in lanes and block filters leaves the channel as its samples one by one would, overs counted exactly |
| `Meter.FeedParts` | engine/src/core/meter.cpp:90-192 | peak, squares, K-weighting, history and true peak of a chunk are those of its samples |
| `Meter.TruePeak` | engine/src/core/meter.cpp:151-191 | the highest of the four phases over every window, with the carried history |
| `Meter.PeakAndSquares` | engine/src/core/meter.cpp:92-120 | the lanes give the chunk's peak and sum of squares |
| `Meter.Weigh` | engine/src/core/meter.cpp:132-150 | the K-weighting sample after sample |
| `Meter.NoOvers` | engine/src/core/meter.cpp:125-131 | below full scale nothing is over, so the gate skips none |
| `Meter.ChunkIs` | engine/src/core/meter.cpp:209-236 | samples up to the end of their block may go through each channel at once |
| `Meter.RingIsWindow` | engine/src/core/meter.cpp:242-268 | a ring's maximum and sum are those of the last 10 (or 30) finished blocks |
| `Meter.Newest4IsWindow` | engine/src/core/meter.cpp:288-297 | the slots taken for the momentary loudness are the last 4 blocks |
| `Meter.EndChannel` | engine/src/core/meter.cpp:244-276 | a channel's block and its last second as windows over the finished blocks |
| `Meter.EndPair` | engine/src/core/meter.cpp:281-302 | a pair's mean powers of the last 4 and 30 blocks |
| `Meter.Meter.AddSamples` | engine/src/core/meter.cpp:194-238 | the call gives what its samples one by one give, silence included, reports a finished block exactly when there is one, and then shows its levels and the pairs' loudness |
| `Meter.Meter.FinishBlock` | engine/src/core/meter.cpp:240-361 | the block is finished and every window moves on |
| `Meter.Meter.Restart` | engine/src/core/meter.cpp:196-206 | a jump in the index starts the block again |

## Left out

- Mixer.Mixer.CutOver: the code reads Preview and Program under one lock and takes under another; here both are one step, as `autoTransition` and `runHeld` are.
- Mixer.Mixer.ChangeKey: the caller's edit of the box is a function on the box; it cannot have other effects.
- MixerSkips.PlansFollowTheIndex: says nothing about the counters and the leftover step numbers of stopped runs, and, like the results per ME and per keyer, is about grains inside a transition that has started, because a skipped last grain shows later. A T-bar's plan follows its position, not the index.
- ClipPlayer.ShownIsAsked: that the decoder is in time is not modelled, and its failures are steps that queue nothing.
- Playout.ClipStaysOnTheTimeline: a clip that plays on cut is assumed not to be taken on air again after its end, which would start it again.
- Meter.Meter.FinishBlock: integrated loudness (the gated histogram) and decibels are not modelled; levels stay amplitudes and mean squares, and RMS its square.
- AudioMix.MeMixer.Mix: one channel of the sound; the code runs the same loops for each. A grain of no samples is not modelled. Settings are read once per grain, as the code copies them.
- Structures in a vector (the state of an ME, a keyer, a fade) are values in a sequence that the class replaces element by element.
- Planes, lines and tables are two-dimensional arrays, except the four float planes, whose offsets are modelled; a word's bytes are one value.
- Float rounding, the accuracy of libm and equality bit by bit with the GPU: arithmetic is real; cosine, sine, the S-shaped step and powers of ten are parameters, and the size between keyframes is the code's own series.
- 64-bit wrap-around, clock steps backwards, and sequences of grains that go back.
- Box settings between keyframes are not shown to stay in the ranges the commands check.
- The compose itself (wipes, colours, borders, shadows) and the coverage of box edges.
- CUDA, NVDEC, NVENC, FFmpeg, MXL, RTSP and HTTP calls; a read of a flow gives any result.
- Parsing, names, status JSON, statistics, the mosaic, frame grabs, recommended latency and the user interface.
