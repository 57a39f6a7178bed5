/** The values the mixer works on: sources, settings, the state of one ME and of one keyer, and the
    plans of one output grain (engine/src/core/mixer.hpp). */
module MixerTypes {
  import opened Wrappers
  import opened Keyframes

  /** A live input 1.., a clip player 1.., Black, or the re-entered Program of an ME. */
  datatype Source = Input(index: int) | Player(index: int) | Black | Reentry(index: int)

  datatype Transition = Cut | Mix | Wipe | Stinger

  datatype WipeSettings = WipeSettings(pattern: int, reverse: bool, soft: real, border: real, borderY: nat, borderCb: nat, borderCr: nat)

  const WIPE_CODES: seq<int> := [1, 2, 3, 4, 5, 6, 21, 22, 23, 24, 25, 26, 41, 42, 45, 46, 101, 102, 119, 201, 202, 203, 204]

  datatype TransitionSettings = TransitionSettings(kind: Transition, frames: int, wipe: WipeSettings, ties: seq<int>)

  /** A stinger player with its stinger's frames and cut frame; player 0 is no stinger. */
  datatype Sting = Sting(player: int, frames: int, cut: int)

  const NO_STING := Sting(0, 0, 0)
  const STINGER_WAIT := 50

  datatype KeySettings = KeySettings(luma: bool, pip: bool, source: Source, clip: real, soft: real, gain: real, invert: bool, fly: bool, dme: DmeSettings)

  datatype KeyerSpec = KeyerSpec(me: int, upstream: bool)

  // ---- plans -----------------------------------------------------------------------------------

  datatype MePlan = MePlan(
    me: int, a: Source, b: Source, t: real, tPrev: real, mixing: bool, wiping: bool, wipe: WipeSettings,
    stinger: int, stingerFrame: int, cutDone: bool, preview: Source, ftb: real, ftbPrev: real,
    keyed: seq<Source>, backgroundCovered: bool)
  {
    function Background(): Source {
      if stinger > 0 && cutDone then b else a
    }
  }

  datatype KeyPlan = KeyPlan(key: int, me: int, upstream: bool, gain: real, settings: KeySettings)

  datatype FramePlan = FramePlan(mes: seq<MePlan>, keys: seq<KeyPlan>)

  // ---- state -----------------------------------------------------------------------------------

  datatype Me = Me(
    program: Source, preview: Source, target: Source, after: Option<Source>,
    frames: int, pending: bool, mixing: bool, wiping: bool, wipe: WipeSettings,
    start: nat, position: int, from: real, manual: bool, t: real, tLast: real,
    sting: Sting, waiting: bool, next: TransitionSettings, heldMade: nat)
  {
    predicate Running() {
      pending || mixing
    }
  }

  /** A fade of a keyer or of an ME's Fade to Black. */
  datatype Fade = Fade(on: bool, from: real, to: real, gain: real, frames: int, pending: bool, running: bool, start: nat)

  /** Where a keyer's box is on its keyframes' path, and its run. */
  datatype BoxRun = BoxRun(
    onPath: bool, u: real, keyframe: int,
    pending: bool, active: bool, start: nat, step: nat, run: DmeRun, flying: bool)

  /** A keyer's tie to its ME's running transition (me 0: none). */
  datatype Tie = Tie(
    me: int, atCut: bool, fly: bool, from: real, to: real, gain0: real,
    onPath: bool, u0: real, u1: real, target: int, box: DmeSettings)

  datatype Keyer = Keyer(me: int, upstream: bool, settings: KeySettings, fade: Fade, keyframes: seq<Keyframe>, box: BoxRun, tie: Tie)
  {
    predicate Tied() {
      tie.me != 0
    }

    /** Tied to a Mix or Wipe whose box flies with it. */
    predicate TiedFly() {
      tie.me > 0 && tie.fly && !tie.atCut
    }

    predicate RunsNow() {
      box.pending || box.active
    }
  }

  datatype Deferred = Deferred(at: nat, target: Source, frames: int, preview: Option<Source>, kind: Transition, sting: Sting, ties: bool)

  /** What an ME's transition does to its tied keyers in one grain. */
  datatype TieStep = TieStep(active: bool, t: real, cut: bool, end: bool, back: bool)

  const NO_TIE_STEP := TieStep(false, 0.0, false, false, false)

  datatype MixResult = Ok | BadMe | BadSource | BadFrames | BadPattern | BadPosition | BadKey | BadDme | BadKeyframes | BadTies | Busy

  /** What the mixer is built for; none of it changes. */
  datatype Config = Config(mes: int, inputs: int, players: int, keyers: seq<KeyerSpec>)
  {
    predicate Ok() {
      mes >= 1 && inputs >= 0 && players >= 0 && forall k :: 0 <= k < |keyers| ==> 1 <= keyers[k].me <= mes
    }

    predicate ValidMe(me: int) {
      1 <= me <= mes
    }

    predicate ValidKey(key: int) {
      1 <= key <= |keyers|
    }

    /** ME m takes the inputs, the clip players, Black, and the Program of ME n only when n > m. */
    predicate SourceAllowed(me: int, source: Source) {
      && ValidMe(me)
      && match source
         case Input(i) => 1 <= i <= inputs
         case Player(i) => 1 <= i <= players
         case Black => true
         case Reentry(n) => me < n <= mes
    }

    /** Upstream keyers of ME me, each once. */
    predicate TiesValid(me: int, ties: seq<int>) {
      && (forall i :: 0 <= i < |ties| ==> ValidKey(ties[i]) && keyers[ties[i] - 1] == KeyerSpec(me, true))
      && (forall i, j :: 0 <= i < j < |ties| ==> ties[i] != ties[j])
    }
  }

  /** The mixer's whole state; `me` and the lists beside it are per ME, `keys` per keyer. */
  datatype St = St(me: seq<Me>, deferred: seq<Option<Deferred>>, keys: seq<Keyer>, ftbs: seq<Fade>, waits: nat, cuts: nat, played: nat)
}
