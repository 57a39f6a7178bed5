/** The equal-power crossfade and a stinger's background fade (engine/src/core/audio.cpp). Cosine and
    sine of the quarter turn are parameters: the code calls them only strictly inside (0, 1). */
module Crossfade {
  import opened RealMath

  /** cos and sin of t * 90 degrees for 0 < t < 1. */
  datatype Trig = Trig(cos: real -> real, sin: real -> real)

  datatype Gains = Gains(a: real, b: real)

  function CrossfadeAt(trig: Trig, t: real): Gains {
    if t <= 0.0 then Gains(1.0, 0.0)
    else if t >= 1.0 then Gains(0.0, 1.0)
    else Gains(trig.cos(t), trig.sin(t))
  }

  /** The t at the end of stinger frame f (of `frames`), the background switching at frame `cut`. */
  function StingerFadeT(f: int, cut: int, frames: int): real {
    if f < 0 then 0.0
    else if f >= frames - 1 then 1.0
    else
      var v := (f - cut + 3) as real / 4.0;
      if v < 0.0 then 0.0 else if v > 1.0 then 1.0 else v
  }

  /** The fade only rises, from 0 to exactly 1 at the last frame; before that it moves by at most a
      quarter a frame and only in the four frames around the cut point. */
  lemma StingerFadeShape(f: int, cut: int, frames: int)
    requires frames >= 1
    ensures 0.0 <= StingerFadeT(f - 1, cut, frames) <= StingerFadeT(f, cut, frames) <= 1.0
    ensures f >= frames - 1 && f >= 0 ==> StingerFadeT(f, cut, frames) == 1.0
    ensures f < frames - 1 ==> StingerFadeT(f, cut, frames) - StingerFadeT(f - 1, cut, frames) <= 0.25 || f == 0
    ensures 0 < f < frames - 1 && (f < cut - 2 || f > cut + 1) ==> StingerFadeT(f, cut, frames) == StingerFadeT(f - 1, cut, frames)
  {
    assert (f - cut + 3) as real == (f - 1 - cut + 3) as real + 1.0;
  }
}
