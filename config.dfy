/**
 * Build-time configuration of the visualizer (src/config.h together with the
 * audio constants of src/audio.h) and the two convenience macros CLAMP and LERP.
 */
module Config {
  // Display
  const SCREEN_WIDTH: int := 320
  const SCREEN_HEIGHT: int := 240
  const CENTER_Y: int := SCREEN_HEIGHT / 2

  // Bars
  const NUM_BARS: int := 64
  const BAR_WIDTH: int := SCREEN_WIDTH / NUM_BARS
  const MAX_BAR_HEIGHT: int := SCREEN_HEIGHT - 40
  const MIN_BAR_HEIGHT: int := 5

  // Animation
  const DAMPING_FACTOR: real := 0.85
  const RESPONSE_SPEED: real := 0.1

  // Colours, RGB565
  const COLOR_PURPLE: int := 0x801F
  const COLOR_PINK: int := 0xF81F
  const COLOR_TEAL: int := 0x07FF

  // Colour tiers
  const INTENSITY_LOW_THRESHOLD: real := 0.3
  const INTENSITY_HIGH_THRESHOLD: real := 0.7

  // Transform size as audio.c sees it: config.h is included after audio.h
  // and its definition (256) replaces audio.h's (512).
  const FFT_SIZE: int := 256
  const LOG2_FFT_SIZE: nat := 8

  // Audio constants of audio.h
  const BUFFER_SIZE: int := 1024
  const NUM_FREQUENCY_BINS: int := 64

  /** CLAMP(x, min, max): the value of x forced into [lo, hi]. */
  function Clamp(x: real, lo: real, hi: real): (r: real)
    ensures lo <= hi ==> lo <= r <= hi
    ensures lo <= x <= hi ==> r == x
    ensures x < lo ==> r == lo
    ensures hi < x && lo <= hi ==> r == hi
  {
    if x < lo then lo else if x > hi then hi else x
  }

  /** Clamping a value that is already clamped changes nothing. */
  lemma ClampIdempotent(x: real, lo: real, hi: real)
    requires lo <= hi
    ensures Clamp(Clamp(x, lo, hi), lo, hi) == Clamp(x, lo, hi)
  {
  }

  /** LERP(a, b, t): linear interpolation, exact over the reals. */
  function Lerp(a: real, b: real, t: real): (r: real)
    ensures t == 0.0 ==> r == a
    ensures t == 1.0 ==> r == b
  {
    a + t * (b - a)
  }

  /** The relations between the configuration constants that the bounds rely on. */
  lemma ConfigConsistent()
    ensures 0 < MIN_BAR_HEIGHT <= MAX_BAR_HEIGHT
    ensures INTENSITY_LOW_THRESHOLD < INTENSITY_HIGH_THRESHOLD
    ensures NUM_BARS * BAR_WIDTH == SCREEN_WIDTH
    ensures CENTER_Y * 2 == SCREEN_HEIGHT
    ensures MAX_BAR_HEIGHT / 2 <= CENTER_Y
    ensures 1 <= NUM_FREQUENCY_BINS <= FFT_SIZE / 2
  {
  }
}
