/** A photo that slides against the scroll direction in proportion to its depth. */
module PhotoParallax {

  const DEFAULT_SCROLL_POSITION: real := 0.0
  const DEFAULT_DEPTH: real := 0.5
  const PARALLAX_FACTOR: real := -0.3

  /** Horizontal translation of the photo, in pixels. */
  function ParallaxOffset(scrollPosition: real, depth: real): (offset: real)
    ensures scrollPosition == 0.0 || depth == 0.0 ==> offset == 0.0
    ensures scrollPosition > 0.0 && depth > 0.0 ==> offset < 0.0
    ensures scrollPosition < 0.0 && depth > 0.0 ==> offset > 0.0
  {
    scrollPosition * depth * PARALLAX_FACTOR
  }

  /** The offset is linear in the scroll position. */
  lemma ParallaxLinear(scrollPosition: real, depth: real, k: real)
    ensures ParallaxOffset(k * scrollPosition, depth) == k * ParallaxOffset(scrollPosition, depth)
  {
  }

  /** A deeper photo moves further for the same scroll. */
  lemma DeeperMovesFurther(scrollPosition: real, d1: real, d2: real)
    requires scrollPosition > 0.0 && d1 < d2
    ensures ParallaxOffset(scrollPosition, d2) < ParallaxOffset(scrollPosition, d1)
  {
  }

  lemma ParallaxDefaults()
    ensures ParallaxOffset(DEFAULT_SCROLL_POSITION, DEFAULT_DEPTH) == 0.0
  {
  }
}
