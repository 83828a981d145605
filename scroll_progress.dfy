/**
 * Reading progress: the vertical scroll offset as a fraction of the
 * scrollable height, clamped to [0,1]. The window's `scrollY`,
 * `scrollHeight` and `innerHeight` are parameters.
 */
module ScrollProgress {

  /** `docHeight > 0 ? scrollTop / docHeight : 0`, unclamped. */
  function RawProgress(scrollTop: real, docHeight: real): (r: real)
    ensures docHeight <= 0.0 ==> r == 0.0
    ensures docHeight > 0.0 ==> r * docHeight == scrollTop
  {
    if docHeight > 0.0 then scrollTop / docHeight else 0.0
  }

  /** `Math.min(Math.max(v, 0), 1)`. */
  function Clamp01(v: real): (r: real)
    ensures 0.0 <= r <= 1.0
    ensures 0.0 <= v <= 1.0 ==> r == v
    ensures v < 0.0 ==> r == 0.0
    ensures v > 1.0 ==> r == 1.0
  {
    var low := if v > 0.0 then v else 0.0;
    if low < 1.0 then low else 1.0
  }

  /** The published progress. */
  function Progress(scrollTop: real, docHeight: real): (r: real)
    ensures 0.0 <= r <= 1.0
    ensures docHeight <= 0.0 ==> r == 0.0
    ensures 0.0 <= RawProgress(scrollTop, docHeight) <= 1.0 ==> r == RawProgress(scrollTop, docHeight)
  {
    Clamp01(RawProgress(scrollTop, docHeight))
  }

  /** Over a fixed positive scrollable height, a larger offset never means less progress. */
  lemma RawProgressMonotone(s1: real, s2: real, docHeight: real)
    requires docHeight > 0.0 && s1 <= s2
    ensures RawProgress(s1, docHeight) <= RawProgress(s2, docHeight)
  {
    var r1, r2 := RawProgress(s1, docHeight), RawProgress(s2, docHeight);
    if r1 > r2 {
      assert false;
    }
  }

  lemma ProgressMonotone(s1: real, s2: real, docHeight: real)
    requires docHeight > 0.0 && s1 <= s2
    ensures Progress(s1, docHeight) <= Progress(s2, docHeight)
  {
    RawProgressMonotone(s1, s2, docHeight);
  }

  /** Scrolled to the very bottom, progress is 1; above the top (overscroll), 0. */
  lemma ProgressEnds(scrollTop: real, docHeight: real)
    requires docHeight > 0.0
    ensures scrollTop >= docHeight ==> Progress(scrollTop, docHeight) == 1.0
    ensures scrollTop <= 0.0 ==> Progress(scrollTop, docHeight) == 0.0
  {
    if scrollTop >= docHeight {
      RawProgressMonotone(docHeight, scrollTop, docHeight);
      assert RawProgress(docHeight, docHeight) == 1.0;
    }
    if scrollTop <= 0.0 {
      RawProgressMonotone(scrollTop, 0.0, docHeight);
      assert RawProgress(0.0, docHeight) == 0.0;
    }
  }

  /** The hook's two pieces of state. */
  class ScrollState {
    var progress: real
    var scrollY: real

    constructor ()
      ensures progress == 0.0 && scrollY == 0.0
    {
      progress, scrollY := 0.0, 0.0;
    }

    /** `handleScroll`: record the raw offset and the clamped progress. */
    method HandleScroll(scrollTop: real, scrollHeight: real, innerHeight: real)
      modifies this
      ensures scrollY == scrollTop
      ensures progress == Progress(scrollTop, scrollHeight - innerHeight)
    {
      var docHeight := scrollHeight - innerHeight;
      var scrollProgress := if docHeight > 0.0 then scrollTop / docHeight else 0.0;
      scrollY := scrollTop;
      progress := Clamp01(scrollProgress);
    }
  }
}
