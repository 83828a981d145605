/**
 * The scroll-to-world mapping: the vertical scroll ratio, unclamped, times
 * the world width, held at or below the obstacle store's ceiling. Below the
 * ceiling the store is told the position reached.
 */
module HorizontalScroll {
  import opened Levels
  import opened ObstacleStore
  import opened ScrollProgress
  import RealArith

  /** `position`, cut down to the ceiling when it lies above it. */
  function Capped(position: real, ceiling: ExtReal): (r: real)
    ensures Below(r, ceiling)
    ensures Below(position, ceiling) ==> r == position
    ensures !Below(position, ceiling) ==> r == ceiling.value && r < position
  {
    if ceiling.Finite? && position > ceiling.value then ceiling.value else position
  }

  /** The emitted world position for a scroll offset, scrollable height and ceiling. */
  function ScrollPosition(scrollTop: real, docHeight: real, ceiling: ExtReal): real {
    Capped(RawProgress(scrollTop, docHeight) * TOTAL_WIDTH, ceiling)
  }

  /** The position never passes the ceiling, and equals the mapped ratio up to it. */
  lemma PositionUnderCeiling(scrollTop: real, docHeight: real, ceiling: ExtReal)
    ensures Below(ScrollPosition(scrollTop, docHeight, ceiling), ceiling)
    ensures ScrollPosition(scrollTop, docHeight, ceiling) == RawProgress(scrollTop, docHeight) * TOTAL_WIDTH
         || ScrollPosition(scrollTop, docHeight, ceiling) == ceiling.value
  {
  }

  /** With the initial `Infinity` ceiling nothing is cut: the position is the ratio times 10500. */
  lemma UnblockedIsExact(scrollTop: real, docHeight: real)
    ensures ScrollPosition(scrollTop, docHeight, Infinity) == RawProgress(scrollTop, docHeight) * 10500.0
  {
    TotalWidthIs10500();
  }

  /** Over a fixed positive scrollable height and a fixed ceiling, scrolling further never moves back. */
  lemma PositionMonotone(s1: real, s2: real, docHeight: real, ceiling: ExtReal)
    requires docHeight > 0.0 && s1 <= s2
    ensures ScrollPosition(s1, docHeight, ceiling) <= ScrollPosition(s2, docHeight, ceiling)
  {
    RawProgressMonotone(s1, s2, docHeight);
    TotalWidthIs10500();
    RealArith.MulMonotone(RawProgress(s1, docHeight), RawProgress(s2, docHeight), TOTAL_WIDTH);
  }

  /** The ratio is not clamped here: an offset of twice the height maps to twice the world. */
  lemma RatioNotClamped(docHeight: real)
    requires docHeight > 0.0
    ensures ScrollPosition(2.0 * docHeight, docHeight, Infinity) == 21000.0
  {
    TotalWidthIs10500();
    assert RawProgress(2.0 * docHeight, docHeight) == 2.0;
  }

  /** An event leaves the ceiling where it was: the store is only told positions at or below it. */
  lemma EventKeepsCeiling(s: State, scrollTop: real, docHeight: real)
    ensures var p := RawProgress(scrollTop, docHeight) * TOTAL_WIDTH;
      Below(p, s.maxScrollPosition) ==> AfterUpdateMaxScroll(s, p) == s
  {
  }

  /** The hook's state and the store it reads and updates. */
  class HorizontalScrollState {
    var horizontalPosition: real
    const store: Store

    constructor (store0: Store)
      ensures horizontalPosition == 0.0 && store == store0
    {
      horizontalPosition := 0.0;
      store := store0;
    }

    /** `handleScroll`, given the window's `scrollY`, `scrollHeight` and `innerHeight`. */
    method HandleScroll(scrollTop: real, scrollHeight: real, innerHeight: real)
      modifies this, store
      ensures horizontalPosition == ScrollPosition(scrollTop, scrollHeight - innerHeight, old(store.maxScrollPosition))
      ensures store.Snapshot() == old(store.Snapshot())
    {
      var docHeight := scrollHeight - innerHeight;
      var progress := if docHeight > 0.0 then scrollTop / docHeight else 0.0;
      var position := progress * TOTAL_WIDTH;
      var maxScrollPosition := store.maxScrollPosition;
      if maxScrollPosition.Finite? && position > maxScrollPosition.value {
        position := maxScrollPosition.value;
      } else {
        store.UpdateMaxScroll(position);
      }
      horizontalPosition := position;
    }
  }
}
