/**
 * The horizontal strip: every level section placed at the sum of the widths
 * before it, the whole strip translated left by the world position, and the
 * section of the current level marked active.
 */
module HorizontalExperience {
  import opened Wrappers
  import opened Levels
  import opened LevelSection

  datatype LevelOffset = LevelOffset(level: Level, offset: real)

  /** Each level paired with the world x where its section starts. */
  method LevelOffsets(levels: seq<Level>) returns (offsets: seq<LevelOffset>)
    ensures |offsets| == |levels|
    ensures forall i :: 0 <= i < |levels| ==> offsets[i] == LevelOffset(levels[i], Prefix(levels, i))
  {
    var offset := 0.0;
    offsets := [];
    for i := 0 to |levels|
      invariant |offsets| == i
      invariant offset == Prefix(levels, i)
      invariant forall k :: 0 <= k < i ==> offsets[k] == LevelOffset(levels[k], Prefix(levels, k))
    {
      var current := offset;
      offset := offset + levels[i].width;
      offsets := offsets + [LevelOffset(levels[i], current)];
    }
  }

  /**
   * The offsets `LevelOffsets` returns start at 0, each is the previous one
   * plus the previous width, and they strictly increase: the sections tile
   * the strip without gaps or overlaps.
   */
  lemma {:induction false} OffsetsChain(levels: seq<Level>, offsets: seq<LevelOffset>, i: nat, j: nat)
    requires WidthsPositive(levels)
    requires |offsets| == |levels|
    requires forall k :: 0 <= k < |levels| ==> offsets[k] == LevelOffset(levels[k], Prefix(levels, k))
    requires i < j < |levels|
    ensures offsets[0].offset == 0.0
    ensures offsets[i + 1].offset == offsets[i].offset + offsets[i].level.width
    ensures offsets[i].offset < offsets[j].offset
  {
    PrefixStrictlyMonotone(levels, i, j);
  }

  /** The id of the current level (the last level's id past the end). */
  method ActiveLevel(levels: seq<Level>, horizontalPosition: real) returns (id: string)
    requires |levels| > 0
    ensures id == levels[LevelIndex(levels, horizontalPosition)].id
  {
    var accumulatedWidth := 0.0;
    var i := 0;
    while i < |levels|
      invariant 0 <= i <= |levels|
      invariant accumulatedWidth == Prefix(levels, i)
      invariant forall j :: 0 <= j < i ==> horizontalPosition >= RightEdge(levels, j)
    {
      if horizontalPosition < accumulatedWidth + levels[i].width {
        LevelIndexCharacterized(levels, horizontalPosition, i);
        return levels[i].id;
      }
      accumulatedWidth := accumulatedWidth + levels[i].width;
      i := i + 1;
    }
    LevelIndexCharacterized(levels, horizontalPosition, |levels| - 1);
    return levels[|levels| - 1].id;
  }

  /** Inside the world the active level is the one whose section spans the position. */
  lemma ActiveLevelSpansPosition(levels: seq<Level>, horizontalPosition: real)
    requires |levels| > 0 && WidthsPositive(levels)
    requires 0.0 <= horizontalPosition < TotalWidth(levels)
    ensures var k := LevelIndex(levels, horizontalPosition);
      Prefix(levels, k) <= horizontalPosition < Prefix(levels, k) + levels[k].width
  {
    LevelIndexContains(levels, horizontalPosition);
  }

  /**
   * The CSS translation of the strip, built as the text `translateX(-<pos>px)`.
   * For a negative position that text reads `--<n>px`, which is not a length:
   * the declaration is invalid and no translation comes from it (`None`).
   * Otherwise the strip moves left by exactly the position, never right.
   */
  function ContainerTranslateX(horizontalPosition: real): (dx: Option<real>)
    ensures dx.Some? <==> horizontalPosition >= 0.0
    ensures dx.Some? ==> dx.value <= 0.0 && dx.value + horizontalPosition == 0.0
  {
    if horizontalPosition < 0.0 then None else Some(-horizontalPosition)
  }

  /** The sections, in table order, each told whether it is the active one. */
  function Sections(offsets: seq<LevelOffset>, activeId: string, playerX: real, scrollPosition: real): (views: seq<SectionView>)
    ensures |views| == |offsets|
    ensures forall i :: 0 <= i < |offsets| ==>
      views[i] == Section(offsets[i].level, offsets[i].offset, playerX, scrollPosition, activeId == offsets[i].level.id)
    decreases |offsets|
  {
    if |offsets| == 0 then []
    else [Section(offsets[0].level, offsets[0].offset, playerX, scrollPosition, activeId == offsets[0].level.id)]
         + Sections(offsets[1..], activeId, playerX, scrollPosition)
  }

  /** With distinct ids, exactly one section is active: the one of the current level. */
  lemma ExactlyOneActive(levels: seq<Level>, offsets: seq<LevelOffset>, horizontalPosition: real,
                         playerX: real, scrollPosition: real)
    requires |levels| > 0 && IdsDistinct(levels)
    requires |offsets| == |levels|
    requires forall i :: 0 <= i < |levels| ==> offsets[i] == LevelOffset(levels[i], Prefix(levels, i))
    ensures var k := LevelIndex(levels, horizontalPosition);
      var views := Sections(offsets, levels[k].id, playerX, scrollPosition);
      forall i :: 0 <= i < |views| ==>
        (views[i].backgroundOpacity == ACTIVE_OPACITY <==> i == k) &&
        (views[i].subtitleOverlay.Some? <==> i == k)
  {
  }

  /** On screen, the active section covers the left edge of the viewport. */
  lemma ActiveSectionUnderViewportEdge(levels: seq<Level>, offsets: seq<LevelOffset>, horizontalPosition: real,
                                       playerX: real, scrollPosition: real)
    requires |levels| > 0 && WidthsPositive(levels)
    requires 0.0 <= horizontalPosition < TotalWidth(levels)
    requires |offsets| == |levels|
    requires forall i :: 0 <= i < |levels| ==> offsets[i] == LevelOffset(levels[i], Prefix(levels, i))
    ensures var k := LevelIndex(levels, horizontalPosition);
      var v := Sections(offsets, levels[k].id, playerX, scrollPosition)[k];
      var dx := ContainerTranslateX(horizontalPosition);
      dx.Some? && v.left + dx.value <= 0.0 < v.left + dx.value + v.width
  {
    LevelIndexContains(levels, horizontalPosition);
  }
}
