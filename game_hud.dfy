/** The DOM overlay: progress bar, current-level label and the two hint lines. */
module GameHUD {
  import opened Levels

  /** The memoised current-level scan: the same saturating scan as the top-level view. */
  method CurrentLevel(levels: seq<Level>, horizontalPosition: real) returns (level: Level)
    requires |levels| > 0
    ensures level == levels[LevelIndex(levels, horizontalPosition)]
  {
    var accumulatedWidth := 0.0;
    for i := 0 to |levels|
      invariant accumulatedWidth == Prefix(levels, i)
      invariant forall j :: 0 <= j < i ==> horizontalPosition >= RightEdge(levels, j)
    {
      if horizontalPosition < accumulatedWidth + levels[i].width {
        LevelIndexCharacterized(levels, horizontalPosition, i);
        return levels[i];
      }
      accumulatedWidth := accumulatedWidth + levels[i].width;
    }
    LevelIndexCharacterized(levels, horizontalPosition, |levels| - 1);
    return levels[|levels| - 1];
  }

  /** Width of the progress bar, in percent of the screen. */
  function BarWidthPercent(progress: real): (w: real)
    ensures 0.0 <= progress <= 1.0 ==> 0.0 <= w <= 100.0
    ensures progress == 0.0 ==> w == 0.0
    ensures progress == 1.0 ==> w == 100.0
  {
    progress * 100.0
  }

  const HINT_SWITCH: real := 0.05

  /** "Scroll pour avancer" is shown. */
  predicate ShowsScrollHint(progress: real) {
    progress < HINT_SWITCH
  }

  /** "Attrape les étoiles" is shown. */
  predicate ShowsStarsHint(progress: real) {
    progress > HINT_SWITCH
  }

  /** At most one hint at a time; none at exactly 5%; exactly one everywhere else. */
  lemma HintsExclusive(progress: real)
    ensures !(ShowsScrollHint(progress) && ShowsStarsHint(progress))
    ensures progress == HINT_SWITCH ==> !ShowsScrollHint(progress) && !ShowsStarsHint(progress)
    ensures progress != HINT_SWITCH ==> ShowsScrollHint(progress) || ShowsStarsHint(progress)
  {
  }

  /** With the default props (progress 0, position 0): the first level and the scroll hint. */
  lemma HudDefaults()
    ensures LevelIndex(LEVELS, 0.0) == 0
    ensures ShowsScrollHint(0.0) && !ShowsStarsHint(0.0)
  {
    assert RightEdge(LEVELS, 0) == 2000.0;
    LevelIndexCharacterized(LEVELS, 0.0, 0);
  }
}
