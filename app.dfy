/**
 * The top-level view: the current-level scan it runs on every render and the
 * `showEndScene` flag that latches once reading progress reaches 95%.
 */
module App {
  import opened Levels

  /** The level the world position falls in; the last level past the end of the world. */
  method GetCurrentLevel(levels: seq<Level>, horizontalPosition: real) returns (level: Level)
    requires |levels| > 0
    ensures level == levels[LevelIndex(levels, horizontalPosition)]
  {
    var accumulatedWidth := 0.0;
    for i := 0 to |levels|
      invariant accumulatedWidth == Prefix(levels, i)
      invariant forall j :: 0 <= j < i ==> horizontalPosition >= RightEdge(levels, j)
    {
      if horizontalPosition < accumulatedWidth + levels[i].width {
        LevelIndexCharacterized(levels, horizontalPosition, i);
        return levels[i];
      }
      accumulatedWidth := accumulatedWidth + levels[i].width;
    }
    LevelIndexCharacterized(levels, horizontalPosition, |levels| - 1);
    return levels[|levels| - 1];
  }

  /** On the real table: the first 2000 units are CHAOS, everything from 10500 on is LUMIÈRE. */
  lemma CurrentLevelOnTable(pos: real)
    ensures pos < 2000.0 ==> LEVELS[LevelIndex(LEVELS, pos)].id == "chaos"
    ensures pos >= TOTAL_WIDTH ==> LEVELS[LevelIndex(LEVELS, pos)].id == "light"
  {
    TableShape();
    if pos < 2000.0 {
      assert RightEdge(LEVELS, 0) == 2000.0;
      LevelIndexCharacterized(LEVELS, pos, 0);
    }
    if pos >= TOTAL_WIDTH {
      LevelIndexSaturates(LEVELS, pos);
    }
  }

  // ---------------------------------------------------------------------------
  // The end-scene latch

  const END_SCENE_PROGRESS: real := 0.95

  /** One run of the effect: the flag is set once progress reaches the threshold and never cleared. */
  function Latch(shown: bool, progress: real): bool {
    shown || progress >= END_SCENE_PROGRESS
  }

  /** The flag after a sequence of progress updates. */
  function LatchRun(shown: bool, progresses: seq<real>): bool
    decreases |progresses|
  {
    if |progresses| == 0 then shown else LatchRun(Latch(shown, progresses[0]), progresses[1..])
  }

  lemma {:induction false} LatchRunReached(shown: bool, progresses: seq<real>)
    ensures LatchRun(shown, progresses) <==>
      shown || exists i :: 0 <= i < |progresses| && progresses[i] >= END_SCENE_PROGRESS
    decreases |progresses|
  {
    if |progresses| > 0 {
      var rest := progresses[1..];
      LatchRunReached(Latch(shown, progresses[0]), rest);
      if exists i :: 0 <= i < |rest| && rest[i] >= END_SCENE_PROGRESS {
        var i :| 0 <= i < |rest| && rest[i] >= END_SCENE_PROGRESS;
        assert progresses[i + 1] == rest[i];
      }
      if exists i :: 0 <= i < |progresses| && progresses[i] >= END_SCENE_PROGRESS {
        var i :| 0 <= i < |progresses| && progresses[i] >= END_SCENE_PROGRESS;
        if i > 0 { assert rest[i - 1] == progresses[i]; }
      }
    }
  }

  /** Starting hidden, the end scene shows exactly when some update reached 0.95. */
  lemma EndSceneShownIffReached(progresses: seq<real>)
    ensures LatchRun(false, progresses) <==>
      exists i :: 0 <= i < |progresses| && progresses[i] >= END_SCENE_PROGRESS
  {
    LatchRunReached(false, progresses);
  }

  /** Once shown, no later sequence of updates hides it again. */
  lemma EndSceneNeverHidden(progresses: seq<real>)
    ensures LatchRun(true, progresses)
  {
    LatchRunReached(true, progresses);
  }

  /** The view's own state: the end-scene flag. */
  class AppState {
    var showEndScene: bool

    constructor ()
      ensures !showEndScene
    {
      showEndScene := false;
    }

    /** The effect that runs whenever `progress` changes. */
    method OnProgress(progress: real)
      modifies this
      ensures showEndScene == Latch(old(showEndScene), progress)
      ensures old(showEndScene) ==> showEndScene
    {
      if progress >= END_SCENE_PROGRESS {
        showEndScene := true;
      }
    }
  }
}
