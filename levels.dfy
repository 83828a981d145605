/**
 * The static level table of the experience (five narrative levels laid end to
 * end along the world axis) and the cumulative-width arithmetic that every
 * "which level am I in" scan is specified against.
 */
module Levels {
  import opened Wrappers

  datatype LevelPhysics = LevelPhysics(
    friction: real,
    gravity: real,
    turbulence: real,
    maxSpeed: real,
    stabilityFactor: real,
    forceFields: Option<bool>,
    invertGravity: Option<bool>)

  datatype LevelVisual = LevelVisual(
    grain: real,
    blur: real,
    contrast: real,
    saturation: real,
    vignette: Option<real>,
    drift: Option<bool>,
    brightness: Option<real>)

  datatype Level = Level(
    id: string,
    name: string,
    color: string,
    title: string,
    subtitle: string,
    physics: LevelPhysics,
    visual: LevelVisual,
    width: real)

  /** The level table, in world order. */
  const LEVELS: seq<Level> := [
    Level("chaos", "CHAOS", "#e8e8f0", "Naître dans le bruit.", "Tamil Eelam, 2004-2009",
          LevelPhysics(0.92, 0.3, 0.8, 4.0, 0.3, None, None),
          LevelVisual(0.8, 4.0, 0.6, 0.4, None, None, None),
          2000.0),
    Level("constraint", "CONTRAINTE", "#ffffff", "Tenir dans le noir.", "3 ans",
          LevelPhysics(0.85, 0.15, 0.5, 3.0, 0.4, Some(true), None),
          LevelVisual(0.6, 2.0, 0.7, 0.3, Some(0.8), None, None),
          1800.0),
    Level("displacement", "DÉPLACEMENT", "#ffffff", "Trouver une sortie.", "Inde → France, 2014",
          LevelPhysics(0.88, 0.2, 0.6, 5.0, 0.5, None, Some(true)),
          LevelVisual(0.5, 1.0, 0.8, 0.5, None, Some(true), None),
          2200.0),
    Level("reconstruction", "RECONSTRUCTION", "#ffffff", "Recommencer. Respirer.", "France, apprentissage",
          LevelPhysics(0.94, 0.05, 0.3, 6.0, 0.7, None, None),
          LevelVisual(0.3, 0.5, 0.9, 0.7, None, None, None),
          2000.0),
    Level("light", "LUMIÈRE", "#f4c542", "Courir vers la lumière.", "Football professionnel",
          LevelPhysics(0.96, 0.0, 0.1, 8.0, 0.9, None, None),
          LevelVisual(0.1, 0.0, 1.0, 1.0, None, None, Some(1.2)),
          2500.0)
  ]

  /** Sum of the widths of the first `i` levels: the world x at which level `i` starts. */
  function Prefix(levels: seq<Level>, i: nat): real
    requires i <= |levels|
  {
    if i == 0 then 0.0 else Prefix(levels, i - 1) + levels[i - 1].width
  }

  /** World x at which level `i` ends (exclusive): the start of level i+1. */
  function RightEdge(levels: seq<Level>, i: nat): real
    requires i < |levels|
  {
    Prefix(levels, i + 1)
  }

  /** The left-to-right sum of all widths (the `reduce` over the table). */
  function TotalWidth(levels: seq<Level>): real {
    Prefix(levels, |levels|)
  }

  const TOTAL_WIDTH: real := TotalWidth(LEVELS)

  ghost predicate WidthsPositive(levels: seq<Level>) {
    forall i :: 0 <= i < |levels| ==> levels[i].width > 0.0
  }

  ghost predicate IdsDistinct(levels: seq<Level>) {
    forall i, j :: 0 <= i < |levels| && 0 <= j < |levels| && i != j ==> levels[i].id != levels[j].id
  }

  /**
   * The saturating scan: starting at level `i`, the first level whose right
   * edge lies strictly beyond `pos`; the last level when there is none.
   */
  function ScanFrom(levels: seq<Level>, pos: real, i: nat): (k: nat)
    requires i < |levels|
    ensures i <= k < |levels|
    decreases |levels| - i
  {
    if i == |levels| - 1 || pos < RightEdge(levels, i) then i else ScanFrom(levels, pos, i + 1)
  }

  /** Index of the current level for world position `pos` (last level past the end). */
  function LevelIndex(levels: seq<Level>, pos: real): (k: nat)
    requires |levels| > 0
    ensures k < |levels|
  {
    ScanFrom(levels, pos, 0)
  }

  /** The scan without a fallback: `None` when no level's right edge lies beyond `pos`. */
  function ScanNoFallback(levels: seq<Level>, pos: real, i: nat): (k: Option<nat>)
    requires i <= |levels|
    ensures k.Some? ==> i <= k.value < |levels| && pos < RightEdge(levels, k.value)
    decreases |levels| - i
  {
    if i == |levels| then None
    else if pos < RightEdge(levels, i) then Some(i)
    else ScanNoFallback(levels, pos, i + 1)
  }

  // ---------------------------------------------------------------------------
  // Properties of the table

  lemma TotalWidthIs10500()
    ensures TOTAL_WIDTH == 10500.0
  {
    assert Prefix(LEVELS, 1) == 2000.0;
    assert Prefix(LEVELS, 2) == 3800.0;
    assert Prefix(LEVELS, 3) == 6000.0;
    assert Prefix(LEVELS, 4) == 8000.0;
  }

  lemma TableShape()
    ensures |LEVELS| == 5
    ensures WidthsPositive(LEVELS)
    ensures IdsDistinct(LEVELS)
  {
  }

  lemma PhysicsInRange()
    ensures forall i :: 0 <= i < |LEVELS| ==>
      && 0.0 < LEVELS[i].physics.friction < 1.0
      && 0.0 <= LEVELS[i].physics.stabilityFactor <= 1.0
      && LEVELS[i].physics.gravity >= 0.0
      && LEVELS[i].physics.turbulence >= 0.0
      && LEVELS[i].physics.maxSpeed > 0.0
  {
  }

  lemma OptionalFlags()
    ensures forall i :: 0 <= i < |LEVELS| ==>
      (LEVELS[i].physics.forceFields.Some? <==> LEVELS[i].id == "constraint")
    ensures forall i :: 0 <= i < |LEVELS| ==>
      (LEVELS[i].physics.invertGravity.Some? <==> LEVELS[i].id == "displacement")
  {
  }

  // ---------------------------------------------------------------------------
  // Prefix sums

  lemma {:induction false} PrefixMonotone(levels: seq<Level>, i: nat, j: nat)
    requires i <= j <= |levels|
    requires forall k :: 0 <= k < |levels| ==> levels[k].width >= 0.0
    ensures Prefix(levels, i) <= Prefix(levels, j)
  {
    if i < j {
      PrefixMonotone(levels, i, j - 1);
    }
  }

  lemma {:induction false} PrefixStrictlyMonotone(levels: seq<Level>, i: nat, j: nat)
    requires i < j <= |levels|
    requires WidthsPositive(levels)
    ensures Prefix(levels, i) < Prefix(levels, j)
  {
    if i < j - 1 {
      PrefixStrictlyMonotone(levels, i, j - 1);
    }
  }

  // ---------------------------------------------------------------------------
  // The saturating scan

  /** What the scan returns: no earlier level contains `pos`, and either this one does or it is the last. */
  lemma {:induction false} ScanFromIsFirst(levels: seq<Level>, pos: real, i: nat)
    requires i < |levels|
    ensures var k := ScanFrom(levels, pos, i);
      && (forall j :: i <= j < k ==> pos >= RightEdge(levels, j))
      && (pos < RightEdge(levels, k) || k == |levels| - 1)
    decreases |levels| - i
  {
    if !(i == |levels| - 1 || pos < RightEdge(levels, i)) {
      ScanFromIsFirst(levels, pos, i + 1);
    }
  }

  /** The characterisation of the scan, in the other direction: it pins the index down. */
  lemma {:induction false} ScanFromCharacterized(levels: seq<Level>, pos: real, i: nat, k: nat)
    requires i <= k < |levels|
    requires forall j :: i <= j < k ==> pos >= RightEdge(levels, j)
    requires pos < RightEdge(levels, k) || k == |levels| - 1
    ensures ScanFrom(levels, pos, i) == k
    decreases k - i
  {
    if i < k {
      assert pos >= RightEdge(levels, i);
      ScanFromCharacterized(levels, pos, i + 1, k);
    }
  }

  lemma LevelIndexIsFirst(levels: seq<Level>, pos: real)
    requires |levels| > 0
    ensures var k := LevelIndex(levels, pos);
      && (forall j :: 0 <= j < k ==> pos >= RightEdge(levels, j))
      && (pos < RightEdge(levels, k) || k == |levels| - 1)
  {
    ScanFromIsFirst(levels, pos, 0);
  }

  lemma LevelIndexCharacterized(levels: seq<Level>, pos: real, k: nat)
    requires k < |levels|
    requires forall j :: 0 <= j < k ==> pos >= RightEdge(levels, j)
    requires pos < RightEdge(levels, k) || k == |levels| - 1
    ensures LevelIndex(levels, pos) == k
  {
    ScanFromCharacterized(levels, pos, 0, k);
  }

  /** At or past the total width the scan saturates to the last level. */
  lemma LevelIndexSaturates(levels: seq<Level>, pos: real)
    requires |levels| > 0
    requires forall k :: 0 <= k < |levels| ==> levels[k].width >= 0.0
    requires pos >= TotalWidth(levels)
    ensures LevelIndex(levels, pos) == |levels| - 1
  {
    forall j | 0 <= j < |levels| - 1
      ensures pos >= RightEdge(levels, j)
    {
      PrefixMonotone(levels, j + 1, |levels|);
    }
    LevelIndexCharacterized(levels, pos, |levels| - 1);
  }

  /** A position exactly on the boundary between levels i and i+1 belongs to level i+1. */
  lemma LevelIndexAtBoundary(levels: seq<Level>, i: nat)
    requires i + 1 < |levels|
    requires WidthsPositive(levels)
    ensures LevelIndex(levels, RightEdge(levels, i)) == i + 1
  {
    var pos := RightEdge(levels, i);
    forall j | 0 <= j < i + 1
      ensures pos >= RightEdge(levels, j)
    {
      if j < i { PrefixStrictlyMonotone(levels, j + 1, i + 1); }
    }
    PrefixStrictlyMonotone(levels, i + 1, i + 2);
    LevelIndexCharacterized(levels, pos, i + 1);
  }

  /** Any position left of the world (negative) is in the first level. */
  lemma LevelIndexNegative(levels: seq<Level>, pos: real)
    requires |levels| > 0
    requires levels[0].width > 0.0
    requires pos < 0.0
    ensures LevelIndex(levels, pos) == 0
  {
    assert Prefix(levels, 0) == 0.0;
    assert RightEdge(levels, 0) == Prefix(levels, 0) + levels[0].width;
    LevelIndexCharacterized(levels, pos, 0);
  }

  /** Inside the world the index found is the level whose span contains `pos`. */
  lemma LevelIndexContains(levels: seq<Level>, pos: real)
    requires |levels| > 0
    requires forall k :: 0 <= k < |levels| ==> levels[k].width >= 0.0
    requires 0.0 <= pos < TotalWidth(levels)
    ensures var k := LevelIndex(levels, pos);
      Prefix(levels, k) <= pos < Prefix(levels, k) + levels[k].width
  {
    var k := LevelIndex(levels, pos);
    LevelIndexIsFirst(levels, pos);
    if k == |levels| - 1 {
      assert pos < RightEdge(levels, k);
    }
    if k > 0 {
      assert pos >= RightEdge(levels, k - 1);
    }
  }

  /** A larger position never yields an earlier level. */
  lemma LevelIndexMonotone(levels: seq<Level>, p: real, q: real)
    requires |levels| > 0
    requires p <= q
    ensures LevelIndex(levels, p) <= LevelIndex(levels, q)
  {
    var kp, kq := LevelIndex(levels, p), LevelIndex(levels, q);
    LevelIndexIsFirst(levels, p);
    LevelIndexIsFirst(levels, q);
  }

  // ---------------------------------------------------------------------------
  // The scan without fallback

  lemma {:induction false} ScanNoFallbackAgrees(levels: seq<Level>, pos: real, i: nat)
    requires i < |levels|
    requires forall k :: 0 <= k < |levels| ==> levels[k].width >= 0.0
    ensures pos < TotalWidth(levels) ==> ScanNoFallback(levels, pos, i) == Some(ScanFrom(levels, pos, i))
    ensures pos >= TotalWidth(levels) ==> ScanNoFallback(levels, pos, i) == None
    decreases |levels| - i
  {
    PrefixMonotone(levels, i + 1, |levels|);
    if i < |levels| - 1 && !(pos < RightEdge(levels, i)) {
      ScanNoFallbackAgrees(levels, pos, i + 1);
    } else if i == |levels| - 1 && !(pos < RightEdge(levels, i)) {
      assert ScanNoFallback(levels, pos, i + 1) == None;
    }
  }

  /** Both scans agree inside the world; past the end only the saturating one answers. */
  lemma NoFallbackVersusSaturating(levels: seq<Level>, pos: real)
    requires |levels| > 0
    requires forall k :: 0 <= k < |levels| ==> levels[k].width >= 0.0
    ensures pos < TotalWidth(levels) ==> ScanNoFallback(levels, pos, 0) == Some(LevelIndex(levels, pos))
    ensures pos >= TotalWidth(levels) ==> ScanNoFallback(levels, pos, 0) == None
  {
    ScanNoFallbackAgrees(levels, pos, 0);
  }

  // ---------------------------------------------------------------------------
  // The two-level scenario: widths 100 and 50

  lemma TwoLevelScenario(a: Level, b: Level)
    requires a.width == 100.0 && b.width == 50.0
    ensures LevelIndex([a, b], 99.0) == 0
    ensures LevelIndex([a, b], 100.0) == 1
    ensures LevelIndex([a, b], 151.0) == 1
  {
    var t := [a, b];
    assert Prefix(t, 1) == 100.0;
    assert Prefix(t, 2) == 150.0;
  }
}
