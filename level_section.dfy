/**
 * One level's section of the horizontal strip: its photo manifest (positioned
 * relative to the section's world offset), its background, subtitle overlay
 * and vignette.
 */
module LevelSection {
  import opened Wrappers
  import opened Levels
  import opened PhotoLayer

  function RevealPhoto(src: string, x: real, y: real, width: real, height: real, threshold: real): Photo {
    Photo(src, None, "reveal", x, Some(y), Some(width), Some(height), Some(threshold), None, None)
  }

  function ParallaxPhoto(src: string, x: real, y: real, width: real, height: real, depth: real): Photo {
    Photo(src, None, "parallax", x, Some(y), Some(width), Some(height), None, Some(depth), None)
  }

  /** The level ids the manifest has an entry for. */
  predicate HasManifest(id: string) {
    id == "chaos" || id == "constraint" || id == "displacement" || id == "reconstruction" || id == "light"
  }

  /** The photos of the level with id `id`, for a section placed at world x `offsetX`. */
  function PhotosByLevel(id: string, offsetX: real): (photos: seq<Photo>)
    ensures !HasManifest(id) ==> photos == []
    ensures HasManifest(id) ==> |photos| > 0
  {
    if id == "chaos" then [
      RevealPhoto("/images/oli1.jpg", offsetX + 300.0, 100.0, 500.0, 400.0, 450.0),
      ParallaxPhoto("/images/oli2.jpg", offsetX + 900.0, 250.0, 450.0, 350.0, 0.6),
      RevealPhoto("/images/oli3.jpg", offsetX + 1400.0, 50.0, 400.0, 300.0, 400.0)]
    else if id == "constraint" then [
      RevealPhoto("/images/oli4.jpg", offsetX + 400.0, 150.0, 350.0, 400.0, 350.0),
      ParallaxPhoto("/images/oli5.jpg", offsetX + 1000.0, 200.0, 400.0, 350.0, 0.4)]
    else if id == "displacement" then [
      ParallaxPhoto("/images/oli6.jpg", offsetX + 500.0, 100.0, 600.0, 400.0, 0.7),
      RevealPhoto("/images/oli7.jpg", offsetX + 1300.0, 250.0, 450.0, 300.0, 500.0)]
    else if id == "reconstruction" then [
      RevealPhoto("/images/oli8.jpg", offsetX + 400.0, 120.0, 500.0, 380.0, 400.0),
      ParallaxPhoto("/images/oli9.jpg", offsetX + 1100.0, 200.0, 450.0, 350.0, 0.5)]
    else if id == "light" then [
      ParallaxPhoto("/images/oli10.jpg", offsetX + 600.0, 80.0, 700.0, 450.0, 0.8),
      RevealPhoto("/images/oli11.jpg", offsetX + 1500.0, 150.0, 600.0, 400.0, 600.0)]
    else []
  }

  /** Moving the section moves every photo by the same amount and changes nothing else. */
  lemma PhotosShiftWithOffset(id: string, a: real, b: real)
    ensures |PhotosByLevel(id, a)| == |PhotosByLevel(id, b)|
    ensures forall i :: 0 <= i < |PhotosByLevel(id, a)| ==>
      PhotosByLevel(id, b)[i] == PhotosByLevel(id, a)[i].(x := PhotosByLevel(id, a)[i].x + (b - a))
  {
  }

  /** Every entry is a reveal with a positive threshold or a parallax with a depth in (0,1). */
  lemma ManifestWellFormed(id: string, offsetX: real)
    ensures forall p :: p in PhotosByLevel(id, offsetX) ==>
      (p.kind == "reveal" && p.revealThreshold.Some? && p.revealThreshold.value > 0.0) ||
      (p.kind == "parallax" && p.depth.Some? && 0.0 < p.depth.value < 1.0)
  {
  }

  /** Every level of the table has photos. */
  lemma EveryLevelHasPhotos(offsetX: real)
    ensures forall i :: 0 <= i < |LEVELS| ==> |PhotosByLevel(LEVELS[i].id, offsetX)| > 0
  {
  }

  const ACTIVE_OPACITY: real := 1.0
  const INACTIVE_OPACITY: real := 0.3

  /** What the section renders. */
  datatype SectionView = SectionView(
    left: real,
    width: real,
    backgroundOpacity: real,
    photos: seq<Element>,
    subtitleOverlay: Option<string>,
    vignette: Option<real>)

  /** The vignette overlay is rendered only for a truthy vignette, with that value as opacity. */
  function VignetteOverlay(visual: LevelVisual): (o: Option<real>)
    ensures o.Some? <==> visual.vignette.Some? && visual.vignette.value != 0.0
    ensures o.Some? ==> o.value == visual.vignette.value
  {
    match visual.vignette
    case Some(v) => if v != 0.0 then Some(v) else None
    case None => None
  }

  function Section(level: Level, offsetX: real, playerX: real, scrollPosition: real, isActive: bool): (v: SectionView)
    ensures v.left == offsetX && v.width == level.width
    ensures v.backgroundOpacity == (if isActive then ACTIVE_OPACITY else INACTIVE_OPACITY)
    ensures v.subtitleOverlay.Some? <==> isActive
    ensures isActive ==> v.subtitleOverlay == Some(level.subtitle)
    ensures |v.photos| == |PhotosByLevel(level.id, offsetX)|
    ensures forall i :: 0 <= i < |v.photos| ==>
              v.photos[i] == Render(PhotosByLevel(level.id, offsetX)[i], playerX, scrollPosition, Some(level.visual))
    ensures v.vignette.Some? <==> level.visual.vignette.Some? && level.visual.vignette.value != 0.0
    ensures v.vignette.Some? ==> v.vignette.value == level.visual.vignette.value
  {
    var photos := PhotosByLevel(level.id, offsetX);
    SectionView(
      offsetX,
      level.width,
      if isActive then ACTIVE_OPACITY else INACTIVE_OPACITY,
      Layer(photos, playerX, scrollPosition, Some(level.visual)),
      if isActive then Some(level.subtitle) else None,
      VignetteOverlay(level.visual))
  }

  /** On the real table only CONTRAINTE has a vignette, at opacity 0.8. */
  lemma OnlyConstraintVignette()
    ensures forall i :: 0 <= i < |LEVELS| ==>
      VignetteOverlay(LEVELS[i].visual) == (if LEVELS[i].id == "constraint" then Some(0.8) else None)
  {
  }
}
