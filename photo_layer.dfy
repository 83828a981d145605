/**
 * The photo layer of a level section: one element per photo, in order,
 * chosen by the photo's `type` tag, with JavaScript `||` defaults for every
 * optional field (an absent field and a 0 both take the default).
 */
module PhotoLayer {
  import opened Wrappers
  import opened Levels

  const DEFAULT_WIDTH: real := 400.0
  const DEFAULT_HEIGHT: real := 300.0
  const DEFAULT_REVEAL_THRESHOLD: real := 400.0
  const DEFAULT_DEPTH: real := 0.5

  /** A photo entry; `kind` is the untyped `type` string of the manifest. */
  datatype Photo = Photo(
    src: string,
    alt: Option<string>,
    kind: string,
    x: real,
    y: Option<real>,
    width: Option<real>,
    height: Option<real>,
    revealThreshold: Option<real>,
    depth: Option<real>,
    className: Option<string>)

  datatype Box = Box(left: real, top: real, width: real, height: real)

  /** The CSS filter chain built from the level's visual profile. */
  datatype Filter = Filter(grayscale: real, blur: real, contrast: real, saturate: real, brightness: real)

  datatype Element =
    | RevealElement(src: string, alt: string, playerX: real, photoX: real, revealThreshold: real,
                    box: Box, filter: Filter, className: string)
    | ParallaxElement(src: string, alt: string, scrollPosition: real, depth: real,
                      box: Box, filter: Filter, className: string)
    | StaticElement(src: string, alt: string, box: Box, filter: Filter, className: string)

  /** `value || fallback` on an optional number. */
  function OrNumber(o: Option<real>, fallback: real): (r: real)
    ensures (o.None? || o.value == 0.0) ==> r == fallback
    ensures (o.Some? && o.value != 0.0) ==> r == o.value
  {
    match o
    case Some(v) => if v != 0.0 then v else fallback
    case None => fallback
  }

  /** `value || fallback` on an optional string (the empty string is falsy). */
  function OrString(o: Option<string>, fallback: string): (r: string)
    ensures (o.None? || o.value == "") ==> r == fallback
    ensures (o.Some? && o.value != "") ==> r == o.value
  {
    match o
    case Some(v) => if v != "" then v else fallback
    case None => fallback
  }

  /**
   * The filter for a level's visual profile; `None` stands for the `{}`
   * default, whose fields are all undefined.
   */
  function FilterOf(visual: Option<LevelVisual>): (f: Filter)
    ensures visual.None? ==> f == Filter(0.0, 0.0, 1.0, 1.0, 1.0)
    ensures visual.Some? ==>
      && f.grayscale == visual.value.grain
      && f.blur == visual.value.blur
      && f.contrast == (if visual.value.contrast == 0.0 then 1.0 else visual.value.contrast)
      && f.saturate == (if visual.value.saturation == 0.0 then 1.0 else visual.value.saturation)
      && f.brightness == OrNumber(visual.value.brightness, 1.0)
  {
    match visual
    case None => Filter(OrNumber(None, 0.0), OrNumber(None, 0.0), OrNumber(None, 1.0),
                        OrNumber(None, 1.0), OrNumber(None, 1.0))
    case Some(v) => Filter(OrNumber(Some(v.grain), 0.0), OrNumber(Some(v.blur), 0.0),
                           OrNumber(Some(v.contrast), 1.0), OrNumber(Some(v.saturation), 1.0),
                           OrNumber(v.brightness, 1.0))
  }

  function BoxOf(photo: Photo): Box {
    Box(photo.x, OrNumber(photo.y, 0.0), OrNumber(photo.width, DEFAULT_WIDTH), OrNumber(photo.height, DEFAULT_HEIGHT))
  }

  /** The element rendered for one photo. */
  function Render(photo: Photo, playerX: real, scrollPosition: real, visual: Option<LevelVisual>): (e: Element)
    ensures e.RevealElement? <==> photo.kind == "reveal"
    ensures e.ParallaxElement? <==> photo.kind == "parallax"
    ensures e.StaticElement? <==> photo.kind != "reveal" && photo.kind != "parallax"
    ensures e.src == photo.src && e.box.left == photo.x
    ensures e.box.width == (if photo.width.None? || photo.width.value == 0.0 then DEFAULT_WIDTH else photo.width.value)
    ensures e.box.height == (if photo.height.None? || photo.height.value == 0.0 then DEFAULT_HEIGHT else photo.height.value)
    ensures e.RevealElement? ==> e.photoX == photo.x && e.playerX == playerX
    ensures e.RevealElement? && (photo.revealThreshold.None? || photo.revealThreshold.value == 0.0) ==>
              e.revealThreshold == DEFAULT_REVEAL_THRESHOLD
    ensures e.ParallaxElement? && (photo.depth.None? || photo.depth.value == 0.0) ==> e.depth == DEFAULT_DEPTH
    ensures e.ParallaxElement? ==> e.scrollPosition == scrollPosition
    ensures e.RevealElement? && photo.revealThreshold.Some? && photo.revealThreshold.value != 0.0 ==>
              e.revealThreshold == photo.revealThreshold.value
    ensures e.ParallaxElement? && photo.depth.Some? && photo.depth.value != 0.0 ==> e.depth == photo.depth.value
    ensures e.box.top == (if photo.y.None? || photo.y.value == 0.0 then 0.0 else photo.y.value)
    ensures e.alt == (if photo.alt.None? || photo.alt.value == "" then "" else photo.alt.value)
    ensures e.className == (if photo.className.None? || photo.className.value == "" then "" else photo.className.value)
    ensures e.filter == FilterOf(visual)
  {
    var filter := FilterOf(visual);
    var alt := OrString(photo.alt, "");
    var className := OrString(photo.className, "");
    if photo.kind == "reveal" then
      RevealElement(photo.src, alt, playerX, OrNumber(Some(photo.x), 0.0),
                    OrNumber(photo.revealThreshold, DEFAULT_REVEAL_THRESHOLD), BoxOf(photo), filter, className)
    else if photo.kind == "parallax" then
      ParallaxElement(photo.src, alt, scrollPosition, OrNumber(photo.depth, DEFAULT_DEPTH),
                      BoxOf(photo), filter, className)
    else
      StaticElement(photo.src, alt, BoxOf(photo), filter, className)
  }

  /** The `photos.map(...)`: one element per photo, in the same order. */
  function Layer(photos: seq<Photo>, playerX: real, scrollPosition: real, visual: Option<LevelVisual>): (es: seq<Element>)
    ensures |es| == |photos|
    ensures forall i :: 0 <= i < |photos| ==> es[i] == Render(photos[i], playerX, scrollPosition, visual)
    decreases |photos|
  {
    if |photos| == 0 then []
    else [Render(photos[0], playerX, scrollPosition, visual)] + Layer(photos[1..], playerX, scrollPosition, visual)
  }

  /** A 0 contrast or saturation in a profile is rendered as 1: `||` treats 0 as missing. */
  lemma ZeroContrastBecomesOne(v: LevelVisual)
    requires v.contrast == 0.0 && v.saturation == 0.0
    ensures FilterOf(Some(v)).contrast == 1.0 && FilterOf(Some(v)).saturate == 1.0
  {
  }
}
