/**
 * The per-frame simulation state behind the game canvas: the current level,
 * the ambient particles, the player's vertical position and trail, the photo
 * reveal progress, the collectibles and score, the interactive zones and the
 * visual effects. Drawing is not modelled; random draws, `Math.pow(., 1.2)`,
 * the `Math.sin` wobble (in [-10, 10]) and the cursor blink are parameters.
 */
module GameCanvas {
  import opened Wrappers
  import opened Levels
  import RealArith

  datatype Point = Point(x: real, y: real)

  datatype Particle = Particle(x: real, y: real, size: real, speedX: real, speedY: real,
                               opacity: real, color: string)

  datatype CollectibleKind = Star | Memory | Heart

  datatype Collectible = Collectible(id: string, worldX: real, worldY: real, kind: CollectibleKind,
                                     collected: bool, floatOffset: real, glowIntensity: real)

  datatype ZoneKind = Wind | Gravity | Bounce | Slow

  datatype InteractiveZone = InteractiveZone(id: string, worldX: real, worldY: real, width: real,
                                             height: real, kind: ZoneKind, strength: real, active: bool)

  datatype EffectKind = Explosion | Sparkle | Ripple | Collect

  datatype EffectParticle = EffectParticle(x: real, y: real, vx: real, vy: real, size: real, color: string)

  datatype VisualEffect = VisualEffect(id: string, x: real, y: real, kind: EffectKind,
                                       life: int, maxLife: int, particles: seq<EffectParticle>)

  datatype Side = Left | Right

  datatype BackgroundPhoto = BackgroundPhoto(id: string, worldX: real, worldY: real, imageUrl: string,
                                             text: string, title: string, side: Side,
                                             width: real, height: real, revealProgress: real)

  /** The collectibles the canvas starts with. */
  const INITIAL_COLLECTIBLES: seq<Collectible> := [
    Collectible("s1", 500.0, 150.0, Star, false, 0.0, 1.0),
    Collectible("m1", 1200.0, 200.0, Memory, false, 0.0, 1.0),
    Collectible("h1", 2000.0, 180.0, Heart, false, 0.0, 1.0),
    Collectible("s2", 2800.0, 220.0, Star, false, 0.0, 1.0),
    Collectible("m2", 3600.0, 160.0, Memory, false, 0.0, 1.0),
    Collectible("h2", 4400.0, 190.0, Heart, false, 0.0, 1.0),
    Collectible("s3", 5200.0, 170.0, Star, false, 0.0, 1.0)
  ]

  /** The interactive zones the canvas starts with. */
  const INITIAL_ZONES: seq<InteractiveZone> := [
    InteractiveZone("w1", 800.0, 200.0, 200.0, 300.0, Wind, 1.0, false),
    InteractiveZone("g1", 2200.0, 250.0, 150.0, 250.0, Gravity, 1.5, false),
    InteractiveZone("b1", 3800.0, 200.0, 180.0, 280.0, Bounce, 2.0, false),
    InteractiveZone("s1", 4800.0, 220.0, 200.0, 300.0, Slow, 0.5, false)
  ]

  // ---------------------------------------------------------------------------
  // The level effect: the scan without a fallback

  /** The level after the effect runs: the level containing `pos`, or `current` past the end. */
  function LevelAfterEffect(current: Level, pos: real): (l: Level)
    ensures pos < TOTAL_WIDTH ==> l == LEVELS[LevelIndex(LEVELS, pos)]
    ensures pos >= TOTAL_WIDTH ==> l == current
  {
    TableShape();
    NoFallbackVersusSaturating(LEVELS, pos);
    match ScanNoFallback(LEVELS, pos, 0)
    case Some(k) => LEVELS[k]
    case None => current
  }

  // ---------------------------------------------------------------------------
  // Ambient particles

  const PARTICLE_DRIFT: real := 1.0
  const PARTICLE_WRAP: real := 10.0

  /**
   * One particle for one frame: it drifts left by one unit on top of its own
   * speed; once it is more than 10 units off the left edge it re-enters 10
   * units past the right edge at height `randomY * height`.
   */
  function StepParticle(p: Particle, width: real, height: real, randomY: real, color: string): (q: Particle)
    requires 0.0 <= randomY < 1.0
    ensures q.(x := p.x, y := p.y, color := p.color) == p
    ensures q.color == color
    ensures p.x + p.speedX - PARTICLE_DRIFT >= -PARTICLE_WRAP ==>
              q.x == p.x + p.speedX - PARTICLE_DRIFT && q.y == p.y + p.speedY
    ensures p.x + p.speedX - PARTICLE_DRIFT < -PARTICLE_WRAP ==>
              q.x == width + PARTICLE_WRAP && (height > 0.0 ==> 0.0 <= q.y < height)
    ensures width >= 0.0 ==> q.x >= -PARTICLE_WRAP
  {
    var x := p.x + p.speedX - PARTICLE_DRIFT;
    var y := p.y + p.speedY;
    if x < -PARTICLE_WRAP then
      if height > 0.0 then RealArith.FracScale(randomY, height); p.(x := width + PARTICLE_WRAP, y := randomY * height, color := color)
      else p.(x := width + PARTICLE_WRAP, y := randomY * height, color := color)
    else
      p.(x := x, y := y, color := color)
  }

  /** Every particle stepped, each with its own re-entry draw. */
  function StepParticles(ps: seq<Particle>, width: real, height: real, randomYs: seq<real>, color: string): (r: seq<Particle>)
    requires |randomYs| == |ps| && forall i :: 0 <= i < |randomYs| ==> 0.0 <= randomYs[i] < 1.0
    ensures |r| == |ps|
    ensures forall i :: 0 <= i < |ps| ==> r[i] == StepParticle(ps[i], width, height, randomYs[i], color)
  {
    seq(|ps|, i requires 0 <= i < |ps| => StepParticle(ps[i], width, height, randomYs[i], color))
  }

  /** A particle inside the band [-10, width+10] stays inside it, and moves left unless it wraps. */
  lemma ParticleStaysInBand(p: Particle, width: real, height: real, randomY: real, color: string)
    requires 0.0 <= randomY < 1.0 && width >= 0.0
    requires -PARTICLE_WRAP <= p.x <= width + PARTICLE_WRAP && p.speedX < PARTICLE_DRIFT
    ensures var q := StepParticle(p, width, height, randomY, color);
      && -PARTICLE_WRAP <= q.x <= width + PARTICLE_WRAP
      && (q.x < p.x || q.x == width + PARTICLE_WRAP)
  {
  }

  const AMBIENT_PARTICLE_COUNT: nat := 50

  /** Six `Math.random()` draws, in [0,1), for one ambient particle. */
  datatype AmbientDraw = AmbientDraw(x: real, y: real, size: real, speedX: real, speedY: real, opacity: real)

  predicate ValidAmbientDraw(d: AmbientDraw) {
    && 0.0 <= d.x < 1.0 && 0.0 <= d.y < 1.0 && 0.0 <= d.size < 1.0
    && 0.0 <= d.speedX < 1.0 && 0.0 <= d.speedY < 1.0 && 0.0 <= d.opacity < 1.0
  }

  /** `Math.random() * extent`: a point of [0, extent) when the extent is positive. */
  function ScaledDraw(r: real, extent: real): (v: real)
    requires 0.0 <= r < 1.0
    ensures extent > 0.0 ==> 0.0 <= v < extent
  {
    RealArith.FracScaleIfPositive(r, extent);
    r * extent
  }

  /**
   * One particle of the first fill: anywhere on the canvas, of size in [1,4),
   * drifting by less than a quarter unit per frame each way, and in the level's
   * colour.
   */
  function SpawnAmbient(d: AmbientDraw, width: real, height: real, color: string): (p: Particle)
    requires ValidAmbientDraw(d) && width > 0.0
    ensures 0.0 <= p.x < width
    ensures height > 0.0 ==> 0.0 <= p.y < height
    ensures 1.0 <= p.size < 4.0
    ensures -0.25 <= p.speedX < 0.25 && -0.25 <= p.speedY < 0.25
    ensures 0.0 <= p.opacity < 0.5
    ensures p.color == color
  {
    Particle(ScaledDraw(d.x, width), ScaledDraw(d.y, height), d.size * 3.0 + 1.0, (d.speedX - 0.5) * 0.5, (d.speedY - 0.5) * 0.5, d.opacity * 0.5, color)
  }

  /** The particles of the first fill, one per draw, in order. */
  function AmbientParticles(draws: seq<AmbientDraw>, width: real, height: real, color: string): (ps: seq<Particle>)
    requires width > 0.0 && forall i :: 0 <= i < |draws| ==> ValidAmbientDraw(draws[i])
    ensures |ps| == |draws|
    ensures forall i :: 0 <= i < |draws| ==> ps[i] == SpawnAmbient(draws[i], width, height, color)
  {
    seq(|draws|, i requires 0 <= i < |draws| => SpawnAmbient(draws[i], width, height, color))
  }

  /**
   * The freshly filled particles already lie in the band the frame update
   * keeps, and each moves left on every frame until it wraps.
   */
  lemma AmbientInBand(draws: seq<AmbientDraw>, width: real, height: real, color: string, k: nat)
    requires width > 0.0 && forall i :: 0 <= i < |draws| ==> ValidAmbientDraw(draws[i])
    requires k < |draws|
    ensures var p := AmbientParticles(draws, width, height, color)[k];
      -PARTICLE_WRAP <= p.x <= width + PARTICLE_WRAP && p.speedX < PARTICLE_DRIFT
  {
    var p := AmbientParticles(draws, width, height, color)[k];
    assert p == SpawnAmbient(draws[k], width, height, color);
  }

  // ---------------------------------------------------------------------------
  // The player's height

  const PLAYER_MARGIN: real := 80.0
  const MOUSE_EASING: real := 0.05
  const CENTRE_EASING: real := 0.02

  /** `Math.max(80, Math.min(height - 80, y))`. */
  function ClampY(y: real, height: real): (r: real)
    ensures r >= PLAYER_MARGIN
    ensures height >= 2.0 * PLAYER_MARGIN ==> r <= height - PLAYER_MARGIN
    ensures PLAYER_MARGIN <= y <= height - PLAYER_MARGIN ==> r == y
  {
    var upper := if height - PLAYER_MARGIN < y then height - PLAYER_MARGIN else y;
    if upper > PLAYER_MARGIN then upper else PLAYER_MARGIN
  }

  /** The height before clamping: a pull toward the mouse when hovering, then toward the centre line. */
  function EasedY(y: real, isOver: bool, mouseY: real, height: real): real {
    var y1 := if isOver then y + (mouseY - y) * MOUSE_EASING else y;
    y1 + (height / 2.0 - y1) * CENTRE_EASING
  }

  function PlayerY(y: real, isOver: bool, mouseY: real, height: real): (r: real)
    ensures r >= PLAYER_MARGIN
    ensures height >= 2.0 * PLAYER_MARGIN ==> r <= height - PLAYER_MARGIN
  {
    ClampY(EasedY(y, isOver, mouseY, height), height)
  }

  /**
   * Once the player is centred on a canvas tall enough for both margins, the
   * per-frame height update keeps it there while the mouse is away.
   */
  lemma CentreIsRest(mouseY: real, height: real)
    requires height >= 2.0 * PLAYER_MARGIN
    ensures PlayerY(height / 2.0, false, mouseY, height) == height / 2.0
  {
    assert EasedY(height / 2.0, false, mouseY, height) == height / 2.0;
  }

  /**
   * Without the mouse, a player inside the margins moves 2% of the way to the
   * centre line and is not clamped.
   */
  lemma CentrePull(y: real, mouseY: real, height: real)
    requires height >= 2.0 * PLAYER_MARGIN && PLAYER_MARGIN <= y <= height - PLAYER_MARGIN
    ensures PlayerY(y, false, mouseY, height) == y + (height / 2.0 - y) * CENTRE_EASING
    ensures y <= height / 2.0 ==> y <= PlayerY(y, false, mouseY, height) <= height / 2.0
    ensures y >= height / 2.0 ==> height / 2.0 <= PlayerY(y, false, mouseY, height) <= y
  {
    var e := EasedY(y, false, mouseY, height);
    assert e == 0.98 * y + 0.02 * (height / 2.0);
  }

  /**
   * With the mouse inside the margins too, the eased height is a weighted mean of
   * the player, the mouse and the centre, so no clamping happens either.
   */
  lemma HoverWithinMargins(y: real, mouseY: real, height: real)
    requires height >= 2.0 * PLAYER_MARGIN && PLAYER_MARGIN <= y <= height - PLAYER_MARGIN
    requires PLAYER_MARGIN <= mouseY <= height - PLAYER_MARGIN
    ensures PlayerY(y, true, mouseY, height) == EasedY(y, true, mouseY, height)
    ensures EasedY(y, true, mouseY, height) == 0.931 * y + 0.049 * mouseY + 0.02 * (height / 2.0)
  {
    var y1 := y + (mouseY - y) * MOUSE_EASING;
    assert y1 == 0.95 * y + 0.05 * mouseY;
  }

  // ---------------------------------------------------------------------------
  // The trail

  const TRAIL_LENGTH: nat := 100

  /** `trail.push(p)`, then `trail.shift()` when the trail is longer than 100. */
  function PushTrail(trail: seq<Point>, p: Point): (t: seq<Point>)
    ensures |trail| < TRAIL_LENGTH ==> t == trail + [p]
    ensures |trail| >= TRAIL_LENGTH ==> t == trail[1..] + [p]
    ensures |trail| <= TRAIL_LENGTH ==> |t| <= TRAIL_LENGTH
    ensures |t| > 0 && t[|t| - 1] == p
  {
    var pushed := trail + [p];
    if |pushed| > TRAIL_LENGTH then pushed[1..] else pushed
  }

  /** The trail after the player passes through `ps`, one point per frame. */
  function TrailRun(trail: seq<Point>, ps: seq<Point>): seq<Point>
    decreases |ps|
  {
    if |ps| == 0 then trail else TrailRun(PushTrail(trail, ps[0]), ps[1..])
  }

  function Max0(n: int): nat {
    if n > 0 then n else 0
  }

  /** A short-enough trail, after any run of frames, holds exactly the latest 100 points in order. */
  lemma {:induction false} TrailKeepsLatest(trail: seq<Point>, ps: seq<Point>)
    requires |trail| <= TRAIL_LENGTH
    ensures TrailRun(trail, ps) == (trail + ps)[Max0(|trail| + |ps| - TRAIL_LENGTH)..]
    decreases |ps|
  {
    if |ps| > 0 {
      var t1 := PushTrail(trail, ps[0]);
      var rest := ps[1..];
      TrailKeepsLatest(t1, rest);
      var d := if |trail| < TRAIL_LENGTH then 0 else 1;
      assert t1 == (trail + [ps[0]])[d..];
      assert trail + ps == (trail + [ps[0]]) + rest;
      var m := Max0(|t1| + |rest| - TRAIL_LENGTH);
      assert (trail + [ps[0]])[d..] + rest == ((trail + [ps[0]]) + rest)[d..];
      assert d + m == Max0(|trail| + |ps| - TRAIL_LENGTH);
    } else {
      assert trail + ps == trail;
    }
  }

  /** From an empty trail the length never exceeds 100 and the trail ends at the latest point. */
  lemma TrailFromEmpty(ps: seq<Point>)
    requires |ps| > 0
    ensures 0 < |TrailRun([], ps)| <= TRAIL_LENGTH
    ensures TrailRun([], ps)[|TrailRun([], ps)| - 1] == ps[|ps| - 1]
  {
    TrailKeepsLatest([], ps);
    assert [] + ps == ps;
  }

  // ---------------------------------------------------------------------------
  // Global progress

  /** `Math.min(1, worldOffset / totalWorldWidth)`, the world width being the level widths' sum. */
  function GlobalProgress(worldOffset: real): (g: real)
    ensures g <= 1.0
    ensures worldOffset >= 0.0 ==> g >= 0.0
    ensures worldOffset <= TOTAL_WIDTH ==> g * 10500.0 == worldOffset
    ensures worldOffset >= TOTAL_WIDTH ==> g == 1.0
  {
    TotalWidthIs10500();
    var totalWorldWidth := TotalWidth(LEVELS);
    var ratio := worldOffset / totalWorldWidth;
    if ratio < 1.0 then ratio else 1.0
  }

  // ---------------------------------------------------------------------------
  // Photo reveal

  const REVEAL_DISTANCE: real := 800.0
  const FADE_OUT_START_X: real := -1500.0
  const FADE_OUT_DISTANCE: real := 2000.0
  const REVEAL_SMOOTHING: real := 0.08
  const PHOTO_CULL_MARGIN: real := 5000.0
  const POLAROID_PADDING: real := 12.0
  const TEXT_GAP: real := 60.0

  /**
   * The reveal target for a photo at `distanceToPlayer` whose text starts at
   * screen x `textX`; `curved` is `Math.pow(1 - distance/800, 1.2)`, in [0,1].
   */
  function RevealTarget(distanceToPlayer: real, curved: real, textX: real): (t: real)
    requires distanceToPlayer >= 0.0 && 0.0 <= curved <= 1.0
    ensures 0.0 <= t <= 1.0
    ensures distanceToPlayer >= REVEAL_DISTANCE && textX >= FADE_OUT_START_X ==> t == 1.0
    ensures textX <= FADE_OUT_START_X - FADE_OUT_DISTANCE ==> t == 0.0
  {
    var approach := if distanceToPlayer < REVEAL_DISTANCE then curved else 1.0;
    if textX < FADE_OUT_START_X then
      var ratio := (FADE_OUT_START_X - textX) / FADE_OUT_DISTANCE;
      var fadeProgress := if ratio < 1.0 then ratio else 1.0;
      1.0 - fadeProgress
    else
      approach
  }

  /** `Math.min(1, old + (target - old) * 0.08)`. */
  function Smooth(current: real, target: real): (r: real)
    ensures r <= 1.0
    ensures 0.0 <= current <= 1.0 && 0.0 <= target <= 1.0 ==>
              0.0 <= r <= 1.0 && (current <= r <= target || target <= r <= current)
  {
    var next := current + (target - current) * REVEAL_SMOOTHING;
    if next < 1.0 then next else 1.0
  }

  /** Each frame closes exactly 8% of the remaining gap to the target. */
  lemma SmoothClosesGap(current: real, target: real)
    requires 0.0 <= current <= 1.0 && 0.0 <= target <= 1.0
    ensures target - Smooth(current, target) == (target - current) * 0.92
  {
  }

  /** The progress after `n` frames toward a fixed target. */
  function SmoothRun(current: real, target: real, n: nat): real {
    if n == 0 then current else Smooth(SmoothRun(current, target, n - 1), target)
  }

  /** After `n` frames the gap to the target is `0.92^n` of the gap at the start. */
  lemma {:induction false} SmoothRunGap(current: real, target: real, n: nat)
    requires 0.0 <= current <= 1.0 && 0.0 <= target <= 1.0
    ensures 0.0 <= SmoothRun(current, target, n) <= 1.0
    ensures target - SmoothRun(current, target, n) == RealArith.Mul(target - current, Shrink(n))
  {
    if n > 0 {
      SmoothRunGap(current, target, n - 1);
      var prev := SmoothRun(current, target, n - 1);
      SmoothClosesGap(prev, target);
      assert SmoothRun(current, target, n) == Smooth(prev, target);
      assert Shrink(n) == Shrink(n - 1) * 0.92;
      RealArith.MulAssoc(target - current, Shrink(n - 1), 0.92);
    } else {
      assert RealArith.Mul(target - current, 1.0) == target - current;
    }
  }

  /** `0.92^n`. */
  function Shrink(n: nat): real {
    if n == 0 then 1.0 else Shrink(n - 1) * 0.92
  }

  /** Where the photo sits on screen. */
  function PhotoScreenX(photo: BackgroundPhoto, worldOffset: real, width: real): real {
    photo.worldX - worldOffset + width / 2.0
  }

  /** Photos far off either side of the screen are skipped, their progress untouched. */
  predicate PhotoCulled(photo: BackgroundPhoto, worldOffset: real, width: real) {
    var photoX := PhotoScreenX(photo, worldOffset, width);
    photoX < -photo.width - PHOTO_CULL_MARGIN || photoX > width + PHOTO_CULL_MARGIN
  }

  /** The x at which the photo's text starts, beside the polaroid. */
  function TextX(photo: BackgroundPhoto, worldOffset: real, width: real): real {
    PhotoScreenX(photo, worldOffset, width) + (photo.width + POLAROID_PADDING * 2.0) / 2.0 + TEXT_GAP
  }

  function Distance(a: real, b: real): (d: real)
    ensures d >= 0.0 && (d == a - b || d == b - a)
  {
    if a >= b then a - b else b - a
  }

  /** One photo for one frame. */
  function StepPhoto(photo: BackgroundPhoto, worldOffset: real, width: real, curved: real): (q: BackgroundPhoto)
    requires 0.0 <= curved <= 1.0
    ensures q == photo.(revealProgress := q.revealProgress)
    ensures PhotoCulled(photo, worldOffset, width) ==> q == photo
    ensures !PhotoCulled(photo, worldOffset, width) ==>
              q.revealProgress == Smooth(photo.revealProgress,
                RevealTarget(Distance(worldOffset, photo.worldX), curved, TextX(photo, worldOffset, width)))
    ensures 0.0 <= photo.revealProgress <= 1.0 ==> 0.0 <= q.revealProgress <= 1.0
  {
    if PhotoCulled(photo, worldOffset, width) then photo
    else
      var target := RevealTarget(Distance(worldOffset, photo.worldX), curved, TextX(photo, worldOffset, width));
      photo.(revealProgress := Smooth(photo.revealProgress, target))
  }

  /** Every photo stepped, each with its own curve value. */
  function StepPhotos(photos: seq<BackgroundPhoto>, worldOffset: real, width: real, curves: seq<real>): (r: seq<BackgroundPhoto>)
    requires |curves| == |photos| && forall i :: 0 <= i < |curves| ==> 0.0 <= curves[i] <= 1.0
    ensures |r| == |photos|
    ensures forall i :: 0 <= i < |photos| ==> r[i] == StepPhoto(photos[i], worldOffset, width, curves[i])
  {
    seq(|photos|, i requires 0 <= i < |photos| => StepPhoto(photos[i], worldOffset, width, curves[i]))
  }

  // ---------------------------------------------------------------------------
  // The typewriter

  /** `Math.floor(length * revealProgress)`. */
  function RevealedChars(length: nat, progress: real): (n: int)
    ensures 0.0 <= progress <= 1.0 ==> 0 <= n <= length
    ensures progress == 1.0 ==> n == length
    ensures progress == 0.0 ==> n == 0
  {
    ScaledFloorRange(length, progress);
    (progress * length as real).Floor
  }

  lemma ScaledFloorRange(length: nat, progress: real)
    ensures 0.0 <= progress <= 1.0 ==> 0 <= (progress * length as real).Floor <= length
    ensures progress == 1.0 ==> (progress * length as real).Floor == length
    ensures progress == 0.0 ==> (progress * length as real).Floor == 0
  {
    var L := length as real;
    var v := progress * L;
    if 0.0 <= progress <= 1.0 {
      RealArith.UnitScale(progress, L);
    }
    if progress == 1.0 {
      assert v == length as real;
    }
    if progress == 0.0 {
      assert v == 0.0;
    }
  }

  /** `s.substring(0, n)`: JavaScript clamps `n` into [0, |s|]. */
  function Leading(s: string, n: int): (r: string)
    ensures r <= s
    ensures |r| == if n < 0 then 0 else if n > |s| then |s| else n
  {
    if n < 0 then "" else if n > |s| then s else s[..n]
  }

  /** The shown part of a title: a prefix, the whole title once fully revealed. */
  function DisplayedTitle(title: string, progress: real): (d: string)
    ensures d <= title
    ensures 0.0 <= progress <= 1.0 ==> |d| == RevealedChars(|title|, progress)
    ensures progress == 1.0 ==> d == title
    ensures progress == 0.0 ==> d == ""
  {
    Leading(title, RevealedChars(|title|, progress))
  }

  const CURSOR: string := "│"

  /** The cursor glyph, `blinkOn` being the clock's on-phase. */
  function CursorChar(title: string, progress: real, blinkOn: bool): (c: string)
    ensures c == CURSOR || c == ""
    ensures c == CURSOR <==> progress < 1.0 && blinkOn && RevealedChars(|title|, progress) < |title|
  {
    var showCursor := progress < 1.0 && blinkOn;
    if showCursor && RevealedChars(|title|, progress) < |title| then CURSOR else ""
  }

  /** The cursor is never drawn after a fully revealed title. */
  lemma NoCursorWhenComplete(title: string, progress: real, blinkOn: bool)
    requires 0.0 <= progress <= 1.0
    ensures |DisplayedTitle(title, progress)| == |title| ==> CursorChar(title, progress, blinkOn) == ""
  {
  }

  /**
   * The running character count at the start of line `i`: every line before it
   * adds its length plus one for the break, whatever the separator's length.
   */
  function LineStart(lines: seq<string>, i: nat): int
    requires i <= |lines|
  {
    if i == 0 then 0 else LineStart(lines, i - 1) + |lines[i - 1]| + 1
  }

  /** How many characters of line `i` are drawn, `None` when the line is not drawn. */
  function LineShown(lines: seq<string>, revealedChars: int, i: nat): (k: Option<nat>)
    requires i < |lines|
    ensures k.Some? ==> 0 <= k.value <= |lines[i]| && revealedChars > LineStart(lines, i)
    ensures k.Some? && k.value < |lines[i]| ==> revealedChars < LineStart(lines, i) + |lines[i]|
  {
    var lineStart := LineStart(lines, i);
    if revealedChars > lineStart then
      Some(if revealedChars - lineStart < |lines[i]| then revealedChars - lineStart else |lines[i]|)
    else None
  }

  lemma {:induction false} LineStartMonotone(lines: seq<string>, i: nat, j: nat)
    requires i < j <= |lines|
    ensures LineStart(lines, j) >= LineStart(lines, i) + |lines[i]| + 1
    decreases j - i
  {
    if j > i + 1 {
      LineStartMonotone(lines, i, j - 1);
    }
  }

  /** Lines are typed in order: after a line that is not complete, no later line is drawn. */
  lemma LinesTypeInOrder(lines: seq<string>, revealedChars: int, i: nat, j: nat)
    requires i < j < |lines|
    requires LineShown(lines, revealedChars, i).None? || LineShown(lines, revealedChars, i).value < |lines[i]|
    ensures LineShown(lines, revealedChars, j).None?
  {
    LineStartMonotone(lines, i, j);
  }

  /** The per-line loop of the text typewriter. */
  method LineReveals(lines: seq<string>, revealedChars: int) returns (shown: seq<Option<nat>>)
    ensures |shown| == |lines|
    ensures forall i :: 0 <= i < |lines| ==> shown[i] == LineShown(lines, revealedChars, i)
  {
    var charCount := 0;
    shown := [];
    for index := 0 to |lines|
      invariant charCount == LineStart(lines, index)
      invariant |shown| == index
      invariant forall i :: 0 <= i < index ==> shown[i] == LineShown(lines, revealedChars, i)
    {
      var line := lines[index];
      var lineStart := charCount;
      if revealedChars > lineStart {
        var charsToShow := if revealedChars - lineStart < |line| then revealedChars - lineStart else |line|;
        shown := shown + [Some(charsToShow)];
      } else {
        shown := shown + [None];
      }
      charCount := charCount + |line| + 1;
    }
  }

  // ---------------------------------------------------------------------------
  // Collectibles

  const PICKUP_RADIUS: real := 40.0
  const PICKUP_SCORE: int := 10
  const COLLECTIBLE_CULL_MARGIN: real := 100.0
  const COLLECT_EFFECT_LIFE: int := 30
  const COLLECT_EFFECT_PARTICLES: nat := 15
  const WOBBLE_AMPLITUDE: real := 10.0

  function CollectibleScreenX(c: Collectible, worldOffset: real, width: real): real {
    c.worldX - worldOffset + width / 2.0
  }

  /**
   * A collectible is picked up when it is not yet collected, is on screen
   * (within 100 of either edge), and lies within 40 of the player; `wobble` is
   * the `Math.sin(...) * 10` bob of its height, in [-10, 10] (the predicate and
   * the lemmas about it hold for any value).
   */
  function IsHit(c: Collectible, worldOffset: real, width: real, playerX: real, playerY: real, wobble: real): (hit: bool)
    ensures hit <==>
      && !c.collected
      && -COLLECTIBLE_CULL_MARGIN <= CollectibleScreenX(c, worldOffset, width) <= width + COLLECTIBLE_CULL_MARGIN
      && WorldDistanceSq(c.worldX, c.worldY + wobble, PlayerWorldX(worldOffset, width, playerX), playerY)
         < PICKUP_RADIUS * PICKUP_RADIUS
  {
    var cx := CollectibleScreenX(c, worldOffset, width);
    var cy := c.worldY + wobble;
    SameSquare(cx - playerX, c.worldX - PlayerWorldX(worldOffset, width, playerX));
    assert WorldDistanceSq(c.worldX, cy, PlayerWorldX(worldOffset, width, playerX), playerY)
        == (cx - playerX) * (cx - playerX) + (cy - playerY) * (cy - playerY);
    && !c.collected
    && !(cx < -COLLECTIBLE_CULL_MARGIN || cx > width + COLLECTIBLE_CULL_MARGIN)
    && (cx - playerX) * (cx - playerX) + (cy - playerY) * (cy - playerY) < PICKUP_RADIUS * PICKUP_RADIUS
  }

  /** The world x under the player: the screen centre shows the world offset. */
  function PlayerWorldX(worldOffset: real, width: real, playerX: real): real {
    worldOffset + playerX - width / 2.0
  }

  /** Squared distance between two world points. */
  function WorldDistanceSq(x1: real, y1: real, x2: real, y2: real): real {
    (x1 - x2) * (x1 - x2) + (y1 - y2) * (y1 - y2)
  }

  lemma SameSquare(a: real, b: real)
    requires a == b
    ensures a * a == b * b
  {
  }

  /**
   * With the player centred on a 1000-wide canvas at world offset 500, the
   * first star (world (500, 150)) is picked up at height 150; a player left at
   * screen x 0 would miss it.
   */
  lemma FirstStarAtCentre()
    ensures IsHit(INITIAL_COLLECTIBLES[0], 500.0, 1000.0, 1000.0 / 2.0, 150.0, 0.0)
    ensures !IsHit(INITIAL_COLLECTIBLES[0], 500.0, 1000.0, 0.0, 150.0, 0.0)
  {
  }

  /** `prev.map(c => c.id === id ? {...c, collected: true} : c)`. */
  function MarkCollected(cs: seq<Collectible>, id: string): (r: seq<Collectible>)
    ensures |r| == |cs|
    ensures forall i :: 0 <= i < |cs| ==> r[i].(collected := cs[i].collected) == cs[i]
    ensures forall i :: 0 <= i < |cs| ==> r[i].collected == (cs[i].collected || cs[i].id == id)
  {
    seq(|cs|, i requires 0 <= i < |cs| => if cs[i].id == id then cs[i].(collected := true) else cs[i])
  }

  /** Three `Math.random()` draws, in [0,1), for one effect particle. */
  datatype Draw = Draw(vx: real, vy: real, size: real)

  predicate ValidDraw(d: Draw) {
    0.0 <= d.vx < 1.0 && 0.0 <= d.vy < 1.0 && 0.0 <= d.size < 1.0
  }

  function SpawnParticle(x: real, y: real, d: Draw, color: string): (p: EffectParticle)
    requires ValidDraw(d)
    ensures p.x == x && p.y == y && p.color == color
    ensures -4.0 <= p.vx < 4.0 && -6.0 <= p.vy < 2.0 && 2.0 <= p.size < 6.0
  {
    EffectParticle(x, y, (d.vx - 0.5) * 8.0, (d.vy - 0.5) * 8.0 - 2.0, d.size * 4.0 + 2.0, color)
  }

  /** The burst spawned by a pickup: 15 particles at the pickup point, life 0 of 30. */
  function CollectEffect(id: string, x: real, y: real, draws: seq<Draw>, color: string): (e: VisualEffect)
    requires |draws| == COLLECT_EFFECT_PARTICLES && forall i :: 0 <= i < |draws| ==> ValidDraw(draws[i])
    ensures e.kind == Collect && e.x == x && e.y == y
    ensures e.life == 0 && e.maxLife == COLLECT_EFFECT_LIFE && |e.particles| == COLLECT_EFFECT_PARTICLES
    ensures forall i :: 0 <= i < |e.particles| ==>
              e.particles[i].x == x && e.particles[i].y == y && e.particles[i].color == color
  {
    VisualEffect(id, x, y, Collect, 0, COLLECT_EFFECT_LIFE,
                 seq(COLLECT_EFFECT_PARTICLES, i requires 0 <= i < COLLECT_EFFECT_PARTICLES => SpawnParticle(x, y, draws[i], color)))
  }

  /** How many of the first `n` collectibles are hit this frame. */
  function HitCount(cs: seq<Collectible>, worldOffset: real, width: real, playerX: real, playerY: real,
                    wobbles: seq<real>, n: nat): nat
    requires n <= |cs| <= |wobbles|
  {
    if n == 0 then 0
    else HitCount(cs, worldOffset, width, playerX, playerY, wobbles, n - 1)
         + (if IsHit(cs[n - 1], worldOffset, width, playerX, playerY, wobbles[n - 1]) then 1 else 0)
  }

  /** Whether one of the first `n` collectibles with this id is hit this frame. */
  predicate IdHit(cs: seq<Collectible>, worldOffset: real, width: real, playerX: real, playerY: real,
                  wobbles: seq<real>, n: nat, id: string)
    requires n <= |cs| <= |wobbles|
  {
    n > 0 && (IdHit(cs, worldOffset, width, playerX, playerY, wobbles, n - 1, id)
              || (cs[n - 1].id == id && IsHit(cs[n - 1], worldOffset, width, playerX, playerY, wobbles[n - 1])))
  }

  /** A hit collectible's own id is hit. */
  lemma {:induction false} HitMeansIdHit(cs: seq<Collectible>, worldOffset: real, width: real, playerX: real,
                                         playerY: real, wobbles: seq<real>, n: nat, k: nat)
    requires k < n <= |cs| <= |wobbles|
    requires IsHit(cs[k], worldOffset, width, playerX, playerY, wobbles[k])
    ensures IdHit(cs, worldOffset, width, playerX, playerY, wobbles, n, cs[k].id)
    decreases n
  {
    if k < n - 1 {
      HitMeansIdHit(cs, worldOffset, width, playerX, playerY, wobbles, n - 1, k);
    }
  }

  /** `cur` is `shown` with every id hit among the first `i` entries marked collected. */
  ghost predicate MarkedUpTo(cur: seq<Collectible>, shown: seq<Collectible>, worldOffset: real, width: real,
                             playerX: real, playerY: real, wobbles: seq<real>, i: nat)
    requires i <= |shown| <= |wobbles|
  {
    && |cur| == |shown|
    && forall k :: 0 <= k < |cur| ==>
         cur[k] == shown[k].(collected := shown[k].collected
                               || IdHit(shown, worldOffset, width, playerX, playerY, wobbles, i, shown[k].id))
  }

  /** Handling entry `i` of the pass extends the marking by one entry. */
  lemma MarkStep(cur: seq<Collectible>, shown: seq<Collectible>, worldOffset: real, width: real,
                 playerX: real, playerY: real, wobbles: seq<real>, i: nat)
    requires i < |shown| <= |wobbles|
    requires MarkedUpTo(cur, shown, worldOffset, width, playerX, playerY, wobbles, i)
    ensures var c := shown[i];
      MarkedUpTo(if IsHit(c, worldOffset, width, playerX, playerY, wobbles[i]) then MarkCollected(cur, c.id) else cur,
                 shown, worldOffset, width, playerX, playerY, wobbles, i + 1)
  {
  }

  /** Each collectible's burst draws: 15 triples of `Math.random()` values. */
  ghost predicate ValidBurstDraws(draws: seq<seq<Draw>>) {
    forall i :: 0 <= i < |draws| ==>
      |draws[i]| == COLLECT_EFFECT_PARTICLES && forall j :: 0 <= j < |draws[i]| ==> ValidDraw(draws[i][j])
  }

  /**
   * The bursts that the first `n` collectibles spawn this frame, in list order:
   * one at the pickup point of each hit, in the level colour.
   */
  ghost function Bursts(cs: seq<Collectible>, worldOffset: real, width: real, playerX: real, playerY: real,
                        wobbles: seq<real>, draws: seq<seq<Draw>>, effectIds: seq<string>, color: string,
                        n: nat): seq<VisualEffect>
    requires n <= |cs| <= |wobbles| && |cs| <= |draws| && |cs| <= |effectIds| && ValidBurstDraws(draws)
  {
    if n == 0 then []
    else
      var c := cs[n - 1];
      Bursts(cs, worldOffset, width, playerX, playerY, wobbles, draws, effectIds, color, n - 1)
      + if IsHit(c, worldOffset, width, playerX, playerY, wobbles[n - 1])
        then [CollectEffect(effectIds[n - 1], CollectibleScreenX(c, worldOffset, width), c.worldY + wobbles[n - 1],
                            draws[n - 1], color)]
        else []
  }

  /**
   * There is one burst per hit, and each is a fresh 15-particle burst, in the
   * level colour, at the screen point of a collectible hit this frame.
   */
  lemma {:induction false} BurstsAtPickups(cs: seq<Collectible>, worldOffset: real, width: real, playerX: real,
                                           playerY: real, wobbles: seq<real>, draws: seq<seq<Draw>>,
                                           effectIds: seq<string>, color: string, n: nat)
    requires n <= |cs| <= |wobbles| && |cs| <= |draws| && |cs| <= |effectIds| && ValidBurstDraws(draws)
    ensures var es := Bursts(cs, worldOffset, width, playerX, playerY, wobbles, draws, effectIds, color, n);
      && |es| == HitCount(cs, worldOffset, width, playerX, playerY, wobbles, n)
      && forall k :: 0 <= k < |es| ==>
           && es[k].kind == Collect && es[k].life == 0 && es[k].maxLife == COLLECT_EFFECT_LIFE
           && |es[k].particles| == COLLECT_EFFECT_PARTICLES
           && (forall j :: 0 <= j < |es[k].particles| ==>
                 es[k].particles[j].x == es[k].x && es[k].particles[j].y == es[k].y
                 && es[k].particles[j].color == color)
           && exists i :: 0 <= i < n && IsHit(cs[i], worldOffset, width, playerX, playerY, wobbles[i])
                && es[k].x == CollectibleScreenX(cs[i], worldOffset, width) && es[k].y == cs[i].worldY + wobbles[i]
  {
    if n > 0 {
      BurstsAtPickups(cs, worldOffset, width, playerX, playerY, wobbles, draws, effectIds, color, n - 1);
    }
  }

  /** No hit at all leaves the score and collectibles as they were. */
  lemma {:induction false} NoHitNoScore(cs: seq<Collectible>, worldOffset: real, width: real, playerX: real,
                                        playerY: real, wobbles: seq<real>, n: nat)
    requires n <= |cs| <= |wobbles|
    requires forall k :: 0 <= k < n ==> !IsHit(cs[k], worldOffset, width, playerX, playerY, wobbles[k])
    ensures HitCount(cs, worldOffset, width, playerX, playerY, wobbles, n) == 0
    ensures forall id :: !IdHit(cs, worldOffset, width, playerX, playerY, wobbles, n, id)
  {
    if n > 0 {
      NoHitNoScore(cs, worldOffset, width, playerX, playerY, wobbles, n - 1);
    }
  }

  // ---------------------------------------------------------------------------
  // Interactive zones

  const ZONE_CULL_MARGIN: real := 100.0

  /** The player is inside the zone's rectangle, edges included. */
  predicate InZone(playerX: real, playerY: real, zoneX: real, zoneY: real, zoneWidth: real, zoneHeight: real) {
    && playerX >= zoneX - zoneWidth / 2.0
    && playerX <= zoneX + zoneWidth / 2.0
    && playerY >= zoneY - zoneHeight / 2.0
    && playerY <= zoneY + zoneHeight / 2.0
  }

  function ZoneScreenX(z: InteractiveZone, worldOffset: real, width: real): real {
    z.worldX - worldOffset + width / 2.0
  }

  predicate ZoneCulled(z: InteractiveZone, worldOffset: real, width: real) {
    var zoneX := ZoneScreenX(z, worldOffset, width);
    zoneX < -z.width - ZONE_CULL_MARGIN || zoneX > width + ZONE_CULL_MARGIN
  }

  /**
   * The screen-space test is the world-space test: the player, at world x
   * `playerX + worldOffset - width/2`, lies within the zone's world rectangle.
   */
  lemma InZoneInWorld(playerX: real, playerY: real, z: InteractiveZone, worldOffset: real, width: real)
    ensures InZone(playerX, playerY, ZoneScreenX(z, worldOffset, width), z.worldY, z.width, z.height)
        <==> InZone(playerX + worldOffset - width / 2.0, playerY, z.worldX, z.worldY, z.width, z.height)
  {
  }

  /** A zone of non-negative size contains its centre; one of negative size contains nothing. */
  lemma ZoneCentre(zoneX: real, zoneY: real, zoneWidth: real, zoneHeight: real, px: real, py: real)
    ensures InZone(zoneX, zoneY, zoneX, zoneY, zoneWidth, zoneHeight) <==> zoneWidth >= 0.0 && zoneHeight >= 0.0
    ensures zoneWidth < 0.0 ==> !InZone(px, py, zoneX, zoneY, zoneWidth, zoneHeight)
  {
  }

  /** `prev.map(z => z.id === id ? {...z, active} : z)`. */
  function SetZoneActive(zs: seq<InteractiveZone>, id: string, active: bool): (r: seq<InteractiveZone>)
    ensures |r| == |zs|
    ensures forall i :: 0 <= i < |zs| && zs[i].id == id ==> r[i] == zs[i].(active := active)
    ensures forall i :: 0 <= i < |zs| && zs[i].id != id ==> r[i] == zs[i]
  {
    seq(|zs|, i requires 0 <= i < |zs| => if zs[i].id == id then zs[i].(active := active) else zs[i])
  }

  /** A zone after the frame: on screen, `active` records whether the player is inside. */
  function ZoneAfterFrame(z: InteractiveZone, worldOffset: real, width: real, playerX: real, playerY: real): (r: InteractiveZone)
    ensures r.(active := z.active) == z
    ensures ZoneCulled(z, worldOffset, width) ==> r == z
    ensures !ZoneCulled(z, worldOffset, width) ==>
              (r.active <==> InZone(playerX, playerY, ZoneScreenX(z, worldOffset, width), z.worldY, z.width, z.height))
  {
    if ZoneCulled(z, worldOffset, width) then z
    else z.(active := InZone(playerX, playerY, ZoneScreenX(z, worldOffset, width), z.worldY, z.width, z.height))
  }

  predicate DistinctZoneIds(zs: seq<InteractiveZone>) {
    forall i, j :: 0 <= i < j < |zs| ==> zs[i].id != zs[j].id
  }

  lemma InitialZonesDistinct()
    ensures DistinctZoneIds(INITIAL_ZONES)
  {
  }

  // ---------------------------------------------------------------------------
  // Visual effects

  const EFFECT_GRAVITY: real := 0.3
  const EFFECT_FRICTION: real := 0.98
  const MIN_PARTICLE_RADIUS: real := 0.5

  /** One effect particle for one frame: move, then gravity on vy and friction on vx. */
  function StepEffectParticle(p: EffectParticle): (q: EffectParticle)
    ensures q.x == p.x + p.vx && q.y == p.y + p.vy
    ensures q.vy == p.vy + EFFECT_GRAVITY
    ensures p.vx >= 0.0 ==> 0.0 <= q.vx <= p.vx
    ensures p.vx <= 0.0 ==> p.vx <= q.vx <= 0.0
    ensures q.size == p.size && q.color == p.color
  {
    EffectParticle(p.x + p.vx, p.y + p.vy, p.vx * EFFECT_FRICTION, p.vy + EFFECT_GRAVITY, p.size, p.color)
  }

  /** `Math.max(0.5, size * (1 - life/maxLife * 0.5))`: the drawn radius. */
  function ParticleRadius(size: real, life: int, maxLife: int): (r: real)
    requires maxLife > 0
    ensures r >= MIN_PARTICLE_RADIUS
    ensures size >= 1.0 && 0 <= life <= maxLife ==> r == size * (1.0 - (life as real / maxLife as real) * 0.5)
  {
    var lifeRatio := life as real / maxLife as real;
    var radius := size * (1.0 - lifeRatio * 0.5);
    if size >= 1.0 && 0 <= life <= maxLife then
      assert 0.0 <= lifeRatio <= 1.0 by {
        assert lifeRatio * maxLife as real == life as real;
        if lifeRatio > 1.0 {
          RealArith.MulStrictMonotone(1.0, lifeRatio, maxLife as real);
        }
      }
      RealArith.MulMonotone(1.0, size, 1.0 - lifeRatio * 0.5);
      if MIN_PARTICLE_RADIUS > radius then MIN_PARTICLE_RADIUS else radius
    else
      if MIN_PARTICLE_RADIUS > radius then MIN_PARTICLE_RADIUS else radius
  }

  /** An effect after its particles moved and its life counted one more frame. */
  function AdvanceEffect(e: VisualEffect): (r: VisualEffect)
    ensures r.life == e.life + 1
    ensures r.(life := e.life, particles := e.particles) == e
    ensures |r.particles| == |e.particles|
    ensures forall i :: 0 <= i < |e.particles| ==> r.particles[i] == StepEffectParticle(e.particles[i])
  {
    e.(life := e.life + 1,
       particles := seq(|e.particles|, i requires 0 <= i < |e.particles| => StepEffectParticle(e.particles[i])))
  }

  function AdvanceAll(es: seq<VisualEffect>): (r: seq<VisualEffect>)
    ensures |r| == |es|
    ensures forall i :: 0 <= i < |es| ==> r[i] == AdvanceEffect(es[i])
  {
    seq(|es|, i requires 0 <= i < |es| => AdvanceEffect(es[i]))
  }

  /** `prev.filter(e => e.life < e.maxLife)`. */
  function Prune(es: seq<VisualEffect>): (r: seq<VisualEffect>)
    ensures |r| <= |es|
    ensures forall e :: e in r <==> e in es && e.life < e.maxLife
    decreases |es|
  {
    if |es| == 0 then []
    else
      var rest := Prune(es[1..]);
      assert forall e :: e in es <==> e == es[0] || e in es[1..];
      if es[0].life < es[0].maxLife then [es[0]] + rest else rest
  }

  /** Pruning distributes over concatenation, so it keeps the survivors in their order. */
  lemma {:induction false} PruneAppend(a: seq<VisualEffect>, b: seq<VisualEffect>)
    ensures Prune(a + b) == Prune(a) + Prune(b)
    decreases |a|
  {
    if |a| == 0 {
      assert a + b == b;
    } else {
      assert (a + b)[0] == a[0];
      assert (a + b)[1..] == a[1..] + b;
      PruneAppend(a[1..], b);
    }
  }

  /** Pruning keeps every effect, in order, when all are alive. */
  lemma {:induction false} PruneKeepsLiving(es: seq<VisualEffect>)
    requires forall i :: 0 <= i < |es| ==> es[i].life < es[i].maxLife
    ensures Prune(es) == es
    decreases |es|
  {
    if |es| > 0 {
      PruneKeepsLiving(es[1..]);
      assert [es[0]] + es[1..] == es;
    }
  }

  /** The effects after `n` frames of advancing and pruning. */
  function EffectsAfter(es: seq<VisualEffect>, n: nat): seq<VisualEffect> {
    if n == 0 then es else Prune(AdvanceAll(EffectsAfter(es, n - 1)))
  }

  /** One frame on a single effect: it survives with one more life, or is dropped at `maxLife`. */
  lemma FrameOnOne(e: VisualEffect)
    ensures e.life + 1 < e.maxLife ==> Prune(AdvanceAll([e])) == [AdvanceEffect(e)]
    ensures e.life + 1 >= e.maxLife ==> Prune(AdvanceAll([e])) == []
  {
    var adv := AdvanceAll([e]);
    assert adv == [AdvanceEffect(e)];
    assert adv[1..] == [];
    assert Prune(adv[1..]) == [];
  }

  /** A frame on no effects leaves none. */
  lemma FrameOnNone()
    ensures Prune(AdvanceAll([])) == []
  {
    assert AdvanceAll([]) == [];
  }

  /** A fresh pickup burst is still there, alone, with life `n`, for every frame `n` before 30. */
  lemma {:induction false} CollectEffectAlive(e: VisualEffect, n: nat)
    requires e.life == 0 && e.maxLife == COLLECT_EFFECT_LIFE && n < COLLECT_EFFECT_LIFE
    ensures |EffectsAfter([e], n)| == 1
    ensures EffectsAfter([e], n)[0].life == n && EffectsAfter([e], n)[0].maxLife == COLLECT_EFFECT_LIFE
  {
    if n > 0 {
      CollectEffectAlive(e, n - 1);
      var prev := EffectsAfter([e], n - 1);
      assert prev == [prev[0]];
      FrameOnOne(prev[0]);
      assert EffectsAfter([e], n) == [AdvanceEffect(prev[0])];
    }
  }

  /** From frame 30 on, the burst is gone. */
  lemma {:induction false} CollectEffectGone(e: VisualEffect, n: nat)
    requires e.life == 0 && e.maxLife == COLLECT_EFFECT_LIFE && n >= COLLECT_EFFECT_LIFE
    ensures EffectsAfter([e], n) == []
  {
    if n == COLLECT_EFFECT_LIFE {
      CollectEffectAlive(e, n - 1);
      var prev := EffectsAfter([e], n - 1);
      assert prev == [prev[0]];
      FrameOnOne(prev[0]);
    } else {
      CollectEffectGone(e, n - 1);
      FrameOnNone();
    }
  }

  /** A fresh pickup burst is drawn on frames with life 0..29 and is gone after 30 frames. */
  lemma CollectEffectLifetime(e: VisualEffect, n: nat)
    requires e.life == 0 && e.maxLife == COLLECT_EFFECT_LIFE
    ensures n < COLLECT_EFFECT_LIFE ==>
              |EffectsAfter([e], n)| == 1 && EffectsAfter([e], n)[0].life == n
              && EffectsAfter([e], n)[0].maxLife == COLLECT_EFFECT_LIFE
    ensures n >= COLLECT_EFFECT_LIFE ==> EffectsAfter([e], n) == []
  {
    if n < COLLECT_EFFECT_LIFE {
      CollectEffectAlive(e, n);
    } else {
      CollectEffectGone(e, n);
    }
  }

  // ---------------------------------------------------------------------------
  // The canvas state

  /** Everything the canvas keeps between frames. */
  datatype Scene = Scene(
    currentLevel: Level,
    particles: seq<Particle>,
    playerX: real,
    playerY: real,
    trail: seq<Point>,
    worldOffset: real,
    collectibles: seq<Collectible>,
    interactiveZones: seq<InteractiveZone>,
    visualEffects: seq<VisualEffect>,
    score: int,
    backgroundPhotos: seq<BackgroundPhoto>)

  class Canvas {
    var currentLevel: Level
    var particles: seq<Particle>
    var playerX: real
    var playerY: real
    var trail: seq<Point>
    var worldOffset: real
    var collectibles: seq<Collectible>
    var interactiveZones: seq<InteractiveZone>
    var visualEffects: seq<VisualEffect>
    var score: int
    var backgroundPhotos: seq<BackgroundPhoto>

    function Snapshot(): Scene
      reads this
    {
      Scene(currentLevel, particles, playerX, playerY, trail, worldOffset, collectibles,
            interactiveZones, visualEffects, score, backgroundPhotos)
    }

    /** The first render's state, given the photo table. */
    constructor (photos: seq<BackgroundPhoto>)
      ensures Snapshot() == Scene(LEVELS[0], [], 0.0, 0.0, [], 0.0, INITIAL_COLLECTIBLES, INITIAL_ZONES,
                                  [], 0, photos)
    {
      currentLevel := LEVELS[0];
      particles := [];
      playerX, playerY := 0.0, 0.0;
      trail := [];
      worldOffset := 0.0;
      collectibles := INITIAL_COLLECTIBLES;
      interactiveZones := INITIAL_ZONES;
      visualEffects := [];
      score := 0;
      backgroundPhotos := photos;
    }

    /**
     * The particle half of the effect on `[dimensions, currentLevel]`: an empty
     * particle list on a canvas of positive width is filled with 50 particles
     * in the current level's colour; `draws` are their random values.
     */
    method FillParticles(width: real, height: real, draws: seq<AmbientDraw>)
      requires |draws| == AMBIENT_PARTICLE_COUNT && forall i :: 0 <= i < |draws| ==> ValidAmbientDraw(draws[i])
      modifies this
      ensures old(particles) == [] && width > 0.0 ==>
                Snapshot() == old(Snapshot()).(particles := AmbientParticles(draws, width, height, currentLevel.color))
      ensures old(particles) != [] || width <= 0.0 ==> Snapshot() == old(Snapshot())
    {
      if |particles| == 0 && width > 0.0 {
        var ps: seq<Particle> := [];
        var color := currentLevel.color;
        for i := 0 to AMBIENT_PARTICLE_COUNT
          invariant |ps| == i
          invariant forall k :: 0 <= k < i ==> ps[k] == SpawnAmbient(draws[k], width, height, color)
          invariant Snapshot() == old(Snapshot())
        {
          ps := ps + [SpawnAmbient(draws[i], width, height, color)];
        }
        particles := ps;
      }
    }

    /** The effect on `[dimensions]`: a canvas with both sides positive puts the player at its centre. */
    method CentrePlayer(width: real, height: real)
      modifies this
      ensures width > 0.0 && height > 0.0 ==>
                Snapshot() == old(Snapshot()).(playerX := width / 2.0, playerY := height / 2.0)
      ensures width <= 0.0 || height <= 0.0 ==> Snapshot() == old(Snapshot())
    {
      if width > 0.0 && height > 0.0 {
        var centerX := width / 2.0;
        var centerY := height / 2.0;
        playerX := centerX;
        playerY := centerY;
      }
    }

    /**
     * A change of the canvas dimensions: the two effects on it, in the order
     * they are declared.
     */
    method OnDimensions(width: real, height: real, draws: seq<AmbientDraw>)
      requires |draws| == AMBIENT_PARTICLE_COUNT && forall i :: 0 <= i < |draws| ==> ValidAmbientDraw(draws[i])
      modifies this
      ensures var filled := if old(particles) == [] && width > 0.0
                            then AmbientParticles(draws, width, height, currentLevel.color)
                            else old(particles);
        if width > 0.0 && height > 0.0
        then Snapshot() == old(Snapshot()).(particles := filled, playerX := width / 2.0, playerY := height / 2.0)
        else Snapshot() == old(Snapshot()).(particles := filled)
    {
      FillParticles(width, height, draws);
      CentrePlayer(width, height);
    }

    /** The level effect, run when the world position changes. */
    method UpdateLevel(horizontalPosition: real)
      modifies this
      ensures Snapshot() == old(Snapshot()).(currentLevel := LevelAfterEffect(old(currentLevel), horizontalPosition))
    {
      TableShape();
      NoFallbackVersusSaturating(LEVELS, horizontalPosition);
      var accumulatedWidth := 0.0;
      for i := 0 to |LEVELS|
        invariant accumulatedWidth == Prefix(LEVELS, i)
        invariant ScanNoFallback(LEVELS, horizontalPosition, i) == ScanNoFallback(LEVELS, horizontalPosition, 0)
        invariant Snapshot() == old(Snapshot())
      {
        var level := LEVELS[i];
        if horizontalPosition < accumulatedWidth + level.width {
          currentLevel := level;
          return;
        }
        accumulatedWidth := accumulatedWidth + level.width;
      }
    }

    /**
     * `updateGame` for a frame of a `width` x `height` canvas: particles,
     * the world offset, the player's height and the trail. `randomYs` are the
     * particles' re-entry draws.
     */
    method UpdateGame(width: real, height: real, horizontalPosition: real,
                      isOver: bool, mouseY: real, randomYs: seq<real>)
      requires |randomYs| == |particles| && forall i :: 0 <= i < |randomYs| ==> 0.0 <= randomYs[i] < 1.0
      modifies this
      ensures width == 0.0 || height == 0.0 ==> Snapshot() == old(Snapshot())
      ensures width != 0.0 && height != 0.0 ==>
        var y := PlayerY(old(playerY), isOver, mouseY, height);
        Snapshot() == old(Snapshot()).(
          particles := StepParticles(old(particles), width, height, randomYs, old(currentLevel).color),
          worldOffset := horizontalPosition,
          playerY := y,
          trail := PushTrail(old(trail), Point(old(playerX), y)))
    {
      if width == 0.0 || height == 0.0 {
        return;
      }
      var centerY := height / 2.0;
      var ps, color := particles, currentLevel.color;
      for i := 0 to |ps|
        invariant |ps| == |randomYs|
        invariant forall k :: 0 <= k < i ==> ps[k] == StepParticle(old(particles)[k], width, height, randomYs[k], color)
        invariant forall k :: i <= k < |ps| ==> ps[k] == old(particles)[k]
        invariant Snapshot() == old(Snapshot())
      {
        ps := ps[i := StepParticle(ps[i], width, height, randomYs[i], color)];
      }
      particles := ps;
      worldOffset := horizontalPosition;
      if isOver {
        var targetY := mouseY;
        var diff := targetY - playerY;
        playerY := playerY + diff * MOUSE_EASING;
      }
      var diffToCenter := centerY - playerY;
      playerY := playerY + diffToCenter * CENTRE_EASING;
      playerY := ClampY(playerY, height);
      trail := PushTrail(trail, Point(playerX, playerY));
    }

    /**
     * The photo pass of a frame: every photo not culled moves its reveal
     * progress toward its target; `curves` are the `Math.pow` values.
     */
    method UpdatePhotos(width: real, curves: seq<real>)
      requires |curves| == |backgroundPhotos| && forall i :: 0 <= i < |curves| ==> 0.0 <= curves[i] <= 1.0
      modifies this
      ensures Snapshot() == old(Snapshot()).(backgroundPhotos := StepPhotos(old(backgroundPhotos), worldOffset, width, curves))
    {
      var n := |backgroundPhotos|;
      for i := 0 to n
        invariant |backgroundPhotos| == n
        invariant forall k :: 0 <= k < i ==>
                    backgroundPhotos[k] == StepPhoto(old(backgroundPhotos)[k], worldOffset, width, curves[k])
        invariant forall k :: i <= k < n ==> backgroundPhotos[k] == old(backgroundPhotos)[k]
        invariant Snapshot() == old(Snapshot()).(backgroundPhotos := backgroundPhotos)
      {
        var photo := backgroundPhotos[i];
        if !PhotoCulled(photo, worldOffset, width) {
          var distanceToPlayer := Distance(worldOffset, photo.worldX);
          var newRevealProgress := RevealTarget(distanceToPlayer, curves[i], TextX(photo, worldOffset, width));
          photo := photo.(revealProgress := Smooth(photo.revealProgress, newRevealProgress));
        }
        backgroundPhotos := backgroundPhotos[i := photo];
      }
    }

    /**
     * The collectible pass of a frame, over the list as it was at the start of
     * the frame: each hit marks its id collected, adds 10 to the score and
     * appends a burst. `wobbles`, `draws` and `effectIds` stand for the
     * clock and random values of each collectible.
     */
    method CollectPass(width: real, wobbles: seq<real>, draws: seq<seq<Draw>>, effectIds: seq<string>)
      requires |wobbles| == |collectibles| && |draws| == |collectibles| && |effectIds| == |collectibles|
      requires forall i :: 0 <= i < |wobbles| ==> -WOBBLE_AMPLITUDE <= wobbles[i] <= WOBBLE_AMPLITUDE
      requires ValidBurstDraws(draws)
      modifies this
      ensures score == old(score) + PICKUP_SCORE * HitCount(old(collectibles), worldOffset, width, playerX, playerY, wobbles, |wobbles|)
      ensures MarkedUpTo(collectibles, old(collectibles), worldOffset, width, playerX, playerY, wobbles, |wobbles|)
      ensures visualEffects == old(visualEffects) + Bursts(old(collectibles), worldOffset, width, playerX, playerY,
                                                           wobbles, draws, effectIds, currentLevel.color, |wobbles|)
      ensures |visualEffects| == |old(visualEffects)| + HitCount(old(collectibles), worldOffset, width, playerX, playerY, wobbles, |wobbles|)
      ensures Snapshot() == old(Snapshot()).(collectibles := collectibles, score := score, visualEffects := visualEffects)
    {
      var shown := collectibles;
      var offset, px, py, color := worldOffset, playerX, playerY, currentLevel.color;
      var cs, points, effects := collectibles, score, visualEffects;
      for i := 0 to |shown|
        invariant points == old(score) + PICKUP_SCORE * HitCount(shown, offset, width, px, py, wobbles, i)
        invariant MarkedUpTo(cs, shown, offset, width, px, py, wobbles, i)
        invariant effects == old(visualEffects) + Bursts(shown, offset, width, px, py, wobbles, draws, effectIds, color, i)
        invariant Snapshot() == old(Snapshot())
      {
        var c := shown[i];
        MarkStep(cs, shown, offset, width, px, py, wobbles, i);
        if IsHit(c, offset, width, px, py, wobbles[i]) {
          var collectibleX := CollectibleScreenX(c, offset, width);
          var collectibleY := c.worldY + wobbles[i];
          cs := MarkCollected(cs, c.id);
          points := points + PICKUP_SCORE;
          var newEffect := CollectEffect(effectIds[i], collectibleX, collectibleY, draws[i], color);
          effects := effects + [newEffect];
        }
      }
      BurstsAtPickups(shown, offset, width, px, py, wobbles, draws, effectIds, color, |shown|);
      collectibles, score, visualEffects := cs, points, effects;
    }

    /**
     * The zone pass of a frame: each zone on screen records whether the
     * player is inside it (the ids being distinct, as in the initial list).
     */
    method ZonePass(width: real)
      modifies this
      ensures |interactiveZones| == |old(interactiveZones)|
      ensures DistinctZoneIds(old(interactiveZones)) ==>
                forall k :: 0 <= k < |interactiveZones| ==>
                  interactiveZones[k] == ZoneAfterFrame(old(interactiveZones)[k], worldOffset, width, playerX, playerY)
      ensures Snapshot() == old(Snapshot()).(interactiveZones := interactiveZones)
    {
      var shown := interactiveZones;
      for i := 0 to |shown|
        invariant |interactiveZones| == |shown|
        invariant DistinctZoneIds(shown) ==>
                    forall k :: 0 <= k < |shown| ==>
                      interactiveZones[k] == if k < i then ZoneAfterFrame(shown[k], worldOffset, width, playerX, playerY)
                                             else shown[k]
        invariant Snapshot() == old(Snapshot()).(interactiveZones := interactiveZones)
      {
        var zone := shown[i];
        if !ZoneCulled(zone, worldOffset, width) {
          var zoneX := ZoneScreenX(zone, worldOffset, width);
          var inZone := InZone(playerX, playerY, zoneX, zone.worldY, zone.width, zone.height);
          interactiveZones := SetZoneActive(interactiveZones, zone.id, inZone);
        }
      }
    }

    /** The effect pass of a frame: advance every effect, then drop the expired ones. */
    method EffectPass()
      modifies this
      ensures Snapshot() == old(Snapshot()).(visualEffects := Prune(AdvanceAll(old(visualEffects))))
    {
      var n := |visualEffects|;
      for i := 0 to n
        invariant |visualEffects| == n
        invariant forall k :: 0 <= k < i ==> visualEffects[k] == AdvanceEffect(old(visualEffects)[k])
        invariant forall k :: i <= k < n ==> visualEffects[k] == old(visualEffects)[k]
        invariant Snapshot() == old(Snapshot()).(visualEffects := visualEffects)
      {
        var effect := visualEffects[i];
        var ps := effect.particles;
        for j := 0 to |ps|
          invariant |ps| == |effect.particles|
          invariant forall k :: 0 <= k < j ==> ps[k] == StepEffectParticle(effect.particles[k])
          invariant forall k :: j <= k < |ps| ==> ps[k] == effect.particles[k]
        {
          var p := ps[j];
          ps := ps[j := EffectParticle(p.x + p.vx, p.y + p.vy, p.vx * EFFECT_FRICTION, p.vy + EFFECT_GRAVITY, p.size, p.color)];
        }
        visualEffects := visualEffects[i := effect.(life := effect.life + 1, particles := ps)];
      }
      assert visualEffects == AdvanceAll(old(visualEffects));
      visualEffects := Prune(visualEffects);
    }
  }
}
