# Lignes de vie — world model and per-frame simulation state

This project models, in Dafny, the logic behind the scroll-driven narrative
experience "Lignes de vie". A stick figure crosses a horizontal world made of five
levels (CHAOS, CONTRAINTE, DÉPLACEMENT, RECONSTRUCTION, LUMIÈRE), which are laid
end to end over 10500 world units. The model covers:

- the level table and the four "which level am I in" scans over cumulative widths
  (top-level view, HUD, horizontal strip, game canvas);
- the scroll-to-world mapping, with the obstacle store's `Infinity`-initialised
  scroll ceiling, and the clamped reading progress;
- the per-frame state transitions of the game canvas: ambient particles, the
  player's height, the trail, photo reveal smoothing, the typewriter, collectible
  pickup, interactive zones, and visual-effect ageing and pruning;
- the pure physics kernel (friction, gravity, turbulence, speed cap, centre-line
  pull, edge bounce);
- the seeded noise generator: Fisher–Yates permutation table, fade/lerp/grad,
  1-D and 2-D lookups, octave sum;
- the photo presentation rules: reveal hysteresis, parallax offset, per-photo
  dispatch with `||` defaults, and the per-level photo manifest.

JavaScript numbers are modelled as `real`. `Infinity` is an extended-real
datatype. Random draws (in [0,1)), the `Math.pow(·, 1.2)` value (in [0,1]), the
`Math.sin(·) * 10` wobble of a collectible (in [−10, 10]) and square roots (a
non-negative value whose square is given) are parameters with those ranges; the
cursor blink is a boolean parameter.

Each modelled source file is one module: `Levels`, `App`, `GameHUD`,
`HorizontalExperience`, `GameCanvas`, `Physics`, `Noise`, `HorizontalScroll`,
`ObstacleStore`, `ScrollProgress`, `PhotoReveal`, `PhotoLayer`, `PhotoParallax`
and `LevelSection`. Two more modules hold helpers: `Wrappers` (an `Option`
type) and `RealArith` (absolute value and products of reals).

Three behaviours of the code worth noting:

- The scroll mapper does not clamp its ratio to [0,1]. It also never raises the
  ceiling: `updateMaxScroll` is only called with positions at or below the
  ceiling, and the ceiling starts at `Infinity`. So the emitted world position is
  not a ratchet.
- `grad` scales by up to 8, so `noise2D` and `octaveNoise2D` are bounded by 8, not 1.
- The canvas's level effect has no fallback past the end of the world.

## Model

| member | source | states |
|---|---|---|
| `Levels.TotalWidthIs10500` | src/utils/constants.ts:147 | The `reduce` over the table gives 2000+1800+2200+2000+2500 = 10500. |
| `Levels.TableShape` | src/utils/constants.ts:33-144 | The table has five levels, every width is strictly positive, and the ids are pairwise distinct. |
| `Levels.PhysicsInRange` | src/utils/constants.ts:40-134 | Every level has friction in (0,1), stability factor in [0,1], gravity ≥ 0, turbulence ≥ 0 and max speed > 0. |
| `Levels.OptionalFlags` | src/utils/constants.ts:67-90 | Only `constraint` sets `forceFields`, and only `displacement` sets `invertGravity`. |
| `Levels.ScanFrom` | src/App.tsx:27-33 | The saturating scan from level i returns an index between i and the last level. |
| `Levels.LevelIndex` | src/App.tsx:27-33 | The current-level index is always a valid index of the table. |
| `Levels.ScanNoFallback` | src/components/GameCanvas.tsx:343-350 | When the scan without fallback finds an index, `pos` lies strictly before that level's right edge. |
| `Levels.PrefixMonotone` | src/components/HorizontalExperience.tsx:21-28 | With non-negative widths, prefix sums never decrease. |
| `Levels.PrefixStrictlyMonotone` | src/components/HorizontalExperience.tsx:21-28 | With positive widths, prefix sums strictly increase. |
| `Levels.ScanFromIsFirst` | src/App.tsx:27-31 | Every level skipped by the scan ends at or before `pos`; the level returned ends after `pos` or is the last one. |
| `Levels.ScanFromCharacterized` | src/App.tsx:27-33 | Conversely, an index with that property is exactly what the scan returns. |
| `Levels.LevelIndexIsFirst` | src/App.tsx:27-31 | The current level is the first level whose cumulative width exceeds `pos`, or the last level. |
| `Levels.LevelIndexCharacterized` | src/App.tsx:27-33 | The first level whose right edge exceeds `pos` (else the last) is the current level. |
| `Levels.LevelIndexSaturates` | src/App.tsx:33 | At or past the total width, the current level is the last level. |
| `Levels.LevelIndexAtBoundary` | src/App.tsx:28 | A position exactly on the boundary between levels i and i+1 selects level i+1, because the comparison is strict. |
| `Levels.LevelIndexNegative` | src/App.tsx:28 | A negative position selects the first level. |
| `Levels.LevelIndexContains` | src/App.tsx:27-31 | Inside [0, total width), the level found satisfies offset ≤ pos < offset + width. |
| `Levels.LevelIndexMonotone` | src/App.tsx:27-31 | A larger position never selects an earlier level. |
| `Levels.ScanNoFallbackAgrees` | src/components/GameCanvas.tsx:343-350 | From any start index, the no-fallback scan agrees with the saturating scan before the total width, and finds nothing from the total width on. |
| `Levels.NoFallbackVersusSaturating` | src/components/GameCanvas.tsx:343-350 | The canvas scan and the saturating scan agree inside the world; past its end only the saturating one answers. |
| `Levels.TwoLevelScenario` | src/App.tsx:27-33 | With widths 100 and 50, positions 99, 100 and 151 select levels 0, 1 and 1. |
| `App.GetCurrentLevel` | src/App.tsx:25-34 | The loop with an accumulator returns the table entry at the current-level index. |
| `App.CurrentLevelOnTable` | src/App.tsx:25-34 | On the real table, positions below 2000 are CHAOS and positions from 10500 on are LUMIÈRE. |
| `App.LatchRunReached` | src/App.tsx:52-56 | After any run of progress updates, the flag is set iff it started set or some update reached 0.95. |
| `App.EndSceneShownIffReached` | src/App.tsx:52-56 | Starting hidden, the end scene shows iff some progress value was ≥ 0.95. |
| `App.EndSceneNeverHidden` | src/App.tsx:52-56 | Once shown, the end scene stays shown whatever progress follows. |
| `App.AppState.constructor` | src/App.tsx:22 | The end scene starts hidden. |
| `App.AppState.OnProgress` | src/App.tsx:52-56 | The effect sets `showEndScene` when progress ≥ 0.95 and never clears it. |
| `GameHUD.CurrentLevel` | src/components/GameHUD.tsx:14-23 | The memo scan returns the same level as `App.GetCurrentLevel`, the table entry at the current-level index. |
| `GameHUD.BarWidthPercent` | src/components/GameHUD.tsx:32 | The bar width is progress × 100 percent: in [0,100] for progress in [0,1], 0 at 0 and 100 at 1. |
| `GameHUD.HintsExclusive` | src/components/GameHUD.tsx:90-98 | The two hints are never both shown, neither shows at exactly 0.05, and exactly one shows elsewhere. |
| `GameHUD.HudDefaults` | src/components/GameHUD.tsx:12-90 | With the defaults (progress 0, position 0), the first level and the scroll hint are selected. |
| `HorizontalExperience.LevelOffsets` | src/components/HorizontalExperience.tsx:21-28 | Offsets pair each level, in order, with the sum of the widths before it. |
| `HorizontalExperience.OffsetsChain` | src/components/HorizontalExperience.tsx:23-27 | For the offsets `LevelOffsets` returns, the first is 0, each next one adds the previous width, and they strictly increase, so the sections tile the strip. |
| `HorizontalExperience.ActiveLevel` | src/components/HorizontalExperience.tsx:31-40 | The index loop returns the id of the current level, or the last id past the end. |
| `HorizontalExperience.ActiveLevelSpansPosition` | src/components/HorizontalExperience.tsx:31-40 | Inside the world, the active level's span [offset, offset + width) contains the position. |
| `HorizontalExperience.ContainerTranslateX` | src/components/HorizontalExperience.tsx:48 | For a position ≥ 0 the strip moves left by exactly the position and never right; for a negative position the text `translateX(--Npx)` is not a valid length and gives no translation (`None`). |
| `HorizontalExperience.Sections` | src/components/HorizontalExperience.tsx:52-61 | One section per offset, in order, each told whether its id is the active id. |
| `HorizontalExperience.ExactlyOneActive` | src/components/HorizontalExperience.tsx:59 | With distinct ids, exactly one section (the current level's) gets full opacity and the subtitle overlay. |
| `HorizontalExperience.ActiveSectionUnderViewportEdge` | src/components/HorizontalExperience.tsx:48-59 | For 0 ≤ position < total width the translation is valid, and after it the active section covers screen x = 0. |
| `Physics.ApplyFriction` | src/utils/physics.ts:11-16 | Both components are scaled by `friction`; for friction in (0,1) and v ≠ 0 the squared speed strictly drops and stays nonzero. |
| `Physics.FrictionKeepsDecaying` | src/utils/physics.ts:11-16 | Repeated friction keeps strictly lowering the speed at every frame and never reaches zero. |
| `Physics.ApplyGravity` | src/utils/physics.ts:21-26 | `inverted` defaults to false. x is unchanged; y rises by a positive gravity, or falls when inverted. |
| `Physics.GravityInverts` | src/utils/physics.ts:21-26 | Normal and inverted gravity of the same strength undo each other. |
| `Physics.GravityScenario` | src/utils/physics.ts:21-26 | ({0,0}, 0.3, false) gives {0,0.3}; inverted gives {0,−0.3}. |
| `Physics.ApplyTurbulence` | src/utils/physics.ts:31-43 | A strength ≤ 0 returns v; otherwise each component moves by an amount in [−s/2, s/2). |
| `Physics.NoiseOffset` | src/utils/physics.ts:35-36 | (r − 0.5)·s lies in [−s/2, s/2) for r in [0,1). |
| `Physics.ClampSpeed` | src/utils/physics.ts:48-60 | Under the cap v is returned; over it, v is scaled by maxSpeed/speed < 1 to length exactly abs(maxSpeed): by a factor in [0,1) for a cap ≥ 0, and reversed (a negative factor) for a negative cap. |
| `Physics.ClampHitsCap` | src/utils/physics.ts:51-56 | Scaling by maxSpeed/speed gives squared magnitude maxSpeed². |
| `Physics.StabilizeY` | src/utils/physics.ts:65-73 | x is unchanged, it is a no-op at targetY, and it pulls y toward targetY for a positive factor. |
| `Physics.ApplyForceField` | src/utils/physics.ts:79-86 | The velocity is returned unchanged for every input. |
| `Physics.DistanceProperties` | src/utils/physics.ts:91-95 | The distance is unique, symmetric and zero exactly for equal points. |
| `Physics.ZeroDistance` | src/utils/physics.ts:91-95 | A distance is 0 exactly when the two points are equal. |
| `Physics.Lerp` | src/utils/physics.ts:100-102 | lerp(a,b,0) = a and lerp(a,b,1) = b. |
| `Physics.LerpBetween` | src/utils/physics.ts:100-102 | For t in [0,1], lerp stays between a and b. |
| `Physics.CheckBounds` | src/utils/physics.ts:107-118 | The padding defaults to 50. x is unchanged. Near the top, y becomes abs(v.y)/2 ≥ 0; near the bottom, −abs(v.y)/2 ≤ 0; otherwise v is unchanged. |
| `Noise.JsMod` | src/utils/noise.ts:21-23 | JavaScript `%` on non-negative operands lies in [0, m), is the identity below m, and is 0 on an exact multiple of m. |
| `Noise.ShuffleIndex` | src/utils/noise.ts:21 | For a seed ≥ 0, the swap partner of cell i lies in [0, i], and it is cell 0 when the seed is whole. |
| `Noise.NextSeed` | src/utils/noise.ts:23 | The LCG step keeps the seed in [0, 2^31). |
| `Noise.Swap` | src/utils/noise.ts:22 | The destructuring swap exchanges cells i and j and leaves all others. |
| `Noise.SwapPermutes` | src/utils/noise.ts:22 | A swap preserves the multiset of the table. |
| `Noise.ShufflePermutes` | src/utils/noise.ts:20-24 | The whole shuffle loop preserves the multiset of the table. |
| `Noise.WholeSeedRotates` | src/utils/noise.ts:19-24 | From a whole seed, `(seed*(i+1)) % (i+1)` is 0 at every step, and the LCG keeps the seed whole. So the shuffle swaps each cell with cell 0 and leaves the rotation `p[k] = (k + 1) % 256`. |
| `Noise.PermutationTableShape` | src/utils/noise.ts:13-27 | The first 256 cells are a permutation of 0..255 containing every value. The table has 512 cells in 0..255, and its upper half repeats the lower. |
| `Noise.SimplexNoise.BuildPermutationTable` | src/utils/noise.ts:13-27 | The in-place fill and shuffle loops return exactly the doubled shuffled table for the starting seed, and leave the LCG-advanced seed. |
| `Noise.SimplexNoise.constructor` | src/utils/noise.ts:8-11 | The same seed always gives the same table (determinism), and the generator is valid for every lookup. |
| `Noise.Fade` | src/utils/noise.ts:29-31 | fade(0) = 0 and fade(1) = 1. |
| `Noise.FadeSymmetric` | src/utils/noise.ts:29-31 | fade(1 − t) = 1 − fade(t). |
| `Noise.FadeRange` | src/utils/noise.ts:29-31 | fade maps [0,1] into [0,1]. |
| `Noise.Lerp` | src/utils/noise.ts:33-35 | The private lerp hits a at t = 0 and b at t = 1. |
| `Noise.LerpBetween` | src/utils/noise.ts:33-35 | For t in [0,1], the private lerp stays between its ends. |
| `Noise.GradCoefficient` | src/utils/noise.ts:38-40 | The slope has magnitude 1 + (h & 7), in [1,8], and is negative iff bit 3 of hash & 15 is set. |
| `Noise.Grad` | src/utils/noise.ts:37-41 | grad is 0 at offset 0 and lies in [−8, 8] for offsets in [−1, 1]. |
| `Noise.Cell` | src/utils/noise.ts:44-56 | `Math.floor(x) & 255` lies in [0, 255]. |
| `Noise.Frac` | src/utils/noise.ts:45-59 | x − floor(x) lies in [0,1). |
| `Noise.Noise1DOf` | src/utils/noise.ts:43-52 | Every table read is in bounds (X + 1 ≤ 256; hashed reads ≤ 255), and the value lies in [−8, 8]. |
| `Noise.Noise2DOf` | src/utils/noise.ts:54-72 | Every table read is in bounds (a, b ≤ 510; a + 1, b + 1 ≤ 511), and the value lies in [−8, 8]. |
| `Noise.SimplexNoise.Noise1D` | src/utils/noise.ts:43-52 | `noise1D` on a valid generator lies in [−8, 8]. |
| `Noise.SimplexNoise.Noise2D` | src/utils/noise.ts:54-72 | `noise2D` on a valid generator lies in [−8, 8]. |
| `Noise.AmplitudeSumAtLeastOne` | src/utils/noise.ts:95-100 | With persistence > 0 and at least one octave, `maxValue` is at least 1. |
| `Noise.OctaveTotalBounded` | src/utils/noise.ts:97-102 | If every sample is bounded by B, the total is bounded by B times the summed amplitudes. |
| `Noise.OctaveBound` | src/utils/noise.ts:91-105 | With samples bounded by B, persistence > 0 and octaves ≥ 1, the normalised sum is defined and bounded by B. |
| `Noise.OctaveNoiseBound` | src/utils/noise.ts:91-105 | On the generator's `noise2D`, octave noise is defined and lies in [−8, 8]. |
| `Noise.DefaultAmplitudeSum` | src/utils/noise.ts:91-100 | The defaults (4 octaves, persistence 0.5) give maxValue = 1.875. |
| `Noise.OctaveSum` | src/utils/noise.ts:91-105 | The loop computes total/maxValue, where maxValue is the sum of persistence^i; it is undefined when maxValue is 0. |
| `Noise.GlobalNoise.constructor` | src/utils/noise.ts:76 | The module-level generator, built from a `Math.random()` seed in [0,1), holds the table for that seed and is valid. |
| `Noise.GlobalNoise.SetNoiseSeed` | src/utils/noise.ts:78-80 | Re-seeding installs a fresh generator whose table is the one built from that seed. |
| `Noise.GlobalNoise.Noise1D` | src/utils/noise.ts:82-84 | The exported `noise1D` reads the current generator and lies in [−8, 8]. |
| `Noise.GlobalNoise.Noise2D` | src/utils/noise.ts:86-88 | The exported `noise2D` reads the current generator and lies in [−8, 8]. |
| `Noise.GlobalNoise.OctaveNoise2D` | src/utils/noise.ts:91-105 | The exported octave noise equals the specified normalised sum, and lies in [−8, 8] for octaves ≥ 1 and persistence > 0. |
| `ObstacleStore.Max` | src/stores/obstacleStore.ts:24 | `Math.max` on the extended reals is an upper bound of both arguments and equals one of them. |
| `ObstacleStore.MaxIsLeast` | src/stores/obstacleStore.ts:24 | The maximum is the least upper bound. |
| `ObstacleStore.AfterSetBlocked` | src/stores/obstacleStore.ts:19-20 | `setBlocked` changes only `isBlocked`; the ceiling is untouched. |
| `ObstacleStore.AfterUpdateMaxScroll` | src/stores/obstacleStore.ts:22-25 | The ceiling never decreases and covers the position. A position already below it changes nothing. |
| `ObstacleStore.AfterReset` | src/stores/obstacleStore.ts:27-28 | `reset` restores exactly the initial state (not blocked, ceiling `Infinity`). |
| `ObstacleStore.UpdateIdempotent` | src/stores/obstacleStore.ts:24 | Applying `updateMaxScroll` twice with the same position equals applying it once. |
| `ObstacleStore.CeilingNeverDecreases` | src/stores/obstacleStore.ts:22-25 | Over any sequence of updates, the ceiling never drops, covers every position passed, and `isBlocked` is untouched. |
| `ObstacleStore.InfinityAbsorbs` | src/stores/obstacleStore.ts:17-24 | From the initial `Infinity`, no update changes the ceiling. |
| `ObstacleStore.Store.constructor` | src/stores/obstacleStore.ts:16-17 | The store starts unblocked with ceiling `Infinity`. |
| `ObstacleStore.Store.SetBlocked` | src/stores/obstacleStore.ts:19-20 | The store's fields after `setBlocked` match `AfterSetBlocked`. |
| `ObstacleStore.Store.UpdateMaxScroll` | src/stores/obstacleStore.ts:22-25 | The store's fields after `updateMaxScroll` match `AfterUpdateMaxScroll`. |
| `ObstacleStore.Store.Reset` | src/stores/obstacleStore.ts:27-28 | The store's fields after `reset` match the initial state. |
| `ScrollProgress.RawProgress` | src/hooks/useScrollProgress.ts:14 | Below a positive height the ratio r satisfies r·docHeight = scrollTop; otherwise it is 0. |
| `ScrollProgress.Clamp01` | src/hooks/useScrollProgress.ts:17 | The clamp lands in [0,1], is the identity on [0,1], and saturates on each side. |
| `ScrollProgress.Progress` | src/hooks/useScrollProgress.ts:11-17 | Progress is in [0,1], is 0 when docHeight ≤ 0, and equals the raw ratio when that is already in [0,1]. |
| `ScrollProgress.RawProgressMonotone` | src/hooks/useScrollProgress.ts:14 | For a fixed positive height, the raw ratio is monotone in the offset. |
| `ScrollProgress.ProgressMonotone` | src/hooks/useScrollProgress.ts:14-17 | For a fixed positive height, progress is monotone in the offset. |
| `ScrollProgress.ProgressEnds` | src/hooks/useScrollProgress.ts:14-17 | Scrolled to or past the bottom, progress is 1; at or above the top, 0. |
| `ScrollProgress.ScrollState.constructor` | src/hooks/useScrollProgress.ts:7-8 | Progress and scroll offset both start at 0. |
| `ScrollProgress.ScrollState.HandleScroll` | src/hooks/useScrollProgress.ts:11-18 | `scrollY` keeps the raw offset, and `progress` is the clamped ratio. |
| `HorizontalScroll.Capped` | src/hooks/useHorizontalScroll.ts:23-25 | The result never passes the ceiling, is unchanged below it, and is cut to it above it. |
| `HorizontalScroll.PositionUnderCeiling` | src/hooks/useHorizontalScroll.ts:17-30 | The emitted position is at most the ceiling, and is either ratio × total width or the ceiling. |
| `HorizontalScroll.UnblockedIsExact` | src/hooks/useHorizontalScroll.ts:20-23 | With the `Infinity` ceiling, the position is exactly ratio × 10500. |
| `HorizontalScroll.PositionMonotone` | src/hooks/useHorizontalScroll.ts:17-28 | For a fixed positive height and ceiling, the position is monotone in the scroll offset. |
| `HorizontalScroll.RatioNotClamped` | src/hooks/useHorizontalScroll.ts:17-20 | The ratio is not clamped: an offset of twice the height maps to 21000. |
| `HorizontalScroll.EventKeepsCeiling` | src/hooks/useHorizontalScroll.ts:23-27 | The store is told only positions at or below the ceiling, so the update leaves the state unchanged. |
| `HorizontalScroll.HorizontalScrollState.constructor` | src/hooks/useHorizontalScroll.ts:10 | The horizontal position starts at 0, and the hook reads the store it is given. |
| `HorizontalScroll.HorizontalScrollState.HandleScroll` | src/hooks/useHorizontalScroll.ts:14-30 | The new position is the capped mapping, and the store's state is unchanged after the event. |
| `PhotoReveal.Step` | src/components/PhotoReveal.tsx:28-40 | `revealed` never returns to false, and opacity stays in [0,1] if it started there. |
| `PhotoReveal.StepPreservesInv` | src/components/PhotoReveal.tsx:25-40 | Opacity in [0,1], and 0 while not revealed, is kept by every run of the effect. |
| `PhotoReveal.NearRevealsLinearly` | src/components/PhotoReveal.tsx:31-35 | Within the threshold the photo is revealed with opacity 1 − distance/threshold, in (0,1]. |
| `PhotoReveal.Hysteresis` | src/components/PhotoReveal.tsx:31-39 | Between 1 and 1.5 thresholds, both state fields are unchanged. |
| `PhotoReveal.DarkensOnlyFar` | src/components/PhotoReveal.tsx:36-38 | A visible photo goes to opacity 0 only when it was revealed and the distance exceeds 1.5 thresholds. |
| `PhotoReveal.StepIdempotent` | src/components/PhotoReveal.tsx:40 | Re-running the effect with the same inputs (it depends on `revealed`) changes nothing more. |
| `PhotoReveal.DarkUntilFirstApproach` | src/components/PhotoReveal.tsx:25-31 | Until the player first comes within the threshold, the state stays hidden at opacity 0. |
| `PhotoReveal.RevealedForever` | src/components/PhotoReveal.tsx:25-32 | Once revealed, always revealed. |
| `PhotoReveal.PhotoRevealState.constructor` | src/components/PhotoReveal.tsx:25-26 | A photo starts unrevealed at opacity 0. |
| `PhotoReveal.PhotoRevealState.OnChange` | src/components/PhotoReveal.tsx:19-40 | With the threshold defaulting to 300, the effect updates `revealed` and `opacity` as `Step` does. |
| `PhotoLayer.OrNumber` | src/components/PhotoLayer.tsx:60-66 | JavaScript `||` with a fallback: a missing value or 0 takes the fallback; any other value is kept. |
| `PhotoLayer.OrString` | src/components/PhotoLayer.tsx:58-69 | A missing or empty string takes the fallback. |
| `PhotoLayer.FilterOf` | src/components/PhotoLayer.tsx:43-51 | The filter defaults are grain 0, blur 0, contrast 1, saturation 1 and brightness 1. |
| `PhotoLayer.Render` | src/components/PhotoLayer.tsx:39-113 | `reveal` dispatches to the reveal element, `parallax` to the parallax element, anything else to the static div. Every element carries the photo's source, its left edge x, and the level's filter. Top, width and height are y, width and height, or 0, 400 and 300 when absent or 0. Threshold falls back to 400 and depth to 0.5 in the same way, and are passed through otherwise. Alt text and class name are the given strings, or empty. |
| `PhotoLayer.Layer` | src/components/PhotoLayer.tsx:38 | One element per photo, in input order. |
| `PhotoLayer.ZeroContrastBecomesOne` | src/components/PhotoLayer.tsx:47-48 | A 0 contrast or saturation is rendered as 1, because JavaScript `||` treats 0 as missing. |
| `PhotoParallax.ParallaxOffset` | src/components/PhotoParallax.tsx:24-26 | Zero scroll or depth gives 0; positive scroll and depth give a negative offset. |
| `PhotoParallax.ParallaxLinear` | src/components/PhotoParallax.tsx:25 | Scaling the scroll by k scales the offset by k. |
| `PhotoParallax.DeeperMovesFurther` | src/components/PhotoParallax.tsx:25 | For positive scroll, a deeper photo moves further left. |
| `PhotoParallax.ParallaxDefaults` | src/components/PhotoParallax.tsx:18-25 | The defaults (scroll 0, depth 0.5) give offset 0. |
| `LevelSection.PhotosByLevel` | src/components/LevelSection.tsx:25-139 | An unknown level id yields the empty list; each of the five known ids has photos. |
| `LevelSection.PhotosShiftWithOffset` | src/components/LevelSection.tsx:31-129 | Changing `offsetX` shifts every photo's x by the same amount and changes nothing else. |
| `LevelSection.ManifestWellFormed` | src/components/LevelSection.tsx:26-136 | Every entry is a reveal with a positive threshold or a parallax with depth in (0,1). |
| `LevelSection.EveryLevelHasPhotos` | src/components/LevelSection.tsx:26-138 | Every level of the table has a non-empty manifest. |
| `LevelSection.VignetteOverlay` | src/components/LevelSection.tsx:179-185 | The vignette is rendered iff `vignette` is truthy, with that value as its opacity. |
| `LevelSection.Section` | src/components/LevelSection.tsx:141-185 | `left` is offsetX and width is the level width. Background opacity is 1 when active and 0.3 otherwise. The level's subtitle shows exactly when active. The photos are the level's manifest, each rendered with the player position, the scroll position and the level's visual profile. The vignette is shown iff the level's vignette is truthy, at that opacity. |
| `LevelSection.OnlyConstraintVignette` | src/components/LevelSection.tsx:179-185 | On the real table, only CONTRAINTE has a vignette, at opacity 0.8. |
| `GameCanvas.LevelAfterEffect` | src/components/GameCanvas.tsx:342-350 | Before the total width, the level is the one containing the position; from the total width on, the current level is left unchanged. |
| `GameCanvas.Canvas.constructor` | src/components/GameCanvas.tsx:91-134 | The canvas starts in the first level with no particles, the player at (0, 0) with an empty trail, world offset 0, the initial collectibles and zones, no effects, score 0, and the given background photos. |
| `GameCanvas.SpawnAmbient` | src/components/GameCanvas.tsx:317-325 | An ambient particle lies in [0, width) × [0, height) (the y range when height > 0), with size in [1,4), both speeds in [−0.25, 0.25), opacity in [0, 0.5), and the level colour. |
| `GameCanvas.AmbientParticles` | src/components/GameCanvas.tsx:315-327 | The fill makes one particle per draw, in draw order. |
| `GameCanvas.AmbientInBand` | src/components/GameCanvas.tsx:315-327 | Freshly filled particles already lie in the [−10, width + 10] band the frame update keeps, and drift left. |
| `GameCanvas.Canvas.FillParticles` | src/components/GameCanvas.tsx:315-327 | An empty particle list on a canvas of positive width becomes the 50 ambient particles in the current level colour; otherwise nothing changes. |
| `GameCanvas.Canvas.CentrePlayer` | src/components/GameCanvas.tsx:332-339 | With both sides positive the player moves to (width/2, height/2); otherwise nothing changes. |
| `GameCanvas.Canvas.OnDimensions` | src/components/GameCanvas.tsx:300-339 | A change of dimensions fills the particles and then centres the player, as the two effects above say; nothing else changes. |
| `GameCanvas.CentreIsRest` | src/components/GameCanvas.tsx:332-339 | Once centred on a canvas at least 160 high, the player stays at the centre line while the mouse is away. |
| `GameCanvas.Canvas.UpdateLevel` | src/components/GameCanvas.tsx:342-350 | The effect's loop changes only `currentLevel`, as `LevelAfterEffect` says. |
| `GameCanvas.StepParticle` | src/components/GameCanvas.tsx:409-419 | x moves by speedX − 1 and y by speedY. Below −10 the particle re-enters at width + 10 with y in [0, height). x is always ≥ −10, and it takes the level colour. |
| `GameCanvas.StepParticles` | src/components/GameCanvas.tsx:409-419 | Every particle is stepped with its own re-entry draw. |
| `GameCanvas.ParticleStaysInBand` | src/components/GameCanvas.tsx:409-417 | A particle in [−10, width + 10] stays there, and moves left unless it wraps. |
| `GameCanvas.ClampY` | src/components/GameCanvas.tsx:434 | The result is ≥ 80, is ≤ height − 80 when height ≥ 160, and is the identity inside the margins. |
| `GameCanvas.PlayerY` | src/components/GameCanvas.tsx:425-434 | The new height is ≥ 80, and is ≤ height − 80 when height ≥ 160. |
| `GameCanvas.CentrePull` | src/components/GameCanvas.tsx:431-432 | Without hover, the player moves 2% of the way to the centre line and does not overshoot it. |
| `GameCanvas.HoverWithinMargins` | src/components/GameCanvas.tsx:425-434 | With hover and everything inside the margins, the new height is 0.931·y + 0.049·mouseY + 0.02·centre. |
| `GameCanvas.PushTrail` | src/components/GameCanvas.tsx:437-440 | Push then shift past 100: the last entry is the new point, the older entries keep their order, and the length stays ≤ 100. |
| `GameCanvas.TrailKeepsLatest` | src/components/GameCanvas.tsx:437-440 | After any run of frames, the trail holds exactly the latest 100 points, in order. |
| `GameCanvas.TrailFromEmpty` | src/components/GameCanvas.tsx:437-440 | From an empty trail, the length stays in 1..100 and the trail ends at the latest point. |
| `GameCanvas.Canvas.UpdateGame` | src/components/GameCanvas.tsx:395-440 | A zero-sized canvas changes nothing. Otherwise particles, world offset, player height and trail are updated as specified, and nothing else changes. |
| `GameCanvas.GlobalProgress` | src/components/GameCanvas.tsx:451-452 | Global progress is ≤ 1, ≥ 0 for non-negative offsets, offset/10500 within the world, and 1 past it. |
| `GameCanvas.RevealTarget` | src/components/GameCanvas.tsx:585-609 | The target lies in [0,1]. It is 1 at distance ≥ 800 while the text is right of −1500, and 0 once the text is 2000 further left. |
| `GameCanvas.Smooth` | src/components/GameCanvas.tsx:612 | The result is ≤ 1. From old and target values in [0,1], it stays in [0,1] between the old value and the target. |
| `GameCanvas.SmoothClosesGap` | src/components/GameCanvas.tsx:612 | Each frame closes 8% of the remaining gap to the target. |
| `GameCanvas.SmoothRunGap` | src/components/GameCanvas.tsx:612 | After n frames toward a fixed target, the gap is 0.92^n of the initial gap, and progress stays in [0,1]. |
| `GameCanvas.StepPhoto` | src/components/GameCanvas.tsx:576-612 | Culled photos are untouched. Others change only `revealProgress`, to the smoothed target, which stays in [0,1]. |
| `GameCanvas.StepPhotos` | src/components/GameCanvas.tsx:576-612 | Every photo is stepped with its own curve value. |
| `GameCanvas.Canvas.UpdatePhotos` | src/components/GameCanvas.tsx:576-612 | The photo loop sets every photo to `StepPhoto` of its old value and changes nothing else. |
| `GameCanvas.RevealedChars` | src/components/GameCanvas.tsx:793-832 | floor(len × progress) lies in [0, len] for progress in [0,1]: 0 at 0 and len at 1. |
| `GameCanvas.Leading` | src/components/GameCanvas.tsx:794 | `substring(0, n)` is a prefix of the string, of length n clamped into [0, length of s]. |
| `GameCanvas.DisplayedTitle` | src/components/GameCanvas.tsx:792-794 | The displayed title is a prefix of the title, of the revealed length: whole at progress 1 and empty at 0. |
| `GameCanvas.CursorChar` | src/components/GameCanvas.tsx:797-798 | The cursor glyph is appended iff progress < 1, the blink is on, and revealed < length. |
| `GameCanvas.NoCursorWhenComplete` | src/components/GameCanvas.tsx:797-798 | No cursor after a fully revealed title. |
| `GameCanvas.LineShown` | src/components/GameCanvas.tsx:837-841 | A line is drawn only once the revealed count passes its start, with `charsToShow` in [0, line.length]. |
| `GameCanvas.LinesTypeInOrder` | src/components/GameCanvas.tsx:835-841 | After a line that is not complete, no later line is drawn. |
| `GameCanvas.LineReveals` | src/components/GameCanvas.tsx:832-841 | The per-line loop's running `charCount` yields `LineShown` for every line. |
| `GameCanvas.IsHit` | src/components/GameCanvas.tsx:963-974 | A collectible is hit iff it is not collected, its screen x is within 100 of the canvas, and its bobbing position is less than 40 from the player, measured in world coordinates. |
| `GameCanvas.FirstStarAtCentre` | src/components/GameCanvas.tsx:963-974 | A player centred on the world offset picks up the first star at its height; a player at screen x 0 misses it. |
| `GameCanvas.MarkCollected` | src/components/GameCanvas.tsx:975-977 | Only entries with the id become collected; everything else is unchanged, and no entry goes from true to false. |
| `GameCanvas.SpawnParticle` | src/components/GameCanvas.tsx:986-993 | A burst particle starts at the pickup point with vx in [−4,4), vy in [−6,2) and size in [2,6). |
| `GameCanvas.CollectEffect` | src/components/GameCanvas.tsx:980-995 | The burst has life 0, maxLife 30, and 15 particles at the pickup point in the level colour. |
| `GameCanvas.HitMeansIdHit` | src/components/GameCanvas.tsx:962-977 | A collectible hit during the pass gets its own id marked. |
| `GameCanvas.MarkStep` | src/components/GameCanvas.tsx:962-977 | Handling one more entry extends the marking by that entry. |
| `GameCanvas.NoHitNoScore` | src/components/GameCanvas.tsx:962-977 | Without a hit there is no score and no id marked. |
| `GameCanvas.BurstsAtPickups` | src/components/GameCanvas.tsx:978-995 | The bursts of a pass are one per hit. Each is a fresh 30-frame burst of 15 particles in the level colour, at the screen point (screen x, worldY + wobble) of a collectible hit in that pass. |
| `GameCanvas.Canvas.CollectPass` | src/components/GameCanvas.tsx:962-999 | Collected entries are skipped. Each hit (not collected, on screen, distance < 40) marks its id collected and adds 10. The effect list grows by exactly the hits' bursts, in pass order, each at its collectible's screen point in the level colour; nothing else changes. |
| `GameCanvas.InZoneInWorld` | src/components/GameCanvas.tsx:1053-1063 | The screen-space rectangle test equals the world-space test. |
| `GameCanvas.ZoneCentre` | src/components/GameCanvas.tsx:1059-1063 | A zone of non-negative size contains its centre; a zone of negative size contains nothing. |
| `GameCanvas.SetZoneActive` | src/components/GameCanvas.tsx:1065-1067 | Only zones with the id change, and only their `active` field. |
| `GameCanvas.ZoneAfterFrame` | src/components/GameCanvas.tsx:1052-1067 | An on-screen zone's `active` records whether the player is inside; culled zones are untouched. |
| `GameCanvas.InitialZonesDistinct` | src/components/GameCanvas.tsx:123-128 | The initial zone ids are pairwise distinct. |
| `GameCanvas.Canvas.ZonePass` | src/components/GameCanvas.tsx:1052-1067 | With distinct ids, every zone becomes `ZoneAfterFrame` of its old value; nothing else changes. |
| `GameCanvas.StepEffectParticle` | src/components/GameCanvas.tsx:1113-1116 | Position moves by velocity, vy gains 0.3, and vx decays toward 0 without changing sign. |
| `GameCanvas.ParticleRadius` | src/components/GameCanvas.tsx:1118-1119 | The drawn radius is always ≥ 0.5. For size ≥ 1 and life in [0, maxLife] it is the shrinking size, size × (1 − life/maxLife × 0.5). |
| `GameCanvas.AdvanceEffect` | src/components/GameCanvas.tsx:1111-1128 | Life increases by 1, and every particle is stepped. |
| `GameCanvas.Prune` | src/components/GameCanvas.tsx:1131 | An effect is kept iff it was present with life < maxLife. |
| `GameCanvas.PruneAppend` | src/components/GameCanvas.tsx:1131 | Pruning distributes over concatenation, so the surviving effects keep their order. |
| `GameCanvas.PruneKeepsLiving` | src/components/GameCanvas.tsx:1131 | Pruning a list of living effects keeps it whole and in order. |
| `GameCanvas.CollectEffectLifetime` | src/components/GameCanvas.tsx:1111-1131 | A fresh burst survives frames 0..29 with life n, and is gone after 30 frames. |
| `GameCanvas.Canvas.EffectPass` | src/components/GameCanvas.tsx:1111-1131 | The effect list becomes the pruned, advanced list; nothing else changes. |

## Left out

- Canvas painting is not part of this model: gradients, shadows, text drawing, images and their cache, walk cycle, twinkle, zone sparkles, background colour interpolation and the HUD drawn on canvas. These are rendering side effects.
- The frame scheduler (`useGameLoop`), the audio stub, the HTTP "dream" endpoint and its client, and the DOM-only components (end scene, hover overlay, `LevelPhotos`) are not part of this model.
- `Math.random`, `Math.pow(·, 1.2)`, `Math.sin`, `Math.hypot`, `Math.sqrt` and `Date.now()` are parameters. The pickup test `hypot < 40` is stated exactly as a squared distance below 1600.
- GameCanvas.RevealTarget: the `Math.pow(1 − d/800, 1.2)` value is a parameter in [0,1], not tied to the distance, because Dafny has no real power function.
- Physics.ClampSpeed: takes the speed as a parameter with speed² = x² + y², because Dafny has no square root; IEEE rounding is not modelled. A zero velocity under a negative cap is excluded by the precondition: there the source divides by a zero speed, and 0 × −Infinity gives NaN.
- Physics.DistanceProperties: `distance` is stated as a relation (the non-negative root of the squared difference), not computed, for the same reason.
- IEEE-754 doubles are modelled as exact reals. The LCG product in the noise shuffle exceeds 2^53, so its exact floating-point bits are not captured, only its range. One consequence: in doubles, the seed is a whole number from the second LCG step on for almost any `Math.random()` seed, and always after `setNoiseSeed` with a whole argument. From then on every swap partner is cell 0, and the program's table is close to the rotation `p[k] = (k + 1) % 256`. The model's exact-real table is a genuine shuffle for a fractional seed. `Noise.WholeSeedRotates` records the whole-seed case, which holds in both.
- HorizontalExperience.ContainerTranslateX: for a negative position (elastic overscroll reaches the mapper unclamped) the model says only that the transform text is invalid (`None`). The browser then drops that declaration. Which translation stays on screen depends on the previous render and is not modelled.
- Noise.SimplexNoise.constructor: the default seed `Math.random()` is a parameter in [0,1); seeds must be ≥ 0 (a negative seed would make JavaScript's truncating `%` negative and index the table out of bounds).
- Noise.GlobalNoise.SetNoiseSeed: the exported `setNoiseSeed` accepts any number, but the model requires a seed ≥ 0 for the same reason as the constructor; negative seeds are not modelled.
- Noise.OctaveSum: `octaves` is an integer; a fractional octave count, on which the JavaScript loop runs ceil(octaves) times, is not modelled. A zero `maxValue` (NaN in JavaScript) is `None`.
- React's asynchronous state updates are modelled as the intended single-frame transition: the stale `updateGame` dependencies and the deferred `setCollectibles`/`setScore`/`setVisualEffects` are not modelled. So there is no claim that each collectible adds exactly 10 once across frames.
- GameCanvas.Canvas.ZonePass: the per-zone contract is stated only for zone lists with distinct ids, as the initial list has. With duplicate ids a later zone's `map` would also overwrite earlier ones.
- GameCanvas.LineShown: `lines` is a parameter. The split of the photo text into lines, and its relation to the text length that `revealedChars` is computed from, are not modelled.
- GameCanvas.Canvas.CollectPass: the visual-effect `id` (`collect_${Date.now()}`) is a parameter.
- The wave path built by the dimension effect (`pathRef`) is never read by any drawing or update code, so it is not modelled.
- GameCanvas.Canvas.FillParticles: the source effect also runs on level changes; the model gives it as one operation that the caller runs on either change.
- The background-photo and inspirational-quote manifests (literal content), and the unsmoothed quote reveal, are not part of this model; `Canvas` takes the photo list as a parameter.
- Zone `active` flags do not feed back into physics, and `applyForceField` is a stub, so no force-field behaviour is modelled.
