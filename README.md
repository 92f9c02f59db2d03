# Portfolio site scripts: a verified model

This project models the logic of a personal portfolio site's front-end
scripts in Dafny. It covers four scripts.

- `js/loading-sketch.js` is the loading-screen sketch. It places up to
  twelve emoji bodies at random, non-overlapping positions. It shows the
  completion text once the bodies have settled and the page has signalled
  completion, in either order. A window resize places the bodies again and
  resets every flag.
- `js/loading.js` is the loading screen's hide gate. A 5000 ms
  minimum-display timer, the page `load` event and a 15000 ms fallback timer
  drive three flags. They start the fade-out at most once and then remove
  the screen.
- `js/sketch.js` is the background particle sketch. It has an RGBA
  colour-string parser that tolerates whitespace around commas. It has
  `updateP5Theme` and its fallbacks to a grey particle colour. It keeps a
  particle pool: sixty particles on setup and resize, dead particles spliced
  out in reverse order, and spawning capped at 150. It also covers each
  particle's lifespan decay.
- `js/main.js` is the page script. It has the strict colour parser, which
  allows whitespace only after commas. It reads the theme's particle colours
  from four CSS variables, with a grey default. It covers the choice of the
  initial theme, the toggle, and `applyTheme`. It picks the icon class of
  experience and award entries.

The files are:

- `wrappers.dfy`: the `Option` type.
- `p5_random.dfy`: p5's `random(n)`, `random(arr)` and `random(min, max)`
  over a single uniform draw. It includes the bound swap of
  `random(min, max)`. A class `Random` stands for the generator: a stream of
  draws in [0, 1) and a cursor.
- `loading_sketch.dfy`: the placement as a function of the random stream,
  and its properties. Class `Sketch` holds the sketch's state. Its methods
  follow `createRandomEmojiBodies`, `doesOverlap`, the settle check, the
  completion signal and the resize handler.
- `loading_screen.dfy`: the hide gate as a pure transition on the gate's
  state, and its invariant. Class `Screen` has one method per callback,
  each proved against that transition.
- `color_parsing.dfy`: both colour parsers, written once over a flag that
  allows whitespace before commas. It proves round trips through the
  `rgb(...)` and `rgba(...)` texts. It proves how the two parsers relate.
- `background_sketch.dfy`: classes `Particle` and `Background`, for the
  pool, the theme colours and the background fill.
- `main_page.dfy`: the theme colours, the theme toggle and class `Page`,
  and the icon selection.

Randomness is a caller-supplied stream `source: nat -> real` of draws in
[0, 1). Each call of `random` consumes one draw, in the order the source
makes the calls. Timers and DOM events are discrete events or method calls.
Distances are compared squared, because `dist(a, b) < s` with `s > 0` holds
exactly when the squared distance is below `s * s`.

Two behaviours of the placement are worth stating.

- On a canvas smaller than `2 * (radius + 10)`, p5's `random(min, max)`
  swaps its bounds, so bodies are still placed. Containment is proved only
  for a large enough canvas (`PlacementContained`), and the first candidate
  is always accepted (`FirstCandidateAccepted`).
- An item that fails its 200 attempts is not skipped. The outer loop draws a
  fresh size and keeps going until 12 bodies are placed or 2400 outer
  iterations have run (`PlaceFromBounded`).

## Model

| member | source | states |
|---|---|---|
| P5Random.ScaledDraw | js/sketch.js:76 | a draw in [0, 1) scales a non-negative width to [0, width], strictly below a positive width |
| P5Random.RandomBetweenBounds | js/loading-sketch.js:105-106 | `random(min, max)` lies between its bounds in whichever order they are given, strictly below the larger one, because the bounds are swapped |
| P5Random.RandomScaleBounds | js/loading-sketch.js:115 | `random(n)` for positive `n` lies in [0, n) |
| P5Random.FloorBelowIsFloor | js/loading-sketch.js:98 | the index search returns `floor(x)` for `x` in [0, length) |
| P5Random.PickIndexIsFloor | js/loading-sketch.js:98 | `random(arr)` picks index `floor(u * arr.length)` |
| P5Random.RandomPick | js/loading-sketch.js:110 | `random(arr)` returns an element of the array |
| P5Random.Random.constructor | js/sketch.js:76 | a generator starts at the beginning of its stream of draws in [0, 1) |
| P5Random.Random.Next | js/sketch.js:120 | each call takes the next draw of the stream, which is in [0, 1) |
| LoadingSketch.SketchPlacerTests | js/loading-sketch.js:143-151 | the placement's conflict test is exactly `doesOverlap`, and conflict-freedom of the list is exactly pairwise separation |
| LoadingSketch.SketchPlacerRealizes | js/loading-sketch.js:105-151 | the placer draws the sketch's candidates and tests distance as `doesOverlap` does |
| LoadingSketch.SketchPlacerSound | js/loading-sketch.js:98-121 | with draws in [0, 1), each size is 50, 100 or 150, and each candidate has radius 0.55 times its size, coordinates between their two bounds, an emoji of the list and an angle in [0, 2π) |
| LoadingSketch.TryPlaceSound | js/loading-sketch.js:103-128 | a body accepted by the retry loop is a candidate for the item's size and conflicts with no body placed so far |
| LoadingSketch.ItemStepSound | js/loading-sketch.js:96-128 | with a sound placer, every body an outer iteration accepts is conflict-free and well formed |
| LoadingSketch.PlaceFromBounded | js/loading-sketch.js:92-131 | a run never holds more than 12 bodies and never exceeds 2400 iterations; it places at most one body per iteration; it ends only with 12 bodies or after 2400 iterations, so failed items are not skipped |
| LoadingSketch.PlacementBounded | js/loading-sketch.js:90-131 | a placement run from an empty list holds at most 12 bodies after at most 2400 iterations, and stops only on one of the two limits |
| LoadingSketch.PlaceFromKeepsOrder | js/loading-sketch.js:123 | bodies already placed stay, in acceptance order, at the front of the result |
| LoadingSketch.PlaceFromSpread | js/loading-sketch.js:109-123 | pairwise separation and well-formedness are kept by every iteration |
| LoadingSketch.PlacementSeparated | js/loading-sketch.js:90-152 | every placed body is at least `radius + existing.radius + 15` from every body placed before it, and is well formed |
| LoadingSketch.SeparatedSymmetric | js/loading-sketch.js:146-147 | separation also holds read from the later body to the earlier one |
| LoadingSketch.PlacementSizes | js/loading-sketch.js:98-121 | every body's size is 50, 100 or 150 and its collision radius is 0.55 times the size |
| LoadingSketch.PlacementContained | js/loading-sketch.js:105-106 | when the canvas is at least `2 * (radius + 10)` in a dimension, each centre lies in `[radius + 10, extent - radius - 10]` in that dimension |
| LoadingSketch.FirstCandidateAccepted | js/loading-sketch.js:91-151 | the first candidate is always accepted, so a run is never empty and starts with that candidate |
| LoadingSketch.FirstAcceptedLeads | js/loading-sketch.js:91-123 | a body accepted in the first iteration heads the result |
| LoadingSketch.Sketch.constructor | js/loading-sketch.js:51-77 | setup places the bodies static on the canvas (container-sized, or window-sized without a container), remembers whether the container was found, and all flags start false |
| LoadingSketch.Sketch.EstablishPlacement | js/loading-sketch.js:90-152 | a placement holds between 1 and 12 bodies, pairwise separated and well formed |
| LoadingSketch.Sketch.DoesOverlap | js/loading-sketch.js:143-152 | the result is true exactly when some placed body is too close to the candidate |
| LoadingSketch.Sketch.CreateRandomEmojiBodies | js/loading-sketch.js:90-140 | the list is reset and refilled with exactly the bodies of the placement run, and the iteration count is returned |
| LoadingSketch.Sketch.PlaceItem | js/loading-sketch.js:102-128 | up to 200 attempts for one size; the first accepted body is appended and the result says whether one was |
| LoadingSketch.Sketch.AttemptPlacement | js/loading-sketch.js:105-127 | an overlapping candidate is rejected after two draws; any other becomes the body after four draws |
| LoadingSketch.Sketch.InitialWaitElapsed | js/loading-sketch.js:73-76 | the initial-wait timer sets `initialWaitOver` |
| LoadingSketch.Sketch.DrawSettleCheck | js/loading-sketch.js:198-209 | when not yet settled, `allSettled` becomes true exactly when the wait is over and every body is static or slower than 0.15 in speed and angular speed; once true it is not recomputed; on settling, the text shows exactly when completion was signalled |
| LoadingSketch.Sketch.MarkAsComplete | js/loading-sketch.js:212-218 | the completion signal sets `showCompletionText`, and the text is shown exactly when the bodies have settled |
| LoadingSketch.Sketch.WindowResized | js/loading-sketch.js:220-241 | with a container of non-zero size the bodies are placed anew on the new canvas from the next draws and every flag is cleared, hiding the text; without a container or with an empty one nothing changes |
| LoadingSketch.CompletionInEitherOrder | js/loading-sketch.js:203-217 | whichever of the signal and the settling comes last, the text ends up visible |
| LoadingScreen.InitialInv | js/loading.js:9-11 | the state after `DOMContentLoaded` satisfies the gate's invariant |
| LoadingScreen.AttemptHideInv | js/loading.js:32-51 | `attemptHideLoadingScreen` keeps the invariant |
| LoadingScreen.PageLoadInv | js/loading.js:20-29 | the `load` handler keeps the invariant |
| LoadingScreen.CleanupTimerInv | js/loading.js:60-69 | the clean-up timer keeps the invariant |
| LoadingScreen.ApplyInv | js/loading.js:13-90 | every callback keeps the invariant: at most one fade scheduled, the screen hidden at most once, and the timers consistent with the flags |
| LoadingScreen.RunInv | js/loading.js:13-90 | every sequence of callbacks keeps the invariant |
| LoadingScreen.HideStartsAtMostOnce | js/loading.js:35-36 | in any order of callbacks the fade is scheduled at most once and the screen hidden at most once; after the fallback no fade is scheduled |
| LoadingScreen.AttemptHideGate | js/loading.js:35 | the attempt changes the state exactly when the minimum time has passed, the page has loaded and the hide is not triggered |
| LoadingScreen.TriggeredStaysTriggered | js/loading.js:35-50 | once the hide is triggered, no callback schedules another fade or changes which path started it |
| LoadingScreen.EitherOrderTriggers | js/loading.js:14-29 | whichever of the minimum-time timer and `load` comes second triggers the hide; the first alone does not |
| LoadingScreen.FallbackGate | js/loading.js:75-79 | the fallback acts exactly when the screen exists, is not hidden and the hide is not triggered; it then hides the screen and sets the flag, so a later normal attempt does nothing |
| LoadingScreen.LoadNotifiesFirst | js/loading.js:20-29 | the `load` handler sets `pageLoaded` and notifies the sketch before any fade it schedules |
| LoadingScreen.Screen.constructor | js/loading.js:9-11 | all flags start false |
| LoadingScreen.Screen.AttemptHideLoadingScreen | js/loading.js:32-51 | the new state is the gate's transition of the old one |
| LoadingScreen.Screen.OnMinimumTime | js/loading.js:14-17 | the minimum-time timer is the gate's transition for that event |
| LoadingScreen.Screen.OnLoad | js/loading.js:20-29 | the `load` event is the gate's transition for that event |
| LoadingScreen.Screen.OnFadeTimer | js/loading.js:54-71 | the fade is the gate's transition for its timer |
| LoadingScreen.Screen.OnCleanupTimer | js/loading.js:60-69 | the clean-up is the gate's transition for its timer |
| LoadingScreen.Screen.OnFallbackTimer | js/loading.js:75-90 | the fallback is the gate's transition for its timer |
| ColorParsing.Run | js/sketch.js:12 | a run is the longest prefix in its character class: every character before its end is in the class and the next one is not |
| ColorParsing.Trim | js/sketch.js:103 | `trim` returns a slice of its input with only whitespace before and after it, and no whitespace at either end of the result |
| ColorParsing.TrimEnd | js/sketch.js:103 | trailing trimming keeps a prefix and drops only whitespace |
| ColorParsing.TrimUnpadded | js/main.js:13 | a text without surrounding whitespace is its own trim |
| ColorParsing.TrimIdempotent | js/main.js:13 | trimming twice is trimming once |
| ColorParsing.Parse | js/sketch.js:10 | a non-string or empty input gives `null` |
| ColorParsing.FirstMatchFinds | js/sketch.js:12 | the search finds a match exactly when some position has one, and returns the match at the first such position |
| ColorParsing.ParseSomeIff | js/sketch.js:10-21 | a parser returns a colour exactly when the input is a non-empty string in which the pattern matches somewhere |
| ColorParsing.NatTextRoundTrip | js/sketch.js:14-16 | `parseInt` reads back the decimal text of any natural number |
| ColorParsing.RgbGroupsRoundTrip | js/sketch.js:12-18 | `rgb(R, G, B)` with digit runs is read as their decimal values with alpha 255 by both parsers |
| ColorParsing.RgbRoundTrip | js/sketch.js:12-18 | `rgb(r, g, b)` is read back as `r`, `g`, `b` with alpha 255 by both parsers, with no 0-255 range check |
| ColorParsing.ParseFloatText | js/sketch.js:17 | `parseFloat` reads `w.f` as `w` plus the fraction `0.f` |
| ColorParsing.RgbaGroupsRoundTrip | js/sketch.js:12-18 | `rgba(R, G, B, a)` is read as the three numbers with alpha `parseFloat(a) * 255` by both parsers |
| ColorParsing.RgbaRoundTrip | js/sketch.js:12-18 | `rgba(r, g, b, a)` is read back with alpha `parseFloat(a) * 255` for any alpha text of digits and dots that parses |
| ColorParsing.CloseTail | js/sketch.js:12 | a closing parenthesis right after the third number is a match without alpha |
| ColorParsing.AlphaTail | js/sketch.js:12 | `, a)` after the third number gives the alpha group `a` |
| ColorParsing.CommaStrictIsLenient | js/main.js:12 | where the strict pattern reads a comma, the lenient one reads the same comma |
| ColorParsing.TailStrictIsLenient | js/main.js:12 | where the strict pattern reads the tail, the lenient one reads the same tail |
| ColorParsing.NumbersStrictIsLenient | js/main.js:12 | where the strict pattern reads the three numbers, the lenient one reads the same groups |
| ColorParsing.MatchStrictIsLenient | js/main.js:12 | where the strict pattern matches, the lenient one matches with the same groups |
| ColorParsing.StrictAcceptedIsLenientAccepted | js/main.js:12 | every string `parseRGBAColorSafe` accepts, `parseRGBAColor` accepts |
| ColorParsing.SpaceBeforeCommaSplitsParsers | js/sketch.js:12 | `rgb(R ,G,B)` is read by the sketch's parser and rejected by the page's |
| ColorParsing.LenientReadsSpaceBeforeComma | js/sketch.js:12 | the sketch's pattern matches `rgb(R ,G,B)` at its start |
| ColorParsing.StrictRejectsSpaceBeforeComma | js/main.js:12 | the page's pattern matches `rgb(R ,G,B)` nowhere |
| BackgroundSketch.Particle.constructor | js/sketch.js:133-147 | seven draws; lifespan 255; speed in [1, 1.8), decay in [0.8, 1.5), size in [1.5, 4); the colour is one of the current colours, or grey when there are none |
| BackgroundSketch.Particle.Update | js/sketch.js:184-188 | each update lowers the lifespan by exactly `decay` |
| BackgroundSketch.LifespanAfterIsLinear | js/sketch.js:187 | after `n` updates the lifespan is `start - n * decay` |
| BackgroundSketch.ParticleLifetime | js/sketch.js:139-140 | a new particle is alive for its first 170 frames and dead after its 319th |
| BackgroundSketch.SurvivorsMembers | js/sketch.js:109-119 | a particle survives removal exactly when it was in the pool and is not dead; the pool does not grow and no particle is duplicated |
| BackgroundSketch.SurvivorsAppend | js/sketch.js:109-119 | removal keeps the order of the survivors |
| BackgroundSketch.NoneDeadKeepsAll | js/sketch.js:114 | a pool with no dead particle is kept whole |
| BackgroundSketch.BackgroundFill | js/sketch.js:103-105 | an unparseable background colour gives `color(0, 0, 0, 5)` |
| BackgroundSketch.FillOfRgb | js/sketch.js:103-105 | a background written `rgb(r, g, b)` is drawn at alpha 255 * 0.2 = 51 |
| BackgroundSketch.ThemeColors | js/sketch.js:26-56 | with `color` available the result is never empty: non-array input, an empty array or a failing conversion give grey alone, and a valid array gives exactly its colours in order; without `color`, non-array input clears the colours and an array leaves them |
| BackgroundSketch.Background.constructor | js/sketch.js:4-6 | the sketch starts with no canvas, no colours and no particles |
| BackgroundSketch.Background.P5Ready | js/sketch.js:30 | once p5 has started, `color` is defined, and nothing else changes |
| BackgroundSketch.Background.UpdateP5Theme | js/sketch.js:26-56 | the new colours are the theme rule applied to the data and the old colours |
| BackgroundSketch.Background.SpawnAt | js/sketch.js:123 | one fresh particle at the given place with full life is appended; the pool before it is unchanged |
| BackgroundSketch.Background.Spawn | js/sketch.js:120 | one fresh particle at a random place inside the canvas is appended, after nine draws |
| BackgroundSketch.Background.Repopulate | js/sketch.js:68-76 | the pool becomes exactly 60 fresh particles inside the canvas; the colours are fetched only when there are none and the page offers them |
| BackgroundSketch.Background.Setup | js/sketch.js:58-83 | with a container, a canvas of its size and 60 fresh particles; without one nothing else changes |
| BackgroundSketch.Background.Resize | js/sketch.js:85-96 | the canvas takes the new size and the pool is replaced by 60 fresh particles inside it |
| BackgroundSketch.Background.UpdateParticles | js/sketch.js:109-119 | every particle is updated once, and the pool becomes exactly the survivors in their order |
| BackgroundSketch.Sweep | js/sketch.js:109-119 | the reverse loop updates every particle of the pool once and leaves exactly those whose lifespan minus `decay` is not negative, in their order |
| BackgroundSketch.UpdateAt | js/sketch.js:110-114 | one turn of the reverse loop lowers that particle's lifespan by `decay`, leaves the others' alone, and splices it out exactly when it is then dead |
| BackgroundSketch.KeptAreSurvivors | js/sketch.js:109-119 | once every particle has had its update, the ones the loop keeps are exactly the particles that are not dead |
| BackgroundSketch.Background.SpawnNew | js/sketch.js:120-124 | a random particle is added when `random(1) < 0.15` and the pool is below 150, then one at the mouse when pressed inside the canvas, still below 150 and `random(1) < 0.5`; the pool never passes 150 by spawning |
| BackgroundSketch.Background.Draw | js/sketch.js:99-129 | nothing happens before setup; otherwise the fill is the theme background, every particle ages by its decay, and the pool is the survivors followed by at most two fresh particles |
| MainPage.ParsedColors | js/main.js:13 | no more colours than variables |
| MainPage.ParsedColorsMembers | js/main.js:13 | a colour is listed exactly when some variable holds it |
| MainPage.ParsedColorsAppend | js/main.js:13 | colours are listed in the order of the variables |
| MainPage.ParsedColorsAll | js/main.js:13 | every variable contributes a colour exactly when all of them parse |
| MainPage.ParsedColorsEmpty | js/main.js:13 | no colour is listed exactly when no variable parses |
| MainPage.ThemeParticleColors | js/main.js:13 | the theme colours number between 1 and 4 |
| MainPage.ThemeParticleColorsCases | js/main.js:13 | grey alone when no variable parses; otherwise the parsed colours in order, all four when all parse |
| MainPage.GetThemeParticleColors | js/main.js:13 | the method returns the theme colours |
| MainPage.CollectColors | js/main.js:13 | the loop pushes exactly the colours of the variables that parse, in order |
| MainPage.SketchTakesThemeColors | js/main.js:14 | with `color` available, the sketch takes exactly the colours the page computed |
| MainPage.InitialThemeChoice | js/main.js:15-16 | a saved theme wins; otherwise `dark` exactly when the user prefers dark; never empty |
| MainPage.Toggle | js/main.js:18 | the toggle gives `light` or `dark`, and `dark` exactly when the current theme is `light` |
| MainPage.ToggleTwice | js/main.js:18 | from `light` or `dark`, one toggle changes the theme and two return to it |
| MainPage.ClicksAlternate | js/main.js:18 | from any start, after the first click the theme alternates |
| MainPage.Page.ApplyTheme | js/main.js:14 | `data-theme` and the stored theme both become the theme; a colour update is requested when p5 is present |
| MainPage.Page.constructor | js/main.js:15-17 | the initial theme is applied |
| MainPage.Page.ToggleClicked | js/main.js:18 | the toggled theme is applied |
| MainPage.Page.AnimationFrame | js/main.js:14 | a requested frame hands the theme colours of the current style to the sketch |
| MainPage.ExperienceIconCases | js/main.js:65 | `fa-graduation-cap` exactly for `education`, otherwise `fa-briefcase` |
| MainPage.AwardIconCases | js/main.js:188-195 | `fa-question-circle` exactly for categories other than the four known ones, and the four known ones have distinct icons |

## Left out

- Matter.js physics is left out: the engine, runner, gravity, boundaries and the shake-and-drop forces. It is a foreign library. The settle check takes each body's live speed and angular speed as input.
- p5 and canvas rendering is left out: drawing emojis, shadows, ellipses, `background`, canvas creation and resizing. It has only visual effects. `Draw` returns the background fill it would use.
- Perlin-noise and mouse steering, velocity and movement are left out. They are floating-point vector numerics with no stated contract. Particle positions are set only at creation.
- BackgroundSketch.Particle.Update: states only the lifespan change; the position step by the velocity is not modelled.
- BackgroundSketch.Sweep: splices a local copy of the pool, which `UpdateParticles` stores back in `particles` afterwards, rather than splicing the field in place; nothing reads the pool in between, so the result is the same.
- BackgroundSketch.Background.Spawn: states the position as within [0, width] x [0, height], where `random` gives the half-open range.
- The alpha given to p5's `color` is not clamped, and alpha-to-lifespan mapping in `display` is not modelled, because both are rendering.
- Console logs and warnings, `try`/`catch` around `draw` and the resize handler, and `noLoop` on a failed setup or draw, are left out. The only exception modelled is a failing colour conversion in `updateP5Theme`, an entry `None` of `ColorData`.
- The "invalid particle" branch of `draw` (js/sketch.js:115-118) is left out. The pool only ever holds `Particle` objects, so it cannot be taken.
- `window.getThemeParticleColors` is read by `setup` and the resize handler, but `js/main.js` keeps that function local. The page therefore never offers it. It is a parameter `themeColors: Option<ColorData>`.
- DOM access, `localStorage`, `matchMedia`, `getComputedStyle` and `fetch` are parameters or fields. The style is a map from variable name to value. The saved theme and the dark preference are inputs.
- Real-time timers become discrete events. No timing between them is modelled.
- The content loading, templating, observers and footer year of `js/main.js` are left out. They are I/O and DOM plumbing. Only the icon classes are kept.
- `notifyLoadingComplete` and `cleanupLoadingSketch` in `js/loading-sketch.js` are elided stubs in the source. The hide gate only records that it calls them. It is not assumed that they call `markAsComplete`.
- The parsers do not check the 0-255 range, and neither does the model. Unicode case folding and normalisation do not arise.
- JavaScript numbers are modelled as exact reals and naturals, without floating-point rounding.
