/** The loading-screen sketch: random non-overlapping placement of the
    emoji bodies, and the settle / completion-text gate driven by the draw
    loop, the external completion signal and window resizes.

    The rigid-body engine that later moves the bodies is not modelled: the
    draw loop's settle check receives each body's live motion as input. */
module LoadingSketch {
  import opened Wrappers
  import opened P5Random

  const Emojis: seq<string> := ["🦄", "👻", "😎", "💖", "💥", "🌟", "💡", "💎"]
  /** Pixel sizes (small, medium, large). */
  const Sizes: seq<real> := [50.0, 100.0, 150.0]
  const NumEmojisToPlace: nat := 12
  const PlacementAttemptsPerBody: nat := 200
  /** The overall cap on outer iterations: 12 * 200 = 2400. */
  const MaxTotalAttempts: nat := 2400
  const MinGap: real := 15.0
  /** Margin kept from the walls when drawing a candidate centre. */
  const WallMargin: real := 10.0
  /** Collision radius as a fraction of the pixel size. */
  const RadiusFactor: real := 0.55
  const SettledSpeedThreshold: real := 0.15
  /** p5's `TWO_PI`. */
  const TwoPi: real := 6.283185307179586

  /** A placed emoji body as created: its centre, collision radius, the
      pixel size it is drawn at, its glyph, its initial angle and whether it
      starts static. */
  datatype Body = Body(x: real, y: real, radius: real, renderSize: real,
                       emoji: string, angle: real, isStatic: bool)

  /** The live state the physics engine reports for one body. */
  datatype Motion = Motion(isStatic: bool, speed: real, angularSpeed: real)

  function Square(v: real): real {
    v * v
  }

  function Abs(v: real): real {
    if v < 0.0 then -v else v
  }

  /** A candidate centre `(x, y)` of the given radius is closer to `b` than
      `radius + b.radius + minGap`. Distances are compared squared: both
      sides are non-negative, because radii are positive and the gap is 15. */
  predicate TooClose(b: Body, x: real, y: real, radius: real) {
    Square(x - b.x) + Square(y - b.y) < Square(radius + b.radius + MinGap)
  }

  /** What `doesOverlap` answers: some placed body is too close. */
  predicate Overlaps(placed: seq<Body>, x: real, y: real, radius: real) {
    exists i :: 0 <= i < |placed| && TooClose(placed[i], x, y, radius)
  }

  /** Every body keeps the required distance from every body placed
      before it. */
  predicate Separated(bodies: seq<Body>) {
    forall i, j :: 0 <= i < j < |bodies| ==>
      !TooClose(bodies[i], bodies[j].x, bodies[j].y, bodies[j].radius)
  }

  /** A body as the placement creates it on a `width` x `height` canvas:
      its size is one of the three pixel sizes, its radius is 0.55 times
      that size, and each coordinate lies between `radius + 10` and
      `extent - radius - 10`, in whichever order those two come. */
  predicate WellFormed(b: Body, width: real, height: real, makeStatic: bool) {
    && b.renderSize in Sizes
    && b.radius == b.renderSize * RadiusFactor
    && Between(b.x, b.radius + WallMargin, width - b.radius - WallMargin)
    && Between(b.y, b.radius + WallMargin, height - b.radius - WallMargin)
    && b.emoji in Emojis
    && 0.0 <= b.angle < TwoPi
    && b.isStatic == makeStatic
  }

  predicate AllWellFormed(bodies: seq<Body>, width: real, height: real, makeStatic: bool) {
    forall i :: 0 <= i < |bodies| ==> WellFormed(bodies[i], width, height, makeStatic)
  }

  // ---------------------------------------------------------------------
  // The placement as a function of the random stream

  /** The three ingredients of the placement loop: how an item's size is
      drawn at a position of the random stream, how a candidate body of a
      given size is drawn (the two coordinate draws, then the emoji and
      angle draws), and when a candidate is too close to a placed body. The
      loop itself is written once over these; `SketchPlacer` gives the
      sketch's own. */
  datatype Placer = Placer(size: nat -> real, candidate: (nat, real) -> Body,
                           tooClose: (Body, Body) -> bool)

  /** The candidate conflicts with some placed body. */
  predicate Conflicts(tooClose: (Body, Body) -> bool, placed: seq<Body>, b: Body) {
    exists i :: 0 <= i < |placed| && tooClose(placed[i], b)
  }

  /** No body conflicts with a body placed before it. */
  predicate Spread(tooClose: (Body, Body) -> bool, bodies: seq<Body>) {
    forall i, j :: 0 <= i < j < |bodies| ==> !tooClose(bodies[i], bodies[j])
  }

  /** The candidate body drawn from `source` at `cursor` for an item of the
      given size: `random(radius + 10, width - radius - 10)` and the same
      for the height, then `random(emojis)` and `random(TWO_PI)`. */
  function Candidate(source: nat -> real, cursor: nat, size: real,
                     width: real, height: real, makeStatic: bool): Body
  {
    var radius := size * RadiusFactor;
    Body(RandomBetween(radius + WallMargin, width - radius - WallMargin, source(cursor)),
         RandomBetween(radius + WallMargin, height - radius - WallMargin, source(cursor + 1)),
         radius, size,
         RandomPick(Emojis, source(cursor + 2)),
         RandomScale(TwoPi, source(cursor + 3)),
         makeStatic)
  }

  /** The sketch's placer: `random(sizes)`, `Candidate`, and the distance
      test of `doesOverlap`. */
  function SketchPlacer(source: nat -> real, width: real, height: real, makeStatic: bool): Placer {
    Placer((c: nat) => RandomPick(Sizes, source(c)),
           (c: nat, size) => Candidate(source, c, size, width, height, makeStatic),
           (a: Body, b: Body) => TooClose(a, b.x, b.y, b.radius))
  }

  /** For the sketch's placer, a conflict is exactly what `doesOverlap`
      reports, and spreading is exactly pairwise separation. */
  lemma SketchPlacerTests(source: nat -> real, width: real, height: real, makeStatic: bool,
                          placed: seq<Body>, b: Body)
    ensures var p := SketchPlacer(source, width, height, makeStatic);
            && (Conflicts(p.tooClose, placed, b) <==> Overlaps(placed, b.x, b.y, b.radius))
            && (Spread(p.tooClose, placed) <==> Separated(placed))
  {
  }

  /** The outcome of one item's retry loop: the accepted body, if any, and
      the position in the random stream after it. */
  datatype Trial = Trial(accepted: Option<Body>, cursor: nat)

  /** The inner `for` loop from attempt number `attempt` on: each attempt
      draws a centre (two draws) and stops at the first one that overlaps
      no placed body, which then draws its emoji and angle (two more). */
  function TryPlace(s: Placer, cursor: nat, placed: seq<Body>, size: real, attempt: nat): Trial
    decreases PlacementAttemptsPerBody - attempt
  {
    if attempt >= PlacementAttemptsPerBody then Trial(None, cursor)
    else
      var b := s.candidate(cursor, size);
      if !Conflicts(s.tooClose, placed, b) then Trial(Some(b), cursor + 4)
      else TryPlace(s, cursor + 2, placed, size, attempt + 1)
  }

  /** One outer iteration from stream position `cursor`: draw the item's
      size, then run the retry loop for it. */
  function ItemStep(s: Placer): (nat, seq<Body>) -> Trial {
    (cursor: nat, placed: seq<Body>) => TryPlace(s, cursor + 1, placed, s.size(cursor), 0)
  }

  /** The result of a placement run: the bodies in acceptance order, the
      number of outer iterations, and the position in the random stream. */
  datatype Run = Run(bodies: seq<Body>, totalAttempts: nat, cursor: nat)

  /** The outer `while` loop from a state with `placed` accepted and
      `totalAttempts` iterations done: each iteration runs `step` (a fresh
      size and its retry loop), until 12 bodies are placed or 2400
      iterations have run. */
  function PlaceFrom(step: (nat, seq<Body>) -> Trial, cursor: nat, placed: seq<Body>, totalAttempts: nat): Run
    decreases MaxTotalAttempts - totalAttempts
  {
    if |placed| >= NumEmojisToPlace || totalAttempts >= MaxTotalAttempts then
      Run(placed, totalAttempts, cursor)
    else
      var trial := step(cursor, placed);
      var placed' := if trial.accepted.Some? then placed + [trial.accepted.value] else placed;
      PlaceFrom(step, trial.cursor, placed', totalAttempts + 1)
  }

  /** `createRandomEmojiBodies`: a run that starts from an empty list. */
  function PlaceBodies(source: nat -> real, cursor: nat, width: real, height: real,
                       makeStatic: bool): Run
  {
    PlaceFrom(ItemStep(SketchPlacer(source, width, height, makeStatic)), cursor, [], 0)
  }

  /** One iteration of the outer loop, as the loop in the class takes it. */
  lemma PlaceFromStep(step: (nat, seq<Body>) -> Trial, cursor: nat, placed: seq<Body>, totalAttempts: nat)
    requires |placed| < NumEmojisToPlace && totalAttempts < MaxTotalAttempts
    ensures var trial := step(cursor, placed);
            PlaceFrom(step, cursor, placed, totalAttempts)
              == PlaceFrom(step, trial.cursor,
                           if trial.accepted.Some? then placed + [trial.accepted.value] else placed,
                           totalAttempts + 1)
  {
  }

  /** An outer iteration draws the size at `cursor` and tries from the
      next position. */
  lemma ItemStepTries(s: Placer, cursor: nat, placed: seq<Body>)
    ensures ItemStep(s)(cursor, placed) == TryPlace(s, cursor + 1, placed, s.size(cursor), 0)
  {
  }

  /** One attempt of the retry loop, as the loop in the class takes it. */
  lemma TryPlaceStep(s: Placer, cursor: nat, placed: seq<Body>, size: real, attempt: nat)
    requires attempt < PlacementAttemptsPerBody
    ensures var b := s.candidate(cursor, size);
            TryPlace(s, cursor, placed, size, attempt)
              == if Conflicts(s.tooClose, placed, b) then TryPlace(s, cursor + 2, placed, size, attempt + 1)
                 else Trial(Some(b), cursor + 4)
  {
  }

  /** The draws of the sketch's placer at a stream position. */
  lemma SketchPlacerDraws(source: nat -> real, width: real, height: real, makeStatic: bool, c: nat, size: real)
    ensures var p := SketchPlacer(source, width, height, makeStatic);
            && p.size(c) == RandomPick(Sizes, source(c))
            && p.candidate(c, size) == Candidate(source, c, size, width, height, makeStatic)
  {
  }

  /** `placer` draws the sketch's candidates and tests distances as
      `doesOverlap` does. Each fact is instantiated only where the concrete
      computation appears, so a loop that follows the placer need not
      unfold the arithmetic of every candidate it mentions. */
  ghost predicate Realizes(placer: Placer, source: nat -> real, width: real, height: real, makeStatic: bool) {
    && (forall c: nat, size {:trigger Candidate(source, c, size, width, height, makeStatic)} ::
          placer.candidate(c, size) == Candidate(source, c, size, width, height, makeStatic))
    && (forall placed: seq<Body>, b: Body {:trigger Overlaps(placed, b.x, b.y, b.radius)} ::
          Conflicts(placer.tooClose, placed, b) <==> Overlaps(placed, b.x, b.y, b.radius))
  }

  lemma SketchPlacerRealizes(source: nat -> real, width: real, height: real, makeStatic: bool)
    ensures Realizes(SketchPlacer(source, width, height, makeStatic), source, width, height, makeStatic)
  {
    var p := SketchPlacer(source, width, height, makeStatic);
    forall placed: seq<Body>, b: Body
      ensures Conflicts(p.tooClose, placed, b) <==> Overlaps(placed, b.x, b.y, b.radius)
    {
      SketchPlacerTests(source, width, height, makeStatic, placed, b);
    }
  }

  // ---------------------------------------------------------------------
  // Properties of the placement

  /** Every size the placer draws is one of the three pixel sizes, and
      every candidate it draws for such a size is well formed. */
  ghost predicate SoundPlacer(s: Placer, width: real, height: real, makeStatic: bool) {
    && (forall c :: s.size(c) in Sizes)
    && (forall c, size :: size in Sizes ==>
          s.candidate(c, size).renderSize == size && WellFormed(s.candidate(c, size), width, height, makeStatic))
  }

  /** With draws in [0, 1), the sketch's placer is sound: sizes come from
      `sizes`, radii are 0.55 times the size, and each coordinate lies
      between its two bounds because `random` swaps them when needed. */
  lemma SketchPlacerSound(source: nat -> real, width: real, height: real, makeStatic: bool)
    requires UnitStream(source)
    ensures SoundPlacer(SketchPlacer(source, width, height, makeStatic), width, height, makeStatic)
  {
    var s := SketchPlacer(source, width, height, makeStatic);
    forall c: nat, size | size in Sizes
      ensures s.candidate(c, size).renderSize == size && WellFormed(s.candidate(c, size), width, height, makeStatic)
    {
      var radius := size * RadiusFactor;
      RandomBetweenBounds(radius + WallMargin, width - radius - WallMargin, source(c));
      RandomBetweenBounds(radius + WallMargin, height - radius - WallMargin, source(c + 1));
      RandomScaleBounds(TwoPi, source(c + 3));
    }
  }

  /** A body accepted by the retry loop is a candidate for the item's size
      and conflicts with none of the bodies placed so far. */
  lemma {:induction false} TryPlaceSound(s: Placer, cursor: nat, placed: seq<Body>, size: real, attempt: nat)
    ensures var t := TryPlace(s, cursor, placed, size, attempt);
            t.accepted.Some? ==>
              && (exists c :: t.accepted.value == s.candidate(c, size))
              && !Conflicts(s.tooClose, placed, t.accepted.value)
    decreases PlacementAttemptsPerBody - attempt
  {
    if attempt < PlacementAttemptsPerBody {
      var b := s.candidate(cursor, size);
      if Conflicts(s.tooClose, placed, b) {
        TryPlaceSound(s, cursor + 2, placed, size, attempt + 1);
      }
    }
  }

  /** What the outer loop needs of one iteration: a body it accepts
      conflicts with no body placed so far and is well formed. */
  ghost predicate SoundStep(step: (nat, seq<Body>) -> Trial, tooClose: (Body, Body) -> bool,
                            width: real, height: real, makeStatic: bool)
  {
    forall c: nat, placed: seq<Body> :: step(c, placed).accepted.Some? ==>
      && !Conflicts(tooClose, placed, step(c, placed).accepted.value)
      && WellFormed(step(c, placed).accepted.value, width, height, makeStatic)
  }

  /** With a sound placer, an outer iteration is sound. */
  lemma ItemStepSound(s: Placer, width: real, height: real, makeStatic: bool)
    requires SoundPlacer(s, width, height, makeStatic)
    ensures SoundStep(ItemStep(s), s.tooClose, width, height, makeStatic)
  {
    forall c: nat, placed: seq<Body> | ItemStep(s)(c, placed).accepted.Some?
      ensures !Conflicts(s.tooClose, placed, ItemStep(s)(c, placed).accepted.value)
      ensures WellFormed(ItemStep(s)(c, placed).accepted.value, width, height, makeStatic)
    {
      TryPlaceSound(s, c + 1, placed, s.size(c), 0);
    }
  }

  /** Never more than 12 bodies; at most one body per outer iteration; and
      the outer loop stops only when 12 bodies are placed or all 2400
      iterations have run, so an item that fails its 200 attempts is not
      skipped: the next iteration draws a fresh size and tries again. */
  lemma {:induction false} PlaceFromBounded(step: (nat, seq<Body>) -> Trial, cursor: nat, placed: seq<Body>,
                                            totalAttempts: nat)
    requires |placed| <= NumEmojisToPlace && totalAttempts <= MaxTotalAttempts
    requires |placed| <= totalAttempts
    ensures var run := PlaceFrom(step, cursor, placed, totalAttempts);
            && |placed| <= |run.bodies| <= NumEmojisToPlace
            && run.totalAttempts <= MaxTotalAttempts
            && |run.bodies| <= run.totalAttempts
            && (|run.bodies| == NumEmojisToPlace || run.totalAttempts == MaxTotalAttempts)
    decreases MaxTotalAttempts - totalAttempts
  {
    if |placed| < NumEmojisToPlace && totalAttempts < MaxTotalAttempts {
      var trial := step(cursor, placed);
      var placed' := if trial.accepted.Some? then placed + [trial.accepted.value] else placed;
      PlaceFromBounded(step, trial.cursor, placed', totalAttempts + 1);
    }
  }

  lemma PlacementBounded(source: nat -> real, cursor: nat, width: real, height: real, makeStatic: bool)
    ensures var run := PlaceBodies(source, cursor, width, height, makeStatic);
            && |run.bodies| <= NumEmojisToPlace
            && run.totalAttempts <= MaxTotalAttempts
            && (|run.bodies| == NumEmojisToPlace || run.totalAttempts == MaxTotalAttempts)
  {
    PlaceFromBounded(ItemStep(SketchPlacer(source, width, height, makeStatic)), cursor, [], 0);
  }

  /** The bodies placed before a run stay, in order, at the front of its
      result: accepted bodies are only ever appended. */
  lemma {:induction false} PlaceFromKeepsOrder(step: (nat, seq<Body>) -> Trial, cursor: nat, placed: seq<Body>,
                                               totalAttempts: nat)
    ensures var run := PlaceFrom(step, cursor, placed, totalAttempts);
            |placed| <= |run.bodies| && run.bodies[..|placed|] == placed
    decreases MaxTotalAttempts - totalAttempts
  {
    if |placed| < NumEmojisToPlace && totalAttempts < MaxTotalAttempts {
      var trial := step(cursor, placed);
      var placed' := if trial.accepted.Some? then placed + [trial.accepted.value] else placed;
      PlaceFromKeepsOrder(step, trial.cursor, placed', totalAttempts + 1);
      var run := PlaceFrom(step, trial.cursor, placed', totalAttempts + 1);
      assert run.bodies[..|placed|] == run.bodies[..|placed'|][..|placed|];
    }
  }

  /** Pairwise separation holds over the whole result, and with a sound
      step every body in it is well formed. */
  lemma {:induction false} PlaceFromSpread(step: (nat, seq<Body>) -> Trial, tooClose: (Body, Body) -> bool,
                                           cursor: nat, placed: seq<Body>, totalAttempts: nat,
                                           width: real, height: real, makeStatic: bool)
    requires Spread(tooClose, placed) && AllWellFormed(placed, width, height, makeStatic)
    requires SoundStep(step, tooClose, width, height, makeStatic)
    ensures var run := PlaceFrom(step, cursor, placed, totalAttempts);
            Spread(tooClose, run.bodies) && AllWellFormed(run.bodies, width, height, makeStatic)
    decreases MaxTotalAttempts - totalAttempts
  {
    if |placed| < NumEmojisToPlace && totalAttempts < MaxTotalAttempts {
      var trial := step(cursor, placed);
      var placed' := if trial.accepted.Some? then placed + [trial.accepted.value] else placed;
      if trial.accepted.Some? {
        var b := trial.accepted.value;
        assert !Conflicts(tooClose, placed, b);
        forall i, j | 0 <= i < j < |placed'|
          ensures !tooClose(placed'[i], placed'[j])
        {
          if j == |placed| {
            assert placed'[i] == placed[i] && placed'[j] == b;
          } else {
            assert placed'[i] == placed[i] && placed'[j] == placed[j];
          }
        }
      }
      PlaceFromSpread(step, tooClose, trial.cursor, placed', totalAttempts + 1, width, height, makeStatic);
    }
  }

  /** Every body of a placement run keeps the required distance from every
      body placed before it, and is well formed. */
  lemma PlacementSeparated(source: nat -> real, cursor: nat, width: real, height: real, makeStatic: bool)
    requires UnitStream(source)
    ensures var run := PlaceBodies(source, cursor, width, height, makeStatic);
            Separated(run.bodies) && AllWellFormed(run.bodies, width, height, makeStatic)
  {
    var p := SketchPlacer(source, width, height, makeStatic);
    SketchPlacerSound(source, width, height, makeStatic);
    ItemStepSound(p, width, height, makeStatic);
    PlaceFromSpread(ItemStep(p), p.tooClose, cursor, [], 0, width, height, makeStatic);
    var run := PlaceFrom(ItemStep(p), cursor, [], 0);
    SketchPlacerTests(source, width, height, makeStatic, run.bodies, Candidate(source, 0, 50.0, width, height, makeStatic));
  }

  /** Separation read in the other direction: a body also keeps its
      distance from every body placed after it. */
  lemma SeparatedSymmetric(bodies: seq<Body>, i: nat, j: nat)
    requires Separated(bodies) && i < j < |bodies|
    ensures !TooClose(bodies[j], bodies[i].x, bodies[i].y, bodies[i].radius)
  {
    var a, b := bodies[i], bodies[j];
    assert Square(a.x - b.x) == Square(b.x - a.x);
    assert Square(a.y - b.y) == Square(b.y - a.y);
    assert !TooClose(a, b.x, b.y, b.radius);
  }

  /** Each body's collision radius is 0.55 times its pixel size, which is
      50, 100 or 150. */
  lemma PlacementSizes(source: nat -> real, cursor: nat, width: real, height: real, makeStatic: bool)
    requires UnitStream(source)
    ensures var run := PlaceBodies(source, cursor, width, height, makeStatic);
            forall b :: b in run.bodies ==>
              b.renderSize in {50.0, 100.0, 150.0} && b.radius == b.renderSize * 0.55
  {
    PlacementSeparated(source, cursor, width, height, makeStatic);
  }

  /** On a canvas at least `2 * (radius + 10)` wide and high, every centre
      lies in `[radius + 10, width - radius - 10] x [radius + 10,
      height - radius - 10]`. On a smaller canvas the bounds are swapped by
      `random` and the body is placed all the same. */
  lemma PlacementContained(source: nat -> real, cursor: nat, width: real, height: real, makeStatic: bool)
    requires UnitStream(source)
    ensures var run := PlaceBodies(source, cursor, width, height, makeStatic);
            forall b :: b in run.bodies ==>
              && (width >= 2.0 * (b.radius + WallMargin) ==>
                    b.radius + WallMargin <= b.x <= width - b.radius - WallMargin)
              && (height >= 2.0 * (b.radius + WallMargin) ==>
                    b.radius + WallMargin <= b.y <= height - b.radius - WallMargin)
  {
    PlacementSeparated(source, cursor, width, height, makeStatic);
  }

  /** The first candidate is always accepted, because `doesOverlap` is
      false on the empty list: so a run never comes back empty, whatever
      the canvas size, and its first body is the very first candidate. */
  lemma FirstCandidateAccepted(source: nat -> real, cursor: nat, width: real, height: real,
                               makeStatic: bool)
    ensures var run := PlaceBodies(source, cursor, width, height, makeStatic);
            && |run.bodies| >= 1
            && run.bodies[0] == Candidate(source, cursor + 1, RandomPick(Sizes, source(cursor)),
                                          width, height, makeStatic)
  {
    var s := SketchPlacer(source, width, height, makeStatic);
    var b := s.candidate(cursor + 1, s.size(cursor));
    assert !Conflicts(s.tooClose, [], b);
    assert TryPlace(s, cursor + 1, [], s.size(cursor), 0) == Trial(Some(b), cursor + 5);
    assert ItemStep(s)(cursor, []) == Trial(Some(b), cursor + 5);
    FirstAcceptedLeads(ItemStep(s), cursor, b, cursor + 5);
  }

  /** A body accepted by the first outer iteration heads the result. */
  lemma FirstAcceptedLeads(step: (nat, seq<Body>) -> Trial, cursor: nat, b: Body, next: nat)
    requires step(cursor, []) == Trial(Some(b), next)
    ensures var run := PlaceFrom(step, cursor, [], 0);
            |run.bodies| >= 1 && run.bodies[0] == b
  {
    assert [] + [b] == [b];
    PlaceFromKeepsOrder(step, next, [b], 1);
  }

  // ---------------------------------------------------------------------
  // The settle predicate

  /** `placedBodies.every(...)`: each body is static, or moving slower
      than 0.15 and turning slower than 0.15. */
  predicate AllSettled(motions: seq<Motion>) {
    forall i :: 0 <= i < |motions| ==>
      motions[i].isStatic
      || (!motions[i].isStatic && motions[i].speed < SettledSpeedThreshold
          && Abs(motions[i].angularSpeed) < SettledSpeedThreshold)
  }

  // ---------------------------------------------------------------------
  // The sketch instance

  /** The state the sketch keeps between callbacks: the canvas size, the
      placed bodies, the three flags, and whether the completion text
      element currently carries its `visible` class. */
  class Sketch {
    var width: real
    var height: real
    var placedBodies: seq<Body>
    var initialWaitOver: bool
    var allSettled: bool
    var showCompletionText: bool
    var textVisible: bool
    /** Whether `#loading-completion-text` exists in the page. */
    const hasCompletionText: bool
    /** Whether `#p5-loading-canvas-container` was found by `p.setup`. */
    const hasContainer: bool
    const rng: Random

    ghost predicate Valid()
      reads this
    {
      && rng.Valid()
      && (textVisible <==> hasCompletionText && allSettled && showCompletionText)
      && (allSettled ==> initialWaitOver)
      && 1 <= |placedBodies| <= NumEmojisToPlace
      && Separated(placedBodies)
      && AllWellFormed(placedBodies, width, height, true)
    }

    /** `p.setup` once the physics library is present: the canvas takes the
        container's size (the window's when there is no container) and the
        bodies are placed, static. */
    constructor (width: real, height: real, rng: Random, hasCompletionText: bool, hasContainer: bool)
      requires rng.Valid()
      modifies rng
      ensures Valid() && this.rng == rng
      ensures this.hasCompletionText == hasCompletionText && this.hasContainer == hasContainer
      ensures this.width == width && this.height == height
      ensures placedBodies == PlaceBodies(rng.source, old(rng.drawn), width, height, true).bodies
      ensures rng.drawn == PlaceBodies(rng.source, old(rng.drawn), width, height, true).cursor
      ensures !initialWaitOver && !allSettled && !showCompletionText && !textVisible
    {
      this.width := width;
      this.height := height;
      this.rng := rng;
      this.hasCompletionText := hasCompletionText;
      this.hasContainer := hasContainer;
      initialWaitOver := false;
      allSettled := false;
      showCompletionText := false;
      textVisible := false;
      new;
      var _ := CreateRandomEmojiBodies(true);
      EstablishPlacement(rng.source, old(rng.drawn), true);
    }

    /** The placement properties proved above, read on the bodies just
        placed. */
    lemma EstablishPlacement(source: nat -> real, cursor: nat, makeStatic: bool)
      requires UnitStream(source)
      ensures var run := PlaceBodies(source, cursor, width, height, makeStatic);
              && 1 <= |run.bodies| <= NumEmojisToPlace
              && Separated(run.bodies)
              && AllWellFormed(run.bodies, width, height, makeStatic)
    {
      PlacementBounded(source, cursor, width, height, makeStatic);
      PlacementSeparated(source, cursor, width, height, makeStatic);
      FirstCandidateAccepted(source, cursor, width, height, makeStatic);
    }

    /** `doesOverlap`: scans the placed bodies and stops at the first one
        that is too close. */
    method DoesOverlap(x: real, y: real, radius: real) returns (overlap: bool)
      ensures overlap <==> exists i :: 0 <= i < |placedBodies| && TooClose(placedBodies[i], x, y, radius)
    {
      var i := 0;
      while i < |placedBodies|
        invariant 0 <= i <= |placedBodies|
        invariant forall k :: 0 <= k < i ==> !TooClose(placedBodies[k], x, y, radius)
      {
        if TooClose(placedBodies[i], x, y, radius) {
          return true;
        }
        i := i + 1;
      }
      return false;
    }

    /** `createRandomEmojiBodies`: resets the list, then runs the outer
        loop over fresh sizes and the inner retry loop over candidate
        centres. Returns the number of outer iterations, which the source
        logs. */
    method CreateRandomEmojiBodies(makeStatic: bool) returns (totalAttempts: nat)
      requires rng.Valid()
      modifies this`placedBodies, rng
      ensures var run := PlaceBodies(rng.source, old(rng.drawn), width, height, makeStatic);
              && placedBodies == run.bodies
              && totalAttempts == run.totalAttempts
              && rng.drawn == run.cursor
    {
      ghost var placer := SketchPlacer(rng.source, width, height, makeStatic);
      ghost var step := ItemStep(placer);
      ghost var run := PlaceBodies(rng.source, rng.drawn, width, height, makeStatic);
      placedBodies := [];
      var successfulPlacements := 0;
      totalAttempts := 0;
      var maxTotalAttempts := MaxTotalAttempts;

      while successfulPlacements < NumEmojisToPlace && totalAttempts < maxTotalAttempts
        invariant successfulPlacements == |placedBodies|
        invariant totalAttempts <= maxTotalAttempts
        invariant PlaceFrom(step, rng.drawn, placedBodies, totalAttempts) == run
        decreases maxTotalAttempts - totalAttempts
      {
        ghost var placed := placedBodies;
        ghost var trial := step(rng.drawn, placed);
        ghost var placed' := if trial.accepted.Some? then placed + [trial.accepted.value] else placed;
        PlaceFromStep(step, rng.drawn, placed, totalAttempts);
        ItemStepTries(placer, rng.drawn, placed);
        SketchPlacerDraws(rng.source, width, height, makeStatic, rng.drawn, 0.0);
        SketchPlacerRealizes(rng.source, width, height, makeStatic);
        totalAttempts := totalAttempts + 1;
        var u := rng.Next();
        var currentSize := RandomPick(Sizes, u);
        assert trial == TryPlace(placer, rng.drawn, placed, currentSize, 0);

        var placementFound := PlaceItem(placer, currentSize, makeStatic);
        assert placedBodies == placed' && rng.drawn == trial.cursor;
        if placementFound {
          successfulPlacements := successfulPlacements + 1;
        }
      }
    }

    /** The inner `for` loop of `createRandomEmojiBodies` for one item:
        up to 200 attempts, stopping at the first accepted body, which is
        appended to the list. */
    method PlaceItem(ghost placer: Placer, size: real, makeStatic: bool) returns (placementFound: bool)
      requires rng.Valid() && Realizes(placer, rng.source, width, height, makeStatic)
      modifies this`placedBodies, rng
      ensures var trial := TryPlace(placer, old(rng.drawn), old(placedBodies), size, 0);
              && placementFound == trial.accepted.Some?
              && placedBodies == (if placementFound then old(placedBodies) + [trial.accepted.value]
                                  else old(placedBodies))
              && rng.drawn == trial.cursor
    {
      ghost var placed := placedBodies;
      ghost var trial := TryPlace(placer, rng.drawn, placed, size, 0);
      placementFound := false;
      var attempt := 0;
      while attempt < PlacementAttemptsPerBody
        invariant 0 <= attempt <= PlacementAttemptsPerBody
        invariant placedBodies == placed
        invariant TryPlace(placer, rng.drawn, placed, size, attempt) == trial
      {
        ghost var at := rng.drawn;
        TryPlaceStep(placer, at, placed, size, attempt);
        var accepted := AttemptPlacement(size, makeStatic);
        if accepted.Some? {
          placedBodies := placedBodies + [accepted.value];
          placementFound := true;
          return;
        }
        attempt := attempt + 1;
      }
    }

    /** One pass of the retry loop for an item of the given size: draw a
        centre; if it overlaps a placed body, give up on it (two draws
        used); otherwise draw the emoji and angle and return the body (four
        draws used). */
    method AttemptPlacement(size: real, makeStatic: bool) returns (accepted: Option<Body>)
      requires rng.Valid()
      modifies rng
      ensures var b := Candidate(rng.source, old(rng.drawn), size, width, height, makeStatic);
              if Overlaps(placedBodies, b.x, b.y, b.radius)
              then accepted == None && rng.drawn == old(rng.drawn) + 2
              else accepted == Some(b) && rng.drawn == old(rng.drawn) + 4
    {
      var radius := size * RadiusFactor;
      var ux := rng.Next();
      var tryX := RandomBetween(radius + WallMargin, width - radius - WallMargin, ux);
      var uy := rng.Next();
      var tryY := RandomBetween(radius + WallMargin, height - radius - WallMargin, uy);
      var overlap := DoesOverlap(tryX, tryY, radius);
      if overlap {
        accepted := None;
      } else {
        var ue := rng.Next();
        var emoji := RandomPick(Emojis, ue);
        var ua := rng.Next();
        var angle := RandomScale(TwoPi, ua);
        accepted := Some(Body(tryX, tryY, radius, size, emoji, angle, makeStatic));
      }
    }

    /** The timer that ends the initial wait. (The shake and the release of
        the bodies that follow are physics and are not modelled.) */
    method InitialWaitElapsed()
      requires Valid()
      modifies this`initialWaitOver
      ensures Valid() && initialWaitOver
    {
      initialWaitOver := true;
    }

    /** The settle check at the end of `p.draw`, given the live motion of
        each placed body. It runs only while not yet settled, after the
        initial wait and with bodies placed; once `allSettled` holds it is
        not recomputed. */
    method DrawSettleCheck(motions: seq<Motion>)
      requires Valid() && |motions| == |placedBodies|
      modifies this`allSettled, this`textVisible
      ensures Valid()
      ensures old(allSettled) ==> allSettled && textVisible == old(textVisible)
      ensures !old(allSettled) ==> (allSettled <==> initialWaitOver && AllSettled(motions))
      ensures !old(allSettled) && allSettled ==> (textVisible <==> hasCompletionText && showCompletionText)
    {
      if !allSettled && initialWaitOver && |placedBodies| > 0 {
        allSettled := AllSettled(motions);
        if allSettled {
          if showCompletionText && hasCompletionText {
            textVisible := true;
          }
        }
      }
    }

    /** `p.markAsComplete`: the external completion signal. The text is
        shown now if the bodies have already settled, and otherwise when
        they do. */
    method MarkAsComplete()
      requires Valid()
      modifies this`showCompletionText, this`textVisible
      ensures Valid() && showCompletionText
      ensures textVisible <==> hasCompletionText && allSettled
    {
      showCompletionText := true;
      if allSettled && hasCompletionText {
        textVisible := true;
      }
    }

    /** `p.windowResized`, given the container's new size: with a container
        of non-zero size the bodies are placed anew on the resized canvas
        and every flag is cleared, hiding the text. Without a container, or
        with an empty one, nothing changes. */
    method WindowResized(newWidth: real, newHeight: real)
      requires Valid()
      modifies this, rng
      ensures Valid()
      ensures hasContainer && newWidth > 0.0 && newHeight > 0.0 ==>
                var run := PlaceBodies(rng.source, old(rng.drawn), newWidth, newHeight, true);
                && width == newWidth && height == newHeight
                && placedBodies == run.bodies && rng.drawn == run.cursor
                && !initialWaitOver && !allSettled && !showCompletionText && !textVisible
      ensures !(hasContainer && newWidth > 0.0 && newHeight > 0.0) ==>
                && width == old(width) && height == old(height) && placedBodies == old(placedBodies)
                && initialWaitOver == old(initialWaitOver) && allSettled == old(allSettled)
                && showCompletionText == old(showCompletionText) && textVisible == old(textVisible)
                && rng.drawn == old(rng.drawn)
    {
      if !hasContainer {
        return;
      }
      if newWidth > 0.0 && newHeight > 0.0 {
        width, height := newWidth, newHeight;
        placedBodies := [];
        var _ := CreateRandomEmojiBodies(true);
        EstablishPlacement(rng.source, old(rng.drawn), true);
        initialWaitOver := false;
        allSettled := false;
        showCompletionText := false;
        textVisible := false;
      }
    }
  }

  /** Whichever order the external signal and the settling come in, the
      text ends up visible once both have happened. */
  method CompletionInEitherOrder(sketch: Sketch, motions: seq<Motion>, signalFirst: bool)
    requires sketch.Valid() && sketch.hasCompletionText && sketch.initialWaitOver
    requires |motions| == |sketch.placedBodies| && AllSettled(motions)
    modifies sketch
    ensures sketch.Valid() && sketch.textVisible
  {
    if signalFirst {
      sketch.MarkAsComplete();
      sketch.DrawSettleCheck(motions);
    } else {
      sketch.DrawSettleCheck(motions);
      sketch.MarkAsComplete();
    }
  }
}
