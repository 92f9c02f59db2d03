/** The background sketch of the page (`js/sketch.js`): a pool of
    particles that drift over the page, fade and are replaced, drawn in
    the theme's particle colours over the theme's background colour.

    Forces (Perlin noise and mouse steering), movement and drawing are not
    modelled; the pool bookkeeping is: which particles are created, which
    are removed, and how many there are. */
module BackgroundSketch {
  import opened Wrappers
  import opened P5Random
  import opened ColorParsing

  /** The pool never grows past this many particles by spawning. */
  const MaxParticles := 150

  /** `setup` and every resize start with this many particles. */
  const InitialParticles := 60

  /** Lifespan of a new particle. */
  const FullLife := 255.0

  /** The grey `color(100, 100, 100, 150)` used when there is no theme
      colour. */
  const Grey := Rgba(100, 100, 100, Finite(150.0))

  /** The mouse as p5 reports it in a frame. */
  datatype Mouse = Mouse(pressed: bool, x: real, y: real)

  /** What `updateP5Theme` is given: an array of colour objects or
      something else (`null`, `undefined`, an object). An entry `None`
      stands for an array element whose conversion with `color` throws. */
  datatype ColorData = ColorArray(items: seq<Option<Rgba>>) | NotArray

  // ---------------------------------------------------------------------
  // Particles

  class Particle {
    var x: real
    var y: real
    const maxSpeed: real
    const decay: real
    const size: real
    const color: Rgba
    const noiseOffsetX: real
    const noiseOffsetY: real
    const noiseOffsetZ: real
    var lifespan: real

    /** `new Particle(x, y)`: seven draws, in the order speed, decay, size,
        colour and the three noise offsets; the colour is one of the
        palette's, or grey when the palette is empty. */
    constructor (x0: real, y0: real, palette: seq<Rgba>, rng: Random)
      requires rng.Valid()
      modifies rng
      ensures rng.drawn == old(rng.drawn) + 7
      ensures x == x0 && y == y0 && lifespan == FullLife
      ensures maxSpeed == RandomBetween(1.0, 1.8, rng.source(old(rng.drawn)))
      ensures decay == RandomBetween(0.8, 1.5, rng.source(old(rng.drawn) + 1))
      ensures size == RandomBetween(1.5, 4.0, rng.source(old(rng.drawn) + 2))
      ensures 1.0 <= maxSpeed < 1.8 && 0.8 <= decay < 1.5 && 1.5 <= size < 4.0
      ensures color in (if |palette| > 0 then palette else [Grey])
    {
      var u := rng.Next();
      RandomBetweenBounds(1.0, 1.8, u);
      var speed := RandomBetween(1.0, 1.8, u);
      u := rng.Next();
      RandomBetweenBounds(0.8, 1.5, u);
      var d := RandomBetween(0.8, 1.5, u);
      u := rng.Next();
      RandomBetweenBounds(1.5, 4.0, u);
      var s := RandomBetween(1.5, 4.0, u);
      u := rng.Next();
      var c := RandomPick(if |palette| > 0 then palette else [Grey], u);
      var ox := rng.Next();
      var oy := rng.Next();
      var oz := rng.Next();
      x, y := x0, y0;
      maxSpeed, decay, size, color := speed, d, s, c;
      noiseOffsetX, noiseOffsetY, noiseOffsetZ := RandomScale(1000.0, ox), RandomScale(1000.0, oy), RandomScale(1000.0, oz);
      lifespan := FullLife;
    }

    /** One frame of life: the lifespan drops by exactly `decay`. (The
        step of the position by the velocity is not modelled.) */
    method Update()
      modifies this`x, this`y, this`lifespan
      ensures lifespan == old(lifespan) - decay
    {
      lifespan := lifespan - decay;
    }

    predicate IsDead()
      reads this
    {
      lifespan < 0.0
    }
  }

  /** The lifespan after `n` updates from `start`. */
  function LifespanAfter(start: real, decay: real, n: nat): real {
    if n == 0 then start else LifespanAfter(start, decay, n - 1) - decay
  }

  lemma {:induction false} LifespanAfterIsLinear(start: real, decay: real, n: nat)
    ensures LifespanAfter(start, decay, n) == start - n as real * decay
  {
    if n > 0 {
      LifespanAfterIsLinear(start, decay, n - 1);
    }
  }

  /** With a decay drawn from [0.8, 1.5), a new particle survives its
      first 170 frames and is dead after its 319th: it is removed in one
      of the frames from the 171st to the 319th. */
  lemma ParticleLifetime(decay: real, n: nat)
    requires 0.8 <= decay < 1.5
    ensures n <= 170 ==> LifespanAfter(FullLife, decay, n) >= 0.0
    ensures n >= 319 ==> LifespanAfter(FullLife, decay, n) < 0.0
  {
    LifespanAfterIsLinear(FullLife, decay, n);
    if n <= 170 {
      assert n as real * decay <= 170.0 * decay;
    }
    if n >= 319 {
      assert n as real * decay >= 319.0 * decay;
    }
  }

  // ---------------------------------------------------------------------
  // The pool

  /** No particle occurs twice. */
  ghost predicate Distinct(ps: seq<Particle>) {
    forall i, j :: 0 <= i < j < |ps| ==> ps[i] != ps[j]
  }

  /** The lifespans of `ps` against the lifespans `life0` they started
      from: those after index `i` are one `decay` lower, the others as
      they were. */
  ghost predicate UpdatedAfter(ps: seq<Particle>, life0: seq<real>, i: int)
    reads set p | p in ps
  {
    |life0| == |ps|
    && forall j :: 0 <= j < |ps| ==> ps[j].lifespan == life0[j] - (if i < j then ps[j].decay else 0.0)
  }

  /** The particles of `ps` that are not dead, in their order. */
  ghost function Survivors(ps: seq<Particle>): seq<Particle>
    reads set p | p in ps
  {
    if |ps| == 0 then []
    else (if ps[0].IsDead() then [] else [ps[0]]) + Survivors(ps[1..])
  }

  /** A particle survives exactly when it is in the pool and not dead; the
      survivors are no more than the pool and occur once each. */
  lemma {:induction false} SurvivorsMembers(ps: seq<Particle>)
    ensures forall p :: p in Survivors(ps) <==> p in ps && !p.IsDead()
    ensures |Survivors(ps)| <= |ps|
    ensures Distinct(ps) ==> Distinct(Survivors(ps))
  {
    if |ps| > 0 {
      SurvivorsMembers(ps[1..]);
      assert forall p :: p in ps <==> p == ps[0] || p in ps[1..];
      if Distinct(ps) {
        assert Distinct(ps[1..]);
        assert ps[0] !in ps[1..];
      }
    }
  }

  /** Removal keeps the order of the survivors: the survivors of a pool
      are those of its first part followed by those of the rest. */
  lemma {:induction false} SurvivorsAppend(a: seq<Particle>, b: seq<Particle>)
    ensures Survivors(a + b) == Survivors(a) + Survivors(b)
  {
    if |a| > 0 {
      assert (a + b)[1..] == a[1..] + b;
      SurvivorsAppend(a[1..], b);
    } else {
      assert a + b == b;
    }
  }

  /** A pool in which no particle is dead is kept whole. */
  lemma {:induction false} NoneDeadKeepsAll(ps: seq<Particle>)
    requires forall p :: p in ps ==> !p.IsDead()
    ensures Survivors(ps) == ps
  {
    if |ps| > 0 {
      NoneDeadKeepsAll(ps[1..]);
    }
  }

  /** Splicing out position `i` of `ps[..i + 1] + rest`, or keeping it. */
  lemma SpliceStep<T>(ps: seq<T>, i: nat, rest: seq<T>)
    requires i < |ps|
    ensures (ps[..i + 1] + rest)[i] == ps[i]
    ensures (ps[..i + 1] + rest)[..i] + (ps[..i + 1] + rest)[i + 1..] == ps[..i] + rest
    ensures ps[..i + 1] + rest == ps[..i] + ([ps[i]] + rest)
  {
    var t := ps[..i + 1] + rest;
    assert t[..i] == ps[..i] && t[i + 1..] == rest;
    assert ps[..i + 1] == ps[..i] + [ps[i]];
  }

  /** The particles of `ps` that one more `decay` leaves alive, when their
      lifespans are `life`: the survivors of one update, on values. */
  ghost function Kept(ps: seq<Particle>, life: seq<real>): seq<Particle>
    requires |life| == |ps|
  {
    if |ps| == 0 then []
    else (if life[0] - ps[0].decay < 0.0 then [] else [ps[0]]) + Kept(ps[1..], life[1..])
  }

  /** Once every particle of `ps` has had its update from the lifespans
      `life`, the survivors are the particles `Kept` says. */
  lemma {:induction false} KeptAreSurvivors(ps: seq<Particle>, life: seq<real>)
    requires UpdatedAfter(ps, life, -1)
    ensures Kept(ps, life) == Survivors(ps)
  {
    if |ps| > 0 {
      assert ps[0].lifespan == life[0] - ps[0].decay;
      assert UpdatedAfter(ps[1..], life[1..], -1) by {
        forall j | 0 <= j < |ps[1..]|
          ensures ps[1..][j].lifespan == life[1..][j] - ps[1..][j].decay
        {
          assert ps[j + 1].lifespan == life[j + 1] - ps[j + 1].decay;
        }
      }
      KeptAreSurvivors(ps[1..], life[1..]);
    }
  }

  /** The first step of `Kept` on a suffix. */
  lemma KeptStep(ps: seq<Particle>, life: seq<real>, i: nat)
    requires |life| == |ps| && i < |ps|
    ensures Kept(ps[i..], life[i..])
            == (if life[i] - ps[i].decay < 0.0 then [] else [ps[i]]) + Kept(ps[i + 1..], life[i + 1..])
  {
    assert ps[i..][1..] == ps[i + 1..] && life[i..][1..] == life[i + 1..];
  }

  /** The reverse loop of `draw` over the pool `ps`, whose lifespans were
      `life0`: every particle is updated once, and those the update leaves
      alive remain, in order. */
  method Sweep(ps: seq<Particle>, ghost life0: seq<real>) returns (pool: seq<Particle>)
    requires Distinct(ps) && UpdatedAfter(ps, life0, |ps| - 1)
    modifies set p | p in ps
    ensures pool == Kept(ps, life0) && UpdatedAfter(ps, life0, -1)
  {
    pool := ps;
    var i := |ps| - 1;
    while i >= 0
      invariant -1 <= i < |ps|
      invariant pool == ps[..i + 1] + Kept(ps[i + 1..], life0[i + 1..])
      invariant UpdatedAfter(ps, life0, i)
    {
      pool := UpdateAt(pool, i, ps, life0);
      i := i - 1;
    }
    assert ps[0..] == ps && life0[0..] == life0;
  }

  /** One turn of the reverse loop: the particle at `i` is updated and
      spliced out of `pool` when it is then dead; those after it are
      already the ones kept from their part of `ps`. */
  method UpdateAt(pool: seq<Particle>, i: int, ghost ps: seq<Particle>, ghost life0: seq<real>)
      returns (next: seq<Particle>)
    requires 0 <= i < |ps| && Distinct(ps) && UpdatedAfter(ps, life0, i)
    requires pool == ps[..i + 1] + Kept(ps[i + 1..], life0[i + 1..])
    modifies ps[i]
    ensures next == ps[..i] + Kept(ps[i..], life0[i..]) && UpdatedAfter(ps, life0, i - 1)
  {
    var p := pool[i];
    ghost var rest := Kept(ps[i + 1..], life0[i + 1..]);
    SpliceStep(ps, i, rest);
    KeptStep(ps, life0, i);
    assert forall j :: 0 <= j < |ps| && j != i ==> ps[j] != p;
    p.Update();
    next := pool;
    if p.IsDead() {
      next := pool[..i] + pool[i + 1..];
      assert [] + rest == rest;
    }
  }

  /** The background colour of a frame: the theme's `--color-p5-bg` at a
      fifth of its alpha, or `color(0, 0, 0, 5)` when it does not parse. */
  function BackgroundFill(bgText: string): (fill: Rgba)
    ensures ParseRGBAColor(JsString(Trim(bgText))).None? ==> fill == Rgba(0, 0, 0, Finite(5.0))
  {
    match ParseRGBAColor(JsString(Trim(bgText)))
    case Some(d) => Rgba(d.r, d.g, d.b, Times(d.a, 0.2))
    case None => Rgba(0, 0, 0, Finite(5.0))
  }

  /** The first and last characters of `rgb(r, g, b)`. */
  lemma RgbTextEnds(r: nat, g: nat, b: nat)
    ensures |RgbText(r, g, b)| > 0
    ensures RgbText(r, g, b)[0] == 'r' && RgbText(r, g, b)[|RgbText(r, g, b)| - 1] == ')'
  {
    var B := NatText(b) + ")";
    assert B[|B| - 1] == ')';
    var tail := ", " + B;
    assert tail[|tail| - 1] == ')';
    var G := NatText(g) + tail;
    assert G[|G| - 1] == ')';
    var list := ", " + G;
    assert list[|list| - 1] == ')';
    var body := NatText(r) + list;
    assert body[|body| - 1] == ')';
    var t := "rgb(" + body;
    assert t[|t| - 1] == ')';
  }

  /** A background colour written `rgb(r, g, b)` is drawn with alpha
      `255 * 0.2 = 51`. */
  lemma FillOfRgb(r: nat, g: nat, b: nat)
    ensures BackgroundFill(RgbText(r, g, b)) == Rgba(r, g, b, Finite(51.0))
  {
    RgbTextEnds(r, g, b);
    TrimUnpadded(RgbText(r, g, b));
    RgbRoundTrip(r, g, b, true);
  }

  /** The particle colours after `updateP5Theme(data)` from `current`, when
      p5's `color` is or is not available yet. */
  function ThemeColors(data: ColorData, colorReady: bool, current: seq<Rgba>): (colors: seq<Rgba>)
    ensures colorReady ==> 0 < |colors|
    ensures data.NotArray? ==> colors == (if colorReady then [Grey] else [])
    ensures data.ColorArray? && !colorReady ==> colors == current
    ensures data.ColorArray? && colorReady && |data.items| == 0 ==> colors == [Grey]
    ensures data.ColorArray? && colorReady && None in data.items ==> colors == [Grey]
    ensures data.ColorArray? && colorReady && 0 < |data.items| && None !in data.items ==>
              |colors| == |data.items| && forall k :: 0 <= k < |colors| ==> data.items[k] == Some(colors[k])
  {
    match data
    case NotArray => if colorReady then [Grey] else []
    case ColorArray(items) =>
      if !colorReady then current
      else if None in items then [Grey]
      else
        var converted := seq(|items|, k requires 0 <= k < |items| => items[k].value);
        assert forall k :: 0 <= k < |items| ==> items[k] == Some(converted[k]);
        if |converted| == 0 then [Grey] else converted
  }

  /** The sketch's globals: the particle pool, the particle colours and the
      canvas, with the random source behind `random`. */
  class Background {
    const rng: Random
    /** Whether p5's `color` is defined, which it is once p5 has started. */
    var colorReady: bool
    var canvas: bool
    var width: real
    var height: real
    var colors: seq<Rgba>
    var particles: seq<Particle>

    ghost predicate Valid()
      reads this, rng
    {
      rng.Valid() && |particles| <= MaxParticles && Distinct(particles)
    }

    /** The state when the script has loaded: no canvas, no colours, no
        particles. `colorReady` says whether p5's `color` is defined. */
    constructor (rng: Random, colorReady: bool)
      requires rng.Valid()
      ensures Valid() && this.rng == rng && this.colorReady == colorReady
      ensures !canvas && colors == [] && particles == []
    {
      this.rng := rng;
      this.colorReady := colorReady;
      canvas := false;
      width, height := 0.0, 0.0;
      colors := [];
      particles := [];
    }

    /** p5 starts and defines `color` (and `background`). */
    method P5Ready()
      modifies this`colorReady
      ensures colorReady
    {
      colorReady := true;
    }

    /** `window.updateP5Theme(data)`. */
    method UpdateP5Theme(data: ColorData)
      modifies this`colors
      ensures colors == ThemeColors(data, colorReady, old(colors))
    {
      match data {
        case NotArray =>
          colors := if colorReady then [Grey] else [];
        case ColorArray(items) =>
          if colorReady {
            if None in items {
              colors := [Grey];
            } else {
              colors := seq(|items|, k requires 0 <= k < |items| => items[k].value);
              if |colors| == 0 {
                colors := colors + [Grey];
              }
            }
          }
      }
    }

    /** `particles.push(new Particle(x, y))`. */
    method SpawnAt(x: real, y: real)
      requires Valid() && |particles| < MaxParticles
      modifies this`particles, rng
      ensures Valid()
      ensures rng.drawn == old(rng.drawn) + 7
      ensures |particles| == old(|particles|) + 1 && particles[..old(|particles|)] == old(particles)
      ensures fresh(particles[old(|particles|)])
      ensures particles[old(|particles|)].x == x && particles[old(|particles|)].y == y
      ensures particles[old(|particles|)].lifespan == FullLife
    {
      var p := new Particle(x, y, colors, rng);
      particles := particles + [p];
    }

    /** `particles.push(new Particle(random(width), random(height)))`: the
        position takes the two draws before the particle's own seven. */
    method Spawn()
      requires Valid() && |particles| < MaxParticles
      modifies this`particles, rng
      ensures Valid()
      ensures rng.drawn == old(rng.drawn) + 9
      ensures |particles| == old(|particles|) + 1 && particles[..old(|particles|)] == old(particles)
      ensures fresh(particles[old(|particles|)])
      ensures width >= 0.0 && height >= 0.0 ==>
                0.0 <= particles[old(|particles|)].x <= width && 0.0 <= particles[old(|particles|)].y <= height
      ensures particles[old(|particles|)].lifespan == FullLife
    {
      var u := rng.Next();
      var x := RandomScale(width, u);
      if width >= 0.0 {
        ScaledDraw(u, width);
      }
      u := rng.Next();
      var y := RandomScale(height, u);
      if height >= 0.0 {
        ScaledDraw(u, height);
      }
      SpawnAt(x, y);
    }

    /** The part `setup` and the resize handler share: an empty pool,
        colours taken from the page when there are none yet and the page
        offers them (`themeColors`), then sixty new particles. */
    method Repopulate(themeColors: Option<ColorData>)
      requires Valid()
      modifies this`particles, this`colors, rng
      ensures Valid()
      ensures |particles| == InitialParticles
      ensures forall p :: p in particles ==> fresh(p) && p.lifespan == FullLife
      ensures width >= 0.0 && height >= 0.0 ==>
                forall p :: p in particles ==> 0.0 <= p.x <= width && 0.0 <= p.y <= height
      ensures colors == if old(colors) == [] && themeColors.Some?
                        then ThemeColors(themeColors.value, colorReady, old(colors))
                        else old(colors)
      ensures rng.drawn == old(rng.drawn) + 9 * InitialParticles
    {
      particles := [];
      if colors == [] && themeColors.Some? {
        UpdateP5Theme(themeColors.value);
      }
      ghost var themed := colors;
      var i := 0;
      while i < InitialParticles
        invariant 0 <= i <= InitialParticles
        invariant colors == themed
        invariant Valid() && |particles| == i
        invariant forall k :: 0 <= k < i ==> fresh(particles[k]) && particles[k].lifespan == FullLife
        invariant width >= 0.0 && height >= 0.0 ==>
                    forall k :: 0 <= k < i ==> 0.0 <= particles[k].x <= width && 0.0 <= particles[k].y <= height
        invariant rng.drawn == old(rng.drawn) + 9 * i
      {
        Spawn();
        i := i + 1;
      }
    }

    /** `setup()`: a canvas the size of its container and sixty particles;
        without a container the sketch stops and nothing else changes. */
    method Setup(containerFound: bool, w: real, h: real, themeColors: Option<ColorData>)
      requires Valid() && w >= 0.0 && h >= 0.0
      modifies this, rng
      ensures Valid() && colorReady == old(colorReady)
      ensures !containerFound ==> !canvas && particles == old(particles) && rng.drawn == old(rng.drawn)
      ensures containerFound ==> canvas && width == w && height == h && |particles| == InitialParticles
      ensures containerFound ==>
                forall p :: p in particles ==>
                  fresh(p) && p.lifespan == FullLife && 0.0 <= p.x <= w && 0.0 <= p.y <= h
      ensures colors == if containerFound && old(colors) == [] && themeColors.Some?
                        then ThemeColors(themeColors.value, colorReady, old(colors))
                        else old(colors)
    {
      if !containerFound {
        canvas := false;
        return;
      }
      canvas := true;
      width, height := w, h;
      Repopulate(themeColors);
    }

    /** The window's resize handler: the canvas takes the new size and the
        pool is replaced by sixty new particles. */
    method Resize(w: real, h: real, themeColors: Option<ColorData>)
      requires Valid() && canvas && w >= 0.0 && h >= 0.0
      modifies this`width, this`height, this`particles, this`colors, rng
      ensures Valid() && width == w && height == h && |particles| == InitialParticles
      ensures forall p :: p in particles ==>
                fresh(p) && p.lifespan == FullLife && 0.0 <= p.x <= w && 0.0 <= p.y <= h
      ensures colors == if old(colors) == [] && themeColors.Some?
                        then ThemeColors(themeColors.value, colorReady, old(colors))
                        else old(colors)
    {
      width, height := w, h;
      Repopulate(themeColors);
    }

    /** The reverse loop of `draw`: every particle is updated once, and the
        ones that are then dead are spliced out. */
    method UpdateParticles()
      requires Valid()
      modifies this`particles, set p | p in particles
      ensures Valid()
      ensures forall p :: p in old(particles) ==> p.lifespan == old(p.lifespan) - p.decay
      ensures particles == Survivors(old(particles))
    {
      ghost var ps := particles;
      ghost var life0 := seq(|ps|, j requires 0 <= j < |ps| reads ps => ps[j].lifespan);
      particles := Sweep(particles, life0);
      KeptAreSurvivors(ps, life0);
      assert forall p :: p in ps ==> p.lifespan == old(p.lifespan) - p.decay by {
        forall p | p in ps
          ensures p.lifespan == old(p.lifespan) - p.decay
        {
          var j :| 0 <= j < |ps| && ps[j] == p;
        }
      }
      assert |particles| <= MaxParticles && Distinct(particles) by {
        SurvivorsMembers(ps);
      }
    }

    /** The mouse is pressed inside the canvas. */
    predicate PressedInside(mouse: Mouse)
      reads this
    {
      mouse.pressed && 0.0 <= mouse.x <= width && 0.0 <= mouse.y <= height
    }

    /** The end of `draw`: a new particle at a random place when the draw
        `random(1)` is below 0.15 and there are fewer than 150 particles,
        then one at the mouse when it is pressed inside the canvas, there
        are still fewer than 150 and the next draw is below 0.5. The first
        draw is taken whatever the count. */
    method SpawnNew(mouse: Mouse)
      requires Valid()
      modifies this`particles, rng
      ensures Valid()
      ensures var n := |old(particles)|;
              var d := old(rng.drawn);
              var first := RandomScale(1.0, rng.source(d)) < 0.15 && n < MaxParticles;
              var n1 := if first then n + 1 else n;
              var d1 := if first then d + 10 else d + 1;
              var asked := PressedInside(mouse) && n1 < MaxParticles;
              var second := asked && RandomScale(1.0, rng.source(d1)) < 0.5;
              |particles| == (if second then n1 + 1 else n1)
              && rng.drawn == (if second then d1 + 8 else if asked then d1 + 1 else d1)
      ensures particles[..|old(particles)|] == old(particles)
      ensures forall k :: |old(particles)| <= k < |particles| ==> fresh(particles[k])
    {
      var u := rng.Next();
      if RandomScale(1.0, u) < 0.15 && |particles| < MaxParticles {
        Spawn();
      }
      if PressedInside(mouse) && |particles| < MaxParticles {
        u := rng.Next();
        if RandomScale(1.0, u) < 0.5 {
          SpawnAt(mouse.x, mouse.y);
        }
      }
    }

    /** `draw()`: the background fill, the update and removal of dead
        particles, then the new ones. Nothing happens before `setup` has
        made the canvas. */
    method Draw(bgText: string, mouse: Mouse) returns (fill: Option<Rgba>)
      requires Valid()
      modifies this`particles, rng, set p | p in particles
      ensures Valid()
      ensures !(canvas && colorReady) ==> fill == None && particles == old(particles) && rng.drawn == old(rng.drawn)
      ensures canvas && colorReady ==> fill == Some(BackgroundFill(bgText))
      ensures canvas && colorReady ==>
                forall p :: p in old(particles) ==> p.lifespan == old(p.lifespan) - p.decay
      ensures canvas && colorReady ==>
                var kept := Survivors(old(particles));
                |kept| <= |particles| <= |kept| + 2 && particles[..|kept|] == kept
                && forall k :: |kept| <= k < |particles| ==> fresh(particles[k])
    {
      if !(canvas && colorReady) {
        return None;
      }
      fill := Some(BackgroundFill(bgText));
      UpdateParticles();
      ghost var kept := particles;
      SpawnNew(mouse);
      assert Survivors(old(particles)) == kept;
    }
  }
}
