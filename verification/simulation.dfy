/** The animation as a whole: creating the particles (`init`), scattering
    them again when the window is resized (`resizeCanvas`), and one frame
    of the animation loop (`updateAndRender`): every regular star is
    updated, then every family member, then, while the pointer is held,
    the attraction query runs.

    The particle list is a sequence of `Particle` objects whose fields are
    updated in place.  The family members are the first FAMILY_SIZE
    entries, and `family` lists the same objects again, in the same order.
    `Math.random()` samples and the frame time are inputs. */
module Simulation {
  import opened Geometry
  import opened Particles
  import opened Attraction
  import opened Interaction

  /** Number of family members (`familyColors.length`). */
  const FAMILY_SIZE: nat := 4
  /** Smallest orbit radius of a family member, and the width of its random range. */
  const MIN_ORBIT_RADIUS: real := 2.0
  const ORBIT_RADIUS_RANGE: real := 3.0

  /** The kinds of a sequence of particles, in order. */
  function Kinds(ps: seq<Particle>): (r: seq<Kind>)
    ensures |r| == |ps| && forall i :: 0 <= i < |ps| ==> r[i] == ps[i].kind
  {
    seq(|ps|, i requires 0 <= i < |ps| => ps[i].kind)
  }

  /** The family members come first in the particle list and are exactly
      the objects listed, in order, by `family`. */
  ghost predicate FamilyLayout(particles: seq<Particle>, family: seq<Particle>)
  {
    && |family| <= |particles|
    && (forall k :: 0 <= k < |family| ==> family[k] == particles[k])
    && (forall i :: 0 <= i < |particles| ==> (particles[i].kind.Family? <==> i < |family|))
  }

  // ---------------------------------------------------------------------
  // Creation

  /** The three `Math.random()` samples a new particle draws: its position
      as fractions of the logical canvas, and a third sample that is the
      brightness of a regular star or sets the orbit radius of a family
      member. */
  datatype Seed = Seed(u: real, v: real, w: real)

  predicate Unit(r: real) { 0.0 <= r < 1.0 }

  predicate SeedValid(s: Seed) { Unit(s.u) && Unit(s.v) && Unit(s.w) }

  /** The kind of the `i`-th created particle. */
  function NewKind(i: nat, s: Seed): Kind
  {
    if i < FAMILY_SIZE then Family(MIN_ORBIT_RADIUS + s.w * ORBIT_RADIUS_RANGE) else Regular
  }

  /** The state of the `i`-th created particle on canvas `c`: family
      members shine at full brightness, regular stars at a random one. */
  function Newborn(i: nat, s: Seed, c: Canvas): Snap
    requires c.Valid()
  {
    Spawned(NewKind(i, s), s.u * c.LogicalWidth(), s.v * c.LogicalHeight(),
            if i < FAMILY_SIZE then 1.0 else s.w)
  }

  /** A new particle is free, at rest, somewhere on the logical canvas;
      a family member is based at its position, has an orbit radius in
      [2, 5) and brightness 1; a regular star has a brightness in [0, 1). */
  lemma NewbornSpec(i: nat, s: Seed, c: Canvas)
    requires c.Valid() && SeedValid(s)
    ensures var n := Newborn(i, s, c);
            && n.state == Free && AtRest(n)
            && 0.0 <= n.x <= c.LogicalWidth() && (c.LogicalWidth() > 0.0 ==> n.x < c.LogicalWidth())
            && 0.0 <= n.y <= c.LogicalHeight() && (c.LogicalHeight() > 0.0 ==> n.y < c.LogicalHeight())
            && (i < FAMILY_SIZE ==>
                  && n.brightness == 1.0 && n.baseX == n.x && n.baseY == n.y
                  && MIN_ORBIT_RADIUS <= NewKind(i, s).orbitRadius < MIN_ORBIT_RADIUS + ORBIT_RADIUS_RANGE)
            && (i >= FAMILY_SIZE ==> NewKind(i, s) == Regular && Unit(n.brightness))
  {
    UnitScale(s.u, c.LogicalWidth(), s.u * c.LogicalWidth());
    UnitScale(s.v, c.LogicalHeight(), s.v * c.LogicalHeight());
    UnitScale(s.w, ORBIT_RADIUS_RANGE, s.w * ORBIT_RADIUS_RANGE);
  }

  /** A unit sample scaled to a non-negative extent stays in [0, extent),
      or is 0 when the extent is 0. */
  lemma UnitScale(r: real, extent: real, scaled: real)
    requires Unit(r) && extent >= 0.0 && scaled == r * extent
    ensures 0.0 <= scaled <= extent
    ensures extent > 0.0 ==> scaled < extent
  {
    MulNonNegative(r, extent);
    if extent > 0.0 {
      ScaledLe(1.0, r, extent);
    } else {
      assert extent == 0.0;
    }
  }

  /** `init()`, from the clearing of the particle lists to the last push:
      FAMILY_SIZE family members, then the remaining regular stars, each
      drawn from its own seed. */
  method CreateParticles(c: Canvas, seeds: seq<Seed>) returns (particles: seq<Particle>, family: seq<Particle>)
    requires c.Valid() && |seeds| == PARTICLE_COUNT
    ensures |particles| == PARTICLE_COUNT && |family| == FAMILY_SIZE
    ensures Distinct(particles) && FamilyLayout(particles, family)
    ensures forall i :: 0 <= i < |particles| ==> fresh(particles[i])
    ensures forall i :: 0 <= i < |particles| ==>
              particles[i].kind == NewKind(i, seeds[i]) && particles[i].View() == Newborn(i, seeds[i], c)
  {
    particles, family := [], [];
    var width, height := c.width / c.dpr, c.height / c.dpr;
    for k := 0 to FAMILY_SIZE
      invariant |particles| == k && family == particles
      invariant Distinct(particles)
      invariant forall i :: 0 <= i < k ==> fresh(particles[i])
      invariant forall i :: 0 <= i < k ==>
                  particles[i].kind == NewKind(i, seeds[i]) && particles[i].View() == Newborn(i, seeds[i], c)
    {
      var s := seeds[k];
      var particle := new Particle(Family(MIN_ORBIT_RADIUS + s.w * ORBIT_RADIUS_RANGE),
                                   s.u * width, s.v * height, 1.0);
      particles := particles + [particle];
      family := family + [particle];
    }
    for k := 0 to PARTICLE_COUNT - FAMILY_SIZE
      invariant |particles| == FAMILY_SIZE + k && family == particles[..FAMILY_SIZE]
      invariant Distinct(particles)
      invariant forall i :: 0 <= i < |particles| ==> fresh(particles[i])
      invariant forall i :: 0 <= i < |particles| ==>
                  particles[i].kind == NewKind(i, seeds[i]) && particles[i].View() == Newborn(i, seeds[i], c)
    {
      var s := seeds[FAMILY_SIZE + k];
      var particle := new Particle(Regular, s.u * width, s.v * height, s.w);
      particles := particles + [particle];
    }
  }

  // ---------------------------------------------------------------------
  // Resizing

  /** The canvas after a resize to a visible area of the given logical
      size: the physical size is stored in the canvas's integer attributes,
      so the product with the device pixel ratio is truncated. */
  function Resized(visibleWidth: nat, visibleHeight: nat, dpr: real): Canvas
  {
    Canvas((visibleWidth as real * dpr).Floor as real, (visibleHeight as real * dpr).Floor as real, dpr)
  }

  /** The resized canvas is valid; its physical size is a whole number of
      device pixels, the largest not above the visible area times the
      device pixel ratio; so its logical size falls short of the visible
      area by less than one device pixel. */
  lemma ResizedSpec(visibleWidth: nat, visibleHeight: nat, dpr: real)
    requires dpr > 0.0
    ensures var c := Resized(visibleWidth, visibleHeight, dpr);
            && c.Valid()
            && c.width.Floor as real == c.width && c.height.Floor as real == c.height
            && c.width <= visibleWidth as real * dpr < c.width + 1.0
            && c.height <= visibleHeight as real * dpr < c.height + 1.0
            && visibleWidth as real - 1.0 / dpr < c.LogicalWidth() <= visibleWidth as real
            && visibleHeight as real - 1.0 / dpr < c.LogicalHeight() <= visibleHeight as real
  {
    var c := Resized(visibleWidth, visibleHeight, dpr);
    MulNonNegative(visibleWidth as real, dpr);
    MulNonNegative(visibleHeight as real, dpr);
    assert c.Valid();
    LogicalSize(c);
    TruncatedExtent(visibleWidth as real, dpr, c.width, c.LogicalWidth());
    TruncatedExtent(visibleHeight as real, dpr, c.height, c.LogicalHeight());
  }

  /** One axis of the above: a physical extent `f` that is the visible
      extent `v` times `k`, rounded down, is `logical` logical pixels. */
  lemma TruncatedExtent(v: real, k: real, f: real, logical: real)
    requires k > 0.0 && f <= v * k < f + 1.0 && logical * k == f
    ensures v - 1.0 / k < logical <= v
  {
    ScaledLe(logical, v, k);
    assert (v - 1.0 / k) * k == v * k - 1.0;
    ScaledLe(logical, v - 1.0 / k, k);
  }

  /** Two `Math.random()` samples placing one particle after a resize. */
  datatype Spot = Spot(u: real, v: real)

  /** One particle after a resize: placed at random on the visible area,
      freed and stopped; a family member is based at its new position. */
  function Scatter(s: Snap, kind: Kind, spot: Spot, visibleWidth: real, visibleHeight: real): Snap
  {
    var x := spot.u * visibleWidth;
    var y := spot.v * visibleHeight;
    var placed := s.(x := x, y := y, state := Free, velocity := ZERO);
    if kind.Family? then placed.(baseX := x, baseY := y) else placed
  }

  function ScatterAll(ss: seq<Snap>, kinds: seq<Kind>, spots: seq<Spot>,
                      visibleWidth: real, visibleHeight: real): (r: seq<Snap>)
    requires |kinds| == |ss| == |spots|
    ensures |r| == |ss|
  {
    seq(|ss|, i requires 0 <= i < |ss| => Scatter(ss[i], kinds[i], spots[i], visibleWidth, visibleHeight))
  }

  /** After a resize every particle is free and at rest, keeps its
      brightness, and family members are based where they now are; whatever
      they were doing (attracted, flicked) is forgotten.  With unit samples
      every particle lies on the visible area. */
  lemma ScatterAllSpec(ss: seq<Snap>, kinds: seq<Kind>, spots: seq<Spot>,
                       visibleWidth: real, visibleHeight: real, i: nat)
    requires |kinds| == |ss| == |spots| && i < |ss|
    ensures var r := ScatterAll(ss, kinds, spots, visibleWidth, visibleHeight)[i];
            && r.state == Free && AtRest(r)
            && r.brightness == ss[i].brightness
            && (kinds[i].Family? ==> r.baseX == r.x && r.baseY == r.y)
            && (kinds[i].Regular? ==> r.baseX == ss[i].baseX && r.baseY == ss[i].baseY)
            && (Unit(spots[i].u) && visibleWidth >= 0.0 ==>
                  0.0 <= r.x <= visibleWidth && (visibleWidth > 0.0 ==> r.x < visibleWidth))
            && (Unit(spots[i].v) && visibleHeight >= 0.0 ==>
                  0.0 <= r.y <= visibleHeight && (visibleHeight > 0.0 ==> r.y < visibleHeight))
  {
    if Unit(spots[i].u) && visibleWidth >= 0.0 {
      UnitScale(spots[i].u, visibleWidth, spots[i].u * visibleWidth);
    }
    if Unit(spots[i].v) && visibleHeight >= 0.0 {
      UnitScale(spots[i].v, visibleHeight, spots[i].v * visibleHeight);
    }
  }

  /** `resizeCanvas()`: the new canvas for the visible area, and every
      particle scattered over it; `spots[i]` are particle `i`'s samples. */
  method ResizeCanvas(particles: seq<Particle>, visibleWidth: nat, visibleHeight: nat, dpr: real,
                      spots: seq<Spot>) returns (c: Canvas)
    requires Distinct(particles) && |spots| == |particles|
    modifies particles
    ensures c == Resized(visibleWidth, visibleHeight, dpr)
    ensures Views(particles)
            == ScatterAll(old(Views(particles)), Kinds(particles), spots,
                          visibleWidth as real, visibleHeight as real)
  {
    c := Canvas((visibleWidth as real * dpr).Floor as real, (visibleHeight as real * dpr).Floor as real, dpr);
    var width, height := visibleWidth as real, visibleHeight as real;
    ghost var before := Views(particles);
    ghost var after := ScatterAll(before, Kinds(particles), spots, width, height);
    for i := 0 to |particles|
      invariant forall j :: 0 <= j < i ==> particles[j].View() == after[j]
      invariant forall j :: i <= j < |particles| ==> particles[j].View() == before[j]
    {
      var particle := particles[i];
      assert forall j :: 0 <= j < |particles| && j != i ==> particles[j] != particle;
      particle.x := spots[i].u * width;
      particle.y := spots[i].v * height;
      particle.state := Free;
      particle.velocity := ZERO;
      if particle.kind.Family? {
        particle.baseX := particle.x;
        particle.baseY := particle.y;
      }
    }
    assert Views(particles) == after;
  }

  // ---------------------------------------------------------------------
  // One frame

  /** Every particle updated once, with its own random draws. */
  function Stepped(ss: seq<Snap>, kinds: seq<Kind>, mouse: Vec, width: real, height: real,
                   draws: seq<Draw>): (r: seq<Snap>)
    requires |kinds| == |ss| == |draws|
    ensures |r| == |ss|
  {
    seq(|ss|, i requires 0 <= i < |ss| => Step(ss[i], kinds[i], mouse, width, height, draws[i]))
  }

  /** One frame of `updateAndRender` at time `now` with pointer state `p`:
      every particle updated, then the attraction query while the pointer
      is held, for an interaction that has lasted `now - start`. */
  function Tick(ss: seq<Snap>, kinds: seq<Kind>, p: PointerState, c: Canvas, now: int,
                draws: seq<Draw>): (r: seq<Snap>)
    requires c.Valid() && |kinds| == |ss| == |draws|
    ensures |r| == |ss|
  {
    var stepped := Stepped(ss, kinds, p.mouse, c.LogicalWidth(), c.LogicalHeight(), draws);
    if p.isInteracting
    then Attract(stepped, Query(p.mouse, DynamicInteractionRadius(now - p.interactionStartTime, c)),
                 MaxParticlesToAttract(PARTICLE_COUNT))
    else stepped
  }

  /** A frame is the update passes, followed by the attraction query
      while the pointer is held. */
  lemma TickUnfold(ss: seq<Snap>, kinds: seq<Kind>, p: PointerState, c: Canvas, now: int,
                   draws: seq<Draw>, stepped: seq<Snap>, q: Query)
    requires c.Valid() && |kinds| == |ss| == |draws|
    requires stepped == Stepped(ss, kinds, p.mouse, c.LogicalWidth(), c.LogicalHeight(), draws)
    requires q == Query(p.mouse, DynamicInteractionRadius(now - p.interactionStartTime, c))
    ensures Tick(ss, kinds, p, c, now, draws)
            == if p.isInteracting then Attract(stepped, q, MaxParticlesToAttract(PARTICLE_COUNT)) else stepped
  {
  }

  /** A frame keeps the velocity invariant of every particle. */
  lemma TickKeepsAtRest(ss: seq<Snap>, kinds: seq<Kind>, p: PointerState, c: Canvas, now: int,
                        draws: seq<Draw>)
    requires c.Valid() && |kinds| == |ss| == |draws|
    requires forall i :: 0 <= i < |ss| ==> AtRest(ss[i])
    ensures forall i :: 0 <= i < |ss| ==> AtRest(Tick(ss, kinds, p, c, now, draws)[i])
  {
    var stepped := Stepped(ss, kinds, p.mouse, c.LogicalWidth(), c.LogicalHeight(), draws);
    forall i | 0 <= i < |ss|
      ensures AtRest(stepped[i])
    {
      StepKeepsAtRest(ss[i], kinds[i], p.mouse, c.LogicalWidth(), c.LogicalHeight(), draws[i]);
    }
    if p.isInteracting {
      AttractKeepsAtRest(stepped, Query(p.mouse, DynamicInteractionRadius(now - p.interactionStartTime, c)),
                         MaxParticlesToAttract(PARTICLE_COUNT));
    }
  }

  /** How a frame changes a particle's state: attracted particles stay
      attracted; a particle becomes attracted only while the pointer is
      held, and at most MaxParticlesToAttract(PARTICLE_COUNT) = 5 of them
      per frame. */
  lemma TickStates(ss: seq<Snap>, kinds: seq<Kind>, p: PointerState, c: Canvas, now: int,
                   draws: seq<Draw>, i: nat)
    requires c.Valid() && |kinds| == |ss| == |draws| && i < |ss|
    ensures var r := Tick(ss, kinds, p, c, now, draws);
            && (ss[i].state == Attracted ==> r[i].state == Attracted)
            && (!p.isInteracting ==> (r[i].state == Attracted <==> ss[i].state == Attracted))
            && Changed(Stepped(ss, kinds, p.mouse, c.LogicalWidth(), c.LogicalHeight(), draws), r) <= 5
  {
    var stepped := Stepped(ss, kinds, p.mouse, c.LogicalWidth(), c.LogicalHeight(), draws);
    StepTransitions(ss[i], kinds[i], p.mouse, c.LogicalWidth(), c.LogicalHeight(), draws[i]);
    AttractionCap(PARTICLE_COUNT);
    if p.isInteracting {
      var q := Query(p.mouse, DynamicInteractionRadius(now - p.interactionStartTime, c));
      AttractAt(stepped, q, 5, i);
      AttractChangedCount(stepped, q, 5);
    } else {
      NothingChanged(stepped);
    }
  }

  /** Regular stars keep their brightness in [0, 1] and family members
      keep theirs unchanged through a frame. */
  lemma TickBrightness(ss: seq<Snap>, kinds: seq<Kind>, p: PointerState, c: Canvas, now: int,
                       draws: seq<Draw>, i: nat)
    requires c.Valid() && |kinds| == |ss| == |draws| && i < |ss|
    ensures var r := Tick(ss, kinds, p, c, now, draws);
            && (kinds[i].Regular? ==> 0.0 <= r[i].brightness <= 1.0)
            && (kinds[i].Family? ==> r[i].brightness == ss[i].brightness)
  {
    var stepped := Stepped(ss, kinds, p.mouse, c.LogicalWidth(), c.LogicalHeight(), draws);
    StepBrightness(ss[i], kinds[i], p.mouse, c.LogicalWidth(), c.LogicalHeight(), draws[i]);
    if p.isInteracting {
      AttractAt(stepped, Query(p.mouse, DynamicInteractionRadius(now - p.interactionStartTime, c)),
                MaxParticlesToAttract(PARTICLE_COUNT), i);
    }
  }

  /** The first pass of `updateAndRender`: every regular star, in order. */
  method UpdateStars(particles: seq<Particle>, mouse: Vec, c: Canvas, draws: seq<Draw>)
    requires c.Valid() && Distinct(particles) && |draws| == |particles|
    modifies particles
    ensures forall j :: 0 <= j < |particles| ==>
              particles[j].View()
              == if particles[j].kind.Regular?
                 then Step(old(particles[j].View()), particles[j].kind, mouse,
                           c.LogicalWidth(), c.LogicalHeight(), draws[j])
                 else old(particles[j].View())
  {
    for i := 0 to |particles|
      invariant forall j :: 0 <= j < i ==>
                  particles[j].View()
                  == if particles[j].kind.Regular?
                     then Step(old(particles[j].View()), particles[j].kind, mouse,
                               c.LogicalWidth(), c.LogicalHeight(), draws[j])
                     else old(particles[j].View())
      invariant forall j :: i <= j < |particles| ==> particles[j].View() == old(particles[j].View())
    {
      var particle := particles[i];
      if particle.kind.Regular? {
        assert forall j :: 0 <= j < |particles| && j != i ==> particles[j] != particle;
        particle.Update(mouse, c, draws[i]);
      }
    }
  }

  /** The second pass of `updateAndRender`: every family member, in order. */
  method UpdateFamily(particles: seq<Particle>, family: seq<Particle>, mouse: Vec, c: Canvas,
                      draws: seq<Draw>)
    requires c.Valid() && Distinct(particles) && FamilyLayout(particles, family)
    requires |draws| == |particles|
    modifies particles
    ensures forall j :: 0 <= j < |particles| ==>
              particles[j].View()
              == if particles[j].kind.Family?
                 then Step(old(particles[j].View()), particles[j].kind, mouse,
                           c.LogicalWidth(), c.LogicalHeight(), draws[j])
                 else old(particles[j].View())
  {
    for k := 0 to |family|
      invariant forall j :: 0 <= j < k ==>
                  particles[j].View()
                  == Step(old(particles[j].View()), particles[j].kind, mouse,
                          c.LogicalWidth(), c.LogicalHeight(), draws[j])
      invariant forall j :: k <= j < |particles| ==> particles[j].View() == old(particles[j].View())
    {
      var particle := family[k];
      assert particle == particles[k];
      assert forall j :: 0 <= j < |particles| && j != k ==> particles[j] != particle;
      particle.Update(mouse, c, draws[k]);
    }
  }

  /** Both update passes of `updateAndRender`: every particle is updated
      exactly once, with its own draws. */
  method UpdatePasses(particles: seq<Particle>, family: seq<Particle>, mouse: Vec, c: Canvas,
                      draws: seq<Draw>)
    requires c.Valid() && Distinct(particles) && FamilyLayout(particles, family)
    requires |draws| == |particles|
    modifies particles
    ensures Views(particles)
            == Stepped(old(Views(particles)), Kinds(particles), mouse, c.LogicalWidth(), c.LogicalHeight(), draws)
  {
    ghost var before := Views(particles);
    ghost var kinds := Kinds(particles);
    ghost var stepped := Stepped(before, kinds, mouse, c.LogicalWidth(), c.LogicalHeight(), draws);
    UpdateStars(particles, mouse, c, draws);
    ghost var mid := Views(particles);
    assert forall j :: 0 <= j < |particles| ==>
             mid[j] == if kinds[j].Regular? then stepped[j] else before[j];
    UpdateFamily(particles, family, mouse, c, draws);
    assert forall j :: 0 <= j < |particles| ==> particles[j].View() == stepped[j];
    assert Views(particles) == stepped;
  }

  /** `updateAndRender()` at time `now`: the regular stars, then the family
      members, then the attraction query; drawing is not modelled.
      `draws[i]` are particle `i`'s random draws for this frame. */
  method UpdateAndRender(particles: seq<Particle>, family: seq<Particle>, pointer: Pointer,
                         c: Canvas, now: int, draws: seq<Draw>)
    requires c.Valid() && Distinct(particles) && FamilyLayout(particles, family)
    requires |draws| == |particles|
    modifies particles
    ensures Views(particles)
            == Tick(old(Views(particles)), Kinds(particles), pointer.State(), c, now, draws)
  {
    ghost var before := Views(particles);
    ghost var kinds := Kinds(particles);
    ghost var ps := pointer.State();
    var mouse := pointer.mouse;
    var elapsed := now - pointer.interactionStartTime;
    ghost var stepped := Stepped(before, kinds, mouse, c.LogicalWidth(), c.LogicalHeight(), draws);
    ghost var q := Query(mouse, DynamicInteractionRadius(elapsed, c));
    ghost var target := Tick(before, kinds, ps, c, now, draws);
    TickUnfold(before, kinds, ps, c, now, draws, stepped, q);
    if pointer.isInteracting {
      UpdatePasses(particles, family, mouse, c, draws);
      AttractParticles(particles, mouse, elapsed, c);
      assert Views(particles) == Attract(stepped, q, MaxParticlesToAttract(PARTICLE_COUNT));
    } else {
      UpdatePasses(particles, family, mouse, c, draws);
    }
    assert Views(particles) == target;
    assert pointer.State() == ps;
  }
}
