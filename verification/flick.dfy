/** The flick (`flickParticles`): when the pointer moves while it is held,
    every attracted particle close to the pointer is launched in the
    direction the pointer moved, at five times the pointer's speed, with a
    small random deviation of the angle.

    The launch angle is `atan2(mv.y, mv.x) + j` for the pointer velocity
    `mv` and a random deviation `j`; the launch velocity is that angle's
    cosine and sine times `FLICK_SPEED * |mv|`.  Expanding the cosine and
    sine of the sum turns this into a rotation of `mv` by `j`, so the
    model takes the unit vector `spin = (cos j, sin j)` as input and
    needs neither trigonometry nor square roots. */
module Flick {
  import opened Geometry
  import opened Particles

  /** Distance from the pointer within which an attracted particle is flicked (px). */
  const FLICK_DISTANCE_THRESHOLD: real := 5.0
  /** Ratio of launch speed to pointer speed. */
  const FLICK_SPEED: real := 5.0

  /** Pointer displacement since the previous pointer event. */
  function MouseVelocity(mouse: Vec, prevMouse: Vec): Vec
  {
    Vec(mouse.x - prevMouse.x, mouse.y - prevMouse.y)
  }

  /** Launch velocity: `mv` rotated by the deviation whose cosine and sine
      are `spin.x` and `spin.y`, scaled by FLICK_SPEED. */
  function Launch(mv: Vec, spin: Vec): Vec
  {
    Vec(FLICK_SPEED * (mv.x * spin.x - mv.y * spin.y),
        FLICK_SPEED * (mv.y * spin.x + mv.x * spin.y))
  }

  /** The launch speed is FLICK_SPEED times the pointer speed (compared
      squared), and the launch direction deviates from the pointer's by
      exactly the random angle: the dot and cross products of launch and
      pointer velocity are `FLICK_SPEED * |mv|^2` times its cosine and
      sine. */
  lemma LaunchGeometry(mv: Vec, spin: Vec)
    requires spin.x * spin.x + spin.y * spin.y == 1.0
    ensures var v := Launch(mv, spin);
            && v.x * v.x + v.y * v.y
               == (FLICK_SPEED * FLICK_SPEED) * (mv.x * mv.x + mv.y * mv.y)
            && v.x * mv.x + v.y * mv.y == FLICK_SPEED * spin.x * (mv.x * mv.x + mv.y * mv.y)
            && mv.x * v.y - mv.y * v.x == FLICK_SPEED * spin.y * (mv.x * mv.x + mv.y * mv.y)
  {
    var a, b, c, s := mv.x, mv.y, spin.x, spin.y;
    var p, q := a * c - b * s, b * c + a * s;
    calc {
      p * p + q * q;
      (a * a + b * b) * (c * c + s * s);
      a * a + b * b;
    }
    var v := Launch(mv, spin);
    assert v.x * v.x == (FLICK_SPEED * FLICK_SPEED) * (p * p);
    assert v.y * v.y == (FLICK_SPEED * FLICK_SPEED) * (q * q);
    assert p * a + q * b == c * (a * a + b * b);
    assert a * q - b * p == s * (a * a + b * b);
  }

  /** Without deviation the particle flies exactly along the pointer
      movement, five times as fast; a pointer that did not move launches
      particles with zero velocity. */
  lemma LaunchStraight(mv: Vec, spin: Vec)
    ensures Launch(mv, Vec(1.0, 0.0)) == Vec(FLICK_SPEED * mv.x, FLICK_SPEED * mv.y)
    ensures Launch(ZERO, spin) == ZERO
  {
  }

  /** The particle is close enough to the pointer to be flicked. */
  predicate InFlickRange(s: Snap, mouse: Vec)
  {
    DistSq(s.Pos(), mouse) <= FLICK_DISTANCE_THRESHOLD * FLICK_DISTANCE_THRESHOLD
  }

  /** What the flick does to one particle. */
  function FlickOne(s: Snap, mouse: Vec, mv: Vec, spin: Vec): (r: Snap)
    ensures r.Pos() == s.Pos() && r.brightness == s.brightness
    ensures r.baseX == s.baseX && r.baseY == s.baseY
    ensures r.state == Flicked <==> s.state == Flicked || (s.state == Attracted && InFlickRange(s, mouse))
  {
    if s.state == Attracted && InFlickRange(s, mouse)
    then s.(velocity := Launch(mv, spin), state := Flicked)
    else s
  }

  /** The flick over the whole particle list; `spins[i]` is the deviation
      drawn for particle `i` (only drawn if it is flicked). */
  function FlickAll(ss: seq<Snap>, mouse: Vec, mv: Vec, spins: seq<Vec>): (r: seq<Snap>)
    requires |spins| == |ss|
    ensures |r| == |ss|
  {
    if ss == [] then []
    else [FlickOne(ss[0], mouse, mv, spins[0])] + FlickAll(ss[1..], mouse, mv, spins[1..])
  }

  /** Exactly the attracted particles within FLICK_DISTANCE_THRESHOLD of the
      pointer are launched, each with its own deviation; every other
      particle is left exactly as it was. */
  lemma {:induction false} FlickAllAt(ss: seq<Snap>, mouse: Vec, mv: Vec, spins: seq<Vec>, i: nat)
    requires |spins| == |ss| && i < |ss|
    ensures FlickAll(ss, mouse, mv, spins)[i]
            == if ss[i].state == Attracted && InFlickRange(ss[i], mouse)
               then ss[i].(velocity := Launch(mv, spins[i]), state := Flicked)
               else ss[i]
  {
    if i > 0 {
      FlickAllAt(ss[1..], mouse, mv, spins[1..], i - 1);
    }
  }

  /** After a flick no attracted particle is left within the threshold,
      so a second flick at the same pointer position changes nothing. */
  lemma FlickAllIdempotent(ss: seq<Snap>, mouse: Vec, mv: Vec, spins: seq<Vec>,
                           mv2: Vec, spins2: seq<Vec>)
    requires |spins| == |ss| == |spins2|
    ensures forall i :: 0 <= i < |ss| ==>
              !(FlickAll(ss, mouse, mv, spins)[i].state == Attracted
                && InFlickRange(FlickAll(ss, mouse, mv, spins)[i], mouse))
    ensures FlickAll(FlickAll(ss, mouse, mv, spins), mouse, mv2, spins2)
            == FlickAll(ss, mouse, mv, spins)
  {
    var r := FlickAll(ss, mouse, mv, spins);
    forall i | 0 <= i < |ss|
      ensures !(r[i].state == Attracted && InFlickRange(r[i], mouse))
      ensures FlickAll(r, mouse, mv2, spins2)[i] == r[i]
    {
      FlickAllAt(ss, mouse, mv, spins, i);
      FlickAllAt(r, mouse, mv2, spins2, i);
    }
  }

  /** The flick keeps the velocity invariant: only flicked particles get a
      velocity. */
  lemma FlickAllKeepsAtRest(ss: seq<Snap>, mouse: Vec, mv: Vec, spins: seq<Vec>)
    requires |spins| == |ss|
    requires forall i :: 0 <= i < |ss| ==> AtRest(ss[i])
    ensures forall i :: 0 <= i < |ss| ==> AtRest(FlickAll(ss, mouse, mv, spins)[i])
  {
    forall i | 0 <= i < |ss|
      ensures AtRest(FlickAll(ss, mouse, mv, spins)[i])
    {
      FlickAllAt(ss, mouse, mv, spins, i);
    }
  }

  /** A worked example: a particle attracted to the pointer at (100, 100)
      is flicked by a 10 px move to the right, without deviation, and flies
      off at 50 px per tick to the right. */
  lemma FlickScenario(s: Snap)
    requires s.state == Attracted && s.Pos() == Vec(100.0, 100.0)
    ensures FlickOne(s, Vec(100.0, 100.0), MouseVelocity(Vec(100.0, 100.0), Vec(90.0, 100.0)),
                     Vec(1.0, 0.0))
            == s.(velocity := Vec(50.0, 0.0), state := Flicked)
  {
  }

  /** A flick while the pointer did not move launches the particle with
      velocity zero, and the next update sets it free again on the spot. */
  lemma StillFlickReleases(s: Snap, kind: Kind, mouse: Vec, spin: Vec,
                           width: real, height: real, d: Draw)
    requires s.state == Attracted && InFlickRange(s, mouse)
    requires EDGE_BUFFER <= s.x <= width - EDGE_BUFFER && EDGE_BUFFER <= s.y <= height - EDGE_BUFFER
    ensures var t := FlickOne(s, mouse, ZERO, spin);
            var u := Step(t, kind, mouse, width, height, d);
            u.state == Free && u.velocity == ZERO && u.Pos() == s.Pos()
  {
    var t := FlickOne(s, mouse, ZERO, spin);
    FlickedStepSpec(t, kind, width, height);
    FlickAxisSpec(t.x, 0.0, width);
    FlickAxisSpec(t.y, 0.0, height);
  }

  /** The body of the `forEach` in `flickParticles` for one particle. */
  method FlickParticle(particle: Particle, mouse: Vec, mouseVelocity: Vec, spin: Vec)
    modifies particle`state, particle`velocity
    ensures particle.View() == FlickOne(old(particle.View()), mouse, mouseVelocity, spin)
  {
    if particle.state != Attracted {
      return;
    }
    var dx := particle.x - mouse.x;
    var dy := particle.y - mouse.y;
    var distanceSquared := dx * dx + dy * dy;
    var flickThreshold := FLICK_DISTANCE_THRESHOLD * FLICK_DISTANCE_THRESHOLD;
    if distanceSquared <= flickThreshold {
      particle.velocity := Launch(mouseVelocity, spin);
      particle.state := Flicked;
    }
  }

  /** `flickParticles()` with the pointer at `mouse`, previously at
      `prevMouse`; only the state and velocity of particles change. */
  method FlickParticles(particles: seq<Particle>, mouse: Vec, prevMouse: Vec, spins: seq<Vec>)
    requires Distinct(particles) && |spins| == |particles|
    modifies particles`state, particles`velocity
    ensures Views(particles)
            == FlickAll(old(Views(particles)), mouse, MouseVelocity(mouse, prevMouse), spins)
  {
    ghost var before := Views(particles);
    var mouseVelocity := MouseVelocity(mouse, prevMouse);
    ghost var after := FlickAll(before, mouse, mouseVelocity, spins);
    for i := 0 to |particles|
      invariant forall j :: 0 <= j < i ==> particles[j].View() == after[j]
      invariant forall j :: i <= j < |particles| ==> particles[j].View() == before[j]
    {
      FlickAllAt(before, mouse, mouseVelocity, spins, i);
      var particle := particles[i];
      assert forall j :: 0 <= j < |particles| && j != i ==> particles[j] != particle;
      FlickParticle(particle, mouse, mouseVelocity, spins[i]);
    }
    assert Views(particles) == after;
  }
}
