/** One star of the field and what a single animation tick does to it.

    A particle's mutable state is a `Particle` object, updated in place by
    `Particle.Update`; `Snap` is the value of that state, and the functions
    on `Snap` below say what one update computes for each behavioural state:
    `Ease` for attracted particles, `FlickedStep` for flicked ones, `Drift`
    and `Orbit` for free regular and free family particles, `Twinkle` for
    the brightness of regular ones. */
module Particles {
  import opened Geometry

  /** Fraction of the remaining distance an attracted particle covers per tick. */
  const ATTRACTION_SPEED: real := 0.1
  /** Factor applied to a flicked particle's velocity every tick. */
  const DRAG_FACTOR: real := 0.98
  /** A flicked particle settles once both velocity components are below this. */
  const VELOCITY_THRESHOLD: real := 0.1
  /** Width of the random jitter applied to free regular particles. */
  const PARTICLE_DRIFT_SPEED: real := 0.005
  /** Width of the random brightness change of regular particles. */
  const TWINKLE_SPEED: real := 0.1

  datatype State = Free | Attracted | Flicked

  /** Regular stars, or one of the family members, which remember a base
      point and orbit around it with a fixed radius. */
  datatype Kind = Regular | Family(orbitRadius: real)

  /** The mutable state of one particle. `baseX`/`baseY` only mean something
      for family particles. */
  datatype Snap = Snap(x: real, y: real, velocity: Vec, state: State,
                       brightness: real, baseX: real, baseY: real)
  {
    function Pos(): Vec { Vec(x, y) }
  }

  /** What one update draws from its environment: three `Math.random()`
      samples (drift on x, drift on y, twinkle) and, for a free family
      particle, the orbit offset computed from its orbital phase. */
  datatype Draw = Draw(driftX: real, driftY: real, twinkle: real, orbit: Vec)

  const ZERO: Vec := Vec(0.0, 0.0)

  /** The velocity invariant: only a flicked particle moves on its own. */
  predicate AtRest(s: Snap)
  {
    s.state != Flicked ==> s.velocity == ZERO
  }

  /** A freshly created particle: free, motionless, and (for a family member)
      with its base point at its position. */
  function Spawned(kind: Kind, x: real, y: real, brightness: real): (s: Snap)
    ensures s.Pos() == Vec(x, y) && s.state == Free && AtRest(s)
    ensures kind.Family? ==> s.baseX == x && s.baseY == y
  {
    Snap(x, y, ZERO, Free, brightness,
         if kind.Family? then x else 0.0, if kind.Family? then y else 0.0)
  }

  // ---------------------------------------------------------------------
  // Attracted particles

  /** The attracted step: move a tenth of the way towards the pointer; a
      family particle carries its base point along. */
  function Ease(s: Snap, kind: Kind, mouse: Vec): (r: Snap)
    ensures mouse.x - r.x == 0.9 * (mouse.x - s.x)
    ensures mouse.y - r.y == 0.9 * (mouse.y - s.y)
    ensures Min(s.x, mouse.x) <= r.x <= Max(s.x, mouse.x)
    ensures Min(s.y, mouse.y) <= r.y <= Max(s.y, mouse.y)
    ensures r.state == s.state && r.velocity == s.velocity && r.brightness == s.brightness
    ensures kind.Family? ==> r.baseX == r.x && r.baseY == r.y
    ensures kind.Regular? ==> r.baseX == s.baseX && r.baseY == s.baseY
  {
    var x := s.x + (mouse.x - s.x) * ATTRACTION_SPEED;
    var y := s.y + (mouse.y - s.y) * ATTRACTION_SPEED;
    if kind.Family? then s.(x := x, y := y, baseX := x, baseY := y)
    else s.(x := x, y := y)
  }

  /** Easing shrinks the distance to the pointer to nine tenths. */
  lemma EaseShrinksDistance(s: Snap, kind: Kind, mouse: Vec)
    ensures DistSq(Ease(s, kind, mouse).Pos(), mouse) == 0.81 * DistSq(s.Pos(), mouse)
  {
    var r := Ease(s, kind, mouse);
    ScaledSquare(r.x - mouse.x, s.x - mouse.x, 0.9);
    ScaledSquare(r.y - mouse.y, s.y - mouse.y, 0.9);
  }

  lemma ScaledSquare(a: real, b: real, k: real)
    requires a == k * b
    ensures a * a == (k * k) * (b * b)
  {
  }

  // ---------------------------------------------------------------------
  // Flicked particles

  /** One axis of a flicked particle after a tick. */
  datatype Axis = Axis(pos: real, vel: real)

  /** The clamped coordinate touches the near or the far edge. */
  predicate OnEdge(p: real, extent: real)
  {
    p <= EDGE_BUFFER || p >= extent - EDGE_BUFFER
  }

  /** Advance one axis: move by the velocity, clamp to the edge buffer,
      reverse the velocity if the clamped position is on an edge, and apply
      drag. */
  function FlickAxis(p: real, v: real, extent: real): Axis
  {
    var q := Clamp(p + v, EDGE_BUFFER, extent - EDGE_BUFFER);
    var w := if OnEdge(q, extent) then v * -1.0 else v;
    Axis(q, w * DRAG_FACTOR)
  }

  /** One flicked axis ends inside the edge buffer; its velocity keeps its
      sign and loses 2% unless the particle ends on an edge, where the sign
      flips; away from the edges the step is a plain move. */
  lemma FlickAxisSpec(p: real, v: real, extent: real)
    ensures var r := FlickAxis(p, v, extent);
            && EDGE_BUFFER <= r.pos
            && (extent >= 2.0 * EDGE_BUFFER ==> r.pos <= extent - EDGE_BUFFER)
            && (OnEdge(r.pos, extent) ==> r.vel == -DRAG_FACTOR * v)
            && (!OnEdge(r.pos, extent) ==> r.vel == DRAG_FACTOR * v)
            && (EDGE_BUFFER < p + v < extent - EDGE_BUFFER ==> r.pos == p + v && r.vel == DRAG_FACTOR * v)
            && Abs(r.vel) == DRAG_FACTOR * Abs(v)
  {
  }

  /** The flicked step on both axes, with settling: once both components
      have dropped below VELOCITY_THRESHOLD the particle is freed and its
      velocity zeroed. */
  function FlickedStep(s: Snap, kind: Kind, width: real, height: real): Snap
  {
    var ax := FlickAxis(s.x, s.velocity.x, width);
    var ay := FlickAxis(s.y, s.velocity.y, height);
    var moved := s.(x := ax.pos, y := ay.pos, velocity := Vec(ax.vel, ay.vel));
    var based := if kind.Family? then moved.(baseX := ax.pos, baseY := ay.pos) else moved;
    if Abs(ax.vel) < VELOCITY_THRESHOLD && Abs(ay.vel) < VELOCITY_THRESHOLD
    then based.(state := Free, velocity := ZERO)
    else based
  }

  /** What a flicked step promises: the position ends inside the edge
      buffer, each velocity component is the old one times the drag (negated
      on an edge), and the particle is freed with velocity exactly zero if
      and only if both new components are below VELOCITY_THRESHOLD. */
  lemma FlickedStepSpec(s: Snap, kind: Kind, width: real, height: real)
    requires s.state == Flicked
    ensures var r := FlickedStep(s, kind, width, height);
            var ax := FlickAxis(s.x, s.velocity.x, width);
            var ay := FlickAxis(s.y, s.velocity.y, height);
            && EDGE_BUFFER <= r.x && (width >= 2.0 * EDGE_BUFFER ==> r.x <= width - EDGE_BUFFER)
            && EDGE_BUFFER <= r.y && (height >= 2.0 * EDGE_BUFFER ==> r.y <= height - EDGE_BUFFER)
            && (ax.vel == DRAG_FACTOR * s.velocity.x || ax.vel == -DRAG_FACTOR * s.velocity.x)
            && (s.velocity.x != 0.0 ==> (ax.vel == -DRAG_FACTOR * s.velocity.x <==> OnEdge(r.x, width)))
            && (ay.vel == DRAG_FACTOR * s.velocity.y || ay.vel == -DRAG_FACTOR * s.velocity.y)
            && (s.velocity.y != 0.0 ==> (ay.vel == -DRAG_FACTOR * s.velocity.y <==> OnEdge(r.y, height)))
            && (r.state == Free || r.state == Flicked)
            && (r.state == Free <==> Abs(ax.vel) < VELOCITY_THRESHOLD && Abs(ay.vel) < VELOCITY_THRESHOLD)
            && (r.state == Free ==> r.velocity == ZERO)
            && (r.state == Flicked ==> r.velocity == Vec(ax.vel, ay.vel))
            && r.brightness == s.brightness
            && (kind.Family? ==> r.baseX == r.x && r.baseY == r.y)
            && (kind.Regular? ==> r.baseX == s.baseX && r.baseY == s.baseY)
  {
    FlickAxisSpec(s.x, s.velocity.x, width);
    FlickAxisSpec(s.y, s.velocity.y, height);
  }

  /** A flick that neither bounces nor settles is plain drag: position
      advances by the velocity and the velocity is scaled by DRAG_FACTOR. */
  lemma FlickedStepUnbounced(s: Snap, kind: Kind, width: real, height: real)
    requires s.state == Flicked
    requires EDGE_BUFFER < s.x + s.velocity.x < width - EDGE_BUFFER
    requires EDGE_BUFFER < s.y + s.velocity.y < height - EDGE_BUFFER
    requires Abs(s.velocity.x) * DRAG_FACTOR >= VELOCITY_THRESHOLD
    ensures FlickedStep(s, kind, width, height).Pos() == Vec(s.x + s.velocity.x, s.y + s.velocity.y)
    ensures FlickedStep(s, kind, width, height).velocity
            == Vec(DRAG_FACTOR * s.velocity.x, DRAG_FACTOR * s.velocity.y)
    ensures FlickedStep(s, kind, width, height).state == Flicked
  {
    FlickedStepSpec(s, kind, width, height);
  }

  // ---------------------------------------------------------------------
  // Free particles

  /** A free regular star: a small random jitter on each axis, then clamped
      to the edge buffer. `d.driftX`, `d.driftY` are `Math.random()` samples. */
  function Drift(s: Snap, d: Draw, width: real, height: real): (r: Snap)
    ensures EDGE_BUFFER <= r.x && (width >= 2.0 * EDGE_BUFFER ==> r.x <= width - EDGE_BUFFER)
    ensures EDGE_BUFFER <= r.y && (height >= 2.0 * EDGE_BUFFER ==> r.y <= height - EDGE_BUFFER)
    ensures (0.0 <= d.driftX <= 1.0 && EDGE_BUFFER <= s.x <= width - EDGE_BUFFER)
              ==> Abs(r.x - s.x) <= PARTICLE_DRIFT_SPEED / 2.0
    ensures (0.0 <= d.driftY <= 1.0 && EDGE_BUFFER <= s.y <= height - EDGE_BUFFER)
              ==> Abs(r.y - s.y) <= PARTICLE_DRIFT_SPEED / 2.0
    ensures r.velocity == s.velocity && r.state == s.state && r.brightness == s.brightness
    ensures r.baseX == s.baseX && r.baseY == s.baseY
  {
    var x := s.x + (d.driftX - 0.5) * PARTICLE_DRIFT_SPEED;
    var y := s.y + (d.driftY - 0.5) * PARTICLE_DRIFT_SPEED;
    s.(x := Clamp(x, EDGE_BUFFER, width - EDGE_BUFFER),
       y := Clamp(y, EDGE_BUFFER, height - EDGE_BUFFER))
  }

  /** A free family member: placed at its base point plus the orbit offset,
      clamped so that its whole orbit stays inside the edge buffer, and the
      base point moved so that base + offset is the clamped position. */
  function Orbit(s: Snap, radius: real, orbit: Vec, width: real, height: real): (r: Snap)
    ensures EDGE_BUFFER + radius <= r.x
    ensures width >= 2.0 * (EDGE_BUFFER + radius) ==> r.x <= width - EDGE_BUFFER - radius
    ensures EDGE_BUFFER + radius <= r.y
    ensures height >= 2.0 * (EDGE_BUFFER + radius) ==> r.y <= height - EDGE_BUFFER - radius
    ensures r.baseX + orbit.x == r.x && r.baseY + orbit.y == r.y
    ensures (EDGE_BUFFER + radius <= s.baseX + orbit.x <= width - EDGE_BUFFER - radius)
              ==> r.x == s.baseX + orbit.x && r.baseX == s.baseX
    ensures r.velocity == s.velocity && r.state == s.state && r.brightness == s.brightness
  {
    var x := Clamp(s.baseX + orbit.x, EDGE_BUFFER + radius, width - EDGE_BUFFER - radius);
    var y := Clamp(s.baseY + orbit.y, EDGE_BUFFER + radius, height - EDGE_BUFFER - radius);
    s.(x := x, y := y, baseX := x - orbit.x, baseY := y - orbit.y)
  }

  /** Twinkle: a small random change of brightness, kept within [0, 1]. */
  function Twinkle(brightness: real, sample: real): (b: real)
    ensures 0.0 <= b <= 1.0
    ensures (0.0 <= brightness + (sample - 0.5) * TWINKLE_SPEED <= 1.0)
              ==> b == brightness + (sample - 0.5) * TWINKLE_SPEED
  {
    Clamp(brightness + (sample - 0.5) * TWINKLE_SPEED, 0.0, 1.0)
  }

  // ---------------------------------------------------------------------
  // One update

  /** `updateParticle`: the step for the particle's state, then twinkling
      for regular stars. `width`/`height` are the logical canvas size. */
  function Step(s: Snap, kind: Kind, mouse: Vec, width: real, height: real, d: Draw): Snap
  {
    var moved :=
      match s.state
      case Attracted => Ease(s, kind, mouse)
      case Flicked => FlickedStep(s, kind, width, height)
      case Free =>
        if kind.Family? then Orbit(s, kind.orbitRadius, d.orbit, width, height)
        else Drift(s, d, width, height);
    if kind.Regular? then moved.(brightness := Twinkle(moved.brightness, d.twinkle)) else moved
  }

  /** Every update keeps the velocity invariant. */
  lemma StepKeepsAtRest(s: Snap, kind: Kind, mouse: Vec, width: real, height: real, d: Draw)
    requires AtRest(s)
    ensures AtRest(Step(s, kind, mouse, width, height, d))
  {
    match s.state
    case Attracted =>
    case Flicked => FlickedStepSpec(s, kind, width, height);
    case Free =>
  }

  /** Which state an update may lead to: attracted particles stay attracted,
      free ones stay free, flicked ones stay flicked or settle to free. */
  lemma StepTransitions(s: Snap, kind: Kind, mouse: Vec, width: real, height: real, d: Draw)
    ensures s.state == Attracted ==> Step(s, kind, mouse, width, height, d).state == Attracted
    ensures s.state == Free ==> Step(s, kind, mouse, width, height, d).state == Free
    ensures s.state == Flicked ==> Step(s, kind, mouse, width, height, d).state in {Flicked, Free}
  {
    match s.state
    case Attracted =>
    case Flicked => FlickedStepSpec(s, kind, width, height);
    case Free =>
  }

  /** Regular stars keep their brightness within [0, 1]; family members
      never twinkle. */
  lemma StepBrightness(s: Snap, kind: Kind, mouse: Vec, width: real, height: real, d: Draw)
    ensures kind.Regular? ==> 0.0 <= Step(s, kind, mouse, width, height, d).brightness <= 1.0
    ensures kind.Family? ==> Step(s, kind, mouse, width, height, d).brightness == s.brightness
  {
    match s.state
    case Attracted =>
    case Flicked => FlickedStepSpec(s, kind, width, height);
    case Free =>
  }

  /** After an update every flicked or free particle is inside the edge
      buffer (family members keep their orbit radius clear of it as well).
      Attracted particles are not clamped. */
  lemma StepBounds(s: Snap, kind: Kind, mouse: Vec, width: real, height: real, d: Draw)
    requires s.state != Attracted
    requires width >= 2.0 * EDGE_BUFFER && height >= 2.0 * EDGE_BUFFER
    requires kind.Family? ==> kind.orbitRadius >= 0.0
    ensures var r := Step(s, kind, mouse, width, height, d);
            EDGE_BUFFER <= r.x && (kind.Regular? || s.state == Flicked ==> r.x <= width - EDGE_BUFFER)
            && EDGE_BUFFER <= r.y && (kind.Regular? || s.state == Flicked ==> r.y <= height - EDGE_BUFFER)
  {
    match s.state
    case Flicked => FlickedStepSpec(s, kind, width, height);
    case Free =>
  }

  // ---------------------------------------------------------------------
  // Particle objects

  class Particle {
    const kind: Kind
    var x: real
    var y: real
    var velocity: Vec
    var state: State
    var brightness: real
    var baseX: real
    var baseY: real

    function View(): Snap
      reads this
    {
      Snap(x, y, velocity, state, brightness, baseX, baseY)
    }

    /** Creation in `init`: free, at rest, family members based where they start. */
    constructor (kind: Kind, x: real, y: real, brightness: real)
      ensures this.kind == kind
      ensures View() == Spawned(kind, x, y, brightness)
    {
      this.kind := kind;
      this.x, this.y := x, y;
      velocity := ZERO;
      state := Free;
      this.brightness := brightness;
      if kind.Family? {
        baseX, baseY := x, y;
      } else {
        baseX, baseY := 0.0, 0.0;
      }
    }

    /** The flicked branch of `updateParticle`. */
    method Fly(width: real, height: real)
      requires state == Flicked
      modifies this
      ensures View() == FlickedStep(old(View()), kind, width, height)
    {
      ghost var ax := FlickAxis(x, velocity.x, width);
      ghost var ay := FlickAxis(y, velocity.y, height);
      x := x + velocity.x;
      y := y + velocity.y;
      x := Max(EDGE_BUFFER, Min(x, width - EDGE_BUFFER));
      y := Max(EDGE_BUFFER, Min(y, height - EDGE_BUFFER));
      assert x == ax.pos && y == ay.pos;
      if kind.Family? {
        baseX, baseY := x, y;
      }
      if x <= EDGE_BUFFER || x >= width - EDGE_BUFFER {
        velocity := velocity.(x := velocity.x * -1.0);
      }
      if y <= EDGE_BUFFER || y >= height - EDGE_BUFFER {
        velocity := velocity.(y := velocity.y * -1.0);
      }
      velocity := Vec(velocity.x * DRAG_FACTOR, velocity.y * DRAG_FACTOR);
      assert velocity == Vec(ax.vel, ay.vel);
      if Abs(velocity.x) < VELOCITY_THRESHOLD && Abs(velocity.y) < VELOCITY_THRESHOLD {
        state := Free;
        velocity := ZERO;
      }
    }

    /** The free branch of `updateParticle`: orbit for a family member,
        random drift for a regular star. */
    method Wander(d: Draw, width: real, height: real)
      modifies this
      ensures View() == if kind.Family? then Orbit(old(View()), kind.orbitRadius, d.orbit, width, height)
                        else Drift(old(View()), d, width, height)
    {
      if kind.Family? {
        var r := kind.orbitRadius;
        x := baseX + d.orbit.x;
        y := baseY + d.orbit.y;
        x := Max(EDGE_BUFFER + r, Min(x, width - EDGE_BUFFER - r));
        y := Max(EDGE_BUFFER + r, Min(y, height - EDGE_BUFFER - r));
        baseX := x - d.orbit.x;
        baseY := y - d.orbit.y;
      } else {
        x := x + (d.driftX - 0.5) * PARTICLE_DRIFT_SPEED;
        y := y + (d.driftY - 0.5) * PARTICLE_DRIFT_SPEED;
        x := Max(EDGE_BUFFER, Min(x, width - EDGE_BUFFER));
        y := Max(EDGE_BUFFER, Min(y, height - EDGE_BUFFER));
      }
    }

    /** `updateParticle(particle)` on a canvas `c`, with the pointer at `mouse`. */
    method Update(mouse: Vec, c: Canvas, d: Draw)
      requires c.Valid()
      modifies this
      ensures View() == Step(old(View()), kind, mouse, c.LogicalWidth(), c.LogicalHeight(), d)
    {
      var width := c.width / c.dpr;
      var height := c.height / c.dpr;
      if state == Attracted {
        x := x + (mouse.x - x) * ATTRACTION_SPEED;
        y := y + (mouse.y - y) * ATTRACTION_SPEED;
        if kind.Family? {
          baseX, baseY := x, y;
        }
      } else if state == Flicked {
        Fly(width, height);
      } else {
        Wander(d, width, height);
      }
      assert View() == match old(state)
                       case Attracted => Ease(old(View()), kind, mouse)
                       case Flicked => FlickedStep(old(View()), kind, width, height)
                       case Free =>
                         if kind.Family? then Orbit(old(View()), kind.orbitRadius, d.orbit, width, height)
                         else Drift(old(View()), d, width, height);
      if kind.Regular? {
        brightness := brightness + (d.twinkle - 0.5) * TWINKLE_SPEED;
        brightness := Max(0.0, Min(1.0, brightness));
      }
    }
  }

  /** The states of a sequence of particle objects, in order. */
  ghost function Views(ps: seq<Particle>): (r: seq<Snap>)
    reads ps
    ensures |r| == |ps| && forall i :: 0 <= i < |ps| ==> r[i] == ps[i].View()
  {
    seq(|ps|, i requires 0 <= i < |ps| reads ps => ps[i].View())
  }

  /** Particle objects are pairwise distinct. */
  ghost predicate Distinct(ps: seq<Particle>)
  {
    forall i, j :: 0 <= i < j < |ps| ==> ps[i] != ps[j]
  }
}
