/** The spatial attraction query (`attractParticles`): while the pointer is
    held, free particles within the growing interaction radius of the
    pointer become attracted, scanning the particle list in index order
    and stopping once a small fixed cap has been attracted in this tick. */
module Attraction {
  import opened Geometry
  import opened Particles

  /** The configured number of particles (`particleCount`). */
  const PARTICLE_COUNT: nat := 5000
  /** Share of the configured particles that one tick may attract. */
  const ATTRACTION_PERCENTAGE: real := 0.001

  /** `Math.floor(count * ATTRACTION_PERCENTAGE)`. */
  function MaxParticlesToAttract(count: nat): (cap: nat)
    ensures cap as real <= count as real * ATTRACTION_PERCENTAGE < cap as real + 1.0
  {
    (count as real * ATTRACTION_PERCENTAGE).Floor
  }

  /** With the configured 5000 particles the cap is 5; it is 0 (and the
      query does nothing) for any configuration below 1000 particles. */
  lemma AttractionCap(count: nat)
    ensures MaxParticlesToAttract(PARTICLE_COUNT) == 5
    ensures MaxParticlesToAttract(count) == 0 <==> count < 1000
  {
    var cap := MaxParticlesToAttract(count);
    if count >= 1000 {
      assert count as real * ATTRACTION_PERCENTAGE >= 1.0;
    }
  }

  /** The query: pointer position and the current radius. */
  datatype Query = Query(center: Vec, radius: real)

  /** The cheap bounding-box test: the point lies in
      [center - radius, center + radius] on both axes. */
  predicate InQueryBox(p: Vec, q: Query)
  {
    !(p.x < q.center.x - q.radius || p.x > q.center.x + q.radius
      || p.y < q.center.y - q.radius || p.y > q.center.y + q.radius)
  }

  /** A particle the scan would attract if the cap allowed it: free, inside
      the box and within the radius (squared distances, no square root). */
  predicate Eligible(s: Snap, q: Query)
  {
    s.state == Free && InQueryBox(s.Pos(), q) && DistSq(s.Pos(), q.center) <= q.radius * q.radius
  }

  /** The box test never rejects a particle the distance test would accept,
      so the prefilter does not change which particles are eligible. */
  lemma BoxNeverRejects(p: Vec, q: Query)
    requires q.radius >= 0.0
    requires DistSq(p, q.center) <= q.radius * q.radius
    ensures InQueryBox(p, q)
  {
    WithinRadius(p.x - q.center.x, p.y - q.center.y, q.radius);
  }

  /** Number of eligible particles in `ss`. */
  function CountEligible(ss: seq<Snap>, q: Query): nat
  {
    if ss == [] then 0
    else (if Eligible(ss[0], q) then 1 else 0) + CountEligible(ss[1..], q)
  }

  lemma {:induction false} CountEligibleAppend(a: seq<Snap>, b: seq<Snap>, q: Query)
    ensures CountEligible(a + b, q) == CountEligible(a, q) + CountEligible(b, q)
  {
    if a == [] {
      assert a + b == b;
    } else {
      assert (a + b)[1..] == a[1..] + b;
      CountEligibleAppend(a[1..], b, q);
    }
  }

  /** Counting eligible particles in a prefix one element at a time. */
  lemma CountEligibleSnoc(ss: seq<Snap>, i: nat, q: Query)
    requires i < |ss|
    ensures CountEligible(ss[..i + 1], q)
            == CountEligible(ss[..i], q) + (if Eligible(ss[i], q) then 1 else 0)
  {
    assert ss[..i + 1] == ss[..i] + [ss[i]];
    CountEligibleAppend(ss[..i], [ss[i]], q);
  }

  lemma CountEligiblePrefix(ss: seq<Snap>, i: nat, j: nat, q: Query)
    requires i <= j <= |ss|
    ensures CountEligible(ss[..i], q) <= CountEligible(ss[..j], q) <= CountEligible(ss, q)
  {
    assert ss[..j] == ss[..i] + ss[i..j];
    CountEligibleAppend(ss[..i], ss[i..j], q);
    assert ss == ss[..j] + ss[j..];
    CountEligibleAppend(ss[..j], ss[j..], q);
  }

  /** The scan: walk the particles in index order, attracting eligible ones
      until `cap` have been attracted. */
  function Attract(ss: seq<Snap>, q: Query, cap: nat): (r: seq<Snap>)
    ensures |r| == |ss|
  {
    if ss == [] || cap == 0 then ss
    else if Eligible(ss[0], q) then [ss[0].(state := Attracted)] + Attract(ss[1..], q, cap - 1)
    else [ss[0]] + Attract(ss[1..], q, cap)
  }

  /** Whether the scan attracts particle `i`: it is eligible and fewer than
      `cap` eligible particles come before it. */
  predicate Chosen(ss: seq<Snap>, i: nat, q: Query, cap: nat)
    requires i < |ss|
  {
    Eligible(ss[i], q) && CountEligible(ss[..i], q) < cap
  }

  /** Index-order selection: the scan attracts exactly the eligible
      particles that have fewer than `cap` eligible predecessors, changes
      nothing but their state, and leaves every other particle alone. */
  lemma {:induction false} AttractAt(ss: seq<Snap>, q: Query, cap: nat, i: nat)
    requires i < |ss|
    ensures Attract(ss, q, cap)[i]
            == if Chosen(ss, i, q, cap) then ss[i].(state := Attracted) else ss[i]
  {
    if cap == 0 {
    } else if i == 0 {
      assert ss[..0] == [];
    } else {
      var e := if Eligible(ss[0], q) then 1 else 0;
      AttractAt(ss[1..], q, cap - e, i - 1);
      assert ss[..i][1..] == ss[1..][..i - 1];
      assert CountEligible(ss[..i], q) == e + CountEligible(ss[1..][..i - 1], q);
    }
  }

  /** What the scan may change: only the state of free particles within
      the radius, and only to attracted. */
  lemma AttractOnlyFreeToAttracted(ss: seq<Snap>, q: Query, cap: nat, i: nat)
    requires i < |ss|
    ensures var r := Attract(ss, q, cap)[i];
            r == ss[i]
            || (ss[i].state == Free && r == ss[i].(state := Attracted)
                && DistSq(ss[i].Pos(), q.center) <= q.radius * q.radius)
  {
    AttractAt(ss, q, cap, i);
  }

  /** Number of positions where two equally long sequences differ. */
  function Changed(a: seq<Snap>, b: seq<Snap>): nat
    requires |a| == |b|
  {
    if a == [] then 0 else (if a[0] != b[0] then 1 else 0) + Changed(a[1..], b[1..])
  }

  /** The scan changes exactly min(cap, number of eligible particles)
      particles; in particular never more than `cap`. */
  lemma {:induction false} AttractChangedCount(ss: seq<Snap>, q: Query, cap: nat)
    ensures Changed(ss, Attract(ss, q, cap))
            == if CountEligible(ss, q) <= cap then CountEligible(ss, q) else cap
  {
    if ss == [] {
    } else if cap == 0 {
      NothingChanged(ss);
    } else {
      var r := Attract(ss, q, cap);
      var e := if Eligible(ss[0], q) then 1 else 0;
      AttractChangedCount(ss[1..], q, cap - e);
      assert r[1..] == Attract(ss[1..], q, cap - e);
      assert r[0] != ss[0] <==> e == 1;
    }
  }

  lemma {:induction false} NothingChanged(ss: seq<Snap>)
    ensures Changed(ss, ss) == 0
  {
    if ss != [] { NothingChanged(ss[1..]); }
  }

  /** The scan on a prefix is the prefix of the scan. */
  lemma {:induction false} AttractPrefix(ss: seq<Snap>, q: Query, cap: nat, i: nat)
    requires i <= |ss|
    ensures Attract(ss, q, cap)[..i] == Attract(ss[..i], q, cap)
  {
    if ss == [] || cap == 0 || i == 0 {
    } else {
      var e := if Eligible(ss[0], q) then 1 else 0;
      AttractPrefix(ss[1..], q, cap - e, i - 1);
      assert ss[..i][1..] == ss[1..][..i - 1];
    }
  }

  /** A free, in-range particle left unattracted means the cap had already
      been used up by particles at smaller indices. */
  lemma AttractIndexOrder(ss: seq<Snap>, q: Query, cap: nat, i: nat)
    requires i < |ss| && Eligible(ss[i], q)
    requires Attract(ss, q, cap)[i].state != Attracted
    ensures Changed(ss[..i], Attract(ss, q, cap)[..i]) == cap
  {
    AttractAt(ss, q, cap, i);
    AttractPrefix(ss, q, cap, i);
    AttractChangedCount(ss[..i], q, cap);
  }

  /** When at most `cap` particles are eligible, every one of them is
      attracted. */
  lemma AttractAllWhenFew(ss: seq<Snap>, q: Query, cap: nat, i: nat)
    requires CountEligible(ss, q) <= cap
    requires i < |ss| && Eligible(ss[i], q)
    ensures Attract(ss, q, cap)[i].state == Attracted
  {
    AttractAt(ss, q, cap, i);
    CountEligibleSnoc(ss, i, q);
    CountEligiblePrefix(ss, i + 1, i + 1, q);
  }

  /** A cap of zero attracts nothing. */
  lemma AttractCapZero(ss: seq<Snap>, q: Query)
    ensures Attract(ss, q, 0) == ss
  {
  }

  /** Attraction keeps the velocity invariant of every particle. */
  lemma AttractKeepsAtRest(ss: seq<Snap>, q: Query, cap: nat)
    requires forall i :: 0 <= i < |ss| ==> AtRest(ss[i])
    ensures forall i :: 0 <= i < |ss| ==> AtRest(Attract(ss, q, cap)[i])
  {
    forall i | 0 <= i < |ss|
      ensures AtRest(Attract(ss, q, cap)[i])
    {
      AttractAt(ss, q, cap, i);
    }
  }

  /** A worked example: when every one of 5000 free particles is within
      range, exactly 5 of them become attracted. */
  lemma AttractScenario(ss: seq<Snap>, q: Query)
    requires |ss| == PARTICLE_COUNT
    requires forall i :: 0 <= i < |ss| ==> Eligible(ss[i], q)
    ensures Changed(ss, Attract(ss, q, MaxParticlesToAttract(PARTICLE_COUNT))) == 5
  {
    AttractionCap(PARTICLE_COUNT);
    AllEligible(ss, q);
    AttractChangedCount(ss, q, 5);
  }

  lemma {:induction false} AllEligible(ss: seq<Snap>, q: Query)
    requires forall i :: 0 <= i < |ss| ==> Eligible(ss[i], q)
    ensures CountEligible(ss, q) == |ss|
  {
    if ss != [] {
      assert forall i :: 0 <= i < |ss[1..]| ==> ss[1..][i] == ss[i + 1];
      AllEligible(ss[1..], q);
    }
  }

  /** One iteration of the scan over a single particle: the state check,
      the bounding-box prefilter and the squared-distance test.  Reports
      whether the particle was attracted. */
  method TryAttract(particle: Particle, q: Query) returns (attracted: bool)
    modifies particle`state
    ensures attracted == Eligible(old(particle.View()), q)
    ensures particle.View()
            == if attracted then old(particle.View()).(state := Attracted) else old(particle.View())
  {
    if particle.state != Free {
      return false;
    }
    var mouse, currentRadius := q.center, q.radius;
    if particle.x < mouse.x - currentRadius || particle.x > mouse.x + currentRadius
       || particle.y < mouse.y - currentRadius || particle.y > mouse.y + currentRadius {
      return false;
    }
    var dx := particle.x - mouse.x;
    var dy := particle.y - mouse.y;
    var distanceSquared := dx * dx + dy * dy;
    attracted := distanceSquared <= currentRadius * currentRadius;
    if attracted {
      particle.state := Attracted;
    }
  }

  /** `attractParticles()`: the pointer is at `mouse`, the interaction has
      lasted `elapsed` ms, and only the `state` field of particles changes. */
  method AttractParticles(particles: seq<Particle>, mouse: Vec, elapsed: int, c: Canvas)
    requires c.Valid()
    requires Distinct(particles)
    modifies particles`state
    ensures Views(particles)
            == Attract(old(Views(particles)),
                       Query(mouse, DynamicInteractionRadius(elapsed, c)),
                       MaxParticlesToAttract(PARTICLE_COUNT))
  {
    ghost var before := Views(particles);
    var q := Query(mouse, DynamicInteractionRadius(elapsed, c));
    var maxParticlesToAttract := MaxParticlesToAttract(PARTICLE_COUNT);
    ghost var after := Attract(before, q, maxParticlesToAttract);
    var attractedCount := 0;

    if maxParticlesToAttract == 0 {
      return;
    }

    var i := 0;
    while i < |particles| && attractedCount < maxParticlesToAttract
      invariant 0 <= i <= |particles|
      invariant attractedCount == CountEligible(before[..i], q) <= maxParticlesToAttract
      invariant forall j :: 0 <= j < i ==> particles[j].View() == after[j]
      invariant forall j :: i <= j < |particles| ==> particles[j].View() == before[j]
    {
      CountEligibleSnoc(before, i, q);
      AttractAt(before, q, maxParticlesToAttract, i);
      var particle := particles[i];
      assert forall j :: 0 <= j < |particles| && j != i ==> particles[j] != particle;
      var attracted := TryAttract(particle, q);
      if attracted {
        attractedCount := attractedCount + 1;
      }
      i := i + 1;
    }

    forall j | i <= j < |particles|
      ensures particles[j].View() == after[j]
    {
      AttractAt(before, q, maxParticlesToAttract, j);
      CountEligiblePrefix(before, i, j, q);
    }
    assert Views(particles) == after;
  }
}
