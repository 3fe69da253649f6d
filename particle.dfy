/** A gas particle: a body that moves in a straight line, bounces off the
    walls of the container and collides elastically with other particles. */
module Particles {
  import opened Vectors

  /** The value of a particle: everything the simulation reads or changes.
      `kind` is the particle's type, an index into the particle configurations. */
  datatype Body = Body(kind: nat, position: Vec, velocity: Vec, radius: real, mass: real)

  /** A particle, whose position and velocity are updated in place. */
  class Particle {
    const kind: nat
    var position: Vec
    var velocity: Vec
    /** The display colour, carried along but never inspected. */
    const color: string
    const radius: real
    const mass: real

    /** The particle's current value. */
    function State(): Body
      reads this
    {
      Body(kind, position, velocity, radius, mass)
    }

    constructor (kind: nat, position: Vec, velocity: Vec, color: string, radius: real, mass: real)
      ensures State() == Body(kind, position, velocity, radius, mass)
      ensures this.color == color
    {
      this.kind := kind;
      this.position := position;
      this.velocity := velocity;
      this.color := color;
      this.radius := radius;
      this.mass := mass;
    }

    /** One frame of straight-line motion. */
    method ProcessMovement()
      modifies this
      ensures State() == Moved(old(State()))
    {
      position := Add(position, velocity);
    }

    /** Bounces off the vertical wall at `x == wall`. */
    method ProcessXWallCollision(wall: real)
      modifies this
      ensures State() == XWallBounced(old(State()), wall)
    {
      if Approaching(position.x, velocity.x, wall, radius) {
        velocity := velocity.(x := velocity.x * -1.0);
      }
    }

    /** Bounces off the horizontal wall at `y == wall`. */
    method ProcessYWallCollision(wall: real)
      modifies this
      ensures State() == YWallBounced(old(State()), wall)
    {
      if Approaching(position.y, velocity.y, wall, radius) {
        velocity := velocity.(y := velocity.y * -1.0);
      }
    }

    method SetVelocity(v: Vec)
      modifies this
      ensures State() == old(State()).(velocity := v)
    {
      velocity := v;
    }
  }

  /** The body one frame later. */
  function Moved(b: Body): Body
  {
    b.(position := Add(b.position, b.velocity))
  }

  /** The body after `k` frames. */
  function MovedTimes(b: Body, k: nat): Body
  {
    if k == 0 then b else Moved(MovedTimes(b, k - 1))
  }

  /** After `k` frames the body has travelled `k` times its velocity, and
      nothing else about it has changed. */
  lemma {:induction false} MovedTimesTravels(b: Body, k: nat)
    ensures MovedTimes(b, k) == b.(position := Add(b.position, Scale(b.velocity, k as real)))
  {
    if k > 0 {
      MovedTimesTravels(b, k - 1);
    }
  }

  /** A body at `coord` along one axis, moving at `v` along that axis, is
      within `radius` of the wall at `wall` and moving towards it. */
  predicate Approaching(coord: real, v: real, wall: real, radius: real)
  {
    Abs(coord - wall) <= radius && (coord - wall) * v < 0.0
  }

  /** The velocity along one axis after checking the wall at `wall`: reversed
      when the body is approaching it, kept otherwise. */
  function Rebound(coord: real, v: real, wall: real, radius: real): (r: real)
  {
    if Approaching(coord, v, wall, radius) then v * -1.0 else v
  }

  function XWallBounced(b: Body, wall: real): Body
  {
    b.(velocity := b.velocity.(x := Rebound(b.position.x, b.velocity.x, wall, b.radius)))
  }

  function YWallBounced(b: Body, wall: real): Body
  {
    b.(velocity := b.velocity.(y := Rebound(b.position.y, b.velocity.y, wall, b.radius)))
  }

  /** A wall changes the direction of a body's velocity, never its speed, and
      a body it has turned away is not turned again. */
  lemma XWallKeepsSpeed(b: Body, wall: real)
    ensures XWallBounced(b, wall).position == b.position
    ensures XWallBounced(b, wall).velocity.y == b.velocity.y
    ensures Abs(XWallBounced(b, wall).velocity.x) == Abs(b.velocity.x)
    ensures NormSq(XWallBounced(b, wall).velocity) == NormSq(b.velocity)
    ensures XWallBounced(XWallBounced(b, wall), wall) == XWallBounced(b, wall)
  {
    SqNeg(b.velocity.x);
  }

  lemma YWallKeepsSpeed(b: Body, wall: real)
    ensures YWallBounced(b, wall).position == b.position
    ensures YWallBounced(b, wall).velocity.x == b.velocity.x
    ensures Abs(YWallBounced(b, wall).velocity.y) == Abs(b.velocity.y)
    ensures NormSq(YWallBounced(b, wall).velocity) == NormSq(b.velocity)
    ensures YWallBounced(YWallBounced(b, wall), wall) == YWallBounced(b, wall)
  {
    SqNeg(b.velocity.y);
  }

  /** The two bodies overlap: their centres are no further apart than the sum
      of their radii. With `dist` the distance between the centres, this is
      `dist <= a.radius + b.radius` (see `WithinReachIsDistance`). */
  predicate WithinReach(a: Body, b: Body)
  {
    a.radius + b.radius >= 0.0 && NormSq(Sub(a.position, b.position)) <= Sq(a.radius + b.radius)
  }

  /** Two particles collide when they overlap and are moving towards each other. */
  function CheckCollision(a: Body, b: Body): (r: bool)
  {
    WithinReach(a, b) && Dot(Sub(a.velocity, b.velocity), Sub(a.position, b.position)) < 0.0
  }

  /** `WithinReach` is the comparison of the true distance with the sum of the radii. */
  lemma WithinReachIsDistance(a: Body, b: Body, dist: real)
    requires dist >= 0.0 && Sq(dist) == NormSq(Sub(a.position, b.position))
    ensures WithinReach(a, b) <==> dist <= a.radius + b.radius
  {
    if a.radius + b.radius >= 0.0 {
      SqCompare(dist, a.radius + b.radius);
    }
  }

  /** Particles at the same spot, or moving together, do not collide; in
      particular the collision formula never divides by a zero distance. */
  lemma CheckCollisionNeedsRelativeMotion(a: Body, b: Body)
    ensures a.position == b.position ==> !CheckCollision(a, b)
    ensures a.velocity == b.velocity ==> !CheckCollision(a, b)
  {
    DotWithNoOffset(Sub(a.velocity, b.velocity), a.position);
    DotWithNoMotion(a.velocity, Sub(a.position, b.position));
  }

  lemma DotWithNoMotion(v: Vec, d: Vec)
    ensures Dot(Sub(v, v), d) == 0.0
  {
  }

  /** Collision is symmetric in its two particles. */
  lemma CheckCollisionSymmetric(a: Body, b: Body)
    ensures CheckCollision(a, b) <==> CheckCollision(b, a)
  {
    NormSqSubSymmetric(a.position, b.position);
    DotOfFlipped(a.velocity, b.velocity, a.position, b.position);
  }

  lemma DotOfFlipped(p: Vec, q: Vec, u: Vec, w: Vec)
    ensures Dot(Sub(p, q), Sub(u, w)) == Dot(Sub(q, p), Sub(w, u))
  {
  }

  /** The velocity of the particle at `pPos` moving at `pVel` after an elastic
      collision with the particle at `qPos` moving at `qVel`: the component of
      the relative velocity along the line of centres is taken off, weighted by
      twice the other particle's share `qMass / massSum` of the total mass. */
  function Deflected(pPos: Vec, pVel: Vec, qPos: Vec, qVel: Vec, qMass: real, massSum: real): Vec
    requires pPos != qPos && massSum != 0.0
  {
    var d := Sub(pPos, qPos);
    ApartPositive(pPos, qPos);
    Sub(pVel, Scale(d, Dot(Sub(pVel, qVel), d) / NormSq(d) * (2.0 * qMass / massSum)))
  }

  lemma ApartPositive(p: Vec, q: Vec)
    requires p != q
    ensures NormSq(Sub(p, q)) > 0.0
  {
    assert Sub(p, q) != Zero;
    NormSqPositive(Sub(p, q));
  }

  /** Both particles after `CollideParticles(a, b)`; the second uses the first
      particle's velocity from before the collision. */
  function Collide(a: Body, b: Body): (Body, Body)
    requires a.position != b.position && a.mass + b.mass != 0.0
  {
    (a.(velocity := Deflected(a.position, a.velocity, b.position, b.velocity, b.mass, a.mass + b.mass)),
     b.(velocity := Deflected(b.position, b.velocity, a.position, a.velocity, a.mass, a.mass + b.mass)))
  }

  /** Updates the velocities of two colliding particles. */
  method CollideParticles(a: Particle, b: Particle)
    requires a.position != b.position && a.mass + b.mass != 0.0
    modifies a, b
    ensures (a.State(), b.State()) == Collide(old(a.State()), old(b.State()))
  {
    var oldVelocity := a.velocity;
    a.SetVelocity(Deflected(a.position, oldVelocity, b.position, b.velocity, b.mass, a.mass + b.mass));
    b.SetVelocity(Deflected(b.position, b.velocity, a.position, oldVelocity, a.mass, a.mass + b.mass));
  }

  /** A collision changes only the two velocities. */
  lemma CollideKeepsBodies(a: Body, b: Body)
    requires a.position != b.position && a.mass + b.mass != 0.0
    ensures Collide(a, b).0 == a.(velocity := Collide(a, b).0.velocity)
    ensures Collide(a, b).1 == b.(velocity := Collide(a, b).1.velocity)
  {
  }

  /** Exchanging the arguments of a collision exchanges its results. */
  lemma CollideSymmetric(a: Body, b: Body)
    requires a.position != b.position && a.mass + b.mass != 0.0
    ensures Collide(b, a) == (Collide(a, b).1, Collide(a, b).0)
  {
  }

  /** The velocities `Collide` produces, with the shared factor `c`, the
      relative velocity along the line of centres divided by the squared distance. */
  lemma CollideVelocities(a: Body, b: Body) returns (c: real)
    requires a.position != b.position && a.mass + b.mass != 0.0
    ensures var d := Sub(a.position, b.position);
      NormSq(d) > 0.0 && c * NormSq(d) == Dot(Sub(a.velocity, b.velocity), d)
    ensures var d := Sub(a.position, b.position);
      Collide(a, b).0.velocity == Sub(a.velocity, Scale(d, c * (2.0 * b.mass / (a.mass + b.mass))))
    ensures var d := Sub(a.position, b.position);
      Collide(a, b).1.velocity == Sub(b.velocity, Scale(Neg(d), c * (2.0 * a.mass / (a.mass + b.mass))))
  {
    var d := Sub(a.position, b.position);
    NormSqSubSymmetric(a.position, b.position);
    DotOfFlipped(b.velocity, a.velocity, b.position, a.position);
    ApartPositive(a.position, b.position);
    c := Dot(Sub(a.velocity, b.velocity), d) / NormSq(d);
    QuotientTimes(Dot(Sub(a.velocity, b.velocity), d), NormSq(d));
    assert Sub(b.position, a.position) == Neg(d);
    assert Dot(Sub(b.velocity, a.velocity), Neg(d)) / NormSq(Neg(d)) == c;
    DeflectedBy(a.position, a.velocity, b.position, b.velocity, b.mass, a.mass + b.mass,
                c * (2.0 * b.mass / (a.mass + b.mass)));
    DeflectedBy(b.position, b.velocity, a.position, a.velocity, a.mass, a.mass + b.mass,
                c * (2.0 * a.mass / (a.mass + b.mass)));
  }

  lemma QuotientTimes(n: real, m: real)
    requires m != 0.0
    ensures n / m * m == n
  {
  }

  /** The collision conserves total momentum. */
  lemma CollideConservesMomentum(a: Body, b: Body)
    requires a.position != b.position && a.mass + b.mass != 0.0
    ensures var (a', b') := Collide(a, b);
      Add(Scale(a'.velocity, a.mass), Scale(b'.velocity, b.mass))
        == Add(Scale(a.velocity, a.mass), Scale(b.velocity, b.mass))
  {
    var c := CollideVelocities(a, b);
    var d := Sub(a.position, b.position);
    MomentumAfterShares(a.mass, b.mass, a.velocity, b.velocity, d, c);
    var (a', b') := Collide(a, b);
    assert a'.velocity == Sub(a.velocity, Scale(d, c * (2.0 * b.mass / (a.mass + b.mass))));
    assert b'.velocity == Sub(b.velocity, Scale(Neg(d), c * (2.0 * a.mass / (a.mass + b.mass))));
  }

  /** Momentum is conserved once each velocity has lost its mass-weighted
      share of `2 * c` along `d`. */
  lemma MomentumAfterShares(ma: real, mb: real, va: Vec, vb: Vec, d: Vec, c: real)
    requires ma + mb != 0.0
    ensures Add(Scale(Sub(va, Scale(d, c * (2.0 * mb / (ma + mb)))), ma),
                Scale(Sub(vb, Scale(Neg(d), c * (2.0 * ma / (ma + mb)))), mb))
      == Add(Scale(va, ma), Scale(vb, mb))
  {
    var va' := Sub(va, Scale(d, c * (2.0 * mb / (ma + mb))));
    var vb' := Sub(vb, Scale(Neg(d), c * (2.0 * ma / (ma + mb))));
    MomentumBalance(ma, mb, va.x, vb.x, d.x, c, va'.x, vb'.x);
    MomentumBalance(ma, mb, va.y, vb.y, d.y, c, va'.y, vb'.y);
  }

  /** One component of the momentum balance. */
  lemma MomentumBalance(ma: real, mb: real, va: real, vb: real, e: real, c: real, va': real, vb': real)
    requires ma + mb != 0.0
    requires va' == va - e * (c * (2.0 * mb / (ma + mb)))
    requires vb' == vb - -e * (c * (2.0 * ma / (ma + mb)))
    ensures va' * ma + vb' * mb == va * ma + vb * mb
  {
    var inv := 1.0 / (ma + mb);
    var k := 2.0 * c * e * inv;
    assert e * (c * (2.0 * mb / (ma + mb))) == k * mb;
    assert -e * (c * (2.0 * ma / (ma + mb))) == -(k * ma);
    calc {
      va' * ma + vb' * mb;
      (va - k * mb) * ma + (vb + k * ma) * mb;
      va * ma + vb * mb;
    }
  }

  /** The collision reverses the relative velocity along the line of centres,
      so two particles moving towards each other are moving apart afterwards. */
  lemma CollideReversesApproach(a: Body, b: Body)
    requires a.position != b.position && a.mass + b.mass != 0.0
    ensures var (a', b') := Collide(a, b);
      Dot(Sub(a'.velocity, b'.velocity), Sub(a.position, b.position))
        == -Dot(Sub(a.velocity, b.velocity), Sub(a.position, b.position))
  {
    var c := CollideVelocities(a, b);
    var d := Sub(a.position, b.position);
    var ka, kb := c * (2.0 * b.mass / (a.mass + b.mass)), c * (2.0 * a.mass / (a.mass + b.mass));
    SharesSum(a.mass, b.mass, c);
    RelativeAfterShares(a.velocity, b.velocity, d, ka, kb);
    DotTakeAway(Sub(a.velocity, b.velocity), d, ka + kb);
  }

  lemma RelativeAfterShares(va: Vec, vb: Vec, d: Vec, ka: real, kb: real)
    ensures Sub(Sub(va, Scale(d, ka)), Sub(vb, Scale(Neg(d), kb))) == Sub(Sub(va, vb), Scale(d, ka + kb))
  {
  }

  lemma SharesSum(ma: real, mb: real, c: real)
    requires ma + mb != 0.0
    ensures c * (2.0 * mb / (ma + mb)) + c * (2.0 * ma / (ma + mb)) == 2.0 * c
  {
    var inv := 1.0 / (ma + mb);
    assert 2.0 * mb / (ma + mb) + 2.0 * ma / (ma + mb) == 2.0 * (ma + mb) * inv;
  }

  lemma DotTakeAway(u: Vec, d: Vec, k: real)
    ensures Dot(Sub(u, Scale(d, k)), d) == Dot(u, d) - k * NormSq(d)
  {
  }

  /** The kinetic energy of a pair of bodies, doubled. */
  function Energy(a: Body, b: Body): real
  {
    a.mass * NormSq(a.velocity) + b.mass * NormSq(b.velocity)
  }

  /** The collision is elastic: it conserves kinetic energy. */
  lemma CollideConservesEnergy(a: Body, b: Body)
    requires a.position != b.position && a.mass + b.mass != 0.0
    ensures Energy(Collide(a, b).0, Collide(a, b).1) == Energy(a, b)
  {
    var c := CollideVelocities(a, b);
    DotOfSub(a.velocity, b.velocity, Sub(a.position, b.position));
    EnergyAfterShares(a.mass, b.mass, a.velocity, b.velocity, Sub(a.position, b.position), c);
  }

  /** Energy conservation once each velocity has lost its mass-weighted share
      of `2 * c` along `d`. */
  lemma EnergyAfterShares(ma: real, mb: real, va: Vec, vb: Vec, d: Vec, c: real)
    requires ma + mb != 0.0
    requires c * NormSq(d) == Dot(va, d) - Dot(vb, d)
    ensures ma * NormSq(Sub(va, Scale(d, c * (2.0 * mb / (ma + mb)))))
          + mb * NormSq(Sub(vb, Scale(Neg(d), c * (2.0 * ma / (ma + mb)))))
      == ma * NormSq(va) + mb * NormSq(vb)
  {
    MassShares(ma, mb, c);
    SharesSum(ma, mb, c);
    PairEnergy(ma, mb, va, vb, d, c * (2.0 * mb / (ma + mb)), c * (2.0 * ma / (ma + mb)), c);
  }

  /** Energy conservation for velocities `va - d * ka` and `vb + d * kb`. */
  lemma PairEnergy(ma: real, mb: real, va: Vec, vb: Vec, d: Vec, ka: real, kb: real, c: real)
    requires ma * ka == mb * kb
    requires ka + kb == 2.0 * c
    requires c * NormSq(d) == Dot(va, d) - Dot(vb, d)
    ensures ma * NormSq(Sub(va, Scale(d, ka))) + mb * NormSq(Sub(vb, Scale(Neg(d), kb)))
      == ma * NormSq(va) + mb * NormSq(vb)
  {
    NormSqTakeAway(va, d, ka);
    NormSqAddAlong(vb, d, kb);
    EnergyBalance(ma, mb, ka, kb, c, NormSq(d), Dot(va, d), Dot(vb, d),
                  NormSq(va), NormSq(vb), NormSq(Sub(va, Scale(d, ka))), NormSq(Sub(vb, Scale(Neg(d), kb))));
  }

  lemma MassShares(ma: real, mb: real, c: real)
    requires ma + mb != 0.0
    ensures ma * (c * (2.0 * mb / (ma + mb))) == mb * (c * (2.0 * ma / (ma + mb)))
  {
    var inv := 1.0 / (ma + mb);
    assert 2.0 * mb / (ma + mb) == 2.0 * mb * inv;
    assert 2.0 * ma / (ma + mb) == 2.0 * ma * inv;
  }

  /** The energy balance on scalars: `na`, `nb` are the squared speeds before
      and `na'`, `nb'` after, `n` the squared distance, `dv`, `dw` the two
      velocities' components along the line of centres. */
  lemma EnergyBalance(ma: real, mb: real, ka: real, kb: real, c: real, n: real, dv: real, dw: real,
                      na: real, nb: real, na': real, nb': real)
    requires ma * ka == mb * kb
    requires ka + kb == 2.0 * c
    requires c * n == dv - dw
    requires na' == na - 2.0 * ka * dv + ka * ka * n
    requires nb' == nb + 2.0 * kb * dw + kb * kb * n
    ensures ma * na' + mb * nb' == ma * na + mb * nb
  {
    var p := ma * ka;
    calc {
      ma * na' + mb * nb';
      ma * (na - 2.0 * ka * dv + ka * ka * n) + mb * (nb + 2.0 * kb * dw + kb * kb * n);
      ma * na + mb * nb - 2.0 * (ma * ka) * dv + (ma * ka) * ka * n + 2.0 * (mb * kb) * dw + (mb * kb) * kb * n;
      ma * na + mb * nb - 2.0 * p * dv + p * ka * n + 2.0 * p * dw + p * kb * n;
      ma * na + mb * nb - 2.0 * p * (dv - dw) + p * n * (ka + kb);
      ma * na + mb * nb - 2.0 * p * (c * n) + p * n * (2.0 * c);
      ma * na + mb * nb;
    }
  }

  /** Two particles that were colliding no longer are once `Collide` has run. */
  lemma CollideResolves(a: Body, b: Body)
    requires CheckCollision(a, b) && a.mass + b.mass != 0.0
    ensures !CheckCollision(Collide(a, b).0, Collide(a, b).1)
  {
    CheckCollisionNeedsRelativeMotion(a, b);
    CollideKeepsBodies(a, b);
    CollideReversesApproach(a, b);
    var a', b' := Collide(a, b).0, Collide(a, b).1;
    assert Sub(a'.position, b'.position) == Sub(a.position, b.position);
    assert Dot(Sub(a'.velocity, b'.velocity), Sub(a'.position, b'.position)) > 0.0;
  }

  lemma DotWithNoOffset(u: Vec, p: Vec)
    ensures Dot(u, Sub(p, p)) == 0.0
  {
  }

  /** A particle of zero mass does not move the other particle, and is itself
      reflected about the line of centres. */
  lemma CollideWithMassless(a: Body, b: Body)
    requires a.position != b.position && a.mass == 0.0 && b.mass != 0.0
    ensures Collide(a, b).1 == b
    ensures var d := Sub(a.position, b.position);
      Dot(Collide(a, b).0.velocity, d) - Dot(b.velocity, d) == -(Dot(a.velocity, d) - Dot(b.velocity, d))
  {
    var c := CollideVelocities(a, b);
    CollideReversesApproach(a, b);
    var d := Sub(a.position, b.position);
    assert Scale(Neg(d), c * (2.0 * a.mass / (a.mass + b.mass))) == Zero;
    DotOfSub(Collide(a, b).0.velocity, b.velocity, d);
    DotOfSub(a.velocity, b.velocity, d);
  }

  lemma DotOfSub(u: Vec, w: Vec, d: Vec)
    ensures Dot(Sub(u, w), d) == Dot(u, d) - Dot(w, d)
  {
  }

  /** The particle from the tests at (1, 2) moving at (3, 4), and the one at
      (5, 6) moving at (-1, -1), with the given radii and masses. */
  function First(radius: real, mass: real): Body
  {
    Body(0, Vec(1.0, 2.0), Vec(3.0, 4.0), radius, mass)
  }

  function Second(radius: real, mass: real): Body
  {
    Body(0, Vec(5.0, 6.0), Vec(-1.0, -1.0), radius, mass)
  }

  /** The collision worked out by hand for equal masses. */
  lemma CollideEqualMassesExample()
    ensures Collide(First(10.0, 1.0), Second(10.0, 1.0)) ==
      (First(10.0, 1.0).(velocity := Vec(-1.5, -0.5)), Second(10.0, 1.0).(velocity := Vec(3.5, 3.5)))
  {
    EqualMassesDeflections();
  }

  lemma EqualMassesDeflections()
    ensures Deflected(Vec(1.0, 2.0), Vec(3.0, 4.0), Vec(5.0, 6.0), Vec(-1.0, -1.0), 1.0, 2.0) == Vec(-1.5, -0.5)
    ensures Deflected(Vec(5.0, 6.0), Vec(-1.0, -1.0), Vec(1.0, 2.0), Vec(3.0, 4.0), 1.0, 2.0) == Vec(3.5, 3.5)
  {
    ExampleGeometry();
    assert Sub(Vec(1.0, 2.0), Vec(5.0, 6.0)) == Vec(-4.0, -4.0);
    assert Sub(Vec(3.0, 4.0), Vec(-1.0, -1.0)) == Vec(4.0, 5.0);
    assert -36.0 / 32.0 * (2.0 * 1.0 / 2.0) == -1.125;
    DeflectedBy(Vec(1.0, 2.0), Vec(3.0, 4.0), Vec(5.0, 6.0), Vec(-1.0, -1.0), 1.0, 2.0, -1.125);
    assert Sub(Vec(5.0, 6.0), Vec(1.0, 2.0)) == Vec(4.0, 4.0);
    assert Sub(Vec(-1.0, -1.0), Vec(3.0, 4.0)) == Vec(-4.0, -5.0);
    DeflectedBy(Vec(5.0, 6.0), Vec(-1.0, -1.0), Vec(1.0, 2.0), Vec(3.0, 4.0), 1.0, 2.0, -1.125);
  }

  /** The same collision with the arguments exchanged. */
  lemma CollideEqualMassesReversedExample()
    ensures Collide(Second(10.0, 1.0), First(10.0, 1.0)) ==
      (Second(10.0, 1.0).(velocity := Vec(3.5, 3.5)), First(10.0, 1.0).(velocity := Vec(-1.5, -0.5)))
  {
    CollideEqualMassesExample();
    CollideSymmetric(First(10.0, 1.0), Second(10.0, 1.0));
  }

  /** The collision worked out by hand for masses 2 and 8. */
  lemma CollideUnequalMassesExample()
    ensures Collide(First(10.0, 2.0), Second(10.0, 8.0)) ==
      (First(10.0, 2.0).(velocity := Vec(-4.2, -3.2)), Second(10.0, 8.0).(velocity := Vec(0.8, 0.8)))
  {
    ExampleGeometry();
    assert -36.0 / 32.0 * (2.0 * 8.0 / (2.0 + 8.0)) == -1.8;
    assert -36.0 / 32.0 * (2.0 * 2.0 / (2.0 + 8.0)) == -0.45;
    DeflectedBy(Vec(1.0, 2.0), Vec(3.0, 4.0), Vec(5.0, 6.0), Vec(-1.0, -1.0), 8.0, 10.0, -1.8);
    DeflectedBy(Vec(5.0, 6.0), Vec(-1.0, -1.0), Vec(1.0, 2.0), Vec(3.0, 4.0), 2.0, 10.0, -0.45);
  }

  /** The collision worked out by hand for a massless first particle. */
  lemma CollideMasslessExample()
    ensures Collide(First(10.0, 0.0), Second(10.0, 8.0)) ==
      (First(10.0, 0.0).(velocity := Vec(-6.0, -5.0)), Second(10.0, 8.0))
  {
    ExampleGeometry();
    assert -36.0 / 32.0 * (2.0 * 8.0 / (0.0 + 8.0)) == -2.25;
    assert -36.0 / 32.0 * (2.0 * 0.0 / (0.0 + 8.0)) == 0.0;
    DeflectedBy(Vec(1.0, 2.0), Vec(3.0, 4.0), Vec(5.0, 6.0), Vec(-1.0, -1.0), 8.0, 8.0, -2.25);
    DeflectedBy(Vec(5.0, 6.0), Vec(-1.0, -1.0), Vec(1.0, 2.0), Vec(3.0, 4.0), 0.0, 8.0, 0.0);
  }

  lemma DeflectedBy(pPos: Vec, pVel: Vec, qPos: Vec, qVel: Vec, qMass: real, massSum: real, k: real)
    requires pPos != qPos && massSum != 0.0
    requires var d := Sub(pPos, qPos);
      NormSq(d) != 0.0 && Dot(Sub(pVel, qVel), d) / NormSq(d) * (2.0 * qMass / massSum) == k
    ensures Deflected(pPos, pVel, qPos, qVel, qMass, massSum) == Sub(pVel, Scale(Sub(pPos, qPos), k))
  {
  }

  /** The line of centres of the two test particles, and the relative velocity along it. */
  lemma ExampleGeometry()
    ensures NormSq(Vec(-4.0, -4.0)) == 32.0 && NormSq(Vec(4.0, 4.0)) == 32.0
    ensures Dot(Vec(4.0, 5.0), Vec(-4.0, -4.0)) == -36.0
    ensures Dot(Vec(-4.0, -5.0), Vec(4.0, 4.0)) == -36.0
  {
  }

  /** The collision checks worked out by hand for particles that overlap. */
  lemma CheckCollisionOverlapExamples()
    ensures CheckCollision(First(3.0, 2.0), Second(3.0, 2.0))
    ensures !CheckCollision(First(3.0, 2.0), Second(2.0, 2.0))
    ensures !CheckCollision(Body(0, Vec(20.0, 20.0), Vec(3.0, 4.0), 0.0, 2.0),
                            Body(0, Vec(20.0, 20.0), Vec(-1.0, -1.0), 0.0, 2.0))
    ensures !CheckCollision(Body(0, Vec(1.0, 1.0), Vec(-2.0, -3.0), 10.0, 1.0),
                            Body(0, Vec(10.0, 10.0), Vec(1.0, 1.0), 10.0, 1.0))
  {
    ExampleGeometry();
    assert Sq(3.0 + 3.0) == 36.0 && Sq(3.0 + 2.0) == 25.0;
    assert Sub(Vec(-2.0, -3.0), Vec(1.0, 1.0)) == Vec(-3.0, -4.0);
    assert Sub(Vec(1.0, 1.0), Vec(10.0, 10.0)) == Vec(-9.0, -9.0);
    assert Dot(Vec(-3.0, -4.0), Vec(-9.0, -9.0)) == 63.0;
  }

  /** The collision checks worked out by hand for particles too far apart. */
  lemma CheckCollisionDistantExamples()
    ensures !CheckCollision(Body(0, Vec(1.0, 1.0), Vec(1.0, 1.0), 10.0, 1.0),
                            Body(0, Vec(22.0, 1.0), Vec(1.0, 1.0), 10.0, 1.0))
    ensures !CheckCollision(Body(0, Vec(1.0, 1.0), Vec(1.0, 1.0), 10.0, 1.0),
                            Body(0, Vec(1.0, 22.0), Vec(1.0, 1.0), 10.0, 1.0))
    ensures !CheckCollision(Body(0, Vec(1.0, 1.0), Vec(1.0, 1.0), 10.0, 1.0),
                            Body(0, Vec(16.0, 16.0), Vec(1.0, 1.0), 10.0, 1.0))
  {
    assert Sq(20.0) == 400.0 && Sq(21.0) == 441.0 && Sq(15.0) == 225.0 && Sq(0.0) == 0.0;
  }

  /** The wall checks worked out by hand, for the particle at (1, 2) of radius 10. */
  lemma WallExamples()
    ensures XWallBounced(First(10.0, 1.0).(velocity := Vec(-3.0, -4.0)), -8.0).velocity == Vec(3.0, -4.0)
    ensures XWallBounced(First(10.0, 1.0), 10.0).velocity == Vec(-3.0, 4.0)
    ensures XWallBounced(First(10.0, 1.0), 12.0).velocity == Vec(3.0, 4.0)
    ensures XWallBounced(First(10.0, 1.0).(velocity := Vec(-3.0, -4.0)), 7.0).velocity == Vec(-3.0, -4.0)
    ensures YWallBounced(First(10.0, 1.0).(velocity := Vec(-3.0, -4.0)), -7.0).velocity == Vec(-3.0, 4.0)
    ensures YWallBounced(First(10.0, 1.0), 11.0).velocity == Vec(3.0, -4.0)
    ensures YWallBounced(First(10.0, 1.0), 13.0).velocity == Vec(3.0, 4.0)
    ensures YWallBounced(First(10.0, 1.0).(velocity := Vec(-3.0, -4.0)), 8.0).velocity == Vec(-3.0, -4.0)
  {
  }

  /** The movements worked out by hand. */
  lemma MovementExamples()
    ensures Moved(First(10.0, 1.0)).position == Vec(4.0, 6.0)
    ensures MovedTimes(First(10.0, 1.0), 3).position == Vec(10.0, 14.0)
    ensures MovedTimes(First(10.0, 1.0).(velocity := Zero), 3).position == Vec(1.0, 2.0)
    ensures MovedTimes(First(10.0, 1.0).(velocity := Vec(-1.0, -2.0)), 3).position == Vec(-2.0, -4.0)
  {
    MovedTimesTravels(First(10.0, 1.0), 3);
    MovedTimesTravels(First(10.0, 1.0).(velocity := Zero), 3);
    MovedTimesTravels(First(10.0, 1.0).(velocity := Vec(-1.0, -2.0)), 3);
  }
}
