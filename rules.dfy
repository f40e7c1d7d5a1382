/** The four built-in steering rules of `BoidsManager` (cohesion,
    separation, alignment, boundaries) and the speed clamp of `update`, as
    functions of a boid's state and the flock's settings. */
module Rules {
  import opened Vectors

  /** What a `Boid` holds at one instant: its id, position, velocity and the
      force stored on it by the last update. */
  datatype BoidState = BoidState(id: int, position: Vec, velocity: Vec, force: Vec)

  /** The manager's tunable coefficients and its bounding box. */
  datatype Params = Params(
    cohesion: real,
    separation: real,
    alignment: real,
    separationMinDistance: real,
    maxSpeed: real,
    boundsMin: Vec,
    boundsMax: Vec)

  /** The constant push of the boundary rule, and the fraction of each bound
      at which it starts. */
  const BOUNDARY_PUSH := 0.2
  const BOUNDARY_MARGIN := 0.9

  // ---------------------------------------------------------------- cohesion

  /** `_forceCentreMass`: steer towards the centre of mass. The force never
      points away from the centre when the coefficient is non-negative, and it
      vanishes exactly when the coefficient is zero or the boid is at the centre. */
  function CentreMass(center: Vec, position: Vec, cohesion: real): (f: Vec)
    ensures 0.0 <= cohesion ==> 0.0 <= Dot(f, Sub(center, position))
    ensures f == ZERO <==> cohesion == 0.0 || position == center
  {
    TowardsIsSteering(Sub(center, position), cohesion);
    assert Sub(center, position) == ZERO <==> position == center;
    Scale(Sub(center, position), cohesion)
  }

  // --------------------------------------------------------------- alignment

  /** `_forceMatchVelocity`: steer towards the mean velocity, with the same
      guarantees as cohesion has for the centre. */
  function MatchVelocity(avgVel: Vec, velocity: Vec, alignment: real): (f: Vec)
    ensures 0.0 <= alignment ==> 0.0 <= Dot(f, Sub(avgVel, velocity))
    ensures f == ZERO <==> alignment == 0.0 || velocity == avgVel
  {
    TowardsIsSteering(Sub(avgVel, velocity), alignment);
    assert Sub(avgVel, velocity) == ZERO <==> velocity == avgVel;
    Scale(Sub(avgVel, velocity), alignment)
  }

  lemma TowardsIsSteering(w: Vec, k: real)
    ensures 0.0 <= k ==> 0.0 <= Dot(Scale(w, k), w)
    ensures Scale(w, k) == ZERO <==> k == 0.0 || w == ZERO
  {
    DotScaleSelf(w, k);
    if 0.0 <= k {
      MulNonNegative(k, LengthSquared(w));
    }
    ScaleIsZero(w, k);
  }

  // -------------------------------------------------------------- separation

  /** Whether `other` repels `boid`: it is a different boid (by id) and lies
      strictly closer than the separation distance. */
  predicate Repels(boid: BoidState, other: BoidState, minDistance: real, sqrt: real -> real)
    requires IsSqrt(sqrt)
  {
    other.id != boid.id && Length(Sub(boid.position, other.position), sqrt) < minDistance
  }

  /** The contribution of one repelling neighbour: the displacement away from
      it, weighted by how far inside the separation distance it is. */
  function Push(boid: BoidState, other: BoidState, minDistance: real, sqrt: real -> real): Vec
    requires IsSqrt(sqrt)
  {
    var v := Sub(boid.position, other.position);
    Scale(v, minDistance - Length(v, sqrt))
  }

  /** The accumulation loop of `_forceSeparation`, as a left fold over the
      boid list in order: skip the same id, otherwise add `v * (min - d)` when
      the distance `d` is below the separation distance. */
  function SeparationSum(boid: BoidState, boids: seq<BoidState>, minDistance: real, sqrt: real -> real): Vec
    requires IsSqrt(sqrt)
    decreases |boids|
  {
    if boids == [] then ZERO
    else
      var acc := SeparationSum(boid, boids[..|boids| - 1], minDistance, sqrt);
      var other := boids[|boids| - 1];
      if boid.id == other.id then acc
      else
        var v := Sub(boid.position, other.position);
        var d := Length(v, sqrt);
        if d < minDistance then Add(acc, Scale(v, minDistance - d)) else acc
  }

  /** `_forceSeparation`: the accumulated pushes, scaled by the coefficient. */
  function Separation(boid: BoidState, boids: seq<BoidState>, minDistance: real, separation: real,
                      sqrt: real -> real): Vec
    requires IsSqrt(sqrt)
  {
    Scale(SeparationSum(boid, boids, minDistance, sqrt), separation)
  }

  /** The boids that repel `boid`, in list order: exactly the members of the
      list that are not `boid` (by id) and lie within the separation distance. */
  function Neighbours(boid: BoidState, boids: seq<BoidState>, minDistance: real, sqrt: real -> real)
    : (ns: seq<BoidState>)
    requires IsSqrt(sqrt)
    ensures forall o :: o in ns <==> o in boids && Repels(boid, o, minDistance, sqrt)
    decreases |boids|
  {
    if boids == [] then []
    else
      var init := boids[..|boids| - 1];
      var other := boids[|boids| - 1];
      assert boids == init + [other];
      Neighbours(boid, init, minDistance, sqrt)
      + (if Repels(boid, other, minDistance, sqrt) then [other] else [])
  }

  /** The plain sum of the pushes of a list of neighbours, with no test. */
  function PushTotal(boid: BoidState, ns: seq<BoidState>, minDistance: real, sqrt: real -> real): Vec
    requires IsSqrt(sqrt)
    decreases |ns|
  {
    if ns == [] then ZERO
    else Add(PushTotal(boid, ns[..|ns| - 1], minDistance, sqrt), Push(boid, ns[|ns| - 1], minDistance, sqrt))
  }

  lemma PushTotalAppend(boid: BoidState, ns: seq<BoidState>, o: BoidState, minDistance: real, sqrt: real -> real)
    requires IsSqrt(sqrt)
    ensures PushTotal(boid, ns + [o], minDistance, sqrt)
         == Add(PushTotal(boid, ns, minDistance, sqrt), Push(boid, o, minDistance, sqrt))
  {
    assert (ns + [o])[..|ns|] == ns;
  }

  /** The separation loop adds up exactly the pushes of the repelling
      neighbours: the boid itself and every boid at or beyond the separation
      distance contribute nothing. */
  lemma {:induction false} SeparationSumIsNeighbourPushes(boid: BoidState, boids: seq<BoidState>,
                                                          minDistance: real, sqrt: real -> real)
    requires IsSqrt(sqrt)
    ensures SeparationSum(boid, boids, minDistance, sqrt)
         == PushTotal(boid, Neighbours(boid, boids, minDistance, sqrt), minDistance, sqrt)
    decreases |boids|
  {
    if boids != [] {
      var init := boids[..|boids| - 1];
      var other := boids[|boids| - 1];
      SeparationSumIsNeighbourPushes(boid, init, minDistance, sqrt);
      if Repels(boid, other, minDistance, sqrt) {
        PushTotalAppend(boid, Neighbours(boid, init, minDistance, sqrt), other, minDistance, sqrt);
      } else {
        assert Neighbours(boid, init, minDistance, sqrt) + [] == Neighbours(boid, init, minDistance, sqrt);
      }
    }
  }

  /** The separation force is the plain sum of the pushes of exactly the
      repelling neighbours, scaled by the coefficient. */
  lemma SeparationIsNeighbourPushes(boid: BoidState, boids: seq<BoidState>, minDistance: real, separation: real,
                                    sqrt: real -> real)
    requires IsSqrt(sqrt)
    ensures Separation(boid, boids, minDistance, separation, sqrt)
         == Scale(PushTotal(boid, Neighbours(boid, boids, minDistance, sqrt), minDistance, sqrt), separation)
  {
    SeparationSumIsNeighbourPushes(boid, boids, minDistance, sqrt);
  }

  /** With no other boid strictly within the separation distance, the
      separation force is the zero vector. */
  lemma {:induction false} SeparationWithoutNeighbours(boid: BoidState, boids: seq<BoidState>, minDistance: real,
                                                       separation: real, sqrt: real -> real)
    requires IsSqrt(sqrt)
    requires forall o :: o in boids && o.id != boid.id ==> minDistance <= Length(Sub(boid.position, o.position), sqrt)
    ensures Separation(boid, boids, minDistance, separation, sqrt) == ZERO
    decreases |boids|
  {
    if boids != [] {
      var init := boids[..|boids| - 1];
      assert forall o :: o in init ==> o in boids;
      SeparationWithoutNeighbours(boid, init, minDistance, 1.0, sqrt);
      assert SeparationSum(boid, init, minDistance, sqrt) == ZERO;
      assert boids[|boids| - 1] in boids;
    }
  }

  /** Each neighbour's push points away from it (never towards it). */
  lemma PushPointsAway(boid: BoidState, other: BoidState, minDistance: real, sqrt: real -> real)
    requires IsSqrt(sqrt)
    requires Repels(boid, other, minDistance, sqrt)
    ensures 0.0 <= Dot(Push(boid, other, minDistance, sqrt), Sub(boid.position, other.position))
  {
    var v := Sub(boid.position, other.position);
    DotScaleSelf(v, minDistance - Length(v, sqrt));
    MulNonNegative(minDistance - Length(v, sqrt), LengthSquared(v));
  }

  /** Two distinct boids, evaluated on the same list, repel each other with
      opposite forces. */
  lemma SeparationPairOpposite(a: BoidState, b: BoidState, minDistance: real, separation: real,
                               sqrt: real -> real)
    requires IsSqrt(sqrt)
    requires a.id != b.id
    ensures Separation(a, [a, b], minDistance, separation, sqrt)
         == Scale(Separation(b, [a, b], minDistance, separation, sqrt), -1.0)
  {
    var v := Sub(a.position, b.position);
    var w := Sub(b.position, a.position);
    LengthSquaredSubSymmetric(a.position, b.position);
    var d := Length(v, sqrt);
    LengthSquares(v, sqrt);
    LengthSquares(w, sqrt);
    SqInjective(Length(w, sqrt), d);
    PairSums(a, b, minDistance, sqrt);
    if d < minDistance {
      var k := minDistance - d;
      assert Scale(Add(ZERO, Scale(v, k)), separation) == Scale(Scale(Add(ZERO, Scale(w, k)), separation), -1.0) by {
        assert (a.position.x - b.position.x) * k * separation == (b.position.x - a.position.x) * k * separation * -1.0;
        assert (a.position.y - b.position.y) * k * separation == (b.position.y - a.position.y) * k * separation * -1.0;
        assert (a.position.z - b.position.z) * k * separation == (b.position.z - a.position.z) * k * separation * -1.0;
      }
    }
  }

  /** The separation loop run for each of two distinct boids over the list of both. */
  lemma PairSums(a: BoidState, b: BoidState, minDistance: real, sqrt: real -> real)
    requires IsSqrt(sqrt)
    requires a.id != b.id
    ensures var v := Sub(a.position, b.position);
            var d := Length(v, sqrt);
            SeparationSum(a, [a, b], minDistance, sqrt)
            == if d < minDistance then Add(ZERO, Scale(v, minDistance - d)) else ZERO
    ensures var w := Sub(b.position, a.position);
            var d := Length(w, sqrt);
            SeparationSum(b, [a, b], minDistance, sqrt)
            == if d < minDistance then Add(ZERO, Scale(w, minDistance - d)) else ZERO
  {
    assert [a, b][..1] == [a];
    assert [a][..0] == [];
    assert SeparationSum(a, [a], minDistance, sqrt) == ZERO;
    assert SeparationSum(b, [], minDistance, sqrt) == ZERO;
    assert SeparationSum(b, [a, b], minDistance, sqrt) == SeparationSum(b, [a], minDistance, sqrt);
  }

  // -------------------------------------------------------------- boundaries

  /** The boundary rule on one axis: the push `r` on a coordinate `p` is one
      of +0.2, 0 and -0.2; it is +0.2 exactly below 0.9 times the lower bound,
      -0.2 exactly when not below that and above 0.9 times the upper bound,
      and 0 exactly otherwise. */
  predicate AxisRule(r: real, p: real, lo: real, hi: real) {
    && (r == BOUNDARY_PUSH || r == 0.0 || r == -BOUNDARY_PUSH)
    && (r == BOUNDARY_PUSH <==> p < lo * BOUNDARY_MARGIN)
    && (r == -BOUNDARY_PUSH <==> !(p < lo * BOUNDARY_MARGIN) && p > hi * BOUNDARY_MARGIN)
    && (r == 0.0 <==> !(p < lo * BOUNDARY_MARGIN) && !(p > hi * BOUNDARY_MARGIN))
  }

  /** One axis of `_forceBoundaries`: +0.2 below 0.9 times the lower bound,
      otherwise -0.2 above 0.9 times the upper bound, otherwise 0. */
  function BoundaryAxis(p: real, lo: real, hi: real): (r: real)
    ensures AxisRule(r, p, lo, hi)
  {
    if p < lo * BOUNDARY_MARGIN then BOUNDARY_PUSH
    else if p > hi * BOUNDARY_MARGIN then -BOUNDARY_PUSH
    else 0.0
  }

  /** `_forceBoundaries`: each axis follows the boundary rule on its own,
      and inside the box scaled by 0.9 about the origin there is no push. */
  function Boundaries(position: Vec, boundsMin: Vec, boundsMax: Vec): (f: Vec)
    ensures AxisRule(f.x, position.x, boundsMin.x, boundsMax.x)
    ensures AxisRule(f.y, position.y, boundsMin.y, boundsMax.y)
    ensures AxisRule(f.z, position.z, boundsMin.z, boundsMax.z)
    ensures && boundsMin.x * BOUNDARY_MARGIN <= position.x <= boundsMax.x * BOUNDARY_MARGIN
            && boundsMin.y * BOUNDARY_MARGIN <= position.y <= boundsMax.y * BOUNDARY_MARGIN
            && boundsMin.z * BOUNDARY_MARGIN <= position.z <= boundsMax.z * BOUNDARY_MARGIN
            ==> f == ZERO
  {
    Vec(BoundaryAxis(position.x, boundsMin.x, boundsMax.x),
        BoundaryAxis(position.y, boundsMin.y, boundsMax.y),
        BoundaryAxis(position.z, boundsMin.z, boundsMax.z))
  }

  /** Inside the box scaled by 0.9 about the origin there is no push at all. */
  lemma BoundaryDeadZone(position: Vec, boundsMin: Vec, boundsMax: Vec)
    requires boundsMin.x * BOUNDARY_MARGIN <= position.x <= boundsMax.x * BOUNDARY_MARGIN
    requires boundsMin.y * BOUNDARY_MARGIN <= position.y <= boundsMax.y * BOUNDARY_MARGIN
    requires boundsMin.z * BOUNDARY_MARGIN <= position.z <= boundsMax.z * BOUNDARY_MARGIN
    ensures Boundaries(position, boundsMin, boundsMax) == ZERO
  {
  }

  /** The thresholds scale the bounds about the origin, not about the centre
      of the box: for a box of radius 100 around (1000, 1000, 1000), a boid
      resting exactly at the centre is pushed by -0.2 on every axis. */
  lemma BoundaryPushesAtOffCentreCentre()
    ensures Boundaries(Vec(1000.0, 1000.0, 1000.0), Vec(900.0, 900.0, 900.0), Vec(1100.0, 1100.0, 1100.0))
         == Vec(-BOUNDARY_PUSH, -BOUNDARY_PUSH, -BOUNDARY_PUSH)
  {
  }

  // ------------------------------------------------------------- speed clamp

  /** The clamp of `update`: a velocity whose squared length exceeds the
      squared maximum speed is replaced by its direction times the maximum
      speed; any other is kept as it is. The result never exceeds the
      maximum speed; a clamped result has exactly that speed and is the
      original velocity rescaled. */
  function ClampSpeed(v: Vec, maxSpeed: real, sqrt: real -> real): (r: Vec)
    requires IsSqrt(sqrt)
    ensures LengthSquared(r) <= Sq(maxSpeed)
    ensures LengthSquared(v) <= Sq(maxSpeed) ==> r == v
    ensures LengthSquared(v) > Sq(maxSpeed) ==>
              LengthSquared(r) == Sq(maxSpeed) && Scale(r, Length(v, sqrt)) == Scale(v, maxSpeed)
  {
    if LengthSquared(v) > Sq(maxSpeed) then
      RescaledToSpeed(v, maxSpeed, sqrt);
      Scale(Normalize(v, sqrt), maxSpeed)
    else
      v
  }

  lemma RescaledToSpeed(v: Vec, maxSpeed: real, sqrt: real -> real)
    requires IsSqrt(sqrt)
    requires LengthSquared(v) > Sq(maxSpeed)
    ensures LengthSquared(Scale(Normalize(v, sqrt), maxSpeed)) == Sq(maxSpeed)
    ensures Scale(Scale(Normalize(v, sqrt), maxSpeed), Length(v, sqrt)) == Scale(v, maxSpeed)
  {
    SqSign(maxSpeed);
    assert v != ZERO;
    var n := Normalize(v, sqrt);
    LengthSquaredScale(n, maxSpeed);
    ScaleSwap(n, maxSpeed, Length(v, sqrt));
  }
}
