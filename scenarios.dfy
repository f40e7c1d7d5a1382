/** Flocks of two worked through one whole update. Under separation alone,
    a concrete pair shows that the update loop depends on the order of the
    list; under cohesion alone, any two boids at rest meet at their centre.
    The concrete lemmas take the flock and the parameters as arguments fixed
    by their preconditions. */
module Scenarios {
  import opened Vectors
  import opened Rules
  import opened Aggregates
  import opened Turns

  /** A bounding box of radius 100 around the origin: every position used
      below is well inside its dead zone. */
  const WIDE_MIN := Vec(-100.0, -100.0, -100.0)
  const WIDE_MAX := Vec(100.0, 100.0, 100.0)

  /** Two boids at (0,0,0) and (1,0,0), at rest. */
  const PAIR := [BoidState(0, ZERO, ZERO, ZERO), BoidState(1, Vec(1.0, 0.0, 0.0), ZERO, ZERO)]

  /** Only separation switched on (coefficient 1, radius 3), maximum speed 10. */
  const SEPARATION_ONLY := Params(0.0, 1.0, 0.0, 3.0, 10.0, WIDE_MIN, WIDE_MAX)

  /** The first boid after its turn under separation alone: pushed by
      (-2,0,0), it has moved to (-2,0,0). */
  predicate Pushed(a1: BoidState) {
    a1 == BoidState(0, Vec(-2.0, 0.0, 0.0), Vec(-2.0, 0.0, 0.0), Vec(-2.0, 0.0, 0.0))
  }

  /** Before the frame the first boid's separation sum is (-2,0,0). */
  lemma FirstPushBeforeTheFrame(s: seq<BoidState>, sqrt: real -> real)
    requires IsSqrt(sqrt)
    requires s == PAIR
    ensures SeparationSum(s[0], s, 3.0, sqrt) == Vec(-2.0, 0.0, 0.0)
  {
    LengthOnAxis(Sub(s[0].position, s[1].position), sqrt);
    PairSums(s[0], s[1], 3.0, sqrt);
  }

  /** Before the frame the second boid's separation sum is (2,0,0). */
  lemma SecondPushBeforeTheFrame(s: seq<BoidState>, sqrt: real -> real)
    requires IsSqrt(sqrt)
    requires s == PAIR
    ensures SeparationSum(s[1], s, 3.0, sqrt) == Vec(2.0, 0.0, 0.0)
  {
    LengthOnAxis(Sub(s[1].position, s[0].position), sqrt);
    PairSums(s[0], s[1], 3.0, sqrt);
  }

  /** Once the first boid has moved to (-2,0,0), the second is exactly at
      the separation distance from it, so its separation sum is zero. */
  lemma SecondPushAfterTheFirstTurn(t: seq<BoidState>, a1: BoidState, sqrt: real -> real)
    requires IsSqrt(sqrt)
    requires Pushed(a1) && t == [a1, PAIR[1]]
    ensures SeparationSum(t[1], t, 3.0, sqrt) == ZERO
  {
    LengthOnAxis(Sub(t[1].position, t[0].position), sqrt);
    PairSums(t[0], t[1], 3.0, sqrt);
  }

  /** Under separation alone, with the boid inside the dead zone of the
      bounds, the net force is the separation sum. */
  lemma OnlySeparation(t: seq<BoidState>, k: nat, p: Params, center: Vec, avgVel: Vec, sqrt: real -> real)
    requires IsSqrt(sqrt)
    requires k < |t| && p == SEPARATION_ONLY
    requires -90.0 <= t[k].position.x <= 90.0 && -90.0 <= t[k].position.y <= 90.0 && -90.0 <= t[k].position.z <= 90.0
    ensures NetForce(t, k, p, center, avgVel, sqrt) == Add(Add(Add(ZERO, Scale(SeparationSum(t[k], t, 3.0, sqrt), 1.0)), ZERO), ZERO)
  {
    BoundaryDeadZone(t[k].position, p.boundsMin, p.boundsMax);
  }

  /** The first boid's turn under separation alone: pushed by (-2,0,0), it
      moves to (-2,0,0). */
  lemma SeparationFirstTurn(s: seq<BoidState>, p: Params, center: Vec, avgVel: Vec, a1: BoidState,
                            sqrt: real -> real)
    requires IsSqrt(sqrt)
    requires s == PAIR && p == SEPARATION_ONLY && Pushed(a1)
    ensures Turn(s, 0, p, center, avgVel, 1.0, sqrt) == a1
  {
    FirstPushBeforeTheFrame(s, sqrt);
    OnlySeparation(s, 0, p, center, avgVel, sqrt);
    var f := Vec(-2.0, 0.0, 0.0);
    UnclampedTurn(s, 0, p, center, avgVel, 1.0, sqrt, f);
  }

  /** After the first turn the list holds the pushed first boid and the
      untouched second one. */
  lemma AfterTheFirstTurn(s: seq<BoidState>, p: Params, center: Vec, avgVel: Vec, a1: BoidState,
                          sqrt: real -> real)
    requires IsSqrt(sqrt)
    requires s == PAIR && p == SEPARATION_ONLY && Pushed(a1)
    ensures AfterTurns(s, 1, p, center, avgVel, 1.0, sqrt) == [a1, PAIR[1]]
  {
    SeparationFirstTurn(s, p, center, avgVel, a1, sqrt);
    FirstOfTwo(s, p, center, avgVel, 1.0, sqrt, a1);
  }

  /** At its turn the second boid feels no force. */
  lemma SecondTurnForce(t: seq<BoidState>, p: Params, center: Vec, avgVel: Vec, a1: BoidState,
                        sqrt: real -> real)
    requires IsSqrt(sqrt)
    requires Pushed(a1) && t == [a1, PAIR[1]] && p == SEPARATION_ONLY
    ensures NetForce(t, 1, p, center, avgVel, sqrt) == ZERO
  {
    SecondPushAfterTheFirstTurn(t, a1, sqrt);
    OnlySeparation(t, 1, p, center, avgVel, sqrt);
  }

  /** Against the list as it stood before the frame, the second boid would
      be pushed by (2,0,0). */
  lemma SecondForceBeforeTheFrame(s: seq<BoidState>, p: Params, center: Vec, avgVel: Vec, sqrt: real -> real)
    requires IsSqrt(sqrt)
    requires s == PAIR && p == SEPARATION_ONLY
    ensures NetForce(s, 1, p, center, avgVel, sqrt) == Vec(2.0, 0.0, 0.0)
  {
    SecondPushBeforeTheFrame(s, sqrt);
    OnlySeparation(s, 1, p, center, avgVel, sqrt);
  }

  /** In a flock of two, after the first turn the list holds the first
      boid's new state and the second boid as it was. */
  lemma FirstOfTwo(s: seq<BoidState>, p: Params, center: Vec, avgVel: Vec, dt: real, sqrt: real -> real,
                   a1: BoidState)
    requires IsSqrt(sqrt)
    requires |s| == 2 && Turn(s, 0, p, center, avgVel, dt, sqrt) == a1
    ensures AfterTurns(s, 1, p, center, avgVel, dt, sqrt) == [a1, s[1]]
  {
    assert AfterTurns(s, 1, p, center, avgVel, dt, sqrt) == s[0 := a1];
  }

  /** In a flock of two whose first turn left `a1` in front of the untouched
      second boid, the whole update ends with `a1` first and stores on the
      second boid the force computed on that list. */
  lemma LastOfTwo(s: seq<BoidState>, p: Params, center: Vec, avgVel: Vec, dt: real, sqrt: real -> real,
                  a1: BoidState, f2: Vec)
    requires IsSqrt(sqrt)
    requires |s| == 2 && AfterTurns(s, 1, p, center, avgVel, dt, sqrt) == [a1, s[1]]
    requires NetForce([a1, s[1]], 1, p, center, avgVel, sqrt) == f2
    ensures var fin := AfterTurns(s, |s|, p, center, avgVel, dt, sqrt);
            fin[0] == a1 && fin[1].force == f2
  {
  }

  /** The update loop depends on the order of the list. With only separation
      switched on, a maximum speed of 10 and a time step of 1, the first boid
      is pushed by (-2,0,0) and moves to (-2,0,0); at its turn the second
      boid is then exactly 3 away and feels nothing, whereas against the list
      as it stood before the frame it would be pushed by (2,0,0). */
  lemma UpdateIsOrderDependent(s: seq<BoidState>, p: Params, center: Vec, avgVel: Vec, a1: BoidState,
                               sqrt: real -> real)
    requires IsSqrt(sqrt)
    requires s == PAIR && p == SEPARATION_ONLY && Pushed(a1)
    ensures var fin := AfterTurns(s, |s|, p, center, avgVel, 1.0, sqrt);
            && fin[0] == a1
            && fin[1].force == ZERO
            && NetForce(s, 1, p, center, avgVel, sqrt) == Vec(2.0, 0.0, 0.0)
  {
    AfterTheFirstTurn(s, p, center, avgVel, a1, sqrt);
    SecondTurnForce([a1, PAIR[1]], p, center, avgVel, a1, sqrt);
    SecondForceBeforeTheFrame(s, p, center, avgVel, sqrt);
    LastOfTwo(s, p, center, avgVel, 1.0, sqrt, a1, ZERO);
  }

  // ------------------------------------------------------------- cohesion

  /** Whether a position is inside the box scaled by 0.9 about the origin,
      where the boundary rule does not push. */
  predicate InDeadZone(position: Vec, p: Params) {
    && p.boundsMin.x * BOUNDARY_MARGIN <= position.x <= p.boundsMax.x * BOUNDARY_MARGIN
    && p.boundsMin.y * BOUNDARY_MARGIN <= position.y <= p.boundsMax.y * BOUNDARY_MARGIN
    && p.boundsMin.z * BOUNDARY_MARGIN <= position.z <= p.boundsMax.z * BOUNDARY_MARGIN
  }

  /** With only cohesion switched on, at coefficient 1, and the boid inside
      the dead zone, the net force is the displacement to the centre. */
  lemma CohesionOnlyForce(t: seq<BoidState>, k: nat, p: Params, center: Vec, avgVel: Vec, sqrt: real -> real)
    requires IsSqrt(sqrt)
    requires k < |t|
    requires p.cohesion == 1.0 && p.separation == 0.0 && p.alignment == 0.0
    requires InDeadZone(t[k].position, p)
    ensures NetForce(t, k, p, center, avgVel, sqrt) == Sub(center, t[k].position)
  {
    BoundaryDeadZone(t[k].position, p.boundsMin, p.boundsMax);
    ScaleIsZero(SeparationSum(t[k], t, p.separationMinDistance, sqrt), 0.0);
  }

  /** A boid at rest, pulled by cohesion alone at coefficient 1, with a time
      step of 1 and a maximum speed it does not exceed, lands on the centre. */
  lemma RestingBoidReachesCentre(t: seq<BoidState>, k: nat, p: Params, center: Vec, avgVel: Vec, sqrt: real -> real)
    requires IsSqrt(sqrt)
    requires k < |t| && t[k].velocity == ZERO
    requires p.cohesion == 1.0 && p.separation == 0.0 && p.alignment == 0.0
    requires InDeadZone(t[k].position, p)
    requires LengthSquared(Sub(center, t[k].position)) <= Sq(p.maxSpeed)
    ensures var r := Turn(t, k, p, center, avgVel, 1.0, sqrt);
            && r.id == t[k].id
            && r.force == Sub(center, t[k].position)
            && r.velocity == r.force
            && r.position == center
  {
    var f := Sub(center, t[k].position);
    CohesionOnlyForce(t, k, p, center, avgVel, sqrt);
    assert Add(t[k].velocity, Scale(f, 1.0)) == f;
    UnclampedTurn(t, k, p, center, avgVel, 1.0, sqrt, f);
  }

  /** Under cohesion alone (coefficient 1, the other two 0), two boids at
      rest inside the dead zone, no farther from their centre than the
      maximum speed, both land on that centre after one update with time
      step 1; each is pushed by its displacement to the centre. */
  lemma TwoBoidsMeetAtCentre(s: seq<BoidState>, p: Params, sqrt: real -> real)
    requires IsSqrt(sqrt)
    requires |s| == 2 && s[0].velocity == ZERO && s[1].velocity == ZERO
    requires p.cohesion == 1.0 && p.separation == 0.0 && p.alignment == 0.0
    requires InDeadZone(s[0].position, p) && InDeadZone(s[1].position, p)
    requires LengthSquared(Sub(Mean(Positions(s)), s[0].position)) <= Sq(p.maxSpeed)
    requires LengthSquared(Sub(Mean(Positions(s)), s[1].position)) <= Sq(p.maxSpeed)
    ensures var c := Mean(Positions(s));
            var fin := AfterTurns(s, |s|, p, c, Mean(Velocities(s)), 1.0, sqrt);
            && fin[0].position == c && fin[1].position == c
            && fin[0].force == Sub(c, s[0].position) && fin[1].force == Sub(c, s[1].position)
  {
    var c := Mean(Positions(s));
    var m := Mean(Velocities(s));
    RestingBoidReachesCentre(s, 0, p, c, m, sqrt);
    var t := AfterTurns(s, 1, p, c, m, 1.0, sqrt);
    assert t[1] == s[1];
    RestingBoidReachesCentre(t, 1, p, c, m, sqrt);
  }
}
