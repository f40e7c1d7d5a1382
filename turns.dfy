/** The boid loop of `BoidsManager.update` as a function of the flock's
    state. Boids take their turn in list order; each turn computes the four
    rule forces, stores their sum, integrates the velocity, clamps it and
    integrates the position. A turn reads the list as it stands at that
    moment, so a boid's separation sees the new positions of the boids before
    it and the old positions of the boids after it; only the centre and the
    mean velocity are computed once for the whole frame. */
module Turns {
  import opened Vectors
  import opened Rules

  /** The force stored on boid `k` at its turn on list `t`: cohesion plus
      separation plus alignment plus boundaries, added in that order. The
      values returned by the registered callbacks are not part of it. */
  function NetForce(t: seq<BoidState>, k: nat, p: Params, center: Vec, avgVel: Vec, sqrt: real -> real): Vec
    requires IsSqrt(sqrt)
    requires k < |t|
  {
    var b := t[k];
    Add(Add(Add(CentreMass(center, b.position, p.cohesion),
                Separation(b, t, p.separationMinDistance, p.separation, sqrt)),
            MatchVelocity(avgVel, b.velocity, p.alignment)),
        Boundaries(b.position, p.boundsMin, p.boundsMax))
  }

  /** With the three steering coefficients at zero, and no callback adding
      anything, only the boundary push is left of the net force. */
  lemma NetForceWithoutSteering(t: seq<BoidState>, k: nat, p: Params, center: Vec, avgVel: Vec, sqrt: real -> real)
    requires IsSqrt(sqrt)
    requires k < |t|
    requires p.cohesion == 0.0 && p.separation == 0.0 && p.alignment == 0.0
    ensures NetForce(t, k, p, center, avgVel, sqrt) == Boundaries(t[k].position, p.boundsMin, p.boundsMax)
  {
    var b := t[k];
    var f1 := CentreMass(center, b.position, p.cohesion);
    var f2 := Separation(b, t, p.separationMinDistance, p.separation, sqrt);
    var f3 := MatchVelocity(avgVel, b.velocity, p.alignment);
    ScaleIsZero(SeparationSum(b, t, p.separationMinDistance, sqrt), 0.0);
    AddZerosFirst(f1, f2, f3, Boundaries(b.position, p.boundsMin, p.boundsMax));
  }

  /** The state of boid `k` after its turn on list `t`: it keeps its id and
      leaves with a velocity no faster than the maximum speed. */
  function Turn(t: seq<BoidState>, k: nat, p: Params, center: Vec, avgVel: Vec, dt: real,
                sqrt: real -> real): (r: BoidState)
    requires IsSqrt(sqrt)
    requires k < |t|
    ensures r.id == t[k].id
    ensures LengthSquared(r.velocity) <= Sq(p.maxSpeed)
  {
    var b := t[k];
    var f := NetForce(t, k, p, center, avgVel, sqrt);
    var v := ClampSpeed(Add(b.velocity, Scale(f, dt)), p.maxSpeed, sqrt);
    BoidState(b.id, Add(b.position, Scale(v, dt)), v, f)
  }

  /** A turn whose new velocity is within the maximum speed: the force is
      stored, the velocity is the old one plus force times `dt`, unclamped,
      and the position moves by that velocity times `dt`. */
  lemma UnclampedTurn(t: seq<BoidState>, k: nat, p: Params, center: Vec, avgVel: Vec, dt: real,
                      sqrt: real -> real, f: Vec)
    requires IsSqrt(sqrt)
    requires k < |t|
    requires NetForce(t, k, p, center, avgVel, sqrt) == f
    requires LengthSquared(Add(t[k].velocity, Scale(f, dt))) <= Sq(p.maxSpeed)
    ensures var v := Add(t[k].velocity, Scale(f, dt));
            Turn(t, k, p, center, avgVel, dt, sqrt) == BoidState(t[k].id, Add(t[k].position, Scale(v, dt)), v, f)
  {
  }

  /** The flock after the first `k` boids have taken their turn. */
  function AfterTurns(s: seq<BoidState>, k: nat, p: Params, center: Vec, avgVel: Vec, dt: real,
                      sqrt: real -> real): (t: seq<BoidState>)
    requires IsSqrt(sqrt)
    requires k <= |s|
    ensures |t| == |s|
    decreases k
  {
    if k == 0 then s
    else
      var t := AfterTurns(s, k - 1, p, center, avgVel, dt, sqrt);
      t[k - 1 := Turn(t, k - 1, p, center, avgVel, dt, sqrt)]
  }

  /** Part way through the turns every boid keeps its id, the boids still
      waiting are untouched, and every boid that has moved is within the
      maximum speed. */
  lemma {:induction false} AfterTurnsShape(s: seq<BoidState>, k: nat, p: Params, center: Vec, avgVel: Vec,
                                           dt: real, sqrt: real -> real)
    requires IsSqrt(sqrt)
    requires k <= |s|
    ensures var t := AfterTurns(s, k, p, center, avgVel, dt, sqrt);
            && (forall j :: 0 <= j < |s| ==> t[j].id == s[j].id)
            && (forall j :: k <= j < |s| ==> t[j] == s[j])
            && (forall j :: 0 <= j < k ==> LengthSquared(t[j].velocity) <= Sq(p.maxSpeed))
    decreases k
  {
    if k > 0 {
      AfterTurnsShape(s, k - 1, p, center, avgVel, dt, sqrt);
    }
  }

  /** Once a boid has taken its turn, later turns do not change it. */
  lemma {:induction false} SettledAfterTurn(s: seq<BoidState>, m: nat, k: nat, p: Params, center: Vec,
                                            avgVel: Vec, dt: real, sqrt: real -> real)
    requires IsSqrt(sqrt)
    requires m < k <= |s|
    ensures AfterTurns(s, k, p, center, avgVel, dt, sqrt)[m] == AfterTurns(s, m + 1, p, center, avgVel, dt, sqrt)[m]
    decreases k
  {
    if k > m + 1 {
      SettledAfterTurn(s, m, k - 1, p, center, avgVel, dt, sqrt);
    }
  }

  /** What boid `j` sees at its turn: the final state of every boid before
      it and the original state of itself and every boid after it. This is
      where the loop depends on the order of the list. */
  lemma TurnSees(s: seq<BoidState>, j: nat, p: Params, center: Vec, avgVel: Vec, dt: real, sqrt: real -> real)
    requires IsSqrt(sqrt)
    requires j <= |s|
    ensures AfterTurns(s, j, p, center, avgVel, dt, sqrt)
         == AfterTurns(s, |s|, p, center, avgVel, dt, sqrt)[..j] + s[j..]
  {
    var fin := AfterTurns(s, |s|, p, center, avgVel, dt, sqrt);
    var seen := AfterTurns(s, j, p, center, avgVel, dt, sqrt);
    AfterTurnsShape(s, j, p, center, avgVel, dt, sqrt);
    forall m | 0 <= m < |s|
      ensures seen[m] == (fin[..j] + s[j..])[m]
    {
      if m < j {
        SettledAfterTurn(s, m, j, p, center, avgVel, dt, sqrt);
        SettledAfterTurn(s, m, |s|, p, center, avgVel, dt, sqrt);
      }
    }
  }

  /** The final state of boid `j` is its turn taken on the list TurnSees
      describes: the final states before it, the original states from it on. */
  lemma FinalIsTurn(s: seq<BoidState>, j: nat, p: Params, center: Vec, avgVel: Vec, dt: real, sqrt: real -> real)
    requires IsSqrt(sqrt)
    requires j < |s|
    ensures var fin := AfterTurns(s, |s|, p, center, avgVel, dt, sqrt);
            fin[j] == Turn(fin[..j] + s[j..], j, p, center, avgVel, dt, sqrt)
  {
    var seen := AfterTurns(s, j, p, center, avgVel, dt, sqrt);
    SettledAfterTurn(s, j, |s|, p, center, avgVel, dt, sqrt);
    assert AfterTurns(s, j + 1, p, center, avgVel, dt, sqrt)[j] == Turn(seen, j, p, center, avgVel, dt, sqrt);
    TurnSees(s, j, p, center, avgVel, dt, sqrt);
  }

  /** What a whole update leaves on boid `j`: its id; as force, the sum of
      the four rule forces evaluated at its own turn (with its own original
      state and the list as TurnSees describes it); as velocity, the old
      velocity plus force times `dt`, clamped, and left exactly as that sum
      when it is within the maximum speed; as position, the old position plus
      the final velocity times `dt`. */
  lemma FinalBoid(s: seq<BoidState>, j: nat, p: Params, center: Vec, avgVel: Vec, dt: real, sqrt: real -> real)
    requires IsSqrt(sqrt)
    requires j < |s|
    ensures var fin := AfterTurns(s, |s|, p, center, avgVel, dt, sqrt);
            var seen := fin[..j] + s[j..];
            && fin[j].id == s[j].id
            && fin[j].force
               == Add(Add(Add(CentreMass(center, s[j].position, p.cohesion),
                              Separation(s[j], seen, p.separationMinDistance, p.separation, sqrt)),
                          MatchVelocity(avgVel, s[j].velocity, p.alignment)),
                      Boundaries(s[j].position, p.boundsMin, p.boundsMax))
            && fin[j].velocity == ClampSpeed(Add(s[j].velocity, Scale(fin[j].force, dt)), p.maxSpeed, sqrt)
            && (LengthSquared(Add(s[j].velocity, Scale(fin[j].force, dt))) <= Sq(p.maxSpeed) ==>
                  fin[j].velocity == Add(s[j].velocity, Scale(fin[j].force, dt)))
            && fin[j].position == Add(s[j].position, Scale(fin[j].velocity, dt))
  {
    var fin := AfterTurns(s, |s|, p, center, avgVel, dt, sqrt);
    var seen := fin[..j] + s[j..];
    FinalIsTurn(s, j, p, center, avgVel, dt, sqrt);
    assert seen[j] == s[j];
    var f := NetForce(seen, j, p, center, avgVel, sqrt);
    var v := ClampSpeed(Add(s[j].velocity, Scale(f, dt)), p.maxSpeed, sqrt);
    assert fin[j] == BoidState(s[j].id, Add(s[j].position, Scale(v, dt)), v, f);
  }

  /** After an update every boid is within the maximum speed, whatever the
      sign of the maximum. */
  lemma UpdateBoundsSpeed(s: seq<BoidState>, p: Params, center: Vec, avgVel: Vec, dt: real, sqrt: real -> real)
    requires IsSqrt(sqrt)
    ensures var fin := AfterTurns(s, |s|, p, center, avgVel, dt, sqrt);
            forall j :: 0 <= j < |fin| ==> LengthSquared(fin[j].velocity) <= Sq(p.maxSpeed)
  {
    AfterTurnsShape(s, |s|, p, center, avgVel, dt, sqrt);
  }
}
