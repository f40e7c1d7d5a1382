/** The two classes of the flock: `Boid`, whose position, velocity and force
    an update changes in place, and `BoidsManager`, which owns the list of
    boids, the tunable coefficients, the bounding box, the per-frame centre
    and mean velocity, and the list of extra force callbacks. */
module Flock {
  import opened Vectors
  import opened Rules
  import opened Aggregates
  import opened Turns

  datatype Option<T> = None | Some(value: T)

  /** An extra force registered with `addForce`. It is called with the
      manager's settings and the boid whose turn it is. */
  type ForceCallback = (Params, BoidState) -> Vec

  // Constructor defaults.
  const DEFAULT_COHESION := 0.3
  const DEFAULT_SEPARATION := 0.4
  const DEFAULT_ALIGNMENT := 1.0
  const DEFAULT_SEPARATION_MIN_DISTANCE := 3.0
  const DEFAULT_MAX_SPEED := 1.0
  const DEFAULT_INITIAL_RADIUS := 1.0
  const DEFAULT_BOUND_RADIUS_SCALE := 100.0
  const DEFAULT_INITIAL_VELOCITY := Vec(0.3, 0.1, 0.3)

  /** A value drawn by `Math.random`: in [0, 1). */
  predicate InUnitInterval(r: real) {
    0.0 <= r < 1.0
  }

  predicate InUnitCube(j: Vec) {
    InUnitInterval(j.x) && InUnitInterval(j.y) && InUnitInterval(j.z)
  }

  /** One axis of a random start value: `c` plus the draw minus one half,
      times the width `w`. For a draw in [0, 1) and a non-negative width it
      lies within half the width of `c` either way; for width zero it is `c`. */
  function Jitter(c: real, r: real, w: real): (x: real)
    ensures InUnitInterval(r) && 0.0 <= w ==> c - w / 2.0 <= x <= c + w / 2.0
    ensures w == 0.0 ==> x == c
  {
    var x := c + (r - 0.5) * w;
    if InUnitInterval(r) && 0.0 <= w then
      MulNonNegative(r, w);
      MulNonNegative(1.0 - r, w);
      assert (r - 0.5) * w == Mul(r, w) - w / 2.0;
      assert (r - 0.5) * w == w / 2.0 - Mul(1.0 - r, w);
      x
    else
      x
  }

  /** The start position of a boid: the centre plus, on each axis, the
      random draw minus one half, times the initial radius. With draws in
      [0, 1) and a non-negative radius the boid starts inside the cube of
      side `radius` around the centre. */
  function SpawnPosition(center: Vec, jitter: Vec, radius: real): (p: Vec)
    ensures InUnitCube(jitter) && 0.0 <= radius ==>
              && center.x - radius / 2.0 <= p.x <= center.x + radius / 2.0
              && center.y - radius / 2.0 <= p.y <= center.y + radius / 2.0
              && center.z - radius / 2.0 <= p.z <= center.z + radius / 2.0
    ensures radius == 0.0 ==> p == center
  {
    Vec(Jitter(center.x, jitter.x, radius), Jitter(center.y, jitter.y, radius), Jitter(center.z, jitter.z, radius))
  }

  /** The start velocity of a boid: the initial velocity plus, on each axis,
      the random draw minus one half, divided by ten, times the initial
      speed (written here as a width of a tenth of the speed). With draws in
      [0, 1) every component stays within a twentieth of the initial speed of
      the initial velocity. */
  function SpawnVelocity(v0: Vec, jitter: Vec, speed: real): (v: Vec)
    ensures InUnitCube(jitter) && 0.0 <= speed ==>
              && v0.x - speed / 20.0 <= v.x <= v0.x + speed / 20.0
              && v0.y - speed / 20.0 <= v.y <= v0.y + speed / 20.0
              && v0.z - speed / 20.0 <= v.z <= v0.z + speed / 20.0
    ensures speed == 0.0 ==> v == v0
  {
    var w := speed / 10.0;
    Vec(Jitter(v0.x, jitter.x, w), Jitter(v0.y, jitter.y, w), Jitter(v0.z, jitter.z, w))
  }

  /** One boid. Its id never changes; an update reassigns the other three. */
  class Boid {
    const id: int
    var position: Vec
    var velocity: Vec
    var force: Vec

    /** A new boid starts with no force on it. */
    constructor (id: int, position: Vec, velocity: Vec)
      ensures this.id == id && this.position == position && this.velocity == velocity
      ensures force == ZERO
    {
      this.id := id;
      this.position := position;
      this.velocity := velocity;
      force := ZERO;
    }

    function State(): BoidState
      reads this
    {
      BoidState(id, position, velocity, force)
    }
  }

  class BoidsManager {
    var cohesion: real
    var separation: real
    var alignment: real
    var separationMinDistance: real
    var maxSpeed: real
    var boundsMin: Vec
    var boundsMax: Vec
    var otherForces: seq<ForceCallback>
    var boids: seq<Boid>
    var center: Vec
    var avgVel: Vec

    /** No boid object is in the list twice, so moving one boid leaves
        every other entry as it was. */
    ghost predicate Valid()
      reads this`boids
    {
      forall i, j :: 0 <= i < j < |boids| ==> boids[i] != boids[j]
    }

    function CurrentParams(): Params
      reads this`cohesion, this`separation, this`alignment, this`separationMinDistance, this`maxSpeed,
            this`boundsMin, this`boundsMax
    {
      Params(cohesion, separation, alignment, separationMinDistance, maxSpeed, boundsMin, boundsMax)
    }

    /** The states of the boids, in list order. */
    function States(): (s: seq<BoidState>)
      reads this`boids, boids
      ensures |s| == |boids| && forall i :: 0 <= i < |boids| ==> s[i] == boids[i].State()
    {
      var bs := boids;
      seq(|bs|, i requires 0 <= i < |bs| reads bs => bs[i].State())
    }

    /** Builds a flock of `total` boids around `center` with the default
        coefficients and a bounding box reaching `boundRadiusScale` from the
        centre on every axis. Boid `i` gets id `i`, a position drawn from
        `positionJitter[i]` and a velocity drawn from `velocityJitter[i]`
        around the initial velocity (the default one when none is given),
        scaled by that velocity's length. A `None` radius or scale stands for
        an argument left out, which takes its default. */
    constructor (total: int, center: Vec, initialRadius: Option<real>, boundRadiusScale: Option<real>,
                 initialVelocity: Option<Vec>, positionJitter: seq<Vec>, velocityJitter: seq<Vec>,
                 sqrt: real -> real)
      requires IsSqrt(sqrt)
      requires total <= |positionJitter| && total <= |velocityJitter|
      ensures cohesion == DEFAULT_COHESION && separation == DEFAULT_SEPARATION
      ensures alignment == DEFAULT_ALIGNMENT && separationMinDistance == DEFAULT_SEPARATION_MIN_DISTANCE
      ensures maxSpeed == DEFAULT_MAX_SPEED
      ensures var r := if initialRadius.Some? then initialRadius.value else DEFAULT_INITIAL_RADIUS;
              var b := if boundRadiusScale.Some? then boundRadiusScale.value else DEFAULT_BOUND_RADIUS_SCALE;
              var v0 := if initialVelocity.Some? then initialVelocity.value else DEFAULT_INITIAL_VELOCITY;
              && boundsMin == Sub(center, Vec(b, b, b))
              && boundsMax == Add(center, Vec(b, b, b))
              && |boids| == (if total < 0 then 0 else total)
              && forall i :: 0 <= i < |boids| ==>
                   && boids[i].id == i
                   && boids[i].position == SpawnPosition(center, positionJitter[i], r)
                   && boids[i].velocity == SpawnVelocity(v0, velocityJitter[i], Length(v0, sqrt))
                   && boids[i].force == ZERO
      ensures otherForces == []
      ensures this.center == center && avgVel == ZERO
      ensures Valid()
      ensures fresh(boids)
    {
      cohesion := DEFAULT_COHESION;
      separation := DEFAULT_SEPARATION;
      alignment := DEFAULT_ALIGNMENT;
      separationMinDistance := DEFAULT_SEPARATION_MIN_DISTANCE;
      maxSpeed := DEFAULT_MAX_SPEED;
      var r := if initialRadius.Some? then initialRadius.value else DEFAULT_INITIAL_RADIUS;
      var b := if boundRadiusScale.Some? then boundRadiusScale.value else DEFAULT_BOUND_RADIUS_SCALE;
      boundsMin := Sub(center, Vec(b, b, b));
      boundsMax := Add(center, Vec(b, b, b));
      otherForces := [];
      boids := [];
      var v0 := if initialVelocity.Some? then initialVelocity.value else DEFAULT_INITIAL_VELOCITY;
      var initialSpeed := Length(v0, sqrt);
      this.center := center;
      avgVel := ZERO;
      new;
      var i := 0;
      while i < total
        invariant 0 <= i && |boids| == i && (i <= total || (total < 0 && i == 0))
        invariant forall k :: 0 <= k < i ==>
                    && boids[k].id == k
                    && boids[k].position == SpawnPosition(center, positionJitter[k], r)
                    && boids[k].velocity == SpawnVelocity(v0, velocityJitter[k], initialSpeed)
                    && boids[k].force == ZERO
        invariant Valid()
        invariant fresh(boids)
        modifies this`boids
      {
        var position := SpawnPosition(this.center, positionJitter[i], r);
        var velocity := SpawnVelocity(v0, velocityJitter[i], initialSpeed);
        var boid := new Boid(i, position, velocity);
        boids := boids + [boid];
        i := i + 1;
      }
    }

    /** `_updateCenter`: with no boids nothing changes; otherwise the centre
        becomes the mean position and `avgVel` the mean velocity of the flock. */
    method UpdateCenter()
      modifies this`center, this`avgVel
      ensures boids == [] ==> center == old(center) && avgVel == old(avgVel)
      ensures boids != [] ==> center == Mean(Positions(States())) && avgVel == Mean(Velocities(States()))
    {
      if |boids| == 0 {
        return;
      }
      ghost var ps := Positions(States());
      ghost var vs := Velocities(States());
      var c := ZERO;
      var v := ZERO;
      for i := 0 to |boids|
        invariant c == SumVec(ps[..i])
        invariant v == SumVec(vs[..i])
      {
        assert ps[..i + 1] == ps[..i] + [boids[i].position];
        assert vs[..i + 1] == vs[..i] + [boids[i].velocity];
        SumVecAppend(ps[..i], boids[i].position);
        SumVecAppend(vs[..i], boids[i].velocity);
        c := Add(c, boids[i].position);
        v := Add(v, boids[i].velocity);
      }
      assert ps[..|boids|] == ps;
      assert vs[..|boids|] == vs;
      c := Scale(c, 1.0 / (|boids| as real));
      v := Scale(v, 1.0 / (|boids| as real));
      assert c == Mean(ps) && v == Mean(vs);
      center := c;
      avgVel := v;
    }

    /** `update`: recomputes the centre and the mean velocity, then lets
        every boid take its turn in list order. The new states of the boids
        are exactly those of `AfterTurns` on the old states; every boid ends
        within the maximum speed. */
    method Update(deltaTime: real, sqrt: real -> real)
      requires Valid() && IsSqrt(sqrt)
      modifies this`center, this`avgVel, boids
      ensures Valid() && boids == old(boids)
      ensures old(boids) == [] ==> center == old(center) && avgVel == old(avgVel)
      ensures old(boids) != [] ==>
                center == Mean(Positions(old(States()))) && avgVel == Mean(Velocities(old(States())))
      ensures States() == AfterTurns(old(States()), |boids|, CurrentParams(), center, avgVel, deltaTime, sqrt)
      ensures forall i :: 0 <= i < |boids| ==> LengthSquared(boids[i].velocity) <= Sq(maxSpeed)
    {
      ghost var s0 := States();
      UpdateCenter();
      assert States() == s0;
      var maxSpeedSquared := maxSpeed * maxSpeed;
      MoveBoids(deltaTime, maxSpeedSquared, sqrt);
      UpdateBoundsSpeed(s0, CurrentParams(), center, avgVel, deltaTime, sqrt);
    }

    /** The loop of `update` over the boids, in list order, with the centre
        and the mean velocity already computed for the frame. */
    method MoveBoids(deltaTime: real, maxSpeedSquared: real, sqrt: real -> real)
      requires Valid() && IsSqrt(sqrt)
      requires maxSpeedSquared == Sq(maxSpeed)
      modifies boids
      ensures States() == AfterTurns(old(States()), |boids|, CurrentParams(), center, avgVel, deltaTime, sqrt)
    {
      ghost var s0 := States();
      ghost var p := CurrentParams();
      for i := 0 to |boids|
        invariant States() == AfterTurns(s0, i, p, center, avgVel, deltaTime, sqrt)
      {
        TakeTurn(i, deltaTime, maxSpeedSquared, sqrt);
      }
    }

    /** The turn of boid `i` inside `update`: the four rule forces on the
        list as it stands, the extra callbacks (whose results are dropped),
        then the stored force, the clamped velocity and the new position.
        Only that boid changes, and it changes as `Turn` says. */
    method TakeTurn(i: nat, deltaTime: real, maxSpeedSquared: real, sqrt: real -> real)
      requires Valid() && IsSqrt(sqrt)
      requires i < |boids| && maxSpeedSquared == Sq(maxSpeed)
      modifies boids[i]
      ensures States() == old(States())[i := Turn(old(States()), i, CurrentParams(), center, avgVel, deltaTime, sqrt)]
    {
      var boid := boids[i];
      ghost var t := States();
      var f1 := CentreMass(center, boid.position, cohesion);
      var f2 := Separation(boid.State(), States(), separationMinDistance, separation, sqrt);
      var f3 := MatchVelocity(avgVel, boid.velocity, alignment);
      var f4 := Boundaries(boid.position, boundsMin, boundsMax);
      var f := Add(Add(Add(f1, f2), f3), f4);

      for c := 0 to |otherForces|
        modifies {}
      {
        // Babylon's `add` returns a new vector; the callback's result is
        // added into it and then dropped, so `f` itself is unchanged.
        var _ := Add(f, otherForces[c](CurrentParams(), boid.State()));
      }

      boid.force := f;
      boid.velocity := Add(boid.velocity, Scale(f, deltaTime));
      if LengthSquared(boid.velocity) > maxSpeedSquared {
        boid.velocity := Scale(Normalize(boid.velocity, sqrt), maxSpeed);
      }
      boid.position := Add(boid.position, Scale(boid.velocity, deltaTime));

      ghost var next := t[i := Turn(t, i, CurrentParams(), center, avgVel, deltaTime, sqrt)];
      forall k | 0 <= k < |boids|
        ensures States()[k] == next[k]
      {
        if k != i {
          assert boids[k] != boid;
        }
      }
    }

    /** `addForce`: appends a callback to the list of extra forces. */
    method AddForce(c: ForceCallback)
      modifies this`otherForces
      ensures otherForces == old(otherForces) + [c]
    {
      otherForces := otherForces + [c];
    }
  }
}
