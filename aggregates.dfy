/** The per-frame aggregates of `_updateCenter` (the mean position and the
    mean velocity of the flock) and what they mean for the cohesion and
    alignment rules, which steer every boid towards them. */
module Aggregates {
  import opened Vectors
  import opened Rules

  function Positions(s: seq<BoidState>): seq<Vec> {
    seq(|s|, i requires 0 <= i < |s| => s[i].position)
  }

  function Velocities(s: seq<BoidState>): seq<Vec> {
    seq(|s|, i requires 0 <= i < |s| => s[i].velocity)
  }

  /** The sum of a list of vectors, added from the first to the last as the
      accumulation loop does. */
  function SumVec(vs: seq<Vec>): Vec
    decreases |vs|
  {
    if vs == [] then ZERO else Add(SumVec(vs[..|vs| - 1]), vs[|vs| - 1])
  }

  /** The arithmetic mean: the sum scaled by one over the count. Scaled
      back by the count it gives the sum. */
  function Mean(vs: seq<Vec>): (m: Vec)
    requires |vs| > 0
    ensures Scale(m, |vs| as real) == SumVec(vs)
  {
    ScaleInverse(SumVec(vs), |vs| as real);
    Scale(SumVec(vs), 1.0 / (|vs| as real))
  }

  lemma SumVecAppend(vs: seq<Vec>, v: Vec)
    ensures SumVec(vs + [v]) == Add(SumVec(vs), v)
  {
    assert (vs + [v])[..|vs|] == vs;
  }

  /** Adding n copies of one vector gives that vector scaled by n. */
  lemma {:induction false} SumOfConstant(vs: seq<Vec>, v: Vec)
    requires forall i :: 0 <= i < |vs| ==> vs[i] == v
    ensures SumVec(vs) == Scale(v, |vs| as real)
    decreases |vs|
  {
    if vs != [] {
      SumOfConstant(vs[..|vs| - 1], v);
    }
  }

  /** The mean of a list whose entries are all the same vector is that vector. */
  lemma MeanOfConstant(vs: seq<Vec>, v: Vec)
    requires |vs| > 0
    requires forall i :: 0 <= i < |vs| ==> vs[i] == v
    ensures Mean(vs) == v
  {
    SumOfConstant(vs, v);
    var n := |vs| as real;
    assert v.x * n * (1.0 / n) == v.x;
    assert v.y * n * (1.0 / n) == v.y;
    assert v.z * n * (1.0 / n) == v.z;
  }

  /** The steering of every entry towards `c` with weight `k`, in list order. */
  function Pulls(c: Vec, vs: seq<Vec>, k: real): seq<Vec> {
    seq(|vs|, i requires 0 <= i < |vs| => Scale(Sub(c, vs[i]), k))
  }

  /** The pulls towards `c` add up to the pull of n copies of `c` against
      the sum of the entries. */
  lemma {:induction false} SumOfPulls(c: Vec, vs: seq<Vec>, k: real)
    ensures SumVec(Pulls(c, vs, k)) == Scale(Sub(Scale(c, |vs| as real), SumVec(vs)), k)
    decreases |vs|
  {
    if vs == [] {
      assert Pulls(c, vs, k) == [];
    } else {
      var init := vs[..|vs| - 1];
      var v := vs[|vs| - 1];
      SumOfPulls(c, init, k);
      assert Pulls(c, vs, k)[..|vs| - 1] == Pulls(c, init, k);
      assert SumVec(Pulls(c, vs, k)) == Add(SumVec(Pulls(c, init, k)), Scale(Sub(c, v), k));
      assert SumVec(vs) == Add(SumVec(init), v);
      PullStep(c, SumVec(init), v, |init| as real, k);
    }
  }

  lemma PullStep(c: Vec, s: Vec, v: Vec, n: real, k: real)
    ensures Add(Scale(Sub(Scale(c, n), s), k), Scale(Sub(c, v), k)) == Scale(Sub(Scale(c, n + 1.0), Add(s, v)), k)
  {
    assert (c.x * n - s.x) * k + (c.x - v.x) * k == (c.x * (n + 1.0) - (s.x + v.x)) * k;
    assert (c.y * n - s.y) * k + (c.y - v.y) * k == (c.y * (n + 1.0) - (s.y + v.y)) * k;
    assert (c.z * n - s.z) * k + (c.z - v.z) * k == (c.z * (n + 1.0) - (s.z + v.z)) * k;
  }

  lemma ScaleInverse(s: Vec, n: real)
    requires n != 0.0
    ensures Scale(Scale(s, 1.0 / n), n) == s
  {
    assert s.x * (1.0 / n) * n == s.x;
    assert s.y * (1.0 / n) * n == s.y;
    assert s.z * (1.0 / n) * n == s.z;
  }

  /** Pulls towards the mean cancel out: their sum is the zero vector. */
  lemma PullsToMeanCancel(vs: seq<Vec>, k: real)
    requires |vs| > 0
    ensures SumVec(Pulls(Mean(vs), vs, k)) == ZERO
  {
    SumOfPulls(Mean(vs), vs, k);
    var s := SumVec(vs);
    ScaleInverse(s, |vs| as real);
    assert Sub(Scale(Mean(vs), |vs| as real), s) == ZERO;
  }

  /** Cohesion evaluated against the mean position of the same boids: the
      forces on the whole flock add up to zero. */
  lemma CohesionBalances(s: seq<BoidState>, cohesion: real)
    requires |s| > 0
    ensures SumVec(seq(|s|, i requires 0 <= i < |s| => CentreMass(Mean(Positions(s)), s[i].position, cohesion)))
         == ZERO
  {
    PullsToMeanCancel(Positions(s), cohesion);
    assert seq(|s|, i requires 0 <= i < |s| => CentreMass(Mean(Positions(s)), s[i].position, cohesion))
        == Pulls(Mean(Positions(s)), Positions(s), cohesion);
  }

  /** Alignment evaluated against the mean velocity of the same boids: the
      forces on the whole flock add up to zero. */
  lemma AlignmentBalances(s: seq<BoidState>, alignment: real)
    requires |s| > 0
    ensures SumVec(seq(|s|, i requires 0 <= i < |s| => MatchVelocity(Mean(Velocities(s)), s[i].velocity, alignment)))
         == ZERO
  {
    PullsToMeanCancel(Velocities(s), alignment);
    assert seq(|s|, i requires 0 <= i < |s| => MatchVelocity(Mean(Velocities(s)), s[i].velocity, alignment))
        == Pulls(Mean(Velocities(s)), Velocities(s), alignment);
  }

  /** A flock of one boid: right after the aggregates are recomputed, the
      boid is at the centre and moves with the mean velocity, so cohesion and
      alignment are both the zero vector. */
  lemma SingleBoidSteersNowhere(b: BoidState, cohesion: real, alignment: real)
    ensures CentreMass(Mean(Positions([b])), b.position, cohesion) == ZERO
    ensures MatchVelocity(Mean(Velocities([b])), b.velocity, alignment) == ZERO
  {
    MeanOfConstant(Positions([b]), b.position);
    MeanOfConstant(Velocities([b]), b.velocity);
  }
}
