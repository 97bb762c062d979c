/**
 * The per-boid pieces that every snapshot of the flocking code shares:
 * parameter noise, the Reynolds steering rule (`seek`), the neighbour sums
 * the separation, alignment and cohesion loops accumulate, the post-loop
 * formulas, mouse avoidance, the motion update and the border wrap.
 */
module Steering {
  import opened Vectors
  import opened DistanceTable

  /** a boid's kinematic state */
  datatype Kin = Kin(position: Vec, velocity: Vec, acceleration: Vec)

  function Positions(ks: seq<Kin>): (ps: seq<Vec>)
    ensures |ps| == |ks| && forall i | 0 <= i < |ks| :: ps[i] == ks[i].position
  {
    seq(|ks|, i requires 0 <= i < |ks| => ks[i].position)
  }

  function Velocities(ks: seq<Kin>): (vs: seq<Vec>)
    ensures |vs| == |ks| && forall i | 0 <= i < |ks| :: vs[i] == ks[i].velocity
  {
    seq(|ks|, i requires 0 <= i < |ks| => ks[i].velocity)
  }

  /** a boid's wrap margin, speed and force limits and neighbour radii */
  datatype Tuning = Tuning(
    r: real, maxSpeed: real, maxForce: real,
    desiredSeparation: real, alignmentDist: real, cohesionDist: real,
    avoidDistance: real)

  /** the limits every boid's parameters satisfy */
  predicate Sane(t: Tuning)
  {
    t.r >= 0.0 && t.maxSpeed >= 0.0 && t.maxForce >= 0.0
  }

  /**
   * `addNoise(parameter, fnoise)`, with the value of `Math.random()` passed
   * in as `u`: the parameter is scaled by a factor drawn around 1.
   */
  function AddNoise(p: real, f: real, u: real): real
  {
    p * (1.0 + f * (1.0 - 2.0 * u))
  }

  /** the noise factor `fnoise` of the constructors that add noise */
  const FNoise: real := 0.35

  /** the random starting velocity of the noisy constructors, a quarter of maxSpeed at most in each coordinate */
  function StartVelocity(maxSpeed: real, u1: real, u2: real): Vec
  {
    Vec(0.25 * maxSpeed * (1.0 - 2.0 * u1), 0.25 * maxSpeed * (1.0 - 2.0 * u2))
  }

  /** values of `Math.random()`: each in [0, 1) */
  predicate Draws(u: seq<real>)
  {
    forall k | 0 <= k < |u| :: 0.0 <= u[k] < 1.0
  }

  /** for `u` in [0, 1) the noisy value lies in `(p(1-f), p(1+f)]` */
  lemma AddNoiseRange(p: real, f: real, u: real)
    requires p > 0.0 && f > 0.0 && 0.0 <= u < 1.0
    ensures p * (1.0 - f) < AddNoise(p, f, u) <= p * (1.0 + f)
  {
    var t := 1.0 - 2.0 * u;
    calc {
      f * -1.0;
    < { MulStrictLeft(-1.0, t, f); }
      f * t;
    }
    calc {
      f * t;
    <= { MulLeft(t, 1.0, f); }
      f * 1.0;
    }
    calc {
      p * (1.0 - f);
    < { MulStrictLeft(1.0 - f, 1.0 + f * t, p); }
      p * (1.0 + f * t);
      AddNoise(p, f, u);
    }
    calc {
      AddNoise(p, f, u);
      p * (1.0 + f * t);
    <= { MulLeft(1.0 + f * t, 1.0 + f, p); }
      p * (1.0 + f);
    }
  }

  /** with `fnoise < 1` a positive parameter stays positive */
  lemma AddNoisePositive(p: real, f: real, u: real)
    requires p > 0.0 && 0.0 < f < 1.0 && 0.0 <= u < 1.0
    ensures AddNoise(p, f, u) > 0.0
  {
    AddNoiseRange(p, f, u);
    calc {
      0.0;
    < { MulStrictLeft(0.0, 1.0 - f, p); }
      p * (1.0 - f);
    }
  }

  // ---------------------------------------------------------------------
  // Reynolds steering: steering = desired - velocity, clamped to maxForce.

  function Steer(desired: Vec, velocity: Vec, maxForce: real): Vec
  {
    Limit(Sub(desired, velocity), maxForce)
  }

  /** `seek(target)`: full speed towards the target, as a clamped steering force */
  function Seek(position: Vec, velocity: Vec, maxSpeed: real, maxForce: real, target: Vec): Vec
  {
    Steer(Normalize(Sub(target, position), maxSpeed), velocity, maxForce)
  }

  /** a steering force never exceeds maxForce */
  lemma SteerBound(desired: Vec, velocity: Vec, maxForce: real)
    requires LengthLaw() && maxForce >= 0.0
    ensures Length(Steer(desired, velocity, maxForce)) <= maxForce
  {
    LimitBound(Sub(desired, velocity), maxForce);
  }

  /**
   * `seek` never steers harder than maxForce, and when the unclamped force is
   * within the bound it is exactly the desired full-speed velocity minus the
   * current one
   */
  lemma SeekBound(position: Vec, velocity: Vec, maxSpeed: real, maxForce: real, target: Vec)
    requires LengthLaw() && maxSpeed >= 0.0 && maxForce >= 0.0
    ensures Length(Seek(position, velocity, maxSpeed, maxForce, target)) <= maxForce
    ensures Length(Sub(Normalize(Sub(target, position), maxSpeed), velocity)) <= maxForce ==>
      Add(Seek(position, velocity, maxSpeed, maxForce, target), velocity) == Normalize(Sub(target, position), maxSpeed)
    ensures target != position ==>
      Length(Add(Seek(position, velocity, maxSpeed, maxForce, target), velocity)) == maxSpeed ||
      Length(Sub(Normalize(Sub(target, position), maxSpeed), velocity)) > maxForce
  {
    SteerBound(Normalize(Sub(target, position), maxSpeed), velocity, maxForce);
    var desired := Normalize(Sub(target, position), maxSpeed);
    if Length(Sub(desired, velocity)) <= maxForce {
      assert Add(Sub(desired, velocity), velocity) == desired;
      if target != position {
        assert Sub(target, position) != Zero;
        NormalizeLength(Sub(target, position), maxSpeed);
      }
    }
  }

  // ---------------------------------------------------------------------
  // Neighbour sums over a row of distances.  A boid `j` is a neighbour for a
  // radius when its distance `d` satisfies `0 < d < radius`; a missing entry
  // (`undefined` in JavaScript) fails both comparisons.

  predicate Near(row: Row, j: int, radius: real)
  {
    j in row && 0.0 < row[j] < radius
  }

  /** the neighbours among boids `0..n-1` */
  ghost function NearSet(row: Row, radius: real, n: nat): set<int>
  {
    set j | 0 <= j < n && Near(row, j, radius)
  }

  /** `count` after the loop has seen boids `0..n-1` */
  function CountNear(row: Row, radius: real, n: nat): nat
  {
    if n == 0 then 0
    else CountNear(row, radius, n - 1) + (if Near(row, n - 1, radius) then 1 else 0)
  }

  /** the sum of `xs[j]` over the neighbours `j < n` (velocities for alignment, positions for cohesion) */
  function SumNear(xs: seq<Vec>, row: Row, radius: real, n: nat): Vec
    requires n <= |xs|
  {
    if n == 0 then Zero
    else
      var s := SumNear(xs, row, radius, n - 1);
      if Near(row, n - 1, radius) then Add(s, xs[n - 1]) else s
  }

  /** one separation term: the unit vector away from the neighbour, divided by the distance */
  function Repulsion(position: Vec, other: Vec, d: real): Vec
    requires d != 0.0
  {
    Div(Normalize(Sub(position, other), 1.0), d)
  }

  /** the separation sum over the neighbours `j < n` */
  function SepSum(position: Vec, ps: seq<Vec>, row: Row, radius: real, n: nat): Vec
    requires n <= |ps|
  {
    if n == 0 then Zero
    else
      var s := SepSum(position, ps, row, radius, n - 1);
      if Near(row, n - 1, radius) then Add(s, Repulsion(position, ps[n - 1], row[n - 1])) else s
  }

  /** the loop counts exactly the neighbours, so a boid at distance 0 (itself) is never counted */
  lemma {:induction false} CountIsNeighbours(row: Row, radius: real, n: nat)
    ensures CountNear(row, radius, n) == |NearSet(row, radius, n)|
    ensures forall j | j in row && row[j] == 0.0 :: j !in NearSet(row, radius, n)
  {
    if n > 0 {
      CountIsNeighbours(row, radius, n - 1);
      if Near(row, n - 1, radius) {
        assert NearSet(row, radius, n) == NearSet(row, radius, n - 1) + {n - 1};
      } else {
        assert NearSet(row, radius, n) == NearSet(row, radius, n - 1);
      }
    }
  }

  /** with no neighbour the sums are untouched: both stay the zero vector */
  lemma {:induction false} NoNeighbourSums(position: Vec, xs: seq<Vec>, row: Row, radius: real, n: nat)
    requires n <= |xs| && CountNear(row, radius, n) == 0
    ensures SumNear(xs, row, radius, n) == Zero
    ensures SepSum(position, xs, row, radius, n) == Zero
  {
    if n > 0 {
      NoNeighbourSums(position, xs, row, radius, n - 1);
    }
  }

  /** the sums only depend on the neighbours: entries of boids outside the radius do not matter */
  lemma {:induction false} SumsAgree(position: Vec, xs: seq<Vec>, row1: Row, row2: Row, radius: real, n: nat)
    requires n <= |xs|
    requires forall j | 0 <= j < n ::
      (Near(row1, j, radius) <==> Near(row2, j, radius)) && (Near(row1, j, radius) ==> row1[j] == row2[j])
    ensures CountNear(row1, radius, n) == CountNear(row2, radius, n)
    ensures SumNear(xs, row1, radius, n) == SumNear(xs, row2, radius, n)
    ensures SepSum(position, xs, row1, radius, n) == SepSum(position, xs, row2, radius, n)
  {
    if n > 0 {
      SumsAgree(position, xs, row1, row2, radius, n - 1);
    }
  }

  /** the distances a four-loop boid at `position` computes to every boid */
  function DistancesFrom(position: Vec, ps: seq<Vec>): Row
  {
    map j | 0 <= j < |ps| :: Distance(position, ps[j])
  }

  // ---------------------------------------------------------------------
  // Post-loop formulas.

  /**
   * single-pass separation result: for a positive count, the average is
   * normalised, scaled to maxSpeed and turned into a clamped steering force
   */
  function SeparationSinglePass(sum: Vec, count: nat, velocity: Vec, maxSpeed: real, maxForce: real): Vec
  {
    if count > 0 then Steer(Scale(Normalize(Div(sum, count as real), 1.0), maxSpeed), velocity, maxForce)
    else Zero
  }

  /**
   * four-loop `separate` result: the sum is averaged when the count is
   * positive, and the Reynolds rule applies only when that vector is not zero
   */
  function SeparationFourLoop(sum: Vec, count: nat, velocity: Vec, maxSpeed: real, maxForce: real): Vec
  {
    var steer := if count > 0 then Div(sum, count as real) else sum;
    if Length(steer) > 0.0 then Steer(Scale(Normalize(steer, 1.0), maxSpeed), velocity, maxForce)
    else steer
  }

  /** alignment result: steer towards the average neighbour velocity at full speed */
  function AlignmentResult(sum: Vec, count: nat, velocity: Vec, maxSpeed: real, maxForce: real): Vec
  {
    if count > 0 then Steer(Normalize(Div(sum, count as real), maxSpeed), velocity, maxForce)
    else Zero
  }

  /** cohesion result: seek the average neighbour position */
  function CohesionResult(sum: Vec, count: nat, position: Vec, velocity: Vec, maxSpeed: real, maxForce: real): Vec
  {
    if count > 0 then Seek(position, velocity, maxSpeed, maxForce, Div(sum, count as real))
    else Zero
  }

  /** all three results are zero without neighbours and bounded by maxForce otherwise */
  lemma ResultsBound(sum: Vec, count: nat, position: Vec, velocity: Vec, maxSpeed: real, maxForce: real)
    requires LengthLaw() && maxSpeed >= 0.0 && maxForce >= 0.0
    ensures count == 0 ==> SeparationSinglePass(sum, count, velocity, maxSpeed, maxForce) == Zero
    ensures count == 0 ==> AlignmentResult(sum, count, velocity, maxSpeed, maxForce) == Zero
    ensures count == 0 ==> CohesionResult(sum, count, position, velocity, maxSpeed, maxForce) == Zero
    ensures Length(SeparationSinglePass(sum, count, velocity, maxSpeed, maxForce)) <= maxForce
    ensures Length(AlignmentResult(sum, count, velocity, maxSpeed, maxForce)) <= maxForce
    ensures Length(CohesionResult(sum, count, position, velocity, maxSpeed, maxForce)) <= maxForce
  {
    LengthZero(Zero);
    if count > 0 {
      var avg := Div(sum, count as real);
      SteerBound(Scale(Normalize(avg, 1.0), maxSpeed), velocity, maxForce);
      SteerBound(Normalize(avg, maxSpeed), velocity, maxForce);
      SeekBound(position, velocity, maxSpeed, maxForce, avg);
    }
  }

  /**
   * four-loop `separate`: the result is the zero vector when the averaged
   * sum is, in particular when nothing was summed
   */
  lemma SeparationFourLoopZero(sum: Vec, count: nat, velocity: Vec, maxSpeed: real, maxForce: real)
    requires LengthLaw()
    ensures var avg := if count > 0 then Div(sum, count as real) else sum;
      Length(avg) == 0.0 ==> SeparationFourLoop(sum, count, velocity, maxSpeed, maxForce) == Zero
    ensures sum == Zero ==> SeparationFourLoop(sum, count, velocity, maxSpeed, maxForce) == Zero
  {
    var avg := if count > 0 then Div(sum, count as real) else sum;
    LengthZero(avg);
    if sum == Zero {
      assert avg == Zero;
    }
  }

  /** four-loop `separate` never steers harder than maxForce */
  lemma SeparationFourLoopBound(sum: Vec, count: nat, velocity: Vec, maxSpeed: real, maxForce: real)
    requires LengthLaw() && maxForce >= 0.0
    ensures Length(SeparationFourLoop(sum, count, velocity, maxSpeed, maxForce)) <= maxForce
  {
    var avg := if count > 0 then Div(sum, count as real) else sum;
    LengthZero(avg);
    if Length(avg) > 0.0 {
      SteerBound(Scale(Normalize(avg, 1.0), maxSpeed), velocity, maxForce);
    }
  }

  /**
   * where the two separation formulas differ: with neighbours whose
   * repulsions cancel, the single pass still steers with `-velocity`
   * (clamped), while the four-loop version returns the zero vector
   */
  lemma SeparationVersionsDiffer(sum: Vec, count: nat, velocity: Vec, maxSpeed: real, maxForce: real)
    requires LengthLaw() && count > 0 && sum == Zero
    ensures SeparationSinglePass(sum, count, velocity, maxSpeed, maxForce) == Limit(Scale(velocity, -1.0), maxForce)
    ensures SeparationFourLoop(sum, count, velocity, maxSpeed, maxForce) == Zero
  {
    assert Div(sum, count as real) == Zero;
    LengthZero(Zero);
    assert Scale(Normalize(Zero, 1.0), maxSpeed) == Zero;
    assert Sub(Zero, velocity) == Scale(velocity, -1.0);
  }

  // ---------------------------------------------------------------------
  // Mouse avoidance.

  /** `avoid` as boid.js writes it: the unit vector from the mouse across the projection on `position + velocity` */
  function AvoidPlain(position: Vec, velocity: Vec, mouse: Vec, avoidDistance: real): Vec
  {
    var ap := Sub(mouse, position);
    if Length(ap) < avoidDistance then
      var ab := Normalize(Add(position, velocity), 1.0);
      var ab' := Scale(ab, Dot(ap, ab));
      Normalize(Sub(ab', ap), 1.0)
    else Zero
  }

  /** `avoid` as the later snapshots write it, with the falloff factor `1 - |ap| / avoidDistance` */
  function AvoidFalloff(position: Vec, velocity: Vec, mouse: Vec, avoidDistance: real): Vec
  {
    var ap := Sub(mouse, position);
    var apLength := Length(ap);
    if apLength < avoidDistance then
      var ab := Normalize(Add(position, velocity), 1.0);
      var ab' := Scale(ab, Dot(ap, ab));
      Normalize(Scale(Sub(ab', ap), 1.0 - apLength / avoidDistance), 1.0)
    else Zero
  }

  /**
   * inside the avoid distance the falloff factor is positive and the vector
   * is normalised afterwards, so the falloff version equals the plain one
   */
  lemma FalloffCancels(position: Vec, velocity: Vec, mouse: Vec, avoidDistance: real)
    requires LengthLaw()
    ensures AvoidFalloff(position, velocity, mouse, avoidDistance) == AvoidPlain(position, velocity, mouse, avoidDistance)
  {
    var ap := Sub(mouse, position);
    var l := Length(ap);
    if l < avoidDistance {
      var ab := Normalize(Add(position, velocity), 1.0);
      var v := Sub(Scale(ab, Dot(ap, ab)), ap);
      calc {
        l / avoidDistance;
      < { MulStrictLeft(l, avoidDistance, 1.0 / avoidDistance);
          assert 1.0 / avoidDistance * l == l / avoidDistance;
          assert 1.0 / avoidDistance * avoidDistance == 1.0; }
        1.0;
      }
      NormalizeScaled(v, 1.0 - l / avoidDistance, 1.0);
    }
  }

  /**
   * `avoid` is zero out of range, and a unit vector or zero inside it; with
   * the mouse exactly on the boid it is zero too
   */
  lemma AvoidBound(position: Vec, velocity: Vec, mouse: Vec, avoidDistance: real)
    requires LengthLaw()
    ensures Length(Sub(mouse, position)) >= avoidDistance ==> AvoidPlain(position, velocity, mouse, avoidDistance) == Zero
    ensures Length(AvoidPlain(position, velocity, mouse, avoidDistance)) <= 1.0
    ensures mouse == position ==> AvoidPlain(position, velocity, mouse, avoidDistance) == Zero
  {
    var ap := Sub(mouse, position);
    LengthZero(Zero);
    if Length(ap) < avoidDistance {
      var ab := Normalize(Add(position, velocity), 1.0);
      var v := Sub(Scale(ab, Dot(ap, ab)), ap);
      NormalizeLength(v, 1.0);
      if mouse == position {
        assert ap == Zero;
        assert v == Zero;
      }
    }
  }

  // ---------------------------------------------------------------------
  // Combining the forces, moving, wrapping.

  /** the four forces of one frame */
  datatype Forces = Forces(sep: Vec, ali: Vec, coh: Vec, avo: Vec)

  /** the four weights the forces are multiplied by before being added */
  datatype Weights = Weights(sep: real, ali: real, coh: real, avo: real)

  /** `weight / mass` for each force, as the mass-weighted snapshots multiply */
  function PerMass(w: Weights, mass: real): Weights
    requires mass != 0.0
  {
    Weights(w.sep / mass, w.ali / mass, w.coh / mass, w.avo / mass)
  }

  /** acceleration after adding each weighted force in turn */
  function Accumulate(acceleration: Vec, f: Forces, w: Weights): Vec
  {
    Add(Add(Add(Add(acceleration, Scale(f.sep, w.sep)), Scale(f.ali, w.ali)), Scale(f.coh, w.coh)), Scale(f.avo, w.avo))
  }

  /** the weighted forces add up: the increment is their weighted sum, whatever weights are used */
  lemma AccumulateSum(acceleration: Vec, f: Forces, w: Weights)
    ensures Accumulate(acceleration, f, w) ==
      Add(acceleration, Add(Add(Scale(f.sep, w.sep), Scale(f.ali, w.ali)), Add(Scale(f.coh, w.coh), Scale(f.avo, w.avo))))
    ensures f == Forces(Zero, Zero, Zero, Zero) ==> Accumulate(acceleration, f, w) == acceleration
  {
  }

  /**
   * `update`: velocity grows by the acceleration and is clamped to maxSpeed,
   * the position advances by the new velocity, and the acceleration is reset
   */
  function Integrate(k: Kin, maxSpeed: real): Kin
  {
    var v := Limit(Add(k.velocity, k.acceleration), maxSpeed);
    Kin(Add(k.position, v), v, Zero)
  }

  lemma IntegrateBound(k: Kin, maxSpeed: real)
    requires LengthLaw() && maxSpeed >= 0.0
    ensures Length(Integrate(k, maxSpeed).velocity) <= maxSpeed
    ensures Integrate(k, maxSpeed).position == Add(k.position, Integrate(k, maxSpeed).velocity)
    ensures Integrate(k, maxSpeed).acceleration == Zero
    ensures Length(Add(k.velocity, k.acceleration)) <= maxSpeed ==>
      Integrate(k, maxSpeed).velocity == Add(k.velocity, k.acceleration)
  {
    LimitBound(Add(k.velocity, k.acceleration), maxSpeed);
  }

  /**
   * one coordinate through `borders`: below `-r` it goes to `dim + r`, above
   * `dim + r` it goes to `-r`, and in between it is left alone
   */
  function WrapCoord(c: real, dim: real, r: real): (w: real)
    ensures -r <= c <= dim + r ==> w == c
    ensures c < -r ==> w == dim + r
    ensures dim + r < c && -r <= c ==> w == -r
    ensures -r <= dim + r ==> -r <= w <= dim + r
  {
    var c' := if c < -r then dim + r else c;
    if c' > dim + r then -r else c'
  }

  /** `borders` on a position */
  function Wrap(p: Vec, width: real, height: real, r: real): Vec
  {
    Vec(WrapCoord(p.x, width, r), WrapCoord(p.y, height, r))
  }
}
