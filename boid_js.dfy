/**
 * The boid of boid.js, which flock.js drives: `flock` calls `separate`,
 * `alignment` and `cohesion`, each of which loops over all boids computing
 * the distance from the boid's own position, and `avoid`, then adds the
 * forces times the plain weights to the acceleration (there is no mass).
 * Every method is proved against the functions of FourLoop with the falloff
 * switched off.
 */
module BoidJs {
  import opened Vectors
  import opened Steering
  import FourLoop

  class Boid {
    const r: real
    const maxSpeed: real
    const maxForce: real
    const desiredSeparation: real
    const alignmentNeighborDist: real
    const cohesionNeighborDist: real
    const separationWeight: real
    const alignmentWeight: real
    const cohesionWeight: real
    const avoidWeight: real
    const avoidDistance: real
    var position: Vec
    var velocity: Vec
    var acceleration: Vec

    /** the boid's parameters, fixed by the constructor */
    function Profile(): FourLoop.Profile
    {
      FourLoop.Profile(
        Tuning(r, maxSpeed, maxForce, desiredSeparation, alignmentNeighborDist, cohesionNeighborDist, avoidDistance),
        Weights(separationWeight, alignmentWeight, cohesionWeight, avoidWeight))
    }

    function State(): Kin
      reads this
    {
      Kin(position, velocity, acceleration)
    }

    ghost predicate Valid()
    {
      Sane(Profile().t)
    }

    /** `new Boid(x, y)`, with the constructor's two random draws given as `u1` and `u2` */
    constructor (x: real, y: real, u1: real, u2: real)
      ensures Profile() == FourLoop.Profile(FourLoop.PlainTuning, FourLoop.PlainWeights)
      ensures State() == Kin(Vec(x, y), Vec(u1 * 2.0 - 1.0, u2 * 2.0 - 1.0), Zero)
      ensures Valid()
    {
      position := Vec(x, y);
      acceleration := Zero;
      velocity := Vec(u1 * 2.0 - 1.0, u2 * 2.0 - 1.0);
      r := 3.0;
      maxSpeed := 3.0;
      maxForce := 0.05;
      desiredSeparation := 25.0;
      alignmentNeighborDist := 100.0;
      cohesionNeighborDist := 100.0;
      separationWeight := 1.5;
      alignmentWeight := 1.0;
      cohesionWeight := 1.0;
      avoidWeight := 0.2;
      avoidDistance := 100.0;
    }

    /** `run`: `flock`, `update` and `borders` (drawing is not modelled) */
    method Run(boids: seq<Boid>, currentMousePos: Vec, width: real, height: real)
      modifies this
      ensures State() == FourLoop.Step(Profile(), old(State()), Positions(old(Kins(boids))),
                                       Velocities(old(Kins(boids))), currentMousePos, false, width, height)
    {
      Flock(boids, currentMousePos);
      Update();
      Borders(width, height);
    }

    /** `applyForce`: the force is added to the acceleration */
    method ApplyForce(force: Vec)
      modifies this
      ensures acceleration == Add(old(acceleration), force)
      ensures position == old(position) && velocity == old(velocity)
    {
      acceleration := Add(acceleration, force);
    }

    /**
     * `flock`: the four forces, each multiplied by its weight, are applied
     * in turn
     */
    method Flock(boids: seq<Boid>, currentMousePos: Vec)
      modifies this
      ensures acceleration == FourLoop.Flocked(Profile(), old(State()), Positions(old(Kins(boids))),
                                               Velocities(old(Kins(boids))), currentMousePos, false)
      ensures position == old(position) && velocity == old(velocity)
    {
      var sep := Separate(boids);
      var ali := Alignment(boids);
      var coh := Cohesion(boids);
      var avo := Avoid(currentMousePos);

      sep := Scale(sep, separationWeight);
      ali := Scale(ali, alignmentWeight);
      coh := Scale(coh, cohesionWeight);
      avo := Scale(avo, avoidWeight);

      ApplyForce(sep);
      ApplyForce(ali);
      ApplyForce(coh);
      ApplyForce(avo);
    }

    /** `update`: integrate the acceleration into the velocity, clamp the speed, move, reset the acceleration */
    method Update()
      modifies this
      ensures State() == Integrate(old(State()), maxSpeed)
      ensures LengthLaw() && Valid() ==> Length(velocity) <= maxSpeed
    {
      velocity := Add(velocity, acceleration);
      if Length(velocity) > maxSpeed {
        velocity := Normalize(velocity, maxSpeed);
      }
      position := Add(position, velocity);
      acceleration := Zero;
      if LengthLaw() && Valid() {
        IntegrateBound(old(State()), maxSpeed);
      }
    }

    /** `seek(target)`: the steering force towards `target`, never stronger than maxForce */
    method Seek(target: Vec) returns (steer: Vec)
      ensures steer == Steering.Seek(position, velocity, maxSpeed, maxForce, target)
      ensures LengthLaw() && Valid() ==> Length(steer) <= maxForce
    {
      var desired := Sub(target, position);
      desired := Normalize(desired, maxSpeed);
      steer := Sub(desired, velocity);
      if Length(steer) > maxForce {
        steer := Normalize(steer, maxForce);
      }
      if LengthLaw() && Valid() {
        SeekBound(position, velocity, maxSpeed, maxForce, target);
      }
    }

    /** `borders`: wrap the position to the opposite margin of the `width` by `height` view */
    method Borders(width: real, height: real)
      modifies this
      ensures position == Wrap(old(position), width, height, r)
      ensures velocity == old(velocity) && acceleration == old(acceleration)
    {
      if position.x < -r { position := position.(x := width + r); }
      if position.y < -r { position := position.(y := height + r); }
      if position.x > width + r { position := position.(x := -r); }
      if position.y > height + r { position := position.(y := -r); }
    }

    /**
     * `separate`: the loop adds, for every boid strictly within
     * desiredSeparation, the unit vector away from it divided by the
     * distance; the average of these, if it is not zero, becomes a steering
     * force at full speed, clamped to maxForce
     */
    method Separate(boids: seq<Boid>) returns (steer: Vec)
      ensures var ps := Positions(Kins(boids)); var d := DistancesFrom(position, ps);
        steer == SeparationFourLoop(SepSum(position, ps, d, desiredSeparation, |ps|),
                                    CountNear(d, desiredSeparation, |ps|), velocity, maxSpeed, maxForce)
      ensures LengthLaw() && Valid() ==> Length(steer) <= maxForce
      ensures LengthLaw() && CountNear(DistancesFrom(position, Positions(Kins(boids))), desiredSeparation, |boids|) == 0 ==>
        steer == Zero
    {
      ghost var ps := Positions(Kins(boids));
      ghost var dist := DistancesFrom(position, ps);
      steer := Zero;
      var count := 0;
      var n := |boids|;
      for i := 0 to n
        invariant steer == SepSum(position, ps, dist, desiredSeparation, i)
        invariant count == CountNear(dist, desiredSeparation, i)
      {
        var d := Distance(position, boids[i].position);
        assert boids[i].position == ps[i] && dist[i] == d;
        if d > 0.0 && d < desiredSeparation {
          var diff := Sub(position, boids[i].position);
          diff := Normalize(diff, 1.0);
          diff := Div(diff, d);
          steer := Add(steer, diff);
          count := count + 1;
        }
      }
      ghost var sum := steer;
      if count > 0 {
        steer := Div(steer, count as real);
      }
      if Length(steer) > 0.0 {
        steer := Normalize(steer, 1.0);
        steer := Scale(steer, maxSpeed);
        steer := Sub(steer, velocity);
        if Length(steer) > maxForce {
          steer := Normalize(steer, maxForce);
        }
      }
      if LengthLaw() {
        SeparationFourLoopZero(sum, count, velocity, maxSpeed, maxForce);
        if Valid() {
          SeparationFourLoopBound(sum, count, velocity, maxSpeed, maxForce);
        }
        if count == 0 {
          NoNeighbourSums(position, ps, dist, desiredSeparation, n);
        }
      }
    }

    /**
     * `alignment`: the average velocity of the boids strictly within
     * alignmentNeighborDist, scaled to maxSpeed, as a clamped steering force;
     * `(0, 0)` without such boids
     */
    method Alignment(boids: seq<Boid>) returns (steer: Vec)
      ensures var ks := Kins(boids); var d := DistancesFrom(position, Positions(ks));
        steer == AlignmentResult(SumNear(Velocities(ks), d, alignmentNeighborDist, |ks|),
                                 CountNear(d, alignmentNeighborDist, |ks|), velocity, maxSpeed, maxForce)
      ensures LengthLaw() && Valid() ==> Length(steer) <= maxForce
      ensures CountNear(DistancesFrom(position, Positions(Kins(boids))), alignmentNeighborDist, |boids|) == 0 ==>
        steer == Zero
    {
      ghost var ps := Positions(Kins(boids));
      ghost var vs := Velocities(Kins(boids));
      ghost var dist := DistancesFrom(position, ps);
      var sum := Zero;
      var count := 0;
      for i := 0 to |boids|
        invariant sum == SumNear(vs, dist, alignmentNeighborDist, i)
        invariant count == CountNear(dist, alignmentNeighborDist, i)
      {
        var d := Distance(position, boids[i].position);
        assert boids[i].velocity == vs[i] && dist[i] == d;
        if d > 0.0 && d < alignmentNeighborDist {
          sum := Add(sum, boids[i].velocity);
          count := count + 1;
        }
      }
      steer := Zero;
      if count > 0 {
        var avg := Div(sum, count as real);
        avg := Normalize(avg, maxSpeed);
        steer := Sub(avg, velocity);
        if Length(steer) > maxForce {
          steer := Normalize(steer, maxForce);
        }
      }
      if LengthLaw() && Valid() {
        ResultsBound(sum, count, position, velocity, maxSpeed, maxForce);
      }
    }

    /**
     * `cohesion`: seek the average position of the boids strictly within
     * cohesionNeighborDist; `(0, 0)` without such boids
     */
    method Cohesion(boids: seq<Boid>) returns (steer: Vec)
      ensures var ps := Positions(Kins(boids)); var d := DistancesFrom(position, ps);
        steer == CohesionResult(SumNear(ps, d, cohesionNeighborDist, |ps|),
                                CountNear(d, cohesionNeighborDist, |ps|), position, velocity, maxSpeed, maxForce)
      ensures LengthLaw() && Valid() ==> Length(steer) <= maxForce
      ensures CountNear(DistancesFrom(position, Positions(Kins(boids))), cohesionNeighborDist, |boids|) == 0 ==>
        steer == Zero
    {
      ghost var ps := Positions(Kins(boids));
      ghost var dist := DistancesFrom(position, ps);
      var sum := Zero;
      var count := 0;
      var n := |boids|;
      for i := 0 to n
        invariant sum == SumNear(ps, dist, cohesionNeighborDist, i)
        invariant count == CountNear(dist, cohesionNeighborDist, i)
      {
        var d := Distance(position, boids[i].position);
        assert boids[i].position == ps[i] && dist[i] == d;
        if d > 0.0 && d < cohesionNeighborDist {
          sum := Add(sum, boids[i].position);
          count := count + 1;
        }
      }
      steer := Zero;
      if count > 0 {
        sum := Div(sum, count as real);
        steer := Seek(sum);
      }
      if LengthLaw() && Valid() {
        ResultsBound(SumNear(ps, dist, cohesionNeighborDist, n), count, position, velocity, maxSpeed, maxForce);
      }
    }

    /**
     * `avoid`: within avoidDistance of the mouse, the unit vector from the
     * mouse across its projection on the direction of `position + velocity`;
     * `(0, 0)` farther away
     */
    method Avoid(currentMousePos: Vec) returns (avoidVector: Vec)
      ensures avoidVector == AvoidPlain(position, velocity, currentMousePos, avoidDistance)
      ensures LengthLaw() ==> Length(avoidVector) <= 1.0
      ensures Length(Sub(currentMousePos, position)) >= avoidDistance ==> avoidVector == Zero
    {
      var ap := Sub(currentMousePos, position);
      avoidVector := Zero;
      if Length(ap) < avoidDistance {
        var ab := Add(position, velocity);
        ab := Normalize(ab, 1.0);
        ab := Scale(ab, Dot(ap, ab));
        avoidVector := Sub(ab, ap);
        avoidVector := Normalize(avoidVector, 1.0);
      }
      if LengthLaw() {
        AvoidBound(position, velocity, currentMousePos, avoidDistance);
      }
    }
  }

  /** the states of a sequence of boids */
  function Kins(bs: seq<Boid>): (ks: seq<Kin>)
    reads bs
    ensures |ks| == |bs| && forall i | 0 <= i < |bs| :: ks[i] == bs[i].State()
  {
    seq(|bs|, i reads bs requires 0 <= i < |bs| => bs[i].State())
  }

  /** the parameters of a sequence of boids */
  function Profiles(bs: seq<Boid>): (ps: seq<FourLoop.Profile>)
    ensures |ps| == |bs| && forall i | 0 <= i < |bs| :: ps[i] == bs[i].Profile()
  {
    seq(|bs|, i requires 0 <= i < |bs| => bs[i].Profile())
  }
}
