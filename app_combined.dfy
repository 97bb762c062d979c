/**
 * app-combined.js: the four-loop boid with noisy parameters and a mass, a
 * `Flock` without a distance table that runs every boid in index order, and
 * `startPaper`, which puts 60 boids on the perimeter of the view.  `flock`
 * multiplies each force by `weight / mass`, and `avoid` applies the falloff
 * factor before normalising.  Every method is proved against the functions
 * of FourLoop with the falloff switched on.
 */
module AppCombined {
  import opened Vectors
  import opened Steering
  import FourLoop
  import BoidLoop
  import Perimeter

  /** a boid's mass: `addNoise(1, fnoise)` is always positive */
  type Mass = m: real | m > 0.0 witness 1.0

  class Boid {
    const r: real
    const maxSpeed: real
    const maxForce: real
    const desiredSeparation: real
    const alignmentNeighborDist: real
    const cohesionNeighborDist: real
    const separationWeight: real
    const alignmentWeight: real
    const cohesionWeight: real
    const avoidWeight: real
    const avoidDistance: real
    const mass: Mass
    var position: Vec
    var velocity: Vec
    var acceleration: Vec

    /** the boid's parameters, fixed by the constructor, with the weights divided by the mass as `flock` uses them */
    function Profile(): FourLoop.Profile
    {
      FourLoop.Profile(
        Tuning(r, maxSpeed, maxForce, desiredSeparation, alignmentNeighborDist, cohesionNeighborDist, avoidDistance),
        PerMass(Weights(separationWeight, alignmentWeight, cohesionWeight, avoidWeight), mass))
    }

    function State(): Kin
      reads this
    {
      Kin(position, velocity, acceleration)
    }

    ghost predicate Valid()
    {
      Sane(Profile().t)
    }

    /** `new Boid(x, y)`, with the constructor's eleven random draws given as `u` */
    constructor (x: real, y: real, u: seq<real>)
      requires |u| == 11 && Draws(u)
      ensures mass == FourLoop.NoisyMass(u)
      ensures Profile() == FourLoop.NoisyProfile(u)
      ensures State() == Kin(Vec(x, y), StartVelocity(maxSpeed, u[1], u[2]), Zero)
      ensures Valid()
    {
      position := Vec(x, y);
      acceleration := Zero;
      var fnoise := FNoise;
      r := 10.0;
      var speed := AddNoise(3.0, fnoise, u[0]);
      maxSpeed := speed;
      var startVelocity := 0.25;
      velocity := Vec(startVelocity * speed * (1.0 - 2.0 * u[1]), startVelocity * speed * (1.0 - 2.0 * u[2]));
      maxForce := AddNoise(0.1, fnoise, u[3]);
      desiredSeparation := 25.0;
      alignmentNeighborDist := AddNoise(50.0, fnoise, u[4]);
      cohesionNeighborDist := AddNoise(200.0, fnoise, u[5]);
      separationWeight := 2.0;
      alignmentWeight := AddNoise(1.0, fnoise, u[6]);
      cohesionWeight := AddNoise(1.2, fnoise, u[7]);
      avoidWeight := AddNoise(0.1, fnoise, u[8]);
      avoidDistance := AddNoise(100.0, fnoise, u[9]);
      FourLoop.NoisyProfileSane(u);
      mass := AddNoise(1.0, fnoise, u[10]);
    }

    /** `run`: `flock`, `update` and `borders` (drawing is not modelled) */
    method Run(boids: seq<Boid>, currentMousePos: Vec, width: real, height: real)
      requires Valid()
      modifies this
      ensures State() == FourLoop.Step(Profile(), old(State()), Positions(old(Kins(boids))),
                                       Velocities(old(Kins(boids))), currentMousePos, true, width, height)
    {
      Flock(boids, currentMousePos);
      Update();
      Borders(width, height);
    }

    /** `applyForce`: the force is added to the acceleration */
    method ApplyForce(force: Vec)
      modifies this
      ensures acceleration == Add(old(acceleration), force)
      ensures position == old(position) && velocity == old(velocity)
    {
      acceleration := Add(acceleration, force);
    }

    /**
     * `flock`: the four forces, each multiplied by its weight divided by the
     * mass, are applied in turn
     */
    method Flock(boids: seq<Boid>, currentMousePos: Vec)
      modifies this
      ensures acceleration == FourLoop.Flocked(Profile(), old(State()), Positions(old(Kins(boids))),
                                               Velocities(old(Kins(boids))), currentMousePos, true)
      ensures position == old(position) && velocity == old(velocity)
    {
      var sep := Separate(boids);
      var ali := Alignment(boids);
      var coh := Cohesion(boids);
      var avo := Avoid(currentMousePos);

      sep := Scale(sep, separationWeight / mass);
      ali := Scale(ali, alignmentWeight / mass);
      coh := Scale(coh, cohesionWeight / mass);
      avo := Scale(avo, avoidWeight / mass);

      ApplyForce(sep);
      ApplyForce(ali);
      ApplyForce(coh);
      ApplyForce(avo);
    }

    /** `update`: integrate the acceleration into the velocity, clamp the speed, move, reset the acceleration */
    method Update()
      modifies this
      ensures State() == Integrate(old(State()), maxSpeed)
      ensures LengthLaw() && Valid() ==> Length(velocity) <= maxSpeed
    {
      velocity := Add(velocity, acceleration);
      if Length(velocity) > maxSpeed {
        velocity := Normalize(velocity, maxSpeed);
      }
      position := Add(position, velocity);
      acceleration := Zero;
      if LengthLaw() && Valid() {
        IntegrateBound(old(State()), maxSpeed);
      }
    }

    /** `seek(target)`: the steering force towards `target`, never stronger than maxForce */
    method Seek(target: Vec) returns (steer: Vec)
      ensures steer == Steering.Seek(position, velocity, maxSpeed, maxForce, target)
      ensures LengthLaw() && Valid() ==> Length(steer) <= maxForce
    {
      var desired := Sub(target, position);
      desired := Normalize(desired, maxSpeed);
      steer := Sub(desired, velocity);
      if Length(steer) > maxForce {
        steer := Normalize(steer, maxForce);
      }
      if LengthLaw() && Valid() {
        SeekBound(position, velocity, maxSpeed, maxForce, target);
      }
    }

    /** `borders`: wrap the position to the opposite margin of the `width` by `height` view */
    method Borders(width: real, height: real)
      modifies this
      ensures position == Wrap(old(position), width, height, r)
      ensures velocity == old(velocity) && acceleration == old(acceleration)
    {
      if position.x < -r { position := position.(x := width + r); }
      if position.y < -r { position := position.(y := height + r); }
      if position.x > width + r { position := position.(x := -r); }
      if position.y > height + r { position := position.(y := -r); }
    }

    /**
     * `separate`: the loop adds, for every boid strictly within
     * desiredSeparation, the unit vector away from it divided by the
     * distance; the average of these, if it is not zero, becomes a steering
     * force at full speed, clamped to maxForce
     */
    method Separate(boids: seq<Boid>) returns (steer: Vec)
      ensures var ps := Positions(Kins(boids)); var d := DistancesFrom(position, ps);
        steer == SeparationFourLoop(SepSum(position, ps, d, desiredSeparation, |ps|),
                                    CountNear(d, desiredSeparation, |ps|), velocity, maxSpeed, maxForce)
      ensures LengthLaw() && Valid() ==> Length(steer) <= maxForce
      ensures LengthLaw() && CountNear(DistancesFrom(position, Positions(Kins(boids))), desiredSeparation, |boids|) == 0 ==>
        steer == Zero
    {
      ghost var ps := Positions(Kins(boids));
      ghost var dist := DistancesFrom(position, ps);
      steer := Zero;
      var count := 0;
      var n := |boids|;
      for i := 0 to n
        invariant steer == SepSum(position, ps, dist, desiredSeparation, i)
        invariant count == CountNear(dist, desiredSeparation, i)
      {
        var d := Distance(position, boids[i].position);
        assert boids[i].position == ps[i] && dist[i] == d;
        if d > 0.0 && d < desiredSeparation {
          var diff := Sub(position, boids[i].position);
          diff := Normalize(diff, 1.0);
          diff := Div(diff, d);
          steer := Add(steer, diff);
          count := count + 1;
        }
      }
      ghost var sum := steer;
      if count > 0 {
        steer := Div(steer, count as real);
      }
      if Length(steer) > 0.0 {
        steer := Normalize(steer, 1.0);
        steer := Scale(steer, maxSpeed);
        steer := Sub(steer, velocity);
        if Length(steer) > maxForce {
          steer := Normalize(steer, maxForce);
        }
      }
      if LengthLaw() {
        SeparationFourLoopZero(sum, count, velocity, maxSpeed, maxForce);
        if Valid() {
          SeparationFourLoopBound(sum, count, velocity, maxSpeed, maxForce);
        }
        if count == 0 {
          NoNeighbourSums(position, ps, dist, desiredSeparation, n);
        }
      }
    }

    /**
     * `alignment`: the average velocity of the boids strictly within
     * alignmentNeighborDist, scaled to maxSpeed, as a clamped steering force;
     * `(0, 0)` without such boids
     */
    method Alignment(boids: seq<Boid>) returns (steer: Vec)
      ensures var ks := Kins(boids); var d := DistancesFrom(position, Positions(ks));
        steer == AlignmentResult(SumNear(Velocities(ks), d, alignmentNeighborDist, |ks|),
                                 CountNear(d, alignmentNeighborDist, |ks|), velocity, maxSpeed, maxForce)
      ensures LengthLaw() && Valid() ==> Length(steer) <= maxForce
      ensures CountNear(DistancesFrom(position, Positions(Kins(boids))), alignmentNeighborDist, |boids|) == 0 ==>
        steer == Zero
    {
      ghost var ps := Positions(Kins(boids));
      ghost var vs := Velocities(Kins(boids));
      ghost var dist := DistancesFrom(position, ps);
      var sum := Zero;
      var count := 0;
      for i := 0 to |boids|
        invariant sum == SumNear(vs, dist, alignmentNeighborDist, i)
        invariant count == CountNear(dist, alignmentNeighborDist, i)
      {
        var d := Distance(position, boids[i].position);
        assert boids[i].velocity == vs[i] && dist[i] == d;
        if d > 0.0 && d < alignmentNeighborDist {
          sum := Add(sum, boids[i].velocity);
          count := count + 1;
        }
      }
      steer := Zero;
      if count > 0 {
        var avg := Div(sum, count as real);
        avg := Normalize(avg, maxSpeed);
        steer := Sub(avg, velocity);
        if Length(steer) > maxForce {
          steer := Normalize(steer, maxForce);
        }
      }
      if LengthLaw() && Valid() {
        ResultsBound(sum, count, position, velocity, maxSpeed, maxForce);
      }
    }

    /**
     * `cohesion`: seek the average position of the boids strictly within
     * cohesionNeighborDist; `(0, 0)` without such boids
     */
    method Cohesion(boids: seq<Boid>) returns (steer: Vec)
      ensures var ps := Positions(Kins(boids)); var d := DistancesFrom(position, ps);
        steer == CohesionResult(SumNear(ps, d, cohesionNeighborDist, |ps|),
                                CountNear(d, cohesionNeighborDist, |ps|), position, velocity, maxSpeed, maxForce)
      ensures LengthLaw() && Valid() ==> Length(steer) <= maxForce
      ensures CountNear(DistancesFrom(position, Positions(Kins(boids))), cohesionNeighborDist, |boids|) == 0 ==>
        steer == Zero
    {
      ghost var ps := Positions(Kins(boids));
      ghost var dist := DistancesFrom(position, ps);
      var sum := Zero;
      var count := 0;
      var n := |boids|;
      for i := 0 to n
        invariant sum == SumNear(ps, dist, cohesionNeighborDist, i)
        invariant count == CountNear(dist, cohesionNeighborDist, i)
      {
        var d := Distance(position, boids[i].position);
        assert boids[i].position == ps[i] && dist[i] == d;
        if d > 0.0 && d < cohesionNeighborDist {
          sum := Add(sum, boids[i].position);
          count := count + 1;
        }
      }
      steer := Zero;
      if count > 0 {
        sum := Div(sum, count as real);
        steer := Seek(sum);
      }
      if LengthLaw() && Valid() {
        ResultsBound(SumNear(ps, dist, cohesionNeighborDist, n), count, position, velocity, maxSpeed, maxForce);
      }
    }

    /**
     * `avoid`: within avoidDistance of the mouse, the vector from the mouse
     * across its projection on the direction of `position + velocity`, scaled
     * by the falloff `1 - |ap| / avoidDistance` and normalised; `(0, 0)`
     * farther away
     */
    method Avoid(currentMousePos: Vec) returns (avoidVector: Vec)
      ensures avoidVector == AvoidFalloff(position, velocity, currentMousePos, avoidDistance)
      ensures LengthLaw() ==> avoidVector == AvoidPlain(position, velocity, currentMousePos, avoidDistance)
      ensures LengthLaw() ==> Length(avoidVector) <= 1.0
      ensures Length(Sub(currentMousePos, position)) >= avoidDistance ==> avoidVector == Zero
    {
      var ap := Sub(currentMousePos, position);
      var apLength := Length(ap);
      avoidVector := Zero;
      if apLength < avoidDistance {
        var ab := Add(position, velocity);
        ab := Normalize(ab, 1.0);
        ab := Scale(ab, Dot(ap, ab));
        avoidVector := Scale(Sub(ab, ap), 1.0 - apLength / avoidDistance);
        avoidVector := Normalize(avoidVector, 1.0);
      }
      if LengthLaw() {
        FalloffCancels(position, velocity, currentMousePos, avoidDistance);
        AvoidBound(position, velocity, currentMousePos, avoidDistance);
      }
    }
  }

  /** the states of a sequence of boids */
  function Kins(bs: seq<Boid>): (ks: seq<Kin>)
    reads bs
    ensures |ks| == |bs| && forall i | 0 <= i < |bs| :: ks[i] == bs[i].State()
  {
    seq(|bs|, i reads bs requires 0 <= i < |bs| => bs[i].State())
  }

  /** the parameters of a sequence of boids */
  function Profiles(bs: seq<Boid>): (ps: seq<FourLoop.Profile>)
    ensures |ps| == |bs| && forall i | 0 <= i < |bs| :: ps[i] == bs[i].Profile()
  {
    seq(|bs|, i requires 0 <= i < |bs| => bs[i].Profile())
  }

  class Flock {
    var boids: seq<Boid>
    var l: int
    var currentMousePos: Vec
    /** where each boid sits in `boids`, which shows that no boid is there twice */
    ghost var slot: map<Boid, int>

    /** `l` counts the boids, no boid is in the flock twice, and every boid has sane parameters */
    ghost predicate Valid()
      reads this
    {
      l == |boids| &&
      (forall i | 0 <= i < |boids| :: boids[i] in slot && slot[boids[i]] == i) &&
      (forall i | 0 <= i < |boids| :: boids[i].Valid())
    }

    constructor ()
      ensures boids == [] && l == 0 && currentMousePos == Zero
      ensures Valid()
    {
      boids := [];
      slot := map[];
      l := 0;
      currentMousePos := Zero;
    }

    method AddBoid(newBoid: Boid)
      requires Valid() && newBoid.Valid() && newBoid !in boids
      modifies this
      ensures boids == old(boids) + [newBoid] && l == old(l) + 1
      ensures currentMousePos == old(currentMousePos)
      ensures Valid()
    {
      l := l + 1;
      slot := slot[newBoid := |boids|];
      boids := boids + [newBoid];
    }

    /**
     * `run`: boid `0`, `1`, ..., `l - 1` takes its step in turn, each seeing
     * the boids before it already moved
     */
    method Run(width: real, height: real)
      requires Valid()
      modifies boids
      ensures Kins(boids) == FourLoop.Sweep(old(Kins(boids)), Profiles(boids), currentMousePos, true, width, height)
    {
      var bs, mouse := boids, currentMousePos;
      ghost var ks := Kins(bs);
      ghost var ps := Profiles(bs);
      for i := 0 to |bs|
        invariant FourLoop.Swept(Kins(bs), ks, ps, mouse, true, width, height, i)
      {
        StepBoid(bs, slot, mouse, width, height, i, ks);
      }
    }

    /** one turn of the loop of `run`: boid `i` runs, and no other boid changes */
    static method StepBoid(bs: seq<Boid>, ghost at: map<Boid, int>, mouse: Vec, width: real, height: real,
                           i: nat, ghost ks: seq<Kin>)
      requires i < |bs| && forall j | 0 <= j < |bs| :: bs[j] in at && at[bs[j]] == j && bs[j].Valid()
      requires FourLoop.Swept(Kins(bs), ks, Profiles(bs), mouse, true, width, height, i)
      modifies bs[i]
      ensures FourLoop.Swept(Kins(bs), ks, Profiles(bs), mouse, true, width, height, i + 1)
    {
      var b := bs[i];
      ghost var before := Kins(bs);
      ghost var ps := Profiles(bs);
      FourLoop.SweepNext(ks, ps, mouse, true, width, height, i, before);
      assert forall j | 0 <= j < |bs| && j != i :: bs[j] != b by {
        forall j | 0 <= j < |bs| && j != i
          ensures bs[j] != b
        {
          assert at[bs[j]] == j && at[b] == i;
        }
      }
      b.Run(bs, mouse, width, height);
      assert forall j | 0 <= j < |bs| :: Kins(bs)[j] == before[i := FourLoop.StepAt(before, ps, i, mouse, true, width, height)][j];
    }

    method UpdateMouse(mousePos: Vec)
      modifies this
      ensures currentMousePos == mousePos
      ensures boids == old(boids) && l == old(l) && slot == old(slot)
      ensures old(Valid()) ==> Valid()
    {
      currentMousePos := mousePos;
    }

    /** the state the handlers work on: the boids' states and the mouse point */
    ghost function World(): FourLoop.World
      reads this, boids
    {
      FourLoop.World(Kins(boids), currentMousePos)
    }
  }

  /** `view.onFrame` and `view.onMouseMove` as `startPaper` installs them */
  method OnEvent(flock: Flock, e: BoidLoop.Event, width: real, height: real)
    requires flock.Valid()
    modifies flock, flock.boids
    ensures flock.Valid() && flock.boids == old(flock.boids)
    ensures flock.World() == FourLoop.Handle(old(flock.World()), Profiles(flock.boids), true, e, width, height)
  {
    match e
    case OnFrame =>
      flock.Run(width, height);
    case OnMouseMove(p) =>
      flock.UpdateMouse(p);
  }

  /**
   * the browser delivering `events` to the handlers one after another:
   * frames and mouse moves may come in any order
   */
  method Animate(flock: Flock, events: seq<BoidLoop.Event>, width: real, height: real)
    requires flock.Valid()
    modifies flock, flock.boids
    ensures flock.Valid() && flock.boids == old(flock.boids)
    ensures flock.World() == FourLoop.Replay(old(flock.World()), Profiles(flock.boids), true, events, width, height)
  {
    ghost var ps := Profiles(flock.boids);
    ghost var start := flock.World();
    for n := 0 to |events|
      invariant flock.Valid() && flock.boids == old(flock.boids)
      invariant FourLoop.Replay(start, ps, true, events, width, height)
                == FourLoop.Replay(flock.World(), ps, true, events[n..], width, height)
    {
      assert events[n..][1..] == events[n + 1..];
      OnEvent(flock, events[n], width, height);
    }
  }

  /** the number of boids `startPaper` creates */
  const NrBoids: nat := 60

  /** the off-screen margin of the start positions */
  const Frame: real := 5.0

  /**
   * `startPaper` without the canvas and the event wiring: boid `i` starts on
   * the point of the perimeter of the view enlarged by `Frame` that the
   * random number `rs[i]` picks; `us[i]` are its constructor's draws
   */
  method StartPaper(width: real, height: real, rs: seq<real>, us: seq<seq<real>>) returns (flock: Flock)
    requires |rs| == NrBoids && |us| == NrBoids
    requires forall i | 0 <= i < NrBoids :: |us[i]| == 11 && Draws(us[i])
    ensures fresh(flock) && flock.Valid()
    ensures flock.l == NrBoids && flock.currentMousePos == Zero
    ensures forall i | 0 <= i < NrBoids ::
      flock.boids[i].position == Perimeter.PerimeterPoint(width, height, Frame, rs[i]) &&
      flock.boids[i].Profile() == FourLoop.NoisyProfile(us[i])
  {
    flock := new Flock();
    for i := 0 to NrBoids
      invariant fresh(flock) && flock.Valid()
      invariant flock.l == i && flock.currentMousePos == Zero
      invariant forall j | 0 <= j < i ::
        flock.boids[j].position == Perimeter.PerimeterPoint(width, height, Frame, rs[j]) &&
        flock.boids[j].Profile() == FourLoop.NoisyProfile(us[j])
    {
      var p := Perimeter.PerimeterPoint(width, height, Frame, rs[i]);
      var b := new Boid(p.x, p.y, us[i]);
      flock.AddBoid(b);
    }
  }
}
