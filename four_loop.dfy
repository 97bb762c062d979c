/**
 * The specification of one frame in the four-loop snapshots (boid.js, driven
 * by flock.js, and app-combined.js): `separate`, `alignment` and `cohesion`
 * each loop over all boids computing the distance from the boid's own
 * position, `avoid` looks at the mouse, and `flock` adds the weighted forces
 * to the acceleration.  boid.js weights by the plain weights and avoids
 * without falloff; app-combined.js weights by `weight / mass` and applies the
 * falloff factor before normalising.
 */
module FourLoop {
  import opened Vectors
  import opened DistanceTable
  import opened Steering
  import BoidLoop

  /** a boid's parameters and the weights its forces are multiplied by */
  datatype Profile = Profile(t: Tuning, w: Weights)

  /** `separate`, `alignment`, `cohesion` and `avoid` of a boid in state `me` */
  function Forces(t: Tuning, me: Kin, ps: seq<Vec>, vs: seq<Vec>, mouse: Vec, falloff: bool): Steering.Forces
    requires |ps| == |vs|
  {
    var n := |ps|;
    var d := DistancesFrom(me.position, ps);
    var sep := SeparationFourLoop(SepSum(me.position, ps, d, t.desiredSeparation, n),
                                  CountNear(d, t.desiredSeparation, n), me.velocity, t.maxSpeed, t.maxForce);
    var ali := AlignmentResult(SumNear(vs, d, t.alignmentDist, n),
                               CountNear(d, t.alignmentDist, n), me.velocity, t.maxSpeed, t.maxForce);
    var coh := CohesionResult(SumNear(ps, d, t.cohesionDist, n),
                              CountNear(d, t.cohesionDist, n), me.position, me.velocity, t.maxSpeed, t.maxForce);
    var avo := if falloff then AvoidFalloff(me.position, me.velocity, mouse, t.avoidDistance)
               else AvoidPlain(me.position, me.velocity, mouse, t.avoidDistance);
    Steering.Forces(sep, ali, coh, avo)
  }

  /** the acceleration after `flock` */
  function Flocked(p: Profile, me: Kin, ps: seq<Vec>, vs: seq<Vec>, mouse: Vec, falloff: bool): Vec
    requires |ps| == |vs|
  {
    Accumulate(me.acceleration, Forces(p.t, me, ps, vs, mouse, falloff), p.w)
  }

  /** `run` of one boid: `flock`, `update`, `borders` */
  function Step(p: Profile, me: Kin, ps: seq<Vec>, vs: seq<Vec>, mouse: Vec, falloff: bool, width: real, height: real): Kin
    requires |ps| == |vs|
  {
    var k := Integrate(me.(acceleration := Flocked(p, me, ps, vs, mouse, falloff)), p.t.maxSpeed);
    k.(position := Wrap(k.position, width, height, p.t.r))
  }

  /** the falloff factor makes no difference to the forces */
  lemma FalloffForcesEqual(t: Tuning, me: Kin, ps: seq<Vec>, vs: seq<Vec>, mouse: Vec)
    requires LengthLaw() && |ps| == |vs|
    ensures Forces(t, me, ps, vs, mouse, true) == Forces(t, me, ps, vs, mouse, false)
  {
    FalloffCancels(me.position, me.velocity, mouse, t.avoidDistance);
  }

  /** all four forces are bounded: the steering ones by maxForce, avoidance by 1 */
  lemma ForcesBound(t: Tuning, me: Kin, ps: seq<Vec>, vs: seq<Vec>, mouse: Vec, falloff: bool)
    requires LengthLaw() && Sane(t) && |ps| == |vs|
    ensures Length(Forces(t, me, ps, vs, mouse, falloff).sep) <= t.maxForce
    ensures Length(Forces(t, me, ps, vs, mouse, falloff).ali) <= t.maxForce
    ensures Length(Forces(t, me, ps, vs, mouse, falloff).coh) <= t.maxForce
    ensures Length(Forces(t, me, ps, vs, mouse, falloff).avo) <= 1.0
  {
    var n := |ps|;
    var d := DistancesFrom(me.position, ps);
    SeparationFourLoopBound(SepSum(me.position, ps, d, t.desiredSeparation, n),
                            CountNear(d, t.desiredSeparation, n), me.velocity, t.maxSpeed, t.maxForce);
    ResultsBound(SumNear(vs, d, t.alignmentDist, n), CountNear(d, t.alignmentDist, n),
                 me.position, me.velocity, t.maxSpeed, t.maxForce);
    ResultsBound(SumNear(ps, d, t.cohesionDist, n), CountNear(d, t.cohesionDist, n),
                 me.position, me.velocity, t.maxSpeed, t.maxForce);
    FalloffCancels(me.position, me.velocity, mouse, t.avoidDistance);
    AvoidBound(me.position, me.velocity, mouse, t.avoidDistance);
  }

  /**
   * alone, or with the mouse out of range and no other boid within any radius,
   * `flock` leaves the acceleration as it was
   */
  lemma NoInfluence(p: Profile, me: Kin, ps: seq<Vec>, vs: seq<Vec>, mouse: Vec, falloff: bool)
    requires LengthLaw() && |ps| == |vs|
    requires var d := DistancesFrom(me.position, ps);
      CountNear(d, p.t.desiredSeparation, |ps|) == 0 &&
      CountNear(d, p.t.alignmentDist, |ps|) == 0 &&
      CountNear(d, p.t.cohesionDist, |ps|) == 0
    requires Length(Sub(mouse, me.position)) >= p.t.avoidDistance
    ensures Flocked(p, me, ps, vs, mouse, falloff) == me.acceleration
  {
    var n := |ps|;
    var d := DistancesFrom(me.position, ps);
    NoNeighbourSums(me.position, ps, d, p.t.desiredSeparation, n);
    SeparationFourLoopZero(SepSum(me.position, ps, d, p.t.desiredSeparation, n),
                           CountNear(d, p.t.desiredSeparation, n), me.velocity, p.t.maxSpeed, p.t.maxForce);
    assert Forces(p.t, me, ps, vs, mouse, falloff) == Steering.Forces(Zero, Zero, Zero, Zero);
    AccumulateSum(me.acceleration, Forces(p.t, me, ps, vs, mouse, falloff), p.w);
  }

  /** after its step a boid is within its speed limit, has no acceleration and lies inside the wrap margin */
  lemma StepBound(p: Profile, me: Kin, ps: seq<Vec>, vs: seq<Vec>, mouse: Vec, falloff: bool, width: real, height: real)
    requires LengthLaw() && Sane(p.t) && |ps| == |vs| && width >= 0.0 && height >= 0.0
    ensures var k := Step(p, me, ps, vs, mouse, falloff, width, height);
      Length(k.velocity) <= p.t.maxSpeed && k.acceleration == Zero &&
      -p.t.r <= k.position.x <= width + p.t.r && -p.t.r <= k.position.y <= height + p.t.r
  {
    IntegrateBound(me.(acceleration := Flocked(p, me, ps, vs, mouse, falloff)), p.t.maxSpeed);
  }

  // ---------------------------------------------------------------------
  // The boid loop of `Flock.run`.

  /** boid `i` taking its step in the flock state `ks` */
  function StepAt(ks: seq<Kin>, ps: seq<Profile>, i: int, mouse: Vec, falloff: bool, width: real, height: real): Kin
    requires |ps| == |ks| && 0 <= i < |ks|
  {
    Step(ps[i], ks[i], Positions(ks), Velocities(ks), mouse, falloff, width, height)
  }

  /** every boid has its parameters */
  predicate Fits(ks: seq<Kin>, ps: seq<Profile>)
  {
    |ps| == |ks|
  }

  /** the step of `Flock.run`'s loop body, for the loop of BoidLoop */
  function StepFn(ps: seq<Profile>, mouse: Vec, falloff: bool, width: real, height: real): (seq<Kin>, int) -> Kin
  {
    (ks: seq<Kin>, i: int) =>
      if Fits(ks, ps) && 0 <= i < |ks| then StepAt(ks, ps, i, mouse, falloff, width, height)
      else Kin(Zero, Zero, Zero)
  }

  /** the boids after the loop of `Flock.run` */
  function Sweep(ks: seq<Kin>, ps: seq<Profile>, mouse: Vec, falloff: bool, width: real, height: real): seq<Kin>
    requires |ps| == |ks|
  {
    BoidLoop.SweepUpTo(ks, StepFn(ps, mouse, falloff, width, height), |ks|)
  }

  /** after the loop every boid obeys its speed limit, has zero acceleration and is inside the wrap margin */
  lemma SweepBound(ks: seq<Kin>, ps: seq<Profile>, mouse: Vec, falloff: bool, width: real, height: real, j: nat)
    requires LengthLaw() && |ps| == |ks| && j < |ks| && Sane(ps[j].t) && width >= 0.0 && height >= 0.0
    ensures var k := Sweep(ks, ps, mouse, falloff, width, height)[j];
      Length(k.velocity) <= ps[j].t.maxSpeed && k.acceleration == Zero &&
      -ps[j].t.r <= k.position.x <= width + ps[j].t.r && -ps[j].t.r <= k.position.y <= height + ps[j].t.r
  {
    var step := StepFn(ps, mouse, falloff, width, height);
    BoidLoop.SweepStepsOnce(ks, step, |ks|, j);
    var before := BoidLoop.SweepUpTo(ks, step, j);
    assert Fits(before, ps);
    StepBound(ps[j], before[j], Positions(before), Velocities(before), mouse, falloff, width, height);
  }

  /** `cur` is the flock state after boids `0..i-1` of `ks` have taken their steps */
  ghost predicate Swept(cur: seq<Kin>, ks: seq<Kin>, ps: seq<Profile>, mouse: Vec, falloff: bool,
                        width: real, height: real, i: nat)
  {
    |ps| == |ks| && i <= |ks| && cur == BoidLoop.SweepUpTo(ks, StepFn(ps, mouse, falloff, width, height), i)
  }

  /** one turn of the loop: boid `i` takes its step and no other boid changes */
  lemma SweepNext(ks: seq<Kin>, ps: seq<Profile>, mouse: Vec, falloff: bool, width: real, height: real,
                  i: nat, before: seq<Kin>)
    requires |ps| == |ks| && i < |ks|
    requires before == BoidLoop.SweepUpTo(ks, StepFn(ps, mouse, falloff, width, height), i)
    ensures |before| == |ks|
    ensures before[i := StepAt(before, ps, i, mouse, falloff, width, height)]
            == BoidLoop.SweepUpTo(ks, StepFn(ps, mouse, falloff, width, height), i + 1)
  {
  }

  // ---------------------------------------------------------------------
  // The constructors' parameters.

  /** boid.js: every boid gets the same parameters */
  const PlainTuning: Tuning := Tuning(3.0, 3.0, 0.05, 25.0, 100.0, 100.0, 100.0)

  const PlainWeights: Weights := Weights(1.5, 1.0, 1.0, 0.2)

  /**
   * app-combined.js: the parameters from the constructor's eleven
   * `Math.random()` draws, in the order the constructor makes them (draws 1
   * and 2 go to the velocity)
   */
  function NoisyTuning(u: seq<real>): Tuning
    requires |u| == 11
  {
    Tuning(10.0, AddNoise(3.0, FNoise, u[0]), AddNoise(0.1, FNoise, u[3]),
           25.0, AddNoise(50.0, FNoise, u[4]), AddNoise(200.0, FNoise, u[5]),
           AddNoise(100.0, FNoise, u[9]))
  }

  function NoisyWeights(u: seq<real>): Weights
    requires |u| == 11
  {
    Weights(2.0, AddNoise(1.0, FNoise, u[6]), AddNoise(1.2, FNoise, u[7]), AddNoise(0.1, FNoise, u[8]))
  }

  function NoisyMass(u: seq<real>): real
    requires |u| == 11
  {
    AddNoise(1.0, FNoise, u[10])
  }

  /** every app-combined.js boid has sane parameters and a positive mass */
  lemma NoisyProfileSane(u: seq<real>)
    requires |u| == 11 && Draws(u)
    ensures Sane(NoisyTuning(u)) && NoisyMass(u) > 0.0
    ensures 3.0 * 0.65 < NoisyTuning(u).maxSpeed <= 3.0 * 1.35
    ensures 0.1 * 0.65 < NoisyTuning(u).maxForce <= 0.1 * 1.35
    ensures 0.65 < NoisyMass(u) <= 1.35
  {
    AddNoiseRange(3.0, FNoise, u[0]);
    AddNoiseRange(0.1, FNoise, u[3]);
    AddNoiseRange(1.0, FNoise, u[10]);
  }

  /** an app-combined.js boid's parameters, and its weights divided by its mass as `flock` uses them */
  function NoisyProfile(u: seq<real>): Profile
    requires |u| == 11 && Draws(u)
  {
    NoisyProfileSane(u);
    Profile(NoisyTuning(u), PerMass(NoisyWeights(u), NoisyMass(u)))
  }

  // ---------------------------------------------------------------------
  // Frames and mouse moves in any interleaving.

  /** what the flock's steps depend on between two events: the boids' states and the mouse point */
  datatype World = World(kins: seq<Kin>, mouse: Vec)

  /** the handler the event goes to: a frame sweeps the boids, a mouse move replaces the point */
  function Handle(w: World, ps: seq<Profile>, falloff: bool, e: BoidLoop.Event, width: real, height: real): (r: World)
    requires |w.kins| == |ps|
    ensures |r.kins| == |ps|
  {
    match e
    case OnFrame => w.(kins := Sweep(w.kins, ps, w.mouse, falloff, width, height))
    case OnMouseMove(p) => w.(mouse := p)
  }

  /** the flock after the browser has delivered `events`, in order */
  function Replay(w: World, ps: seq<Profile>, falloff: bool, events: seq<BoidLoop.Event>, width: real, height: real): (r: World)
    requires |w.kins| == |ps|
    ensures |r.kins| == |ps|
    decreases |events|
  {
    if events == [] then w
    else Replay(Handle(w, ps, falloff, events[0], width, height), ps, falloff, events[1..], width, height)
  }

  /** delivering `e1` and then `e2` is delivering `e1 + e2` */
  lemma {:induction false} ReplayAppend(w: World, ps: seq<Profile>, falloff: bool,
                                        e1: seq<BoidLoop.Event>, e2: seq<BoidLoop.Event>, width: real, height: real)
    requires |w.kins| == |ps|
    ensures Replay(w, ps, falloff, e1 + e2, width, height)
            == Replay(Replay(w, ps, falloff, e1, width, height), ps, falloff, e2, width, height)
    decreases |e1|
  {
    if e1 == [] {
      assert e1 + e2 == e2;
    } else {
      assert (e1 + e2)[0] == e1[0] && (e1 + e2)[1..] == e1[1..] + e2;
      ReplayAppend(Handle(w, ps, falloff, e1[0], width, height), ps, falloff, e1[1..], e2, width, height);
    }
  }

  /** the flock steers away from the last point the mouse moved to */
  lemma {:induction false} ReplayMouse(w: World, ps: seq<Profile>, falloff: bool, events: seq<BoidLoop.Event>,
                                       width: real, height: real)
    requires |w.kins| == |ps|
    ensures Replay(w, ps, falloff, events, width, height).mouse == BoidLoop.LastMouse(w.mouse, events)
    decreases |events|
  {
    if events != [] {
      var n := |events| - 1;
      assert events[..n] + [events[n]] == events;
      ReplayAppend(w, ps, falloff, events[..n], [events[n]], width, height);
      ReplayMouse(w, ps, falloff, events[..n], width, height);
    }
  }

  /**
   * whatever mouse moves came before, after a frame every boid is within its
   * speed limit, has zero acceleration and is inside the wrap margin
   */
  lemma ReplayBound(w: World, ps: seq<Profile>, falloff: bool, events: seq<BoidLoop.Event>,
                    width: real, height: real, j: nat)
    requires LengthLaw() && |w.kins| == |ps| && j < |ps| && Sane(ps[j].t) && width >= 0.0 && height >= 0.0
    requires events != [] && events[|events| - 1] == BoidLoop.OnFrame
    ensures var k := Replay(w, ps, falloff, events, width, height).kins[j];
      Length(k.velocity) <= ps[j].t.maxSpeed && k.acceleration == Zero &&
      -ps[j].t.r <= k.position.x <= width + ps[j].t.r && -ps[j].t.r <= k.position.y <= height + ps[j].t.r
  {
    var n := |events| - 1;
    assert events[..n] + [events[n]] == events;
    ReplayAppend(w, ps, falloff, events[..n], [events[n]], width, height);
    var before := Replay(w, ps, falloff, events[..n], width, height);
    SweepBound(before.kins, ps, before.mouse, falloff, width, height, j);
  }
}
