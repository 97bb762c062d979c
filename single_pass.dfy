/**
 * The specification of one frame in the single-pass snapshots
 * (flocking-combined.js and flocking-min.js, whose `flock` / `flockStep` are
 * the same code): one loop over the boid's row of the distance table
 * collects the separation, alignment and cohesion sums, the results are
 * weighted by `weight / mass` and added to the acceleration, then the boid
 * moves and wraps around the borders.  `Flock.run` steps the boids in index
 * order, each one seeing the boids before it already moved.
 */
module SinglePass {
  import opened Vectors
  import opened DistanceTable
  import opened Steering
  import BoidLoop

  /** what `flock` needs to know about a boid besides its state: its row, its parameters and weights */
  datatype Profile = Profile(id: int, t: Tuning, w: Weights, mass: real)

  predicate SaneProfile(p: Profile)
  {
    Sane(p.t) && p.mass > 0.0
  }

  /**
   * The constructor's parameters from its eleven `Math.random()` draws, in
   * the order the constructor makes them (draws 1 and 2 go to the velocity).
   */
  function NewTuning(u: seq<real>): Tuning
    requires |u| == 11
  {
    Tuning(10.0, AddNoise(1.6, FNoise, u[0]), AddNoise(0.04, FNoise, u[3]),
           25.0, AddNoise(50.0, FNoise, u[4]), AddNoise(200.0, FNoise, u[5]),
           AddNoise(100.0, FNoise, u[9]))
  }

  function NewWeights(u: seq<real>): Weights
    requires |u| == 11
  {
    Weights(2.0, AddNoise(1.0, FNoise, u[6]), AddNoise(1.2, FNoise, u[7]), AddNoise(0.1, FNoise, u[8]))
  }

  function NewMass(u: seq<real>): real
    requires |u| == 11
  {
    AddNoise(1.0, FNoise, u[10])
  }

  /** every boid the constructor makes has sane parameters and a positive mass */
  lemma NewProfileSane(id: int, u: seq<real>)
    requires |u| == 11 && Draws(u)
    ensures SaneProfile(Profile(id, NewTuning(u), NewWeights(u), NewMass(u)))
    ensures 1.6 * 0.65 < NewTuning(u).maxSpeed <= 1.6 * 1.35
    ensures 0.65 < NewMass(u) <= 1.35
  {
    AddNoiseRange(1.6, FNoise, u[0]);
    AddNoisePositive(0.04, FNoise, u[3]);
    AddNoiseRange(1.0, FNoise, u[10]);
  }

  /** the four forces `flock` computes from the boid's row of the table */
  function Forces(t: Tuning, me: Kin, ps: seq<Vec>, vs: seq<Vec>, row: Row, mouse: Vec): Steering.Forces
    requires |ps| == |vs|
  {
    var n := |ps|;
    var sep := SeparationSinglePass(SepSum(me.position, ps, row, t.desiredSeparation, n),
                                    CountNear(row, t.desiredSeparation, n), me.velocity, t.maxSpeed, t.maxForce);
    var ali := AlignmentResult(SumNear(vs, row, t.alignmentDist, n),
                               CountNear(row, t.alignmentDist, n), me.velocity, t.maxSpeed, t.maxForce);
    var coh := CohesionResult(SumNear(ps, row, t.cohesionDist, n),
                              CountNear(row, t.cohesionDist, n), me.position, me.velocity, t.maxSpeed, t.maxForce);
    var avo := AvoidFalloff(me.position, me.velocity, mouse, t.avoidDistance);
    Steering.Forces(sep, ali, coh, avo)
  }

  /** the acceleration after `flock`: each force times `weight / mass` added in turn */
  function Flocked(p: Profile, me: Kin, ps: seq<Vec>, vs: seq<Vec>, row: Row, mouse: Vec): Vec
    requires |ps| == |vs| && p.mass != 0.0
  {
    Accumulate(me.acceleration, Forces(p.t, me, ps, vs, row, mouse), PerMass(p.w, p.mass))
  }

  /** `run` of one boid: `flock`, `update`, `borders` */
  function Step(p: Profile, me: Kin, ps: seq<Vec>, vs: seq<Vec>, row: Row, mouse: Vec, width: real, height: real): Kin
    requires |ps| == |vs| && p.mass != 0.0
  {
    var k := Integrate(me.(acceleration := Flocked(p, me, ps, vs, row, mouse)), p.t.maxSpeed);
    k.(position := Wrap(k.position, width, height, p.t.r))
  }

  /** the separation, alignment and cohesion forces are bounded by maxForce, and avoidance is a unit vector or zero */
  lemma ForcesBound(t: Tuning, me: Kin, ps: seq<Vec>, vs: seq<Vec>, row: Row, mouse: Vec)
    requires LengthLaw() && Sane(t) && |ps| == |vs|
    ensures Length(Forces(t, me, ps, vs, row, mouse).sep) <= t.maxForce
    ensures Length(Forces(t, me, ps, vs, row, mouse).ali) <= t.maxForce
    ensures Length(Forces(t, me, ps, vs, row, mouse).coh) <= t.maxForce
    ensures Length(Forces(t, me, ps, vs, row, mouse).avo) <= 1.0
  {
    var n := |ps|;
    ResultsBound(SepSum(me.position, ps, row, t.desiredSeparation, n), CountNear(row, t.desiredSeparation, n),
                 me.position, me.velocity, t.maxSpeed, t.maxForce);
    ResultsBound(SumNear(vs, row, t.alignmentDist, n), CountNear(row, t.alignmentDist, n),
                 me.position, me.velocity, t.maxSpeed, t.maxForce);
    ResultsBound(SumNear(ps, row, t.cohesionDist, n), CountNear(row, t.cohesionDist, n),
                 me.position, me.velocity, t.maxSpeed, t.maxForce);
    FalloffCancels(me.position, me.velocity, mouse, t.avoidDistance);
    AvoidBound(me.position, me.velocity, mouse, t.avoidDistance);
  }

  /** with no neighbour in any radius and the mouse out of range, `flock` leaves the acceleration as it was */
  lemma NoInfluence(p: Profile, me: Kin, ps: seq<Vec>, vs: seq<Vec>, row: Row, mouse: Vec)
    requires |ps| == |vs| && p.mass != 0.0
    requires CountNear(row, p.t.desiredSeparation, |ps|) == 0
    requires CountNear(row, p.t.alignmentDist, |ps|) == 0
    requires CountNear(row, p.t.cohesionDist, |ps|) == 0
    requires Length(Sub(mouse, me.position)) >= p.t.avoidDistance
    ensures Flocked(p, me, ps, vs, row, mouse) == me.acceleration
  {
    assert Forces(p.t, me, ps, vs, row, mouse) == Steering.Forces(Zero, Zero, Zero, Zero);
    AccumulateSum(me.acceleration, Forces(p.t, me, ps, vs, row, mouse), PerMass(p.w, p.mass));
  }

  /** after its step a boid is within its speed limit, has no acceleration and lies inside the wrap margin */
  lemma StepBound(p: Profile, me: Kin, ps: seq<Vec>, vs: seq<Vec>, row: Row, mouse: Vec, width: real, height: real)
    requires LengthLaw() && SaneProfile(p) && |ps| == |vs| && width >= 0.0 && height >= 0.0
    ensures var k := Step(p, me, ps, vs, row, mouse, width, height);
      Length(k.velocity) <= p.t.maxSpeed && k.acceleration == Zero &&
      -p.t.r <= k.position.x <= width + p.t.r && -p.t.r <= k.position.y <= height + p.t.r
  {
    IntegrateBound(me.(acceleration := Flocked(p, me, ps, vs, row, mouse)), p.t.maxSpeed);
  }

  // ---------------------------------------------------------------------
  // The boid loop of `Flock.run`.

  predicate Fits(ks: seq<Kin>, ps: seq<Profile>, table: seq<Row>)
  {
    |ps| == |ks| && forall i | 0 <= i < |ps| :: 0 <= ps[i].id < |table| && ps[i].mass != 0.0
  }

  /** boid `i` taking its step in the flock state `ks`, with its own row of the table */
  function StepAt(ks: seq<Kin>, ps: seq<Profile>, table: seq<Row>, i: int, mouse: Vec, width: real, height: real): Kin
    requires Fits(ks, ps, table) && 0 <= i < |ks|
  {
    Step(ps[i], ks[i], Positions(ks), Velocities(ks), table[ps[i].id], mouse, width, height)
  }

  /** the step of `Flock.run`'s loop body, for the loop of BoidLoop */
  function StepFn(ps: seq<Profile>, table: seq<Row>, mouse: Vec, width: real, height: real): (seq<Kin>, int) -> Kin
  {
    (ks: seq<Kin>, i: int) =>
      if Fits(ks, ps, table) && 0 <= i < |ks| then StepAt(ks, ps, table, i, mouse, width, height)
      else Kin(Zero, Zero, Zero)
  }

  /** the boids after the loop of `Flock.run` */
  function Sweep(ks: seq<Kin>, ps: seq<Profile>, table: seq<Row>, mouse: Vec, width: real, height: real): seq<Kin>
    requires Fits(ks, ps, table)
  {
    BoidLoop.SweepUpTo(ks, StepFn(ps, table, mouse, width, height), |ks|)
  }

  /** `cur` is the flock state after boids `0..i-1` of `ks` have taken their steps */
  ghost predicate Swept(cur: seq<Kin>, ks: seq<Kin>, ps: seq<Profile>, table: seq<Row>, mouse: Vec, width: real, height: real, i: nat)
  {
    Fits(ks, ps, table) && i <= |ks| && cur == BoidLoop.SweepUpTo(ks, StepFn(ps, table, mouse, width, height), i)
  }

  /** one turn of the loop: boid `i` takes its step and no other boid changes */
  lemma SweepNext(ks: seq<Kin>, ps: seq<Profile>, table: seq<Row>, mouse: Vec, width: real, height: real,
                  i: nat, before: seq<Kin>)
    requires Fits(ks, ps, table) && i < |ks|
    requires before == BoidLoop.SweepUpTo(ks, StepFn(ps, table, mouse, width, height), i)
    ensures Fits(before, ps, table)
    ensures before[i := StepAt(before, ps, table, i, mouse, width, height)]
            == BoidLoop.SweepUpTo(ks, StepFn(ps, table, mouse, width, height), i + 1)
  {
  }

  /** after the loop every boid obeys its speed limit, has zero acceleration and is inside the wrap margin */
  lemma SweepBound(ks: seq<Kin>, ps: seq<Profile>, table: seq<Row>, mouse: Vec, width: real, height: real, j: nat)
    requires LengthLaw() && Fits(ks, ps, table) && j < |ks| && SaneProfile(ps[j]) && width >= 0.0 && height >= 0.0
    ensures var k := Sweep(ks, ps, table, mouse, width, height)[j];
      Length(k.velocity) <= ps[j].t.maxSpeed && k.acceleration == Zero &&
      -ps[j].t.r <= k.position.x <= width + ps[j].t.r && -ps[j].t.r <= k.position.y <= height + ps[j].t.r
  {
    var step := StepFn(ps, table, mouse, width, height);
    BoidLoop.SweepStepsOnce(ks, step, |ks|, j);
    var before := BoidLoop.SweepUpTo(ks, step, j);
    assert Fits(before, ps, table);
    StepBound(ps[j], before[j], Positions(before), Velocities(before), table[ps[j].id], mouse, width, height);
  }

  /**
   * the single loop of `flock` gathers exactly what three separate loops over
   * freshly computed distances would, when the boid's row holds the distances
   * from its position to every boid
   */
  lemma SinglePassMatchesDistances(me: Kin, ps: seq<Vec>, vs: seq<Vec>, row: Row, radius: real)
    requires |ps| == |vs|
    requires forall j | 0 <= j < |ps| :: j in row && row[j] == Distance(me.position, ps[j])
    ensures var d := DistancesFrom(me.position, ps);
      CountNear(row, radius, |ps|) == CountNear(d, radius, |ps|) &&
      SepSum(me.position, ps, row, radius, |ps|) == SepSum(me.position, ps, d, radius, |ps|) &&
      SumNear(vs, row, radius, |ps|) == SumNear(vs, d, radius, |ps|) &&
      SumNear(ps, row, radius, |ps|) == SumNear(ps, d, radius, |ps|)
  {
    var d := DistancesFrom(me.position, ps);
    SumsAgree(me.position, ps, row, d, radius, |ps|);
    SumsAgree(me.position, vs, row, d, radius, |ps|);
  }

  // ---------------------------------------------------------------------
  // Frames and mouse moves in any interleaving.

  /** what the flock holds between two events: the boids' states, the table and the mouse point */
  datatype World = World(kins: seq<Kin>, table: seq<Row>, mouse: Vec)

  /** every id names a boid and no mass is 0, which is what each frame's loop needs */
  predicate Runnable(ps: seq<Profile>)
  {
    forall i | 0 <= i < |ps| :: 0 <= ps[i].id < |ps| && ps[i].mass != 0.0
  }

  /** one `Flock.run`: the table is rebuilt from the positions the frame starts with, then the boids sweep over it */
  function RunFrame(w: World, ps: seq<Profile>, width: real, height: real): (r: World)
    requires |w.kins| == |ps| && Runnable(ps)
    ensures |r.kins| == |ps| && r.mouse == w.mouse
  {
    TableCovers(w.table, Positions(w.kins), false);
    var table := Table(w.table, Positions(w.kins), false);
    World(Sweep(w.kins, ps, table, w.mouse, width, height), table, w.mouse)
  }

  /** the handler the event goes to */
  function Handle(w: World, ps: seq<Profile>, e: BoidLoop.Event, width: real, height: real): (r: World)
    requires |w.kins| == |ps| && Runnable(ps)
    ensures |r.kins| == |ps|
  {
    match e
    case OnFrame => RunFrame(w, ps, width, height)
    case OnMouseMove(p) => w.(mouse := p)
  }

  /** the flock after the browser has delivered `events`, in order */
  function Replay(w: World, ps: seq<Profile>, events: seq<BoidLoop.Event>, width: real, height: real): (r: World)
    requires |w.kins| == |ps| && Runnable(ps)
    ensures |r.kins| == |ps|
    decreases |events|
  {
    if events == [] then w
    else Replay(Handle(w, ps, events[0], width, height), ps, events[1..], width, height)
  }

  /** delivering `e1` and then `e2` is delivering `e1 + e2` */
  lemma {:induction false} ReplayAppend(w: World, ps: seq<Profile>, e1: seq<BoidLoop.Event>, e2: seq<BoidLoop.Event>,
                                        width: real, height: real)
    requires |w.kins| == |ps| && Runnable(ps)
    ensures Replay(w, ps, e1 + e2, width, height) == Replay(Replay(w, ps, e1, width, height), ps, e2, width, height)
    decreases |e1|
  {
    if e1 == [] {
      assert e1 + e2 == e2;
    } else {
      assert (e1 + e2)[0] == e1[0] && (e1 + e2)[1..] == e1[1..] + e2;
      ReplayAppend(Handle(w, ps, e1[0], width, height), ps, e1[1..], e2, width, height);
    }
  }

  /** the flock steers away from the last point the mouse moved to */
  lemma {:induction false} ReplayMouse(w: World, ps: seq<Profile>, events: seq<BoidLoop.Event>, width: real, height: real)
    requires |w.kins| == |ps| && Runnable(ps)
    ensures Replay(w, ps, events, width, height).mouse == BoidLoop.LastMouse(w.mouse, events)
    decreases |events|
  {
    if events != [] {
      var n := |events| - 1;
      assert events[..n] + [events[n]] == events;
      ReplayAppend(w, ps, events[..n], [events[n]], width, height);
      ReplayMouse(w, ps, events[..n], width, height);
    }
  }

  /**
   * whatever mouse moves came before, after a frame every boid is within its
   * speed limit, has zero acceleration and is inside the wrap margin
   */
  lemma ReplayBound(w: World, ps: seq<Profile>, events: seq<BoidLoop.Event>, width: real, height: real, j: nat)
    requires LengthLaw() && |w.kins| == |ps| && Runnable(ps) && j < |ps| && SaneProfile(ps[j])
    requires width >= 0.0 && height >= 0.0
    requires events != [] && events[|events| - 1] == BoidLoop.OnFrame
    ensures var k := Replay(w, ps, events, width, height).kins[j];
      Length(k.velocity) <= ps[j].t.maxSpeed && k.acceleration == Zero &&
      -ps[j].t.r <= k.position.x <= width + ps[j].t.r && -ps[j].t.r <= k.position.y <= height + ps[j].t.r
  {
    var n := |events| - 1;
    assert events[..n] + [events[n]] == events;
    ReplayAppend(w, ps, events[..n], [events[n]], width, height);
    var before := Replay(w, ps, events[..n], width, height);
    TableCovers(before.table, Positions(before.kins), false);
    SweepBound(before.kins, ps, Table(before.table, Positions(before.kins), false), before.mouse, width, height, j);
  }
}
