/**
 * The single-pass snapshots, flocking-combined.js and flocking-min.js, as
 * objects: a `Boid` whose `run` is `flock` (named `flockStep` in
 * flocking-min.js), `update` and `borders`, a `Flock` that rebuilds the
 * table of distances between all boids and then runs every boid in index
 * order, and `startPaper`, which puts 80 boids on the perimeter of the view.
 * The two files hold the same code; every method here is proved against the
 * functions of SinglePass.
 */
module Flocking {
  import opened Vectors
  import opened DistanceTable
  import opened Steering
  import SinglePass
  import BoidLoop
  import Perimeter

  class Boid {
    const id: int
    const r: real
    const maxSpeed: real
    const maxForce: real
    const desiredSeparation: real
    const alignmentNeighborDist: real
    const cohesionNeighborDist: real
    const separationWeight: real
    const alignmentWeight: real
    const cohesionWeight: real
    const avoidWeight: real
    const avoidDistance: real
    const mass: real
    var position: Vec
    var velocity: Vec
    var acceleration: Vec

    /** the boid's parameters, fixed by the constructor */
    function Profile(): SinglePass.Profile
    {
      SinglePass.Profile(id,
        Tuning(r, maxSpeed, maxForce, desiredSeparation, alignmentNeighborDist, cohesionNeighborDist, avoidDistance),
        Weights(separationWeight, alignmentWeight, cohesionWeight, avoidWeight), mass)
    }

    function State(): Kin
      reads this
    {
      Kin(position, velocity, acceleration)
    }

    ghost predicate Valid()
    {
      SinglePass.SaneProfile(Profile())
    }

    /** `new Boid(id, x, y)`, with the constructor's eleven random draws given as `u` */
    constructor (id: int, x: real, y: real, u: seq<real>)
      requires |u| == 11 && Draws(u)
      ensures Profile() == SinglePass.Profile(id, SinglePass.NewTuning(u), SinglePass.NewWeights(u), SinglePass.NewMass(u))
      ensures State() == Kin(Vec(x, y), StartVelocity(maxSpeed, u[1], u[2]), Zero)
      ensures Valid()
    {
      position := Vec(x, y);
      acceleration := Zero;
      this.id := id;
      var fnoise := FNoise;
      r := 10.0;
      var speed := AddNoise(1.6, fnoise, u[0]);
      maxSpeed := speed;
      var startVelocity := 0.25;
      velocity := Vec(startVelocity * speed * (1.0 - 2.0 * u[1]), startVelocity * speed * (1.0 - 2.0 * u[2]));
      maxForce := AddNoise(0.04, fnoise, u[3]);
      desiredSeparation := 25.0;
      alignmentNeighborDist := AddNoise(50.0, fnoise, u[4]);
      cohesionNeighborDist := AddNoise(200.0, fnoise, u[5]);
      separationWeight := 2.0;
      alignmentWeight := AddNoise(1.0, fnoise, u[6]);
      cohesionWeight := AddNoise(1.2, fnoise, u[7]);
      avoidWeight := AddNoise(0.1, fnoise, u[8]);
      avoidDistance := AddNoise(100.0, fnoise, u[9]);
      mass := AddNoise(1.0, fnoise, u[10]);
      new;
      SinglePass.NewProfileSane(id, u);
    }

    /** `run`: `flock`, `update` and `borders` (drawing is not modelled) */
    method Run(boids: seq<Boid>, currentMousePos: Vec, distances: seq<Row>, width: real, height: real)
      requires Valid() && 0 <= id < |distances|
      modifies this
      ensures State() == SinglePass.Step(Profile(), old(State()), Positions(old(Kins(boids))),
                                         Velocities(old(Kins(boids))), distances[id], currentMousePos, width, height)
    {
      Flock(boids, currentMousePos, distances);
      Update();
      Borders(width, height);
    }

    /**
     * the loop of `flock`: with `d` the entry of the boid's row for boid `i`,
     * each radius that `d` lies strictly inside adds boid `i` to that force's
     * sum and count (for separation, the unit vector away from it divided by `d`)
     */
    method Gather(boids: seq<Boid>, row: Row) returns (sepVector: Vec, sepCount: int, aliSum: Vec, aliCount: int, cohSum: Vec, cohCount: int)
      ensures sepVector == SepSum(position, Positions(Kins(boids)), row, desiredSeparation, |boids|)
      ensures sepCount == CountNear(row, desiredSeparation, |boids|)
      ensures aliSum == SumNear(Velocities(Kins(boids)), row, alignmentNeighborDist, |boids|)
      ensures aliCount == CountNear(row, alignmentNeighborDist, |boids|)
      ensures cohSum == SumNear(Positions(Kins(boids)), row, cohesionNeighborDist, |boids|)
      ensures cohCount == CountNear(row, cohesionNeighborDist, |boids|)
    {
      ghost var ps := Positions(Kins(boids));
      ghost var vs := Velocities(Kins(boids));
      sepVector, aliSum, cohSum := Zero, Zero, Zero;
      sepCount, aliCount, cohCount := 0, 0, 0;
      for i := 0 to |boids|
        invariant sepVector == SepSum(position, ps, row, desiredSeparation, i)
        invariant sepCount == CountNear(row, desiredSeparation, i)
        invariant aliSum == SumNear(vs, row, alignmentNeighborDist, i)
        invariant aliCount == CountNear(row, alignmentNeighborDist, i)
        invariant cohSum == SumNear(ps, row, cohesionNeighborDist, i)
        invariant cohCount == CountNear(row, cohesionNeighborDist, i)
      {
        // a missing entry is `undefined` in JavaScript and fails every comparison
        var known := i in row;
        var d := if known then row[i] else 0.0;
        assert boids[i].position == ps[i] && boids[i].velocity == vs[i];
        if known && d > 0.0 && d < desiredSeparation {
          var diff := Sub(position, boids[i].position);
          diff := Normalize(diff, 1.0);
          diff := Div(diff, d);
          sepVector := Add(sepVector, diff);
          sepCount := sepCount + 1;
        }
        if known && d > 0.0 && d < alignmentNeighborDist {
          aliSum := Add(aliSum, boids[i].velocity);
          aliCount := aliCount + 1;
        }
        if known && d > 0.0 && d < cohesionNeighborDist {
          cohSum := Add(cohSum, boids[i].position);
          cohCount := cohCount + 1;
        }
      }
    }

    /** separation, results: average the repulsions, then steer at full speed along them */
    method Separate(sepVector: Vec, sepCount: nat) returns (v: Vec)
      ensures sepCount > 0 ==> v == SeparationSinglePass(sepVector, sepCount, velocity, maxSpeed, maxForce)
      ensures sepCount == 0 ==> v == sepVector
    {
      v := sepVector;
      if sepCount > 0 {
        v := Div(v, sepCount as real);
        v := Normalize(v, 1.0);
        v := Scale(v, maxSpeed);
        v := Sub(v, velocity);
        if Length(v) > maxForce {
          v := Normalize(v, maxForce);
        }
      }
    }

    /** alignment, results: steer towards the average neighbour velocity scaled to maxSpeed */
    method Align(aliSum: Vec, aliCount: nat) returns (aliVector: Vec)
      ensures aliVector == AlignmentResult(aliSum, aliCount, velocity, maxSpeed, maxForce)
    {
      aliVector := Zero;
      if aliCount > 0 {
        var avg := Div(aliSum, aliCount as real);
        avg := Normalize(avg, maxSpeed);
        aliVector := Sub(avg, velocity);
        if Length(aliVector) > maxForce {
          aliVector := Normalize(aliVector, maxForce);
        }
      }
    }

    /** cohesion, results: seek the average neighbour position */
    method Cohere(cohSum: Vec, cohCount: nat) returns (cohVector: Vec)
      ensures cohVector == CohesionResult(cohSum, cohCount, position, velocity, maxSpeed, maxForce)
    {
      cohVector := Zero;
      if cohCount > 0 {
        var avg := Div(cohSum, cohCount as real);
        cohVector := Seek(avg);
      }
    }

    /**
     * avoid, results: within avoidDistance of the mouse, the unit vector from
     * the mouse's projection on the direction of `position + velocity`
     */
    method Avoid(currentMousePos: Vec) returns (avoVector: Vec)
      ensures avoVector == AvoidFalloff(position, velocity, currentMousePos, avoidDistance)
    {
      avoVector := Zero;
      var ap := Sub(currentMousePos, position);
      var apLength := Length(ap);
      if apLength < avoidDistance {
        var ab := Add(position, velocity);
        ab := Normalize(ab, 1.0);
        ab := Scale(ab, Dot(ap, ab));
        avoVector := Scale(Sub(ab, ap), 1.0 - apLength / avoidDistance);
        avoVector := Normalize(avoVector, 1.0);
      }
    }

    /** `update`: integrate the acceleration into the velocity, clamp the speed, move, reset the acceleration */
    method Update()
      modifies this
      ensures State() == Integrate(old(State()), maxSpeed)
      ensures LengthLaw() && Valid() ==> Length(velocity) <= maxSpeed
    {
      velocity := Add(velocity, acceleration);
      if Length(velocity) > maxSpeed {
        velocity := Normalize(velocity, maxSpeed);
      }
      position := Add(position, velocity);
      acceleration := Zero;
      if LengthLaw() && Valid() {
        IntegrateBound(old(State()), maxSpeed);
      }
    }

    /** `seek(target)`: the steering force towards `target`, never stronger than maxForce */
    method Seek(target: Vec) returns (steer: Vec)
      ensures steer == Steering.Seek(position, velocity, maxSpeed, maxForce, target)
      ensures LengthLaw() && Valid() ==> Length(steer) <= maxForce
    {
      var desired := Sub(target, position);
      desired := Normalize(desired, maxSpeed);
      steer := Sub(desired, velocity);
      if Length(steer) > maxForce {
        steer := Normalize(steer, maxForce);
      }
      if LengthLaw() && Valid() {
        SeekBound(position, velocity, maxSpeed, maxForce, target);
      }
    }

    /** `borders`: wrap the position to the opposite margin of the `width` by `height` view */
    method Borders(width: real, height: real)
      modifies this
      ensures position == Wrap(old(position), width, height, r)
      ensures velocity == old(velocity) && acceleration == old(acceleration)
    {
      if position.x < -r { position := position.(x := width + r); }
      if position.y < -r { position := position.(y := height + r); }
      if position.x > width + r { position := position.(x := -r); }
      if position.y > height + r { position := position.(y := -r); }
    }

    /**
     * `flock` (`flockStep` in flocking-min.js): one loop over the boid's row
     * of the distance table gathers the three neighbour sums and counts, then
     * the four forces are weighted by `weight / mass` and added to the
     * acceleration
     */
    method Flock(boids: seq<Boid>, currentMousePos: Vec, distances: seq<Row>)
      requires Valid() && 0 <= id < |distances|
      modifies this
      ensures acceleration == SinglePass.Flocked(Profile(), old(State()), Positions(old(Kins(boids))),
                                                 Velocities(old(Kins(boids))), distances[id], currentMousePos)
      ensures position == old(position) && velocity == old(velocity)
    {
      ghost var ps := Positions(Kins(boids));
      ghost var vs := Velocities(Kins(boids));
      var row := distances[id];
      var aliVector, cohVector, avoVector := Zero, Zero, Zero;
      var sepVector, sepCount, aliSum, aliCount, cohSum, cohCount := Gather(boids, row);
      var n := |boids|;

      sepVector := Separate(sepVector, sepCount);
      if sepCount == 0 {
        NoNeighbourSums(position, ps, row, desiredSeparation, n);
      }
      aliVector := Align(aliSum, aliCount);
      cohVector := Cohere(cohSum, cohCount);
      avoVector := Avoid(currentMousePos);
      assert Steering.Forces(sepVector, aliVector, cohVector, avoVector) ==
             SinglePass.Forces(Profile().t, old(State()), ps, vs, row, currentMousePos);

      sepVector := Scale(sepVector, separationWeight / mass);
      aliVector := Scale(aliVector, alignmentWeight / mass);
      cohVector := Scale(cohVector, cohesionWeight / mass);
      avoVector := Scale(avoVector, avoidWeight / mass);

      acceleration := Add(acceleration, sepVector);
      acceleration := Add(acceleration, aliVector);
      acceleration := Add(acceleration, cohVector);
      acceleration := Add(acceleration, avoVector);
    }
  }

  /** the states of a sequence of boids */
  function Kins(bs: seq<Boid>): (ks: seq<Kin>)
    reads bs
    ensures |ks| == |bs| && forall i | 0 <= i < |bs| :: ks[i] == bs[i].State()
  {
    seq(|bs|, i reads bs requires 0 <= i < |bs| => bs[i].State())
  }

  /** the parameters of a sequence of boids */
  function Profiles(bs: seq<Boid>): (ps: seq<SinglePass.Profile>)
    ensures |ps| == |bs| && forall i | 0 <= i < |bs| :: ps[i] == bs[i].Profile()
  {
    seq(|bs|, i requires 0 <= i < |bs| => bs[i].Profile())
  }

  class Flock {
    var boids: seq<Boid>
    var l: int
    var currentMousePos: Vec
    var distances: seq<Row>
    /** where each boid sits in `boids`, which shows that no boid is there twice */
    ghost var slot: map<Boid, int>

    /**
     * `l` counts the boids, no boid is in the flock twice, every boid has
     * sane parameters, and the table has no more rows than there are boids
     */
    ghost predicate Valid()
      reads this
    {
      l == |boids| && |distances| <= l &&
      (forall i | 0 <= i < |boids| :: boids[i] in slot && slot[boids[i]] == i) &&
      (forall i | 0 <= i < |boids| :: boids[i].Valid())
    }

    constructor ()
      ensures boids == [] && l == 0 && currentMousePos == Zero && distances == []
      ensures Valid()
    {
      boids := [];
      slot := map[];
      l := 0;
      currentMousePos := Zero;
      distances := [];
    }

    method AddBoid(newBoid: Boid)
      requires Valid() && newBoid.Valid() && newBoid !in boids
      modifies this
      ensures boids == old(boids) + [newBoid] && l == old(l) + 1
      ensures currentMousePos == old(currentMousePos) && distances == old(distances)
      ensures Valid()
    {
      l := l + 1;
      slot := slot[newBoid := |boids|];
      boids := boids + [newBoid];
    }

    /**
     * `run`: rebuild the table of distances between the current positions,
     * then move the boids
     */
    method Run(width: real, height: real)
      requires Valid() && forall i | 0 <= i < |boids| :: 0 <= boids[i].id < l
      modifies this, boids
      ensures boids == old(boids) && l == old(l) && currentMousePos == old(currentMousePos)
      ensures distances == Table(old(distances), Positions(old(Kins(boids))), false)
      ensures Kins(boids) == SinglePass.Sweep(old(Kins(boids)), Profiles(boids), distances, currentMousePos, width, height)
      ensures Valid()
    {
      distances := Rebuild(distances, Positions(Kins(boids)), false);
      MoveBoids(width, height);
    }

    /**
     * the second loop of `run`: boid `0`, `1`, ..., `l - 1` takes its step in
     * turn, each seeing the boids before it already moved
     */
    method MoveBoids(width: real, height: real)
      requires Valid() && forall i | 0 <= i < |boids| :: 0 <= boids[i].id < |distances|
      modifies boids
      ensures Kins(boids) == SinglePass.Sweep(old(Kins(boids)), Profiles(boids), distances, currentMousePos, width, height)
    {
      var bs, table, mouse := boids, distances, currentMousePos;
      ghost var ks := Kins(bs);
      ghost var ps := Profiles(bs);
      ProfilesFit(bs, table);
      for i := 0 to |bs|
        invariant SinglePass.Swept(Kins(bs), ks, ps, table, mouse, width, height, i)
      {
        StepBoid(bs, slot, table, mouse, width, height, i, ks);
      }
    }

    /** one turn of the second loop of `run`: boid `i` runs, and no other boid changes */
    static method StepBoid(bs: seq<Boid>, ghost at: map<Boid, int>, table: seq<Row>, mouse: Vec,
                           width: real, height: real, i: nat, ghost ks: seq<Kin>)
      requires i < |bs| && bs[i].Valid() && forall j | 0 <= j < |bs| :: bs[j] in at && at[bs[j]] == j
      requires SinglePass.Swept(Kins(bs), ks, Profiles(bs), table, mouse, width, height, i)
      modifies bs[i]
      ensures SinglePass.Swept(Kins(bs), ks, Profiles(bs), table, mouse, width, height, i + 1)
    {
      var b := bs[i];
      ghost var before := Kins(bs);
      ghost var ps := Profiles(bs);
      assert SinglePass.Fits(ks, ps, table);
      SinglePass.SweepNext(ks, ps, table, mouse, width, height, i, before);
      assert forall j | 0 <= j < |bs| && j != i :: bs[j] != b by {
        forall j | 0 <= j < |bs| && j != i
          ensures bs[j] != b
        {
          assert at[bs[j]] == j && at[b] == i;
        }
      }
      b.Run(bs, mouse, table, width, height);
      assert forall j | 0 <= j < |bs| :: Kins(bs)[j] == before[i := SinglePass.StepAt(before, ps, table, i, mouse, width, height)][j];
    }

    /** boids with sane parameters and rows in the table are what the loop of `run` works on */
    static lemma ProfilesFit(bs: seq<Boid>, table: seq<Row>)
      requires forall i | 0 <= i < |bs| :: bs[i].Valid() && 0 <= bs[i].id < |table|
      ensures SinglePass.Fits(Kins(bs), Profiles(bs), table)
    {
    }

    method UpdateMouse(mousePos: Vec)
      modifies this
      ensures currentMousePos == mousePos
      ensures boids == old(boids) && l == old(l) && distances == old(distances) && slot == old(slot)
      ensures old(Valid()) ==> Valid()
    {
      currentMousePos := mousePos;
    }

    /** the state the handlers work on: the boids' states, the table and the mouse point */
    ghost function World(): SinglePass.World
      reads this, boids
    {
      SinglePass.World(Kins(boids), distances, currentMousePos)
    }

    /** boids with sane parameters and ids below `l` are what every frame needs */
    static lemma ProfilesRunnable(bs: seq<Boid>)
      requires forall i | 0 <= i < |bs| :: bs[i].Valid() && 0 <= bs[i].id < |bs|
      ensures SinglePass.Runnable(Profiles(bs))
    {
    }
  }

  /** `view.onFrame` and `view.onMouseMove` as `startPaper` installs them */
  method OnEvent(flock: Flock, e: BoidLoop.Event, width: real, height: real)
    requires flock.Valid() && forall i | 0 <= i < |flock.boids| :: 0 <= flock.boids[i].id < flock.l
    modifies flock, flock.boids
    ensures flock.Valid() && flock.boids == old(flock.boids)
    ensures SinglePass.Runnable(Profiles(flock.boids))
    ensures flock.World() == SinglePass.Handle(old(flock.World()), Profiles(flock.boids), e, width, height)
  {
    Flock.ProfilesRunnable(flock.boids);
    match e
    case OnFrame =>
      flock.Run(width, height);
    case OnMouseMove(p) =>
      flock.UpdateMouse(p);
  }

  /**
   * the browser delivering `events` to the handlers one after another:
   * frames and mouse moves may come in any order
   */
  method Animate(flock: Flock, events: seq<BoidLoop.Event>, width: real, height: real)
    requires flock.Valid() && forall i | 0 <= i < |flock.boids| :: 0 <= flock.boids[i].id < flock.l
    modifies flock, flock.boids
    ensures flock.Valid() && flock.boids == old(flock.boids)
    ensures SinglePass.Runnable(Profiles(flock.boids))
    ensures flock.World() == SinglePass.Replay(old(flock.World()), Profiles(flock.boids), events, width, height)
  {
    Flock.ProfilesRunnable(flock.boids);
    ghost var ps := Profiles(flock.boids);
    ghost var start := flock.World();
    for n := 0 to |events|
      invariant flock.Valid() && flock.boids == old(flock.boids)
      invariant forall i | 0 <= i < |flock.boids| :: 0 <= flock.boids[i].id < flock.l
      invariant SinglePass.Replay(start, ps, events, width, height)
                == SinglePass.Replay(flock.World(), ps, events[n..], width, height)
    {
      assert events[n..][1..] == events[n + 1..];
      OnEvent(flock, events[n], width, height);
    }
  }

  /** the number of boids `startPaper` creates */
  const NrBoids: nat := 80

  /** the off-screen margin of the start positions */
  const Frame: real := 5.0

  /**
   * `startPaper` without the canvas and the event wiring: boid `i` gets id
   * `i` and a point on the perimeter of the view enlarged by `Frame`, picked
   * by the random number `rs[i]`; `us[i]` are its constructor's draws
   */
  method StartPaper(width: real, height: real, rs: seq<real>, us: seq<seq<real>>) returns (flock: Flock)
    requires |rs| == NrBoids && |us| == NrBoids
    requires forall i | 0 <= i < NrBoids :: |us[i]| == 11 && Draws(us[i])
    ensures fresh(flock) && flock.Valid()
    ensures flock.l == NrBoids && flock.distances == [] && flock.currentMousePos == Zero
    ensures forall i | 0 <= i < NrBoids :: flock.boids[i].id == i
    ensures forall i | 0 <= i < NrBoids ::
      flock.boids[i].position == Perimeter.PerimeterPoint(width, height, Frame, rs[i]) &&
      flock.boids[i].Profile() == SinglePass.Profile(i, SinglePass.NewTuning(us[i]), SinglePass.NewWeights(us[i]), SinglePass.NewMass(us[i]))
  {
    flock := new Flock();
    for i := 0 to NrBoids
      invariant fresh(flock) && flock.Valid()
      invariant flock.l == i && flock.distances == [] && flock.currentMousePos == Zero
      invariant forall j | 0 <= j < i :: flock.boids[j].id == j
      invariant forall j | 0 <= j < i ::
        flock.boids[j].position == Perimeter.PerimeterPoint(width, height, Frame, rs[j]) &&
        flock.boids[j].Profile() == SinglePass.Profile(j, SinglePass.NewTuning(us[j]), SinglePass.NewWeights(us[j]), SinglePass.NewMass(us[j]))
    {
      var p := Perimeter.PerimeterPoint(width, height, Frame, rs[i]);
      var b := new Boid(i, p.x, p.y, us[i]);
      flock.AddBoid(b);
    }
  }
}
