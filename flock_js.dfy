/**
 * The `Flock` of flock.js, which drives the boids of boid.js: `run`
 * rebuilds the table of squared distances between all boids on every
 * `frameSkip`-th frame only, runs every boid in index order, counts the
 * frame and wraps its performance counter after `framesPerMeasurement`
 * frames.  The boids of boid.js take the table as an argument they never
 * read, so the table has no effect on the flock.
 */
module FlockJs {
  import opened Vectors
  import opened DistanceTable
  import opened Steering
  import FourLoop
  import BoidLoop
  import opened BoidJs

  // ---------------------------------------------------------------------
  // The frame schedule.

  /** Euclidean division is determined by its quotient and remainder */
  lemma DivModOf(a: int, s: int, q: int, rr: int)
    requires s > 0 && 0 <= rr < s && a == q * s + rr
    ensures a / s == q && a % s == rr
  {
    var q', r' := a / s, a % s;
    if q' > q {
      MulAtLeast(q' - q, s);
      assert false;
    } else if q' < q {
      MulAtLeast(q - q', s);
      assert false;
    }
  }

  lemma MulAtLeast(d: int, s: int)
    requires d >= 1 && s > 0
    ensures d * s >= s
  {
  }

  /** `run` rebuilds the table on frame `frame` */
  predicate RebuildDue(frame: int, frameSkip: int)
    requires frameSkip > 0
  {
    frame % frameSkip == 0
  }

  /** the number of frames among `0..k-1` on which `run` rebuilds the table */
  function RebuildsBefore(k: nat, frameSkip: int): nat
    requires frameSkip > 0
  {
    if k == 0 then 0
    else RebuildsBefore(k - 1, frameSkip) + (if RebuildDue(k - 1, frameSkip) then 1 else 0)
  }

  /** frames `0, frameSkip, 2 frameSkip, ...` rebuild: `k` frames rebuild `ceil(k / frameSkip)` times */
  lemma {:induction false} RebuildCount(k: nat, frameSkip: int)
    requires frameSkip > 0
    ensures RebuildsBefore(k, frameSkip) == (k + frameSkip - 1) / frameSkip
  {
    if k > 0 {
      RebuildCount(k - 1, frameSkip);
      var m := k - 1;
      var q, rr := m / frameSkip, m % frameSkip;
      DivModOf(m, frameSkip, q, rr);
      DivModOf(m + frameSkip, frameSkip, q + 1, rr);
      if rr == 0 {
        DivModOf(m + frameSkip - 1, frameSkip, q, frameSkip - 1);
      } else {
        DivModOf(m + frameSkip - 1, frameSkip, q + 1, rr - 1);
      }
    }
  }

  /**
   * the table frame `f` uses was rebuilt on frame `f - f % frameSkip`, fewer
   * than `frameSkip` frames earlier, and no frame in between rebuilt it
   */
  lemma LastRebuild(f: nat, frameSkip: int)
    requires frameSkip > 0
    ensures RebuildDue(f - f % frameSkip, frameSkip) && 0 <= f % frameSkip < frameSkip
    ensures forall g | f - f % frameSkip < g <= f :: !RebuildDue(g, frameSkip)
  {
    var q := f / frameSkip;
    DivModOf(f - f % frameSkip, frameSkip, q, 0);
    forall g | f - f % frameSkip < g <= f
      ensures !RebuildDue(g, frameSkip)
    {
      DivModOf(g, frameSkip, q, g - q * frameSkip);
    }
  }

  /** `performanceCounter++`, back to 0 once it reaches `framesPerMeasurement` */
  function NextCount(c: int, period: int): int
  {
    if c + 1 == period then 0 else c + 1
  }

  /** the counter stays in `[0, period)`: it counts frames modulo the period */
  lemma CounterWraps(c: int, period: int)
    requires 0 <= c < period
    ensures 0 <= NextCount(c, period) < period
    ensures NextCount(c, period) == (c + 1) % period
  {
    if c + 1 == period {
      DivModOf(c + 1, period, 1, 0);
    } else {
      DivModOf(c + 1, period, 0, c + 1);
    }
  }

  /** the performance counter after `k` frames, starting from 0 */
  function CountAfter(k: nat, period: int): int
  {
    if k == 0 then 0 else NextCount(CountAfter(k - 1, period), period)
  }

  /** after `k` frames the counter is `k % period`: it wraps exactly on the multiples of the period */
  lemma {:induction false} CountAfterIsMod(k: nat, period: int)
    requires period > 0
    ensures CountAfter(k, period) == k % period
  {
    if k > 0 {
      CountAfterIsMod(k - 1, period);
      var q, rr := (k - 1) / period, (k - 1) % period;
      CounterWraps(rr, period);
      if rr + 1 == period {
        DivModOf(k, period, q + 1, 0);
      } else {
        DivModOf(k, period, q, rr + 1);
      }
    }
  }

  // ---------------------------------------------------------------------
  // The flock.

  class Flock {
    var boids: seq<Boid>
    var l: int
    var currentMousePos: Vec
    var distances: seq<Row>
    var frameCounter: int
    var frameSkip: int
    var framesPerMeasurement: int
    var performanceCounter: int
    /** where each boid sits in `boids`, which shows that no boid is there twice */
    ghost var slot: map<Boid, int>

    /**
     * `l` counts the boids, no boid is in the flock twice, the frame counter
     * is a natural number, the skip is positive and the performance counter
     * lies in `[0, framesPerMeasurement)`
     */
    ghost predicate Valid()
      reads this
    {
      l == |boids| &&
      (forall i | 0 <= i < |boids| :: boids[i] in slot && slot[boids[i]] == i) &&
      frameCounter >= 0 && frameSkip > 0 && 0 <= performanceCounter < framesPerMeasurement
    }

    constructor ()
      ensures boids == [] && l == 0 && currentMousePos == Zero && distances == []
      ensures frameCounter == 0 && frameSkip == 4 && framesPerMeasurement == 50 && performanceCounter == 0
      ensures Valid()
    {
      boids := [];
      slot := map[];
      l := 0;
      currentMousePos := Zero;
      distances := [];
      frameCounter := 0;
      frameSkip := 3;
      framesPerMeasurement := 50;
      performanceCounter := 0;
      new;
      frameSkip := frameSkip + 1;
    }

    method AddBoid(newBoid: Boid)
      requires Valid() && newBoid !in boids
      modifies this
      ensures boids == old(boids) + [newBoid] && l == old(l) + 1
      ensures currentMousePos == old(currentMousePos) && distances == old(distances)
      ensures frameCounter == old(frameCounter) && frameSkip == old(frameSkip)
      ensures framesPerMeasurement == old(framesPerMeasurement) && performanceCounter == old(performanceCounter)
      ensures Valid()
    {
      l := l + 1;
      slot := slot[newBoid := |boids|];
      boids := boids + [newBoid];
    }

    /**
     * `run`: on a frame whose number is a multiple of `frameSkip`, rebuild the
     * table of squared distances between the current positions; move the
     * boids; count the frame and the performance counter
     */
    method Run(width: real, height: real)
      requires Valid()
      modifies this, boids
      ensures boids == old(boids) && l == old(l) && currentMousePos == old(currentMousePos)
      ensures frameSkip == old(frameSkip) && framesPerMeasurement == old(framesPerMeasurement)
      ensures RebuildDue(old(frameCounter), frameSkip) ==>
        distances == Table(old(distances), Positions(old(Kins(boids))), true)
      ensures !RebuildDue(old(frameCounter), frameSkip) ==> distances == old(distances)
      ensures Kins(boids) == FourLoop.Sweep(old(Kins(boids)), Profiles(boids), currentMousePos, false, width, height)
      ensures frameCounter == old(frameCounter) + 1
      ensures performanceCounter == NextCount(old(performanceCounter), framesPerMeasurement)
      ensures Valid()
    {
      if RebuildDue(frameCounter, frameSkip) {
        distances := Rebuild(distances, Positions(Kins(boids)), true);
      }
      MoveBoids(width, height);
      CountFrame();
    }

    /** the end of `run`: the frame is counted, and so is the frame of the performance measurement */
    method CountFrame()
      requires Valid()
      modifies this
      ensures frameCounter == old(frameCounter) + 1
      ensures performanceCounter == NextCount(old(performanceCounter), framesPerMeasurement)
      ensures boids == old(boids) && l == old(l) && currentMousePos == old(currentMousePos) && distances == old(distances)
      ensures frameSkip == old(frameSkip) && framesPerMeasurement == old(framesPerMeasurement)
      ensures Valid()
    {
      frameCounter := frameCounter + 1;
      performanceCounter := performanceCounter + 1;
      if performanceCounter == framesPerMeasurement {
        performanceCounter := 0;
      }
      CounterWraps(old(performanceCounter), framesPerMeasurement);
    }

    /**
     * the second loop of `run`: boid `0`, `1`, ..., `l - 1` takes its step in
     * turn, each seeing the boids before it already moved
     */
    method MoveBoids(width: real, height: real)
      requires Valid()
      modifies boids
      ensures Kins(boids) == FourLoop.Sweep(old(Kins(boids)), Profiles(boids), currentMousePos, false, width, height)
    {
      var bs, mouse := boids, currentMousePos;
      ghost var ks := Kins(bs);
      ghost var ps := Profiles(bs);
      for i := 0 to |bs|
        invariant FourLoop.Swept(Kins(bs), ks, ps, mouse, false, width, height, i)
      {
        StepBoid(bs, slot, mouse, width, height, i, ks);
      }
    }

    /** one turn of the second loop of `run`: boid `i` runs, and no other boid changes */
    static method StepBoid(bs: seq<Boid>, ghost at: map<Boid, int>, mouse: Vec, width: real, height: real,
                           i: nat, ghost ks: seq<Kin>)
      requires i < |bs| && forall j | 0 <= j < |bs| :: bs[j] in at && at[bs[j]] == j
      requires FourLoop.Swept(Kins(bs), ks, Profiles(bs), mouse, false, width, height, i)
      modifies bs[i]
      ensures FourLoop.Swept(Kins(bs), ks, Profiles(bs), mouse, false, width, height, i + 1)
    {
      var b := bs[i];
      ghost var before := Kins(bs);
      ghost var ps := Profiles(bs);
      FourLoop.SweepNext(ks, ps, mouse, false, width, height, i, before);
      assert forall j | 0 <= j < |bs| && j != i :: bs[j] != b by {
        forall j | 0 <= j < |bs| && j != i
          ensures bs[j] != b
        {
          assert at[bs[j]] == j && at[b] == i;
        }
      }
      b.Run(bs, mouse, width, height);
      assert forall j | 0 <= j < |bs| :: Kins(bs)[j] == before[i := FourLoop.StepAt(before, ps, i, mouse, false, width, height)][j];
    }

    method UpdateMouse(mousePos: Vec)
      modifies this
      ensures currentMousePos == mousePos
      ensures boids == old(boids) && l == old(l) && distances == old(distances)
      ensures frameCounter == old(frameCounter) && frameSkip == old(frameSkip)
      ensures framesPerMeasurement == old(framesPerMeasurement) && performanceCounter == old(performanceCounter)
      ensures slot == old(slot)
      ensures old(Valid()) ==> Valid()
    {
      currentMousePos := mousePos;
    }

    /** the state the boids' steps work on: their states and the mouse point */
    ghost function World(): FourLoop.World
      reads this, boids
    {
      FourLoop.World(Kins(boids), currentMousePos)
    }
  }

  /** a frame calls `run`, a mouse move calls `updateMouse` */
  method OnEvent(flock: Flock, e: BoidLoop.Event, width: real, height: real)
    requires flock.Valid()
    modifies flock, flock.boids
    ensures flock.Valid() && flock.boids == old(flock.boids)
    ensures flock.frameSkip == old(flock.frameSkip) && flock.framesPerMeasurement == old(flock.framesPerMeasurement)
    ensures flock.frameCounter == old(flock.frameCounter) + BoidLoop.FrameCount([e])
    ensures flock.World() == FourLoop.Handle(old(flock.World()), Profiles(flock.boids), false, e, width, height)
  {
    match e
    case OnFrame =>
      flock.Run(width, height);
    case OnMouseMove(p) =>
      flock.UpdateMouse(p);
  }

  /**
   * `run` and `updateMouse` called one after another as `events` says:
   * frames and mouse moves may come in any order
   */
  method Animate(flock: Flock, events: seq<BoidLoop.Event>, width: real, height: real)
    requires flock.Valid()
    modifies flock, flock.boids
    ensures flock.Valid() && flock.boids == old(flock.boids)
    ensures flock.frameSkip == old(flock.frameSkip) && flock.framesPerMeasurement == old(flock.framesPerMeasurement)
    ensures flock.frameCounter == old(flock.frameCounter) + BoidLoop.FrameCount(events)
    ensures flock.World() == FourLoop.Replay(old(flock.World()), Profiles(flock.boids), false, events, width, height)
  {
    ghost var ps := Profiles(flock.boids);
    ghost var start := flock.World();
    ghost var counter := flock.frameCounter;
    for n := 0 to |events|
      invariant flock.Valid() && flock.boids == old(flock.boids)
      invariant flock.frameSkip == old(flock.frameSkip) && flock.framesPerMeasurement == old(flock.framesPerMeasurement)
      invariant flock.frameCounter == counter + BoidLoop.FrameCount(events[..n])
      invariant FourLoop.Replay(start, ps, false, events, width, height)
                == FourLoop.Replay(flock.World(), ps, false, events[n..], width, height)
    {
      assert events[n..][1..] == events[n + 1..];
      assert events[..n + 1] == events[..n] + [events[n]];
      BoidLoop.FrameCountAppend(events[..n], [events[n]]);
      OnEvent(flock, events[n], width, height);
    }
    assert events[..|events|] == events;
  }
}
