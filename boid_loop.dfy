/**
 * The boid loop of every `Flock.run`: for `i` from 0 to `l - 1`, boid `i`
 * takes its step, and its step sees the flock as the steps of boids
 * `0..i-1` left it.  The step itself is a parameter here; SinglePass and
 * FourLoop supply the snapshots' steps.
 */
module BoidLoop {
  import opened Vectors
  import opened Steering

  /** the flock state after boids `0..m-1` have taken their steps, in index order */
  function SweepUpTo(ks: seq<Kin>, step: (seq<Kin>, int) -> Kin, m: nat): (r: seq<Kin>)
    requires m <= |ks|
    ensures |r| == |ks|
  {
    if m == 0 then ks
    else
      var before := SweepUpTo(ks, step, m - 1);
      before[m - 1 := step(before, m - 1)]
  }

  /** boids the loop has not reached yet are untouched */
  lemma {:induction false} SweepLeavesRest(ks: seq<Kin>, step: (seq<Kin>, int) -> Kin, m: nat)
    requires m <= |ks|
    ensures forall j | m <= j < |ks| :: SweepUpTo(ks, step, m)[j] == ks[j]
  {
    if m > 0 {
      SweepLeavesRest(ks, step, m - 1);
    }
  }

  /**
   * every boid is stepped exactly once: it still has its original state when
   * its turn comes, and the steps after its own leave it alone
   */
  lemma {:induction false} SweepStepsOnce(ks: seq<Kin>, step: (seq<Kin>, int) -> Kin, m: nat, j: nat)
    requires j < m <= |ks|
    ensures SweepUpTo(ks, step, j)[j] == ks[j]
    ensures SweepUpTo(ks, step, m)[j] == step(SweepUpTo(ks, step, j), j)
  {
    if m == j + 1 {
      SweepLeavesRest(ks, step, j);
    } else {
      SweepStepsOnce(ks, step, m - 1, j);
    }
  }

  // ---------------------------------------------------------------------
  // The handlers `startPaper` installs: `view.onFrame` runs the flock and
  // `view.onMouseMove` hands the mouse point to it.  The browser calls them
  // in whatever order frames and mouse moves arrive.

  datatype Event = OnFrame | OnMouseMove(point: Vec)

  /** the mouse point after `events`: the last point moved to, or `mouse` when there is none */
  function LastMouse(mouse: Vec, events: seq<Event>): Vec
  {
    if events == [] then mouse
    else if events[|events| - 1].OnMouseMove? then events[|events| - 1].point
    else LastMouse(mouse, events[..|events| - 1])
  }

  /** the number of frames among `events` */
  function FrameCount(events: seq<Event>): nat
  {
    if events == [] then 0
    else (if events[0].OnFrame? then 1 else 0) + FrameCount(events[1..])
  }

  lemma {:induction false} FrameCountAppend(e1: seq<Event>, e2: seq<Event>)
    ensures FrameCount(e1 + e2) == FrameCount(e1) + FrameCount(e2)
  {
    if e1 == [] {
      assert e1 + e2 == e2;
    } else {
      assert (e1 + e2)[1..] == e1[1..] + e2;
      FrameCountAppend(e1[1..], e2);
    }
  }
}
