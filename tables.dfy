/**
 * The pairwise distance table that `Flock.run` rebuilds at the start of a
 * frame (flocking-combined.js, flocking-min.js, flock.js).  The JavaScript
 * table is an array of sparse arrays; a row is modelled as a map from column
 * index to value, so a column the loop has not written yet is simply absent.
 */
module DistanceTable {
  import opened Vectors

  type Row = map<int, real>

  /** what the table stores for a pair: `getDistance(q)` or `getDistance(q, true)` */
  function Measure(p: Vec, q: Vec, squared: bool): real
  {
    if squared then DistanceSq(p, q) else Distance(p, q)
  }

  /**
   * Row `i` of the finished table: column `i` holds 0, a column `j < i` holds
   * the measure from boid `i` to boid `j`, and a column `j > i` the measure
   * from boid `j` to boid `i` (it is written while the outer loop is at `j`).
   */
  function FullRow(ps: seq<Vec>, i: int, squared: bool): Row
    requires 0 <= i < |ps|
  {
    map j | 0 <= j < |ps| ::
      if j == i then 0.0
      else if j < i then Measure(ps[i], ps[j], squared)
      else Measure(ps[j], ps[i], squared)
  }

  /**
   * The table after the nested loop over `ps` (the boids' positions): one full
   * row per boid; rows beyond the flock, left from an earlier frame, are kept.
   */
  function Table(prev: seq<Row>, ps: seq<Vec>, squared: bool): seq<Row>
  {
    seq(if |prev| < |ps| then |ps| else |prev|,
        i requires 0 <= i < (if |prev| < |ps| then |ps| else |prev|) =>
          if i < |ps| then FullRow(ps, i, squared) else prev[i])
  }

  /** the rows the loop works on: rows `0..n-1` hold columns `0..n-1` as in the finished table */
  ghost predicate FilledUpTo(t: seq<Row>, ps: seq<Vec>, n: int, squared: bool)
    requires 0 <= n <= |ps|
  {
    n <= |t| &&
    forall i | 0 <= i < n ::
      (forall j :: j in t[i] <==> 0 <= j < n) &&
      forall j | 0 <= j < n :: t[i][j] == FullRow(ps, i, squared)[j]
  }

  /**
   * The nested loop of `Flock.run`: `distances[i] = []`, `distances[i][i] = 0`,
   * then for every `j < i` the measure `d` from boid `i` to boid `j` goes
   * into both `distances[i][j]` and `distances[j][i]`.
   */
  method Rebuild(prev: seq<Row>, ps: seq<Vec>, squared: bool) returns (t: seq<Row>)
    ensures t == Table(prev, ps, squared)
  {
    t := prev;
    var i := 0;
    while i < |ps|
      invariant 0 <= i <= |ps|
      invariant |t| == if |prev| < i then i else |prev|
      invariant FilledUpTo(t, ps, i, squared)
      invariant forall k | i <= k < |t| :: t[k] == prev[k]
    {
      if i < |t| {
        t := t[i := map[]];
      } else {
        t := t + [map[]];
      }
      t := t[i := t[i][i := 0.0]];
      t := FillRow(t, ps, i, squared);
      i := i + 1;
    }
    FilledIsTable(prev, ps, squared, t);
  }

  /**
   * The inner loop for row `i`, whose only entry so far is `distances[i][i] = 0`:
   * for `j < i` it fills column `j` of row `i` and column `i` of row `j`.
   */
  method FillRow(t0: seq<Row>, ps: seq<Vec>, i: int, squared: bool) returns (t: seq<Row>)
    requires 0 <= i < |ps| && i < |t0|
    requires FilledUpTo(t0, ps, i, squared) && t0[i] == map[i := 0.0]
    ensures |t| == |t0| && forall k | i < k < |t| :: t[k] == t0[k]
    ensures FilledUpTo(t, ps, i + 1, squared)
  {
    t := t0;
    var j := 0;
    while j < i
      invariant 0 <= j <= i
      invariant |t| == |t0|
      invariant forall k | i < k < |t| :: t[k] == t0[k]
      invariant forall c :: c in t[i] <==> c == i || 0 <= c < j
      invariant t[i][i] == 0.0
      invariant forall c | 0 <= c < j :: t[i][c] == FullRow(ps, i, squared)[c]
      invariant forall r | 0 <= r < i ::
        (forall c :: c in t[r] <==> 0 <= c < i || (c == i && r < j)) &&
        (forall c | 0 <= c < i :: t[r][c] == FullRow(ps, r, squared)[c]) &&
        (r < j ==> t[r][i] == FullRow(ps, r, squared)[i])
    {
      var d := Measure(ps[i], ps[j], squared);
      t := t[i := t[i][j := d]];
      t := t[j := t[j][i := d]];
      j := j + 1;
    }
  }

  /** when every boid's row is filled and the rows beyond are the old ones, the loop's result is `Table` */
  lemma FilledIsTable(prev: seq<Row>, ps: seq<Vec>, squared: bool, t: seq<Row>)
    requires FilledUpTo(t, ps, |ps|, squared)
    requires |t| == if |prev| < |ps| then |ps| else |prev|
    requires forall k | |ps| <= k < |t| :: t[k] == prev[k]
    ensures t == Table(prev, ps, squared)
  {
    assert |t| == |Table(prev, ps, squared)|;
    forall k | 0 <= k < |t|
      ensures t[k] == Table(prev, ps, squared)[k]
    {
      if k < |ps| {
        assert t[k].Keys == FullRow(ps, k, squared).Keys;
      }
    }
  }

  /** every boid has a row, and every row covers every boid */
  lemma TableCovers(prev: seq<Row>, ps: seq<Vec>, squared: bool)
    ensures |Table(prev, ps, squared)| >= |ps|
    ensures forall i, j | 0 <= i < |ps| && 0 <= j < |ps| :: j in Table(prev, ps, squared)[i]
  {
  }

  /** the diagonal is 0 and the table is symmetric */
  lemma TableSymmetric(prev: seq<Row>, ps: seq<Vec>, squared: bool)
    ensures |Table(prev, ps, squared)| >= |ps|
    ensures forall i | 0 <= i < |ps| :: i in Table(prev, ps, squared)[i] && Table(prev, ps, squared)[i][i] == 0.0
    ensures forall i, j | 0 <= i < |ps| && 0 <= j < |ps| ::
      j in Table(prev, ps, squared)[i] && i in Table(prev, ps, squared)[j] &&
      Table(prev, ps, squared)[i][j] == Table(prev, ps, squared)[j][i]
  {
  }

  /**
   * The linear table holds `getDistance` between every pair, in either
   * direction; the squared table holds the squared distance.
   */
  lemma TableIsDistance(prev: seq<Row>, ps: seq<Vec>, squared: bool, i: int, j: int)
    requires LengthLaw()
    requires 0 <= i < |ps| && 0 <= j < |ps|
    ensures |Table(prev, ps, squared)| >= |ps| && j in Table(prev, ps, squared)[i]
    ensures !squared ==> Table(prev, ps, squared)[i][j] == Distance(ps[i], ps[j])
    ensures squared ==> Table(prev, ps, squared)[i][j] == DistanceSq(ps[i], ps[j])
    ensures squared ==> Table(prev, ps, squared)[i][j] == Sq(Distance(ps[i], ps[j]))
  {
    DistanceSymmetric(ps[i], ps[j]);
    DistanceSqIsSquare(ps[i], ps[j]);
    if i < j {
      DistanceSqIsSquare(ps[j], ps[i]);
      assert Sub(ps[i], ps[j]) == Scale(Sub(ps[j], ps[i]), -1.0);
      LengthSqOfScale(Sub(ps[j], ps[i]), -1.0);
    }
  }

  /** running the nested loop again on the same positions changes nothing */
  lemma TableIdempotent(prev: seq<Row>, ps: seq<Vec>, squared: bool)
    ensures Table(Table(prev, ps, squared), ps, squared) == Table(prev, ps, squared)
  {
  }
}
