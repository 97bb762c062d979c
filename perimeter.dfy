/**
 * The start positions of `startPaper` (app-combined.js, flocking-combined.js,
 * flocking-min.js): one random number `r` in [0, 1) picks a point on the
 * perimeter of the view enlarged by `frame` on every side.
 */
module Perimeter {
  import opened Vectors

  /** JavaScript `Math.trunc` on a real */
  function Trunc(q: real): int
  {
    if q >= 0.0 then q.Floor else -((-q).Floor)
  }

  /** JavaScript `a % b`: the remainder takes the sign of the dividend */
  function JsRem(a: real, b: real): real
    requires b != 0.0
  {
    a - b * Trunc(a / b) as real
  }

  function Min(a: real, b: real): real { if a < b then a else b }

  function Max(a: real, b: real): real { if a < b then b else a }

  /** `Math.min(1, Math.max(0, z))` */
  function Clamp01(z: real): (c: real)
    ensures 0.0 <= c <= 1.0
    ensures 0.0 <= z <= 1.0 ==> c == z
  {
    Min(1.0, Max(0.0, z))
  }

  /** the factor along one side: `Math.min(1, Math.max(0, Math.abs(t % 4 - 2) - .5))` */
  function SideFactor(t: real): real
  {
    Clamp01(Abs(JsRem(t, 4.0) - 2.0) - 0.5)
  }

  /** the start coordinates `x`, `y` for the random number `r` */
  function PerimeterPoint(width: real, height: real, frame: real, r: real): Vec
  {
    var w := width + 2.0 * frame;
    var h := height + 2.0 * frame;
    Vec(w * SideFactor(r * 4.0 - 0.5) - frame, h * SideFactor(r * 4.0 + 0.5) - frame)
  }

  lemma JsRemInRange(a: real)
    requires -4.0 < a < 4.0
    ensures JsRem(a, 4.0) == a
  {
    if a >= 0.0 {
      assert (a / 4.0).Floor == 0;
    } else {
      assert (-(a / 4.0)).Floor == 0;
    }
  }

  lemma JsRemAbove(a: real)
    requires 4.0 <= a < 8.0
    ensures JsRem(a, 4.0) == a - 4.0
  {
    assert (a / 4.0).Floor == 1;
  }

  /** a side length times a factor in [0, 1] stays within [0, side length] */
  lemma ScaledFactor(w: real, f: real)
    requires w >= 0.0 && 0.0 <= f <= 1.0
    ensures 0.0 <= w * f <= w
  {
    calc {
      0.0;
      w * 0.0;
    <= { MulLeft(0.0, f, w); }
      w * f;
    <= { MulLeft(f, 1.0, w); }
      w * 1.0;
    }
  }

  /** the start position lies inside the view enlarged by `frame` */
  lemma PerimeterPointInFrame(width: real, height: real, frame: real, r: real)
    requires width + 2.0 * frame >= 0.0 && height + 2.0 * frame >= 0.0
    ensures -frame <= PerimeterPoint(width, height, frame, r).x <= width + frame
    ensures -frame <= PerimeterPoint(width, height, frame, r).y <= height + frame
  {
    var w, fx := width + 2.0 * frame, SideFactor(r * 4.0 - 0.5);
    var h, fy := height + 2.0 * frame, SideFactor(r * 4.0 + 0.5);
    calc {
      -frame;
    <= { ScaledFactor(w, fx); }
      w * fx - frame;
      PerimeterPoint(width, height, frame, r).x;
    <= { ScaledFactor(w, fx); }
      width + frame;
    }
    calc {
      -frame;
    <= { ScaledFactor(h, fy); }
      h * fy - frame;
      PerimeterPoint(width, height, frame, r).y;
    <= { ScaledFactor(h, fy); }
      height + frame;
    }
  }

  /**
   * for `r` in [0, 1) one of the two factors is 0 or 1, so the point is on
   * an edge: the right edge for `r` in [0, 1/4), the top edge for [1/4, 1/2),
   * the left edge for [1/2, 3/4) and the bottom edge for [3/4, 1)
   */
  lemma SideFactorsOnEdge(r: real)
    requires 0.0 <= r < 1.0
    ensures r < 0.25 ==> SideFactor(r * 4.0 - 0.5) == 1.0
    ensures 0.25 <= r < 0.5 ==> SideFactor(r * 4.0 + 0.5) == 0.0
    ensures 0.5 <= r < 0.75 ==> SideFactor(r * 4.0 - 0.5) == 0.0
    ensures 0.75 <= r ==> SideFactor(r * 4.0 + 0.5) == 1.0
  {
    var s := r * 4.0;
    JsRemInRange(s - 0.5);
    if s + 0.5 < 4.0 {
      JsRemInRange(s + 0.5);
    } else {
      JsRemAbove(s + 0.5);
    }
  }

  /** every start position lies on the perimeter of the enlarged view */
  lemma PerimeterPointOnEdge(width: real, height: real, frame: real, r: real)
    requires 0.0 <= r < 1.0
    ensures var p := PerimeterPoint(width, height, frame, r);
      p.x == -frame || p.x == width + frame || p.y == -frame || p.y == height + frame
  {
    SideFactorsOnEdge(r);
    var w := width + 2.0 * frame;
    var h := height + 2.0 * frame;
    if r < 0.25 {
      assert w * SideFactor(r * 4.0 - 0.5) == w * 1.0;
    } else if r < 0.5 {
      assert h * SideFactor(r * 4.0 + 0.5) == h * 0.0;
    } else if r < 0.75 {
      assert w * SideFactor(r * 4.0 - 0.5) == w * 0.0;
    } else {
      assert h * SideFactor(r * 4.0 + 0.5) == h * 1.0;
    }
  }
}
