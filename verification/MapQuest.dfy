/** Walking across the grid: one rounded step towards a target, and the two-leg map
    quest built from it. Distances are exact reals; the result of the square root is
    handed in as the `dist` whose square is the sum of squares. */
module MapQuest {

  const MAP_SIZE: int := 500
  const MAP_STEP: int := 70

  ghost predicate IsDist(dx: int, dy: int, dist: real) {
    dist >= 0.0 && dist * dist == SquareSum(dx as real, dy as real)
  }

  function SquareSum(a: real, b: real): real {
    a * a + b * b
  }

  /** Rounds to the nearest integer, halves away from zero. */
  function Round(x: real): int {
    if x >= 0.0 then (x + 0.5).Floor else -(-x + 0.5).Floor
  }

  function StepToward(x: int, y: int, tx: int, ty: int, step: int, dist: real): (int, int, bool) {
    var dx, dy := tx - x, ty - y;
    if dist <= step as real || dist == 0.0 then (tx, ty, true)
    else
      (x + Round(Share(dx as real, step as real, dist)), y + Round(Share(dy as real, step as real, dist)), false)
  }

  /** The step's share of the gap d along one axis. */
  function Share(d: real, step: real, dist: real): real
    requires dist != 0.0
  {
    d * step / dist
  }

  predicate Between(a: int, v: int, b: int) {
    a <= v <= b || b <= v <= a
  }

  // --- Real arithmetic, one fact at a time ---

  lemma MulSign(a: real, b: real)
    requires a >= 0.0 && b >= 0.0
    ensures a * b >= 0.0
    ensures a > 0.0 && b > 0.0 ==> a * b > 0.0
  {
  }

  lemma MulMono(a: real, b: real, c: real)
    requires a >= 0.0 && b <= c
    ensures a * b <= a * c
  {
  }

  lemma SquareLess(x: real, y: real)
    requires 0.0 <= x < y
    ensures x * x < y * y
  {
    MulSign(y - x, y + x);
    assert (y - x) * (y + x) == y * y - x * x;
  }

  lemma SquareBound(e: real, h: real)
    requires -h <= e <= h
    ensures e * e <= h * h
  {
  }

  lemma CauchySchwarz(a: real, b: real, e: real, f: real)
    ensures (a * e + b * f) * (a * e + b * f) <= (a * a + b * b) * (e * e + f * f)
  {
  }

  // --- One coordinate ---

  lemma RoundIsNear(x: real)
    ensures -0.5 <= Round(x) as real - x <= 0.5
  {
  }

  /** n is the integer nearest to x, and of two such the one farther from zero. */
  predicate Nearest(n: int, x: real) {
    if x >= 0.0 then n as real - 0.5 <= x < n as real + 0.5 else n as real - 0.5 < x <= n as real + 0.5
  }

  lemma RoundIsNearest(x: real)
    ensures Nearest(Round(x), x)
  {
  }

  lemma RoundStaysInside(x: real, a: int)
    requires 0.0 <= x <= a as real || a as real <= x <= 0.0
    ensures Between(0, Round(x), a)
  {
  }

  lemma FractionOf(a: real, k: real)
    requires 0.0 < k < 1.0
    ensures 0.0 <= a * k <= a || a <= a * k <= 0.0
  {
  }

  lemma StepFraction(step: real, dist: real, k: real)
    requires 0.0 < step < dist && k == step / dist
    ensures 0.0 < k < 1.0 && k * dist == step
  {
    assert k * dist == step;
    if k <= 0.0 {
      MulSign(-k, dist);
    }
    if k >= 1.0 {
      MulMono(dist, 1.0, k);
    }
  }

  /** The exact move is the step's share k of the distance. */
  lemma ShareOfStep(a: real, step: real, dist: real, k: real)
    requires 0.0 < step < dist && k == step / dist
    ensures 0.0 < k < 1.0 && k * dist == step
    ensures Share(a, step, dist) == a * k
    ensures 0.0 <= Share(a, step, dist) <= a || a <= Share(a, step, dist) <= 0.0
  {
    StepFraction(step, dist, k);
    FractionOf(a, k);
    var q := a * k;
    assert a * step == q * dist;
    assert q * dist / dist == q;
  }

  lemma ShareInside(d: int, step: real, dist: real)
    requires 0.0 < step < dist
    ensures Between(0, Round(Share(d as real, step, dist)), d)
  {
    ShareOfStep(d as real, step, dist, step / dist);
    RoundStaysInside(Share(d as real, step, dist), d);
  }

  // --- One step ---

  /** Two rounding errors of at most a half lengthen a vector of length m by at most
      the half-diagonal of a unit square. */
  lemma RoundingCost(ra: real, rb: real, e: real, f: real, m: real, d: real)
    requires m >= 0.0 && SquareSum(ra, rb) == m * m
    requires -0.5 <= e <= 0.5 && -0.5 <= f <= 0.5
    requires d * d == SquareSum(ra - e, rb - f)
    ensures d <= m + 0.7072
  {
    var h := 0.7072;
    var dot, n := ra * e + rb * f, e * e + f * f;
    SquareBound(e, 0.5);
    SquareBound(f, 0.5);
    assert (ra - e) * (ra - e) == ra * ra - 2.0 * (ra * e) + e * e;
    assert (rb - f) * (rb - f) == rb * rb - 2.0 * (rb * f) + f * f;
    assert d * d == m * m - 2.0 * dot + n;
    DotBound(ra, rb, e, f, m, dot, n);
    assert (m + h) * (m + h) == m * m + 2.0 * (m * h) + h * h;
    if d > m + h {
      SquareLess(m + h, d);
    }
  }

  lemma DotBound(ra: real, rb: real, e: real, f: real, m: real, dot: real, n: real)
    requires m >= 0.0 && ra * ra + rb * rb == m * m
    requires dot == ra * e + rb * f && n == e * e + f * f && n <= 0.5
    ensures -dot <= m * 0.7072
  {
    var h := 0.7072;
    CauchySchwarz(ra, rb, e, f);
    MulSign(m, m);
    MulMono(m * m, n, h * h);
    assert (m * h) * (m * h) == (m * m) * (h * h);
    if -dot > m * h {
      MulSign(m, h);
      SquareLess(m * h, -dot);
    }
  }

  /** Taking the share k off a vector leaves one of length dist - step. */
  lemma RemainingLength(a: real, b: real, step: real, dist: real, k: real, ra: real, rb: real)
    requires dist * dist == SquareSum(a, b) && k * dist == step
    requires ra == a - a * k && rb == b - b * k
    ensures SquareSum(ra, rb) == (dist - step) * (dist - step)
  {
  }

  /** Moving by the shares of the step, give or take a half on each axis. */
  lemma VectorStep(a: real, b: real, step: real, dist: real, ma: real, mb: real, dist': real)
    requires 0.0 < step < dist && dist * dist == SquareSum(a, b)
    requires -0.5 <= ma - Share(a, step, dist) <= 0.5 && -0.5 <= mb - Share(b, step, dist) <= 0.5
    requires dist' * dist' == SquareSum(a - ma, b - mb)
    ensures dist' <= dist - step + 0.7072
  {
    var k := step / dist;
    ShareOfStep(a, step, dist, k);
    ShareOfStep(b, step, dist, k);
    var u, v := Share(a, step, dist), Share(b, step, dist);
    RemainingLength(a, b, step, dist, k, a - u, b - v);
    assert a - ma == (a - u) - (ma - u) && b - mb == (b - v) - (mb - v);
    RoundingCost(a - u, b - v, ma - u, mb - v, dist - step, dist');
  }

  lemma VectorStepIsNoLonger(a: real, b: real, step: real, dist: real, ma: real, mb: real, dist': real)
    requires 0.0 < step < dist && dist * dist == SquareSum(a, b) && dist' >= 0.0
    requires -0.5 <= ma - Share(a, step, dist) <= 0.5 && -0.5 <= mb - Share(b, step, dist) <= 0.5
    requires dist' * dist' == SquareSum(a - ma, b - mb)
    ensures dist' >= dist - step - 0.7072
  {
    var k := step / dist;
    ShareOfStep(a, step, dist, k);
    ShareOfStep(b, step, dist, k);
    var u, v := Share(a, step, dist), Share(b, step, dist);
    RemainingLength(a, b, step, dist, k, a - u, b - v);
    assert a - u == (a - ma) - (u - ma) && b - v == (b - mb) - (v - mb);
    RoundingCost(a - ma, b - mb, u - ma, v - mb, dist', dist - step);
  }

  lemma RoundedMoveGains(dx: int, dy: int, step: int, dist: real, mx: int, my: int, dist': real)
    requires step >= 1 && dist > step as real && IsDist(dx, dy, dist)
    requires mx == Round(Share(dx as real, step as real, dist)) && my == Round(Share(dy as real, step as real, dist))
    requires IsDist(dx - mx, dy - my, dist')
    ensures dist' <= dist - step as real + 0.7072
  {
    var a, b, s := dx as real, dy as real, step as real;
    RoundIsNear(Share(a, s, dist));
    RoundIsNear(Share(b, s, dist));
    assert (dx - mx) as real == a - mx as real && (dy - my) as real == b - my as real;
    VectorStep(a, b, s, dist, mx as real, my as real, dist');
  }

  /** A step that does not arrive comes closer, rounding included, by at least the
      step less 0.7072. */
  lemma StepGains(x: int, y: int, tx: int, ty: int, step: int, dist: real, dist': real)
    requires step >= 1 && IsDist(tx - x, ty - y, dist)
    requires !StepToward(x, y, tx, ty, step, dist).2
    requires var (nx, ny, _) := StepToward(x, y, tx, ty, step, dist); IsDist(tx - nx, ty - ny, dist')
    ensures dist > step as real && dist' <= dist - step as real + 0.7072
  {
    var (nx, ny, _) := StepToward(x, y, tx, ty, step, dist);
    assert tx - nx == (tx - x) - (nx - x) && ty - ny == (ty - y) - (ny - y);
    RoundedMoveGains(tx - x, ty - y, step, dist, nx - x, ny - y, dist');
  }

  /** Nor does it come closer by more than the step and 0.7072. */
  lemma StepIsNoLonger(x: int, y: int, tx: int, ty: int, step: int, dist: real, dist': real)
    requires step >= 1 && IsDist(tx - x, ty - y, dist)
    requires !StepToward(x, y, tx, ty, step, dist).2
    requires var (nx, ny, _) := StepToward(x, y, tx, ty, step, dist); IsDist(tx - nx, ty - ny, dist')
    ensures dist' >= dist - step as real - 0.7072
  {
    var (nx, ny, _) := StepToward(x, y, tx, ty, step, dist);
    var a, b, s := (tx - x) as real, (ty - y) as real, step as real;
    RoundIsNear(Share(a, s, dist));
    RoundIsNear(Share(b, s, dist));
    assert (tx - nx) as real == a - (nx - x) as real && (ty - ny) as real == b - (ny - y) as real;
    VectorStepIsNoLonger(a, b, s, dist, (nx - x) as real, (ny - y) as real, dist');
  }

  lemma ShareIsExact(a: real, step: real, dist: real, e: real)
    requires dist > 0.0 && e * dist == a * step
    ensures Share(a, step, dist) == e
  {
    assert e * dist / dist == e;
  }

  /** Without having arrived, a step leads to the grid point next to the exact one (ex, ey) from
      where it began, which is the step's part of the way; half-way points go away from
      the start. */
  lemma StepIsNearest(x: int, y: int, tx: int, ty: int, step: int, dist: real, ex: real, ey: real)
    requires step >= 1 && dist > step as real
    requires ex * dist == (tx - x) as real * step as real && ey * dist == (ty - y) as real * step as real
    ensures var (nx, ny, _) := StepToward(x, y, tx, ty, step, dist); Nearest(nx - x, ex) && Nearest(ny - y, ey)
  {
    ShareIsExact((tx - x) as real, step as real, dist, ex);
    ShareIsExact((ty - y) as real, step as real, dist, ey);
    RoundIsNearest(ex);
    RoundIsNearest(ey);
  }

  /** It also stays inside the box spanned by position and target. */
  lemma BoxHolds(x: int, y: int, tx: int, ty: int, step: int, dist: real)
    requires 1 <= step && dist > step as real
    ensures var (nx, ny, _) := StepToward(x, y, tx, ty, step, dist);
      Between(x, nx, tx) && Between(y, ny, ty)
  {
    var s := step as real;
    ShareInside(tx - x, s, dist);
    ShareInside(ty - y, s, dist);
  }

  /** Arriving means standing on the target. */
  lemma ArrivalIsExact(x: int, y: int, tx: int, ty: int, step: int, dist: real)
    requires step >= 0
    ensures var (nx, ny, reached) := StepToward(x, y, tx, ty, step, dist);
      (reached <==> dist <= step as real) && (reached ==> nx == tx && ny == ty)
  {
  }

  // --- The journey ---

  /** The party's position, both waypoints, and which one it is heading for. */
  datatype Journey = Journey(x: int, y: int, x1: int, y1: int, x2: int, y2: int, stage: int) {
    function TargetX(): int { if stage == 0 then x1 else x2 }
    function TargetY(): int { if stage == 0 then y1 else y2 }

    predicate OnMap() {
      && 0 <= x <= MAP_SIZE && 0 <= x1 <= MAP_SIZE && 0 <= x2 <= MAP_SIZE
      && 0 <= y <= MAP_SIZE && 0 <= y1 <= MAP_SIZE && 0 <= y2 <= MAP_SIZE
    }

    ghost predicate DistLeft(dist: real) {
      IsDist(TargetX() - x, TargetY() - y, dist)
    }
  }

  /** One tick: the party after it, and whether the journey is over. */
  function Advance(j: Journey, dist: real): (Journey, bool) {
    var (nx, ny, reached) := StepToward(j.x, j.y, j.TargetX(), j.TargetY(), MAP_STEP, dist);
    var moved := j.(x := nx, y := ny);
    if reached && j.stage == 0 then (moved.(stage := 1), false) else (moved, reached)
  }

  class Party {
    var x: int
    var y: int
    const x1: int
    const y1: int
    const x2: int
    const y2: int
    var stage: int

    ghost function Model(): Journey
      reads this
    {
      Journey(x, y, x1, y1, x2, y2, stage)
    }

    constructor (x: int, y: int, x1: int, y1: int, x2: int, y2: int)
      ensures Model() == Journey(x, y, x1, y1, x2, y2, 0)
    {
      this.x, this.y := x, y;
      this.x1, this.y1 := x1, y1;
      this.x2, this.y2 := x2, y2;
      this.stage := 0;
    }

    constructor At(j: Journey)
      ensures Model() == j
    {
      x, y, stage := j.x, j.y, j.stage;
      x1, y1 := j.x1, j.y1;
      x2, y2 := j.x2, j.y2;
    }

    method AdvanceMapQuest(dist: real) returns (finished: bool)
      modifies this`x, this`y, this`stage
      ensures (Model(), finished) == Advance(old(Model()), dist)
    {
      var tx, ty := x2, y2;
      if stage == 0 {
        tx, ty := x1, y1;
      }
      var (nx, ny, reached) := StepToward(x, y, tx, ty, MAP_STEP, dist);
      x, y := nx, ny;
      finished := false;
      if reached {
        if stage == 0 {
          stage := 1;
        } else {
          finished := true;
        }
      }
    }
  }

  /** A run of ticks in which the journey has not ended: where the party stood before
      each tick, and how far it then was from its waypoint. */
  ghost predicate Underway(run: seq<Journey>, dists: seq<real>) {
    && |run| == |dists| > 0
    && run[0].stage == 0 && run[0].OnMap()
    && (forall i :: 0 <= i < |run| ==> run[i].DistLeft(dists[i]))
    && forall i :: 0 <= i < |run| - 1 ==> GoesOn(run, dists, i)
  }

  ghost predicate GoesOn(run: seq<Journey>, dists: seq<real>, i: nat)
    requires i < |run| - 1 && |run| == |dists|
  {
    (run[i + 1], false) == Advance(run[i], dists[i])
  }

  lemma DistOnMap(dx: int, dy: int, dist: real)
    requires IsDist(dx, dy, dist)
    requires -MAP_SIZE <= dx <= MAP_SIZE && -MAP_SIZE <= dy <= MAP_SIZE
    ensures dist <= 707.2
  {
    SquareBound(dx as real, 500.0);
    SquareBound(dy as real, 500.0);
    if dist > 707.2 {
      SquareLess(707.2, dist);
    }
  }

  lemma AdvanceStaysOnMap(j: Journey, dist: real, dist': real)
    requires j.OnMap() && j.stage in {0, 1} && j.DistLeft(dist)
    ensures var (j', finished) := Advance(j, dist);
      && j'.OnMap() && j'.stage in {0, 1}
      && (dist > MAP_STEP as real && j'.DistLeft(dist') ==>
            !finished && j'.stage == j.stage && dist' <= dist - 69.2928)
      && (dist <= MAP_STEP as real ==> if j.stage == 0 then !finished && j'.stage == 1 else finished)
  {
    var (j', finished) := Advance(j, dist);
    if dist > MAP_STEP as real {
      if j'.DistLeft(dist') {
        StepGains(j.x, j.y, j.TargetX(), j.TargetY(), MAP_STEP, dist, dist');
      }
      BoxHolds(j.x, j.y, j.TargetX(), j.TargetY(), MAP_STEP, dist);
    }
  }

  lemma {:induction false} StaysOnMap(run: seq<Journey>, dists: seq<real>, i: nat)
    requires Underway(run, dists) && i < |run|
    ensures run[i].OnMap() && run[i].stage in {0, 1} && 0.0 <= dists[i] <= 707.2
  {
    if i > 0 {
      StaysOnMap(run, dists, i - 1);
      assert GoesOn(run, dists, i - 1);
      AdvanceStaysOnMap(run[i - 1], dists[i - 1], dists[i]);
    }
    DistOnMap(run[i].TargetX() - run[i].x, run[i].TargetY() - run[i].y, dists[i]);
  }

  /** A tick that goes on keeps to its leg and takes 69.2928 to 70.7072 off the distance, or
      turns from the first leg to the second, from within a step of the waypoint. */
  lemma TickSpends(run: seq<Journey>, dists: seq<real>, i: nat)
    requires Underway(run, dists) && i < |run| - 1
    ensures run[i + 1].stage == run[i].stage ==> dists[i] - 70.7072 <= dists[i + 1] <= dists[i] - 69.2928
    ensures run[i + 1].stage != run[i].stage ==> run[i].stage == 0 && run[i + 1].stage == 1 && dists[i] <= 70.0
  {
    StaysOnMap(run, dists, i);
    assert GoesOn(run, dists, i);
    var j := run[i];
    AdvanceStaysOnMap(j, dists[i], dists[i + 1]);
    if dists[i] > MAP_STEP as real {
      StepIsNoLonger(j.x, j.y, j.TargetX(), j.TargetY(), MAP_STEP, dists[i], dists[i + 1]);
    }
  }

  /** The second leg is never left. */
  lemma {:induction false} LegsInOrder(run: seq<Journey>, dists: seq<real>, a: nat, b: nat)
    requires Underway(run, dists) && a <= b < |run|
    ensures run[a].stage <= run[b].stage
  {
    if a < b {
      LegsInOrder(run, dists, a, b - 1);
      TickSpends(run, dists, b - 1);
    }
  }

  /** Between any two ticks of one leg the distance has shrunk by 69.2928 to 70.7072 for each. */
  lemma {:induction false} LegGains(run: seq<Journey>, dists: seq<real>, a: nat, b: nat)
    requires Underway(run, dists) && a <= b < |run| && run[a].stage == run[b].stage
    ensures dists[a] - 70.7072 * (b - a) as real <= dists[b] <= dists[a] - 69.2928 * (b - a) as real
  {
    if a < b {
      LegsInOrder(run, dists, a, b - 1);
      LegsInOrder(run, dists, b - 1, b);
      LegGains(run, dists, a, b - 1);
      TickSpends(run, dists, b - 1);
    }
  }

  /** So either leg takes at most eleven ticks. */
  lemma TicksSpent(run: seq<Journey>, dists: seq<real>, a: nat, b: nat)
    requires Underway(run, dists) && a <= b < |run| && run[a].stage == run[b].stage
    ensures b - a <= 10
    ensures b - a == 10 ==> dists[b] <= MAP_STEP as real
  {
    StaysOnMap(run, dists, a);
    StaysOnMap(run, dists, b);
    LegGains(run, dists, a, b);
  }

  /** Nor is a leg done any sooner than its length takes: not while the distance it began
      with is more than a step and 70.7072 for each tick since. */
  lemma LegLasts(run: seq<Journey>, dists: seq<real>, a: nat, b: nat)
    requires Underway(run, dists) && a <= b < |run| && dists[a] > 70.0 + 70.7072 * (b - a) as real
    ensures run[b].stage == run[a].stage && dists[b] > 70.0 && !Advance(run[b], dists[b]).1
  {
    if a < b {
      LegLasts(run, dists, a, b - 1);
      TickSpends(run, dists, b - 1);
      LegGains(run, dists, a, b);
    }
    StaysOnMap(run, dists, b);
    AdvanceStaysOnMap(run[b], dists[b], dists[b]);
  }

  /** Every map quest that is left alone ends: at most 22 ticks, the party never off
      the map. */
  lemma JourneyEnds(run: seq<Journey>, dists: seq<real>)
    requires Underway(run, dists)
    ensures |run| <= 22
    ensures |run| == 22 ==> Advance(run[21], dists[21]).1
    ensures forall i :: 0 <= i < |run| ==> run[i].OnMap()
  {
    forall i | 0 <= i < |run|
      ensures run[i].OnMap() && run[i].stage in {0, 1}
    {
      StaysOnMap(run, dists, i);
    }
    if |run| > 21 {
      if run[11].stage == 0 {
        TicksSpent(run, dists, 0, 11);
      }
      LegsInOrder(run, dists, 11, 21);
      TicksSpent(run, dists, 11, 21);
      AdvanceStaysOnMap(run[21], dists[21], dists[21]);
      assert |run| > 22 ==> GoesOn(run, dists, 21);
    }
  }
}
