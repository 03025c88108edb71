/** The height animation of add_bars: every displayed height m_cHeights[y][x]
    moves towards its target m_heights[y][x] by at most m_hSpeed per frame,
    and snaps to the target when it is within one step or when the speed is
    not positive. */
module Animation {
  import opened Bands
  import opened Grids

  function Abs(v: real): (a: real)
    ensures a >= 0.0 && (a == v || a == -v)
  {
    if v < 0.0 then -v else v
  }

  function Max(a: real, b: real): (m: real)
    ensures m >= a && m >= b && (m == a || m == b)
  {
    if a < b then b else a
  }

  /** One frame of one bar. */
  function Step(c: real, t: real, speed: real): (r: real)
    // Not moving, or close enough: snap onto the target.
    ensures speed <= 0.0 || Abs(c - t) <= speed ==> r == t
    // Otherwise move by exactly one speed step, towards the target.
    ensures speed > 0.0 && Abs(c - t) > speed ==>
      Abs(r - c) == speed && Abs(r - t) == Abs(c - t) - speed
    // Never overshoot: the result lies between the current value and the target.
    ensures (c <= r <= t) || (t <= r <= c)
    // The distance to the target never grows, and the target is a fixed point.
    ensures Abs(r - t) <= Abs(c - t)
    ensures c == t ==> r == c
  {
    if speed > 0.0 && Abs(c - t) > speed then
      if c < t then c + speed else c - speed
    else
      t
  }

  /** n frames towards a fixed target. */
  function StepN(c: real, t: real, speed: real, n: nat): real {
    if n == 0 then c else Step(StepN(c, t, speed, n - 1), t, speed)
  }

  /** How far n frames at the given speed can carry a bar. */
  function Travel(n: nat, speed: real): real {
    (n as real) * speed
  }

  lemma TravelStep(n: nat, speed: real)
    requires n > 0
    ensures Travel(n, speed) == Travel(n - 1, speed) + speed
  {
  }

  /** With a positive speed the distance shrinks by exactly one speed step per
      frame until it reaches zero. */
  lemma {:induction false} StepNDistance(c: real, t: real, speed: real, n: nat)
    requires speed > 0.0
    ensures Abs(StepN(c, t, speed, n) - t) == Max(0.0, Abs(c - t) - Travel(n, speed))
  {
    if n > 0 {
      StepNDistance(c, t, speed, n - 1);
      TravelStep(n, speed);
      StepDistance(StepN(c, t, speed, n - 1), t, speed);
    }
  }

  /** The distance after one frame, as a function of the distance before it. */
  lemma StepDistance(c: real, t: real, speed: real)
    requires speed > 0.0
    ensures Abs(Step(c, t, speed) - t) == Max(0.0, Abs(c - t) - speed)
  {
  }

  /** A bar reaches its target after enough frames and stays there. */
  lemma StepNReachesTarget(c: real, t: real, speed: real, n: nat)
    requires speed > 0.0
    requires Travel(n, speed) >= Abs(c - t)
    ensures StepN(c, t, speed, n) == t
  {
    StepNDistance(c, t, speed, n);
  }

  /** A bar that has not reached its target stays on the side it started from. */
  lemma {:induction false} StepNSameSide(c: real, t: real, speed: real, n: nat)
    ensures c <= t ==> StepN(c, t, speed, n) <= t
    ensures c >= t ==> StepN(c, t, speed, n) >= t
  {
    if n > 0 {
      StepNSameSide(c, t, speed, n - 1);
    }
  }

  /** One frame of the whole grid: each bar steps towards its own target. */
  function Animate(cur: Grid, target: Grid, speed: real): (r: Grid)
    requires IsGrid(cur) && IsGrid(target)
    ensures IsGrid(r)
    ensures forall y, x :: 0 <= y < NumBands && 0 <= x < NumBands ==>
      r[y][x] == Step(cur[y][x], target[y][x], speed)
  {
    seq(NumBands, y requires 0 <= y < NumBands =>
      seq(NumBands, x requires 0 <= x < NumBands => Step(cur[y][x], target[y][x], speed)))
  }

  /** A grid that shows its targets does not move. */
  lemma AnimateFixedPoint(g: Grid, speed: real)
    requires IsGrid(g)
    ensures Animate(g, g, speed) == g
  {
    var r := Animate(g, g, speed);
    forall y | 0 <= y < NumBands
      ensures r[y] == g[y]
    {
    }
  }

  /** With the speed setting "off" (0) the grid jumps straight to its targets. */
  lemma AnimateWithoutSpeedSnaps(cur: Grid, target: Grid, speed: real)
    requires IsGrid(cur) && IsGrid(target) && speed <= 0.0
    ensures Animate(cur, target, speed) == target
  {
    var r := Animate(cur, target, speed);
    forall y | 0 <= y < NumBands
      ensures r[y] == target[y]
    {
    }
  }

  /** Bars between non-negative heights stay non-negative. */
  lemma AnimateNonNegative(cur: Grid, target: Grid, speed: real)
    requires IsGrid(cur) && IsGrid(target)
    requires NonNegative(cur) && NonNegative(target)
    ensures NonNegative(Animate(cur, target, speed))
  {
  }

  /** No bar ends further from its target than it started. */
  lemma AnimateApproaches(cur: Grid, target: Grid, speed: real, y: int, x: int)
    requires IsGrid(cur) && IsGrid(target) && IsCell(y, x)
    ensures Abs(Animate(cur, target, speed)[y][x] - target[y][x]) <= Abs(cur[y][x] - target[y][x])
  {
  }
}
