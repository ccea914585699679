/** The trajectory preview of calculateTrajectory: closed-form projectile
    positions sampled every 0.08 s under a gravity of 300 px/s^2 (screen y
    grows downwards). The launch direction enters as its cosine and sine. */
module Ballistics {

  const Gravity: real := 300.0
  const TimeStep: real := 0.08
  /** Number of points updateTrajectory asks for. */
  const PreviewSteps := 25

  datatype Point = Point(x: real, y: real)

  /** Launch velocity (vx, vy) from the cosine and sine of the aim angle and the launch speed. */
  function Launch(cosAngle: real, sinAngle: real, speed: real): (v: (real, real)) {
    (cosAngle * speed, sinAngle * speed)
  }

  /** Position at time t of a projectile launched from (x0, y0) with velocity (vx, vy). */
  function PositionAt(x0: real, y0: real, vx: real, vy: real, t: real): Point {
    Point(x0 + vx * t, y0 + vy * t + 0.5 * Gravity * t * t)
  }

  /** The i-th point the preview computes: the position at t = 0.08 * i. */
  function Sample(x0: real, y0: real, vx: real, vy: real, i: nat): Point {
    PositionAt(x0, y0, vx, vy, TimeStep * (i as real))
  }

  /** The samples lie on one parabola: x advances by the same amount every
      step and the step in y grows by the same amount, gravity * 0.08^2. */
  lemma {:induction false} UniformSteps(x0: real, y0: real, vx: real, vy: real, i: nat)
    ensures var p, q, s := Sample(x0, y0, vx, vy, i), Sample(x0, y0, vx, vy, i + 1), Sample(x0, y0, vx, vy, i + 2);
      && q.x - p.x == vx * TimeStep
      && s.x - q.x == vx * TimeStep
      && (s.y - q.y) - (q.y - p.y) == Gravity * TimeStep * TimeStep
  {
    var t := TimeStep * (i as real);
    var u := t + TimeStep;
    NextSample(x0, y0, vx, vy, i, t);
    assert u == TimeStep * ((i + 1) as real);
    NextSample(x0, y0, vx, vy, i + 1, u);
    SecondDifference(0.5 * Gravity, t, TimeStep);
  }

  /** The second difference of a * t^2 over steps of h is 2 * a * h^2. */
  lemma SecondDifference(a: real, t: real, h: real)
    ensures a * (t + h + h) * (t + h + h) - 2.0 * (a * (t + h) * (t + h)) + a * t * t == 2.0 * a * h * h
  {
  }

  /** One step of the preview's clock: from the time of sample i, adding 0.08
      gives the position of sample i + 1. */
  lemma NextSample(x0: real, y0: real, vx: real, vy: real, i: nat, t: real)
    requires t == TimeStep * (i as real)
    ensures Sample(x0, y0, vx, vy, i + 1)
         == Point(x0 + vx * (t + TimeStep), y0 + vy * (t + TimeStep) + 0.5 * Gravity * (t + TimeStep) * (t + TimeStep))
  {
    assert TimeStep * ((i + 1) as real) == t + TimeStep;
  }

  /** The first sample is the launch point. */
  lemma StartsAtLaunch(x0: real, y0: real, vx: real, vy: real)
    ensures Sample(x0, y0, vx, vy, 0) == Point(x0, y0)
  {
  }

  /** The flat-ground stop test of the scenes without terrain: below the
      ground line 50 px above the bottom edge, or off either side. */
  predicate OffFlatField(p: Point, width: real, height: real) {
    p.y > height - 50.0 || p.x < 0.0 || p.x > width
  }

  /** calculateTrajectory over flat ground: record the current position, step
      the clock and stop as soon as the next position leaves the field. */
  method FlatTrajectory(startX: real, startY: real, vx: real, vy: real, steps: int, width: real, height: real)
    returns (points: seq<Point>)
    ensures steps <= 0 ==> points == []
    ensures steps > 0 ==> 1 <= |points| <= steps
    ensures forall k :: 0 <= k < |points| ==> points[k] == Sample(startX, startY, vx, vy, k)
    ensures forall k :: 1 <= k < |points| ==> !OffFlatField(points[k], width, height)
    ensures 0 < |points| < steps ==> OffFlatField(Sample(startX, startY, vx, vy, |points|), width, height)
  {
    points := [];
    var x, y, t := startX, startY, 0.0;
    var i := 0;
    while i < steps
      invariant 0 <= i && (steps > 0 ==> i <= steps) && (steps <= 0 ==> i == 0)
      invariant |points| == i
      invariant t == TimeStep * (i as real)
      invariant Point(x, y) == Sample(startX, startY, vx, vy, i)
      invariant forall k :: 0 <= k < i ==> points[k] == Sample(startX, startY, vx, vy, k)
      invariant forall k :: 1 <= k <= i ==> !OffFlatField(Sample(startX, startY, vx, vy, k), width, height)
    {
      points := points + [Point(x, y)];
      NextSample(startX, startY, vx, vy, i, t);
      t := t + TimeStep;
      x := startX + vx * t;
      y := startY + vy * t + 0.5 * Gravity * t * t;
      assert Point(x, y) == Sample(startX, startY, vx, vy, i + 1);
      if y > height - 50.0 || x < 0.0 || x > width {
        break;
      }
      i := i + 1;
    }
  }
}
