/**
 * The helical ramp entry of generateGCode (PathAdaptive.py:214-236): two
 * loops that step an angle counter by ten degrees, the first descending from
 * the pass start depth to the pass end depth, the second sweeping one more
 * turn at the pass end depth.
 */
module AdaptiveHelix {
  import opened Wrappers
  import opened Geometry
  import opened AdaptiveTypes

  /** The angle increment of both loops, math.pi/18 (lines 227 and 236). */
  function AngleStep(m: MathLib): real
  {
    m.pi / 18.0
  }

  /** How many more times `while cur < bound: cur += step` runs: the ceiling of (bound - cur)/step. */
  function Remaining(cur: real, bound: real, step: real): nat
    requires step > 0.0
  {
    if cur < bound then -((cur - bound) / step).Floor else 0
  }

  lemma RemainingStep(cur: real, bound: real, step: real)
    requires step > 0.0 && cur < bound
    ensures Remaining(cur + step, bound, step) == Remaining(cur, bound, step) - 1
  {
    var q := (cur - bound) / step;
    assert q * step == cur - bound;
    var q' := (cur + step - bound) / step;
    assert q' * step == cur + step - bound;
    assert (q + 1.0) * step == q * step + step;
    assert (q' - (q + 1.0)) * step == 0.0;
    ZeroProduct(q' - (q + 1.0), step);
    if cur + step >= bound {
      assert -1.0 <= q < 0.0;
    }
  }

  lemma ZeroProduct(x: real, y: real)
    requires x * y == 0.0 && y > 0.0
    ensures x == 0.0
  {
  }

  /** The value of the counter when `while cur < bound: cur += step` stops. */
  function LoopEnd(cur: real, bound: real, step: real): real
    requires step > 0.0
    decreases Remaining(cur, bound, step)
  {
    if cur < bound then
      RemainingStep(cur, bound, step);
      LoopEnd(cur + step, bound, step)
    else
      cur
  }

  /**
   * The loop stops at the first value of cur + k*step that reaches the
   * bound, after exactly Remaining(cur, bound, step) steps.
   */
  lemma {:induction false} LoopEndIsFirstAtBound(cur: real, bound: real, step: real)
    requires step > 0.0
    ensures LoopEnd(cur, bound, step) == cur + (Remaining(cur, bound, step) as real) * step
    ensures cur >= bound ==> LoopEnd(cur, bound, step) == cur
    ensures cur < bound ==> bound <= LoopEnd(cur, bound, step) < bound + step
    decreases Remaining(cur, bound, step)
  {
    if cur < bound {
      RemainingStep(cur, bound, step);
      LoopEndIsFirstAtBound(cur + step, bound, step);
      var r := Remaining(cur, bound, step);
      assert cur + step + ((r - 1) as real) * step == cur + (r as real) * step;
    }
  }

  /** The ramp geometry of one region at one pass. */
  datatype Helix = Helix(
    center: Point2,
    radius: real,
    startAngle: real,
    passStart: real,
    passEnd: real,
    maxRadians: real)

  /** The point on the helix circle at a given angle past the start angle. */
  function RampPoint(m: MathLib, h: Helix, angle: real): Point2
  {
    Point2(h.center.x + h.radius * m.cos(angle + h.startAngle),
           h.center.y + h.radius * m.sin(angle + h.startAngle))
  }

  /** Height of the descending ramp at an angle (line 225). */
  function DescentZ(h: Helix, angle: real): real
    requires h.maxRadians != 0.0
  {
    h.passStart - angle / h.maxRadians * (h.passStart - h.passEnd)
  }

  /** The feeds of the first loop (lines 222-227), from counter value cur on. */
  function Descent(m: MathLib, feed: real, h: Helix, cur: real): seq<Command>
    requires m.pi > 0.0 && cur >= 0.0
    decreases Remaining(cur, h.maxRadians, AngleStep(m))
  {
    if cur < h.maxRadians then
      RemainingStep(cur, h.maxRadians, AngleStep(m));
      var p := RampPoint(m, h, cur);
      [Feed(Some(p.x), Some(p.y), Some(DescentZ(h, cur)), feed)]
        + Descent(m, feed, h, cur + AngleStep(m))
    else
      []
  }

  /** The feeds of the second loop (lines 231-236), from cur up to bound. */
  function Sweep(m: MathLib, feed: real, h: Helix, cur: real, bound: real): seq<Command>
    requires m.pi > 0.0
    decreases Remaining(cur, bound, AngleStep(m))
  {
    if cur < bound then
      RemainingStep(cur, bound, AngleStep(m));
      var p := RampPoint(m, h, cur);
      [Feed(Some(p.x), Some(p.y), Some(h.passEnd), feed)]
        + Sweep(m, feed, h, cur + AngleStep(m), bound)
    else
      []
  }

  /** The counter after k increments of step, starting from cur. */
  function AngleAt(cur: real, step: real, k: nat): real
    decreases k
  {
    if k == 0 then cur else AngleAt(cur + step, step, k - 1)
  }

  /** k increments of step add k*step. */
  lemma {:induction false} AngleAtClosedForm(cur: real, step: real, k: nat)
    ensures AngleAt(cur, step, k) == cur + (k as real) * step
    decreases k
  {
    if k > 0 {
      AngleAtClosedForm(cur + step, step, k - 1);
      StepShift(cur, step, k);
    }
  }

  lemma StepShift(cur: real, step: real, k: nat)
    requires k > 0
    ensures cur + step + ((k - 1) as real) * step == cur + (k as real) * step
  {
  }

  /** With a positive step the counter grows with the number of increments. */
  lemma AngleAtMonotone(cur: real, step: real, k1: nat, k2: nat)
    requires step > 0.0 && k1 <= k2
    ensures cur <= AngleAt(cur, step, k1) <= AngleAt(cur, step, k2)
  {
    AngleAtClosedForm(cur, step, k1);
    AngleAtClosedForm(cur, step, k2);
    StepMonotone(k1 as real, k2 as real, step);
  }

  /**
   * The k-th feed of the first loop is at the k-th counter value, which is
   * still below maxRadians, and at the interpolated height of line 225.
   */
  lemma {:induction false} DescentAt(m: MathLib, feed: real, h: Helix, cur: real, k: nat)
    requires m.pi > 0.0 && cur >= 0.0
    requires k < |Descent(m, feed, h, cur)|
    ensures var a := AngleAt(cur, AngleStep(m), k);
      && 0.0 <= a < h.maxRadians
      && Descent(m, feed, h, cur)[k]
         == Feed(Some(RampPoint(m, h, a).x), Some(RampPoint(m, h, a).y), Some(DescentZ(h, a)), feed)
    decreases k
  {
    var step := AngleStep(m);
    assert cur < h.maxRadians;
    if k > 0 {
      var rest := Descent(m, feed, h, cur + step);
      assert Descent(m, feed, h, cur)[k] == rest[k - 1];
      DescentAt(m, feed, h, cur + step, k - 1);
    }
  }

  /** The k-th feed of the second loop is at the k-th counter value, at the pass end depth. */
  lemma {:induction false} SweepAt(m: MathLib, feed: real, h: Helix, cur: real, bound: real, k: nat)
    requires m.pi > 0.0
    requires k < |Sweep(m, feed, h, cur, bound)|
    ensures var a := AngleAt(cur, AngleStep(m), k);
      && a < bound
      && Sweep(m, feed, h, cur, bound)[k]
         == Feed(Some(RampPoint(m, h, a).x), Some(RampPoint(m, h, a).y), Some(h.passEnd), feed)
    decreases k
  {
    var step := AngleStep(m);
    assert cur < bound;
    if k > 0 {
      var rest := Sweep(m, feed, h, cur + step, bound);
      assert Sweep(m, feed, h, cur, bound)[k] == rest[k - 1];
      SweepAt(m, feed, h, cur + step, bound, k - 1);
    }
  }

  /** The loops emit exactly as many feeds as the counter takes steps. */
  lemma {:induction false} SweepLength(m: MathLib, feed: real, h: Helix, cur: real, bound: real)
    requires m.pi > 0.0
    ensures |Sweep(m, feed, h, cur, bound)| == Remaining(cur, bound, AngleStep(m))
    decreases Remaining(cur, bound, AngleStep(m))
  {
    if cur < bound {
      RemainingStep(cur, bound, AngleStep(m));
      SweepLength(m, feed, h, cur + AngleStep(m), bound);
    }
  }

  /** Line 225 interpolates: at angles in [0, maxRadians) the height lies in (passEnd, passStart]. */
  lemma DescentZInPass(h: Helix, a: real)
    requires 0.0 <= a < h.maxRadians && h.passStart > h.passEnd
    ensures h.passEnd < DescentZ(h, a) <= h.passStart
  {
    var t := a / h.maxRadians;
    assert t * h.maxRadians == a;
    assert 0.0 <= t < 1.0;
    var d := h.passStart - h.passEnd;
    assert t * d < 1.0 * d;
  }

  /** Line 225 never rises as the angle grows on a descending pass. */
  lemma DescentZMonotone(h: Helix, a1: real, a2: real)
    requires 0.0 <= a1 <= a2 && h.maxRadians > 0.0 && h.passStart >= h.passEnd
    ensures DescentZ(h, a2) <= DescentZ(h, a1)
  {
    var t1, t2 := a1 / h.maxRadians, a2 / h.maxRadians;
    assert t1 * h.maxRadians == a1 && t2 * h.maxRadians == a2;
    assert t1 <= t2;
    var d := h.passStart - h.passEnd;
    assert t1 * d <= t2 * d;
  }

  /** One feed of the first loop on a descending pass lies in (passEnd, passStart]. */
  lemma DescentFeedInPass(m: MathLib, feed: real, h: Helix, k: nat)
    requires m.pi > 0.0 && h.passStart > h.passEnd
    requires k < |Descent(m, feed, h, 0.0)|
    ensures var c := Descent(m, feed, h, 0.0)[k];
      c.Feed? && c.f == feed && c.z.Some? && h.passEnd < c.z.value <= h.passStart
  {
    DescentAt(m, feed, h, 0.0, k);
    DescentZInPass(h, AngleAt(0.0, AngleStep(m), k));
  }

  /** Two feeds of the first loop on a descending pass: the later one is not higher. */
  lemma DescentFeedsNonIncreasing(m: MathLib, feed: real, h: Helix, k1: nat, k2: nat)
    requires m.pi > 0.0 && h.passStart >= h.passEnd
    requires k1 < k2 < |Descent(m, feed, h, 0.0)|
    ensures var ds := Descent(m, feed, h, 0.0);
      ds[k1].Feed? && ds[k2].Feed? && ds[k1].z.Some? && ds[k2].z.Some?
      && ds[k2].z.value <= ds[k1].z.value
  {
    var step := AngleStep(m);
    DescentAt(m, feed, h, 0.0, k1);
    DescentAt(m, feed, h, 0.0, k2);
    AngleAtMonotone(0.0, step, k1, k2);
    DescentZMonotone(h, AngleAt(0.0, step, k1), AngleAt(0.0, step, k2));
  }

  lemma StepMonotone(x: real, y: real, step: real)
    requires 0.0 <= x <= y && step > 0.0
    ensures 0.0 <= x * step <= y * step
  {
  }

  /**
   * On a descending pass the first loop starts at the pass start depth,
   * every feed lies in (passEnd, passStart], and the heights never rise.
   */
  lemma DescentDepths(m: MathLib, feed: real, h: Helix)
    requires m.pi > 0.0 && h.passStart > h.passEnd
    ensures var ds := Descent(m, feed, h, 0.0);
      && (forall k :: 0 <= k < |ds| ==>
            ds[k].Feed? && ds[k].f == feed && ds[k].z.Some?
            && h.passEnd < ds[k].z.value <= h.passStart)
      && (|ds| > 0 ==> ds[0].z == Some(h.passStart))
      && (forall k1, k2 :: 0 <= k1 < k2 < |ds| ==> ds[k2].z.value <= ds[k1].z.value)
  {
    var ds := Descent(m, feed, h, 0.0);
    forall k | 0 <= k < |ds|
      ensures ds[k].Feed? && ds[k].f == feed && ds[k].z.Some? && h.passEnd < ds[k].z.value <= h.passStart
    {
      DescentFeedInPass(m, feed, h, k);
    }
    if |ds| > 0 {
      DescentAt(m, feed, h, 0.0, 0);
    }
    forall k1, k2 | 0 <= k1 < k2 < |ds|
      ensures ds[k2].z.value <= ds[k1].z.value
    {
      DescentFeedsNonIncreasing(m, feed, h, k1, k2);
    }
  }

  /** Every feed of the second loop is at the pass end depth, with the given feed rate. */
  lemma SweepDepths(m: MathLib, feed: real, h: Helix, cur: real, bound: real)
    requires m.pi > 0.0
    ensures var sw := Sweep(m, feed, h, cur, bound);
      forall k :: 0 <= k < |sw| ==> sw[k].Feed? && sw[k].z == Some(h.passEnd) && sw[k].f == feed
  {
    var sw := Sweep(m, feed, h, cur, bound);
    forall k | 0 <= k < |sw|
      ensures sw[k].Feed? && sw[k].z == Some(h.passEnd) && sw[k].f == feed
    {
      SweepAt(m, feed, h, cur, bound, k);
    }
  }

  /**
   * The second loop continues from where the first stopped and emits at
   * least one feed whenever maxRadians is above minus one full turn (in
   * particular on every descending pass with a positive tan).
   */
  lemma SweepAfterDescentNonEmpty(m: MathLib, feed: real, h: Helix)
    requires m.pi > 0.0 && h.maxRadians > -2.0 * m.pi
    ensures |Sweep(m, feed, h, LoopEnd(0.0, h.maxRadians, AngleStep(m)), h.maxRadians + 2.0 * m.pi)| > 0
  {
    LoopEndIsFirstAtBound(0.0, h.maxRadians, AngleStep(m));
  }
}
