/**
 * What generateGCode (PathAdaptive.py:171-279) emits, as functions of its
 * inputs: the parameter clamps, the two kinds of region entry, the motion
 * classification of engine points with its lastZ bookkeeping, the returns to
 * clearance height, and the pass/region nesting.
 */
module AdaptiveEmit {
  import opened Wrappers
  import opened Geometry
  import opened AdaptiveTypes
  import opened AdaptiveHelix

  /** Below this helix radius a region is entered by a straight plunge (line 204). */
  const MinHelixRadius: real := 0.0001

  // ---------------------------------------------------------------------
  // Parameter clamps (lines 177-184)
  // ---------------------------------------------------------------------

  /** The locals and the helix angle after the clamps of lines 177-184. */
  datatype Settled = Settled(stepDown: real, stepUp: real, finishStep: real, helixAngle: real)

  function Settle(stepDown: real, liftDistance: real, toolDiameter: real, finishDepth: real, helixAngle: real): (s: Settled)
    ensures s.stepDown >= 0.1 && (stepDown >= 0.1 ==> s.stepDown == stepDown)
    ensures s.stepDown == stepDown || s.stepDown == 0.1
    ensures s.stepUp >= toolDiameter && (liftDistance >= toolDiameter ==> s.stepUp == liftDistance)
    ensures s.stepUp == liftDistance || s.stepUp == toolDiameter
    ensures s.finishStep <= s.stepDown && (finishDepth <= s.stepDown ==> s.finishStep == finishDepth)
    ensures s.finishStep == finishDepth || s.finishStep == s.stepDown
    ensures s.helixAngle >= 1.0 && (helixAngle >= 1.0 ==> s.helixAngle == helixAngle)
    ensures s.helixAngle == helixAngle || s.helixAngle == 1.0
  {
    var sd := ClampMin(stepDown, 0.1);
    Settled(sd, ClampMin(liftDistance, toolDiameter), ClampMax(finishDepth, sd), ClampMin(helixAngle, 1.0))
  }

  // ---------------------------------------------------------------------
  // Tool height after a command sequence
  // ---------------------------------------------------------------------

  /** The height a command moves the tool to, if it names Z. */
  function SetsZ(c: Command): Option<real>
  {
    match c
    case Comment(_, _) => None
    case Rapid(_, _, z) => z
    case Feed(_, _, z, _) => z
  }

  /** The tool height after running cmds from height z0: the last Z named, or z0. */
  function HeightAfter(cmds: seq<Command>, z0: real): real
    decreases |cmds|
  {
    if cmds == [] then z0
    else if SetsZ(cmds[|cmds| - 1]).Some? then SetsZ(cmds[|cmds| - 1]).value
    else HeightAfter(cmds[..|cmds| - 1], z0)
  }

  lemma {:induction false} HeightAfterAppend(a: seq<Command>, b: seq<Command>, z0: real)
    ensures HeightAfter(a + b, z0) == HeightAfter(b, HeightAfter(a, z0))
    decreases |b|
  {
    if b == [] {
      assert a + b == a;
    } else {
      assert (a + b)[|a + b| - 1] == b[|b| - 1];
      assert (a + b)[..|a + b| - 1] == a + b[..|b| - 1];
      HeightAfterAppend(a, b[..|b| - 1], z0);
    }
  }

  // ---------------------------------------------------------------------
  // Motion classification (lines 247-265)
  // ---------------------------------------------------------------------

  /** The height a point of each motion type is visited at (lines 253, 257, 261). */
  function MotionZ(ctx: EmitContext, passEnd: real, mt: MotionType): real
  {
    match mt
    case Cutting => passEnd
    case LinkClear => passEnd + ctx.stepUp
    case LinkNotClear => ctx.clearance
  }

  /** The Z-only move of lines 254, 258 and 262. */
  function ZMove(ctx: EmitContext, mt: MotionType, z: real): Command
  {
    if mt == Cutting then Feed(None, None, Some(z), ctx.vertFeed) else Rapid(None, None, Some(z))
  }

  /** The XY move of lines 255, 259 and 263. */
  function XYMove(ctx: EmitContext, mt: MotionType, p: Point2): Command
  {
    if mt == Cutting then Feed(Some(p.x), Some(p.y), None, ctx.horizFeed) else Rapid(Some(p.x), Some(p.y), None)
  }

  /** One point of an engine path: the commands appended and the new lastZ (line 265). */
  function PointStep(ctx: EmitContext, passEnd: real, mt: MotionType, p: Point2, lastZ: real): (seq<Command>, real)
  {
    var z := MotionZ(ctx, passEnd, mt);
    ((if z != lastZ then [ZMove(ctx, mt, z)] else []) + [XYMove(ctx, mt, p)], z)
  }

  /**
   * A point yields a Z-only move exactly when its height differs from lastZ,
   * followed by one XY move to the point; cutting points are G1 moves at the
   * vertical and horizontal feeds, link points G0 moves; afterwards the tool
   * is at the height lastZ then records.
   */
  lemma PointStepClassifies(ctx: EmitContext, passEnd: real, mt: MotionType, p: Point2, lastZ: real)
    ensures var (cmds, z) := PointStep(ctx, passEnd, mt, p, lastZ);
      && z == MotionZ(ctx, passEnd, mt)
      && (|cmds| == 2 <==> z != lastZ) && 1 <= |cmds| <= 2
      && (|cmds| == 2 ==> SetsZ(cmds[0]) == Some(z) && cmds[0].x == None && cmds[0].y == None)
      && cmds[|cmds| - 1].x == Some(p.x) && cmds[|cmds| - 1].y == Some(p.y) && cmds[|cmds| - 1].z == None
      && (mt == Cutting ==> cmds[|cmds| - 1] == Feed(Some(p.x), Some(p.y), None, ctx.horizFeed)
                            && (|cmds| == 2 ==> cmds[0].Feed? && cmds[0].f == ctx.vertFeed))
      && (mt != Cutting ==> forall c :: c in cmds ==> c.Rapid?)
      && HeightAfter(cmds, lastZ) == z
  {
    var (cmds, z) := PointStep(ctx, passEnd, mt, p, lastZ);
    if z != lastZ {
      assert cmds[..1] == [ZMove(ctx, mt, z)];
    }
  }

  /** The inner loop of lines 249-265 over the points of one path. */
  function PointsEmit(ctx: EmitContext, passEnd: real, mt: MotionType, pts: seq<Point2>, lastZ: real): (seq<Command>, real)
    decreases |pts|
  {
    if pts == [] then ([], lastZ)
    else
      var s := PointStep(ctx, passEnd, mt, pts[0], lastZ);
      var rest := PointsEmit(ctx, passEnd, mt, pts[1..], s.1);
      (s.0 + rest.0, rest.1)
  }

  /** One XY move per point, in order. */
  function XYMoves(ctx: EmitContext, mt: MotionType, pts: seq<Point2>): seq<Command>
  {
    seq(|pts|, i requires 0 <= i < |pts| => XYMove(ctx, mt, pts[i]))
  }

  /**
   * Within one path every point has the same height, so a path yields at most
   * one Z-only move, before its first point, and then one XY move per point.
   */
  lemma {:induction false} PointsEmitClosedForm(ctx: EmitContext, passEnd: real, mt: MotionType, pts: seq<Point2>, lastZ: real)
    ensures var z := MotionZ(ctx, passEnd, mt);
      && PointsEmit(ctx, passEnd, mt, pts, lastZ).1 == (if pts == [] then lastZ else z)
      && PointsEmit(ctx, passEnd, mt, pts, lastZ).0
         == (if pts != [] && z != lastZ then [ZMove(ctx, mt, z)] else []) + XYMoves(ctx, mt, pts)
    decreases |pts|
  {
    if pts != [] {
      var z := MotionZ(ctx, passEnd, mt);
      PointsEmitClosedForm(ctx, passEnd, mt, pts[1..], z);
      assert XYMoves(ctx, mt, pts) == [XYMove(ctx, mt, pts[0])] + XYMoves(ctx, mt, pts[1..]);
    }
  }

  /** lastZ keeps recording the tool height through a path. */
  lemma {:induction false} PointsEmitTracksHeight(ctx: EmitContext, passEnd: real, mt: MotionType, pts: seq<Point2>, lastZ: real)
    ensures HeightAfter(PointsEmit(ctx, passEnd, mt, pts, lastZ).0, lastZ) == PointsEmit(ctx, passEnd, mt, pts, lastZ).1
    decreases |pts|
  {
    if pts != [] {
      var s := PointStep(ctx, passEnd, mt, pts[0], lastZ);
      PointStepClassifies(ctx, passEnd, mt, pts[0], lastZ);
      PointsEmitTracksHeight(ctx, passEnd, mt, pts[1..], s.1);
      HeightAfterAppend(s.0, PointsEmit(ctx, passEnd, mt, pts[1..], s.1).0, lastZ);
    }
  }

  /** The loop of line 247 over the paths of one region. */
  function PathsEmit(ctx: EmitContext, passEnd: real, paths: seq<EnginePath>, lastZ: real): (seq<Command>, real)
    decreases |paths|
  {
    if paths == [] then ([], lastZ)
    else
      var p := PointsEmit(ctx, passEnd, paths[0].motion, paths[0].points, lastZ);
      var rest := PathsEmit(ctx, passEnd, paths[1..], p.1);
      (p.0 + rest.0, rest.1)
  }

  /** lastZ keeps recording the tool height through all paths of a region. */
  lemma {:induction false} PathsEmitTracksHeight(ctx: EmitContext, passEnd: real, paths: seq<EnginePath>, lastZ: real)
    ensures HeightAfter(PathsEmit(ctx, passEnd, paths, lastZ).0, lastZ) == PathsEmit(ctx, passEnd, paths, lastZ).1
    decreases |paths|
  {
    if paths != [] {
      var p := PointsEmit(ctx, passEnd, paths[0].motion, paths[0].points, lastZ);
      PointsEmitTracksHeight(ctx, passEnd, paths[0].motion, paths[0].points, lastZ);
      PathsEmitTracksHeight(ctx, passEnd, paths[1..], p.1);
      HeightAfterAppend(p.0, PathsEmit(ctx, passEnd, paths[1..], p.1).0, lastZ);
    }
  }

  /**
   * The end-to-end classification scenario: a cutting path through (0,0),
   * (5,0) and a not-clear link through (5,0), (5,5) at pass end depth -10
   * with clearance 20 give two G1 moves at -10 and then a G0 rise to 20
   * before the link's G0 moves.
   */
  lemma MotionClassificationExample(ctx: EmitContext)
    requires ctx.clearance == 20.0
    ensures PathsEmit(ctx, -10.0,
              [EnginePath(Cutting, [Point2(0.0, 0.0), Point2(5.0, 0.0)]),
               EnginePath(LinkNotClear, [Point2(5.0, 0.0), Point2(5.0, 5.0)])], -10.0)
         == ([Feed(Some(0.0), Some(0.0), None, ctx.horizFeed),
              Feed(Some(5.0), Some(0.0), None, ctx.horizFeed),
              Rapid(None, None, Some(20.0)),
              Rapid(Some(5.0), Some(0.0), None),
              Rapid(Some(5.0), Some(5.0), None)], 20.0)
  {
    var cut := [Point2(0.0, 0.0), Point2(5.0, 0.0)];
    var link := [Point2(5.0, 0.0), Point2(5.0, 5.0)];
    PointsEmitClosedForm(ctx, -10.0, Cutting, cut, -10.0);
    PointsEmitClosedForm(ctx, -10.0, LinkNotClear, link, -10.0);
    assert XYMoves(ctx, Cutting, cut)
      == [Feed(Some(0.0), Some(0.0), None, ctx.horizFeed), Feed(Some(5.0), Some(0.0), None, ctx.horizFeed)];
    assert XYMoves(ctx, LinkNotClear, link) == [Rapid(Some(5.0), Some(0.0), None), Rapid(Some(5.0), Some(5.0), None)];
    var paths := [EnginePath(Cutting, cut), EnginePath(LinkNotClear, link)];
    assert paths[1..] == [EnginePath(LinkNotClear, link)];
    assert paths[1..][1..] == [];
    var first := PointsEmit(ctx, -10.0, Cutting, cut, -10.0);
    assert first.0 == XYMoves(ctx, Cutting, cut);
    assert first.1 == -10.0;
    var second := PointsEmit(ctx, -10.0, LinkNotClear, link, -10.0);
    assert second.0 + [] == second.0;
    assert PathsEmit(ctx, -10.0, paths[1..], -10.0) == second;
    assert second.0 == [Rapid(None, None, Some(20.0))] + XYMoves(ctx, LinkNotClear, link);
    assert PathsEmit(ctx, -10.0, paths, -10.0) == (first.0 + second.0, second.1);
    assert second.1 == 20.0;
    assert first.0 + second.0
        == [Feed(Some(0.0), Some(0.0), None, ctx.horizFeed),
            Feed(Some(5.0), Some(0.0), None, ctx.horizFeed),
            Rapid(None, None, Some(20.0)),
            Rapid(Some(5.0), Some(0.0), None),
            Rapid(Some(5.0), Some(5.0), None)];
  }

  // ---------------------------------------------------------------------
  // Region entry (lines 199-241)
  // ---------------------------------------------------------------------

  /** Distance from the helix center to the start point (line 201). */
  function HelixRadius(m: MathLib, region: Region): real
  {
    var dx := region.helixCenter.x - region.start.x;
    var dy := region.helixCenter.y - region.start.y;
    m.sqrt(dx * dx + dy * dy)
  }

  lemma PositiveProduct(x: real, y: real)
    requires x > 0.0 && y > 0.0
    ensures x * y > 0.0
  {
  }

  lemma NonZeroProduct(x: real, y: real)
    requires x != 0.0 && y != 0.0
    ensures x * y != 0.0
  {
  }

  /** tan of the helix angle, converted to radians (lines 216-217). */
  function HelixTan(m: MathLib, ctx: EmitContext): real
  {
    m.tan(m.pi * ctx.helixAngle / 180.0)
  }

  /** depthPerRevolution of line 217: the circumference 2*pi*r times the tan of the helix angle. */
  function DepthPerRevolution(m: MathLib, ctx: EmitContext, r: real): (d: real)
    requires ValidMath(m) && ctx.helixAngle >= 1.0 && r > 0.0
    ensures d != 0.0
    ensures HelixTan(m, ctx) > 0.0 ==> d > 0.0
  {
    var circumference := 2.0 * m.pi * r;
    PositiveProduct(2.0 * m.pi, r);
    PositiveProduct(m.pi, ctx.helixAngle);
    assert HelixTan(m, ctx) != 0.0;
    NonZeroProduct(circumference, HelixTan(m, ctx));
    if HelixTan(m, ctx) > 0.0 then
      PositiveProduct(circumference, HelixTan(m, ctx));
      circumference * HelixTan(m, ctx)
    else
      circumference * HelixTan(m, ctx)
  }

  /**
   * The ramp of one region at one pass (lines 208-219): start angle from
   * atan2 and maxRadians, the rotation needed for the pass depth.
   */
  function HelixOf(m: MathLib, ctx: EmitContext, passStart: real, passEnd: real, region: Region): Helix
    requires ValidMath(m) && ctx.helixAngle >= 1.0 && HelixRadius(m, region) > MinHelixRadius
  {
    var c := region.helixCenter;
    var s := region.start;
    var r := HelixRadius(m, region);
    var passDepth := passStart - passEnd;
    Helix(c, r, m.atan2(s.y - c.y, s.x - c.x), passStart, passEnd,
          passDepth / DepthPerRevolution(m, ctx, r) * 2.0 * m.pi)
  }

  /**
   * On a descending pass with a positive tan of the helix angle the ramp has
   * a positive rotation to make, so the first loop emits at least one point.
   */
  lemma HelixTurnsOnDescent(m: MathLib, ctx: EmitContext, passStart: real, passEnd: real, region: Region)
    requires ValidMath(m) && ctx.helixAngle >= 1.0 && HelixRadius(m, region) > MinHelixRadius
    requires passStart > passEnd && HelixTan(m, ctx) > 0.0
    ensures HelixOf(m, ctx, passStart, passEnd, region).maxRadians > 0.0
    ensures |Descent(m, ctx.vertFeed, HelixOf(m, ctx, passStart, passEnd, region), 0.0)| > 0
  {
    var q := (passStart - passEnd) / DepthPerRevolution(m, ctx, HelixRadius(m, region));
    assert q > 0.0;
    PositiveProduct(q * 2.0, m.pi);
  }

  /** helixStart of line 209. */
  function HelixStart(m: MathLib, h: Helix): Point2
  {
    Point2(h.center.x + h.radius * m.cos(h.startAngle), h.center.y + h.radius * m.sin(h.startAngle))
  }

  /** The ramp entry (lines 205-236): approach, descending loop, one more turn at depth. */
  function HelixEntry(m: MathLib, ctx: EmitContext, passStart: real, passEnd: real, region: Region): seq<Command>
    requires ValidMath(m) && ctx.helixAngle >= 1.0 && HelixRadius(m, region) > MinHelixRadius
  {
    var h := HelixOf(m, ctx, passStart, passEnd, region);
    var hs := HelixStart(m, h);
    [Comment(HelixToDepth, passEnd),
     Rapid(Some(hs.x), Some(hs.y), Some(ctx.clearance)),
     Rapid(Some(hs.x), Some(hs.y), Some(ctx.safe)),
     Feed(Some(hs.x), Some(hs.y), Some(passStart), ctx.vertFeed)]
    + Descent(m, ctx.vertFeed, h, 0.0)
    + Sweep(m, ctx.horizFeed, h, LoopEnd(0.0, h.maxRadians, AngleStep(m)), h.maxRadians + 2.0 * m.pi)
  }

  /** The straight entry (lines 239-241). */
  function StraightEntry(ctx: EmitContext, passEnd: real, region: Region): seq<Command>
  {
    [Comment(StraightToDepth, passEnd),
     Rapid(Some(region.start.x), Some(region.start.y), Some(ctx.clearance)),
     Feed(Some(region.start.x), Some(region.start.y), Some(passEnd), ctx.vertFeed)]
  }

  function Entry(m: MathLib, ctx: EmitContext, passStart: real, passEnd: real, region: Region): seq<Command>
    requires ValidMath(m) && ctx.helixAngle >= 1.0
  {
    if HelixRadius(m, region) > MinHelixRadius then HelixEntry(m, ctx, passStart, passEnd, region)
    else StraightEntry(ctx, passEnd, region)
  }

  /**
   * A region is entered by the helix iff its radius exceeds 0.0001; otherwise
   * by exactly three commands: a comment, a G0 over the start point at
   * clearance height and a G1 down to the pass end depth.
   */
  lemma EntryKind(m: MathLib, ctx: EmitContext, passStart: real, passEnd: real, region: Region)
    requires ValidMath(m) && ctx.helixAngle >= 1.0
    ensures var e := Entry(m, ctx, passStart, passEnd, region);
      && |e| >= 3
      && (e[0] == Comment(HelixToDepth, passEnd) <==> HelixRadius(m, region) > MinHelixRadius)
      && (e[0] == Comment(StraightToDepth, passEnd) <==> HelixRadius(m, region) <= MinHelixRadius)
      && (HelixRadius(m, region) <= MinHelixRadius ==>
            |e| == 3
            && e[1] == Rapid(Some(region.start.x), Some(region.start.y), Some(ctx.clearance))
            && e[2] == Feed(Some(region.start.x), Some(region.start.y), Some(passEnd), ctx.vertFeed))
  {
  }

  /**
   * On a descending pass the helix entry approaches at clearance, then safe
   * height, then feeds to the pass start depth over the helix start; every
   * later command is a feed between the pass end and pass start depths, the
   * descending part never rising, and the final turn at the pass end depth.
   */
  lemma {:induction false} HelixEntryDepths(m: MathLib, ctx: EmitContext, passStart: real, passEnd: real, region: Region)
    requires ValidMath(m) && ctx.helixAngle >= 1.0 && HelixRadius(m, region) > MinHelixRadius
    requires passStart > passEnd
    ensures var h := HelixOf(m, ctx, passStart, passEnd, region);
      var e := HelixEntry(m, ctx, passStart, passEnd, region);
      var nd := |Descent(m, ctx.vertFeed, h, 0.0)|;
      && |e| >= 4 + nd
      && SetsZ(e[1]) == Some(ctx.clearance) && SetsZ(e[2]) == Some(ctx.safe) && SetsZ(e[3]) == Some(passStart)
      && (forall k :: 4 <= k < |e| ==>
            (e[k].Feed? && SetsZ(e[k]).Some? && passEnd <= SetsZ(e[k]).value <= passStart))
      && (forall k1, k2 :: 4 <= k1 < k2 < 4 + nd ==> SetsZ(e[k2]).value <= SetsZ(e[k1]).value)
      && (forall k :: 4 + nd <= k < |e| ==> SetsZ(e[k]) == Some(passEnd) && e[k].f == ctx.horizFeed)
  {
    var h := HelixOf(m, ctx, passStart, passEnd, region);
    var ds := Descent(m, ctx.vertFeed, h, 0.0);
    var sw := Sweep(m, ctx.horizFeed, h, LoopEnd(0.0, h.maxRadians, AngleStep(m)), h.maxRadians + 2.0 * m.pi);
    var e := HelixEntry(m, ctx, passStart, passEnd, region);
    DescentDepths(m, ctx.vertFeed, h);
    SweepDepths(m, ctx.horizFeed, h, LoopEnd(0.0, h.maxRadians, AngleStep(m)), h.maxRadians + 2.0 * m.pi);
    assert e == e[..4] + ds + sw;
    forall k | 4 <= k < 4 + |ds|
      ensures e[k] == ds[k - 4] && e[k].Feed? && SetsZ(e[k]).Some? && passEnd <= SetsZ(e[k]).value <= passStart
    {
    }
    forall k | 4 + |ds| <= k < |e|
      ensures e[k] == sw[k - 4 - |ds|] && e[k].Feed? && SetsZ(e[k]) == Some(passEnd) && e[k].f == ctx.horizFeed
    {
      assert e[k] == sw[k - 4 - |ds|];
      SweepAt(m, ctx.horizFeed, h, LoopEnd(0.0, h.maxRadians, AngleStep(m)), h.maxRadians + 2.0 * m.pi, k - 4 - |ds|);
    }
  }

  /** When the entry's last move ends at the pass end depth. */
  ghost predicate EntryReachesDepth(m: MathLib, ctx: EmitContext, passStart: real, passEnd: real, region: Region)
    requires ValidMath(m) && ctx.helixAngle >= 1.0
  {
    HelixRadius(m, region) > MinHelixRadius ==> HelixOf(m, ctx, passStart, passEnd, region).maxRadians > -2.0 * m.pi
  }

  /**
   * On a pass that does not rise, with a positive tan of the helix angle,
   * maxRadians is not negative, so every entry reaches its pass depth.
   */
  lemma NonRisingPassReachesDepth(m: MathLib, ctx: EmitContext, passStart: real, passEnd: real, region: Region)
    requires ValidMath(m) && ctx.helixAngle >= 1.0
    requires passStart >= passEnd && HelixTan(m, ctx) > 0.0
    ensures EntryReachesDepth(m, ctx, passStart, passEnd, region)
  {
    if HelixRadius(m, region) > MinHelixRadius {
      var q := (passStart - passEnd) / DepthPerRevolution(m, ctx, HelixRadius(m, region));
      assert q >= 0.0;
      StepMonotone(0.0, q * 2.0, m.pi);
    }
  }

  /**
   * The entry leaves the tool at the pass end depth, which line 243 then
   * records in lastZ: always for the straight plunge, and for the helix
   * whenever its final turn emits a point.
   */
  lemma EntryEndsAtPassEnd(m: MathLib, ctx: EmitContext, passStart: real, passEnd: real, region: Region, z0: real)
    requires ValidMath(m) && ctx.helixAngle >= 1.0
    requires EntryReachesDepth(m, ctx, passStart, passEnd, region)
    ensures HeightAfter(Entry(m, ctx, passStart, passEnd, region), z0) == passEnd
  {
    if HelixRadius(m, region) > MinHelixRadius {
      var h := HelixOf(m, ctx, passStart, passEnd, region);
      var b := LoopEnd(0.0, h.maxRadians, AngleStep(m));
      var sw := Sweep(m, ctx.horizFeed, h, b, h.maxRadians + 2.0 * m.pi);
      SweepAfterDescentNonEmpty(m, ctx.horizFeed, h);
      SweepAt(m, ctx.horizFeed, h, b, h.maxRadians + 2.0 * m.pi, |sw| - 1);
      var e := HelixEntry(m, ctx, passStart, passEnd, region);
      assert e[|e| - 1] == sw[|sw| - 1];
    }
  }

  // ---------------------------------------------------------------------
  // Regions and passes (lines 195-277)
  // ---------------------------------------------------------------------

  /** `if z != lastZ: G0 Z=clearance` (lines 267-268, 272-273, 275-276). */
  function Raise(ctx: EmitContext, lastZ: real): seq<Command>
  {
    if ctx.clearance != lastZ then [Rapid(None, None, Some(ctx.clearance))] else []
  }

  /** One region at one pass (lines 199-269): its commands and lastZ afterwards. */
  function RegionEmit(m: MathLib, ctx: EmitContext, passStart: real, passEnd: real, region: Region): (seq<Command>, real)
    requires ValidMath(m) && ctx.helixAngle >= 1.0
  {
    var body := PathsEmit(ctx, passEnd, region.paths, passEnd);
    (Entry(m, ctx, passStart, passEnd, region) + [Comment(AdaptiveAtDepth, passEnd)] + body.0 + Raise(ctx, body.1),
     ctx.clearance)
  }

  /** Every region block ends with the tool at clearance height. */
  lemma RegionEndsAtClearance(m: MathLib, ctx: EmitContext, passStart: real, passEnd: real, region: Region, z0: real)
    requires ValidMath(m) && ctx.helixAngle >= 1.0
    requires EntryReachesDepth(m, ctx, passStart, passEnd, region)
    ensures HeightAfter(RegionEmit(m, ctx, passStart, passEnd, region).0, z0) == ctx.clearance
  {
    var e := Entry(m, ctx, passStart, passEnd, region);
    var body := PathsEmit(ctx, passEnd, region.paths, passEnd);
    EntryEndsAtPassEnd(m, ctx, passStart, passEnd, region, z0);
    HeightAfterAppend(e, [Comment(AdaptiveAtDepth, passEnd)], z0);
    PathsEmitTracksHeight(ctx, passEnd, region.paths, passEnd);
    HeightAfterAppend(e + [Comment(AdaptiveAtDepth, passEnd)], body.0, z0);
    HeightAfterAppend(e + [Comment(AdaptiveAtDepth, passEnd)] + body.0, Raise(ctx, body.1), z0);
  }

  /** The region loop of line 197 at one pass; lastZ afterwards is the clearance height. */
  function RegionsEmit(m: MathLib, ctx: EmitContext, passStart: real, passEnd: real, regions: seq<Region>): (r: (seq<Command>, real))
    requires ValidMath(m) && ctx.helixAngle >= 1.0 && regions != []
    ensures r.1 == ctx.clearance
    decreases |regions|
  {
    var first := RegionEmit(m, ctx, passStart, passEnd, regions[0]);
    if |regions| == 1 then first
    else
      var rest := RegionsEmit(m, ctx, passStart, passEnd, regions[1..]);
      (first.0 + rest.0, rest.1)
  }

  /**
   * What the region loop yields at each pass depth; the first pass starts
   * at passStart and each later one where the previous ended (line 270).
   */
  function PassRounds(m: MathLib, ctx: EmitContext, passStart: real, depths: seq<real>, regions: seq<Region>)
    : (rounds: seq<(seq<Command>, real)>)
    requires ValidMath(m) && ctx.helixAngle >= 1.0 && regions != []
    ensures |rounds| == |depths|
    decreases |depths|
  {
    if depths == [] then []
    else [RegionsEmit(m, ctx, passStart, depths[0], regions)] + PassRounds(m, ctx, depths[0], depths[1..], regions)
  }

  /**
   * The pass loop of line 196 over the rounds of its region loop: each
   * round's commands, then the raise of lines 271-273; lastZ is None while
   * unassigned.
   */
  function FoldPasses(ctx: EmitContext, rounds: seq<(seq<Command>, real)>): (seq<Command>, Option<real>)
    decreases |rounds|
  {
    if rounds == [] then ([], None)
    else
      var rest := FoldPasses(ctx, rounds[1..]);
      (rounds[0].0 + Raise(ctx, rounds[0].1) + rest.0, if rest.1.Some? then rest.1 else Some(ctx.clearance))
  }

  /** The pass loop of line 196 at the given depths. */
  function PassesEmit(m: MathLib, ctx: EmitContext, passStart: real, depths: seq<real>, regions: seq<Region>): (seq<Command>, Option<real>)
    requires ValidMath(m) && ctx.helixAngle >= 1.0 && regions != []
  {
    FoldPasses(ctx, PassRounds(m, ctx, passStart, depths, regions))
  }

  /**
   * The whole of generateGCode: nothing when there are no regions or the
   * first has no paths (line 173); the UnboundLocalError of line 276 when the
   * depth list is empty; otherwise the passes and the final raise.
   */
  function Generate(m: MathLib, ctx: EmitContext, startDepth: real, depths: seq<real>, regions: seq<Region>): Emission
    requires ValidMath(m) && ctx.helixAngle >= 1.0
  {
    if |regions| == 0 || |regions[0].paths| == 0 then Skipped
    else
      var p := PassesEmit(m, ctx, startDepth, depths, regions);
      match p.1
      case None => Raised(UnboundLastZ, p.0)
      case Some(z) => Emitted(p.0 + Raise(ctx, z))
  }

  // ---------------------------------------------------------------------
  // Reference definition: pass-major, region-minor blocks
  // ---------------------------------------------------------------------

  function Concat(blocks: seq<seq<Command>>): seq<Command>
    decreases |blocks|
  {
    if blocks == [] then [] else blocks[0] + Concat(blocks[1..])
  }

  /** The first pass starts at the start depth, each later one where the previous ended. */
  function PassStartAt(startDepth: real, depths: seq<real>, i: nat): real
    requires i < |depths|
  {
    if i == 0 then startDepth else depths[i - 1]
  }

  /** The blocks of all regions at one pass, in region order. */
  function RegionBlocks(m: MathLib, ctx: EmitContext, passStart: real, passEnd: real, regions: seq<Region>): seq<seq<Command>>
    requires ValidMath(m) && ctx.helixAngle >= 1.0
  {
    seq(|regions|, j requires 0 <= j < |regions| => RegionEmit(m, ctx, passStart, passEnd, regions[j]).0)
  }

  /** All commands of each pass, in pass order; each pass starts where the previous one ended. */
  function PassBlocks(m: MathLib, ctx: EmitContext, startDepth: real, depths: seq<real>, regions: seq<Region>): (bs: seq<seq<Command>>)
    requires ValidMath(m) && ctx.helixAngle >= 1.0
    ensures |bs| == |depths|
    decreases |depths|
  {
    if depths == [] then []
    else [Concat(RegionBlocks(m, ctx, startDepth, depths[0], regions))] + PassBlocks(m, ctx, depths[0], depths[1..], regions)
  }

  /** The i-th pass block holds the regions between PassStartAt and the i-th depth. */
  lemma {:induction false} PassBlocksAt(m: MathLib, ctx: EmitContext, startDepth: real, depths: seq<real>, regions: seq<Region>, i: nat)
    requires ValidMath(m) && ctx.helixAngle >= 1.0 && i < |depths|
    ensures PassBlocks(m, ctx, startDepth, depths, regions)[i]
         == Concat(RegionBlocks(m, ctx, PassStartAt(startDepth, depths, i), depths[i], regions))
    decreases i
  {
    if i > 0 {
      PassBlocksAt(m, ctx, depths[0], depths[1..], regions, i - 1);
      assert depths[1..][i - 1] == depths[i];
      assert PassStartAt(depths[0], depths[1..], i - 1) == PassStartAt(startDepth, depths, i);
    }
  }

  /** One more region appended to a pass's prefix of region blocks. */
  lemma RegionBlocksStep(m: MathLib, ctx: EmitContext, passStart: real, passEnd: real, regions: seq<Region>, j: nat,
                         base: seq<Command>, pre: seq<Command>, cur: seq<Command>)
    requires ValidMath(m) && ctx.helixAngle >= 1.0 && j < |regions|
    requires pre == base + Concat(RegionBlocks(m, ctx, passStart, passEnd, regions)[..j])
    requires cur == pre + RegionEmit(m, ctx, passStart, passEnd, regions[j]).0
    ensures cur == base + Concat(RegionBlocks(m, ctx, passStart, passEnd, regions)[..j + 1])
  {
    ConcatStep(RegionBlocks(m, ctx, passStart, passEnd, regions), j, base, pre, cur);
  }

  /**
   * The same step for any blocks.  Kept free of the emission functions, so
   * that the sequence reasoning does not see their definitions.
   */
  lemma ConcatStep(blocks: seq<seq<Command>>, j: nat, base: seq<Command>, pre: seq<Command>, cur: seq<Command>)
    requires j < |blocks|
    requires pre == base + Concat(blocks[..j])
    requires cur == pre + blocks[j]
    ensures cur == base + Concat(blocks[..j + 1])
  {
    assert blocks[..j + 1] == blocks[..j] + [blocks[j]];
    ConcatSnoc(blocks[..j], blocks[j]);
    AppendAssoc(base, Concat(blocks[..j]), blocks[j]);
  }

  /** Regrouping a concatenation, for loops that append block by block. */
  lemma AppendAssoc(a: seq<Command>, b: seq<Command>, c: seq<Command>)
    ensures (a + b) + c == a + (b + c)
  {
  }

  /** The same, for a step emitted in two parts. */
  lemma RemainingAfterTwo(done: seq<Command>, a: seq<Command>, b: seq<Command>, rest: seq<Command>,
                          total: seq<Command>, cur: seq<Command>)
    requires done + ((a + b) + rest) == total && cur == (done + a) + b
    ensures cur + rest == total
  {
    AppendAssoc(done, a, b);
    AppendAssoc(done, a + b, rest);
  }

  /** Regrouping the four parts a region's block is emitted in. */
  lemma AppendFour(a: seq<Command>, b: seq<Command>, c: seq<Command>, d: seq<Command>, e: seq<Command>)
    ensures (((a + b) + c) + d) + e == a + (((b + c) + d) + e)
  {
    AppendAssoc(a, b, c);
    AppendAssoc(a, b + c, d);
    AppendAssoc(a, (b + c) + d, e);
  }

  /**
   * A loop that has emitted `done` and still owes `step + rest` of `total`
   * owes `rest` once it has emitted `step`.
   */
  lemma RemainingAfterStep(done: seq<Command>, step: seq<Command>, rest: seq<Command>, total: seq<Command>, cur: seq<Command>)
    requires done + (step + rest) == total && cur == done + step
    ensures cur + rest == total
  {
    AppendAssoc(done, step, rest);
  }

  lemma {:induction false} ConcatSnoc(bs: seq<seq<Command>>, b: seq<Command>)
    ensures Concat(bs + [b]) == Concat(bs) + b
    decreases |bs|
  {
    if bs == [] {
      assert Concat([b]) == b + Concat([]);
    } else {
      assert (bs + [b])[1..] == bs[1..] + [b];
      ConcatSnoc(bs[1..], b);
    }
  }

  lemma {:induction false} RegionsEmitConcat(m: MathLib, ctx: EmitContext, passStart: real, passEnd: real, regions: seq<Region>)
    requires ValidMath(m) && ctx.helixAngle >= 1.0 && regions != []
    ensures RegionsEmit(m, ctx, passStart, passEnd, regions).0 == Concat(RegionBlocks(m, ctx, passStart, passEnd, regions))
    decreases |regions|
  {
    var bs := RegionBlocks(m, ctx, passStart, passEnd, regions);
    if |regions| == 1 {
      assert bs[1..] == [];
    } else {
      RegionsEmitConcat(m, ctx, passStart, passEnd, regions[1..]);
      assert bs[1..] == RegionBlocks(m, ctx, passStart, passEnd, regions[1..]);
    }
  }

  /** The i-th round is the region loop between PassStartAt and the i-th depth. */
  lemma {:induction false} PassRoundsAt(m: MathLib, ctx: EmitContext, startDepth: real, depths: seq<real>, regions: seq<Region>, i: nat)
    requires ValidMath(m) && ctx.helixAngle >= 1.0 && regions != [] && i < |depths|
    ensures PassRounds(m, ctx, startDepth, depths, regions)[i]
         == RegionsEmit(m, ctx, PassStartAt(startDepth, depths, i), depths[i], regions)
    decreases i
  {
    if i > 0 {
      PassRoundsAt(m, ctx, depths[0], depths[1..], regions, i - 1);
      assert depths[1..][i - 1] == depths[i];
      assert PassStartAt(depths[0], depths[1..], i - 1) == PassStartAt(startDepth, depths, i);
    }
  }

  /**
   * One iteration of the pass loop: once a round and its raise are
   * emitted, the later rounds are what remains owed.
   */
  lemma FoldPassesStep(ctx: EmitContext, rounds: seq<(seq<Command>, real)>,
                       done: seq<Command>, total: seq<Command>, cur: seq<Command>)
    requires rounds != []
    requires done + FoldPasses(ctx, rounds).0 == total
    requires cur == done + rounds[0].0 + Raise(ctx, rounds[0].1)
    ensures cur + FoldPasses(ctx, rounds[1..]).0 == total
  {
    RemainingAfterTwo(done, rounds[0].0, Raise(ctx, rounds[0].1), FoldPasses(ctx, rounds[1..]).0, total, cur);
  }

  /** lastZ is unbound after the pass loop exactly when no round ran; otherwise the tool is at clearance. */
  lemma {:induction false} FoldPassesLastZ(ctx: EmitContext, rounds: seq<(seq<Command>, real)>)
    ensures FoldPasses(ctx, rounds).1 == (if rounds == [] then None else Some(ctx.clearance))
    decreases |rounds|
  {
    if rounds != [] {
      FoldPassesLastZ(ctx, rounds[1..]);
    }
  }

  /** lastZ is unbound after the pass loop exactly when there is no depth. */
  lemma PassesEmitLastZ(m: MathLib, ctx: EmitContext, passStart: real, depths: seq<real>, regions: seq<Region>)
    requires ValidMath(m) && ctx.helixAngle >= 1.0 && regions != []
    ensures PassesEmit(m, ctx, passStart, depths, regions).1 == (if depths == [] then None else Some(ctx.clearance))
  {
    FoldPassesLastZ(ctx, PassRounds(m, ctx, passStart, depths, regions));
  }

  /**
   * The pass loop emits, pass by pass, the region blocks of that pass and
   * nothing else: the per-pass raise of lines 272-273 never adds a command,
   * since every region already ends at clearance height.
   */
  lemma {:induction false} PassesEmitConcat(m: MathLib, ctx: EmitContext, passStart: real, depths: seq<real>, regions: seq<Region>)
    requires ValidMath(m) && ctx.helixAngle >= 1.0 && regions != []
    ensures PassesEmit(m, ctx, passStart, depths, regions).0 == Concat(PassBlocks(m, ctx, passStart, depths, regions))
    decreases |depths|
  {
    if depths != [] {
      var bs := PassBlocks(m, ctx, passStart, depths, regions);
      var rounds := PassRounds(m, ctx, passStart, depths, regions);
      var rs := RegionsEmit(m, ctx, passStart, depths[0], regions);
      assert rounds[0] == rs && rounds[1..] == PassRounds(m, ctx, depths[0], depths[1..], regions);
      assert Raise(ctx, rs.1) == [];
      assert rs.0 + Raise(ctx, rs.1) == rs.0;
      RegionsEmitConcat(m, ctx, passStart, depths[0], regions);
      PassesEmitConcat(m, ctx, depths[0], depths[1..], regions);
      assert bs[1..] == PassBlocks(m, ctx, depths[0], depths[1..], regions);
      assert Concat(bs) == bs[0] + Concat(bs[1..]);
    }
  }

  /**
   * generateGCode emits nothing when there is no region or the first region
   * has no paths; raises with an empty command list when there are no pass
   * depths; and otherwise emits exactly the region blocks, pass-major and
   * region-minor, the final raise of lines 275-276 adding nothing.
   */
  lemma GenerateShape(m: MathLib, ctx: EmitContext, startDepth: real, depths: seq<real>, regions: seq<Region>)
    requires ValidMath(m) && ctx.helixAngle >= 1.0
    ensures Generate(m, ctx, startDepth, depths, regions).Skipped? <==> (regions == [] || regions[0].paths == [])
    ensures regions != [] && regions[0].paths != [] && depths == [] ==>
      Generate(m, ctx, startDepth, depths, regions) == Raised(UnboundLastZ, [])
    ensures regions != [] && regions[0].paths != [] && depths != [] ==>
      Generate(m, ctx, startDepth, depths, regions) == Emitted(Concat(PassBlocks(m, ctx, startDepth, depths, regions)))
  {
    if regions != [] && regions[0].paths != [] {
      PassesEmitConcat(m, ctx, startDepth, depths, regions);
      PassesEmitLastZ(m, ctx, startDepth, depths, regions);
      var p := PassesEmit(m, ctx, startDepth, depths, regions);
      assert p.0 + [] == p.0;
    }
  }

  lemma {:induction false} ConcatHeight(blocks: seq<seq<Command>>, z0: real, target: real)
    requires blocks != []
    requires forall i, z :: 0 <= i < |blocks| ==> HeightAfter(blocks[i], z) == target
    ensures HeightAfter(Concat(blocks), z0) == target
    decreases |blocks|
  {
    if |blocks| == 1 {
      assert Concat(blocks) == blocks[0] + [];
      assert blocks[0] + [] == blocks[0];
    } else {
      ConcatHeight(blocks[1..], HeightAfter(blocks[0], z0), target);
      HeightAfterAppend(blocks[0], Concat(blocks[1..]), z0);
    }
  }

  /**
   * When every entry reaches its pass depth, a completed run leaves the tool
   * at clearance height.
   */
  lemma GenerateEndsAtClearance(m: MathLib, ctx: EmitContext, startDepth: real, depths: seq<real>, regions: seq<Region>, z0: real)
    requires ValidMath(m) && ctx.helixAngle >= 1.0
    requires forall i, j :: 0 <= i < |depths| && 0 <= j < |regions| ==>
      EntryReachesDepth(m, ctx, PassStartAt(startDepth, depths, i), depths[i], regions[j])
    requires Generate(m, ctx, startDepth, depths, regions).Emitted?
    ensures HeightAfter(Generate(m, ctx, startDepth, depths, regions).commands, z0) == ctx.clearance
  {
    GenerateShape(m, ctx, startDepth, depths, regions);
    var pbs := PassBlocks(m, ctx, startDepth, depths, regions);
    forall i, z | 0 <= i < |pbs|
      ensures HeightAfter(pbs[i], z) == ctx.clearance
    {
      PassBlocksAt(m, ctx, startDepth, depths, regions, i);
      var rbs := RegionBlocks(m, ctx, PassStartAt(startDepth, depths, i), depths[i], regions);
      forall j, z' | 0 <= j < |rbs|
        ensures HeightAfter(rbs[j], z') == ctx.clearance
      {
        RegionEndsAtClearance(m, ctx, PassStartAt(startDepth, depths, i), depths[i], regions[j], z');
      }
      ConcatHeight(rbs, z, ctx.clearance);
    }
    ConcatHeight(pbs, z0, ctx.clearance);
  }

  /**
   * With a positive tan of the helix angle, every region block of a pass
   * that does not rise ends with the tool at clearance height.
   */
  lemma NonRisingRegionEndsAtClearance(m: MathLib, ctx: EmitContext, passStart: real, passEnd: real, region: Region, z0: real)
    requires ValidMath(m) && ctx.helixAngle >= 1.0
    requires passStart >= passEnd && HelixTan(m, ctx) > 0.0
    ensures HeightAfter(RegionEmit(m, ctx, passStart, passEnd, region).0, z0) == ctx.clearance
  {
    NonRisingPassReachesDepth(m, ctx, passStart, passEnd, region);
    RegionEndsAtClearance(m, ctx, passStart, passEnd, region, z0);
  }

  /**
   * With a positive tan of the helix angle, and pass depths that descend
   * from the start depth without ever rising, a completed run leaves the
   * tool at clearance height.
   */
  lemma DescendingGenerateEndsAtClearance(m: MathLib, ctx: EmitContext, startDepth: real, depths: seq<real>,
                                          regions: seq<Region>, z0: real)
    requires ValidMath(m) && ctx.helixAngle >= 1.0 && HelixTan(m, ctx) > 0.0
    requires depths != [] ==> depths[0] <= startDepth
    requires forall i :: 0 < i < |depths| ==> depths[i] <= depths[i - 1]
    requires Generate(m, ctx, startDepth, depths, regions).Emitted?
    ensures HeightAfter(Generate(m, ctx, startDepth, depths, regions).commands, z0) == ctx.clearance
  {
    forall i, j | 0 <= i < |depths| && 0 <= j < |regions|
      ensures EntryReachesDepth(m, ctx, PassStartAt(startDepth, depths, i), depths[i], regions[j])
    {
      NonRisingPassReachesDepth(m, ctx, PassStartAt(startDepth, depths, i), depths[i], regions[j]);
    }
    GenerateEndsAtClearance(m, ctx, startDepth, depths, regions, z0);
  }
}
