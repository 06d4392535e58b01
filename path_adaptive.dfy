/**
 * The adaptive milling operation of PathAdaptive.py: the document object
 * with its properties, and the proxy whose execute reuses or recomputes the
 * clearing engine's result and whose generateGCode appends the motion
 * commands to its command list.
 */
module PathAdaptive {
  import opened Wrappers
  import opened Geometry
  import opened AdaptiveTypes
  import opened AdaptiveHelix
  import opened AdaptiveEmit

  /** The default deflection of shapeToPath2d (line 34). */
  const Deflection: real := 0.0001

  /** Lower limit on the tolerance (line 110). */
  const MinTolerance: real := 0.001

  /** A PropertyPythonObject's content: None, the initial "", or a stored value. */
  datatype Stored<T> = NoneValue | EmptyString | Value(v: T)

  datatype Side = Outside | Inside
  datatype OperationKind = Clearing | Profiling

  /** The engine enum selected by OperationType + Side (lines 112-113). */
  datatype OperationType = OperationType(kind: OperationKind, side: Side)

  /** The input-state record of lines 116-128. */
  datatype InputState = InputState(
    tool: real,
    tolerance: real,
    geometry: seq<seq<Point2>>,
    stockGeometry: seq<seq<Point2>>,
    stepover: real,
    effectiveHelixDiameter: real,
    operationType: OperationType,
    side: Side,
    forceInsideOut: bool,
    keepToolDownRatio: real,
    stockToLeave: real)

  /** The settings handed to area.Adaptive2d (lines 143-151). */
  datatype EngineSettings = EngineSettings(
    stepOverFactor: real,
    toolDiameter: real,
    helixRampDiameter: real,
    keepToolDownDistRatio: real,
    stockToLeave: real,
    tolerance: real,
    forceInsideOut: bool,
    opType: OperationType)

  /** The engine's progress callback (lines 90-97): it never asks the engine to stop. */
  function ProgressFn(tpaths: seq<EnginePath>): (stop: bool)
    ensures !stop
  {
    false
  }

  /** The 2D path of a discretized outer wire: one edge holding the XY-projection of every point. */
  function Path2dOf(points3d: seq<Vec3>): seq<seq<Point2>>
  {
    [seq(|points3d|, i requires 0 <= i < |points3d| => Point2(points3d[i].x, points3d[i].y))]
  }

  /**
   * shapeToPath2d (lines 34-45), given the points the kernel's discretize
   * returned: a single edge with the points in order, Z dropped.
   */
  method ShapeToPath2d(points3d: seq<Vec3>) returns (path2d: seq<seq<Point2>>)
    ensures path2d == Path2dOf(points3d)
    ensures |path2d| == 1 && |path2d[0]| == |points3d|
    ensures forall i :: 0 <= i < |points3d| ==> path2d[0][i] == Point2(points3d[i].x, points3d[i].y)
  {
    var points2d: seq<Point2> := [];
    for i := 0 to |points3d|
      invariant |points2d| == i
      invariant forall k :: 0 <= k < i ==> points2d[k] == Point2(points3d[k].x, points3d[k].y)
    {
      points2d := points2d + [Point2(points3d[i].x, points3d[i].y)];
    }
    assert points2d == Path2dOf(points3d)[0];
    path2d := [points2d];
  }

  /** The properties the operation reads but never writes, with the defaults of lines 53-85. */
  datatype AdaptiveProperties = AdaptiveProperties(
    side: Side,
    operationKind: OperationKind,
    stepOver: int,
    liftDistance: real,
    keepToolDownRatio: real,
    stockToLeave: real,
    helixDiameterLimit: real,
    forceInsideOut: bool,
    toolDiameter: real,
    toolVertFeed: real,
    toolHorizFeed: real,
    clearanceHeight: real,
    safeHeight: real,
    startDepth: real,
    stepDown: real,
    finishDepth: real,
    finalDepth: real)

  const DefaultProperties: AdaptiveProperties :=
    AdaptiveProperties(Outside, Clearing, 20, 1.0, 3.0, 0.0, 0.0, false, 12.0, 100.0, 100.0,
                       0.0, 0.0, 0.0, 0.0, 0.0, 0.0)

  /** The Path::FeaturePython document object: its links, its properties and its path. */
  class AdaptiveObject {
    var base: Option<Face>
    var stock: Option<Face>
    var props: AdaptiveProperties
    var tolerance: real
    var helixAngle: real
    var inputState: Stored<InputState>
    var outputState: Stored<seq<Region>>
    var path: ToolPath

    /** A fresh document object: no linked faces and an empty path. */
    constructor ()
      ensures base.None? && stock.None? && path == Program([])
    {
      base := None;
      stock := None;
      path := Program([]);
    }

    /** The emission parameters after the clamps of lines 177-184. */
    function Context(): (ctx: EmitContext)
      reads this
      ensures ctx.helixAngle >= 1.0 && ctx.stepUp >= props.toolDiameter
      ensures ctx.clearance == props.clearanceHeight && ctx.safe == props.safeHeight
    {
      var s := Settle(props.stepDown, props.liftDistance, props.toolDiameter, props.finishDepth, helixAngle);
      EmitContext(props.clearanceHeight, props.safeHeight, s.stepUp, props.toolVertFeed, props.toolHorizFeed,
                  s.helixAngle)
    }

    /** The arguments of depth_params (lines 186-193), with the clamped step sizes. */
    function Request(): (r: DepthRequest)
      reads this
      ensures r.stepDown >= 0.1 && r.finishStep <= r.stepDown && r.start == props.startDepth
    {
      var sd := ClampMin(props.stepDown, 0.1);
      DepthRequest(props.clearanceHeight, props.safeHeight, props.startDepth, sd, ClampMax(props.finishDepth, sd),
                   props.finalDepth)
    }

    /** The input-state record of lines 116-128 for the given 2D paths. */
    function InputOf(basePath: seq<seq<Point2>>, stockPath: seq<seq<Point2>>): InputState
      reads this
    {
      InputState(props.toolDiameter, tolerance, basePath, stockPath, props.stepOver as real,
                 props.helixDiameterLimit, OperationType(props.operationKind, props.side), props.side,
                 props.forceInsideOut, props.keepToolDownRatio, props.stockToLeave)
    }

    /** The engine settings of lines 143-151. */
    function Settings(): EngineSettings
      reads this
    {
      EngineSettings(0.01 * (props.stepOver as real), props.toolDiameter, props.helixDiameterLimit,
                     props.keepToolDownRatio, props.stockToLeave, tolerance, props.forceInsideOut,
                     OperationType(props.operationKind, props.side))
    }
  }

  /** The operation's proxy: the object it serves and the command list it builds. */
  class PathAdaptive {
    const obj: AdaptiveObject
    var commandList: seq<Command>
    var depthData: seq<real>

    /** __init__ (lines 51-88): adds the properties with their defaults. */
    constructor (obj: AdaptiveObject)
      modifies obj
      ensures this.obj == obj && commandList == [] && depthData == []
      ensures obj.base.None? && obj.stock.None? && obj.path == old(obj.path)
      ensures obj.props == DefaultProperties && obj.tolerance == 0.1 && obj.helixAngle == 5.0
      ensures obj.inputState == EmptyString && obj.outputState == EmptyString
    {
      this.obj := obj;
      commandList := [];
      depthData := [];
      new;
      obj.base := None;
      obj.stock := None;
      obj.props := DefaultProperties;
      obj.tolerance := 0.1;
      obj.helixAngle := 5.0;
      obj.inputState := EmptyString;
      obj.outputState := EmptyString;
    }

    /** Lines 250-263 for one point: the Z move when the height changes, then the XY move. */
    method EmitPoint(ctx: EmitContext, passEnd: real, mt: MotionType, p: Point2, lastZ0: real)
      returns (lastZ: real)
      modifies this`commandList
      ensures commandList == old(commandList) + PointStep(ctx, passEnd, mt, p, lastZ0).0
      ensures lastZ == PointStep(ctx, passEnd, mt, p, lastZ0).1
    {
      var x, y := p.x, p.y;
      var z: real;
      match mt {
        case Cutting =>
          z := passEnd;
          if z != lastZ0 { commandList := commandList + [Feed(None, None, Some(z), ctx.vertFeed)]; }
          commandList := commandList + [Feed(Some(x), Some(y), None, ctx.horizFeed)];
        case LinkClear =>
          z := passEnd + ctx.stepUp;
          if z != lastZ0 { commandList := commandList + [Rapid(None, None, Some(z))]; }
          commandList := commandList + [Rapid(Some(x), Some(y), None)];
        case LinkNotClear =>
          z := ctx.clearance;
          if z != lastZ0 { commandList := commandList + [Rapid(None, None, Some(z))]; }
          commandList := commandList + [Rapid(Some(x), Some(y), None)];
      }
      lastZ := z;
    }

    /** The loop of line 249 over the points of one path. */
    method EmitPoints(ctx: EmitContext, passEnd: real, mt: MotionType, pts: seq<Point2>, lastZ0: real)
      returns (lastZ: real)
      modifies this`commandList
      ensures commandList == old(commandList) + PointsEmit(ctx, passEnd, mt, pts, lastZ0).0
      ensures lastZ == PointsEmit(ctx, passEnd, mt, pts, lastZ0).1
    {
      lastZ := lastZ0;
      var q := 0;
      while q < |pts|
        invariant 0 <= q <= |pts|
        invariant commandList + PointsEmit(ctx, passEnd, mt, pts[q..], lastZ).0
               == old(commandList) + PointsEmit(ctx, passEnd, mt, pts, lastZ0).0
        invariant PointsEmit(ctx, passEnd, mt, pts[q..], lastZ).1 == PointsEmit(ctx, passEnd, mt, pts, lastZ0).1
      {
        ghost var done := commandList;
        ghost var step := PointStep(ctx, passEnd, mt, pts[q], lastZ);
        assert pts[q..][1..] == pts[q + 1..];
        ghost var rest := PointsEmit(ctx, passEnd, mt, pts[q + 1..], step.1);
        assert PointsEmit(ctx, passEnd, mt, pts[q..], lastZ) == (step.0 + rest.0, rest.1);
        lastZ := EmitPoint(ctx, passEnd, mt, pts[q], lastZ);
        RemainingAfterStep(done, step.0, rest.0, old(commandList) + PointsEmit(ctx, passEnd, mt, pts, lastZ0).0, commandList);
        q := q + 1;
      }
      assert pts[q..] == [];
      assert commandList + [] == commandList;
    }

    /** The loop of line 247 over the paths of one region. */
    method EmitPaths(ctx: EmitContext, passEnd: real, paths: seq<EnginePath>, lastZ0: real)
      returns (lastZ: real)
      modifies this`commandList
      ensures commandList == old(commandList) + PathsEmit(ctx, passEnd, paths, lastZ0).0
      ensures lastZ == PathsEmit(ctx, passEnd, paths, lastZ0).1
    {
      lastZ := lastZ0;
      var k := 0;
      while k < |paths|
        invariant 0 <= k <= |paths|
        invariant commandList + PathsEmit(ctx, passEnd, paths[k..], lastZ).0
               == old(commandList) + PathsEmit(ctx, passEnd, paths, lastZ0).0
        invariant PathsEmit(ctx, passEnd, paths[k..], lastZ).1 == PathsEmit(ctx, passEnd, paths, lastZ0).1
      {
        ghost var done := commandList;
        ghost var step := PointsEmit(ctx, passEnd, paths[k].motion, paths[k].points, lastZ);
        assert paths[k..][1..] == paths[k + 1..];
        ghost var rest := PathsEmit(ctx, passEnd, paths[k + 1..], step.1);
        assert PathsEmit(ctx, passEnd, paths[k..], lastZ) == (step.0 + rest.0, rest.1);
        lastZ := EmitPoints(ctx, passEnd, paths[k].motion, paths[k].points, lastZ);
        RemainingAfterStep(done, step.0, rest.0, old(commandList) + PathsEmit(ctx, passEnd, paths, lastZ0).0, commandList);
        k := k + 1;
      }
      assert paths[k..] == [];
      assert commandList + [] == commandList;
    }

    /** The first angle loop (lines 221-227); returns the counter value it stops at. */
    method EmitDescent(m: MathLib, feed: real, h: Helix) returns (currentRadians: real)
      requires m.pi > 0.0
      modifies this`commandList
      ensures commandList == old(commandList) + Descent(m, feed, h, 0.0)
      ensures currentRadians == LoopEnd(0.0, h.maxRadians, AngleStep(m))
    {
      var step := AngleStep(m);
      var maxRadians := h.maxRadians;
      currentRadians := 0.0;
      while currentRadians < maxRadians
        invariant currentRadians >= 0.0
        invariant commandList + Descent(m, feed, h, currentRadians) == old(commandList) + Descent(m, feed, h, 0.0)
        invariant LoopEnd(currentRadians, maxRadians, step) == LoopEnd(0.0, maxRadians, step)
        decreases Remaining(currentRadians, maxRadians, step)
      {
        RemainingStep(currentRadians, maxRadians, step);
        ghost var done := commandList;
        ghost var rest := Descent(m, feed, h, currentRadians + step);
        var p := RampPoint(m, h, currentRadians);
        var z := DescentZ(h, currentRadians);
        assert Descent(m, feed, h, currentRadians) == [Feed(Some(p.x), Some(p.y), Some(z), feed)] + rest;
        commandList := commandList + [Feed(Some(p.x), Some(p.y), Some(z), feed)];
        RemainingAfterStep(done, [Feed(Some(p.x), Some(p.y), Some(z), feed)], rest,
                           old(commandList) + Descent(m, feed, h, 0.0), commandList);
        currentRadians := currentRadians + step;
      }
      assert commandList + [] == commandList;
    }

    /** The second angle loop (lines 230-236), from the counter value the first left. */
    method EmitSweep(m: MathLib, feed: real, h: Helix, start: real, maxRadians: real)
      requires m.pi > 0.0
      modifies this`commandList
      ensures commandList == old(commandList) + Sweep(m, feed, h, start, maxRadians)
    {
      var step := AngleStep(m);
      var currentRadians := start;
      while currentRadians < maxRadians
        invariant commandList + Sweep(m, feed, h, currentRadians, maxRadians)
               == old(commandList) + Sweep(m, feed, h, start, maxRadians)
        decreases Remaining(currentRadians, maxRadians, step)
      {
        RemainingStep(currentRadians, maxRadians, step);
        ghost var done := commandList;
        ghost var rest := Sweep(m, feed, h, currentRadians + step, maxRadians);
        var p := RampPoint(m, h, currentRadians);
        assert Sweep(m, feed, h, currentRadians, maxRadians) == [Feed(Some(p.x), Some(p.y), Some(h.passEnd), feed)] + rest;
        commandList := commandList + [Feed(Some(p.x), Some(p.y), Some(h.passEnd), feed)];
        RemainingAfterStep(done, [Feed(Some(p.x), Some(p.y), Some(h.passEnd), feed)], rest,
                           old(commandList) + Sweep(m, feed, h, start, maxRadians), commandList);
        currentRadians := currentRadians + step;
      }
      assert commandList + [] == commandList;
    }

    /** The helix entry of lines 205-236. */
    method EmitHelixEntry(m: MathLib, ctx: EmitContext, passStart: real, passEnd: real, region: Region)
      requires ValidMath(m) && ctx.helixAngle >= 1.0 && HelixRadius(m, region) > MinHelixRadius
      modifies this`commandList
      ensures commandList == old(commandList) + HelixEntry(m, ctx, passStart, passEnd, region)
    {
      var h := HelixOf(m, ctx, passStart, passEnd, region);
      var helixStart := HelixStart(m, h);
      var approach := [Comment(HelixToDepth, passEnd),
                       Rapid(Some(helixStart.x), Some(helixStart.y), Some(ctx.clearance)),
                       Rapid(Some(helixStart.x), Some(helixStart.y), Some(ctx.safe)),
                       Feed(Some(helixStart.x), Some(helixStart.y), Some(passStart), ctx.vertFeed)];
      commandList := commandList + approach;
      var currentRadians := EmitDescent(m, ctx.vertFeed, h);
      var maxRadians := h.maxRadians + 2.0 * m.pi;
      EmitSweep(m, ctx.horizFeed, h, currentRadians, maxRadians);
    }

    /** One region at one pass (lines 199-269); returns lastZ afterwards. */
    method EmitRegion(m: MathLib, ctx: EmitContext, passStart: real, passEnd: real, region: Region)
      returns (lastZ: real)
      requires ValidMath(m) && ctx.helixAngle >= 1.0
      modifies this`commandList
      ensures commandList == old(commandList) + RegionEmit(m, ctx, passStart, passEnd, region).0
      ensures lastZ == RegionEmit(m, ctx, passStart, passEnd, region).1
    {
      ghost var entry := Entry(m, ctx, passStart, passEnd, region);
      ghost var body := PathsEmit(ctx, passEnd, region.paths, passEnd);
      ghost var c0 := commandList;
      if HelixRadius(m, region) > MinHelixRadius {
        EmitHelixEntry(m, ctx, passStart, passEnd, region);
      } else {
        commandList := commandList + [Comment(StraightToDepth, passEnd),
                                      Rapid(Some(region.start.x), Some(region.start.y), Some(ctx.clearance)),
                                      Feed(Some(region.start.x), Some(region.start.y), Some(passEnd), ctx.vertFeed)];
      }
      assert commandList == c0 + entry;
      lastZ := passEnd;
      commandList := commandList + [Comment(AdaptiveAtDepth, passEnd)];
      lastZ := EmitPaths(ctx, passEnd, region.paths, lastZ);
      var z := ctx.clearance;
      if z != lastZ { commandList := commandList + [Rapid(None, None, Some(z))]; }
      lastZ := z;
      AppendFour(c0, entry, [Comment(AdaptiveAtDepth, passEnd)], body.0, Raise(ctx, body.1));
    }

    /** What generateGCode leaves behind, given the outcome e of Generate. */
    ghost predicate Generated(e: Emission, raised: Option<PyError>, depths: seq<real>, pathBefore: ToolPath,
                              commandsBefore: seq<Command>, depthBefore: seq<real>, helixBefore: real)
      reads this, obj
    {
      match e
      case Skipped =>
        raised.None? && commandList == commandsBefore && depthData == depthBefore
        && obj.path == pathBefore && obj.helixAngle == helixBefore
      case Raised(err, cmds) =>
        raised == Some(err) && commandList == cmds && depthData == depths
        && obj.path == pathBefore && obj.helixAngle == ClampMin(helixBefore, 1.0)
      case Emitted(cmds) =>
        raised.None? && commandList == cmds && depthData == depths
        && obj.path == Program(cmds) && obj.helixAngle == ClampMin(helixBefore, 1.0)
    }

    /** The region loop of line 197 at one pass depth; returns lastZ afterwards. */
    method EmitPass(m: MathLib, ctx: EmitContext, passStart: real, passEnd: real, results: seq<Region>)
      returns (lastZ: real)
      requires ValidMath(m) && ctx.helixAngle >= 1.0 && results != []
      modifies this`commandList
      ensures commandList == old(commandList) + RegionsEmit(m, ctx, passStart, passEnd, results).0
      ensures lastZ == RegionsEmit(m, ctx, passStart, passEnd, results).1
    {
      // results is non-empty, so the loop reassigns lastZ at least once
      lastZ := ctx.clearance;
      ghost var blocks := RegionBlocks(m, ctx, passStart, passEnd, results);
      var j := 0;
      assert blocks[..0] == [];
      assert commandList == old(commandList) + [];
      while j < |results|
        invariant 0 <= j <= |results|
        invariant commandList == old(commandList) + Concat(blocks[..j])
        invariant lastZ == ctx.clearance
      {
        ghost var pre := commandList;
        lastZ := EmitRegion(m, ctx, passStart, passEnd, results[j]);
        RegionBlocksStep(m, ctx, passStart, passEnd, results, j, old(commandList), pre, commandList);
        j := j + 1;
      }
      assert blocks[..j] == blocks;
      RegionsEmitConcat(m, ctx, passStart, passEnd, results);
      assert RegionsEmit(m, ctx, passStart, passEnd, results).0 == Concat(blocks);
    }

    /**
     * One round of the pass loop of line 196: the regions at passEnd, then
     * the raise of lines 272-273.  What remains owed is the later rounds.
     */
    method EmitPassRaised(m: MathLib, ctx: EmitContext, passStart: real, passEnd: real, results: seq<Region>,
                          ghost rounds: seq<(seq<Command>, real)>, ghost total: seq<Command>)
      requires ValidMath(m) && ctx.helixAngle >= 1.0 && results != []
      requires rounds != [] && rounds[0] == RegionsEmit(m, ctx, passStart, passEnd, results)
      requires commandList + FoldPasses(ctx, rounds).0 == total
      modifies this`commandList
      ensures commandList + FoldPasses(ctx, rounds[1..]).0 == total
    {
      ghost var done := commandList;
      var regionZ := EmitPass(m, ctx, passStart, passEnd, results);
      commandList := commandList + Raise(ctx, regionZ);
      FoldPassesStep(ctx, rounds, done, total, commandList);
    }

    /**
     * The pass loop of line 196: the region loop at each depth, then the
     * raise of lines 272-273; passStartDepth follows the depths (line 270).
     * lastZ stays None when there is no depth at all.
     */
    method EmitPasses(m: MathLib, ctx: EmitContext, startDepth: real, depths: seq<real>, results: seq<Region>)
      returns (lastZ: Option<real>)
      requires ValidMath(m) && ctx.helixAngle >= 1.0 && results != []
      modifies this`commandList
      ensures commandList == old(commandList) + PassesEmit(m, ctx, startDepth, depths, results).0
      ensures lastZ == PassesEmit(m, ctx, startDepth, depths, results).1
    {
      var passStartDepth := startDepth;
      lastZ := None;
      ghost var rounds := PassRounds(m, ctx, startDepth, depths, results);
      ghost var total := old(commandList) + FoldPasses(ctx, rounds).0;
      var i := 0;
      assert rounds[i..] == rounds;
      while i < |depths|
        invariant 0 <= i <= |depths|
        invariant passStartDepth == if i == 0 then startDepth else depths[i - 1]
        invariant commandList + FoldPasses(ctx, rounds[i..]).0 == total
        invariant lastZ == if i == 0 then None else Some(ctx.clearance)
      {
        PassRoundsAt(m, ctx, startDepth, depths, results, i);
        assert rounds[i..][0] == rounds[i] && rounds[i..][1..] == rounds[i + 1..];
        EmitPassRaised(m, ctx, passStartDepth, depths[i], results, rounds[i..], total);
        passStartDepth := depths[i];
        lastZ := Some(ctx.clearance);
        i := i + 1;
      }
      assert rounds[i..] == [];
      assert commandList + [] == commandList;
      PassesEmitLastZ(m, ctx, startDepth, depths, results);
    }

    /**
     * generateGCode (lines 171-279): the early return, the clamps, the pass
     * and region loops and the final raise, as Generate describes them.
     */
    method GenerateGCode(m: MathLib, results: seq<Region>, depthParams: DepthRequest -> seq<real>)
      returns (raised: Option<PyError>)
      requires ValidMath(m)
      modifies this`commandList, this`depthData, obj`helixAngle, obj`path
      ensures Generated(Generate(m, old(obj.Context()), obj.props.startDepth, depthParams(obj.Request()), results),
                        raised, depthParams(obj.Request()), old(obj.path), old(commandList), old(depthData),
                        old(obj.helixAngle))
    {
      ghost var ctx0 := obj.Context();
      ghost var req := obj.Request();
      ghost var e := Generate(m, ctx0, obj.props.startDepth, depthParams(req), results);
      ghost var path0, commands0, depths0, helix0 := obj.path, commandList, depthData, obj.helixAngle;
      if |results| == 0 || |results[0].paths| == 0 {
        raised := None;
        assert e == Skipped;
        assert Generated(e, raised, depthParams(req), path0, commands0, depths0, helix0);
        return;
      }
      commandList := [];
      var stepDown := obj.props.stepDown;
      if stepDown < 0.1 { stepDown := 0.1; }
      var stepUp := obj.props.liftDistance;
      var minLiftDistance := obj.props.toolDiameter;
      if stepUp < minLiftDistance { stepUp := minLiftDistance; }
      var finishStep := obj.props.finishDepth;
      if finishStep > stepDown { finishStep := stepDown; }
      if obj.helixAngle < 1.0 { obj.helixAngle := 1.0; }
      var request := DepthRequest(obj.props.clearanceHeight, obj.props.safeHeight, obj.props.startDepth,
                                  stepDown, finishStep, obj.props.finalDepth);
      assert request == req;
      depthData := depthParams(request);
      var ctx := EmitContext(obj.props.clearanceHeight, obj.props.safeHeight, stepUp, obj.props.toolVertFeed, obj.props.toolHorizFeed,
                             obj.helixAngle);
      assert ctx == ctx0;
      var lastZ := EmitPasses(m, ctx, obj.props.startDepth, depthData, results);
      ghost var passes := PassesEmit(m, ctx, obj.props.startDepth, depthData, results);
      assert [] + passes.0 == passes.0;
      assert commandList == passes.0;
      if lastZ.None? {
        raised := Some(UnboundLastZ);
        assert e == Raised(UnboundLastZ, passes.0);
        assert Generated(e, raised, depthParams(req), path0, commands0, depths0, helix0);
        return;
      }
      commandList := commandList + Raise(ctx, lastZ.value);
      assert e == Emitted(passes.0 + Raise(ctx, lastZ.value));
      obj.path := Program(commandList);
      raised := None;
      assert Generated(e, raised, depthParams(req), path0, commands0, depths0, helix0);
      assert obj.Request() == req;
    }

    /**
     * execute (lines 99-169): placeholder path, face lookup, tolerance
     * clamp, input record, engine call only when no output is stored, state
     * store, then generateGCode.  Returns the exception raised, if any, and
     * whether the engine ran.
     */
    method Execute(m: MathLib, discretize: (Face, real) -> seq<Vec3>,
                   engine: (EngineSettings, seq<seq<Point2>>, seq<seq<Point2>>) -> seq<Region>,
                   depthParams: DepthRequest -> seq<real>)
      returns (raised: Option<PyError>, invoked: bool)
      requires ValidMath(m)
      modifies this`commandList, this`depthData, obj`tolerance, obj`inputState, obj`outputState,
               obj`helixAngle, obj`path
      ensures old(obj.base).None? || old(obj.stock).None? ==>
        && raised == Some(NoneNotSubscriptable) && !invoked && obj.path == Calculating
        && obj.tolerance == old(obj.tolerance) && obj.helixAngle == old(obj.helixAngle)
        && obj.inputState == old(obj.inputState) && obj.outputState == old(obj.outputState)
        && commandList == old(commandList) && depthData == old(depthData)
      ensures old(obj.base).Some? && old(obj.stock).Some? ==>
        var basePath := Path2dOf(discretize(obj.base.value, Deflection));
        var stockPath := Path2dOf(discretize(obj.stock.value, Deflection));
        var results := if old(obj.outputState).Value? then old(obj.outputState).v
                       else engine(obj.Settings(), stockPath, basePath);
        && obj.tolerance == ClampMin(old(obj.tolerance), MinTolerance)
        && (invoked <==> old(obj.outputState).NoneValue? || old(obj.outputState).EmptyString?)
        && obj.inputState == Value(obj.InputOf(basePath, stockPath))
        && obj.outputState == Value(results)
        && Generated(Generate(m, old(obj.Context()), obj.props.startDepth, depthParams(obj.Request()), results),
                     raised, depthParams(obj.Request()), Calculating, old(commandList), old(depthData),
                     old(obj.helixAngle))
    {
      ghost var ctx0 := obj.Context();
      obj.path := Calculating;
      invoked := false;
      if obj.base.None? || obj.stock.None? {
        raised := Some(NoneNotSubscriptable);
        return;
      }
      var basePath2d := ShapeToPath2d(discretize(obj.base.value, Deflection));
      var stockPath2d := ShapeToPath2d(discretize(obj.stock.value, Deflection));
      if obj.tolerance < MinTolerance { obj.tolerance := MinTolerance; }
      var inputStateObject := obj.InputOf(basePath2d, stockPath2d);
      var settings := obj.Settings();
      var adaptiveResults: seq<Region>;
      if obj.outputState.Value? {
        adaptiveResults := obj.outputState.v;
      } else {
        adaptiveResults := engine(settings, stockPath2d, basePath2d);
        invoked := true;
      }
      obj.inputState := Value(inputStateObject);
      obj.outputState := Value(adaptiveResults);
      assert obj.Context() == ctx0;
      raised := GenerateGCode(m, adaptiveResults, depthParams);
      assert obj.Settings() == settings;
      assert obj.InputOf(basePath2d, stockPath2d) == inputStateObject;
    }
  }
}
