/**
 * Data handled by the adaptive operation (PathAdaptive.py): what the
 * clearing engine returns, the motion commands the emitter builds, and the
 * math library the emitter calls.
 */
module AdaptiveTypes {
  import opened Wrappers
  import opened Geometry

  /** area.AdaptiveMotionType: how the engine classifies a path. */
  datatype MotionType = Cutting | LinkClear | LinkNotClear

  /** One engine path: path[0] is its motion type, path[1] its points. */
  datatype EnginePath = EnginePath(motion: MotionType, points: seq<Point2>)

  /** One region of a clearing result (the dictionary built at lines 158-162). */
  datatype Region = Region(
    helixCenter: Point2,
    start: Point2,
    paths: seq<EnginePath>,
    returnMotion: MotionType)

  /** The three comment commands, told apart by their text. */
  datatype CommentKind = HelixToDepth | StraightToDepth | AdaptiveAtDepth

  /** A Path.Command: a comment, a G0 rapid or a G1 feed with optional axes. */
  datatype Command =
    | Comment(kind: CommentKind, depth: real)
    | Rapid(x: Option<real>, y: Option<real>, z: Option<real>)
    | Feed(x: Option<real>, y: Option<real>, z: Option<real>, f: real)

  /** obj.Path: the "(calculating...)" placeholder or a list of commands. */
  datatype ToolPath = Calculating | Program(commands: seq<Command>)

  /** Python exceptions the modelled code can raise. */
  datatype PyError =
    | UnboundLastZ          // lastZ read before any assignment (line 276)
    | NoneNotSubscriptable  // obj.Base or obj.Stock still None (lines 105-106)
    | FormatTypeError       // '%' formatting with too few arguments (line 264)

  /**
   * Outcome of generateGCode: returned at once without touching anything
   * (line 173), or the command list built and, if it stopped early, why.
   */
  datatype Emission =
    | Skipped
    | Emitted(commands: seq<Command>)
    | Raised(error: PyError, commands: seq<Command>)

  /**
   * math.pi, math.sqrt, math.sin, math.cos, math.tan and math.atan2, left
   * uninterpreted: the model never relies on their values.
   */
  datatype MathLib = MathLib(
    pi: real,
    sqrt: real -> real,
    sin: real -> real,
    cos: real -> real,
    tan: real -> real,
    atan2: (real, real) -> real)

  /**
   * What the emitter needs of the math library: pi is positive, and tan of a
   * positive angle is never exactly zero (true of floating-point tan, whose
   * only zero among doubles is at 0), so depthPerRevolution is never zero.
   */
  ghost predicate ValidMath(m: MathLib)
  {
    m.pi > 0.0 && forall t: real :: t > 0.0 ==> m.tan(t) != 0.0
  }

  /** The settled parameters of one emission run, after the clamps of lines 177-184. */
  datatype EmitContext = EmitContext(
    clearance: real,
    safe: real,
    stepUp: real,
    vertFeed: real,
    horizFeed: real,
    helixAngle: real)

  /** The arguments of PathUtils.depth_params (lines 186-193). */
  datatype DepthRequest = DepthRequest(
    clearance: real,
    safe: real,
    start: real,
    stepDown: real,
    finishStep: real,
    finalDepth: real)
}
