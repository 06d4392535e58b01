/**
 * The log line of PathAdaptive.py:264, which runs after both moves of a
 * not-clear link point.  The message has two conversions but, since `%`
 * binds tighter than the comma, only x is formatted into it, and Python's
 * `%` raises TypeError when a format has more conversions than arguments.
 */
module AdaptiveLog {
  import opened Wrappers
  import opened Geometry
  import opened AdaptiveTypes
  import opened AdaptiveEmit

  /** The format string of line 264. */
  const PointMessage: string := "X= %f, Y= %f"

  /**
   * The conversions of a %-format with one-letter conversion codes (as in
   * the message above), scanning from index i; "%%" stands for a literal
   * percent sign.
   */
  function ConversionsFrom(fmt: string, i: nat): nat
    decreases |fmt| - i
  {
    if i + 1 >= |fmt| then 0
    else if fmt[i] == '%' && fmt[i + 1] == '%' then ConversionsFrom(fmt, i + 2)
    else if fmt[i] == '%' then 1 + ConversionsFrom(fmt, i + 2)
    else ConversionsFrom(fmt, i + 1)
  }

  function Conversions(fmt: string): nat
  {
    ConversionsFrom(fmt, 0)
  }

  /**
   * `fmt % operand` with argCount arguments (a non-tuple operand is one):
   * TypeError when the counts differ, in either direction.
   */
  function FormatError(fmt: string, argCount: nat): Option<PyError>
  {
    if Conversions(fmt) != argCount then Some(FormatTypeError) else None
  }

  lemma PointMessageHasTwoConversions()
    ensures Conversions(PointMessage) == 2
  {
    var s := PointMessage;
    assert |s| == 12;
    assert ConversionsFrom(s, 12) == 0;
    assert ConversionsFrom(s, 10) == 1;
    assert ConversionsFrom(s, 9) == 1;
    assert ConversionsFrom(s, 8) == 1;
    assert ConversionsFrom(s, 7) == 1;
    assert ConversionsFrom(s, 6) == 1;
    assert ConversionsFrom(s, 5) == 1;
    assert ConversionsFrom(s, 3) == 2;
    assert ConversionsFrom(s, 2) == 2;
    assert ConversionsFrom(s, 1) == 2;
  }

  /**
   * One engine point as written: the moves of lines 254-263 are appended,
   * then a not-clear link formats its message with the single operand x.
   * An error carries the commands appended before it.
   */
  function PointStepAsWritten(ctx: EmitContext, passEnd: real, mt: MotionType, p: Point2, lastZ: real)
    : Result<(seq<Command>, real), (PyError, seq<Command>)>
  {
    var s := PointStep(ctx, passEnd, mt, p, lastZ);
    if mt == LinkNotClear then
      match FormatError(PointMessage, 1)
      case Some(e) => Err((e, s.0))
      case None => Ok(s)
    else Ok(s)
  }

  /** The evident intent, `% (x, y)`: two arguments for the two conversions. */
  function PointStepCorrected(ctx: EmitContext, passEnd: real, mt: MotionType, p: Point2, lastZ: real)
    : Result<(seq<Command>, real), (PyError, seq<Command>)>
  {
    var s := PointStep(ctx, passEnd, mt, p, lastZ);
    if mt == LinkNotClear then
      match FormatError(PointMessage, 2)
      case Some(e) => Err((e, s.0))
      case None => Ok(s)
    else Ok(s)
  }

  /**
   * As written, every not-clear link point raises TypeError right after its
   * moves, so no region with such a path is ever completed; other points
   * are unaffected.
   */
  lemma LinkNotClearRaisesAsWritten(ctx: EmitContext, passEnd: real, mt: MotionType, p: Point2, lastZ: real)
    ensures PointStepAsWritten(ctx, passEnd, mt, p, lastZ)
         == if mt == LinkNotClear then Err((FormatTypeError, PointStep(ctx, passEnd, mt, p, lastZ).0))
            else Ok(PointStep(ctx, passEnd, mt, p, lastZ))
  {
    PointMessageHasTwoConversions();
  }

  /** With the intended arguments the log line never raises, and each point is exactly PointStep. */
  lemma CorrectedStepIsPointStep(ctx: EmitContext, passEnd: real, mt: MotionType, p: Point2, lastZ: real)
    ensures PointStepCorrected(ctx, passEnd, mt, p, lastZ) == Ok(PointStep(ctx, passEnd, mt, p, lastZ))
  {
    PointMessageHasTwoConversions();
  }
}
