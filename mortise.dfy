/**
 * The mortise-and-tenon joint feature (Mortise.py): the capsule-shaped hole
 * profile and the stock rectangle, both computed at the origin in a default
 * orientation, and the feature's execute step with its one-shot creation of
 * a linked Adaptive milling operation.
 */
module Mortise {
  import opened Wrappers
  import opened Geometry

  /** The Type enumeration of line 13: "hole" or "tongue". */
  datatype JointType = Hole | Tongue

  /**
   * The points of the hole profile (lines 44-55): one corner per quadrant
   * and the two arc midpoints on the y axis.
   */
  datatype Outline = Outline(p0: Vec3, p1: Vec3, p2: Vec3, p3: Vec3, p10: Vec3, p32: Vec3)

  function MirrorX(p: Vec3): Vec3
  {
    Vec3(-p.x, p.y, p.z)
  }

  function MirrorY(p: Vec3): Vec3
  {
    Vec3(p.x, -p.y, p.z)
  }

  function DistSq(p: Vec3, q: Vec3): real
  {
    (p.x - q.x) * (p.x - q.x) + (p.y - q.y) * (p.y - q.y) + (p.z - q.z) * (p.z - q.z)
  }

  /**
   * The profile points for a hole of the given length and width.  The
   * corners are (+-w/2, +-(l/2 - w/2)) in the z = 0 plane, so the profile is
   * symmetric in both axes, and the midpoints are the extremes y = +-l/2.
   */
  function HoleOutline(length: real, width: real): (o: Outline)
    ensures o.p0 == Vec3(width / 2.0, length / 2.0 - width / 2.0, 0.0)
    ensures o.p1 == MirrorX(o.p0) && o.p3 == MirrorY(o.p0) && o.p2 == MirrorX(o.p3) && o.p2 == MirrorY(o.p1)
    ensures o.p10 == MirrorX(o.p10) && o.p32 == MirrorY(o.p10) && o.p10.y == length / 2.0 && o.p10.z == 0.0
  {
    var hw := width / 2.0;
    var hl := length / 2.0;
    Outline(Vec3(hw, hl - hw, 0.0), Vec3(-hw, hl - hw, 0.0), Vec3(-hw, -hl + hw, 0.0), Vec3(hw, -hl + hw, 0.0),
            Vec3(0.0, hl, 0.0), Vec3(0.0, -hl, 0.0))
  }

  /**
   * Both arcs are semicircles of diameter w: for arc10 about (0, l/2 - w/2)
   * and arc32 about its mirror image, the two corners are opposite ends of a
   * diameter and the midpoint lies on the circle, w/2 beyond the centre.
   */
  lemma ArcsAreSemicircles(length: real, width: real)
    ensures var o := HoleOutline(length, width);
            var c10 := Vec3(0.0, length / 2.0 - width / 2.0, 0.0);
            var c32 := MirrorY(c10);
            var r2 := (width / 2.0) * (width / 2.0);
            && DistSq(o.p1, c10) == r2 && DistSq(o.p10, c10) == r2 && DistSq(o.p0, c10) == r2
            && DistSq(o.p3, c32) == r2 && DistSq(o.p32, c32) == r2 && DistSq(o.p2, c32) == r2
            && DistSq(o.p0, o.p1) == width * width && DistSq(o.p3, o.p2) == width * width
            && o.p10.y - c10.y == width / 2.0 && c32.y - o.p32.y == width / 2.0
  {
    var o := HoleOutline(length, width);
    var hw := width / 2.0;
    var c10 := Vec3(0.0, length / 2.0 - hw, 0.0);
    assert o.p10.y - c10.y == hw;
    assert DistSq(o.p0, o.p1) == (2.0 * hw) * (2.0 * hw);
  }

  /** The wire of line 61: line03, arc32, line21, arc10. */
  function HoleEdges(o: Outline): seq<Edge>
  {
    [Line(o.p3, o.p0), Arc(o.p3, o.p32, o.p2), Line(o.p1, o.p2), Arc(o.p1, o.p10, o.p0)]
  }

  function First(e: Edge): Vec3
  {
    match e
    case Line(a, _) => a
    case Arc(a, _, _) => a
  }

  function Last(e: Edge): Vec3
  {
    match e
    case Line(_, b) => b
    case Arc(_, _, b) => b
  }

  /** How many edge ends among the edges are at p. */
  function EndCount(edges: seq<Edge>, p: Vec3): nat
    decreases |edges|
  {
    if edges == [] then 0
    else (if First(edges[0]) == p then 1 else 0) + (if Last(edges[0]) == p then 1 else 0) + EndCount(edges[1..], p)
  }

  /**
   * The four edges close up: for a proper capsule (non-zero width and a
   * length other than the width, so that the corners are distinct) every
   * corner is the end of exactly two edges and every edge ends at corners.
   */
  lemma {:induction false} HoleWireIsClosed(length: real, width: real)
    requires width != 0.0 && length != width
    ensures var o := HoleOutline(length, width);
            var es := HoleEdges(o);
            && EndCount(es, o.p0) == 2 && EndCount(es, o.p1) == 2
            && EndCount(es, o.p2) == 2 && EndCount(es, o.p3) == 2
            && forall i :: 0 <= i < |es| ==> First(es[i]) in {o.p0, o.p1, o.p2, o.p3} && Last(es[i]) in {o.p0, o.p1, o.p2, o.p3}
  {
    var o := HoleOutline(length, width);
    var es := HoleEdges(o);
    assert o.p0 != o.p1 && o.p3 != o.p2 by { assert o.p0.x != o.p1.x; }
    assert o.p0 != o.p3 && o.p1 != o.p2 by { assert o.p0.y - o.p3.y == length - width; }
    assert o.p0 != o.p2 && o.p1 != o.p3;
    assert es[1..][1..][1..][1..] == [];
    forall p | p in {o.p0, o.p1, o.p2, o.p3}
      ensures EndCount(es, p) == 2
    {
      assert EndCount(es[1..][1..][1..], p) == (if o.p1 == p then 1 else 0) + (if o.p0 == p then 1 else 0);
      assert EndCount(es[1..][1..], p) == (if o.p1 == p then 1 else 0) + (if o.p2 == p then 1 else 0)
                                         + EndCount(es[1..][1..][1..], p);
      assert EndCount(es[1..], p) == (if o.p3 == p then 1 else 0) + (if o.p2 == p then 1 else 0)
                                     + EndCount(es[1..][1..], p);
    }
  }

  /** getHoleShapes (lines 37-65): the profile face and its extrusion by -Depth along the temporary normal. */
  function HoleShapes(length: real, width: real, depth: real, normal: Vec3): (Face, Solid)
  {
    var face := WireFace(HoleEdges(HoleOutline(length, width)));
    (face, Extrusion(face, Scale(-depth, normal)))
  }

  /**
   * The stock face of lines 70-74: an L x W plane with its corner at
   * (-L/2, -W/2), so it spans [-L/2, L/2] x [-W/2, W/2] about the origin.
   */
  function StockFace(length: real, width: real): (f: Face)
    ensures f.PlaneFace? && f.length == length && f.width == width && f.corner.z == 0.0
    ensures f.corner.x == -length / 2.0 && f.corner.x + f.length == length / 2.0
    ensures f.corner.y == -width / 2.0 && f.corner.y + f.width == width / 2.0
  {
    PlaneFace(length, width, Vec3(-length / 2.0, -width / 2.0, 0.0))
  }

  /** getStockShapes (lines 67-77): the stock face and its extrusion like the hole's. */
  function StockShapes(length: real, width: real, depth: real, normal: Vec3): (Face, Solid)
  {
    var face := StockFace(length, width);
    (face, Extrusion(face, Scale(-depth, normal)))
  }

  /**
   * The Adaptive operation created by addOperation (lines 79-86): its Base
   * links this joint's HoleFace and its Stock links the StockFace.
   */
  datatype LinkedOperation = LinkedAdaptive(baseFace: string, stockFace: string)

  const HoleLink: LinkedOperation := LinkedAdaptive("HoleFace", "StockFace")

  /** The joint's user-editable properties (lines 12-31). */
  datatype JointProperties = JointProperties(
    description: string,
    jointType: JointType,
    holeLength: real,
    holeWidth: real,
    stockLength: real,
    stockWidth: real,
    depth: real,
    temporaryPosition: Vec3,
    temporaryNormal: Vec3,
    temporaryDirection: Vec3,
    position: Vec3,
    normal: Vec3,
    direction: Vec3)

  /** The defaults of lines 12-31. */
  const DefaultJoint: JointProperties :=
    JointProperties("Mortise and tenon joint", Hole, 60.0, 30.0, 102.0, 102.0, 60.0,
                    Vec3(0.0, 0.0, 0.0), Vec3(0.0, 0.0, 1.0), Vec3(0.0, 1.0, 0.0),
                    Vec3(0.0, 0.0, 0.0), Vec3(0.0, 0.0, 1.0), Vec3(0.0, 1.0, 0.0))

  /** The joint's document object with its properties, and the operations it has created. */
  class MortiseJoint {
    var props: JointProperties
    var holeFace: Option<Face>
    var stockFace: Option<Face>
    var operationExists: bool
    var shape: Option<Solid>
    var placement: Placement
    /** The Adaptive objects this joint has added to the document, oldest first. */
    var operations: seq<LinkedOperation>

    /** The flag records exactly whether the one linked operation has been created. */
    ghost predicate Valid()
      reads this
    {
      operations == if operationExists then [HoleLink] else []
    }

    /**
     * The state execute leaves (lines 91-107): both faces stored, the hole
     * solid for a "hole" joint and the stock-minus-hole cutout otherwise,
     * and the placement at Position, turned from the temporary frame to the
     * target one.
     */
    ghost predicate Executed()
      reads this
    {
      var p := props;
      var hole := HoleShapes(p.holeLength, p.holeWidth, p.depth, p.temporaryNormal);
      var stock := StockShapes(p.stockLength, p.stockWidth, p.depth, p.temporaryNormal);
      && holeFace == Some(hole.0)
      && stockFace == Some(stock.0)
      && shape == Some(if p.jointType == Hole then hole.1 else Cut(stock.1, hole.1))
      && placement == Placement(p.position, Compose(Between(p.temporaryNormal, p.normal),
                                                    Between(p.temporaryDirection, p.direction)))
    }

    /**
     * __init__ (lines 8-35): the default properties, then one execute, so the
     * linked operation exists once construction returns.
     */
    constructor ()
      ensures props == DefaultJoint
      ensures Valid() && operationExists && operations == [HoleLink]
      ensures Executed()
    {
      props := DefaultJoint;
      holeFace := None;
      stockFace := None;
      operationExists := false;
      operations := [];
      new;
      Execute();
    }

    /** addOperation (lines 79-86): adds one Adaptive object linked to the faces. */
    method AddOperation()
      modifies this`operations
      ensures operations == old(operations) + [HoleLink]
    {
      operations := operations + [HoleLink];
    }

    /**
     * execute (lines 88-112): stores both faces, keeps the hole solid for a
     * "hole" joint and the stock-minus-hole cutout otherwise, places the
     * shape at Position turned from the temporary frame to the target one,
     * and creates the linked operation only if the flag is still unset.
     */
    method Execute()
      modifies this`holeFace, this`stockFace, this`shape, this`placement, this`operationExists, this`operations
      ensures Executed()
      ensures operationExists
      ensures operations == old(operations) + (if old(operationExists) then [] else [HoleLink])
      ensures old(Valid()) ==> Valid()
    {
      var p := props;
      var hole := HoleShapes(p.holeLength, p.holeWidth, p.depth, p.temporaryNormal);
      var stock := StockShapes(p.stockLength, p.stockWidth, p.depth, p.temporaryNormal);
      holeFace := Some(hole.0);
      stockFace := Some(stock.0);
      var cutout := Cut(stock.1, hole.1);
      if p.jointType == Hole {
        shape := Some(hole.1);
      } else {
        shape := Some(cutout);
      }
      var rotation1 := Between(p.temporaryNormal, p.normal);
      var rotation2 := Between(p.temporaryDirection, p.direction);
      placement := Placement(p.position, Compose(rotation1, rotation2));
      if !operationExists {
        AddOperation();
        operationExists := true;
      }
    }
  }

  /**
   * The operation is created at most once: however many times a valid joint
   * is executed, it has at most one linked operation, and exactly one once
   * the flag is set.
   */
  lemma AtMostOneOperation(j: MortiseJoint)
    requires j.Valid()
    ensures |j.operations| <= 1 && (j.operationExists <==> |j.operations| == 1)
  {
  }
}
