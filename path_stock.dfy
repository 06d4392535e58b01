/**
 * The stock objects of PathStock.py: stock sized from a base object's bound
 * box plus allowances, and box or cylinder stock of given extents, each
 * rebuilt when one of its dimension properties changes.
 */
module PathStock {
  import opened Wrappers
  import opened Geometry

  function Add(a: Vec3, b: Vec3): Vec3
  {
    Vec3(a.x + b.x, a.y + b.y, a.z + b.z)
  }

  function Sub(a: Vec3, b: Vec3): Vec3
  {
    Vec3(a.x - b.x, a.y - b.y, a.z - b.z)
  }

  const Origin: Vec3 := Vec3(0.0, 0.0, 0.0)

  /** The placement a new document object starts with: at the origin, unrotated. */
  const DefaultPlacement: Placement := Placement(Origin, Identity)

  /** An axis-aligned bound box (FreeCAD.BoundBox): its minimum corner and its lengths. */
  datatype BoundBox = BoundBox(min: Vec3, size: Vec3)
  {
    function Max(): Vec3
    {
      Add(min, size)
    }
  }

  /** The base object a stock is derived from: its placement and its shape's bound box. */
  datatype BaseObject = BaseObject(placement: Placement, boundBox: BoundBox)

  /** The stock block StockFromBase.execute computes: self.origin, self.length, self.width, self.height. */
  datatype StockBox = StockBox(origin: Vec3, length: real, width: real, height: real)
  {
    /** The corner opposite the origin. */
    function Far(): Vec3
    {
      Add(origin, Vec3(length, width, height))
    }

    /** The box primitive built from the block (Part.makeBox with an origin). */
    function Solid(): Solid
    {
      Box(length, width, height, origin)
    }
  }

  /**
   * The block around a bound box (lines 85-89): its origin is the bound
   * box's minimum less the negative allowances, and each extent adds both
   * allowances to the box's length, so its far corner is the bound box's
   * maximum plus the positive allowances.
   */
  function Expand(bb: BoundBox, neg: Vec3, pos: Vec3): (s: StockBox)
    ensures s.origin == Sub(bb.min, neg)
    ensures s.length == bb.size.x + neg.x + pos.x
    ensures s.width == bb.size.y + neg.y + pos.y
    ensures s.height == bb.size.z + neg.z + pos.z
    ensures s.Far() == Add(bb.Max(), pos)
  {
    StockBox(Sub(bb.min, neg), bb.size.x + neg.x + pos.x, bb.size.y + neg.y + pos.y, bb.size.z + neg.z + pos.z)
  }

  predicate NonNegative(v: Vec3)
  {
    v.x >= 0.0 && v.y >= 0.0 && v.z >= 0.0
  }

  /** p lies in the closed box from lo to hi. */
  predicate Within(p: Vec3, lo: Vec3, hi: Vec3)
  {
    lo.x <= p.x <= hi.x && lo.y <= p.y <= hi.y && lo.z <= p.z <= hi.z
  }

  /**
   * With the non-negative allowances a length property holds, the stock
   * block encloses the bound box: both of its corners lie within the block.
   */
  lemma ExpandEncloses(bb: BoundBox, neg: Vec3, pos: Vec3)
    requires NonNegative(neg) && NonNegative(pos) && NonNegative(bb.size)
    ensures var s := Expand(bb, neg, pos);
            Within(bb.min, s.origin, s.Far()) && Within(bb.Max(), s.origin, s.Far())
  {
  }

  /**
   * Whether onChanged re-executes: the property is one of the watched ones
   * and the object is not being restored.
   */
  predicate Triggers(prop: string, watched: seq<string>, state: seq<string>)
  {
    prop in watched && "Restore" !in state
  }

  /**
   * A restoring object never re-executes, whatever property changed, and a
   * property outside the watched list never triggers a recompute.
   */
  lemma NoRecomputeWhileRestoring(prop: string, watched: seq<string>, state: seq<string>)
    ensures "Restore" in state ==> !Triggers(prop, watched, state)
    ensures prop !in watched ==> !Triggers(prop, watched, state)
  {
  }

  /** The allowances that StockFromBase.onChanged watches (line 100). */
  const ExtentProperties: seq<string> := ["ExtXneg", "ExtXpos", "ExtYneg", "ExtYpos", "ExtZneg", "ExtZpos"]

  /** Stock sized from a base object's bound box (lines 44-107). */
  class StockFromBase {
    var stockType: string
    var baseObject: Option<BaseObject>
    var placement: Placement
    /** ExtXneg, ExtYneg, ExtZneg. */
    var neg: Vec3
    /** ExtXpos, ExtYpos, ExtZpos. */
    var pos: Vec3
    /** self.origin, self.length, self.width and self.height, once execute has computed them. */
    var block: Option<StockBox>
    var shape: Option<Solid>
    /** The document object's State list. */
    var state: seq<string>

    /**
     * __init__ (lines 45-75): links the base object, takes its placement and
     * copies the allowances (each 1 by default) into the six Ext properties.
     * The proxy is attached first (line 52), so each allowance write runs
     * onChanged; the last of them (line 75) leaves the state one execute on
     * the final values computes.
     */
    constructor (baseObject: BaseObject, neg: Vec3, pos: Vec3)
      ensures stockType == "FromBase" && this.baseObject == Some(baseObject)
      ensures placement == baseObject.placement
      ensures this.neg == neg && this.pos == pos && state == []
      ensures block == Some(Expand(baseObject.boundBox, neg, pos))
      ensures shape == Some(Expand(baseObject.boundBox, neg, pos).Solid())
    {
      stockType := "FromBase";
      this.baseObject := Some(baseObject);
      placement := baseObject.placement;
      this.neg := neg;
      this.pos := pos;
      block := None;
      shape := None;
      state := [];
      new;
      Execute();
    }

    /**
     * The state execute leaves, from the block and shape before it: without
     * a base object both stay as they were; otherwise the block is the
     * expanded bound box and the shape its box.
     */
    ghost predicate ExecutedFrom(block0: Option<StockBox>, shape0: Option<Solid>)
      reads this
    {
      match baseObject
      case None => block == block0 && shape == shape0
      case Some(b) =>
        var s := Expand(b.boundBox, neg, pos);
        block == Some(s) && shape == Some(s.Solid())
    }

    /** execute (lines 77-92). */
    method Execute()
      modifies this`block, this`shape
      ensures ExecutedFrom(old(block), old(shape))
    {
      var bb: Option<BoundBox> := if baseObject.Some? then Some(baseObject.value.boundBox) else None;
      if bb.Some? {
        var b := bb.value;
        var origin := Vec3(b.min.x - neg.x, b.min.y - neg.y, b.min.z - neg.z);
        var length := b.size.x + neg.x + pos.x;
        var width := b.size.y + neg.y + pos.y;
        var height := b.size.z + neg.z + pos.z;
        block := Some(StockBox(origin, length, width, height));
        shape := Some(Box(length, width, height, origin));
      }
    }

    /** onChanged (lines 99-101): re-executes for an allowance change outside a restore. */
    method OnChanged(prop: string)
      modifies this`block, this`shape
      ensures Triggers(prop, ExtentProperties, state) ==> ExecutedFrom(old(block), old(shape))
      ensures !Triggers(prop, ExtentProperties, state) ==> block == old(block) && shape == old(shape)
    {
      if prop in ExtentProperties && "Restore" !in state {
        Execute();
      }
    }
  }

  /** StockCreateBox.MinExtent and StockCreateCylinder.MinExtent. */
  const MinExtent: real := 0.001

  /**
   * StockCreateBox.execute on given dimensions (lines 139-147): each too
   * small dimension is raised to MinExtent, and the shape is the box of the
   * resulting dimensions at the object's placement.  Every dimension ends at
   * least MinExtent, and one already that large is kept.
   */
  function BoxExecuted(length: real, width: real, height: real, placement: Placement)
    : (r: (real, real, real, Solid))
    ensures r.0 >= MinExtent && r.1 >= MinExtent && r.2 >= MinExtent
    ensures length >= MinExtent ==> r.0 == length
    ensures width >= MinExtent ==> r.1 == width
    ensures height >= MinExtent ==> r.2 == height
    ensures r.3 == Placed(Box(r.0, r.1, r.2, Origin), placement)
  {
    var l := ClampMin(length, MinExtent);
    var w := ClampMin(width, MinExtent);
    var h := ClampMin(height, MinExtent);
    (l, w, h, Placed(Box(l, w, h, Origin), placement))
  }

  /** A second execute of a box changes nothing. */
  lemma BoxExecuteIdempotent(length: real, width: real, height: real, placement: Placement)
    ensures var r := BoxExecuted(length, width, height, placement);
            BoxExecuted(r.0, r.1, r.2, placement) == r
  {
  }

  /** The dimensions that StockCreateBox.onChanged watches (line 157). */
  const BoxProperties: seq<string> := ["Length", "Width", "Height"]

  /** Box stock of given extents (lines 109-170). */
  class StockCreateBox {
    var stockType: string
    var length: real
    var width: real
    var height: real
    var placement: Placement
    var shape: Option<Solid>
    var state: seq<string>

    /**
     * __init__ (lines 112-137): the extents (20 each by default) and, when
     * one is given, the placement.  The proxy is attached first (line 122),
     * so each extent write runs onChanged; the last of them (line 134)
     * executes on the final extents while the placement is still the
     * default, and the given placement is written afterwards.
     */
    constructor (extent: Vec3, placement: Option<Placement>)
      ensures stockType == "CreateBox" && state == []
      ensures this.placement == if placement.Some? then placement.value else DefaultPlacement
      ensures shape.Some?
      ensures (length, width, height, shape.value) == BoxExecuted(extent.x, extent.y, extent.z, DefaultPlacement)
    {
      stockType := "CreateBox";
      length := extent.x;
      width := extent.y;
      height := extent.z;
      this.placement := DefaultPlacement;
      shape := None;
      state := [];
      new;
      Execute();
      if placement.Some? {
        this.placement := placement.value;
      }
    }

    /** execute (lines 139-149). */
    method Execute()
      modifies this`length, this`width, this`height, this`shape
      ensures shape.Some? && (length, width, height, shape.value) == BoxExecuted(old(length), old(width), old(height), placement)
    {
      if length < MinExtent {
        length := MinExtent;
      }
      if width < MinExtent {
        width := MinExtent;
      }
      if height < MinExtent {
        height := MinExtent;
      }
      var box := Box(length, width, height, Origin);
      shape := Some(Placed(box, placement));
    }

    /** onChanged (lines 156-158): re-executes for a dimension change outside a restore. */
    method OnChanged(prop: string)
      modifies this`length, this`width, this`height, this`shape
      ensures Triggers(prop, BoxProperties, state) ==>
                shape.Some? && (length, width, height, shape.value) == BoxExecuted(old(length), old(width), old(height), placement)
      ensures !Triggers(prop, BoxProperties, state) ==>
                length == old(length) && width == old(width) && height == old(height) && shape == old(shape)
    {
      if prop in BoxProperties && "Restore" !in state {
        Execute();
      }
    }
  }

  /**
   * StockCreateCylinder.execute on given dimensions (lines 194-202): radius
   * and height are raised to MinExtent when smaller, and the shape is the
   * cylinder of the resulting dimensions at the object's placement.
   */
  function CylinderExecuted(radius: real, height: real, placement: Placement): (r: (real, real, Solid))
    ensures r.0 >= MinExtent && r.1 >= MinExtent
    ensures radius >= MinExtent ==> r.0 == radius
    ensures height >= MinExtent ==> r.1 == height
    ensures r.2 == Placed(Cylinder(r.0, r.1), placement)
  {
    var rad := ClampMin(radius, MinExtent);
    var h := ClampMin(height, MinExtent);
    (rad, h, Placed(Cylinder(rad, h), placement))
  }

  /** A second execute of a cylinder changes nothing. */
  lemma CylinderExecuteIdempotent(radius: real, height: real, placement: Placement)
    ensures var r := CylinderExecuted(radius, height, placement);
            CylinderExecuted(r.0, r.1, placement) == r
  {
  }

  /** The dimensions that StockCreateCylinder.onChanged watches (line 210). */
  const CylinderProperties: seq<string> := ["Radius", "Height"]

  /** Cylinder stock of given radius and height (lines 172-222). */
  class StockCreateCylinder {
    var stockType: string
    var radius: real
    var height: real
    var placement: Placement
    var shape: Option<Solid>
    var state: seq<string>

    /**
     * __init__ (lines 175-192): the radius and height (2 and 10 by default)
     * and, when one is given, the placement.  The proxy is attached first
     * (line 179), so each dimension write runs onChanged; the last of them
     * (line 189) executes on the final dimensions while the placement is
     * still the default, and the given placement is written afterwards.
     */
    constructor (radius: real, height: real, placement: Option<Placement>)
      ensures stockType == "CreateCylinder" && state == []
      ensures this.placement == if placement.Some? then placement.value else DefaultPlacement
      ensures shape.Some?
      ensures (this.radius, this.height, shape.value) == CylinderExecuted(radius, height, DefaultPlacement)
    {
      stockType := "CreateCylinder";
      this.radius := radius;
      this.height := height;
      this.placement := DefaultPlacement;
      shape := None;
      state := [];
      new;
      Execute();
      if placement.Some? {
        this.placement := placement.value;
      }
    }

    /** execute (lines 194-202). */
    method Execute()
      modifies this`radius, this`height, this`shape
      ensures shape.Some? && (radius, height, shape.value) == CylinderExecuted(old(radius), old(height), placement)
    {
      if radius < MinExtent {
        radius := MinExtent;
      }
      if height < MinExtent {
        height := MinExtent;
      }
      var cylinder := Cylinder(radius, height);
      shape := Some(Placed(cylinder, placement));
    }

    /** onChanged (lines 209-211): re-executes for a dimension change outside a restore. */
    method OnChanged(prop: string)
      modifies this`radius, this`height, this`shape
      ensures Triggers(prop, CylinderProperties, state) ==>
                shape.Some? && (radius, height, shape.value) == CylinderExecuted(old(radius), old(height), placement)
      ensures !Triggers(prop, CylinderProperties, state) ==>
                radius == old(radius) && height == old(height) && shape == old(shape)
    {
      if prop in CylinderProperties && "Restore" !in state {
        Execute();
      }
    }
  }
}
