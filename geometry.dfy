/**
 * Values standing for the CAD kernel's geometry.  Points and vectors are
 * exact reals; faces and solids are symbolic terms recording which kernel
 * call built them, since the kernel itself is not part of this model.
 */
module Geometry {

  /** A 2D point as the clearing engine uses it: [x, y]. */
  datatype Point2 = Point2(x: real, y: real)

  /** A 3D vector or point (FreeCAD.Vector). */
  datatype Vec3 = Vec3(x: real, y: real, z: real)

  function Scale(k: real, v: Vec3): Vec3
  {
    Vec3(k * v.x, k * v.y, k * v.z)
  }

  /** A rotation built by FreeCAD.Rotation(from, to) and Rotation.multiply. */
  datatype Rotation =
    | Identity
    | Between(from: Vec3, to: Vec3)
    | Compose(first: Rotation, second: Rotation)

  datatype Placement = Placement(base: Vec3, rotation: Rotation)

  /** Part.makeLine and Part.Arc (through three points). */
  datatype Edge =
    | Line(a: Vec3, b: Vec3)
    | Arc(a: Vec3, mid: Vec3, b: Vec3)

  /** Part.Face(Part.Wire(edges)) and Part.makePlane(length, width, corner). */
  datatype Face =
    | WireFace(edges: seq<Edge>)
    | PlaneFace(length: real, width: real, corner: Vec3)

  /** Solids: extrusion of a face, boolean cut, box and cylinder primitives, placement. */
  datatype Solid =
    | Extrusion(face: Face, direction: Vec3)
    | Cut(base: Solid, tool: Solid)
    | Box(length: real, width: real, height: real, origin: Vec3)
    | Cylinder(radius: real, height: real)
    | Placed(solid: Solid, placement: Placement)

  /** `if v < floor: v = floor`, the safety floor used throughout the source. */
  function ClampMin(v: real, floor: real): (r: real)
    ensures r >= floor
    ensures v >= floor ==> r == v
    ensures r == v || r == floor
  {
    if v < floor then floor else v
  }

  /** `if v > ceiling: v = ceiling`. */
  function ClampMax(v: real, ceiling: real): (r: real)
    ensures r <= ceiling
    ensures v <= ceiling ==> r == v
    ensures r == v || r == ceiling
  {
    if v > ceiling then ceiling else v
  }
}
