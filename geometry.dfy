/** The constant geometry of the scene: three flat quads (car, road, lane
    marking), each a vertex array of four (x, y, z) corners and an index
    array describing two triangles. Nothing here changes after startup. */
module Geometry {

  /** A position or a translation vector, as passed to `mat4.translate`. */
  datatype Vec3 = Vec3(x: real, y: real, z: real)

  /** A vertex array (flat, three numbers per vertex) paired with its
      16-bit index array. */
  datatype Shape = Shape(vertices: seq<real>, indices: seq<int>)

  /** Every index array in the scene: the two-triangle fan of a quad. */
  const QUAD_INDICES: seq<int> := [0, 1, 2, 0, 2, 3]

  /** The element count every `drawElements` call of the scene passes. */
  const DRAW_COUNT: nat := 6

  /** Indices are `Uint16Array` entries. */
  const INDEX_LIMIT: int := 0x1_0000

  /** The four corners of an axis-aligned rectangle in the plane z = 0, in
      the order the source lists them: bottom left, bottom right, top
      right, top left. */
  function Rect(xMin: real, xMax: real, yMin: real, yMax: real): (vs: seq<real>)
    ensures |vs| == 12
    ensures vs[0] == vs[9] == xMin && vs[3] == vs[6] == xMax
    ensures vs[1] == vs[4] == yMin && vs[7] == vs[10] == yMax
    ensures vs[2] == vs[5] == vs[8] == vs[11] == 0.0
  {
    [xMin, yMin, 0.0,
     xMax, yMin, 0.0,
     xMax, yMax, 0.0,
     xMin, yMax, 0.0]
  }

  const CAR: Shape := Shape(
    [-0.15, -0.05, 0.0,
      0.15, -0.05, 0.0,
      0.15,  0.05, 0.0,
     -0.15,  0.05, 0.0],
    [0, 1, 2, 0, 2, 3])

  const ROAD: Shape := Shape(
    [-1.0, -1.0, 0.0,
      1.0, -1.0, 0.0,
      1.0,  0.0, 0.0,
     -1.0,  0.0, 0.0],
    [0, 1, 2, 0, 2, 3])

  const LANE: Shape := Shape(
    [-0.05, -0.8, 0.0,
      0.05, -0.8, 0.0,
      0.05, -0.7, 0.0,
     -0.05, -0.7, 0.0],
    [0, 1, 2, 0, 2, 3])

  /** The three shapes of the scene. */
  datatype ShapeId = CarShape | RoadShape | LaneShape

  function ShapeOf(id: ShapeId): Shape
  {
    match id
    case CarShape => CAR
    case RoadShape => ROAD
    case LaneShape => LANE
  }

  /** Number of whole (x, y, z) triples in the vertex array. */
  function VertexCount(s: Shape): nat
  {
    |s.vertices| / 3
  }

  /** What uploading a shape needs: whole triples, and indices that are
      16-bit values naming existing vertices. */
  ghost predicate WellFormed(s: Shape)
  {
    && |s.vertices| % 3 == 0
    && forall i :: 0 <= i < |s.indices| ==> 0 <= s.indices[i] < VertexCount(s) && s.indices[i] < INDEX_LIMIT
  }

  /** A quad as the scene uses it: four vertices, the fan index pattern,
      and as many indices as each draw call asks for. */
  ghost predicate IsQuad(s: Shape)
  {
    && WellFormed(s)
    && VertexCount(s) == 4
    && s.indices == QUAD_INDICES
    && |s.indices| == DRAW_COUNT
  }

  /** The three shapes are well-formed quads with the extents the source
      gives them. */
  lemma Catalog()
    ensures forall id :: IsQuad(ShapeOf(id))
    ensures IsQuad(CAR) && CAR.vertices == Rect(-0.15, 0.15, -0.05, 0.05)
    ensures IsQuad(ROAD) && ROAD.vertices == Rect(-1.0, 1.0, -1.0, 0.0)
    ensures IsQuad(LANE) && LANE.vertices == Rect(-0.05, 0.05, -0.8, -0.7)
  {
  }
}
