/**
 * The constant geometry of renderer.h: the eight vertices of two stacked
 * squares, the 16-bit index list drawn as a triangle list, and the window
 * size.
 */
module SceneData {
  import opened Base
  import opened VertexLayout

  /** `verticesSquare`. */
  const VerticesSquare: seq<Vertex> := [
    Vertex(Vec3(-0.5, -0.5, 0.0), Vec3(1.0, 0.0, 0.0), Vec2(0.0, 0.0)),
    Vertex(Vec3(0.5, -0.5, 0.0), Vec3(0.0, 1.0, 0.0), Vec2(1.0, 0.0)),
    Vertex(Vec3(0.5, 0.5, 0.0), Vec3(0.0, 0.0, 1.0), Vec2(1.0, 1.0)),
    Vertex(Vec3(-0.5, 0.5, 0.0), Vec3(1.0, 1.0, 1.0), Vec2(0.0, 1.0)),
    Vertex(Vec3(-0.5, -0.5, -0.5), Vec3(1.0, 0.0, 0.0), Vec2(0.0, 0.0)),
    Vertex(Vec3(0.5, -0.5, -0.5), Vec3(0.0, 1.0, 0.0), Vec2(1.0, 0.0)),
    Vertex(Vec3(0.5, 0.5, -0.5), Vec3(0.0, 0.0, 1.0), Vec2(1.0, 1.0)),
    Vertex(Vec3(-0.5, 0.5, -0.5), Vec3(1.0, 1.0, 1.0), Vec2(0.0, 1.0))
  ]

  /** `indices`: `uint16_t` values, bound with VK_INDEX_TYPE_UINT16. */
  const Indices: seq<uint16> := [0, 1, 2, 2, 3, 0, 4, 5, 6, 6, 7, 4, 4, 7, 2]

  /** WIN_WIDTH and WIN_HEIGHT. */
  const WindowWidth: int := 640
  const WindowHeight: int := 480

  /** A triangle list over `vertexCount` vertices: whole triangles, every index naming a vertex. */
  predicate ValidTriangleList(indices: seq<int>, vertexCount: nat) {
    && |indices| % 3 == 0
    && forall k | 0 <= k < |indices| :: 0 <= indices[k] < vertexCount
  }

  /** The triangles of a triangle list, three consecutive indices each. */
  function Triangles(indices: seq<int>): (t: seq<(int, int, int)>)
    requires |indices| % 3 == 0
    ensures |t| * 3 == |indices|
    ensures forall i | 0 <= i < |t| :: t[i] == (indices[3 * i], indices[3 * i + 1], indices[3 * i + 2])
    decreases |indices|
  {
    if indices == [] then []
    else [(indices[0], indices[1], indices[2])] + Triangles(indices[3..])
  }

  /** The index data is a valid triangle list over `verticesSquare`: fifteen indices, five triangles, none past vertex 7. */
  lemma IndicesValid()
    ensures |Indices| == 15 && |VerticesSquare| == 8
    ensures ValidTriangleList(Indices, |VerticesSquare|)
    ensures |Triangles(Indices)| == 5
  {
    assert |Triangles(Indices)| * 3 == 15;
  }
}
