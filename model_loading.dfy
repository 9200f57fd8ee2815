/**
 * `model::loadModel` (model.cpp): after the importer has read and
 * triangulated a file, the faces of the scene's first mesh are flattened
 * into one index list and its positions and first UV channel are copied into
 * the vertex list, every vertex taking the model's colour.
 *
 * The importer's result is an input: `None` stands for the null scene
 * pointer. The random colour is an input too.
 */
module ModelLoading {
  import opened Base
  import Vk
  import opened VertexLayout
  import SceneData

  /** An `aiFace`: its vertex indices. */
  type Face = seq<uint32>

  /** The parts of an `aiMesh` the loader reads: faces, vertex positions and UV channel 0. */
  datatype Mesh = Mesh(faces: seq<Face>, positions: seq<Vec3>, uvs: seq<Vec3>)

  /** The parts of an `aiScene` the loader reads. */
  datatype Scene = Scene(flags: bv32, hasRootNode: bool, meshes: seq<Mesh>)

  /** `verticesPerFace`. */
  const VerticesPerFace: nat := 3

  /** The import succeeded: a scene came back, it is not flagged incomplete and it has a root node. */
  predicate Loaded(scene: Option<Scene>) {
    scene.Some? && scene.value.flags & Vk.AI_SCENE_FLAGS_INCOMPLETE == 0 && scene.value.hasRootNode
  }

  /**
   * What the loader relies on without checking: there is a first mesh, every
   * face has at least three indices, UV channel 0 covers every vertex, and
   * the index count fits the `uint32_t` product it is computed as.
   */
  predicate Readable(scene: Scene) {
    && |scene.meshes| > 0
    && (forall i | 0 <= i < |scene.meshes[0].faces| :: |scene.meshes[0].faces[i]| >= VerticesPerFace)
    && |scene.meshes[0].uvs| >= |scene.meshes[0].positions|
    && VerticesPerFace * |scene.meshes[0].faces| < TwoTo32
  }

  /** The first three indices of every face, one after the other. */
  function Flatten(faces: seq<Face>): (indices: seq<uint32>)
    requires forall i | 0 <= i < |faces| :: |faces[i]| >= VerticesPerFace
    ensures |indices| == VerticesPerFace * |faces|
    ensures forall i, j | 0 <= i < |faces| && 0 <= j < VerticesPerFace :: indices[VerticesPerFace * i + j] == faces[i][j]
    decreases |faces|
  {
    if faces == [] then []
    else faces[0][..VerticesPerFace] + Flatten(faces[1..])
  }

  /** Cutting the flattened list back into triangles gives each face's first three indices, in order. */
  lemma FlattenTriangles(faces: seq<Face>)
    requires forall i | 0 <= i < |faces| :: |faces[i]| >= VerticesPerFace
    ensures |SceneData.Triangles(Flatten(faces))| == |faces|
    ensures forall i | 0 <= i < |faces| ::
              SceneData.Triangles(Flatten(faces))[i] == (faces[i][0] as int, faces[i][1] as int, faces[i][2] as int)
  {
    var t := SceneData.Triangles(Flatten(faces));
    forall i | 0 <= i < |faces|
      ensures t[i] == (faces[i][0] as int, faces[i][1] as int, faces[i][2] as int)
    {
      assert t[i] == (Flatten(faces)[3 * i], Flatten(faces)[3 * i + 1], Flatten(faces)[3 * i + 2]);
      assert Flatten(faces)[3 * i + 2] == faces[i][2];
    }
  }

  /** When every face names an existing vertex, the flattened list is a valid triangle list over the vertices. */
  lemma FlattenValid(faces: seq<Face>, vertexCount: nat)
    requires forall i | 0 <= i < |faces| :: |faces[i]| >= VerticesPerFace
    requires forall i, j | 0 <= i < |faces| && 0 <= j < VerticesPerFace :: faces[i][j] < vertexCount
    ensures SceneData.ValidTriangleList(Flatten(faces), vertexCount)
  {
    var indices := Flatten(faces);
    forall k | 0 <= k < |indices|
      ensures indices[k] < vertexCount
    {
      var i, j := k / VerticesPerFace, k % VerticesPerFace;
      assert k == VerticesPerFace * i + j && i < |faces|;
      assert indices[VerticesPerFace * i + j] == faces[i][j];
    }
  }

  /** The vertex the loader builds from mesh vertex `i`: its position, the x and y of its UV, and the model colour. */
  function LoadedVertex(mesh: Mesh, i: nat, color: Vec3): Vertex
    requires i < |mesh.positions| && i < |mesh.uvs|
  {
    Vertex(mesh.positions[i], color, Vec2(mesh.uvs[i].x, mesh.uvs[i].y))
  }

  /** `std::vector::resize`: keeps the first `n` elements, padding with `fill` when the vector was shorter. */
  function Resized<T>(s: seq<T>, n: nat, fill: T): (r: seq<T>)
    ensures |r| == n
    ensures forall k | 0 <= k < n :: r[k] == if k < |s| then s[k] else fill
  {
    if n <= |s| then s[..n] else s + seq(n - |s|, _ => fill)
  }

  const ZeroVertex := Vertex(Vec3(0.0, 0.0, 0.0), Vec3(0.0, 0.0, 0.0), Vec2(0.0, 0.0))

  class Model {
    /** `mVertices`. */
    var vertices: seq<Vertex>
    /** `mIndices`. */
    var indices: seq<uint32>
    /** `mColor`. */
    var color: Vec3

    constructor ()
      ensures vertices == [] && indices == [] && color == Vec3(0.0, 0.0, 0.0)
    {
      vertices := [];
      indices := [];
      color := Vec3(0.0, 0.0, 0.0);
    }

    /**
     * `loadModel` on the importer's result `scene` with `randomColor` drawn
     * for the model. A null, incomplete or rootless scene throws before
     * anything changes; otherwise only the first mesh is read.
     */
    method LoadModel(scene: Option<Scene>, randomColor: Vec3) returns (r: Outcome)
      requires Loaded(scene) ==> Readable(scene.value)
      modifies this
      ensures r.Fail? <==> !Loaded(scene)
      ensures r.Fail? ==> r.error == RuntimeError("failed to load model")
      ensures r.Fail? ==> vertices == old(vertices) && indices == old(indices) && color == old(color)
      ensures r.Pass? ==> color == randomColor
      ensures r.Pass? ==> indices == Flatten(scene.value.meshes[0].faces)
      ensures r.Pass? ==> |vertices| == |scene.value.meshes[0].positions|
      ensures r.Pass? ==> forall i | 0 <= i < |vertices| :: vertices[i] == LoadedVertex(scene.value.meshes[0], i, randomColor)
    {
      if scene.None? || scene.value.flags & Vk.AI_SCENE_FLAGS_INCOMPLETE != 0 || !scene.value.hasRootNode {
        return Fail(RuntimeError("failed to load model"));
      }
      var mesh := scene.value.meshes[0];
      color := randomColor;

      var faceCount := |mesh.faces|;
      indices := Resized(indices, faceCount * VerticesPerFace, 0);
      for i := 0 to faceCount
        invariant |indices| == VerticesPerFace * faceCount
        invariant forall k | 0 <= k < VerticesPerFace * i :: indices[k] == Flatten(mesh.faces)[k]
        invariant color == randomColor
      {
        var face := mesh.faces[i];
        for j := 0 to VerticesPerFace
          invariant |indices| == VerticesPerFace * faceCount
          invariant forall k | 0 <= k < VerticesPerFace * i + j :: indices[k] == Flatten(mesh.faces)[k]
          invariant color == randomColor
        {
          indices := indices[VerticesPerFace * i + j := face[j]];
        }
      }
      assert indices == Flatten(mesh.faces);
      ghost var flattened := indices;

      vertices := Resized(vertices, |mesh.positions|, ZeroVertex);
      for i := 0 to |mesh.positions|
        invariant |vertices| == |mesh.positions|
        invariant forall k | 0 <= k < i :: vertices[k] == LoadedVertex(mesh, k, randomColor)
        invariant color == randomColor && indices == flattened
      {
        vertices := vertices[i := vertices[i].(pos := mesh.positions[i])];
        vertices := vertices[i := vertices[i].(texCoord := Vec2(mesh.uvs[i].x, mesh.uvs[i].y))];
        vertices := vertices[i := vertices[i].(color := color)];
      }
      return Pass;
    }
  }
}
