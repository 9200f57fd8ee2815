/**
 * `Vertex` (rendererStructs.h / rendererStructs.cpp): three float vectors,
 * the vertex-input binding and attribute descriptions the pipeline is built
 * with, and the vertex equality operator.
 *
 * Floats are modelled as reals; every value the renderer compares or stores
 * here is exact, and no arithmetic is done on them.
 */
module VertexLayout {
  import opened Base
  import Vk

  datatype Vec2 = Vec2(x: real, y: real)
  datatype Vec3 = Vec3(x: real, y: real, z: real)

  datatype Vertex = Vertex(pos: Vec3, color: Vec3, texCoord: Vec2)

  /** sizeof(float). */
  const FloatSize: nat := 4

  /** The byte size of `components` consecutive floats (`glm::vec2`, `glm::vec3`). */
  function VectorSize(components: nat): nat {
    components * FloatSize
  }

  /**
   * The field offsets of `Vertex`: the fields follow each other with no
   * padding, since every field is made of 4-byte floats.
   */
  const PosOffset: nat := 0
  const ColorOffset: nat := PosOffset + VectorSize(3)
  const TexCoordOffset: nat := ColorOffset + VectorSize(3)
  /** sizeof(Vertex). */
  const VertexSize: nat := TexCoordOffset + VectorSize(2)

  datatype BindingDescription = BindingDescription(binding: uint32, stride: uint32, inputRate: uint32)

  datatype AttributeDescription = AttributeDescription(location: uint32, binding: uint32, format: uint32, offset: uint32)

  /** `getBindingDescription`: one per-vertex binding, number 0, whose stride is the whole vertex. */
  function GetBindingDescription(): (d: BindingDescription)
    ensures d.binding == 0 && d.inputRate == Vk.VERTEX_INPUT_RATE_VERTEX
    ensures d.stride as nat == VectorSize(3) + VectorSize(3) + VectorSize(2)
  {
    BindingDescription(0, VertexSize, Vk.VERTEX_INPUT_RATE_VERTEX)
  }

  /** `getAttributeDescriptions`: pos, color and texCoord, at locations 0, 1 and 2 of binding 0. */
  function GetAttributeDescriptions(): (a: seq<AttributeDescription>)
    ensures |a| == 3
  {
    [ AttributeDescription(0, 0, Vk.FORMAT_R32G32B32_SFLOAT, PosOffset),
      AttributeDescription(1, 0, Vk.FORMAT_R32G32B32_SFLOAT, ColorOffset),
      AttributeDescription(2, 0, Vk.FORMAT_R32G32_SFLOAT, TexCoordOffset) ]
  }

  /** How many 32-bit float components a vertex format has; 0 for formats the layout does not use. */
  function FormatComponents(format: uint32): nat {
    if format == Vk.FORMAT_R32G32B32_SFLOAT then 3
    else if format == Vk.FORMAT_R32G32_SFLOAT then 2
    else 0
  }

  /** The field of `Vertex` each attribute location feeds, as a component count. */
  function FieldComponents(location: nat): nat {
    if location == 2 then 2 else 3
  }

  /**
   * The attribute layout agrees with the binding and with the struct: every
   * attribute reads binding 0; attribute k is location k, its format has as
   * many float components as the field it feeds, and it starts at that
   * field's offset; the attributes follow each other without overlap or gap
   * and the last one ends exactly at the binding's stride.
   */
  lemma AttributesMatchVertex()
    ensures GetBindingDescription().binding == 0 && GetBindingDescription().stride == 32
    ensures GetBindingDescription().inputRate == Vk.VERTEX_INPUT_RATE_VERTEX
    ensures forall k | 0 <= k < 3 ::
              && GetAttributeDescriptions()[k].binding == GetBindingDescription().binding
              && GetAttributeDescriptions()[k].location == k
              && FormatComponents(GetAttributeDescriptions()[k].format) == FieldComponents(k)
    ensures forall k | 0 <= k < 2 ::
              GetAttributeDescriptions()[k].offset + VectorSize(FormatComponents(GetAttributeDescriptions()[k].format)) ==
              GetAttributeDescriptions()[k + 1].offset
    ensures GetAttributeDescriptions()[0].offset == 0
    ensures GetAttributeDescriptions()[2].offset + VectorSize(FormatComponents(GetAttributeDescriptions()[2].format)) ==
            GetBindingDescription().stride
  {
    var a := GetAttributeDescriptions();
    assert a[0].location == 0 && a[1].location == 1 && a[2].location == 2;
  }

  /** The offsets increase with the location and every attribute lies inside one vertex. */
  lemma AttributesInsideStride()
    ensures forall k, m | 0 <= k < m < 3 :: GetAttributeDescriptions()[k].offset < GetAttributeDescriptions()[m].offset
    ensures forall k | 0 <= k < 3 ::
              GetAttributeDescriptions()[k].offset + VectorSize(FormatComponents(GetAttributeDescriptions()[k].format)) <=
              GetBindingDescription().stride
  {
    AttributesMatchVertex();
  }

  /**
   * `Vertex::operator==` as written: it compares the other vertex's `pos`
   * with this vertex's `color`, not with this vertex's `pos`.
   */
  function VertexEqualsAsWritten(self: Vertex, other: Vertex): (r: bool)
    ensures r ==> other.pos == other.color
    ensures r && self.pos != self.color ==> other != self
  {
    other.pos == self.color && other.color == self.color && other.texCoord == self.texCoord
  }

  /** As written, a vertex whose position differs from its colour is not equal to itself. */
  lemma AsWrittenNotReflexive(v: Vertex)
    requires v.pos != v.color
    ensures !VertexEqualsAsWritten(v, v)
  {
  }

  /** As written, the operator is not symmetric: the two orders of these vertices disagree. */
  lemma AsWrittenNotSymmetric()
    ensures VertexEqualsAsWritten(Vertex(Vec3(0.0, 0.0, 0.0), Vec3(1.0, 0.0, 0.0), Vec2(0.0, 0.0)),
                                  Vertex(Vec3(1.0, 0.0, 0.0), Vec3(1.0, 0.0, 0.0), Vec2(0.0, 0.0)))
    ensures !VertexEqualsAsWritten(Vertex(Vec3(1.0, 0.0, 0.0), Vec3(1.0, 0.0, 0.0), Vec2(0.0, 0.0)),
                                   Vertex(Vec3(0.0, 0.0, 0.0), Vec3(1.0, 0.0, 0.0), Vec2(0.0, 0.0)))
  {
  }

  /** The member-wise comparison evidently intended: pos with pos, color with color, texCoord with texCoord. */
  function VertexEquals(self: Vertex, other: Vertex): (r: bool)
    ensures r <==> self == other
  {
    other.pos == self.pos && other.color == self.color && other.texCoord == self.texCoord
  }

  /** The intended comparison is an equivalence: reflexive, symmetric and transitive. */
  lemma VertexEqualsEquivalence(a: Vertex, b: Vertex, c: Vertex)
    ensures VertexEquals(a, a)
    ensures VertexEquals(a, b) <==> VertexEquals(b, a)
    ensures VertexEquals(a, b) && VertexEquals(b, c) ==> VertexEquals(a, c)
  {
  }
}
