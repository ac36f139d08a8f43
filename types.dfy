/** Value types of the scene assets: vertices, materials, models and the
    per-model records that the scene stores for the ray tracing shaders. */
module SceneTypes {

  /** Number of distinct values of a 32-bit word. */
  const WordRange: nat := 0x1_0000_0000

  /** A 32-bit unsigned word (`uint32_t`). */
  type Word = x: int | 0 <= x < WordRange

  /** Truncation to 32 bits, as done by `static_cast<uint32_t>` on a size. */
  function Wrap(x: nat): (w: Word)
    ensures x < WordRange ==> w == x
  {
    x % WordRange
  }

  /** 32-bit addition with wrap-around, as done by `+=` on a 32-bit field. */
  function WrapAdd(a: Word, b: Word): (w: Word)
    ensures a + b < WordRange ==> w == a + b
    ensures a + b >= WordRange ==> w == a + b - WordRange
  {
    (a + b) % WordRange
  }

  // Floating-point vectors; their coordinates are carried, never computed on.
  datatype Vec2 = Vec2(x: real, y: real)
  datatype Vec3 = Vec3(x: real, y: real, z: real)
  datatype Vec4 = Vec4(x: real, y: real, z: real, w: real)

  /** A mesh vertex. `materialIndex` is local to the vertex's model until the
      scene merges the models. */
  datatype Vertex = Vertex(position: Vec3, normal: Vec3, texCoord: Vec2, materialIndex: Word)

  /** Shading parameters; the scene only copies and orders them. */
  datatype Material = Material(shading: seq<real>)

  /** An axis-aligned box given by its two corners. */
  datatype Bounds = Bounds(lo: Vec3, hi: Vec3)

  /** A model's optional procedural (non-triangle) shape. Spheres are the only
      kind the scene recognises; any other kind is carried as `OtherShape`. */
  datatype Procedural =
    | NoShape
    | Sphere(center: Vec3, radius: real, bounds: Bounds)
    | OtherShape(bounds: Bounds)

  /** One authored model: its own vertices, triangle indices and materials. */
  datatype Model = Model(
    vertices: seq<Vertex>,
    indices: seq<Word>,
    materials: seq<Material>,
    procedural: Procedural)

  /** Where a model's data starts in the combined arrays (`glm::uvec2`). */
  datatype Offset = Offset(indexOffset: Word, vertexOffset: Word)

  /** The six floats of a ray tracing AABB record. */
  datatype AabbPositions = AabbPositions(
    minX: real, minY: real, minZ: real,
    maxX: real, maxY: real, maxZ: real)

  /** A value-initialised AABB record: every coordinate zero. */
  const ZeroAabb := AabbPositions(0.0, 0.0, 0.0, 0.0, 0.0, 0.0)

  /** A value-initialised `glm::vec4`: every component zero. */
  const ZeroVec4 := Vec4(0.0, 0.0, 0.0, 0.0)
}
