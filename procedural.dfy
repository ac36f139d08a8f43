/** Per-model extraction of procedural geometry: a sphere contributes its
    bounding box and its (center, radius); every other model contributes a
    zero record, so that the per-model arrays stay index-parallel. */
module ProceduralExtraction {
  import opened SceneTypes

  /** The AABB record a model contributes to the scene's AABB array. */
  function AabbOf(p: Procedural): (r: AabbPositions)
    ensures p.Sphere? ==>
      r.minX == p.bounds.lo.x && r.minY == p.bounds.lo.y && r.minZ == p.bounds.lo.z &&
      r.maxX == p.bounds.hi.x && r.maxY == p.bounds.hi.y && r.maxZ == p.bounds.hi.z
    ensures !p.Sphere? ==> r == ZeroAabb
  {
    match p
    case Sphere(_, _, b) => AabbPositions(b.lo.x, b.lo.y, b.lo.z, b.hi.x, b.hi.y, b.hi.z)
    case _ => ZeroAabb
  }

  /** The procedural record a model contributes: `(center, radius)` of a sphere. */
  function ParamsOf(p: Procedural): (r: Vec4)
    ensures p.Sphere? ==> r == Vec4(p.center.x, p.center.y, p.center.z, p.radius)
    ensures !p.Sphere? ==> r == ZeroVec4
  {
    match p
    case Sphere(c, radius, _) => Vec4(c.x, c.y, c.z, radius)
    case _ => ZeroVec4
  }

  /** The AABB array: one record per model, in model order. */
  function Aabbs(ms: seq<Model>): (r: seq<AabbPositions>)
    ensures |r| == |ms|
  {
    seq(|ms|, i requires 0 <= i < |ms| => AabbOf(ms[i].procedural))
  }

  /** The procedural array: one record per model, in model order. */
  function Procedurals(ms: seq<Model>): (r: seq<Vec4>)
    ensures |r| == |ms|
  {
    seq(|ms|, i requires 0 <= i < |ms| => ParamsOf(ms[i].procedural))
  }

  /** Appending a model appends exactly its own records, at its own index,
      and leaves the records of the earlier models as they were. */
  lemma RecordsAppend(ms: seq<Model>, m: Model)
    ensures Aabbs(ms + [m]) == Aabbs(ms) + [AabbOf(m.procedural)]
    ensures Procedurals(ms + [m]) == Procedurals(ms) + [ParamsOf(m.procedural)]
  {
    var ms' := ms + [m];
    assert forall i | 0 <= i < |ms| :: ms'[i] == ms[i];
  }

  /** The stored records carry no presence flag: a sphere of radius zero at the
      origin with an empty box at the origin yields exactly the records of a
      model without procedural geometry, so the two cannot be told apart. */
  lemma DegenerateSphereLooksAbsent()
    ensures var origin := Vec3(0.0, 0.0, 0.0);
      var s := Sphere(origin, 0.0, Bounds(origin, origin));
      AabbOf(s) == AabbOf(NoShape) && ParamsOf(s) == ParamsOf(NoShape)
  {
  }
}
