/** Concatenation of the scene's models into the combined vertex, index,
    material, offset, AABB and procedural arrays.

    The specification functions below are folds over the model list that add
    one model at the end, the way the constructor's loop does. */
module SceneAssembly {
  import opened SceneTypes
  import opened ProceduralExtraction

  /** Number of vertices of all the given models. */
  function VertexCount(ms: seq<Model>): nat
  {
    if ms == [] then 0 else VertexCount(ms[..|ms| - 1]) + |ms[|ms| - 1].vertices|
  }

  /** Number of triangle indices of all the given models. */
  function IndexCount(ms: seq<Model>): nat
  {
    if ms == [] then 0 else IndexCount(ms[..|ms| - 1]) + |ms[|ms| - 1].indices|
  }

  /** Number of materials of all the given models. */
  function MaterialCount(ms: seq<Model>): nat
  {
    if ms == [] then 0 else MaterialCount(ms[..|ms| - 1]) + |ms[|ms| - 1].materials|
  }

  /** A model's vertices with `materialOffset` added to each material index. */
  function Rebased(vs: seq<Vertex>, materialOffset: Word): (r: seq<Vertex>)
    ensures |r| == |vs|
  {
    seq(|vs|, k requires 0 <= k < |vs| =>
      vs[k].(materialIndex := WrapAdd(vs[k].materialIndex, materialOffset)))
  }

  /** The combined vertex array: each model's vertices, in model order, with
      their material indices moved past the materials of the earlier models. */
  function MergedVertices(ms: seq<Model>): (r: seq<Vertex>)
    ensures |r| == VertexCount(ms)
  {
    if ms == [] then []
    else
      var init := ms[..|ms| - 1];
      MergedVertices(init) + Rebased(ms[|ms| - 1].vertices, Wrap(MaterialCount(init)))
  }

  /** The combined index array: each model's indices, in model order. */
  function ConcatIndices(ms: seq<Model>): (r: seq<Word>)
    ensures |r| == IndexCount(ms)
  {
    if ms == [] then [] else ConcatIndices(ms[..|ms| - 1]) + ms[|ms| - 1].indices
  }

  /** The combined material array: each model's materials, in model order. */
  function ConcatMaterials(ms: seq<Model>): (r: seq<Material>)
    ensures |r| == MaterialCount(ms)
  {
    if ms == [] then [] else ConcatMaterials(ms[..|ms| - 1]) + ms[|ms| - 1].materials
  }

  /** The offset table: for each model, the 32-bit sizes of the combined index
      and vertex arrays before that model was added. */
  function Offsets(ms: seq<Model>): (r: seq<Offset>)
    ensures |r| == |ms|
  {
    if ms == [] then []
    else
      var init := ms[..|ms| - 1];
      Offsets(init) + [Offset(Wrap(IndexCount(init)), Wrap(VertexCount(init)))]
  }

  /** The vertex count before each model fits in 32 bits, so that the
      truncated vertex offset is where that model's vertices really start. */
  predicate VertexOffsetsFit(ms: seq<Model>)
  {
    forall n | 0 <= n < |ms| :: VertexCount(ms[..n]) < WordRange
  }

  /** Adding model `ms[n]` to the first `n` models extends each combined
      array by that model's own contribution only. */
  lemma AppendModel(ms: seq<Model>, n: nat)
    requires n < |ms|
    ensures var pre := ms[..n];
      && MergedVertices(ms[..n + 1]) == MergedVertices(pre) + Rebased(ms[n].vertices, Wrap(MaterialCount(pre)))
      && ConcatIndices(ms[..n + 1]) == ConcatIndices(pre) + ms[n].indices
      && ConcatMaterials(ms[..n + 1]) == ConcatMaterials(pre) + ms[n].materials
      && Offsets(ms[..n + 1]) == Offsets(pre) + [Offset(Wrap(IndexCount(pre)), Wrap(VertexCount(pre)))]
      && Aabbs(ms[..n + 1]) == Aabbs(pre) + [AabbOf(ms[n].procedural)]
      && Procedurals(ms[..n + 1]) == Procedurals(pre) + [ParamsOf(ms[n].procedural)]
  {
    assert ms[..n + 1][..n] == ms[..n];
    assert ms[..n + 1] == ms[..n] + [ms[n]];
    RecordsAppend(ms[..n], ms[n]);
  }

  /** Adds `materialOffset` to the material index of every vertex from
      position `from` on, in place; earlier vertices and every other field are
      left as they were. */
  method RebaseFrom(vertices: seq<Vertex>, from: nat, materialOffset: Word) returns (r: seq<Vertex>)
    requires from <= |vertices|
    ensures r == vertices[..from] + Rebased(vertices[from..], materialOffset)
  {
    r := vertices;
    var i := from;
    while i != |r|
      invariant from <= i <= |r| == |vertices|
      invariant r[..from] == vertices[..from]
      invariant forall k | from <= k < i ::
        r[k] == vertices[k].(materialIndex := WrapAdd(vertices[k].materialIndex, materialOffset))
      invariant r[i..] == vertices[i..]
    {
      r := r[i := r[i].(materialIndex := WrapAdd(r[i].materialIndex, materialOffset))];
      i := i + 1;
    }
  }

  /** Builds the combined arrays, one model after the other. */
  method Assemble(models: seq<Model>)
    returns (vertices: seq<Vertex>, indices: seq<Word>, materials: seq<Material>,
             procedurals: seq<Vec4>, aabbs: seq<AabbPositions>, offsets: seq<Offset>)
    requires VertexOffsetsFit(models)
    ensures vertices == MergedVertices(models)
    ensures indices == ConcatIndices(models)
    ensures materials == ConcatMaterials(models)
    ensures offsets == Offsets(models)
    ensures aabbs == Aabbs(models) && procedurals == Procedurals(models)
    ensures |offsets| == |aabbs| == |procedurals| == |models|
    ensures models == [] ==> vertices == [] && indices == [] && materials == []
  {
    vertices, indices, materials := [], [], [];
    procedurals, aabbs, offsets := [], [], [];
    var n := 0;
    while n < |models|
      invariant 0 <= n <= |models|
      invariant vertices == MergedVertices(models[..n])
      invariant indices == ConcatIndices(models[..n])
      invariant materials == ConcatMaterials(models[..n])
      invariant offsets == Offsets(models[..n])
      invariant aabbs == Aabbs(models[..n]) && procedurals == Procedurals(models[..n])
    {
      var model := models[n];
      AppendModel(models, n);
      ghost var before := vertices;
      assert |before| < WordRange;

      var indexOffset := Wrap(|indices|);
      var vertexOffset := Wrap(|vertices|);
      var materialOffset := Wrap(|materials|);
      offsets := offsets + [Offset(indexOffset, vertexOffset)];

      vertices := vertices + model.vertices;
      indices := indices + model.indices;
      materials := materials + model.materials;

      // Move the new vertices' material indices into the combined material array.
      vertices := RebaseFrom(vertices, vertexOffset, materialOffset);
      assert vertices == before + Rebased(model.vertices, materialOffset);

      // Add the optional procedural, or zero records that keep the arrays parallel.
      match model.procedural {
        case Sphere(center, radius, box) =>
          aabbs := aabbs + [AabbPositions(box.lo.x, box.lo.y, box.lo.z, box.hi.x, box.hi.y, box.hi.z)];
          procedurals := procedurals + [Vec4(center.x, center.y, center.z, radius)];
        case _ =>
          aabbs := aabbs + [ZeroAabb];
          procedurals := procedurals + [ZeroVec4];
      }
      n := n + 1;
    }
    assert models[..n] == models;
  }

  /** Offset `i` is the pair of 32-bit truncated prefix sums of the index and
      vertex counts of the models before model `i`; exact when they fit. */
  lemma {:induction false} OffsetIsPrefixSum(ms: seq<Model>, i: nat)
    requires i < |ms|
    ensures Offsets(ms)[i] == Offset(Wrap(IndexCount(ms[..i])), Wrap(VertexCount(ms[..i])))
    ensures IndexCount(ms[..i]) < WordRange ==> Offsets(ms)[i].indexOffset == IndexCount(ms[..i])
    ensures VertexCount(ms[..i]) < WordRange ==> Offsets(ms)[i].vertexOffset == VertexCount(ms[..i])
  {
    var init := ms[..|ms| - 1];
    if i < |ms| - 1 {
      OffsetIsPrefixSum(init, i);
      assert init[..i] == ms[..i];
    }
  }

  /** The vertex `k` of model `i` sits in the combined array right after the
      vertices of the earlier models; only its material index differs, moved
      past the materials of the earlier models (modulo 2^32). */
  lemma {:induction false} MergedVertexAt(ms: seq<Model>, i: nat, k: nat)
    requires i < |ms| && k < |ms[i].vertices|
    ensures VertexCount(ms[..i]) + k < |MergedVertices(ms)|
    ensures var v := ms[i].vertices[k];
      MergedVertices(ms)[VertexCount(ms[..i]) + k] ==
        v.(materialIndex := WrapAdd(v.materialIndex, Wrap(MaterialCount(ms[..i]))))
  {
    var init := ms[..|ms| - 1];
    if i < |ms| - 1 {
      MergedVertexAt(init, i, k);
      assert init[..i] == ms[..i];
    } else {
      assert init == ms[..i];
    }
  }

  /** The index `k` of model `i` is copied verbatim into the combined array,
      right after the indices of the earlier models: indices are not rebased. */
  lemma {:induction false} IndexCopiedVerbatim(ms: seq<Model>, i: nat, k: nat)
    requires i < |ms| && k < |ms[i].indices|
    ensures IndexCount(ms[..i]) + k < |ConcatIndices(ms)|
    ensures ConcatIndices(ms)[IndexCount(ms[..i]) + k] == ms[i].indices[k]
  {
    var init := ms[..|ms| - 1];
    if i < |ms| - 1 {
      IndexCopiedVerbatim(init, i, k);
      assert init[..i] == ms[..i];
    } else {
      assert init == ms[..i];
    }
  }

  /** The material `j` of model `i` sits in the combined array right after the
      materials of the earlier models. */
  lemma {:induction false} MaterialAt(ms: seq<Model>, i: nat, j: nat)
    requires i < |ms| && j < |ms[i].materials|
    ensures MaterialCount(ms[..i]) + j < |ConcatMaterials(ms)|
    ensures ConcatMaterials(ms)[MaterialCount(ms[..i]) + j] == ms[i].materials[j]
  {
    var init := ms[..|ms| - 1];
    if i < |ms| - 1 {
      MaterialAt(init, i, j);
      assert init[..i] == ms[..i];
    } else {
      assert init == ms[..i];
    }
  }

  /** Material rebasing keeps every reference: a vertex whose model-local
      material index names material `m` of its model names that same material
      in the combined array after the merge, when all materials fit in 32 bits. */
  lemma RebasedMaterialResolves(ms: seq<Model>, i: nat, k: nat)
    requires i < |ms| && k < |ms[i].vertices|
    requires ms[i].vertices[k].materialIndex < |ms[i].materials|
    requires MaterialCount(ms) < WordRange
    ensures VertexCount(ms[..i]) + k < |MergedVertices(ms)|
    ensures var m := MergedVertices(ms)[VertexCount(ms[..i]) + k].materialIndex;
      m < |ConcatMaterials(ms)| &&
      ConcatMaterials(ms)[m] == ms[i].materials[ms[i].vertices[k].materialIndex]
  {
    var local := ms[i].vertices[k].materialIndex;
    var before := MaterialCount(ms[..i]);
    MaterialAt(ms, i, local);
    assert before + local < WordRange;
    MergedVertexAt(ms, i, k);
    assert MergedVertices(ms)[VertexCount(ms[..i]) + k].materialIndex == before + local;
  }

  /** Triangle indices stay local to their model: a consumer finds the vertex
      a stored index names by adding the model's stored vertex offset, and the
      vertex found is that model's vertex (with its material index rebased).
      The sum is stated exactly; a consumer adding the two as 32-bit words
      gets the same position whenever the combined vertex array has at most
      2^32 entries. */
  lemma IndexResolvesThroughOffset(ms: seq<Model>, i: nat, k: nat)
    requires i < |ms| && k < |ms[i].indices|
    requires ms[i].indices[k] < |ms[i].vertices|
    requires VertexCount(ms[..i]) < WordRange
    ensures IndexCount(ms[..i]) + k < |ConcatIndices(ms)|
    ensures var stored := ConcatIndices(ms)[IndexCount(ms[..i]) + k];
      var g := Offsets(ms)[i].vertexOffset + stored;
      var v := ms[i].vertices[ms[i].indices[k]];
      g < |MergedVertices(ms)| &&
      MergedVertices(ms)[g] == v.(materialIndex := MergedVertices(ms)[g].materialIndex)
    ensures var stored := ConcatIndices(ms)[IndexCount(ms[..i]) + k];
      |MergedVertices(ms)| <= WordRange ==>
        WrapAdd(Offsets(ms)[i].vertexOffset, stored) == Offsets(ms)[i].vertexOffset + stored
  {
    var local := ms[i].indices[k];
    IndexCopiedVerbatim(ms, i, k);
    OffsetIsPrefixSum(ms, i);
    assert Offsets(ms)[i].vertexOffset == VertexCount(ms[..i]);
    MergedVertexAt(ms, i, local);
    var g := VertexCount(ms[..i]) + local;
    assert g < |MergedVertices(ms)|;
    if |MergedVertices(ms)| <= WordRange {
      assert WrapAdd(Offsets(ms)[i].vertexOffset, local) == g;
    }
  }

  /** A one-model scene holds exactly that model's data, at offset zero. */
  lemma SingleModel(m: Model)
    ensures VertexCount([m]) == |m.vertices| && IndexCount([m]) == |m.indices|
    ensures MaterialCount([m]) == |m.materials|
    ensures Offsets([m]) == [Offset(0, 0)]
  {
    assert [m][..0] == [];
  }

  /** Two models: `a` with 3 vertices, 3 indices, 1 material and no shape, then
      `b` with 4 vertices, 6 indices, 2 materials and a unit sphere at the
      origin. The combined arrays hold 7 vertices, 9 indices and 3 materials;
      `b` starts at index 3 and vertex 3; a vertex of `b` naming its material 1
      names material 2 after the merge; `a` gets zero records and `b` the
      sphere's. */
  lemma TwoModelScenario(a: Model, b: Model, k: nat)
    requires |a.vertices| == 3 && |a.indices| == 3 && |a.materials| == 1 && a.procedural == NoShape
    requires |b.vertices| == 4 && |b.indices| == 6 && |b.materials| == 2
    requires b.procedural.Sphere? && b.procedural.center == Vec3(0.0, 0.0, 0.0) && b.procedural.radius == 1.0
    requires k < 4 && b.vertices[k].materialIndex == 1
    ensures |MergedVertices([a, b])| == 7 && |ConcatIndices([a, b])| == 9 && |ConcatMaterials([a, b])| == 3
    ensures Offsets([a, b]) == [Offset(0, 0), Offset(3, 3)]
    ensures MergedVertices([a, b])[3 + k].materialIndex == 2
    ensures Aabbs([a, b])[0] == ZeroAabb && Procedurals([a, b])[0] == ZeroVec4
    ensures Procedurals([a, b])[1] == Vec4(0.0, 0.0, 0.0, 1.0)
    ensures var box := b.procedural.bounds;
      Aabbs([a, b])[1] == AabbPositions(box.lo.x, box.lo.y, box.lo.z, box.hi.x, box.hi.y, box.hi.z)
  {
    var ms := [a, b];
    assert ms[..|ms| - 1] == [a];
    SingleModel(a);
    MergedVertexAt(ms, 1, k);
  }
}
