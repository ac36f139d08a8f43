# Scene assembly of RayTracingInVulkan, in Dafny

This project models the scene object of the RayTracingInVulkan renderer,
`Assets::Scene` (src/Assets/Scene.cpp). The renderer supports both
rasterization and hardware ray tracing. The model covers the scene's
constructor and destructor:

- **Model concatenation.** Models are appended one after the other to three
  combined arrays: vertices, triangle indices and materials. Before each model
  is added, the current sizes of the index and vertex arrays are recorded as
  that model's offset pair. The material index of each newly appended vertex
  is moved past the materials of the earlier models. Triangle indices are
  copied verbatim and stay local to their model.
- **Procedural extraction.** A model whose procedural shape is a sphere
  contributes its bounding box and its `(center, radius)`. Every other model
  contributes zero records. So the AABB and procedural arrays stay
  index-parallel with the models and the offsets.
- **Thread swizzle table.** The table has 1280 × 720 entries. Entry `i` is
  set to `i`.
- **Device resources.** The constructor creates seven device buffers, each
  with its own memory, in this order: vertex, index, material, offset, AABB,
  procedural, swizzle. It then builds one texture image per texture, with a
  view handle and a sampler handle. The destructor first drops the texture
  handles and images. It then resets each buffer before that buffer's memory,
  with the buffers in the reverse of their creation order.

The files are:

- `types.dfy` (`SceneTypes`): vertices, materials, models, procedural shapes,
  offsets and AABB records. It also defines 32-bit words with explicit
  truncation (`Wrap`) and wrap-around addition (`WrapAdd`).
- `procedural.dfy` (`ProceduralExtraction`): the per-model AABB and
  procedural records.
- `assembly.dfy` (`SceneAssembly`): the combined arrays, written as
  specification functions that are folds over the model list. It also holds
  the imperative assembly loop `Assemble`, which is proved equal to them, and
  the properties of the result.
- `swizzle.dfy` (`ThreadSwizzle`): the identity table, the loop that fills
  it, and its bijectivity.
- `scene.dfy` (`SceneResources`): the `Scene` class, with buffer creation,
  texture upload and the ordered teardown.

Offsets and material offsets are 32-bit, as in the source. Sizes are truncated
with `static_cast<uint32_t>`, and `MaterialIndex +=` wraps modulo 2^32. The
only thing asked of the caller is that the vertex count before each model
fits in 32 bits (`VertexOffsetsFit`). The reason is that the rebasing loop
starts at the truncated vertex offset.

## Model

| member | source | states |
|---|---|---|
| SceneTypes.Wrap | src/Assets/Scene.cpp:67-69 | Truncating a size to 32 bits leaves it unchanged when it fits. |
| SceneTypes.WrapAdd | src/Assets/Scene.cpp:81 | 32-bit addition is exact without overflow and loses exactly 2^32 on overflow. |
| ProceduralExtraction.AabbOf | src/Assets/Scene.cpp:85-95 | A sphere's AABB record holds the min and max corners of its bounding box. Any other shape, or no shape, gives the all-zero record. |
| ProceduralExtraction.ParamsOf | src/Assets/Scene.cpp:85-95 | A sphere's procedural record is `(center, radius)`. Any other shape, or no shape, gives the zero vector. |
| ProceduralExtraction.Aabbs | src/Assets/Scene.cpp:84-96 | The AABB array has one record per model. |
| ProceduralExtraction.Procedurals | src/Assets/Scene.cpp:84-96 | The procedural array has one record per model. |
| ProceduralExtraction.RecordsAppend | src/Assets/Scene.cpp:84-96 | Adding a model appends exactly its own AABB and procedural records and leaves the earlier records unchanged. |
| ProceduralExtraction.DegenerateSphereLooksAbsent | src/Assets/Scene.cpp:89-95 | The records carry no presence flag. A zero-radius sphere at the origin with an empty box gives the same records as a model without a shape. |
| SceneAssembly.Rebased | src/Assets/Scene.cpp:79-82 | Rebasing a model's vertices keeps their number. |
| SceneAssembly.MergedVertices | src/Assets/Scene.cpp:74 | The combined vertex array is as long as all models' vertex arrays together. |
| SceneAssembly.ConcatIndices | src/Assets/Scene.cpp:75 | The combined index array is as long as all models' index arrays together. |
| SceneAssembly.ConcatMaterials | src/Assets/Scene.cpp:76 | The combined material array is as long as all models' material arrays together. |
| SceneAssembly.Offsets | src/Assets/Scene.cpp:66-71 | There is one offset pair per model. |
| SceneAssembly.AppendModel | src/Assets/Scene.cpp:64-96 | One loop iteration extends each of the six arrays by the current model's contribution only. The offset pair appended is the truncated sizes before that model. |
| SceneAssembly.RebaseFrom | src/Assets/Scene.cpp:79-82 | The in-place loop adds the material offset, with wrap-around, to the material index of every vertex from the start position on. Earlier vertices and all other fields are unchanged. |
| SceneAssembly.Assemble | src/Assets/Scene.cpp:64-97 | The assembly loop produces exactly the concatenation, rebasing, offset and record specifications. The offsets, AABBs and procedurals are as many as the models. An empty model list gives empty arrays. |
| SceneAssembly.OffsetIsPrefixSum | src/Assets/Scene.cpp:66-71 | Offset `i` is the 32-bit truncation of the index count and the vertex count of models `0..i`. It is exactly those prefix sums when they fit. |
| SceneAssembly.MergedVertexAt | src/Assets/Scene.cpp:74-82 | Vertex `k` of model `i` sits at position `VertexCount(models[..i]) + k` of the combined array. It equals the original vertex in every field except the material index, which is increased by the material count of models `0..i` (mod 2^32). |
| SceneAssembly.IndexCopiedVerbatim | src/Assets/Scene.cpp:75 | Index `k` of model `i` is stored unchanged, with no vertex-offset rebasing, at position `IndexCount(models[..i]) + k`. |
| SceneAssembly.MaterialAt | src/Assets/Scene.cpp:76 | Material `j` of model `i` is stored at position `MaterialCount(models[..i]) + j`. |
| SceneAssembly.RebasedMaterialResolves | src/Assets/Scene.cpp:69-82 | When all materials fit in 32 bits, a vertex's rebased material index names, in the combined material array, the same material that its local index named in its own model. |
| SceneAssembly.IndexResolvesThroughOffset | src/Assets/Scene.cpp:67-75 | A stored triangle index plus its model's stored vertex offset reaches the model's own vertex in the combined array. That vertex is unchanged except for its material index. The sum is exact, and a 32-bit consumer computes the same position whenever the combined vertex array has at most 2^32 entries. |
| SceneAssembly.SingleModel | src/Assets/Scene.cpp:64-76 | A one-model scene holds that model's counts, and its offset pair is `(0, 0)`. |
| SceneAssembly.TwoModelScenario | src/Assets/Scene.cpp:64-96 | Worked example with models of (3, 3, 1) and (4, 6, 2) vertices, indices and materials, the second one with a unit sphere. Result: 7 vertices, 9 indices and 3 materials; offsets `[(0,0), (3,3)]`; local material 1 of the second model becomes 2; the first model gets zero AABB and procedural records; the second gets its bounding box as AABB record and `(0, 0, 0, 1)` as procedural record. |
| ThreadSwizzle.IdentityTable | src/Assets/Scene.cpp:53-55 | The identity table has the requested number of entries. |
| ThreadSwizzle.IdentityTableIsBijection | src/Assets/Scene.cpp:53-55 | The identity table's entries are in range and pairwise distinct, and they cover every value: it is a bijection on `[0, n)`. |
| ThreadSwizzle.BuildIdentitySwizzle | src/Assets/Scene.cpp:30-55 | The fill loop over a zeroed buffer of 1280 × 720 entries produces the identity table: exactly that many entries, with entry `i` equal to `i`. |
| SceneResources.UsageFlags | src/Assets/Scene.cpp:99-109 | Every buffer gets the storage and device-address bits exactly when the scene is used for ray tracing. Only the vertex buffer gets the vertex bit, and only the index buffer gets the index bit. |
| SceneResources.BufferUsages | src/Assets/Scene.cpp:99-109 | The usage argument of each of the seven buffer creations, as a map from buffer to usage flags; every one of the seven buffers has an entry. |
| SceneResources.BufferUsagesCoverAll | src/Assets/Scene.cpp:99-109 | Every one of the seven buffers is given a usage, and it is the usage that its kind and the ray tracing switch call for. |
| SceneResources.Reversed | src/Assets/Scene.cpp:130-143 | The reversed sequence has the same length, and position `k` holds element `n-1-k`. |
| SceneResources.BufferThenMemory | src/Assets/Scene.cpp:130-143 | Releasing buffers pairwise takes two steps per buffer. |
| SceneResources.Teardown | src/Assets/Scene.cpp:125-144 | The reference release ledger: the three texture releases come first, then a buffer-then-memory pair for each created buffer, latest created first. |
| SceneResources.PairsResetBuffers | src/Assets/Scene.cpp:130-143 | The pairwise release resets the handles of exactly the given buffers, in the given order. |
| SceneResources.PairsResetMemory | src/Assets/Scene.cpp:130-143 | The pairwise release frees the memory of exactly the given buffers, in the given order. |
| SceneResources.MemoryFollowsItsBuffer | src/Assets/Scene.cpp:130-143 | In the pairwise release, every memory release comes right after the reset of the buffer bound to that memory. |
| SceneResources.PairsHoldNoTexture | src/Assets/Scene.cpp:130-143 | The pairwise release touches only buffers and memory. |
| SceneResources.TeardownOrder | src/Assets/Scene.cpp:125-144 | For any creation order, the teardown resets buffers, and frees their memory, in the reverse of that order. Each memory release directly follows its own buffer's reset. All texture releases come before every buffer release. |
| SceneResources.ReleaseOrderReversesCreation | src/Assets/Scene.cpp:101-143 | The destructor's buffer order (swizzle, procedural, AABB, offset, material, index, vertex) is the reverse of the constructor's creation order. |
| SceneResources.TeardownOfCreationOrder | src/Assets/Scene.cpp:125-144 | The destructor's written-out release sequence is the teardown of the constructor's creation order. |
| SceneResources.Scene.constructor | src/Assets/Scene.cpp:18-123 | The scene stores exactly the assembled arrays and the identity swizzle table. All seven buffers are live, in creation order, with their usages. Texture `i` gives image `i` with its view and sampler in slot `i`. |
| SceneResources.Scene.CreateDeviceBuffers | src/Assets/Scene.cpp:101-109 | Creating the seven buffers in source order leaves them all live, with their memory, in the creation order, and each with the usage its kind calls for. |
| SceneResources.Scene.CreateDeviceBuffer | src/Assets/Scene.cpp:101-109 | Creating one buffer appends it to the creation order, records its usage and makes both the buffer and its memory live. |
| SceneResources.Scene.UploadTextures | src/Assets/Scene.cpp:112-122 | The upload loop builds one image per texture, in order. It fills the pre-sized view and sampler slots with the handles of image `i` at slot `i`. |
| SceneResources.Scene.ReleaseTextures | src/Assets/Scene.cpp:127-129 | The sampler handles, then the view handles, then the images are cleared. |
| SceneResources.Scene.ResetBuffer | src/Assets/Scene.cpp:130 | Resetting a buffer destroys only that buffer's handle. |
| SceneResources.Scene.ResetMemory | src/Assets/Scene.cpp:131 | Memory may only be freed once the buffer bound to it is gone, and then only that memory is freed. |
| SceneResources.Scene.ReleaseBuffer | src/Assets/Scene.cpp:130-131 | A buffer is reset before its memory, and the two steps are recorded in that order. |
| SceneResources.Scene.Destroy | src/Assets/Scene.cpp:125-144 | From a fully built scene, everything is released: no buffer, no memory and no texture remains. The recorded release sequence is the written-out ledger, which `TeardownOfCreationOrder` shows to be the teardown of the creation order. |

## Left out

- Device work is not modelled: the staging uploads, memory allocation and the command pool inside `CreateDeviceBuffer`, and the construction of `TextureImage`, `ImageView` and `Sampler`. A buffer is only live or released, with its usage bits recorded. A texture image is represented by the index of the texture it was built from, and its handles by that index.
- Allocation failures and the exceptions they raise are not modelled, so construction always succeeds.
- The `USE_SWIZZLE` path that reads the table from a CSV file is compiled out by default and does file I/O. The commented-out random shuffle is dead code that depends on a library random engine. Neither is modelled.
- The sphere's bounding-box computation and all floating-point arithmetic are left out. `Sphere.hpp` is not part of this model, so the box is taken as given by the shape.
- `Vertex.hpp` is not part of this model. `MaterialIndex` is taken as a 32-bit word added modulo 2^32.
- Procedural kinds other than the sphere are carried as `OtherShape`. As in the source, they get zero records.
- `std::move` of the model and texture vectors and `unique_ptr` lifetimes are not modelled. The scene keeps the data it needs, and the destructor's resets are explicit release steps.
- SceneAssembly.Assemble: requires the vertex count before each model to fit in 32 bits. Beyond 2^32 vertices the truncated vertex offset would restart the rebasing loop inside earlier models' vertices, and that behaviour is not modelled.
- SceneResources.Scene.constructor: carries the same 32-bit vertex-count requirement as `Assemble`.
