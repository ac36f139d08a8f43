/** The scene object: it builds the combined arrays, owns one device buffer
    and one backing memory allocation per array, plus the texture images,
    views and samplers, and releases them all in a fixed order. The device
    itself is not modelled: a buffer or a memory allocation is only live or
    released, and each release is recorded in a log. */
module SceneResources {
  import opened SceneTypes
  import opened ProceduralExtraction
  import opened SceneAssembly
  import opened ThreadSwizzle

  /** The device buffers the scene owns, one per combined array. */
  datatype BufferKind =
    | VertexBuffer | IndexBuffer | MaterialBuffer | OffsetBuffer
    | AabbBuffer | ProceduralBuffer | ThreadSwizzleBuffer

  /** Buffer usage bits the scene asks for. */
  datatype UsageBit = VertexBufferBit | IndexBufferBit | StorageBufferBit | ShaderDeviceAddressBit

  /** A texture handle slot: empty, or the view or sampler of texture image `image`. */
  datatype Handle = NullHandle | ImageViewHandle(image: nat) | SamplerHandle(image: nat)

  /** One step of the teardown. */
  datatype Release =
    | SamplerHandlesCleared
    | ImageViewHandlesCleared
    | TextureImagesCleared
    | BufferReset(kind: BufferKind)
    | MemoryReset(kind: BufferKind)
  {
    predicate IsTexture() { SamplerHandlesCleared? || ImageViewHandlesCleared? || TextureImagesCleared? }
  }

  /** The buffers in the order the constructor creates them. */
  const CreationOrder: seq<BufferKind> :=
    [VertexBuffer, IndexBuffer, MaterialBuffer, OffsetBuffer, AabbBuffer, ProceduralBuffer, ThreadSwizzleBuffer]

  /** Every buffer kind. */
  const AllBuffers: set<BufferKind> :=
    {VertexBuffer, IndexBuffer, MaterialBuffer, OffsetBuffer, AabbBuffer, ProceduralBuffer, ThreadSwizzleBuffer}

  /** The usage a buffer is created with: the vertex and index buffers carry
      their own bit, and the two extra bits that let shaders reach a buffer
      are added to every buffer exactly when the scene is used for ray tracing. */
  function UsageFlags(kind: BufferKind, usedForRayTracing: bool): (r: set<UsageBit>)
    ensures (StorageBufferBit in r) == usedForRayTracing
    ensures (ShaderDeviceAddressBit in r) == usedForRayTracing
    ensures (VertexBufferBit in r) == (kind == VertexBuffer)
    ensures (IndexBufferBit in r) == (kind == IndexBuffer)
  {
    var flag := if usedForRayTracing then {StorageBufferBit, ShaderDeviceAddressBit} else {};
    match kind
    case VertexBuffer => {VertexBufferBit} + flag
    case IndexBuffer => {IndexBufferBit} + flag
    case _ => flag
  }

  /** The usage of each buffer, as the constructor creates them. */
  function BufferUsages(usedForRayTracing: bool): (r: map<BufferKind, set<UsageBit>>)
    ensures r.Keys == AllBuffers
  {
    map[][VertexBuffer := UsageFlags(VertexBuffer, usedForRayTracing)]
      [IndexBuffer := UsageFlags(IndexBuffer, usedForRayTracing)]
      [MaterialBuffer := UsageFlags(MaterialBuffer, usedForRayTracing)]
      [OffsetBuffer := UsageFlags(OffsetBuffer, usedForRayTracing)]
      [AabbBuffer := UsageFlags(AabbBuffer, usedForRayTracing)]
      [ProceduralBuffer := UsageFlags(ProceduralBuffer, usedForRayTracing)]
      [ThreadSwizzleBuffer := UsageFlags(ThreadSwizzleBuffer, usedForRayTracing)]
  }

  /** Every buffer the scene creates has a usage, and it is the one its kind
      and the ray tracing switch call for. */
  lemma BufferUsagesCoverAll(usedForRayTracing: bool)
    ensures var usages := BufferUsages(usedForRayTracing);
      forall k :: k in usages && usages[k] == UsageFlags(k, usedForRayTracing)
  {
    forall k
      ensures k in BufferUsages(usedForRayTracing)
        && BufferUsages(usedForRayTracing)[k] == UsageFlags(k, usedForRayTracing)
    {
      match k
      case VertexBuffer =>
      case IndexBuffer =>
      case MaterialBuffer =>
      case OffsetBuffer =>
      case AabbBuffer =>
      case ProceduralBuffer =>
      case ThreadSwizzleBuffer =>
    }
  }

  /** `s` read back to front. */
  function Reversed<T>(s: seq<T>): (r: seq<T>)
    ensures |r| == |s|
    ensures forall k | 0 <= k < |s| :: r[k] == s[|s| - 1 - k]
  {
    if s == [] then [] else Reversed(s[1..]) + [s[0]]
  }

  /** For each buffer in `kinds`, in that order: reset its handle, then
      release its memory. */
  function BufferThenMemory(kinds: seq<BufferKind>): (r: seq<Release>)
    ensures |r| == 2 * |kinds|
  {
    if kinds == [] then []
    else [BufferReset(kinds[0]), MemoryReset(kinds[0])] + BufferThenMemory(kinds[1..])
  }

  /** The teardown ledger for buffers created in the order `created`: the
      texture handles and images, then each buffer with its memory, latest
      created first. */
  function Teardown(created: seq<BufferKind>): (r: seq<Release>)
    ensures |r| == 3 + 2 * |created|
    ensures r[..3] == [SamplerHandlesCleared, ImageViewHandlesCleared, TextureImagesCleared]
  {
    [SamplerHandlesCleared, ImageViewHandlesCleared, TextureImagesCleared]
      + BufferThenMemory(Reversed(created))
  }

  /** The buffers whose handle the log resets, in log order. */
  function BufferResets(log: seq<Release>): seq<BufferKind>
  {
    if log == [] then []
    else (if log[0].BufferReset? then [log[0].kind] else []) + BufferResets(log[1..])
  }

  /** The buffers whose memory the log releases, in log order. */
  function MemoryResets(log: seq<Release>): seq<BufferKind>
  {
    if log == [] then []
    else (if log[0].MemoryReset? then [log[0].kind] else []) + MemoryResets(log[1..])
  }

  /** Resetting the buffers pairwise resets the handles of exactly the given
      buffers, in the given order. */
  lemma {:induction false} PairsResetBuffers(kinds: seq<BufferKind>)
    ensures BufferResets(BufferThenMemory(kinds)) == kinds
  {
    if kinds != [] {
      var log := BufferThenMemory(kinds);
      var rest := BufferThenMemory(kinds[1..]);
      assert log[1..][1..] == rest;
      calc {
        BufferResets(log);
        [kinds[0]] + BufferResets(log[1..]);
        [kinds[0]] + BufferResets(rest);
        { PairsResetBuffers(kinds[1..]); }
        [kinds[0]] + kinds[1..];
      }
    }
  }

  /** Resetting the buffers pairwise releases the memory of exactly the given
      buffers, in the given order. */
  lemma {:induction false} PairsResetMemory(kinds: seq<BufferKind>)
    ensures MemoryResets(BufferThenMemory(kinds)) == kinds
  {
    if kinds != [] {
      var log := BufferThenMemory(kinds);
      var rest := BufferThenMemory(kinds[1..]);
      assert log[1..][1..] == rest;
      calc {
        MemoryResets(log);
        MemoryResets(log[1..]);
        [kinds[0]] + MemoryResets(rest);
        { PairsResetMemory(kinds[1..]); }
        [kinds[0]] + kinds[1..];
      }
    }
  }

  /** In the pairwise teardown every memory release comes right after the
      reset of the buffer bound to that memory. */
  lemma {:induction false} MemoryFollowsItsBuffer(kinds: seq<BufferKind>, k: nat)
    requires k < |BufferThenMemory(kinds)| && BufferThenMemory(kinds)[k].MemoryReset?
    ensures 0 < k && BufferThenMemory(kinds)[k - 1] == BufferReset(BufferThenMemory(kinds)[k].kind)
  {
    var log := BufferThenMemory(kinds);
    if k >= 2 {
      assert log[k] == BufferThenMemory(kinds[1..])[k - 2];
      MemoryFollowsItsBuffer(kinds[1..], k - 2);
    }
  }

  /** The teardown ledger releases the buffers, and their memory, in the
      reverse of their creation order; every memory release follows the reset
      of its own buffer; the texture releases come before all buffer releases. */
  lemma TeardownOrder(created: seq<BufferKind>)
    ensures BufferResets(Teardown(created)) == Reversed(created)
    ensures MemoryResets(Teardown(created)) == Reversed(created)
    ensures forall k | 0 <= k < |Teardown(created)| && Teardown(created)[k].MemoryReset? ::
      0 < k && Teardown(created)[k - 1] == BufferReset(Teardown(created)[k].kind)
    ensures forall a, b | 0 <= a < |Teardown(created)| && 0 <= b < |Teardown(created)| ::
      Teardown(created)[a].IsTexture() && !Teardown(created)[b].IsTexture() ==> a < b
  {
    var log := Teardown(created);
    var pairs := BufferThenMemory(Reversed(created));
    assert log[1..][1..][1..] == pairs;
    assert BufferResets(log) == BufferResets(pairs) by {
      assert BufferResets(log) == BufferResets(log[1..]);
      assert BufferResets(log[1..]) == BufferResets(log[1..][1..]);
      assert BufferResets(log[1..][1..]) == BufferResets(log[1..][1..][1..]);
    }
    assert MemoryResets(log) == MemoryResets(pairs) by {
      assert MemoryResets(log) == MemoryResets(log[1..]);
      assert MemoryResets(log[1..]) == MemoryResets(log[1..][1..]);
      assert MemoryResets(log[1..][1..]) == MemoryResets(log[1..][1..][1..]);
    }
    PairsResetBuffers(Reversed(created));
    PairsResetMemory(Reversed(created));
    forall k | 0 <= k < |log| && log[k].MemoryReset?
      ensures 0 < k && log[k - 1] == BufferReset(log[k].kind)
    {
      assert log[k] == pairs[k - 3];
      MemoryFollowsItsBuffer(Reversed(created), k - 3);
    }
    forall b | 3 <= b < |log|
      ensures !log[b].IsTexture()
    {
      assert log[b] == pairs[b - 3];
      PairsHoldNoTexture(Reversed(created), b - 3);
    }
  }

  /** The pairwise teardown releases buffers and memory only. */
  lemma {:induction false} PairsHoldNoTexture(kinds: seq<BufferKind>, k: nat)
    requires k < |BufferThenMemory(kinds)|
    ensures !BufferThenMemory(kinds)[k].IsTexture()
  {
    if k >= 2 {
      assert BufferThenMemory(kinds)[k] == BufferThenMemory(kinds[1..])[k - 2];
      PairsHoldNoTexture(kinds[1..], k - 2);
    }
  }

  class Scene {
    const usedForRayTracing: bool

    // The contents of the combined arrays, as uploaded to the device; the
    // scene never changes them.
    const vertices: seq<Vertex>
    const indices: seq<Word>
    const materials: seq<Material>
    const offsets: seq<Offset>
    const aabbs: seq<AabbPositions>
    const procedurals: seq<Vec4>
    const threadSwizzle: seq<Word>

    // Device buffers: creation order, usage, and which handles are still live.
    var created: seq<BufferKind>
    var usage: map<BufferKind, set<UsageBit>>
    var liveBuffers: set<BufferKind>
    var liveMemory: set<BufferKind>

    // Texture images (each given by the index of the texture it was built
    // from), and the view and sampler handle slots, one per texture.
    var textureImages: seq<nat>
    var textureImageViewHandles: seq<Handle>
    var textureSamplerHandles: seq<Handle>

    /** The scene is fully built and nothing has been released yet. */
    ghost predicate Live()
      reads this
    {
      && created == CreationOrder
      && liveBuffers == AllBuffers
      && liveMemory == AllBuffers
    }

    /** Builds the identity swizzle table and the combined arrays, uploads
        each array into a buffer of its own, then one image per texture. */
    constructor (models: seq<Model>, textureCount: nat, usedForRayTracing: bool)
      requires VertexOffsetsFit(models)
      ensures this.usedForRayTracing == usedForRayTracing
      ensures vertices == MergedVertices(models) && indices == ConcatIndices(models)
      ensures materials == ConcatMaterials(models) && offsets == SceneAssembly.Offsets(models)
      ensures aabbs == ProceduralExtraction.Aabbs(models)
      ensures procedurals == ProceduralExtraction.Procedurals(models)
      ensures threadSwizzle == IdentityTable(SwizzleSize)
      ensures usage == BufferUsages(usedForRayTracing)
      ensures TexturesUploaded(textureCount)
      ensures Live()
    {
      var swizzle := BuildIdentitySwizzle();
      var vs, ixs, mats, procs, boxes, offs := Assemble(models);
      this.usedForRayTracing := usedForRayTracing;
      threadSwizzle := swizzle;
      vertices, indices, materials, procedurals, aabbs, offsets := vs, ixs, mats, procs, boxes, offs;
      created, usage, liveBuffers, liveMemory := [], map[], {}, {};
      new;
      CreateDeviceBuffers();
      UploadTextures(textureCount);
    }

    /** Image `i` was built from texture `i`, and slot `i` of each handle
        array holds that image's view and sampler, for each of the `n` textures. */
    ghost predicate TexturesUploaded(n: nat)
      reads this
    {
      && |textureImages| == |textureImageViewHandles| == |textureSamplerHandles| == n
      && forall i | 0 <= i < n ::
        && textureImages[i] == i
        && textureImageViewHandles[i] == ImageViewHandle(i)
        && textureSamplerHandles[i] == SamplerHandle(i)
    }

    /** Builds one image per texture, in texture order, and records its view
        and sampler handles in slots sized up front to the texture count. */
    method UploadTextures(textureCount: nat)
      modifies this`textureImages, this`textureImageViewHandles, this`textureSamplerHandles
      ensures TexturesUploaded(textureCount)
    {
      textureImages := [];
      textureImageViewHandles := seq(textureCount, _ => NullHandle);
      textureSamplerHandles := seq(textureCount, _ => NullHandle);
      var i := 0;
      while i != textureCount
        invariant 0 <= i <= textureCount
        invariant |textureImages| == i
        invariant |textureImageViewHandles| == |textureSamplerHandles| == textureCount
        invariant forall j | 0 <= j < i ::
          && textureImages[j] == j
          && textureImageViewHandles[j] == ImageViewHandle(j)
          && textureSamplerHandles[j] == SamplerHandle(j)
      {
        textureImages := textureImages + [i];
        textureImageViewHandles := textureImageViewHandles[i := ImageViewHandle(textureImages[i])];
        textureSamplerHandles := textureSamplerHandles[i := SamplerHandle(textureImages[i])];
        i := i + 1;
      }
    }

    /** Creates the scene's buffers, each with its backing memory, in the
        order vertex, index, material, offset, AABB, procedural, swizzle. */
    method CreateDeviceBuffers()
      requires created == [] && usage == map[] && liveBuffers == {} && liveMemory == {}
      modifies this`created, this`usage, this`liveBuffers, this`liveMemory
      ensures usage == BufferUsages(usedForRayTracing)
      ensures Live()
    {
      CreateDeviceBuffer(VertexBuffer);
      CreateDeviceBuffer(IndexBuffer);
      CreateDeviceBuffer(MaterialBuffer);
      CreateDeviceBuffer(OffsetBuffer);
      assert created == CreationOrder[..4];
      CreateDeviceBuffer(AabbBuffer);
      CreateDeviceBuffer(ProceduralBuffer);
      CreateDeviceBuffer(ThreadSwizzleBuffer);
      assert created == CreationOrder;
      assert liveBuffers == AllBuffers && liveMemory == AllBuffers;
    }

    /** Creates the buffer `kind` with its backing memory. */
    method CreateDeviceBuffer(kind: BufferKind)
      modifies this`created, this`usage, this`liveBuffers, this`liveMemory
      ensures created == old(created) + [kind]
      ensures usage == old(usage)[kind := UsageFlags(kind, usedForRayTracing)]
      ensures liveBuffers == old(liveBuffers) + {kind}
      ensures liveMemory == old(liveMemory) + {kind}
    {
      created := created + [kind];
      usage := usage[kind := UsageFlags(kind, usedForRayTracing)];
      liveBuffers := liveBuffers + {kind};
      liveMemory := liveMemory + {kind};
    }

    /** Drops the texture handles, then destroys the texture images with
        their views and samplers. */
    method ReleaseTextures() returns (events: seq<Release>)
      modifies this`textureImages, this`textureImageViewHandles, this`textureSamplerHandles
      ensures textureImages == [] && textureImageViewHandles == [] && textureSamplerHandles == []
      ensures events == [SamplerHandlesCleared, ImageViewHandlesCleared, TextureImagesCleared]
    {
      textureSamplerHandles := [];
      events := [SamplerHandlesCleared];
      textureImageViewHandles := [];
      events := events + [ImageViewHandlesCleared];
      textureImages := [];
      events := events + [TextureImagesCleared];
    }

    /** Destroys the buffer handle `kind`. */
    method ResetBuffer(kind: BufferKind)
      modifies this`liveBuffers
      ensures liveBuffers == old(liveBuffers) - {kind}
    {
      liveBuffers := liveBuffers - {kind};
    }

    /** Frees the memory behind buffer `kind`; allowed only once the buffer
        bound to that memory has been destroyed. */
    method ResetMemory(kind: BufferKind)
      requires kind !in liveBuffers
      modifies this`liveMemory
      ensures liveMemory == old(liveMemory) - {kind}
    {
      liveMemory := liveMemory - {kind};
    }

    /** Releases buffer `kind`: first its handle, then its memory. */
    method ReleaseBuffer(kind: BufferKind) returns (events: seq<Release>)
      modifies this`liveBuffers, this`liveMemory
      ensures liveBuffers == old(liveBuffers) - {kind}
      ensures liveMemory == old(liveMemory) - {kind}
      ensures events == [BufferReset(kind), MemoryReset(kind)]
    {
      ResetBuffer(kind);
      events := [BufferReset(kind)];
      ResetMemory(kind);
      events := events + [MemoryReset(kind)];
    }

    /** Releases everything the scene owns, and returns the releases in the
        order they happened: the texture handles and images first, then each
        buffer before its memory, the buffers in the reverse of their creation
        order. */
    method Destroy() returns (released: seq<Release>)
      requires Live()
      modifies this`liveBuffers, this`liveMemory
      modifies this`textureImages, this`textureImageViewHandles, this`textureSamplerHandles
      ensures liveBuffers == {} && liveMemory == {}
      ensures textureImages == [] && textureImageViewHandles == [] && textureSamplerHandles == []
      ensures released == TeardownLedger
    {
      released := ReleaseTextures();
      var events := ReleaseBuffer(ThreadSwizzleBuffer);
      released := released + events;
      events := ReleaseBuffer(ProceduralBuffer);
      released := released + events;
      events := ReleaseBuffer(AabbBuffer);
      released := released + events;
      events := ReleaseBuffer(OffsetBuffer);
      released := released + events;
      events := ReleaseBuffer(MaterialBuffer);
      released := released + events;
      events := ReleaseBuffer(IndexBuffer);
      released := released + events;
      events := ReleaseBuffer(VertexBuffer);
      released := released + events;
    }
  }

  /** The teardown ledger of the scene's own buffers, written out. */
  const TeardownLedger: seq<Release> := [
      SamplerHandlesCleared, ImageViewHandlesCleared, TextureImagesCleared,
      BufferReset(ThreadSwizzleBuffer), MemoryReset(ThreadSwizzleBuffer),
      BufferReset(ProceduralBuffer), MemoryReset(ProceduralBuffer),
      BufferReset(AabbBuffer), MemoryReset(AabbBuffer),
      BufferReset(OffsetBuffer), MemoryReset(OffsetBuffer),
      BufferReset(MaterialBuffer), MemoryReset(MaterialBuffer),
      BufferReset(IndexBuffer), MemoryReset(IndexBuffer),
      BufferReset(VertexBuffer), MemoryReset(VertexBuffer)]

  /** The buffers in the order the destructor releases them. */
  const ReleaseOrder: seq<BufferKind> :=
    [ThreadSwizzleBuffer, ProceduralBuffer, AabbBuffer, OffsetBuffer, MaterialBuffer, IndexBuffer, VertexBuffer]

  /** The destructor's release order is the reverse of the creation order. */
  lemma ReleaseOrderReversesCreation()
    ensures ReleaseOrder == Reversed(CreationOrder)
  {
    assert forall k | 0 <= k < |ReleaseOrder| :: ReleaseOrder[k] == Reversed(CreationOrder)[k];
  }

  /** The written-out ledger is the teardown of the constructor's creation order. */
  lemma TeardownOfCreationOrder()
    ensures TeardownLedger == Teardown(CreationOrder)
  {
    ReleaseOrderReversesCreation();
    assert ReleaseOrder[1..][1..][1..][1..][1..][1..][1..] == [];
  }
}
