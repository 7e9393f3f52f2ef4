/**
 * The committed-state cache of a Direct3D11 device context: the tables that
 * mirror what is currently bound to the native ID3D11DeviceContext, and the
 * operations that unbind a resource from them or reset them.
 *
 * Native object pointers are modelled by their identity; 0 stands for nullptr.
 * Each pointer kind is its own type, so tables of different kinds never alias.
 */
module D3D11Context {

  /** Number of shader types: vertex, pixel, geometry, domain, hull, compute. */
  const NumShaderTypes := 6
  /** D3D11_COMMONSHADER_CONSTANT_BUFFER_API_SLOT_COUNT */
  const CBSlotCount := 14
  /** D3D11_COMMONSHADER_INPUT_RESOURCE_SLOT_COUNT */
  const SRVSlotCount := 128
  /** D3D11_COMMONSHADER_SAMPLER_SLOT_COUNT */
  const SamplerSlotCount := 16
  /** D3D11_PS_CS_UAV_REGISTER_COUNT */
  const UAVSlotCount := 8
  /** Number of vertex-buffer input slots of a context. */
  const MaxBufferSlots := 32
  /** Number of render-target slots of a context. */
  const MaxRenderTargets := 8

  newtype Uint8 = x: int | 0 <= x < 0x100
  newtype Uint32 = x: int | 0 <= x < 0x1_0000_0000

  /** ID3D11Buffer* (constant, vertex and index buffers) */
  newtype BufferPtr = x: int | 0 <= x
  /** ID3D11ShaderResourceView* */
  newtype SrvPtr = x: int | 0 <= x
  /** ID3D11SamplerState* */
  newtype SamplerPtr = x: int | 0 <= x
  /** ID3D11UnorderedAccessView* */
  newtype UavPtr = x: int | 0 <= x
  /** ID3D11Resource*: the native resource a view was created from */
  newtype ResourcePtr = x: int | 0 <= x
  /** ID3D11InputLayout* */
  newtype InputLayoutPtr = x: int | 0 <= x
  /** ID3D11DeviceChild*: a bound native shader */
  newtype ShaderPtr = x: int | 0 <= x
  /** A texture view bound as a render target or depth-stencil target */
  newtype TextureViewPtr = x: int | 0 <= x
  /** The engine texture object a texture view belongs to */
  newtype TexturePtr = x: int | 0 <= x

  /** VALUE_TYPE: the format of an index buffer. */
  datatype ValueType = Undefined | Int8 | Int16 | Int32 | UInt8 | UInt16 | UInt32 | Float16 | Float32

  /** Both the native and the engine primitive-topology codes use 0 for "undefined". */
  const UndefinedTopology: nat := 0

  /** Every per-stage count is within the capacity of the table it counts. */
  ghost predicate CountsWithin(counts: array<Uint8>, capacity: nat)
    reads counts
  {
    forall s :: 0 <= s < counts.Length ==> counts[s] as int <= capacity
  }

  /** Every slot of a stage at or above that stage's committed count is empty. */
  ghost predicate TailEmpty<T>(table: array2<T>, counts: array<Uint8>, nil: T)
    reads table, counts
    requires table.Length0 == counts.Length
  {
    forall s, i :: 0 <= s < table.Length0 && counts[s] as int <= i < table.Length1 ==> table[s, i] == nil
  }

  /** A view slot is null exactly when the resource slot beside it is null. */
  ghost predicate Paired<V>(views: array2<V>, resources: array2<ResourcePtr>, nullView: V)
    reads views, resources
    requires views.Length0 == resources.Length0 && views.Length1 == resources.Length1
  {
    forall s, i :: 0 <= s < views.Length0 && 0 <= i < views.Length1 ==>
      (views[s, i] == nullView <==> resources[s, i] == 0)
  }

  /** No slot of any stage refers to the resource. */
  ghost predicate NoReference(resources: array2<ResourcePtr>, resource: ResourcePtr)
    reads resources
  {
    forall s, i :: 0 <= s < resources.Length0 && 0 <= i < resources.Length1 ==> resources[s, i] != resource
  }

  /** Every slot of the table is empty. */
  ghost predicate AllNil<T>(table: array2<T>, nil: T)
    reads table
  {
    forall s, i :: 0 <= s < table.Length0 && 0 <= i < table.Length1 ==> table[s, i] == nil
  }

  /** Every count is zero. */
  ghost predicate AllZero(counts: array<Uint8>)
    reads counts
  {
    forall s :: 0 <= s < counts.Length ==> counts[s] == 0
  }

  /**
   * The state of one (view, resource) slot after an unbind of `resource`,
   * given its state before: cleared if it referred to the resource, otherwise
   * kept.
   */
  ghost predicate SlotUnbound<V>(before: (V, ResourcePtr), after: (V, ResourcePtr), resource: ResourcePtr, nullView: V)
  {
    if before.1 == resource then after == (nullView, 0) else after == before
  }

  /**
   * The state of one vertex-buffer slot (buffer, stride, offset) after an
   * unbind of `buffer`, given its state before.
   */
  ghost predicate VertexSlotUnbound(before: (BufferPtr, Uint32, Uint32), after: (BufferPtr, Uint32, Uint32),
                                    buffer: BufferPtr)
  {
    if before.0 == buffer then after == (0, 0, 0) else after == before
  }

  /**
   * The state of the index-buffer binding (buffer, format, start offset,
   * up-to-date flag) after an unbind of `buffer`, given its state before.
   */
  ghost predicate IndexBufferUnbound(before: (BufferPtr, ValueType, Uint32, bool),
                                     after: (BufferPtr, ValueType, Uint32, bool), buffer: BufferPtr)
  {
    if before.0 == buffer then after == (0, Undefined, 0, false) else after == before
  }

  /**
   * Empties the committed slots of every stage of a table (the slots below
   * that stage's count; the ones above are empty already).
   */
  method ClearCommittedSlots<T>(table: array2<T>, counts: array<Uint8>, nil: T)
    requires table.Length0 == counts.Length
    requires CountsWithin(counts, table.Length1)
    requires TailEmpty(table, counts, nil)
    modifies table
    ensures AllNil(table, nil)
  {
    for s := 0 to table.Length0
      invariant forall s', i :: 0 <= s' < s && 0 <= i < table.Length1 ==> table[s', i] == nil
      invariant forall s', i :: s <= s' < table.Length0 && 0 <= i < table.Length1 ==> table[s', i] == old(table[s', i])
    {
      for i := 0 to counts[s] as int
        invariant forall s', i' :: 0 <= s' < s && 0 <= i' < table.Length1 ==> table[s', i'] == nil
        invariant forall i' :: 0 <= i' < i ==> table[s, i'] == nil
        invariant forall s', i' :: s <= s' < table.Length0 && 0 <= i' < table.Length1 && (s' != s || i <= i') ==>
                    table[s', i'] == old(table[s', i'])
      {
        table[s, i] := nil;
      }
    }
  }

  /** Sets every count to zero. */
  method ResetCounts(counts: array<Uint8>)
    modifies counts
    ensures AllZero(counts)
  {
    forall s | 0 <= s < counts.Length {
      counts[s] := 0;
    }
  }

  /**
   * A per-stage table of committed slots (constant buffers, samplers): one row
   * per shader type and the number of committed slots of each row.
   */
  class SlotTable<T> {
    const slots: array2<T>
    const counts: array<Uint8>
    /** The value of an empty slot. */
    const nil: T

    /** Counts within capacity; every slot above a count is empty. */
    ghost predicate Valid()
      reads slots, counts
    {
      && slots.Length0 == NumShaderTypes && counts.Length == NumShaderTypes
      && CountsWithin(counts, slots.Length1)
      && TailEmpty(slots, counts, nil)
    }

    ghost predicate IsEmpty()
      reads slots, counts
    {
      AllNil(slots, nil) && AllZero(counts)
    }

    constructor (capacity: nat, nil: T)
      ensures Valid() && IsEmpty()
      ensures slots.Length1 == capacity && this.nil == nil
      ensures fresh(slots) && fresh(counts)
    {
      slots := new T[NumShaderTypes, capacity]((_, _) => nil);
      counts := new Uint8[NumShaderTypes](_ => 0);
      this.nil := nil;
    }

    /** Empties the committed slots of every stage and zeroes the counts. */
    method Release()
      requires Valid()
      modifies slots, counts
      ensures Valid() && IsEmpty()
    {
      ClearCommittedSlots(slots, counts, nil);
      ResetCounts(counts);
    }
  }

  /**
   * A per-stage table of committed views (shader resource views, unordered
   * access views), the parallel table of the resources those views were
   * created from, and the number of committed slots of each row.
   */
  class ViewTable<V> {
    const views: array2<V>
    const resources: array2<ResourcePtr>
    const counts: array<Uint8>
    /** The value of an empty view slot. */
    const nullView: V

    /**
     * Both tables have the same shape and the same counts, every slot above a
     * count is empty, and a view and its resource are null together.
     */
    ghost predicate Valid()
      reads views, resources, counts
    {
      && views as object != resources
      && views.Length0 == NumShaderTypes && resources.Length0 == NumShaderTypes
      && counts.Length == NumShaderTypes
      && views.Length1 == resources.Length1
      && CountsWithin(counts, views.Length1)
      && TailEmpty(views, counts, nullView) && TailEmpty(resources, counts, 0)
      && Paired(views, resources, nullView)
    }

    ghost predicate IsEmpty()
      reads views, resources, counts
    {
      AllNil(views, nullView) && AllNil(resources, 0) && AllZero(counts)
    }

    /** Every slot went through SlotUnbound for `resource`. */
    twostate predicate Unbound(resource: ResourcePtr)
      reads views, resources
    {
      forall s, i :: 0 <= s < views.Length0 && 0 <= i < views.Length1 && s < resources.Length0 && i < resources.Length1 ==>
        SlotUnbound(old((views[s, i], resources[s, i])), (views[s, i], resources[s, i]), resource, nullView)
    }

    constructor (capacity: nat, nullView: V)
      ensures Valid() && IsEmpty()
      ensures views.Length1 == capacity && this.nullView == nullView
      ensures fresh(views) && fresh(resources) && fresh(counts)
    {
      views := new V[NumShaderTypes, capacity]((_, _) => nullView);
      resources := new ResourcePtr[NumShaderTypes, capacity]((_, _) => 0);
      counts := new Uint8[NumShaderTypes](_ => 0);
      this.nullView := nullView;
    }

    /**
     * The unbind scan: every committed slot of every stage that refers to
     * `resource` has its view and its resource set to null; every other slot
     * is left as it was. The counts are read, not changed.
     */
    method Unbind(resource: ResourcePtr)
      requires Valid()
      modifies views, resources
      ensures Valid()
      ensures Unbound(resource)
      ensures resource != 0 ==> NoReference(resources, resource)
    {
      for s := 0 to NumShaderTypes
        invariant forall s', i :: 0 <= s' < s && 0 <= i < views.Length1 ==>
                    SlotUnbound(old((views[s', i], resources[s', i])), (views[s', i], resources[s', i]), resource, nullView)
        invariant forall s', i :: s <= s' < NumShaderTypes && 0 <= i < views.Length1 ==>
                    views[s', i] == old(views[s', i]) && resources[s', i] == old(resources[s', i])
      {
        for i := 0 to counts[s] as int
          invariant forall s', i' :: 0 <= s' < s && 0 <= i' < views.Length1 ==>
                      SlotUnbound(old((views[s', i'], resources[s', i'])), (views[s', i'], resources[s', i']), resource, nullView)
          invariant forall i' :: 0 <= i' < i ==>
                      SlotUnbound(old((views[s, i'], resources[s, i'])), (views[s, i'], resources[s, i']), resource, nullView)
          invariant forall s', i' :: s <= s' < NumShaderTypes && 0 <= i' < views.Length1 && (s' != s || i <= i') ==>
                      views[s', i'] == old(views[s', i']) && resources[s', i'] == old(resources[s', i'])
        {
          if resources[s, i] == resource {
            resources[s, i] := 0;
            views[s, i] := nullView;
          }
        }
      }
    }

    /** Empties the committed slots of every stage of both tables and zeroes the counts. */
    method Release()
      requires Valid()
      modifies views, resources, counts
      ensures Valid() && IsEmpty()
    {
      ClearCommittedSlots(views, counts, nullView);
      ClearCommittedSlots(resources, counts, 0);
      ResetCounts(counts);
    }
  }

  /**
   * The shape of the four shader-resource caches of a context: each table has
   * the slot capacity of its category and null as its empty value, and no two
   * tables share a count array or a resource table. These facts are about
   * constants only, so no heap update can invalidate them.
   */
  predicate ShaderTablesShaped(cbs: SlotTable<BufferPtr>, srvs: ViewTable<SrvPtr>,
                               samplers: SlotTable<SamplerPtr>, uavs: ViewTable<UavPtr>)
  {
    && cbs.slots.Length1 == CBSlotCount && cbs.nil == 0
    && srvs.views.Length1 == SRVSlotCount && srvs.nullView == 0
    && samplers.slots.Length1 == SamplerSlotCount && samplers.nil == 0
    && uavs.views.Length1 == UAVSlotCount && uavs.nullView == 0
    && cbs.counts != srvs.counts && cbs.counts != samplers.counts && cbs.counts != uavs.counts
    && srvs.counts != samplers.counts && srvs.counts != uavs.counts && samplers.counts != uavs.counts
    && srvs.resources != uavs.resources
  }

  /** Empties the four shader-resource caches of a context. */
  method ReleaseShaderTables(cbs: SlotTable<BufferPtr>, srvs: ViewTable<SrvPtr>,
                             samplers: SlotTable<SamplerPtr>, uavs: ViewTable<UavPtr>)
    requires ShaderTablesShaped(cbs, srvs, samplers, uavs)
    requires cbs.Valid() && srvs.Valid() && samplers.Valid() && uavs.Valid()
    modifies cbs.slots, cbs.counts, srvs.views, srvs.resources, srvs.counts
    modifies samplers.slots, samplers.counts, uavs.views, uavs.resources, uavs.counts
    ensures cbs.Valid() && srvs.Valid() && samplers.Valid() && uavs.Valid()
    ensures cbs.IsEmpty() && srvs.IsEmpty() && samplers.IsEmpty() && uavs.IsEmpty()
  {
    cbs.Release();
    srvs.Release();
    samplers.Release();
    uavs.Release();
  }

  /** Allocates the four shader-resource caches, all empty. */
  method NewShaderTables() returns (cbs: SlotTable<BufferPtr>, srvs: ViewTable<SrvPtr>,
                                    samplers: SlotTable<SamplerPtr>, uavs: ViewTable<UavPtr>)
    ensures ShaderTablesShaped(cbs, srvs, samplers, uavs)
    ensures cbs.Valid() && srvs.Valid() && samplers.Valid() && uavs.Valid()
    ensures cbs.IsEmpty() && srvs.IsEmpty() && samplers.IsEmpty() && uavs.IsEmpty()
    ensures fresh(cbs.slots) && fresh(cbs.counts) && fresh(samplers.slots) && fresh(samplers.counts)
    ensures fresh(srvs.views) && fresh(srvs.resources) && fresh(srvs.counts)
    ensures fresh(uavs.views) && fresh(uavs.resources) && fresh(uavs.counts)
  {
    cbs := new SlotTable(CBSlotCount, 0);
    srvs := new ViewTable(SRVSlotCount, 0);
    samplers := new SlotTable(SamplerSlotCount, 0);
    uavs := new ViewTable(UAVSlotCount, 0);
  }

  /**
   * Allocates the vertex-buffer, stride and offset slots, the shader slots
   * and the render-target slots of a context, all null or zero.
   */
  method NewBindingArrays() returns (buffers: array<BufferPtr>, strides: array<Uint32>, offsets: array<Uint32>,
                                     shaders: array<ShaderPtr>, renderTargets: array<TextureViewPtr>)
    ensures strides != offsets
    ensures buffers.Length == MaxBufferSlots && forall slot :: 0 <= slot < MaxBufferSlots ==> buffers[slot] == 0
    ensures strides.Length == MaxBufferSlots && forall slot :: 0 <= slot < MaxBufferSlots ==> strides[slot] == 0
    ensures offsets.Length == MaxBufferSlots && forall slot :: 0 <= slot < MaxBufferSlots ==> offsets[slot] == 0
    ensures shaders.Length == NumShaderTypes && forall s :: 0 <= s < NumShaderTypes ==> shaders[s] == 0
    ensures renderTargets.Length == MaxRenderTargets && forall rt :: 0 <= rt < MaxRenderTargets ==> renderTargets[rt] == 0
    ensures fresh(buffers) && fresh(strides) && fresh(offsets) && fresh(shaders) && fresh(renderTargets)
  {
    buffers := new BufferPtr[MaxBufferSlots](_ => 0);
    strides := new Uint32[MaxBufferSlots](_ => 0);
    offsets := new Uint32[MaxBufferSlots](_ => 0);
    shaders := new ShaderPtr[NumShaderTypes](_ => 0);
    renderTargets := new TextureViewPtr[MaxRenderTargets](_ => 0);
  }

  /** The per-context mirror of the state committed to the native device context. */
  class DeviceContext {
    /** Committed constant buffers, per shader type and slot. */
    const cbs: SlotTable<BufferPtr>
    /** Committed shader resource views and the resources they view. */
    const srvs: ViewTable<SrvPtr>
    /** Committed samplers. */
    const samplers: SlotTable<SamplerPtr>
    /** Committed unordered access views and the resources they view. */
    const uavs: ViewTable<UavPtr>

    /** Vertex buffers committed to the input assembler, with their strides and offsets. */
    const vertexBuffers: array<BufferPtr>
    const vbStrides: array<Uint32>
    const vbOffsets: array<Uint32>
    var numVBs: nat
    /** Whether the committed vertex buffers match the ones the client has set. */
    var vbsUpToDate: bool

    var inputLayout: InputLayoutPtr

    /** The committed index buffer, its format and start offset. */
    var indexBuffer: BufferPtr
    var ibFormat: ValueType
    var ibStartOffset: Uint32
    /** Whether the committed index buffer matches the one the client has set. */
    var ibUpToDate: bool

    var d3d11PrimTopology: nat
    var primTopology: nat

    /** Native shaders committed per shader type. */
    const shaders: array<ShaderPtr>

    /** The bound render-target set: colour targets and an optional depth-stencil target. */
    const renderTargets: array<TextureViewPtr>
    var numRenderTargets: nat
    var depthStencil: TextureViewPtr

    /** Every cleared vertex-buffer slot lies below the committed count. */
    ghost predicate VertexBuffersValid()
      reads this`numVBs, vertexBuffers
    {
      && vertexBuffers.Length == MaxBufferSlots
      && vbStrides.Length == MaxBufferSlots && vbOffsets.Length == MaxBufferSlots
      && vbStrides != vbOffsets
      && numVBs <= MaxBufferSlots
      && (forall slot :: numVBs <= slot < MaxBufferSlots ==> vertexBuffers[slot] == 0)
    }

    /** Every bound colour target lies below the render-target count. */
    ghost predicate RenderTargetsValid()
      reads this`numRenderTargets, renderTargets
    {
      && renderTargets.Length == MaxRenderTargets
      && numRenderTargets <= MaxRenderTargets
      && (forall rt :: numRenderTargets <= rt < MaxRenderTargets ==> renderTargets[rt] == 0)
    }

    /** The invariant of the cache. */
    ghost predicate Valid()
      reads this`numVBs, this`numRenderTargets, cbs.slots, cbs.counts, srvs.views, srvs.resources, srvs.counts
      reads samplers.slots, samplers.counts, uavs.views, uavs.resources, uavs.counts
      reads vertexBuffers, renderTargets
    {
      && ShaderTablesShaped(cbs, srvs, samplers, uavs)
      && cbs.Valid() && srvs.Valid() && samplers.Valid() && uavs.Valid()
      && VertexBuffersValid()
      && shaders.Length == NumShaderTypes
      && RenderTargetsValid()
    }

    /** The committed constant-buffer, SRV, sampler and UAV caches are empty. */
    ghost predicate ShaderResourcesEmpty()
      reads cbs.slots, cbs.counts, srvs.views, srvs.resources, srvs.counts
      reads samplers.slots, samplers.counts, uavs.views, uavs.resources, uavs.counts
    {
      cbs.IsEmpty() && srvs.IsEmpty() && samplers.IsEmpty() && uavs.IsEmpty()
    }

    /** No vertex buffer, input layout, index buffer or topology is recorded as committed. */
    ghost predicate InputAssemblerEmpty()
      reads this, vertexBuffers, vbStrides, vbOffsets
    {
      && (forall slot :: 0 <= slot < vertexBuffers.Length ==> vertexBuffers[slot] == 0)
      && (forall slot :: 0 <= slot < vbStrides.Length ==> vbStrides[slot] == 0)
      && (forall slot :: 0 <= slot < vbOffsets.Length ==> vbOffsets[slot] == 0)
      && numVBs == 0 && !vbsUpToDate
      && inputLayout == 0
      && indexBuffer == 0 && ibFormat == Undefined && ibStartOffset == 0 && !ibUpToDate
      && d3d11PrimTopology == UndefinedTopology && primTopology == UndefinedTopology
    }

    /** No shader and no render target is recorded as bound. */
    ghost predicate PipelineEmpty()
      reads this, shaders, renderTargets
    {
      && (forall s :: 0 <= s < shaders.Length ==> shaders[s] == 0)
      && (forall rt :: 0 <= rt < renderTargets.Length ==> renderTargets[rt] == 0)
      && numRenderTargets == 0 && depthStencil == 0
    }

    /** Nothing at all is recorded as committed. */
    ghost predicate IsEmpty()
      reads this, cbs.slots, cbs.counts, srvs.views, srvs.resources, srvs.counts
      reads samplers.slots, samplers.counts, uavs.views, uavs.resources, uavs.counts
      reads vertexBuffers, vbStrides, vbOffsets, shaders, renderTargets
    {
      ShaderResourcesEmpty() && InputAssemblerEmpty() && PipelineEmpty()
    }

    /**
     * A new context starts with an empty cache and stale vertex/index buffers.
     * Every table and array it records is its own, so no other context shares them.
     */
    constructor ()
      ensures Valid() && IsEmpty()
      ensures fresh(cbs.slots) && fresh(cbs.counts) && fresh(samplers.slots) && fresh(samplers.counts)
      ensures fresh(srvs.views) && fresh(srvs.resources) && fresh(srvs.counts)
      ensures fresh(uavs.views) && fresh(uavs.resources) && fresh(uavs.counts)
      ensures fresh(vertexBuffers) && fresh(vbStrides) && fresh(vbOffsets) && fresh(shaders) && fresh(renderTargets)
    {
      numVBs := 0;
      vbsUpToDate := false;
      inputLayout := 0;
      indexBuffer := 0;
      ibFormat := Undefined;
      ibStartOffset := 0;
      ibUpToDate := false;
      d3d11PrimTopology := UndefinedTopology;
      primTopology := UndefinedTopology;
      numRenderTargets := 0;
      depthStencil := 0;
      var cbTable, srvTable, samplerTable, uavTable := NewShaderTables();
      var vbTable, strideTable, offsetTable, shaderTable, rtTable := NewBindingArrays();
      cbs, srvs, samplers, uavs := cbTable, srvTable, samplerTable, uavTable;
      vertexBuffers, vbStrides, vbOffsets := vbTable, strideTable, offsetTable;
      shaders, renderTargets := shaderTable, rtTable;
    }

    /**
     * Unbinds a texture from the shader-resource-view slots of every stage.
     * Only the context mirror changes; a null resource is ignored.
     */
    method UnbindTextureFromInput(resource: ResourcePtr)
      requires Valid()
      modifies srvs.views, srvs.resources
      ensures Valid()
      ensures srvs.Unbound(resource)
      ensures resource != 0 ==> NoReference(srvs.resources, resource)
      ensures resource == 0 ==> unchanged(srvs.views, srvs.resources)
    {
      if resource == 0 {
        return;
      }
      srvs.Unbind(resource);
    }

    /**
     * Unbinds a buffer from the input: from the shader-resource-view slots of
     * every stage, from the index-buffer slot and from every vertex-buffer
     * slot. Each cleared index or vertex binding marks that mirror stale.
     * Only the context mirror changes; a null buffer is ignored.
     */
    method UnbindBufferFromInput(buffer: BufferPtr)
      requires Valid()
      modifies srvs.views, srvs.resources, vertexBuffers, vbStrides, vbOffsets
      modifies this`vbsUpToDate, this`indexBuffer, this`ibFormat, this`ibStartOffset, this`ibUpToDate
      ensures Valid()
      ensures buffer == 0 ==> unchanged(this) && unchanged(srvs.views, srvs.resources) && unchanged(vertexBuffers, vbStrides, vbOffsets)
      // shader resource views
      ensures buffer != 0 ==> srvs.Unbound(buffer as ResourcePtr)
      ensures buffer != 0 ==> NoReference(srvs.resources, buffer as ResourcePtr)
      // index buffer
      ensures buffer != 0 ==> IndexBufferUnbound(old(IndexBufferState()), IndexBufferState(), buffer)
      // vertex buffers
      ensures buffer != 0 ==> VertexBuffersUnbound(buffer)
      ensures buffer != 0 ==> forall slot :: 0 <= slot < MaxBufferSlots ==> vertexBuffers[slot] != buffer
    {
      if buffer == 0 {
        return;
      }
      UnbindFromInputAssembler(buffer);
      srvs.Unbind(buffer as ResourcePtr);
    }

    /** The committed index buffer, its format, its start offset and whether it is up to date. */
    function IndexBufferState(): (BufferPtr, ValueType, Uint32, bool)
      reads this`indexBuffer, this`ibFormat, this`ibStartOffset, this`ibUpToDate
    {
      (indexBuffer, ibFormat, ibStartOffset, ibUpToDate)
    }

    /**
     * Every vertex-buffer slot went through VertexSlotUnbound for `buffer`,
     * and the vertex buffers stay up to date only if no slot held it.
     */
    twostate predicate VertexBuffersUnbound(buffer: BufferPtr)
      reads this`vbsUpToDate, vertexBuffers, vbStrides, vbOffsets
    {
      && (forall slot :: 0 <= slot < vertexBuffers.Length && slot < vbStrides.Length && slot < vbOffsets.Length ==>
            VertexSlotUnbound(old((vertexBuffers[slot], vbStrides[slot], vbOffsets[slot])),
                              (vertexBuffers[slot], vbStrides[slot], vbOffsets[slot]), buffer))
      && vbsUpToDate == (old(vbsUpToDate) && forall slot :: 0 <= slot < vertexBuffers.Length ==> old(vertexBuffers[slot]) != buffer)
    }

    /**
     * Releases the committed index buffer if it is `buffer`, and every
     * committed vertex-buffer slot that holds `buffer`.
     */
    method UnbindFromInputAssembler(buffer: BufferPtr)
      requires buffer != 0
      requires VertexBuffersValid()
      modifies vertexBuffers, vbStrides, vbOffsets
      modifies this`vbsUpToDate, this`indexBuffer, this`ibFormat, this`ibStartOffset, this`ibUpToDate
      ensures VertexBuffersValid()
      ensures IndexBufferUnbound(old(IndexBufferState()), IndexBufferState(), buffer)
      ensures VertexBuffersUnbound(buffer)
      ensures forall slot :: 0 <= slot < MaxBufferSlots ==> vertexBuffers[slot] != buffer
    {
      if indexBuffer == buffer {
        indexBuffer := 0;
        ibFormat := Undefined;
        ibStartOffset := 0;
        ibUpToDate := false;
      }

      for slot := 0 to numVBs
        modifies vertexBuffers, vbStrides, vbOffsets, this`vbsUpToDate
        invariant forall k :: 0 <= k < slot ==>
                    VertexSlotUnbound(old((vertexBuffers[k], vbStrides[k], vbOffsets[k])),
                                      (vertexBuffers[k], vbStrides[k], vbOffsets[k]), buffer)
        invariant forall k :: slot <= k < MaxBufferSlots ==>
                    vertexBuffers[k] == old(vertexBuffers[k]) && vbStrides[k] == old(vbStrides[k])
                    && vbOffsets[k] == old(vbOffsets[k])
        invariant vbsUpToDate == (old(vbsUpToDate) && forall k :: 0 <= k < slot ==> old(vertexBuffers[k]) != buffer)
      {
        if vertexBuffers[slot] == buffer {
          vertexBuffers[slot] := 0;
          vbStrides[slot] := 0;
          vbOffsets[slot] := 0;
          vbsUpToDate := false;
        }
      }
    }

    /**
     * Unbinds a resource from the unordered-access-view slots of every stage.
     * Only the context mirror changes; a null resource is ignored.
     */
    method UnbindResourceFromUAV(resource: ResourcePtr)
      requires Valid()
      modifies uavs.views, uavs.resources
      ensures Valid()
      ensures uavs.Unbound(resource)
      ensures resource != 0 ==> NoReference(uavs.resources, resource)
      ensures resource == 0 ==> unchanged(uavs.views, uavs.resources)
    {
      if resource == 0 {
        return;
      }
      uavs.Unbind(resource);
    }

    /**
     * Releases every bound colour target whose view belongs to `texture`;
     * `textureOf` gives the texture of a view. Returns whether the
     * render-target set changed and so has to be committed again. A null
     * texture is ignored, as in the other unbind operations.
     */
    method UnbindTextureFromRenderTarget(texture: TexturePtr, textureOf: TextureViewPtr -> TexturePtr)
      returns (recommit: bool)
      requires Valid()
      modifies renderTargets
      ensures Valid()
      ensures texture != 0 ==> forall rt :: 0 <= rt < MaxRenderTargets ==>
                renderTargets[rt] == (if old(renderTargets[rt]) != 0 && textureOf(old(renderTargets[rt])) == texture
                                      then 0 else old(renderTargets[rt]))
      ensures texture != 0 ==> forall rt :: 0 <= rt < MaxRenderTargets && renderTargets[rt] != 0 ==>
                textureOf(renderTargets[rt]) != texture
      ensures recommit <==> texture != 0 && exists rt :: 0 <= rt < MaxRenderTargets && old(renderTargets[rt]) != 0
                                                          && textureOf(old(renderTargets[rt])) == texture
      ensures texture == 0 ==> unchanged(renderTargets)
    {
      recommit := false;
      if texture == 0 {
        return;
      }
      for rt := 0 to numRenderTargets
        invariant forall k :: 0 <= k < rt ==>
                    renderTargets[k] == (if old(renderTargets[k]) != 0 && textureOf(old(renderTargets[k])) == texture
                                         then 0 else old(renderTargets[k]))
        invariant forall k :: rt <= k < MaxRenderTargets ==> renderTargets[k] == old(renderTargets[k])
        invariant recommit <==> exists k :: 0 <= k < rt && old(renderTargets[k]) != 0
                                            && textureOf(old(renderTargets[k])) == texture
      {
        var view := renderTargets[rt];
        if view != 0 && textureOf(view) == texture {
          renderTargets[rt] := 0;
          recommit := true;
        }
      }
    }

    /**
     * Releases the bound depth-stencil target if its view belongs to
     * `texture`. Returns whether the render-target set changed. A null
     * texture is ignored.
     */
    method UnbindTextureFromDepthStencil(texture: TexturePtr, textureOf: TextureViewPtr -> TexturePtr)
      returns (recommit: bool)
      requires Valid()
      modifies this`depthStencil
      ensures Valid()
      ensures recommit <==> texture != 0 && old(depthStencil) != 0 && textureOf(old(depthStencil)) == texture
      ensures depthStencil == if recommit then 0 else old(depthStencil)
      ensures texture != 0 && depthStencil != 0 ==> textureOf(depthStencil) != texture
    {
      recommit := texture != 0 && depthStencil != 0 && textureOf(depthStencil) == texture;
      if recommit {
        depthStencil := 0;
      }
    }

    /**
     * Empties the committed constant-buffer, SRV, sampler and UAV caches.
     * Vertex buffers, index buffer, input layout, shaders, topology and the
     * render-target set are left as they are.
     */
    method ReleaseCommittedShaderResources()
      requires Valid()
      modifies cbs.slots, cbs.counts, srvs.views, srvs.resources, srvs.counts
      modifies samplers.slots, samplers.counts, uavs.views, uavs.resources, uavs.counts
      ensures Valid()
      ensures ShaderResourcesEmpty()
      ensures unchanged(this)
    {
      ReleaseShaderTables(cbs, srvs, samplers, uavs);
    }

    /**
     * Forgets everything recorded as committed, so that the next commit
     * resubmits the whole state.
     */
    method ClearStateCache()
      requires Valid()
      modifies this, cbs.slots, cbs.counts, srvs.views, srvs.resources, srvs.counts
      modifies samplers.slots, samplers.counts, uavs.views, uavs.resources, uavs.counts
      modifies vertexBuffers, vbStrides, vbOffsets, shaders, renderTargets
      ensures Valid() && IsEmpty()
    {
      ResetInputAssembler();
      ResetPipeline();
      ReleaseCommittedShaderResources();
    }

    /** Forgets the committed vertex buffers, input layout, index buffer and topology. */
    method ResetInputAssembler()
      modifies vertexBuffers, vbStrides, vbOffsets
      modifies this`numVBs, this`vbsUpToDate, this`inputLayout
      modifies this`indexBuffer, this`ibFormat, this`ibStartOffset, this`ibUpToDate
      modifies this`d3d11PrimTopology, this`primTopology
      requires VertexBuffersValid()
      ensures VertexBuffersValid() && InputAssemblerEmpty()
    {
      forall slot | 0 <= slot < vertexBuffers.Length {
        vertexBuffers[slot] := 0;
      }
      forall slot | 0 <= slot < vbStrides.Length {
        vbStrides[slot] := 0;
      }
      forall slot | 0 <= slot < vbOffsets.Length {
        vbOffsets[slot] := 0;
      }
      numVBs := 0;
      vbsUpToDate := false;
      inputLayout := 0;
      indexBuffer := 0;
      ibFormat := Undefined;
      ibStartOffset := 0;
      ibUpToDate := false;
      d3d11PrimTopology := UndefinedTopology;
      primTopology := UndefinedTopology;
    }

    /** Forgets the committed shaders and the bound render-target set. */
    method ResetPipeline()
      requires RenderTargetsValid()
      modifies shaders, renderTargets, this`numRenderTargets, this`depthStencil
      ensures RenderTargetsValid() && PipelineEmpty()
    {
      forall s | 0 <= s < shaders.Length {
        shaders[s] := 0;
      }
      forall rt | 0 <= rt < renderTargets.Length {
        renderTargets[rt] := 0;
      }
      numRenderTargets := 0;
      depthStencil := 0;
    }
  }

  /**
   * Each context owns its cache: a context created while another exists can
   * be changed, and unbinding a resource from it leaves every field, table and
   * array of the other, and so its invariant, as they were.
   */
  method UnbindInNewContext(other: DeviceContext, resource: ResourcePtr) returns (c: DeviceContext)
    requires other.Valid()
    ensures fresh(c) && c.Valid()
    ensures resource != 0 ==> NoReference(c.srvs.resources, resource)
    ensures other.Valid()
    ensures forall s, i :: 0 <= s < NumShaderTypes && 0 <= i < other.srvs.resources.Length1 ==>
              other.srvs.resources[s, i] == old(other.srvs.resources[s, i])
    ensures unchanged(other, other.cbs.slots, other.cbs.counts, other.samplers.slots, other.samplers.counts)
    ensures unchanged(other.srvs.views, other.srvs.resources, other.srvs.counts)
    ensures unchanged(other.uavs.views, other.uavs.resources, other.uavs.counts)
    ensures unchanged(other.vertexBuffers, other.vbStrides, other.vbOffsets, other.shaders, other.renderTargets)
  {
    c := new DeviceContext();
    c.UnbindTextureFromInput(resource);
  }
}
