/**
 * The create-info layout that a Vulkan pipeline state object builds from a
 * backend-neutral pipeline description: the render pass with its attachments
 * and attachment references, and the graphics pipeline with its stage count,
 * viewport, multisample, colour-blend and dynamic state.
 *
 * The native calls that would create the render pass and the pipeline are not
 * modelled: the model stops at the create-info records they would be given.
 * The helpers that convert engine descriptions to Vulkan structures are
 * uninterpreted functions gathered in `Conversions`.
 */
module VkPipelineState {

  /** Number of render-target format slots of a graphics pipeline description. */
  const MaxRenderTargets := 8
  /** The largest sample count Vulkan has a flag for (VK_SAMPLE_COUNT_64_BIT). */
  const MaxSampleCount := 64

  newtype Uint32 = x: int | 0 <= x < 0x1_0000_0000

  /** IShader*: 0 stands for nullptr. */
  newtype ShaderHandle = x: int | 0 <= x
  const NullShader: ShaderHandle := 0

  /** TEXTURE_FORMAT; 0 is TEX_FORMAT_UNKNOWN. */
  newtype TextureFormat = x: int | 0 <= x
  const TexFormatUnknown: TextureFormat := 0

  /** VkFormat */
  newtype VkFormat = x: int | 0 <= x

  // Engine descriptions that only the conversion helpers look into.
  type InputLayoutDesc
  /** Every rasterizer setting except ScissorEnable (fill mode, cull mode, depth bias, ...). */
  type RasterizerSettings
  type DepthStencilStateDesc
  type BlendStateDesc
  type PrimitiveTopology

  // The Vulkan structures those helpers fill in.
  type VertexInputState
  type RasterizationState
  type DepthStencilState
  /** The colour-blend state the blend helper fills in, with its per-attachment states. */
  type BlendState
  type VkPrimitiveTopology

  datatype Option<T> = None | Some(value: T)

  datatype PipelineError = ComputeShaderNotSet

  datatype Result<T> = Ok(value: T) | Err(error: PipelineError)

  datatype ShaderType = Vertex | Pixel | Geometry | Domain | Hull | Compute

  datatype SampleDesc = SampleDesc(count: nat, quality: nat)

  datatype RasterizerDesc = RasterizerDesc(scissorEnable: bool, settings: RasterizerSettings)

  datatype GraphicsPipelineDesc = GraphicsPipelineDesc(
    vs: ShaderHandle, ps: ShaderHandle, ds: ShaderHandle, hs: ShaderHandle, gs: ShaderHandle,
    blendDesc: BlendStateDesc,
    sampleMask: Uint32,
    rasterizerDesc: RasterizerDesc,
    depthStencilDesc: DepthStencilStateDesc,
    inputLayout: InputLayoutDesc,
    primitiveTopology: PrimitiveTopology,
    numViewports: nat,
    numRenderTargets: nat,
    rtvFormats: seq<TextureFormat>,
    dsvFormat: TextureFormat,
    smplDesc: SampleDesc)

  datatype ComputePipelineDesc = ComputePipelineDesc(cs: ShaderHandle)

  datatype PipelineStateDesc = PipelineStateDesc(
    name: string,
    isComputePipeline: bool,
    graphicsPipeline: GraphicsPipelineDesc,
    computePipeline: ComputePipelineDesc)

  /**
   * The conversion helpers, uninterpreted: texture format, input layout,
   * rasterizer, depth-stencil and blend state, and primitive topology (which
   * also yields the tessellation patch control-point count). The blend helper
   * is given the number of per-attachment states it fills in.
   */
  datatype Conversions = Conversions(
    texFormat: TextureFormat -> VkFormat,
    vertexInput: InputLayoutDesc -> VertexInputState,
    rasterization: RasterizerDesc -> RasterizationState,
    depthStencil: DepthStencilStateDesc -> DepthStencilState,
    blend: (BlendStateDesc, nat) -> BlendState,
    topology: PrimitiveTopology -> (VkPrimitiveTopology, nat))

  /** One format slot per possible render target, and at most that many render targets. */
  predicate RenderTargetsSupported(g: GraphicsPipelineDesc)
  {
    |g.rtvFormats| == MaxRenderTargets && g.numRenderTargets <= MaxRenderTargets
  }

  /**
   * What the graphics branch relies on without checking: the render-target
   * bounds, and a sample count Vulkan has a flag for.
   */
  predicate GraphicsDescSupported(g: GraphicsPipelineDesc)
  {
    RenderTargetsSupported(g) && IsValidSampleCount(g.smplDesc.count)
  }

  // ---------------------------------------------------------------------
  // The sample-count bit
  // ---------------------------------------------------------------------

  function Pow2(k: nat): (p: nat)
    ensures p >= 1
  {
    if k == 0 then 1 else 2 * Pow2(k - 1)
  }

  /** Floor of the base-2 logarithm. */
  function Log2(x: nat): nat
    requires x >= 1
  {
    if x == 1 then 0 else 1 + Log2(x / 2)
  }

  /** Exactly one bit of x is set. */
  predicate IsPowerOfTwo(x: nat)
  {
    x == 1 || (x >= 2 && x % 2 == 0 && IsPowerOfTwo(x / 2))
  }

  lemma {:induction false} Pow2IsSingleBit(k: nat)
    ensures IsPowerOfTwo(Pow2(k)) && Log2(Pow2(k)) == k
  {
    if k > 0 {
      Pow2IsSingleBit(k - 1);
      assert Pow2(k) / 2 == Pow2(k - 1);
    }
  }

  /** Every single-bit value is the power of two of its logarithm. */
  lemma {:induction false} SingleBitIsPow2(x: nat)
    requires IsPowerOfTwo(x)
    ensures Pow2(Log2(x)) == x
  {
    if x != 1 {
      SingleBitIsPow2(x / 2);
    }
  }

  lemma {:induction false} Pow2Monotone(j: nat, k: nat)
    requires j <= k
    ensures Pow2(j) <= Pow2(k)
  {
    if j < k {
      Pow2Monotone(j, k - 1);
    }
  }

  lemma {:induction false} Pow2Add(a: nat, b: nat)
    ensures Pow2(a + b) == Pow2(a) * Pow2(b)
  {
    if a > 0 {
      Pow2Add(a - 1, b);
      assert Pow2(a + b) == 2 * Pow2(a - 1 + b);
    }
  }

  /** A bit below the sign bit of a 32-bit int is a positive int. */
  lemma Pow2Below31(k: nat)
    requires k < 31
    ensures Pow2(k) < 0x8000_0000
  {
    Pow2Monotone(k, 30);
    assert Pow2(8) == 256 && Pow2(6) == 64;
    Pow2Add(8, 8);
    Pow2Add(16, 8);
    Pow2Add(24, 6);
  }

  /**
   * A VkSampleCountFlagBits value is a single bit, and bit k stands for
   * 2^k samples: the flag for n samples has the value n.
   */
  function SamplesOf(flag: Uint32): nat
    requires IsPowerOfTwo(flag as nat)
  {
    Pow2(Log2(flag as nat))
  }

  /** A sample count Vulkan has a flag for: a power of two up to 64. */
  predicate IsValidSampleCount(count: nat)
  {
    IsPowerOfTwo(count) && count <= MaxSampleCount
  }

  /**
   * The sample-count flag as the source computes it, `1 << (count - 1)`
   * (the shift of the int 1 is defined for counts 1 to 31): a single bit whose
   * position is count - 1, so it stands for 2^(count - 1) samples.
   */
  function SampleCountBitAsWritten(count: nat): (bit: Uint32)
    requires 1 <= count <= 31
    ensures IsPowerOfTwo(bit as nat) && Log2(bit as nat) + 1 == count
    ensures SamplesOf(bit) == Pow2(count - 1)
  {
    Pow2IsSingleBit(count - 1);
    Pow2Below31(count - 1);
    Pow2(count - 1) as Uint32
  }

  /** For four samples the shift yields the eight-sample flag. */
  lemma SampleCountBitAsWrittenMismatch()
    ensures SampleCountBitAsWritten(4) == 8 && SamplesOf(SampleCountBitAsWritten(4)) == 8
  {
    assert Pow2(3) == 8;
  }

  /**
   * The sample-count flag of a pipeline: the single bit that stands for
   * exactly `count` samples.
   */
  function SampleCountFlag(count: nat): (flag: Uint32)
    requires IsValidSampleCount(count)
    ensures IsPowerOfTwo(flag as nat) && SamplesOf(flag) == count
  {
    SingleBitIsPow2(count);
    count as Uint32
  }

  // ---------------------------------------------------------------------
  // The render pass
  // ---------------------------------------------------------------------

  datatype ImageLayout = UndefinedLayout | ColorAttachmentOptimal | DepthStencilAttachmentOptimal

  datatype LoadOp = Load | LoadDontCare

  datatype StoreOp = Store | StoreDontCare

  datatype AttachmentDescription = AttachmentDescription(
    format: VkFormat,
    samples: Uint32,
    loadOp: LoadOp,
    storeOp: StoreOp,
    stencilLoadOp: LoadOp,
    stencilStoreOp: StoreOp,
    initialLayout: ImageLayout,
    finalLayout: ImageLayout)

  datatype AttachmentReference = AttachmentReference(attachment: nat, layout: ImageLayout)

  /** The one graphics subpass; no input, resolve or preserve attachments. */
  datatype SubpassDescription = SubpassDescription(
    colorAttachmentCount: nat,
    colorAttachments: seq<AttachmentReference>,
    depthStencilAttachment: Option<AttachmentReference>)

  datatype RenderPassCreateInfo = RenderPassCreateInfo(
    attachmentCount: nat,
    attachments: seq<AttachmentDescription>,
    subpassCount: nat,
    subpass: SubpassDescription,
    dependencyCount: nat)

  /** A value-initialised attachment description (every field zero). */
  const ZeroAttachment := AttachmentDescription(0, 0, Load, Store, Load, Store, UndefinedLayout, UndefinedLayout)

  /** A value-initialised attachment reference. */
  const ZeroReference := AttachmentReference(0, UndefinedLayout)

  /** The depth-stencil attachment: depth and stencil both loaded and stored. */
  function DepthAttachment(format: VkFormat, samples: Uint32): AttachmentDescription
  {
    AttachmentDescription(format, samples, Load, Store, Load, Store,
                          DepthStencilAttachmentOptimal, DepthStencilAttachmentOptimal)
  }

  /** A colour attachment: colour loaded and stored, stencil ignored. */
  function ColorAttachment(format: VkFormat, samples: Uint32): AttachmentDescription
  {
    AttachmentDescription(format, samples, Load, Store, LoadDontCare, StoreDontCare,
                          ColorAttachmentOptimal, ColorAttachmentOptimal)
  }

  predicate HasDepth(g: GraphicsPipelineDesc)
  {
    g.dsvFormat != TexFormatUnknown
  }

  /** Index of the first colour attachment: the depth attachment, if any, comes first. */
  function DepthOffset(g: GraphicsPipelineDesc): nat
  {
    if HasDepth(g) then 1 else 0
  }

  /**
   * The render pass a graphics pipeline is created with, every attachment
   * sampled with the flag `samples`: the optional depth-stencil attachment at
   * index 0, then one colour attachment per render target; one subpass
   * referring to all of them. Every count agrees with its array.
   */
  function RenderPassLayout(g: GraphicsPipelineDesc, texFormat: TextureFormat -> VkFormat, samples: Uint32)
    : (ci: RenderPassCreateInfo)
    requires RenderTargetsSupported(g)
    ensures ci.attachmentCount == |ci.attachments|
    ensures ci.subpass.colorAttachmentCount == |ci.subpass.colorAttachments|
  {
    var n := g.numRenderTargets;
    var off := DepthOffset(g);
    RenderPassCreateInfo(
      off + n,
      seq(off + n, i requires 0 <= i < off + n =>
        if i < off then DepthAttachment(texFormat(g.dsvFormat), samples)
        else ColorAttachment(texFormat(g.rtvFormats[i - off]), samples)),
      1,
      SubpassDescription(
        n,
        seq(n, rt requires 0 <= rt < n => AttachmentReference(rt + off, ColorAttachmentOptimal)),
        if HasDepth(g) then Some(AttachmentReference(0, DepthStencilAttachmentOptimal)) else None),
      0)
  }

  /**
   * Builds the render pass create-info step by step: the attachment index
   * advances past the depth attachment, then past each colour attachment
   * while its reference is recorded. Every attachment gets the sample-count
   * flag for the description's count.
   */
  method CreateRenderPass(g: GraphicsPipelineDesc, texFormat: TextureFormat -> VkFormat)
    returns (ci: RenderPassCreateInfo)
    requires GraphicsDescSupported(g)
    ensures ci == RenderPassLayout(g, texFormat, SampleCountFlag(g.smplDesc.count))
  {
    var samples := SampleCountFlag(g.smplDesc.count);
    ghost var layout := RenderPassLayout(g, texFormat, samples);
    var n := g.numRenderTargets;
    var attachmentCount := (if g.dsvFormat != TexFormatUnknown then 1 else 0) + n;
    var attachments := new AttachmentDescription[attachmentCount](_ => ZeroAttachment);
    var attachmentInd := 0;
    var depthReference := ZeroReference;
    if g.dsvFormat != TexFormatUnknown {
      depthReference := AttachmentReference(attachmentInd, DepthStencilAttachmentOptimal);
      attachments[attachmentInd] := DepthAttachment(texFormat(g.dsvFormat), samples);
      attachmentInd := attachmentInd + 1;
    }
    var colorReferences := new AttachmentReference[n](_ => ZeroReference);
    for rt := 0 to n
      invariant attachmentInd == DepthOffset(g) + rt
      invariant forall i :: 0 <= i < attachmentInd ==> attachments[i] == layout.attachments[i]
      invariant forall k :: 0 <= k < rt ==> colorReferences[k] == layout.subpass.colorAttachments[k]
    {
      attachments[attachmentInd] := ColorAttachment(texFormat(g.rtvFormats[rt]), samples);
      colorReferences[rt] := AttachmentReference(attachmentInd, ColorAttachmentOptimal);
      attachmentInd := attachmentInd + 1;
    }
    var subpass := SubpassDescription(
      n, colorReferences[..],
      if g.dsvFormat != TexFormatUnknown then Some(depthReference) else None);
    ci := RenderPassCreateInfo(attachmentCount, attachments[..], 1, subpass, 0);
  }

  /** The attachment count is one for a known depth format plus one per render target. */
  lemma RenderPassAttachmentCount(g: GraphicsPipelineDesc, texFormat: TextureFormat -> VkFormat, samples: Uint32)
    requires RenderTargetsSupported(g)
    ensures var ci := RenderPassLayout(g, texFormat, samples);
      && ci.attachmentCount == (if g.dsvFormat != TexFormatUnknown then 1 else 0) + g.numRenderTargets
      && ci.subpassCount == 1 && ci.dependencyCount == 0
  {
  }

  /**
   * A depth-stencil reference exists exactly when the depth format is known;
   * it then refers to attachment 0, which is the depth attachment.
   */
  lemma DepthAttachmentFirst(g: GraphicsPipelineDesc, texFormat: TextureFormat -> VkFormat, samples: Uint32)
    requires RenderTargetsSupported(g)
    ensures var ci := RenderPassLayout(g, texFormat, samples);
      && (ci.subpass.depthStencilAttachment.Some? <==> g.dsvFormat != TexFormatUnknown)
      && (g.dsvFormat != TexFormatUnknown ==>
            && ci.subpass.depthStencilAttachment.value == AttachmentReference(0, DepthStencilAttachmentOptimal)
            && ci.attachments[0] == DepthAttachment(texFormat(g.dsvFormat), samples))
  {
  }

  /**
   * Colour reference `rt` refers to attachment `rt` plus the depth offset,
   * which describes render target `rt`'s format.
   */
  lemma ColorAttachmentReference(g: GraphicsPipelineDesc, texFormat: TextureFormat -> VkFormat, samples: Uint32, rt: nat)
    requires RenderTargetsSupported(g) && rt < g.numRenderTargets
    ensures var ci := RenderPassLayout(g, texFormat, samples);
      && rt < |ci.subpass.colorAttachments|
      && ci.subpass.colorAttachments[rt] == AttachmentReference(rt + DepthOffset(g), ColorAttachmentOptimal)
      && rt + DepthOffset(g) < |ci.attachments|
      && ci.attachments[rt + DepthOffset(g)] == ColorAttachment(texFormat(g.rtvFormats[rt]), samples)
  {
  }

  /** The attachment indices the subpass refers to: the depth reference first, then the colour references. */
  function ReferencedAttachments(subpass: SubpassDescription): seq<nat>
  {
    (if subpass.depthStencilAttachment.Some? then [subpass.depthStencilAttachment.value.attachment] else [])
    + seq(|subpass.colorAttachments|, k requires 0 <= k < |subpass.colorAttachments| => subpass.colorAttachments[k].attachment)
  }

  /**
   * Taken in order, the references point to attachments 0, 1, 2, ...: they are
   * distinct, in bounds, and every attachment is referred to exactly once.
   */
  lemma {:induction false} ReferencesCoverAttachments(g: GraphicsPipelineDesc, texFormat: TextureFormat -> VkFormat,
                                                      samples: Uint32)
    requires RenderTargetsSupported(g)
    ensures var ci := RenderPassLayout(g, texFormat, samples);
      var refs := ReferencedAttachments(ci.subpass);
      && |refs| == ci.attachmentCount
      && (forall i :: 0 <= i < |refs| ==> refs[i] == i)
      && (forall i, j :: 0 <= i < j < |refs| ==> refs[i] != refs[j])
      && (forall a :: 0 <= a < ci.attachmentCount ==> a in refs)
  {
    var ci := RenderPassLayout(g, texFormat, samples);
    var refs := ReferencedAttachments(ci.subpass);
    var off := DepthOffset(g);
    forall i | 0 <= i < |refs|
      ensures refs[i] == i
    {
      if i >= off {
        assert refs[i] == ci.subpass.colorAttachments[i - off].attachment;
      }
    }
    forall a | 0 <= a < ci.attachmentCount
      ensures a in refs
    {
      assert refs[a] == a;
    }
  }

  /** Every attachment, depth or colour, uses the one sample-count flag. */
  lemma RenderPassSampleCount(g: GraphicsPipelineDesc, texFormat: TextureFormat -> VkFormat, samples: Uint32)
    requires RenderTargetsSupported(g)
    ensures var ci := RenderPassLayout(g, texFormat, samples);
      forall i :: 0 <= i < |ci.attachments| ==> ci.attachments[i].samples == samples
  {
    var ci := RenderPassLayout(g, texFormat, samples);
    var off := DepthOffset(g);
    forall i | 0 <= i < |ci.attachments|
      ensures ci.attachments[i].samples == samples
    {
      if i < off {
        assert ci.attachments[i] == DepthAttachment(texFormat(g.dsvFormat), samples);
      } else {
        assert ci.attachments[i] == ColorAttachment(texFormat(g.rtvFormats[i - off]), samples);
      }
    }
  }

  // ---------------------------------------------------------------------
  // The graphics pipeline
  // ---------------------------------------------------------------------

  /**
   * A pipeline shader-stage create-info as the source leaves it: the stage
   * vector is sized but its entries are never filled in.
   */
  datatype ShaderStageCreateInfo = ValueInitialisedStage

  datatype InputAssemblyState = InputAssemblyState(topology: VkPrimitiveTopology, primitiveRestartEnable: bool)

  datatype TessellationState = TessellationState(patchControlPoints: nat)

  datatype Rect2D = Rect2D(offsetX: int, offsetY: int, width: Uint32, height: Uint32)

  /** Viewports are always dynamic (no viewport array); `scissors` is None for a null scissor array. */
  datatype ViewportState = ViewportState(viewportCount: nat, scissorCount: nat, scissors: Option<seq<Rect2D>>)

  datatype MultisampleState = MultisampleState(
    rasterizationSamples: Uint32,
    sampleShadingEnable: bool,
    sampleMask: seq<Uint32>,
    alphaToCoverageEnable: bool,
    alphaToOneEnable: bool)

  datatype ColorBlendState = ColorBlendState(attachmentCount: nat, converted: BlendState)

  datatype DynamicState = Viewport | Scissor | BlendConstants | StencilReference

  datatype DynamicStateInfo = DynamicStateInfo(dynamicStateCount: nat, dynamicStates: seq<DynamicState>)

  datatype GraphicsPipelineCreateInfo = GraphicsPipelineCreateInfo(
    stageCount: nat,
    stages: seq<ShaderStageCreateInfo>,
    vertexInput: VertexInputState,
    inputAssembly: InputAssemblyState,
    tessellation: TessellationState,
    viewport: ViewportState,
    rasterization: RasterizationState,
    multisample: MultisampleState,
    depthStencil: DepthStencilState,
    colorBlend: ColorBlendState,
    dynamicState: DynamicStateInfo,
    subpass: nat)

  datatype ComputePipelineCreateInfo = ComputePipelineCreateInfo(stage: ShaderType, basePipelineIndex: nat)

  datatype PipelineCreateInfo =
    | ComputeInfo(compute: ComputePipelineCreateInfo)
    | GraphicsInfo(renderPass: RenderPassCreateInfo, pipeline: GraphicsPipelineCreateInfo)

  /** One for a shader that is set, zero for a null one. */
  function ShaderCount(shader: ShaderHandle): nat
  {
    if shader != NullShader then 1 else 0
  }

  /** The number of non-null shaders among VS, PS, HS, DS and GS. */
  function StageCount(g: GraphicsPipelineDesc): (count: nat)
    ensures count <= 5
  {
    ShaderCount(g.vs) + ShaderCount(g.ps) + ShaderCount(g.hs) + ShaderCount(g.ds) + ShaderCount(g.gs)
  }

  /** `stages` with `stage` added when `shader` is set. */
  function AddIfSet(stages: set<ShaderType>, stage: ShaderType, shader: ShaderHandle): set<ShaderType>
  {
    if shader != NullShader then stages + {stage} else stages
  }

  /** The shader types a graphics description supplies a shader for. */
  function PresentStages(g: GraphicsPipelineDesc): set<ShaderType>
  {
    var withVs := AddIfSet({}, Vertex, g.vs);
    var withPs := AddIfSet(withVs, Pixel, g.ps);
    var withHs := AddIfSet(withPs, Hull, g.hs);
    var withDs := AddIfSet(withHs, Domain, g.ds);
    AddIfSet(withDs, Geometry, g.gs)
  }

  lemma AddIfSetCount(stages: set<ShaderType>, stage: ShaderType, shader: ShaderHandle)
    requires stage !in stages
    ensures |AddIfSet(stages, stage, shader)| == |stages| + ShaderCount(shader)
    ensures AddIfSet(stages, stage, shader) <= stages + {stage}
  {
  }

  /** The stage count is the number of shader types present, never counting the compute stage. */
  lemma {:induction false} StageCountIsPresentStages(g: GraphicsPipelineDesc)
    ensures StageCount(g) == |PresentStages(g)|
    ensures Compute !in PresentStages(g)
  {
    var withVs := AddIfSet({}, Vertex, g.vs);
    AddIfSetCount({}, Vertex, g.vs);
    var withPs := AddIfSet(withVs, Pixel, g.ps);
    AddIfSetCount(withVs, Pixel, g.ps);
    var withHs := AddIfSet(withPs, Hull, g.hs);
    AddIfSetCount(withPs, Hull, g.hs);
    var withDs := AddIfSet(withHs, Domain, g.ds);
    AddIfSetCount(withHs, Domain, g.ds);
    AddIfSetCount(withDs, Geometry, g.gs);
  }

  /**
   * The dynamic states of a graphics pipeline: viewport, blend constants and
   * stencil reference always, scissor exactly when scissor testing is enabled.
   */
  function DynamicStatesFor(scissorEnable: bool): (states: seq<DynamicState>)
    ensures Viewport in states && BlendConstants in states && StencilReference in states
    ensures Scissor in states <==> scissorEnable
    ensures forall i, j :: 0 <= i < j < |states| ==> states[i] != states[j]
  {
    [Viewport, BlendConstants, StencilReference] + (if scissorEnable then [Scissor] else [])
  }

  /** The scissor rectangle used when scissor testing is off: the largest viewport the device supports. */
  function FullScissor(maxViewportDimensions: (Uint32, Uint32)): Rect2D
  {
    Rect2D(0, 0, maxViewportDimensions.0, maxViewportDimensions.1)
  }

  /**
   * The viewport state as the source builds it: as many scissors as viewports,
   * but the static scissor array holds a single rectangle whatever that count.
   */
  function ViewportStateAsWritten(numViewports: nat, scissorEnable: bool, maxViewportDimensions: (Uint32, Uint32))
    : (vs: ViewportState)
    ensures vs.viewportCount == numViewports && vs.scissorCount == vs.viewportCount
    ensures vs.scissors.None? <==> scissorEnable
    ensures vs.scissors.Some? ==> vs.scissors.value == [FullScissor(maxViewportDimensions)]
  {
    ViewportState(numViewports, numViewports,
                  if scissorEnable then None else Some([FullScissor(maxViewportDimensions)]))
  }

  /** With two viewports and scissor testing off, the static scissor array is shorter than scissorCount. */
  lemma ScissorArrayTooShortAsWritten()
    ensures var vs := ViewportStateAsWritten(2, false, (16384, 16384));
      vs.scissors.Some? && |vs.scissors.value| < vs.scissorCount
  {
  }

  /**
   * The viewport state the pipeline uses: as many scissors as viewports, and
   * when the scissors are static, one full rectangle for each of them.
   */
  function ViewportStateFor(numViewports: nat, scissorEnable: bool, maxViewportDimensions: (Uint32, Uint32))
    : (vs: ViewportState)
    ensures vs.viewportCount == numViewports && vs.scissorCount == vs.viewportCount
    ensures vs.scissors.None? <==> scissorEnable
    ensures vs.scissors.Some? ==> |vs.scissors.value| == vs.scissorCount
    ensures vs.scissors.Some? ==> forall r :: r in vs.scissors.value ==> r == FullScissor(maxViewportDimensions)
  {
    ViewportState(numViewports, numViewports,
                  if scissorEnable then None else Some(seq(numViewports, _ => FullScissor(maxViewportDimensions))))
  }

  /** A viewport state declaring the description's viewports and as many scissors. */
  predicate DeclaresViewports(viewport: ViewportState, g: GraphicsPipelineDesc)
  {
    viewport.viewportCount == g.numViewports && viewport.scissorCount == g.numViewports
  }

  /**
   * The graphics pipeline create-info, rasterizing with the sample-count flag
   * `samples` and using the viewport state `viewport`: one stage entry per
   * present shader, the converted input layout, topology, rasterizer and
   * depth-stencil state, the sample mask, one blend attachment per render
   * target, and the dynamic states; it is used in subpass 0. Every count
   * agrees with its array, and there are as many scissors as viewports.
   */
  function GraphicsPipelineLayout(g: GraphicsPipelineDesc, conv: Conversions, samples: Uint32,
                                  viewport: ViewportState): (ci: GraphicsPipelineCreateInfo)
    requires DeclaresViewports(viewport, g)
    ensures ci.stageCount == |ci.stages|
    ensures ci.dynamicState.dynamicStateCount == |ci.dynamicState.dynamicStates|
    ensures ci.viewport.viewportCount == g.numViewports
    ensures ci.viewport.scissorCount == ci.viewport.viewportCount
  {
    var topology := conv.topology(g.primitiveTopology);
    var states := DynamicStatesFor(g.rasterizerDesc.scissorEnable);
    GraphicsPipelineCreateInfo(
      StageCount(g),
      seq(StageCount(g), _ => ValueInitialisedStage),
      conv.vertexInput(g.inputLayout),
      InputAssemblyState(topology.0, false),
      TessellationState(topology.1),
      viewport,
      conv.rasterization(g.rasterizerDesc),
      MultisampleState(samples, false, [g.sampleMask, 0], false, false),
      conv.depthStencil(g.depthStencilDesc),
      ColorBlendState(g.numRenderTargets, conv.blend(g.blendDesc, g.numRenderTargets)),
      DynamicStateInfo(|states|, states),
      0)
  }

  /**
   * Builds the graphics pipeline create-info field by field, appending the
   * scissor dynamic state to the fixed three when scissor testing is on, and
   * rasterizing with the sample-count flag for the description's count.
   */
  method BuildGraphicsPipeline(g: GraphicsPipelineDesc, conv: Conversions, maxViewportDimensions: (Uint32, Uint32))
    returns (ci: GraphicsPipelineCreateInfo)
    requires GraphicsDescSupported(g)
    ensures ci == GraphicsPipelineLayout(g, conv, SampleCountFlag(g.smplDesc.count),
                                         ViewportStateFor(g.numViewports, g.rasterizerDesc.scissorEnable, maxViewportDimensions))
    ensures ci.stageCount == |ci.stages| == |PresentStages(g)|
    ensures var states := ci.dynamicState.dynamicStates;
      && ci.dynamicState.dynamicStateCount == |states|
      && Viewport in states && BlendConstants in states && StencilReference in states
      && (Scissor in states <==> g.rasterizerDesc.scissorEnable)
    ensures ci.viewport.viewportCount == ci.viewport.scissorCount == g.numViewports
    ensures ci.viewport.scissors.Some? ==> |ci.viewport.scissors.value| == ci.viewport.scissorCount
    ensures IsPowerOfTwo(ci.multisample.rasterizationSamples as nat)
    ensures SamplesOf(ci.multisample.rasterizationSamples) == g.smplDesc.count
    ensures ci.colorBlend.attachmentCount == g.numRenderTargets
  {
    StageCountIsPresentStages(g);
    var stageCount := StageCount(g);
    var stages := seq(stageCount, _ => ValueInitialisedStage);
    var topology := conv.topology(g.primitiveTopology);
    var viewportState := ViewportStateFor(g.numViewports, g.rasterizerDesc.scissorEnable, maxViewportDimensions);
    var multisample := MultisampleState(SampleCountFlag(g.smplDesc.count), false, [g.sampleMask, 0], false, false);
    var colorBlend := ColorBlendState(g.numRenderTargets, conv.blend(g.blendDesc, g.numRenderTargets));
    var dynamicStates := [Viewport, BlendConstants, StencilReference];
    if g.rasterizerDesc.scissorEnable {
      dynamicStates := dynamicStates + [Scissor];
    }
    ci := GraphicsPipelineCreateInfo(
      stageCount, stages,
      conv.vertexInput(g.inputLayout),
      InputAssemblyState(topology.0, false),
      TessellationState(topology.1),
      viewportState,
      conv.rasterization(g.rasterizerDesc),
      multisample,
      conv.depthStencil(g.depthStencilDesc),
      colorBlend,
      DynamicStateInfo(|dynamicStates|, dynamicStates),
      0);
  }

  /**
   * With the corrected viewport state and any sample flag, the stage vector
   * has one entry per present shader, the pipeline declares as many scissors
   * as viewports, and a static scissor array has one rectangle per declared
   * scissor.
   */
  lemma GraphicsPipelineCounts(g: GraphicsPipelineDesc, conv: Conversions, samples: Uint32,
                               maxViewportDimensions: (Uint32, Uint32))
    ensures var ci := GraphicsPipelineLayout(g, conv, samples,
                                             ViewportStateFor(g.numViewports, g.rasterizerDesc.scissorEnable, maxViewportDimensions));
      ci.stageCount == |PresentStages(g)|
    ensures var ci := GraphicsPipelineLayout(g, conv, samples,
                                             ViewportStateFor(g.numViewports, g.rasterizerDesc.scissorEnable, maxViewportDimensions));
      ci.viewport.viewportCount == g.numViewports
    ensures var ci := GraphicsPipelineLayout(g, conv, samples,
                                             ViewportStateFor(g.numViewports, g.rasterizerDesc.scissorEnable, maxViewportDimensions));
      ci.viewport.scissors.Some? ==> |ci.viewport.scissors.value| == ci.viewport.scissorCount
  {
    StageCountIsPresentStages(g);
  }

  /**
   * The render pass and the pipeline agree when built with the same flag: the
   * subpass has as many colour references as the blend state has attachments
   * (one per render target), and every attachment is sampled as often as the
   * rasterizer.
   */
  lemma RenderPassMatchesPipeline(g: GraphicsPipelineDesc, conv: Conversions, samples: Uint32,
                                  viewport: ViewportState)
    requires RenderTargetsSupported(g) && DeclaresViewports(viewport, g)
    ensures var rp := RenderPassLayout(g, conv.texFormat, samples);
      var ci := GraphicsPipelineLayout(g, conv, samples, viewport);
      && rp.subpass.colorAttachmentCount == g.numRenderTargets
      && ci.colorBlend.attachmentCount == rp.subpass.colorAttachmentCount
      && forall i :: 0 <= i < |rp.attachments| ==> rp.attachments[i].samples == ci.multisample.rasterizationSamples
  {
    RenderPassSampleCount(g, conv.texFormat, samples);
  }

  /**
   * The graphics pipeline exactly as the source builds it: the shifted
   * sample-count flag and the single static scissor rectangle. Its stage and
   * viewport counts are right, but it rasterizes with 2^(count - 1) samples,
   * and a static scissor array holds one rectangle whatever the viewport count.
   */
  function GraphicsPipelineAsWritten(g: GraphicsPipelineDesc, conv: Conversions,
                                     maxViewportDimensions: (Uint32, Uint32)): (ci: GraphicsPipelineCreateInfo)
    requires 1 <= g.smplDesc.count <= 31
    ensures ci.stageCount == |PresentStages(g)|
    ensures ci.viewport.viewportCount == ci.viewport.scissorCount == g.numViewports
    ensures IsPowerOfTwo(ci.multisample.rasterizationSamples as nat)
    ensures SamplesOf(ci.multisample.rasterizationSamples) == Pow2(g.smplDesc.count - 1)
    ensures ci.viewport.scissors.None? <==> g.rasterizerDesc.scissorEnable
    ensures ci.viewport.scissors.Some? ==> ci.viewport.scissors.value == [FullScissor(maxViewportDimensions)]
    ensures ci.colorBlend.attachmentCount == g.numRenderTargets
  {
    StageCountIsPresentStages(g);
    GraphicsPipelineLayout(g, conv, SampleCountBitAsWritten(g.smplDesc.count),
                           ViewportStateAsWritten(g.numViewports, g.rasterizerDesc.scissorEnable, maxViewportDimensions))
  }

  /**
   * The source's pipeline declares more scissors than its static array holds
   * whenever scissor testing is off and there are two or more viewports.
   */
  lemma AsWrittenScissorsTooShort(g: GraphicsPipelineDesc, conv: Conversions, maxViewportDimensions: (Uint32, Uint32))
    requires 1 <= g.smplDesc.count <= 31
    requires !g.rasterizerDesc.scissorEnable && g.numViewports >= 2
    ensures var ci := GraphicsPipelineAsWritten(g, conv, maxViewportDimensions);
      ci.viewport.scissors.Some? && |ci.viewport.scissors.value| < ci.viewport.scissorCount
  {
  }

  /**
   * With the flag as the source computes it, the render pass and the
   * rasterizer of the source's pipeline still agree on the sample count,
   * which is 2^(count - 1).
   */
  lemma AsWrittenSampleFlagShared(g: GraphicsPipelineDesc, conv: Conversions, maxViewportDimensions: (Uint32, Uint32))
    requires RenderTargetsSupported(g) && 1 <= g.smplDesc.count <= 31
    ensures var flag := SampleCountBitAsWritten(g.smplDesc.count);
      var rp := RenderPassLayout(g, conv.texFormat, flag);
      var ci := GraphicsPipelineAsWritten(g, conv, maxViewportDimensions);
      && SamplesOf(ci.multisample.rasterizationSamples) == Pow2(g.smplDesc.count - 1)
      && forall i :: 0 <= i < |rp.attachments| ==> rp.attachments[i].samples == ci.multisample.rasterizationSamples
  {
    RenderPassMatchesPipeline(g, conv, SampleCountBitAsWritten(g.smplDesc.count),
                              ViewportStateAsWritten(g.numViewports, g.rasterizerDesc.scissorEnable, maxViewportDimensions));
  }

  /**
   * The create-info of a pipeline state: a compute description without a
   * compute shader is rejected; any other compute description gets a compute
   * stage; a graphics description gets its render pass and pipeline, both
   * with the corrected sample-count flag and the pipeline with the corrected
   * viewport state.
   */
  function CreateInfoFor(desc: PipelineStateDesc, conv: Conversions, maxViewportDimensions: (Uint32, Uint32))
    : (r: Result<PipelineCreateInfo>)
    requires !desc.isComputePipeline ==> GraphicsDescSupported(desc.graphicsPipeline)
    ensures r.Err? <==> desc.isComputePipeline && desc.computePipeline.cs == NullShader
    ensures r.Err? ==> r.error == ComputeShaderNotSet
    ensures r.Ok? ==> (r.value.ComputeInfo? <==> desc.isComputePipeline)
    ensures r.Ok? && r.value.ComputeInfo? ==> r.value.compute.stage == Compute
    ensures r.Ok? && r.value.GraphicsInfo? ==>
      var ci := r.value.pipeline;
      && IsPowerOfTwo(ci.multisample.rasterizationSamples as nat)
      && SamplesOf(ci.multisample.rasterizationSamples) == desc.graphicsPipeline.smplDesc.count
      && (forall i :: 0 <= i < |r.value.renderPass.attachments| ==>
            r.value.renderPass.attachments[i].samples == ci.multisample.rasterizationSamples)
      && ci.viewport.scissorCount == desc.graphicsPipeline.numViewports
      && (ci.viewport.scissors.Some? ==> |ci.viewport.scissors.value| == ci.viewport.scissorCount)
  {
    if desc.isComputePipeline then
      if desc.computePipeline.cs == NullShader then Err(ComputeShaderNotSet)
      else Ok(ComputeInfo(ComputePipelineCreateInfo(Compute, 0)))
    else
      var g := desc.graphicsPipeline;
      var samples := SampleCountFlag(g.smplDesc.count);
      var viewport := ViewportStateFor(g.numViewports, g.rasterizerDesc.scissorEnable, maxViewportDimensions);
      RenderPassMatchesPipeline(g, conv, samples, viewport);
      Ok(GraphicsInfo(RenderPassLayout(g, conv.texFormat, samples), GraphicsPipelineLayout(g, conv, samples, viewport)))
  }

  /** A Vulkan pipeline state object: its description and the create-info built from it. */
  class PipelineStateVk {
    const desc: PipelineStateDesc
    const createInfo: PipelineCreateInfo

    constructor (desc: PipelineStateDesc, createInfo: PipelineCreateInfo)
      ensures this.desc == desc && this.createInfo == createInfo
    {
      this.desc := desc;
      this.createInfo := createInfo;
    }

    /**
     * Creates a pipeline state from a description, building the render pass
     * first for a graphics pipeline. A compute description without a compute
     * shader is an error.
     */
    static method Create(desc: PipelineStateDesc, conv: Conversions, maxViewportDimensions: (Uint32, Uint32))
      returns (r: Result<PipelineStateVk>)
      requires !desc.isComputePipeline ==> GraphicsDescSupported(desc.graphicsPipeline)
      ensures r.Err? <==> desc.isComputePipeline && desc.computePipeline.cs == NullShader
      ensures r.Err? ==> r.error == ComputeShaderNotSet
      ensures r.Ok? ==> fresh(r.value) && r.value.desc == desc
      ensures r.Ok? ==> Ok(r.value.createInfo) == CreateInfoFor(desc, conv, maxViewportDimensions)
    {
      var info: PipelineCreateInfo;
      if desc.isComputePipeline {
        if desc.computePipeline.cs == NullShader {
          return Err(ComputeShaderNotSet);
        }
        info := ComputeInfo(ComputePipelineCreateInfo(Compute, 0));
      } else {
        var renderPass := CreateRenderPass(desc.graphicsPipeline, conv.texFormat);
        var pipeline := BuildGraphicsPipeline(desc.graphicsPipeline, conv, maxViewportDimensions);
        info := GraphicsInfo(renderPass, pipeline);
      }
      var pso := new PipelineStateVk(desc, info);
      r := Ok(pso);
    }

    /**
     * Whether shader resource bindings of `other` can be used with this
     * pipeline. A pipeline state is always compatible with itself. The
     * resource-layout comparison that would decide the other cases is compiled
     * out, so every other pipeline state is compatible too; the second
     * postcondition states that, and it implies the first.
     */
    function IsCompatibleWith(other: PipelineStateVk): (compatible: bool)
      ensures other == this ==> compatible
      ensures compatible
    {
      true
    }
  }
}
