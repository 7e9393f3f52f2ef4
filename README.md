# DiligentCore: committed-state cache and Vulkan pipeline-state layout

This project models two parts of the DiligentCore graphics abstraction layer in Dafny and proves properties of them.

**The Direct3D11 committed-state cache** (`d3d11_context.dfy`, module `D3D11Context`). A device context mirrors what is currently bound to the native `ID3D11DeviceContext`:
- per-shader-stage tables of constant buffers, shader resource views, samplers and unordered access views, with their counts;
- the resources the views were created from;
- the vertex buffers with their strides and offsets;
- the index buffer, input layout, topology, shaders and render targets.

The model keeps these as arrays owned by a `DeviceContext` class. The operations are:
- the unbind protocol, which removes a resource from every slot that refers to it before the resource is reused or destroyed;
- the per-frame release of the shader-resource caches;
- the reset of the whole cache.

Each operation is proved to keep the cache invariant. It is also proved to change exactly the slots it should:
- a view and its resource are null together;
- nothing above a count is bound;
- a slot that held the resource is cleared, and every other slot is left as it was;
- each cleared vertex or index binding marks that mirror stale.

**The Vulkan pipeline state** (`vk_pipeline_state.dfy`, module `VkPipelineState`). This part covers the create-info records a pipeline state object builds from its backend-neutral description:
- the render pass, with an optional depth-stencil attachment at index 0 followed by one colour attachment per render target, and one subpass referring to all of them;
- the graphics pipeline: stage count, viewport and scissor counts, multisample state, colour-blend attachment count and dynamic states;
- the compute branch, which is rejected when no compute shader is set.

The render pass and the graphics pipeline are each built by a method that follows the source's step-by-step construction. Each method is proved equal to a declarative layout function. The layout functions take the sample-count flag, and the pipeline also takes its viewport state, as parameters. `GraphicsPipelineAsWritten` instantiates them with the source's own shifted flag and single scissor rectangle. The builders, and the create-info a pipeline state records, use the corrected flag and scissor array described under "## Findings": the flag that stands for the requested sample count, and one static scissor rectangle per viewport. The properties are lemmas about the layout functions:
- the attachment count;
- the depth attachment comes first;
- every reference points where it should, the references are distinct and cover every attachment;
- every attachment and the rasterizer use one sample-count flag;
- the blend and subpass colour counts agree;
- the stage count is the number of present shaders.

Native object pointers are modelled by their identity, with 0 standing for nullptr. The helpers that convert engine descriptions into Vulkan structures are uninterpreted functions passed in as a `Conversions` record. The device's maximum viewport dimensions are a parameter.

## Model

| member | source | states |
|---|---|---|
| D3D11Context.ViewTable.Unbind | Graphics/GraphicsEngineD3D11/include/DeviceContextD3D11Impl.h:120-128 | For every stage and every committed slot: a slot whose resource is the given one gets a null view and a null resource; every other slot, and every slot above the count, is unchanged. Afterwards no slot refers to a non-null resource. The per-stage counts are not changed. The table invariant is kept. |
| D3D11Context.ViewTable.Release | Graphics/GraphicsEngineD3D11/include/DeviceContextD3D11Impl.h:165-193 | Every view and resource slot of every stage becomes null and every count becomes zero; the table invariant (views and resources null together, nothing above a count) is kept. |
| D3D11Context.SlotTable.Release | Graphics/GraphicsEngineD3D11/include/DeviceContextD3D11Impl.h:160-173 | Every constant-buffer or sampler slot of every stage becomes null and every count zero, keeping the table invariant. |
| D3D11Context.DeviceContext.constructor | Graphics/GraphicsEngineD3D11/include/DeviceContextD3D11Impl.h:160-228 | A new context satisfies the cache invariant with nothing recorded as committed: counts zero, all slots null, buffers not up to date, topology undefined. Every table and array it records is newly allocated, so it is the context's own and shared with no other context. |
| D3D11Context.UnbindInNewContext | Graphics/GraphicsEngineD3D11/include/DeviceContextD3D11Impl.h:160-228 | A context created beside an existing one can be changed on its own. Unbinding a resource from the new context clears it there, and every field, table and array of the other context is as it was, so its invariant still holds. |
| D3D11Context.DeviceContext.UnbindTextureFromInput | Graphics/GraphicsEngineD3D11/include/DeviceContextD3D11Impl.h:130-133 | Every SRV slot of every stage that views the resource is cleared and no other slot changes. Afterwards no SRV slot refers to it. A null resource changes nothing. The cache invariant is kept. |
| D3D11Context.DeviceContext.UnbindBufferFromInput | Graphics/GraphicsEngineD3D11/include/DeviceContextD3D11Impl.h:135-139 | For a non-null buffer, each of these is cleared, and afterwards no SRV or vertex slot refers to the buffer: every SRV slot viewing it; the index buffer, with its format, offset and up-to-date flag, if it is that buffer; every vertex-buffer slot holding it, with its stride and offset. The vertex buffers stay up to date only if no slot held it. Nothing else changes. A null buffer changes nothing. |
| D3D11Context.DeviceContext.UnbindFromInputAssembler | Graphics/GraphicsEngineD3D11/include/DeviceContextD3D11Impl.h:195-222 | The index-buffer state is reset exactly when it held the buffer; each vertex slot holding the buffer is zeroed with its stride and offset while others are kept; the up-to-date flag falls exactly when some slot held it. |
| D3D11Context.DeviceContext.UnbindResourceFromUAV | Graphics/GraphicsEngineD3D11/include/DeviceContextD3D11Impl.h:141-144 | Every UAV slot of every stage that views the resource is cleared, no other changes, afterwards no UAV slot refers to it; a null resource changes nothing. |
| D3D11Context.DeviceContext.UnbindTextureFromRenderTarget | Graphics/GraphicsEngineD3D11/include/DeviceContextD3D11Impl.h:146-147 | For a non-null texture, each bound colour target whose view belongs to the texture becomes null and the others stay, and afterwards no colour target belongs to it. The result says whether the set changed, which is exactly when some target belonged to the texture. A null texture changes nothing and needs no recommit. |
| D3D11Context.DeviceContext.UnbindTextureFromDepthStencil | Graphics/GraphicsEngineD3D11/include/DeviceContextD3D11Impl.h:149-150 | For a non-null texture, the depth-stencil target is released exactly when its view belongs to the texture, which is also when the result is true. Otherwise it is kept. A null texture changes nothing. |
| D3D11Context.DeviceContext.ReleaseCommittedShaderResources | Graphics/GraphicsEngineD3D11/include/DeviceContextD3D11Impl.h:101-107 | The CB, SRV, sampler and UAV caches become empty. The vertex buffers, index buffer, input layout, shaders, topology and render targets are untouched. The cache invariant is kept. |
| D3D11Context.DeviceContext.ClearStateCache | Graphics/GraphicsEngineD3D11/include/DeviceContextD3D11Impl.h:156 | Afterwards nothing is recorded as committed, and the cache invariant holds. |
| D3D11Context.DeviceContext.ResetInputAssembler | Graphics/GraphicsEngineD3D11/include/DeviceContextD3D11Impl.h:195-225 | Vertex buffers, strides and offsets zeroed, count zero, input layout and index buffer null, format undefined, both up-to-date flags false, both topologies undefined. |
| D3D11Context.DeviceContext.ResetPipeline | Graphics/GraphicsEngineD3D11/include/DeviceContextD3D11Impl.h:227-228 | Every committed shader and every colour target null, the render-target count zero, no depth-stencil target. |
| VkPipelineState.SampleCountBitAsWritten | Graphics/GraphicsEngineVulkan/src/PipelineStateVkImpl.cpp:68 | The shifted value has exactly one bit set, at position count - 1. As a Vulkan sample-count flag it therefore stands for 2^(count - 1) samples. |
| VkPipelineState.SampleCountBitAsWrittenMismatch | Graphics/GraphicsEngineVulkan/src/PipelineStateVkImpl.cpp:68 | For a count of four the shift gives 8, the flag for eight samples. |
| VkPipelineState.SampleCountFlag | Graphics/GraphicsEngineVulkan/src/PipelineStateVkImpl.cpp:68 | For a valid sample count, the flag has a single bit set and stands for exactly that many samples. |
| VkPipelineState.RenderPassLayout | Graphics/GraphicsEngineVulkan/src/PipelineStateVkImpl.cpp:57-134 | The declarative render pass for a given sample flag: the depth attachment first when the depth format is known, then one colour attachment per render target, and a single subpass. The attachment count equals the number of descriptions, and the colour-attachment count equals the number of colour references. |
| VkPipelineState.CreateRenderPass | Graphics/GraphicsEngineVulkan/src/PipelineStateVkImpl.cpp:57-134 | The step-by-step construction produces exactly the render-pass layout with the corrected sample-count flag for the description's count, in place of line 68's shift. The attachment index runs past the optional depth attachment, then past one colour attachment per render target, recording each reference. |
| VkPipelineState.RenderPassAttachmentCount | Graphics/GraphicsEngineVulkan/src/PipelineStateVkImpl.cpp:65-66 | The attachment count is one for a known depth format plus the number of render targets, and equals the number of attachment descriptions. There is one subpass and no dependencies. |
| VkPipelineState.DepthAttachmentFirst | Graphics/GraphicsEngineVulkan/src/PipelineStateVkImpl.cpp:69-91 | The subpass has a depth-stencil reference exactly when the depth format is known. That reference is attachment 0 in depth-stencil-optimal layout. Attachment 0 is then the depth attachment: converted depth format, the flag, depth and stencil both loaded and stored, depth-stencil-optimal layouts. |
| VkPipelineState.ColorAttachmentReference | Graphics/GraphicsEngineVulkan/src/PipelineStateVkImpl.cpp:92-113 | Colour reference rt refers to attachment rt plus the depth offset, in colour-optimal layout. That attachment describes render target rt: converted format, the flag, colour loaded and stored, stencil don't-care, colour-optimal layouts. |
| VkPipelineState.ReferencesCoverAttachments | Graphics/GraphicsEngineVulkan/src/PipelineStateVkImpl.cpp:65-132 | Taken in order (depth first, then colours), the references point to attachments 0, 1, 2, ... Hence they are distinct and in bounds, there are as many as attachments, and every attachment is referred to. |
| VkPipelineState.RenderPassSampleCount | Graphics/GraphicsEngineVulkan/src/PipelineStateVkImpl.cpp:78-102 | Every attachment, depth or colour, uses the one sample-count flag the layout is given. |
| VkPipelineState.StageCount | Graphics/GraphicsEngineVulkan/src/PipelineStateVkImpl.cpp:224-228 | The stage count is at most five, one for each graphics shader slot; StageCountIsPresentStages ties it to the shaders present. |
| VkPipelineState.StageCountIsPresentStages | Graphics/GraphicsEngineVulkan/src/PipelineStateVkImpl.cpp:224-228 | The stage count equals the number of distinct shader types among VS, PS, HS, DS and GS that have a shader, and the compute stage is never counted. |
| VkPipelineState.DynamicStatesFor | Graphics/GraphicsEngineVulkan/src/PipelineStateVkImpl.cpp:321-345 | Viewport, blend constants and stencil reference are always dynamic; scissor is dynamic exactly when scissor testing is enabled; no state is listed twice. |
| VkPipelineState.ViewportStateAsWritten | Graphics/GraphicsEngineVulkan/src/PipelineStateVkImpl.cpp:259-279 | As many scissors as viewports are declared. The scissor array is absent exactly when scissor testing is enabled, which makes scissors dynamic. Otherwise it is a single rectangle covering the largest supported viewport, whatever the viewport count. |
| VkPipelineState.ScissorArrayTooShortAsWritten | Graphics/GraphicsEngineVulkan/src/PipelineStateVkImpl.cpp:263-278 | With two viewports and scissor testing off, the static scissor array holds fewer rectangles than the declared scissor count. |
| VkPipelineState.ViewportStateFor | Graphics/GraphicsEngineVulkan/src/PipelineStateVkImpl.cpp:259-279 | Scissor count equals viewport count. The scissor array is absent exactly when scissors are dynamic. Otherwise it holds one rectangle per declared scissor, each covering the largest supported viewport. |
| VkPipelineState.GraphicsPipelineLayout | Graphics/GraphicsEngineVulkan/src/PipelineStateVkImpl.cpp:218-353 | The declarative graphics pipeline for a given sample flag and a given viewport state that declares the description's viewports and as many scissors. The stage count equals the length of the stage vector, the dynamic-state count equals the length of its list, and the viewport and scissor counts are the description's viewport count. |
| VkPipelineState.BuildGraphicsPipeline | Graphics/GraphicsEngineVulkan/src/PipelineStateVkImpl.cpp:218-353 | The field-by-field construction produces exactly the graphics-pipeline layout with the corrected sample-count flag and the corrected scissor array. Its own contract states the promises directly: one stage entry per present shader; viewport, blend constants and stencil reference always dynamic, scissor exactly when scissor testing is on, with the count equal to the list length; as many scissors as viewports, and a static array of that length; a rasterization flag that stands for exactly the requested sample count; one blend attachment per render target. |
| VkPipelineState.GraphicsPipelineAsWritten | Graphics/GraphicsEngineVulkan/src/PipelineStateVkImpl.cpp:218-353 | The pipeline as the source builds it, with the shifted flag and the single static scissor rectangle. Its stage count equals the number of present shaders, it declares the description's viewports and as many scissors, and it has one blend attachment per render target. Its rasterizer stands for 2^(count - 1) samples, and a static scissor array is the one full rectangle. |
| VkPipelineState.AsWrittenScissorsTooShort | Graphics/GraphicsEngineVulkan/src/PipelineStateVkImpl.cpp:263-278 | In the source's pipeline, with scissor testing off and two or more viewports, the static scissor array holds fewer rectangles than the declared scissor count. |
| VkPipelineState.GraphicsPipelineCounts | Graphics/GraphicsEngineVulkan/src/PipelineStateVkImpl.cpp:224-263 | With the corrected viewport state and any sample flag, the stage count equals the number of present shaders, the viewport count is the description's, and a static scissor array has scissorCount entries. |
| VkPipelineState.RenderPassMatchesPipeline | Graphics/GraphicsEngineVulkan/src/PipelineStateVkImpl.cpp:286-313 | With one flag given to both, and any viewport state, the subpass colour count and the blend attachment count both equal the number of render targets, and every render-pass attachment is sampled as often as the rasterizer. |
| VkPipelineState.AsWrittenSampleFlagShared | Graphics/GraphicsEngineVulkan/src/PipelineStateVkImpl.cpp:68-293 | In the source's own pipeline and render pass, every attachment has the rasterizer's flag, which stands for 2^(count - 1) samples. |
| VkPipelineState.CreateInfoFor | Graphics/GraphicsEngineVulkan/src/PipelineStateVkImpl.cpp:150-353 | The result is an error exactly for a compute description without a compute shader, and the error is ComputeShaderNotSet. Otherwise a compute description gets a compute-stage create-info, and a graphics description gets its render pass and pipeline built with the corrected flag and viewport state: the rasterizer stands for exactly the requested sample count, every attachment shares its flag, and a static scissor array has one rectangle per declared scissor. |
| VkPipelineState.PipelineStateVk.Create | Graphics/GraphicsEngineVulkan/src/PipelineStateVkImpl.cpp:142-216 | Construction fails, with ComputeShaderNotSet, exactly when a compute description lacks its compute shader. Otherwise it yields a new object holding the description and the create-info of CreateInfoFor. |
| VkPipelineState.PipelineStateVk.IsCompatibleWith | Graphics/GraphicsEngineVulkan/src/PipelineStateVkImpl.cpp:519-567 | A pipeline state is compatible with itself. Since the resource-layout comparison is compiled out, it is compatible with every other pipeline state too. |

## Left out

- Common/interface/LockHelper.h and Graphics/GraphicsEngineD3D11/include/SwapChainD3D11Impl.h are not part of this model. They are locking and swap-chain code outside the cache.
- The header declares the unbind, release and clear operations but holds none of their bodies. The behaviour modelled follows their documentation comments and the fields they operate on.
- The commit algorithms are not part of this model: CommitRenderTargets, CommitD3D11IndexBuffer, CommitD3D11VertexBuffers and TransitionAndCommitShaderResources.
- Calls into the native ID3D11DeviceContext are not modelled. This covers setting null views per stage through the setter table passed to UnbindResourceView and re-binding render targets. The model records only the mirror. The render-target unbinds return whether the set has to be committed again.
- D3D11Context.DeviceContext.UnbindTextureFromInput, UnbindBufferFromInput and UnbindResourceFromUAV take only the native resource. The engine-side object argument is not used by the modelled behaviour.
- Reference counting (the strong references to the index buffer and shaders) is not modelled. Nor is the destructor's deferred release of the render pass and pipeline.
- The debug verification passes (dbgVerify*) are not modelled. They read back native state.
- D3D11Context.ViewTable.Unbind: leaves the per-stage counts as they are. The header passes the count array to the helper and does not say whether the scan changes it; the model does not lower a count when the top slots are cleared.
- D3D11Context.DeviceContext.UnbindTextureFromRenderTarget and UnbindTextureFromDepthStencil ignore a null texture, as the other unbind operations do. The header holds no bodies that say otherwise.
- The per-category tables are grouped into SlotTable and ViewTable objects. Their arrays are distinct, so the unbind of one category provably leaves the others alone.
- The engine-side render-target set is modelled with the context because the header keeps it in a base class.
- The render pass and pipeline are not created natively. The render pass creation is a native call. Pipeline creation is disabled in the source by a constant false flag in both branches.
- The render pass's debug name is not modelled.
- The helpers are uninterpreted, so their results are not described: TexFormatToVkFormat, InputLayoutDesc_To_VkVertexInputStateCI, RasterizerStateDesc_To_VkRasterizationStateCI, DepthStencilStateDesc_To_VkDepthStencilStateCI, BlendStateDesc_To_VkBlendStateCI and PrimitiveTopology_To_VkPrimitiveTopologyAndPatchCPCount.
- VkPipelineState.GraphicsPipelineLayout: the blend attachment count is the value set before the blend helper runs. The model assumes that helper does not overwrite it.
- Structure-type tags, reserved flags, debug-only pipeline flags and pointers that the source leaves unset are not modelled. This covers the pipeline layout, shader modules and the stage entries.
- The stage entries are counted, not described, since the source sizes the stage vector but never fills it.
- minSampleShading and the floating-point viewport and blend-factor values are not modelled.
- The code under `#if 0` is not modelled: shader resource layouts, resource binding, shader-resource-binding creation and the layout comparison in IsCompatibleWith. The same goes for the debug-only null check on IsCompatibleWith's argument, which Dafny's non-null references make unnecessary.
- VkPipelineState.CreateRenderPass: uses the corrected flag SampleCountFlag, not the shift of line 68. The render pass it builds therefore differs from the source's when the count is 4 or more. The source's own flag is covered by the layout lemmas, which hold for any flag, and by AsWrittenSampleFlagShared.
- VkPipelineState.BuildGraphicsPipeline: uses the corrected flag, not the shift of line 293, and the corrected ViewportStateFor, not the single rectangle of lines 265-278. Its pipeline differs from the source's in those two fields when the count is 4 or more, or when there are two or more viewports with scissor testing off. ViewportStateAsWritten models the source's viewport state.
- VkPipelineState.CreateInfoFor: a graphics description gets the corrected render pass and pipeline, the same ones CreateRenderPass and BuildGraphicsPipeline build, not the source's. GraphicsPipelineAsWritten models the source's pipeline.
- VkPipelineState.CreateRenderPass, BuildGraphicsPipeline and PipelineStateVk.Create require what the source leaves to its callers: at most eight render targets, eight format slots, and a sample count Vulkan has a flag for (a power of two up to 64). A count of 0 would make the source's shift undefined.

## Findings

| source | as written | input that shows it | evidently intended | confidence | as-written member | corrected member |
|---|---|---|---|---|---|---|
| Graphics/GraphicsEngineVulkan/src/PipelineStateVkImpl.cpp:68 (and 293) | the sample-count flag is `1 << (Count - 1)` | Count = 4 gives the value 8, the Vulkan flag for eight samples | the flag whose value is Count, the Vulkan flag for Count samples, as the compiled-out path at line 426 passes Count on as a sample count | medium, not executed | VkPipelineState.SampleCountBitAsWritten, VkPipelineState.SampleCountBitAsWrittenMismatch, VkPipelineState.GraphicsPipelineAsWritten | VkPipelineState.SampleCountFlag |
| Graphics/GraphicsEngineVulkan/src/PipelineStateVkImpl.cpp:263-278 | scissorCount is the viewport count, but a static scissor array is a single rectangle | NumViewports = 2 with ScissorEnable false: scissorCount 2, one rectangle | one rectangle per viewport, as Vulkan reads scissorCount entries | medium, not executed | VkPipelineState.ViewportStateAsWritten, VkPipelineState.ScissorArrayTooShortAsWritten, VkPipelineState.AsWrittenScissorsTooShort | VkPipelineState.ViewportStateFor |
