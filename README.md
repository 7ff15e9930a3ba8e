# freedreno blitter fallbacks, modelled in Dafny

This project models the fallback copy and blit paths of Mesa's freedreno
Gallium driver, in `src/gallium/drivers/freedreno/freedreno_blitter.c`.

- `fd_resource_copy_region` copies a box of pixels between two resources.
  It tries three strategies in a fixed order and stops at the first one that takes the copy:
  1. the driver's hardware blit hook `ctx->blit`, given a `pipe_blit_info` built from the copy;
  2. a copy on the 3D pipe through u_blitter (`fd_blitter_pipe_copy_region`), which declines buffers and copies u_blitter cannot do;
  3. the software copy `util_resource_copy_region`.
- `fd_blitter_blit` is the generic blit through u_blitter.
  It picks the discard flag, opens the context's blit stage, and builds a destination surface and a source sampler view from default templates (`default_dst_texture`, `default_src_texture`).
  It then makes one generic-blit call, releases both views, closes the stage, and always reports success.

The model has these modules:

- `Gallium` (`gallium.dfy`): the interface values. These are resources, boxes, `pipe_blit_info`, the copy arguments and the surface and sampler-view templates. It also holds the unsigned 32-bit arithmetic the templates use. The Mesa helpers the blitter calls are the fields of a `Util` record of functions, and the model never gives them a meaning.
- `BlitTrace` (`trace.dfy`): every call the blitter makes into a collaborator is an `Event`. Three measures are defined on a trace:
  - `Run`/`Disciplined`: the bracket discipline. Begin only when idle. Copies, views and the generic blit only inside the bracket. The generic blit only on views held. End only when no view is held. The hook and the software copy only outside the bracket.
  - `Strategies`: the copy strategies a trace invokes, in order.
  - `Count`: how many events of a kind a trace holds.

  Each measure has a lemma saying how it splits over concatenation.
- `FdBlitter` (`blitter.dfy`): the pure part. This covers the two template builders, the discard rule, the blit request built for the hook, and the exact call sequence each entry point makes (`BlitEvents`, `PipeCopyEvents`, `CopyRegionEvents`).
- `FdBlitterLemmas` (`blitter_lemmas.dfy`): the properties of those functions.
- `FdContext` (`context.dfy`): class `Context`. Its methods `Blit`, `PipeCopyRegion` and `ResourceCopyRegion` follow the C code step by step (early returns included) and append to a ghost trace. Each is proved to produce exactly the specified call sequence and to keep the bracket discipline (`Valid`).

Oracles stand in for the external decisions:

- the hook is `Option<BlitInfo -> bool>`, where `None` means `ctx->blit` is NULL;
- `util_blitter_is_copy_supported` is `(Resource, Resource) -> bool`;
- the `PIPE_CAP_SAMPLER_VIEW_TARGET` answer of the source's screen is a `bool` parameter of `Blit`.

Three details of the code that the model keeps:

- **Cube remapping.** A cube or cube-array source becomes a 2D array exactly when the source's screen answers yes to `PIPE_CAP_SAMPLER_VIEW_TARGET` (lines 56-63).
- **Buffer source views.** The last layer is `array_size - 1` (line 78), so a buffer's source view is one layer when the buffer has one array layer. For array sizes up to 2^32 the converse holds too (`BufferAliasing`). A larger size can wrap to a last layer of 0 as well.
- **Discard for the pipe copy.** The pipe copy always passes discard = false (line 151). The "covers the whole level" test is used only by `fd_blitter_blit`.

## Model

| member | source | states |
|---|---|---|
| FdBlitter.DefaultDstTexture | src/gallium/drivers/freedreno/freedreno_blitter.c:38-50 | `default_dst_texture`: the destination surface template. Its shape is stated by `DstTemplateShape`, and for buffers by `BufferAliasing`. |
| FdBlitter.SrcViewTarget | src/gallium/drivers/freedreno/freedreno_blitter.c:56-68 | The source view's target: cube remapping and buffer-to-1D. Stated by `SrcTemplateTargetFormat`. |
| FdBlitter.DefaultSrcTexture | src/gallium/drivers/freedreno/freedreno_blitter.c:52-83 | `default_src_texture`: the source sampler-view template. Stated by `SrcTemplateTargetFormat`, `SrcTemplateRange` and `BufferAliasing`. |
| FdBlitter.BlitDiscard | src/gallium/drivers/freedreno/freedreno_blitter.c:93-100 | The discard flag of the generic blit. Stated by `DiscardRule`. |
| FdBlitter.BlitSurface | src/gallium/drivers/freedreno/freedreno_blitter.c:104-108 | The destination template with the request's format. Stated by `BlitSurfaceFollowsRequest`. |
| FdBlitter.BlitSamplerView | src/gallium/drivers/freedreno/freedreno_blitter.c:110-113 | The source template with the request's format. Stated by `BlitSamplerViewFollowsRequest`. |
| FdBlitter.BlitEvents | src/gallium/drivers/freedreno/freedreno_blitter.c:102-125 | The calls `fd_blitter_blit` makes, in order. Stated by `BlitBracket`; `Context.Blit` is proved to make exactly these calls. |
| FdBlitter.GenericBlitCall | src/gallium/drivers/freedreno/freedreno_blitter.c:116-120 | The generic-blit call: the blit's surface and sampler view, the request's boxes, mask, filter and blend flag, the source extent, and the scissor only when enabled. Stated by the second ensures of `BlitBracket`. |
| FdBlitter.PipeCopyProceeds | src/gallium/drivers/freedreno/freedreno_blitter.c:143-148 | When the 3D-pipe copy goes ahead. Tied to the return value of `Context.PipeCopyRegion` and used by `FallbackConditions` and `BufferCopyGoesToSoftware`. |
| FdBlitter.PipeCopyEvents | src/gallium/drivers/freedreno/freedreno_blitter.c:151-157 | The calls of a 3D-pipe copy that goes ahead. Stated by `PipeCopyDisciplined`. |
| FdBlitter.CopyBlitInfo | src/gallium/drivers/freedreno/freedreno_blitter.c:177-197 | The request built for the hardware hook. Stated by `CopyBlitInfoDescribesCopy`. |
| FdBlitter.HookAccepts | src/gallium/drivers/freedreno/freedreno_blitter.c:176-200 | Whether `ctx->blit` is set and accepts the copy. Used by `HardwareHookWins` and `FallbackConditions`. |
| FdBlitter.HookEvents | src/gallium/drivers/freedreno/freedreno_blitter.c:176-201 | The hook stage of a copy. Stated by `HookPart`. |
| FdBlitter.CopyRegionEvents | src/gallium/drivers/freedreno/freedreno_blitter.c:176-217 | The calls `fd_resource_copy_region` makes, in order. Stated by `CopyStrategyOrder`, `HardwareHookWins`, `FallbackConditions` and `BufferCopyGoesToSoftware`; `Context.ResourceCopyRegion` is proved to make exactly these calls. |
| Gallium.ToUnsigned | src/gallium/drivers/freedreno/freedreno_blitter.c:105-106 | The signed box z handed to `default_dst_texture` as an unsigned layer is reduced modulo 2^32: unchanged when in range, plus 2^32 when negative. |
| Gallium.UnsignedPred | src/gallium/drivers/freedreno/freedreno_blitter.c:76-78 | Unsigned `x - 1` is below 2^32, is one less than `x` for 1 <= x <= 2^32, and wraps to UINT_MAX at 0. |
| FdBlitter.SrcLastLayer | src/gallium/drivers/freedreno/freedreno_blitter.c:76-78 | The source view's last layer is one less than the minified depth for a 3D texture and one less than `array_size` otherwise, whenever that count is positive. |
| FdBlitterLemmas.DstTemplateShape | src/gallium/drivers/freedreno/freedreno_blitter.c:42-50 | Destination template: R8_UINT for a buffer, `util_format_linear` of the resource's format otherwise; level = dstlevel; first_layer = last_layer = dstz. |
| FdBlitterLemmas.SrcTemplateTargetFormat | src/gallium/drivers/freedreno/freedreno_blitter.c:56-72 | A buffer is a 1D R8_UINT view. A cube or cube array becomes a 2D array if and only if the capability flag is set. Every other target is kept. A non-buffer uses its linear format. |
| FdBlitterLemmas.SrcTemplateRange | src/gallium/drivers/freedreno/freedreno_blitter.c:73-82 | first_level = last_level = srclevel, first_layer = 0. last_layer = u_minify(depth0, srclevel) - 1 for 3D, array_size - 1 otherwise (unsigned). Swizzle X, Y, Z, W. |
| FdBlitterLemmas.BufferAliasing | src/gallium/drivers/freedreno/freedreno_blitter.c:42-83 | A buffer appears as an R8_UINT image. The destination is one layer. The source is a 1D view of one level, and also one layer when the buffer has one array layer. For array sizes up to 2^32, one layer only then. |
| FdBlitterLemmas.DiscardRule | src/gallium/drivers/freedreno/freedreno_blitter.c:93-100 | Discard is false when scissor or alpha blend is set. Otherwise it equals the covers-whole-level answer for the destination resource, level and box. |
| FdBlitterLemmas.BlitBracket | src/gallium/drivers/freedreno/freedreno_blitter.c:102-128 | The blit's calls are one bracket. It opens with PipeBegin(render_condition_enable, discard) as the first call and closes with PipeEnd as the last; no other call begins or ends. There is exactly one generic blit. Both views are released before the end. The scissor is passed if and only if enabled. Boxes, mask, filter and source extent are the request's. |
| FdBlitterLemmas.BlitSurfaceFollowsRequest | src/gallium/drivers/freedreno/freedreno_blitter.c:104-108 | The surface's format is the request's destination format. Its level is the request's. It covers the single layer at the box's z. |
| FdBlitterLemmas.BlitSamplerViewFollowsRequest | src/gallium/drivers/freedreno/freedreno_blitter.c:110-113 | The sampler view's format is the request's source format. Its target is the default one. It covers the request's source level only. |
| FdBlitterLemmas.CopyBlitInfoDescribesCopy | src/gallium/drivers/freedreno/freedreno_blitter.c:179-197 | The hook's request: dst box (dstx, dsty, dstz, src_box.width, src_box.height, 1); src box = src_box; the resources' own formats; mask = get_mask(src format); NEAREST; no scissor, no render condition, no blending. |
| FdBlitterLemmas.HookPart | src/gallium/drivers/freedreno/freedreno_blitter.c:176-201 | `HookEvents`, the hook stage of a copy, calls the hook once when it exists and never otherwise. It opens no bracket and keeps the discipline. |
| FdBlitterLemmas.PipeCopyDisciplined | src/gallium/drivers/freedreno/freedreno_blitter.c:151-157 | A pipe copy that proceeds is one bracket PipeBegin(false, false), PipeCopy, PipeEnd. It keeps the discipline and invokes only the pipe strategy. |
| FdBlitterLemmas.CopyStrategyOrder | src/gallium/drivers/freedreno/freedreno_blitter.c:176-217 | A copy invokes at least one strategy. The strategies come in the order hook, pipe, software, each at most once. The hook, when present, is called first with the request built from the copy. The whole call sequence keeps the bracket discipline. |
| FdBlitterLemmas.HardwareHookWins | src/gallium/drivers/freedreno/freedreno_blitter.c:176-200 | If the hook exists and accepts, the hook call is the only call: no pipe copy, no software copy, no begin or end. |
| FdBlitterLemmas.FallbackConditions | src/gallium/drivers/freedreno/freedreno_blitter.c:176-217 | The hook is invoked if and only if `ctx->blit` is set, so an absent hook is never called. The pipe copies if and only if the hook is absent or declines and the pipe copy proceeds. The software copy runs if and only if both decline. A bracket is opened exactly in the pipe case. |
| FdBlitterLemmas.BufferCopyGoesToSoftware | src/gallium/drivers/freedreno/freedreno_blitter.c:143-217 | With a buffer on either side and no hook accepting, the software copy runs and the 3D pipe is never entered. |
| FdBlitterLemmas.TextureCopyScenario | src/gallium/drivers/freedreno/freedreno_blitter.c:166-217 | 128x128 to 64x64 2D copy of the same format, with no hook and u_blitter able to copy: only the pipe strategy runs, inside one bracket, and there is no software copy. |
| FdBlitterLemmas.BufferCopyScenario | src/gallium/drivers/freedreno/freedreno_blitter.c:166-217 | 4096-byte buffer to buffer copy: the pipe never runs, and the software copy runs whenever the hook does not accept. |
| FdContext.Context.Blit | src/gallium/drivers/freedreno/freedreno_blitter.c:85-129 | Returns true. Appends exactly `BlitEvents` for the request to the trace. Keeps the context outside any stage with no view held. |
| FdContext.Context.PipeCopyRegion | src/gallium/drivers/freedreno/freedreno_blitter.c:134-158 | Returns true if and only if neither side is a buffer and u_blitter supports the copy. When declining, the trace is unchanged. When proceeding, it appends exactly PipeBegin(false, false), PipeCopy, PipeEnd. Keeps the discipline. |
| FdContext.Context.ResourceCopyRegion | src/gallium/drivers/freedreno/freedreno_blitter.c:165-218 | Appends exactly `CopyRegionEvents` (hook, then pipe, then software, stopping early) to the trace. Keeps the discipline. |

## Left out

- u_blitter internals (`util_blitter_blit_generic`, `util_blitter_copy_texture`, `util_blitter_is_copy_supported`): shader-based emulation defined elsewhere. Each copy or blit is one recorded call, and the capability query is an oracle.
- `util_resource_copy_region`: the CPU copy is defined elsewhere. It is the single `SwCopy` call.
- Object construction and reference counting: `create_surface`, `create_sampler_view` and `pipe_*_reference` are foreign. The model records creation and release and treats each view as determined by its resource and template.
- Internals of the hook and of `fd_blitter_pipe_begin`/`fd_blitter_pipe_end`: these are per-GPU code and context state invalidation that this file does not show. The hook is a pure function of the request, fixed per context, with no recorded effects of its own. The stage argument is not recorded because it is always FD_STAGE_BLIT.
- Format tables and helpers: `util_format_linear`, `util_format_get_mask`, `u_minify` and `util_texrange_covers_whole_level` stay uninterpreted, so nothing depends on what they compute.
- The preconditions in the comment at lines 160-164 (same format, single sample) are not checked by the code, so they are not modelled.
- The width and height `assert`s at lines 187-188 are debug-only checks. Release builds ignore them, so the model imposes no requirement.
- Integer widths the file does not show:
  - Levels and coordinates are unbounded naturals, and box fields are unbounded integers.
  - Template level fields, and the layer `DefaultDstTexture` is given, are copied as unbounded naturals.
  - Only the layer numbers the blit computes are reduced to 32 bits: the box z through `ToUnsigned`, and the last source layer through `UnsignedPred`.
  - The header's narrower fields (16-bit box y/z/height/depth, 16-bit layer fields, 8-bit level fields) are not modelled, nor is the conversion of an unsigned dstx above INT_MAX to `int`.
- The zero-filling `memset`s: only the template and request fields the blitter reads or sets are modelled. The request's zeroed scissor, render condition and blend flags are kept.
