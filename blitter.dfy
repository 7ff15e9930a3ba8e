/** The freedreno blitter as pure functions: the view templates it builds,
    the blit request it hands to the hardware hook, its discard rule and the
    sequence of calls each entry point makes. */
module FdBlitter {
  import opened Wrappers
  import opened Gallium
  import opened BlitTrace

  /** What the copy path sees of the driver context: the optional hardware
      hook ctx->blit, the u_blitter capability query behind ctx->blitter,
      and the utility helpers. */
  datatype Driver = Driver(
    hook: Option<BlitInfo -> bool>,
    isCopySupported: (Resource, Resource) -> bool,
    util: Util)

  // ---------------------------------------------------------------------
  // default_dst_texture / default_src_texture
  // ---------------------------------------------------------------------

  /** The surface template of a copy destination. A buffer is presented as
      R8_UINT; anything else uses the linear variant of its own format. */
  function DefaultDstTexture(u: Util, dst: Resource, dstLevel: nat, dstz: nat): SurfaceTemplate
  {
    SurfaceTemplate(
      format := if dst.target == Buffer then R8Uint else u.formatLinear(dst.format),
      level := dstLevel,
      firstLayer := dstz,
      lastLayer := dstz)
  }

  /** The view target: cube maps become 2D arrays when the screen supports
      a sampler-view target different from the resource's, and a buffer is
      sampled as a 1D texture. */
  function SrcViewTarget(src: Resource, cubeAs2DArray: bool): Target
  {
    var remapped :=
      if cubeAs2DArray && (src.target == TextureCube || src.target == TextureCubeArray) then Texture2DArray
      else src.target;
    if src.target == Buffer then Texture1D else remapped
  }

  /** The last layer a source view covers: the last slice of the mip level
      of a 3D texture, otherwise the last array layer (unsigned arithmetic). */
  function SrcLastLayer(u: Util, src: Resource, srcLevel: nat): (r: nat)
    ensures r < U32_LIMIT
    ensures src.target == Texture3D && 1 <= u.minify(src.depth0, srcLevel) <= U32_LIMIT ==>
              r + 1 == u.minify(src.depth0, srcLevel)
    ensures src.target != Texture3D && 1 <= src.arraySize <= U32_LIMIT ==> r + 1 == src.arraySize
  {
    if src.target == Texture3D then UnsignedPred(u.minify(src.depth0, srcLevel))
    else UnsignedPred(src.arraySize)
  }

  /** The sampler-view template of a copy source. */
  function DefaultSrcTexture(u: Util, src: Resource, srcLevel: nat, cubeAs2DArray: bool): SamplerViewTemplate
  {
    SamplerViewTemplate(
      target := SrcViewTarget(src, cubeAs2DArray),
      format := if src.target == Buffer then R8Uint else u.formatLinear(src.format),
      firstLevel := srcLevel,
      lastLevel := srcLevel,
      firstLayer := 0,
      lastLayer := SrcLastLayer(u, src, srcLevel),
      swizzleR := SwizzleX,
      swizzleG := SwizzleY,
      swizzleB := SwizzleZ,
      swizzleA := SwizzleW)
  }

  // ---------------------------------------------------------------------
  // fd_blitter_blit
  // ---------------------------------------------------------------------

  /** The destination may be discarded only when the blit neither scissors
      nor blends and its box covers the whole destination level. */
  function BlitDiscard(u: Util, info: BlitInfo): bool
  {
    if !info.scissorEnable && !info.alphaBlend then
      u.coversWholeLevel(info.dst.resource, info.dst.level, info.dst.box)
    else false
  }

  /** The surface the generic blit renders to: the default template, with
      the request's destination format. */
  function BlitSurface(u: Util, info: BlitInfo): SurfaceTemplate
  {
    DefaultDstTexture(u, info.dst.resource, info.dst.level, ToUnsigned(info.dst.box.z)).(format := info.dst.format)
  }

  /** The view the generic blit samples: the default template, with the
      request's source format. */
  function BlitSamplerView(u: Util, info: BlitInfo, cubeAs2DArray: bool): SamplerViewTemplate
  {
    DefaultSrcTexture(u, info.src.resource, info.src.level, cubeAs2DArray).(format := info.src.format)
  }

  /** The generic-blit call itself. */
  function GenericBlitCall(u: Util, info: BlitInfo, cubeAs2DArray: bool): Event
  {
    GenericBlit(
      BlitSurface(u, info), info.dst.box,
      BlitSamplerView(u, info, cubeAs2DArray), info.src.box,
      info.src.resource.width0, info.src.resource.height0,
      info.mask, info.filter,
      if info.scissorEnable then Some(info.scissor) else None,
      info.alphaBlend)
  }

  /** Every call fd_blitter_blit makes, in order. */
  function BlitEvents(u: Util, info: BlitInfo, cubeAs2DArray: bool): seq<Event>
  {
    [ PipeBegin(info.renderConditionEnable, BlitDiscard(u, info)),
      CreateSurface(info.dst.resource, BlitSurface(u, info)),
      CreateSamplerView(info.src.resource, BlitSamplerView(u, info, cubeAs2DArray)),
      GenericBlitCall(u, info, cubeAs2DArray),
      ReleaseSurface,
      ReleaseSamplerView,
      PipeEnd ]
  }

  // ---------------------------------------------------------------------
  // fd_blitter_pipe_copy_region / fd_resource_copy_region
  // ---------------------------------------------------------------------

  /** Whether the copy on the 3D pipe proceeds: neither side a buffer, and
      u_blitter able to copy between the two resources. */
  predicate PipeCopyProceeds(d: Driver, a: CopyArgs)
  {
    a.dst.target != Buffer && a.src.target != Buffer && d.isCopySupported(a.dst, a.src)
  }

  /** The calls of a copy on the 3D pipe that proceeds. */
  function PipeCopyEvents(a: CopyArgs): seq<Event>
  {
    [PipeBegin(false, false), PipeCopy(a), PipeEnd]
  }

  /** The request handed to the hardware hook for a copy: same-format,
      unscaled, unscissored, all channels of the source format. */
  function CopyBlitInfo(u: Util, a: CopyArgs): BlitInfo
  {
    BlitInfo(
      dst := BlitSide(a.dst, a.dstLevel, Box(a.dstx, a.dsty, a.dstz, a.srcBox.width, a.srcBox.height, 1), a.dst.format),
      src := BlitSide(a.src, a.srcLevel, a.srcBox, a.src.format),
      mask := u.formatMask(a.src.format),
      filter := Nearest,
      scissorEnable := false,
      scissor := Scissor(0, 0, 0, 0),
      renderConditionEnable := false,
      alphaBlend := false)
  }

  /** Whether the hardware hook exists and takes the copy. */
  predicate HookAccepts(d: Driver, a: CopyArgs)
  {
    d.hook.Some? && d.hook.value(CopyBlitInfo(d.util, a))
  }

  /** The hook stage of a copy: ctx->blit is called, with the request built
      from the copy, exactly when it is set. */
  function HookEvents(d: Driver, a: CopyArgs): seq<Event>
  {
    if d.hook.Some? then [HwBlit(CopyBlitInfo(d.util, a))] else []
  }

  /** Every call fd_resource_copy_region makes, in order. */
  function CopyRegionEvents(d: Driver, a: CopyArgs): seq<Event>
  {
    var hw := HookEvents(d, a);
    if HookAccepts(d, a) then hw
    else if PipeCopyProceeds(d, a) then hw + PipeCopyEvents(a)
    else hw + [SwCopy(a)]
  }

}
