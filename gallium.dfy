/** The Gallium interface values the freedreno blitter works on: resources,
    boxes, blit requests and the surface / sampler-view templates, together
    with the external helpers the blitter consults, kept uninterpreted. */
module Gallium {

  /** Unsigned C arithmetic is 32 bits wide. */
  const U32_LIMIT: int := 0x1_0000_0000

  /** Conversion of a C `int` to `unsigned`: reduction modulo 2^32. */
  function ToUnsigned(x: int): (r: nat)
    ensures r < U32_LIMIT
    ensures 0 <= x < U32_LIMIT ==> r == x
    ensures x < 0 && -U32_LIMIT <= x ==> r == x + U32_LIMIT
  {
    x % U32_LIMIT
  }

  /** `x - 1` on an unsigned value: wraps to UINT_MAX when `x` is 0. */
  function UnsignedPred(x: nat): (r: nat)
    ensures r < U32_LIMIT
    ensures 1 <= x <= U32_LIMIT ==> r + 1 == x
    ensures x == 0 ==> r == U32_LIMIT - 1
  {
    ToUnsigned(x - 1)
  }

  /** enum pipe_texture_target */
  datatype Target =
    | Buffer
    | Texture1D
    | Texture2D
    | Texture3D
    | TextureCube
    | TextureRect
    | Texture1DArray
    | Texture2DArray
    | TextureCubeArray

  /** enum pipe_format: the one format the blitter names, and every other
      format by an opaque index (the format tables live elsewhere). */
  datatype Format = R8Uint | Named(index: nat)

  /** enum pipe_tex_filter */
  datatype Filter = Nearest | LinearFilter

  /** enum pipe_swizzle */
  datatype Swizzle = SwizzleX | SwizzleY | SwizzleZ | SwizzleW | Swizzle0 | Swizzle1 | SwizzleNone

  /** struct pipe_box */
  datatype Box = Box(x: int, y: int, z: int, width: int, height: int, depth: int)

  /** struct pipe_scissor_state */
  datatype Scissor = Scissor(minx: nat, miny: nat, maxx: nat, maxy: nat)

  /** struct pipe_resource, reduced to the fields the blitter reads; `id`
      stands for the object's identity (its address). */
  datatype Resource = Resource(
    id: nat,
    target: Target,
    format: Format,
    width0: nat,
    height0: nat,
    depth0: nat,
    arraySize: nat)

  /** One side (dst or src) of struct pipe_blit_info. */
  datatype BlitSide = BlitSide(resource: Resource, level: nat, box: Box, format: Format)

  /** struct pipe_blit_info */
  datatype BlitInfo = BlitInfo(
    dst: BlitSide,
    src: BlitSide,
    mask: nat,
    filter: Filter,
    scissorEnable: bool,
    scissor: Scissor,
    renderConditionEnable: bool,
    alphaBlend: bool)

  /** The arguments of pipe_context::resource_copy_region. */
  datatype CopyArgs = CopyArgs(
    dst: Resource,
    dstLevel: nat,
    dstx: nat,
    dsty: nat,
    dstz: nat,
    src: Resource,
    srcLevel: nat,
    srcBox: Box)

  /** struct pipe_surface, as a template: the fields the blitter sets. */
  datatype SurfaceTemplate = SurfaceTemplate(
    format: Format,
    level: nat,
    firstLayer: nat,
    lastLayer: nat)

  /** struct pipe_sampler_view, as a template: the fields the blitter sets. */
  datatype SamplerViewTemplate = SamplerViewTemplate(
    target: Target,
    format: Format,
    firstLevel: nat,
    lastLevel: nat,
    firstLayer: nat,
    lastLayer: nat,
    swizzleR: Swizzle,
    swizzleG: Swizzle,
    swizzleB: Swizzle,
    swizzleA: Swizzle)

  /** The Mesa utility helpers the blitter calls, whose definitions are not
      part of this model: util_format_linear, util_format_get_mask, u_minify
      and util_texrange_covers_whole_level. */
  datatype Util = Util(
    formatLinear: Format -> Format,
    formatMask: Format -> nat,
    minify: (nat, nat) -> nat,
    coversWholeLevel: (Resource, nat, Box) -> bool)

}
