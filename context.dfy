/** The freedreno context as the blitter drives it: the entry points
    fd_blitter_blit, fd_blitter_pipe_copy_region and fd_resource_copy_region
    as effect sequences on the context, each proved against the call
    sequence FdBlitter specifies. */
module FdContext {
  import opened Wrappers
  import opened Gallium
  import opened BlitTrace
  import opened FdBlitter
  import opened FdBlitterLemmas

  class Context {
    /** ctx->blit, ctx->blitter and the helpers, fixed for the context. */
    const driver: Driver
    /** Every call the blitter has made on behalf of this context. */
    ghost var trace: seq<Event>

    /** Between two entry points the context is outside any blit stage and
        the blitter holds no view. */
    ghost predicate Valid()
      reads this
    {
      Disciplined(trace)
    }

    constructor (driver: Driver)
      ensures this.driver == driver && trace == [] && Valid()
    {
      this.driver := driver;
      trace := [];
    }

    /** Records one call into a collaborator of the blitter. */
    method Call(e: Event)
      modifies this
      ensures trace == old(trace) + [e]
    {
      trace := trace + [e];
    }

    /** fd_blitter_blit: generic blit through u_blitter, which never fails. */
    method Blit(info: BlitInfo, cubeAs2DArray: bool) returns (ok: bool)
      requires Valid()
      modifies this
      ensures Valid()
      ensures ok
      ensures trace == old(trace) + BlitEvents(driver.util, info, cubeAs2DArray)
    {
      var u := driver.util;
      var discard := false;
      if !info.scissorEnable && !info.alphaBlend {
        discard := u.coversWholeLevel(info.dst.resource, info.dst.level, info.dst.box);
      }
      Call(PipeBegin(info.renderConditionEnable, discard));

      var dstTempl := DefaultDstTexture(u, info.dst.resource, info.dst.level, ToUnsigned(info.dst.box.z));
      dstTempl := dstTempl.(format := info.dst.format);
      assert dstTempl == BlitSurface(u, info);
      Call(CreateSurface(info.dst.resource, dstTempl));

      var srcTempl := DefaultSrcTexture(u, info.src.resource, info.src.level, cubeAs2DArray);
      srcTempl := srcTempl.(format := info.src.format);
      assert srcTempl == BlitSamplerView(u, info, cubeAs2DArray);
      Call(CreateSamplerView(info.src.resource, srcTempl));

      var blit := GenericBlit(
        dstTempl, info.dst.box, srcTempl, info.src.box,
        info.src.resource.width0, info.src.resource.height0,
        info.mask, info.filter,
        if info.scissorEnable then Some(info.scissor) else None,
        info.alphaBlend);
      assert blit == GenericBlitCall(u, info, cubeAs2DArray);
      Call(blit);

      Call(ReleaseSurface);
      Call(ReleaseSamplerView);
      Call(PipeEnd);

      assert trace == old(trace) + BlitEvents(u, info, cubeAs2DArray);
      BlitBracket(u, info, cubeAs2DArray);
      DisciplinedAppend(old(trace), BlitEvents(u, info, cubeAs2DArray));
      ok := true;
    }

    /** fd_blitter_pipe_copy_region: the copy on the 3D pipe, which declines,
        leaving the context untouched, for buffers and for copies u_blitter
        cannot do. */
    method PipeCopyRegion(
      dst: Resource, dstLevel: nat, dstx: nat, dsty: nat, dstz: nat,
      src: Resource, srcLevel: nat, srcBox: Box) returns (ok: bool)
      requires Valid()
      modifies this
      ensures Valid()
      ensures ok == PipeCopyProceeds(driver, CopyArgs(dst, dstLevel, dstx, dsty, dstz, src, srcLevel, srcBox))
      ensures !ok ==> trace == old(trace)
      ensures ok ==> trace == old(trace) + PipeCopyEvents(CopyArgs(dst, dstLevel, dstx, dsty, dstz, src, srcLevel, srcBox))
    {
      if dst.target == Buffer || src.target == Buffer {
        return false;
      }
      if !driver.isCopySupported(dst, src) {
        return false;
      }
      var a := CopyArgs(dst, dstLevel, dstx, dsty, dstz, src, srcLevel, srcBox);
      Call(PipeBegin(false, false));
      Call(PipeCopy(a));
      Call(PipeEnd);
      assert trace == old(trace) + PipeCopyEvents(a);
      PipeCopyDisciplined(a);
      DisciplinedAppend(old(trace), PipeCopyEvents(a));
      return true;
    }

    /** fd_resource_copy_region: the hardware hook, then the 3D pipe, then
        the software copy, stopping at the first that takes the copy. */
    method ResourceCopyRegion(
      dst: Resource, dstLevel: nat, dstx: nat, dsty: nat, dstz: nat,
      src: Resource, srcLevel: nat, srcBox: Box)
      requires Valid()
      modifies this
      ensures Valid()
      ensures trace == old(trace) + CopyRegionEvents(driver, CopyArgs(dst, dstLevel, dstx, dsty, dstz, src, srcLevel, srcBox))
    {
      var a := CopyArgs(dst, dstLevel, dstx, dsty, dstz, src, srcLevel, srcBox);
      ghost var hw := HookEvents(driver, a);
      if driver.hook.Some? {
        var info := CopyBlitInfo(driver.util, a);
        Call(HwBlit(info));
        var accepted := driver.hook.value(info);
        if accepted {
          HookPart(driver, a);
          DisciplinedAppend(old(trace), hw);
          assert trace == old(trace) + hw;
          return;
        }
      }
      HookPart(driver, a);
      DisciplinedAppend(old(trace), hw);
      assert trace == old(trace) + hw;

      var copied := PipeCopyRegion(dst, dstLevel, dstx, dsty, dstz, src, srcLevel, srcBox);
      if copied {
        return;
      }

      Call(SwCopy(a));
      assert trace == (old(trace) + hw) + [SwCopy(a)];
      DisciplinedAppend(old(trace) + hw, [SwCopy(a)]);
    }
  }

}
