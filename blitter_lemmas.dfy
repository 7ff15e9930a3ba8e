/** What the freedreno blitter guarantees: the order of the copy strategies,
    the request built for the hardware hook, the discard rule, the bracket
    around the generic blit and the shape of the view templates. */
module FdBlitterLemmas {
  import opened Wrappers
  import opened Gallium
  import opened BlitTrace
  import opened FdBlitter

  // ---------------------------------------------------------------------
  // fd_resource_copy_region
  // ---------------------------------------------------------------------

  /** The calls of a copy on the 3D pipe keep the bracket discipline. */
  lemma PipeCopyDisciplined(a: CopyArgs)
    ensures Disciplined(PipeCopyEvents(a))
    ensures Strategies(PipeCopyEvents(a)) == [PipeBlit]
    ensures Count(PipeCopyEvents(a), IsPipeBegin) == 1 && Count(PipeCopyEvents(a), IsPipeEnd) == 1
  {
    var t := PipeCopyEvents(a);
    assert t == [PipeBegin(false, false)] + [PipeCopy(a)] + [PipeEnd];
    RunAppend(Idle, [PipeBegin(false, false)] + [PipeCopy(a)], [PipeEnd]);
    RunAppend(Idle, [PipeBegin(false, false)], [PipeCopy(a)]);
    StrategiesAppend([PipeBegin(false, false)] + [PipeCopy(a)], [PipeEnd]);
    StrategiesAppend([PipeBegin(false, false)], [PipeCopy(a)]);
    CountAppend([PipeBegin(false, false)] + [PipeCopy(a)], [PipeEnd], IsPipeBegin);
    CountAppend([PipeBegin(false, false)], [PipeCopy(a)], IsPipeBegin);
    CountAppend([PipeBegin(false, false)] + [PipeCopy(a)], [PipeEnd], IsPipeEnd);
    CountAppend([PipeBegin(false, false)], [PipeCopy(a)], IsPipeEnd);
  }

  /** The hook stage of a copy calls the hook once when it is set and never
      otherwise, opens no bracket and keeps the discipline. */
  lemma HookPart(d: Driver, a: CopyArgs)
    ensures Disciplined(HookEvents(d, a))
    ensures Strategies(HookEvents(d, a)) == (if d.hook.Some? then [HardwareBlit] else [])
    ensures Count(HookEvents(d, a), IsPipeBegin) == 0 && Count(HookEvents(d, a), IsPipeEnd) == 0
  {
  }

  /** The strategies of a copy are tried in the order hardware hook, 3D pipe,
      software, each at most once, and the copy always ends in one of them;
      the hook, when present, is the first thing called, with the request
      built from the copy. */
  lemma CopyStrategyOrder(d: Driver, a: CopyArgs)
    ensures var s := Strategies(CopyRegionEvents(d, a));
      1 <= |s| && InPriorityOrder(s)
    ensures d.hook.Some? ==> CopyRegionEvents(d, a)[0] == HwBlit(CopyBlitInfo(d.util, a))
    ensures Disciplined(CopyRegionEvents(d, a))
  {
    var hw := HookEvents(d, a);
    HookPart(d, a);
    if HookAccepts(d, a) {
    } else if PipeCopyProceeds(d, a) {
      StrategiesAppend(hw, PipeCopyEvents(a));
      PipeCopyDisciplined(a);
      DisciplinedAppend(hw, PipeCopyEvents(a));
    } else {
      StrategiesAppend(hw, [SwCopy(a)]);
      DisciplinedAppend(hw, [SwCopy(a)]);
    }
  }

  /** A hook that takes the copy ends it: nothing but the hook is called, in
      particular no pipe bracket, no pipe copy and no software copy. */
  lemma HardwareHookWins(d: Driver, a: CopyArgs)
    requires HookAccepts(d, a)
    ensures CopyRegionEvents(d, a) == [HwBlit(CopyBlitInfo(d.util, a))]
    ensures Strategies(CopyRegionEvents(d, a)) == [HardwareBlit]
    ensures Count(CopyRegionEvents(d, a), IsPipeBegin) == 0 && Count(CopyRegionEvents(d, a), IsPipeEnd) == 0
  {
  }

  /** The hook is called exactly when it is set (an absent ctx->blit is
      never called); the 3D pipe copies exactly when the hook is absent or
      declines and the pipe copy proceeds; the software copy runs exactly
      when both the hook and the pipe decline. */
  lemma FallbackConditions(d: Driver, a: CopyArgs)
    ensures HardwareBlit in Strategies(CopyRegionEvents(d, a)) <==> d.hook.Some?
    ensures PipeBlit in Strategies(CopyRegionEvents(d, a)) <==> !HookAccepts(d, a) && PipeCopyProceeds(d, a)
    ensures SoftwareCopy in Strategies(CopyRegionEvents(d, a)) <==> !HookAccepts(d, a) && !PipeCopyProceeds(d, a)
    ensures SwCopy(a) in CopyRegionEvents(d, a) <==> !HookAccepts(d, a) && !PipeCopyProceeds(d, a)
    ensures Count(CopyRegionEvents(d, a), IsPipeBegin) == (if !HookAccepts(d, a) && PipeCopyProceeds(d, a) then 1 else 0)
  {
    var hw := HookEvents(d, a);
    var t := CopyRegionEvents(d, a);
    HookPart(d, a);
    if HookAccepts(d, a) {
    } else if PipeCopyProceeds(d, a) {
      StrategiesAppend(hw, PipeCopyEvents(a));
      PipeCopyDisciplined(a);
      CountAppend(hw, PipeCopyEvents(a), IsPipeBegin);
      assert SwCopy(a) !in t by {
        assert t == hw + [PipeBegin(false, false), PipeCopy(a), PipeEnd];
      }
    } else {
      StrategiesAppend(hw, [SwCopy(a)]);
      CountAppend(hw, [SwCopy(a)], IsPipeBegin);
      assert Strategies([SwCopy(a)]) == [SoftwareCopy];
      assert t[|t| - 1] == SwCopy(a);
    }
  }

  /** With a buffer on either side and no hook taking the copy, the 3D pipe
      is never entered and the copy ends in software. */
  lemma BufferCopyGoesToSoftware(d: Driver, a: CopyArgs)
    requires a.dst.target == Buffer || a.src.target == Buffer
    requires !HookAccepts(d, a)
    ensures SwCopy(a) in CopyRegionEvents(d, a)
    ensures PipeBlit !in Strategies(CopyRegionEvents(d, a))
    ensures Count(CopyRegionEvents(d, a), IsPipeBegin) == 0
  {
  }

  /** The request given to the hardware hook: the destination box starts at
      the copy's destination offset and has the source box's width and
      height and depth 1; the source box is the copy's; both formats are the
      resources' own; every channel of the source format is written, with
      nearest filtering, no scissor, no render condition and no blending. */
  lemma CopyBlitInfoDescribesCopy(u: Util, a: CopyArgs)
    ensures var info := CopyBlitInfo(u, a);
      info.dst == BlitSide(a.dst, a.dstLevel, Box(a.dstx, a.dsty, a.dstz, a.srcBox.width, a.srcBox.height, 1), a.dst.format) &&
      info.src == BlitSide(a.src, a.srcLevel, a.srcBox, a.src.format) &&
      info.mask == u.formatMask(a.src.format) &&
      info.filter == Nearest &&
      !info.scissorEnable && !info.renderConditionEnable && !info.alphaBlend
  {
  }

  // ---------------------------------------------------------------------
  // fd_blitter_blit
  // ---------------------------------------------------------------------

  /** Discard is never requested for a scissored or blended blit; otherwise
      it is requested exactly when the box covers the whole level. */
  lemma DiscardRule(u: Util, info: BlitInfo)
    ensures info.scissorEnable || info.alphaBlend ==> !BlitDiscard(u, info)
    ensures !info.scissorEnable && !info.alphaBlend ==>
      (BlitDiscard(u, info) <==> u.coversWholeLevel(info.dst.resource, info.dst.level, info.dst.box))
  {
  }

  /** The generic blit is one bracket: the first call opens it with the
      request's render condition and the discard rule, the last closes it,
      no other call opens or closes, the one generic-blit call (the fourth)
      works on the two views created inside the bracket, both views are
      released before it closes (just before the end the context is in the
      blit stage holding no view), and the scissor is passed only when the
      request enables it. */
  lemma BlitBracket(u: Util, info: BlitInfo, cubeAs2DArray: bool)
    ensures var t := BlitEvents(u, info, cubeAs2DArray);
      |t| == 7 &&
      t[0] == PipeBegin(info.renderConditionEnable, BlitDiscard(u, info)) &&
      t[6] == PipeEnd &&
      (forall i :: 0 < i < |t| ==> !t[i].PipeBegin?) &&
      (forall i :: 0 <= i < |t| - 1 ==> !t[i].PipeEnd?) &&
      (forall i :: 0 <= i < |t| ==> (t[i].GenericBlit? <==> i == 3)) &&
      Run(Idle, t[..|t| - 1]) == Some(Phase(true, 0, 0)) &&
      Disciplined(t) &&
      Strategies(t) == []
    ensures forall e :: e in BlitEvents(u, info, cubeAs2DArray) && e.GenericBlit? ==>
      e.dstSurface == BlitSurface(u, info) && e.dstBox == info.dst.box &&
      e.srcView == BlitSamplerView(u, info, cubeAs2DArray) && e.srcBox == info.src.box &&
      e.srcWidth0 == info.src.resource.width0 && e.srcHeight0 == info.src.resource.height0 &&
      e.mask == info.mask && e.filter == info.filter && e.alphaBlend == info.alphaBlend &&
      e.scissor == (if info.scissorEnable then Some(info.scissor) else None)
  {
    BlitShapeBracket(BlitEvents(u, info, cubeAs2DArray));
  }

  /** Any trace shaped like the generic blit (begin, surface, sampler view,
      generic blit, release both, end) is one bracket holding no view just
      before its end, and invokes no copy strategy. */
  lemma BlitShapeBracket(t: seq<Event>)
    requires |t| == 7 && t[0].PipeBegin? && t[1].CreateSurface? && t[2].CreateSamplerView?
    requires t[3].GenericBlit? && t[4] == ReleaseSurface && t[5] == ReleaseSamplerView && t[6] == PipeEnd
    ensures Run(Idle, t[..6]) == Some(Phase(true, 0, 0))
    ensures Disciplined(t)
    ensures Strategies(t) == []
  {
    var body := t[..6];
    forall k | 0 <= k < 6 ensures body[k..][0] == t[k] && body[k..][1..] == body[k + 1..] { }
    // The phase after each call, from the last call back to the first.
    assert Run(Phase(true, 0, 0), t[6..]) == Some(Idle);
    assert Run(Phase(true, 0, 1), body[5..]) == Some(Phase(true, 0, 0));
    assert Run(Phase(true, 1, 1), body[4..]) == Some(Phase(true, 0, 0));
    assert Run(Phase(true, 1, 1), body[3..]) == Some(Phase(true, 0, 0));
    assert Run(Phase(true, 1, 0), body[2..]) == Some(Phase(true, 0, 0));
    assert Run(Phase(true, 0, 0), body[1..]) == Some(Phase(true, 0, 0));
    assert Run(Idle, body) == Some(Phase(true, 0, 0));
    assert t == body + t[6..];
    RunAppend(Idle, body, t[6..]);
  }

  /** The generic blit renders to the request's destination format, on the
      request's level, one layer: the layer at the box's z. */
  lemma BlitSurfaceFollowsRequest(u: Util, info: BlitInfo)
    ensures BlitSurface(u, info).format == info.dst.format
    ensures BlitSurface(u, info).level == info.dst.level
    ensures BlitSurface(u, info).firstLayer == BlitSurface(u, info).lastLayer == ToUnsigned(info.dst.box.z)
    ensures 0 <= info.dst.box.z < U32_LIMIT ==> BlitSurface(u, info).firstLayer == info.dst.box.z
  {
  }

  /** The generic blit samples in the request's source format. */
  lemma BlitSamplerViewFollowsRequest(u: Util, info: BlitInfo, cubeAs2DArray: bool)
    ensures BlitSamplerView(u, info, cubeAs2DArray).format == info.src.format
    ensures BlitSamplerView(u, info, cubeAs2DArray).target == SrcViewTarget(info.src.resource, cubeAs2DArray)
    ensures BlitSamplerView(u, info, cubeAs2DArray).firstLevel == BlitSamplerView(u, info, cubeAs2DArray).lastLevel == info.src.level
  {
  }

  // ---------------------------------------------------------------------
  // default_dst_texture / default_src_texture
  // ---------------------------------------------------------------------

  /** The destination template: R8_UINT for a buffer, the linear variant of
      the resource's format otherwise; the given level; the single layer dstz. */
  lemma DstTemplateShape(u: Util, dst: Resource, dstLevel: nat, dstz: nat)
    ensures var s := DefaultDstTexture(u, dst, dstLevel, dstz);
      (dst.target == Buffer ==> s.format == R8Uint) &&
      (dst.target != Buffer ==> s.format == u.formatLinear(dst.format)) &&
      s.level == dstLevel && s.firstLayer == dstz && s.lastLayer == dstz
  {
  }

  /** The source view's target and format: a buffer is a 1D R8_UINT view; a
      cube or cube array becomes a 2D array exactly when the screen says so;
      every other target is kept; a non-buffer uses its linear format. */
  lemma SrcTemplateTargetFormat(u: Util, src: Resource, srcLevel: nat, cubeAs2DArray: bool)
    ensures var v := DefaultSrcTexture(u, src, srcLevel, cubeAs2DArray);
      (src.target == Buffer ==> v.target == Texture1D && v.format == R8Uint) &&
      (src.target in {TextureCube, TextureCubeArray} ==>
         (v.target == Texture2DArray <==> cubeAs2DArray) &&
         (!cubeAs2DArray ==> v.target == src.target)) &&
      (src.target !in {Buffer, TextureCube, TextureCubeArray} ==> v.target == src.target) &&
      (src.target != Buffer ==> v.format == u.formatLinear(src.format))
  {
  }

  /** The source view's levels, layers and swizzle: the one level asked for;
      layers from 0 to the level's depth minus one for a 3D texture and to
      the array size minus one otherwise (unsigned, so 0 wraps to UINT_MAX);
      the identity swizzle. */
  lemma SrcTemplateRange(u: Util, src: Resource, srcLevel: nat, cubeAs2DArray: bool)
    ensures var v := DefaultSrcTexture(u, src, srcLevel, cubeAs2DArray);
      v.firstLevel == srcLevel && v.lastLevel == srcLevel && v.firstLayer == 0 &&
      v.lastLayer == UnsignedPred(if src.target == Texture3D then u.minify(src.depth0, srcLevel) else src.arraySize) &&
      v.swizzleR == SwizzleX && v.swizzleG == SwizzleY && v.swizzleB == SwizzleZ && v.swizzleA == SwizzleW
  {
  }

  /** A buffer is seen by the generic blit as a single-level R8_UINT image,
      1D on the source side, one layer on the destination side, and one
      layer on the source side exactly when it has a single array layer
      (for array sizes an unsigned int can hold). */
  lemma BufferAliasing(u: Util, r: Resource, level: nat, z: nat, cubeAs2DArray: bool)
    requires r.target == Buffer
    ensures var s := DefaultDstTexture(u, r, level, z);
      s.format == R8Uint && s.firstLayer == s.lastLayer
    ensures var v := DefaultSrcTexture(u, r, level, cubeAs2DArray);
      v.target == Texture1D && v.format == R8Uint && v.firstLevel == v.lastLevel &&
      (r.arraySize == 1 ==> v.firstLayer == v.lastLayer == 0) &&
      (r.arraySize <= U32_LIMIT && v.lastLayer == 0 ==> r.arraySize == 1)
  {
  }

  // ---------------------------------------------------------------------
  // Two end-to-end copies.
  // ---------------------------------------------------------------------

  /** Level 0 of a 128x128 2D texture copied into a 64x64 2D texture of the
      same format, no hardware hook, u_blitter able to copy: one pipe copy
      inside one bracket, no software copy. */
  lemma TextureCopyScenario(util: Util, f: Format)
    ensures var d := Driver(None, (x: Resource, y: Resource) => true, util);
      var src := Resource(1, Texture2D, f, 128, 128, 1, 1);
      var dst := Resource(2, Texture2D, f, 64, 64, 1, 1);
      var a := CopyArgs(dst, 0, 0, 0, 0, src, 0, Box(0, 0, 0, 64, 64, 1));
      var t := CopyRegionEvents(d, a);
      Strategies(t) == [PipeBlit] && Count(t, IsPipeBegin) == 1 && Count(t, IsPipeEnd) == 1 &&
      SwCopy(a) !in t
  {
  }

  /** A 4096-byte buffer copied into another, whatever the hook answers: the
      software copy runs, the 3D pipe never does. */
  lemma BufferCopyScenario(d: Driver, f: Format)
    ensures var src := Resource(1, Buffer, f, 4096, 1, 1, 1);
      var dst := Resource(2, Buffer, f, 4096, 1, 1, 1);
      var a := CopyArgs(dst, 0, 0, 0, 0, src, 0, Box(0, 0, 0, 4096, 1, 1));
      var t := CopyRegionEvents(d, a);
      PipeBlit !in Strategies(t) && (!HookAccepts(d, a) ==> SwCopy(a) in t)
  {
  }

}
