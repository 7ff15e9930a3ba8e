/** The observable behaviour of the blitter: the calls it makes into the
    context, the u_blitter library, the software copy and the hardware hook,
    recorded as events, and the rules those calls must follow. */
module BlitTrace {
  import opened Wrappers
  import opened Gallium

  datatype Event =
      /** ctx->blit(ctx, info), the hardware blit hook. */
    | HwBlit(info: BlitInfo)
      /** fd_blitter_pipe_begin(ctx, render_cond, discard, FD_STAGE_BLIT). */
    | PipeBegin(renderCondition: bool, discard: bool)
      /** fd_blitter_pipe_end(ctx). */
    | PipeEnd
      /** util_blitter_copy_texture, the copy on the 3D pipe. */
    | PipeCopy(args: CopyArgs)
      /** util_resource_copy_region, the software copy. */
    | SwCopy(args: CopyArgs)
      /** pipe->create_surface(pipe, resource, templ). */
    | CreateSurface(surfaceResource: Resource, surface: SurfaceTemplate)
      /** pipe->create_sampler_view(pipe, resource, templ). */
    | CreateSamplerView(viewResource: Resource, view: SamplerViewTemplate)
      /** util_blitter_blit_generic on the views just created. */
    | GenericBlit(
        dstSurface: SurfaceTemplate, dstBox: Box,
        srcView: SamplerViewTemplate, srcBox: Box,
        srcWidth0: nat, srcHeight0: nat,
        mask: nat, filter: Filter,
        scissor: Option<Scissor>, alphaBlend: bool)
      /** pipe_surface_reference(&view, NULL). */
    | ReleaseSurface
      /** pipe_sampler_view_reference(&view, NULL). */
    | ReleaseSamplerView

  predicate IsPipeBegin(e: Event) { e.PipeBegin? }
  predicate IsPipeEnd(e: Event) { e.PipeEnd? }

  /** Number of events of a trace that satisfy `p`. */
  function Count(t: seq<Event>, p: Event -> bool): (n: nat)
    ensures n <= |t|
    ensures n == 0 <==> forall i :: 0 <= i < |t| ==> !p(t[i])
    ensures n == |t| <==> forall i :: 0 <= i < |t| ==> p(t[i])
  {
    if t == [] then 0
    else
      assert forall i :: 1 <= i < |t| ==> t[1..][i - 1] == t[i];
      (if p(t[0]) then 1 else 0) + Count(t[1..], p)
  }

  lemma {:induction false} CountAppend(a: seq<Event>, b: seq<Event>, p: Event -> bool)
    ensures Count(a + b, p) == Count(a, p) + Count(b, p)
  {
    if a != [] {
      assert (a + b)[0] == a[0] && (a + b)[1..] == a[1..] + b;
      CountAppend(a[1..], b, p);
    } else {
      assert a + b == b;
    }
  }

  // ---------------------------------------------------------------------
  // Bracket discipline: the pipe begin/end bracket of the context, and the
  // views that live inside it.
  // ---------------------------------------------------------------------

  /** What the context is between two events: inside a blit stage or not,
      and how many surfaces and sampler views the blitter holds. */
  datatype Phase = Phase(inBlit: bool, surfaces: nat, samplerViews: nat)

  const Idle: Phase := Phase(false, 0, 0)

  /** One event under the discipline: begin only when idle; copies, view
      creation and the generic blit only inside the bracket; the generic
      blit only on views held; end only once every view is released; the
      hardware hook and the software copy only outside the bracket. */
  function Step(p: Phase, e: Event): Option<Phase>
  {
    match e
    case PipeBegin(_, _) =>
      if p.inBlit then None else Some(p.(inBlit := true))
    case PipeEnd =>
      if p.inBlit && p.surfaces == 0 && p.samplerViews == 0 then Some(p.(inBlit := false)) else None
    case PipeCopy(_) =>
      if p.inBlit then Some(p) else None
    case CreateSurface(_, _) =>
      if p.inBlit then Some(p.(surfaces := p.surfaces + 1)) else None
    case CreateSamplerView(_, _) =>
      if p.inBlit then Some(p.(samplerViews := p.samplerViews + 1)) else None
    case GenericBlit(_, _, _, _, _, _, _, _, _, _) =>
      if p.inBlit && p.surfaces > 0 && p.samplerViews > 0 then Some(p) else None
    case ReleaseSurface =>
      if p.surfaces > 0 then Some(p.(surfaces := p.surfaces - 1)) else None
    case ReleaseSamplerView =>
      if p.samplerViews > 0 then Some(p.(samplerViews := p.samplerViews - 1)) else None
    case HwBlit(_) =>
      if p.inBlit then None else Some(p)
    case SwCopy(_) =>
      if p.inBlit then None else Some(p)
  }

  /** The phase after a whole trace, or None at the first violation. */
  function Run(p: Phase, t: seq<Event>): Option<Phase>
    decreases |t|
  {
    if t == [] then Some(p)
    else match Step(p, t[0])
      case None => None
      case Some(q) => Run(q, t[1..])
  }

  /** A trace that starts and ends idle and breaks no rule on the way. */
  predicate Disciplined(t: seq<Event>)
  {
    Run(Idle, t) == Some(Idle)
  }

  lemma {:induction false} RunAppend(p: Phase, a: seq<Event>, b: seq<Event>)
    ensures Run(p, a + b) == match Run(p, a) case None => None case Some(q) => Run(q, b)
    decreases |a|
  {
    if a != [] {
      assert (a + b)[0] == a[0] && (a + b)[1..] == a[1..] + b;
      match Step(p, a[0])
      case None =>
      case Some(q) => RunAppend(q, a[1..], b);
    } else {
      assert a + b == b;
    }
  }

  /** Disciplined traces compose: a context that was idle stays idle. */
  lemma DisciplinedAppend(a: seq<Event>, b: seq<Event>)
    requires Disciplined(a) && Disciplined(b)
    ensures Disciplined(a + b)
  {
    RunAppend(Idle, a, b);
  }

  // ---------------------------------------------------------------------
  // Copy strategies, in the order the copy path tries them.
  // ---------------------------------------------------------------------

  datatype Strategy = HardwareBlit | PipeBlit | SoftwareCopy

  function Rank(s: Strategy): nat
  {
    match s
    case HardwareBlit => 0
    case PipeBlit => 1
    case SoftwareCopy => 2
  }

  /** The calls that are copy strategies: the hardware hook, the copy on
      the 3D pipe and the software copy. */
  predicate IsStrategyCall(e: Event)
  {
    e.HwBlit? || e.PipeCopy? || e.SwCopy?
  }

  /** The strategies a trace invokes, in order. */
  function Strategies(t: seq<Event>): (s: seq<Strategy>)
    ensures |s| <= |t|
    ensures s == [] <==> forall i :: 0 <= i < |t| ==> !IsStrategyCall(t[i])
  {
    if t == [] then []
    else
      assert forall i :: 1 <= i < |t| ==> t[1..][i - 1] == t[i];
      var rest := Strategies(t[1..]);
      match t[0]
      case HwBlit(_) => [HardwareBlit] + rest
      case PipeCopy(_) => [PipeBlit] + rest
      case SwCopy(_) => [SoftwareCopy] + rest
      case _ => rest
  }

  lemma {:induction false} StrategiesAppend(a: seq<Event>, b: seq<Event>)
    ensures Strategies(a + b) == Strategies(a) + Strategies(b)
  {
    if a != [] {
      assert (a + b)[0] == a[0] && (a + b)[1..] == a[1..] + b;
      StrategiesAppend(a[1..], b);
    } else {
      assert a + b == b;
    }
  }

  /** Each strategy at most once, and in the order hardware, pipe, software. */
  predicate InPriorityOrder(s: seq<Strategy>)
  {
    forall i, j :: 0 <= i < j < |s| ==> Rank(s[i]) < Rank(s[j])
  }

}
