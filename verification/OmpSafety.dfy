/**
  The two-stage bootstrap over whole runs: one launch delivers its task at most once, only
  after the whole chain of its causes, and nothing a foreign session or subagent does matters.
*/
module OmpSafety {
  import opened Option
  import opened OmpModel

  // ---- one bootstrap ----------------------------------------------------------------

  /** The messages a bootstrap in this phase has handed out. */
  predicate SentFits(b: Boot) {
    match b.phase
    case Waiting => b.sent == []
    case CallbackSent => b.sent == [CallbackPrompt]
    case Released => b.sent == [CallbackPrompt]
    case TaskSent => b.sent == [CallbackPrompt] || b.sent == [CallbackPrompt, Task(b.task)]
    case Failed => b.sent == [] || b.sent == [CallbackPrompt]
  }

  /** Polling: the readiness poll lives only in `waiting`, one timer at a time, never early. */
  predicate PollFits(b: Boot) {
    && (b.phase != Waiting ==> b.timer.None?)
    && (b.phase == Waiting ==>
          && b.timer.Some? && b.live.Keys <= {b.timer.value}
          && 1 <= b.looks && POLL_MS * b.looks <= READY_TIMEOUT_MS
          && (forall t :: t in b.live ==> b.born + POLL_MS * b.looks <= b.live[t]))
    && POLL_MS * b.looks <= READY_TIMEOUT_MS + POLL_MS
    && (forall t :: t in b.live ==> t < b.made)
  }

  predicate CallFits(b: Boot) {
    && (b.callId.Some? ==> b.phase != Waiting)
    && (b.phase == Released || b.phase == TaskSent ==> b.callId.Some?)
  }

  predicate BootInv(b: Boot) {
    SentFits(b) && PollFits(b) && CallFits(b)
  }

  lemma FailKeeps(b: Boot, v: Vendor)
    requires BootInv(b)
    ensures BootInv(Fail(b, v)) && IsFinal(Fail(b, v))
  {}

  /** A tick on a bootstrap whose poll has just been used up (a fired timer, or the first look). */
  lemma TickKeeps(b: Boot, now: nat, v: Vendor)
    requires SentFits(b) && CallFits(b) && (forall t :: t in b.live ==> t < b.made)
    requires b.phase == Waiting ==> b.live == map[] && b.born + POLL_MS * b.looks <= now
    requires POLL_MS * b.looks <= READY_TIMEOUT_MS + if b.phase == Waiting then 0 else POLL_MS
    ensures BootInv(Tick(b, now, v))
  {}

  lemma FireKeeps(b: Boot, timer: TimerId, now: nat, v: Vendor)
    requires BootInv(b) && timer in b.live && b.live[timer] <= now
    ensures BootInv(Tick(b.(live := b.live - {timer}), now, v))
  {
    if b.phase == Waiting {
      assert timer == b.timer.value;
      assert b.live - {timer} == map[];
    }
    TickKeeps(b.(live := b.live - {timer}), now, v);
  }

  lemma EventKeeps(b: Boot, e: ToolEvent, isError: Option<bool>, v: Vendor)
    requires BootInv(b)
    ensures BootInv(OnToolCall(b, e)) && BootInv(OnToolResult(b, e, isError, v)) && BootInv(OnTurnEnd(b, v))
  {}

  // ---- the module -------------------------------------------------------------------

  ghost predicate Inv(h: Host) {
    && |h.boots| <= 1
    && (h.boots != [] ==> h.consumed && BootInv(h.boots[0]) && h.boots[0].born <= h.now)
    && (h.active.Some? ==> h.boots != [] && h.active.value == 0)
    && (h.active.None? && h.boots != [] ==> IsFinal(h.boots[0]))
  }

  lemma EndEpochKeeps(h: Host, v: Vendor)
    requires Inv(h)
    ensures Inv(EndEpoch(h, v))
    ensures h.boots != [] ==> EndEpoch(h, v).active.None?
  {
    if h.boots != [] { FailKeeps(h.boots[0], v); }
  }

  lemma EdgeKeeps(h: Host, ctx: Ctx, envelope: Envelope, launch: Launch, v: Vendor)
    requires Inv(h)
    ensures Inv(OnBirthEdge(h, ctx, envelope, launch, v))
  {
    if ctx.tui {
      EndEpochKeeps(h, v);
      var t := EndEpoch(h, v);
      if envelope.Born? && !t.consumed && launch.flag.Payload? {
        TickKeeps(NewBoot(envelope.sessionId, launch.flag.task, t.now), t.now, v);
      }
    }
  }

  /** One bootstrap moved, within its invariant. */
  lemma WithBootKeeps(h: Host, b: Boot)
    requires Inv(h) && h.boots != [] && BootInv(b) && b.born == h.boots[0].born
    requires IsFinal(h.boots[0]) ==> IsFinal(b)
    ensures Inv(WithBoot(h, 0, b))
  {}

  lemma HandlerKeeps(h: Host, e: Event)
    requires Inv(h) && (e.ToolCall? || e.ToolResult? || e.TurnEnd?)
    ensures Inv(Apply(h, e))
  {
    var i := BootFor(h, e.ctx);
    if i.Some? {
      var b := h.boots[0];
      match e
      case ToolCall(_, tool) =>
        EventKeeps(b, tool, None, Vendor(true, true, true, true));
        WithBootKeeps(h, OnToolCall(b, tool));
      case ToolResult(_, tool, isError, v) =>
        EventKeeps(b, tool, isError, v);
        WithBootKeeps(h, OnToolResult(b, tool, isError, v));
      case TurnEnd(_, v) =>
        EventKeeps(b, ToolEvent("", NoInput, None), None, v);
        WithBootKeeps(h, OnTurnEnd(b, v));
    }
  }

  lemma CallbackKeeps(h: Host, e: Event)
    requires Inv(h) && Enabled(h, e) && (e.Fire? || e.SendReturns?)
    ensures Inv(Apply(h, e))
  {
    var b := h.boots[0];
    match e
    case Fire(_, timer, v) =>
      FireKeeps(b, timer, h.now, v);
      WithBootKeeps(h, Tick(b.(live := b.live - {timer}), h.now, v));
    case SendReturns(_, threw, v) =>
      FailKeeps(b.(sends := b.sends - 1), v);
      WithBootKeeps(h, SendReturned(b, threw, v));
  }

  lemma StepKeeps(h: Host, e: Event)
    requires Inv(h)
    ensures Inv(Step(h, e))
  {
    if Enabled(h, e) {
      match e
      case Edge(ctx, envelope, launch, v) => EdgeKeeps(h, ctx, envelope, launch, v);
      case Fire(_, _, _) => CallbackKeeps(h, e);
      case SendReturns(_, _, _) => CallbackKeeps(h, e);
      case Elapse(_) =>
      case SessionShutdown(_) => WithBootKeeps(h, h.boots[0].(live := map[]));
      case _ => HandlerKeeps(h, e);
    }
  }

  lemma {:induction false} RunKeeps(run: seq<Event>)
    ensures Inv(Run(run)) && |Run(run).boots| <= 1
    decreases |run|
  {
    if run != [] {
      RunKeeps(run[..|run| - 1]);
      StepKeeps(Run(run[..|run| - 1]), run[|run| - 1]);
    }
  }

  // ---- at most once -----------------------------------------------------------------

  /**
    One launch, one bootstrap: whatever happens, the whole process hands out nothing but the
    callback-only prompt followed by the one task of its one bootstrap, each at most once.
  */
  lemma {:induction false} AtMostOnce(run: seq<Event>)
    ensures var h := Run(run);
      && |h.boots| <= 1
      && (h.boots == [] ==> Sent(h.boots) == [])
      && (h.boots != [] ==> Sent(h.boots) <= [CallbackPrompt, Task(h.boots[0].task)])
  {
    RunKeeps(run);
    var h := Run(run);
    if h.boots != [] {
      assert h.boots[..|h.boots| - 1] == [];
      assert Sent(h.boots) == h.boots[0].sent;
    }
  }

  // ---- the causal chain -------------------------------------------------------------

  /** Where in a run each cause of a delivered task happened. */
  datatype Chain = Chain(armed: nat, prompted: nat, called: nat, released: nat, delivered: nat)

  /** The birth edge that armed this bootstrap. */
  predicate Arms(e: Event, b: Boot) {
    e.Edge? && e.ctx.tui && e.envelope == Born(b.sessionId) && e.launch == Launch(Payload(b.task), true, true)
  }

  predicate TuiEdge(e: Event) {
    e.Edge? && e.ctx.tui
  }

  /** Nothing was sent after `before`, exactly the callback-only prompt after `after`. */
  predicate PromptsBetween(before: seq<Event>, after: seq<Event>) {
    Sent(Run(before).boots) == [] && Sent(Run(after).boots) == [CallbackPrompt]
  }

  /** The k-th event sent the callback-only prompt, and nothing was sent before it. */
  predicate Prompts(run: seq<Event>, k: nat)
    requires k < |run|
  {
    PromptsBetween(run[..k], run[..k + 1])
  }

  /** The visible host, in this session. */
  predicate Visible(ctx: Ctx, sessionId: string) {
    ctx == Ctx(true, Some(sessionId))
  }

  /** The callback tool, with no arguments that would aim it. */
  predicate Untargeted(e: ToolEvent) {
    && e.toolName == "mcp__entwurf_bridge_entwurf_callback" && !e.input.NotAnObject?
    && (e.input.Args? ==> !e.input.hasTarget && !e.input.hasMessage)
  }

  predicate Calls(e: Event, b: Boot) {
    e.ToolCall? && Visible(e.ctx, b.sessionId) && Untargeted(e.tool) && e.tool.callId == b.callId
  }

  predicate Releases(e: Event, b: Boot) {
    e.ToolResult? && Visible(e.ctx, b.sessionId) && Untargeted(e.tool)
    && e.tool.callId == b.callId && e.isError == Some(false)
  }

  predicate Delivers(e: Event, b: Boot) {
    e.TurnEnd? && Visible(e.ctx, b.sessionId)
  }

  ghost predicate NoTuiEdge(run: seq<Event>, from: nat, to: nat)
    requires to <= |run|
  {
    forall k :: from <= k < to ==> !TuiEdge(run[k])
  }

  /** The chain explains how far the process got: each stage reached has its cause, in order. */
  ghost predicate Explains(run: seq<Event>, c: Chain, h: Host) {
    h.boots != [] ==>
      var b := h.boots[0];
      && c.armed < |run| && Arms(run[c.armed], b)
      && (h.active.Some? ==> NoTuiEdge(run, c.armed + 1, |run|))
      && (b.phase in {CallbackSent, Released, TaskSent} ==>
            c.armed <= c.prompted < |run| && Prompts(run, c.prompted))
      && (b.phase in {CallbackSent, Released, TaskSent} && b.callId.Some? ==>
            c.prompted < c.called < |run| && Calls(run[c.called], b))
      && (b.phase in {Released, TaskSent} ==>
            b.callId.Some? && c.called < c.released < |run| && Releases(run[c.released], b))
      && (b.phase == TaskSent ==>
            && c.released < c.delivered < |run| && Delivers(run[c.delivered], b)
            && NoTuiEdge(run, c.armed + 1, c.delivered + 1))
  }

  /** What one more event can do to the only bootstrap, seen from outside. */
  ghost predicate BootMoves(h: Host, t: Host, e: Event) {
    && |h.boots| <= 1 && |t.boots| <= 1 && |h.boots| <= |t.boots|
    && (h.boots == [] && t.boots != [] ==>
          && Arms(e, t.boots[0]) && t.active == Some(0)
          && t.boots[0].phase in {Waiting, CallbackSent, Failed} && t.boots[0].callId.None?)
    && (h.boots != [] ==>
          var b, d := h.boots[0], t.boots[0];
          && d.sessionId == b.sessionId && d.task == b.task
          && (t.active.Some? ==> h.active.Some? && !TuiEdge(e))
          && (d.callId == b.callId || (b.callId.None? && b.phase == CallbackSent && d.phase == CallbackSent && Calls(e, d)))
          && (d.phase == b.phase
              || d.phase == Failed
              || (b.phase == Waiting && d.phase == CallbackSent)
              || (b.phase == CallbackSent && d.phase == Released && Releases(e, d))
              || (b.phase == Released && d.phase == TaskSent && Delivers(e, d)
                  && h.active.Some? && !TuiEdge(e))))
  }

  lemma EdgeMoves(h: Host, e: Event)
    requires Inv(h) && e.Edge?
    ensures BootMoves(h, Apply(h, e), e)
  {
    EdgeKeeps(h, e.ctx, e.envelope, e.launch, e.vendor);
  }

  lemma StepMoves(h: Host, e: Event)
    requires Inv(h)
    ensures BootMoves(h, Step(h, e), e)
  {
    if Enabled(h, e) {
      if e.Edge? { EdgeMoves(h, e); }
    }
  }

  /** A phase that has prompted has sent the prompt; one that waits has sent nothing. */
  lemma SentOf(h: Host)
    requires Inv(h)
    ensures h.boots == [] ==> Sent(h.boots) == []
    ensures h.boots != [] ==> Sent(h.boots) == h.boots[0].sent
  {
    if h.boots != [] { assert h.boots[..|h.boots| - 1] == []; }
  }

  /** A chain for a prefix is a chain for the longer run, as far as its stages go. */
  lemma ChainGrows(run: seq<Event>, e: Event, c: Chain)
    ensures c.armed < |run| ==> (run + [e])[c.armed] == run[c.armed]
    ensures c.prompted < |run| && Prompts(run, c.prompted) ==> Prompts(run + [e], c.prompted)
  {
    if c.prompted < |run| {
      assert (run + [e])[..c.prompted] == run[..c.prompted];
      assert (run + [e])[..c.prompted + 1] == run[..c.prompted + 1];
    }
  }

  /** The chain after one more event. */
  ghost function Next(h: Host, t: Host, at: nat, c: Chain): Chain {
    if t.boots == [] then c
    else if h.boots == [] then Chain(at, at, 0, 0, 0)
    else
      var b, d := h.boots[0], t.boots[0];
      if b.phase == Waiting && d.phase == CallbackSent then c.(prompted := at)
      else if b.callId != d.callId then c.(called := at)
      else if b.phase == CallbackSent && d.phase == Released then c.(released := at)
      else if b.phase == Released && d.phase == TaskSent then c.(delivered := at)
      else c
  }

  lemma PromptsNow(run: seq<Event>, e: Event)
    requires PromptsBetween(run, run + [e])
    ensures Prompts(run + [e], |run|)
  {
    assert (run + [e])[..|run|] == run && (run + [e])[..|run| + 1] == run + [e];
  }

  /** The event that created the bootstrap starts its chain. */
  lemma FirstExplains(run: seq<Event>, e: Event, h: Host, t: Host, c: Chain)
    requires BootMoves(h, t, e) && h.boots == [] && t.boots != []
    requires t.boots[0].phase == CallbackSent ==> Prompts(run + [e], |run|)
    ensures Explains(run + [e], Next(h, t, |run|, c), t)
  {}

  /** An event on an existing bootstrap extends its chain by at most one stage. */
  lemma LaterExplains(run: seq<Event>, e: Event, h: Host, t: Host, c: Chain)
    requires BootMoves(h, t, e) && h.boots != [] && Explains(run, c, h)
    requires CallFits(h.boots[0]) && CallFits(t.boots[0])
    requires c.prompted < |run| && Prompts(run, c.prompted) ==> Prompts(run + [e], c.prompted)
    requires h.boots[0].phase == Waiting && t.boots[0].phase == CallbackSent ==> Prompts(run + [e], |run|)
    ensures Explains(run + [e], Next(h, t, |run|, c), t)
  {
    var all := run + [e];
    assert forall k :: 0 <= k < |run| ==> all[k] == run[k];
    assert all[|run|] == e;
  }

  lemma NextExplains(run: seq<Event>, e: Event, c: Chain)
    requires Inv(Run(run)) && Explains(run, c, Run(run))
    ensures Explains(run + [e], Next(Run(run), Run(run + [e]), |run|, c), Run(run + [e]))
  {
    var h, t := Run(run), Run(run + [e]);
    RunSnoc(run, e);
    StepKeeps(h, e);
    StepMoves(h, e);
    if t.boots != [] {
      if t.boots[0].phase == CallbackSent && (h.boots == [] || h.boots[0].phase == Waiting) {
        SentOf(h);
        SentOf(t);
        PromptsNow(run, e);
      }
      if h.boots == [] {
        FirstExplains(run, e, h, t, c);
      } else {
        ChainGrows(run, e, c);
        LaterExplains(run, e, h, t, c);
      }
    }
  }

  lemma {:induction false} Explained(run: seq<Event>) returns (c: Chain)
    ensures Explains(run, c, Run(run))
    decreases |run|
  {
    if run == [] {
      c := Chain(0, 0, 0, 0, 0);
    } else {
      var before, e := run[..|run| - 1], run[|run| - 1];
      assert run == before + [e];
      c := Explained(before);
      RunKeeps(before);
      NextExplains(before, e, c);
      c := Next(Run(before), Run(run), |before|, c);
    }
  }

  /**
    A delivered task has its whole chain behind it, in this order and on the same bootstrap: the
    visible host's birth edge carrying that task, the callback-only prompt, a matching call, a
    result with the same call id and `isError === false`, and a turn end — call, result and turn end
    all from a visible context with the bound session id — and no visible birth edge after the first
    until its task went out.
  */
  lemma {:induction false} TaskHasItsChain(run: seq<Event>, text: string) returns (c: Chain)
    requires Task(text) in Sent(Run(run).boots)
    ensures Run(run).boots != [] && Run(run).boots[0].task == text && Complete(run, c, Run(run).boots[0])
  {
    RunKeeps(run);
    SentOf(Run(run));
    DeliveredLast(Run(run).boots[0], text);
    c := Explained(run);
    ChainComplete(run, c, Run(run));
  }

  /** Every stage has its cause, in order. */
  ghost predicate Complete(run: seq<Event>, c: Chain, b: Boot) {
    && c.armed <= c.prompted < c.called < c.released < c.delivered < |run|
    && Arms(run[c.armed], b) && Prompts(run, c.prompted) && Calls(run[c.called], b)
    && Releases(run[c.released], b) && Delivers(run[c.delivered], b)
    && NoTuiEdge(run, c.armed + 1, c.delivered + 1)
  }

  lemma DeliveredLast(b: Boot, text: string)
    requires SentFits(b) && Task(text) in b.sent
    ensures b.phase == TaskSent && b.task == text
  {}

  lemma ChainComplete(run: seq<Event>, c: Chain, h: Host)
    requires Explains(run, c, h) && h.boots != [] && h.boots[0].phase == TaskSent
    ensures Complete(run, c, h.boots[0])
  {}

  // ---- noninterference --------------------------------------------------------------

  /** Could this event concern the visible session `sessionId`? */
  predicate Concerns(e: Event, sessionId: string) {
    match e
    case Edge(ctx, _, _, _) => ctx.tui
    case ToolCall(ctx, _) => Visible(ctx, sessionId)
    case ToolResult(ctx, _, _, _) => Visible(ctx, sessionId)
    case TurnEnd(ctx, _) => Visible(ctx, sessionId)
    case _ => true
  }

  /** The run without the events of subagents and of other sessions. */
  function Own(run: seq<Event>, sessionId: string): seq<Event>
    decreases |run|
  {
    if run == [] then []
    else
      var before, e := Own(run[..|run| - 1], sessionId), run[|run| - 1];
      if Concerns(e, sessionId) then before + [e] else before
  }

  ghost predicate BoundTo(h: Host, sessionId: string) {
    forall i :: 0 <= i < |h.boots| ==> h.boots[i].sessionId == sessionId
  }

  /**
    Noninterference: taking every event of a subagent and of any other session out of a run leaves the
    whole state of the module as it was, and with it everything that is ever sent.
  */
  lemma {:induction false} Noninterference(run: seq<Event>, sessionId: string)
    requires BoundTo(Run(run), sessionId)
    ensures Run(Own(run, sessionId)) == Run(run)
    decreases |run|
  {
    if run != [] {
      var before, e := run[..|run| - 1], run[|run| - 1];
      RunKeeps(before);
      StepMoves(Run(before), e);
      Noninterference(before, sessionId);
      if Concerns(e, sessionId) { RunSnoc(Own(before, sessionId), e); }
    }
  }

  // ---- readiness polling ------------------------------------------------------------

  /**
    A bootstrap looks for the callback tool at most 601 times; after that it has prompted or failed.
    While it still waits, its next look is scheduled unless the vendor ended the session, and
    a timer that fires in any other phase has no effect but to be used up.
  */
  lemma {:induction false} PollingTerminates(run: seq<Event>, i: nat)
    requires i < |Run(run).boots|
    ensures var b := Run(run).boots[i];
      && b.looks <= 601
      && (b.looks == 601 ==> b.phase != Waiting)
      && (b.phase == Waiting ==> b.timer.Some? && b.live.Keys <= {b.timer.value})
      && (b.phase != Waiting ==> b.timer.None?)
      && (forall timer, now, v :: b.phase != Waiting && timer in b.live ==>
            Tick(b.(live := b.live - {timer}), now, v) == b.(live := b.live - {timer}))
  {
    RunKeeps(run);
  }

  /** No event of a session that is alive stops the poll of a waiting bootstrap. */
  predicate KeepsPolling(e: Event) {
    !e.SessionShutdown?
  }

  lemma {:induction false} WaitingIsScheduled(run: seq<Event>, i: nat)
    requires forall k :: 0 <= k < |run| ==> KeepsPolling(run[k])
    requires i < |Run(run).boots| && Run(run).boots[i].phase == Waiting
    ensures var b := Run(run).boots[i]; b.timer.Some? && b.timer.value in b.live
    decreases |run|
  {
    var before, e := run[..|run| - 1], run[|run| - 1];
    RunKeeps(before);
    RunKeeps(run);
    StepMoves(Run(before), e);
    if Run(before).boots != [] { WaitingIsScheduled(before, 0); }
  }
}
