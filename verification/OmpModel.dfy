/**
  The two-stage bootstrap of a fresh omp session, as a transition system.

  One process hosts many sessions and subagents; all of them share the module bindings
  `activeBootstrap` and `bootstrapConsumed`, and every event reaches every handler with
  whatever context it carries. A message send is an event of its own: it starts inside a
  handler and returns or throws later, so any other event may happen in between.
*/
module OmpModel {
  import opened Option

  const READY_TIMEOUT_MS: nat := 60000
  const POLL_MS: nat := 100
  const CALLBACK_TOOL := "mcp__entwurf_bridge_entwurf_callback"

  datatype Phase = Waiting | CallbackSent | Released | TaskSent | Failed

  datatype Message = CallbackPrompt | Task(text: string)

  /** What a handler context says: is it the visible host, and its session id when it has one. */
  datatype Ctx = Ctx(tui: bool, sessionId: Option<string>)

  datatype Input = NoInput | NotAnObject | Args(hasTarget: bool, hasMessage: bool)
  datatype ToolEvent = ToolEvent(toolName: string, input: Input, callId: Option<string>)

  type TimerId = nat

  /** One bootstrap: its own state, and what its creator's context holds for it. */
  datatype Boot = Boot(
    sessionId: string,
    task: string,
    born: nat,                    // the clock when it was created
    phase: Phase,
    timer: Option<TimerId>,
    callId: Option<string>,
    live: map<TimerId, nat>,      // the creator's timers that will still fire, with their due times
    made: nat,                    // how many timers were made
    sends: nat,                   // sends under way
    sent: seq<Message>,           // history: everything it handed to sendUserMessage
    looks: nat)                   // history: how often it observed the callback tool

  datatype Host = Host(
    consumed: bool,
    active: Option<nat>,          // the live bootstrap, by its place in `boots`
    boots: seq<Boot>,
    now: nat)

  const Initial: Host := Host(false, None, [], 0)

  /** What the vendor answers to one handler. */
  datatype Vendor = Vendor(ready: bool, schedules: bool, canSend: bool, clears: bool)

  // ---- one bootstrap ----------------------------------------------------------------

  function StopTimer(b: Boot, v: Vendor): Boot {
    if b.timer.None? then b
    else b.(timer := None, live := if v.clears then b.live - {b.timer.value} else b.live)
  }

  predicate IsFinal(b: Boot) {
    b.phase == TaskSent || b.phase == Failed
  }

  /** `fail` and `invalidate`: nothing is sent, and a final phase is not rewritten. */
  function Fail(b: Boot, v: Vendor): Boot {
    var t := StopTimer(b, v);
    if IsFinal(t) then t else t.(phase := Failed)
  }

  /** The start of a send; a vendor without the call fails the bootstrap at once. */
  function Send(b: Boot, m: Message, v: Vendor): Boot {
    if v.canSend then b.(sends := b.sends + 1, sent := b.sent + [m]) else Fail(b, v)
  }

  function SendReturned(b: Boot, threw: bool, v: Vendor): Boot
    requires b.sends > 0
  {
    var t := b.(sends := b.sends - 1);
    if threw then Fail(t, v) else t
  }

  function Schedule(b: Boot, now: nat, v: Vendor): Boot {
    if v.schedules
    then b.(timer := Some(b.made), live := b.live[b.made := now + POLL_MS], made := b.made + 1)
    else Fail(b, v)
  }

  function Tick(b: Boot, now: nat, v: Vendor): Boot {
    var t := b.(timer := None);
    if t.phase != Waiting then t
    else
      var seen := t.(looks := t.looks + 1);
      if v.ready then Send(StopTimer(seen.(phase := CallbackSent), v), CallbackPrompt, v)
      else if now >= b.born + READY_TIMEOUT_MS then Fail(seen, v)
      else Schedule(seen, now, v)
  }

  predicate MatchesCallback(e: ToolEvent) {
    e.toolName == CALLBACK_TOOL
    && (e.input == NoInput || (e.input.Args? && !e.input.hasTarget && !e.input.hasMessage))
  }

  function OnToolCall(b: Boot, e: ToolEvent): Boot {
    if b.phase == CallbackSent && b.callId.None? && MatchesCallback(e) && e.callId.Some? && e.callId.value != ""
    then b.(callId := e.callId) else b
  }

  /** `isError` is None when the event carries no boolean. */
  function OnToolResult(b: Boot, e: ToolEvent, isError: Option<bool>, v: Vendor): Boot {
    if b.phase == CallbackSent && b.callId.Some? && e.callId == b.callId && MatchesCallback(e)
       && isError == Some(false)
    then StopTimer(b.(phase := Released), v) else b
  }

  function OnTurnEnd(b: Boot, v: Vendor): Boot {
    if b.phase == Released then Send(b.(phase := TaskSent), Task(b.task), v) else b
  }

  // ---- the module: one latch, one live bootstrap -------------------------------------

  predicate Accepts(ctx: Ctx, sessionId: string) {
    ctx.tui && ctx.sessionId == Some(sessionId)
  }

  /** The bootstrap an event with this context belongs to. */
  function BootFor(h: Host, ctx: Ctx): Option<nat> {
    if h.active.Some? && h.active.value < |h.boots| && Accepts(ctx, h.boots[h.active.value].sessionId)
    then h.active else None
  }

  function WithBoot(h: Host, i: nat, b: Boot): Host
    requires i < |h.boots|
  {
    h.(boots := h.boots[i := b])
  }

  /** Every later birth edge ends the epoch of a bootstrap, whatever its session id says. */
  function EndEpoch(h: Host, v: Vendor): Host {
    if !h.consumed || h.active.None? || h.active.value >= |h.boots| then h
    else WithBoot(h, h.active.value, Fail(h.boots[h.active.value], v)).(active := None)
  }

  /** What the launch carries: the bootstrap flag, the caller's id, and timers that can be cancelled. */
  datatype Flag = NoPayload | Payload(task: string)
  datatype Launch = Launch(flag: Flag, callerKnown: bool, timersOwned: bool)

  function NewBoot(sessionId: string, task: string, now: nat): Boot {
    Boot(sessionId, task, now, Waiting, None, None, map[], 0, 0, [], 0)
  }

  /** A replacement takes the lane, the latch is spent, and the new bootstrap looks once at once. */
  function Arm(h: Host, sessionId: string, task: string, v: Vendor): Host {
    var t := if h.active.Some? && h.active.value < |h.boots|
             then WithBoot(h, h.active.value, Fail(h.boots[h.active.value], v)) else h;
    var b := Tick(NewBoot(sessionId, task, h.now), h.now, v);
    t.(boots := t.boots + [b], active := Some(|t.boots|), consumed := true)
  }

  function StartBootstrap(h: Host, sessionId: string, launch: Launch, v: Vendor): Host {
    if h.consumed then EndEpoch(h, v)
    else if launch.flag.NoPayload? then h
    else if !launch.callerKnown || !launch.timersOwned then h.(consumed := true)
    else Arm(h, sessionId, launch.flag.task, v)
  }

  /** How far a birth edge gets before its bootstrap is considered. */
  datatype Envelope = Refused | UpsertThrows | Born(sessionId: string)

  function OnBirthEdge(h: Host, ctx: Ctx, envelope: Envelope, launch: Launch, v: Vendor): Host {
    if !ctx.tui then h
    else
      var t := EndEpoch(h, v);
      if envelope.Born? then StartBootstrap(t, envelope.sessionId, launch, v) else t
  }

  // ---- events -----------------------------------------------------------------------

  datatype Event =
    | Edge(ctx: Ctx, envelope: Envelope, launch: Launch, vendor: Vendor)
    | ToolCall(ctx: Ctx, tool: ToolEvent)
    | ToolResult(ctx: Ctx, tool: ToolEvent, isError: Option<bool>, vendor: Vendor)
    | TurnEnd(ctx: Ctx, vendor: Vendor)
    | Fire(boot: nat, timer: TimerId, vendor: Vendor)
    | SendReturns(boot: nat, threw: bool, vendor: Vendor)
    | Elapse(ms: nat)
    | SessionShutdown(boot: nat)   // the vendor clears the creator's timers

  predicate Enabled(h: Host, e: Event) {
    match e
    case Fire(i, timer, _) => i < |h.boots| && timer in h.boots[i].live && h.boots[i].live[timer] <= h.now
    case SendReturns(i, _, _) => i < |h.boots| && h.boots[i].sends > 0
    case SessionShutdown(i) => i < |h.boots|
    case _ => true
  }

  function Apply(h: Host, e: Event): Host
    requires Enabled(h, e)
  {
    match e
    case Edge(ctx, envelope, launch, v) => OnBirthEdge(h, ctx, envelope, launch, v)
    case ToolCall(ctx, tool) =>
      var i := BootFor(h, ctx);
      if i.None? then h else WithBoot(h, i.value, OnToolCall(h.boots[i.value], tool))
    case ToolResult(ctx, tool, isError, v) =>
      var i := BootFor(h, ctx);
      if i.None? then h else WithBoot(h, i.value, OnToolResult(h.boots[i.value], tool, isError, v))
    case TurnEnd(ctx, v) =>
      var i := BootFor(h, ctx);
      if i.None? then h else WithBoot(h, i.value, OnTurnEnd(h.boots[i.value], v))
    case Fire(i, timer, v) =>
      WithBoot(h, i, Tick(h.boots[i].(live := h.boots[i].live - {timer}), h.now, v))
    case SendReturns(i, threw, v) => WithBoot(h, i, SendReturned(h.boots[i], threw, v))
    case Elapse(ms) => h.(now := h.now + ms)
    case SessionShutdown(i) => WithBoot(h, i, h.boots[i].(live := map[]))
  }

  function Step(h: Host, e: Event): Host {
    if Enabled(h, e) then Apply(h, e) else h
  }

  function Run(run: seq<Event>): Host
    decreases |run|
  {
    if run == [] then Initial else Step(Run(run[..|run| - 1]), run[|run| - 1])
  }

  lemma RunSnoc(run: seq<Event>, e: Event)
    ensures Run(run + [e]) == Step(Run(run), e)
  {
    var all := run + [e];
    assert all[..|all| - 1] == run && all[|all| - 1] == e;
  }

  /** Everything the process handed to a session, in the order of its bootstraps. */
  function Sent(boots: seq<Boot>): seq<Message> {
    if boots == [] then [] else Sent(boots[..|boots| - 1]) + boots[|boots| - 1].sent
  }
}
