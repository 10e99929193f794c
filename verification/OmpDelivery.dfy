/**
  What the two-stage bootstrap does get done: over every run, exactly when the prompt and the launch text are sent,
  and exactly when a bootstrap is made, released, or given up.
*/
module OmpDelivery {
  import opened Option
  import opened OmpModel
  import opened OmpSafety

  // ---- the events, as the session and the vendor see them ---------------------------

  /** A call of the callback tool, with a call id, from the visible session `sid`. */
  predicate CallOf(e: Event, sid: string) {
    e.ToolCall? && Visible(e.ctx, sid) && Untargeted(e.tool) && e.tool.callId.Some? && e.tool.callId.value != ""
  }

  /** The result of the call `id` that says, as a boolean, that it is no error. */
  predicate ResultOf(e: Event, sid: string, id: Option<string>) {
    && e.ToolResult? && Visible(e.ctx, sid) && Untargeted(e.tool)
    && e.tool.callId == id && e.isError == Some(false)
  }

  predicate TurnOf(e: Event, sid: string) {
    e.TurnEnd? && Visible(e.ctx, sid)
  }

  /** What ends a bootstrap whatever it waits for: a visible birth edge, or a send of its own that threw. */
  predicate Ends(h: Host, e: Event) {
    TuiEdge(e) || (e.SendReturns? && e.threw && Enabled(h, e))
  }

  /** A visible birth that carries the launch payload. */
  predicate Launches(e: Event) {
    TuiEdge(e) && e.envelope.Born? && e.launch.flag.Payload?
  }

  predicate Arming(h: Host, e: Event) {
    !h.consumed && Launches(e) && e.launch.callerKnown && e.launch.timersOwned
  }

  /** The event looks whether the callback tool is there: the first time, or when the poll fires. */
  predicate Looks(h: Host, e: Event) {
    Arming(h, e) || (e.Fire? && Enabled(h, e) && h.boots[e.boot].phase == Waiting)
  }

  predicate TimedOut(h: Host, e: Event) {
    e.Fire? && e.boot < |h.boots| && h.now >= h.boots[e.boot].born + READY_TIMEOUT_MS
  }

  predicate SendsPrompt(h: Host, e: Event) {
    Looks(h, e) && e.vendor.ready && e.vendor.canSend
  }

  predicate InPhase(h: Host, phase: Phase) {
    h.active.Some? && h.boots != [] && h.boots[0].phase == phase
  }

  predicate SendsTask(h: Host, e: Event) {
    InPhase(h, Released) && TurnOf(e, h.boots[0].sessionId) && e.vendor.canSend
  }

  /** The prompt could not be sent, or the tool was not there and there is no further look. */
  predicate LooksInVain(h: Host, e: Event) {
    Looks(h, e) && if e.vendor.ready then !e.vendor.canSend else TimedOut(h, e) || !e.vendor.schedules
  }

  // ---- one event --------------------------------------------------------------------

  /** What this event hands to the session. */
  function Hands(h: Host, e: Event): seq<Message> {
    if SendsPrompt(h, e) then [CallbackPrompt]
    else if SendsTask(h, e) then [Task(h.boots[0].task)]
    else []
  }

  lemma EdgeHands(h: Host, e: Event)
    requires Inv(h) && e.Edge?
    ensures var t := Apply(h, e);
      && (h.boots != [] ==> t.boots != [] && t.boots[0].sent == h.boots[0].sent)
      && (h.boots == [] ==>
            (t.boots != [] <==> Arming(h, e))
            && (t.boots != [] ==> t.boots[0].sent == if SendsPrompt(h, e) then [CallbackPrompt] else []))
  {}

  lemma FireHands(h: Host, e: Event)
    requires Inv(h) && e.Fire? && Enabled(h, e)
    ensures var t := Apply(h, e); t.boots != [] && t.boots[0].sent == h.boots[0].sent + Hands(h, e)
  {}

  lemma TurnHands(h: Host, e: Event)
    requires Inv(h) && e.TurnEnd? && h.boots != []
    ensures var t := Apply(h, e); t.boots != [] && t.boots[0].sent == h.boots[0].sent + Hands(h, e)
  {}

  lemma OtherHands(h: Host, e: Event)
    requires Inv(h) && !e.Edge? && !e.Fire? && !e.TurnEnd? && Enabled(h, e) && h.boots != []
    ensures var t := Apply(h, e); t.boots != [] && t.boots[0].sent == h.boots[0].sent
  {}

  lemma BootHands(h: Host, e: Event)
    requires Inv(h) && !e.Edge? && h.boots != []
    ensures var t := Step(h, e); t.boots != [] && t.boots[0].sent == h.boots[0].sent + Hands(h, e)
  {
    if Enabled(h, e) {
      if e.Fire? { FireHands(h, e); } else if e.TurnEnd? { TurnHands(h, e); } else { OtherHands(h, e); }
    }
  }

  lemma NothingHands(h: Host, e: Event)
    requires Inv(h) && !e.Edge? && h.boots == []
    ensures Step(h, e).boots == [] && Hands(h, e) == []
  {}

  lemma StepHands(h: Host, e: Event)
    requires Inv(h)
    ensures Sent(Step(h, e).boots) == Sent(h.boots) + Hands(h, e)
  {
    StepKeeps(h, e);
    SentOf(h);
    SentOf(Step(h, e));
    if e.Edge? { EdgeHands(h, e); } else if h.boots != [] { BootHands(h, e); } else { NothingHands(h, e); }
  }

  /**
    Over every run, what one more event hands to the session: the prompt exactly when it finds the callback
    tool there and can send, the launch text exactly when the turn of a released bootstrap's session ends and it can
    send, and else nothing.
  */
  lemma {:induction false} Handed(run: seq<Event>, e: Event)
    ensures var h := Run(run);
      Sent(Run(run + [e]).boots) == Sent(h.boots) + Hands(h, e)
  {
    RunKeeps(run);
    RunSnoc(run, e);
    StepHands(Run(run), e);
  }

  /** A released bootstrap whose session's turn ends sends its task, after the prompt and nothing else. */
  lemma {:induction false} ReleasedDelivers(run: seq<Event>, e: Event)
    requires InPhase(Run(run), Released) && TurnOf(e, Run(run).boots[0].sessionId) && e.vendor.canSend
    ensures Sent(Run(run + [e]).boots) == [CallbackPrompt, Task(Run(run).boots[0].task)]
    ensures Run(run + [e]).boots[0].phase == TaskSent
  {
    Handed(run, e);
    RunKeeps(run);
    RunSnoc(run, e);
    SentOf(Run(run));
  }

  /** How far a bootstrap gets in one event, and only so. */
  ghost predicate Moved(h: Host, t: Host, e: Event) {
    && (t.boots != [] <==> h.boots != [] || Arming(h, e))
    && (t.active.Some? <==> Arming(h, e) || (h.active.Some? && !TuiEdge(e)))
    && (t.consumed <==> h.consumed || Launches(e))
    && (h.boots != [] ==> t.boots != [] && SameBoot(h.boots[0], t.boots[0]) && BootMoved(h, t, e))
    && (h.boots == [] && t.boots != [] ==> Begun(h, t.boots[0], e))
  }

  predicate SameBoot(b: Boot, d: Boot) {
    b.sessionId == d.sessionId && b.task == d.task && b.born == d.born
  }

  predicate Begun(h: Host, b: Boot, e: Event)
    requires Arming(h, e)
  {
    && b.sessionId == e.envelope.sessionId && b.task == e.launch.flag.task && b.born == h.now && b.callId.None?
    && b.phase == (if SendsPrompt(h, e) then CallbackSent else if LooksInVain(h, e) then Phase.Failed else Waiting)
    && (b.phase == Waiting ==> b.timer.Some? && b.live == map[b.timer.value := h.now + POLL_MS])
  }

  ghost predicate BootMoved(h: Host, t: Host, e: Event)
    requires h.boots != [] && t.boots != []
  {
    var b, d := h.boots[0], t.boots[0];
    && (d.phase == CallbackSent <==> (b.phase == CallbackSent && !Ends(h, e) && !Frees(h, e)) || SendsPrompt(h, e))
    && (d.phase == Released <==> (b.phase == Released && !Ends(h, e) && !Turns(h, e)) || Frees(h, e))
    && (d.phase == TaskSent <==> b.phase == TaskSent || Turns(h, e))
    && (d.phase == Phase.Failed <==> b.phase == Phase.Failed || (!IsFinal(b) && Ends(h, e)) || LooksInVain(h, e))
    && d.callId == (if Names(h, e) then e.tool.callId else b.callId)
    && (Looks(h, e) && d.phase == Waiting ==> d.timer.Some? && d.live == map[d.timer.value := h.now + POLL_MS])
  }

  /** The first matching call of a prompted bootstrap. */
  predicate Names(h: Host, e: Event) {
    InPhase(h, CallbackSent) && h.boots[0].callId.None? && CallOf(e, h.boots[0].sessionId)
  }

  predicate Frees(h: Host, e: Event) {
    InPhase(h, CallbackSent) && h.boots[0].callId.Some? && ResultOf(e, h.boots[0].sessionId, h.boots[0].callId)
  }

  predicate Turns(h: Host, e: Event) {
    InPhase(h, Released) && TurnOf(e, h.boots[0].sessionId)
  }

  lemma EdgeMoved(h: Host, e: Event)
    requires Inv(h) && e.Edge?
    ensures Moved(h, Apply(h, e), e)
  {}

  lemma FireMoved(h: Host, e: Event)
    requires Inv(h) && e.Fire? && Enabled(h, e)
    ensures Moved(h, Apply(h, e), e)
  {
    var b := h.boots[0];
    if b.phase == Waiting {
      assert e.timer == b.timer.value;
      assert b.live - {e.timer} == map[];
    }
  }

  lemma OtherMoved(h: Host, e: Event)
    requires Inv(h) && !e.Edge? && !e.Fire? && Enabled(h, e)
    ensures Moved(h, Apply(h, e), e)
  {}

  lemma StepMoved(h: Host, e: Event)
    requires Inv(h)
    ensures Moved(h, Step(h, e), e)
  {
    if Enabled(h, e) {
      if e.Edge? { EdgeMoved(h, e); } else if e.Fire? { FireMoved(h, e); } else { OtherMoved(h, e); }
    }
  }

  /**
    Over every run, each stage is reached by its cause and by nothing else, and is left only for the next one
    or for failure: this is the whole table of the bootstrap's stages, both ways.
  */
  lemma {:induction false} EveryMove(run: seq<Event>, e: Event)
    ensures Moved(Run(run), Run(run + [e]), e)
  {
    RunKeeps(run);
    RunSnoc(run, e);
    StepMoved(Run(run), e);
  }

  // ---- the launch latch -------------------------------------------------------------

  /** The latch is spent exactly when a visible birth has carried the payload. */
  lemma {:induction false} LatchSpent(run: seq<Event>)
    ensures Run(run).consumed <==> exists k :: 0 <= k < |run| && Launches(run[k])
    decreases |run|
  {
    if run != [] {
      var before, e := run[..|run| - 1], run[|run| - 1];
      assert run == before + [e];
      LatchSpent(before);
      EveryMove(before, e);
      if exists k :: 0 <= k < |before| && Launches(before[k]) {
        var k :| 0 <= k < |before| && Launches(before[k]);
        assert run[k] == before[k];
      }
      if Launches(e) { assert run[|before|] == e; }
    }
  }

  /** The `k`-th event is the first launch of the run. */
  ghost predicate FirstLaunch(run: seq<Event>, k: nat) {
    k < |run| && Launches(run[k]) && forall i :: 0 <= i < k ==> !Launches(run[i])
  }

  /** The first launch names its caller and owns its timers. */
  ghost predicate LaunchesWell(run: seq<Event>, k: nat) {
    FirstLaunch(run, k) && run[k].launch.callerKnown && run[k].launch.timersOwned
  }

  /** A bootstrap is made exactly by the first launch, and only if that names its caller and owns its timers. */
  lemma {:induction false} BootstrapMade(run: seq<Event>)
    ensures Run(run).boots != [] <==> exists k: nat :: LaunchesWell(run, k)
    decreases |run|
  {
    if run != [] {
      var before, e := run[..|run| - 1], run[|run| - 1];
      assert run == before + [e];
      BootstrapMade(before);
      LatchSpent(before);
      EveryMove(before, e);
      if k: nat :| LaunchesWell(before, k) { assert LaunchesWell(run, k); }
      if k: nat :| LaunchesWell(run, k) && k < |before| { assert LaunchesWell(before, k); }
      if Arming(Run(before), e) {
        assert forall i :: 0 <= i < |before| ==> run[i] == before[i];
        assert LaunchesWell(run, |before|);
      }
    }
  }

  // ---- timers -----------------------------------------------------------------------

  /** The vendor clears a timer when it is asked to. */
  predicate Clears(e: Event) {
    match e
    case Edge(_, _, _, v) => v.clears
    case ToolResult(_, _, _, v) => v.clears
    case TurnEnd(_, v) => v.clears
    case Fire(_, _, v) => v.clears
    case SendReturns(_, _, v) => v.clears
    case _ => true
  }

  predicate Stopped(h: Host) {
    h.boots != [] && h.boots[0].phase != Waiting ==> h.boots[0].live == map[]
  }

  lemma StepStops(h: Host, e: Event)
    requires Inv(h) && Clears(e) && Stopped(h)
    ensures Stopped(Step(h, e))
  {}

  /** A bootstrap that no longer waits has no timer left, where the vendor clears what it is asked to. */
  lemma {:induction false} TimersStopped(run: seq<Event>)
    requires forall k :: 0 <= k < |run| ==> Clears(run[k])
    ensures Stopped(Run(run))
    decreases |run|
  {
    if run != [] {
      TimersStopped(run[..|run| - 1]);
      RunKeeps(run[..|run| - 1]);
      StepStops(Run(run[..|run| - 1]), run[|run| - 1]);
    }
  }

  // ---- the whole chain --------------------------------------------------------------

  /** The states a run goes through, the first and the last included. */
  ghost function States(run: seq<Event>): (hs: seq<Host>)
    ensures |hs| == |run| + 1
  {
    seq(|run| + 1, k requires 0 <= k <= |run| => Run(run[..k]))
  }

  /** `t` follows `h` by the event `e`. */
  ghost predicate Link(h: Host, t: Host, e: Event) {
    && Inv(h) && Inv(t) && Moved(h, t, e)
    && Sent(t.boots) == Sent(h.boots) + Hands(h, e)
    && (h.boots == [] ==> Sent(h.boots) == [])
    && (t.boots != [] ==> Sent(t.boots) == t.boots[0].sent)
  }

  ghost predicate Follows(run: seq<Event>, hs: seq<Host>) {
    |hs| == |run| + 1 && hs[0] == Initial && forall k :: 0 <= k < |run| ==> Link(hs[k], hs[k + 1], run[k])
  }

  lemma RunLinks(run: seq<Event>, e: Event)
    ensures Link(Run(run), Run(run + [e]), e)
  {
    RunKeeps(run);
    RunKeeps(run + [e]);
    EveryMove(run, e);
    Handed(run, e);
    SentOf(Run(run));
    SentOf(Run(run + [e]));
  }

  lemma LinkAt(run: seq<Event>, k: nat)
    requires k < |run|
    ensures Link(States(run)[k], States(run)[k + 1], run[k])
  {
    assert run[..k + 1] == run[..k] + [run[k]];
    RunLinks(run[..k], run[k]);
  }

  lemma StatesEnds(run: seq<Event>)
    ensures States(run)[0] == Initial && States(run)[|run|] == Run(run)
  {
    assert run[..|run|] == run;
  }

  lemma StatesFollow(run: seq<Event>)
    ensures Follows(run, States(run)) && States(run)[|run|] == Run(run)
  {
    StatesEnds(run);
    var hs := States(run);
    forall k | 0 <= k < |run| ensures Link(hs[k], hs[k + 1], run[k]) { LinkAt(run, k); }
  }

  ghost predicate NoCall(run: seq<Event>, from: nat, to: nat, sid: string)
    requires to <= |run|
  {
    forall k :: from <= k < to ==> !CallOf(run[k], sid)
  }

  ghost predicate NoResult(run: seq<Event>, from: nat, to: nat, sid: string, id: Option<string>)
    requires to <= |run|
  {
    forall k :: from <= k < to ==> !ResultOf(run[k], sid, id)
  }

  ghost predicate NoTurn(run: seq<Event>, from: nat, to: nat, sid: string)
    requires to <= |run|
  {
    forall k :: from <= k < to ==> !TurnOf(run[k], sid)
  }

  ghost predicate NoEnd(run: seq<Event>, hs: seq<Host>, from: nat, to: nat)
    requires to <= |run| < |hs|
  {
    forall k :: from <= k < to ==> !Ends(hs[k], run[k])
  }

  /** Where in a run the prompt went out, and the first call, result and turn end after it. */
  datatype Way = Way(prompted: nat, called: nat, released: nat, delivered: nat)

  /** The prompt went out at `prompted` and nothing ended the bootstrap up to `to`. */
  ghost predicate Prompted(run: seq<Event>, hs: seq<Host>, w: Way, to: nat)
    requires to <= |run| < |hs|
  {
    && w.prompted < to && NoEnd(run, hs, w.prompted + 1, to)
    && Sent(hs[w.prompted].boots) == [] && Sent(hs[w.prompted + 1].boots) == [CallbackPrompt]
  }

  /** The first matching call after it ... */
  ghost predicate Called(run: seq<Event>, hs: seq<Host>, w: Way, to: nat, sid: string)
    requires to <= |run| < |hs|
  {
    && Prompted(run, hs, w, to) && w.prompted < w.called < to
    && NoCall(run, w.prompted + 1, w.called, sid) && CallOf(run[w.called], sid)
  }

  /** ... the first result of that call that is no error ... */
  ghost predicate Freed(run: seq<Event>, hs: seq<Host>, w: Way, to: nat, sid: string)
    requires to <= |run| < |hs|
  {
    && Called(run, hs, w, to, sid) && w.called < w.released < to
    && NoResult(run, w.called + 1, w.released, sid, run[w.called].tool.callId)
    && ResultOf(run[w.released], sid, run[w.called].tool.callId)
  }

  /** ... and the first turn end after that. */
  ghost predicate Delivered(run: seq<Event>, hs: seq<Host>, w: Way, sid: string)
    requires |run| < |hs|
  {
    && w.released < w.delivered < |run|
    && Freed(run, hs, w, w.delivered, sid) && NoTurn(run, w.released + 1, w.delivered, sid)
    && TurnOf(run[w.delivered], sid)
  }

  /** The way tells how far the process got. */
  ghost predicate Tells(run: seq<Event>, hs: seq<Host>, w: Way, b: Boot)
    requires |run| < |hs|
  {
    match b.phase
    case CallbackSent =>
      if b.callId.None? then Prompted(run, hs, w, |run|) && NoCall(run, w.prompted + 1, |run|, b.sessionId)
      else Called(run, hs, w, |run|, b.sessionId) && b.callId == run[w.called].tool.callId
           && NoResult(run, w.called + 1, |run|, b.sessionId, b.callId)
    case Released =>
      Freed(run, hs, w, |run|, b.sessionId) && NoTurn(run, w.released + 1, |run|, b.sessionId)
    case TaskSent =>
      Delivered(run, hs, w, b.sessionId) && (Task(b.task) in b.sent <==> run[w.delivered].vendor.canSend)
    case _ => true
  }

  // ---- what happened tells how far it got -------------------------------------------

  /** What holds up to `to` in a prefix holds in the whole, and the other way. */
  lemma WayGrows(run: seq<Event>, hs: seq<Host>, more: seq<Event>, ms: seq<Host>, w: Way, to: nat, sid: string)
    requires to <= |run| < |hs| && run <= more && hs <= ms && |more| < |ms|
    ensures Prompted(run, hs, w, to) <==> Prompted(more, ms, w, to)
    ensures Called(run, hs, w, to, sid) <==> Called(more, ms, w, to, sid)
    ensures Freed(run, hs, w, to, sid) <==> Freed(more, ms, w, to, sid)
  {}

  lemma WayLasts(run: seq<Event>, hs: seq<Host>, w: Way, to: nat, sid: string)
    requires to < |run| < |hs| && !Ends(hs[to], run[to])
    ensures Prompted(run, hs, w, to) ==> Prompted(run, hs, w, to + 1)
    ensures Called(run, hs, w, to, sid) ==> Called(run, hs, w, to + 1, sid)
    ensures Freed(run, hs, w, to, sid) ==> Freed(run, hs, w, to + 1, sid)
  {}

  ghost function NextWay(h: Host, e: Event, at: nat, w: Way): Way {
    if SendsPrompt(h, e) then Way(at, 0, 0, 0)
    else if Names(h, e) then w.(called := at)
    else if Frees(h, e) then w.(released := at)
    else if Turns(h, e) then w.(delivered := at)
    else w
  }

  /** One more event: the run but its last is told by `w`. */
  ghost predicate Extends(run: seq<Event>, hs: seq<Host>, w: Way) {
    && run != [] && Follows(run, hs)
    && (hs[|run| - 1].boots != [] ==> Tells(run[..|run| - 1], hs[..|run|], w, hs[|run| - 1].boots[0]))
  }

  lemma PromptTells(run: seq<Event>, hs: seq<Host>, w: Way)
    requires Follows(run, hs) && run != [] && SendsPrompt(hs[|run| - 1], run[|run| - 1])
    ensures Prompted(run, hs, Way(|run| - 1, 0, 0, 0), |run|)
    ensures hs[|run|].boots != [] && hs[|run|].boots[0].phase == CallbackSent && hs[|run|].boots[0].callId.None?
  {
    var h, e := hs[|run| - 1], run[|run| - 1];
    assert Link(h, hs[|run|], e);
    assert [] + [CallbackPrompt] == [CallbackPrompt];
    if h.boots != [] { SentOf(h); }
  }

  /** Where a prompted bootstrap goes by an event that does not end it. */
  lemma FromPrompted(h: Host, t: Host, e: Event)
    requires Link(h, t, e) && InPhase(h, CallbackSent) && !Ends(h, e)
    ensures !SendsPrompt(h, e) && !Turns(h, e) && t.boots != [] && t.boots[0].sessionId == h.boots[0].sessionId
    ensures t.boots[0].phase == if Frees(h, e) then Released else CallbackSent
    ensures t.boots[0].callId == if Names(h, e) then e.tool.callId else h.boots[0].callId
  {}

  lemma FromReleased(h: Host, t: Host, e: Event)
    requires Link(h, t, e) && InPhase(h, Released) && !Ends(h, e)
    ensures !SendsPrompt(h, e) && !Names(h, e) && !Frees(h, e)
    ensures t.boots != [] && SameBoot(h.boots[0], t.boots[0])
    ensures t.boots[0].phase == if Turns(h, e) then TaskSent else Released
    ensures t.boots[0].sent == [CallbackPrompt] + if SendsTask(h, e) then [Task(h.boots[0].task)] else []
  {
    SentOf(h);
  }

  /** The run as it was before its last event, seen in the whole run. */
  lemma LastGrows(run: seq<Event>, hs: seq<Host>, w: Way, sid: string)
    requires Follows(run, hs) && run != [] && !Ends(hs[|run| - 1], run[|run| - 1])
    ensures var n := |run| - 1;
      && (Prompted(run[..n], hs[..n + 1], w, n) ==> Prompted(run, hs, w, n) && Prompted(run, hs, w, n + 1))
      && (Called(run[..n], hs[..n + 1], w, n, sid) ==> Called(run, hs, w, n, sid) && Called(run, hs, w, n + 1, sid))
      && (Freed(run[..n], hs[..n + 1], w, n, sid) ==> Freed(run, hs, w, n, sid) && Freed(run, hs, w, n + 1, sid))
  {
    var n := |run| - 1;
    WayGrows(run[..n], hs[..n + 1], run, hs, w, n, sid);
    WayLasts(run, hs, w, n, sid);
  }

  /** What did not happen before the last event, and not at it, did not happen. */
  lemma NoneGrows(run: seq<Event>, from: nat, sid: string, id: Option<string>)
    requires run != []
    ensures var n := |run| - 1;
      && (from <= n && NoCall(run[..n], from, n, sid) ==> NoCall(run, from, n, sid))
      && (from <= n && NoResult(run[..n], from, n, sid, id) ==> NoResult(run, from, n, sid, id))
      && (from <= n && NoTurn(run[..n], from, n, sid) ==> NoTurn(run, from, n, sid))
  {}

  /** A bootstrap without a call is told one event further. */
  lemma CallTold(run: seq<Event>, hs: seq<Host>, w: Way, d: Boot)
    requires |run| < |hs| && run != [] && d.phase == CallbackSent
    requires Prompted(run, hs, w, |run| - 1) && Prompted(run, hs, w, |run|)
    requires NoCall(run, w.prompted + 1, |run| - 1, d.sessionId)
    requires d.callId == if CallOf(run[|run| - 1], d.sessionId) then run[|run| - 1].tool.callId else None
    ensures Tells(run, hs, if CallOf(run[|run| - 1], d.sessionId) then w.(called := |run| - 1) else w, d)
  {}

  lemma CallsTell(run: seq<Event>, hs: seq<Host>, w: Way)
    requires Extends(run, hs, w) && InPhase(hs[|run| - 1], CallbackSent) && !Ends(hs[|run| - 1], run[|run| - 1])
    requires hs[|run| - 1].boots[0].callId.None?
    ensures hs[|run|].boots != []
    ensures Tells(run, hs, NextWay(hs[|run| - 1], run[|run| - 1], |run| - 1, w), hs[|run|].boots[0])
  {
    var n := |run| - 1;
    var sid := hs[n].boots[0].sessionId;
    FromPrompted(hs[n], hs[n + 1], run[n]);
    LastGrows(run, hs, w, sid);
    NoneGrows(run, w.prompted + 1, sid, None);
    CallTold(run, hs, w, hs[n + 1].boots[0]);
  }

  lemma ResultTold(run: seq<Event>, hs: seq<Host>, w: Way, d: Boot)
    requires |run| < |hs| && run != []
    requires Called(run, hs, w, |run| - 1, d.sessionId) && Called(run, hs, w, |run|, d.sessionId)
    requires d.callId.Some? && d.callId == run[w.called].tool.callId
    requires NoResult(run, w.called + 1, |run| - 1, d.sessionId, d.callId)
    requires d.phase == if ResultOf(run[|run| - 1], d.sessionId, d.callId) then Released else CallbackSent
    ensures Tells(run, hs, if ResultOf(run[|run| - 1], d.sessionId, d.callId) then w.(released := |run| - 1) else w, d)
  {}

  lemma ResultsTell(run: seq<Event>, hs: seq<Host>, w: Way)
    requires Extends(run, hs, w) && InPhase(hs[|run| - 1], CallbackSent) && !Ends(hs[|run| - 1], run[|run| - 1])
    requires hs[|run| - 1].boots[0].callId.Some?
    ensures hs[|run|].boots != []
    ensures Tells(run, hs, NextWay(hs[|run| - 1], run[|run| - 1], |run| - 1, w), hs[|run|].boots[0])
  {
    var n := |run| - 1;
    var sid, id := hs[n].boots[0].sessionId, hs[n].boots[0].callId;
    FromPrompted(hs[n], hs[n + 1], run[n]);
    LastGrows(run, hs, w, sid);
    NoneGrows(run, w.called + 1, sid, id);
    ResultTold(run, hs, w, hs[n + 1].boots[0]);
  }

  lemma TurnsTell(run: seq<Event>, hs: seq<Host>, w: Way)
    requires Extends(run, hs, w) && InPhase(hs[|run| - 1], Released) && !Ends(hs[|run| - 1], run[|run| - 1])
    ensures hs[|run|].boots != []
    ensures Tells(run, hs, NextWay(hs[|run| - 1], run[|run| - 1], |run| - 1, w), hs[|run|].boots[0])
  {
    var n := |run| - 1;
    var sid := hs[n].boots[0].sessionId;
    FromReleased(hs[n], hs[n + 1], run[n]);
    LastGrows(run, hs, w, sid);
    NoneGrows(run, w.released + 1, sid, None);
    WayGrows(run, hs, run, hs, w.(delivered := n), n, sid);
  }

  lemma SentTells(run: seq<Event>, hs: seq<Host>, w: Way)
    requires Extends(run, hs, w) && hs[|run| - 1].boots != [] && hs[|run| - 1].boots[0].phase == TaskSent
    ensures hs[|run|].boots != [] && Tells(run, hs, w, hs[|run|].boots[0])
  {
    var n := |run| - 1;
    assert Link(hs[n], hs[n + 1], run[n]);
    SentOf(hs[n]);
    assert hs[n].boots[0].sent + [] == hs[n].boots[0].sent;
    WayGrows(run[..n], hs[..n + 1], run, hs, w, w.delivered, hs[n].boots[0].sessionId);
  }

  lemma NextTells(run: seq<Event>, hs: seq<Host>, w: Way)
    requires Extends(run, hs, w) && hs[|run|].boots != []
    ensures Tells(run, hs, NextWay(hs[|run| - 1], run[|run| - 1], |run| - 1, w), hs[|run|].boots[0])
  {
    var h, e := hs[|run| - 1], run[|run| - 1];
    assert Link(h, hs[|run|], e);
    if SendsPrompt(h, e) {
      PromptTells(run, hs, w);
    } else if h.boots != [] && h.boots[0].phase == TaskSent {
      SentTells(run, hs, w);
    } else if !Ends(h, e) {
      if InPhase(h, CallbackSent) {
        if h.boots[0].callId.None? { CallsTell(run, hs, w); } else { ResultsTell(run, hs, w); }
      }
      if InPhase(h, Released) { TurnsTell(run, hs, w); }
    }
  }

  lemma {:induction false} Told(run: seq<Event>, hs: seq<Host>) returns (w: Way)
    requires Follows(run, hs)
    ensures hs[|run|].boots != [] ==> Tells(run, hs, w, hs[|run|].boots[0])
    decreases |run|
  {
    w := Way(0, 0, 0, 0);
    if run != [] {
      w := Told(run[..|run| - 1], hs[..|run|]);
      if hs[|run|].boots != [] { NextTells(run, hs, w); }
      w := NextWay(hs[|run| - 1], run[|run| - 1], |run| - 1, w);
    }
  }

  // ---- and how far it got follows from what happened --------------------------------

  lemma {:induction false} KeepsBoot(run: seq<Event>, hs: seq<Host>, k: nat)
    requires Follows(run, hs) && k <= |run| && hs[k].boots != []
    ensures hs[|run|].boots != [] && SameBoot(hs[k].boots[0], hs[|run|].boots[0])
    decreases |run| - k
  {
    if k < |run| {
      assert Link(hs[k], hs[k + 1], run[k]);
      KeepsBoot(run, hs, k + 1);
    }
  }

  /** A live bootstrap of the session `sid` that stands at `phase` with the call `id`. */
  predicate StandsAt(h: Host, phase: Phase, id: Option<string>, sid: string) {
    InPhase(h, phase) && h.boots[0].callId == id && h.boots[0].sessionId == sid
  }

  /** While no end comes and nothing of what it waits for, a bootstrap stays where it is. */
  lemma {:induction false} StandsStill(run: seq<Event>, hs: seq<Host>, from: nat, k: nat,
                                       phase: Phase, id: Option<string>, sid: string)
    requires Follows(run, hs) && from <= k <= |run| && StandsAt(hs[from], phase, id, sid) && NoEnd(run, hs, from, k)
    requires phase == CallbackSent || phase == Released
    requires phase == CallbackSent && id.None? ==> NoCall(run, from, k, sid)
    requires phase == CallbackSent && id.Some? ==> NoResult(run, from, k, sid, id)
    requires phase == Released ==> NoTurn(run, from, k, sid)
    ensures StandsAt(hs[k], phase, id, sid)
    decreases k
  {
    if from < k {
      StandsStill(run, hs, from, k - 1, phase, id, sid);
      assert Link(hs[k - 1], hs[k], run[k - 1]);
    }
  }

  lemma PromptStands(h: Host, t: Host, e: Event)
    requires Link(h, t, e) && Sent(h.boots) == [] && Sent(t.boots) == [CallbackPrompt]
    ensures t.boots != [] && StandsAt(t, CallbackSent, None, t.boots[0].sessionId)
  {
    assert [] + Hands(h, e) == Hands(h, e);
    assert SendsPrompt(h, e);
  }

  lemma CalledStands(run: seq<Event>, hs: seq<Host>, w: Way, to: nat, sid: string)
    requires Follows(run, hs) && to <= |run| && Called(run, hs, w, to, sid)
    requires hs[|run|].boots != [] && hs[|run|].boots[0].sessionId == sid
    ensures StandsAt(hs[w.called + 1], CallbackSent, run[w.called].tool.callId, sid)
  {
    PromptStands(hs[w.prompted], hs[w.prompted + 1], run[w.prompted]);
    KeepsBoot(run, hs, w.prompted + 1);
    StandsStill(run, hs, w.prompted + 1, w.called, CallbackSent, None, sid);
    assert Link(hs[w.called], hs[w.called + 1], run[w.called]);
  }

  lemma FreedStands(run: seq<Event>, hs: seq<Host>, w: Way, to: nat, sid: string)
    requires Follows(run, hs) && to <= |run| && Freed(run, hs, w, to, sid)
    requires hs[|run|].boots != [] && hs[|run|].boots[0].sessionId == sid
    ensures StandsAt(hs[w.released + 1], Released, run[w.called].tool.callId, sid)
  {
    CalledStands(run, hs, w, to, sid);
    StandsStill(run, hs, w.called + 1, w.released, CallbackSent, run[w.called].tool.callId, sid);
    assert Link(hs[w.released], hs[w.released + 1], run[w.released]);
  }

  /** The prompt, the first call after it, its first good result, the first turn end after that: and that can send. */
  ghost predicate Completes(run: seq<Event>, hs: seq<Host>, w: Way, sid: string)
    requires |run| < |hs|
  {
    Delivered(run, hs, w, sid) && run[w.delivered].vendor.canSend
  }

  lemma CompleteSends(run: seq<Event>, hs: seq<Host>, w: Way)
    requires Follows(run, hs) && hs[|run|].boots != [] && Completes(run, hs, w, hs[|run|].boots[0].sessionId)
    ensures Task(hs[|run|].boots[0].task) in Sent(hs[|run|].boots)
  {
    var sid, d := hs[|run|].boots[0].sessionId, w.delivered;
    FreedStands(run, hs, w, d, sid);
    StandsStill(run, hs, w.released + 1, d, Released, run[w.called].tool.callId, sid);
    assert Link(hs[d], hs[d + 1], run[d]);
    KeepsBoot(run, hs, d + 1);
    SentStays(run, hs, d + 1, Task(hs[|run|].boots[0].task));
  }

  lemma {:induction false} SentStays(run: seq<Event>, hs: seq<Host>, k: nat, m: Message)
    requires Follows(run, hs) && k <= |run| && m in Sent(hs[k].boots)
    ensures m in Sent(hs[|run|].boots)
    decreases |run| - k
  {
    if k < |run| {
      assert Link(hs[k], hs[k + 1], run[k]);
      SentStays(run, hs, k + 1, m);
    }
  }

  lemma SentCompletes(run: seq<Event>, hs: seq<Host>, text: string)
    requires Follows(run, hs) && Inv(hs[|run|]) && Task(text) in Sent(hs[|run|].boots)
    ensures hs[|run|].boots != [] && hs[|run|].boots[0].task == text
    ensures exists w :: Completes(run, hs, w, hs[|run|].boots[0].sessionId)
  {
    SentOf(hs[|run|]);
    DeliveredLast(hs[|run|].boots[0], text);
    var w := Told(run, hs);
    assert Completes(run, hs, w, hs[|run|].boots[0].sessionId);
  }

  /**
    The launch text is sent exactly when its chain is complete, in any run: after the prompt, the first call
    of the callback tool by its session, the first result of that very call that is no error, the first turn
    end after that, which can send; and up to there no visible birth and no send that threw.
  */
  lemma {:induction false} TaskSentIff(run: seq<Event>, text: string)
    ensures var boots := Run(run).boots;
      Task(text) in Sent(boots) <==>
        boots != [] && boots[0].task == text
        && exists w :: Completes(run, States(run), w, boots[0].sessionId)
  {
    var hs := States(run);
    StatesFollow(run);
    RunKeeps(run);
    if Task(text) in Sent(hs[|run|].boots) { SentCompletes(run, hs, text); }
    if hs[|run|].boots != [] {
      if w :| Completes(run, hs, w, hs[|run|].boots[0].sessionId) { CompleteSends(run, hs, w); }
    }
  }
}
