/**
  The bootstrap and the module that owns it, as the objects they are. Each method is one
  handler, timer callback or helper of the extension, proved to do what the transition
  system says; a send only starts here, and its return is a call of its own.
*/
module OmpBootstrap {
  import opened Option
  import opened OmpModel

  class Bootstrap {
    const sessionId: string
    const task: string
    const born: nat
    var phase: Phase
    var timer: Option<TimerId>
    var callId: Option<string>

    // the creator's context
    var live: map<TimerId, nat>
    var made: nat

    ghost var sends: nat
    ghost var sent: seq<Message>
    ghost var looks: nat

    ghost function Model(): Boot reads this {
      Boot(sessionId, task, born, phase, timer, callId, live, made, sends, sent, looks)
    }

    constructor (sessionId: string, task: string, now: nat)
      ensures Model() == NewBoot(sessionId, task, now)
    {
      this.sessionId, this.task, born := sessionId, task, now;
      phase, timer, callId := Waiting, None, None;
      live, made := map[], 0;
      sends, sent, looks := 0, [], 0;
    }

    method StopTimer(v: Vendor)
      modifies this`timer, this`live
      ensures Model() == OmpModel.StopTimer(old(Model()), v)
    {
      if timer.None? { return; }
      if v.clears { live := live - {timer.value}; }
      timer := None;
    }

    /** `fail`, and `invalidate` when another edge ends the epoch. */
    method Fail(v: Vendor)
      modifies this`timer, this`live, this`phase
      ensures Model() == OmpModel.Fail(old(Model()), v)
    {
      StopTimer(v);
      if phase == TaskSent || phase == Failed { return; }
      phase := Failed;
    }

    method Send(m: Message, v: Vendor)
      modifies this
      ensures Model() == OmpModel.Send(old(Model()), m, v)
    {
      if !v.canSend {
        Fail(v);
        return;
      }
      sends, sent := sends + 1, sent + [m];
    }

    method SendReturned(threw: bool, v: Vendor)
      requires sends > 0
      modifies this
      ensures Model() == OmpModel.SendReturned(old(Model()), threw, v)
    {
      sends := sends - 1;
      if threw { Fail(v); }
    }

    method Schedule(now: nat, v: Vendor)
      modifies this
      ensures Model() == OmpModel.Schedule(old(Model()), now, v)
    {
      if !v.schedules {
        Fail(v);
        return;
      }
      timer := Some(made);
      live := live[made := now + POLL_MS];
      made := made + 1;
    }

    /** `start` before anything else happened, and the callback of the readiness timer. */
    method Tick(now: nat, v: Vendor)
      modifies this
      ensures Model() == OmpModel.Tick(old(Model()), now, v)
    {
      timer := None;
      if phase != Waiting { return; }
      looks := looks + 1;
      if v.ready {
        phase := CallbackSent;
        StopTimer(v);
        Send(CallbackPrompt, v);
      } else if now >= born + READY_TIMEOUT_MS {
        Fail(v);
      } else {
        Schedule(now, v);
      }
    }

    method OnToolCall(e: ToolEvent)
      modifies this`callId
      ensures Model() == OmpModel.OnToolCall(old(Model()), e)
    {
      if phase != CallbackSent || callId.Some? { return; }
      if !MatchesCallback(e) { return; }
      if e.callId.None? || e.callId.value == "" { return; }
      callId := e.callId;
    }

    method OnToolResult(e: ToolEvent, isError: Option<bool>, v: Vendor)
      modifies this
      ensures Model() == OmpModel.OnToolResult(old(Model()), e, isError, v)
    {
      if phase != CallbackSent || callId.None? { return; }
      if e.callId != callId { return; }
      if !MatchesCallback(e) { return; }
      if isError != Some(false) { return; }
      phase := Released;
      StopTimer(v);
    }

    method OnTurnEnd(v: Vendor)
      modifies this
      ensures Model() == OmpModel.OnTurnEnd(old(Model()), v)
    {
      if phase != Released { return; }
      phase := TaskSent;
      Send(Task(task), v);
    }
  }

  ghost function Models(boots: seq<Bootstrap>): seq<Boot>
    reads boots
  {
    seq(|boots|, i requires 0 <= i < |boots| reads boots => boots[i].Model())
  }

  /** The module bindings every session and subagent of one process shares. */
  class Bindings {
    var consumed: bool
    var active: Bootstrap?
    var now: nat
    ghost var boots: seq<Bootstrap>
    ghost var activeAt: Option<nat>

    ghost function Model(): Host reads this, boots {
      Host(consumed, activeAt, Models(boots), now)
    }

    ghost predicate Valid() reads this {
      && (forall i, j :: 0 <= i < j < |boots| ==> boots[i] != boots[j])
      && (active == null <==> activeAt.None?)
      && (activeAt.Some? ==> activeAt.value < |boots| && boots[activeAt.value] == active)
    }

    constructor ()
      ensures Valid() && Model() == Initial
    {
      consumed, active, now := false, null, 0;
      boots, activeAt := [], None;
    }

    /** The bootstrap this event belongs to, or null. */
    method BootFor(ctx: Ctx) returns (b: Bootstrap?)
      requires Valid()
      ensures b == null <==> OmpModel.BootFor(Model(), ctx).None?
      ensures b != null ==> b == active && OmpModel.BootFor(Model(), ctx) == activeAt
    {
      if active == null { return null; }
      b := if Accepts(ctx, active.sessionId) then active else null;
    }

    method OnToolCall(ctx: Ctx, tool: ToolEvent)
      requires Valid()
      modifies this, boots
      ensures Valid() && boots == old(boots)
      ensures Model() == Apply(old(Model()), ToolCall(ctx, tool))
    {
      var b := BootFor(ctx);
      if b != null { b.OnToolCall(tool); }
    }

    method OnToolResult(ctx: Ctx, tool: ToolEvent, isError: Option<bool>, v: Vendor)
      requires Valid()
      modifies this, boots
      ensures Valid() && boots == old(boots)
      ensures Model() == Apply(old(Model()), ToolResult(ctx, tool, isError, v))
    {
      var b := BootFor(ctx);
      if b != null { b.OnToolResult(tool, isError, v); }
    }

    method OnTurnEnd(ctx: Ctx, v: Vendor)
      requires Valid()
      modifies this, boots
      ensures Valid() && boots == old(boots)
      ensures Model() == Apply(old(Model()), TurnEnd(ctx, v))
    {
      var b := BootFor(ctx);
      if b != null { b.OnTurnEnd(v); }
    }

    method EndEpoch(v: Vendor)
      requires Valid()
      modifies this`active, this`activeAt, boots
      ensures Valid() && boots == old(boots)
      ensures Model() == OmpModel.EndEpoch(old(Model()), v)
    {
      if !consumed || active == null { return; }
      active.Fail(v);
      active, activeAt := null, None;
    }

    method StartBootstrap(sessionId: string, launch: Launch, v: Vendor)
      requires Valid()
      modifies this, boots
      ensures Valid() && old(boots) <= boots
      ensures Model() == OmpModel.StartBootstrap(old(Model()), sessionId, launch, v)
    {
      if consumed {
        EndEpoch(v);
        return;
      }
      if launch.flag.NoPayload? { return; }
      if !launch.callerKnown || !launch.timersOwned {
        consumed := true;
        return;
      }
      Arm(sessionId, launch.flag.task, v);
    }

    method Arm(sessionId: string, task: string, v: Vendor)
      requires Valid()
      modifies this, boots
      ensures Valid() && old(boots) <= boots
      ensures Model() == OmpModel.Arm(old(Model()), sessionId, task, v)
    {
      if active != null { active.Fail(v); }
      var handle := new Bootstrap(sessionId, task, now);
      active, activeAt := handle, Some(|boots|);
      boots := boots + [handle];
      consumed := true;
      handle.Tick(now, v);
    }

    method OnBirthEdge(ctx: Ctx, envelope: Envelope, launch: Launch, v: Vendor)
      requires Valid()
      modifies this, boots
      ensures Valid() && old(boots) <= boots
      ensures Model() == Apply(old(Model()), Edge(ctx, envelope, launch, v))
    {
      if !ctx.tui { return; }
      EndEpoch(v);
      if envelope.Born? { StartBootstrap(envelope.sessionId, launch, v); }
    }
  }
}
