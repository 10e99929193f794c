/**
  Birth, readiness and retirement of the doorbell contact: the ready promise settles once,
  the bridge child is never left open, and the receiver marker stands for an armed doorbell.
*/
module DurableLife {
  import opened Option
  import opened DurableModel

  ghost predicate LifeInv(l: Life) {
    && l.settles == (if l.promise == Unsettled then 0 else 1)
    && (l.promise == Unsettled <==> l.phase in {Pending, Attaching})
    && (l.phase == Ready ==> l.promise == Released)
    && (l.phase == Failed ==> l.promise == Refused)
    && (l.promise == Released ==> l.attachPc == Finished && l.phase in {Ready, Closed})
    && (l.phase == Pending ==> l.attachPc == NotStarted)
    && (l.phase == Attaching ==> l.attachPc in {Connecting, Listing, Cleaning})
    && (l.attachPc in {NotStarted, Connecting} ==> l.bridge == NoBridge)
    && (l.bridge == OpenBridge <==> l.attachPc == Listing || l.phase == Ready || l.closeOwed)
    && (l.closeOwed ==> l.phase == Closed && l.promise == Released)
  }

  ghost predicate BellInv(l: Life, b: Bell) {
    && (b.armed ==> l.phase == Ready)
    && (b.armed <==> b.report == Armed)
    && (b.inbox <==> b.report != Off)
    && (b.armed ==> b.watchOpen && (!b.foreign ==> b.marker == OurMarker))
    && (!b.cleanupFailed && !b.armed ==> !b.watchOpen && b.marker != OurMarker)
    && (l.attachPc in {NotStarted, Connecting, Listing} ==>
          b.report == Off && b.marker != OurMarker && !b.watchOpen && !b.cleanupFailed)
  }

  ghost predicate Inv(s: State) {
    LifeInv(s.life) && BellInv(s.life, s.bell)
  }

  // ---- what each stretch does to the bell and the life ------------------------------

  /** The bell after a stretch in which it may have been retired. */
  ghost predicate Tolled(b: Bell, t: Bell) {
    t == b || exists reason, io :: t == Retire(b, reason, io)
  }

  lemma RoundBell(b: Bell, m: Mail, why: Why, io: Io)
    ensures Tolled(b, Round(b, m, why, io).bell)
  {
    assert Tolled(b, Retire(b, SignalVanished, io));
    assert Tolled(b, Retire(b, DoorbellFailed, io));
  }

  lemma RingBell(s: State, why: Why, io: Io)
    ensures Ring(s, why, io).life == s.life && Tolled(s.bell, Ring(s, why, io).bell)
  {
    if s.bell.armed && !s.gate.gated {
      RoundBell(s.bell, s.mail.(signalled := s.mail.signalled + WithMark(s.mail.box, Fresh)), why, io);
    }
  }

  lemma LeaveGateBell(s: State, io: Io)
    ensures LeaveGate(s, io).life == s.life && Tolled(s.bell, LeaveGate(s, io).bell)
  {
    RingBell(s.(gate := HandOver(s.gate)), Signal, io);
  }

  lemma AdmitBell(s: State, io: Io)
    requires s.gate.pass.Some? && s.gate.pass.value.names != []
    ensures Admit(s, io).life == s.life && Tolled(s.bell, Admit(s, io).bell)
  {
    var p := s.gate.pass.value;
    var t := s.(gate := s.gate.(pass := None), mail := PushNotice(s.mail, p));
    RoundBell(t.bell, t.mail, p.why, io);
    LeaveGateBell(t, io);
  }

  /** After a rejected admission the doorbell is gone, so leaving the gate cannot ring it again. */
  lemma RejectBell(s: State, io: Io)
    requires s.gate.pass.Some?
    ensures Reject(s, io).life == s.life && Reject(s, io).bell == Retire(s.bell, AdmissionRejected, io)
  {}

  lemma TolledKeeps(l: Life, b: Bell, t: Bell)
    requires BellInv(l, b) && Tolled(b, t)
    ensures BellInv(l, t)
  {}

  lemma ListSettledKeeps(s: State, agrees: bool, arm: ArmOutcome, io: Io)
    requires Inv(s) && s.life.attachPc == Listing
    ensures Inv(ListSettled(s, agrees, arm, io))
  {
    if agrees && s.life.phase == Attaching && arm == ArmSucceeds {
      var t := s.(life := GoReady(s.life), bell := Publish(s.bell));
      RingBell(t, Startup, io);
      TolledKeeps(t.life, t.bell, Ring(t, Startup, io).bell);
    }
  }

  lemma StepKeeps(s: State, e: Event)
    requires Inv(s)
    ensures Inv(Step(s, e))
  {
    if Enabled(s, e) {
      match e
      case EList(agrees, arm, io) => ListSettledKeeps(s, agrees, arm, io);
      case ESignal(io) => RingBell(s, Signal, io); TolledKeeps(s.life, s.bell, Step(s, e).bell);
      case EAdmit(io) => AdmitBell(s, io); TolledKeeps(s.life, s.bell, Step(s, e).bell);
      case EReject(io) => RejectBell(s, io);
      case ELeave(r, io) =>
        LeaveGateBell(s.(gate := s.gate.(readers := s.gate.readers - {r})), io);
        TolledKeeps(s.life, s.bell, Step(s, e).bell);
      case _ =>
    }
  }

  lemma {:induction false} RunKeeps(run: seq<Event>)
    ensures Inv(Run(run))
    decreases |run|
  {
    if run != [] {
      RunKeeps(run[..|run| - 1]);
      StepKeeps(Run(run[..|run| - 1]), run[|run| - 1]);
    }
  }

  // ---- the promises over whole runs -------------------------------------------------

  /** The ready promise settles at most once, and exactly when the state is ready, failed or closed. */
  lemma {:induction false} ReadySettlesOnce(run: seq<Event>)
    ensures var l := Run(run).life;
      && l.settles <= 1
      && (l.settles == 1 <==> l.phase in {Ready, Failed, Closed})
      && (l.phase == Ready ==> l.promise == Released)
      && (l.phase == Failed ==> l.promise == Refused)
  {
    RunKeeps(run);
  }

  /** The bridge child is open exactly while a birth lists it, a ready contact uses it or a close still owes its end. */
  lemma {:induction false} BridgeNeverLeaks(run: seq<Event>)
    ensures var l := Run(run).life;
      l.bridge == OpenBridge <==> l.attachPc == Listing || l.phase == Ready || l.closeOwed
  {
    RunKeeps(run);
  }

  /** Cleanups succeeding and nobody else touching it, our receiver marker stands exactly while the doorbell is armed. */
  lemma {:induction false} MarkerMeansArmed(run: seq<Event>)
    ensures var b := Run(run).bell;
      && (!b.cleanupFailed ==> (b.marker == OurMarker ==> b.armed) && (b.watchOpen <==> b.armed))
      && (!b.foreign ==> (b.armed ==> b.marker == OurMarker))
  {
    RunKeeps(run);
  }

  /** How a report may change in one stretch: off to armed to retired, never back, never to another reason. */
  predicate ReportMoves(r: Report, t: Report) {
    t == r || (r == Off && t == Armed) || (r != Off && !r.Retired? && t.Retired?) || (r == Off && t.Retired?)
  }

  /** How a phase may change: ready, failed and closed are not left, except for closed. */
  predicate PhaseMoves(p: Phase, t: Phase) {
    t == p || t == Closed || p == Pending || p == Attaching
  }

  lemma {:induction false} StepMoves(s: State, e: Event)
    requires Inv(s)
    ensures ReportMoves(s.bell.report, Step(s, e).bell.report)
    ensures PhaseMoves(s.life.phase, Step(s, e).life.phase)
    ensures s.life.phase == Closed ==> Step(s, e).life.phase == Closed
    ensures s.life.phase == Failed ==> Step(s, e).life.phase in {Failed, Closed}
    ensures s.life.phase in {Failed, Closed} && s.bell.report == Off ==> Step(s, e).bell.report == Off
  {
    if Enabled(s, e) {
      match e
      case EList(agrees, arm, io) =>
        if agrees && s.life.phase == Attaching && arm == ArmSucceeds {
          RingBell(s.(life := GoReady(s.life), bell := Publish(s.bell)), Startup, io);
        }
      case ESignal(io) => RingBell(s, Signal, io);
      case EAdmit(io) => AdmitBell(s, io);
      case EReject(io) => RejectBell(s, io);
      case ELeave(r, io) => LeaveGateBell(s.(gate := s.gate.(readers := s.gate.readers - {r})), io);
      case _ =>
    }
  }

  /** A retirement is final: no later event re-arms the doorbell or changes why it went. */
  lemma {:induction false} RetirementIsFinal(run: seq<Event>, more: seq<Event>)
    requires Run(run).bell.report.Retired?
    ensures Run(run + more).bell.report == Run(run).bell.report
    decreases |more|
  {
    if more == [] {
      assert run + more == run;
    } else {
      var shorter := more[..|more| - 1];
      RetirementIsFinal(run, shorter);
      RunKeeps(run + shorter);
      StepMoves(Run(run + shorter), more[|more| - 1]);
      RunSnoc(run + shorter, more[|more| - 1]);
      assert run + more == run + shorter + [more[|more| - 1]];
    }
  }

  /**
    A contact that left attaching before its birth finished never becomes ready and never arms,
    whatever happens later; and once its birth is over, the bridge it opened is closed.
  */
  lemma {:induction false} LeftAttachingNeverArms(run: seq<Event>, more: seq<Event>)
    requires Run(run).life.phase in {Failed, Closed} && Run(run).life.promise == Refused
    ensures var t := Run(run + more);
      && t.life.phase in {Failed, Closed} && t.life.promise == Refused && !t.bell.armed
      && (t.life.attachPc == Finished ==> t.life.bridge != OpenBridge)
      && (Run(run).bell.report == Off ==> t.bell.report == Off)
    decreases |more|
  {
    RunKeeps(run + more);
    if more == [] {
      assert run + more == run;
    } else {
      var shorter := more[..|more| - 1];
      LeftAttachingNeverArms(run, shorter);
      RunKeeps(run + shorter);
      StepMoves(Run(run + shorter), more[|more| - 1]);
      RunSnoc(run + shorter, more[|more| - 1]);
      assert run + more == run + shorter + [more[|more| - 1]];
    }
  }
}
