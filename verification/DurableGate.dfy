/**
  The gate of the doorbell contact: who holds it, in what order it is handed on, and
  why a signal that lands while it is held is never lost.
*/
module DurableGate {
  import opened Option
  import opened Listing
  import opened DurableModel
  import DurableLife

  /** `r` is past the gate: between taking it and leaving it. */
  predicate Active(readers: Readers, r: ReaderId) {
    r in readers && !readers[r].Waiting?
  }

  predicate Idle(readers: Readers) {
    forall r :: r in readers ==> readers[r].Waiting?
  }

  /** The queue holds exactly the waiting reads, each once. */
  ghost predicate Queue(g: Gate) {
    && (forall r :: r in g.waiters <==> r in g.readers && g.readers[r].Waiting?)
    && (forall i, j :: 0 <= i < j < |g.waiters| ==> g.waiters[i] != g.waiters[j])
  }

  /** Mutual exclusion: a held gate has exactly one holder; a free gate has none and nobody waits. */
  ghost predicate GateInv(g: Gate) {
    && Queue(g)
    && (!g.gated ==> g.pass.None? && g.readers == map[])
    && (g.pass.Some? ==> Idle(g.readers))
    && (forall a, b :: Active(g.readers, a) && Active(g.readers, b) ==> a == b)
    && (g.gated && g.pass.None? ==> !Idle(g.readers))
  }

  /** The gate is held by a stretch that is about to give it up. */
  ghost predicate BeingLeft(g: Gate) {
    Queue(g) && g.gated && g.pass.None? && Idle(g.readers)
  }

  /** The names a handled signal announced that no pass has stamped yet. */
  function Owed(m: Mail): set<Name> {
    m.signalled * WithMark(m.box, Fresh)
  }

  ghost predicate WakeInv(s: State) {
    && s.mail.signalled <= s.mail.box.Keys
    && (s.bell.armed && !s.gate.pending ==> Owed(s.mail) == {})
    && (s.bell.armed && !s.gate.gated ==> !s.gate.pending)
  }

  // ---- one helper of the model at a time -------------------------------------------

  lemma HandOverKeeps(g: Gate)
    requires BeingLeft(g)
    ensures GateInv(HandOver(g))
  {
    if g.waiters == [] {
      assert forall r :: r in g.readers ==> r in g.waiters;
    } else {
      var w := g.waiters[0];
      var t := HandOver(g);
      assert w in g.waiters && Active(t.readers, w);
      assert forall r :: r in t.waiters <==> r in g.waiters && r != w by {
        assert g.waiters == [w] + t.waiters;
        assert w !in t.waiters;
      }
    }
  }

  lemma StampFacts(m: Mail, ns: set<Name>)
    ensures var t := StampMail(m, ns);
      t.signalled == m.signalled && t.box.Keys == m.box.Keys && WithMark(t.box, Fresh) == WithMark(m.box, Fresh) - ns
  {}

  lemma AllNames(ns: set<Name>)
    ensures Names(Ascending(ns)) == ns && (Ascending(ns) == [] <==> ns == {})
  {
    if Ascending(ns) == [] {
      assert forall n :: n in ns ==> n in Ascending(ns);
    } else {
      assert Ascending(ns)[0] in ns;
    }
  }

  lemma FailedFacts(b: Bell, m: Mail, ns: set<Name>, io: Io)
    ensures var end := FailedRound(b, m, ns, io);
      && end.mail.signalled == m.signalled && end.mail.box.Keys == m.box.Keys
      && !end.bell.armed && end.pass.None?
  {
    StampFacts(m, ns);
  }

  lemma SentFacts(b: Bell, m: Mail, found: seq<Name>, why: Why)
    requires Names(found) == WithMark(m.box, Fresh)
    ensures var end := SentRound(b, m, found, why);
      && end.mail.signalled == m.signalled && end.mail.box.Keys == m.box.Keys
      && WithMark(end.mail.box, Fresh) == {} && end.pass.Some?
  {
    StampFacts(m, Names(found));
  }

  /**
    A round leaves nothing fresh behind a doorbell that is still armed, and is suspended there exactly when it
    found fresh mail.
  */
  lemma RoundFacts(b: Bell, m: Mail, why: Why, io: Io)
    ensures var end := Round(b, m, why, io);
      && end.mail.signalled == m.signalled && end.mail.box.Keys == m.box.Keys
      && (end.bell.armed ==>
            WithMark(end.mail.box, Fresh) == {} && (end.pass.Some? <==> WithMark(m.box, Fresh) != {}))
  {
    var found := Ascending(WithMark(m.box, Fresh));
    AllNames(WithMark(m.box, Fresh));
    if !b.signal {
    } else if io.pass == ListFails {
      FailedFacts(b, m, {}, io);
    } else if found == [] {
    } else if io.pass.RenameFails? && io.pass.stamped < |found| {
      FailedFacts(b, m, Names(found[..io.pass.stamped]), io);
    } else if io.pass == CountFails {
      FailedFacts(b, m, Names(found), io);
    } else {
      SentFacts(b, m, found, why);
    }
  }

  lemma PassBodyKeeps(s: State, why: Why, io: Io)
    requires BeingLeft(s.gate) && s.mail.signalled <= s.mail.box.Keys
    ensures GateInv(PassBody(s, why, io).gate) && WakeInv(PassBody(s, why, io))
  {
    RoundFacts(s.bell, s.mail, why, io);
    var end := Round(s.bell, s.mail, why, io);
    if end.pass.None? { HandOverKeeps(s.gate.(pending := false)); }
  }

  lemma RingKeeps(s: State, why: Why, io: Io)
    requires GateInv(s.gate) && s.mail.signalled <= s.mail.box.Keys
    requires s.gate.gated ==> WakeInv(s)
    ensures GateInv(Ring(s, why, io).gate) && WakeInv(Ring(s, why, io))
  {
    if s.bell.armed && !s.gate.gated {
      var t := s.(mail := s.mail.(signalled := s.mail.signalled + WithMark(s.mail.box, Fresh)),
                  gate := s.gate.(gated := true));
      PassBodyKeeps(t, why, io);
    }
  }

  /** A stretch that gives up the gate may only leave a wake-up owed that `pending` records. */
  lemma LeaveGateKeeps(s: State, io: Io)
    requires BeingLeft(s.gate) && s.mail.signalled <= s.mail.box.Keys
    requires s.bell.armed && !s.gate.pending ==> Owed(s.mail) == {}
    ensures GateInv(LeaveGate(s, io).gate) && WakeInv(LeaveGate(s, io))
  {
    HandOverKeeps(s.gate);
    var t := s.(gate := HandOver(s.gate));
    if !t.gate.gated && t.gate.pending { RingKeeps(t, Signal, io); }
  }

  lemma AdmitKeeps(s: State, io: Io)
    requires GateInv(s.gate) && WakeInv(s) && s.gate.pass.Some? && s.gate.pass.value.names != []
    ensures GateInv(Admit(s, io).gate) && WakeInv(Admit(s, io))
  {
    var p := s.gate.pass.value;
    var t := s.(gate := s.gate.(pass := None), mail := PushNotice(s.mail, p));
    if t.gate.pending && t.bell.armed { PassBodyKeeps(t, p.why, io); } else { LeaveGateKeeps(t, io); }
  }

  lemma RejectKeeps(s: State, io: Io)
    requires GateInv(s.gate) && WakeInv(s) && s.gate.pass.Some?
    ensures GateInv(Reject(s, io).gate) && WakeInv(Reject(s, io))
  {
    LeaveGateKeeps(
      s.(bell := Retire(s.bell, AdmissionRejected, io),
         gate := s.gate.(pass := None),
         mail := s.mail.(orphans := s.mail.orphans + Names(s.gate.pass.value.names))),
      io);
  }

  /** A read past the gate goes on to another place past the gate. */
  lemma MoveKeeps(g: Gate, r: ReaderId, pc: ReaderPc)
    requires GateInv(g) && Active(g.readers, r) && !pc.Waiting?
    ensures GateInv(g.(readers := g.readers[r := pc]))
  {
    var t := g.(readers := g.readers[r := pc]);
    assert Active(t.readers, r);
    assert forall x :: Active(t.readers, x) <==> Active(g.readers, x);
  }

  lemma {:induction false} JudgeFacts(m: Mail, unread: set<Name>, rest: seq<Notice>)
    ensures var end := Judge(m, unread, rest);
      end.mail.signalled == m.signalled && end.mail.box == m.box && !end.pc.Waiting?
    decreases |rest|
  {
    if rest != [] && HasUnread(rest[0], unread) { JudgeFacts(m, unread, rest[1..]); }
  }

  lemma EnterKeeps(g: Gate, r: ReaderId)
    requires GateInv(g) && r !in g.readers
    ensures GateInv(EnterGate(g, r))
  {
    var t := EnterGate(g, r);
    if g.gated {
      assert forall x :: Active(t.readers, x) <==> Active(g.readers, x);
      assert r !in g.waiters;
      assert forall x :: x in t.waiters <==> x in g.waiters || x == r;
    } else {
      assert Active(t.readers, r);
      assert forall i :: 0 <= i < |g.waiters| ==> g.waiters[i] in g.waiters;
    }
  }

  lemma LeavesKeeps(s: State, r: ReaderId, io: Io)
    requires GateInv(s.gate) && WakeInv(s) && Active(s.gate.readers, r)
    ensures GateInv(ReadLeaves(s, r, io).gate) && WakeInv(ReadLeaves(s, r, io))
  {
    var g := s.gate.(readers := s.gate.readers - {r});
    assert forall x :: x in g.readers ==> x in s.gate.readers && !Active(s.gate.readers, x);
    LeaveGateKeeps(s.(gate := g), io);
  }

  /** Nobody can hold the gate before the tools are released, so the startup pass finds it free. */
  ghost predicate Unreleased(s: State) {
    s.life.promise != Released ==> !s.gate.gated
  }

  ghost predicate Inv(s: State) {
    GateInv(s.gate) && WakeInv(s) && Unreleased(s)
  }

  lemma ListSettledKeeps(s: State, agrees: bool, arm: ArmOutcome, io: Io)
    requires Inv(s) && DurableLife.Inv(s) && s.life.attachPc == Listing
    ensures Inv(ListSettled(s, agrees, arm, io))
  {
    if agrees && s.life.phase == Attaching && arm == ArmSucceeds {
      RingKeeps(s.(life := GoReady(s.life), bell := Publish(s.bell)), Startup, io);
    }
  }

  /** What else happens to the mail and the bell never makes a signal owed. */
  lemma QuietKeeps(s: State, t: State)
    requires Inv(s) && t.gate == s.gate && Unreleased(t) && (t.bell.armed ==> s.bell.armed)
    requires t.mail.signalled == s.mail.signalled && s.mail.box.Keys <= t.mail.box.Keys
    requires WithMark(t.mail.box, Fresh) * s.mail.box.Keys <= WithMark(s.mail.box, Fresh)
    ensures Inv(t)
  {
    assert forall n :: n in Owed(t.mail) ==> n in Owed(s.mail);
  }

  lemma OwnStepKeeps(s: State, e: Event)
    requires Inv(s) && DurableLife.Inv(s) && Enabled(s, e)
    requires e.EList? || e.ESignal? || e.EAdmit? || e.EReject? || e.EClose?
    ensures Inv(Apply(s, e))
  {
    match e
    case EList(agrees, arm, io) => ListSettledKeeps(s, agrees, arm, io);
    case ESignal(io) => RingKeeps(s, Signal, io);
    case EAdmit(io) => AdmitKeeps(s, io);
    case EReject(io) => RejectKeeps(s, io);
    case EClose(_) =>
  }

  lemma ReadStepKeeps(s: State, e: Event)
    requires Inv(s) && Enabled(s, e)
    requires e.ERead? || e.ECall? || e.EAnswer? || e.EWithdrawn? || e.ELeave?
    ensures Inv(Apply(s, e))
  {
    match e
    case ERead(r) => EnterKeeps(s.gate, r);
    case ECall(r) => MoveKeeps(s.gate, r, Calling);
    case EAnswer(r, lists) => AnswerKeeps(s, r, lists);
    case EWithdrawn(r, ok) => WithdrawKeeps(s, r, ok);
    case ELeave(r, io) => LeavesKeeps(s, r, io);
  }

  lemma StepKeeps(s: State, e: Event)
    requires Inv(s) && DurableLife.Inv(s)
    ensures Inv(Step(s, e))
  {
    if Enabled(s, e) {
      if e.EList? || e.ESignal? || e.EAdmit? || e.EReject? || e.EClose? {
        OwnStepKeeps(s, e);
      } else if e.ERead? || e.ECall? || e.EAnswer? || e.EWithdrawn? || e.ELeave? {
        ReadStepKeeps(s, e);
      } else {
        QuietKeeps(s, Apply(s, e));
      }
    }
  }

  lemma AnswerKeeps(s: State, r: ReaderId, lists: bool)
    requires Inv(s) && AtPc(s, r, Calling)
    ensures Inv(MoveReader(s, r, ReadAnswered(s.bell.inbox, s.mail, lists)))
  {
    JudgeFacts(s.mail, WithMark(s.mail.box, Delivered), s.mail.notices);
    MoveKeeps(s.gate, r, ReadAnswered(s.bell.inbox, s.mail, lists).pc);
  }

  lemma WithdrawKeeps(s: State, r: ReaderId, ok: bool)
    requires Inv(s) && r in s.gate.readers && s.gate.readers[r].Aborting?
    ensures Inv(Step(s, EWithdrawn(r, ok)))
  {
    var pc := s.gate.readers[r];
    JudgeFacts(if ok then s.mail else s.mail.(withdrawalFailure := Some(AbortFailed(pc.notice.requestId))),
               pc.unread, pc.rest);
    MoveKeeps(s.gate, r, WithdrawSettled(s.mail, pc.notice, pc.unread, pc.rest, ok).pc);
  }

  lemma {:induction false} RunKeeps(run: seq<Event>)
    ensures Inv(Run(run))
    decreases |run|
  {
    if run != [] {
      RunKeeps(run[..|run| - 1]);
      DurableLife.RunKeeps(run[..|run| - 1]);
      StepKeeps(Run(run[..|run| - 1]), run[|run| - 1]);
    }
  }

  // ---- the promises over whole runs -------------------------------------------------

  lemma FreeGateIsEmpty(g: Gate)
    requires GateInv(g)
    ensures !g.gated ==> g.waiters == [] && g.readers == map[]
  {
    assert g.waiters != [] ==> g.waiters[0] in g.waiters;
  }

  /**
    Mutual exclusion in every interleaving: a ring pass and an inbox read never hold the gate
    together, no two reads do, and a free gate has nobody waiting at it.
  */
  lemma {:induction false} GateIsExclusive(run: seq<Event>, a: ReaderId, b: ReaderId)
    ensures var g := Run(run).gate;
      && (g.pass.Some? ==> g.gated && !Active(g.readers, a))
      && (Active(g.readers, a) ==> g.gated && (Active(g.readers, b) ==> a == b))
      && (!g.gated ==> g.waiters == [] && g.readers == map[])
  {
    RunKeeps(run);
    FreeGateIsEmpty(Run(run).gate);
  }

  /**
    No lost wake-up: while the doorbell is armed and the gate free, no signal is pending and no
    message whose signal was handled is still unannounced; while the gate is held, such a message
    keeps the signal pending.
  */
  lemma {:induction false} NoLostWakeUp(run: seq<Event>, n: Name)
    requires Run(run).bell.armed
    ensures var s := Run(run);
      && (!s.gate.gated ==> !s.gate.pending)
      && (n in s.mail.signalled && n in s.mail.box && s.mail.box[n] == Fresh ==>
            s.gate.gated && s.gate.pending)
  {
    RunKeeps(run);
    var s := Run(run);
    assert n in Owed(s.mail) <==> n in s.mail.signalled && n in s.mail.box && s.mail.box[n] == Fresh;
  }

  lemma LeaveRings(s: State, r: ReaderId, io: Io)
    requires s.bell.armed && s.gate.pending && s.gate.waiters == [] && s.gate.pass.None?
    ensures var t := ReadLeaves(s, r, io);
      && !t.gate.pending
      && (t.bell.armed ==>
            WithMark(t.mail.box, Fresh) == {} && (t.gate.gated <==> WithMark(s.mail.box, Fresh) != {}))
  {
    var m := s.mail.(signalled := s.mail.signalled + WithMark(s.mail.box, Fresh));
    RoundFacts(s.bell, m, Signal, io);
  }

  /**
    Whoever gives up the gate with a signal pending and nobody waiting rings at once: the doorbell
    retires, or every fresh message is stamped and its admission asked for.
  */
  lemma {:induction false} PendingRingsOnLeave(run: seq<Event>, r: ReaderId, io: Io)
    requires var s := Run(run);
      && s.bell.armed && s.gate.pending && s.gate.waiters == []
      && r in s.gate.readers && s.gate.readers[r].Leaving?
    ensures var t := Run(run + [ELeave(r, io)]);
      && !t.gate.pending
      && (t.bell.armed ==>
            WithMark(t.mail.box, Fresh) == {} && (t.gate.gated <==> WithMark(Run(run).mail.box, Fresh) != {}))
  {
    RunSnoc(run, ELeave(r, io));
    RunKeeps(run);
    assert Active(Run(run).gate.readers, r);
    LeaveRings(Run(run), r, io);
  }

  /** How the queue may change in one stretch: not at all, a read joins its end, or its first read is let in. */
  predicate QueueMoves(g: Gate, t: Gate) {
    || t.waiters == g.waiters
    || (|t.waiters| == |g.waiters| + 1 && t.waiters[..|g.waiters|] == g.waiters)
    || (g.waiters != [] && t.waiters == g.waiters[1..] && Active(t.readers, g.waiters[0]))
  }

  lemma RingQueue(s: State, why: Why, io: Io)
    requires !s.gate.gated ==> s.gate.waiters == []
    ensures Ring(s, why, io).gate.waiters == s.gate.waiters
  {}

  lemma LeaveQueue(s: State, io: Io)
    requires s.gate.gated
    ensures QueueMoves(s.gate, LeaveGate(s, io).gate)
  {
    RingQueue(s.(gate := HandOver(s.gate)), Signal, io);
  }

  lemma BodyQueue(s: State, why: Why, io: Io)
    ensures QueueMoves(s.gate, PassBody(s, why, io).gate)
  {}

  /** First come, first served: no read overtakes another at the gate, and no ring pass takes a waiting read's turn. */
  lemma {:induction false} NoOvertaking(run: seq<Event>, e: Event)
    ensures QueueMoves(Run(run).gate, Step(Run(run), e).gate)
  {
    RunKeeps(run);
    var s := Run(run);
    FreeGateIsEmpty(s.gate);
    if Enabled(s, e) {
      match e
      case EList(_, _, io) => RingQueue(s.(life := GoReady(s.life), bell := Publish(s.bell)), Startup, io);
      case ESignal(io) => RingQueue(s, Signal, io);
      case EAdmit(io) =>
        var p := s.gate.pass.value;
        var t := s.(gate := s.gate.(pass := None), mail := PushNotice(s.mail, p));
        LeaveQueue(t, io);
        BodyQueue(t, p.why, io);
      case EReject(io) => LeaveQueue(DropPass(s, io), io);
      case ELeave(r, io) => LeaveQueue(s.(gate := s.gate.(readers := s.gate.readers - {r})), io);
      case _ =>
    }
  }
}
