/**
  What a closed contact may still ask for: a withdraw, exactly if a withdraw loop or a ring pass of its was
  under way when `close` ran.
*/
module DurableClose {
  import opened Listing
  import opened Option
  import opened DurableModel
  import DurableCases
  import DurableGate
  import DurableLife
  import DurableMail

  /** The state after the events of `more`, from `s`. */
  function After(s: State, more: seq<Event>): State
    decreases |more|
  {
    if more == [] then s else Step(After(s, more[..|more| - 1]), more[|more| - 1])
  }

  lemma {:induction false} RunAfter(run: seq<Event>, more: seq<Event>)
    ensures Run(run + more) == After(Run(run), more)
    decreases |more|
  {
    if more == [] {
      assert run + more == run;
    } else {
      var before, e := more[..|more| - 1], more[|more| - 1];
      RunAfter(run, before);
      RunSnoc(run + before, e);
      assert run + more == run + before + [e];
    }
  }

  lemma AfterSnoc(s: State, more: seq<Event>, e: Event)
    ensures After(s, more + [e]) == Step(After(s, more), e)
  {
    assert (more + [e])[..|more + [e]| - 1] == more;
  }

  lemma {:induction false} AfterConcat(s: State, a: seq<Event>, b: seq<Event>)
    ensures After(s, a + b) == After(After(s, a), b)
    decreases |b|
  {
    if b == [] {
      assert a + b == a;
    } else {
      AfterConcat(s, a, b[..|b| - 1]);
      AfterSnoc(s, a + b[..|b| - 1], b[|b| - 1]);
      assert a + b == a + b[..|b| - 1] + [b[|b| - 1]];
    }
  }

  // ---- nothing under way ------------------------------------------------------------

  /** Some notice of what is left of a snapshot has no name in the listing. */
  ghost predicate Owes(unread: set<Name>, rest: seq<Notice>) {
    exists i :: 0 <= i < |rest| && !HasUnread(rest[i], unread)
  }

  /** A read awaits one withdraw and will ask for another. */
  ghost predicate LoopOwes(s: State) {
    exists r :: r in s.gate.readers && s.gate.readers[r].Aborting?
      && Owes(s.gate.readers[r].unread, s.gate.readers[r].rest)
  }

  /** Nothing that is under way can lead to another withdraw. */
  ghost predicate Done(s: State) {
    s.life.phase == Closed && !s.bell.armed && s.gate.pass.None? && s.mail.notices == [] && !LoopOwes(s)
  }

  lemma {:induction false} JudgeOwesNothing(m: Mail, unread: set<Name>, rest: seq<Notice>)
    requires !Owes(unread, rest)
    ensures Judge(m, unread, rest) == JudgeEnd(m, Leaving(Some(unread)))
    decreases |rest|
  {
    if rest != [] {
      assert HasUnread(rest[0], unread);
      forall i | 0 <= i < |rest[1..]| ensures HasUnread(rest[1..][i], unread) {
        assert rest[1..][i] == rest[i + 1];
      }
      JudgeOwesNothing(m, unread, rest[1..]);
    }
  }

  /** Readers that await a withdraw may only go, and where they stand is otherwise no matter. */
  lemma FewerLoops(s: State, t: State)
    requires !LoopOwes(s)
    requires forall r :: r in t.gate.readers && t.gate.readers[r].Aborting? ==>
      r in s.gate.readers && s.gate.readers[r] == t.gate.readers[r]
    ensures !LoopOwes(t)
  {}

  lemma LeaveDone(s: State, io: Io)
    requires Done(s)
    ensures Done(LeaveGate(s, io)) && LeaveGate(s, io).mail == s.mail
  {
    FewerLoops(s, LeaveGate(s, io));
  }

  lemma ReadDone(s: State, e: Event)
    requires Done(s) && Enabled(s, e) && (e.EAnswer? || e.EWithdrawn? || e.ELeave?)
    ensures Done(Apply(s, e)) && Apply(s, e).mail.withdrawals == s.mail.withdrawals
  {
    match e
    case EAnswer(r, lists) => FewerLoops(s, Apply(s, e));
    case EWithdrawn(r, ok) =>
      var pc := s.gate.readers[r];
      assert !Owes(pc.unread, pc.rest);
      JudgeOwesNothing(if ok then s.mail else s.mail.(withdrawalFailure := Some(AbortFailed(pc.notice.requestId))),
                       pc.unread, pc.rest);
      FewerLoops(s, Apply(s, e));
    case ELeave(r, io) =>
      var t := s.(gate := s.gate.(readers := s.gate.readers - {r}));
      FewerLoops(s, t);
      LeaveDone(t, io);
  }

  lemma ListDone(s: State, agrees: bool, arm: ArmOutcome, io: Io)
    requires Done(s)
    ensures ListSettled(s, agrees, arm, io) == s.(life := FailAfterCleanup(s.life))
  {}

  lemma StepDone(s: State, e: Event)
    requires Done(s)
    ensures Done(Step(s, e)) && Step(s, e).mail.withdrawals == s.mail.withdrawals
  {
    if Enabled(s, e) {
      if e.EAnswer? || e.EWithdrawn? || e.ELeave? {
        ReadDone(s, e);
      } else if e.EList? {
        ListDone(s, e.agrees, e.arm, e.io);
        FewerLoops(s, Step(s, e));
      } else {
        FewerLoops(s, Step(s, e));
      }
    }
  }

  lemma {:induction false} StaysDone(s: State, more: seq<Event>)
    requires Done(s)
    ensures Done(After(s, more)) && After(s, more).mail.withdrawals == s.mail.withdrawals
    decreases |more|
  {
    if more != [] {
      StaysDone(s, more[..|more| - 1]);
      StepDone(After(s, more[..|more| - 1]), more[|more| - 1]);
    }
  }

  // ---- a loop under way -------------------------------------------------------------

  lemma {:induction false} JudgeOwes(m: Mail, unread: set<Name>, rest: seq<Notice>)
    requires Owes(unread, rest)
    ensures |Judge(m, unread, rest).mail.withdrawals| == |m.withdrawals| + 1
    decreases |rest|
  {
    if HasUnread(rest[0], unread) {
      var i :| 0 <= i < |rest| && !HasUnread(rest[i], unread);
      assert rest[1..][i - 1] == rest[i];
      JudgeOwes(m, unread, rest[1..]);
    }
  }

  lemma LoopAsks(s: State, io: Io) returns (e: Event)
    requires LoopOwes(s)
    ensures |Step(Step(s, EClose(io)), e).mail.withdrawals| == |s.mail.withdrawals| + 1
  {
    var r :| r in s.gate.readers && s.gate.readers[r].Aborting?
      && Owes(s.gate.readers[r].unread, s.gate.readers[r].rest);
    e := EWithdrawn(r, true);
    JudgeOwes(Close(s, io).mail, s.gate.readers[r].unread, s.gate.readers[r].rest);
  }

  // ---- a pass under way -------------------------------------------------------------

  /** A pass awaits its admission only once the mailbox is known. */
  ghost predicate PassKnown(s: State) {
    s.gate.pass.Some? ==> s.bell.report != Off
  }

  lemma RoundKnown(b: Bell, m: Mail, why: Why, io: Io)
    ensures Round(b, m, why, io).pass.Some? ==> Round(b, m, why, io).bell == b
  {}

  lemma RingKnown(s: State, why: Why, io: Io)
    requires PassKnown(s) && (s.bell.armed ==> s.bell.report != Off)
    ensures PassKnown(Ring(s, why, io))
  {
    if s.bell.armed && !s.gate.gated {
      RoundKnown(s.bell, s.mail.(signalled := s.mail.signalled + WithMark(s.mail.box, Fresh)), why, io);
    }
  }

  lemma LeaveKnown(s: State, io: Io)
    requires PassKnown(s) && (s.bell.armed ==> s.bell.report != Off)
    ensures PassKnown(LeaveGate(s, io))
  {
    RingKnown(s.(gate := HandOver(s.gate)), Signal, io);
  }

  lemma AdmitKnown(s: State, io: Io)
    requires DurableLife.Inv(s) && s.gate.pass.Some? && s.gate.pass.value.names != []
    ensures PassKnown(Admit(s, io))
  {
    var p := s.gate.pass.value;
    var t := s.(gate := s.gate.(pass := None), mail := PushNotice(s.mail, p));
    RoundKnown(t.bell, t.mail, p.why, io);
    LeaveKnown(t, io);
  }

  lemma ListKnown(s: State, agrees: bool, arm: ArmOutcome, io: Io)
    requires PassKnown(s)
    ensures PassKnown(ListSettled(s, agrees, arm, io))
  {
    if agrees && s.life.phase == Attaching && arm == ArmSucceeds {
      RingKnown(s.(life := GoReady(s.life), bell := Publish(s.bell)), Startup, io);
    }
  }

  lemma StepKnown(s: State, e: Event)
    requires PassKnown(s) && DurableLife.Inv(s)
    ensures PassKnown(Step(s, e))
  {
    if Enabled(s, e) {
      match e
      case EList(agrees, arm, io) => ListKnown(s, agrees, arm, io);
      case ESignal(io) => RingKnown(s, Signal, io);
      case EAdmit(io) => AdmitKnown(s, io);
      case EReject(io) => LeaveKnown(DropPass(s, io), io);
      case ELeave(r, io) => LeaveKnown(s.(gate := s.gate.(readers := s.gate.readers - {r})), io);
      case _ => DurableLife.StepMoves(s, e);
    }
  }

  lemma {:induction false} RunKnown(run: seq<Event>)
    ensures PassKnown(Run(run))
    decreases |run|
  {
    if run != [] {
      RunKnown(run[..|run| - 1]);
      DurableLife.RunKeeps(run[..|run| - 1]);
      StepKnown(Run(run[..|run| - 1]), run[|run| - 1]);
    }
  }

  /** Closed, with one notice held and the read `r` at the bridge. */
  ghost predicate Reading(s: State, r: ReaderId, notice: Notice, asked: nat) {
    && AtPc(s, r, Calling) && s.bell.inbox && s.mail.notices == [notice] && |s.mail.withdrawals| == asked
    && (forall n :: n in notice.names ==> n in s.mail.box)
  }

  predicate Archives(m: Mail, n: Name) {
    n in m.box && m.box[n] == Archived
  }

  /** The messages of a notice, archived one after the other. */
  lemma {:induction false} ArchiveAll(s: State, r: ReaderId, notice: Notice, asked: nat, k: nat) returns (more: seq<Event>)
    requires Reading(s, r, notice, asked) && k <= |notice.names|
    ensures Reading(After(s, more), r, notice, asked)
    ensures forall i :: 0 <= i < k ==> Archives(After(s, more).mail, notice.names[i])
  {
    more := [];
    if k > 0 {
      more := ArchiveAll(s, r, notice, asked, k - 1);
      var e := EArchive(notice.names[k - 1]);
      assert notice.names[k - 1] in notice.names;
      AfterSnoc(s, more, e);
      more := more + [e];
    }
  }

  lemma AnswerAsks(s: State, r: ReaderId, notice: Notice, asked: nat)
    requires Reading(s, r, notice, asked)
    requires forall i :: 0 <= i < |notice.names| ==> Archives(s.mail, notice.names[i])
    ensures |Step(s, EAnswer(r, true)).mail.withdrawals| == asked + 1
  {
    assert !HasUnread(notice, WithMark(s.mail.box, Delivered));
    assert s.mail.notices[0] == notice;
  }

  lemma ReadingAsks(s: State, r: ReaderId, notice: Notice, asked: nat) returns (more: seq<Event>)
    requires Reading(s, r, notice, asked)
    ensures |After(s, more).mail.withdrawals| == asked + 1
  {
    var archived := ArchiveAll(s, r, notice, asked, |notice.names|);
    AnswerAsks(After(s, archived), r, notice, asked);
    AfterSnoc(s, archived, EAnswer(r, true));
    more := archived + [EAnswer(r, true)];
  }

  /** Closed, with one notice held, and its messages still in the mailbox. */
  ghost predicate OneHeld(s: State, notice: Notice, asked: nat) {
    && s.bell.inbox && s.mail.notices == [notice] && |s.mail.withdrawals| == asked
    && (forall n :: n in notice.names ==> n in s.mail.box)
  }

  lemma EnteredAsks(s: State, r: ReaderId, notice: Notice, asked: nat) returns (more: seq<Event>)
    requires OneHeld(s, notice, asked) && AtPc(s, r, Entered)
    ensures |After(s, more).mail.withdrawals| == asked + 1
  {
    AfterSnoc(s, [], ECall(r));
    var rest := ReadingAsks(Step(s, ECall(r)), r, notice, asked);
    AfterConcat(s, [] + [ECall(r)], rest);
    more := [] + [ECall(r)] + rest;
  }

  lemma FreeAsks(s: State, notice: Notice, asked: nat) returns (more: seq<Event>)
    requires OneHeld(s, notice, asked) && s.life.promise == Released && !s.gate.gated && s.gate.readers == map[]
    ensures |After(s, more).mail.withdrawals| == asked + 1
  {
    AfterSnoc(s, [], ERead(0));
    var rest := EnteredAsks(Step(s, ERead(0)), 0, notice, asked);
    AfterConcat(s, [] + [ERead(0)], rest);
    more := [] + [ERead(0)] + rest;
  }

  /** ... and the gate free, or a read just let in. */
  ghost predicate Holding(s: State, notice: Notice, asked: nat) {
    && OneHeld(s, notice, asked) && s.life.promise == Released
    && (s.gate.gated ==> exists r :: AtPc(s, r, Entered))
    && (!s.gate.gated ==> s.gate.readers == map[])
  }

  lemma HoldingAsks(s: State, notice: Notice, asked: nat) returns (more: seq<Event>)
    requires Holding(s, notice, asked)
    ensures |After(s, more).mail.withdrawals| == asked + 1
  {
    if s.gate.gated {
      var r :| AtPc(s, r, Entered);
      more := EnteredAsks(s, r, notice, asked);
    } else {
      more := FreeAsks(s, notice, asked);
    }
  }

  /** A pass that was awaiting when `close` ran, admitted. */
  lemma AdmittedHolds(s: State, io: Io)
    requires DurableGate.Inv(s) && DurableLife.Inv(s) && DurableMail.Inv(s) && PassKnown(s) && s.gate.pass.Some?
    ensures var t := Step(Step(s, EClose(io)), EAdmit(io));
      t.mail.notices != [] && Holding(t, t.mail.notices[0], |s.mail.withdrawals|)
  {
    var c := Close(s, io);
    var p := s.gate.pass.value;
    var t := Admit(c, io);
    DurableGate.HandOverKeeps(s.gate.(pass := None));
    if c.gate.waiters != [] {
      assert AtPc(t, c.gate.waiters[0], Entered);
    } else {
      assert forall r :: r in c.gate.readers ==> r in c.gate.waiters;
    }
  }

  lemma PassAsks(s: State, io: Io) returns (more: seq<Event>)
    requires DurableGate.Inv(s) && DurableLife.Inv(s) && DurableMail.Inv(s) && PassKnown(s) && s.gate.pass.Some?
    ensures |After(Step(s, EClose(io)), more).mail.withdrawals| == |s.mail.withdrawals| + 1
  {
    var c := Step(s, EClose(io));
    AdmittedHolds(s, io);
    var t := Step(c, EAdmit(io));
    var rest := HoldingAsks(t, t.mail.notices[0], |s.mail.withdrawals|);
    AfterSnoc(c, [], EAdmit(io));
    AfterConcat(c, [] + [EAdmit(io)], rest);
    more := [] + [EAdmit(io)] + rest;
  }

  // ---- the promise ------------------------------------------------------------------

  lemma CloseIsDone(s: State, io: Io)
    requires s.gate.pass.None? && !LoopOwes(s)
    ensures Done(Step(s, EClose(io))) && Step(s, EClose(io)).mail.withdrawals == s.mail.withdrawals
  {
    FewerLoops(s, Step(s, EClose(io)));
  }

  /**
    A closed contact asks for no withdraw any more, whatever happens, exactly when at its close no ring pass
    awaited its admission and no withdraw loop had another drained notice before it.
  */
  lemma {:induction false} ClosedAsksNoMore(run: seq<Event>, io: Io)
    ensures (forall more :: Run(run + [EClose(io)] + more).mail.withdrawals == Run(run).mail.withdrawals)
       <==> (Run(run).gate.pass.None? && !LoopOwes(Run(run)))
  {
    var s := Run(run);
    var closed := run + [EClose(io)];
    RunSnoc(run, EClose(io));
    if s.gate.pass.None? && !LoopOwes(s) {
      CloseIsDone(s, io);
      forall more ensures Run(closed + more).mail.withdrawals == s.mail.withdrawals {
        RunAfter(closed, more);
        StaysDone(Run(closed), more);
      }
    } else {
      var more := ClosedAsks(run, io);
      RunAfter(closed, more);
      assert Run(closed + more).mail.withdrawals != s.mail.withdrawals;
    }
  }

  /** The events that make it ask. */
  lemma {:induction false} ClosedAsks(run: seq<Event>, io: Io) returns (more: seq<Event>)
    requires Run(run).gate.pass.Some? || LoopOwes(Run(run))
    ensures |After(Step(Run(run), EClose(io)), more).mail.withdrawals| == |Run(run).mail.withdrawals| + 1
  {
    var s := Run(run);
    if LoopOwes(s) {
      var e := LoopAsks(s, io);
      AfterSnoc(Step(s, EClose(io)), [], e);
      more := [] + [e];
    } else {
      DurableGate.RunKeeps(run);
      DurableLife.RunKeeps(run);
      DurableMail.RunKeeps(run);
      RunKnown(run);
      more := PassAsks(s, io);
    }
  }

  /** Nobody reads when this contact closes, one pass awaits its admission, and it asks for a withdraw later. */
  lemma PassOutlivesClose() returns (run: seq<Event>, more: seq<Event>)
    ensures Run(run).gate.readers == map[] && Run(run).mail.withdrawals == [] && Run(run).life.phase == Ready
    ensures |Run(run + [EClose(DurableCases.CALM)] + more).mail.withdrawals| == 1
  {
    var listed := DurableCases.ToListed();
    var e := EList(true, ArmSucceeds, DurableCases.CALM);
    DurableCases.StartupPass(Run(listed));
    RunSnoc(listed, e);
    run := listed + [e];
    more := ClosedAsks(run, DurableCases.CALM);
    RunSnoc(run, EClose(DurableCases.CALM));
    RunAfter(run + [EClose(DurableCases.CALM)], more);
  }
}
