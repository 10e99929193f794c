/**
  What a read does get withdrawn: every notice it finds drained, each issued notice being held or asked for
  until the contact closes; and what the report says of a withdrawal that failed.
*/
module DurableDrains {
  import opened Option
  import opened Listing
  import opened DurableModel
  import DurableGate
  import DurableLife
  import DurableMail

  // ---- conservation -----------------------------------------------------------------

  ghost predicate Asked(m: Mail, n: Notice, unread: set<Name>) {
    Withdrawal(n, unread) in m.withdrawals
  }

  ghost predicate AskedEver(m: Mail, n: Notice) {
    exists k :: 0 <= k < |m.withdrawals| && m.withdrawals[k].notice == n
  }

  ghost predicate Kept(m: Mail) {
    forall n :: n in m.issued ==> n in m.notices || AskedEver(m, n)
  }

  /** A step of the mail that issues nothing, and lets no notice go without asking for its withdraw. */
  ghost predicate LetsGo(m: Mail, t: Mail) {
    && t.issued == m.issued && m.withdrawals <= t.withdrawals
    && forall n :: n in m.notices ==> n in t.notices || AskedEver(t, n)
  }

  lemma LetsGoKeeps(m: Mail, t: Mail)
    requires Kept(m) && LetsGo(m, t)
    ensures Kept(t)
  {
    forall n | n in t.issued ensures n in t.notices || AskedEver(t, n) {
      if AskedEver(m, n) {
        var k :| 0 <= k < |m.withdrawals| && m.withdrawals[k].notice == n;
        assert t.withdrawals[k] == m.withdrawals[k];
      }
    }
  }

  lemma SpliceLoses(ns: seq<Notice>, n: Notice, x: Notice)
    requires x in ns && x != n && n in ns
    ensures x in SpliceOne(ns, IndexOf(ns, n))
  {
    var i := IndexOf(ns, n);
    var j :| 0 <= j < |ns| && ns[j] == x;
    var left := SpliceOne(ns, i);
    if j < i { assert left[j] == x; } else { assert left[j - 1] == x; }
  }

  lemma {:induction false} JudgeLetsGo(m: Mail, unread: set<Name>, rest: seq<Notice>)
    requires m.notices == [] || (forall i :: 0 <= i < |rest| ==> rest[i] in m.notices)
    ensures LetsGo(m, Judge(m, unread, rest).mail)
    decreases |rest|
  {
    if rest != [] {
      if HasUnread(rest[0], unread) {
        assert forall i :: 0 <= i < |rest[1..]| ==> rest[1..][i] == rest[i + 1];
        JudgeLetsGo(m, unread, rest[1..]);
      } else {
        var t := Judge(m, unread, rest).mail;
        assert t.withdrawals[|m.withdrawals|].notice == rest[0];
        forall x | x in m.notices && x != rest[0] ensures x in t.notices { SpliceLoses(m.notices, rest[0], x); }
      }
    }
  }

  lemma RoundLetsGo(b: Bell, m: Mail, why: Why, io: Io)
    ensures LetsGo(m, Round(b, m, why, io).mail)
  {}

  lemma BodyLetsGo(s: State, why: Why, io: Io)
    ensures LetsGo(s.mail, PassBody(s, why, io).mail)
  {
    RoundLetsGo(s.bell, s.mail, why, io);
  }

  lemma RingLetsGo(s: State, why: Why, io: Io)
    ensures LetsGo(s.mail, Ring(s, why, io).mail)
  {
    if s.bell.armed && !s.gate.gated {
      RoundLetsGo(s.bell, s.mail.(signalled := s.mail.signalled + WithMark(s.mail.box, Fresh)), why, io);
    }
  }

  lemma LeaveLetsGo(s: State, io: Io)
    ensures LetsGo(s.mail, LeaveGate(s, io).mail)
  {
    RingLetsGo(s.(gate := HandOver(s.gate)), Signal, io);
  }

  lemma PushKeeps(m: Mail, p: Pass)
    requires Kept(m) && p.names != []
    ensures Kept(PushNotice(m, p))
  {
    var t := PushNotice(m, p);
    forall n | n in t.issued ensures n in t.notices || AskedEver(t, n) {
      if n in m.issued && AskedEver(m, n) {
        var k :| 0 <= k < |m.withdrawals| && m.withdrawals[k].notice == n;
        assert t.withdrawals[k] == m.withdrawals[k];
      }
    }
  }

  lemma AdmitKeeps(s: State, io: Io)
    requires Kept(s.mail) && s.gate.pass.Some? && s.gate.pass.value.names != []
    ensures Kept(Admit(s, io).mail)
  {
    var p := s.gate.pass.value;
    var t := s.(gate := s.gate.(pass := None), mail := PushNotice(s.mail, p));
    PushKeeps(s.mail, p);
    BodyLetsGo(t, p.why, io);
    LeaveLetsGo(t, io);
    LetsGoKeeps(t.mail, Admit(s, io).mail);
  }

  /** The notices still to be judged are among those held, or the contact has closed. */
  lemma RestIsHeld(m: Mail, unread: set<Name>, rest: seq<Notice>, closed: bool)
    requires DurableMail.LoopInv(m, unread, rest, closed)
    ensures m.notices == [] || forall i :: 0 <= i < |rest| ==> rest[i] in m.notices
  {
    if DurableMail.Tail(m.notices, unread, rest) {
      assert forall i :: 0 <= i < |rest| ==> rest[i] == m.notices[|m.notices| - |rest|..][i];
    }
  }

  lemma ReadKeeps(s: State, e: Event)
    requires Kept(s.mail) && Inv(s) && Enabled(s, e) && (e.EAnswer? || e.EWithdrawn?)
    ensures Kept(Apply(s, e).mail)
  {
    match e
    case EAnswer(_, _) => JudgeLetsGo(s.mail, WithMark(s.mail.box, Delivered), s.mail.notices);
    case EWithdrawn(r, ok) =>
      var pc := s.gate.readers[r];
      assert DurableMail.PcInv(s.mail, pc, s.life.phase == Closed);
      RestIsHeld(s.mail, pc.unread, pc.rest, s.life.phase == Closed);
      JudgeLetsGo(if ok then s.mail else s.mail.(withdrawalFailure := Some(AbortFailed(pc.notice.requestId))),
                  pc.unread, pc.rest);
    LetsGoKeeps(s.mail, Apply(s, e).mail);
  }

  ghost predicate Inv(s: State) {
    DurableMail.Inv(s) && DurableGate.GateInv(s.gate) && DurableLife.LifeInv(s.life)
  }

  lemma RunInv(run: seq<Event>)
    ensures Inv(Run(run))
  {
    DurableMail.RunKeeps(run);
    DurableGate.RunKeeps(run);
    DurableLife.RunKeeps(run);
  }

  /** Passes, which issue and withdraw nothing. */
  lemma PassKeeps(s: State, e: Event)
    requires Kept(s.mail) && Enabled(s, e) && (e.EList? || e.ESignal? || e.EReject? || e.ELeave?)
    ensures Kept(Apply(s, e).mail)
  {
    match e
    case EList(agrees, arm, io) => RingLetsGo(ListEnds(s, agrees, arm, io), Startup, io);
    case ESignal(io) => RingLetsGo(s, Signal, io);
    case EReject(io) => LeaveLetsGo(DropPass(s, io), io);
    case ELeave(r, io) => LeaveLetsGo(s.(gate := s.gate.(readers := s.gate.readers - {r})), io);
    LetsGoKeeps(s.mail, Apply(s, e).mail);
  }

  lemma StepKeeps(s: State, e: Event)
    requires Kept(s.mail) && Inv(s) && !e.EClose?
    ensures Kept(Step(s, e).mail)
  {
    if Enabled(s, e) {
      if e.EAdmit? {
        AdmitKeeps(s, e.io);
      } else if e.EAnswer? || e.EWithdrawn? {
        ReadKeeps(s, e);
      } else if e.EList? || e.ESignal? || e.EReject? || e.ELeave? {
        PassKeeps(s, e);
      } else {
        LetsGoKeeps(s.mail, Apply(s, e).mail);
      }
    }
  }

  lemma {:induction false} RunKept(run: seq<Event>)
    requires forall k :: 0 <= k < |run| ==> !run[k].EClose?
    ensures Kept(Run(run).mail)
    decreases |run|
  {
    if run != [] {
      RunKept(run[..|run| - 1]);
      RunInv(run[..|run| - 1]);
      StepKeeps(Run(run[..|run| - 1]), run[|run| - 1]);
    }
  }

  /**
    Conservation: until the contact closes, in any run, every notice ever issued is held, or its withdraw was
    asked for, and never both.
  */
  lemma {:induction false} HeldOrAsked(run: seq<Event>, n: Notice)
    requires (forall k :: 0 <= k < |run| ==> !run[k].EClose?) && n in Run(run).mail.issued
    ensures n in Run(run).mail.notices <==> !AskedEver(Run(run).mail, n)
  {
    RunKept(run);
    RunInv(run);
    var m := Run(run).mail;
    if n in m.notices {
      var i :| 0 <= i < |m.notices| && m.notices[i] == n;
      assert !DurableMail.Withdrawn(m, m.notices[i]);
    }
  }

  // ---- a read -----------------------------------------------------------------------

  /** The first notice of `ns` with no name in the listing. */
  ghost predicate FirstDrained(ns: seq<Notice>, unread: set<Name>, k: nat) {
    k < |ns| && !HasUnread(ns[k], unread) && forall i :: 0 <= i < k ==> HasUnread(ns[i], unread)
  }

  /** Every notice of the snapshot that the listing finds drained is asked for, or still to be judged. */
  ghost predicate Settled(m: Mail, snapshot: seq<Notice>, unread: set<Name>, rest: seq<Notice>) {
    forall n :: n in snapshot && !HasUnread(n, unread) ==> n in rest || Asked(m, n, unread)
  }

  /** ... at the place of the withdraw loop where this read stands. */
  ghost predicate OnItsWay(m: Mail, pc: ReaderPc, snapshot: seq<Notice>, unread: set<Name>) {
    match pc
    case Aborting(_, u, rest) => u == unread && Settled(m, snapshot, unread, rest)
    case Leaving(listed) => listed == Some(unread) && Settled(m, snapshot, unread, [])
    case _ => false
  }

  lemma {:induction false} JudgeSettles(m: Mail, snapshot: seq<Notice>, unread: set<Name>, rest: seq<Notice>)
    requires Settled(m, snapshot, unread, rest)
    ensures OnItsWay(Judge(m, unread, rest).mail, Judge(m, unread, rest).pc, snapshot, unread)
    decreases |rest|
  {
    if rest != [] {
      assert rest == [rest[0]] + rest[1..];
      if HasUnread(rest[0], unread) {
        JudgeSettles(m, snapshot, unread, rest[1..]);
      } else {
        var t := Judge(m, unread, rest).mail;
        assert t.withdrawals[|m.withdrawals|] == Withdrawal(rest[0], unread);
        forall n | n in snapshot && !HasUnread(n, unread) ensures n in rest[1..] || Asked(t, n, unread) {
          if Asked(m, n, unread) { assert Withdrawal(n, unread) in t.withdrawals; }
        }
      }
    }
  }

  /** Withdraws are only ever added. */
  lemma {:induction false} JudgeAdds(m: Mail, unread: set<Name>, rest: seq<Notice>)
    ensures m.withdrawals <= Judge(m, unread, rest).mail.withdrawals
    decreases |rest|
  {
    if rest != [] && HasUnread(rest[0], unread) { JudgeAdds(m, unread, rest[1..]); }
  }

  lemma StepAdds(s: State, e: Event)
    ensures s.mail.withdrawals <= Step(s, e).mail.withdrawals
  {
    if Enabled(s, e) {
      match e
      case EAnswer(_, _) => JudgeAdds(s.mail, WithMark(s.mail.box, Delivered), s.mail.notices);
      case EWithdrawn(r, ok) =>
        var pc := s.gate.readers[r];
        JudgeAdds(if ok then s.mail else s.mail.(withdrawalFailure := Some(AbortFailed(pc.notice.requestId))),
                  pc.unread, pc.rest);
      case EAdmit(io) =>
        var t := s.(gate := s.gate.(pass := None), mail := PushNotice(s.mail, s.gate.pass.value));
        BodyLetsGo(t, s.gate.pass.value.why, io);
        LeaveLetsGo(t, io);
      case EList(agrees, arm, io) => RingLetsGo(ListEnds(s, agrees, arm, io), Startup, io);
      case ESignal(io) => RingLetsGo(s, Signal, io);
      case EReject(io) => LeaveLetsGo(DropPass(s, io), io);
      case ELeave(r, io) => LeaveLetsGo(s.(gate := s.gate.(readers := s.gate.readers - {r})), io);
      case _ =>
    }
  }

  /** Nobody but the read itself moves a read that is past the gate. */
  lemma OthersLeave(s: State, e: Event, r: ReaderId)
    requires DurableGate.GateInv(s.gate) && DurableGate.Active(s.gate.readers, r) && Enabled(s, e)
    requires !(e.ECall? && e.reader == r) && !(e.EAnswer? && e.reader == r)
    requires !(e.EWithdrawn? && e.reader == r) && !(e.ELeave? && e.reader == r)
    ensures r in Apply(s, e).gate.readers && Apply(s, e).gate.readers[r] == s.gate.readers[r]
  {
    assert r !in s.gate.waiters && s.gate.gated && s.gate.pass.None?;
    if e.ELeave? { assert DurableGate.Active(s.gate.readers, e.reader); }
  }

  lemma StaysOnItsWay(s: State, e: Event, r: ReaderId, snapshot: seq<Notice>, unread: set<Name>)
    requires DurableGate.GateInv(s.gate) && r in s.gate.readers
    requires OnItsWay(s.mail, s.gate.readers[r], snapshot, unread) && !(e.ELeave? && e.reader == r)
    ensures var t := Step(s, e); r in t.gate.readers && OnItsWay(t.mail, t.gate.readers[r], snapshot, unread)
  {
    if Enabled(s, e) {
      var pc := s.gate.readers[r];
      if e == EWithdrawn(r, true) || e == EWithdrawn(r, false) {
        var m := if e.withdrawn then s.mail else s.mail.(withdrawalFailure := Some(AbortFailed(pc.notice.requestId)));
        assert Settled(m, snapshot, unread, pc.rest);
        JudgeSettles(m, snapshot, unread, pc.rest);
      } else {
        OthersLeave(s, e, r);
        StepAdds(s, e);
      }
    }
  }

  lemma AnswerBegins(s: State, r: ReaderId)
    requires AtPc(s, r, Calling) && s.bell.inbox && s.mail.notices != []
    ensures var t := Step(s, EAnswer(r, true));
      && r in t.gate.readers
      && OnItsWay(t.mail, t.gate.readers[r], s.mail.notices, WithMark(s.mail.box, Delivered))
  {
    JudgeSettles(s.mail, s.mail.notices, WithMark(s.mail.box, Delivered), s.mail.notices);
  }

  /** The read has not left its gate since. */
  ghost predicate Stays(more: seq<Event>, r: ReaderId) {
    forall k :: 0 <= k < |more| ==> !(more[k].ELeave? && more[k].reader == r)
  }

  /**
    A read that was answered, in any run and whatever happens meanwhile, a close included: by the time it is
    about to leave, the withdraw of every notice then held has been asked for, if the mailbox, listed at the
    answer, had none of its messages unread.
  */
  lemma {:induction false} DrainedAreAsked(run: seq<Event>, r: ReaderId, more: seq<Event>)
    requires AtPc(Run(run), r, Calling) && Run(run).bell.inbox && Run(run).mail.notices != [] && Stays(more, r)
    ensures var s, t := Run(run), Run(run + [EAnswer(r, true)] + more);
      && r in t.gate.readers
      && OnItsWay(t.mail, t.gate.readers[r], s.mail.notices, WithMark(s.mail.box, Delivered))
    decreases |more|
  {
    var answered := run + [EAnswer(r, true)];
    if more == [] {
      RunSnoc(run, EAnswer(r, true));
      AnswerBegins(Run(run), r);
      assert answered + more == answered;
    } else {
      var shorter, e := more[..|more| - 1], more[|more| - 1];
      DrainedAreAsked(run, r, shorter);
      DurableGate.RunKeeps(answered + shorter);
      RunSnoc(answered + shorter, e);
      assert answered + more == answered + shorter + [e];
      var s := Run(run);
      StaysOnItsWay(Run(answered + shorter), e, r, s.mail.notices, WithMark(s.mail.box, Delivered));
    }
  }

  /** The loop stops at the first notice of `ns` with nothing unread, and asks for its withdraw. */
  ghost predicate StopsAt(ns: seq<Notice>, unread: set<Name>, pc: ReaderPc, was: seq<Withdrawal>, now: seq<Withdrawal>, k: nat) {
    && FirstDrained(ns, unread, k) && pc == Aborting(ns[k], unread, ns[k + 1..])
    && now == was + [Withdrawal(ns[k], unread)]
  }

  ghost predicate Stops(ns: seq<Notice>, unread: set<Name>, pc: ReaderPc, was: seq<Withdrawal>, now: seq<Withdrawal>) {
    exists k: nat :: StopsAt(ns, unread, pc, was, now, k)
  }

  ghost predicate AllUnread(ns: seq<Notice>, unread: set<Name>) {
    forall i :: 0 <= i < |ns| ==> HasUnread(ns[i], unread)
  }

  lemma {:induction false} JudgeTakesFirst(m: Mail, unread: set<Name>, rest: seq<Notice>)
    ensures var end := Judge(m, unread, rest);
      if AllUnread(rest, unread) then end == JudgeEnd(m, Leaving(Some(unread)))
      else Stops(rest, unread, end.pc, m.withdrawals, end.mail.withdrawals)
    decreases |rest|
  {
    var end := Judge(m, unread, rest);
    if rest != [] {
      var tail := rest[1..];
      assert rest == [rest[0]] + tail;
      if HasUnread(rest[0], unread) {
        JudgeTakesFirst(m, unread, tail);
        if !AllUnread(tail, unread) {
          var k: nat :| StopsAt(tail, unread, end.pc, m.withdrawals, end.mail.withdrawals, k);
          assert tail[k + 1..] == rest[k + 2..];
          assert StopsAt(rest, unread, end.pc, m.withdrawals, end.mail.withdrawals, k + 1);
        }
      } else {
        var k: nat := 0;
        assert rest[k] == rest[0] && !HasUnread(rest[k], unread);
        assert StopsAt(rest, unread, end.pc, m.withdrawals, end.mail.withdrawals, k);
      }
    }
  }

  /** What the bridge's answer makes of a read: nothing to judge, nothing to judge by, or the first one drained. */
  ghost predicate AnswerMoves(s: State, t: State, r: ReaderId, lists: bool) {
    var unread := WithMark(s.mail.box, Delivered);
    && r in t.gate.readers
    && if !s.bell.inbox || s.mail.notices == [] || !lists then
         t.gate.readers[r] == Leaving(None)
         && t.mail.withdrawals == s.mail.withdrawals && t.mail.notices == s.mail.notices
       else if AllUnread(s.mail.notices, unread) then
         t.gate.readers[r] == Leaving(Some(unread))
         && t.mail.withdrawals == s.mail.withdrawals && t.mail.notices == s.mail.notices
       else Stops(s.mail.notices, unread, t.gate.readers[r], s.mail.withdrawals, t.mail.withdrawals)
  }

  /** The answer of the bridge, in any run: the withdraw asked for first is that of the oldest notice drained. */
  lemma {:induction false} AnswersAsk(run: seq<Event>, r: ReaderId, lists: bool)
    requires AtPc(Run(run), r, Calling)
    ensures AnswerMoves(Run(run), Run(run + [EAnswer(r, lists)]), r, lists)
  {
    RunSnoc(run, EAnswer(r, lists));
    JudgeTakesFirst(Run(run).mail, WithMark(Run(run).mail.box, Delivered), Run(run).mail.notices);
  }

  /** What a settled withdraw makes of its read: the rest of the snapshot is gone through in the same way. */
  ghost predicate WithdrawMoves(s: State, t: State, r: ReaderId)
    requires r in s.gate.readers && s.gate.readers[r].Aborting?
  {
    var unread, rest := s.gate.readers[r].unread, s.gate.readers[r].rest;
    && r in t.gate.readers
    && if AllUnread(rest, unread) then
         t.gate.readers[r] == Leaving(Some(unread))
         && t.mail.withdrawals == s.mail.withdrawals && t.mail.notices == s.mail.notices
       else
         Stops(rest, unread, t.gate.readers[r], s.mail.withdrawals, t.mail.withdrawals)
  }

  /** A withdraw that settled, in any run, well or not: the next one asked for is that of the next notice drained. */
  lemma {:induction false} WithdrawsGoOn(run: seq<Event>, r: ReaderId, ok: bool)
    requires r in Run(run).gate.readers && Run(run).gate.readers[r].Aborting?
    ensures WithdrawMoves(Run(run), Run(run + [EWithdrawn(r, ok)]), r)
  {
    RunSnoc(run, EWithdrawn(r, ok));
    var s := Run(run);
    var pc := s.gate.readers[r];
    JudgeTakesFirst(if ok then s.mail else s.mail.(withdrawalFailure := Some(AbortFailed(pc.notice.requestId))),
                    pc.unread, pc.rest);
  }

  /** How one event moves one read, but for where its withdraw loop stops. */
  ghost predicate ReadMoves(s: State, t: State, e: Event, r: ReaderId) {
    if r !in s.gate.readers then
      if e == ERead(r) && s.life.promise == Released then
        r in t.gate.readers && t.gate.readers[r] == if s.gate.gated then Waiting else Entered
      else r !in t.gate.readers
    else if e.ELeave? && e.reader == r && s.gate.readers[r].Leaving? then r !in t.gate.readers
    else
      && r in t.gate.readers
      && var pc, next := s.gate.readers[r], t.gate.readers[r];
         if pc == Waiting then next == Waiting || next == Entered
         else if pc == Entered && e == ECall(r) then next == Calling
         else if pc == Calling && e.EAnswer? && e.reader == r then next.Aborting? || next.Leaving?
         else if pc.Aborting? && e.EWithdrawn? && e.reader == r then next.Aborting? || next.Leaving?
         else next == pc
  }

  lemma {:induction false} JudgeStops(m: Mail, unread: set<Name>, rest: seq<Notice>)
    ensures Judge(m, unread, rest).pc.Aborting? || Judge(m, unread, rest).pc.Leaving?
    decreases |rest|
  {
    if rest != [] && HasUnread(rest[0], unread) { JudgeStops(m, unread, rest[1..]); }
  }

  lemma OwnMoves(s: State, e: Event, r: ReaderId)
    requires DurableGate.GateInv(s.gate) && Enabled(s, e)
    requires e.ERead? || e.ECall? || e.EAnswer? || e.EWithdrawn?
    ensures ReadMoves(s, Apply(s, e), e, r)
  {
    match e
    case EAnswer(_, _) => JudgeStops(s.mail, WithMark(s.mail.box, Delivered), s.mail.notices);
    case EWithdrawn(x, ok) =>
      var pc := s.gate.readers[x];
      JudgeStops(if ok then s.mail else s.mail.(withdrawalFailure := Some(AbortFailed(pc.notice.requestId))),
                 pc.unread, pc.rest);
    case _ =>
  }

  lemma RingReaders(s: State, why: Why, io: Io)
    requires s.gate.waiters == []
    ensures !s.gate.gated ==> Ring(s, why, io).gate.readers == s.gate.readers
    ensures s.gate.gated ==> Ring(s, why, io).gate.readers == s.gate.readers
  {}

  /** Whoever gives up the gate lets the first waiting read in, or nobody. */
  predicate LetsIn(g: Gate, readers: Readers) {
    readers == g.readers || (g.waiters != [] && readers == g.readers[g.waiters[0] := Entered])
  }

  lemma LeaveReaders(s: State, io: Io)
    requires s.gate.gated
    ensures LetsIn(s.gate, LeaveGate(s, io).gate.readers)
  {
    if s.gate.waiters == [] { RingReaders(s.(gate := HandOver(s.gate)), Signal, io); }
  }

  lemma BodyReaders(s: State, why: Why, io: Io)
    ensures LetsIn(s.gate, PassBody(s, why, io).gate.readers)
  {}

  lemma GateMoves(s: State, e: Event, r: ReaderId)
    requires DurableGate.GateInv(s.gate) && Enabled(s, e)
    requires e.EAdmit? || e.EReject? || e.ELeave?
    ensures ReadMoves(s, Apply(s, e), e, r)
  {
    assert s.gate.waiters != [] ==> s.gate.waiters[0] in s.gate.waiters;
    match e
    case EAdmit(io) =>
      var t := s.(gate := s.gate.(pass := None), mail := PushNotice(s.mail, s.gate.pass.value));
      BodyReaders(t, s.gate.pass.value.why, io);
      LeaveReaders(t, io);
    case EReject(io) => LeaveReaders(DropPass(s, io), io);
    case ELeave(x, io) =>
      assert DurableGate.Active(s.gate.readers, x);
      LeaveReaders(s.(gate := s.gate.(readers := s.gate.readers - {x})), io);
  }

  lemma OtherMoves(s: State, e: Event, r: ReaderId)
    requires DurableGate.Inv(s) && DurableLife.Inv(s) && Enabled(s, e)
    requires !e.ERead? && !e.ECall? && !e.EAnswer? && !e.EWithdrawn? && !e.EAdmit? && !e.EReject? && !e.ELeave?
    ensures Apply(s, e).gate.readers == s.gate.readers
  {
    DurableGate.FreeGateIsEmpty(s.gate);
    match e
    case ESignal(io) => if !s.gate.gated { RingReaders(s, Signal, io); }
    case EList(agrees, arm, io) => if !s.gate.gated { RingReaders(ListEnds(s, agrees, arm, io), Startup, io); }
    case _ =>
  }

  /**
    Every read goes its way, in any run: it takes a free gate or queues, is let in, calls the bridge, goes
    through its withdraws and leaves, and no event moves it but its own and the one that lets it in.
  */
  lemma {:induction false} EveryReadMoves(run: seq<Event>, e: Event, r: ReaderId)
    ensures ReadMoves(Run(run), Run(run + [e]), e, r)
  {
    var s := Run(run);
    DurableGate.RunKeeps(run);
    DurableLife.RunKeeps(run);
    RunSnoc(run, e);
    if Enabled(s, e) {
      if e.ERead? || e.ECall? || e.EAnswer? || e.EWithdrawn? { OwnMoves(s, e, r); }
      else if e.EAdmit? || e.EReject? || e.ELeave? { GateMoves(s, e, r); }
      else { OtherMoves(s, e, r); }
    }
  }

  // ---- failures ---------------------------------------------------------------------

  /** The failure this event names in the report, if any. */
  function NamedBy(s: State, e: Event): Option<WithdrawalFailure> {
    if !Enabled(s, e) then None
    else match e
      case EAnswer(_, lists) => if s.bell.inbox && s.mail.notices != [] && !lists then Some(InspectionFailed) else None
      case EWithdrawn(r, ok) => if ok then None else Some(AbortFailed(s.gate.readers[r].notice.requestId))
      case _ => None
  }

  lemma {:induction false} JudgeNames(m: Mail, unread: set<Name>, rest: seq<Notice>)
    ensures Judge(m, unread, rest).mail.withdrawalFailure == m.withdrawalFailure
    decreases |rest|
  {
    if rest != [] && HasUnread(rest[0], unread) { JudgeNames(m, unread, rest[1..]); }
  }

  lemma RoundNames(b: Bell, m: Mail, why: Why, io: Io)
    ensures Round(b, m, why, io).mail.withdrawalFailure == m.withdrawalFailure
  {}

  lemma RingNames(s: State, why: Why, io: Io)
    ensures Ring(s, why, io).mail.withdrawalFailure == s.mail.withdrawalFailure
  {
    RoundNames(s.bell, s.mail.(signalled := s.mail.signalled + WithMark(s.mail.box, Fresh)), why, io);
  }

  lemma LeaveNames(s: State, io: Io)
    ensures LeaveGate(s, io).mail.withdrawalFailure == s.mail.withdrawalFailure
  {
    RingNames(s.(gate := HandOver(s.gate)), Signal, io);
  }

  lemma BodyNames(s: State, why: Why, io: Io)
    ensures PassBody(s, why, io).mail.withdrawalFailure == s.mail.withdrawalFailure
  {
    RoundNames(s.bell, s.mail, why, io);
  }

  lemma AdmitNames(s: State, io: Io)
    requires s.gate.pass.Some? && s.gate.pass.value.names != []
    ensures Admit(s, io).mail.withdrawalFailure == s.mail.withdrawalFailure
  {
    var t := s.(gate := s.gate.(pass := None), mail := PushNotice(s.mail, s.gate.pass.value));
    if t.gate.pending && t.bell.armed { BodyNames(t, s.gate.pass.value.why, io); } else { LeaveNames(t, io); }
  }

  /**
    The report names the latest failure of a withdrawal, in any run: of a mailbox that could not be listed
    while notices were held, or of a native withdraw that was rejected, with its request id; nothing else
    changes it, and nothing takes it back.
  */
  lemma {:induction false} FailuresNamed(run: seq<Event>, e: Event)
    ensures var s, t := Run(run), Run(run + [e]);
      t.mail.withdrawalFailure == if NamedBy(s, e).Some? then NamedBy(s, e) else s.mail.withdrawalFailure
  {
    RunSnoc(run, e);
    StepNames(Run(run), e);
  }

  lemma StepNames(s: State, e: Event)
    ensures Step(s, e).mail.withdrawalFailure == if NamedBy(s, e).Some? then NamedBy(s, e) else s.mail.withdrawalFailure
  {
    if Enabled(s, e) {
      match e
      case EAnswer(_, _) => JudgeNames(s.mail, WithMark(s.mail.box, Delivered), s.mail.notices);
      case EWithdrawn(r, ok) =>
        var pc := s.gate.readers[r];
        JudgeNames(if ok then s.mail else s.mail.(withdrawalFailure := Some(AbortFailed(pc.notice.requestId))),
                   pc.unread, pc.rest);
      case EAdmit(io) => AdmitNames(s, io);
      case EList(agrees, arm, io) => RingNames(ListEnds(s, agrees, arm, io), Startup, io);
      case ESignal(io) => RingNames(s, Signal, io);
      case EReject(io) => LeaveNames(DropPass(s, io), io);
      case ELeave(r, io) => LeaveNames(s.(gate := s.gate.(readers := s.gate.readers - {r})), io);
      case _ =>
    }
  }
}
