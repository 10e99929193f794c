/**
  Mail and notices of the doorbell contact: what is stamped stays announced until it is
  drained, and a notice is withdrawn once, and only when nothing it announced is unread.
*/
module DurableMail {
  import opened Option
  import opened Listing
  import opened DurableModel
  import DurableGate
  import DurableLife

  // ---- invariants -------------------------------------------------------------------

  ghost predicate Issued(m: Mail, notice: Notice) {
    notice.handle < |m.issued| && m.issued[notice.handle] == notice
  }

  ghost predicate Increasing(ns: seq<Notice>) {
    forall i, j :: 0 <= i < j < |ns| ==> ns[i].handle < ns[j].handle
  }

  /** A list of notices in the order they were issued, without repetition. */
  ghost predicate InOrder(m: Mail, ns: seq<Notice>) {
    Increasing(ns) && forall i :: 0 <= i < |ns| ==> Issued(m, ns[i])
  }

  /** Every issued notice names mail this contact stamped, and no name is announced twice. */
  ghost predicate IssuedInv(m: Mail) {
    && (forall i :: 0 <= i < |m.issued| ==>
          && m.issued[i].handle == i && m.issued[i].names != []
          && m.issued[i].requestId == m.issued[i].names[|m.issued[i].names| - 1])
    && (forall i, n :: 0 <= i < |m.issued| && n in m.issued[i].names ==> n in m.stamped)
    && (forall i, j, n :: 0 <= i < j < |m.issued| && n in m.issued[i].names ==> n !in m.issued[j].names)
  }

  ghost predicate BoxInv(m: Mail) {
    && (forall n :: n in m.stamped ==> n in m.box && m.box[n] != Fresh)
    && m.orphans <= m.stamped
    && (forall i, n :: 0 <= i < |m.issued| && n in m.issued[i].names ==> n !in m.orphans)
  }

  /** The pass awaiting its admission announces stamped mail that no notice names. */
  ghost predicate PassInv(m: Mail, pass: Option<Pass>) {
    pass.Some? ==>
      && pass.value.names != []
      && (forall n :: n in pass.value.names ==> n in m.stamped && n !in m.orphans)
      && (forall i, n :: 0 <= i < |m.issued| && n in m.issued[i].names ==> n !in pass.value.names)
  }

  /** Some held notice names `n`. */
  ghost predicate Held(m: Mail, n: Name) {
    exists i :: 0 <= i < |m.notices| && n in m.notices[i].names
  }

  /** Stamped by this contact and read by nobody yet. */
  predicate Unread(m: Mail, n: Name) {
    n in m.stamped && n in m.box && m.box[n] == Delivered
  }

  /** Unread, and not left behind by a pass that failed. */
  predicate Due(m: Mail, n: Name) {
    Unread(m, n) && n !in m.orphans
  }

  ghost predicate CoverInv(m: Mail, pass: Option<Pass>) {
    forall n :: Due(m, n) ==> Held(m, n) || (pass.Some? && n in pass.value.names)
  }

  ghost predicate MailInv(m: Mail, pass: Option<Pass>, closed: bool) {
    && IssuedInv(m) && BoxInv(m) && PassInv(m, pass) && InOrder(m, m.notices)
    && (!closed ==> CoverInv(m, pass))
  }

  ghost predicate Withdrawn(m: Mail, notice: Notice) {
    exists k :: 0 <= k < |m.withdrawals| && m.withdrawals[k].notice == notice
  }

  ghost predicate WithdrawalsJudged(m: Mail) {
    forall k :: 0 <= k < |m.withdrawals| ==>
      Issued(m, m.withdrawals[k].notice) && !HasUnread(m.withdrawals[k].notice, m.withdrawals[k].unread)
  }

  /** What a withdrawn notice announced is archived, all of it. */
  ghost predicate WithdrawnArchived(m: Mail) {
    forall k, n :: 0 <= k < |m.withdrawals| && n in m.withdrawals[k].notice.names ==>
      n in m.box && m.box[n] == Archived
  }

  ghost predicate WithdrawalInv(m: Mail) {
    && WithdrawalsJudged(m) && WithdrawnArchived(m)
    && (forall j, k :: 0 <= j < k < |m.withdrawals| ==> m.withdrawals[j].notice != m.withdrawals[k].notice)
    && (forall i :: 0 <= i < |m.notices| ==> !Withdrawn(m, m.notices[i]))
  }

  /** The rest of the snapshot is the tail of the held notices, and every notice before it has unread mail. */
  ghost predicate Tail(ns: seq<Notice>, unread: set<Name>, rest: seq<Notice>) {
    && |rest| <= |ns| && ns[|ns| - |rest|..] == rest
    && forall i :: 0 <= i < |ns| - |rest| ==> HasUnread(ns[i], unread)
  }

  /** What a listed name says later: mail that was not unread then is archived now. */
  ghost predicate Judged(m: Mail, unread: set<Name>, rest: seq<Notice>) {
    forall i, n :: 0 <= i < |rest| && n in rest[i].names && n !in unread ==> n in m.box && m.box[n] == Archived
  }

  ghost predicate LoopInv(m: Mail, unread: set<Name>, rest: seq<Notice>, closed: bool) {
    && InOrder(m, rest) && Judged(m, unread, rest)
    && (forall i :: 0 <= i < |rest| ==> !Withdrawn(m, rest[i]))
    && (Tail(m.notices, unread, rest) || (closed && m.notices == []))
  }

  ghost predicate PcInv(m: Mail, pc: ReaderPc, closed: bool) {
    match pc
    case Aborting(_, unread, rest) => LoopInv(m, unread, rest, closed)
    case Leaving(Some(unread)) => forall i :: 0 <= i < |m.notices| ==> HasUnread(m.notices[i], unread)
    case _ => true
  }

  ghost predicate ReadersInv(m: Mail, readers: Readers, closed: bool) {
    forall r :: r in readers ==> PcInv(m, readers[r], closed)
  }

  ghost predicate Inv(s: State) {
    && MailInv(s.mail, s.gate.pass, s.life.phase == Closed)
    && WithdrawalInv(s.mail)
    && ReadersInv(s.mail, s.gate.readers, s.life.phase == Closed)
  }

  // ---- the withdraw loop ------------------------------------------------------------

  lemma IndexInTail(ns: seq<Notice>, unread: set<Name>, rest: seq<Notice>)
    requires Increasing(ns) && rest != [] && Tail(ns, unread, rest)
    ensures IndexOf(ns, rest[0]) == |ns| - |rest|
  {
    var k := |ns| - |rest|;
    assert ns[k] == ns[k..][0] == rest[0];
  }

  lemma SpliceKeepsOthers(ns: seq<Notice>, k: nat, n: Notice)
    requires Increasing(ns) && k < |ns|
    ensures n in SpliceOne(ns, k) <==> n in ns && n != ns[k]
  {
    var left := SpliceOne(ns, k);
    assert forall x :: 0 <= x < |left| ==> left[x] == ns[if x < k then x else x + 1];
    if n in ns && n != ns[k] {
      var x :| 0 <= x < |ns| && ns[x] == n;
      assert left[if x < k then x else x - 1] == n;
    }
  }

  lemma SpliceKeepsTail(ns: seq<Notice>, unread: set<Name>, rest: seq<Notice>)
    requires rest != [] && Tail(ns, unread, rest)
    ensures Tail(SpliceOne(ns, |ns| - |rest|), unread, rest[1..])
  {
    var k := |ns| - |rest|;
    var left := SpliceOne(ns, k);
    assert left[k..] == ns[k..][1..];
    assert |left| - |rest[1..]| == k && forall i :: 0 <= i < k ==> left[i] == ns[i];
  }

  lemma SpliceKeepsOrder(ns: seq<Notice>, k: nat)
    requires Increasing(ns) && k < |ns|
    ensures Increasing(SpliceOne(ns, k))
  {
    var left := SpliceOne(ns, k);
    assert forall x :: 0 <= x < |left| ==> left[x] == ns[if x < k then x else x + 1];
  }

  lemma TailHead(ns: seq<Notice>, unread: set<Name>, rest: seq<Notice>)
    requires rest != [] && Tail(ns, unread, rest)
    ensures ns[|ns| - |rest|] == rest[0]
  {
    assert rest[0] == ns[|ns| - |rest|..][0];
  }

  lemma SpliceMembers(ns: seq<Notice>, k: nat)
    requires Increasing(ns) && k < |ns|
    ensures forall n :: n in SpliceOne(ns, k) <==> n in ns && n != ns[k]
  {
    forall n ensures n in SpliceOne(ns, k) <==> n in ns && n != ns[k] {
      SpliceKeepsOthers(ns, k, n);
    }
  }

  /** `splice(indexOf(notice), 1)` takes exactly the judged notice out. */
  lemma {:induction false} SpliceTail(ns: seq<Notice>, unread: set<Name>, rest: seq<Notice>)
    requires Increasing(ns) && rest != [] && Tail(ns, unread, rest)
    ensures var left := SpliceOne(ns, IndexOf(ns, rest[0]));
      && Tail(left, unread, rest[1..]) && Increasing(left)
      && (forall n :: n in left <==> n in ns && n != rest[0])
  {
    var k := |ns| - |rest|;
    IndexInTail(ns, unread, rest);
    TailHead(ns, unread, rest);
    SpliceKeepsTail(ns, unread, rest);
    SpliceKeepsOrder(ns, k);
    SpliceMembers(ns, k);
  }

  /** `t` is `m` after exactly this notice left the held ones and was asked to be withdrawn. */
  ghost predicate TookOut(m: Mail, t: Mail, notice: Notice, unread: set<Name>) {
    && t == m.(notices := t.notices, withdrawals := m.withdrawals + [Withdrawal(notice, unread)])
    && InOrder(t, t.notices)
    && (forall n :: n in t.notices <==> n in m.notices && n != notice)
  }

  /** One judged notice is taken out; when the contact closed meanwhile, all of them are gone already. */
  lemma JudgeTakes(m: Mail, unread: set<Name>, rest: seq<Notice>, closed: bool)
    requires InOrder(m, m.notices) && LoopInv(m, unread, rest, closed)
    requires rest != [] && !HasUnread(rest[0], unread)
    ensures var t := Judge(m, unread, rest).mail;
      && TookOut(m, t, rest[0], unread)
      && (Tail(t.notices, unread, rest[1..]) || (closed && t.notices == []))
  {
    if Tail(m.notices, unread, rest) {
      SpliceTail(m.notices, unread, rest);
      var t := Judge(m, unread, rest).mail;
      assert forall i :: 0 <= i < |t.notices| ==> t.notices[i] in t.notices;
    }
  }

  /** All that a judged notice named is archived. */
  lemma JudgedArchived(m: Mail, unread: set<Name>, rest: seq<Notice>, n: Name)
    requires Judged(m, unread, rest) && rest != [] && !HasUnread(rest[0], unread) && n in rest[0].names
    ensures n in m.box && m.box[n] == Archived
  {
    var x :| 0 <= x < |rest[0].names| && rest[0].names[x] == n;
    assert n !in unread;
  }

  lemma TakenCovers(m: Mail, t: Mail, unread: set<Name>, rest: seq<Notice>, n: Name)
    requires rest != [] && Judged(m, unread, rest) && !HasUnread(rest[0], unread)
    requires TookOut(m, t, rest[0], unread) && Due(m, n) && Held(m, n)
    ensures Held(t, n)
  {
    var i :| 0 <= i < |m.notices| && n in m.notices[i].names;
    if n in rest[0].names { JudgedArchived(m, unread, rest, n); }
    assert m.notices[i] in t.notices;
  }

  lemma TakenKeeps(m: Mail, t: Mail, unread: set<Name>, rest: seq<Notice>, closed: bool, pass: Option<Pass>)
    requires MailInv(m, pass, closed)
    requires rest != [] && Judged(m, unread, rest) && !HasUnread(rest[0], unread)
    requires TookOut(m, t, rest[0], unread)
    ensures MailInv(t, pass, closed)
  {
    forall n | Due(t, n) && Held(m, n) ensures Held(t, n) {
      TakenCovers(m, t, unread, rest, n);
    }
  }

  lemma TakenWithdrawn(m: Mail, t: Mail, notice: Notice, unread: set<Name>, n: Notice)
    requires TookOut(m, t, notice, unread)
    ensures Withdrawn(t, n) <==> Withdrawn(m, n) || n == notice
  {
    assert t.withdrawals[|m.withdrawals|].notice == notice;
    if Withdrawn(m, n) {
      var k :| 0 <= k < |m.withdrawals| && m.withdrawals[k].notice == n;
      assert t.withdrawals[k].notice == n;
    }
  }

  lemma TakenWithdrawals(m: Mail, t: Mail, notice: Notice, unread: set<Name>)
    requires WithdrawalInv(m) && TookOut(m, t, notice, unread)
    requires Issued(m, notice) && !Withdrawn(m, notice) && !HasUnread(notice, unread)
    requires forall n :: n in notice.names ==> n in m.box && m.box[n] == Archived
    ensures WithdrawalInv(t)
  {
    forall i | 0 <= i < |t.notices| ensures !Withdrawn(t, t.notices[i]) {
      TakenWithdrawn(m, t, notice, unread, t.notices[i]);
      assert t.notices[i] in m.notices by { assert t.notices[i] in t.notices; }
    }
  }

  lemma TakenLoop(m: Mail, t: Mail, unread: set<Name>, rest: seq<Notice>, closed: bool)
    requires LoopInv(m, unread, rest, closed) && rest != [] && TookOut(m, t, rest[0], unread)
    requires Tail(t.notices, unread, rest[1..]) || (closed && t.notices == [])
    ensures LoopInv(t, unread, rest[1..], closed)
  {
    forall i | 0 <= i < |rest[1..]| ensures !Withdrawn(t, rest[1..][i]) {
      TakenWithdrawn(m, t, rest[0], unread, rest[i + 1]);
    }
  }

  /** The loop keeps every invariant, wherever it stops. */
  lemma {:induction false} JudgeKeeps(m: Mail, unread: set<Name>, rest: seq<Notice>, closed: bool, pass: Option<Pass>)
    requires MailInv(m, pass, closed) && WithdrawalInv(m) && LoopInv(m, unread, rest, closed)
    ensures var end := Judge(m, unread, rest);
      MailInv(end.mail, pass, closed) && WithdrawalInv(end.mail) && PcInv(end.mail, end.pc, closed)
    decreases |rest|
  {
    if rest != [] {
      if HasUnread(rest[0], unread) {
        SkipKeeps(m, unread, rest, closed);
        JudgeKeeps(m, unread, rest[1..], closed, pass);
      } else {
        JudgeTakes(m, unread, rest, closed);
        var t := Judge(m, unread, rest).mail;
        TakenKeeps(m, t, unread, rest, closed, pass);
        forall n | n in rest[0].names ensures n in m.box && m.box[n] == Archived {
          JudgedArchived(m, unread, rest, n);
        }
        TakenWithdrawals(m, t, rest[0], unread);
        TakenLoop(m, t, unread, rest, closed);
      }
    }
  }

  lemma SkipKeeps(m: Mail, unread: set<Name>, rest: seq<Notice>, closed: bool)
    requires LoopInv(m, unread, rest, closed) && rest != [] && HasUnread(rest[0], unread)
    ensures LoopInv(m, unread, rest[1..], closed)
  {
    if Tail(m.notices, unread, rest) {
      var k := |m.notices| - |rest|;
      assert m.notices[k] == m.notices[k..][0];
      assert m.notices[k + 1..] == m.notices[k..][1..];
    }
  }

  // ---- the ring pass ----------------------------------------------------------------

  lemma StampKeeps(m: Mail, ns: set<Name>, closed: bool)
    requires MailInv(m, None, closed) && ns <= WithMark(m.box, Fresh)
    ensures var t := StampMail(m, ns);
      && IssuedInv(t) && BoxInv(t) && InOrder(t, t.notices)
      && (!closed ==> forall n :: Due(t, n) ==> Held(t, n) || n in ns)
      && (forall i, n :: 0 <= i < |m.issued| && n in m.issued[i].names ==> n !in ns)
  {
    var t := StampMail(m, ns);
    forall n | !closed && Due(t, n) && n !in ns ensures Held(t, n) {
      assert Due(m, n) && Held(m, n);
    }
  }

  /** Stamping and admitting leave the withdrawals alone. */
  lemma SameWithdrawals(m: Mail, t: Mail)
    requires WithdrawalInv(m)
    requires t.withdrawals == m.withdrawals && t.issued == m.issued && t.notices == m.notices
    requires forall n :: n in m.box && m.box[n] == Archived ==> n in t.box && t.box[n] == Archived
    ensures WithdrawalInv(t)
  {
    assert forall n :: Withdrawn(t, n) <==> Withdrawn(m, n);
  }

  lemma FailedRoundKeeps(b: Bell, m: Mail, ns: set<Name>, io: Io, closed: bool)
    requires MailInv(m, None, closed) && ns <= WithMark(m.box, Fresh)
    ensures MailInv(FailedRound(b, m, ns, io).mail, None, closed)
  {
    StampKeeps(m, ns, closed);
    var s := StampMail(m, ns);
    var t := s.(orphans := m.orphans + ns);
    assert forall n :: Due(t, n) ==> Due(s, n) && n !in ns;
    assert forall n :: Held(s, n) ==> Held(t, n);
  }

  lemma SentRoundKeeps(m: Mail, found: seq<Name>, why: Why, unread: nat, closed: bool)
    requires MailInv(m, None, closed) && found != [] && Names(found) <= WithMark(m.box, Fresh)
    ensures MailInv(StampMail(m, Names(found)), Some(Pass(why, found, unread)), closed)
  {
    StampKeeps(m, Names(found), closed);
  }

  lemma RoundKeeps(b: Bell, m: Mail, why: Why, io: Io, closed: bool)
    requires MailInv(m, None, closed) && WithdrawalInv(m)
    ensures var end := Round(b, m, why, io);
      MailInv(end.mail, end.pass, closed) && WithdrawalInv(end.mail)
  {
    var found := Ascending(WithMark(m.box, Fresh));
    assert Names(found) <= WithMark(m.box, Fresh);
    if !b.signal {
    } else if io.pass == ListFails {
      FailedRoundKeeps(b, m, {}, io, closed);
    } else if found == [] {
    } else if io.pass.RenameFails? && io.pass.stamped < |found| {
      assert forall n :: n in found[..io.pass.stamped] ==> n in found;
      FailedRoundKeeps(b, m, Names(found[..io.pass.stamped]), io, closed);
    } else if io.pass == CountFails {
      FailedRoundKeeps(b, m, Names(found), io, closed);
    } else {
      SentRoundKeeps(m, found, why, |WithMark(StampMail(m, Names(found)).box, Delivered)|, closed);
    }
    SameWithdrawals(m, Round(b, m, why, io).mail);
  }

  /** Reads that only queue or have just entered judge nothing. */
  lemma CalmReaders(m: Mail, g: Gate, closed: bool)
    requires DurableGate.Idle(g.readers)
    ensures ReadersInv(m, g.readers, closed) && ReadersInv(m, HandOver(g).readers, closed)
  {}

  lemma PassBodyKeeps(s: State, why: Why, io: Io)
    requires MailInv(s.mail, None, s.life.phase == Closed) && WithdrawalInv(s.mail)
    requires DurableGate.Idle(s.gate.readers)
    ensures Inv(PassBody(s, why, io))
  {
    RoundKeeps(s.bell, s.mail, why, io, s.life.phase == Closed);
    var end := Round(s.bell, s.mail, why, io);
    CalmReaders(end.mail, s.gate.(pending := false, pass := end.pass), s.life.phase == Closed);
  }

  /** Time passes: files arrive, are stamped by somebody, or are archived; signals are noted. */
  ghost predicate Ages(m: Mail, t: Mail) {
    && t == m.(box := t.box, signalled := t.signalled)
    && forall n :: n in m.box ==>
         n in t.box && (m.box[n] != Fresh ==> t.box[n] == m.box[n] || t.box[n] == Archived)
  }

  lemma AgesMail(m: Mail, t: Mail, pass: Option<Pass>, closed: bool)
    requires MailInv(m, pass, closed) && Ages(m, t)
    ensures MailInv(t, pass, closed)
  {
    assert forall n :: Due(t, n) ==> Due(m, n);
    assert forall n :: Held(m, n) ==> Held(t, n);
  }

  lemma AgesPc(m: Mail, t: Mail, pc: ReaderPc, closed: bool)
    requires PcInv(m, pc, closed) && Ages(m, t)
    ensures PcInv(t, pc, closed)
  {
    assert forall n :: Withdrawn(t, n) <==> Withdrawn(m, n);
  }

  lemma AgesKeeps(s: State, t: State)
    requires Inv(s) && Ages(s.mail, t.mail)
    requires t.gate.pass == s.gate.pass && t.gate.readers == s.gate.readers && t.life == s.life
    ensures Inv(t)
  {
    var closed := s.life.phase == Closed;
    AgesMail(s.mail, t.mail, s.gate.pass, closed);
    SameWithdrawals(s.mail, t.mail);
    forall r | r in t.gate.readers ensures PcInv(t.mail, t.gate.readers[r], closed) {
      AgesPc(s.mail, t.mail, s.gate.readers[r], closed);
    }
  }

  lemma RingKeeps(s: State, why: Why, io: Io)
    requires Inv(s) && DurableGate.GateInv(s.gate)
    ensures Inv(Ring(s, why, io))
  {
    if s.bell.armed {
      var m := s.mail.(signalled := s.mail.signalled + WithMark(s.mail.box, Fresh));
      var t := s.(mail := m);
      AgesKeeps(s, t);
      if s.gate.gated {
        AgesKeeps(s, Ring(s, why, io));
      } else {
        PassBodyKeeps(t.(gate := s.gate.(gated := true)), why, io);
      }
    }
  }

  lemma LeaveGateKeeps(s: State, io: Io)
    requires MailInv(s.mail, None, s.life.phase == Closed) && WithdrawalInv(s.mail)
    requires DurableGate.BeingLeft(s.gate)
    ensures Inv(LeaveGate(s, io))
  {
    CalmReaders(s.mail, s.gate, s.life.phase == Closed);
    DurableGate.HandOverKeeps(s.gate);
    var t := s.(gate := HandOver(s.gate));
    if !t.gate.gated && t.gate.pending { RingKeeps(t, Signal, io); }
  }

  // ---- admission --------------------------------------------------------------------

  lemma PushIssued(m: Mail, p: Pass, closed: bool)
    requires MailInv(m, Some(p), closed)
    ensures var t := PushNotice(m, p); IssuedInv(t) && BoxInv(t) && InOrder(t, t.notices)
  {}

  lemma PushKeeps(m: Mail, p: Pass, closed: bool)
    requires MailInv(m, Some(p), closed) && WithdrawalInv(m)
    ensures MailInv(PushNotice(m, p), None, closed) && WithdrawalInv(PushNotice(m, p))
  {
    PushIssued(m, p, closed);
    var t := PushNotice(m, p);
    var last := t.notices[|m.notices|];
    forall n | Due(t, n) && !closed ensures Held(t, n) {
      assert Due(m, n);
      if Held(m, n) {
        var i :| 0 <= i < |m.notices| && n in m.notices[i].names;
        assert t.notices[i] == m.notices[i];
      } else {
        assert n in last.names;
      }
    }
    assert forall n :: Withdrawn(t, n) <==> Withdrawn(m, n);
    assert !Withdrawn(t, last);
  }

  lemma AdmitKeeps(s: State, io: Io)
    requires Inv(s) && DurableGate.GateInv(s.gate) && s.gate.pass.Some? && s.gate.pass.value.names != []
    ensures Inv(Admit(s, io))
  {
    var p := s.gate.pass.value;
    PushKeeps(s.mail, p, s.life.phase == Closed);
    var t := s.(gate := s.gate.(pass := None), mail := PushNotice(s.mail, p));
    if t.gate.pending && t.bell.armed { PassBodyKeeps(t, p.why, io); } else { LeaveGateKeeps(t, io); }
  }

  lemma RejectKeeps(s: State, io: Io)
    requires Inv(s) && DurableGate.GateInv(s.gate) && s.gate.pass.Some?
    ensures Inv(Reject(s, io))
  {
    var names := Names(s.gate.pass.value.names);
    var m := s.mail.(orphans := s.mail.orphans + names);
    forall n | n in names ensures n in m.stamped {
      assert n in s.gate.pass.value.names;
    }
    assert MailInv(m, None, s.life.phase == Closed) by {
      assert forall n :: Due(m, n) ==> Due(s.mail, n) && n !in names;
      assert forall n :: Held(s.mail, n) ==> Held(m, n);
    }
    SameWithdrawals(s.mail, m);
    LeaveGateKeeps(s.(bell := Retire(s.bell, AdmissionRejected, io), gate := s.gate.(pass := None), mail := m), io);
  }

  // ---- reads and close --------------------------------------------------------------

  lemma MoveKeeps(s: State, r: ReaderId, end: JudgeEnd)
    requires DurableGate.GateInv(s.gate) && DurableGate.Active(s.gate.readers, r)
    requires MailInv(end.mail, s.gate.pass, s.life.phase == Closed) && WithdrawalInv(end.mail)
    requires PcInv(end.mail, end.pc, s.life.phase == Closed)
    ensures Inv(MoveReader(s, r, end))
  {
    assert forall x :: x in s.gate.readers && x != r ==> !DurableGate.Active(s.gate.readers, x);
  }

  /** The snapshot of a read that just listed its mailbox: everything held, nothing judged yet. */
  lemma SnapshotLoop(m: Mail, pass: Option<Pass>, closed: bool)
    requires MailInv(m, pass, closed) && WithdrawalInv(m)
    ensures LoopInv(m, WithMark(m.box, Delivered), m.notices, closed)
  {
    assert m.notices[0..] == m.notices;
    forall i, n | 0 <= i < |m.notices| && n in m.notices[i].names && n !in WithMark(m.box, Delivered)
      ensures n in m.box && m.box[n] == Archived
    {
      assert Issued(m, m.notices[i]);
    }
  }

  /** Recording a failed withdrawal changes nothing that is judged. */
  lemma NotedKeeps(m: Mail, t: Mail, pass: Option<Pass>, closed: bool)
    requires MailInv(m, pass, closed) && WithdrawalInv(m)
    requires t == m.(withdrawalFailure := t.withdrawalFailure)
    ensures MailInv(t, pass, closed) && WithdrawalInv(t)
  {
    SameWithdrawals(m, t);
    assert forall n :: Due(t, n) ==> Due(m, n);
    assert forall n :: Held(m, n) ==> Held(t, n);
  }

  lemma NotedLoop(m: Mail, t: Mail, unread: set<Name>, rest: seq<Notice>, closed: bool)
    requires LoopInv(m, unread, rest, closed)
    requires t == m.(withdrawalFailure := t.withdrawalFailure)
    ensures LoopInv(t, unread, rest, closed)
  {
    assert forall n :: Withdrawn(t, n) <==> Withdrawn(m, n);
  }

  lemma AnswerKeeps(s: State, r: ReaderId, lists: bool)
    requires Inv(s) && DurableGate.GateInv(s.gate) && DurableGate.Active(s.gate.readers, r)
    ensures Inv(MoveReader(s, r, ReadAnswered(s.bell.inbox, s.mail, lists)))
  {
    var closed := s.life.phase == Closed;
    var end := ReadAnswered(s.bell.inbox, s.mail, lists);
    if !s.bell.inbox || s.mail.notices == [] {
    } else if !lists {
      NotedKeeps(s.mail, end.mail, s.gate.pass, closed);
    } else {
      SnapshotLoop(s.mail, s.gate.pass, closed);
      JudgeKeeps(s.mail, WithMark(s.mail.box, Delivered), s.mail.notices, closed, s.gate.pass);
    }
    MoveKeeps(s, r, end);
  }

  lemma WithdrawKeeps(s: State, r: ReaderId, ok: bool)
    requires Inv(s) && DurableGate.GateInv(s.gate) && r in s.gate.readers && s.gate.readers[r].Aborting?
    ensures Inv(Step(s, EWithdrawn(r, ok)))
  {
    var closed := s.life.phase == Closed;
    var pc := s.gate.readers[r];
    assert PcInv(s.mail, pc, closed);
    var m := if ok then s.mail else s.mail.(withdrawalFailure := Some(AbortFailed(pc.notice.requestId)));
    NotedKeeps(s.mail, m, s.gate.pass, closed);
    NotedLoop(s.mail, m, pc.unread, pc.rest, closed);
    JudgeKeeps(m, pc.unread, pc.rest, closed, s.gate.pass);
    MoveKeeps(s, r, Judge(m, pc.unread, pc.rest));
  }

  lemma CloseKeeps(s: State, io: Io)
    requires Inv(s)
    ensures Inv(Close(s, io))
  {
    var t := Close(s, io);
    assert forall n :: Withdrawn(t.mail, n) <==> Withdrawn(s.mail, n);
    forall r | r in t.gate.readers ensures PcInv(t.mail, t.gate.readers[r], true) {
      assert PcInv(s.mail, s.gate.readers[r], s.life.phase == Closed);
    }
  }

  // ---- whole runs -------------------------------------------------------------------

  lemma LeaveKeeps(s: State, r: ReaderId, io: Io)
    requires Inv(s) && DurableGate.GateInv(s.gate) && DurableGate.Active(s.gate.readers, r)
    ensures Inv(ReadLeaves(s, r, io))
  {
    var g := s.gate.(readers := s.gate.readers - {r});
    assert forall x :: x in g.readers ==> x in s.gate.readers && !DurableGate.Active(s.gate.readers, x);
    LeaveGateKeeps(s.(gate := g), io);
  }

  /** The events that move neither mail nor gate: births, failures, and what others do to the bell. */
  predicate Quiet(e: Event) {
    e.EAttach? || e.EConnect? || e.ECleanup? || e.EFail? || e.EBridgeClosed?
    || e.EWatchError? || e.ESessionFailed? || e.ESignalFile? || e.EForeignMarker?
  }

  lemma QuietKeeps(s: State, e: Event)
    requires Inv(s) && Quiet(e) && DurableLife.LifeInv(s.life)
    ensures Inv(Step(s, e))
  {
    var t := Step(s, e);
    assert t.mail == s.mail && t.gate == s.gate;
    assert t.life.phase == Closed <==> s.life.phase == Closed;
  }

  lemma ReadStepKeeps(s: State, e: Event)
    requires Inv(s) && DurableGate.GateInv(s.gate) && Enabled(s, e)
    requires e.ERead? || e.ECall? || e.EAnswer? || e.EWithdrawn? || e.ELeave?
    ensures Inv(Apply(s, e))
  {
    match e
    case ERead(r) =>
    case ECall(r) => MoveKeeps(s, r, JudgeEnd(s.mail, Calling));
    case EAnswer(r, lists) => AnswerKeeps(s, r, lists);
    case EWithdrawn(r, ok) => WithdrawKeeps(s, r, ok);
    case ELeave(r, io) => LeaveKeeps(s, r, io);
  }

  lemma BoxStepKeeps(s: State, e: Event)
    requires Inv(s) && Enabled(s, e) && (e.EArrive? || e.EArchive? || e.EForeignStamp?)
    ensures Inv(Apply(s, e))
  {
    AgesKeeps(s, Apply(s, e));
  }

  lemma OwnStepKeeps(s: State, e: Event)
    requires Inv(s) && DurableGate.GateInv(s.gate) && DurableLife.LifeInv(s.life) && Enabled(s, e)
    requires e.EList? || e.ESignal? || e.EAdmit? || e.EReject? || e.EClose?
    ensures Inv(Apply(s, e))
  {
    match e
    case EList(agrees, arm, io) => ListSettledKeeps(s, agrees, arm, io);
    case EClose(io) => CloseKeeps(s, io);
    case ESignal(io) => RingKeeps(s, Signal, io);
    case EAdmit(io) => AdmitKeeps(s, io);
    case EReject(io) => RejectKeeps(s, io);
  }

  lemma StepKeeps(s: State, e: Event)
    requires Inv(s) && DurableGate.GateInv(s.gate) && DurableLife.LifeInv(s.life)
    ensures Inv(Step(s, e))
  {
    if Quiet(e) {
      QuietKeeps(s, e);
    } else if Enabled(s, e) {
      if e.EArrive? || e.EArchive? || e.EForeignStamp? {
        BoxStepKeeps(s, e);
      } else if e.ERead? || e.ECall? || e.EAnswer? || e.EWithdrawn? || e.ELeave? {
        ReadStepKeeps(s, e);
      } else {
        OwnStepKeeps(s, e);
      }
    }
  }

  lemma ListSettledKeeps(s: State, agrees: bool, arm: ArmOutcome, io: Io)
    requires Inv(s) && DurableGate.GateInv(s.gate) && DurableLife.LifeInv(s.life) && s.life.attachPc == Listing
    ensures Inv(ListSettled(s, agrees, arm, io))
  {
    if agrees && s.life.phase == Attaching && arm == ArmSucceeds {
      RingKeeps(s.(life := GoReady(s.life), bell := Publish(s.bell)), Startup, io);
    }
  }

  lemma {:induction false} RunKeeps(run: seq<Event>)
    ensures Inv(Run(run))
    decreases |run|
  {
    if run != [] {
      var before := run[..|run| - 1];
      RunKeeps(before);
      DurableGate.RunKeeps(before);
      DurableLife.RunKeeps(before);
      StepKeeps(Run(before), run[|run| - 1]);
    }
  }

  /**
    Coverage, in every interleaving of a contact that is not closed: whenever no ring pass awaits
    its admission, a message this contact stamped and nobody has read yet is named by a held notice
    exactly when the pass that stamped it did not fail, and never by two of them.
  */
  lemma {:induction false} Coverage(run: seq<Event>, n: Name)
    requires Run(run).life.phase != Closed && Run(run).gate.pass.None?
    requires Unread(Run(run).mail, n)
    ensures var m := Run(run).mail;
      && (n !in m.orphans <==> Held(m, n))
      && (forall i, j :: 0 <= i < j < |m.notices| && n in m.notices[i].names ==> n !in m.notices[j].names)
  {
    RunKeeps(run);
    var m := Run(run).mail;
    if n !in m.orphans { assert Due(m, n) && Held(m, n); }
    assert forall i :: 0 <= i < |m.notices| ==> Issued(m, m.notices[i]);
  }

  /** No rename, count or admission of this event's pass fails. */
  predicate Faultless(e: Event) {
    match e
    case EReject(_) => false
    case EList(_, _, io) => !io.pass.RenameFails? && !io.pass.CountFails?
    case ESignal(io) => !io.pass.RenameFails? && !io.pass.CountFails?
    case EAdmit(io) => !io.pass.RenameFails? && !io.pass.CountFails?
    case ELeave(_, io) => !io.pass.RenameFails? && !io.pass.CountFails?
    case _ => true
  }

  lemma RingOrphans(s: State, why: Why, io: Io)
    requires !io.pass.RenameFails? && !io.pass.CountFails?
    ensures Ring(s, why, io).mail.orphans == s.mail.orphans
  {}

  lemma {:induction false} JudgeOrphans(m: Mail, unread: set<Name>, rest: seq<Notice>)
    ensures Judge(m, unread, rest).mail.orphans == m.orphans
    decreases |rest|
  {
    if rest != [] && HasUnread(rest[0], unread) { JudgeOrphans(m, unread, rest[1..]); }
  }

  lemma BodyOrphans(s: State, why: Why, io: Io)
    requires !io.pass.RenameFails? && !io.pass.CountFails?
    ensures PassBody(s, why, io).mail.orphans == s.mail.orphans
  {}

  lemma LeaveOrphans(s: State, io: Io)
    requires !io.pass.RenameFails? && !io.pass.CountFails?
    ensures LeaveGate(s, io).mail.orphans == s.mail.orphans
  {
    RingOrphans(s.(gate := HandOver(s.gate)), Signal, io);
  }

  lemma AdmitOrphans(s: State, io: Io)
    requires !io.pass.RenameFails? && !io.pass.CountFails? && s.gate.pass.Some? && s.gate.pass.value.names != []
    ensures Admit(s, io).mail.orphans == s.mail.orphans
  {
    var t := s.(gate := s.gate.(pass := None), mail := PushNotice(s.mail, s.gate.pass.value));
    LeaveOrphans(t, io);
    BodyOrphans(t, s.gate.pass.value.why, io);
  }

  lemma ReadOrphans(s: State, e: Event)
    requires Enabled(s, e) && (e.EAnswer? || e.EWithdrawn?)
    ensures Apply(s, e).mail.orphans == s.mail.orphans
  {
    match e
    case EAnswer(_, _) => JudgeOrphans(s.mail, WithMark(s.mail.box, Delivered), s.mail.notices);
    case EWithdrawn(r, ok) =>
      var pc := s.gate.readers[r];
      JudgeOrphans(if ok then s.mail else s.mail.(withdrawalFailure := Some(AbortFailed(pc.notice.requestId))),
                   pc.unread, pc.rest);
  }

  lemma ListOrphans(s: State, agrees: bool, arm: ArmOutcome, io: Io)
    requires !io.pass.RenameFails? && !io.pass.CountFails?
    ensures ListSettled(s, agrees, arm, io).mail.orphans == s.mail.orphans
  {
    RingOrphans(s.(life := GoReady(s.life), bell := Publish(s.bell)), Startup, io);
  }

  /** Events that run no pass and judge no notice. */
  lemma QuietOrphans(s: State, e: Event)
    requires Enabled(s, e) && !e.EList? && !e.ESignal? && !e.EAdmit? && !e.EReject?
    requires !e.EAnswer? && !e.EWithdrawn? && !e.ELeave?
    ensures Apply(s, e).mail.orphans == s.mail.orphans
  {}

  lemma StepOrphans(s: State, e: Event)
    requires Faultless(e)
    ensures Step(s, e).mail.orphans == s.mail.orphans
  {
    if Enabled(s, e) {
      match e
      case EList(agrees, arm, io) => ListOrphans(s, agrees, arm, io);
      case ESignal(io) => RingOrphans(s, Signal, io);
      case EAdmit(io) => AdmitOrphans(s, io);
      case EAnswer(_, _) => ReadOrphans(s, e);
      case EWithdrawn(_, _) => ReadOrphans(s, e);
      case ELeave(r, io) => LeaveOrphans(s.(gate := s.gate.(readers := s.gate.readers - {r})), io);
      case _ => QuietOrphans(s, e);
    }
  }

  /** Where no rename and no admission fails, nothing is ever left behind, so every stamped unread message is held. */
  lemma {:induction false} FaultlessRunsOrphanNothing(run: seq<Event>)
    requires forall i :: 0 <= i < |run| ==> Faultless(run[i])
    ensures Run(run).mail.orphans == {}
    decreases |run|
  {
    if run != [] {
      FaultlessRunsOrphanNothing(run[..|run| - 1]);
      StepOrphans(Run(run[..|run| - 1]), run[|run| - 1]);
    }
  }

  /** No read can drain mail before its withdraw handle exists: while a read is under way, no pass awaits a handle. */
  lemma {:induction false} ReadsFindHandles(run: seq<Event>, r: ReaderId, n: Name)
    requires Run(run).life.phase != Closed && AtPc(Run(run), r, Calling)
    requires Due(Run(run).mail, n)
    ensures Held(Run(run).mail, n)
  {
    DurableGate.GateIsExclusive(run, r, r);
    assert DurableGate.Active(Run(run).gate.readers, r);
    Coverage(run, n);
  }

  /**
    Every withdraw that was ever asked for was for a notice this contact issued, none of whose names was
    unread in the one listing it was judged by, and all of whose mail is archived.
  */
  lemma {:induction false} WithdrawnJudged(run: seq<Event>, k: nat)
    requires k < |Run(run).mail.withdrawals|
    ensures var m := Run(run).mail;
      var w := m.withdrawals[k];
      && w.notice in m.issued
      && (forall n :: n in w.notice.names ==> n !in w.unread && n in m.box && m.box[n] == Archived)
  {
    RunKeeps(run);
    var m := Run(run).mail;
    var w := m.withdrawals[k];
    assert Issued(m, w.notice);
    forall n | n in w.notice.names ensures n !in w.unread {
      var x :| 0 <= x < |w.notice.names| && w.notice.names[x] == n;
    }
  }

  /** Exclusive withdrawal: no two withdraws were ever asked for one notice; they differ by request id. */
  lemma {:induction false} WithdrawnOnce(run: seq<Event>, j: nat, k: nat)
    requires j < k < |Run(run).mail.withdrawals|
    ensures var m := Run(run).mail;
      m.withdrawals[j].notice.requestId != m.withdrawals[k].notice.requestId
  {
    RunKeeps(run);
    var m := Run(run).mail;
    var a, b := m.withdrawals[j].notice, m.withdrawals[k].notice;
    assert Issued(m, a) && Issued(m, b) && a.handle != b.handle;
    RequestIdsDiffer(run, a.handle, b.handle);
  }

  /** Message names being unique, so are the request ids of all notices ever issued. */
  lemma {:induction false} RequestIdsDiffer(run: seq<Event>, i: nat, j: nat)
    requires i < |Run(run).mail.issued| && j < |Run(run).mail.issued| && i != j
    ensures Run(run).mail.issued[i].requestId != Run(run).mail.issued[j].requestId
  {
    RunKeeps(run);
    var m := Run(run).mail;
    assert m.issued[i].requestId in m.issued[i].names && m.issued[j].requestId in m.issued[j].names;
  }

  /** After a read whose listing succeeded, every notice still held has an unread name in that listing. */
  lemma {:induction false} ReadLeavesOnlyUnread(run: seq<Event>, r: ReaderId, unread: set<Name>, i: nat)
    requires AtPc(Run(run), r, Leaving(Some(unread))) && i < |Run(run).mail.notices|
    ensures HasUnread(Run(run).mail.notices[i], unread)
  {
    RunKeeps(run);
    var s := Run(run);
    assert PcInv(s.mail, s.gate.readers[r], s.life.phase == Closed);
  }
}
