/**
  What the doorbell does get done: over every run, exactly when a pass runs and what it stamps and asks for,
  exactly why a doorbell goes down, and what an admission records.
*/
module DurableRings {
  import opened Listing
  import opened Option
  import opened DurableModel
  import DurableGate
  import DurableLife

  const QUIET: Io := Io(NoFault, true, true)

  /** What the file system answers in this event. */
  function IoOf(e: Event): Io {
    match e
    case EList(_, _, io) => io
    case EClose(io) => io
    case ESignal(io) => io
    case EWatchError(io) => io
    case ESessionFailed(io) => io
    case EAdmit(io) => io
    case EReject(io) => io
    case ELeave(_, io) => io
    case _ => QUIET
  }

  /** The birth ends well, with a doorbell. */
  predicate Arms(s: State, e: Event) {
    Enabled(s, e) && e.EList? && e.agrees && s.life.phase == Attaching && e.arm == ArmSucceeds
  }

  /** A pass goes over the mailbox in this event. */
  predicate Rings(s: State, e: Event) {
    if e.EList? then Arms(s, e)
    else
      && Enabled(s, e) && s.bell.armed
      && match e
         case ESignal(_) => !s.gate.gated
         case EAdmit(_) => s.gate.pending
         case ELeave(_, _) => s.gate.pending && s.gate.waiters == []
         case _ => false
  }

  /** The pass finds its signal file: an arm has just made sure of it. */
  predicate Signalled(s: State, e: Event) {
    e.EList? || s.bell.signal
  }

  function FreshOf(s: State): set<Name> {
    WithMark(s.mail.box, Fresh)
  }

  /** Why a pass over this mailbox fails, if it does. */
  function TroubleIn(signal: bool, news: set<Name>, fault: PassFault): Option<Reason> {
    if !signal then Some(SignalVanished)
    else if fault == ListFails then Some(DoorbellFailed)
    else if news == {} then None
    else if fault == CountFails || (fault.RenameFails? && fault.stamped < |news|) then Some(DoorbellFailed)
    else None
  }

  /** How many names it stamps: all that are fresh, those before a rename that throws, or none. */
  function StampsIn(signal: bool, news: set<Name>, fault: PassFault): nat {
    if !signal || fault == ListFails then 0
    else if fault.RenameFails? && fault.stamped < |news| then fault.stamped
    else |news|
  }

  function Trouble(s: State, e: Event): Option<Reason> {
    TroubleIn(Signalled(s, e), FreshOf(s), IoOf(e).pass)
  }

  /** Why an armed doorbell goes down in this event, if it does. */
  function Cause(s: State, e: Event): Option<Reason> {
    if Rings(s, e) then Trouble(s, e)
    else if !Enabled(s, e) then None
    else match e
      case EClose(_) => Some(ContactClosed)
      case EWatchError(_) => Some(WatchError)
      case ESessionFailed(_) => Some(SessionFailed)
      case EReject(_) => Some(AdmissionRejected)
      case _ => None
  }

  function WhyOf(s: State, e: Event): Why {
    match e
    case EList(_, _, _) => Startup
    case EAdmit(_) => if s.gate.pass.Some? then s.gate.pass.value.why else Signal
    case _ => Signal
  }

  // ---- one pass ---------------------------------------------------------------------

  /** A mailbox in which the names of `cut` were stamped, and no other. */
  ghost predicate Stamped(before: Box, after: Box, cut: set<Name>) {
    && after.Keys == before.Keys
    && forall n :: n in before ==> after[n] == if n in cut then Delivered else before[n]
  }

  /** What a doorbell is once it went down for `why`. */
  ghost predicate Down(b: Bell, t: Bell, why: Reason, io: Io) {
    && !t.armed && t.report == Retired(why) && t.inbox == b.inbox && t.signal == b.signal
    && (io.watchCloses ==> !t.watchOpen) && (!io.watchCloses ==> t.watchOpen == b.watchOpen)
    && t.marker == (if b.marker == OurMarker && io.markerRemoves then NoMarker else b.marker)
  }

  /** What a round of a pass leaves of bell, mailbox and admission. */
  ghost predicate RoundLeaves(b: Bell, m: Mail, end: RoundEnd, why: Why, io: Io) {
    var news := WithMark(m.box, Fresh);
    var trouble := TroubleIn(b.signal, news, io.pass);
    && StampsFirst(m.box, end.mail.box, StampsIn(b.signal, news, io.pass))
    && (trouble.Some? ==> Down(b, end.bell, trouble.value, io) && end.pass.None?)
    && (trouble.None? ==> end.bell == b && end.pass == PassFor(why, news, end.mail.box))
    && end.mail == m.(box := end.mail.box, stamped := end.mail.stamped, orphans := end.mail.orphans)
  }

  /** The first `k` fresh names were stamped, and nothing else happened to the mailbox. */
  ghost predicate StampsFirst(before: Box, after: Box, k: nat) {
    exists cut :: FirstOf(cut, WithMark(before, Fresh), k) && Stamped(before, after, cut)
  }

  /** The admission to ask for: every fresh name in order, and the count of all that is then delivered. */
  function PassFor(why: Why, news: set<Name>, box: Box): Option<Pass> {
    if news == {} then None else Some(Pass(why, Ascending(news), |WithMark(box, Delivered)|))
  }

  lemma StampsCut(m: Mail, k: nat)
    requires k <= |Ascending(WithMark(m.box, Fresh))|
    ensures var found := Ascending(WithMark(m.box, Fresh));
      StampsFirst(m.box, StampMail(m, Names(found[..k])).box, k)
  {
    ListingCut(WithMark(m.box, Fresh), k);
  }

  lemma StampsNone(m: Mail)
    ensures StampsFirst(m.box, m.box, 0) && StampsFirst(m.box, StampMail(m, {}).box, 0)
  {
    assert FirstOf({}, WithMark(m.box, Fresh), 0);
    assert Stamped(m.box, m.box, {}) && Stamped(m.box, StampMail(m, {}).box, {});
  }

  lemma FailedLeaves(b: Bell, m: Mail, k: nat, why: Why, io: Io)
    requires b.armed && b.signal && k == StampsIn(true, WithMark(m.box, Fresh), io.pass)
    requires TroubleIn(true, WithMark(m.box, Fresh), io.pass) == Some(DoorbellFailed)
    requires k <= |Ascending(WithMark(m.box, Fresh))|
    ensures RoundLeaves(b, m, FailedRound(b, m, Names(Ascending(WithMark(m.box, Fresh))[..k]), io), why, io)
  {
    StampsCut(m, k);
  }

  lemma SentLeaves(b: Bell, m: Mail, why: Why, io: Io)
    requires b.armed && b.signal && TroubleIn(true, WithMark(m.box, Fresh), io.pass) == None
    requires WithMark(m.box, Fresh) != {} && io.pass != ListFails
    ensures RoundLeaves(b, m, SentRound(b, m, Ascending(WithMark(m.box, Fresh)), why), why, io)
  {
    var found := Ascending(WithMark(m.box, Fresh));
    assert found[..|found|] == found;
    ListingCounts(WithMark(m.box, Fresh));
    StampsCut(m, |found|);
  }

  lemma RoundCuts(b: Bell, m: Mail, why: Why, io: Io, k: nat)
    requires b.armed && b.signal && k == StampsIn(true, WithMark(m.box, Fresh), io.pass)
    requires TroubleIn(true, WithMark(m.box, Fresh), io.pass).Some?
    ensures k <= |Ascending(WithMark(m.box, Fresh))|
    ensures Round(b, m, why, io) == FailedRound(b, m, Names(Ascending(WithMark(m.box, Fresh))[..k]), io)
  {
    var found := Ascending(WithMark(m.box, Fresh));
    ListingCounts(WithMark(m.box, Fresh));
    assert found[..|found|] == found && Names(found[..0]) == {};
  }

  lemma RoundSends(b: Bell, m: Mail, why: Why, io: Io)
    requires b.armed && b.signal && WithMark(m.box, Fresh) != {} && io.pass != ListFails
    requires TroubleIn(true, WithMark(m.box, Fresh), io.pass).None?
    ensures Round(b, m, why, io) == SentRound(b, m, Ascending(WithMark(m.box, Fresh)), why)
  {
    ListingCounts(WithMark(m.box, Fresh));
  }

  lemma RoundRests(b: Bell, m: Mail, why: Why, io: Io)
    requires b.armed && (!b.signal || (WithMark(m.box, Fresh) == {} && io.pass != ListFails))
    ensures RoundLeaves(b, m, Round(b, m, why, io), why, io)
  {
    StampsNone(m);
    ListingCounts(WithMark(m.box, Fresh));
  }

  lemma RoundDoes(b: Bell, m: Mail, why: Why, io: Io)
    requires b.armed
    ensures RoundLeaves(b, m, Round(b, m, why, io), why, io)
  {
    var news := WithMark(m.box, Fresh);
    if !b.signal || (news == {} && io.pass != ListFails) {
      RoundRests(b, m, why, io);
    } else if TroubleIn(true, news, io.pass).Some? {
      RoundCuts(b, m, why, io, StampsIn(true, news, io.pass));
      FailedLeaves(b, m, StampsIn(true, news, io.pass), why, io);
    } else {
      RoundSends(b, m, why, io);
      SentLeaves(b, m, why, io);
    }
  }

  // ---- one event --------------------------------------------------------------------

  /** The bell a pass starts with: an arm has just hung it, or it was there. */
  function BellFor(s: State, e: Event): Bell {
    if e.EList?
    then s.bell.(armed := true, inbox := true, signal := true, watchOpen := true, marker := OurMarker, report := Armed)
    else s.bell
  }

  /** What a pass over the mailbox `box` with the bell `b` leaves: mailbox, bell, admission, and the gate given up or held. */
  ghost predicate PassLeaves(b: Bell, box: Box, waiters: seq<ReaderId>, t: State, why: Why, io: Io) {
    var news := WithMark(box, Fresh);
    var trouble := TroubleIn(b.signal, news, io.pass);
    && StampsFirst(box, t.mail.box, StampsIn(b.signal, news, io.pass))
    && (if trouble.Some? then Down(b, t.bell, trouble.value, io) else t.bell == b)
    && t.gate.pass == (if trouble.Some? then None else PassFor(why, news, t.mail.box))
    && !t.gate.pending && (t.gate.gated <==> t.gate.pass.Some? || waiters != [])
  }

  lemma BodyLeaves(s: State, why: Why, io: Io)
    requires s.bell.armed && s.gate.gated
    ensures PassLeaves(s.bell, s.mail.box, s.gate.waiters, PassBody(s, why, io), why, io)
    ensures PassBody(s, why, io).life == s.life
    ensures var m := PassBody(s, why, io).mail;
      m.issued == s.mail.issued && m.notices == s.mail.notices && m.admissions == s.mail.admissions
  {
    RoundDoes(s.bell, s.mail, why, io);
  }

  lemma RingLeaves(s: State, why: Why, io: Io)
    requires s.bell.armed && !s.gate.gated
    ensures PassLeaves(s.bell, s.mail.box, s.gate.waiters, Ring(s, why, io), why, io)
    ensures Ring(s, why, io).life == s.life
    ensures var m := Ring(s, why, io).mail;
      m.issued == s.mail.issued && m.notices == s.mail.notices && m.admissions == s.mail.admissions
  {
    var m := s.mail.(signalled := s.mail.signalled + WithMark(s.mail.box, Fresh));
    BodyLeaves(s.(mail := m, gate := s.gate.(gated := true)), why, io);
  }

  ghost predicate Inv(s: State) {
    DurableGate.Inv(s) && DurableLife.Inv(s)
  }

  lemma RunInv(run: seq<Event>)
    ensures Inv(Run(run))
  {
    DurableGate.RunKeeps(run);
    DurableLife.RunKeeps(run);
  }

  lemma ListRings(s: State, e: Event)
    requires Inv(s) && Arms(s, e)
    ensures PassLeaves(BellFor(s, e), s.mail.box, s.gate.waiters, Apply(s, e), Startup, e.io)
  {
    RingLeaves(ListEnds(s, e.agrees, e.arm, e.io), Startup, e.io);
  }

  lemma AdmitRings(s: State, e: Event)
    requires Inv(s) && e.EAdmit? && Rings(s, e)
    ensures PassLeaves(s.bell, s.mail.box, s.gate.waiters, Apply(s, e), WhyOf(s, e), e.io)
  {
    var p := s.gate.pass.value;
    BodyLeaves(s.(gate := s.gate.(pass := None), mail := PushNotice(s.mail, p)), p.why, e.io);
  }

  lemma LeaveRings(s: State, e: Event)
    requires Inv(s) && e.ELeave? && Rings(s, e)
    ensures PassLeaves(s.bell, s.mail.box, s.gate.waiters, Apply(s, e), Signal, e.io)
  {
    var t := s.(gate := s.gate.(readers := s.gate.readers - {e.reader}));
    RingLeaves(t.(gate := HandOver(t.gate)), Signal, e.io);
  }

  lemma StepRings(s: State, e: Event)
    requires Inv(s) && Rings(s, e)
    ensures PassLeaves(BellFor(s, e), s.mail.box, s.gate.waiters, Step(s, e), WhyOf(s, e), IoOf(e))
  {
    match e
    case EList(_, _, io) => ListRings(s, e);
    case ESignal(io) => RingLeaves(s, Signal, io);
    case EAdmit(io) => AdmitRings(s, e);
    case ELeave(r, io) => LeaveRings(s, e);
    case _ =>
  }

  /**
    Every pass, in any run: with its signal file there and no fault it stamps every fresh message and asks for
    one admission that names them in order and counts all that is then delivered, or ends if there were none;
    a rename that throws leaves the first ones stamped; and any fault takes the doorbell down. Nothing is
    pending after it, and the gate is held on exactly if it awaits its admission or a read was waiting.
  */
  lemma {:induction false} PassesRun(run: seq<Event>, e: Event)
    requires Rings(Run(run), e)
    ensures var s := Run(run);
      PassLeaves(BellFor(s, e), s.mail.box, s.gate.waiters, Run(run + [e]), WhyOf(s, e), IoOf(e))
  {
    RunInv(run);
    RunSnoc(run, e);
    StepRings(Run(run), e);
  }

  /** Somebody else writes the mailbox. */
  predicate Others(e: Event) {
    e.EArrive? || e.EArchive? || e.EForeignStamp?
  }

  /** An event in which no pass runs. */
  ghost predicate Rests(s: State, t: State, e: Event) {
    && (!Others(e) ==> t.mail.box == s.mail.box)
    && t.gate.pass == (if Enabled(s, e) && (e.EAdmit? || e.EReject?) then None else s.gate.pass)
    && t.gate.pending == (s.gate.pending || (Enabled(s, e) && e.ESignal? && s.bell.armed))
    && (s.bell.armed ==>
          match Cause(s, e)
          case Some(why) => Down(s.bell, t.bell, why, IoOf(e))
          case None => t.bell == s.bell.(signal := t.bell.signal, marker := t.bell.marker, foreign := t.bell.foreign))
    && (!s.bell.armed ==> !t.bell.armed && (!e.EList? ==> t.bell.report == s.bell.report))
  }

  lemma {:induction false} JudgeRests(m: Mail, unread: set<Name>, rest: seq<Notice>)
    ensures Judge(m, unread, rest).mail.box == m.box && Judge(m, unread, rest).mail.issued == m.issued
    ensures Judge(m, unread, rest).mail.admissions == m.admissions
    decreases |rest|
  {
    if rest != [] && HasUnread(rest[0], unread) { JudgeRests(m, unread, rest[1..]); }
  }

  lemma GateRests(s: State, e: Event)
    requires Inv(s) && !Rings(s, e) && Enabled(s, e) && (e.EAdmit? || e.EReject? || e.ELeave? || e.ESignal?)
    ensures Rests(s, Apply(s, e), e)
  {
    if e.EAdmit? || e.EReject? { assert s.gate.gated && s.gate.pass.Some?; }
  }

  lemma ReadRests(s: State, e: Event)
    requires Inv(s) && Enabled(s, e) && (e.ERead? || e.ECall? || e.EAnswer? || e.EWithdrawn?)
    ensures Rests(s, Apply(s, e), e)
  {
    match e
    case EAnswer(_, _) => JudgeRests(s.mail, WithMark(s.mail.box, Delivered), s.mail.notices);
    case EWithdrawn(r, ok) =>
      var pc := s.gate.readers[r];
      JudgeRests(if ok then s.mail else s.mail.(withdrawalFailure := Some(AbortFailed(pc.notice.requestId))),
                 pc.unread, pc.rest);
    case _ =>
  }

  lemma OtherRests(s: State, e: Event)
    requires Inv(s) && !Rings(s, e) && Enabled(s, e)
    requires !e.EAdmit? && !e.EReject? && !e.ELeave? && !e.ESignal?
    requires !e.ERead? && !e.ECall? && !e.EAnswer? && !e.EWithdrawn?
    ensures Rests(s, Apply(s, e), e)
  {}

  lemma StepRests(s: State, e: Event)
    requires Inv(s) && !Rings(s, e)
    ensures Rests(s, Step(s, e), e)
  {
    if Enabled(s, e) {
      if e.EAdmit? || e.EReject? || e.ELeave? || e.ESignal? {
        GateRests(s, e);
      } else if e.ERead? || e.ECall? || e.EAnswer? || e.EWithdrawn? {
        ReadRests(s, e);
      } else {
        OtherRests(s, e);
      }
    }
  }

  /**
    No other event, in any run, stamps a message or asks for an admission; one that finds the gate held leaves
    its signal pending.
  */
  lemma {:induction false} NothingElseStamps(run: seq<Event>, e: Event)
    requires !Rings(Run(run), e)
    ensures Rests(Run(run), Run(run + [e]), e)
  {
    RunInv(run);
    RunSnoc(run, e);
    StepRests(Run(run), e);
  }

  /**
    An armed doorbell goes down, in any run, exactly for a close, a watch error, a failed session, a rejected
    admission, a signal file gone or a fault of the pass that runs then, and the report names which; its watch
    is closed and its own marker removed, as far as the file system lets it.
  */
  lemma {:induction false} DownOnlyFor(run: seq<Event>, e: Event)
    requires Run(run).bell.armed
    ensures var s, t := Run(run), Run(run + [e]);
      && (t.bell.armed <==> Cause(s, e).None?)
      && (t.bell.armed ==> t.bell.report == Report.Armed)
      && (Cause(s, e).Some? ==> Down(s.bell, t.bell, Cause(s, e).value, IoOf(e)))
  {
    RunInv(run);
    if Rings(Run(run), e) { PassesRun(run, e); } else { NothingElseStamps(run, e); }
  }

  /** A doorbell is hung, in any run, exactly by a birth that ends well with a session to ring. */
  lemma {:induction false} UpOnlyFor(run: seq<Event>, e: Event)
    requires !Run(run).bell.armed
    ensures Run(run + [e]).bell.armed <==> Arms(Run(run), e) && Trouble(Run(run), e).None?
  {
    RunInv(run);
    if Rings(Run(run), e) { PassesRun(run, e); } else { NothingElseStamps(run, e); }
  }

  /**
    A signal, an admission or a read that leaves, when there is a signal to serve and nothing fails, leaves the
    doorbell up and nothing fresh behind: all of it is stamped, and asked for in order and in one admission.
  */
  lemma {:induction false} SignalsAreServed(run: seq<Event>, e: Event)
    requires Rings(Run(run), e) && Signalled(Run(run), e) && IoOf(e).pass == NoFault
    ensures var s, t := Run(run), Run(run + [e]);
      && t.bell.armed && WithMark(t.mail.box, Fresh) == {}
      && (forall n :: n in FreshOf(s) ==> n in t.mail.box && t.mail.box[n] == Delivered)
      && (FreshOf(s) != {} ==>
            t.gate.pass == Some(Pass(WhyOf(s, e), Ascending(FreshOf(s)), |WithMark(t.mail.box, Delivered)|)))
  {
    PassesRun(run, e);
    var s := Run(run);
    AllServed(BellFor(s, e), s.mail.box, s.gate.waiters, Run(run + [e]), WhyOf(s, e), IoOf(e));
  }

  lemma AllServed(b: Bell, box: Box, waiters: seq<ReaderId>, t: State, why: Why, io: Io)
    requires PassLeaves(b, box, waiters, t, why, io) && b.armed && b.signal && io.pass == NoFault
    ensures t.bell.armed && WithMark(t.mail.box, Fresh) == {}
    ensures forall n :: n in WithMark(box, Fresh) ==> n in t.mail.box && t.mail.box[n] == Delivered
    ensures WithMark(box, Fresh) != {} ==>
      t.gate.pass == Some(Pass(why, Ascending(WithMark(box, Fresh)), |WithMark(t.mail.box, Delivered)|))
  {
    var news := WithMark(box, Fresh);
    var cut :| FirstOf(cut, news, |news|) && Stamped(box, t.mail.box, cut);
    AllCut(cut, news);
    forall n | n in t.mail.box ensures t.mail.box[n] != Fresh { assert n in box && (n in news || box[n] != Fresh); }
  }

  lemma AllCut(cut: set<Name>, all: set<Name>)
    requires FirstOf(cut, all, |all|)
    ensures cut == all
  {
    assert |all - cut| == |all| - |cut|;
    assert all - cut == {};
  }

  // ---- admissions -------------------------------------------------------------------

  /** What this event records of an admission. */
  ghost predicate Records(s: State, t: State, e: Event) {
    if Enabled(s, e) && e.EAdmit? then
      var p := s.gate.pass.value;
      var id := p.names[|p.names| - 1];
      var notice := Notice(|s.mail.issued|, id, p.names);
      && t.mail.issued == s.mail.issued + [notice] && t.mail.notices == s.mail.notices + [notice]
      && t.mail.admissions == [Admission(p.why, id, p.names, p.unread)]
    else
      t.mail.issued == s.mail.issued && t.mail.admissions == s.mail.admissions
  }

  lemma AdmitRecords(s: State, e: Event)
    requires Inv(s) && Enabled(s, e) && e.EAdmit?
    ensures Records(s, Apply(s, e), e)
  {
    var p := s.gate.pass.value;
    var t := s.(gate := s.gate.(pass := None), mail := PushNotice(s.mail, p));
    if t.gate.pending && t.bell.armed {
      BodyLeaves(t, p.why, e.io);
    }
  }

  lemma ReadRecords(s: State, e: Event)
    requires Enabled(s, e) && (e.EAnswer? || e.EWithdrawn?)
    ensures Records(s, Apply(s, e), e)
  {
    match e
    case EAnswer(_, _) => JudgeRests(s.mail, WithMark(s.mail.box, Delivered), s.mail.notices);
    case EWithdrawn(r, ok) =>
      var pc := s.gate.readers[r];
      JudgeRests(if ok then s.mail else s.mail.(withdrawalFailure := Some(AbortFailed(pc.notice.requestId))),
                 pc.unread, pc.rest);
  }

  lemma RingRecords(s: State, why: Why, io: Io)
    ensures var m := Ring(s, why, io).mail; m.issued == s.mail.issued && m.admissions == s.mail.admissions
  {
    if s.bell.armed && !s.gate.gated { RingLeaves(s, why, io); }
  }

  lemma LeaveRecords(s: State, io: Io)
    ensures var m := LeaveGate(s, io).mail; m.issued == s.mail.issued && m.admissions == s.mail.admissions
  {
    RingRecords(s.(gate := HandOver(s.gate)), Signal, io);
  }

  lemma GateRecords(s: State, e: Event)
    requires Enabled(s, e) && (e.EReject? || e.ELeave? || e.ESignal? || e.EList?)
    ensures Records(s, Apply(s, e), e)
  {
    match e
    case EReject(io) => LeaveRecords(DropPass(s, io), io);
    case ELeave(r, io) => LeaveRecords(s.(gate := s.gate.(readers := s.gate.readers - {r})), io);
    case ESignal(io) => RingRecords(s, Signal, io);
    case EList(agrees, arm, io) => RingRecords(ListEnds(s, agrees, arm, io), Startup, io);
  }

  lemma OtherRecords(s: State, e: Event)
    requires Enabled(s, e) && !e.EAdmit? && !e.EAnswer? && !e.EWithdrawn?
    requires !e.EReject? && !e.ELeave? && !e.ESignal? && !e.EList?
    ensures Records(s, Apply(s, e), e)
  {}

  /**
    An admission that resolves, in any run, is recorded once: the latest admission and one new notice carry
    the pass's names, and its last name as the request id; and nothing else records any.
  */
  lemma {:induction false} AdmissionsRecorded(run: seq<Event>, e: Event)
    ensures Records(Run(run), Run(run + [e]), e)
  {
    RunInv(run);
    RunSnoc(run, e);
    if Enabled(Run(run), e) {
      if e.EAdmit? { AdmitRecords(Run(run), e); }
      else if e.EAnswer? || e.EWithdrawn? { ReadRecords(Run(run), e); }
      else if e.EReject? || e.ELeave? || e.ESignal? || e.EList? { GateRecords(Run(run), e); }
      else { OtherRecords(Run(run), e); }
    }
  }
}
