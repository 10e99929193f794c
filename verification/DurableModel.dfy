/**
  The doorbell contact of a durable host, as a transition system.

  JavaScript runs one synchronous stretch at a time, so a step of this model is one
  stretch between two awaits: everything between "the awaited thing settled" and the
  next await. Suspended calls are data: `pass` is a ring pass waiting for its admission,
  `readers` maps each suspended inbox read to the place where it waits, and `attachPc`
  is the place where the one birth waits.

  The mailbox is shared with other processes. A message file is identified by its name
  (`n.msg`, then `n.msg.delivered`, then archived), and a name is an integer that stands
  for its place in the sort order of the directory listing.
*/
module DurableModel {
  import opened Listing
  import opened Option

  type ReaderId = nat
  type Box = map<Name, Mark>
  type Readers = map<ReaderId, ReaderPc>

  datatype Mark = Fresh | Delivered | Archived

  datatype Phase = Pending | Attaching | Ready | Failed | Closed
  datatype Promise = Unsettled | Released | Refused
  datatype AttachPc = NotStarted | Connecting | Listing | Cleaning | Finished
  datatype Bridge = NoBridge | OpenBridge | ClosedBridge

  datatype Reason =
    | ContactClosed | SessionFailed | WatchError
    | SignalVanished | DoorbellFailed | AdmissionRejected
  datatype Report = Off | Armed | Retired(reason: Reason)
  datatype Marker = NoMarker | OurMarker | ForeignMarker

  datatype Why = Startup | Signal
  /** A ring pass suspended on `submitToRoot`. */
  datatype Pass = Pass(why: Why, names: seq<Name>, unread: nat)
  /** The latest admission, as the receiver report carries it. */
  datatype Admission = Admission(why: Why, requestId: Name, names: seq<Name>, unread: nat)
  /** An admitted notice. `handle` tells two notice objects apart. */
  datatype Notice = Notice(handle: nat, requestId: Name, names: seq<Name>)

  datatype ReaderPc =
    | Waiting                                             // queued at the gate
    | Entered                                             // holds the gate, call not issued yet
    | Calling                                             // holds the gate, awaiting the bridge
    | Aborting(notice: Notice, unread: set<Name>, rest: seq<Notice>)  // holds the gate, awaiting this withdraw
    | Leaving(listed: Option<set<Name>>)                  // holds the gate, about to leave it

  datatype WithdrawalFailure = InspectionFailed | AbortFailed(requestId: Name)

  /** One native withdraw that was asked for: the notice and the listing it was judged by. */
  datatype Withdrawal = Withdrawal(notice: Notice, unread: set<Name>)

  datatype PassFault = NoFault | ListFails | RenameFails(stamped: nat) | CountFails
  /** What the file system answers during one stretch. */
  datatype Io = Io(pass: PassFault, watchCloses: bool, markerRemoves: bool)

  /** The ready promise, the birth and the bridge child. */
  datatype Life = Life(
    phase: Phase,
    promise: Promise,
    settles: nat,                 // how many times the ready promise was settled
    attachPc: AttachPc,
    bridge: Bridge,
    closeOwed: bool)              // close() still has to close the bridge

  /** The doorbell: its watch, its receiver marker and its report. */
  datatype Bell = Bell(
    armed: bool,
    report: Report,
    inbox: bool,                  // the armed mailbox is known
    watchOpen: bool,
    marker: Marker,               // the receiver marker file of this garden
    signal: bool,                 // inbox.signal exists
    cleanupFailed: bool,          // history: a watch close or a marker removal failed
    foreign: bool)                // history: another process touched the receiver marker

  /** One gate for ring passes and inbox reads. */
  datatype Gate = Gate(
    gated: bool,
    pending: bool,
    waiters: seq<ReaderId>,
    readers: Readers,
    pass: Option<Pass>)

  datatype Mail = Mail(
    box: Box,
    notices: seq<Notice>,
    admissions: seq<Admission>,
    withdrawalFailure: Option<WithdrawalFailure>,
    // history
    issued: seq<Notice>,          // every notice ever pushed, by handle
    withdrawals: seq<Withdrawal>, // every native withdraw asked for, in order
    stamped: set<Name>,           // every name this contact renamed to .msg.delivered
    signalled: set<Name>,         // every name that was fresh when a signal was handled while armed
    orphans: set<Name>)           // names stamped by a pass that then failed

  datatype State = State(life: Life, bell: Bell, gate: Gate, mail: Mail)

  const Initial: State := State(
    Life(Pending, Unsettled, 0, NotStarted, NoBridge, false),
    Bell(false, Off, false, false, NoMarker, false, false, false),
    Gate(false, false, [], map[], None),
    Mail(map[], [], [], None, [], [], {}, {}, {}))

  // ---- the mailbox ----------------------------------------------------------------

  function WithMark(box: Box, mark: Mark): set<Name> {
    set n | n in box && box[n] == mark
  }

  /** `renameSync(n.msg, n.msg.delivered)` for every name in `ns`. */
  function Stamp(box: Box, ns: set<Name>): Box {
    map n | n in box :: if n in ns then Delivered else box[n]
  }

  predicate HasUnread(notice: Notice, unread: set<Name>) {
    exists i :: 0 <= i < |notice.names| && notice.names[i] in unread
  }

  // ---- retirement, the gate and the ring pass --------------------------------------

  function Retire(b: Bell, reason: Reason, io: Io): Bell {
    if !b.armed then b else
    b.(armed := false,
       report := Retired(reason),
       watchOpen := if io.watchCloses then false else b.watchOpen,
       marker := if io.markerRemoves && b.marker == OurMarker then NoMarker else b.marker,
       cleanupFailed := b.cleanupFailed || !io.watchCloses || !io.markerRemoves)
  }

  function EnterGate(g: Gate, r: ReaderId): Gate {
    if !g.gated
    then g.(gated := true, readers := g.readers[r := Entered])
    else g.(waiters := g.waiters + [r], readers := g.readers[r := Waiting])
  }

  /** The gate goes to the first waiting read, else it opens. */
  function HandOver(g: Gate): Gate {
    if g.waiters != []
    then g.(waiters := g.waiters[1..], readers := g.readers[g.waiters[0] := Entered])
    else g.(gated := false)
  }

  datatype RoundEnd = RoundEnd(bell: Bell, mail: Mail, pass: Option<Pass>)

  function StampMail(m: Mail, ns: set<Name>): Mail {
    m.(box := Stamp(m.box, ns), stamped := m.stamped + ns)
  }

  /** A round that stamped `ns` and then failed: nothing will announce them. */
  function FailedRound(b: Bell, m: Mail, ns: set<Name>, io: Io): RoundEnd {
    RoundEnd(Retire(b, DoorbellFailed, io), StampMail(m, ns).(orphans := m.orphans + ns), None)
  }

  /** A round that stamped everything it found and asks for its admission. */
  function SentRound(b: Bell, m: Mail, found: seq<Name>, why: Why): RoundEnd {
    var sent := StampMail(m, Names(found));
    RoundEnd(b, sent, Some(Pass(why, found, |WithMark(sent.box, Delivered)|)))
  }

  /** One round of the do-while: it ends the pass, or suspends it on the admission it asked for. */
  function Round(b: Bell, m: Mail, why: Why, io: Io): RoundEnd {
    var found := Ascending(WithMark(m.box, Fresh));
    if !b.signal then RoundEnd(Retire(b, SignalVanished, io), m, None)
    else if io.pass == ListFails then FailedRound(b, m, {}, io)
    else if found == [] then RoundEnd(b, m, None)
    else if io.pass.RenameFails? && io.pass.stamped < |found| then
      FailedRound(b, m, Names(found[..io.pass.stamped]), io)
    else if io.pass == CountFails then FailedRound(b, m, Names(found), io)
    else SentRound(b, m, found, why)
  }

  /** A round under the held gate, which is given up when the pass ended. */
  function PassBody(s: State, why: Why, io: Io): State {
    var end := Round(s.bell, s.mail, why, io);
    var g := s.gate.(pending := false, pass := end.pass);
    State(s.life, end.bell, if end.pass.Some? then g else HandOver(g), end.mail)
  }

  function Ring(s: State, why: Why, io: Io): State {
    if !s.bell.armed then s else
    var m := s.mail.(signalled := s.mail.signalled + WithMark(s.mail.box, Fresh));
    if s.gate.gated then s.(mail := m, gate := s.gate.(pending := true))
    else PassBody(s.(mail := m, gate := s.gate.(gated := true)), why, io)
  }

  function LeaveGate(s: State, io: Io): State {
    var t := s.(gate := HandOver(s.gate));
    if !t.gate.gated && t.gate.pending then Ring(t, Signal, io) else t
  }

  /** The notice pushed and the admission recorded for the pass `p`. */
  function PushNotice(m: Mail, p: Pass): Mail
    requires p.names != []
  {
    var id := p.names[|p.names| - 1];
    var notice := Notice(|m.issued|, id, p.names);
    m.(admissions := [Admission(p.why, id, p.names, p.unread)],
       notices := m.notices + [notice],
       issued := m.issued + [notice])
  }

  /** `submitToRoot` resolved. */
  function Admit(s: State, io: Io): State
    requires s.gate.pass.Some? && s.gate.pass.value.names != []
  {
    var p := s.gate.pass.value;
    var t := s.(gate := s.gate.(pass := None), mail := PushNotice(s.mail, p));
    if t.gate.pending && t.bell.armed then PassBody(t, p.why, io) else LeaveGate(t, io)
  }

  /** `submitToRoot` rejected: the doorbell retires, and what the pass stamped stays unannounced. */
  function DropPass(s: State, io: Io): State
    requires s.gate.pass.Some?
  {
    s.(bell := Retire(s.bell, AdmissionRejected, io),
       gate := s.gate.(pass := None),
       mail := s.mail.(orphans := s.mail.orphans + Names(s.gate.pass.value.names)))
  }

  function Reject(s: State, io: Io): State
    requires s.gate.pass.Some?
  {
    LeaveGate(DropPass(s, io), io)
  }

  // ---- inbox reads and withdrawals ------------------------------------------------

  /** Array.prototype.indexOf, -1 when absent. */
  function IndexOf(ns: seq<Notice>, n: Notice): (i: int)
    ensures -1 <= i < |ns|
    ensures i >= 0 ==> ns[i] == n
    ensures forall j :: 0 <= j < (if i < 0 then |ns| else i) ==> ns[j] != n
  {
    if ns == [] then -1
    else if ns[0] == n then 0
    else
      var k := IndexOf(ns[1..], n);
      assert forall j :: 1 <= j < |ns| ==> ns[j] == ns[1..][j - 1];
      if k == -1 then -1 else k + 1
  }

  /** Array.prototype.splice(i, 1): a negative index counts from the end. */
  function SpliceOne(ns: seq<Notice>, i: int): seq<Notice>
    requires -1 <= i < |ns|
  {
    if ns == [] then []
    else if i < 0 then ns[..|ns| - 1]
    else ns[..i] + ns[i + 1..]
  }

  datatype JudgeEnd = JudgeEnd(mail: Mail, pc: ReaderPc)

  /** The withdraw loop, from the notices of `rest` on, up to the next awaited withdraw or its end. */
  function Judge(m: Mail, unread: set<Name>, rest: seq<Notice>): JudgeEnd
    decreases |rest|
  {
    if rest == [] then JudgeEnd(m, Leaving(Some(unread)))
    else if HasUnread(rest[0], unread) then Judge(m, unread, rest[1..])
    else JudgeEnd(
      m.(notices := SpliceOne(m.notices, IndexOf(m.notices, rest[0])),
         withdrawals := m.withdrawals + [Withdrawal(rest[0], unread)]),
      Aborting(rest[0], unread, rest[1..]))
  }

  /** The bridge answered the read (with a result or a rejection): withdraw what it drained. */
  function ReadAnswered(inbox: bool, m: Mail, lists: bool): JudgeEnd {
    if !inbox || m.notices == [] then JudgeEnd(m, Leaving(None))
    else if !lists then JudgeEnd(m.(withdrawalFailure := Some(InspectionFailed)), Leaving(None))
    else Judge(m, WithMark(m.box, Delivered), m.notices)
  }

  /** The native withdraw of `notice` settled: go on with the rest of the snapshot. */
  function WithdrawSettled(m: Mail, notice: Notice, unread: set<Name>, rest: seq<Notice>, ok: bool): JudgeEnd {
    Judge(if ok then m else m.(withdrawalFailure := Some(AbortFailed(notice.requestId))), unread, rest)
  }

  /** The read `r` goes on to the place and with the mail that `end` says. */
  function MoveReader(s: State, r: ReaderId, end: JudgeEnd): State {
    s.(gate := s.gate.(readers := s.gate.readers[r := end.pc]), mail := end.mail)
  }

  function ReadLeaves(s: State, r: ReaderId, io: Io): State {
    LeaveGate(s.(gate := s.gate.(readers := s.gate.readers - {r})), io)
  }

  // ---- birth and close ------------------------------------------------------------

  function SettleFailed(l: Life): Life {
    if l.phase in {Ready, Closed, Failed} then l
    else l.(phase := Failed, promise := Refused, settles := l.settles + 1)
  }

  /** The synchronous start of `attach`, up to the awaited connect. A second attach throws and changes nothing. */
  function AttachStarts(l: Life, ok: bool): Life {
    if l.phase != Pending then l
    else if ok then l.(phase := Attaching, attachPc := Connecting)
    else SettleFailed(l.(phase := Attaching, attachPc := Finished))
  }

  function ConnectSettled(l: Life, ok: bool): Life {
    if ok then l.(attachPc := Listing, bridge := OpenBridge)
    else SettleFailed(l.(attachPc := Finished))
  }

  /** The steps of an arm, in order; any of them may throw. */
  datatype ArmStep =
    | CheckOwner | MakeMailbox | MakeSignal | OpenWatch | MatchRecord | MatchSender | Subscribe | WriteMarker

  datatype ArmOutcome =
    | NoRoot
    | ArmThrows(at: ArmStep)
    | ArmSucceeds
    | ArmRetires(closesAgain: bool)    // the session had failed before we subscribed; closesAgain: a second close works

  predicate SignalMade(at: ArmStep) {
    !at.CheckOwner? && !at.MakeMailbox? && !at.MakeSignal?
  }

  predicate WatchOpened(at: ArmStep) {
    SignalMade(at) && !at.OpenWatch?
  }

  /** The doorbell published: signal, watch, marker, report. */
  function Publish(b: Bell): Bell {
    b.(armed := true, inbox := true, signal := true, watchOpen := true, marker := OurMarker, report := Armed)
  }

  /** An arm whose step `at` threw: the signal file stays, the watch is closed if it was open. */
  function HalfArmed(b: Bell, at: ArmStep, io: Io): Bell {
    var t := if SignalMade(at) then b.(signal := true) else b;
    if WatchOpened(at) then t.(watchOpen := !io.watchCloses, cleanupFailed := b.cleanupFailed || !io.watchCloses) else t
  }

  /** Published and retired in one stretch; a retirement that does not clean up has the watch closed once more. */
  function RetiredAtOnce(b: Bell, closesAgain: bool, io: Io): Bell {
    var t := Retire(Publish(b), SessionFailed, io);
    if !(io.watchCloses && io.markerRemoves) && closesAgain then t.(watchOpen := false) else t
  }

  function FailAfterCleanup(l: Life): Life {
    l.(attachPc := Cleaning, bridge := ClosedBridge)
  }

  function GoReady(l: Life): Life {
    l.(phase := Ready, attachPc := Finished, promise := Released, settles := l.settles + 1)
  }

  /** `listTools` settled: drift, a state that moved on, or the arm and the release. */
  function ListEnds(s: State, agrees: bool, arm: ArmOutcome, io: Io): State {
    if !agrees || s.life.phase != Attaching then s.(life := FailAfterCleanup(s.life))
    else match arm
      case NoRoot => s.(life := GoReady(s.life))
      case ArmThrows(at) => s.(life := FailAfterCleanup(s.life), bell := HalfArmed(s.bell, at, io))
      case ArmSucceeds => s.(life := GoReady(s.life), bell := Publish(s.bell))
      case ArmRetires(closesAgain) =>
        // The session had failed already: the doorbell is retired before anyone could ring it,
        // and a retirement that does not clean up fails the arm.
        s.(life := if io.watchCloses && io.markerRemoves then GoReady(s.life) else FailAfterCleanup(s.life),
           bell := RetiredAtOnce(s.bell, closesAgain, io))
  }

  /** ... and a ring for mail that was there before the doorbell. */
  function ListSettled(s: State, agrees: bool, arm: ArmOutcome, io: Io): State {
    var t := ListEnds(s, agrees, arm, io);
    if agrees && s.life.phase == Attaching && arm == ArmSucceeds then Ring(t, Startup, io) else t
  }

  function CleanupDone(l: Life): Life {
    SettleFailed(l.(attachPc := Finished))
  }

  function CloseLife(l: Life): Life {
    SettleFailed(l).(phase := Closed, closeOwed := l.closeOwed || l.phase == Ready)
  }

  function Close(s: State, io: Io): State {
    State(
      CloseLife(s.life),
      Retire(s.bell, ContactClosed, io),
      s.gate,
      s.mail.(notices := []))
  }

  function BridgeClosed(l: Life): Life {
    l.(closeOwed := false, bridge := ClosedBridge)
  }

  // ---- events ---------------------------------------------------------------------

  datatype Event =
    // this contact
    | EAttach(ok: bool)
    | EConnect(connected: bool)
    | EList(agrees: bool, arm: ArmOutcome, io: Io)
    | ECleanup
    | EFail
    | EClose(io: Io)
    | EBridgeClosed
    | ESignal(io: Io)
    | EWatchError(io: Io)
    | ESessionFailed(io: Io)
    | EAdmit(io: Io)
    | EReject(io: Io)
    | ERead(reader: ReaderId)
    | ECall(reader: ReaderId)
    | EAnswer(reader: ReaderId, lists: bool)
    | EWithdrawn(reader: ReaderId, withdrawn: bool)
    | ELeave(reader: ReaderId, io: Io)
    // everybody else
    | EArrive(name: Name)
    | EArchive(name: Name)
    | EForeignStamp(name: Name)
    | ESignalFile(present: bool)
    | EForeignMarker(present: bool)

  predicate AtPc(s: State, r: ReaderId, pc: ReaderPc) {
    r in s.gate.readers && s.gate.readers[r] == pc
  }

  /** Can this event happen in this state? An event that cannot leaves the state alone. */
  predicate Enabled(s: State, e: Event) {
    match e
    case EConnect(_) => s.life.attachPc == Connecting
    case EList(_, _, _) => s.life.attachPc == Listing
    case ECleanup => s.life.attachPc == Cleaning
    case EBridgeClosed => s.life.closeOwed
    case ESignal(_) => s.bell.watchOpen
    case EWatchError(_) => s.bell.watchOpen
    case ESessionFailed(_) => s.bell.armed
    case EAdmit(_) => s.gate.pass.Some? && s.gate.pass.value.names != []
    case EReject(_) => s.gate.pass.Some?
    case ERead(r) => s.life.promise == Released && r !in s.gate.readers
    case ECall(r) => AtPc(s, r, Entered)
    case EAnswer(r, _) => AtPc(s, r, Calling)
    case EWithdrawn(r, _) => r in s.gate.readers && s.gate.readers[r].Aborting?
    case ELeave(r, _) => r in s.gate.readers && s.gate.readers[r].Leaving?
    case EArrive(n) => n !in s.mail.box
    case EArchive(n) => n in s.mail.box
    case EForeignStamp(n) => n in s.mail.box && s.mail.box[n] == Fresh
    case _ => true
  }

  function Apply(s: State, e: Event): State
    requires Enabled(s, e)
  {
    match e
    case EAttach(ok) => s.(life := AttachStarts(s.life, ok))
    case EConnect(ok) => s.(life := ConnectSettled(s.life, ok))
    case EList(agrees, arm, io) => ListSettled(s, agrees, arm, io)
    case ECleanup => s.(life := CleanupDone(s.life))
    case EFail => s.(life := SettleFailed(s.life))
    case EClose(io) => Close(s, io)
    case EBridgeClosed => s.(life := BridgeClosed(s.life))
    case ESignal(io) => Ring(s, Signal, io)
    case EWatchError(io) => s.(bell := Retire(s.bell, WatchError, io))
    case ESessionFailed(io) => s.(bell := Retire(s.bell, SessionFailed, io))
    case EAdmit(io) => Admit(s, io)
    case EReject(io) => Reject(s, io)
    case ERead(r) => s.(gate := EnterGate(s.gate, r))
    case ECall(r) => s.(gate := s.gate.(readers := s.gate.readers[r := Calling]))
    case EAnswer(r, lists) => MoveReader(s, r, ReadAnswered(s.bell.inbox, s.mail, lists))
    case EWithdrawn(r, ok) =>
      var pc := s.gate.readers[r];
      MoveReader(s, r, WithdrawSettled(s.mail, pc.notice, pc.unread, pc.rest, ok))
    case ELeave(r, io) => ReadLeaves(s, r, io)
    case EArrive(n) => s.(mail := s.mail.(box := s.mail.box[n := Fresh]))
    case EArchive(n) => s.(mail := s.mail.(box := s.mail.box[n := Archived]))
    case EForeignStamp(n) => s.(mail := s.mail.(box := s.mail.box[n := Delivered]))
    case ESignalFile(present) => s.(bell := s.bell.(signal := present))
    case EForeignMarker(present) =>
      s.(bell := s.bell.(marker := if present then ForeignMarker else NoMarker, foreign := true))
  }

  function Step(s: State, e: Event): State {
    if Enabled(s, e) then Apply(s, e) else s
  }

  /** The state after the events of `run`, from the initial state. */
  function Run(run: seq<Event>): State
    decreases |run|
  {
    if run == [] then Initial else Step(Run(run[..|run| - 1]), run[|run| - 1])
  }

  lemma RunSnoc(run: seq<Event>, e: Event)
    ensures Run(run + [e]) == Step(Run(run), e)
  {
    var all := run + [e];
    assert all[..|all| - 1] == run && all[|all| - 1] == e;
  }
}
