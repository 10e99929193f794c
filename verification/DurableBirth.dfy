/**
  The birth of the doorbell contact, both ways: over every run, exactly which event makes it ready, fails it,
  opens or closes its bridge, and what an arm that throws leaves behind.
*/
module DurableBirth {
  import opened Option
  import opened DurableModel
  import DurableLife

  /** The arm is there, or there is nothing to arm; one that had to retire at once cleaned up. */
  predicate ArmsWell(arm: ArmOutcome, io: Io) {
    match arm
    case ArmThrows(_) => false
    case ArmRetires(_) => io.watchCloses && io.markerRemoves
    case _ => true
  }

  /** The tools agree, nothing ended the birth meanwhile, and the arm is there. */
  predicate GoesReady(s: State, e: Event) {
    Enabled(s, e) && e.EList? && e.agrees && s.life.phase == Attaching && ArmsWell(e.arm, e.io)
  }

  predicate Unborn(l: Life) {
    l.phase == Pending || l.phase == Attaching
  }

  /** A start that throws, a bridge that does not connect, a cleanup that is done, or a failure from outside. */
  predicate Fails(s: State, e: Event) {
    && Unborn(s.life) && Enabled(s, e)
    && match e
       case EAttach(ok) => s.life.phase == Pending && !ok
       case EConnect(ok) => !ok
       case ECleanup => true
       case EFail => true
       case _ => false
  }

  predicate Starts(s: State, e: Event) {
    e.EAttach? && s.life.phase == Pending
  }

  /** Where the birth stands after this event. */
  function PcAfter(s: State, e: Event): AttachPc {
    if Starts(s, e) then (if e.ok then Connecting else Finished)
    else if !Enabled(s, e) then s.life.attachPc
    else match e
      case EConnect(ok) => if ok then Listing else Finished
      case EList(_, _, _) => if GoesReady(s, e) then Finished else Cleaning
      case ECleanup => Finished
      case _ => s.life.attachPc
  }

  function BridgeAfter(s: State, e: Event): Bridge {
    if !Enabled(s, e) then s.life.bridge
    else match e
      case EConnect(ok) => if ok then OpenBridge else s.life.bridge
      case EList(_, _, _) => if GoesReady(s, e) then s.life.bridge else ClosedBridge
      case EBridgeClosed => ClosedBridge
      case _ => s.life.bridge
  }

  /** The life after this event. */
  ghost predicate Lives(s: State, l: Life, e: Event) {
    && l.phase == (if e.EClose? then Closed else if GoesReady(s, e) then Ready else if Fails(s, e) then Phase.Failed
                   else if Starts(s, e) then Attaching else s.life.phase)
    && l.promise == (if s.life.promise != Unsettled then s.life.promise
                     else if GoesReady(s, e) then Released
                     else if Fails(s, e) || e.EClose? then Refused else Unsettled)
    && l.attachPc == PcAfter(s, e) && l.bridge == BridgeAfter(s, e)
    && (l.closeOwed <==> (s.life.closeOwed && !e.EBridgeClosed?) || (e.EClose? && s.life.phase == Ready))
  }

  lemma RingLife(s: State, why: Why, io: Io)
    ensures Ring(s, why, io).life == s.life
  {}

  lemma LeaveLife(s: State, io: Io)
    ensures LeaveGate(s, io).life == s.life
  {}

  lemma ListLives(s: State, e: Event)
    requires DurableLife.Inv(s) && e.EList? && Enabled(s, e)
    ensures Lives(s, Apply(s, e).life, e)
  {
    RingLife(ListEnds(s, e.agrees, e.arm, e.io), Startup, e.io);
  }

  /** Rings, reads and admissions. */
  predicate Rung(e: Event) {
    e.ESignal? || e.EAdmit? || e.EReject? || e.ELeave?
  }

  lemma RungLives(s: State, e: Event)
    requires Enabled(s, e) && Rung(e)
    ensures Apply(s, e).life == s.life
  {
    match e
    case ESignal(io) => RingLife(s, Signal, io);
    case EAdmit(io) =>
      var t := s.(gate := s.gate.(pass := None), mail := PushNotice(s.mail, s.gate.pass.value));
      LeaveLife(t, io);
    case EReject(io) => LeaveLife(DropPass(s, io), io);
    case ELeave(r, io) => LeaveLife(s.(gate := s.gate.(readers := s.gate.readers - {r})), io);
  }

  lemma StepLives(s: State, e: Event)
    requires DurableLife.Inv(s)
    ensures Lives(s, Step(s, e).life, e)
  {
    if Enabled(s, e) {
      if e.EList? { ListLives(s, e); } else if Rung(e) { RungLives(s, e); }
    }
  }

  /**
    Over every run, the contact gets ready exactly by a listing that agrees while it is still attaching and an
    arm that holds; it fails exactly by a start, connect or cleanup that fails it, or from outside, before it
    is ready; its promise is released or refused just then, or refused by a close; and the bridge is opened by
    its connect and closed by a birth that ends otherwise, or after a close.
  */
  lemma {:induction false} EveryBirth(run: seq<Event>, e: Event)
    ensures Lives(Run(run), Run(run + [e]).life, e)
  {
    DurableLife.RunKeeps(run);
    RunSnoc(run, e);
    StepLives(Run(run), e);
  }

  // ---- arms that do not hold --------------------------------------------------------

  predicate Arming(s: State, e: Event) {
    Enabled(s, e) && e.EList? && e.agrees && s.life.phase == Attaching
  }

  /** The arm threw after it made sure of the signal file. */
  predicate PastSignal(at: ArmStep) {
    at.OpenWatch? || PastWatch(at)
  }

  predicate PastWatch(at: ArmStep) {
    at.MatchRecord? || at.MatchSender? || at.Subscribe? || at.WriteMarker?
  }

  /** What an arm leaves of the bell that does not hang it. */
  ghost predicate BellAfter(b: Bell, t: Bell, arm: ArmOutcome, io: Io) {
    match arm
    case ArmThrows(at) =>
      && !t.armed && t.report == b.report && t.inbox == b.inbox && t.marker == b.marker
      && (t.signal <==> b.signal || PastSignal(at))
      && t.watchOpen == if PastWatch(at) then !io.watchCloses else b.watchOpen
    case ArmRetires(closesAgain) =>
      && !t.armed && t.report == Retired(SessionFailed) && t.inbox && t.signal
      && t.marker == (if io.markerRemoves then NoMarker else OurMarker)
      && (t.watchOpen <==> !io.watchCloses && !closesAgain)
    case _ => t == b
  }

  /** An arm that hangs no doorbell, in any run, leaves no watch and no marker that could be taken back. */
  lemma {:induction false} ArmsThatFail(run: seq<Event>, e: Event)
    requires e.EList? && !(Arming(Run(run), e) && e.arm == ArmSucceeds)
    ensures var s, t := Run(run), Run(run + [e]);
      if Arming(s, e) then BellAfter(s.bell, t.bell, e.arm, e.io) else t.bell == s.bell
  {
    DurableLife.RunKeeps(run);
    RunSnoc(run, e);
  }
}
