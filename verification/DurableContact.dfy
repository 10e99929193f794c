/**
  The doorbell contact as the object it is: its closure variables are fields, and each method
  is one synchronous stretch of its code, proved to do exactly what the transition system says.

  `signal`, `marker` and `box` stand for the files it shares with other processes.
*/
module DurableContact {
  import opened Option
  import opened Listing
  import opened DurableModel

  class Contact {
    var phase: Phase
    var promise: Promise
    var attachPc: AttachPc
    var bridge: Bridge
    var closeOwed: bool
    var doorbell: bool
    var report: Report
    var inbox: bool
    var watchOpen: bool
    var gated: bool
    var pending: bool
    var gateWaiters: seq<ReaderId>
    var readers: Readers
    var pass: Option<Pass>
    var notices: seq<Notice>
    var admissions: seq<Admission>
    var withdrawalFailure: Option<WithdrawalFailure>

    var signal: bool
    var marker: Marker
    var box: Box

    ghost var settles: nat
    ghost var cleanupFailed: bool
    ghost var foreign: bool
    ghost var withdrawals: seq<Withdrawal>
    ghost var stamped: set<Name>
    ghost var signalled: set<Name>
    ghost var orphans: set<Name>
    ghost var issuedNotices: seq<Notice>
    var handles: nat                       // how many notice objects were made

    ghost function Life(): DurableModel.Life
      reads this`phase, this`promise, this`settles, this`attachPc, this`bridge, this`closeOwed
    {
      DurableModel.Life(phase, promise, settles, attachPc, bridge, closeOwed)
    }

    ghost function Bell(): DurableModel.Bell
      reads this`doorbell, this`report, this`inbox, this`watchOpen
      reads this`marker, this`signal, this`cleanupFailed, this`foreign
    {
      DurableModel.Bell(doorbell, report, inbox, watchOpen, marker, signal, cleanupFailed, foreign)
    }

    ghost function Gate(): DurableModel.Gate
      reads this`gated, this`pending, this`gateWaiters, this`readers, this`pass
    {
      DurableModel.Gate(gated, pending, gateWaiters, readers, pass)
    }

    ghost function Mail(): DurableModel.Mail
      reads this`box, this`notices, this`admissions, this`withdrawalFailure, this`issuedNotices
      reads this`withdrawals, this`stamped, this`signalled, this`orphans
    {
      DurableModel.Mail(box, notices, admissions, withdrawalFailure,
                        issuedNotices, withdrawals, stamped, signalled, orphans)
    }

    ghost function Model(): State reads this {
      State(Life(), Bell(), Gate(), Mail())
    }

    ghost predicate Valid()
      reads this`handles, this`issuedNotices
    {
      handles == |issuedNotices|
    }

    constructor ()
      ensures Valid() && Model() == Initial
    {
      phase, promise, attachPc, bridge, closeOwed := Pending, Unsettled, NotStarted, NoBridge, false;
      doorbell, report, inbox, watchOpen := false, Off, false, false;
      gated, pending, gateWaiters, readers, pass := false, false, [], map[], None;
      notices, admissions, withdrawalFailure := [], [], None;
      signal, marker, box := false, NoMarker, map[];
      settles, cleanupFailed, foreign := 0, false, false;
      withdrawals, stamped, signalled, orphans, issuedNotices := [], {}, {}, {}, [];
      handles := 0;
    }

    method SettleFailed()
      modifies this`phase, this`promise, this`settles
      ensures Life() == DurableModel.SettleFailed(old(Life()))
    {
      if phase == Ready || phase == Closed || phase == Failed { return; }
      phase := Failed;
      promise, settles := Refused, settles + 1;
    }

    // ---- the gate ---------------------------------------------------------------------

    method EnterGate(r: ReaderId)
      modifies this`gated, this`gateWaiters, this`readers
      ensures Gate() == DurableModel.EnterGate(old(Gate()), r)
    {
      if !gated {
        gated := true;
        readers := readers[r := Entered];
        return;
      }
      gateWaiters := gateWaiters + [r];
      readers := readers[r := Waiting];
    }

    method LeaveGate(io: Io)
      requires Valid() && gated && pass.None?
      modifies this
      ensures Valid()
      ensures Model() == DurableModel.LeaveGate(old(Model()), io)
      decreases if pending then 3 else 0
    {
      if gateWaiters != [] {
        var next := gateWaiters[0];
        gateWaiters := gateWaiters[1..];
        readers := readers[next := Entered];
        return;
      }
      gated := false;
      if pending { Ring(Signal, io); }
    }

    method Retire(reason: Reason, io: Io)
      modifies this`doorbell, this`report, this`watchOpen, this`marker, this`cleanupFailed
      ensures Bell() == DurableModel.Retire(old(Bell()), reason, io)
    {
      if !doorbell { return; }
      doorbell := false;
      if io.watchCloses { watchOpen := false; } else { cleanupFailed := true; }
      if !io.markerRemoves {
        cleanupFailed := true;
      } else if marker == OurMarker {
        marker := NoMarker;
      }
      report := Retired(reason);
    }

    // ---- the ring pass ----------------------------------------------------------------

    method Ring(why: Why, io: Io)
      requires Valid() && (!gated ==> pass.None?)
      modifies this
      ensures Valid()
      ensures Model() == DurableModel.Ring(old(Model()), why, io)
      decreases 2
    {
      if !doorbell { return; }
      signalled := signalled + WithMark(box, Fresh);
      if gated {
        pending := true;
        return;
      }
      gated := true;
      assert Mail() == old(Mail()).(signalled := signalled);
      assert Gate() == old(Gate()).(gated := true);
      RunPass(why, io);
    }

    /** One round of the do-while, under the held gate: it ends the pass or awaits an admission. */
    method Round(why: Why, io: Io)
      requires pass.None?
      modifies this`pending, this`pass, this`doorbell, this`report, this`watchOpen, this`marker, this`cleanupFailed
      modifies this`box, this`stamped, this`orphans
      ensures !pending
      ensures RoundEnd(Bell(), Mail(), pass) == DurableModel.Round(old(Bell()), old(Mail()), why, io)
    {
      pending := false;
      if !signal {
        Retire(SignalVanished, io);
      } else if io.pass == ListFails {
        assert Mail() == StampMail(Mail(), {}).(orphans := orphans + {});
        Retire(DoorbellFailed, io);
      } else {
        var names := Ascending(WithMark(box, Fresh));
        if names != [] {
          var done := StampAll(names, io);
          assert done == |names| ==> names[..done] == names;
          FinishRound(names, done, why, io);
        }
      }
    }

    /** Everything stamped: ask for the admission. Anything failed: retire. */
    method FinishRound(names: seq<Name>, done: nat, why: Why, io: Io)
      requires done <= |names|
      modifies this`pass, this`doorbell, this`report, this`watchOpen, this`marker, this`cleanupFailed, this`orphans
      ensures done < |names| || io.pass == CountFails ==>
                pass == old(pass) && Bell() == DurableModel.Retire(old(Bell()), DoorbellFailed, io)
                && Mail() == old(Mail()).(orphans := old(orphans) + Names(names[..done]))
      ensures done == |names| && io.pass != CountFails ==>
                Bell() == old(Bell()) && Mail() == old(Mail())
                && pass == Some(Pass(why, names, |WithMark(box, Delivered)|))
    {
      if done < |names| || io.pass == CountFails {
        orphans := orphans + Names(names[..done]);
        Retire(DoorbellFailed, io);
      } else {
        pass := Some(Pass(why, names, |WithMark(box, Delivered)|));
      }
    }

    /** The pass from the top of its do-while to its next await; `finally` leaves the gate when it ends here. */
    method RunPass(why: Why, io: Io)
      requires Valid() && gated && pass.None?
      modifies this
      ensures Valid()
      ensures Model() == PassBody(old(Model()), why, io)
      decreases 1
    {
      Round(why, io);
      if pass.None? { LeaveGate(io); }
    }

    /** The rename loop: how many names it stamped before it ended or a rename threw. */
    method StampAll(names: seq<Name>, io: Io) returns (done: nat)
      requires forall n :: n in names ==> n in box
      modifies this`box, this`stamped
      ensures done == if io.pass.RenameFails? && io.pass.stamped < |names| then io.pass.stamped else |names|
      ensures Mail() == StampMail(old(Mail()), Names(names[..done]))
    {
      done := 0;
      while done < |names| && io.pass != RenameFails(done)
        invariant done <= |names|
        invariant io.pass.RenameFails? ==> done <= io.pass.stamped || |names| < io.pass.stamped
        invariant box == Stamp(old(box), Names(names[..done]))
        invariant stamped == old(stamped) + Names(names[..done])
      {
        var name := names[done];
        assert names[..done + 1] == names[..done] + [name];
        box := box[name := Delivered];
        stamped := stamped + {name};
        done := done + 1;
      }
    }

    /** What a resolved admission records. */
    method Push(p: Pass)
      requires Valid() && p.names != []
      modifies this`pass, this`admissions, this`notices, this`issuedNotices, this`handles
      ensures Valid() && pass == None
      ensures Mail() == PushNotice(old(Mail()), p)
    {
      pass := None;
      var requestId := p.names[|p.names| - 1];
      admissions := [Admission(p.why, requestId, p.names, p.unread)];
      var notice := Notice(handles, requestId, p.names);
      handles := handles + 1;
      notices := notices + [notice];
      issuedNotices := issuedNotices + [notice];
    }

    /** The admission resolved: hold the notice, and go round again for a signal that landed meanwhile. */
    method Admitted(io: Io)
      requires Valid() && gated && pass.Some? && pass.value.names != []
      modifies this
      ensures Valid()
      ensures Model() == Admit(old(Model()), io)
    {
      var p := pass.value;
      Push(p);
      assert Gate() == old(Gate()).(pass := None);
      assert Life() == old(Life()) && Bell() == old(Bell());
      if pending && doorbell { RunPass(p.why, io); } else { LeaveGate(io); }
    }

    /** What a rejected admission leaves behind. */
    method DropPass(io: Io)
      requires pass.Some?
      modifies this`pass, this`doorbell, this`report, this`watchOpen, this`marker, this`cleanupFailed, this`orphans
      ensures pass == None
      ensures Bell() == DurableModel.Retire(old(Bell()), Reason.AdmissionRejected, io)
      ensures Mail() == old(Mail()).(orphans := old(orphans) + Names(old(pass).value.names))
    {
      orphans := orphans + Names(pass.value.names);
      pass := None;
      Retire(Reason.AdmissionRejected, io);
    }

    method AdmissionRejected(io: Io)
      requires Valid() && gated && pass.Some?
      modifies this
      ensures Valid()
      ensures Model() == Reject(old(Model()), io)
    {
      DropPass(io);
      assert Life() == old(Life());
      assert Gate() == old(Gate()).(pass := None);
      assert Model() == DurableModel.DropPass(old(Model()), io);
      LeaveGate(io);
    }

    // ---- inbox reads ------------------------------------------------------------------

    /** The judged notice leaves the held ones, and its native withdraw is asked for. */
    method TakeOut(notice: Notice, unread: set<Name>)
      modifies this`notices, this`withdrawals
      ensures Mail() == old(Mail()).(notices := SpliceOne(old(notices), IndexOf(old(notices), notice)),
                                     withdrawals := old(withdrawals) + [Withdrawal(notice, unread)])
    {
      notices := SpliceOne(notices, IndexOf(notices, notice));
      withdrawals := withdrawals + [Withdrawal(notice, unread)];
    }

    /** The withdraw loop over what is left of the snapshot, up to the next awaited withdraw. */
    method WithdrawDrained(r: ReaderId, unread: set<Name>, snapshot: seq<Notice>)
      requires Valid()
      modifies this`notices, this`withdrawals, this`readers
      ensures Valid()
      ensures Model() == MoveReader(old(Model()), r, Judge(old(Mail()), unread, snapshot))
    {
      var k := 0;
      while k < |snapshot|
        invariant k <= |snapshot|
        invariant notices == old(notices) && withdrawals == old(withdrawals) && readers == old(readers)
        invariant Judge(old(Mail()), unread, snapshot) == Judge(old(Mail()), unread, snapshot[k..])
      {
        var notice := snapshot[k];
        k := k + 1;
        assert snapshot[k - 1..][1..] == snapshot[k..];
        if HasUnread(notice, unread) { continue; }
        TakeOut(notice, unread);
        readers := readers[r := Aborting(notice, unread, snapshot[k..])];
        return;
      }
      readers := readers[r := Leaving(Some(unread))];
    }

    /** The bridge answered; the mailbox is listed once, if it can be. */
    method Answered(r: ReaderId, lists: bool)
      requires Valid() && AtPc(Model(), r, Calling)
      modifies this
      ensures Valid()
      ensures Model() == Apply(old(Model()), EAnswer(r, lists))
    {
      if !inbox || notices == [] {
        readers := readers[r := Leaving(None)];
      } else if !lists {
        withdrawalFailure := Some(InspectionFailed);
        readers := readers[r := Leaving(None)];
      } else {
        WithdrawDrained(r, WithMark(box, Delivered), notices);
      }
    }

    method WithdrawSettled(r: ReaderId, ok: bool)
      requires Valid() && r in readers && readers[r].Aborting?
      modifies this
      ensures Valid()
      ensures Model() == Apply(old(Model()), EWithdrawn(r, ok))
    {
      var pc := readers[r];
      if !ok { withdrawalFailure := Some(AbortFailed(pc.notice.requestId)); }
      WithdrawDrained(r, pc.unread, pc.rest);
    }

    method Leaves(r: ReaderId, io: Io)
      requires Valid() && gated && pass.None? && r in readers && readers[r].Leaving?
      modifies this
      ensures Valid()
      ensures Model() == Apply(old(Model()), ELeave(r, io))
    {
      readers := readers - {r};
      LeaveGate(io);
    }

    // ---- birth, failure and close -----------------------------------------------------

    /** The synchronous start of `attach`: false when this birth already happened (the call throws). */
    method AttachStarts(valid: bool) returns (began: bool)
      modifies this`phase, this`promise, this`settles, this`attachPc
      ensures began <==> old(phase) == Pending
      ensures Life() == DurableModel.AttachStarts(old(Life()), valid)
    {
      if phase != Pending { return false; }
      began := true;
      phase, attachPc := Attaching, Connecting;
      if !valid {
        attachPc := Finished;
        SettleFailed();
      }
    }

    method ConnectSettled(connected: bool)
      modifies this`phase, this`promise, this`settles, this`attachPc, this`bridge
      ensures Life() == DurableModel.ConnectSettled(old(Life()), connected)
    {
      if connected {
        attachPc, bridge := Listing, OpenBridge;
      } else {
        attachPc := Finished;
        SettleFailed();
      }
    }

    /** Mailbox, signal, watch, subscription, marker, and only then the doorbell. Throws: `threw` is true. */
    method Arm(outcome: ArmOutcome, io: Io) returns (threw: bool, published: bool)
      requires outcome != NoRoot
      modifies this`doorbell, this`report, this`inbox, this`signal, this`watchOpen, this`marker, this`cleanupFailed
      ensures published <==> outcome.ArmSucceeds?
      ensures threw <==> outcome.ArmThrows? || (outcome.ArmRetires? && !(io.watchCloses && io.markerRemoves))
      ensures Bell() == match outcome
                        case ArmThrows(at) => HalfArmed(old(Bell()), at, io)
                        case ArmSucceeds => Publish(old(Bell()))
                        case ArmRetires(closesAgain) => RetiredAtOnce(old(Bell()), closesAgain, io)
    {
      threw, published := true, false;
      if outcome == ArmThrows(CheckOwner) || outcome == ArmThrows(MakeMailbox) { return; }
      if outcome == ArmThrows(MakeSignal) { return; }
      if !signal { signal := true; }
      if outcome == ArmThrows(OpenWatch) { return; }
      watchOpen := true;
      if outcome.ArmThrows? {
        // the record, the sender marker, the subscription or the receiver marker: close what was opened
        if io.watchCloses { watchOpen := false; } else { cleanupFailed := true; }
        return;
      }
      marker := OurMarker;
      doorbell, inbox, report := true, true, Armed;
      threw, published := false, outcome.ArmSucceeds?;
      if outcome.ArmRetires? {
        Retire(SessionFailed, io);
        threw := !(io.watchCloses && io.markerRemoves);
        if threw && outcome.closesAgain { watchOpen := false; }
      }
    }

    method FailAfterCleanup()
      modifies this`attachPc, this`bridge
      ensures Life() == DurableModel.FailAfterCleanup(old(Life()))
    {
      attachPc, bridge := Cleaning, ClosedBridge;
    }

    method Release()
      modifies this`phase, this`attachPc, this`promise, this`settles
      ensures Life() == GoReady(old(Life()))
    {
      phase, attachPc := Ready, Finished;
      promise, settles := Released, settles + 1;
    }

    /** Refuse a drifted list or a contact that moved on, else arm and release. Says whether a startup ring is due. */
    method ArmAndRelease(agrees: bool, outcome: ArmOutcome, io: Io) returns (rings: bool)
      modifies this`phase, this`attachPc, this`promise, this`settles, this`bridge
      modifies this`doorbell, this`report, this`inbox, this`signal, this`watchOpen, this`marker, this`cleanupFailed
      ensures rings <==> agrees && old(phase) == Attaching && outcome == ArmSucceeds
      ensures Life() == ListEnds(old(Model()), agrees, outcome, io).life
      ensures Bell() == ListEnds(old(Model()), agrees, outcome, io).bell
    {
      rings := false;
      if !agrees || phase != Attaching {
        FailAfterCleanup();
      } else if outcome == NoRoot {
        Release();
      } else {
        var threw;
        threw, rings := Arm(outcome, io);
        if threw { FailAfterCleanup(); } else { Release(); }
      }
    }

    /** The bridge's tools were listed: become ready or fail, and ring for mail that was there before the watch. */
    method ListSettled(agrees: bool, outcome: ArmOutcome, io: Io)
      requires Valid() && (!gated ==> pass.None?)
      modifies this
      ensures Valid()
      ensures Model() == DurableModel.ListSettled(old(Model()), agrees, outcome, io)
    {
      var rings := ArmAndRelease(agrees, outcome, io);
      ListEndsKeeps(old(Model()), agrees, outcome, io);
      assert Gate() == old(Gate());
      assert Mail() == old(Mail());
      if rings { Ring(Startup, io); }
    }

    method CleanupDone()
      modifies this`phase, this`promise, this`settles, this`attachPc
      ensures Life() == DurableModel.CleanupDone(old(Life()))
    {
      attachPc := Finished;
      SettleFailed();
    }

    /** The part of `close` that ends the waiting: the promise, the state, and what the bridge is still owed. */
    method CloseState()
      modifies this`phase, this`promise, this`settles, this`closeOwed
      ensures Life() == CloseLife(old(Life()))
    {
      if phase == Ready { closeOwed := true; }
      SettleFailed();
      phase := Closed;
    }

    method Close(io: Io)
      modifies this`phase, this`promise, this`settles, this`closeOwed, this`notices
      modifies this`doorbell, this`report, this`watchOpen, this`marker, this`cleanupFailed
      ensures Life() == CloseLife(old(Life()))
      ensures Bell() == DurableModel.Retire(old(Bell()), ContactClosed, io)
      ensures Mail() == old(Mail()).(notices := [])
    {
      CloseState();
      notices := [];
      Retire(ContactClosed, io);
    }
  }

  /** What the end of a birth leaves alone. */
  lemma ListEndsKeeps(s: State, agrees: bool, outcome: ArmOutcome, io: Io)
    ensures var t := ListEnds(s, agrees, outcome, io); t.gate == s.gate && t.mail == s.mail
  {}
}
