/**
  The OMP receiver as the object it is: its fields, its watch and timer handles and the files it
  touches, with every method proved to do what the transition system says.
*/
module OmpReceiver {
  import opened Listing
  import opened Option
  import opened ReceiverModel

  class Receiver {
    var armed: Option<Armed>
    var retryCancel: Option<Timer>
    var retryTicks: nat
    var exitGuard: bool
    var ringing: bool
    var pending: bool

    // handles the vendor and the system keep for us
    var open: set<Watch>
    var ever: nat
    var timers: set<Timer>
    var made: nat
    ghost var closed: nat
    ghost var stuck: nat

    // files
    var markers: map<Garden, Owner>
    var boxes: map<Garden, Box>
    ghost var stranded: set<Garden>
    ghost var replaced: set<Garden>

    ghost var announced: seq<Notice>

    ghost predicate Idle() reads this { !ringing && !pending }

    ghost function TheUnit(): Unit reads this { Unit(armed, retryCancel, retryTicks, exitGuard) }

    ghost function TheHandles(): Handles reads this { Handles(open, ever, closed, stuck, timers, made) }

    ghost function TheFiles(): Files reads this { Files(markers, boxes, stranded, replaced) }

    ghost function Model(): State reads this { State(TheUnit(), TheHandles(), TheFiles(), announced) }

    constructor ()
      ensures Idle() && Model() == Initial
    {
      armed, retryCancel, retryTicks, exitGuard, ringing, pending := None, None, 0, false, false, false;
      open, ever, timers, made, closed, stuck := {}, 0, {}, 0, 0, 0;
      markers, boxes, stranded, replaced, announced := map[], map[], {}, {}, [];
    }

    method CancelRetry(e: Env)
      modifies this`retryCancel, this`timers
      ensures Model() == ReceiverModel.CancelRetry(old(Model()), e)
    {
      var cancel := retryCancel;
      retryCancel := None;
      if cancel.Some? && e.cancelOk { timers := timers - {cancel.value}; }
    }

    method CloseWatch(w: Watch, ok: bool)
      modifies this`open, this`closed, this`stuck
      ensures TheHandles() == ReceiverModel.CloseWatch(old(TheHandles()), w, ok)
    {
      if ok { open, closed := open - {w}, closed + 1; } else { stuck := stuck + 1; }
    }

    method Unarm(e: Env)
      modifies this`armed, this`exitGuard, this`open, this`closed, this`stuck, this`markers, this`stranded
      ensures Model() == ReceiverModel.Unarm(old(Model()), e)
    {
      if armed.None? { return; }
      var a := armed.value;
      armed, exitGuard := None, false;
      CloseWatch(a.watch, e.closeOk);
      RemoveMarker(a.garden, e.removeOk);
    }

    method RemoveMarker(g: Garden, ok: bool)
      modifies this`markers, this`stranded
      ensures TheFiles() == GiveBack(old(TheFiles()), g, ok)
    {
      if g in markers && markers[g] == Us {
        if ok { markers := markers - {g}; } else { stranded := stranded + {g}; }
      }
    }

    /** Renames the names in order, up to the first rename that throws. */
    method Stamp(g: Garden, names: seq<Name>, stamps: Option<nat>) returns (threw: bool)
      requires g in boxes
      modifies this`boxes
      ensures boxes == old(boxes)[g := Moved(old(boxes)[g], Stamped(names, stamps))]
      ensures threw == (Stamped(names, stamps) != names)
    {
      var i := 0;
      assert Moved(boxes[g], names[..0]) == boxes[g];
      while i < |names| && (stamps.None? || i < stamps.value)
        invariant 0 <= i <= |names| && (stamps.None? || i <= stamps.value)
        invariant g in boxes && boxes == old(boxes)[g := Moved(old(boxes)[g], names[..i])]
      {
        MovedSnoc(old(boxes)[g], names, i);
        var b := boxes[g];
        boxes := boxes[g := b.(unstamped := b.unstamped - {names[i]}, delivered := b.delivered + {names[i]})];
        i := i + 1;
      }
      assert names[..i] == Stamped(names, stamps);
      threw := i < |names|;
    }

    /** One pass over the mailbox: stamp what is new, then announce all that is stamped. */
    method Pass(a: Armed, e: Env)
      requires armed == Some(a)
      modifies this`armed, this`exitGuard, this`open, this`closed, this`stuck, this`markers, this`stranded,
               this`boxes, this`announced
      ensures Model() == ReceiverModel.Ring(old(Model()), e)
    {
      if a.garden !in boxes || !boxes[a.garden].signal {
        Unarm(e);
        return;
      }
      var unstamped := Ascending(boxes[a.garden].unstamped);
      if unstamped == [] { return; }
      var threw := Stamp(a.garden, unstamped, e.stamps);
      if !threw && e.sendOk {
        announced := announced + [Notice(a.garden, |boxes[a.garden].delivered|)];
      }
    }

    /**
      Announce new mail; an error anywhere in it is logged and forgotten. A ring that lands on a ring under
      way only asks it for one more pass.
    */
    method Ring(e: Env)
      requires pending ==> ringing
      modifies this
      ensures old(ringing) ==> pending == (old(pending) || old(armed).Some?)
      ensures old(ringing) ==> ringing && Model() == old(Model())
      ensures !old(ringing) ==> Idle() && Model() == ReceiverModel.Ring(old(Model()), e)
    {
      if armed.None? { return; }
      var a := armed.value;
      if ringing {
        pending := true;
        return;
      }
      ringing := true;
      var again := true;
      while again
        invariant ringing && !pending
        invariant again ==> armed == Some(a) && Model() == old(Model())
        invariant !again ==> Model() == ReceiverModel.Ring(old(Model()), e)
        decreases again
      {
        pending := false;
        Pass(a, e);
        again := pending;
      }
      ringing := false;
    }

    method Hold(g: Garden, w: Watch, e: Env)
      modifies this`markers, this`stranded, this`replaced, this`armed, this`exitGuard
      ensures Model() == Held(old(Model()), g, w, e)
    {
      markers, stranded, replaced := markers[g := Us], stranded - {g}, replaced - {g};
      armed := Some(Armed(g, w));
      exitGuard := exitGuard || e.guardOk;
    }

    /** Mailbox, signal and watch. */
    method OpenWatch(g: Garden) returns (w: Watch)
      modifies this`boxes, this`open, this`ever
      ensures Model() == Opened(old(Model()), g) && w == old(ever)
    {
      boxes := WithSignal(boxes, g);
      w := ever;
      open, ever := open + {w}, ever + 1;
    }

    /** Mailbox, signal, watch, and only then the marker. */
    method Arm(g: Garden, e: Env)
      requires Idle()
      modifies this
      ensures Idle() && Model() == ReceiverModel.Arm(old(Model()), g, e)
    {
      if !e.plausible || !e.dirOk { return; }
      if !e.watchOk {
        boxes := WithSignal(boxes, g);
        return;
      }
      var w := OpenWatch(g);
      if !e.markOk {
        CloseWatch(w, e.closeOk);
      } else {
        Hold(g, w, e);
        Ring(e);
      }
    }

    method TryArm(e: Env) returns (settled: bool)
      requires Idle()
      modifies this
      ensures Idle() && (Model(), settled) == ReceiverModel.TryArm(old(Model()), e)
    {
      if !e.canRing { return true; }
      if e.native.None? { return false; }
      var resolved := Resolve(e.native.value, e);
      if resolved.Refused? { return !resolved.retryable; }
      Arm(resolved.garden, e);
      return true;
    }

    method StartRetry(e: Env)
      modifies this`retryCancel, this`timers, this`made
      ensures Model() == ReceiverModel.StartRetry(old(Model()), e)
    {
      if !e.canTime || !e.timeOk { return; }
      var handle := made;
      timers, made := timers + {handle}, made + 1;
      retryCancel := Some(handle);
    }

    method OnEdge(e: Env)
      requires Idle()
      modifies this
      ensures Idle() && Model() == ReceiverModel.OnEdge(old(Model()), e)
    {
      if !e.tui { return; }
      CancelRetry(e);
      Unarm(e);
      retryTicks := 0;
      var settled := TryArm(e);
      if !settled { StartRetry(e); }
    }

    /** The callback the retry timer runs. */
    method OnTick(e: Env)
      requires Idle()
      modifies this
      ensures Idle() && Model() == Tick(old(Model()), e)
    {
      retryTicks := retryTicks + 1;
      assert Model() == Counted(old(Model()));
      var settled := TryArm(e);
      EndTick(settled, e);
    }

    method EndTick(settled: bool, e: Env)
      modifies this`retryCancel, this`timers
      ensures Model() == Ticked(old(Model()), settled, e)
    {
      if settled || retryTicks >= ARM_RETRY_MAX_TICKS { CancelRetry(e); }
    }
  }

  lemma MovedSnoc(b: Box, names: seq<Name>, i: nat)
    requires i < |names|
    ensures var m := Moved(b, names[..i]);
      Moved(b, names[..i + 1]) ==
        m.(unstamped := m.unstamped - {names[i]}, delivered := m.delivered + {names[i]})
  {
    assert names[..i + 1] == names[..i] + [names[i]];
  }
}
