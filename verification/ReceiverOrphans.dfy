/**
  The OMP receiver when the vendor's canceller throws: a retry timer outlives its cancellation, and its
  ticks are exactly what the receiver loses.
*/
module ReceiverOrphans {
  import opened Listing
  import opened Option
  import opened ReceiverModel
  import opened ReceiverSafety

  // ---- watchers ---------------------------------------------------------------------

  predicate Arms(e: Env) {
    && e.canRing && e.native.Some? && Resolve(e.native.value, e).Resolved?
    && e.plausible && e.dirOk && e.watchOk && e.markOk
  }

  /** A live tick that finds the receiver armed and arms again: the watcher it had is held by nobody. */
  predicate Loses(s: State, ev: Event) {
    ev.TimerFires? && ev.timer in s.handles.timers && s.unit.armed.Some? && Arms(ev.env)
  }

  function Lost(run: seq<Event>): nat
    decreases |run|
  {
    if run == [] then 0
    else Lost(run[..|run| - 1]) + One(Loses(Steps(Initial, run[..|run| - 1]), run[|run| - 1]))
  }

  /** Watchers opened that are neither closed, nor stuck, nor the armed one. */
  function Unaccounted(s: State): int {
    s.handles.ever - s.handles.closed - s.handles.stuck - One(s.unit.armed.Some?)
  }

  lemma UnarmAccounts(s: State, e: Env)
    ensures Unaccounted(Unarm(s, e)) == Unaccounted(s) && Unaccounted(Ring(s, e)) == Unaccounted(s)
  {}

  lemma TryArmAccounts(s: State, e: Env)
    ensures Unaccounted(TryArm(s, e).0) == Unaccounted(s) + One(s.unit.armed.Some? && Arms(e))
  {
    if e.canRing && e.native.Some? && Resolve(e.native.value, e).Resolved? {
      var g := Resolve(e.native.value, e).garden;
      UnarmAccounts(Held(Opened(s, g), g, s.handles.ever, e), e);
    }
  }

  lemma StepAccounts(s: State, ev: Event)
    ensures Unaccounted(Step(s, ev)) == Unaccounted(s) + One(Loses(s, ev))
  {
    match ev
    case Edge(e) =>
      UnarmAccounts(CancelRetry(s, e), e);
      TryArmAccounts(TornDown(s, e), e);
    case TimerFires(_, e) => TryArmAccounts(Counted(s), e);
    case Signal(_, e) => UnarmAccounts(s, e);
    case WatchError(_, e) => UnarmAccounts(s, e);
    case ProcessExit(e) => UnarmAccounts(s, e);
    case _ =>
  }

  /**
    Over every run, whatever throws: the watchers opened are those closed, those whose close threw, the
    armed one and those lost to ticks of timers that outlived their cancellation. So the balance of a
    working canceller holds exactly when there was no such tick.
  */
  lemma {:induction false} WatchersAccounted(run: seq<Event>)
    ensures var s := Steps(Initial, run);
      s.handles.ever == s.handles.closed + s.handles.stuck + One(s.unit.armed.Some?) + Lost(run)
    decreases |run|
  {
    if run != [] {
      WatchersAccounted(run[..|run| - 1]);
      StepAccounts(Steps(Initial, run[..|run| - 1]), run[|run| - 1]);
    }
  }

  /** With a canceller that works there is no such tick. */
  lemma {:induction false} WorkingCancelLosesNothing(run: seq<Event>)
    requires forall ev :: ev in run ==> Cancels(ev)
    ensures Lost(run) == 0
  {
    ResourcesBalance(run);
    WatchersAccounted(run);
  }

  // ---- markers ----------------------------------------------------------------------

  /** The garden such a tick leaves behind, if it arms another one. */
  function Leaves(s: State, ev: Event): set<Garden> {
    if Loses(s, ev) && !ArmsAt(ev.env, s.unit.armed.value.garden) then {s.unit.armed.value.garden} else {}
  }

  /** The garden an edge of the host or a live tick arms. */
  function Rearms(s: State, ev: Event): set<Garden> {
    if (HostEdge(ev) || (ev.TimerFires? && ev.timer in s.handles.timers)) && Arms(ev.env)
    then {Resolve(ev.env.native.value, ev.env).garden} else {}
  }

  /** The gardens left behind and not armed since. */
  function StillLeft(run: seq<Event>): set<Garden>
    decreases |run|
  {
    if run == [] then {}
    else
      var before, s, ev := StillLeft(run[..|run| - 1]), Steps(Initial, run[..|run| - 1]), run[|run| - 1];
      before + Leaves(s, ev) - Rearms(s, ev)
  }

  /** Where a marker of ours stands, exactly. */
  predicate Stands(s: State, left: set<Garden>, g: Garden) {
    && (Advertised(s, g) <==> g !in s.files.replaced && (ArmedAt(s, g) || g in s.files.stranded || g in left))
    && (ArmedAt(s, g) ==> g !in s.files.stranded && g !in left)
  }

  ghost predicate Marked(s: State, left: set<Garden>) {
    forall g :: Stands(s, left, g)
  }

  lemma UnarmMarks(s: State, e: Env, left: set<Garden>)
    requires Marked(s, left)
    ensures Marked(Unarm(s, e), left)
  {
    forall g ensures Stands(Unarm(s, e), left, g) { assert Stands(s, left, g); }
  }

  lemma SameMarks(s: State, t: State, left: set<Garden>)
    requires Marked(s, left) && t.unit.armed == s.unit.armed
    requires t.files.(boxes := map[]) == s.files.(boxes := map[])
    ensures Marked(t, left)
  {
    forall g ensures Stands(t, left, g) { assert Stands(s, left, g); }
  }

  lemma RingMarks(s: State, e: Env, left: set<Garden>)
    requires Marked(s, left)
    ensures Marked(Ring(s, e), left)
  {
    UnarmMarks(s, e, left);
    if Ring(s, e).unit == s.unit { SameMarks(s, Ring(s, e), left); }
  }

  /** What arming `g` leaves of the gardens left behind: the one it had, if it was another, and not `g`. */
  function LeftAfter(s: State, left: set<Garden>, g: Garden): set<Garden> {
    left + (if s.unit.armed.Some? then {s.unit.armed.value.garden} else {}) - {g}
  }

  lemma HeldMarks(s: State, g: Garden, e: Env, left: set<Garden>)
    requires Marked(s, left)
    ensures Marked(Held(Opened(s, g), g, s.handles.ever, e), LeftAfter(s, left, g))
  {
    forall k ensures Stands(Held(Opened(s, g), g, s.handles.ever, e), LeftAfter(s, left, g), k) {
      assert Stands(s, left, k);
    }
  }

  lemma TryArmMarks(s: State, e: Env, left: set<Garden>)
    requires Marked(s, left)
    ensures Marked(TryArm(s, e).0,
                   if Arms(e) then LeftAfter(s, left, Resolve(e.native.value, e).garden) else left)
  {
    if e.canRing && e.native.Some? && Resolve(e.native.value, e).Resolved? {
      var g := Resolve(e.native.value, e).garden;
      if Arms(e) {
        HeldMarks(s, g, e, left);
        RingMarks(Held(Opened(s, g), g, s.handles.ever, e), e, LeftAfter(s, left, g));
      } else {
        SameMarks(s, Arm(s, g, e), left);
      }
    }
  }

  lemma EdgeMarks(s: State, e: Env, left: set<Garden>)
    requires Marked(s, left) && e.tui
    ensures Marked(OnEdge(s, e), left - Rearms(s, Edge(e)))
  {
    SameMarks(s, CancelRetry(s, e), left);
    UnarmMarks(CancelRetry(s, e), e, left);
    SameMarks(Unarm(CancelRetry(s, e), e), TornDown(s, e), left);
    TryArmMarks(TornDown(s, e), e, left);
    var t := TryArm(TornDown(s, e), e).0;
    assert left - {} == left && left + {} == left;
    SameMarks(t, StartRetry(t, e), left - Rearms(s, Edge(e)));
  }

  lemma TickMarks(s: State, timer: Timer, e: Env, left: set<Garden>)
    requires Marked(s, left) && timer in s.handles.timers
    ensures var ev := TimerFires(timer, e); Marked(Tick(s, e), left + Leaves(s, ev) - Rearms(s, ev))
  {
    var ev := TimerFires(timer, e);
    SameMarks(s, Counted(s), left);
    TryArmMarks(Counted(s), e, left);
    var t := TryArm(Counted(s), e).0;
    var after := if Arms(e) then LeftAfter(s, left, Resolve(e.native.value, e).garden) else left;
    assert after == left + Leaves(s, ev) - Rearms(s, ev);
    SameMarks(t, CancelRetry(t, e), after);
  }

  lemma ForeignMarks(s: State, g: Garden, owner: Option<nat>, left: set<Garden>)
    requires Marked(s, left)
    ensures Marked(Step(s, Foreign(g, owner)), left)
  {
    forall k ensures Stands(Step(s, Foreign(g, owner)), left, k) { assert Stands(s, left, k); }
  }

  lemma StepMarks(s: State, ev: Event, left: set<Garden>)
    requires Marked(s, left)
    ensures Marked(Step(s, ev), left + Leaves(s, ev) - Rearms(s, ev))
  {
    assert left + {} - {} == left;
    match ev
    case Edge(e) => if e.tui { assert left + {} == left; EdgeMarks(s, e, left); }
    case TimerFires(timer, e) => if timer in s.handles.timers { TickMarks(s, timer, e, left); }
    case Signal(_, e) => RingMarks(s, e, left);
    case WatchError(_, e) => UnarmMarks(s, e, left);
    case ProcessExit(e) => UnarmMarks(s, e, left);
    case Foreign(g, owner) => ForeignMarks(s, g, owner, left);
    case Mailbox(_, _) => SameMarks(s, Step(s, ev), left);
  }

  lemma {:induction false} RunMarks(run: seq<Event>)
    ensures Marked(Steps(Initial, run), StillLeft(run))
    decreases |run|
  {
    if run != [] {
      RunMarks(run[..|run| - 1]);
      StepMarks(Steps(Initial, run[..|run| - 1]), run[|run| - 1], StillLeft(run[..|run| - 1]));
    }
  }

  /**
    Over every run, whatever throws, a marker of ours stands exactly for the garden that is armed, those
    whose marker we could not remove and those left behind and not armed since — but for the ones another
    process has written over; and the armed garden is none of the others.
  */
  lemma {:induction false} MarkersAccounted(run: seq<Event>, g: Garden)
    ensures var s := Steps(Initial, run);
      && (Advertised(s, g) <==>
            g !in s.files.replaced && (ArmedAt(s, g) || g in s.files.stranded || g in StillLeft(run)))
      && (ArmedAt(s, g) ==> g !in s.files.stranded && g !in StillLeft(run))
  {
    RunMarks(run);
    assert Stands(Steps(Initial, run), StillLeft(run), g);
  }

  // ---- it happens -------------------------------------------------------------------

  const THREE: Env :=
    Env(true, true, Some(7), Some(Sender(7, 3)), Some(Identity(true, 7, 3)), true, true, true, true, true,
        true, true, false, true, true, None, true)

  /** One cancellation that throws leaves an armed receiver with a live retry timer. */
  lemma {:induction false} ThrowingCancelOrphans() returns (run: seq<Event>)
    ensures var s := Steps(Initial, run);
      ArmedAt(s, 3) && Advertised(s, 3) && s.handles.timers == {0} && Lost(run) == 0
  {
    var first, second := Edge(THREE.(sender := None)), Edge(THREE);
    run := [first, second];
    assert run[..1] == [first] && [first][..0] == [];
    assert Steps(Initial, [first]) == Step(Initial, first);
    assert Steps(Initial, run) == Step(Step(Initial, first), second);
    assert Ascending({}) == [];
    WatchersAccounted(run);
  }

  lemma TickArmsAnother(s: State, timer: Timer, e: Env, g: Garden, k: Garden)
    requires timer in s.handles.timers && ArmedAt(s, k) && Advertised(s, k) && ArmsAt(e, g) && g != k
    ensures var t := Step(s, TimerFires(timer, e));
      Loses(s, TimerFires(timer, e)) && ArmedAt(t, g) && Advertised(t, g) && Advertised(t, k)
  {}

  /** Its tick then arms another garden: a watcher is lost, and the garden left keeps our marker. */
  lemma {:induction false} OrphanTickLeavesAMarker() returns (run: seq<Event>)
    ensures var s := Steps(Initial, run);
      Lost(run) == 1 && ArmedAt(s, 4) && Advertised(s, 4) && Advertised(s, 3)
  {
    var before := ThrowingCancelOrphans();
    var e := TimerFires(0, THREE.(sender := Some(Sender(7, 4)), record := Some(Identity(true, 7, 4))));
    TickArmsAnother(Steps(Initial, before), 0, e.env, 4, 3);
    run := before + [e];
    assert run[..|run| - 1] == before;
  }
}
