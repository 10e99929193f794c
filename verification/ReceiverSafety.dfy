/** What the OMP receiver holds over every sequence of edges, ticks, watch events and exits. */
module ReceiverSafety {
  import opened Listing
  import opened Option
  import opened ReceiverModel

  function One(b: bool): nat { if b then 1 else 0 }

  /** One doorbell: its watch is open, and every other watcher ever opened was closed or got stuck. */
  predicate WatchInv(s: State) {
    var h, armed := s.handles, s.unit.armed;
    && h.ever == h.closed + h.stuck + One(armed.Some?)
    && (armed.Some? ==> armed.value.watch in h.open)
    && (forall w :: w in h.open ==> w < h.ever)
    && (h.stuck == 0 ==> h.open == if armed.Some? then {armed.value.watch} else {})
    && (s.unit.guard ==> armed.Some?)
  }

  /** One timer at most, and only while nothing is armed. */
  predicate TimerInv(s: State) {
    && s.handles.timers == (if s.unit.retry.Some? then {s.unit.retry.value} else {})
    && (s.unit.retry.Some? ==> s.unit.armed.None? && s.unit.ticks < ARM_RETRY_MAX_TICKS)
    && s.unit.ticks <= ARM_RETRY_MAX_TICKS
  }

  predicate Advertised(s: State, g: Garden) {
    g in s.files.markers && s.files.markers[g] == Us
  }

  predicate ArmedAt(s: State, g: Garden) {
    s.unit.armed.Some? && s.unit.armed.value.garden == g
  }

  /** Our marker stands for an armed garden, or we failed to take it down; and the armed one has it. */
  ghost predicate MarkerInv(s: State) {
    forall g ::
      && (Advertised(s, g) ==> ArmedAt(s, g) || g in s.files.stranded)
      && (ArmedAt(s, g) ==> Advertised(s, g) || g in s.files.replaced)
  }

  ghost predicate Inv(s: State) {
    WatchInv(s) && TimerInv(s) && MarkerInv(s)
  }

  // ---- the helpers ------------------------------------------------------------------

  lemma UnarmKeeps(s: State, e: Env)
    requires WatchInv(s) && MarkerInv(s)
    ensures var t := Unarm(s, e);
      WatchInv(t) && MarkerInv(t) && t.unit.armed.None? && t.unit.ticks == s.unit.ticks
      && t.unit.retry == s.unit.retry && t.handles.timers == s.handles.timers
  {
    var t := Unarm(s, e);
    forall g ensures Advertised(t, g) ==> ArmedAt(t, g) || g in t.files.stranded {
      assert Advertised(t, g) ==> Advertised(s, g);
    }
  }

  lemma RingKeeps(s: State, e: Env)
    requires WatchInv(s) && MarkerInv(s)
    ensures var t := Ring(s, e);
      WatchInv(t) && MarkerInv(t) && (t.unit.armed == s.unit.armed || t.unit.armed.None?)
      && t.unit.ticks == s.unit.ticks && t.unit.retry == s.unit.retry && t.handles.timers == s.handles.timers
  {
    UnarmKeeps(s, e);
    var t := Ring(s, e);
    if t.unit == s.unit {
      forall g
        ensures Advertised(t, g) ==> ArmedAt(t, g) || g in t.files.stranded
        ensures ArmedAt(t, g) ==> Advertised(t, g) || g in t.files.replaced
      {
        assert Advertised(t, g) == Advertised(s, g) && ArmedAt(t, g) == ArmedAt(s, g);
      }
    }
  }

  lemma HeldKeeps(s: State, g: Garden, e: Env)
    requires WatchInv(s) && MarkerInv(s) && s.unit.armed.None?
    ensures var t := Held(Opened(s, g), g, s.handles.ever, e); WatchInv(t) && MarkerInv(t)
  {
    var t := Held(Opened(s, g), g, s.handles.ever, e);
    forall k
      ensures Advertised(t, k) ==> ArmedAt(t, k) || k in t.files.stranded
      ensures ArmedAt(t, k) ==> Advertised(t, k)
    {
      assert k != g ==> Advertised(t, k) == Advertised(s, k) && !ArmedAt(s, k);
    }
  }

  lemma ArmKeeps(s: State, g: Garden, e: Env)
    requires WatchInv(s) && MarkerInv(s) && s.unit.armed.None?
    ensures var t := Arm(s, g, e);
      WatchInv(t) && MarkerInv(t) && t.unit.ticks == s.unit.ticks && t.unit.retry == s.unit.retry
      && t.handles.timers == s.handles.timers
  {
    HeldKeeps(s, g, e);
    var t := Arm(s, g, e);
    if e.plausible && e.dirOk && e.watchOk && e.markOk {
      RingKeeps(Held(Opened(s, g), g, s.handles.ever, e), e);
    } else {
      assert forall k :: Advertised(t, k) == Advertised(s, k) && ArmedAt(t, k) == ArmedAt(s, k);
    }
  }

  lemma TryArmKeeps(s: State, e: Env)
    requires WatchInv(s) && MarkerInv(s) && s.unit.armed.None?
    ensures var (t, settled) := TryArm(s, e);
      WatchInv(t) && MarkerInv(t) && t.unit.ticks == s.unit.ticks && t.unit.retry == s.unit.retry
      && t.handles.timers == s.handles.timers && (!settled ==> t == s)
  {
    if e.canRing && e.native.Some? && Resolve(e.native.value, e).Resolved? {
      ArmKeeps(s, Resolve(e.native.value, e).garden, e);
    }
  }

  /** Fields the markers and watchers do not depend on. */
  lemma SameFiles(s: State, t: State)
    requires WatchInv(s) && MarkerInv(s)
    requires t.unit.armed == s.unit.armed && t.unit.guard == s.unit.guard && t.files == s.files
    requires t.handles.(timers := {}, made := 0) == s.handles.(timers := {}, made := 0)
    ensures WatchInv(t) && MarkerInv(t)
  {
    assert forall g :: Advertised(t, g) == Advertised(s, g) && ArmedAt(t, g) == ArmedAt(s, g);
  }

  // ---- the steps --------------------------------------------------------------------

  lemma EdgeKeeps(s: State, e: Env)
    requires Inv(s) && e.cancelOk
    ensures Inv(OnEdge(s, e))
  {
    if e.tui {
      var c := CancelRetry(s, e);
      SameFiles(s, c);
      UnarmKeeps(c, e);
      var d := TornDown(s, e);
      SameFiles(Unarm(c, e), d);
      TryArmKeeps(d, e);
      var (t, settled) := TryArm(d, e);
      SameFiles(t, StartRetry(t, e));
    }
  }

  lemma TickEnds(s: State, u: State, settled: bool, e: Env)
    requires TimerInv(s) && s.unit.retry.Some? && e.cancelOk && WatchInv(u) && MarkerInv(u)
    requires u.unit.ticks == s.unit.ticks + 1 && u.unit.retry == s.unit.retry
    requires u.handles.timers == s.handles.timers && (!settled ==> u.unit.armed.None?)
    ensures Inv(Ticked(u, settled, e)) && Ticked(u, settled, e).unit.ticks == u.unit.ticks
  {
    SameFiles(u, CancelRetry(u, e));
  }

  lemma TickKeeps(s: State, t: Timer, e: Env)
    requires Inv(s) && e.cancelOk && t in s.handles.timers
    ensures Inv(Tick(s, e))
    ensures Tick(s, e).unit.ticks == s.unit.ticks + 1
  {
    SameFiles(s, Counted(s));
    TryArmKeeps(Counted(s), e);
    var attempt := TryArm(Counted(s), e);
    TickEnds(s, attempt.0, attempt.1, e);
  }

  lemma ForeignKeeps(s: State, g: Garden, owner: Option<nat>)
    requires Inv(s)
    ensures Inv(Step(s, Foreign(g, owner)))
  {
    var t := Step(s, Foreign(g, owner));
    assert forall k :: ArmedAt(t, k) == ArmedAt(s, k) && (k != g ==> Advertised(t, k) == Advertised(s, k));
    assert !Advertised(t, g);
  }

  lemma StepKeeps(s: State, ev: Event)
    requires Inv(s) && Cancels(ev)
    ensures Inv(Step(s, ev))
  {
    match ev
    case Edge(e) => EdgeKeeps(s, e);
    case TimerFires(t, e) => if t in s.handles.timers { TickKeeps(s, t, e); }
    case Signal(_, e) => RingKeeps(s, e);
    case WatchError(_, e) => UnarmKeeps(s, e);
    case ProcessExit(e) => UnarmKeeps(s, e);
    case Foreign(g, owner) => ForeignKeeps(s, g, owner);
    case Mailbox(_, _) =>
      var t := Step(s, ev);
      assert forall k :: ArmedAt(t, k) == ArmedAt(s, k) && Advertised(t, k) == Advertised(s, k);
  }

  lemma {:induction false} RunKeeps(s: State, run: seq<Event>)
    requires Inv(s) && forall ev :: ev in run ==> Cancels(ev)
    ensures Inv(Steps(s, run))
    decreases |run|
  {
    if run != [] {
      RunKeeps(s, run[..|run| - 1]);
      StepKeeps(Steps(s, run[..|run| - 1]), run[|run| - 1]);
    }
  }

  // ---- the promises -----------------------------------------------------------------

  /**
    With a canceller that works, over every run: watchers opened and not closed are the armed one and
    those whose close threw; at most one retry timer is live, and only while nothing is armed.
  */
  lemma {:induction false} ResourcesBalance(run: seq<Event>)
    requires forall ev :: ev in run ==> Cancels(ev)
    ensures var s := Steps(Initial, run);
      && s.handles.ever - s.handles.closed == One(s.unit.armed.Some?) + s.handles.stuck
      && |s.handles.timers| <= 1 && (s.unit.armed.Some? ==> s.handles.timers == {})
      && (s.unit.armed.Some? ==> s.unit.armed.value.watch in s.handles.open)
  {
    assert MarkerInv(Initial);
    RunKeeps(Initial, run);
  }

  ghost predicate NoneLeft(s: State) {
    s.files.stranded == {} && s.handles.stuck == 0
  }

  lemma UnarmLeaves(s: State, e: Env)
    requires NoneLeft(s) && e.removeOk && e.closeOk
    ensures NoneLeft(Unarm(s, e)) && NoneLeft(Ring(s, e))
  {}

  lemma TryArmLeaves(s: State, e: Env)
    requires NoneLeft(s) && e.removeOk && e.closeOk
    ensures NoneLeft(TryArm(s, e).0)
  {
    if e.canRing && e.native.Some? && Resolve(e.native.value, e).Resolved? {
      UnarmLeaves(Held(Opened(s, Resolve(e.native.value, e).garden),
                       Resolve(e.native.value, e).garden, s.handles.ever, e), e);
    }
  }

  lemma RemovingStep(s: State, ev: Event)
    requires NoneLeft(s) && Removes(ev) && Closes(ev)
    ensures NoneLeft(Step(s, ev))
  {
    match ev
    case Edge(e) => UnarmLeaves(CancelRetry(s, e), e); TryArmLeaves(TornDown(s, e), e);
    case TimerFires(_, e) => TryArmLeaves(Counted(s), e);
    case Signal(_, e) => UnarmLeaves(s, e);
    case WatchError(_, e) => UnarmLeaves(s, e);
    case ProcessExit(e) => UnarmLeaves(s, e);
    case _ =>
  }

  lemma {:induction false} NothingLeftBehind(run: seq<Event>)
    requires forall ev :: ev in run ==> Removes(ev) && Closes(ev)
    ensures NoneLeft(Steps(Initial, run))
    decreases |run|
  {
    if run != [] {
      NothingLeftBehind(run[..|run| - 1]);
      RemovingStep(Steps(Initial, run[..|run| - 1]), run[|run| - 1]);
    }
  }

  /**
    A marker naming our pid means that garden is armed, with an open watch — and the armed garden has
    that marker unless another process wrote over it. After a session switch the garden left is not
    advertised.
  */
  lemma {:induction false} MarkerMeansArmed(run: seq<Event>, g: Garden)
    requires forall ev :: ev in run ==> Cancels(ev) && Removes(ev) && Closes(ev)
    ensures var s := Steps(Initial, run);
      && (Advertised(s, g) ==> ArmedAt(s, g) && s.handles.open == {s.unit.armed.value.watch})
      && (ArmedAt(s, g) && g !in s.files.replaced ==> Advertised(s, g))
  {
    assert MarkerInv(Initial);
    RunKeeps(Initial, run);
    NothingLeftBehind(run);
  }

  /** How many of the timer callbacks of `run` find their timer live. */
  function LiveTicks(s: State, run: seq<Event>): nat
    decreases |run|
  {
    if run == [] then 0
    else
      var before, ev := Steps(s, run[..|run| - 1]), run[|run| - 1];
      LiveTicks(s, run[..|run| - 1]) + One(ev.TimerFires? && ev.timer in before.handles.timers)
  }

  /** The ticks counted since an edge are the ticks spent: at most 40 until the next edge of the host. */
  lemma {:induction false} EdgeCostsFortyTicks(s: State, run: seq<Event>)
    requires Inv(s) && forall ev :: ev in run ==> Cancels(ev) && (ev.Edge? ==> !ev.env.tui)
    ensures LiveTicks(s, run) == Steps(s, run).unit.ticks - s.unit.ticks
    ensures LiveTicks(s, run) <= ARM_RETRY_MAX_TICKS
    decreases |run|
  {
    if run != [] {
      var before, ev := run[..|run| - 1], run[|run| - 1];
      EdgeCostsFortyTicks(s, before);
      RunKeeps(s, before);
      var m := Steps(s, before);
      if ev.TimerFires? && ev.timer in m.handles.timers {
        TickKeeps(m, ev.timer, ev.env);
      } else if ev.Signal? {
        RingKeeps(m, ev.env);
      }
    }
  }

  /** An edge of the host forgets the ticks of the edge before it. */
  lemma EdgeResets(s: State, e: Env)
    requires Inv(s) && e.cancelOk && e.tui
    ensures OnEdge(s, e).unit.ticks == 0
  {
    var c := CancelRetry(s, e);
    SameFiles(s, c);
    UnarmKeeps(c, e);
    SameFiles(Unarm(c, e), TornDown(s, e));
    TryArmKeeps(TornDown(s, e), e);
  }

  predicate HostEdge(ev: Event) {
    ev.Edge? && ev.env.tui
  }

  function HostEdges(run: seq<Event>): nat
    decreases |run|
  {
    if run == [] then 0 else HostEdges(run[..|run| - 1]) + One(HostEdge(run[|run| - 1]))
  }

  /** What one event does to the ticks counted since the last host edge, and that timers need such an edge. */
  lemma TicksMove(s: State, ev: Event)
    requires Inv(s) && Cancels(ev)
    ensures var t := Step(s, ev);
      && (HostEdge(ev) ==> t.unit.ticks == 0)
      && (!HostEdge(ev) ==>
            t.unit.ticks == s.unit.ticks + One(ev.TimerFires? && ev.timer in s.handles.timers)
            && (s.unit.retry.None? ==> t.unit.retry.None?))
  {
    match ev
    case Edge(e) => if e.tui { EdgeResets(s, e); }
    case TimerFires(t, e) => if t in s.handles.timers { TickKeeps(s, t, e); }
    case Signal(_, e) => RingKeeps(s, e);
    case WatchError(_, e) => UnarmKeeps(s, e);
    case ProcessExit(e) => UnarmKeeps(s, e);
    case _ =>
  }

  lemma {:induction false} TicksSpent(run: seq<Event>)
    requires forall ev :: ev in run ==> Cancels(ev)
    ensures var s, edges := Steps(Initial, run), HostEdges(run);
      && (edges == 0 ==> s.unit.retry.None? && LiveTicks(Initial, run) == 0)
      && (edges > 0 ==> LiveTicks(Initial, run) <= ARM_RETRY_MAX_TICKS * (edges - 1) + s.unit.ticks)
    decreases |run|
  {
    if run != [] {
      var before, ev := run[..|run| - 1], run[|run| - 1];
      assert MarkerInv(Initial);
      TicksSpent(before);
      RunKeeps(Initial, before);
      RunKeeps(Initial, run);
      TicksMove(Steps(Initial, before), ev);
    }
  }

  /** Over a whole run, no more than 40 live ticks for each edge of the host. */
  lemma {:induction false} FortyTicksAnEdge(run: seq<Event>)
    requires forall ev :: ev in run ==> Cancels(ev)
    ensures LiveTicks(Initial, run) <= ARM_RETRY_MAX_TICKS * HostEdges(run)
  {
    assert MarkerInv(Initial);
    TicksSpent(run);
    RunKeeps(Initial, run);
  }

  /** The run without the edges of other modes. */
  function HostRun(run: seq<Event>): seq<Event>
    decreases |run|
  {
    if run == [] then []
    else
      var before, ev := HostRun(run[..|run| - 1]), run[|run| - 1];
      if ev.Edge? && !ev.env.tui then before else before + [ev]
  }

  /** Sessions of another mode — subagents share this process — might as well not be there. */
  lemma {:induction false} OtherModesAreIgnored(s: State, run: seq<Event>)
    ensures Steps(s, HostRun(run)) == Steps(s, run)
    decreases |run|
  {
    if run != [] {
      var before, ev := run[..|run| - 1], run[|run| - 1];
      OtherModesAreIgnored(s, before);
      if !(ev.Edge? && !ev.env.tui) {
        assert HostRun(run)[..|HostRun(run)| - 1] == HostRun(before);
      }
    }
  }

  /** How many of the `n` renames of a ring go through. */
  function Renamed(stamps: Option<nat>, n: nat): nat {
    if stamps.Some? && stamps.value < n then stamps.value else n
  }

  /** What a ring's renames do to a mailbox: the first names of the listing move, as many as can. */
  lemma MovesFirst(b: Box, stamps: Option<nat>)
    ensures var names := Ascending(b.unstamped);
      var cut := Names(Stamped(names, stamps));
      && Moved(b, Stamped(names, stamps)) == Box(b.signal, b.unstamped - cut, b.delivered + cut)
      && cut <= b.unstamped && |cut| == Renamed(stamps, |b.unstamped|)
      && (forall x, y :: x in cut && y in b.unstamped - cut ==> x < y)
      && (Stamped(names, stamps) == names <==> |cut| == |b.unstamped|)
  {
    var names := Ascending(b.unstamped);
    assert names[..|names|] == names;
    ListingCounts(b.unstamped);
    ListingCut(b.unstamped, |Stamped(names, stamps)|);
  }

  lemma WholeOrLess(part: set<Name>, whole: set<Name>)
    requires part <= whole
    ensures whole - (whole - part) == part && (|part| == |whole| <==> whole - part == {})
  {
    assert whole == part + (whole - part);
    assert |whole| == |part| + |whole - part|;
  }

  /** The mailbox after a ring of which `cut` was renamed, and what was announced. */
  lemma RingMoves(s: State, e: Env)
    requires s.unit.armed.Some? && s.unit.armed.value.garden in s.files.boxes
    requires s.files.boxes[s.unit.armed.value.garden].signal
    ensures var g, t := s.unit.armed.value.garden, Ring(s, e);
      var before := s.files.boxes[g];
      var cut := Names(Stamped(Ascending(before.unstamped), e.stamps));
      var after := Box(true, before.unstamped - cut, before.delivered + cut);
      && t == s.(files := s.files.(boxes := s.files.boxes[g := after]), announced := t.announced)
      && t.announced == if before.unstamped != {} && |cut| == |before.unstamped| && e.sendOk
                        then s.announced + [Notice(g, |after.delivered|)] else s.announced
  {
    var g := s.unit.armed.value.garden;
    var box := s.files.boxes[g];
    var names := Ascending(box.unstamped);
    MovesFirst(box, e.stamps);
    if names == [] {
      assert box.unstamped == {};
      assert box == Box(true, box.unstamped - {}, box.delivered + {});
      assert s.files.boxes == s.files.boxes[g := box];
    } else {
      assert names[0] in box.unstamped;
    }
  }

  /** What a ring does to a mailbox and what it announces of it. */
  ghost predicate RingEffect(before: Box, after: Box, announced: bool, e: Env) {
    && before.unstamped + before.delivered == after.unstamped + after.delivered
    && after.unstamped <= before.unstamped && after.signal
    && |before.unstamped - after.unstamped| == Renamed(e.stamps, |before.unstamped|)
    && (forall x, y :: x in before.unstamped - after.unstamped && y in after.unstamped ==> x < y)
    && (announced <==> before.unstamped != {} && after.unstamped == {} && e.sendOk)
  }

  lemma CutEffect(before: Box, cut: set<Name>, e: Env)
    requires cut <= before.unstamped && |cut| == Renamed(e.stamps, |before.unstamped|)
    requires forall x, y :: x in cut && y in before.unstamped - cut ==> x < y
    ensures RingEffect(before, Box(true, before.unstamped - cut, before.delivered + cut),
                       before.unstamped != {} && |cut| == |before.unstamped| && e.sendOk, e)
  {
    WholeOrLess(cut, before.unstamped);
  }

  /** What a ring leaves of the receiver, and of the mailbox of `g`. */
  ghost predicate RingLeaves(s: State, t: State, g: Garden, e: Env)
    requires g in s.files.boxes
  {
    && t.unit == s.unit && t.handles == s.handles && g in t.files.boxes
    && t.files == s.files.(boxes := s.files.boxes[g := t.files.boxes[g]])
    && RingEffect(s.files.boxes[g], t.files.boxes[g], t.announced != s.announced, e)
    && (t.announced != s.announced ==> t.announced == s.announced + [Notice(g, |t.files.boxes[g].delivered|)])
  }

  lemma CutLeaves(s: State, t: State, g: Garden, cut: set<Name>, e: Env)
    requires g in s.files.boxes && cut <= s.files.boxes[g].unstamped
    requires |cut| == Renamed(e.stamps, |s.files.boxes[g].unstamped|)
    requires forall x, y :: x in cut && y in s.files.boxes[g].unstamped - cut ==> x < y
    requires var before := s.files.boxes[g];
      var after := Box(true, before.unstamped - cut, before.delivered + cut);
      && t == s.(files := s.files.(boxes := s.files.boxes[g := after]), announced := t.announced)
      && t.announced == if before.unstamped != {} && |cut| == |before.unstamped| && e.sendOk
                        then s.announced + [Notice(g, |after.delivered|)] else s.announced
    ensures RingLeaves(s, t, g, e)
  {
    CutEffect(s.files.boxes[g], cut, e);
  }

  /**
    The doorbell: the oldest new mail is stamped first, as much as can be renamed; a wake is announced exactly
    when there was new mail, all of it is stamped and the send works, it counts everything then stamped, and
    mail already stamped is never announced alone.
  */
  lemma {:induction false} RingAnnounces(s: State, e: Env)
    requires s.unit.armed.Some? && s.unit.armed.value.garden in s.files.boxes
    requires s.files.boxes[s.unit.armed.value.garden].signal
    ensures RingLeaves(s, Ring(s, e), s.unit.armed.value.garden, e)
  {
    var g := s.unit.armed.value.garden;
    RingMoves(s, e);
    MovesFirst(s.files.boxes[g], e.stamps);
    CutLeaves(s, Ring(s, e), g, Names(Stamped(Ascending(s.files.boxes[g].unstamped), e.stamps)), e);
  }

  predicate ForeignAt(s: State, g: Garden, pid: nat) {
    g in s.files.markers && s.files.markers[g] == Other(pid)
  }

  lemma UnarmSpares(s: State, e: Env, g: Garden, pid: nat)
    requires ForeignAt(s, g, pid)
    ensures ForeignAt(Unarm(s, e), g, pid) && ForeignAt(Ring(s, e), g, pid)
  {}

  lemma TryArmSpares(s: State, e: Env, g: Garden, pid: nat)
    requires ForeignAt(s, g, pid) && !ArmsAt(e, g)
    ensures ForeignAt(TryArm(s, e).0, g, pid)
  {
    if e.canRing && e.native.Some? && Resolve(e.native.value, e).Resolved? {
      var k := Resolve(e.native.value, e).garden;
      if e.plausible && e.dirOk && e.watchOk && e.markOk {
        UnarmSpares(Held(Opened(s, k), k, s.handles.ever, e), e, g, pid);
      }
    }
  }

  /** A marker another process owns stays as it is through every step of ours but an arm of that very garden. */
  lemma {:induction false} ForeignMarkersSurvive(s: State, ev: Event, g: Garden, pid: nat)
    requires ForeignAt(s, g, pid) && !(ev.Foreign? && ev.garden == g)
    requires ev.Edge? || ev.TimerFires? ==> !ArmsAt(ev.env, g)
    ensures ForeignAt(Step(s, ev), g, pid)
  {
    match ev
    case Edge(e) =>
      UnarmSpares(CancelRetry(s, e), e, g, pid);
      TryArmSpares(TornDown(s, e), e, g, pid);
    case TimerFires(_, e) => TryArmSpares(Counted(s), e, g, pid);
    case Signal(_, e) => UnarmSpares(s, e, g, pid);
    case WatchError(_, e) => UnarmSpares(s, e, g, pid);
    case ProcessExit(e) => UnarmSpares(s, e, g, pid);
    case _ =>
  }

  /** This event arms `g`: for the session the vendor names then, its sender marker and its record agree on it. */
  predicate Agrees(ev: Event, g: Garden) {
    && (HostEdge(ev) || ev.TimerFires?)
    && ev.env.native.Some? && ev.env.sender.Some? && ev.env.record.Some?
    && ev.env.sender.value.native == ev.env.native.value == ev.env.record.value.native
    && ev.env.record.value.omp && ev.env.record.value.garden == g
  }

  lemma ArmedStays(s: State, e: Env, g: Garden)
    ensures ArmedAt(Ring(s, e), g) || ArmedAt(Unarm(s, e), g) ==> ArmedAt(s, g)
  {}

  lemma TryArmAgrees(s: State, e: Env, g: Garden)
    requires !ArmedAt(s, g) && ArmedAt(TryArm(s, e).0, g)
    ensures Agrees(TimerFires(0, e), g)
  {
    if e.canRing && e.native.Some? && Resolve(e.native.value, e).Resolved? {
      var k := Resolve(e.native.value, e).garden;
      ArmedStays(Held(Opened(s, k), k, s.handles.ever, e), e, g);
    }
  }

  lemma StepAgrees(s: State, ev: Event, g: Garden)
    requires ArmedAt(Step(s, ev), g)
    ensures Agrees(ev, g) || (ArmedAt(s, g) && !HostEdge(ev))
  {
    match ev
    case Edge(e) =>
      if e.tui {
        assert TornDown(s, e).unit.armed.None?;
        TryArmAgrees(TornDown(s, e), e, g);
      }
    case TimerFires(_, e) => if !ArmedAt(s, g) { TryArmAgrees(Counted(s), e, g); }
    case Signal(_, e) => ArmedStays(s, e, g);
    case WatchError(_, e) => ArmedStays(s, e, g);
    case ProcessExit(e) => ArmedStays(s, e, g);
    case _ =>
  }

  /**
    Whoever is armed, in any run: some event armed it for the session the vendor named then, on which marker
    and record agreed, and no edge of the host has happened since.
  */
  lemma {:induction false} ArmsForWhoeverIsHere(run: seq<Event>, g: Garden) returns (i: nat)
    requires ArmedAt(Steps(Initial, run), g)
    ensures i < |run| && Agrees(run[i], g)
    ensures forall k :: i < k < |run| ==> !HostEdge(run[k])
    decreases |run|
  {
    var before, ev := run[..|run| - 1], run[|run| - 1];
    StepAgrees(Steps(Initial, before), ev, g);
    if Agrees(ev, g) {
      i := |run| - 1;
    } else {
      i := ArmsForWhoeverIsHere(before, g);
      assert forall k :: 0 <= k < |before| ==> before[k] == run[k];
    }
  }
}
