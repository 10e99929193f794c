/**
  What the OMP receiver does get done: over every run, exactly when an edge or a tick arms, exactly when the
  retry goes on, and exactly what ends an arm.
*/
module ReceiverArming {
  import opened Listing
  import opened Option
  import opened ReceiverModel
  import opened ReceiverSafety

  /** Sender marker, record and vendor agree that this session is the garden `g`. */
  predicate Agreed(e: Env, g: Garden) {
    && e.native.Some? && e.sender.Some? && e.record.Some?
    && e.sender.value.native == e.native.value == e.record.value.native
    && e.record.value.omp && e.record.value.garden == g
  }

  /** They cannot tell yet: no session id, no sender marker or one of another session, no readable record. */
  predicate NotYet(e: Env) {
    e.native.None? || e.sender.None? || e.sender.value.native != e.native.value || e.record.None?
  }

  /** The session is `g`, and nothing an arm does there fails. */
  predicate Works(e: Env, g: Garden) {
    e.canRing && Agreed(e, g) && e.plausible && e.dirOk && e.watchOk && e.markOk
  }

  predicate WorksSomewhere(e: Env) {
    e.record.Some? && Works(e, e.record.value.garden)
  }

  /** Mail waiting in the mailbox of `g` that nobody stamped, all of it stamped, and the mailbox then. */
  function WaitingIn(s: State, g: Garden): Box {
    if g in s.files.boxes then s.files.boxes[g] else Box(true, {}, {})
  }

  /** The doorbell of `g` as this arm leaves it: watch, marker, signal, and a wake for mail that was there. */
  ghost predicate Holds(s: State, t: State, e: Env, g: Garden) {
    var was := WaitingIn(s, g);
    && t.unit.armed == Some(Armed(g, s.handles.ever)) && s.handles.ever in t.handles.open
    && Advertised(t, g) && g in t.files.boxes && t.files.boxes[g].signal
    && (e.guardOk ==> t.unit.guard)
    && (was.unstamped == {} ==> t.announced == s.announced)
    && (was.unstamped != {} && e.stamps.None? && e.sendOk ==>
          t.announced == s.announced + [Notice(g, |was.unstamped + was.delivered|)])
  }

  /** An arm gets as far as the mailbox of `g`. */
  predicate Reaches(e: Env, g: Garden) {
    e.canRing && Agreed(e, g) && e.plausible && e.dirOk
  }

  /** Where no arm works there is no wake, and no more in the mailboxes than a signal file for the garden it reached. */
  ghost predicate Spares(s: State, t: State, e: Env) {
    && t.announced == s.announced
    && t.files.boxes == if e.record.Some? && Reaches(e, e.record.value.garden)
                        then s.files.boxes[e.record.value.garden :=
                               WaitingIn(s, e.record.value.garden).(signal := true)]
                        else s.files.boxes
  }

  // ---- one attempt ------------------------------------------------------------------

  lemma RingHolds(s: State, e: Env, g: Garden, w: Watch)
    requires s.unit.armed == Some(Armed(g, w)) && g in s.files.boxes && s.files.boxes[g].signal
    ensures var t, was := Ring(s, e), s.files.boxes[g];
      && t.unit == s.unit && t.handles == s.handles && t.files.markers == s.files.markers
      && g in t.files.boxes && t.files.boxes[g].signal
      && (was.unstamped == {} ==> t.announced == s.announced)
      && (was.unstamped != {} && e.stamps.None? && e.sendOk ==>
            t.announced == s.announced + [Notice(g, |was.unstamped + was.delivered|)])
  {
    RingAnnounces(s, e);
    AllStamped(s.files.boxes[g], Ring(s, e).files.boxes[g], Ring(s, e).announced != s.announced, e);
  }

  lemma AllStamped(was: Box, after: Box, announced: bool, e: Env)
    requires RingEffect(was, after, announced, e)
    ensures was.unstamped == {} ==> !announced
    ensures was.unstamped != {} && e.stamps.None? && e.sendOk ==>
      announced && after.delivered == was.unstamped + was.delivered
  {
    if e.stamps.None? {
      assert after.unstamped <= was.unstamped + was.delivered;
      WholeOrLess(was.unstamped - after.unstamped, was.unstamped);
    }
  }

  lemma ArmHolds(s: State, e: Env, g: Garden)
    requires e.plausible && e.dirOk && e.watchOk && e.markOk
    ensures Holds(s, Arm(s, g, e), e, g)
    ensures var t := Arm(s, g, e); t.unit.ticks == s.unit.ticks && t.unit.retry == s.unit.retry
    ensures var t := Arm(s, g, e); t.handles.timers == s.handles.timers && t.handles.made == s.handles.made
  {
    RingHolds(Held(Opened(s, g), g, s.handles.ever, e), e, g, s.handles.ever);
  }

  /** An attempt arms exactly where it works, changes no timer, and is unsettled exactly when it is not yet time. */
  lemma Attempt(s: State, e: Env)
    ensures var (t, settled) := TryArm(s, e);
      && t.unit.ticks == s.unit.ticks && t.unit.retry == s.unit.retry
      && t.handles.timers == s.handles.timers && t.handles.made == s.handles.made
      && (!settled <==> e.canRing && NotYet(e))
      && (if WorksSomewhere(e) then Holds(s, t, e, e.record.value.garden) else t.unit == s.unit && Spares(s, t, e))
  {
    if WorksSomewhere(e) { ArmHolds(s, e, e.record.value.garden); }
  }

  // ---- an edge ----------------------------------------------------------------------

  /** The timers left once the retry of the edge before is cancelled, if the canceller works. */
  function TimersLeft(s: State, e: Env): set<Timer> {
    if s.unit.retry.Some? && e.cancelOk then s.handles.timers - {s.unit.retry.value} else s.handles.timers
  }

  /** The host is to be tried again, and can be. */
  predicate Retries(e: Env) {
    e.canRing && NotYet(e) && e.canTime && e.timeOk
  }

  /** What an edge of the host leaves armed and ticking. */
  ghost predicate EdgeLeaves(s: State, t: State, e: Env) {
    && (forall g :: ArmedAt(t, g) <==> Works(e, g))
    && t.unit.ticks == 0
    && t.unit.retry == (if Retries(e) then Some(s.handles.made) else None)
    && t.handles.timers == TimersLeft(s, e) + if Retries(e) then {s.handles.made} else {}
  }

  lemma TearsDown(s: State, e: Env)
    ensures var t := TornDown(s, e);
      && t.unit == Unit(None, None, 0, if s.unit.armed.Some? then false else s.unit.guard)
      && t.handles.timers == TimersLeft(s, e) && t.handles.made == s.handles.made
      && t.handles.ever == s.handles.ever && t.announced == s.announced && t.files.boxes == s.files.boxes
  {}

  /**
    After an edge of the host, in any run, whatever throws: the receiver is armed exactly for the garden on
    which sender marker, record and vendor agree, if all of an arm works there, and holds its watch, its marker
    and its signal and has rung for the mail that waited; and a retry begins exactly when it can ring, can
    time, and they cannot tell yet who this session is.
  */
  lemma {:induction false} AfterEdge(run: seq<Event>, e: Env)
    requires e.tui
    ensures var s, t := Steps(Initial, run), Steps(Initial, run + [Edge(e)]);
      EdgeLeaves(s, t, e) && if WorksSomewhere(e) then Holds(s, t, e, e.record.value.garden) else Spares(s, t, e)
  {
    var s := Steps(Initial, run);
    OneMore(run, Edge(e));
    EdgeDoes(s, e);
  }

  lemma EdgeDoes(s: State, e: Env)
    requires e.tui
    ensures EdgeLeaves(s, OnEdge(s, e), e)
    ensures if WorksSomewhere(e) then Holds(s, OnEdge(s, e), e, e.record.value.garden) else Spares(s, OnEdge(s, e), e)
  {
    TearsDown(s, e);
    Attempt(TornDown(s, e), e);
  }

  lemma OneMore(run: seq<Event>, ev: Event)
    ensures Steps(Initial, run + [ev]) == Step(Steps(Initial, run), ev)
  {
    var all := run + [ev];
    assert all[..|all| - 1] == run && all[|all| - 1] == ev;
  }

  // ---- a tick -----------------------------------------------------------------------

  /** This tick is not the last: they cannot tell yet, and the ticks are not used up. */
  predicate GoesOn(s: State, e: Env) {
    e.canRing && NotYet(e) && s.unit.ticks + 1 < ARM_RETRY_MAX_TICKS
  }

  ghost predicate TickLeaves(s: State, t: State, e: Env) {
    && (forall g :: ArmedAt(t, g) <==> Works(e, g) || (ArmedAt(s, g) && !WorksSomewhere(e)))
    && t.unit.ticks == s.unit.ticks + 1
    && t.unit.retry == (if GoesOn(s, e) then s.unit.retry else None)
    && t.handles.timers == if GoesOn(s, e) then s.handles.timers else TimersLeft(s, e)
  }

  /** The end of a tick changes the retry and its timer alone. */
  lemma TickEnd(s: State, settled: bool, e: Env)
    ensures var t := Ticked(s, settled, e);
      t == s.(unit := s.unit.(retry := t.unit.retry), handles := s.handles.(timers := t.handles.timers))
  {}

  lemma TickCounts(s: State, e: Env)
    ensures TickLeaves(s, Tick(s, e), e)
  {
    Attempt(Counted(s), e);
    var attempt := TryArm(Counted(s), e);
    TickEnd(attempt.0, attempt.1, e);
  }

  lemma TickDoes(s: State, e: Env)
    ensures if WorksSomewhere(e) then Holds(s, Tick(s, e), e, e.record.value.garden) else Spares(s, Tick(s, e), e)
  {
    Attempt(Counted(s), e);
    var attempt := TryArm(Counted(s), e);
    TickEnd(attempt.0, attempt.1, e);
  }

  /**
    A tick whose timer is live, in any run: it arms the garden on which they agree, exactly if all of an arm
    works there, and then its timer is given back; and the retry goes on exactly while they cannot tell yet
    and fewer than 40 ticks are used up.
  */
  lemma {:induction false} AfterTick(run: seq<Event>, timer: Timer, e: Env)
    requires timer in Steps(Initial, run).handles.timers
    ensures var s, t := Steps(Initial, run), Steps(Initial, run + [TimerFires(timer, e)]);
      TickLeaves(s, t, e) && if WorksSomewhere(e) then Holds(s, t, e, e.record.value.garden) else Spares(s, t, e)
  {
    OneMore(run, TimerFires(timer, e));
    TickCounts(Steps(Initial, run), e);
    TickDoes(Steps(Initial, run), e);
  }

  /** With cancellers that work, the live timer is the retry's own, so the tick that arms leaves none. */
  lemma {:induction false} ArmingEndsRetry(run: seq<Event>, timer: Timer, e: Env, g: Garden)
    requires forall ev :: ev in run ==> Cancels(ev)
    requires timer in Steps(Initial, run).handles.timers && e.cancelOk && Works(e, g)
    ensures var t := Steps(Initial, run + [TimerFires(timer, e)]); ArmedAt(t, g) && t.handles.timers == {}
  {
    AfterTick(run, timer, e);
    assert MarkerInv(Initial);
    ReceiverSafety.RunKeeps(Initial, run);
  }

  // ---- what ends an arm -------------------------------------------------------------

  /** Something else than an edge or a tick takes the doorbell down. */
  predicate TakesDown(s: State, ev: Event) {
    match ev
    case Signal(w, _) =>
      w in s.handles.open && s.unit.armed.Some?
      && (s.unit.armed.value.garden !in s.files.boxes || !s.files.boxes[s.unit.armed.value.garden].signal)
    case WatchError(w, _) => w in s.handles.open
    case ProcessExit(_) => s.unit.guard
    case _ => false
  }

  /**
    Between edges and ticks, in any run, a doorbell stays up exactly until its signal file is found gone, its
    watch fails or the process exits under the exit guard.
  */
  lemma {:induction false} DownOnlyFor(run: seq<Event>, ev: Event)
    requires !HostEdge(ev) && !(ev.TimerFires? && ev.timer in Steps(Initial, run).handles.timers)
    ensures var s := Steps(Initial, run);
      Steps(Initial, run + [ev]).unit.armed == if TakesDown(s, ev) then None else s.unit.armed
  {
    OneMore(run, ev);
  }
}
