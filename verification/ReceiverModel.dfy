/**
  The OMP receiver as a transition system: one step is one edge, retry tick, watch event or exit,
  which runs to its end before the next. What the vendor and the file system answer comes with
  the event.
*/
module ReceiverModel {
  import opened Listing
  import opened Option

  const ARM_RETRY_MAX_TICKS: nat := 40

  type Garden = nat
  type Native = nat
  type Watch = nat
  type Timer = nat

  datatype Owner = Us | Other(pid: nat)

  datatype Armed = Armed(garden: Garden, watch: Watch)

  /** The fields of the receiver. `ringing` and `pending` are idle between steps. */
  datatype Unit = Unit(armed: Option<Armed>, retry: Option<Timer>, ticks: nat, guard: bool)

  /** What is open; `stuck` counts the watchers whose close threw. */
  datatype Handles = Handles(open: set<Watch>, ever: nat, closed: nat, stuck: nat, timers: set<Timer>, made: nat)

  datatype Box = Box(signal: bool, unstamped: set<Name>, delivered: set<Name>)

  /** `stranded`: gardens whose marker we could not remove; `replaced`: marker written by others since ours. */
  datatype Files = Files(
    markers: map<Garden, Owner>, boxes: map<Garden, Box>, stranded: set<Garden>, replaced: set<Garden>)

  datatype Notice = Notice(garden: Garden, unread: nat)

  datatype State = State(unit: Unit, handles: Handles, files: Files, announced: seq<Notice>)

  const Initial: State :=
    State(Unit(None, None, 0, false), Handles({}, 0, 0, 0, {}, 0), Files(map[], map[], {}, {}), [])

  datatype Sender = Sender(native: Native, garden: Garden)
  datatype Identity = Identity(omp: bool, native: Native, garden: Garden)

  datatype Env = Env(
    tui: bool,
    canRing: bool,
    native: Option<Native>,        // the session id the vendor reports now
    sender: Option<Sender>,        // the live sender marker of this pid
    record: Option<Identity>,      // the record of the sender's garden, if readable
    plausible: bool,               // our pid may own a marker
    dirOk: bool, watchOk: bool, markOk: bool, guardOk: bool,
    canTime: bool, timeOk: bool,   // both timer functions exist; setInterval did not throw
    cancelOk: bool, closeOk: bool, removeOk: bool,
    stamps: Option<nat>,           // how many renames succeed before one throws
    sendOk: bool)

  // ---- who this session is ----------------------------------------------------------

  datatype Resolution = Resolved(garden: Garden) | Refused(retryable: bool)

  function Resolve(native: Native, e: Env): Resolution {
    if e.sender.None? then Refused(true)
    else if e.sender.value.native != native then Refused(true)
    else if e.record.None? then Refused(true)
    else if !e.record.value.omp || e.record.value.native != native then Refused(false)
    else Resolved(e.record.value.garden)
  }

  // ---- the helpers ------------------------------------------------------------------

  function CancelRetry(s: State, e: Env): State {
    var t := s.(unit := s.unit.(retry := None));
    if s.unit.retry.None? || !e.cancelOk then t
    else t.(handles := t.handles.(timers := t.handles.timers - {s.unit.retry.value}))
  }

  function CloseWatch(h: Handles, w: Watch, ok: bool): Handles {
    if ok then h.(open := h.open - {w}, closed := h.closed + 1) else h.(stuck := h.stuck + 1)
  }

  function GiveBack(f: Files, g: Garden, ok: bool): Files {
    if g !in f.markers || f.markers[g] != Us then f
    else if ok then f.(markers := f.markers - {g})
    else f.(stranded := f.stranded + {g})
  }

  function Unarm(s: State, e: Env): State {
    if s.unit.armed.None? then s
    else
      var a := s.unit.armed.value;
      s.(unit := s.unit.(armed := None, guard := false),
         handles := CloseWatch(s.handles, a.watch, e.closeOk),
         files := GiveBack(s.files, a.garden, e.removeOk))
  }

  /** The names of `names` that were renamed before the first rename that throws. */
  function Stamped(names: seq<Name>, stamps: Option<nat>): seq<Name> {
    if stamps.Some? && stamps.value < |names| then names[..stamps.value] else names
  }

  function Moved(b: Box, names: seq<Name>): Box {
    b.(unstamped := b.unstamped - Names(names), delivered := b.delivered + Names(names))
  }

  function Ring(s: State, e: Env): State {
    if s.unit.armed.None? then s
    else
      var g := s.unit.armed.value.garden;
      if g !in s.files.boxes || !s.files.boxes[g].signal then Unarm(s, e)
      else
        var box := s.files.boxes[g];
        var names := Ascending(box.unstamped);
        var stamped := Stamped(names, e.stamps);
        if names == [] then s
        else
          var after := Moved(box, stamped);
          var t := s.(files := s.files.(boxes := s.files.boxes[g := after]));
          if stamped == names && e.sendOk then
            t.(announced := t.announced + [Notice(g, |after.delivered|)])
          else t
  }

  function WithSignal(boxes: map<Garden, Box>, g: Garden): map<Garden, Box> {
    boxes[g := if g in boxes then boxes[g].(signal := true) else Box(true, {}, {})]
  }

  function Opened(s: State, g: Garden): State {
    s.(handles := s.handles.(open := s.handles.open + {s.handles.ever}, ever := s.handles.ever + 1),
       files := s.files.(boxes := WithSignal(s.files.boxes, g)))
  }

  /** Watch and marker are there: the doorbell is held. */
  function Held(s: State, g: Garden, w: Watch, e: Env): State {
    s.(unit := s.unit.(armed := Some(Armed(g, w)), guard := s.unit.guard || e.guardOk),
       files := s.files.(markers := s.files.markers[g := Us],
                         stranded := s.files.stranded - {g}, replaced := s.files.replaced - {g}))
  }

  /** Every check and step of an arm at `g` goes through. */
  predicate ArmsAt(e: Env, g: Garden) {
    && e.canRing && e.native.Some? && Resolve(e.native.value, e) == Resolved(g)
    && e.plausible && e.dirOk && e.watchOk && e.markOk
  }

  function Arm(s: State, g: Garden, e: Env): State {
    if !e.plausible || !e.dirOk then s
    else if !e.watchOk then s.(files := s.files.(boxes := WithSignal(s.files.boxes, g)))
    else
      var t := Opened(s, g);
      if !e.markOk then t.(handles := CloseWatch(t.handles, s.handles.ever, e.closeOk))
      else Ring(Held(t, g, s.handles.ever, e), e)
  }

  /** The second result: the attempt is settled, there is nothing to retry. */
  function TryArm(s: State, e: Env): (State, bool) {
    if !e.canRing then (s, true)
    else if e.native.None? then (s, false)
    else
      match Resolve(e.native.value, e)
      case Refused(retryable) => (s, !retryable)
      case Resolved(g) => (Arm(s, g, e), true)
  }

  function StartRetry(s: State, e: Env): State {
    if !e.canTime || !e.timeOk then s
    else
      var t := s.handles.made;
      s.(unit := s.unit.(retry := Some(t)),
         handles := s.handles.(timers := s.handles.timers + {t}, made := t + 1))
  }

  // ---- the steps --------------------------------------------------------------------

  function TornDown(s: State, e: Env): State {
    var t := Unarm(CancelRetry(s, e), e);
    t.(unit := t.unit.(ticks := 0))
  }

  function OnEdge(s: State, e: Env): State {
    if !e.tui then s
    else
      var (t, settled) := TryArm(TornDown(s, e), e);
      if settled then t else StartRetry(t, e)
  }

  function Counted(s: State): State {
    s.(unit := s.unit.(ticks := s.unit.ticks + 1))
  }

  /** The end of a tick: settled, given up, or to be repeated. */
  function Ticked(s: State, settled: bool, e: Env): State {
    if settled || s.unit.ticks >= ARM_RETRY_MAX_TICKS then CancelRetry(s, e) else s
  }

  function Tick(s: State, e: Env): State {
    var attempt := TryArm(Counted(s), e);
    Ticked(attempt.0, attempt.1, e)
  }

  datatype Event =
    | Edge(env: Env)
    | TimerFires(timer: Timer, env: Env)
    | Signal(watch: Watch, env: Env)
    | WatchError(watch: Watch, env: Env)
    | ProcessExit(env: Env)
    | Foreign(garden: Garden, owner: Option<nat>)        // another process writes or removes a marker
    | Mailbox(garden: Garden, box: Option<Box>)          // senders, readers and fresh cuts

  function Step(s: State, ev: Event): State {
    match ev
    case Edge(e) => OnEdge(s, e)
    case TimerFires(t, e) => if t in s.handles.timers then Tick(s, e) else s
    case Signal(w, e) => if w in s.handles.open then Ring(s, e) else s
    case WatchError(w, e) => if w in s.handles.open then Unarm(s, e) else s
    case ProcessExit(e) => if s.unit.guard then Unarm(s, e) else s
    case Foreign(g, owner) =>
      var m := if owner.Some? then s.files.markers[g := Other(owner.value)] else s.files.markers - {g};
      s.(files := s.files.(markers := m, replaced := s.files.replaced + {g}))
    case Mailbox(g, box) =>
      s.(files := s.files.(boxes := if box.Some? then s.files.boxes[g := box.value] else s.files.boxes - {g}))
  }

  function Steps(s: State, run: seq<Event>): State
    decreases |run|
  {
    if run == [] then s else Step(Steps(s, run[..|run| - 1]), run[|run| - 1])
  }

  /** The vendor's canceller works in this event. */
  predicate Cancels(ev: Event) {
    match ev
    case Edge(e) => e.cancelOk
    case TimerFires(_, e) => e.cancelOk
    case _ => true
  }

  predicate Removes(ev: Event) {
    match ev
    case Edge(e) => e.removeOk
    case TimerFires(_, e) => e.removeOk
    case Signal(_, e) => e.removeOk
    case WatchError(_, e) => e.removeOk
    case ProcessExit(e) => e.removeOk
    case _ => true
  }

  predicate Closes(ev: Event) {
    match ev
    case Edge(e) => e.closeOk
    case TimerFires(_, e) => e.closeOk
    case Signal(_, e) => e.closeOk
    case WatchError(_, e) => e.closeOk
    case ProcessExit(e) => e.closeOk
    case _ => true
  }
}
