/**
  Many Claude hook processes over one shared store, as a transition system.

  A hook process runs to its end without sharing memory with any other, so it is a program
  counter over the store: one step is one file operation. Records are created exclusively and
  rewritten by read-then-write; the record-arm lock of a garden is granted only when it is absent or
  its holder is dead (module ArmLock shows why at most one live process has it), and may be refused
  even then: a primitive that throws, or files a death left behind, read as busy too. An attach
  incarnation is unique to the hook that minted it, so the hook's own id stands for it.
*/
module HookModel {
  import opened Option

  type Garden = nat
  type Native = nat
  type Pid = nat
  type HookId = nat

  datatype Record = Record(native: Native, inc: Option<HookId>)
  datatype Marker = Marker(owner: Pid, inc: HookId)

  datatype Write =
    | Created(garden: Garden) | Attached(garden: Garden) | Retired(garden: Garden)
    | Pointed(garden: Garden) | Marked(garden: Garden)

  /** The next file operation of a hook process. */
  datatype Pc =
    | Lookup
    | CreateDecide                                // certify again and decide to create
    | CreatePublish                               // link the new record
    | LookupAgain                                 // somebody published in between
    | TakeLock(garden: Garden)
    | AttachRead(garden: Garden)
    | AttachWrite(garden: Garden, record: Record)
    | ReadPointer(garden: Garden)
    | RetireRead(garden: Garden, previous: Garden)
    | RetireUnlink(garden: Garden, previous: Garden)
    | WritePointer(garden: Garden)
    | WriteMarker(garden: Garden)
    | Unlock(garden: Garden)
    | Exited(busy: bool)

  /** `arms`: the event can arm a watch. `owner`: the validated Claude pid, if there is one. */
  datatype Hook = Hook(arms: bool, native: Native, owner: Option<Pid>, pc: Pc, writes: seq<Write>)

  datatype Store = Store(
    records: map<Garden, Record>,
    locks: map<Garden, HookId>,
    markers: map<Garden, Marker>,     // the receiver markers
    senders: map<Pid, Garden>)        // the sender pointers

  datatype State = State(
    store: Store,
    hooks: map<HookId, Hook>,
    dead: set<HookId>,
    // history
    committed: set<HookId>,           // hooks whose minted incarnation reached a record
    unpaired: set<Garden>,            // gardens whose last committed arm has not written its marker
    excused: set<Garden>)             // gardens where an arm was ownerless, failed to mark, or died half-way

  const Initial: State := State(Store(map[], map[], map[], map[]), map[], {}, {}, {}, {})

  // ---- the store --------------------------------------------------------------------

  /** A store is certified when no two records name one native session. */
  predicate Certified(records: map<Garden, Record>) {
    forall g, k :: g in records && k in records && records[g].native == records[k].native ==> g == k
  }

  ghost function Find(records: map<Garden, Record>, native: Native): (r: Option<Garden>)
    ensures r.Some? ==> r.value in records && records[r.value].native == native
    ensures r.None? ==> forall g :: g in records ==> records[g].native != native
  {
    if g :| g in records && records[g].native == native then Some(g) else None
  }

  predicate LockFree(s: State, g: Garden) {
    g !in s.store.locks || s.store.locks[g] in s.dead
  }

  // ---- one step of a hook -----------------------------------------------------------

  function Goto(s: State, h: HookId, pc: Pc): State
    requires h in s.hooks
  {
    s.(hooks := s.hooks[h := s.hooks[h].(pc := pc)])
  }

  function Wrote(s: State, h: HookId, w: Write, store: Store, pc: Pc): State
    requires h in s.hooks
  {
    s.(store := store, hooks := s.hooks[h := s.hooks[h].(pc := pc, writes := s.hooks[h].writes + [w])])
  }

  /** Where `main` goes on once the record is committed. */
  function AfterCommit(hook: Hook, g: Garden): Pc {
    if hook.owner.None? then Unlock(g)
    else if hook.arms then ReadPointer(g)
    else WritePointer(g)
  }

  /** Between the record's new binding and the marker that copies it. */
  predicate HalfArmed(pc: Pc) {
    pc.ReadPointer? || pc.RetireRead? || pc.RetireUnlink? || pc.WritePointer? || pc.WriteMarker?
  }

  /** Learning the garden, creating its record if there is none, and taking its lock. */
  ghost function Admit(s: State, h: HookId, minted: Garden, ok: bool): State
    requires h in s.hooks
  {
    var hook, st := s.hooks[h], s.store;
    match hook.pc
    case Lookup =>
      if !Certified(st.records) then Goto(s, h, Exited(false))
      else if Find(st.records, hook.native).Some? then
        Goto(s, h, TakeLock(Find(st.records, hook.native).value))
      else Goto(s, h, CreateDecide)
    case CreateDecide =>
      if !Certified(st.records) then Goto(s, h, Exited(false))
      else Goto(s, h, if Find(st.records, hook.native).Some? then LookupAgain else CreatePublish)
    case CreatePublish =>
      if minted in st.records || !ok then Goto(s, h, Exited(false))
      else
        var t := st.(records := st.records[minted := Record(hook.native, None)]);
        Wrote(s, h, Created(minted), t, if hook.arms then TakeLock(minted) else AfterCommit(hook, minted))
    case LookupAgain =>
      if !Certified(st.records) || Find(st.records, hook.native).None? then Goto(s, h, Exited(false))
      else Goto(s, h, TakeLock(Find(st.records, hook.native).value))
    case TakeLock(g) =>
      if !ok then Goto(s, h, Exited(true))
      else if LockFree(s, g) then Goto(s.(store := st.(locks := st.locks[g := h])), h, AttachRead(g))
      else if hook.arms then s
      else Goto(s, h, Exited(true))
    case _ => s
  }

  /** Under the lock: the record read, and written back with the arm's fresh incarnation. */
  ghost function Attach(s: State, h: HookId, ok: bool): State
    requires h in s.hooks
  {
    var hook, st := s.hooks[h], s.store;
    match hook.pc
    case AttachRead(g) =>
      if !Certified(st.records) || Find(st.records, hook.native).None? then Goto(s, h, Unlock(g))
      else
        var k := Find(st.records, hook.native).value;
        Goto(s, h, AttachWrite(k, st.records[k].(inc := if hook.arms then Some(h) else st.records[k].inc)))
    case AttachWrite(g, record) =>
      if !ok then Goto(s, h, Unlock(g))
      else
        var t := Wrote(s, h, Attached(g), st.(records := st.records[g := record]), AfterCommit(hook, g));
        if !hook.arms then t
        else t.(committed := t.committed + {h}, unpaired := t.unpaired + {g},
                excused := if hook.owner.None? then t.excused + {g} else t.excused - {g})
    case _ => s
  }

  /** The sender pointer, the retirement of what it left, the receiver marker, and the unlock. */
  function Mark(s: State, h: HookId, ok: bool): State
    requires h in s.hooks
  {
    var hook, st := s.hooks[h], s.store;
    match hook.pc
    case ReadPointer(g) =>
      var p := hook.owner.GetOr(0);
      Goto(s, h, if p in st.senders && st.senders[p] != g then RetireRead(g, st.senders[p]) else WritePointer(g))
    case RetireRead(g, previous) =>
      var mine := previous in st.markers && Some(st.markers[previous].owner) == hook.owner;
      Goto(s, h, if mine then RetireUnlink(g, previous) else WritePointer(g))
    case RetireUnlink(g, previous) =>
      if !ok then Goto(s, h, WritePointer(g))
      else Wrote(s, h, Retired(previous), st.(markers := st.markers - {previous}), WritePointer(g))
    case WritePointer(g) =>
      var next := if hook.arms then WriteMarker(g) else Unlock(g);
      if !ok then Goto(s, h, next)
      else Wrote(s, h, Pointed(g), st.(senders := st.senders[hook.owner.GetOr(0) := g]), next)
    case WriteMarker(g) =>
      if !ok then Goto(s, h, Unlock(g)).(excused := s.excused + {g})
      else
        var t := st.(markers := st.markers[g := Marker(hook.owner.GetOr(0), h)]);
        Wrote(s, h, Marked(g), t, Unlock(g)).(unpaired := s.unpaired - {g})
    case Unlock(g) =>
      var t := if g in st.locks && st.locks[g] == h then st.(locks := st.locks - {g}) else st;
      Goto(s.(store := t), h, Exited(false))
    case _ => s
  }

  /** `ok`: the write succeeds; for a lock, it is not given up, be it held or refused while free. `minted`: the id a create would mint. */
  ghost function Act(s: State, h: HookId, minted: Garden, ok: bool): State
    requires h in s.hooks
  {
    var pc := s.hooks[h].pc;
    if pc.AttachRead? || pc.AttachWrite? then Attach(s, h, ok)
    else if HalfArmed(pc) || pc.Unlock? then Mark(s, h, ok)
    else Admit(s, h, minted, ok)
  }

  datatype Event =
    | Spawn(hook: HookId, arms: bool, native: Native, owner: Option<Pid>)
    | Go(hook: HookId, minted: Garden, ok: bool)
    | Crash(hook: HookId)

  predicate Live(s: State, h: HookId) {
    h in s.hooks && h !in s.dead
  }

  ghost function Step(s: State, e: Event): State {
    match e
    case Spawn(h, arms, native, owner) =>
      if h in s.hooks then s else s.(hooks := s.hooks[h := Hook(arms, native, owner, Lookup, [])])
    case Go(h, minted, ok) => if Live(s, h) then Act(s, h, minted, ok) else s
    case Crash(h) =>
      if !Live(s, h) then s
      else
        var hook := s.hooks[h];
        var t := s.(dead := s.dead + {h});
        if hook.arms && HalfArmed(hook.pc) then t.(excused := t.excused + {hook.pc.garden}) else t
  }

  ghost function Run(run: seq<Event>): State
    decreases |run|
  {
    if run == [] then Initial else Step(Run(run[..|run| - 1]), run[|run| - 1])
  }

  lemma RunSnoc(run: seq<Event>, e: Event)
    ensures Run(run + [e]) == Step(Run(run), e)
  {
    var all := run + [e];
    assert all[..|all| - 1] == run && all[|all| - 1] == e;
  }
}
