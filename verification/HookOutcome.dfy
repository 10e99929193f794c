/**
  What a hook does get done: over every run, what each of its writes does to the store, what it has written by
  the time it exits, that it gives its lock back and that it comes to its end.
*/
module HookOutcome {
  import opened Option
  import opened HookModel
  import HookAgreement
  import HookBusy

  // ---- every write ------------------------------------------------------------------

  /** The store after `w`, written by the hook `h`. */
  ghost predicate Effect(s: Store, t: Store, h: HookId, hook: Hook, w: Write) {
    match w
    case Created(g) =>
      g !in s.records && t == s.(records := s.records[g := Record(hook.native, None)])
    case Attached(g) =>
      && g in s.records && s.records[g].native == hook.native
      && t == s.(records := s.records[g := s.records[g].(inc := if hook.arms then Some(h) else s.records[g].inc)])
    case Retired(g) => t == s.(markers := s.markers - {g})
    case Pointed(g) => hook.owner.Some? && t == s.(senders := s.senders[hook.owner.value := g])
    case Marked(g) =>
      && hook.owner.Some? && g in s.records && s.records[g].inc == Some(h)
      && t == s.(markers := s.markers[g := Marker(hook.owner.value, h)])
  }

  /** Nobody has the lock of `g`, or somebody who is dead. */
  predicate Free(s: State, g: Garden) {
    g in s.store.locks ==> s.store.locks[g] in s.dead
  }

  /** The store's locks alone may have changed: one taken that was free, or the hook's own given back. */
  ghost predicate LocksOnly(s: State, t: Store, h: HookId) {
    && t == s.store.(locks := t.locks)
    && (t.locks == s.store.locks
        || (exists g :: Free(s, g) && t.locks == s.store.locks[g := h])
        || (exists g :: HookAgreement.Locks(s, h, g) && t.locks == s.store.locks - {g}))
  }

  /** One step of a hook: one write with its effect, or none and nothing but a lock. */
  ghost predicate Writes(s: State, t: State, h: HookId)
    requires h in s.hooks && h in t.hooks
  {
    var before, after := s.hooks[h], t.hooks[h];
    if after.writes == before.writes then LocksOnly(s, t.store, h)
    else
      && |after.writes| == |before.writes| + 1 && after.writes[..|before.writes|] == before.writes
      && Effect(s.store, t.store, h, before, after.writes[|before.writes|])
  }

  lemma AdmitWrites(s: State, h: HookId, minted: Garden, ok: bool)
    requires Live(s, h)
    ensures Writes(s, Admit(s, h, minted, ok), h)
  {
    if s.hooks[h].pc.TakeLock? { assert Free(s, s.hooks[h].pc.garden) <==> LockFree(s, s.hooks[h].pc.garden); }
  }

  lemma AttachWrites(s: State, h: HookId, ok: bool)
    requires HookAgreement.Inv(s) && Live(s, h)
    ensures Writes(s, Attach(s, h, ok), h)
  {
    assert HookAgreement.Stands(s, h, s.hooks[h]);
  }

  lemma MarkWrites(s: State, h: HookId, ok: bool)
    requires HookAgreement.Inv(s) && Live(s, h)
    ensures Writes(s, Mark(s, h, ok), h)
  {
    assert HookAgreement.Stands(s, h, s.hooks[h]);
  }

  /**
    Whatever a hook writes, in any run, is what the store then says: a record of its session, its own binding,
    its pointer, a marker of its own that copies the binding; and what it does not write stays as it was.
  */
  lemma {:induction false} EveryWrite(run: seq<Event>, h: HookId, minted: Garden, ok: bool)
    requires Live(Run(run), h)
    ensures var t := Run(run + [Go(h, minted, ok)]); h in t.hooks && Writes(Run(run), t, h)
  {
    HookAgreement.RunKeeps(run);
    RunSnoc(run, Go(h, minted, ok));
    AdmitWrites(Run(run), h, minted, ok);
    AttachWrites(Run(run), h, ok);
    MarkWrites(Run(run), h, ok);
  }

  // ---- the end ----------------------------------------------------------------------

  /** How many steps a hook has before it at most, its waits for the lock not counted. */
  function StepsLeft(pc: Pc): nat {
    match pc
    case Lookup => 12
    case CreateDecide => 11
    case CreatePublish => 10
    case LookupAgain => 10
    case TakeLock(_) => 9
    case AttachRead(_) => 8
    case AttachWrite(_, _) => 7
    case ReadPointer(_) => 6
    case RetireRead(_, _) => 5
    case RetireUnlink(_, _) => 4
    case WritePointer(_) => 3
    case WriteMarker(_) => 2
    case Unlock(_) => 1
    case Exited(_) => 0
  }

  /** An arm that finds the lock held and waits. */
  predicate Waits(s: State, h: HookId, ok: bool)
    requires h in s.hooks
  {
    s.hooks[h].arms && s.hooks[h].pc.TakeLock? && ok && !Free(s, s.hooks[h].pc.garden)
  }

  ghost predicate Advances(s: State, t: State, h: HookId, ok: bool)
    requires h in s.hooks
  {
    && h in t.hooks && t.hooks == s.hooks[h := t.hooks[h]]
    && (s.hooks[h].pc.Exited? || Waits(s, h, ok) ==> t == s)
    && (!s.hooks[h].pc.Exited? && !Waits(s, h, ok) ==> StepsLeft(t.hooks[h].pc) < StepsLeft(s.hooks[h].pc))
  }

  lemma AdmitAdvances(s: State, h: HookId, minted: Garden, ok: bool)
    requires Live(s, h) && !s.hooks[h].pc.AttachRead? && !s.hooks[h].pc.AttachWrite?
    requires !HalfArmed(s.hooks[h].pc) && !s.hooks[h].pc.Unlock?
    ensures Advances(s, Admit(s, h, minted, ok), h, ok)
  {}

  lemma AttachAdvances(s: State, h: HookId, ok: bool)
    requires Live(s, h) && (s.hooks[h].pc.AttachRead? || s.hooks[h].pc.AttachWrite?)
    ensures Advances(s, Attach(s, h, ok), h, ok)
  {}

  lemma MarkAdvances(s: State, h: HookId, ok: bool)
    requires Live(s, h) && (HalfArmed(s.hooks[h].pc) || s.hooks[h].pc.Unlock?)
    ensures Advances(s, Mark(s, h, ok), h, ok)
  {}

  lemma ActAdvances(s: State, h: HookId, minted: Garden, ok: bool)
    requires Live(s, h)
    ensures Advances(s, Act(s, h, minted, ok), h, ok)
  {
    var pc := s.hooks[h].pc;
    if pc.AttachRead? || pc.AttachWrite? { AttachAdvances(s, h, ok); }
    else if HalfArmed(pc) || pc.Unlock? { MarkAdvances(s, h, ok); }
    else { AdmitAdvances(s, h, minted, ok); }
  }

  /** How many steps of the run the hook took that were no waits. */
  ghost function Taken(run: seq<Event>, h: HookId): nat
    decreases |run|
  {
    if run == [] then 0
    else
      var s, e := Run(run[..|run| - 1]), run[|run| - 1];
      Taken(run[..|run| - 1], h)
      + if e.Go? && e.hook == h && Live(s, h) && !s.hooks[h].pc.Exited? && !Waits(s, h, e.ok) then 1 else 0
  }

  ghost predicate Bounded(s: State, h: HookId, taken: nat) {
    if h in s.hooks then taken + StepsLeft(s.hooks[h].pc) <= 12 else taken == 0
  }

  lemma StepBounded(s: State, e: Event, h: HookId, taken: nat)
    requires Bounded(s, h, taken)
    ensures Bounded(Step(s, e), h,
      taken + if e.Go? && e.hook == h && Live(s, h) && !s.hooks[h].pc.Exited? && !Waits(s, h, e.ok) then 1 else 0)
  {
    if e.Go? && Live(s, e.hook) { ActAdvances(s, e.hook, e.minted, e.ok); }
  }

  /** Every hook comes to its end: it takes at most 12 steps but for its waits, and after 12 it has exited. */
  lemma {:induction false} TwelveSteps(run: seq<Event>, h: HookId)
    requires h in Run(run).hooks
    ensures Taken(run, h) <= 12 && (Taken(run, h) == 12 ==> Run(run).hooks[h].pc.Exited?)
  {
    RunBounded(run, h);
  }

  lemma {:induction false} RunBounded(run: seq<Event>, h: HookId)
    ensures Bounded(Run(run), h, Taken(run, h))
    decreases |run|
  {
    if run != [] {
      RunBounded(run[..|run| - 1], h);
      StepBounded(Run(run[..|run| - 1]), run[|run| - 1], h, Taken(run[..|run| - 1], h));
    }
  }

  // ---- the lock ---------------------------------------------------------------------

  /** The hook stands where it holds the lock of `g`. */
  predicate Under(pc: Pc, g: Garden) {
    !pc.Exited? && !pc.Lookup? && !pc.CreateDecide? && !pc.CreatePublish? && !pc.LookupAgain? && !pc.TakeLock?
    && pc.garden == g
  }

  ghost predicate LocksFit(s: State, h: HookId) {
    forall g :: HookAgreement.Locks(s, h, g) ==> h in s.hooks && Under(s.hooks[h].pc, g)
  }

  lemma ActLocks(s: State, h: HookId, minted: Garden, ok: bool)
    requires HookAgreement.Inv(s) && LocksFit(s, h) && Live(s, h)
    ensures LocksFit(Act(s, h, minted, ok), h)
  {
    assert HookAgreement.Stands(s, h, s.hooks[h]);
    if s.hooks[h].pc.AttachRead? { OneRecord(s.store.records, s.hooks[h].pc.garden, s.hooks[h].native); }
    var t := Act(s, h, minted, ok);
    forall g | HookAgreement.Locks(t, h, g) ensures h in t.hooks && Under(t.hooks[h].pc, g) {
      assert HookAgreement.Locks(s, h, g) || s.hooks[h].pc == TakeLock(g);
    }
  }

  /** In a certified store the record found of a session is the record it has. */
  lemma OneRecord(records: map<Garden, Record>, g: Garden, native: Native)
    requires g in records && records[g].native == native
    ensures Certified(records) ==> Find(records, native) == Some(g)
  {}

  lemma OtherLocks(s: State, b: HookId, minted: Garden, ok: bool, h: HookId)
    requires LocksFit(s, h) && Live(s, b) && b != h
    ensures LocksFit(Act(s, b, minted, ok), h)
  {
    ActAdvances(s, b, minted, ok);
    var t := Act(s, b, minted, ok);
    assert forall g :: HookAgreement.Locks(t, h, g) ==> HookAgreement.Locks(s, h, g);
  }

  lemma {:induction false} RunLocks(run: seq<Event>, h: HookId)
    ensures LocksFit(Run(run), h)
    decreases |run|
  {
    if run != [] {
      var s, e := Run(run[..|run| - 1]), run[|run| - 1];
      RunLocks(run[..|run| - 1], h);
      HookAgreement.RunKeeps(run[..|run| - 1]);
      if e.Go? && Live(s, e.hook) {
        if e.hook == h { ActLocks(s, h, e.minted, e.ok); } else { OtherLocks(s, e.hook, e.minted, e.ok, h); }
      }
    }
  }

  /** A hook that has exited holds no lock, and one that has not holds at most the lock of its own garden. */
  lemma {:induction false} LocksGivenBack(run: seq<Event>, h: HookId, g: Garden)
    requires HookAgreement.Locks(Run(run), h, g)
    ensures h in Run(run).hooks && Under(Run(run).hooks[h].pc, g)
  {
    RunLocks(run, h);
  }

  /** A hook is turned away as busy exactly when its attempt is given up, or its garden is locked and it does not wait. */
  lemma {:induction false} BusyOnlyFor(run: seq<Event>, h: HookId, minted: Garden, ok: bool)
    requires Live(Run(run), h) && !Run(run).hooks[h].pc.Exited?
    ensures var s, t := Run(run), Run(run + [Go(h, minted, ok)]);
      && h in t.hooks
      && (t.hooks[h].pc == Exited(true) <==>
            s.hooks[h].pc.TakeLock? && (!ok || (!s.hooks[h].arms && !Free(s, s.hooks[h].pc.garden))))
      && (s.hooks[h].pc.TakeLock? && ok && Free(s, s.hooks[h].pc.garden) ==>
            HookAgreement.Locks(t, h, s.hooks[h].pc.garden))
  {
    RunSnoc(run, Go(h, minted, ok));
  }

  // ---- what it has written ----------------------------------------------------------

  /** In this event nothing goes wrong for the hook: it finds a certified store, and what it writes is written. */
  ghost predicate GoesWell(s: State, e: Event, h: HookId) {
    e.Go? && e.hook == h && Live(s, h) ==>
      e.ok && Certified(s.store.records) && (s.hooks[h].pc.CreatePublish? ==> e.minted !in s.store.records)
  }

  ghost predicate RunsWell(run: seq<Event>, h: HookId)
    decreases |run|
  {
    run == [] || (RunsWell(run[..|run| - 1], h) && GoesWell(Run(run[..|run| - 1]), run[|run| - 1], h))
  }

  function First(found: bool, g: Garden): seq<Write> {
    if found then [] else [Created(g)]
  }

  /** A prompt that made its record leaves it unbound; every other hook binds its record. */
  function Bound(arms: bool, found: bool, g: Garden): seq<Write> {
    if found then [Attached(g)] else if arms then [Created(g), Attached(g)] else [Created(g)]
  }

  ghost predicate RetiredOne(writes: seq<Write>, before: seq<Write>, g: Garden) {
    exists p :: p != g && writes == before + [Retired(p)]
  }

  /** Bound, and the marker of the garden served before gone, if there was one. */
  ghost predicate Switched(arms: bool, writes: seq<Write>, found: bool, g: Garden) {
    writes == Bound(arms, found, g) || (arms && RetiredOne(writes, Bound(arms, found, g), g))
  }

  ghost predicate EndsWith(writes: seq<Write>, arms: bool, found: bool, g: Garden, last: seq<Write>) {
    exists before :: Switched(arms, before, found, g) && writes == before + last
  }

  /** All that a hook has to write: its record if there was none, its binding, and for an owner its pointer and its marker. */
  ghost predicate Complete(hook: Hook, found: bool, g: Garden) {
    if hook.owner.None? then hook.writes == Bound(hook.arms, found, g)
    else EndsWith(hook.writes, hook.arms, found, g, if hook.arms then [Pointed(g), Marked(g)] else [Pointed(g)])
  }

  /** What a hook has written, for which nothing went wrong, where it stands. */
  ghost predicate WritesFit(hook: Hook, found: bool) {
    match hook.pc
    case Lookup => hook.writes == [] && !found
    case CreateDecide => hook.writes == [] && !found
    case CreatePublish => hook.writes == [] && !found
    case LookupAgain => hook.writes == [] && found
    case TakeLock(g) => hook.writes == First(found, g) && (hook.arms || found)
    case AttachRead(g) => hook.writes == First(found, g) && (hook.arms || found)
    case AttachWrite(g, _) => hook.writes == First(found, g) && (hook.arms || found)
    case ReadPointer(g) => hook.arms && hook.owner.Some? && hook.writes == Bound(true, found, g)
    case RetireRead(g, p) => hook.arms && hook.owner.Some? && hook.writes == Bound(true, found, g) && p != g
    case RetireUnlink(g, p) => hook.arms && hook.owner.Some? && hook.writes == Bound(true, found, g) && p != g
    case WritePointer(g) => hook.owner.Some? && Switched(hook.arms, hook.writes, found, g)
    case WriteMarker(g) => hook.arms && hook.owner.Some? && EndsWith(hook.writes, true, found, g, [Pointed(g)])
    case Unlock(g) => Complete(hook, found, g)
    case Exited(busy) => busy || exists g :: Complete(hook, found, g)
  }

  /** A hook about to look again looks for a record that somebody published. */
  ghost predicate Published(s: State, h: HookId) {
    h in s.hooks && s.hooks[h].pc.LookupAgain? ==> exists g :: HookAgreement.Known(s, s.hooks[h], g)
  }

  ghost predicate Fits(s: State, h: HookId, found: bool) {
    Published(s, h) && if h in s.hooks then WritesFit(s.hooks[h], found) else !found
  }

  /** Records stay, and stay their session's. */
  lemma RecordsStay(s: State, h: HookId, minted: Garden, ok: bool)
    requires HookAgreement.Inv(s) && Live(s, h)
    ensures var t := Act(s, h, minted, ok).store.records;
      forall g :: g in s.store.records ==> g in t && t[g].native == s.store.records[g].native
  {
    assert HookAgreement.Stands(s, h, s.hooks[h]);
    HookAgreement.AdmitStore(s, h, minted, ok);
  }

  lemma StaysPublished(s: State, b: HookId, minted: Garden, ok: bool, h: HookId)
    requires HookAgreement.Inv(s) && Live(s, b) && Published(s, h)
    ensures Published(Act(s, b, minted, ok), h)
  {
    var t := Act(s, b, minted, ok);
    RecordsStay(s, b, minted, ok);
    ActAdvances(s, b, minted, ok);
    if h in t.hooks && t.hooks[h].pc.LookupAgain? {
      if b == h {
        assert HookAgreement.Known(t, t.hooks[h], Find(s.store.records, s.hooks[h].native).value);
      } else {
        var g :| HookAgreement.Known(s, s.hooks[h], g);
        assert HookAgreement.Known(t, t.hooks[h], g);
      }
    }
  }

  lemma AdmitFits(s: State, h: HookId, minted: Garden, found: bool)
    requires Live(s, h) && Published(s, h) && WritesFit(s.hooks[h], found) && GoesWell(s, Go(h, minted, true), h)
    ensures var t := Admit(s, h, minted, true);
      h in t.hooks && WritesFit(t.hooks[h], found || HookBusy.Finds(s, Go(h, minted, true), h))
  {}

  lemma AttachFits(s: State, h: HookId, found: bool)
    requires HookAgreement.Inv(s) && Live(s, h) && WritesFit(s.hooks[h], found)
    requires (s.hooks[h].pc.AttachRead? || s.hooks[h].pc.AttachWrite?) && Certified(s.store.records)
    ensures var t := Attach(s, h, true); h in t.hooks && WritesFit(t.hooks[h], found)
  {
    assert HookAgreement.Stands(s, h, s.hooks[h]);
    if s.hooks[h].pc.AttachRead? { OneRecord(s.store.records, s.hooks[h].pc.garden, s.hooks[h].native); }
  }

  lemma EndsMore(writes: seq<Write>, arms: bool, found: bool, g: Garden, last: seq<Write>, w: Write)
    requires EndsWith(writes, arms, found, g, last)
    ensures EndsWith(writes + [w], arms, found, g, last + [w])
  {
    var before :| Switched(arms, before, found, g) && writes == before + last;
    assert writes + [w] == before + (last + [w]);
  }

  lemma EndsFirst(writes: seq<Write>, arms: bool, found: bool, g: Garden, w: Write)
    requires Switched(arms, writes, found, g)
    ensures EndsWith(writes + [w], arms, found, g, [w])
  {}

  lemma MarkFits(s: State, h: HookId, found: bool)
    requires HookAgreement.Inv(s) && Live(s, h) && WritesFit(s.hooks[h], found)
    requires HalfArmed(s.hooks[h].pc) || s.hooks[h].pc.Unlock?
    ensures var t := Mark(s, h, true); h in t.hooks && WritesFit(t.hooks[h], found)
  {
    assert HookAgreement.Stands(s, h, s.hooks[h]);
    var hook := s.hooks[h];
    match hook.pc
    case RetireUnlink(g, p) =>
      assert RetiredOne(hook.writes + [Retired(p)], hook.writes, g);
    case WritePointer(g) => EndsFirst(hook.writes, hook.arms, found, g, Pointed(g));
    case Unlock(g) => assert Complete(Mark(s, h, true).hooks[h], found, g);
    case WriteMarker(g) =>
      EndsMore(hook.writes, true, found, g, [Pointed(g)], Marked(g));
      assert [Pointed(g)] + [Marked(g)] == [Pointed(g), Marked(g)];
    case _ =>
  }

  lemma StepFits(s: State, e: Event, h: HookId, found: bool)
    requires HookAgreement.Inv(s) && Fits(s, h, found) && GoesWell(s, e, h)
    ensures Fits(Step(s, e), h, found || HookBusy.Finds(s, e, h))
  {
    if e.Go? && Live(s, e.hook) {
      StaysPublished(s, e.hook, e.minted, e.ok, h);
      if e.hook == h {
        if s.hooks[h].pc.AttachRead? || s.hooks[h].pc.AttachWrite? { AttachFits(s, h, found); }
        else if HalfArmed(s.hooks[h].pc) || s.hooks[h].pc.Unlock? { MarkFits(s, h, found); }
        else { AdmitFits(s, h, e.minted, found); }
      } else {
        HookBusy.OtherHooks(s, e.hook, e.minted, e.ok, h);
      }
    } else if h in s.hooks && s.hooks[h].pc.LookupAgain? {
      var g :| HookAgreement.Known(s, s.hooks[h], g);
      assert HookAgreement.Known(Step(s, e), s.hooks[h], g);
    }
  }

  lemma {:induction false} RunFits(run: seq<Event>, h: HookId)
    requires RunsWell(run, h)
    ensures Fits(Run(run), h, HookBusy.Found(run, h))
    decreases |run|
  {
    if run != [] {
      RunFits(run[..|run| - 1], h);
      HookAgreement.RunKeeps(run[..|run| - 1]);
      StepFits(Run(run[..|run| - 1]), run[|run| - 1], h, HookBusy.Found(run[..|run| - 1], h));
    }
  }

  /**
    A hook for which nothing went wrong and that was not turned away, among any number of others: by its exit it
    has written, of one garden and in this order, the record if it found none, the binding, the retirement of
    the garden served before, the pointer, and for an arm the marker; a hook without an owner only the first two.
  */
  lemma {:induction false} WritesItAll(run: seq<Event>, h: HookId)
    requires RunsWell(run, h) && h in Run(run).hooks && Run(run).hooks[h].pc == Exited(false)
    ensures exists g :: Complete(Run(run).hooks[h], HookBusy.Found(run, h), g)
  {
    RunFits(run, h);
  }

  /** In particular a prompt that has an owner and found its record leaves it bound, and its pointer at it. */
  lemma {:induction false} PromptPoints(run: seq<Event>, h: HookId)
    requires RunsWell(run, h) && h in Run(run).hooks && Run(run).hooks[h].pc == Exited(false)
    requires !Run(run).hooks[h].arms && Run(run).hooks[h].owner.Some? && HookBusy.Found(run, h)
    ensures exists g :: Run(run).hooks[h].writes == [Attached(g), Pointed(g)]
  {
    WritesItAll(run, h);
    var g :| Complete(Run(run).hooks[h], true, g);
    assert [Attached(g)] + [Pointed(g)] == [Attached(g), Pointed(g)];
  }

  // ---- what it has not written ------------------------------------------------------

  /** The hook has bound the record of `g`, or is a prompt that made it. */
  predicate Committed(hook: Hook, g: Garden) {
    Attached(g) in hook.writes || (!hook.arms && Created(g) in hook.writes)
  }

  ghost predicate Ordered(hook: Hook) {
    && (forall g :: Pointed(g) in hook.writes || Marked(g) in hook.writes ==> Committed(hook, g))
    && (forall g :: Marked(g) in hook.writes ==> hook.arms)
    && (HalfArmed(hook.pc) ==> Committed(hook, hook.pc.garden))
  }

  ghost predicate AllOrdered(s: State) {
    forall h :: h in s.hooks ==> Ordered(s.hooks[h])
  }

  lemma AdmitOrdered(s: State, h: HookId, minted: Garden, ok: bool)
    requires Live(s, h) && Ordered(s.hooks[h])
    requires !HalfArmed(s.hooks[h].pc)
    ensures var t := Admit(s, h, minted, ok); h in t.hooks && Ordered(t.hooks[h])
  {}

  lemma AttachOrdered(s: State, h: HookId, ok: bool)
    requires Live(s, h) && Ordered(s.hooks[h])
    requires s.hooks[h].pc.AttachRead? || s.hooks[h].pc.AttachWrite?
    ensures var t := Attach(s, h, ok); h in t.hooks && Ordered(t.hooks[h])
  {}

  lemma MarkOrdered(s: State, h: HookId, ok: bool)
    requires HookAgreement.Inv(s) && Live(s, h) && Ordered(s.hooks[h])
    requires HalfArmed(s.hooks[h].pc) || s.hooks[h].pc.Unlock?
    ensures var t := Mark(s, h, ok); h in t.hooks && Ordered(t.hooks[h])
  {
    assert HookAgreement.Stands(s, h, s.hooks[h]);
  }

  lemma {:induction false} RunOrdered(run: seq<Event>)
    ensures AllOrdered(Run(run))
    decreases |run|
  {
    if run != [] {
      var s, e := Run(run[..|run| - 1]), run[|run| - 1];
      RunOrdered(run[..|run| - 1]);
      HookAgreement.RunKeeps(run[..|run| - 1]);
      if e.Go? && Live(s, e.hook) { ActOrdered(s, e.hook, e.minted, e.ok); }
    }
  }

  lemma ActOrdered(s: State, h: HookId, minted: Garden, ok: bool)
    requires HookAgreement.Inv(s) && Live(s, h) && AllOrdered(s)
    ensures AllOrdered(Act(s, h, minted, ok))
  {
    var pc := s.hooks[h].pc;
    ActAdvances(s, h, minted, ok);
    if pc.AttachRead? || pc.AttachWrite? { AttachOrdered(s, h, ok); }
    else if HalfArmed(pc) || pc.Unlock? { MarkOrdered(s, h, ok); }
    else { AdmitOrdered(s, h, minted, ok); }
  }

  /** Whatever fails, in any run: no pointer and no marker names a garden whose record the hook did not commit. */
  lemma {:induction false} CommitsFirst(run: seq<Event>, h: HookId, g: Garden)
    requires h in Run(run).hooks && (Pointed(g) in Run(run).hooks[h].writes || Marked(g) in Run(run).hooks[h].writes)
    ensures Committed(Run(run).hooks[h], g)
    ensures Marked(g) in Run(run).hooks[h].writes ==> Run(run).hooks[h].arms
  {
    RunOrdered(run);
  }

  /** An arm retires exactly the garden its owner's pointer names, if it is another, and its marker if that is its owner's. */
  lemma {:induction false} RetiresItsOwn(run: seq<Event>, h: HookId, minted: Garden, ok: bool)
    requires Live(Run(run), h) && (Run(run).hooks[h].pc.ReadPointer? || Run(run).hooks[h].pc.RetireRead?)
    ensures var s, t := Run(run), Run(run + [Go(h, minted, ok)]);
      var pc, st, p := s.hooks[h].pc, s.store, s.hooks[h].owner.GetOr(0);
      && h in t.hooks && s.hooks[h].owner.Some? && t.store == st
      && match pc
         case ReadPointer(g) =>
           t.hooks[h].pc == if p in st.senders && st.senders[p] != g then RetireRead(g, st.senders[p]) else WritePointer(g)
         case RetireRead(g, k) =>
           t.hooks[h].pc == if k in st.markers && st.markers[k].owner == p then RetireUnlink(g, k) else WritePointer(g)
         case _ => true
  {
    RunSnoc(run, Go(h, minted, ok));
    HookAgreement.RunKeeps(run);
    assert HookAgreement.Stands(Run(run), h, Run(run).hooks[h]);
  }

  // ---- what it finds, and what fails ------------------------------------------------

  /** Where a hook goes from a look at the store: on with the one record of its session, or off an uncertified store. */
  ghost predicate LooksOn(s: State, h: HookId, next: Pc)
    requires h in s.hooks
  {
    var hook, st := s.hooks[h], s.store.records;
    var known := Certified(st) && exists g :: g in st && st[g].native == hook.native;
    match hook.pc
    case Lookup =>
      if !Certified(st) then next == Exited(false)
      else if known then next.TakeLock? && HookAgreement.Known(s, hook, next.garden) else next == CreateDecide
    case CreateDecide =>
      next == if !Certified(st) then Exited(false) else if known then LookupAgain else CreatePublish
    case LookupAgain =>
      if known then next.TakeLock? && HookAgreement.Known(s, hook, next.garden) else next == Exited(false)
    case AttachRead(g) =>
      if known then next.AttachWrite? && next.garden == g && HookAgreement.Known(s, hook, g) else next == Unlock(g)
    case _ => true
  }

  /** Where it goes from a write that failed: out, or on without it where the rest does not need it. */
  predicate FailsOn(hook: Hook, next: Pc) {
    match hook.pc
    case CreatePublish => next == Exited(false)
    case AttachWrite(g, _) => next == Unlock(g)
    case RetireUnlink(g, _) => next == WritePointer(g)
    case WritePointer(g) => next == if hook.arms then WriteMarker(g) else Unlock(g)
    case WriteMarker(g) => next == Unlock(g)
    case _ => true
  }

  lemma ActLooks(s: State, h: HookId, minted: Garden, ok: bool)
    requires HookAgreement.Inv(s) && Live(s, h)
    ensures var t := Act(s, h, minted, ok); h in t.hooks && LooksOn(s, h, t.hooks[h].pc)
  {
    var hook, st := s.hooks[h], s.store.records;
    assert HookAgreement.Stands(s, h, hook);
    if hook.pc.AttachRead? { OneRecord(st, hook.pc.garden, hook.native); }
    assert Find(st, hook.native).Some? <==> exists g :: g in st && st[g].native == hook.native;
  }

  lemma ActFails(s: State, h: HookId, minted: Garden)
    requires Live(s, h)
    ensures var t := Act(s, h, minted, false);
      h in t.hooks && FailsOn(s.hooks[h], t.hooks[h].pc) && (!s.hooks[h].pc.Unlock? ==> t.store == s.store)
  {}

  /** Every look and every failed write, in any run, takes the hook where it says, and a failed one writes nothing. */
  lemma {:induction false} EveryLook(run: seq<Event>, h: HookId, minted: Garden, ok: bool)
    requires Live(Run(run), h)
    ensures var s, t := Run(run), Run(run + [Go(h, minted, ok)]);
      && h in t.hooks && LooksOn(s, h, t.hooks[h].pc)
      && (!ok ==> FailsOn(s.hooks[h], t.hooks[h].pc) && (!s.hooks[h].pc.Unlock? ==> t.store == s.store))
  {
    HookAgreement.RunKeeps(run);
    RunSnoc(run, Go(h, minted, ok));
    ActLooks(Run(run), h, minted, ok);
    if !ok { ActFails(Run(run), h, minted); }
  }
}
