/**
  Record and marker of a garden under concurrent hooks: whenever nobody holds its record-arm
  lock, a present receiver marker carries exactly the record's attach incarnation.
*/
module HookAgreement {
  import opened Option
  import opened HookModel

  /** The lock of `g` names the hook `h`. */
  predicate Locks(s: State, h: HookId, g: Garden) {
    g in s.store.locks && s.store.locks[g] == h
  }

  predicate Known(s: State, hook: Hook, g: Garden) {
    g in s.store.records && s.store.records[g].native == hook.native
  }

  /** What the store looks like to a live hook standing at its next operation. */
  predicate Stands(s: State, h: HookId, hook: Hook) {
    if HalfArmed(hook.pc) then
      && hook.owner.Some?
      && (if !hook.arms then hook.pc.WritePointer?
          else
            var g := hook.pc.garden;
            && Locks(s, h, g) && g in s.unpaired && g !in s.excused
            && g in s.store.records && s.store.records[g].inc == Some(h))
    else match hook.pc
      case TakeLock(g) => h !in s.committed && Known(s, hook, g)
      case AttachRead(g) => h !in s.committed && Known(s, hook, g) && Locks(s, h, g)
      case AttachWrite(g, record) =>
        && h !in s.committed && Known(s, hook, g) && Locks(s, h, g)
        && record == Record(hook.native, if hook.arms then Some(h) else s.store.records[g].inc)
      case Unlock(_) => true
      case Exited(_) => true
      case _ => h !in s.committed
  }

  ghost predicate HooksInv(s: State) {
    forall h :: Live(s, h) ==> Stands(s, h, s.hooks[h])
  }

  /** Incarnations in the store were committed by the hook that minted them. */
  ghost predicate CommitInv(s: State) {
    && s.committed <= s.hooks.Keys
    && (forall g :: g in s.store.records && s.store.records[g].inc.Some? ==>
          s.store.records[g].inc.value in s.committed)
    && (forall g :: g in s.store.markers ==> s.store.markers[g].inc in s.committed)
    && (forall g :: g in s.store.locks ==> s.store.locks[g] in s.hooks)
  }

  ghost predicate PairInv(s: State) {
    && s.unpaired <= s.store.records.Keys && s.excused <= s.unpaired
    && (forall g :: g in s.store.markers ==>
          g in s.store.records
          && (g in s.unpaired <==> s.store.records[g].inc != Some(s.store.markers[g].inc)))
  }

  /** Some live hook is between the record's new binding and the marker that copies it. */
  ghost predicate BeingArmed(s: State, g: Garden) {
    exists h :: Live(s, h) && s.hooks[h].arms && HalfArmed(s.hooks[h].pc) && s.hooks[h].pc.garden == g
  }

  ghost predicate DueInv(s: State) {
    forall g :: g in s.unpaired && g !in s.excused ==> BeingArmed(s, g)
  }

  ghost predicate Inv(s: State) {
    HooksInv(s) && CommitInv(s) && PairInv(s) && DueInv(s)
  }

  // ---- one step ---------------------------------------------------------------------

  /** Before the lock is held a hook adds a record that is bound to nothing, or takes the lock, and no more. */
  lemma AdmitStore(s: State, h: HookId, minted: Garden, ok: bool)
    requires Live(s, h)
    ensures var t := Admit(s, h, minted, ok);
      && t == s.(store := t.store, hooks := t.hooks) && t.hooks.Keys == s.hooks.Keys
      && t.store == s.store.(records := t.store.records, locks := t.store.locks)
      && (forall g :: g in s.store.records ==> g in t.store.records && t.store.records[g] == s.store.records[g])
      && (forall g :: g in t.store.records && g !in s.store.records ==> t.store.records[g].inc.None?)
      && (forall g :: g in t.store.locks ==> t.store.locks[g] == h || (g in s.store.locks && t.store.locks[g] == s.store.locks[g]))
  {}

  lemma AdmitCommit(s: State, h: HookId, minted: Garden, ok: bool)
    requires Inv(s) && Live(s, h)
    ensures CommitInv(Admit(s, h, minted, ok)) && PairInv(Admit(s, h, minted, ok))
  {
    AdmitStore(s, h, minted, ok);
    StoreCommit(s, Admit(s, h, minted, ok), h);
  }

  lemma StoreCommit(s: State, t: State, h: HookId)
    requires CommitInv(s) && PairInv(s) && h in s.hooks
    requires t == s.(store := t.store, hooks := t.hooks) && t.hooks.Keys == s.hooks.Keys
    requires t.store == s.store.(records := t.store.records, locks := t.store.locks)
    requires forall g :: g in s.store.records ==> g in t.store.records && t.store.records[g] == s.store.records[g]
    requires forall g :: g in t.store.records && g !in s.store.records ==> t.store.records[g].inc.None?
    requires forall g ::
      g in t.store.locks ==> t.store.locks[g] == h || (g in s.store.locks && t.store.locks[g] == s.store.locks[g])
    ensures CommitInv(t) && PairInv(t)
  {}

  lemma AttachCommit(s: State, h: HookId, ok: bool)
    requires Inv(s) && Live(s, h)
    ensures CommitInv(Attach(s, h, ok))
  {
    assert Stands(s, h, s.hooks[h]);
  }

  lemma AttachPairs(s: State, h: HookId, ok: bool)
    requires Inv(s) && Live(s, h)
    ensures PairInv(Attach(s, h, ok))
  {
    assert Stands(s, h, s.hooks[h]);
  }

  lemma MarkCommit(s: State, h: HookId, ok: bool)
    requires Inv(s) && Live(s, h)
    ensures CommitInv(Mark(s, h, ok))
  {
    assert Stands(s, h, s.hooks[h]);
  }

  lemma MarkPairs(s: State, h: HookId, ok: bool)
    requires Inv(s) && Live(s, h)
    ensures PairInv(Mark(s, h, ok))
  {
    assert Stands(s, h, s.hooks[h]);
  }

  lemma AdmitStands(s: State, h: HookId, minted: Garden, ok: bool)
    requires HooksInv(s) && Live(s, h)
    ensures var t := Admit(s, h, minted, ok); Stands(t, h, t.hooks[h])
  {
    assert Stands(s, h, s.hooks[h]);
  }

  lemma AttachStands(s: State, h: HookId, ok: bool)
    requires HooksInv(s) && Live(s, h)
    ensures var t := Attach(s, h, ok); Stands(t, h, t.hooks[h])
  {
    assert Stands(s, h, s.hooks[h]);
  }

  lemma MarkStands(s: State, h: HookId, ok: bool)
    requires HooksInv(s) && Live(s, h)
    ensures var t := Mark(s, h, ok); Stands(t, h, t.hooks[h])
  {
    assert Stands(s, h, s.hooks[h]);
  }

  lemma AdmitOthers(s: State, h: HookId, minted: Garden, ok: bool, b: HookId)
    requires Inv(s) && Live(s, h) && Live(s, b) && b != h
    ensures Stands(Admit(s, h, minted, ok), b, s.hooks[b])
  {
    assert Stands(s, h, s.hooks[h]) && Stands(s, b, s.hooks[b]);
  }

  lemma AttachOthers(s: State, h: HookId, ok: bool, b: HookId)
    requires Inv(s) && Live(s, h) && Live(s, b) && b != h
    ensures Stands(Attach(s, h, ok), b, s.hooks[b])
  {
    assert Stands(s, h, s.hooks[h]) && Stands(s, b, s.hooks[b]);
  }

  lemma MarkOthers(s: State, h: HookId, ok: bool, b: HookId)
    requires Inv(s) && Live(s, h) && Live(s, b) && b != h
    ensures Stands(Mark(s, h, ok), b, s.hooks[b])
  {
    assert Stands(s, h, s.hooks[h]) && Stands(s, b, s.hooks[b]);
  }

  /** A step changes the hook that takes it and no other. */
  lemma OthersUntouched(s: State, h: HookId, minted: Garden, ok: bool)
    requires Live(s, h)
    ensures var t := Act(s, h, minted, ok); t.hooks == s.hooks[h := t.hooks[h]] && t.dead == s.dead
  {}

  lemma OthersStand(s: State, h: HookId, minted: Garden, ok: bool, b: HookId)
    requires Inv(s) && Live(s, h) && Live(s, b) && b != h
    ensures Stands(Act(s, h, minted, ok), b, s.hooks[b])
  {
    AdmitOthers(s, h, minted, ok, b);
    AttachOthers(s, h, ok, b);
    MarkOthers(s, h, ok, b);
  }

  /** A garden that was being armed still is, unless this step was its marker. */
  lemma StillArmed(s: State, h: HookId, minted: Garden, ok: bool, g: Garden)
    requires HooksInv(s) && Live(s, h) && g in s.unpaired && BeingArmed(s, g)
    ensures var t := Act(s, h, minted, ok);
      g in t.unpaired && g !in t.excused && g !in s.excused ==> BeingArmed(t, g)
  {
    var t := Act(s, h, minted, ok);
    var b :| Live(s, b) && s.hooks[b].arms && HalfArmed(s.hooks[b].pc) && s.hooks[b].pc.garden == g;
    assert Stands(s, b, s.hooks[b]) && Stands(s, h, s.hooks[h]);
    if g in t.unpaired && g !in t.excused {
      assert Live(t, b) && t.hooks[b].arms && HalfArmed(t.hooks[b].pc) && t.hooks[b].pc.garden == g;
    }
  }

  lemma ActDue(s: State, h: HookId, minted: Garden, ok: bool)
    requires Inv(s) && Live(s, h)
    ensures DueInv(Act(s, h, minted, ok))
  {
    var t := Act(s, h, minted, ok);
    assert Stands(s, h, s.hooks[h]);
    forall g | g in t.unpaired && g !in t.excused ensures BeingArmed(t, g) {
      if g in s.unpaired && g !in s.excused {
        StillArmed(s, h, minted, ok, g);
      } else {
        assert Live(t, h) && t.hooks[h].arms && HalfArmed(t.hooks[h].pc) && t.hooks[h].pc.garden == g;
      }
    }
  }

  lemma ActStands(s: State, h: HookId, minted: Garden, ok: bool)
    requires Inv(s) && Live(s, h)
    ensures HooksInv(Act(s, h, minted, ok))
  {
    var t := Act(s, h, minted, ok);
    OthersUntouched(s, h, minted, ok);
    AdmitStands(s, h, minted, ok);
    AttachStands(s, h, ok);
    MarkStands(s, h, ok);
    forall b | Live(t, b) ensures Stands(t, b, t.hooks[b]) {
      if b != h { OthersStand(s, h, minted, ok, b); }
    }
  }

  lemma ActKeeps(s: State, h: HookId, minted: Garden, ok: bool)
    requires Inv(s) && Live(s, h)
    ensures Inv(Act(s, h, minted, ok))
  {
    AdmitCommit(s, h, minted, ok);
    AttachCommit(s, h, ok);
    AttachPairs(s, h, ok);
    MarkCommit(s, h, ok);
    MarkPairs(s, h, ok);
    ActDue(s, h, minted, ok);
    ActStands(s, h, minted, ok);
  }

  lemma CrashKeeps(s: State, h: HookId)
    requires Inv(s) && Live(s, h)
    ensures Inv(Step(s, Crash(h)))
  {
    var t := Step(s, Crash(h));
    assert Stands(s, h, s.hooks[h]);
    forall b | Live(t, b) ensures Stands(t, b, t.hooks[b]) {
      assert Live(s, b) && Stands(s, b, s.hooks[b]);
    }
    forall g | g in t.unpaired && g !in t.excused ensures BeingArmed(t, g) {
      var b :| Live(s, b) && s.hooks[b].arms && HalfArmed(s.hooks[b].pc) && s.hooks[b].pc.garden == g;
      assert Live(t, b);
    }
  }

  lemma SpawnKeeps(s: State, e: Event)
    requires Inv(s) && e.Spawn?
    ensures Inv(Step(s, e))
  {
    var t := Step(s, e);
    forall g | g in t.unpaired && g !in t.excused ensures BeingArmed(t, g) {
      var b :| Live(s, b) && s.hooks[b].arms && HalfArmed(s.hooks[b].pc) && s.hooks[b].pc.garden == g;
      assert Live(t, b) && t.hooks[b] == s.hooks[b];
    }
  }

  lemma StepKeeps(s: State, e: Event)
    requires Inv(s)
    ensures Inv(Step(s, e))
  {
    match e
    case Spawn(_, _, _, _) => SpawnKeeps(s, e);
    case Go(h, minted, ok) => if Live(s, h) { ActKeeps(s, h, minted, ok); }
    case Crash(h) => if Live(s, h) { CrashKeeps(s, h); }
  }

  lemma {:induction false} RunKeeps(run: seq<Event>)
    ensures Inv(Run(run)) && DueInv(Run(run))
    decreases |run|
  {
    if run != [] {
      RunKeeps(run[..|run| - 1]);
      StepKeeps(Run(run[..|run| - 1]), run[|run| - 1]);
    }
  }

  // ---- the promises over whole runs -------------------------------------------------

  /**
    Record/marker agreement, with any number of concurrent arms and prompts on any number of gardens:
    while no live hook holds a garden's lock, its receiver marker, if there is one, carries exactly the
    record's attach incarnation — unless the last arm committed there had no owner, could not write its
    marker, or died before it did; and then it never does.
  */
  lemma {:induction false} Agreement(run: seq<Event>, g: Garden)
    requires var s := Run(run); LockFree(s, g) && g in s.store.markers
    ensures var s := Run(run);
      && g in s.store.records
      && (s.store.records[g].inc == Some(s.store.markers[g].inc) <==> g !in s.excused)
  {
    RunKeeps(run);
    ArmingLocks(Run(run), g);
  }

  lemma ArmingLocks(s: State, g: Garden)
    requires HooksInv(s)
    ensures BeingArmed(s, g) ==> !LockFree(s, g)
  {
    if BeingArmed(s, g) {
      var h :| Live(s, h) && s.hooks[h].arms && HalfArmed(s.hooks[h].pc) && s.hooks[h].pc.garden == g;
      assert Stands(s, h, s.hooks[h]);
    }
  }

  /** An event that can spoil no garden: no ownerless arm, no failed marker write, no death. */
  predicate Sound(e: Event) {
    match e
    case Spawn(_, arms, _, owner) => arms ==> owner.Some?
    case Go(_, _, ok) => ok
    case Crash(_) => false
  }

  ghost predicate NoExcuse(s: State) {
    s.excused == {} && forall h :: h in s.hooks && s.hooks[h].arms ==> s.hooks[h].owner.Some?
  }

  lemma SoundStep(s: State, e: Event)
    requires NoExcuse(s) && Sound(e)
    ensures NoExcuse(Step(s, e))
  {}

  /** When every arm has an owner, no write fails and no hook dies, no garden is excused. */
  lemma {:induction false} SoundRunsExcuseNothing(run: seq<Event>)
    requires forall i :: 0 <= i < |run| ==> Sound(run[i])
    ensures NoExcuse(Run(run))
    decreases |run|
  {
    if run != [] {
      SoundRunsExcuseNothing(run[..|run| - 1]);
      SoundStep(Run(run[..|run| - 1]), run[|run| - 1]);
    }
  }
}
