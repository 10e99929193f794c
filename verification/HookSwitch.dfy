/**
  Session switches of one Claude process: the only receiver marker a process owns is that of the
  garden its sender pointer names.
*/
module HookSwitch {
  import opened Option
  import opened HookModel
  import HookAgreement

  predicate Owned(st: Store, p: Pid, g: Garden) {
    g in st.markers && st.markers[g].owner == p
  }

  predicate Points(st: Store, p: Pid, g: Garden) {
    p in st.senders && st.senders[p] == g
  }

  /** Every receiver marker `p` owns is the one of the garden its sender pointer names. */
  ghost predicate Settled(st: Store, p: Pid) {
    forall g :: Owned(st, p, g) ==> Points(st, p, g)
  }

  ghost predicate OwnsAtMost(st: Store, p: Pid, g: Garden) {
    forall k :: Owned(st, p, k) ==> k == g
  }

  /** `native` is the session of the garden the sender pointer of `p` names. */
  predicate Named(st: Store, p: Pid, native: Native) {
    p in st.senders && st.senders[p] in st.records && st.records[st.senders[p]].native == native
  }

  predicate Working(s: State, h: HookId, p: Pid) {
    Live(s, h) && s.hooks[h].owner == Some(p) && !s.hooks[h].pc.Exited?
  }

  /** What `p` may do: one hook at a time, prompts of the session it points at, file operations that succeed. */
  ghost predicate Orderly(s: State, p: Pid, e: Event) {
    match e
    case Spawn(h, arms, native, owner) =>
      owner == Some(p) && h !in s.hooks ==>
        (forall k :: !Working(s, k, p)) && (arms || Named(s.store, p, native))
    case Go(h, _, ok) =>
      Working(s, h, p) && (s.hooks[h].pc.RetireUnlink? || s.hooks[h].pc.WritePointer?) ==> ok
    case Crash(_) => true
  }

  /** What the store looks like to a hook of `p` standing at its next operation. */
  ghost predicate Placed(st: Store, p: Pid, hook: Hook) {
    match hook.pc
    case ReadPointer(_) => hook.arms
    case RetireRead(_, previous) => hook.arms && Points(st, p, previous)
    case RetireUnlink(_, previous) => hook.arms && Points(st, p, previous)
    case WritePointer(g) => OwnsAtMost(st, p, g)
    case WriteMarker(g) => hook.arms && Points(st, p, g)
    case CreatePublish => hook.arms
    case AttachWrite(g, _) => hook.arms || Points(st, p, g)
    case Unlock(_) => true
    case Exited(_) => true
    case _ => hook.arms || Named(st, p, hook.native)
  }

  ghost predicate Inv(s: State, p: Pid) {
    && HookAgreement.Inv(s)
    && Settled(s.store, p)
    && (forall h, k :: Working(s, h, p) && Working(s, k, p) ==> h == k)
    && (forall h :: Working(s, h, p) ==> Placed(s.store, p, s.hooks[h]))
  }

  // ---- one step of a hook of p ------------------------------------------------------

  lemma AdmitSettles(s: State, h: HookId, p: Pid, minted: Garden, ok: bool)
    requires Inv(s, p) && Working(s, h, p)
    ensures Settled(Admit(s, h, minted, ok).store, p)
  {
    HookAgreement.AdmitStore(s, h, minted, ok);
    var t := Admit(s, h, minted, ok);
    forall g | Owned(t.store, p, g) ensures Points(t.store, p, g) { assert Owned(s.store, p, g); }
  }

  lemma AdmitPlaces(s: State, h: HookId, p: Pid, minted: Garden, ok: bool)
    requires Inv(s, p) && Working(s, h, p)
    ensures var t := Admit(s, h, minted, ok); Placed(t.store, p, t.hooks[h])
  {
    assert Placed(s.store, p, s.hooks[h]);
  }

  lemma AttachPlaces(s: State, h: HookId, p: Pid, ok: bool)
    requires Inv(s, p) && Working(s, h, p)
    ensures var t := Attach(s, h, ok); Settled(t.store, p) && Placed(t.store, p, t.hooks[h])
  {
    assert Placed(s.store, p, s.hooks[h]);
    var t := Attach(s, h, ok);
    assert t.store.markers == s.store.markers && t.store.senders == s.store.senders;
    forall g | Owned(t.store, p, g) ensures Points(t.store, p, g) { assert Owned(s.store, p, g); }
  }

  lemma MarkSettles(s: State, h: HookId, p: Pid, ok: bool)
    requires Inv(s, p) && Working(s, h, p)
    requires s.hooks[h].pc.RetireUnlink? || s.hooks[h].pc.WritePointer? ==> ok
    ensures Settled(Mark(s, h, ok).store, p)
  {
    assert Placed(s.store, p, s.hooks[h]);
    var t := Mark(s, h, ok);
    forall g | Owned(t.store, p, g) ensures Points(t.store, p, g) {
      assert Owned(s.store, p, g) || s.hooks[h].pc == WriteMarker(g);
    }
  }

  lemma MarkPlaces(s: State, h: HookId, p: Pid, ok: bool)
    requires Inv(s, p) && Working(s, h, p)
    requires s.hooks[h].pc.RetireUnlink? || s.hooks[h].pc.WritePointer? ==> ok
    ensures var t := Mark(s, h, ok); Placed(t.store, p, t.hooks[h])
  {
    assert Placed(s.store, p, s.hooks[h]);
    var t := Mark(s, h, ok);
    if t.hooks[h].pc.WritePointer? {
      forall k | Owned(t.store, p, k) ensures k == t.hooks[h].pc.garden { assert Owned(s.store, p, k); }
    }
  }

  // ---- one step of anybody else -----------------------------------------------------

  /** What another process's hook can do to what `p` relies on: take a marker of `p` away, and nothing more. */
  ghost predicate Bystander(before: Store, after: Store, p: Pid) {
    && (forall g :: Owned(after, p, g) ==> Owned(before, p, g))
    && (p in after.senders <==> p in before.senders)
    && (p in before.senders ==> after.senders[p] == before.senders[p])
    && (forall g :: g in before.records ==> g in after.records && after.records[g].native == before.records[g].native)
  }

  lemma AdmitStandsBy(s: State, h: HookId, p: Pid, minted: Garden, ok: bool)
    requires Live(s, h)
    ensures Bystander(s.store, Admit(s, h, minted, ok).store, p)
  {
    HookAgreement.AdmitStore(s, h, minted, ok);
  }

  lemma AttachStandsBy(s: State, h: HookId, p: Pid, ok: bool)
    requires HookAgreement.Inv(s) && Live(s, h)
    ensures Bystander(s.store, Attach(s, h, ok).store, p)
  {
    assert HookAgreement.Stands(s, h, s.hooks[h]);
  }

  lemma MarkStandsBy(s: State, h: HookId, p: Pid, ok: bool)
    requires HookAgreement.Inv(s) && Live(s, h) && s.hooks[h].owner != Some(p)
    ensures Bystander(s.store, Mark(s, h, ok).store, p)
  {
    assert HookAgreement.Stands(s, h, s.hooks[h]);
  }

  lemma OthersStandBy(s: State, h: HookId, p: Pid, minted: Garden, ok: bool)
    requires HookAgreement.Inv(s) && Live(s, h) && s.hooks[h].owner != Some(p)
    ensures Bystander(s.store, Act(s, h, minted, ok).store, p)
  {
    AdmitStandsBy(s, h, p, minted, ok);
    AttachStandsBy(s, h, p, ok);
    MarkStandsBy(s, h, p, ok);
  }

  lemma BystanderKeeps(before: Store, after: Store, p: Pid, hook: Hook)
    requires Bystander(before, after, p) && Settled(before, p)
    ensures Settled(after, p)
    ensures Placed(before, p, hook) ==> Placed(after, p, hook)
  {}

  // ---- every step -------------------------------------------------------------------

  lemma OwnStep(s: State, p: Pid, e: Event)
    requires Inv(s, p) && Orderly(s, p, e) && e.Go? && Working(s, e.hook, p)
    ensures var t := Step(s, e); Settled(t.store, p) && Placed(t.store, p, t.hooks[e.hook])
  {
    AdmitSettles(s, e.hook, p, e.minted, e.ok);
    AdmitPlaces(s, e.hook, p, e.minted, e.ok);
    AttachPlaces(s, e.hook, p, e.ok);
    MarkSettles(s, e.hook, p, e.ok);
    MarkPlaces(s, e.hook, p, e.ok);
  }

  /** A hook's step changes no other hook and nobody's owner, and an exited hook takes none. */
  lemma OthersUntouched(s: State, h: HookId, minted: Garden, ok: bool)
    requires Live(s, h)
    ensures var t := Act(s, h, minted, ok);
      && t.hooks == s.hooks[h := t.hooks[h]] && t.dead == s.dead && t.hooks[h].owner == s.hooks[h].owner
      && (s.hooks[h].pc.Exited? ==> t == s)
  {}

  lemma IdleStep(s: State, e: Event, p: Pid)
    requires HookAgreement.Inv(s) && e.Go? && Live(s, e.hook) && !Working(s, e.hook, p)
    ensures Bystander(s.store, Step(s, e).store, p)
  {
    if s.hooks[e.hook].owner != Some(p) { OthersStandBy(s, e.hook, p, e.minted, e.ok); }
  }

  lemma GoKeeps(s: State, p: Pid, h: HookId, minted: Garden, ok: bool)
    requires Inv(s, p) && Orderly(s, p, Go(h, minted, ok)) && Live(s, h)
    ensures Inv(Act(s, h, minted, ok), p)
  {
    var t := Act(s, h, minted, ok);
    HookAgreement.ActKeeps(s, h, minted, ok);
    OthersUntouched(s, h, minted, ok);
    forall k | Working(t, k, p) ensures Working(s, k, p) && (k != h ==> t.hooks[k] == s.hooks[k]) {
      assert k == h || t.hooks[k] == s.hooks[k];
    }
    if Working(s, h, p) {
      assert forall k :: Working(t, k, p) ==> k == h;
      OwnStep(s, p, Go(h, minted, ok));
    } else {
      IdleStep(s, Go(h, minted, ok), p);
      BystanderKeeps(s.store, t.store, p, s.hooks[h]);
      forall k | Working(t, k, p) ensures Placed(t.store, p, t.hooks[k]) {
        BystanderKeeps(s.store, t.store, p, s.hooks[k]);
      }
    }
  }

  lemma CrashKeeps(s: State, p: Pid, h: HookId)
    requires Inv(s, p)
    ensures Inv(Step(s, Crash(h)), p)
  {
    HookAgreement.StepKeeps(s, Crash(h));
    var t := Step(s, Crash(h));
    assert forall k :: Working(t, k, p) ==> Working(s, k, p) && t.hooks[k] == s.hooks[k];
  }

  lemma StepKeeps(s: State, p: Pid, e: Event)
    requires Inv(s, p) && Orderly(s, p, e)
    ensures Inv(Step(s, e), p)
  {
    match e
    case Spawn(h, _, _, _) =>
      HookAgreement.StepKeeps(s, e);
      assert forall k :: Working(Step(s, e), k, p) && k != h ==> Working(s, k, p);
    case Crash(h) => CrashKeeps(s, p, h);
    case Go(h, minted, ok) => if Live(s, h) { GoKeeps(s, p, h, minted, ok); }
  }

  // ---- over whole runs --------------------------------------------------------------

  ghost predicate OrderlyRun(run: seq<Event>, p: Pid) {
    forall i :: 0 <= i < |run| ==> Orderly(Run(run[..i]), p, run[i])
  }

  lemma {:induction false} RunKeeps(run: seq<Event>, p: Pid)
    requires OrderlyRun(run, p)
    ensures Inv(Run(run), p)
    decreases |run|
  {
    if run != [] {
      var prefix := run[..|run| - 1];
      forall i | 0 <= i < |prefix| ensures Orderly(Run(prefix[..i]), p, prefix[i]) {
        assert prefix[..i] == run[..i];
      }
      RunKeeps(prefix, p);
      StepKeeps(Run(prefix), p, run[|run| - 1]);
    }
  }

  /**
    Session-switch retirement, over any sequence of switches, re-fires and deaths, among any number of
    other processes: at every moment a process owns at most one receiver marker, and it is the one of the
    garden its sender pointer names. Arms need not be admitted and marker writes may fail.
  */
  lemma {:induction false} SwitchesRetire(run: seq<Event>, p: Pid, g: Garden)
    requires OrderlyRun(run, p)
    requires Owned(Run(run).store, p, g)
    ensures Points(Run(run).store, p, g)
    ensures OwnsAtMost(Run(run).store, p, g)
  {
    RunKeeps(run, p);
    var st := Run(run).store;
    forall k | Owned(st, p, k) ensures k == g { assert Points(st, p, k) && Points(st, p, g); }
  }

  /** An arm that writes its marker leaves its garden marked by `p` and named by its pointer. */
  lemma {:induction false} ArmLeavesItsGarden(run: seq<Event>, p: Pid, h: HookId, minted: Garden)
    requires OrderlyRun(run, p) && Working(Run(run), h, p) && Run(run).hooks[h].pc.WriteMarker?
    ensures var st, g := Step(Run(run), Go(h, minted, true)).store, Run(run).hooks[h].pc.garden;
      Owned(st, p, g) && st.markers[g].inc == h && Points(st, p, g) && OwnsAtMost(st, p, g)
  {
    RunKeeps(run, p);
    var e := Go(h, minted, true);
    StepKeeps(Run(run), p, e);
    var st, g := Step(Run(run), e).store, Run(run).hooks[h].pc.garden;
    assert Owned(st, p, g) && Points(st, p, g);
    forall k | Owned(st, p, k) ensures k == g { assert Points(st, p, k); }
  }

  /**
    A prompt moves the sender pointer and retires nothing, so it keeps the process settled exactly when the
    process owns no other garden's marker than the one the prompt names.
  */
  lemma {:induction false} PromptSettles(s: State, h: HookId, p: Pid, minted: Garden)
    requires Live(s, h) && s.hooks[h].owner == Some(p) && !s.hooks[h].arms && s.hooks[h].pc.WritePointer?
    ensures Settled(Step(s, Go(h, minted, true)).store, p) <==> OwnsAtMost(s.store, p, s.hooks[h].pc.garden)
  {
    var t, g := Step(s, Go(h, minted, true)).store, s.hooks[h].pc.garden;
    assert Points(t, p, g) && forall k :: Owned(t, p, k) <==> Owned(s.store, p, k);
  }
}
