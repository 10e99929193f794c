/**
  Runs of the hook that its comments do not expect: a busy hook that wrote its record, two records of one
  session, and a record and marker that disagree at a free lock.
*/
module HookCases {
  import opened Option
  import opened HookModel

  // ---- a busy hook that wrote -------------------------------------------------------

  /** Hook 1 stands before the lock of the record it created, which hook 2 has found. */
  predicate Contested(s: State) {
    && Live(s, 1) && s.hooks[1] == Hook(true, 7, Some(10), TakeLock(5), [Created(5)])
    && Live(s, 2) && s.hooks[2].pc == TakeLock(5)
    && s.store == Store(map[5 := Record(7, None)], map[], map[], map[])
  }

  lemma SecondFinds(s: State)
    requires s.hooks == map[1 := Hook(true, 7, Some(10), TakeLock(5), [Created(5)])] && s.dead == {}
    requires s.store == Store(map[5 := Record(7, None)], map[], map[], map[])
    ensures Contested(Step(Step(s, Spawn(2, true, 7, Some(11))), Go(2, 0, true)))
  {
    FindOnly(s.store.records, 5, Record(7, None));
  }

  lemma FirstTurnedAway(s: State)
    requires Contested(s)
    ensures var t := Step(Step(s, Go(2, 0, true)), Go(1, 0, false));
      1 in t.hooks && t.hooks[1] == Hook(true, 7, Some(10), Exited(true), [Created(5)]) && 5 in t.store.records
  {}

  /** The creator of a record loses the lock of what it created to a hook that found it. */
  lemma BusyHookThatWrote() returns (run: seq<Event>)
    ensures 1 in Run(run).hooks && Run(run).hooks[1].pc == Exited(true)
    ensures Run(run).hooks[1].writes == [Created(5)] && 5 in Run(run).store.records
  {
    var created := OneCreated();
    var e1, e2, e3 := Spawn(2, true, 7, Some(11)), Go(2, 0, true), Go(1, 0, false);
    SecondFinds(Run(created));
    RunSnoc(created, e1);
    RunSnoc(created + [e1], e2);
    var contested := created + [e1] + [e2];
    FirstTurnedAway(Run(contested));
    RunSnoc(contested, e2);
    RunSnoc(contested + [e2], e3);
    run := contested + [e2] + [e3];
  }

  /** Hook 1 has found no record of the native session 7 and is about to create one. */
  lemma OneLooked() returns (run: seq<Event>)
    ensures Run(run).hooks == map[1 := Hook(true, 7, Some(10), CreateDecide, [])]
    ensures Run(run).store == Initial.store && Run(run).dead == {}
  {
    var e1, e2 := Spawn(1, true, 7, Some(10)), Go(1, 0, true);
    assert Run([]) == Initial;
    RunSnoc([], e1);
    RunSnoc([] + [e1], e2);
    run := [] + [e1] + [e2];
  }

  /** Hook 1 has created the record 5 for the native session 7 and goes for its lock. */
  lemma OneCreated() returns (run: seq<Event>)
    ensures Run(run).hooks == map[1 := Hook(true, 7, Some(10), TakeLock(5), [Created(5)])]
    ensures Run(run).store == Store(map[5 := Record(7, None)], map[], map[], map[]) && Run(run).dead == {}
  {
    var looked := OneLooked();
    var e3, e4 := Go(1, 0, true), Go(1, 5, true);
    RunSnoc(looked, e3);
    assert Run(looked + [e3]).hooks == map[1 := Hook(true, 7, Some(10), CreatePublish, [])];
    RunSnoc(looked + [e3], e4);
    assert [] + [Created(5)] == [Created(5)];
    run := looked + [e3] + [e4];
  }

  // ---- two creators -----------------------------------------------------------------

  lemma SecondLooks(s: State)
    requires s.store == Initial.store && s.dead == {}
    requires s.hooks == map[1 := Hook(true, 7, Some(10), CreateDecide, [])]
    ensures var t := Step(Step(s, Spawn(2, true, 7, Some(11))), Go(2, 0, true));
      t.store == Initial.store && t.dead == {}
      && t.hooks == map[1 := Hook(true, 7, Some(10), CreateDecide, []), 2 := Hook(true, 7, Some(11), CreateDecide, [])]
  {}

  lemma BothDecide(s: State)
    requires s.store == Initial.store && s.dead == {}
    requires s.hooks == map[1 := Hook(true, 7, Some(10), CreateDecide, []), 2 := Hook(true, 7, Some(11), CreateDecide, [])]
    ensures var t := Step(Step(s, Go(1, 0, true)), Go(2, 0, true));
      && t.store == Initial.store && t.dead == {} && t.hooks.Keys == {1, 2}
      && t.hooks[1].pc == CreatePublish && t.hooks[1].native == 7
      && t.hooks[2].pc == CreatePublish && t.hooks[2].native == 7
  {}

  lemma BothPublish(s: State)
    requires s.store == Initial.store && s.dead == {} && s.hooks.Keys == {1, 2}
    requires s.hooks[1].pc == CreatePublish && s.hooks[1].native == 7
    requires s.hooks[2].pc == CreatePublish && s.hooks[2].native == 7
    ensures var t := Step(Step(s, Go(1, 5, true)), Go(2, 6, true));
      5 in t.store.records && 6 in t.store.records && !Certified(t.store.records)
  {
    var t := Step(Step(s, Go(1, 5, true)), Go(2, 6, true));
    assert t.store.records[5].native == t.store.records[6].native;
  }

  /** Two hooks of one session both find nothing, both decide to create, and both publish. */
  lemma TwoCreators() returns (run: seq<Event>)
    ensures 5 in Run(run).store.records && 6 in Run(run).store.records && !Certified(Run(run).store.records)
  {
    var r := OneLooked();
    var e1, e2 := Spawn(2, true, 7, Some(11)), Go(2, 0, true);
    SecondLooks(Run(r));
    RunSnoc(r, e1);
    RunSnoc(r + [e1], e2);
    var r2 := r + [e1] + [e2];
    BothDecide(Run(r2));
    RunSnoc(r2, Go(1, 0, true));
    RunSnoc(r2 + [Go(1, 0, true)], e2);
    var r4 := r2 + [Go(1, 0, true)] + [e2];
    BothPublish(Run(r4));
    RunSnoc(r4, Go(1, 5, true));
    RunSnoc(r4 + [Go(1, 5, true)], Go(2, 6, true));
    run := r4 + [Go(1, 5, true)] + [Go(2, 6, true)];
  }

  // ---- a spoiled garden -------------------------------------------------------------

  lemma FindOnly(records: map<Garden, Record>, g: Garden, record: Record)
    requires records == map[g := record]
    ensures Certified(records) && Find(records, record.native) == Some(g)
  {
    assert g in records;
    assert Find(records, record.native).Some?;
  }

  /** The hook `h` of session 7 stands at `pc`, and nobody is dead. */
  predicate At(s: State, h: HookId, owner: Option<Pid>, pc: Pc) {
    && Live(s, h) && s.dead == {}
    && s.hooks[h].arms && s.hooks[h].native == 7 && s.hooks[h].owner == owner && s.hooks[h].pc == pc
  }

  /** From the lock to the committed record. */
  lemma Binds(s: State, h: HookId, owner: Option<Pid>, inc: Option<HookId>)
    requires At(s, h, owner, TakeLock(5)) && s.store.records == map[5 := Record(7, inc)] && s.store.locks == map[]
    ensures var t := Step(Step(Step(s, Go(h, 0, true)), Go(h, 0, true)), Go(h, 0, true));
      && At(t, h, owner, if owner.None? then Unlock(5) else ReadPointer(5))
      && t.store == Store(map[5 := Record(7, Some(h))], map[5 := h], s.store.markers, s.store.senders)
  {
    FindOnly(s.store.records, 5, Record(7, inc));
  }

  lemma Marks(s: State)
    requires At(s, 1, Some(10), ReadPointer(5)) && s.store == Store(map[5 := Record(7, Some(1))], map[5 := 1], map[], map[])
    ensures var t := Step(Step(Step(s, Go(1, 0, true)), Go(1, 0, true)), Go(1, 0, true));
      && At(t, 1, Some(10), Unlock(5))
      && t.store == Store(map[5 := Record(7, Some(1))], map[5 := 1], map[5 := Marker(10, 1)], map[10 := 5])
  {}

  lemma Unlocks(s: State, h: HookId, owner: Option<Pid>)
    requires At(s, h, owner, Unlock(5)) && s.store.locks == map[5 := h]
    ensures var t := Step(s, Go(h, 0, true));
      t.store == s.store.(locks := map[]) && t.dead == {} && t.hooks.Keys == s.hooks.Keys
  {}

  lemma OwnerlessLooks(s: State)
    requires s.dead == {} && 2 !in s.hooks && s.store.records == map[5 := Record(7, Some(1))]
    ensures var t := Step(Step(s, Spawn(2, true, 7, None)), Go(2, 0, true));
      At(t, 2, None, TakeLock(5)) && t.store == s.store
  {
    FindOnly(s.store.records, 5, Record(7, Some(1)));
  }

  lemma ThreeMore(run: seq<Event>, e: Event)
    ensures Run(run + [e] + [e] + [e]) == Step(Step(Step(Run(run), e), e), e)
  {
    RunSnoc(run, e);
    RunSnoc(run + [e], e);
    RunSnoc(run + [e] + [e], e);
  }

  /** Hook 1 has armed garden 5: record and marker agree, and nobody holds the lock. */
  lemma OneArmed() returns (run: seq<Event>)
    ensures var s := Run(run);
      && s.dead == {} && 2 !in s.hooks
      && s.store == Store(map[5 := Record(7, Some(1))], map[], map[5 := Marker(10, 1)], map[10 := 5])
  {
    var r := OneCreated();
    var e := Go(1, 0, true);
    Binds(Run(r), 1, Some(10), None);
    ThreeMore(r, e);
    var bound := r + [e] + [e] + [e];
    Marks(Run(bound));
    ThreeMore(bound, e);
    var marked := bound + [e] + [e] + [e];
    OnlyHookOne(r, bound, marked, e);
    Unlocks(Run(marked), 1, Some(10));
    RunSnoc(marked, e);
    run := marked + [e];
  }

  lemma OnlyHookOne(r: seq<Event>, bound: seq<Event>, marked: seq<Event>, e: Event)
    requires e == Go(1, 0, true) && 2 !in Run(r).hooks
    requires bound == r + [e] + [e] + [e] && marked == bound + [e] + [e] + [e]
    ensures 2 !in Run(marked).hooks
  {
    ThreeMore(r, e);
    ThreeMore(bound, e);
    NoNewHook(Run(r), e);
    NoNewHook(Run(bound), e);
  }

  lemma NoNewHook(s: State, e: Event)
    requires e.Go?
    ensures Step(Step(Step(s, e), e), e).hooks.Keys == s.hooks.Keys
  {
    KeepsHooks(s, e);
    KeepsHooks(Step(s, e), e);
    KeepsHooks(Step(Step(s, e), e), e);
  }

  lemma KeepsHooks(s: State, e: Event)
    requires e.Go?
    ensures Step(s, e).hooks.Keys == s.hooks.Keys
  {}

  /** An arm without an owner commits over it: the lock is free, the marker is there, and it names the arm before. */
  lemma SpoiledGarden() returns (run: seq<Event>)
    ensures var s := Run(run);
      && LockFree(s, 5) && 5 in s.store.markers && 5 in s.store.records
      && s.store.records[5].inc == Some(2) && s.store.markers[5] == Marker(10, 1)
  {
    var r := OneArmed();
    var e1, e := Spawn(2, true, 7, None), Go(2, 0, true);
    OwnerlessLooks(Run(r));
    RunSnoc(r, e1);
    RunSnoc(r + [e1], e);
    var looked := r + [e1] + [e];
    Binds(Run(looked), 2, None, Some(1));
    ThreeMore(looked, e);
    var bound := looked + [e] + [e] + [e];
    Unlocks(Run(bound), 2, None);
    RunSnoc(bound, e);
    run := bound + [e];
  }
}
