/**
  Concurrent creates: publishing is exclusive per garden id, not per native session, so the store stays
  certified exactly as long as nobody publishes a second record of a session.
*/
module HookCreate {
  import opened Option
  import opened HookModel
  import HookAgreement

  /** This event publishes a record of a session that has one already. */
  ghost predicate Doubles(s: State, e: Event) {
    && e.Go? && Live(s, e.hook) && s.hooks[e.hook].pc.CreatePublish? && e.ok
    && e.minted !in s.store.records && Find(s.store.records, s.hooks[e.hook].native).Some?
  }

  /** Some event of the run did. */
  ghost predicate Doubled(run: seq<Event>)
    decreases |run|
  {
    run != [] && (Doubled(run[..|run| - 1]) || Doubles(Run(run[..|run| - 1]), run[|run| - 1]))
  }

  /** What a store with one more record of `native` is certified for. */
  lemma PublishCertifies(records: map<Garden, Record>, g: Garden, native: Native)
    requires g !in records
    ensures Certified(records[g := Record(native, None)]) <==>
              Certified(records) && Find(records, native).None?
  {
    var t := records[g := Record(native, None)];
    if Find(records, native).Some? {
      var k := Find(records, native).value;
      assert t[k].native == t[g].native && k != g;
    }
    if Certified(t) {
      forall a, b | a in records && b in records && records[a].native == records[b].native ensures a == b {
        assert t[a] == records[a] && t[b] == records[b];
      }
    }
  }

  /** Rewriting a record under its own session changes nothing. */
  lemma RewriteCertifies(records: map<Garden, Record>, g: Garden, record: Record)
    requires g in records && records[g].native == record.native
    ensures Certified(records[g := record]) <==> Certified(records)
  {
    var t := records[g := record];
    assert forall k :: k in t ==> k in records && t[k].native == records[k].native;
    assert forall k :: k in records ==> k in t;
  }

  lemma OnlyCreatesAndAttachesWrite(s: State, h: HookId, minted: Garden, ok: bool)
    requires Live(s, h) && !s.hooks[h].pc.CreatePublish? && !s.hooks[h].pc.AttachWrite?
    ensures Act(s, h, minted, ok).store.records == s.store.records
  {}

  lemma StepCertifies(s: State, e: Event)
    requires HookAgreement.Inv(s)
    ensures Certified(Step(s, e).store.records) <==> Certified(s.store.records) && !Doubles(s, e)
  {
    if e.Go? && Live(s, e.hook) {
      var hook := s.hooks[e.hook];
      assert HookAgreement.Stands(s, e.hook, hook);
      match hook.pc
      case CreatePublish =>
        if e.minted !in s.store.records { PublishCertifies(s.store.records, e.minted, hook.native); }
      case AttachWrite(g, record) => RewriteCertifies(s.store.records, g, record);
      case _ => OnlyCreatesAndAttachesWrite(s, e.hook, e.minted, e.ok);
    }
  }

  /** Over every run: the store is certified exactly when no create doubled a session. */
  lemma {:induction false} CertifiedUnlessDoubled(run: seq<Event>)
    ensures Certified(Run(run).store.records) <==> !Doubled(run)
    decreases |run|
  {
    if run != [] {
      CertifiedUnlessDoubled(run[..|run| - 1]);
      HookAgreement.RunKeeps(run[..|run| - 1]);
      StepCertifies(Run(run[..|run| - 1]), run[|run| - 1]);
    }
  }
}
