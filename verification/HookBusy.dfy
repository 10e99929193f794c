/**
  What a hook turned away by a busy lock has written: nothing, exactly when one of its own looks found a
  record of its session, and otherwise the record it created itself.
*/
module HookBusy {
  import opened Option
  import opened HookModel

  /** Nothing, or nothing but a record created. */
  predicate AtMostCreated(writes: seq<Write>) {
    writes == [] || (|writes| == 1 && writes[0].Created?)
  }

  /** In this event the hook looks for its session in a certified store, and finds a record of it. */
  ghost predicate Finds(s: State, e: Event, h: HookId) {
    && e.Go? && e.hook == h && Live(s, h) && (s.hooks[h].pc.Lookup? || s.hooks[h].pc.CreateDecide?)
    && Certified(s.store.records) && Find(s.store.records, s.hooks[h].native).Some?
  }

  /** One of the hook's looks has found a record. */
  ghost predicate Found(run: seq<Event>, h: HookId)
    decreases |run|
  {
    run != [] && (Found(run[..|run| - 1], h) || Finds(Run(run[..|run| - 1]), run[|run| - 1], h))
  }

  /** What a hook that wants its lock has written. */
  predicate WantsLock(hook: Hook, found: bool) {
    (hook.writes == [] <==> found) && AtMostCreated(hook.writes) && (!hook.arms ==> hook.writes == [])
  }

  /** What a hook has written, and whether it has found a record, before it holds any lock. */
  predicate WritesFit(hook: Hook, found: bool) {
    match hook.pc
    case Lookup => hook.writes == [] && !found
    case CreateDecide => hook.writes == [] && !found
    case CreatePublish => hook.writes == [] && !found
    case LookupAgain => hook.writes == [] && found
    case TakeLock(_) => WantsLock(hook, found)
    case Exited(busy) => busy ==> WantsLock(hook, found)
    case _ => true
  }

  ghost predicate Fits(s: State, h: HookId, found: bool) {
    if h in s.hooks then WritesFit(s.hooks[h], found) else !found
  }

  lemma AdmitFits(s: State, h: HookId, minted: Garden, ok: bool, found: bool)
    requires Live(s, h) && WritesFit(s.hooks[h], found)
    ensures var t := Admit(s, h, minted, ok);
      h in t.hooks && WritesFit(t.hooks[h], found || Finds(s, Go(h, minted, ok), h))
  {}

  lemma AttachFits(s: State, h: HookId, ok: bool, found: bool)
    requires Live(s, h) && (s.hooks[h].pc.AttachRead? || s.hooks[h].pc.AttachWrite?)
    ensures var t := Attach(s, h, ok); h in t.hooks && WritesFit(t.hooks[h], found)
  {}

  lemma MarkFits(s: State, h: HookId, ok: bool, found: bool)
    requires Live(s, h) && (HalfArmed(s.hooks[h].pc) || s.hooks[h].pc.Unlock?)
    ensures var t := Mark(s, h, ok); h in t.hooks && WritesFit(t.hooks[h], found)
  {}

  lemma OtherHooks(s: State, b: HookId, minted: Garden, ok: bool, h: HookId)
    requires Live(s, b) && b != h
    ensures var t := Act(s, b, minted, ok); (h in t.hooks <==> h in s.hooks) && (h in s.hooks ==> t.hooks[h] == s.hooks[h])
  {}

  lemma StepFits(s: State, e: Event, h: HookId, found: bool)
    requires Fits(s, h, found)
    ensures Fits(Step(s, e), h, found || Finds(s, e, h))
  {
    if e.Go? && Live(s, e.hook) {
      if e.hook == h {
        AdmitFits(s, h, e.minted, e.ok, found);
        if s.hooks[h].pc.AttachRead? || s.hooks[h].pc.AttachWrite? { AttachFits(s, h, e.ok, found); }
        if HalfArmed(s.hooks[h].pc) || s.hooks[h].pc.Unlock? { MarkFits(s, h, e.ok, found); }
      } else {
        OtherHooks(s, e.hook, e.minted, e.ok, h);
      }
    }
  }

  lemma {:induction false} RunFits(run: seq<Event>, h: HookId)
    ensures Fits(Run(run), h, Found(run, h))
    decreases |run|
  {
    if run != [] {
      RunFits(run[..|run| - 1], h);
      StepFits(Run(run[..|run| - 1]), run[|run| - 1], h, Found(run[..|run| - 1], h));
    }
  }

  /**
    A hook turned away by a busy lock wrote nothing exactly when one of its own looks had found a record of
    its session; otherwise it wrote the record it created, and only that. A prompt never wrote anything.
  */
  lemma {:induction false} BusyWroteNothing(run: seq<Event>, h: HookId)
    requires h in Run(run).hooks && Run(run).hooks[h].pc == Exited(true)
    ensures var hook := Run(run).hooks[h];
      && (hook.writes == [] <==> Found(run, h))
      && (hook.writes != [] ==> |hook.writes| == 1 && hook.writes[0].Created?)
      && (!hook.arms ==> hook.writes == [])
  {
    RunFits(run, h);
  }
}
