/**
  The hook payload as the one-pass program it is, over a store nobody else is writing: every run of
  `Handle` is a run of the program counter of module HookModel, and it gives back the lock it took.
*/
module HookProcess {
  import opened Option
  import opened HookModel

  const ARM_LOCK_WAIT_MS: nat := 2000
  const ARM_LOCK_POLL_MS: nat := 25

  /** The state after the events of `run`, from `s`. */
  ghost function Steps(s: State, run: seq<Event>): State
    decreases |run|
  {
    if run == [] then s else Step(Steps(s, run[..|run| - 1]), run[|run| - 1])
  }

  /** Where the record leaves the hook: with a garden to lock, with one it just made, or nowhere. */
  datatype Learned = ToLock(garden: Garden) | Made(garden: Garden) | Nowhere

  function Deadline(start: int, wait: bool): int {
    start + if wait then ARM_LOCK_WAIT_MS else 0
  }

  /** Attempt `i` was refused, and the clock read after it was short of the deadline. */
  predicate Refused(answer: nat -> bool, now: nat -> int, deadline: int, i: nat) {
    !answer(i) && now(i + 1) < deadline
  }

  class Process {
    const id: HookId
    const arms: bool
    const native: Native
    const owner: Option<Pid>

    // the store
    var records: map<Garden, Record>
    var locks: map<Garden, HookId>
    var markers: map<Garden, Marker>
    var senders: map<Pid, Garden>
    const dead: set<HookId>                 // what a liveness probe answers

    var heldArmLock: Option<Garden>

    ghost const origin: State
    ghost var run: seq<Event>
    ghost var model: State

    constructor (s: State, h: HookId)
      requires Live(s, h) && s.hooks[h].pc == Lookup
      ensures Follows() && heldArmLock == None && model == s && origin == s && id == h
    {
      id, arms, native, owner := h, s.hooks[h].arms, s.hooks[h].native, s.hooks[h].owner;
      records, locks, markers, senders := s.store.records, s.store.locks, s.store.markers, s.store.senders;
      dead, heldArmLock := s.dead, None;
      origin, run, model := s, [], s;
    }

    /** The model hook is this process, it has seen this store, and it got there by its own steps. */
    ghost predicate Follows()
      reads this
    {
      && Live(model, id) && model.dead == dead
      && model.store == Store(records, locks, markers, senders)
      && model.hooks[id].arms == arms && model.hooks[id].native == native && model.hooks[id].owner == owner
      && Steps(origin, run) == model
      && forall e :: e in run ==> e.Go? && e.hook == id
    }

    ghost function Pc(): Pc
      requires id in model.hooks
      reads this
    {
      model.hooks[id].pc
    }

    /** One step of the model hook. */
    ghost method Advance(minted: Garden, ok: bool)
      requires Live(model, id) && Steps(origin, run) == model
      requires forall e :: e in run ==> e.Go? && e.hook == id
      modifies this`run, this`model
      ensures model == Act(old(model), id, minted, ok)
      ensures Steps(origin, run) == model && forall e :: e in run ==> e.Go? && e.hook == id
    {
      var e := Go(id, minted, ok);
      assert (run + [e])[..|run + [e]| - 1] == run;
      model := Step(model, e);
      run := run + [e];
    }

    method FindCertified() returns (certified: bool, found: Option<Garden>)
      ensures certified == Certified(records)
      ensures certified ==> found == Find(records, native)
    {
      certified := Certified(records);
      found := None;
      if g :| g in records && records[g].native == native { found := Some(g); }
    }

    /**
      One attempt, or attempts every 25 ms until one is granted or 2000 ms have passed: `answer` is what
      each attempt gets, `now` what each reading of the clock gives.
    */
    method TakeArmLock(g: Garden, wait: bool, answer: nat -> bool, now: nat -> int) returns (ok: bool, tries: nat)
      requires now(0) <= now(1) && forall i: nat :: i > 0 ==> now(i) + ARM_LOCK_POLL_MS <= now(i + 1)
      modifies this`heldArmLock
      ensures tries > 0 && (if wait then tries <= 81 else tries == 1)
      ensures ok == answer(tries - 1) && (answer(0) ==> ok)
      ensures forall i: nat :: i < tries - 1 ==> Refused(answer, now, Deadline(now(0), wait), i)
      ensures !ok ==> now(tries) >= Deadline(now(0), wait)
      ensures heldArmLock == if ok then Some(g) else old(heldArmLock)
    {
      var deadline := Deadline(now(0), wait);
      tries := 0;
      while true
        invariant tries > 0 ==> now(0) + ARM_LOCK_POLL_MS * (tries - 1) <= now(tries) < deadline
        invariant now(0) + ARM_LOCK_POLL_MS * tries <= now(tries + 1)
        invariant heldArmLock == old(heldArmLock) && (tries > 0 ==> !answer(0))
        invariant forall i: nat :: i < tries ==> Refused(answer, now, deadline, i)
        decreases deadline - now(tries + 1)
      {
        var granted := answer(tries);
        tries := tries + 1;
        if granted {
          heldArmLock := Some(g);
          return true, tries;
        }
        if now(tries) >= deadline { return false, tries; }
        assert now(tries) + ARM_LOCK_POLL_MS <= now(tries + 1);
      }
    }

    method ReleaseArmLock()
      modifies this`heldArmLock, this`locks
      ensures heldArmLock == None
      ensures locks == match old(heldArmLock)
                       case None => old(locks)
                       case Some(g) =>
                         if g in old(locks) && old(locks)[g] == id then old(locks) - {g} else old(locks)
    {
      if heldArmLock.Some? {
        var g := heldArmLock.value;
        heldArmLock := None;
        if g in locks && locks[g] == id { locks := locks - {g}; }
      }
    }

    /** upsertMetaSession for a session that has no record: certify once more, then publish. */
    method Create(minted: Garden, ok: bool) returns (learned: Learned)
      requires Follows() && Pc() == CreateDecide && Certified(records) && Find(records, native).None?
      modifies this`records, this`run, this`model
      ensures Follows()
      ensures match learned
              case ToLock(g) => arms && Pc() == TakeLock(g) && g in records && records[g].native == native
              case Made(g) => !arms && Pc() == AfterCommit(model.hooks[id], g)
              case Nowhere => Pc() == Exited(false)
      ensures learned == (if minted in old(records) || !ok then Nowhere
                          else if arms then ToLock(minted) else Made(minted))
      ensures records == if learned.Nowhere? then old(records) else old(records)[minted := Record(native, None)]
    {
      Advance(minted, true);
      assert Pc() == CreatePublish;
      Advance(minted, ok);
      if minted in records || !ok { return Nowhere; }
      records := records[minted := Record(native, None)];
      return if arms then ToLock(minted) else Made(minted);
    }

    /** The garden of this native session: of the record it has, or of one that can be made. */
    ghost function Serves(minted: Garden, createOk: bool): Option<Garden>
      reads this
    {
      if !Certified(records) then None
      else if Find(records, native).Some? then Find(records, native)
      else if minted in records || !createOk then None
      else Some(minted)
    }

    /** The record of this native session: found, or created now, or neither. */
    method Learn(minted: Garden, createOk: bool) returns (learned: Learned)
      requires Follows() && Pc() == Lookup
      modifies this`records, this`run, this`model
      ensures Follows()
      ensures match learned
              case ToLock(g) => Pc() == TakeLock(g) && g in records && records[g].native == native
              case Made(g) => !arms && Pc() == AfterCommit(model.hooks[id], g)
              case Nowhere => Pc() == Exited(false)
      ensures learned == match old(Serves(minted, createOk))
                         case None => Nowhere
                         case Some(g) => if g in old(records) || arms then ToLock(g) else Made(g)
      ensures records == match old(Serves(minted, createOk))
                         case None => old(records)
                         case Some(g) => if g in old(records) then old(records) else old(records)[g := Record(native, None)]
      ensures Certified(old(records)) ==> Certified(records)
    {
      var certified, found := FindCertified();
      Advance(minted, true);
      if !certified { return Nowhere; }
      if found.Some? { return ToLock(found.value); }
      learned := Create(minted, createOk);
    }

    /** Under the lock: the record read, bound to this arm and written back. */
    method Bind(g: Garden, minted: Garden, attachOk: bool) returns (bound: bool)
      requires Follows() && Pc() == AttachRead(g) && g in records && records[g].native == native
      modifies this`records, this`run, this`model
      ensures Follows()
      ensures Pc() == if bound then AfterCommit(model.hooks[id], g) else Unlock(g)
      ensures bound <==> Certified(old(records)) && attachOk
      ensures records == if bound then old(records)[g := Record(native, if arms then Some(id) else old(records)[g].inc)]
                         else old(records)
    {
      var certified, found := FindCertified();
      Advance(minted, true);
      if !certified { return false; }
      Advance(minted, attachOk);
      if !attachOk { return false; }
      records := records[g := records[g].(inc := if arms then Some(id) else records[g].inc)];
      return true;
    }

    /** The garden this owner served before, if it was another one. */
    method ReadPrevious(g: Garden) returns (previous: Option<Garden>)
      requires Follows() && Pc() == ReadPointer(g) && owner.Some?
      modifies this`run, this`model
      ensures Follows() && Pc() == if previous.Some? then RetireRead(g, previous.value) else WritePointer(g)
      ensures previous == if owner.value in senders && senders[owner.value] != g then Some(senders[owner.value]) else None
    {
      var p := owner.value;
      Advance(0, true);
      previous := if p in senders && senders[p] != g then Some(senders[p]) else None;
    }

    predicate OwnsMarker(g: Garden)
      reads this
    {
      g in markers && Some(markers[g].owner) == owner
    }

    /** Its marker goes, if the owner's it is. */
    method RemoveMarker(g: Garden, previous: Garden, unlinkOk: bool)
      requires Follows() && Pc() == RetireRead(g, previous) && owner.Some?
      modifies this`markers, this`run, this`model
      ensures Follows() && Pc() == WritePointer(g)
      ensures markers == if previous in old(markers) && old(markers)[previous].owner == owner.value && unlinkOk
                         then old(markers) - {previous} else old(markers)
    {
      Advance(0, true);
      if previous in markers && markers[previous].owner == owner.value {
        assert Pc() == RetireUnlink(g, previous);
        Advance(0, unlinkOk);
        if unlinkOk { markers := markers - {previous}; }
      }
    }

    /** Whatever this owner served before is no longer drained: its marker goes, if the owner's it is. */
    method Retire(g: Garden, unlinkOk: bool)
      requires Follows() && Pc() == ReadPointer(g) && owner.Some?
      modifies this`markers, this`run, this`model
      ensures Follows() && Pc() == WritePointer(g)
      ensures markers == if owner.value in senders && senders[owner.value] != g
                            && old(OwnsMarker(senders[owner.value])) && unlinkOk
                         then old(markers) - {senders[owner.value]} else old(markers)
    {
      var previous := ReadPrevious(g);
      if previous.Some? { RemoveMarker(g, previous.value, unlinkOk); }
    }

    method Point(g: Garden, ok: bool)
      requires Follows() && Pc() == WritePointer(g) && owner.Some?
      modifies this`senders, this`run, this`model
      ensures Follows() && Pc() == if arms then WriteMarker(g) else Unlock(g)
      ensures senders == if ok then old(senders)[owner.value := g] else old(senders)
    {
      Advance(0, ok);
      if ok { senders := senders[owner.value := g]; }
    }

    method Advertise(g: Garden, ok: bool)
      requires Follows() && Pc() == WriteMarker(g) && owner.Some?
      modifies this`markers, this`run, this`model
      ensures Follows() && Pc() == Unlock(g)
      ensures markers == if ok then old(markers)[g := Marker(owner.value, id)] else old(markers)
    {
      Advance(0, ok);
      if ok { markers := markers[g := Marker(owner.value, id)]; }
    }

    method Emit(g: Garden)
      requires Follows() && Pc() == Unlock(g)
      requires heldArmLock == if g in locks && locks[g] == id then Some(g) else None
      modifies this`heldArmLock, this`locks, this`run, this`model
      ensures Follows() && Pc() == Exited(false) && heldArmLock == None
      ensures locks == if g in old(locks) && old(locks)[g] == id then old(locks) - {g} else old(locks)
    {
      Advance(0, true);
      ReleaseArmLock();
    }

    /** Every marker that is not of the garden `g` and not of this owner is as it was. */
    ghost predicate SparesMarkers(was: map<Garden, Marker>, g: Garden)
      reads this
    {
      forall k :: k in was && k != g && Some(was[k].owner) != owner ==> k in markers && markers[k] == was[k]
    }

    /** Sender pointer, retirement, receiver marker. */
    method Mark(g: Garden, unlinkOk: bool, pointerOk: bool, markerOk: bool) returns (marked: bool)
      requires Follows() && Pc() == AfterCommit(model.hooks[id], g)
      modifies this`markers, this`senders, this`run, this`model
      ensures Follows() && Pc() == Unlock(g)
      ensures marked <==> arms && owner.Some? && markerOk
      ensures marked ==> g in markers && markers[g] == Marker(owner.value, id)
      ensures senders == if owner.Some? && pointerOk then old(senders)[owner.value := g] else old(senders)
      ensures SparesMarkers(old(markers), g) && (owner.None? || !arms ==> markers == old(markers))
    {
      marked := false;
      if owner.Some? && arms {
        Retire(g, unlinkOk);
        marked := PointAndAdvertise(g, pointerOk, markerOk);
      } else if owner.Some? {
        Point(g, pointerOk);
      }
    }

    method PointAndAdvertise(g: Garden, pointerOk: bool, markerOk: bool) returns (marked: bool)
      requires Follows() && Pc() == WritePointer(g) && owner.Some? && arms
      modifies this`markers, this`senders, this`run, this`model
      ensures Follows() && Pc() == Unlock(g) && marked == markerOk
      ensures senders == if pointerOk then old(senders)[owner.value := g] else old(senders)
      ensures markers == if markerOk then old(markers)[g := Marker(owner.value, id)] else old(markers)
    {
      Point(g, pointerOk);
      Advertise(g, markerOk);
      marked := markerOk;
    }

    predicate Free(g: Garden)
      reads this
    {
      g !in locks || locks[g] in dead
    }

    /** `grants`: whether an attempt at a free lock is granted; a throw or a file left behind refuses it. */
    method Lock(g: Garden, grants: nat -> bool, now: nat -> int) returns (ok: bool)
      requires Follows() && Pc() == TakeLock(g)
      requires now(0) <= now(1) && forall i: nat :: i > 0 ==> now(i) + ARM_LOCK_POLL_MS <= now(i + 1)
      modifies this`heldArmLock, this`locks, this`run, this`model
      ensures Follows() && Pc() == if ok then AttachRead(g) else Exited(true)
      ensures (old(Free(g)) && grants(0) ==> ok) && (ok ==> old(Free(g)))
      ensures locks == if ok then old(locks)[g := id] else old(locks)
      ensures heldArmLock == if ok then Some(g) else old(heldArmLock)
    {
      var free := Free(g);
      var tries: nat;
      ok, tries := TakeArmLock(g, arms, (i: nat) => free && grants(i), now);
      Advance(0, ok);
      if ok { locks := locks[g := id]; }
    }

    /** What holds of a hook that is done: where it stands, and that it left no lock. */
    ghost predicate Finished()
      reads this
    {
      Follows() && Pc().Exited? && heldArmLock == None && forall g :: g in locks ==> locks[g] != id
    }

    /** Record and marker of `g` name each other, and the owner's pointer names `g` if it could be written. */
    ghost predicate Armed(g: Garden)
      reads this
    {
      && arms && owner.Some? && g in records && g in markers
      && markers[g].owner == owner.value && records[g].inc == Some(id) == Some(markers[g].inc)
    }

    /** The lock of `g` is taken, and its record bound: false if either could not be done. */
    method LockAndBind(g: Garden, minted: Garden, attachOk: bool, grants: nat -> bool, now: nat -> int)
        returns (bound: bool)
      requires Follows() && Pc() == TakeLock(g) && g in records && records[g].native == native
      requires heldArmLock == None && forall k :: k in locks ==> locks[k] != id
      requires now(0) <= now(1) && forall i: nat :: i > 0 ==> now(i) + ARM_LOCK_POLL_MS <= now(i + 1)
      modifies this`heldArmLock, this`locks, this`records, this`run, this`model
      ensures Follows()
      ensures !bound ==> Finished() && records == old(records)
      ensures bound ==> Pc() == AfterCommit(model.hooks[id], g) && Certified(old(records)) && attachOk
      ensures bound ==> heldArmLock == Some(g) && locks == old(locks)[g := id]
      ensures bound ==> records == old(records)[g := Record(native, if arms then Some(id) else old(records)[g].inc)]
      ensures old(Free(g)) && grants(0) && Certified(old(records)) && attachOk ==> bound
    {
      bound := Lock(g, grants, now);
      if bound {
        bound := Bind(g, minted, attachOk);
        if !bound { Emit(g); }
      }
    }

    /** What a hook that serves `g` and was not turned away leaves. */
    ghost predicate Served(g: Garden, pointerOk: bool)
      reads this
    {
      && g in records && records[g].native == native && (arms ==> records[g].inc == Some(id))
      && (owner.Some? && pointerOk ==> owner.value in senders && senders[owner.value] == g)
    }

    /** Nothing of another session, another process or another garden was touched. */
    ghost predicate Spares(g: Garden, was: Store)
      reads this
    {
      && (forall k :: k in was.records && k != g ==> k in records && records[k] == was.records[k])
      && (forall p :: p in was.senders && Some(p) != owner ==> p in senders && senders[p] == was.senders[p])
      && SparesMarkers(was.markers, g)
    }

    /** Once the garden is learned: lock and bind it if it is not one just made, then mark. */
    method Serve(learned: Learned, minted: Garden, attachOk: bool, unlinkOk: bool, pointerOk: bool, markerOk: bool,
                 grants: nat -> bool, now: nat -> int) returns (bound: bool, armed: bool)
      requires Follows() && !learned.Nowhere?
      requires learned.ToLock? ==> Pc() == TakeLock(learned.garden)
      requires learned.Made? ==> !arms && Pc() == AfterCommit(model.hooks[id], learned.garden)
      requires learned.garden in records && records[learned.garden].native == native
      requires heldArmLock == None && forall g :: g in locks ==> locks[g] != id
      requires now(0) <= now(1) && forall i: nat :: i > 0 ==> now(i) + ARM_LOCK_POLL_MS <= now(i + 1)
      modifies this
      ensures Finished() && Spares(learned.garden, old(Store(records, locks, markers, senders)))
      ensures bound ==> Served(learned.garden, pointerOk)
      ensures armed <==> bound && arms && owner.Some? && markerOk
      ensures armed ==> Armed(learned.garden)
      ensures learned.Made? || (old(Free(learned.garden)) && grants(0) && Certified(old(records)) && attachOk) ==> bound
    {
      var g := learned.garden;
      bound, armed := true, false;
      if learned.ToLock? { bound := LockAndBind(g, minted, attachOk, grants, now); }
      if bound { armed := Finish(g, unlinkOk, pointerOk, markerOk); }
    }

    /** The record is committed: pointer and marker, and the lock given back if one was taken. */
    method Finish(g: Garden, unlinkOk: bool, pointerOk: bool, markerOk: bool) returns (armed: bool)
      requires Follows() && Pc() == AfterCommit(model.hooks[id], g)
      requires heldArmLock == if g in locks && locks[g] == id then Some(g) else None
      requires forall k :: k in locks && k != g ==> locks[k] != id
      modifies this`heldArmLock, this`locks, this`markers, this`senders, this`run, this`model
      ensures Finished() && SparesMarkers(old(markers), g)
      ensures senders == if owner.Some? && pointerOk then old(senders)[owner.value := g] else old(senders)
      ensures armed <==> arms && owner.Some? && markerOk
      ensures armed ==> g in markers && markers[g] == Marker(owner.value, id)
    {
      armed := Mark(g, unlinkOk, pointerOk, markerOk);
      Emit(g);
    }

    /**
      The whole hook, alone with the store: its run is a run of the program counter, whatever its file
      operations answer, and it exits holding no lock. If it has a garden, and gets its lock and writes its
      record where it needs to, it leaves that record bound and, with an owner, its pointer there; an arm that
      then can write its marker leaves a matched pair. Without a garden it writes nothing, and it never touches
      another record, another process's pointer, or another process's marker elsewhere.
    */
    method Handle(minted: Garden, createOk: bool, attachOk: bool, unlinkOk: bool, pointerOk: bool, markerOk: bool,
                  grants: nat -> bool, now: nat -> int) returns (served: Option<Garden>, armed: bool)
      requires Follows() && Pc() == Lookup && heldArmLock == None
      requires forall g :: g in locks ==> locks[g] != id
      requires now(0) <= now(1) && forall i: nat :: i > 0 ==> now(i) + ARM_LOCK_POLL_MS <= now(i + 1)
      modifies this
      ensures Finished()
      ensures served.Some? ==> served == old(Serves(minted, createOk)) && Served(served.value, pointerOk)
      ensures forall g :: old(Serves(minted, createOk)) == Some(g) && old(Gets(g, attachOk, grants)) ==> served == Some(g)
      ensures armed <==> served.Some? && arms && owner.Some? && markerOk
      ensures armed ==> Armed(served.value)
      ensures match old(Serves(minted, createOk))
              case Some(g) => Spares(g, old(Store(records, locks, markers, senders)))
              case None => Store(records, locks, markers, senders) == old(Store(records, locks, markers, senders))
    {
      served, armed := None, false;
      var learned := Learn(minted, createOk);
      if learned != Nowhere {
        var bound;
        bound, armed := Serve(learned, minted, attachOk, unlinkOk, pointerOk, markerOk, grants, now);
        if bound { served := Some(learned.garden); }
      }
    }

    /** A prompt that makes its record needs no lock; any other hook gets its lock at once and binds. */
    ghost predicate Gets(g: Garden, attachOk: bool, grants: nat -> bool)
      reads this
    {
      (!arms && g !in records) || (Free(g) && grants(0) && attachOk)
    }
  }
}
