/**
  What the lock file does grant: when an attempt left alone gets it, what each system call does to the two
  files, what turns an attempt away, and that every attempt comes to its end.
*/
module ArmLockOutcome {
  import opened Option
  import opened ArmLock

  // ---- left alone -------------------------------------------------------------------

  predicate Answered(s: State, a: Attempt) {
    a in s.pcs && (s.pcs[a] == Held || s.pcs[a] == Over)
  }

  /** Up to `n` calls of `a`, none of which fails, until it is told. */
  function Acquired(s: State, a: Attempt, n: nat): State
    decreases n
  {
    if n == 0 || Answered(s, a) then s else Acquired(Step(s, Syscall(a, false)), a, n - 1)
  }

  /** The lock is there to be had: no lock file, or one of a dead process that nobody is taking away. */
  predicate Available(s: State) {
    s.file == Absent || (s.file.Claim? && IsDead(s, s.file.owner) && s.mark.None?)
  }

  /** One call more. */
  lemma Calls(s: State, a: Attempt, n: nat, t: State)
    requires n > 0 && Live(s, a) && !Answered(s, a) && t == Call(s, a, false)
    ensures Acquired(s, a, n) == Acquired(t, a, n - 1)
  {}

  lemma Rests(s: State, a: Attempt, n: nat)
    requires Answered(s, a)
    ensures Acquired(s, a, n) == s
  {}

  lemma GetsFree(s: State, a: Attempt)
    requires Live(s, a) && s.pcs[a] == Create && s.file == Absent
    ensures Acquired(s, a, 9) == s.(file := Claim(a), pcs := s.pcs[a := Held])
  {
    var s1 := At(s.(file := Empty(a)), a, Write(false));
    var s2 := At(s.(file := Claim(a)), a, Held);
    Calls(s, a, 9, s1);
    assert s2.pcs == s1.pcs[a := Held];
    Calls(s1, a, 8, s2);
    Rests(s2, a, 7);
  }

  lemma ToProbe(s: State, a: Attempt)
    requires Live(s, a) && s.pcs[a] == Create && s.file.Claim?
    ensures Acquired(s, a, 9) == Acquired(At(s, a, Probe(s.file.owner)), a, 7)
  {
    var s1 := At(s, a, ReadHolder);
    var s2 := At(s, a, Probe(s.file.owner));
    Calls(s, a, 9, s1);
    assert s2.pcs == s1.pcs[a := Probe(s.file.owner)];
    Calls(s1, a, 8, s2);
  }

  /** Refused at its next call. */
  lemma RefusedNext(s: State, was: State, a: Attempt, n: nat)
    requires n > 0 && Live(s, a) && !Answered(s, a) && Call(s, a, false) == At(s, a, Over)
    requires s == At(was, a, s.pcs[a])
    ensures Acquired(s, a, n) == At(was, a, Over)
  {
    Calls(s, a, n, At(s, a, Over));
    Rests(At(s, a, Over), a, n - 1);
    assert s.pcs[a := Over] == was.pcs[a := Over];
  }

  lemma RefusesEmpty(s: State, a: Attempt)
    requires Live(s, a) && s.pcs[a] == Create && s.file.Empty?
    ensures Acquired(s, a, 9) == At(s, a, Over)
  {
    var s1 := At(s, a, ReadHolder);
    Calls(s, a, 9, s1);
    RefusedNext(s1, s, a, 8);
  }

  lemma RefusesClaim(s: State, a: Attempt)
    requires Live(s, a) && s.pcs[a] == Create && s.file.Claim? && !Available(s)
    ensures Acquired(s, a, 9) == At(s, a, Over)
  {
    var h := s.file.owner;
    var s2 := At(s, a, Probe(h));
    ToProbe(s, a);
    if IsDead(s, h) {
      var s3 := At(s, a, Mark(h));
      assert s3.pcs == s2.pcs[a := Mark(h)];
      Calls(s2, a, 7, s3);
      RefusedNext(s3, s, a, 6);
    } else {
      RefusedNext(s2, s, a, 7);
    }
  }

  /** From the dead claim to the last look at it, which makes the reclaim file. */
  lemma ToUnlink(s: State, a: Attempt)
    requires Live(s, a) && s.file.Claim? && IsDead(s, s.file.owner) && s.mark.None?
    ensures Acquired(At(s, a, Probe(s.file.owner)), a, 7)
         == Acquired(At(s.(mark := Some(a)), a, Unlink(s.file.owner)), a, 4)
  {
    var h := s.file.owner;
    var m := s.(mark := Some(a));
    var s2, s3, s4, s5 := At(s, a, Probe(h)), At(s, a, Mark(h)), At(m, a, Reread(h)), At(m, a, Unlink(h));
    assert s3.pcs == s2.pcs[a := Mark(h)] && s4.pcs == s3.pcs[a := Reread(h)] && s5.pcs == s4.pcs[a := Unlink(h)];
    Calls(s2, a, 7, s3);
    Calls(s3, a, 6, s4);
    Calls(s4, a, 5, s5);
  }

  /** Past the last look at the dead claim. */
  lemma TakesOver(s: State, a: Attempt)
    requires Live(s, a) && s.pcs[a].Unlink?
    ensures Acquired(s, a, 4) == s.(file := Claim(a), mark := None, pcs := s.pcs[a := Held])
  {
    var s1 := At(s.(file := Absent), a, Recreate);
    var s2 := At(s.(file := Empty(a)), a, Write(true));
    var s3 := At(s.(file := Claim(a)), a, Unmark(true));
    var s4 := At(s.(file := Claim(a), mark := None), a, Held);
    assert s2.pcs == s1.pcs[a := Write(true)] && s3.pcs == s2.pcs[a := Unmark(true)] && s4.pcs == s3.pcs[a := Held];
    Calls(s, a, 4, s1);
    Calls(s1, a, 3, s2);
    Calls(s2, a, 2, s3);
    Calls(s3, a, 1, s4);
    Rests(s4, a, 0);
  }

  lemma Reclaims(s: State, a: Attempt)
    requires Live(s, a) && s.pcs[a] == Create && s.file.Claim? && IsDead(s, s.file.owner) && s.mark.None?
    ensures Acquired(s, a, 9) == s.(file := Claim(a), pcs := s.pcs[a := Held])
  {
    var s5 := At(s.(mark := Some(a)), a, Unlink(s.file.owner));
    ToProbe(s, a);
    ToUnlink(s, a);
    TakesOver(s5, a);
    assert s5.pcs[a := Held] == s.pcs[a := Held];
  }

  /**
    An attempt that is left alone, from any state of the two files, is told within nine calls: it holds the
    lock, under its own claim, exactly if the lock was there to be had, and else nothing has changed.
  */
  lemma {:induction false} AloneIff(s: State, a: Attempt)
    requires Live(s, a) && s.pcs[a] == Create
    ensures var t := Acquired(s, a, 9);
      && Answered(t, a) && (t.pcs[a] == Held <==> Available(s))
      && t.file == (if Available(s) then Claim(a) else s.file) && t.mark == s.mark
  {
    if s.file == Absent { GetsFree(s, a); }
    else if Available(s) { Reclaims(s, a); }
    else if s.file.Empty? { RefusesEmpty(s, a); }
    else { RefusesClaim(s, a); }
  }

  // ---- every call -------------------------------------------------------------------

  /** What a call does to the lock file and to the reclaim file. */
  ghost predicate FilesMove(s: State, t: State, a: Attempt, fails: bool)
    requires a in s.pcs
  {
    var pc := s.pcs[a];
    && t.file == (
         if (pc == Create || pc == Retry || pc == Recreate) && s.file == Absent then Empty(a)
         else if pc.Write? then (if fails then Absent else Claim(a))
         else if pc.Unlink? || pc == Release then Absent
         else s.file)
    && t.mark == (
         if pc.Mark? && s.mark.None? then Some(a)
         else if pc.Unmark? && !fails then None
         else s.mark)
  }

  /** What a call tells the attempt: that it holds the lock, or that it does not. */
  ghost predicate Told(s: State, t: State, a: Attempt, fails: bool)
    requires a in s.pcs && a in t.pcs && s.pcs[a] != Over
  {
    var pc := s.pcs[a];
    && (t.pcs[a] == Held <==> (pc == Write(false) && !fails) || pc == Unmark(true))
    && (t.pcs[a] == Over <==>
          || (pc == Write(false) && fails)
          || (pc == ReadHolder && s.file.Empty?)
          || (pc == Retry && s.file != Absent)
          || (pc.Probe? && (fails || !IsDead(s, pc.holder)))
          || (pc.Mark? && s.mark.Some?)
          || pc == Unmark(false)
          || (pc == Held && s.file != Claim(a))
          || pc == Release)
  }

  /** How many calls an attempt has before it at most. */
  function CallsLeft(pc: Pc): nat {
    match pc
    case Create => 12
    case ReadHolder => 11
    case Retry => 10
    case Probe(_) => 10
    case Mark(_) => 9
    case Reread(_) => 8
    case Unlink(_) => 7
    case Recreate => 6
    case Write(reclaiming) => if reclaiming then 5 else 3
    case Unmark(_) => 4
    case Held => 2
    case Release => 1
    case Over => 0
  }

  /**
    Each call of a live attempt, in every run: it changes the files as its place says and nothing else, grants
    and refuses for these causes only, and brings its attempt nearer to its end.
  */
  lemma {:induction false} EveryCall(run: seq<Event>, a: Attempt, fails: bool)
    requires Live(Run(run), a) && Run(run).pcs[a] != Over
    ensures var s, t := Run(run), Run(run + [Syscall(a, fails)]);
      && a in t.pcs && t.pcs == s.pcs[a := t.pcs[a]] && t.pids == s.pids && t.dead == s.dead
      && FilesMove(s, t, a, fails) && Told(s, t, a, fails)
      && CallsLeft(t.pcs[a]) < CallsLeft(s.pcs[a])
  {
    var all := run + [Syscall(a, fails)];
    assert all[..|all| - 1] == run && all[|all| - 1] == Syscall(a, fails);
  }

  /** A holder that is left alone gives its lock back in two calls. */
  lemma {:induction false} ReleaseFrees(run: seq<Event>, a: Attempt)
    requires Holds(Run(run), a) && Run(run).pcs[a] == Held
    ensures var t := Step(Step(Run(run), Syscall(a, false)), Syscall(a, false));
      t.file == Absent && a in t.pcs && t.pcs[a] == Over
  {
    MutualExclusion(run, a, a);
  }
}
