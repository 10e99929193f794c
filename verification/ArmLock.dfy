/**
  The per-garden lock file, at the grain of its system calls.

  A claim is an exclusive create followed by a write; a claim whose process is provably dead
  may be reclaimed under a second exclusive file. Between any two system calls of one attempt,
  every other attempt may run, and any process may die.
*/
module ArmLock {
  import opened Option

  type Attempt = nat
  type Pid = nat

  /** The lock file: absent, created but not yet written, or carrying a claim. The attempt is its nonce. */
  datatype File = Absent | Empty(owner: Attempt) | Claim(owner: Attempt)

  /** The next system call of an attempt. */
  datatype Pc =
    | Create                       // open the lock file exclusively
    | Write(reclaiming: bool)      // write and close the claim
    | ReadHolder                   // the file existed: read it
    | Retry                        // it was gone when read: create once more
    | Probe(holder: Attempt)       // kill(pid, 0) on the holder
    | Mark(holder: Attempt)        // open the reclaim file exclusively
    | Reread(holder: Attempt)      // the claim must still be the dead one
    | Unlink(holder: Attempt)      // remove the dead claim
    | Recreate                     // open the lock file exclusively again
    | Unmark(won: bool)            // remove the reclaim file
    | Held                         // acquired; next, a release reads the file
    | Release                      // the nonce was ours: remove the file
    | Over                         // refused, failed or released

  datatype State = State(
    file: File,
    mark: Option<Attempt>,         // the reclaim file, and who made it
    pcs: map<Attempt, Pc>,
    pids: map<Attempt, Pid>,
    dead: set<Pid>)

  const Initial: State := State(Absent, None, map[], map[], {})

  predicate Live(s: State, a: Attempt) {
    a in s.pcs && a in s.pids && s.pids[a] !in s.dead
  }

  function At(s: State, a: Attempt, pc: Pc): State {
    s.(pcs := s.pcs[a := pc])
  }

  function TryCreate(s: State, a: Attempt, made: Pc, taken: Pc): State {
    if s.file == Absent then At(s.(file := Empty(a)), a, made) else At(s, a, taken)
  }

  /**
    One system call of the attempt `a`. `fails`: the write failed, the probe could not prove the
    holder dead, or the reclaim file could not be removed.
  */
  function Call(s: State, a: Attempt, fails: bool): State
    requires Live(s, a)
  {
    match s.pcs[a]
    case Create => TryCreate(s, a, Write(false), ReadHolder)
    case Write(reclaiming) =>
      if fails then At(s.(file := Absent), a, if reclaiming then Unmark(false) else Over)
      else At(s.(file := Claim(a)), a, if reclaiming then Unmark(true) else Held)
    case ReadHolder =>
      if s.file == Absent then At(s, a, Retry)
      else if s.file.Empty? then At(s, a, Over)
      else At(s, a, Probe(s.file.owner))
    case Retry => TryCreate(s, a, Write(false), Over)
    case Probe(h) =>
      if h in s.pids && s.pids[h] in s.dead && !fails then At(s, a, Mark(h)) else At(s, a, Over)
    case Mark(h) =>
      if s.mark.None? then At(s.(mark := Some(a)), a, Reread(h)) else At(s, a, Over)
    case Reread(h) => At(s, a, if s.file == Claim(h) then Unlink(h) else Unmark(false))
    case Unlink(h) => At(s.(file := Absent), a, Recreate)
    case Recreate => TryCreate(s, a, Write(true), Unmark(false))
    case Unmark(won) =>
      At(if fails then s else s.(mark := None), a, if won then Held else Over)
    case Held => At(s, a, if s.file == Claim(a) then Release else Over)
    case Release => At(s.(file := Absent), a, Over)
    case Over => s
  }

  datatype Event =
    | Begin(attempt: Attempt, pid: Pid)
    | Syscall(attempt: Attempt, fails: bool)
    | Die(pid: Pid)

  function Step(s: State, e: Event): State {
    match e
    case Begin(a, pid) =>
      if a in s.pcs || pid in s.dead then s else s.(pcs := s.pcs[a := Create], pids := s.pids[a := pid])
    case Syscall(a, fails) => if Live(s, a) then Call(s, a, fails) else s
    case Die(pid) => s.(dead := s.dead + {pid})
  }

  function Run(run: seq<Event>): State
    decreases |run|
  {
    if run == [] then Initial else Step(Run(run[..|run| - 1]), run[|run| - 1])
  }

  // ---- invariants -------------------------------------------------------------------

  /** The attempt was told it has the lock and has not given it back. */
  predicate Holds(s: State, a: Attempt) {
    Live(s, a) && (s.pcs[a] == Held || s.pcs[a] == Release || s.pcs[a] == Unmark(true))
  }

  predicate IsDead(s: State, a: Attempt) {
    a in s.pids && s.pids[a] in s.dead
  }

  /** What the files must look like while the live attempt `a` stands where it stands. */
  predicate Stands(s: State, a: Attempt, pc: Pc) {
    match pc
    case Write(reclaiming) => s.file == Empty(a) && (reclaiming ==> s.mark == Some(a))
    case Mark(h) => IsDead(s, h)
    case Reread(h) => s.mark == Some(a) && IsDead(s, h)
    case Unlink(h) => s.mark == Some(a) && IsDead(s, h) && s.file == Claim(h)
    case Recreate => s.mark == Some(a)
    case Unmark(won) => s.mark == Some(a) && (won ==> s.file == Claim(a))
    case Held => s.file == Claim(a)
    case Release => s.file == Claim(a)
    case _ => true
  }

  ghost predicate Inv(s: State) {
    && s.pcs.Keys == s.pids.Keys
    && (forall a :: Live(s, a) ==> Stands(s, a, s.pcs[a]))
  }

  /** A system call keeps every other live attempt standing. */
  lemma OthersStand(s: State, a: Attempt, fails: bool, b: Attempt)
    requires Inv(s) && Live(s, a) && Live(s, b) && a != b
    ensures Stands(Call(s, a, fails), b, s.pcs[b])
  {
    assert Stands(s, a, s.pcs[a]) && Stands(s, b, s.pcs[b]);
  }

  lemma CallKeeps(s: State, a: Attempt, fails: bool)
    requires Inv(s) && Live(s, a)
    ensures Inv(Call(s, a, fails))
  {
    var t := Call(s, a, fails);
    forall b | Live(t, b) ensures Stands(t, b, t.pcs[b]) {
      if b == a { assert Stands(s, a, s.pcs[a]); } else { OthersStand(s, a, fails, b); }
    }
  }

  lemma {:induction false} RunKeeps(run: seq<Event>)
    ensures Inv(Run(run))
    decreases |run|
  {
    if run != [] {
      var s, e := Run(run[..|run| - 1]), run[|run| - 1];
      RunKeeps(run[..|run| - 1]);
      if e.Syscall? && Live(s, e.attempt) {
        CallKeeps(s, e.attempt, e.fails);
      } else if e.Die? {
        var t := Step(s, e);
        forall a | Live(t, a) ensures Stands(t, a, t.pcs[a]) { assert Live(s, a); }
      }
    }
  }

  // ---- the promises -----------------------------------------------------------------

  /**
    Mutual exclusion, in every interleaving of acquires, releases, reclaims and deaths: of all live
    attempts at one garden's lock, at most one holds it, and the file carries its claim.
  */
  lemma {:induction false} MutualExclusion(run: seq<Event>, a: Attempt, b: Attempt)
    requires Holds(Run(run), a) && Holds(Run(run), b)
    ensures a == b && Run(run).file == Claim(a)
  {
    RunKeeps(run);
    var s := Run(run);
    assert Stands(s, a, s.pcs[a]) && Stands(s, b, s.pcs[b]);
  }

  /** Nobody but the holder itself takes a live holder's lock away: not a reclaimer, not a late release. */
  lemma {:induction false} LiveClaimIsSafe(run: seq<Event>, e: Event, a: Attempt)
    requires Holds(Run(run), a)
    requires e != Syscall(a, true) && e != Syscall(a, false) && e != Die(Run(run).pids[a])
    ensures Holds(Step(Run(run), e), a) && Step(Run(run), e).file == Claim(a)
  {
    RunKeeps(run);
    var s := Run(run);
    assert Stands(s, a, s.pcs[a]);
    if e.Syscall? && Live(s, e.attempt) { OthersStand(s, e.attempt, e.fails, a); }
  }

  /** Two attempts never both get past the reclaim file: at most one live attempt may unlink a dead claim. */
  lemma {:induction false} OneReclaimer(run: seq<Event>, a: Attempt, b: Attempt)
    requires var s := Run(run);
      Live(s, a) && Live(s, b) && s.pcs[a].Unlink? && (s.pcs[b].Unlink? || s.pcs[b] == Recreate)
    ensures a == b
    ensures IsDead(Run(run), Run(run).pcs[a].holder)
  {
    RunKeeps(run);
    var s := Run(run);
    assert Stands(s, a, s.pcs[a]) && Stands(s, b, s.pcs[b]);
  }
}
