/** Any sequence of granted rule sets, growing or not: exactly when the uninstall gives the settings back. */
module PermissionSets {
  import opened Json
  import opened Option
  import opened PermissionModel
  import opened PermissionRoundTrip

  /** `b` grants every rule of `a` that the operator did not have. */
  ghost predicate KeepsOurs(o: Stored, a: seq<Text>, b: seq<Text>)
    requires Adoptable(o)
  {
    forall r :: r in a && Str(r) !in AllowIn(o) ==> r in b
  }

  /** ... from each set to the next, beginning with `rules`. */
  ghost predicate KeptFrom(o: Stored, rules: seq<Text>, sets: seq<seq<Text>>)
    requires Adoptable(o)
    decreases |sets|
  {
    sets == [] || (KeepsOurs(o, rules, sets[0]) && KeptFrom(o, sets[0], sets[1..]))
  }

  // ---- a rule that is stuck ---------------------------------------------------------

  /** The rule is in the allow list, and nobody will take it out. */
  ghost predicate Stuck(data: seq<Entry>, s: Record, path: Text, r: Text) {
    && Adoptable(Holds(Obj(data))) && Str(r) in Listed(data)
    && Parse(s).Parsed? && s.path == Some(Str(path))
    && (r in Parse(s).rules ==> r in Parse(s).existed && Parse(s).existed[r])
  }

  lemma ListedIsAllow(data: seq<Entry>)
    requires Adoptable(Holds(Obj(data)))
    ensures Listed(data) == AllowIn(Holds(Obj(data)))
  {}

  lemma NewDataAdoptable(rules: seq<Text>, data: seq<Entry>)
    requires Adoptable(Holds(Obj(data)))
    ensures Adoptable(Holds(Obj(NewData(rules, data))))
  {
    var perms := PermsOf(data).value;
    InstalledReads(data, perms, Appended(AllowOf(perms).value, rules));
  }

  /** An install that grants it again takes it for the operator's; one that does not leaves it. */
  lemma StaysStuck(data: seq<Entry>, s: Record, path: Text, r: Text, rules: seq<Text>)
    requires Stuck(data, s, path, r) && rules != []
    ensures Stuck(NewData(rules, data), NewRecord(rules, path, Holds(Obj(data)), data, Some(s)), path, r)
  {
    var existed := Provenance(rules, AllowIn(Holds(Obj(data))), Recorded(Some(s)));
    ParseWritten(rules, existed, Carried(FirstRecord(path, Holds(Obj(data)), data), Some(s)));
    ParsedCovers(s);
    ListedIsAllow(data);
    InstallTouchesOnlyRules(rules, data);
    NewDataAdoptable(rules, data);
  }

  lemma StuckRemains(data: seq<Entry>, s: Record, path: Text, r: Text, files: map<Text, Settings>)
    requires Stuck(data, s, path, r) && SettingsAt(files, path) == Settings(false, Holds(Obj(data)))
    ensures var end := Uninstall(files, State(s)); end.Done? && Grants(end.settings.file, r)
  {
    UninstallKeeps(data, path, s, files);
    WithoutHas(Listed(data), OursIn(Parse(s).rules, Parse(s).existed), Str(r));
    GrantsListed(Uninstall(files, State(s)).settings.file, r);
  }

  lemma GrantsListed(file: Stored, r: Text)
    requires Load(file).Some? && Str(r) in Listed(Load(file).value)
    ensures Grants(file, r)
  {}

  /** The installs of all sets go through, and after an uninstall the rule is still granted. */
  ghost predicate StaysGranted(sets: seq<seq<Text>>, path: Text, file: Stored, state: StateFile, r: Text,
                               files: map<Text, Settings>) {
    var out := InstallAll(sets, path, Settings(false, file), state);
    && out.Done?
    && var end := Uninstall(files[path := out.settings], out.state); end.Done? && Grants(end.settings.file, r)
  }

  lemma OneInstall(data: seq<Entry>, s: Record, path: Text, sets: seq<seq<Text>>)
    requires Adoptable(Holds(Obj(data))) && Parse(s).Parsed? && s.path == Some(Str(path))
    requires sets != [] && sets[0] != []
    ensures InstallAll(sets, path, Settings(false, Holds(Obj(data))), State(s))
         == InstallAll(sets[1..], path, Settings(false, Holds(Obj(NewData(sets[0], data)))),
                       State(NewRecord(sets[0], path, Holds(Obj(data)), data, Some(s))))
  {
    InstallDone(sets[0], path, Holds(Obj(data)), State(s));
  }

  lemma {:induction false} StuckThroughout(data: seq<Entry>, s: Record, path: Text, r: Text, sets: seq<seq<Text>>,
                                           files: map<Text, Settings>)
    requires Stuck(data, s, path, r) && forall i :: 0 <= i < |sets| ==> sets[i] != []
    ensures StaysGranted(sets, path, Holds(Obj(data)), State(s), r, files)
    decreases |sets|
  {
    if sets == [] {
      StuckRemains(data, s, path, r, files[path := Settings(false, Holds(Obj(data)))]);
    } else {
      OneInstall(data, s, path, sets);
      StaysStuck(data, s, path, r, sets[0]);
      StuckThroughout(NewData(sets[0], data), NewRecord(sets[0], path, Holds(Obj(data)), data, Some(s)), path, r,
                      sets[1..], files);
    }
  }

  // ---- from installed settings ------------------------------------------------------

  lemma KeptIsWithin(o: Stored, path: Text, s: Record, rules: seq<Text>)
    requires Adoptable(o) && Honest(o, path, s)
    requires forall i :: 0 <= i < |Parse(s).rules| ==> Parse(s).rules[i] in Parse(s).existed
    ensures KeepsOurs(o, Parse(s).rules, rules) <==> Within(Ours(Parse(s)), rules)
  {
    if KeepsOurs(o, Parse(s).rules, rules) {
      forall r | r in Ours(Parse(s)) ensures r in rules {}
    }
    if Within(Ours(Parse(s)), rules) {
      forall r | r in Parse(s).rules && Str(r) !in AllowIn(o) ensures r in rules { assert r in Ours(Parse(s)); }
    }
  }

  /** The first install that leaves a rule of ours out. */
  lemma GetsStuck(o: Stored, path: Text, extra: seq<Doc>, data: seq<Entry>, s: Record, rules: seq<Text>, r: Text)
    requires Installed(o, path, extra, data, s) && rules != [] && r in Ours(Parse(s)) && r !in rules
    ensures var d := WithAllow(DataOf(o), PermsIn(o), AllowIn(o) + NextExtra(o, extra, rules));
      Stuck(d, NextRecord(o, extra, data, path, s, rules), path, r)
  {
    var allow := AllowIn(o) + NextExtra(o, extra, rules);
    NextHonest(o, path, extra, data, s, rules);
    WithAllowListed(DataOf(o), PermsIn(o), allow);
    assert Str(r) in extra && Str(r) in allow;
  }

  lemma WithAllowListed(data: seq<Entry>, perms: seq<Entry>, allow: seq<Doc>)
    ensures var d := WithAllow(data, perms, allow); Adoptable(Holds(Obj(d))) && Listed(d) == allow
  {
    InstalledReads(data, perms, allow);
  }

  lemma StuckIsNotRestored(o: Stored, out: Outcome, r: Text)
    requires Adoptable(o) && Str(r) !in AllowIn(o) && out.Done? && Grants(out.settings.file, r)
    ensures out != Done(Settings(false, Restored(o)), NoState)
  {
    RestoredGrantsNothingNew(o, r);
  }

  ghost predicate RestoresAfter(o: Stored, path: Text, out: Outcome, files: map<Text, Settings>)
    requires Adoptable(o)
  {
    && out.Done?
    && Uninstall(files[path := out.settings], out.state) == Done(Settings(false, Restored(o)), NoState)
  }

  lemma LeavesOut(o: Stored, path: Text, extra: seq<Doc>, data: seq<Entry>, s: Record,
                  sets: seq<seq<Text>>, files: map<Text, Settings>)
    requires Installed(o, path, extra, data, s) && sets != [] && forall i :: 0 <= i < |sets| ==> sets[i] != []
    requires !Within(Ours(Parse(s)), sets[0])
    ensures var out := InstallAll(sets, path, Settings(false, Holds(Obj(data))), State(s));
      out.Done? && !RestoresAfter(o, path, out, files)
  {
    var r :| r in Ours(Parse(s)) && r !in sets[0];
    NextSettings(o, path, extra, data, s, sets[0]);
    GetsStuck(o, path, extra, data, s, sets[0], r);
    var d := WithAllow(DataOf(o), PermsIn(o), AllowIn(o) + NextExtra(o, extra, sets[0]));
    StuckThroughout(d, NextRecord(o, extra, data, path, s, sets[0]), path, r, sets[1..], files);
    var out := InstallAll(sets, path, Settings(false, Holds(Obj(data))), State(s));
    StuckIsNotRestored(o, Uninstall(files[path := out.settings], out.state), r);
  }

  lemma {:induction false} RestoresIffKept(o: Stored, path: Text, extra: seq<Doc>, data: seq<Entry>, s: Record,
                                           sets: seq<seq<Text>>, files: map<Text, Settings>)
    requires Installed(o, path, extra, data, s) && forall i :: 0 <= i < |sets| ==> sets[i] != []
    ensures var out := InstallAll(sets, path, Settings(false, Holds(Obj(data))), State(s));
      out.Done? && (RestoresAfter(o, path, out, files) <==> KeptFrom(o, Parse(s).rules, sets))
    decreases |sets|
  {
    ParsedCovers(s);
    if sets == [] {
      UninstallRestores(o, path, extra, data, s, files[path := Settings(false, Holds(Obj(data)))]);
    } else {
      KeptIsWithin(o, path, s, sets[0]);
      if Within(Ours(Parse(s)), sets[0]) {
        NextSettings(o, path, extra, data, s, sets[0]);
        InstallsAgain(o, path, extra, data, s, sets[0]);
        var more := NextExtra(o, extra, sets[0]);
        RestoresIffKept(o, path, more, WithAllow(DataOf(o), PermsIn(o), AllowIn(o) + more),
                        NextRecord(o, extra, data, path, s, sets[0]), sets[1..], files);
      } else {
        LeavesOut(o, path, extra, data, s, sets, files);
      }
    }
  }

  // ---- whole histories --------------------------------------------------------------

  /** Every set grants what the sets before it had granted and the operator did not have. */
  ghost predicate KeptByAll(o: Stored, sets: seq<seq<Text>>)
    requires Adoptable(o)
  {
    forall i, j :: 0 <= i < j < |sets| ==> KeepsOurs(o, sets[i], sets[j])
  }

  lemma OneMorePairs(o: Stored, rules: seq<Text>, sets: seq<seq<Text>>)
    requires Adoptable(o)
    ensures KeptByAll(o, [rules] + sets) <==>
              KeptByAll(o, sets) && forall j :: 0 <= j < |sets| ==> KeepsOurs(o, rules, sets[j])
  {
    var all := [rules] + sets;
    if KeptByAll(o, all) {
      forall i, j | 0 <= i < j < |sets| ensures KeepsOurs(o, sets[i], sets[j]) {
        assert KeepsOurs(o, all[i + 1], all[j + 1]);
      }
      forall j | 0 <= j < |sets| ensures KeepsOurs(o, rules, sets[j]) { assert KeepsOurs(o, all[0], all[j + 1]); }
    }
    if KeptByAll(o, sets) && forall j :: 0 <= j < |sets| ==> KeepsOurs(o, rules, sets[j]) {
      forall i, j | 0 <= i < j < |all| ensures KeepsOurs(o, all[i], all[j]) {
        if i > 0 { assert KeepsOurs(o, sets[i - 1], sets[j - 1]); } else { assert KeepsOurs(o, rules, sets[j - 1]); }
      }
    }
  }

  lemma KeepsOn(o: Stored, rules: seq<Text>, sets: seq<seq<Text>>)
    requires Adoptable(o) && sets != [] && KeepsOurs(o, rules, sets[0]) && KeptByAll(o, sets)
    ensures forall j :: 0 <= j < |sets| ==> KeepsOurs(o, rules, sets[j])
  {
    forall j | 0 <= j < |sets| ensures KeepsOurs(o, rules, sets[j]) {
      if j > 0 { assert KeepsOurs(o, sets[0], sets[j]); }
    }
  }

  /** From each set to the next is from each set to every later one. */
  lemma {:induction false} KeptPairs(o: Stored, rules: seq<Text>, sets: seq<seq<Text>>)
    requires Adoptable(o)
    ensures KeptFrom(o, rules, sets) <==> KeptByAll(o, [rules] + sets)
    decreases |sets|
  {
    if sets != [] {
      KeptPairs(o, sets[0], sets[1..]);
      assert [sets[0]] + sets[1..] == sets;
      OneMorePairs(o, rules, sets);
      if KeepsOurs(o, rules, sets[0]) && KeptByAll(o, sets) { KeepsOn(o, rules, sets); }
    }
  }

  /**
    The round trip over any rule sets at all: the operator's settings come back exactly when every rule that
    was granted and was not the operator's goes on being granted by every later install. Granting it again
    after leaving it out does not help: it is taken for the operator's by then.
  */
  lemma {:induction false} RestoresIff(o: Stored, path: Text, sets: seq<seq<Text>>, state: StateFile,
                                       files: map<Text, Settings>)
    requires Adoptable(o) && !state.Unreadable? && Prior(state, path).None?
    requires sets != [] && forall i :: 0 <= i < |sets| ==> sets[i] != []
    ensures var out := InstallAll(sets, path, Settings(false, o), state);
      && out.Done?
      && (RestoresAfter(o, path, out, files) <==> KeptByAll(o, sets))
  {
    var extra, s := FirstInstall(o, path, sets[0], state);
    var data := WithAllow(DataOf(o), PermsIn(o), AllowIn(o) + extra);
    RestoresIffKept(o, path, extra, data, s, sets[1..], files);
    KeptPairs(o, sets[0], sets[1..]);
    assert sets == [sets[0]] + sets[1..];
  }
}
