/**
  Installs with the operator's own edits between them: whose rule it was is settled when a rule is first
  granted, and the uninstall takes out exactly the rules that were nobody's then.
*/
module PermissionHistory {
  import opened Json
  import opened Option
  import opened PermissionModel
  import opened PermissionRoundTrip

  /** What the operator leaves on disk, whatever they did, and the rules that are then granted. */
  datatype Stage = Stage(file: Stored, rules: seq<Text>)

  ghost predicate Grows(stages: seq<Stage>) {
    && (forall i :: 0 <= i < |stages| ==> stages[i].rules != [] && Adoptable(stages[i].file))
    && (forall i, j :: 0 <= i < j < |stages| ==> Within(stages[i].rules, stages[j].rules))
  }

  /** The record after the installs of all stages; a refused install leaves the record as it was. */
  function RecordAfter(stages: seq<Stage>, path: Text, state: StateFile): StateFile
    decreases |stages|
  {
    if stages == [] then state
    else
      var before, last := RecordAfter(stages[..|stages| - 1], path, state), stages[|stages| - 1];
      match Install(last.rules, path, Settings(false, last.file), before)
      case Refused(_) => before
      case Done(_, after) => after
  }

  /** Was the rule in the operator's document when it was first granted? */
  predicate SeenFirst(stages: seq<Stage>, r: Text)
    requires forall i :: 0 <= i < |stages| ==> Adoptable(stages[i].file)
    decreases |stages|
  {
    if stages == [] then false
    else
      var before, last := stages[..|stages| - 1], stages[|stages| - 1];
      if Granted(before, r) then SeenFirst(before, r) else Str(r) in AllowIn(last.file)
  }

  predicate Granted(stages: seq<Stage>, r: Text) {
    exists i :: 0 <= i < |stages| && r in stages[i].rules
  }

  /** The record says, of every rule granted last, whether it was the operator's when first granted. */
  ghost predicate Remembers(stages: seq<Stage>, path: Text, s: Record)
    requires stages != [] && Grows(stages)
  {
    && s.path == Some(Str(path)) && Parse(s).Parsed? && Parse(s).rules == stages[|stages| - 1].rules
    && forall r :: r in Parse(s).rules ==> r in Parse(s).existed && Parse(s).existed[r] == SeenFirst(stages, r)
  }

  lemma GrownGrants(stages: seq<Stage>, r: Text)
    requires stages != [] && Grows(stages)
    ensures Granted(stages, r) <==> r in stages[|stages| - 1].rules
  {
    if Granted(stages, r) {
      var i :| 0 <= i < |stages| && r in stages[i].rules;
      assert i < |stages| - 1 ==> Within(stages[i].rules, stages[|stages| - 1].rules);
    }
  }

  /** What one more install remembers, given what was remembered before it. */
  lemma NextRemembers(stages: seq<Stage>, path: Text, prior: Option<Record>)
    requires stages != [] && Grows(stages)
    requires var before := stages[..|stages| - 1];
      if before == [] then prior.None? else prior.Some? && Remembers(before, path, prior.value)
    ensures var last := stages[|stages| - 1];
      Remembers(stages, path, NewRecord(last.rules, path, last.file, DataOf(last.file), prior))
  {
    var before, last := stages[..|stages| - 1], stages[|stages| - 1];
    var existed := Provenance(last.rules, AllowIn(last.file), Recorded(prior));
    ParseWritten(last.rules, existed, Carried(FirstRecord(path, last.file, DataOf(last.file)), prior));
    forall r | r in last.rules ensures existed[r] == SeenFirst(stages, r) {
      if before == [] {
        assert !Granted(before, r);
      } else {
        ParsedCovers(prior.value);
        GrownGrants(before, r);
      }
    }
  }

  lemma {:induction false} StagesRemember(stages: seq<Stage>, path: Text, state: StateFile)
    requires stages != [] && Grows(stages) && !state.Unreadable? && Prior(state, path).None?
    ensures var after := RecordAfter(stages, path, state);
      after.State? && Remembers(stages, path, after.record)
    decreases |stages|
  {
    var before := stages[..|stages| - 1];
    var last := stages[|stages| - 1];
    if before == [] {
      InstallDone(last.rules, path, last.file, state);
      NextRemembers(stages, path, None);
    } else {
      StagesRemember(before, path, state);
      InstallDone(last.rules, path, last.file, RecordAfter(before, path, state));
      NextRemembers(stages, path, Some(RecordAfter(before, path, state).record));
    }
  }

  /**
    The whole history: after any number of installs, each over whatever the operator had made of the file by
    then, and after one more edit, an uninstall keeps every key of the last document and every rule of it,
    unchanged and in order, but the rules it owns — and it owns exactly those that were not in the
    operator's document when they were first granted.
  */
  lemma {:induction false} OperatorHistory(stages: seq<Stage>, path: Text, state: StateFile, last: Stored,
                                           files: map<Text, Settings>)
    requires stages != [] && Grows(stages) && !state.Unreadable? && Prior(state, path).None?
    requires Load(last).Some? && SettingsAt(files, path) == Settings(false, last)
    ensures var end := Uninstall(files, RecordAfter(stages, path, state));
      && end.Done? && end.state == NoState && Load(end.settings.file).Some?
      && LeftAs(stages, Load(last).value, Load(end.settings.file).value)
  {
    StagesRemember(stages, path, state);
    UninstallIs(path, RecordAfter(stages, path, state).record, files);
    RecordUndone(stages, path, RecordAfter(stages, path, state).record, last);
  }

  lemma RecordUndone(stages: seq<Stage>, path: Text, s: Record, last: Stored)
    requires stages != [] && Grows(stages) && Remembers(stages, path, s)
    requires Load(last).Some?
    ensures var end := Removal(Settings(false, last), s);
      && end.Done? && end.state == NoState && Load(end.settings.file).Some?
      && LeftAs(stages, Load(last).value, Load(end.settings.file).value)
  {
    ParsedCovers(s);
    var ours := Ours(Parse(s));
    RemovalKeeps(last, s);
    assert Owned(stages, ours);
  }

  /** These are the rules granted last that were nobody's when first granted. */
  ghost predicate Owned(stages: seq<Stage>, ours: seq<Text>)
    requires stages != [] && Grows(stages)
  {
    forall r :: r in ours <==> r in stages[|stages| - 1].rules && !SeenFirst(stages, r)
  }

  ghost predicate LeftAs(stages: seq<Stage>, before: seq<Entry>, after: seq<Entry>)
    requires stages != [] && Grows(stages)
  {
    exists ours: seq<Text> :: Owned(stages, ours) && Cleaned(before, after, ours)
  }

  // ---- a rule that is no longer granted ---------------------------------------------

  const FIRST_RULE: Text := Word("mcp(entwurf-bridge/entwurf_v2)")
  const SECOND_RULE: Text := Word("mcp(entwurf-bridge/entwurf_self)")

  /** Two rules granted on a host without settings, then only one of them: the uninstall leaves a file behind. */
  lemma StrandedRule(path: Text, files: map<Text, Settings>)
    ensures var one := Install([FIRST_RULE, SECOND_RULE], path, Settings(false, Missing), NoState);
      && one.Done?
      && var two := Install([FIRST_RULE], path, one.settings, one.state);
         && two.Done?
         && Uninstall(files[path := two.settings], two.state) != Done(Settings(false, Missing), NoState)
  {
    var rules := [FIRST_RULE, SECOND_RULE];
    var extra, s := FirstInstall(Missing, path, rules, NoState);
    var data := WithAllow(DataOf(Missing), PermsIn(Missing), AllowIn(Missing) + extra);
    ParsedCovers(s);
    assert SECOND_RULE in rules && SECOND_RULE in Ours(Parse(s));
    assert |FIRST_RULE.text| != |SECOND_RULE.text|;
    assert SECOND_RULE !in [FIRST_RULE];
    ShrinkingSetStrands(Missing, path, extra, data, s, [FIRST_RULE], files);
  }
}
