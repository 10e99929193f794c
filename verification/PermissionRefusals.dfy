/** Exactly when the permission commands refuse, and with which exit code, and what they leave when they do not. */
module PermissionRefusals {
  import opened Json
  import opened Option
  import opened PermissionModel
  import opened PermissionRoundTrip

  predicate WrongAllow(allow: Option<Doc>) {
    allow.Some? && !allow.value.Null? && !allow.value.Arr?
  }

  predicate WrongPerms(perms: Option<Doc>) {
    perms.Some? && !perms.value.Null? && (!perms.value.Obj? || WrongAllow(Get(perms.value.fields, AllowKey)))
  }

  /** The text is not JSON, or not an object. */
  predicate NoObject(file: Stored) {
    file.Broken? || (file.Holds? && !file.value.Obj?)
  }

  /** ... or its permissions, or their allow list, are there and of another type. */
  predicate WrongShape(file: Stored) {
    NoObject(file) || (file.Holds? && WrongPerms(Get(file.value.fields, PermissionsKey)))
  }

  /** A version 2 record: rules that are strings, at least one, and for each a boolean that says whose it was. */
  ghost predicate Complete(s: Record) {
    && s.version == Some(Num(2.0))
    && s.rules.Some? && s.rules.value.Arr? && s.rules.value.items != [] && AllStrings(s.rules.value.items)
    && s.rulesExisted.Some? && s.rulesExisted.value.Obj?
    && forall r :: Str(r) in s.rules.value.items ==> IsFlag(Get(s.rulesExisted.value.fields, r))
  }

  /** A version 1 record, `true` being equal to 1: one rule, and whose it was. */
  predicate Legacy(s: Record) {
    (s.version == Some(Num(1.0)) || s.version == Some(Bool(true))) && s.rule.Some? && s.rule.value.Str? && IsFlag(s.ruleExisted)
  }

  /** Version 2 or 1, and complete. */
  ghost predicate Understood(s: Record) {
    Complete(s) || Legacy(s)
  }

  /** The parser understands exactly the complete records of a known version, and reads them as they are. */
  lemma ParsesUnderstood(s: Record)
    ensures Parse(s).Parsed? <==> Understood(s)
    ensures Complete(s) ==>
      var p, items, flags := Parse(s), s.rules.value.items, s.rulesExisted.value.fields;
      && |p.rules| == |items| && (forall i :: 0 <= i < |items| ==> items[i] == Str(p.rules[i]))
      && (forall r :: r in p.existed <==> Str(r) in items)
      && (forall r :: r in p.existed ==> Get(flags, r) == Some(Bool(p.existed[r])))
    ensures Legacy(s) ==>
      Parse(s).rules == [s.rule.value.text]
      && Parse(s).existed == map[s.rule.value.text := s.ruleExisted.value.flag]
  {
    if s.version == Some(Num(2.0)) && s.rules.Some? && s.rules.value.Arr? && AllStrings(s.rules.value.items) {
      var items := s.rules.value.items;
      var rules := Strings(items);
      assert forall i :: 0 <= i < |items| ==> items[i] == Str(rules[i]);
      forall r ensures Str(r) in items <==> r in rules {
        if r in rules {
          var i :| 0 <= i < |rules| && rules[i] == r;
          assert items[i] == Str(r);
        }
        if Str(r) in items {
          var i :| 0 <= i < |items| && items[i] == Str(r);
          assert rules[i] == r;
        }
      }
      if Complete(s) {
        assert forall i :: 0 <= i < |rules| ==> rules[i] in rules;
      }
    }
  }

  /** What an install is turned away for: 3 for a link, 4 for a file or a record it must not overwrite. */
  ghost predicate InstallRefuses(path: Text, settings: Settings, state: StateFile, code: nat) {
    if settings.link then code == 3
    else
      && code == 4
      && (WrongShape(settings.file) || state.Unreadable?
          || (state.State? && state.record.path == Some(Str(path)) && !Understood(state.record)))
  }

  lemma ShapeIs(file: Stored)
    ensures Adoptable(file) <==> !WrongShape(file)
    ensures Load(file).None? <==> NoObject(file)
  {}

  /** An install is refused for exactly these reasons. */
  lemma InstallRefusedIff(rules: seq<Text>, path: Text, settings: Settings, state: StateFile, code: nat)
    ensures Install(rules, path, settings, state) == Refused(code) <==> InstallRefuses(path, settings, state, code)
    ensures Install(rules, path, settings, state).Refused? ==> Install(rules, path, settings, state).code in {3, 4}
  {
    ShapeIs(settings.file);
    if state.State? { ParsesUnderstood(state.record); }
  }

  /** ... an uninstall for these: 2 when there is nothing to undo, 4 for a record or a file it cannot read, 3 for a link. */
  ghost predicate UninstallRefuses(files: map<Text, Settings>, state: StateFile, code: nat) {
    match state
    case NoState => code == 2
    case Unreadable => code == 4
    case State(s) =>
      if s.path.None? || !s.path.value.Str? || !Understood(s) then code == 4
      else
        var on := SettingsAt(files, s.path.value.text);
        if on.link then code == 3 else code == 4 && NoObject(on.file)
  }

  lemma UninstallRefusedIff(files: map<Text, Settings>, state: StateFile, code: nat)
    ensures Uninstall(files, state) == Refused(code) <==> UninstallRefuses(files, state, code)
    ensures Uninstall(files, state).Refused? ==> Uninstall(files, state).code in {2, 3, 4}
  {
    if state.State? {
      ParsesUnderstood(state.record);
      if state.record.path.Some? && state.record.path.value.Str? {
        ShapeIs(SettingsAt(files, state.record.path.value.text).file);
      }
    }
  }

  // ---- when they do not -------------------------------------------------------------

  /** A document after an install: the rules it lacked added to its allow list, in order, and nothing else. */
  ghost predicate Extended(before: seq<Entry>, after: seq<Entry>, rules: seq<Text>) {
    && Pop(after, PermissionsKey) == Pop(before, PermissionsKey) && OtherPerms(after) == OtherPerms(before)
    && Listed(after) == Listed(before) + Texts(Lacking(Listed(before), rules))
    && forall r :: r in rules ==> Str(r) in Listed(after)
  }

  /** The settings file after an install: a regular one that holds the document extended by the rules. */
  ghost predicate Granted(before: Settings, after: Settings, rules: seq<Text>) {
    && !after.link && Load(before.file).Some? && after.file.Holds? && after.file.value.Obj?
    && Extended(Load(before.file).value, after.file.value.fields, rules)
  }

  /** The record it writes: these rules, at this path, if there are any. */
  ghost predicate Noted(state: StateFile, rules: seq<Text>, path: Text) {
    && state.State? && state.record.path == Some(Str(path))
    && (rules != [] ==> Parse(state.record).Parsed? && Parse(state.record).rules == rules)
  }

  lemma NewDataExtends(rules: seq<Text>, data: seq<Entry>)
    requires PermsOf(data).Some? && AllowOf(PermsOf(data).value).Some?
    ensures Extended(data, NewData(rules, data), rules)
  {
    InstallTouchesOnlyRules(rules, data);
    var lacking := Lacking(Listed(data), rules);
    forall r | r in rules ensures Str(r) in Listed(data) + Texts(lacking) {
      if Str(r) !in Listed(data) {
        var i :| 0 <= i < |lacking| && lacking[i] == r;
        assert Texts(lacking)[i] == Str(r);
      }
    }
  }

  lemma NewRecordNotes(rules: seq<Text>, path: Text, file: Stored, data: seq<Entry>, prior: Option<Record>)
    requires PermsOf(data).Some? && AllowOf(PermsOf(data).value).Some?
    ensures Noted(State(NewRecord(rules, path, file, data, prior)), rules, path)
  {
    var existed := Provenance(rules, AllowOf(PermsOf(data).value).value, Recorded(prior));
    if rules != [] { ParseWritten(rules, existed, Carried(FirstRecord(path, file, data), prior)); }
  }

  /** An install that is not refused leaves its rules granted and noted, and nothing else changed. */
  lemma InstallGrants(rules: seq<Text>, path: Text, settings: Settings, state: StateFile)
    requires Install(rules, path, settings, state).Done?
    ensures var out := Install(rules, path, settings, state);
      Granted(settings, out.settings, rules) && Noted(out.state, rules, path)
  {
    var data := Load(settings.file).value;
    NewDataExtends(rules, data);
    NewRecordNotes(rules, path, settings.file, data, Prior(state, path));
  }

  /** A recorded answer that is there, and that Python does not take for false. */
  predicate Yes(v: Option<Doc>) {
    && v.Some? && v.value != Null && v.value != Bool(false) && v.value != Num(0.0)
    && v.value != Str(Word("")) && v.value != Arr([]) && v.value != Obj([])
  }

  /** Of the containers an uninstall leaves: one that was the operator's, or that still holds something. */
  ghost predicate Contained(before: seq<Entry>, after: seq<Entry>, ours: seq<Text>, s: Record) {
    if !HasAllow(before) || ours == [] then after == before
    else
      && (HasAllow(after) <==> Yes(s.allowExisted) || Listed(after) != [])
      && (HasPerms(after) <==> Yes(s.permsExisted) || OtherPerms(after) != [] || HasAllow(after))
  }

  /** The settings file after an uninstall: gone if we made it and nothing is left, else without our rules, and nothing else changed. */
  ghost predicate Revoked(before: Settings, after: Settings, s: Record) {
    && !after.link && Parse(s).Parsed?
    && (forall i :: 0 <= i < |Parse(s).rules| ==> Parse(s).rules[i] in Parse(s).existed)
    && if before.file.Missing? then after.file.Missing?
       else
         && Load(before.file).Some? && Load(after.file).Some?
         && var data, left := Load(before.file).value, Load(after.file).value;
            && Cleaned(data, left, Ours(Parse(s))) && Contained(data, left, Ours(Parse(s)), s)
            && (after.file.Missing? <==>
                  left == [] && s.detectMode == Some(Str(CreatedNewMode)) && s.settingsExisted == Some(Bool(false)))
  }

  lemma EmptiedContains(data: seq<Entry>, perms: seq<Entry>, allow: seq<Doc>, s: Record)
    requires Get(data, PermissionsKey) == Some(Obj(perms))
    ensures var after := Emptied(data, perms, allow, s);
      && (HasAllow(after) <==> Yes(s.allowExisted) || allow != [])
      && (HasPerms(after) <==> Yes(s.permsExisted) || Pop(perms, AllowKey) != [] || HasAllow(after))
  {
    var kept := if !Truthy(s.allowExisted) && allow == [] then Pop(perms, AllowKey)
                else Put(perms, AllowKey, Arr(allow));
    PopGet(perms, AllowKey);
    GetPut(perms, AllowKey, Arr(allow), AllowKey);
    PopGet(data, PermissionsKey);
    GetPut(data, PermissionsKey, Obj(kept), PermissionsKey);
  }

  lemma StrippedContains(data: seq<Entry>, ours: seq<Text>, s: Record)
    ensures Contained(data, Stripped(data, ours, s), ours, s)
  {
    if HasAllow(data) && ours != [] {
      var perms := Get(data, PermissionsKey).value.fields;
      EmptiedContains(data, perms, Without(Listed(data), ours), s);
      UninstallTouchesOnlyRules(data, ours, s);
    }
  }

  /** An uninstall that is not refused takes our rules out, and the record away. */
  lemma UninstallRevokes(files: map<Text, Settings>, s: Record)
    requires Uninstall(files, State(s)).Done?
    ensures s.path.Some? && s.path.value.Str?
    ensures var out := Uninstall(files, State(s));
      out.state == NoState && Revoked(SettingsAt(files, s.path.value.text), out.settings, s)
  {
    ParsedCovers(s);
    var on := SettingsAt(files, s.path.value.text);
    if !on.link && Load(on.file).Some? {
      RemovalKeeps(on.file, s);
      RemovalLeaves(on.file, s);
      StrippedContains(Load(on.file).value, Ours(Parse(s)), s);
    }
  }
}
