/** The permission commands as they change the files on disk; a refusal changes nothing. */
module PermissionInstaller {
  import opened Json
  import opened Option
  import opened PermissionModel
  import opened PermissionRefusals

  class Installer {
    var files: map<Text, Settings>
    var state: StateFile

    constructor (files: map<Text, Settings>, state: StateFile)
      ensures this.files == files && this.state == state
    {
      this.files, this.state := files, state;
    }

    /** What the two files hold after a command, unless it was refused. */
    ghost predicate Effect(out: Outcome, path: Text, refused: Option<nat>, wasFiles: map<Text, Settings>,
                           wasState: StateFile)
      reads this
    {
      match out
      case Refused(code) => refused == Some(code) && files == wasFiles && state == wasState
      case Done(settings, record) => refused == None && files == wasFiles[path := settings] && state == record
    }

    /**
      Refused exactly for a link, a file of the wrong shape or a record that cannot be read, and then nothing
      changes; else the rules are granted, and noted, and no other file changes.
    */
    method PermissionInstall(rules: seq<Text>, path: Text) returns (refused: Option<nat>)
      modifies this
      ensures forall code: nat :: refused == Some(code) <==>
                InstallRefuses(path, SettingsAt(old(files), path), old(state), code)
      ensures refused.Some? ==> files == old(files) && state == old(state)
      ensures refused.None? ==>
                && path in files && files == old(files)[path := files[path]]
                && Granted(SettingsAt(old(files), path), files[path], rules) && Noted(state, rules, path)
    {
      InstallMeans(rules, path, SettingsAt(files, path), state);
      refused := RunInstall(rules, path);
    }

    /** The command's body: the checks in order, then both files. */
    method RunInstall(rules: seq<Text>, path: Text) returns (refused: Option<nat>)
      modifies this
      ensures Effect(Install(rules, path, SettingsAt(old(files), path), old(state)), path, refused,
                     old(files), old(state))
    {
      var settings := SettingsAt(files, path);
      if settings.link { return Some(3); }
      var data := Load(settings.file);
      if data.None? { return Some(4); }
      var perms := PermsOf(data.value);
      if perms.None? { return Some(4); }
      var onDisk := AllowOf(perms.value);
      if onDisk.None? || state.Unreadable? { return Some(4); }
      var prior := Prior(state, path);
      var recorded: map<Text, bool> := map[];
      if prior.Some? {
        var parsed := Parse(prior.value);
        if parsed.Corrupt? { return Some(4); }
        recorded := parsed.existed;
      }
      var existed := RulesExisted(rules, onDisk.value, recorded);
      var allow := AppendMissing(onDisk.value, rules);
      files := files[path := Settings(false, Holds(Obj(WithAllow(data.value, perms.value, allow))))];
      state := State(Written(rules, existed, Carried(FirstRecord(path, settings.file, data.value), prior)));
      return None;
    }

    /**
      Refused exactly when there is no record, one that cannot be read, a link, or a file that is no object, and
      then nothing changes; else our rules are taken out, the record is gone, and no other file changes.
    */
    method PermissionUninstall() returns (refused: Option<nat>)
      modifies this
      ensures forall code: nat :: refused == Some(code) <==> UninstallRefuses(old(files), old(state), code)
      ensures refused.Some? ==> files == old(files) && state == old(state)
      ensures refused.None? ==>
                && state == NoState && old(state).State?
                && old(state).record.path.Some? && old(state).record.path.value.Str?
                && var path := old(state).record.path.value.text;
                   && path in files && files == old(files)[path := files[path]]
                   && Revoked(SettingsAt(old(files), path), files[path], old(state).record)
    {
      UninstallMeans(files, state);
      refused := RunUninstall();
    }

    method RunUninstall() returns (refused: Option<nat>)
      modifies this
      ensures var path := if old(state).State? && old(state).record.path.Some? && old(state).record.path.value.Str?
                          then old(state).record.path.value.text else PermissionsKey;
        Effect(Uninstall(old(files), old(state)), path, refused, old(files), old(state))
    {
      if state.NoState? { return Some(2); }
      if state.Unreadable? { return Some(4); }
      var s := state.record;
      if s.path.None? || !s.path.value.Str? { return Some(4); }
      var path := s.path.value.text;
      var parsed := Parse(s);
      if parsed.Corrupt? { return Some(4); }
      var ours := Ours(parsed);
      var settings := SettingsAt(files, path);
      if settings.link { return Some(3); }
      if !settings.file.Missing? {
        var loaded := Load(settings.file);
        if loaded.None? { return Some(4); }
        var data := Strip(loaded.value, ours, s);
        settings := Settings(false, if CreatedNew(s) && data == [] then Missing else Holds(Obj(data)));
      }
      files := files[path := settings];
      state := NoState;
      return None;
    }
  }

  lemma InstallMeans(rules: seq<Text>, path: Text, settings: Settings, state: StateFile)
    ensures var out := Install(rules, path, settings, state);
      && (forall code: nat :: out == Refused(code) <==> InstallRefuses(path, settings, state, code))
      && (out.Done? ==> Granted(settings, out.settings, rules) && Noted(out.state, rules, path))
  {
    forall code: nat ensures Install(rules, path, settings, state) == Refused(code) <==> InstallRefuses(path, settings, state, code) {
      InstallRefusedIff(rules, path, settings, state, code);
    }
    if Install(rules, path, settings, state).Done? { InstallGrants(rules, path, settings, state); }
  }

  lemma UninstallMeans(files: map<Text, Settings>, state: StateFile)
    ensures var out := Uninstall(files, state);
      && (forall code: nat :: out == Refused(code) <==> UninstallRefuses(files, state, code))
      && (out.Done? ==>
            && out.state == NoState && state.State? && state.record.path.Some? && state.record.path.value.Str?
            && Revoked(SettingsAt(files, state.record.path.value.text), out.settings, state.record))
  {
    forall code: nat ensures Uninstall(files, state) == Refused(code) <==> UninstallRefuses(files, state, code) {
      UninstallRefusedIff(files, state, code);
    }
    if Uninstall(files, state).Done? { UninstallRevokes(files, state.record); }
  }

  /** Whether each rule was there before us: what was recorded of it, or else what the file says now. */
  method RulesExisted(rules: seq<Text>, allow: seq<Doc>, recorded: map<Text, bool>) returns (existed: map<Text, bool>)
    ensures existed == Provenance(rules, allow, recorded)
  {
    existed := map r | r in rules :: Str(r) in allow;
    for i := 0 to |rules|
      invariant existed.Keys == (set r | r in rules)
      invariant forall r :: r in existed ==>
        existed[r] == if r in rules[..i] && r in recorded then recorded[r] else Str(r) in allow
    {
      assert rules[..i + 1] == rules[..i] + [rules[i]];
      if rules[i] in recorded { existed := existed[rules[i] := recorded[rules[i]]]; }
    }
    assert rules[..|rules|] == rules;
  }

  method AppendMissing(before: seq<Doc>, rules: seq<Text>) returns (allow: seq<Doc>)
    ensures allow == Appended(before, rules)
  {
    allow := before;
    for i := 0 to |rules|
      invariant Appended(before, rules) == Appended(allow, rules[i..])
    {
      assert rules[i..][1..] == rules[i + 1..];
      if Str(rules[i]) !in allow { allow := allow + [Str(rules[i])]; }
    }
  }

  method Strip(data: seq<Entry>, ours: seq<Text>, s: Record) returns (left: seq<Entry>)
    ensures left == Stripped(data, ours, s)
  {
    left := data;
    if HasAllow(data) && ours != [] {
      var perms := Get(data, PermissionsKey).value.fields;
      var allow := Without(Get(perms, AllowKey).value.items, ours);
      perms := if !Truthy(s.allowExisted) && allow == [] then Pop(perms, AllowKey) else Put(perms, AllowKey, Arr(allow));
      left := if !Truthy(s.permsExisted) && perms == [] then Pop(data, PermissionsKey)
              else Put(data, PermissionsKey, Obj(perms));
    }
  }
}
