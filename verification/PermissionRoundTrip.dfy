/** What installing any number of times and uninstalling leaves of the operator's settings. */
module PermissionRoundTrip {
  import opened Json
  import opened Option
  import opened PermissionModel

  // ---- ordered objects --------------------------------------------------------------

  lemma {:induction false} GetPut(f: seq<Entry>, k: Text, v: Doc, j: Text)
    ensures Get(Put(f, k, v), j) == if j == k then Some(v) else Get(f, j)
  {
    if f != [] && f[0].key != k { GetPut(f[1..], k, v, j); }
  }

  lemma {:induction false} PutPut(f: seq<Entry>, k: Text, v: Doc, w: Doc)
    ensures Put(Put(f, k, v), k, w) == Put(f, k, w)
  {
    if f != [] && f[0].key != k { PutPut(f[1..], k, v, w); }
  }

  lemma {:induction false} PutSame(f: seq<Entry>, k: Text, v: Doc)
    requires Get(f, k) == Some(v)
    ensures Put(f, k, v) == f
  {
    if f[0].key == k { assert f[0] == Field(k, v); } else { PutSame(f[1..], k, v); }
  }

  lemma {:induction false} PopPut(f: seq<Entry>, k: Text, v: Doc)
    ensures Pop(Put(f, k, v), k) == Pop(f, k)
  {
    if f != [] && f[0].key != k {
      PopPut(f[1..], k, v);
      assert Put(f, k, v)[1..] == Put(f[1..], k, v);
    }
  }

  lemma {:induction false} PopAbsent(f: seq<Entry>, k: Text)
    requires Get(f, k).None?
    ensures Pop(f, k) == f
  {
    if f != [] { PopAbsent(f[1..], k); }
  }

  // ---- the rules in the allow list --------------------------------------------------

  /** What an install appends: the rules that are not there, in order and once. */
  function Lacking(allow: seq<Doc>, rules: seq<Text>): (r: seq<Text>)
    ensures forall x :: x in r <==> x in rules && Str(x) !in allow
    decreases |rules|
  {
    if rules == [] then []
    else if Str(rules[0]) in allow then Lacking(allow, rules[1..])
    else [rules[0]] + Lacking(allow + [Str(rules[0])], rules[1..])
  }

  lemma Assoc(a: seq<Doc>, b: seq<Doc>, c: seq<Doc>)
    ensures (a + b) + c == a + (b + c)
  {}

  lemma TextsCons(r: Text, rules: seq<Text>)
    ensures Texts([r] + rules) == [Str(r)] + Texts(rules)
  {}

  lemma {:induction false} AppendsLacking(allow: seq<Doc>, rules: seq<Text>)
    ensures Appended(allow, rules) == allow + Texts(Lacking(allow, rules))
    decreases |rules|
  {
    if rules == [] {
      assert Texts([]) == [];
    } else if Str(rules[0]) in allow {
      AppendsLacking(allow, rules[1..]);
    } else {
      var more := allow + [Str(rules[0])];
      AppendsLacking(more, rules[1..]);
      TextsCons(rules[0], Lacking(more, rules[1..]));
      Assoc(allow, [Str(rules[0])], Texts(Lacking(more, rules[1..])));
    }
  }

  predicate IsOurs(v: Doc, ours: seq<Text>) {
    v.Str? && v.text in ours
  }

  lemma {:induction false} WithoutConcat(a: seq<Doc>, b: seq<Doc>, ours: seq<Text>)
    ensures Without(a + b, ours) == Without(a, ours) + Without(b, ours)
  {
    if a == [] {
      assert a + b == b;
    } else {
      WithoutConcat(a[1..], b, ours);
      assert (a + b)[1..] == a[1..] + b;
    }
  }

  lemma {:induction false} WithoutNone(a: seq<Doc>, ours: seq<Text>)
    requires forall i :: 0 <= i < |a| ==> !IsOurs(a[i], ours)
    ensures Without(a, ours) == a
  {
    if a != [] { WithoutNone(a[1..], ours); }
  }

  lemma {:induction false} WithoutAll(a: seq<Doc>, ours: seq<Text>)
    requires forall i :: 0 <= i < |a| ==> IsOurs(a[i], ours)
    ensures Without(a, ours) == []
  {
    if a != [] { WithoutAll(a[1..], ours); }
  }

  lemma {:induction false} WithoutHas(a: seq<Doc>, ours: seq<Text>, v: Doc)
    ensures v in Without(a, ours) <==> v in a && !IsOurs(v, ours)
  {
    if a != [] { WithoutHas(a[1..], ours, v); }
  }

  // ---- reading back what was recorded -----------------------------------------------

  lemma {:induction false} FlagsGet(rules: seq<Text>, existed: map<Text, bool>, r: Text)
    requires forall i :: 0 <= i < |rules| ==> rules[i] in existed
    ensures Get(Flags(rules, existed), r) == if r in rules then Some(Bool(existed[r])) else None
  {
    if rules != [] { FlagsGet(rules[1..], existed, r); }
  }

  lemma ParseWritten(rules: seq<Text>, existed: map<Text, bool>, was: Record)
    requires rules != [] && forall i :: 0 <= i < |rules| ==> rules[i] in existed
    ensures Parse(Written(rules, existed, was)) == Parsed(rules, map r | r in rules :: existed[r])
  {
    forall r ensures Get(Flags(rules, existed), r) == if r in rules then Some(Bool(existed[r])) else None {
      FlagsGet(rules, existed, r);
    }
    assert Strings(Texts(rules)) == rules;
  }

  lemma ParsedCovers(s: Record)
    ensures Parse(s).Parsed? ==>
      Parse(s).rules != [] && forall r :: r in Parse(s).rules <==> r in Parse(s).existed
  {}

  // ---- what the installs have made of the operator's settings -----------------------

  // `o`: the operator's settings, before us.
  function DataOf(o: Stored): seq<Entry> requires Adoptable(o) { Load(o).value }
  function PermsIn(o: Stored): seq<Entry> requires Adoptable(o) { PermsOf(DataOf(o)).value }
  function AllowIn(o: Stored): seq<Doc> requires Adoptable(o) { AllowOf(PermsIn(o)).value }

  predicate SameProvenance(s: Record, first: Record) {
    && s.path == first.path && s.detectMode == first.detectMode && s.settingsExisted == first.settingsExisted
    && s.permsExisted == first.permsExisted && s.allowExisted == first.allowExisted
  }

  /** The record tells the operator's rules from ours, and says what was there before the first install. */
  ghost predicate Honest(o: Stored, path: Text, s: Record)
    requires Adoptable(o)
  {
    && SameProvenance(s, FirstRecord(path, o, DataOf(o))) && Parse(s).Parsed?
    && forall r :: r in Parse(s).rules ==> r in Parse(s).existed && Parse(s).existed[r] == (Str(r) in AllowIn(o))
  }

  ghost predicate OursAre(s: Record, extra: seq<Doc>)
    requires Parse(s).Parsed?
  {
    && (forall i :: 0 <= i < |Parse(s).rules| ==> Parse(s).rules[i] in Parse(s).existed)
    && (forall i :: 0 <= i < |extra| ==> IsOurs(extra[i], Ours(Parse(s))))
    && (forall r :: r in Ours(Parse(s)) ==> Str(r) in extra)
  }

  /** The settings are the operator's with `extra` appended to the allow list, and those rules are ours. */
  ghost predicate Installed(o: Stored, path: Text, extra: seq<Doc>, data: seq<Entry>, s: Record) {
    && Adoptable(o) && Honest(o, path, s) && OursAre(s, extra)
    && data == WithAllow(DataOf(o), PermsIn(o), AllowIn(o) + extra)
  }

  lemma InstalledReads(data: seq<Entry>, perms: seq<Entry>, allow: seq<Doc>)
    ensures var d := WithAllow(data, perms, allow);
      && PermsOf(d) == Some(Put(perms, AllowKey, Arr(allow))) && AllowOf(PermsOf(d).value) == Some(allow)
      && HasAllow(d) && Get(Get(d, PermissionsKey).value.fields, AllowKey) == Some(Arr(allow))
  {
    GetPut(data, PermissionsKey, Obj(Put(perms, AllowKey, Arr(allow))), PermissionsKey);
    GetPut(perms, AllowKey, Arr(allow), AllowKey);
  }

  lemma InstalledTwice(data: seq<Entry>, perms: seq<Entry>, allow: seq<Doc>, more: seq<Doc>)
    ensures WithAllow(WithAllow(data, perms, allow), Put(perms, AllowKey, Arr(allow)), more)
         == WithAllow(data, perms, more)
  {
    PutPut(perms, AllowKey, Arr(allow), Arr(more));
    PutPut(data, PermissionsKey, Obj(Put(perms, AllowKey, Arr(allow))), Obj(Put(perms, AllowKey, Arr(more))));
  }

  /** The file and the record an accepted install leaves. */
  ghost predicate Leaves(t: Outcome, data: seq<Entry>, s: Record) {
    t == Done(Settings(false, Holds(Obj(data))), State(s))
  }

  lemma FirstInstall(o: Stored, path: Text, rules: seq<Text>, state: StateFile) returns (extra: seq<Doc>, s: Record)
    requires Adoptable(o) && rules != [] && !state.Unreadable? && Prior(state, path).None?
    ensures Installed(o, path, extra, WithAllow(DataOf(o), PermsIn(o), AllowIn(o) + extra), s)
    ensures Leaves(Install(rules, path, Settings(false, o), state),
                   WithAllow(DataOf(o), PermsIn(o), AllowIn(o) + extra), s)
    ensures Parse(s).rules == rules
  {
    var allow := AllowIn(o);
    var existed := Provenance(rules, allow, map[]);
    AppendsLacking(allow, rules);
    extra := Texts(Lacking(allow, rules));
    s := Written(rules, existed, FirstRecord(path, o, DataOf(o)));
    ParseWritten(rules, existed, FirstRecord(path, o, DataOf(o)));
    ExtraIsOurs(Parse(s), Lacking(allow, rules));
  }

  lemma ExtraIsOurs(p: Parsed, lacking: seq<Text>)
    requires p.Parsed? && forall i :: 0 <= i < |p.rules| ==> p.rules[i] in p.existed
    requires forall r :: r in lacking <==> r in p.rules && !p.existed[r]
    ensures forall i :: 0 <= i < |lacking| ==> IsOurs(Texts(lacking)[i], Ours(p))
    ensures forall r :: r in Ours(p) ==> Str(r) in Texts(lacking)
  {
    forall i | 0 <= i < |lacking| ensures IsOurs(Texts(lacking)[i], Ours(p)) {
      assert lacking[i] in lacking;
    }
    forall r | r in Ours(p) ensures Str(r) in Texts(lacking) {
      var i :| 0 <= i < |lacking| && lacking[i] == r;
      assert Texts(lacking)[i] == Str(r);
    }
  }

  ghost function NextExtra(o: Stored, extra: seq<Doc>, rules: seq<Text>): seq<Doc>
    requires Adoptable(o)
  {
    extra + Texts(Lacking(AllowIn(o) + extra, rules))
  }

  ghost function NextRecord(o: Stored, extra: seq<Doc>, data: seq<Entry>, path: Text, s: Record, rules: seq<Text>)
    : Record
    requires Adoptable(o) && Parse(s).Parsed?
  {
    Written(rules, Provenance(rules, AllowIn(o) + extra, Parse(s).existed),
            Carried(FirstRecord(path, Holds(Obj(data)), data), Some(s)))
  }

  /** An install that is not refused. */
  lemma InstallDone(rules: seq<Text>, path: Text, file: Stored, state: StateFile)
    requires Adoptable(file) && !state.Unreadable?
    requires Prior(state, path).Some? ==> Parse(Prior(state, path).value).Parsed?
    ensures Leaves(Install(rules, path, Settings(false, file), state), NewData(rules, DataOf(file)),
                   NewRecord(rules, path, file, DataOf(file), Prior(state, path)))
  {}

  lemma NextData(o: Stored, extra: seq<Doc>, data: seq<Entry>, rules: seq<Text>)
    requires Adoptable(o) && data == WithAllow(DataOf(o), PermsIn(o), AllowIn(o) + extra)
    ensures PermsOf(data).Some? && AllowOf(PermsOf(data).value) == Some(AllowIn(o) + extra)
    ensures NewData(rules, data) == WithAllow(DataOf(o), PermsIn(o), AllowIn(o) + NextExtra(o, extra, rules))
  {
    var allow := AllowIn(o) + extra;
    InstalledReads(DataOf(o), PermsIn(o), allow);
    AppendsLacking(allow, rules);
    Assoc(AllowIn(o), extra, Texts(Lacking(allow, rules)));
    InstalledTwice(DataOf(o), PermsIn(o), allow, AllowIn(o) + NextExtra(o, extra, rules));
  }

  lemma NextRecordIs(o: Stored, path: Text, extra: seq<Doc>, data: seq<Entry>, s: Record, rules: seq<Text>)
    requires Adoptable(o) && Parse(s).Parsed?
    requires PermsOf(data).Some? && AllowOf(PermsOf(data).value) == Some(AllowIn(o) + extra)
    ensures NewRecord(rules, path, Holds(Obj(data)), data, Some(s)) == NextRecord(o, extra, data, path, s, rules)
  {
    assert Recorded(Some(s)) == Parse(s).existed;
  }

  lemma NextSettings(o: Stored, path: Text, extra: seq<Doc>, data: seq<Entry>, s: Record, rules: seq<Text>)
    requires Installed(o, path, extra, data, s)
    ensures Leaves(Install(rules, path, Settings(false, Holds(Obj(data))), State(s)),
                   WithAllow(DataOf(o), PermsIn(o), AllowIn(o) + NextExtra(o, extra, rules)),
                   NextRecord(o, extra, data, path, s, rules))
  {
    NextData(o, extra, data, rules);
    NextRecordIs(o, path, extra, data, s, rules);
    InstallDone(rules, path, Holds(Obj(data)), State(s));
  }

  lemma NextHonest(o: Stored, path: Text, extra: seq<Doc>, data: seq<Entry>, s: Record, rules: seq<Text>)
    requires Installed(o, path, extra, data, s) && rules != []
    ensures Honest(o, path, NextRecord(o, extra, data, path, s, rules))
    ensures var existed := Provenance(rules, AllowIn(o) + extra, Parse(s).existed);
      Parse(NextRecord(o, extra, data, path, s, rules)) == Parsed(rules, map r | r in rules :: existed[r])
  {
    StillHonest(o, path, extra, data, s, rules);
    ParseWritten(rules, Provenance(rules, AllowIn(o) + extra, Parse(s).existed),
                 Carried(FirstRecord(path, Holds(Obj(data)), data), Some(s)));
  }

  /**
    Installing again, with at least the rules we own, moves nothing: what was recorded at the first
    install is carried, and the settings are still the operator's with our rules appended.
  */
  lemma {:induction false} InstallsAgain(o: Stored, path: Text, extra: seq<Doc>, data: seq<Entry>, s: Record, rules: seq<Text>)
    requires Installed(o, path, extra, data, s) && rules != []
    requires forall r :: r in Ours(Parse(s)) ==> r in rules
    ensures Installed(o, path, NextExtra(o, extra, rules),
                      WithAllow(DataOf(o), PermsIn(o), AllowIn(o) + NextExtra(o, extra, rules)),
                      NextRecord(o, extra, data, path, s, rules))
    ensures Parse(NextRecord(o, extra, data, path, s, rules)).rules == rules
  {
    NextHonest(o, path, extra, data, s, rules);
    MoreIsOurs(o, path, extra, data, s, rules);
  }

  /** What an install records over an honest record is honest. */
  lemma StillHonest(o: Stored, path: Text, extra: seq<Doc>, data: seq<Entry>, s: Record, rules: seq<Text>)
    requires Installed(o, path, extra, data, s)
    ensures forall r :: r in rules ==>
      Provenance(rules, AllowIn(o) + extra, Parse(s).existed)[r] == (Str(r) in AllowIn(o))
  {
    ParsedCovers(s);
    forall r | r in rules
      ensures Provenance(rules, AllowIn(o) + extra, Parse(s).existed)[r] == (Str(r) in AllowIn(o))
    {
      if r !in Parse(s).existed {
        assert Str(r) in extra ==> IsOurs(Str(r), Ours(Parse(s)));
      }
    }
  }

  lemma MoreIsOurs(o: Stored, path: Text, extra: seq<Doc>, data: seq<Entry>, s: Record, rules: seq<Text>)
    requires Installed(o, path, extra, data, s) && rules != []
    requires forall r :: r in Ours(Parse(s)) ==> r in rules
    ensures var allow := AllowIn(o) + extra;
      var existed := Provenance(rules, allow, Parse(s).existed);
      var p := Parsed(rules, map r | r in rules :: existed[r]);
      && (forall v :: v in extra + Texts(Lacking(allow, rules)) ==> IsOurs(v, Ours(p)))
      && (forall r :: r in Ours(p) ==> Str(r) in extra + Texts(Lacking(allow, rules)))
  {
    StillHonest(o, path, extra, data, s, rules);
    var allow := AllowIn(o) + extra;
    var lacking := Lacking(allow, rules);
    var p := Parsed(rules, map r | r in rules :: Provenance(rules, allow, Parse(s).existed)[r]);
    forall v | v in extra + Texts(lacking) ensures IsOurs(v, Ours(p)) {
      if v in extra {
        assert IsOurs(v, Ours(Parse(s)));
      } else {
        var i :| 0 <= i < |lacking| && Texts(lacking)[i] == v;
        assert lacking[i] in lacking && Str(lacking[i]) !in allow;
      }
    }
    forall r | r in Ours(p) ensures Str(r) in extra + Texts(lacking) {
      if Str(r) !in extra {
        assert r in lacking;
        var i :| 0 <= i < |lacking| && lacking[i] == r;
        assert Texts(lacking)[i] == Str(r);
      }
    }
  }

  // ---- uninstall --------------------------------------------------------------------

  /** The operator's settings read as JSON, a null container the same as none. */
  function WithoutNulls(data: seq<Entry>): seq<Entry> {
    match Get(data, PermissionsKey)
    case None => data
    case Some(v) =>
      if v.Null? then Pop(data, PermissionsKey)
      else if v.Obj? && Get(v.fields, AllowKey) == Some(Null) then
        Put(data, PermissionsKey, Obj(Pop(v.fields, AllowKey)))
      else data
  }

  function Restored(o: Stored): Stored
    requires Adoptable(o)
  {
    if o.Missing? then Missing else Holds(Obj(WithoutNulls(DataOf(o))))
  }

  lemma StrippedAllow(o: Stored, extra: seq<Doc>, ours: seq<Text>)
    requires Adoptable(o) && forall i :: 0 <= i < |extra| ==> IsOurs(extra[i], ours)
    requires forall r :: r in ours ==> Str(r) !in AllowIn(o)
    ensures Without(AllowIn(o) + extra, ours) == AllowIn(o)
  {
    forall i | 0 <= i < |AllowIn(o)| ensures !IsOurs(AllowIn(o)[i], ours) {
      assert AllowIn(o)[i] in AllowIn(o);
    }
    WithoutConcat(AllowIn(o), extra, ours);
    WithoutNone(AllowIn(o), ours);
    WithoutAll(extra, ours);
  }

  /** The containers an install made or filled, emptied again. */
  lemma ContainersBack(o: Stored, path: Text, extra: seq<Doc>, s: Record)
    requires Adoptable(o) && SameProvenance(s, FirstRecord(path, o, DataOf(o)))
    ensures Emptied(WithAllow(DataOf(o), PermsIn(o), AllowIn(o) + extra),
                    Put(PermsIn(o), AllowKey, Arr(AllowIn(o) + extra)), AllowIn(o), s) == WithoutNulls(DataOf(o))
  {
    var data, perms, allow, filled := DataOf(o), PermsIn(o), AllowIn(o), Arr(AllowIn(o) + extra);
    PopPut(perms, AllowKey, filled);
    PutPut(perms, AllowKey, filled, Arr(allow));
    PopPut(data, PermissionsKey, Obj(Put(perms, AllowKey, filled)));
    PutPut(data, PermissionsKey, Obj(Put(perms, AllowKey, filled)), Obj(perms));
    PutPut(data, PermissionsKey, Obj(Put(perms, AllowKey, filled)), Obj(Pop(perms, AllowKey)));
    if HasAllow(data) {
      PutSame(perms, AllowKey, Arr(allow));
      PutSame(data, PermissionsKey, Obj(perms));
    } else if HasPerms(data) {
      if Get(perms, AllowKey).None? {
        PopAbsent(perms, AllowKey);
        PutSame(data, PermissionsKey, Obj(perms));
      }
    } else if Get(data, PermissionsKey).None? {
      PopAbsent(data, PermissionsKey);
    }
  }

  lemma NothingExtra(extra: seq<Doc>, ours: seq<Text>)
    requires ours == [] && forall i :: 0 <= i < |extra| ==> IsOurs(extra[i], ours)
    ensures extra == []
  {
    WithoutNone(extra, []);
    WithoutAll(extra, ours);
  }

  /** When every rule was the operator's, the installs changed nothing. */
  lemma NothingOurs(o: Stored, path: Text, extra: seq<Doc>, data: seq<Entry>, s: Record)
    requires Installed(o, path, extra, data, s) && Ours(Parse(s)) == []
    ensures data == DataOf(o) == WithoutNulls(DataOf(o))
  {
    ParsedCovers(s);
    NothingExtra(extra, Ours(Parse(s)));
    assert AllowIn(o) + extra == AllowIn(o);
    SomeGranted(o, path, s);
    PutSame(PermsIn(o), AllowKey, Arr(AllowIn(o)));
    PutSame(DataOf(o), PermissionsKey, Obj(PermsIn(o)));
  }

  /** ... and then there was an allow list to hold them. */
  lemma SomeGranted(o: Stored, path: Text, s: Record)
    requires Adoptable(o) && Honest(o, path, s) && Parse(s).rules != []
    requires forall i :: 0 <= i < |Parse(s).rules| ==> Parse(s).rules[i] in Parse(s).existed
    requires Ours(Parse(s)) == []
    ensures AllowIn(o) != [] && HasAllow(DataOf(o))
  {
    var r := Parse(s).rules[0];
    assert r !in Ours(Parse(s));
    assert Str(r) in AllowIn(o);
  }

  /** Taking our rules out of what the installs left gives the operator's document back. */
  lemma StripsToOriginal(o: Stored, path: Text, extra: seq<Doc>, data: seq<Entry>, s: Record)
    requires Installed(o, path, extra, data, s)
    ensures Stripped(data, Ours(Parse(s)), s) == WithoutNulls(DataOf(o))
  {
    var ours := Ours(Parse(s));
    ParsedCovers(s);
    if ours == [] {
      NothingOurs(o, path, extra, data, s);
    } else {
      InstalledReads(DataOf(o), PermsIn(o), AllowIn(o) + extra);
      StrippedAllow(o, extra, ours);
      ContainersBack(o, path, extra, s);
    }
  }

  /** Uninstalling gives the operator's file back, and takes the record away. */
  lemma {:induction false} UninstallRestores(o: Stored, path: Text, extra: seq<Doc>, data: seq<Entry>, s: Record,
                          files: map<Text, Settings>)
    requires Installed(o, path, extra, data, s) && SettingsAt(files, path) == Settings(false, Holds(Obj(data)))
    ensures Uninstall(files, State(s)) == Done(Settings(false, Restored(o)), NoState)
  {
    StripsToOriginal(o, path, extra, data, s);
    ParsedCovers(s);
    RemovalOf(o, path, data, s);
  }

  lemma RemovalOf(o: Stored, path: Text, data: seq<Entry>, s: Record)
    requires Adoptable(o) && SameProvenance(s, FirstRecord(path, o, DataOf(o))) && Parse(s).Parsed?
    requires forall i :: 0 <= i < |Parse(s).rules| ==> Parse(s).rules[i] in Parse(s).existed
    requires Stripped(data, Ours(Parse(s)), s) == WithoutNulls(DataOf(o))
    ensures Removal(Settings(false, Holds(Obj(data))), s) == Done(Settings(false, Restored(o)), NoState)
  {
    CreatedIffMissing(o, path, s);
    assert o.Missing? ==> WithoutNulls(DataOf(o)) == [];
  }

  lemma CreatedIffMissing(o: Stored, path: Text, s: Record)
    requires Adoptable(o) && SameProvenance(s, FirstRecord(path, o, DataOf(o)))
    ensures CreatedNew(s) <==> o.Missing?
  {}

  // ---- whole histories --------------------------------------------------------------

  /** Installs of each rule set in turn, every upgrade granting at least what the last one did. */
  function InstallAll(sets: seq<seq<Text>>, path: Text, settings: Settings, state: StateFile): Outcome
    decreases |sets|
  {
    if sets == [] then Done(settings, state)
    else
      match Install(sets[0], path, settings, state)
      case Refused(code) => Refused(code)
      case Done(t, u) => InstallAll(sets[1..], path, t, u)
  }

  ghost predicate Within(a: seq<Text>, b: seq<Text>) {
    forall r :: r in a ==> r in b
  }

  ghost predicate Growing(sets: seq<seq<Text>>) {
    && (forall i :: 0 <= i < |sets| ==> sets[i] != [])
    && (forall i, j :: 0 <= i < j < |sets| ==> Within(sets[i], sets[j]))
  }

  lemma {:induction false} InstallsKeep(o: Stored, path: Text, extra: seq<Doc>, data: seq<Entry>, s: Record,
                                        sets: seq<seq<Text>>)
    requires Installed(o, path, extra, data, s) && Growing(sets)
    requires sets != [] ==> Within(Ours(Parse(s)), sets[0])
    ensures exists more, d, t ::
      Installed(o, path, more, d, t)
      && Leaves(InstallAll(sets, path, Settings(false, Holds(Obj(data))), State(s)), d, t)
    decreases |sets|
  {
    if sets == [] {
      assert Leaves(InstallAll(sets, path, Settings(false, Holds(Obj(data))), State(s)), data, s);
    } else {
      NextSettings(o, path, extra, data, s, sets[0]);
      InstallsAgain(o, path, extra, data, s, sets[0]);
      var more := NextExtra(o, extra, sets[0]);
      var d, t := WithAllow(DataOf(o), PermsIn(o), AllowIn(o) + more), NextRecord(o, extra, data, path, s, sets[0]);
      ParsedCovers(t);
      assert |sets| > 1 ==> Within(sets[0], sets[1]);
      InstallsKeep(o, path, more, d, t, sets[1..]);
    }
  }

  /**
    The round trip: installing any number of growing rule sets over settings that can be adopted, and
    uninstalling, gives those settings back as a JSON value — explicit null containers gone, and the
    file with them if we had created it.
  */
  lemma {:induction false} RoundTrip(o: Stored, path: Text, sets: seq<seq<Text>>, state: StateFile, files: map<Text, Settings>)
    requires Adoptable(o) && !state.Unreadable? && Prior(state, path).None?
    requires sets != [] && Growing(sets)
    ensures var out := InstallAll(sets, path, Settings(false, o), state);
      && out.Done?
      && Uninstall(files[path := out.settings], out.state) == Done(Settings(false, Restored(o)), NoState)
  {
    var extra, s := FirstInstall(o, path, sets[0], state);
    var data := WithAllow(DataOf(o), PermsIn(o), AllowIn(o) + extra);
    ParsedCovers(s);
    assert |sets| > 1 ==> Within(sets[0], sets[1]);
    InstallsKeep(o, path, extra, data, s, sets[1..]);
    var more, d, t :| Installed(o, path, more, d, t)
      && Leaves(InstallAll(sets[1..], path, Settings(false, Holds(Obj(data))), State(s)), d, t);
    UninstallRestores(o, path, more, d, t, files[path := Settings(false, Holds(Obj(d)))]);
  }

  /** What the first version of the installer, which granted one rule, left on disk. */
  ghost predicate Legacy(o: Stored, path: Text, rule: Text, data: seq<Entry>, s: Record) {
    && Adoptable(o)
    && s == FirstRecord(path, o, DataOf(o)).(version := Some(Num(1.0)), rule := Some(Str(rule)),
                                             ruleExisted := Some(Bool(Str(rule) in AllowIn(o))))
    && data == WithAllow(DataOf(o), PermsIn(o), Appended(AllowIn(o), [rule]))
  }

  lemma LegacyInstalled(o: Stored, path: Text, rule: Text, data: seq<Entry>, s: Record)
    requires Legacy(o, path, rule, data, s)
    ensures Installed(o, path, Texts(Lacking(AllowIn(o), [rule])), data, s)
    ensures Within(Ours(Parse(s)), [rule])
  {
    AppendsLacking(AllowIn(o), [rule]);
    var lacking := Lacking(AllowIn(o), [rule]);
    assert Parse(s).rules == [rule];
    assert [rule][1..] == [];
    ExtraIsOurs(Parse(s), lacking);
  }

  /** The same round trip, begun by an installer of the first version. */
  lemma {:induction false} LegacyRoundTrip(o: Stored, path: Text, rule: Text, data: seq<Entry>, s: Record,
                        sets: seq<seq<Text>>, files: map<Text, Settings>)
    requires Legacy(o, path, rule, data, s)
    requires Growing(sets) && (sets != [] ==> rule in sets[0])
    ensures var out := InstallAll(sets, path, Settings(false, Holds(Obj(data))), State(s));
      && out.Done?
      && Uninstall(files[path := out.settings], out.state) == Done(Settings(false, Restored(o)), NoState)
  {
    LegacyInstalled(o, path, rule, data, s);
    var extra := Texts(Lacking(AllowIn(o), [rule]));
    InstallsKeep(o, path, extra, data, s, sets);
    var more, d, t :| Installed(o, path, more, d, t)
      && Leaves(InstallAll(sets, path, Settings(false, Holds(Obj(data))), State(s)), d, t);
    UninstallRestores(o, path, more, d, t, files[path := Settings(false, Holds(Obj(d)))]);
  }

  // ---- a set that shrinks -----------------------------------------------------------

  predicate Grants(file: Stored, r: Text) {
    && file.Holds? && file.value.Obj? && HasAllow(file.value.fields)
    && Str(r) in Get(Get(file.value.fields, PermissionsKey).value.fields, AllowKey).value.items
  }

  /** A rule of the document that is not ours survives the uninstall. */
  lemma StrippedKeeps(data: seq<Entry>, perms: seq<Entry>, allow: seq<Doc>, ours: seq<Text>, s: Record, r: Text)
    requires data == WithAllow(data, perms, allow) && HasAllow(data)
    requires Get(data, PermissionsKey) == Some(Obj(perms)) && Get(perms, AllowKey) == Some(Arr(allow))
    requires Str(r) in allow && r !in ours
    ensures Grants(Holds(Obj(Stripped(data, ours, s))), r)
  {
    WithoutHas(allow, ours, Str(r));
    var left := Without(allow, ours);
    GetPut(perms, AllowKey, Arr(left), AllowKey);
    GetPut(data, PermissionsKey, Obj(Put(perms, AllowKey, Arr(left))), PermissionsKey);
  }

  lemma RestoredGrantsNothingNew(o: Stored, r: Text)
    requires Adoptable(o) && Str(r) !in AllowIn(o)
    ensures !Grants(Restored(o), r)
  {
    var data := DataOf(o);
    if HasPerms(data) {
      GetPut(data, PermissionsKey, Obj(Pop(PermsIn(o), AllowKey)), PermissionsKey);
    }
    PopGet(PermsIn(o), AllowKey);
    PopGet(data, PermissionsKey);
  }

  lemma {:induction false} PopGet(f: seq<Entry>, k: Text)
    ensures Get(Pop(f, k), k).None?
  {
    if f != [] {
      PopGet(f[1..], k);
      assert Pop(f, k) == if f[0].key == k then Pop(f[1..], k) else [f[0]] + Pop(f[1..], k);
    }
  }

  /**
    An install that grants less than the ones before it can still be undone exactly when it grants every
    rule those added: a rule it leaves out is no longer recorded, and stays in the operator's settings.
  */
  lemma {:induction false} ShrinkingSetStrands(o: Stored, path: Text, extra: seq<Doc>, data: seq<Entry>, s: Record,
                            rules: seq<Text>, files: map<Text, Settings>)
    requires Installed(o, path, extra, data, s) && rules != []
    ensures var out := Install(rules, path, Settings(false, Holds(Obj(data))), State(s));
      && out.Done?
      && (Within(Ours(Parse(s)), rules) <==>
          Uninstall(files[path := out.settings], out.state) == Done(Settings(false, Restored(o)), NoState))
  {
    NextSettings(o, path, extra, data, s, rules);
    var more, t := NextExtra(o, extra, rules), NextRecord(o, extra, data, path, s, rules);
    var d := WithAllow(DataOf(o), PermsIn(o), AllowIn(o) + more);
    var after := files[path := Settings(false, Holds(Obj(d)))];
    if Within(Ours(Parse(s)), rules) {
      InstallsAgain(o, path, extra, data, s, rules);
      UninstallRestores(o, path, more, d, t, after);
    } else {
      var r :| r in Ours(Parse(s)) && r !in rules;
      Stranded(o, path, extra, data, s, rules, r, after);
    }
  }

  lemma UninstallLeaves(data: seq<Entry>, perms: seq<Entry>, allow: seq<Doc>, s: Record, r: Text,
                        files: map<Text, Settings>)
    requires Parse(s).Parsed? && r !in Parse(s).rules && Str(r) in allow && s.path.Some? && s.path.value.Str?
    requires SettingsAt(files, s.path.value.text) == Settings(false, Holds(Obj(data)))
    requires data == WithAllow(data, perms, allow) && HasAllow(data)
    requires Get(data, PermissionsKey) == Some(Obj(perms)) && Get(perms, AllowKey) == Some(Arr(allow))
    ensures var out := Uninstall(files, State(s)); out.Done? && Grants(out.settings.file, r)
  {
    ParsedCovers(s);
    StrippedKeeps(data, perms, allow, Ours(Parse(s)), s, r);
    RemovalGrants(data, s, r);
  }

  lemma RemovalGrants(data: seq<Entry>, s: Record, r: Text)
    requires Parse(s).Parsed? && forall i :: 0 <= i < |Parse(s).rules| ==> Parse(s).rules[i] in Parse(s).existed
    requires Grants(Holds(Obj(Stripped(data, Ours(Parse(s)), s))), r)
    ensures var out := Removal(Settings(false, Holds(Obj(data))), s); out.Done? && Grants(out.settings.file, r)
  {}

  lemma Stranded(o: Stored, path: Text, extra: seq<Doc>, data: seq<Entry>, s: Record,
                 rules: seq<Text>, r: Text, files: map<Text, Settings>)
    requires Installed(o, path, extra, data, s) && rules != [] && r in Ours(Parse(s)) && r !in rules
    requires SettingsAt(files, path) ==
      Settings(false, Holds(Obj(WithAllow(DataOf(o), PermsIn(o), AllowIn(o) + NextExtra(o, extra, rules)))))
    ensures Uninstall(files, State(NextRecord(o, extra, data, path, s, rules)))
         != Done(Settings(false, Restored(o)), NoState)
  {
    var t, allow := NextRecord(o, extra, data, path, s, rules), AllowIn(o) + NextExtra(o, extra, rules);
    var d, perms := WithAllow(DataOf(o), PermsIn(o), allow), Put(PermsIn(o), AllowKey, Arr(allow));
    NextHonest(o, path, extra, data, s, rules);
    InstalledReads(DataOf(o), PermsIn(o), allow);
    GetPut(DataOf(o), PermissionsKey, Obj(perms), PermissionsKey);
    PutSame(perms, AllowKey, Arr(allow));
    PutSame(d, PermissionsKey, Obj(perms));
    UninstallLeaves(d, perms, allow, t, r, files);
    RestoredGrantsNothingNew(o, r);
  }

  // ---- the operator's own edits -----------------------------------------------------

  /** The allow list of a document, read as empty if there is none. */
  function Listed(data: seq<Entry>): seq<Doc> {
    if HasAllow(data) then Get(Get(data, PermissionsKey).value.fields, AllowKey).value.items else []
  }

  /** The other permissions of a document, in order. */
  function OtherPerms(data: seq<Entry>): seq<Entry> {
    if HasPerms(data) then Pop(Get(data, PermissionsKey).value.fields, AllowKey) else []
  }

  /** Whatever the document, an install leaves every other key as it was and adds the rules that are missing. */
  lemma InstallTouchesOnlyRules(rules: seq<Text>, data: seq<Entry>)
    requires PermsOf(data).Some? && AllowOf(PermsOf(data).value).Some?
    ensures var after := NewData(rules, data);
      && Pop(after, PermissionsKey) == Pop(data, PermissionsKey)
      && OtherPerms(after) == OtherPerms(data)
      && Listed(after) == Listed(data) + Texts(Lacking(Listed(data), rules))
  {
    var perms := PermsOf(data).value;
    var allow := AllowOf(perms).value;
    AppendsLacking(allow, rules);
    InstalledReads(data, perms, Appended(allow, rules));
    PopPut(data, PermissionsKey, Obj(Put(perms, AllowKey, Arr(Appended(allow, rules)))));
    PopPut(perms, AllowKey, Arr(Appended(allow, rules)));
  }

  /** Whatever the document, an uninstall leaves every other key as it was and takes out our rules only. */
  lemma UninstallTouchesOnlyRules(data: seq<Entry>, ours: seq<Text>, s: Record)
    ensures var after := Stripped(data, ours, s);
      && Pop(after, PermissionsKey) == Pop(data, PermissionsKey)
      && OtherPerms(after) == OtherPerms(data)
      && Listed(after) == Without(Listed(data), ours)
  {
    if !HasAllow(data) {
    } else if ours == [] {
      WithoutNone(Listed(data), []);
    } else {
      var perms := Get(data, PermissionsKey).value.fields;
      EmptiedTouches(data, perms, Without(Listed(data), ours), s);
    }
  }

  lemma EmptiedTouches(data: seq<Entry>, perms: seq<Entry>, allow: seq<Doc>, s: Record)
    requires Get(data, PermissionsKey) == Some(Obj(perms))
    ensures var after := Emptied(data, perms, allow, s);
      Pop(after, PermissionsKey) == Pop(data, PermissionsKey) && OtherPerms(after) == Pop(perms, AllowKey)
      && Listed(after) == allow
  {
    var kept := if !Truthy(s.allowExisted) && allow == [] then Pop(perms, AllowKey)
                else Put(perms, AllowKey, Arr(allow));
    PopPut(perms, AllowKey, Arr(allow));
    PopGet(perms, AllowKey);
    PopAbsent(Pop(perms, AllowKey), AllowKey);
    GetPut(perms, AllowKey, Arr(allow), AllowKey);
    PopPut(data, PermissionsKey, Obj(kept));
    PopGet(data, PermissionsKey);
    PopAbsent(Pop(data, PermissionsKey), PermissionsKey);
    GetPut(data, PermissionsKey, Obj(kept), PermissionsKey);
  }

  /** What a removal leaves, whatever it removes from. */
  lemma RemovalLeaves(file: Stored, s: Record)
    requires Load(file).Some? && Parse(s).Parsed?
    requires forall i :: 0 <= i < |Parse(s).rules| ==> Parse(s).rules[i] in Parse(s).existed
    ensures var out := Removal(Settings(false, file), s);
      && out.Done? && out.state == NoState
      && Load(out.settings.file) == Some(Stripped(Load(file).value, Ours(Parse(s)), s))
  {}

  /** Everything but those rules, in order. */
  ghost predicate Cleaned(before: seq<Entry>, after: seq<Entry>, ours: seq<Text>) {
    && Pop(after, PermissionsKey) == Pop(before, PermissionsKey) && OtherPerms(after) == OtherPerms(before)
    && Listed(after) == Without(Listed(before), ours)
  }

  /** An uninstall whose record is understood. */
  lemma UninstallIs(path: Text, s: Record, files: map<Text, Settings>)
    requires Parse(s).Parsed? && s.path == Some(Str(path))
    ensures Uninstall(files, State(s)) == Removal(SettingsAt(files, path), s)
  {}

  lemma RemovalKeeps(file: Stored, s: Record)
    requires Load(file).Some? && Parse(s).Parsed?
    requires forall i :: 0 <= i < |Parse(s).rules| ==> Parse(s).rules[i] in Parse(s).existed
    ensures var end := Removal(Settings(false, file), s);
      && end.Done? && end.state == NoState && Load(end.settings.file).Some?
      && Cleaned(Load(file).value, Load(end.settings.file).value, Ours(Parse(s)))
  {
    RemovalLeaves(file, s);
    UninstallTouchesOnlyRules(Load(file).value, Ours(Parse(s)), s);
  }

  lemma UninstallKeeps(data: seq<Entry>, path: Text, s: Record, files: map<Text, Settings>)
    requires Parse(s).Parsed? && s.path == Some(Str(path))
    requires SettingsAt(files, path) == Settings(false, Holds(Obj(data)))
    ensures forall r :: r in Parse(s).rules <==> r in Parse(s).existed
    ensures var end := Uninstall(files, State(s));
      && end.Done? && Load(end.settings.file).Some?
      && Cleaned(data, Load(end.settings.file).value, OursIn(Parse(s).rules, Parse(s).existed))
  {
    ParsedCovers(s);
    UninstallIs(path, s, files);
    RemovalKeeps(Holds(Obj(data)), s);
  }

  /** Keys and rules of the operator are there, unchanged and in order. */
  ghost predicate OperatorKept(before: seq<Entry>, end: Outcome, p: Parsed) {
    && end.Done? && Load(end.settings.file).Some?
    && p.Parsed? && (forall i :: 0 <= i < |p.rules| ==> p.rules[i] in p.existed)
    && var after := Load(end.settings.file).value;
       && Pop(after, PermissionsKey) == Pop(before, PermissionsKey) && OtherPerms(after) == OtherPerms(before)
       && Without(Listed(before), Ours(p)) <= Listed(after)
  }

  lemma KeptThrough(before: seq<Entry>, data: seq<Entry>, added: seq<Doc>, path: Text, s: Record,
                    files: map<Text, Settings>)
    requires Parse(s).Parsed? && s.path == Some(Str(path))
    requires SettingsAt(files, path) == Settings(false, Holds(Obj(data)))
    requires Pop(data, PermissionsKey) == Pop(before, PermissionsKey) && OtherPerms(data) == OtherPerms(before)
    requires Listed(data) == Listed(before) + added
    ensures OperatorKept(before, Uninstall(files, State(s)), Parse(s))
  {
    UninstallKeeps(data, path, s, files);
    WithoutConcat(Listed(before), added, OursIn(Parse(s).rules, Parse(s).existed));
  }

  lemma RecordReads(rules: seq<Text>, path: Text, file: Stored, data: seq<Entry>, prior: Option<Record>)
    requires PermsOf(data).Some? && AllowOf(PermsOf(data).value).Some? && rules != []
    ensures var s := NewRecord(rules, path, file, data, prior); Parse(s).Parsed? && s.path == Some(Str(path))
  {
    ParseWritten(rules, Provenance(rules, AllowOf(PermsOf(data).value).value, Recorded(prior)),
                 Carried(FirstRecord(path, file, data), prior));
  }

  /**
    Operator edits survive: whatever the operator has made of the document, and whatever record of an
    earlier install there is, installing over it and uninstalling keeps every key that is not ours, and
    every rule that is not ours, unchanged and in order.
  */
  lemma {:induction false} EditsSurvive(rules: seq<Text>, path: Text, settings: Settings, state: StateFile, files: map<Text, Settings>)
    requires Install(rules, path, settings, state).Done? && rules != []
    ensures var out := Install(rules, path, settings, state);
      out.state.State? && OperatorKept(Load(settings.file).value, Uninstall(files[path := out.settings], out.state),
                                       Parse(out.state.record))
  {
    var before := Load(settings.file).value;
    var data := NewData(rules, before);
    InstallTouchesOnlyRules(rules, before);
    RecordReads(rules, path, settings.file, before, Prior(state, path));
    KeptThrough(before, data, Texts(Lacking(Listed(before), rules)), path,
                NewRecord(rules, path, settings.file, before, Prior(state, path)),
                files[path := Settings(false, Holds(Obj(data)))]);
  }
}
