/**
  The agy permission installer: rules added to an operator's settings document, with a record of
  which of them were the operator's already.
*/
module PermissionModel {
  import opened Json
  import opened Option

  /** A string: one of those the program knows, or any other. */
  datatype Text = PermissionsKey | AllowKey | DenyKey | AskKey | CreatedNewMode | AdoptMode | Word(text: string)

  type Doc = Json<Text, real>
  type Entry = Field<Text, Doc>

  // ---- ordered objects --------------------------------------------------------------

  function Get(fields: seq<Entry>, key: Text): Option<Doc> {
    if fields == [] then None
    else if fields[0].key == key then Some(fields[0].value)
    else Get(fields[1..], key)
  }

  /** `d[key] = value`: in place if the key is there, at the end if not. */
  function Put(fields: seq<Entry>, key: Text, value: Doc): seq<Entry> {
    if fields == [] then [Field(key, value)]
    else if fields[0].key == key then [Field(key, value)] + fields[1..]
    else [fields[0]] + Put(fields[1..], key, value)
  }

  /** `d.pop(key, None)`: every other key, in order. */
  function Pop(fields: seq<Entry>, key: Text): seq<Entry> {
    if fields == [] then []
    else (if fields[0].key == key then [] else [fields[0]]) + Pop(fields[1..], key)
  }

  // ---- files ------------------------------------------------------------------------

  /** What a settings file holds: `Empty` is no byte at all, `Blank` white space and nothing else. */
  datatype Stored = Missing | Broken | Empty | Blank | Holds(value: Doc)

  datatype Settings = Settings(link: bool, file: Stored)

  /** The install-state's keys, each present or not. `rule` and `ruleExisted` are version 1's. */
  datatype Record = Record(
    version: Option<Doc>, path: Option<Doc>, rules: Option<Doc>, rulesExisted: Option<Doc>,
    rule: Option<Doc>, ruleExisted: Option<Doc>,
    detectMode: Option<Doc>, settingsExisted: Option<Doc>, permsExisted: Option<Doc>, allowExisted: Option<Doc>)

  datatype StateFile = NoState | Unreadable | State(record: Record)

  /** Exit codes of the source, or what is on disk after. */
  datatype Outcome = Refused(code: nat) | Done(settings: Settings, state: StateFile)

  /** `_load_config`, with an absent file read as an empty object. */
  function Load(file: Stored): Option<seq<Entry>> {
    match file
    case Missing => Some([])
    case Empty => Some([])
    case Blank => Some([])
    case Broken => None
    case Holds(value) => if value.Obj? then Some(value.fields) else None
  }

  function PermsOf(data: seq<Entry>): Option<seq<Entry>> {
    match Get(data, PermissionsKey)
    case None => Some([])
    case Some(v) => if v.Null? then Some([]) else if v.Obj? then Some(v.fields) else None
  }

  function AllowOf(perms: seq<Entry>): Option<seq<Doc>> {
    match Get(perms, AllowKey)
    case None => Some([])
    case Some(v) => if v.Null? then Some([]) else if v.Arr? then Some(v.items) else None
  }

  predicate HasPerms(data: seq<Entry>) {
    Get(data, PermissionsKey).Some? && Get(data, PermissionsKey).value.Obj?
  }

  predicate HasAllow(data: seq<Entry>) {
    && HasPerms(data) && Get(Get(data, PermissionsKey).value.fields, AllowKey).Some?
    && Get(Get(data, PermissionsKey).value.fields, AllowKey).value.Arr?
  }

  // ---- the install-state ------------------------------------------------------------

  /** The rules an install recorded, and for each whether it was the operator's before. */
  datatype Parsed = Corrupt | Parsed(rules: seq<Text>, existed: map<Text, bool>)

  predicate AllStrings(items: seq<Doc>) {
    forall i :: 0 <= i < |items| ==> items[i].Str?
  }

  function Strings(items: seq<Doc>): (r: seq<Text>)
    requires AllStrings(items)
    ensures |r| == |items| && forall i :: 0 <= i < |r| ==> items[i] == Str(r[i])
  {
    seq(|items|, i requires 0 <= i < |items| => items[i].text)
  }

  predicate IsFlag(v: Option<Doc>) {
    v.Some? && v.value.Bool?
  }

  /** Python's `version == 1`, which a JSON `true` also satisfies. */
  predicate IsOne(v: Option<Doc>) {
    v == Some(Num(1.0)) || v == Some(Bool(true))
  }

  function Parse(s: Record): Parsed {
    if s.version == Some(Num(2.0)) then
      if !(s.rules.Some? && s.rules.value.Arr? && s.rules.value.items != [] && AllStrings(s.rules.value.items)) then
        Corrupt
      else if !(s.rulesExisted.Some? && s.rulesExisted.value.Obj?) then Corrupt
      else
        var rules, existed := Strings(s.rules.value.items), s.rulesExisted.value.fields;
        if exists i :: 0 <= i < |rules| && !IsFlag(Get(existed, rules[i])) then Corrupt
        else Parsed(rules, map r | r in rules :: Get(existed, r).value.flag)
    else if IsOne(s.version) then
      if s.rule.Some? && s.rule.value.Str? && IsFlag(s.ruleExisted) then
        Parsed([s.rule.value.text], map[s.rule.value.text := s.ruleExisted.value.flag])
      else Corrupt
    else Corrupt
  }

  /** The recorded rules that are ours to remove. */
  function Ours(p: Parsed): seq<Text>
    requires p.Parsed? && forall i :: 0 <= i < |p.rules| ==> p.rules[i] in p.existed
  {
    OursIn(p.rules, p.existed)
  }

  function OursIn(rules: seq<Text>, existed: map<Text, bool>): (r: seq<Text>)
    requires forall i :: 0 <= i < |rules| ==> rules[i] in existed
    ensures forall x :: x in r <==> x in rules && !existed[x]
  {
    if rules == [] then []
    else (if existed[rules[0]] then [] else [rules[0]]) + OursIn(rules[1..], existed)
  }

  // ---- install ----------------------------------------------------------------------

  /** `_prior_state`: the record of an earlier install of this very settings file. */
  function Prior(state: StateFile, path: Text): Option<Record> {
    if state.State? && state.record.path == Some(Str(path)) then Some(state.record) else None
  }

  function Appended(allow: seq<Doc>, rules: seq<Text>): seq<Doc>
    decreases |rules|
  {
    if rules == [] then allow
    else Appended(if Str(rules[0]) in allow then allow else allow + [Str(rules[0])], rules[1..])
  }

  function Provenance(rules: seq<Text>, allow: seq<Doc>, recorded: map<Text, bool>): map<Text, bool> {
    map r | r in rules :: if r in recorded then recorded[r] else Str(r) in allow
  }

  function Flags(rules: seq<Text>, existed: map<Text, bool>): (r: seq<Entry>)
    requires forall i :: 0 <= i < |rules| ==> rules[i] in existed
  {
    if rules == [] then [] else [Field(rules[0], Bool(existed[rules[0]]))] + Flags(rules[1..], existed)
  }

  function Texts(rules: seq<Text>): (r: seq<Doc>)
    ensures |r| == |rules| && forall i :: 0 <= i < |r| ==> r[i] == Str(rules[i])
  {
    seq(|rules|, i requires 0 <= i < |rules| => Str(rules[i]))
  }

  /** The record of a first install, of which a re-install keeps what is not about rules. */
  function FirstRecord(path: Text, file: Stored, data: seq<Entry>): Record {
    Record(None, Some(Str(path)), None, None, None, None,
           Some(Str(if file.Missing? then CreatedNewMode else AdoptMode)),
           Some(Bool(!file.Missing?)), Some(Bool(HasPerms(data))), Some(Bool(HasAllow(data))))
  }

  function Kept(prior: Option<Doc>, now: Option<Doc>): Option<Doc> {
    if prior.Some? then prior else now
  }

  function Written(rules: seq<Text>, existed: map<Text, bool>, was: Record): Record
    requires forall i :: 0 <= i < |rules| ==> rules[i] in existed
  {
    was.(version := Some(Num(2.0)), rules := Some(Arr(Texts(rules))),
         rulesExisted := Some(Obj(Flags(rules, existed))), rule := None, ruleExisted := None)
  }

  function Carried(first: Record, prior: Option<Record>): Record {
    if prior.None? then first
    else
      var p := prior.value;
      first.(detectMode := Kept(p.detectMode, first.detectMode),
             settingsExisted := Kept(p.settingsExisted, first.settingsExisted),
             permsExisted := Kept(p.permsExisted, first.permsExisted),
             allowExisted := Kept(p.allowExisted, first.allowExisted))
  }

  function WithAllow(data: seq<Entry>, perms: seq<Entry>, allow: seq<Doc>): seq<Entry> {
    Put(data, PermissionsKey, Obj(Put(perms, AllowKey, Arr(allow))))
  }

  function Recorded(prior: Option<Record>): map<Text, bool> {
    if prior.Some? && Parse(prior.value).Parsed? then Parse(prior.value).existed else map[]
  }

  function NewData(rules: seq<Text>, data: seq<Entry>): seq<Entry>
    requires PermsOf(data).Some? && AllowOf(PermsOf(data).value).Some?
  {
    var perms := PermsOf(data).value;
    WithAllow(data, perms, Appended(AllowOf(perms).value, rules))
  }

  function NewRecord(rules: seq<Text>, path: Text, file: Stored, data: seq<Entry>, prior: Option<Record>): Record
    requires PermsOf(data).Some? && AllowOf(PermsOf(data).value).Some?
  {
    Written(rules, Provenance(rules, AllowOf(PermsOf(data).value).value, Recorded(prior)),
            Carried(FirstRecord(path, file, data), prior))
  }

  /** An object whose permissions, and their allow list, are of the right type if they are there. */
  predicate Adoptable(file: Stored) {
    Load(file).Some? && PermsOf(Load(file).value).Some? && AllowOf(PermsOf(Load(file).value).value).Some?
  }

  function Install(rules: seq<Text>, path: Text, settings: Settings, state: StateFile): Outcome {
    if settings.link then Refused(3)
    else if !Adoptable(settings.file) || state.Unreadable? then Refused(4)
    else
      var data, prior := Load(settings.file).value, Prior(state, path);
      if prior.Some? && Parse(prior.value).Corrupt? then Refused(4)
      else Done(Settings(false, Holds(Obj(NewData(rules, data)))),
                State(NewRecord(rules, path, settings.file, data, prior)))
  }

  // ---- uninstall --------------------------------------------------------------------

  /** Python's truth of `state.get(key, False)`. */
  predicate Truthy(v: Option<Doc>) {
    v.Some? && match v.value
               case Null => false
               case Bool(b) => b
               case Num(n) => n != 0.0
               case Str(t) => t != Word("")
               case Arr(items) => items != []
               case Obj(fields) => fields != []
  }

  function Without(allow: seq<Doc>, ours: seq<Text>): seq<Doc> {
    if allow == [] then []
    else (if allow[0].Str? && allow[0].text in ours then [] else [allow[0]]) + Without(allow[1..], ours)
  }

  /** The allow list written back, and the containers we made dropped if they are empty. */
  function Emptied(data: seq<Entry>, perms: seq<Entry>, allow: seq<Doc>, s: Record): seq<Entry> {
    var kept := if !Truthy(s.allowExisted) && allow == [] then Pop(perms, AllowKey)
                else Put(perms, AllowKey, Arr(allow));
    if !Truthy(s.permsExisted) && kept == [] then Pop(data, PermissionsKey)
    else Put(data, PermissionsKey, Obj(kept))
  }

  /** Our rules out of the document. */
  function Stripped(data: seq<Entry>, ours: seq<Text>, s: Record): seq<Entry> {
    if !HasAllow(data) || ours == [] then data
    else
      var perms := Get(data, PermissionsKey).value.fields;
      Emptied(data, perms, Without(Get(perms, AllowKey).value.items, ours), s)
  }

  predicate CreatedNew(s: Record) {
    s.detectMode == Some(Str(CreatedNewMode)) && s.settingsExisted == Some(Bool(false))
  }

  function SettingsAt(files: map<Text, Settings>, path: Text): Settings {
    if path in files then files[path] else Settings(false, Missing)
  }

  function Uninstall(files: map<Text, Settings>, state: StateFile): Outcome {
    match state
    case NoState => Refused(2)
    case Unreadable => Refused(4)
    case State(s) =>
      if s.path.None? || !s.path.value.Str? then Refused(4)
      else if Parse(s).Corrupt? then Refused(4)
      else
        Removal(SettingsAt(files, s.path.value.text), s)
  }

  /** Uninstall, once the record is understood. */
  function Removal(on: Settings, s: Record): Outcome
    requires Parse(s).Parsed?
  {
    if on.link then Refused(3)
    else if on.file.Missing? then Done(on, NoState)
    else if Load(on.file).None? then Refused(4)
    else
      var data := Stripped(Load(on.file).value, Ours(Parse(s)), s);
      if CreatedNew(s) && data == [] then Done(Settings(false, Missing), NoState)
      else Done(Settings(false, Holds(Obj(data))), NoState)
  }
}
