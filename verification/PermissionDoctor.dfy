/** The permission doctor against agy's permission engine, in which Deny goes before Ask before Allow. */
module PermissionDoctor {
  import opened Json
  import opened Option
  import opened PermissionModel

  // ---- the engine -------------------------------------------------------------------

  datatype Verdict = Allowed | Asked | Denied

  /** A permission list of the document; anything but an array grants and blocks nothing. */
  function ListOf(perms: seq<Entry>, key: Text): seq<Doc> {
    var v := Get(perms, key);
    if v.Some? && v.value.Arr? then v.value.items else []
  }

  /** A tool is called by its exact rule; a broad rule covers every tool of the server. */
  predicate Matched(items: seq<Doc>, tool: Text, broad: seq<Text>) {
    Str(tool) in items || exists i :: 0 <= i < |broad| && Str(broad[i]) in items
  }

  function Evaluate(perms: seq<Entry>, tool: Text, broad: seq<Text>): Verdict {
    if Matched(ListOf(perms, DenyKey), tool, broad) then Denied
    else if Matched(ListOf(perms, AskKey), tool, broad) then Asked
    else if Matched(ListOf(perms, AllowKey), tool, broad) then Allowed
    else Asked
  }

  // ---- the doctor -------------------------------------------------------------------

  datatype Report =
    | Absent
    | InvalidJson
    | Shadowed(list: Text, broad: bool, rule: Text)
    | Configured
    | Covered(rule: Text)
    | Partially(missing: seq<Text>)
    | NotConfigured

  /** A file whose text is JSON, the empty text standing for the empty object. */
  predicate Parses(file: Stored) {
    file.Holds? || file.Empty?
  }

  /** What the doctor takes for the permissions: an object under that key of an object, or nothing. */
  function DoctorPerms(file: Stored): seq<Entry>
    requires Parses(file)
  {
    if file.Holds? && file.value.Obj? && HasPerms(file.value.fields) then Get(file.value.fields, PermissionsKey).value.fields else []
  }

  predicate Hits(items: seq<Doc>, rules: seq<Text>) {
    exists i :: 0 <= i < |items| && IsHit(items[i], rules)
  }

  predicate IsHit(item: Doc, rules: seq<Text>) {
    item.Str? && item.text in rules
  }

  /** `r` is the first element of the list that is one of `rules`. */
  ghost predicate FirstIn(items: seq<Doc>, rules: seq<Text>, r: Text) {
    exists i :: 0 <= i < |items| && items[i] == Str(r) && r in rules && forall k :: 0 <= k < i ==> !IsHit(items[k], rules)
  }

  /** The first element that is one of `rules`. */
  method FirstHit(items: seq<Doc>, rules: seq<Text>) returns (hit: Option<Text>)
    ensures hit.Some? <==> Hits(items, rules)
    ensures hit.Some? ==> FirstIn(items, rules, hit.value)
  {
    for i := 0 to |items|
      invariant forall k :: 0 <= k < i ==> !IsHit(items[k], rules)
    {
      if IsHit(items[i], rules) { return Some(items[i].text); }
    }
    return None;
  }

  predicate Shadows(perms: seq<Entry>, rules: seq<Text>) {
    Hits(ListOf(perms, DenyKey), rules) || Hits(ListOf(perms, AskKey), rules)
  }

  /** The broad rules over both lists, then the exact ones; in each pass `deny` before `ask`. */
  method FindShadow(perms: seq<Entry>, rules: seq<Text>, broad: seq<Text>) returns (found: Option<Report>)
    ensures found.None? <==> !Shadows(perms, broad) && !Shadows(perms, rules)
    ensures found.Some? ==>
      && found.value.Shadowed? && (found.value.broad <==> Shadows(perms, broad))
      && (found.value.list == DenyKey || found.value.list == AskKey)
      && FirstIn(ListOf(perms, found.value.list), if found.value.broad then broad else rules, found.value.rule)
      && (found.value.list == AskKey ==>
            !Hits(ListOf(perms, DenyKey), if found.value.broad then broad else rules))
  {
    var sets := [broad, rules];
    var lists := [DenyKey, AskKey];
    for i := 0 to 2
      invariant forall k :: 0 <= k < i ==> !Shadows(perms, sets[k])
    {
      for j := 0 to 2
        invariant forall k :: 0 <= k < j ==> !Hits(ListOf(perms, lists[k]), sets[i])
      {
        var hit := FirstHit(ListOf(perms, lists[j]), sets[i]);
        if hit.Some? {
          assert i == 0 <==> Shadows(perms, broad) by { if i == 1 { assert !Shadows(perms, sets[0]); } }
          assert lists[j] == AskKey ==> !Hits(ListOf(perms, lists[0]), sets[i]);
          return Some(Shadowed(lists[j], i == 0, hit.value));
        }
      }
      assert !Hits(ListOf(perms, lists[0]), sets[i]) && !Hits(ListOf(perms, lists[1]), sets[i]);
    }
    assert !Shadows(perms, sets[0]) && !Shadows(perms, sets[1]);
    return None;
  }

  /** The rules not in `allow`, in order. */
  ghost function Lacks(allow: seq<Doc>, rules: seq<Text>): seq<Text> {
    if rules == [] then []
    else
      Lacks(allow, rules[..|rules| - 1])
      + (if Str(rules[|rules| - 1]) in allow then [] else [rules[|rules| - 1]])
  }

  method MissingRules(allow: seq<Doc>, rules: seq<Text>) returns (missing: seq<Text>)
    ensures missing == Lacks(allow, rules)
  {
    missing := [];
    for i := 0 to |rules|
      invariant missing == Lacks(allow, rules[..i])
    {
      assert rules[..i + 1][..i] == rules[..i];
      if Str(rules[i]) !in allow { missing := missing + [rules[i]]; }
    }
    assert rules[..|rules|] == rules;
  }

  lemma {:induction false} LacksIs(allow: seq<Doc>, rules: seq<Text>, r: Text)
    ensures r in Lacks(allow, rules) <==> r in rules && Str(r) !in allow
  {
    if rules != [] {
      LacksIs(allow, rules[..|rules| - 1], r);
      assert rules == rules[..|rules| - 1] + [rules[|rules| - 1]];
    }
  }

  lemma {:induction false} LacksAll(allow: seq<Doc>, rules: seq<Text>)
    ensures |Lacks(allow, rules)| <= |rules|
    ensures |Lacks(allow, rules)| == |rules| <==> forall r :: r in rules ==> Str(r) !in allow
  {
    if rules != [] {
      LacksAll(allow, rules[..|rules| - 1]);
      assert rules == rules[..|rules| - 1] + [rules[|rules| - 1]];
    }
  }

  // ---- doctor and engine ------------------------------------------------------------

  ghost predicate AllAllowed(perms: seq<Entry>, rules: seq<Text>, broad: seq<Text>) {
    forall r :: r in rules ==> Evaluate(perms, r, broad) == Allowed
  }

  ghost predicate NoneAllowed(perms: seq<Entry>, rules: seq<Text>, broad: seq<Text>) {
    forall r :: r in rules ==> Evaluate(perms, r, broad) != Allowed
  }

  /** The tools that still prompt, in order. */
  ghost function Prompting(perms: seq<Entry>, rules: seq<Text>, broad: seq<Text>): seq<Text> {
    if rules == [] then []
    else
      var last := rules[|rules| - 1];
      Prompting(perms, rules[..|rules| - 1], broad) + (if Evaluate(perms, last, broad) == Allowed then [] else [last])
  }

  lemma {:induction false} LacksPrompt(perms: seq<Entry>, allow: seq<Doc>, rules: seq<Text>, broad: seq<Text>)
    requires forall r :: r in rules ==> (Evaluate(perms, r, broad) == Allowed <==> Str(r) in allow)
    ensures Lacks(allow, rules) == Prompting(perms, rules, broad)
  {
    if rules != [] { LacksPrompt(perms, allow, rules[..|rules| - 1], broad); }
  }

  lemma HitsOne(items: seq<Doc>, rules: seq<Text>)
    ensures Hits(items, rules) <==> exists r :: r in rules && Str(r) in items
  {
    if r :| r in rules && Str(r) in items {
      var i :| 0 <= i < |items| && items[i] == Str(r);
    }
  }

  lemma Unshadowed(perms: seq<Entry>, rules: seq<Text>, broad: seq<Text>, r: Text)
    requires r in rules && !Shadows(perms, rules) && !Shadows(perms, broad)
    ensures Evaluate(perms, r, broad) == if Matched(ListOf(perms, AllowKey), r, broad) then Allowed else Asked
  {
    HitsOne(ListOf(perms, DenyKey), rules);
    HitsOne(ListOf(perms, AskKey), rules);
    HitsOne(ListOf(perms, DenyKey), broad);
    HitsOne(ListOf(perms, AskKey), broad);
  }

  /** A broad rule in a higher list stops every tool. */
  lemma BroadShadowStops(perms: seq<Entry>, rules: seq<Text>, broad: seq<Text>)
    requires Shadows(perms, broad)
    ensures NoneAllowed(perms, rules, broad)
  {
    HitsOne(ListOf(perms, DenyKey), broad);
    HitsOne(ListOf(perms, AskKey), broad);
    assert forall b :: b in broad ==> exists i :: 0 <= i < |broad| && broad[i] == b;
  }

  /** An exact rule in a higher list stops its tool. */
  lemma ExactShadowStops(perms: seq<Entry>, broad: seq<Text>, list: Text, rule: Text)
    requires (list == DenyKey || list == AskKey) && Str(rule) in ListOf(perms, list)
    ensures Evaluate(perms, rule, broad) != Allowed
  {}

  /** Every rule of ours is in the allow list. */
  ghost predicate AllListed(perms: seq<Entry>, rules: seq<Text>) {
    forall r :: r in rules ==> Str(r) in ListOf(perms, AllowKey)
  }

  /** `r` is the first of the broad rules that is in the allow list. */
  ghost predicate FirstListed(perms: seq<Entry>, broad: seq<Text>, r: Text) {
    exists i :: 0 <= i < |broad| && broad[i] == r && Str(r) in ListOf(perms, AllowKey)
      && forall k :: 0 <= k < i ==> Str(broad[k]) !in ListOf(perms, AllowKey)
  }

  /** The report names the first hit of the list it names, `ask` only where `deny` has none of that scope. */
  ghost predicate Names(perms: seq<Entry>, rules: seq<Text>, broad: seq<Text>, report: Report)
    requires report.Shadowed?
  {
    var scope := if report.broad then broad else rules;
    && (report.list == DenyKey || (report.list == AskKey && !Hits(ListOf(perms, DenyKey), scope)))
    && FirstIn(ListOf(perms, report.list), scope, report.rule)
  }

  method Doctor(settings: Settings, rules: seq<Text>, broad: seq<Text>) returns (report: Report)
    requires rules != []
    ensures report.Absent? <==> settings.file.Missing?
    ensures report.InvalidJson? <==> settings.file.Broken? || settings.file.Blank?
    ensures Parses(settings.file) ==>
      var perms := DoctorPerms(settings.file);
      && (report.Configured? || report.Covered? <==> AllAllowed(perms, rules, broad))
      && (report.Configured? <==> !report.Shadowed? && AllListed(perms, rules))
      && (report.Covered? ==> !AllListed(perms, rules) && FirstListed(perms, broad, report.rule))
      && (report.Shadowed? <==> Shadows(perms, broad) || Shadows(perms, rules))
      && (report.Shadowed? ==> Names(perms, rules, broad, report))
      && (report.Shadowed? ==> (report.broad <==> Shadows(perms, broad)))
      && (report.Shadowed? && report.broad ==> NoneAllowed(perms, rules, broad))
      && (report.Shadowed? && !report.broad ==>
            report.rule in rules && Evaluate(perms, report.rule, broad) != Allowed)
      && (report.Partially? <==> !report.Shadowed? && !AllAllowed(perms, rules, broad)
                                 && !NoneAllowed(perms, rules, broad))
      && (report.Partially? ==> report.missing == Prompting(perms, rules, broad))
      && (report.NotConfigured? <==> !report.Shadowed? && NoneAllowed(perms, rules, broad))
  {
    match settings.file
    case Missing => return Absent;
    case Broken => return InvalidJson;
    case Blank => return InvalidJson;
    case _ =>
      var perms := DoctorPerms(settings.file);
      var shadow := FindShadow(perms, rules, broad);
      if shadow.Some? {
        report := shadow.value;
        ShadowStops(perms, rules, broad, report);
      } else {
        report := Grants(perms, rules, broad);
      }
  }

  lemma ShadowStops(perms: seq<Entry>, rules: seq<Text>, broad: seq<Text>, report: Report)
    requires report.Shadowed? && (report.list == DenyKey || report.list == AskKey) && rules != []
    requires report.broad <==> Shadows(perms, broad)
    requires !report.broad ==> FirstIn(ListOf(perms, report.list), rules, report.rule)
    ensures !AllAllowed(perms, rules, broad)
    ensures if report.broad then NoneAllowed(perms, rules, broad)
            else Evaluate(perms, report.rule, broad) != Allowed
  {
    if report.broad {
      BroadShadowStops(perms, rules, broad);
      assert rules[0] in rules;
    } else {
      ExactShadowStops(perms, broad, report.list, report.rule);
    }
  }

  /** What the allow list grants, when nothing shadows it. */
  method Grants(perms: seq<Entry>, rules: seq<Text>, broad: seq<Text>) returns (report: Report)
    requires rules != [] && !Shadows(perms, rules) && !Shadows(perms, broad)
    ensures !report.Absent? && !report.InvalidJson? && !report.Shadowed?
    ensures report.Configured? || report.Covered? <==> AllAllowed(perms, rules, broad)
    ensures report.Configured? <==> AllListed(perms, rules)
    ensures report.Covered? ==> !AllListed(perms, rules) && FirstListed(perms, broad, report.rule)
    ensures report.Partially? <==> !AllAllowed(perms, rules, broad) && !NoneAllowed(perms, rules, broad)
    ensures report.Partially? ==> report.missing == Prompting(perms, rules, broad)
    ensures report.NotConfigured? <==> NoneAllowed(perms, rules, broad)
  {
    var allow := ListOf(perms, AllowKey);
    forall r | r in rules
      ensures Evaluate(perms, r, broad) == if Matched(allow, r, broad) then Allowed else Asked
    {
      Unshadowed(perms, rules, broad, r);
    }
    var missing := MissingRules(allow, rules);
    forall r ensures r in missing <==> r in rules && Str(r) !in allow { LacksIs(allow, rules, r); }
    LacksAll(allow, rules);
    assert rules[0] in rules;
    if missing == [] { return Configured; }
    assert missing[0] in missing;
    for i := 0 to |broad|
      invariant forall k :: 0 <= k < i ==> Str(broad[k]) !in allow
    {
      if Str(broad[i]) in allow { return Covered(broad[i]); }
    }
    if |missing| != |rules| {
      LacksPrompt(perms, allow, rules, broad);
      return Partially(missing);
    }
    return NotConfigured;
  }
}
