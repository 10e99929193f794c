/** toolSchemaDrift: the bridge's own listing against the schema copies the extension exposes. */
module ToolSchemas {
  import opened CanonicalJson
  import opened Option
  import opened CodeUnits

  /** A listed tool; its `inputSchema` may be missing. */
  datatype Tool = Tool(name: Text, schema: Option<Value>)

  datatype Problem = NotListed(name: Text) | Differs(name: Text)

  /** The first listing of `name`. */
  function Found(listed: seq<Tool>, name: Text): (r: Option<Tool>)
    ensures r.Some? <==> exists i :: 0 <= i < |listed| && listed[i].name == name
  {
    if listed == [] then None
    else if listed[0].name == name then Some(listed[0])
    else Found(listed[1..], name)
  }

  ghost predicate ProperTools(listed: seq<Tool>) {
    forall i :: 0 <= i < |listed| && listed[i].schema.Some? ==> Proper(listed[i].schema.value)
  }

  lemma {:induction false} FoundIsFirst(listed: seq<Tool>, name: Text)
    requires Found(listed, name).Some?
    ensures exists i :: 0 <= i < |listed| && listed[i].name == name && Found(listed, name) == Some(listed[i])
              && forall k :: 0 <= k < i ==> listed[k].name != name
  {
    if listed[0].name != name {
      FoundIsFirst(listed[1..], name);
      var i :| 0 <= i < |listed[1..]| && listed[1..][i].name == name && Found(listed[1..], name) == Some(listed[1..][i])
        && forall k :: 0 <= k < i ==> listed[1..][k].name != name;
      forall k | 0 <= k < i + 1 ensures listed[k].name != name {
        if k > 0 { assert listed[1..][k - 1].name != name; }
      }
      assert listed[i + 1] == listed[1..][i];
    }
  }

  /** Listed, and the first listing has the exposed schema up to key order. */
  ghost predicate Agrees(listed: seq<Tool>, name: Text, exposed: Value) {
    var found := Found(listed, name);
    found.Some? && found.value.schema.Some? && Same(found.value.schema.value, exposed)
  }

  /** What is wrong with each name, in the order of the names. */
  ghost function Problems(listed: seq<Tool>, names: seq<Text>, schemas: map<Text, Value>): seq<Problem>
    requires forall n :: n in names ==> n in schemas
  {
    if names == [] then []
    else
      var last := names[|names| - 1];
      Problems(listed, names[..|names| - 1], schemas)
      + (if Found(listed, last).None? then [NotListed(last)]
         else if !Agrees(listed, last, schemas[last]) then [Differs(last)]
         else [])
  }

  lemma FoundProper(listed: seq<Tool>, name: Text)
    requires ProperTools(listed)
    ensures var found := Found(listed, name);
      found.Some? && found.value.schema.Some? ==> Proper(found.value.schema.value)
  {
    if Found(listed, name).Some? { FoundIsFirst(listed, name); }
  }

  method ToolSchemaDrift(listed: seq<Tool>, names: seq<Text>, schemas: map<Text, Value>)
    returns (drift: Option<seq<Problem>>)
    requires forall n :: n in names ==> n in schemas && Proper(schemas[n])
    requires ProperTools(listed)
    ensures drift.GetOr([]) == Problems(listed, names, schemas)
    ensures drift.None? <==> Problems(listed, names, schemas) == []
  {
    var problems: seq<Problem> := [];
    var i := 0;
    while i < |names|
      invariant 0 <= i <= |names|
      invariant problems == Problems(listed, names[..i], schemas)
    {
      var name := names[i];
      var found := Found(listed, name);
      FoundProper(listed, name);
      assert names[..i + 1][..i] == names[..i];
      if found.None? {
        problems := problems + [NotListed(name)];
      } else if found.value.schema.None?
             || Canonical(found.value.schema.value) != Canonical(schemas[name]) {
        if found.value.schema.Some? { CanonicalSame(found.value.schema.value, schemas[name]); }
        problems := problems + [Differs(name)];
      } else {
        CanonicalSame(found.value.schema.value, schemas[name]);
      }
      i := i + 1;
    }
    assert names[..i] == names;
    drift := if |problems| == 0 then None else Some(problems);
  }

  /** No drift exactly when every exposed tool is listed and its first listing has an equal schema. */
  lemma {:induction false} NoDriftMeansAgreement(listed: seq<Tool>, names: seq<Text>, schemas: map<Text, Value>)
    requires forall n :: n in names ==> n in schemas
    ensures Problems(listed, names, schemas) == [] <==>
              forall n :: n in names ==> Agrees(listed, n, schemas[n])
  {
    if names != [] {
      var before, last := names[..|names| - 1], names[|names| - 1];
      NoDriftMeansAgreement(listed, before, schemas);
      assert names == before + [last];
      assert forall n :: n in names <==> n in before || n == last;
      assert Agrees(listed, last, schemas[last]) ==> Found(listed, last).Some?;
    }
  }
}
