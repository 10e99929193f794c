/**
  canonicalJson and toolSchemaDrift: two JSON values print the same text exactly when they are the
  same up to the order of object keys.
*/
module CanonicalJson {
  import opened Json
  import opened CodeUnits
  import opened QuotedText

  const COMMA: Unit := 0x2C
  const COLON: Unit := 0x3A
  const LB: Unit := 0x5B
  const RB: Unit := 0x5D
  const LC: Unit := 0x7B
  const RC: Unit := 0x7D

  predicate NumeralUnit(u: Unit) {
    0x30 <= u < 0x3A || u == 0x2B || u == 0x2D || u == 0x2E || u == 0x65
  }

  /** A finite number, as the text Number::toString gives it. */
  type Numeral = t: Text | |t| > 0 && forall i :: 0 <= i < |t| ==> NumeralUnit(t[i]) witness [0x30]

  type Value = Json<Text, Numeral>
  type Entry = Field<Text, Value>

  // ---- sorting entries by key -------------------------------------------------------

  /** JavaScript's `<` on strings: by code units. */
  predicate Less(a: Text, b: Text) {
    b != [] && (a == [] || a[0] < b[0] || (a[0] == b[0] && Less(a[1..], b[1..])))
  }

  lemma {:induction false} LessOrders(a: Text, b: Text, c: Text)
    ensures !Less(a, a)
    ensures a != b ==> Less(a, b) || Less(b, a)
    ensures Less(a, b) && Less(b, c) ==> Less(a, c)
    decreases |a|
  {
    if a != [] && b != [] && c != [] {
      assert a == [a[0]] + a[1..] && b == [b[0]] + b[1..];
      LessOrders(a[1..], b[1..], c[1..]);
    } else if a != [] && b != [] {
      assert a == [a[0]] + a[1..] && b == [b[0]] + b[1..];
      LessOrders(a[1..], b[1..], c);
    } else if a != [] {
      LessOrders(a[1..], b, c);
    }
  }

  function Insert(e: Entry, sorted: seq<Entry>): (r: seq<Entry>)
    ensures forall f :: f in r <==> f == e || f in sorted
    ensures |r| == |sorted| + 1
  {
    if sorted == [] then [e]
    else if Less(sorted[0].key, e.key) then [sorted[0]] + Insert(e, sorted[1..])
    else [e] + sorted
  }

  function SortByKey(fields: seq<Entry>): (r: seq<Entry>)
    ensures forall f :: f in r <==> f in fields
    ensures |r| == |fields|
  {
    if fields == [] then [] else Insert(fields[0], SortByKey(fields[1..]))
  }

  ghost predicate InOrder(fields: seq<Entry>) {
    forall i, j :: 0 <= i < j < |fields| ==> Less(fields[i].key, fields[j].key)
  }

  lemma {:induction false} InsertInOrder(e: Entry, sorted: seq<Entry>)
    requires InOrder(sorted) && forall f :: f in sorted ==> f.key != e.key
    ensures InOrder(Insert(e, sorted))
  {
    if sorted != [] {
      var r := Insert(e, sorted);
      LessOrders(sorted[0].key, e.key, e.key);
      if Less(sorted[0].key, e.key) {
        InsertInOrder(e, sorted[1..]);
        forall i, j | 0 <= i < j < |r| ensures Less(r[i].key, r[j].key) {
          if i == 0 { assert r[j] in Insert(e, sorted[1..]); assert r[j] != e ==> r[j] in sorted[1..]; }
        }
      } else {
        forall i, j | 0 <= i < j < |r| ensures Less(r[i].key, r[j].key) {
          if i == 0 { LessOrders(e.key, sorted[0].key, r[j].key); }
        }
      }
    }
  }

  lemma {:induction false} SortInOrder(fields: seq<Entry>)
    requires UniqueKeys(fields)
    ensures InOrder(SortByKey(fields))
  {
    if fields != [] {
      SortInOrder(fields[1..]);
      forall f | f in SortByKey(fields[1..]) ensures f.key != fields[0].key {
        assert f in fields[1..];
      }
      InsertInOrder(fields[0], SortByKey(fields[1..]));
    }
  }

  /** A set of entries has one order by key. */
  lemma {:induction false} OneOrder(a: seq<Entry>, b: seq<Entry>)
    requires InOrder(a) && InOrder(b) && |a| == |b| && forall f :: f in a <==> f in b
    ensures a == b
  {
    if a != [] {
      assert a[0] in b;
      var i :| 0 <= i < |b| && b[i] == a[0];
      assert b[0] in a;
      var j :| 0 <= j < |a| && a[j] == b[0];
      LessOrders(a[0].key, b[0].key, a[0].key);
      assert i == 0;
      LessOrders(a[0].key, a[0].key, a[0].key);
      forall f | f in a[1..] ensures f in b[1..] { OnlyHead(a, b, f); }
      forall f | f in b[1..] ensures f in a[1..] { OnlyHead(b, a, f); }
      OneOrder(a[1..], b[1..]);
    }
  }

  lemma OnlyHead(a: seq<Entry>, b: seq<Entry>, f: Entry)
    requires a != [] && b != [] && a[0] == b[0] && InOrder(a) && f in a[1..] && f in b
    ensures f in b[1..]
  {
    var k :| 0 <= k < |a[1..]| && a[1..][k] == f;
    assert a[k + 1] == f && Less(a[0].key, a[k + 1].key);
    LessOrders(f.key, f.key, f.key);
    var m :| 0 <= m < |b| && b[m] == f;
    assert m > 0 && b[1..][m - 1] == f;
  }

  // ---- the printer ------------------------------------------------------------------

  /** JSON.stringify of a value that is neither an array nor an object. */
  function Atom(v: Value): Text
    requires !v.Arr? && !v.Obj?
  {
    match v
    case Null => [0x6E, 0x75, 0x6C, 0x6C]
    case Bool(flag) => if flag then [0x74, 0x72, 0x75, 0x65] else [0x66, 0x61, 0x6C, 0x73, 0x65]
    case Num(number) => number
    case Str(text) => Quote(text)
  }

  /** `parts.join(",")` */
  function Join(parts: seq<Text>): Text {
    if parts == [] then [] else if |parts| == 1 then parts[0] else parts[0] + [COMMA] + Join(parts[1..])
  }

  function Canonical(v: Value): Text
    decreases v
  {
    match v
    case Arr(items) =>
      [LB] + Join(seq(|items|, i requires 0 <= i < |items| => Canonical(items[i]))) + [RB]
    case Obj(fields) =>
      var entries := SortByKey(fields);
      assert forall i :: 0 <= i < |entries| ==> entries[i] in fields;
      [LC] + Join(seq(|entries|, i requires 0 <= i < |entries| =>
        Quote(entries[i].key) + [COLON] + Canonical(entries[i].value))) + [RC]
    case _ => Atom(v)
  }

  // ---- the meaning ------------------------------------------------------------------

  /** No object anywhere in `v` has a key twice, as no JavaScript object does. */
  ghost predicate Proper(v: Value) {
    match v
    case Arr(items) => forall i :: 0 <= i < |items| ==> Proper(items[i])
    case Obj(fields) => UniqueKeys(fields) && forall i :: 0 <= i < |fields| ==> Proper(fields[i].value)
    case _ => true
  }

  /** Equal up to the order of object keys. */
  ghost predicate Same(a: Value, b: Value)
    decreases a
  {
    if a.Arr? && b.Arr? then
      |a.items| == |b.items| && forall i :: 0 <= i < |a.items| ==> Same(a.items[i], b.items[i])
    else if a.Obj? && b.Obj? then
      && |a.fields| == |b.fields|
      && forall i :: 0 <= i < |a.fields| ==>
           exists j :: 0 <= j < |b.fields|
             && a.fields[i].key == b.fields[j].key && Same(a.fields[i].value, b.fields[j].value)
    else !a.Arr? && !a.Obj? && a == b
  }

  // ---- values with their keys in order ----------------------------------------------

  function Norm(v: Value): Value
    decreases v
  {
    match v
    case Arr(items) => Arr(seq(|items|, i requires 0 <= i < |items| => Norm(items[i])))
    case Obj(fields) =>
      Obj(SortByKey(seq(|fields|, i requires 0 <= i < |fields| => Field(fields[i].key, Norm(fields[i].value)))))
    case _ => v
  }

  function NormEntries(fields: seq<Entry>): (r: seq<Entry>)
    ensures |r| == |fields|
  {
    seq(|fields|, i requires 0 <= i < |fields| => Field(fields[i].key, Norm(fields[i].value)))
  }

  lemma {:induction false} NormInsert(e: Entry, sorted: seq<Entry>)
    ensures NormEntries(Insert(e, sorted)) == Insert(Field(e.key, Norm(e.value)), NormEntries(sorted))
  {
    if sorted != [] {
      assert NormEntries(sorted)[1..] == NormEntries(sorted[1..]);
      if Less(sorted[0].key, e.key) {
        NormInsert(e, sorted[1..]);
        assert NormEntries([sorted[0]] + Insert(e, sorted[1..]))
            == [NormEntries(sorted)[0]] + NormEntries(Insert(e, sorted[1..]));
      }
    }
  }

  /** Sorting looks at keys only, so the entries may be normalized before or after it. */
  lemma {:induction false} NormSorted(fields: seq<Entry>)
    ensures NormEntries(SortByKey(fields)) == SortByKey(NormEntries(fields))
  {
    if fields != [] {
      NormSorted(fields[1..]);
      NormInsert(fields[0], SortByKey(fields[1..]));
      assert NormEntries(fields)[1..] == NormEntries(fields[1..]);
    }
  }

  ghost function Entries(fields: seq<Entry>): set<Entry> {
    set f | f in fields
  }

  lemma {:induction false} UniqueCount(fields: seq<Entry>)
    requires UniqueKeys(fields)
    ensures |Entries(fields)| == |fields|
  {
    if fields != [] {
      UniqueCount(fields[1..]);
      assert fields == [fields[0]] + fields[1..];
      assert Entries(fields) == {fields[0]} + Entries(fields[1..]);
    }
  }

  /** As many distinct keys and none missing: the same entries. */
  lemma SameEntries(a: seq<Entry>, b: seq<Entry>)
    requires UniqueKeys(a) && UniqueKeys(b) && |a| == |b| && forall f :: f in a ==> f in b
    ensures forall f :: f in b ==> f in a
  {
    UniqueCount(a);
    UniqueCount(b);
    assert Entries(a) <= Entries(b);
    assert |Entries(b) - Entries(a)| == |Entries(b)| - |Entries(a)|;
    forall f | f in b ensures f in a {
      assert f in Entries(b) && f !in Entries(b) - Entries(a);
    }
  }

  lemma NormObject(v: Value)
    requires v.Obj?
    ensures Norm(v) == Obj(SortByKey(NormEntries(v.fields)))
  {}

  /** Objects whose entries agree one by one, in any order, have one normal form. */
  lemma SameFieldsNorm(a: seq<Entry>, b: seq<Entry>)
    requires UniqueKeys(a) && UniqueKeys(b) && |a| == |b|
    requires forall e :: e in NormEntries(a) ==> e in NormEntries(b)
    ensures SortByKey(NormEntries(a)) == SortByKey(NormEntries(b))
  {
    var m, n := NormEntries(a), NormEntries(b);
    SameEntries(m, n);
    SortInOrder(m);
    SortInOrder(n);
    OneOrder(SortByKey(m), SortByKey(n));
  }

  lemma SortedFrom(a: seq<Entry>, b: seq<Entry>, i: nat)
    requires SortByKey(NormEntries(a)) == SortByKey(NormEntries(b)) && i < |a|
    ensures |a| == |b| && exists j :: 0 <= j < |b| && NormEntries(a)[i] == NormEntries(b)[j]
  {
    assert NormEntries(a)[i] in SortByKey(NormEntries(b));
    assert NormEntries(a)[i] in NormEntries(b);
  }

  /** The same value up to key order is the same value once keys are in order. */
  lemma {:induction false} SameNorm(a: Value, b: Value)
    requires Proper(a) && Proper(b)
    ensures Same(a, b) <==> Norm(a) == Norm(b)
    decreases a
  {
    if a.Arr? && b.Arr? {
      forall i | 0 <= i < |a.items| && i < |b.items|
        ensures Same(a.items[i], b.items[i]) <==> Norm(a.items[i]) == Norm(b.items[i])
      {
        SameNorm(a.items[i], b.items[i]);
      }
      if Norm(a) == Norm(b) {
        forall i | 0 <= i < |a.items| ensures Same(a.items[i], b.items[i]) {
          assert Norm(a).items[i] == Norm(b).items[i];
        }
      }
    } else if a.Obj? && b.Obj? {
      forall i, j | 0 <= i < |a.fields| && 0 <= j < |b.fields|
        ensures Same(a.fields[i].value, b.fields[j].value) <==> Norm(a.fields[i].value) == Norm(b.fields[j].value)
      {
        SameNorm(a.fields[i].value, b.fields[j].value);
      }
      SameNormObjects(a, b);
    }
  }

  ghost predicate FieldsSettled(a: Value, b: Value)
    requires a.Obj? && b.Obj?
  {
    forall i, j :: 0 <= i < |a.fields| && 0 <= j < |b.fields| ==>
      (Same(a.fields[i].value, b.fields[j].value) <==> Norm(a.fields[i].value) == Norm(b.fields[j].value))
  }

  lemma SameObjectsNorm(a: Value, b: Value)
    requires a.Obj? && b.Obj? && UniqueKeys(a.fields) && UniqueKeys(b.fields) && FieldsSettled(a, b)
    requires Same(a, b)
    ensures SortByKey(NormEntries(a.fields)) == SortByKey(NormEntries(b.fields))
  {
    forall e | e in NormEntries(a.fields) ensures e in NormEntries(b.fields) {
      var i :| 0 <= i < |a.fields| && NormEntries(a.fields)[i] == e;
      var j :| 0 <= j < |b.fields|
        && a.fields[i].key == b.fields[j].key && Same(a.fields[i].value, b.fields[j].value);
      assert NormEntries(a.fields)[i] == NormEntries(b.fields)[j];
    }
    assert |a.fields| == |b.fields|;
    SameFieldsNorm(a.fields, b.fields);
  }

  lemma NormObjectsSame(a: Value, b: Value)
    requires a.Obj? && b.Obj? && FieldsSettled(a, b)
    requires SortByKey(NormEntries(a.fields)) == SortByKey(NormEntries(b.fields))
    ensures Same(a, b)
  {
    assert |NormEntries(a.fields)| == |NormEntries(b.fields)|;
    forall i | 0 <= i < |a.fields|
      ensures exists j ::
        0 <= j < |b.fields| && a.fields[i].key == b.fields[j].key && Same(a.fields[i].value, b.fields[j].value)
    {
      SortedFrom(a.fields, b.fields, i);
      var j :| 0 <= j < |b.fields| && NormEntries(a.fields)[i] == NormEntries(b.fields)[j];
      assert Same(a.fields[i].value, b.fields[j].value);
    }
  }

  lemma SameNormObjects(a: Value, b: Value)
    requires a.Obj? && b.Obj? && UniqueKeys(a.fields) && UniqueKeys(b.fields) && FieldsSettled(a, b)
    ensures Same(a, b) <==> Norm(a) == Norm(b)
  {
    NormObject(a);
    NormObject(b);
    if Same(a, b) { SameObjectsNorm(a, b); }
    if Norm(a) == Norm(b) { NormObjectsSame(a, b); }
  }

  // ---- the text says which value it is ----------------------------------------------

  /** The printer without the sorting; arrays and objects print element by element up to their bracket. */
  function Print(v: Value): Text
    decreases v
  {
    match v
    case Arr(items) => [LB] + PrintItems(items)
    case Obj(fields) => [LC] + PrintFields(fields)
    case _ => Atom(v)
  }

  function PrintItems(items: seq<Value>): Text
    decreases items
  {
    if items == [] then [RB]
    else if |items| == 1 then Print(items[0]) + [RB]
    else Print(items[0]) + ([COMMA] + PrintItems(items[1..]))
  }

  function PrintEntry(e: Entry): Text
    decreases e
  {
    Quote(e.key) + [COLON] + Print(e.value)
  }

  function PrintFields(fields: seq<Entry>): Text
    decreases fields
  {
    if fields == [] then [RC]
    else if |fields| == 1 then PrintEntry(fields[0]) + [RC]
    else PrintEntry(fields[0]) + ([COMMA] + PrintFields(fields[1..]))
  }

  /** What can follow a printed value inside a text: its end, or a delimiter. */
  predicate Delimited(r: Text) {
    r == [] || r[0] == COMMA || r[0] == RB || r[0] == RC
  }

  /** What a printed value can begin with. */
  predicate Begins(u: Unit) {
    u == QUOTE || u == LB || u == LC || u == 0x6E || u == 0x74 || u == 0x66 || NumeralUnit(u)
  }

  lemma PrintBegins(v: Value)
    ensures Print(v) != [] && Begins(Print(v)[0])
    ensures v.Null? <==> Print(v)[0] == 0x6E
    ensures v.Bool? <==> Print(v)[0] == 0x74 || Print(v)[0] == 0x66
    ensures v.Num? <==> NumeralUnit(Print(v)[0])
    ensures v.Str? <==> Print(v)[0] == QUOTE
    ensures v.Arr? <==> Print(v)[0] == LB
    ensures v.Obj? <==> Print(v)[0] == LC
  {}

  lemma UnitAt(t: Text, r: Text, i: nat)
    ensures i < |t| ==> (t + r)[i] == t[i]
  {}

  lemma RestAt(t: Text, r: Text)
    ensures r != [] ==> (t + r)[|t|] == r[0]
  {}

  /** A number goes on for as long as its units do. */
  lemma NotShorter(a: Text, b: Text, r: Text, s: Text)
    requires forall i :: 0 <= i < |b| ==> NumeralUnit(b[i])
    requires a + r == b + s && Delimited(r)
    ensures |b| <= |a|
  {
    UnitAt(b, s, |a|);
    RestAt(a, r);
  }

  lemma NumeralPrefix(a: Text, b: Text, r: Text, s: Text)
    requires forall i :: 0 <= i < |a| ==> NumeralUnit(a[i])
    requires forall i :: 0 <= i < |b| ==> NumeralUnit(b[i])
    requires a + r == b + s && Delimited(r) && Delimited(s)
    ensures a == b && r == s
  {
    NotShorter(a, b, r, s);
    NotShorter(b, a, s, r);
    assert a == (a + r)[..|a|] && b == (b + s)[..|b|];
    assert r == (a + r)[|a|..] && s == (b + s)[|b|..];
  }

  lemma AtomPrefix(a: Value, b: Value, r: Text, s: Text)
    requires !a.Arr? && !a.Obj? && Print(a) + r == Print(b) + s && Delimited(r) && Delimited(s)
    ensures a == b && r == s
  {
    PrintBegins(a);
    PrintBegins(b);
    assert (Print(a) + r)[0] == Print(a)[0] && (Print(b) + s)[0] == Print(b)[0];
    match a
    case Null => SamePrefix(Print(a), r, s);
    case Bool(_) =>
      assert Print(a)[0] == Print(b)[0] ==> a == b;
      SamePrefix(Print(a), r, s);
    case Num(n) => NumeralPrefix(n, b.number, r, s);
    case Str(t) => QuotePrefix(t, b.text, r, s);
  }

  lemma SamePrefix(t: Text, r: Text, s: Text)
    requires t + r == t + s
    ensures r == s
  {
    assert r == (t + r)[|t|..] && s == (t + s)[|t|..];
  }

  /** No printed value is the beginning of another: delimiters are never read as part of a value. */
  lemma {:induction false} PrintPrefix(a: Value, b: Value, r: Text, s: Text)
    requires Print(a) + r == Print(b) + s && Delimited(r) && Delimited(s)
    ensures a == b && r == s
    decreases a
  {
    if !a.Arr? && !a.Obj? {
      AtomPrefix(a, b, r, s);
    } else {
      PrintBegins(a);
      PrintBegins(b);
      assert (Print(a) + r)[0] == Print(a)[0] && (Print(b) + s)[0] == Print(b)[0];
      if a.Arr? {
        assert (Print(a) + r)[1..] == PrintItems(a.items) + r;
        assert (Print(b) + s)[1..] == PrintItems(b.items) + s;
        ItemsPrefix(a.items, b.items, r, s);
      } else {
        assert (Print(a) + r)[1..] == PrintFields(a.fields) + r;
        assert (Print(b) + s)[1..] == PrintFields(b.fields) + s;
        FieldsPrefix(a.fields, b.fields, r, s);
      }
    }
  }

  function ItemsTail(items: seq<Value>): Text {
    if items == [] then [RB] else [COMMA] + PrintItems(items)
  }

  function FieldsTail(fields: seq<Entry>): Text {
    if fields == [] then [RC] else [COMMA] + PrintFields(fields)
  }

  lemma ItemsSplit(a: seq<Value>, r: Text)
    requires a != []
    ensures PrintItems(a) + r == Print(a[0]) + (ItemsTail(a[1..]) + r)
    ensures Delimited(ItemsTail(a[1..]) + r)
  {
    assert PrintItems(a) == Print(a[0]) + ItemsTail(a[1..]);
    Assoc(Print(a[0]), ItemsTail(a[1..]), r);
  }

  lemma ConsAgree(u: Unit, v: Unit, x: Text, y: Text, r: Text, s: Text)
    requires ([u] + x) + r == ([v] + y) + s
    ensures u == v && x + r == y + s
  {
    assert (([u] + x) + r)[0] == u && (([v] + y) + s)[0] == v;
    assert (([u] + x) + r)[1..] == x + r && (([v] + y) + s)[1..] == y + s;
  }

  lemma SameRest(r: Text, s: Text)
    ensures [] + r == r && [] + s == s
  {}

  /** After an element: the bracket on both sides, or a comma and the rest on both sides. */
  lemma ItemsTails(a: seq<Value>, b: seq<Value>, r: Text, s: Text)
    requires ItemsTail(a) + r == ItemsTail(b) + s
    ensures PrintItems(a) + r == PrintItems(b) + s
  {
    var x := if a == [] then [] else PrintItems(a);
    var y := if b == [] then [] else PrintItems(b);
    assert ItemsTail(a) == [ItemsTail(a)[0]] + x && ItemsTail(b) == [ItemsTail(b)[0]] + y;
    ConsAgree(ItemsTail(a)[0], ItemsTail(b)[0], x, y, r, s);
    SameRest(r, s);
  }

  lemma {:induction false} ItemsPrefix(a: seq<Value>, b: seq<Value>, r: Text, s: Text)
    requires PrintItems(a) + r == PrintItems(b) + s
    ensures a == b && r == s
    decreases a
  {
    ItemsBegin(a, r);
    ItemsBegin(b, s);
    if a == [] {
      SamePrefix([RB], r, s);
    } else {
      ItemsSplit(a, r);
      ItemsSplit(b, s);
      PrintPrefix(a[0], b[0], ItemsTail(a[1..]) + r, ItemsTail(b[1..]) + s);
      ItemsTails(a[1..], b[1..], r, s);
      ItemsPrefix(a[1..], b[1..], r, s);
      assert a == [a[0]] + a[1..] && b == [b[0]] + b[1..];
    }
  }

  lemma ItemsBegin(a: seq<Value>, r: Text)
    ensures a == [] <==> (PrintItems(a) + r)[0] == RB
  {
    if a != [] {
      PrintBegins(a[0]);
      assert (PrintItems(a) + r)[0] == Print(a[0])[0];
    }
  }

  lemma EntrySplits(e: Entry, r: Text)
    ensures PrintEntry(e) + r == Quote(e.key) + ([COLON] + (Print(e.value) + r))
  {}

  lemma {:induction false} EntryPrefix(e: Entry, f: Entry, r: Text, s: Text)
    requires PrintEntry(e) + r == PrintEntry(f) + s && Delimited(r) && Delimited(s)
    ensures e == f && r == s
    decreases e
  {
    EntrySplits(e, r);
    EntrySplits(f, s);
    QuotePrefix(e.key, f.key, [COLON] + (Print(e.value) + r), [COLON] + (Print(f.value) + s));
    SamePrefix([COLON], Print(e.value) + r, Print(f.value) + s);
    PrintPrefix(e.value, f.value, r, s);
  }

  lemma FieldsBegin(a: seq<Entry>, r: Text)
    ensures a == [] <==> (PrintFields(a) + r)[0] == RC
  {
    if a != [] { assert (PrintFields(a) + r)[0] == PrintEntry(a[0])[0] == QUOTE; }
  }

  lemma FieldsSplit(a: seq<Entry>, r: Text)
    requires a != []
    ensures PrintFields(a) + r == PrintEntry(a[0]) + (FieldsTail(a[1..]) + r)
    ensures Delimited(FieldsTail(a[1..]) + r)
  {
    assert PrintFields(a) == PrintEntry(a[0]) + FieldsTail(a[1..]);
    Assoc(PrintEntry(a[0]), FieldsTail(a[1..]), r);
  }

  lemma FieldsTails(a: seq<Entry>, b: seq<Entry>, r: Text, s: Text)
    requires FieldsTail(a) + r == FieldsTail(b) + s
    ensures PrintFields(a) + r == PrintFields(b) + s
  {
    var x := if a == [] then [] else PrintFields(a);
    var y := if b == [] then [] else PrintFields(b);
    assert FieldsTail(a) == [FieldsTail(a)[0]] + x && FieldsTail(b) == [FieldsTail(b)[0]] + y;
    ConsAgree(FieldsTail(a)[0], FieldsTail(b)[0], x, y, r, s);
    SameRest(r, s);
  }

  lemma {:induction false} FieldsPrefix(a: seq<Entry>, b: seq<Entry>, r: Text, s: Text)
    requires PrintFields(a) + r == PrintFields(b) + s
    ensures a == b && r == s
    decreases a
  {
    FieldsBegin(a, r);
    FieldsBegin(b, s);
    if a == [] {
      SamePrefix([RC], r, s);
    } else {
      FieldsSplit(a, r);
      FieldsSplit(b, s);
      EntryPrefix(a[0], b[0], FieldsTail(a[1..]) + r, FieldsTail(b[1..]) + s);
      FieldsTails(a[1..], b[1..], r, s);
      FieldsPrefix(a[1..], b[1..], r, s);
      assert a == [a[0]] + a[1..] && b == [b[0]] + b[1..];
    }
  }

  // ---- the source's printer ---------------------------------------------------------

  function Prints(items: seq<Value>): seq<Text> {
    seq(|items|, i requires 0 <= i < |items| => Print(items[i]))
  }

  function EntryPrints(fields: seq<Entry>): seq<Text> {
    seq(|fields|, i requires 0 <= i < |fields| => PrintEntry(fields[i]))
  }

  lemma {:induction false} ItemsJoin(items: seq<Value>)
    ensures PrintItems(items) == Join(Prints(items)) + [RB]
  {
    if |items| > 1 {
      ItemsJoin(items[1..]);
      assert Prints(items)[1..] == Prints(items[1..]);
    }
  }

  lemma {:induction false} FieldsJoin(fields: seq<Entry>)
    ensures PrintFields(fields) == Join(EntryPrints(fields)) + [RC]
  {
    if |fields| > 1 {
      FieldsJoin(fields[1..]);
      assert EntryPrints(fields)[1..] == EntryPrints(fields[1..]);
    }
  }

  /** Sorting at every level while printing prints the normal form. */
  lemma {:induction false} CanonicalPrints(v: Value)
    ensures Canonical(v) == Print(Norm(v))
    decreases v
  {
    match v
    case Arr(items) =>
      var texts := seq(|items|, i requires 0 <= i < |items| => Canonical(items[i]));
      forall i | 0 <= i < |items| ensures texts[i] == Prints(Norm(v).items)[i] { CanonicalPrints(items[i]); }
      assert texts == Prints(Norm(v).items);
      ItemsJoin(Norm(v).items);
    case Obj(fields) =>
      var entries := SortByKey(fields);
      NormObject(v);
      NormSorted(fields);
      assert Norm(v).fields == NormEntries(entries);
      var texts := seq(|entries|, i requires 0 <= i < |entries| =>
        Quote(entries[i].key) + [COLON] + Canonical(entries[i].value));
      forall i | 0 <= i < |entries| ensures texts[i] == EntryPrints(Norm(v).fields)[i] {
        assert entries[i] in fields;
        CanonicalPrints(entries[i].value);
      }
      assert texts == EntryPrints(Norm(v).fields);
      FieldsJoin(Norm(v).fields);
    case _ =>
  }

  /** The printer is unambiguous: the texts are equal exactly when the values are, up to key order. */
  lemma {:induction false} CanonicalSame(a: Value, b: Value)
    requires Proper(a) && Proper(b)
    ensures Canonical(a) == Canonical(b) <==> Same(a, b)
  {
    CanonicalPrints(a);
    CanonicalPrints(b);
    SameNorm(a, b);
    if Canonical(a) == Canonical(b) {
      assert Print(Norm(a)) + [] == Print(Norm(b)) + [];
      PrintPrefix(Norm(a), Norm(b), [], []);
    }
  }
}
