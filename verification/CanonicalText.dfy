/**
  The canonical text as JSON: by the grammar of RFC 8259, without white space, it denotes the value it was
  printed from, with the keys of every object in ascending order.
*/
module CanonicalText {
  import opened Json
  import opened CodeUnits
  import opened Option
  import opened QuotedText
  import opened CanonicalJson

  /** The parts with commas between them. */
  function Listed(parts: seq<Text>): Text
    decreases |parts|
  {
    if parts == [] then []
    else if |parts| == 1 then parts[0]
    else Listed(parts[..|parts| - 1]) + Ascii(",") + parts[|parts| - 1]
  }

  /** A literal of section 7 of RFC 8259 that is read as `s`. */
  predicate Literal(t: Text, s: Text) {
    t != [] && t[0] == QUOTE && Read(t[1..]) == Some(Reading(s, []))
  }

  /** A text of the grammar of RFC 8259, and the value it stands for, objects with their members in order. */
  ghost predicate Denotes(t: Text, v: Value)
    decreases v
  {
    match v
    case Null => t == Ascii("null")
    case Bool(flag) => t == if flag then Ascii("true") else Ascii("false")
    case Num(n) => t == n
    case Str(s) => Literal(t, s)
    case Arr(items) =>
      exists parts: seq<Text> ::
        && |parts| == |items| && t == Ascii("[") + Listed(parts) + Ascii("]")
        && forall i :: 0 <= i < |items| ==> Denotes(parts[i], items[i])
    case Obj(fields) =>
      exists keys: seq<Text>, parts: seq<Text> ::
        && |keys| == |parts| == |fields| && t == Ascii("{") + Listed(Members(keys, parts)) + Ascii("}")
        && forall i :: 0 <= i < |fields| ==> Literal(keys[i], fields[i].key) && Denotes(parts[i], fields[i].value)
  }

  function Members(keys: seq<Text>, parts: seq<Text>): seq<Text>
    requires |keys| == |parts|
  {
    seq(|keys|, i requires 0 <= i < |keys| => keys[i] + Ascii(":") + parts[i])
  }

  /** Every object in it has its keys ascending by code units, each once. */
  ghost predicate Sorted(v: Value) {
    match v
    case Arr(items) => forall i :: 0 <= i < |items| ==> Sorted(items[i])
    case Obj(fields) => InOrder(fields) && forall i :: 0 <= i < |fields| ==> Sorted(fields[i].value)
    case _ => true
  }

  lemma Marks()
    ensures Ascii(",") == [COMMA] && Ascii(":") == [COLON]
    ensures Ascii("[") == [LB] && Ascii("]") == [RB] && Ascii("{") == [LC] && Ascii("}") == [RC]
  {}

  lemma {:induction false} ListedJoin(parts: seq<Text>)
    ensures Join(parts) == Listed(parts)
    decreases |parts|
  {
    Marks();
    if |parts| > 1 {
      ListedFirst(parts);
      ListedJoin(parts[1..]);
    }
  }

  /** The first part and a comma before the rest, as well as the last one and a comma after the others. */
  lemma {:induction false} ListedFirst(parts: seq<Text>)
    requires |parts| > 1
    ensures Listed(parts) == parts[0] + [COMMA] + Listed(parts[1..])
    decreases |parts|
  {
    Marks();
    var n := |parts| - 1;
    if n == 1 {
      assert parts[..n] == [parts[0]] && parts[1..] == [parts[1]];
    } else {
      ListedFirst(parts[..n]);
      assert parts[..n][1..] == parts[1..][..n - 1] && parts[1..][n - 1] == parts[n];
      var a, b, c := parts[0] + [COMMA], Listed(parts[1..][..n - 1]), [COMMA] + parts[n];
      assert (a + b) + c == a + (b + c);
    }
  }

  lemma QuoteIsLiteral(s: Text)
    ensures Literal(Quote(s), s)
  {
    QuoteSplits(s, []);
    ReadEscaped(s, []);
    assert Quote(s) + [] == Quote(s);
    assert [QUOTE] + [] == [QUOTE];
  }

  lemma Enclosed(l: Text, x: Text, r: Text)
    ensures l + (x + r) == l + x + r
  {}

  lemma PartsDenote(t: Text, parts: seq<Text>, items: seq<Value>)
    requires |parts| == |items| && t == Ascii("[") + Listed(parts) + Ascii("]")
    requires forall i :: 0 <= i < |items| ==> Denotes(parts[i], items[i])
    ensures Denotes(t, Arr(items))
  {}

  lemma ItemsText(items: seq<Value>)
    ensures [LB] + PrintItems(items) == Ascii("[") + Listed(Prints(items)) + Ascii("]")
  {
    Marks();
    ItemsJoin(items);
    ListedJoin(Prints(items));
    Enclosed([LB], Listed(Prints(items)), [RB]);
  }

  lemma ItemsDenote(items: seq<Value>)
    requires forall i :: 0 <= i < |items| ==> Denotes(Print(items[i]), items[i])
    ensures Denotes([LB] + PrintItems(items), Arr(items))
  {
    ItemsText(items);
    PartsDenote([LB] + PrintItems(items), Prints(items), items);
  }

  lemma MembersDenote(t: Text, keys: seq<Text>, parts: seq<Text>, fields: seq<Entry>)
    requires |keys| == |parts| == |fields| && t == Ascii("{") + Listed(Members(keys, parts)) + Ascii("}")
    requires forall i :: 0 <= i < |fields| ==> Literal(keys[i], fields[i].key) && Denotes(parts[i], fields[i].value)
    ensures Denotes(t, Obj(fields))
  {}

  function Keys(fields: seq<Entry>): seq<Text> {
    seq(|fields|, i requires 0 <= i < |fields| => Quote(fields[i].key))
  }

  function Values(fields: seq<Entry>): seq<Text> {
    seq(|fields|, i requires 0 <= i < |fields| => Print(fields[i].value))
  }

  lemma FieldsText(fields: seq<Entry>)
    ensures [LC] + PrintFields(fields) == Ascii("{") + Listed(Members(Keys(fields), Values(fields))) + Ascii("}")
  {
    Marks();
    FieldsJoin(fields);
    assert Members(Keys(fields), Values(fields)) == EntryPrints(fields);
    ListedJoin(EntryPrints(fields));
    Enclosed([LC], Listed(EntryPrints(fields)), [RC]);
  }

  lemma FieldsDenote(fields: seq<Entry>)
    requires forall i :: 0 <= i < |fields| ==> Denotes(Print(fields[i].value), fields[i].value)
    ensures Denotes([LC] + PrintFields(fields), Obj(fields))
  {
    forall i | 0 <= i < |fields| ensures Literal(Keys(fields)[i], fields[i].key) { QuoteIsLiteral(fields[i].key); }
    FieldsText(fields);
    MembersDenote([LC] + PrintFields(fields), Keys(fields), Values(fields), fields);
  }

  /** The text of a value denotes it. */
  lemma {:induction false} PrintDenotes(v: Value)
    ensures Denotes(Print(v), v)
    decreases v
  {
    match v
    case Arr(items) =>
      forall i | 0 <= i < |items| ensures Denotes(Print(items[i]), items[i]) { PrintDenotes(items[i]); }
      ItemsDenote(items);
    case Obj(fields) =>
      forall i | 0 <= i < |fields| ensures Denotes(Print(fields[i].value), fields[i].value) {
        PrintDenotes(fields[i].value);
      }
      FieldsDenote(fields);
    case Str(s) => QuoteIsLiteral(s);
    case _ =>
  }

  lemma {:induction false} NormIsSorted(v: Value)
    requires Proper(v)
    ensures Sorted(Norm(v))
    decreases v
  {
    match v
    case Arr(items) => forall i | 0 <= i < |items| ensures Sorted(Norm(v).items[i]) { NormIsSorted(items[i]); }
    case Obj(fields) =>
      NormObject(v);
      SortInOrder(NormEntries(fields));
      forall e | e in Norm(v).fields ensures Sorted(e.value) {
        assert e in NormEntries(fields);
        var i :| 0 <= i < |fields| && NormEntries(fields)[i] == e;
        NormIsSorted(fields[i].value);
      }
    case _ =>
  }

  lemma {:induction false} SortedIsProper(n: Value)
    requires Sorted(n)
    ensures Proper(n)
    decreases n
  {
    match n
    case Arr(items) => forall i | 0 <= i < |items| ensures Proper(items[i]) { SortedIsProper(items[i]); }
    case Obj(fields) =>
      forall i, j | 0 <= i < j < |fields| ensures fields[i].key != fields[j].key {
        LessOrders(fields[i].key, fields[j].key, fields[j].key);
      }
      forall i | 0 <= i < |fields| ensures Proper(fields[i].value) { SortedIsProper(fields[i].value); }
    case _ =>
  }

  /**
    The canonical text of a value is JSON, and denotes a value equal to it up to the order of keys, with the
    keys of every object ascending: strings are read back as they were, and nothing is added or left out.
  */
  lemma {:induction false} CanonicalIsJson(v: Value) returns (n: Value)
    requires Proper(v)
    ensures Denotes(Canonical(v), n) && Sorted(n) && Same(v, n)
  {
    n := Norm(v);
    CanonicalPrints(v);
    PrintDenotes(n);
    NormIsSorted(v);
    NormTwice(n);
    SortedIsProper(n);
    SameNorm(v, n);
  }

  lemma {:induction false} NormTwice(n: Value)
    requires Sorted(n)
    ensures Norm(n) == n
    decreases n
  {
    match n
    case Arr(items) =>
      forall i | 0 <= i < |items| ensures Norm(n).items[i] == items[i] { NormTwice(items[i]); }
    case Obj(fields) =>
      NormObject(n);
      forall i | 0 <= i < |fields| ensures NormEntries(fields)[i] == fields[i] { NormTwice(fields[i].value); }
      assert NormEntries(fields) == fields;
      SortsSorted(fields);
    case _ =>
  }

  lemma SortsSorted(fields: seq<Entry>)
    requires InOrder(fields)
    ensures SortByKey(fields) == fields
  {
    forall i, j | 0 <= i < j < |fields| ensures fields[i].key != fields[j].key {
      LessOrders(fields[i].key, fields[j].key, fields[j].key);
    }
    SortInOrder(fields);
    OneOrder(SortByKey(fields), fields);
  }
}
