/** isOnlyCsi: exactly the texts made of control sequences of section 5.4 of ECMA-48, and nothing else. */
module ControlSequences {
  import opened CodeUnits
  import opened Option

  const ESC: Unit := 0x1B
  const BRACKET: Unit := 0x5B

  /** Every unit of `t` from `a` up to `b` is one of `lo` to `hi`. */
  predicate Within(t: Text, a: nat, b: nat, lo: nat, hi: nat)
    requires b <= |t|
  {
    forall i :: a <= i < b ==> lo <= t[i] <= hi
  }

  // ---- the grammar ------------------------------------------------------------------

  /** CSI P...P I...I F, the introducer in its 7-bit form. */
  ghost predicate ControlSequence(t: Text) {
    exists p, n :: 2 <= p <= n && Formed(t, p, n)
  }

  /** Parameter bytes up to `p`, intermediate bytes up to `n`, and the final byte. */
  predicate Formed(t: Text, p: nat, n: nat) {
    && 2 <= p <= n && |t| == n + 1
    && t[0] == ESC && t[1] == BRACKET
    && Within(t, 2, p, 0x30, 0x3F) && Within(t, p, n, 0x20, 0x2F) && 0x40 <= t[n] <= 0x7E
  }

  ghost function Concat(parts: seq<Text>): Text {
    if parts == [] then [] else parts[0] + Concat(parts[1..])
  }

  ghost predicate AllSequences(parts: seq<Text>) {
    forall i :: 0 <= i < |parts| ==> ControlSequence(parts[i])
  }

  // ---- the scan ---------------------------------------------------------------------

  /** How far units from `lo` to `hi` go on, from `at`. */
  function Span(t: Text, at: nat, lo: nat, hi: nat): (r: nat)
    requires at <= |t|
    ensures at <= r <= |t| && Within(t, at, r, lo, hi) && (r < |t| ==> !(lo <= t[r] <= hi))
    decreases |t| - at
  {
    if at < |t| && lo <= t[at] <= hi then Span(t, at + 1, lo, hi) else at
  }

  /** Where the control sequence at `at` ends. */
  function End(t: Text, at: nat): (r: Option<nat>)
    requires at <= |t|
    ensures r.Some? ==> at < r.value <= |t|
  {
    if at + 1 >= |t| || t[at] != ESC || t[at + 1] != BRACKET then None
    else
      var n := Span(t, Span(t, at + 2, 0x30, 0x3F), 0x20, 0x2F);
      if n < |t| && 0x40 <= t[n] <= 0x7E then Some(n + 1) else None
  }

  predicate OnlyFrom(t: Text, at: nat)
    requires at <= |t|
    decreases |t| - at
  {
    match End(t, at)
    case None => at == |t|
    case Some(next) => OnlyFrom(t, next)
  }

  predicate OnlyCsi(t: Text) {
    OnlyFrom(t, 0)
  }

  method SkipWhile(t: Text, at: nat, lo: nat, hi: nat) returns (i: nat)
    requires at <= |t|
    ensures i == Span(t, at, lo, hi)
  {
    i := at;
    while i < |t| && lo <= t[i] <= hi
      invariant at <= i <= |t|
      invariant Span(t, at, lo, hi) == Span(t, i, lo, hi)
    {
      i := i + 1;
    }
  }

  /** One control sequence, if there is one at `at`. */
  method SkipSequence(t: Text, at: nat) returns (end: Option<nat>)
    requires at < |t|
    ensures end == End(t, at)
  {
    if t[at] != ESC || at + 1 >= |t| || t[at + 1] != BRACKET { return None; }
    var i := SkipWhile(t, at + 2, 0x30, 0x3F);
    i := SkipWhile(t, i, 0x20, 0x2F);
    if i >= |t| || !(0x40 <= t[i] <= 0x7E) { return None; }
    return Some(i + 1);
  }

  method IsOnlyCsi(t: Text) returns (only: bool)
    ensures only == OnlyCsi(t)
  {
    var i := 0;
    while i < |t|
      invariant 0 <= i <= |t|
      invariant OnlyCsi(t) == OnlyFrom(t, i)
    {
      var end := SkipSequence(t, i);
      if end.None? { return false; }
      i := end.value;
    }
    return true;
  }

  // ---- scan and grammar -------------------------------------------------------------

  /** The span is the only way to read units of a range up to one outside it. */
  lemma {:induction false} SpanIs(t: Text, at: nat, r: nat, lo: nat, hi: nat)
    requires at <= r < |t| && Within(t, at, r, lo, hi) && !(lo <= t[r] <= hi)
    ensures Span(t, at, lo, hi) == r
    decreases r - at
  {
    if at < r { SpanIs(t, at + 1, r, lo, hi); }
  }

  /** A control sequence at `at` is what the greedy scan finds there. */
  lemma ScanFinds(t: Text, at: nat, c: Text)
    requires OccursAt(t, c, at) && ControlSequence(c)
    ensures End(t, at) == Some(at + |c|)
  {
    var p, n :| 2 <= p <= n && Formed(c, p, n);
    forall i | at <= i < at + |c| ensures t[i] == c[i - at] {
      assert t[at..at + |c|][i - at] == t[i];
    }
    SpanIs(t, at + 2, at + p, 0x30, 0x3F);
    SpanIs(t, at + p, at + n, 0x20, 0x2F);
  }

  /** What the greedy scan finds is a control sequence. */
  lemma FoundIsSequence(t: Text, at: nat)
    requires at <= |t| && End(t, at).Some?
    ensures ControlSequence(t[at..End(t, at).value])
  {
    var p := Span(t, at + 2, 0x30, 0x3F);
    var n := Span(t, p, 0x20, 0x2F);
    assert Formed(t[at..n + 1], p - at, n - at);
  }

  lemma {:induction false} ScanParses(t: Text, at: nat) returns (parts: seq<Text>)
    requires at <= |t| && OnlyFrom(t, at)
    ensures AllSequences(parts) && Concat(parts) == t[at..]
    decreases |t| - at
  {
    if at == |t| {
      parts := [];
    } else {
      var next := End(t, at).value;
      FoundIsSequence(t, at);
      var rest := ScanParses(t, next);
      parts := [t[at..next]] + rest;
      assert parts[1..] == rest && t[at..] == t[at..next] + t[next..];
    }
  }

  lemma SkipsOne(t: Text, at: nat, end: nat, c: Text, r: Text)
    requires at <= end <= |t| && ControlSequence(c) && t[at..end] == c + r
    ensures at + |c| <= end && t[at + |c|..end] == r && OnlyFrom(t, at) == OnlyFrom(t, at + |c|)
  {
    assert |c + r| == end - at;
    assert t[at..at + |c|] == t[at..end][..|c|] == c;
    assert t[at + |c|..end] == t[at..end][|c|..] == r;
    ScanFinds(t, at, c);
  }

  /** The scan goes through control sequences one by one. */
  lemma {:induction false} Skips(t: Text, at: nat, end: nat, parts: seq<Text>)
    requires at <= end <= |t| && AllSequences(parts) && t[at..end] == Concat(parts)
    ensures OnlyFrom(t, at) == OnlyFrom(t, end)
    decreases |parts|
  {
    if parts != [] {
      var next := at + |parts[0]|;
      SkipsOne(t, at, end, parts[0], Concat(parts[1..]));
      assert OnlyFrom(t, at) == OnlyFrom(t, next);
      Skips(t, next, end, parts[1..]);
    } else {
      assert |t[at..end]| == 0;
    }
  }

  /** The scan accepts exactly the concatenations of control sequences. */
  lemma {:induction false} OnlyCsiIsTheGrammar(t: Text)
    ensures OnlyCsi(t) <==> exists parts :: AllSequences(parts) && Concat(parts) == t
  {
    assert t[0..] == t && t[0..|t|] == t;
    if OnlyCsi(t) {
      var parts := ScanParses(t, 0);
    }
    if parts :| AllSequences(parts) && Concat(parts) == t {
      Skips(t, 0, |t|, parts);
    }
  }

  /** Closed under concatenation, and what is left after such a text is judged alone. */
  lemma {:induction false} OnlyCsiConcat(a: Text, b: Text)
    requires OnlyCsi(a)
    ensures OnlyCsi(a + b) <==> OnlyCsi(b)
  {
    var t := a + b;
    assert a[0..] == a == t[0..|a|] && b[0..] == b == t[|a|..] && t[|a|..|t|] == b && b[0..|b|] == b;
    var parts := ScanParses(a, 0);
    Skips(t, 0, |a|, parts);
    if OnlyFrom(t, |a|) {
      var more := ScanParses(t, |a|);
      Skips(b, 0, |b|, more);
    }
    if OnlyCsi(b) {
      var more := ScanParses(b, 0);
      Skips(t, |a|, |t|, more);
    }
  }
}
