/**
  JSON.stringify on one string: UTF-16 code units in, a quoted literal out, lone surrogates escaped.
  Section 7 of RFC 8259 reads every such literal back, and knows where it ends.
*/
module QuotedText {
  import opened CodeUnits
  import opened Option

  const QUOTE: Unit := 0x22
  const BACKSLASH: Unit := 0x5C
  const LETTER_U: Unit := 0x75

  predicate Lead(u: Unit) { 0xD800 <= u < 0xDC00 }
  predicate Trail(u: Unit) { 0xDC00 <= u < 0xE000 }

  function Hex(n: nat): (u: Unit)
    requires n < 16
  {
    if n < 10 then 0x30 + n else 0x61 + n - 10
  }

  function Unhex(u: Unit): Option<nat> {
    if 0x30 <= u < 0x3A then Some(u - 0x30)
    else if 0x61 <= u < 0x67 then Some(u - 0x61 + 10)
    else if 0x41 <= u < 0x47 then Some(u - 0x41 + 10)
    else None
  }

  /** The letter after the backslash, for the units that have a short escape. */
  function Short(u: Unit): Option<Unit> {
    if u == 0x08 then Some(0x62) else if u == 0x09 then Some(0x74) else if u == 0x0A then Some(0x6E)
    else if u == 0x0C then Some(0x66) else if u == 0x0D then Some(0x72)
    else if u == QUOTE || u == BACKSLASH then Some(u)
    else None
  }

  function Unshort(u: Unit): Option<Unit> {
    if u == 0x62 then Some(0x08) else if u == 0x74 then Some(0x09) else if u == 0x6E then Some(0x0A)
    else if u == 0x66 then Some(0x0C) else if u == 0x72 then Some(0x0D)
    else if u == QUOTE || u == BACKSLASH || u == 0x2F then Some(u)
    else None
  }

  function Long(u: Unit): Text {
    [BACKSLASH, LETTER_U, Hex(u / 0x1000), Hex(u / 0x100 % 16), Hex(u / 16 % 16), Hex(u % 16)]
  }

  predicate Paired(s: Text) {
    |s| > 1 && Lead(s[0]) && Trail(s[1])
  }

  /** How the first unit of `s`, not the lead of a pair, is written. */
  function EscapedUnit(u: Unit): Text {
    if Short(u).Some? then [BACKSLASH, Short(u).value]
    else if u < 0x20 || Lead(u) || Trail(u) then Long(u)
    else [u]
  }

  function Escaped(s: Text): Text {
    if s == [] then []
    else if Paired(s) then [s[0], s[1]] + Escaped(s[2..])
    else EscapedUnit(s[0]) + Escaped(s[1..])
  }

  function Quote(s: Text): Text {
    [QUOTE] + Escaped(s) + [QUOTE]
  }

  // ---- reading it back --------------------------------------------------------------

  datatype Reading = Reading(text: Text, rest: Text)

  function Unlong(t: Text): Option<Unit>
    requires |t| >= 6
  {
    var a, b, c, d := Unhex(t[2]), Unhex(t[3]), Unhex(t[4]), Unhex(t[5]);
    if a.None? || b.None? || c.None? || d.None? then None
    else Some(((a.value * 16 + b.value) * 16 + c.value) * 16 + d.value)
  }

  function Before(u: Unit, r: Option<Reading>): Option<Reading> {
    if r.None? then None else Some(Reading([u] + r.value.text, r.value.rest))
  }

  /**
    The body of a string literal up to its closing quotation mark, unescaped, and what follows it;
    nothing if a control character or half a surrogate pair stands in it unescaped.
  */
  function Read(t: Text): Option<Reading>
    decreases |t|
  {
    if t == [] then None
    else if t[0] == QUOTE then Some(Reading([], t[1..]))
    else if Paired(t) then Before(t[0], Before(t[1], Read(t[2..])))
    else if t[0] < 0x20 || Lead(t[0]) || Trail(t[0]) then None
    else if t[0] != BACKSLASH then Before(t[0], Read(t[1..]))
    else if |t| == 1 then None
    else if t[1] != LETTER_U then
      if Unshort(t[1]).None? then None else Before(Unshort(t[1]).value, Read(t[2..]))
    else if |t| < 6 || Unlong(t).None? then None
    else Before(Unlong(t).value, Read(t[6..]))
  }

  lemma UnhexHex(n: nat)
    requires n < 16
    ensures Unhex(Hex(n)) == Some(n)
  {}

  lemma Digits(u: Unit)
    ensures u / 0x1000 < 16
    ensures u == ((u / 0x1000 * 16 + u / 0x100 % 16) * 16 + u / 16 % 16) * 16 + u % 16
  {}

  lemma UnlongLong(u: Unit, rest: Text)
    ensures Unlong(Long(u) + rest) == Some(u)
  {
    Digits(u);
    UnhexHex(u / 0x1000);
    UnhexHex(u / 0x100 % 16);
    UnhexHex(u / 16 % 16);
    UnhexHex(u % 16);
  }

  lemma Assoc(a: Text, b: Text, c: Text)
    ensures (a + b) + c == a + (b + c)
  {}

  lemma ConsCons(u: Unit, v: Unit, a: Text, b: Text)
    ensures ([u, v] + a) + b == [u] + ([v] + (a + b))
  {}

  lemma ReadLong(u: Unit, rest: Text)
    ensures Read(Long(u) + rest) == Before(u, Read(rest))
  {
    UnlongLong(u, rest);
    assert (Long(u) + rest)[6..] == rest;
  }

  lemma ReadShort(u: Unit, rest: Text)
    requires Short(u).Some?
    ensures Read([BACKSLASH, Short(u).value] + rest) == Before(u, Read(rest))
  {
    assert ([BACKSLASH, Short(u).value] + rest)[2..] == rest;
  }

  lemma ReadPlain(u: Unit, rest: Text)
    requires u != QUOTE && u != BACKSLASH && u >= 0x20 && !Lead(u) && !Trail(u)
    ensures Read([u] + rest) == Before(u, Read(rest))
  {
    assert ([u] + rest)[1..] == rest;
  }

  lemma ReadPair(u: Unit, v: Unit, rest: Text)
    requires Lead(u) && Trail(v)
    ensures Read([u] + ([v] + rest)) == Before(u, Before(v, Read(rest)))
  {
    assert ([u] + ([v] + rest))[2..] == rest;
  }

  /** One written unit is read back, whatever follows. */
  lemma ReadUnit(u: Unit, rest: Text)
    ensures Read(EscapedUnit(u) + rest) == Before(u, Read(rest))
  {
    if Short(u).Some? {
      ReadShort(u, rest);
    } else if u < 0x20 || Lead(u) || Trail(u) {
      ReadLong(u, rest);
    } else {
      ReadPlain(u, rest);
    }
  }

  /** Every string, lone surrogates and control characters included, is read back from its literal. */
  lemma {:induction false} ReadEscaped(s: Text, rest: Text)
    ensures Read(Escaped(s) + ([QUOTE] + rest)) == Some(Reading(s, rest))
    decreases |s|
  {
    if s == [] {
      assert Escaped(s) + ([QUOTE] + rest) == [QUOTE] + rest;
    } else if Paired(s) {
      ReadEscaped(s[2..], rest);
      var next := Escaped(s[2..]) + ([QUOTE] + rest);
      ConsCons(s[0], s[1], Escaped(s[2..]), [QUOTE] + rest);
      ReadPair(s[0], s[1], next);
      assert s == [s[0]] + ([s[1]] + s[2..]);
    } else {
      ReadEscaped(s[1..], rest);
      var next := Escaped(s[1..]) + ([QUOTE] + rest);
      Assoc(EscapedUnit(s[0]), Escaped(s[1..]), [QUOTE] + rest);
      ReadUnit(s[0], next);
      assert s == [s[0]] + s[1..];
    }
  }

  lemma QuoteSplits(a: Text, r: Text)
    ensures (Quote(a) + r)[1..] == Escaped(a) + ([QUOTE] + r)
  {}

  /** No literal is the beginning of another: equal texts hold equal strings and equal remainders. */
  lemma QuotePrefix(a: Text, b: Text, r: Text, s: Text)
    requires Quote(a) + r == Quote(b) + s
    ensures a == b && r == s
  {
    QuoteSplits(a, r);
    QuoteSplits(b, s);
    ReadEscaped(a, r);
    ReadEscaped(b, s);
  }
}
