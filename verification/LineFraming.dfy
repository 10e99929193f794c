/** The newline framing of the control socket: however the stream is cut into chunks, the same lines come out. */
module LineFraming {
  import opened CodeUnits
  import opened Option

  // ---- trim -------------------------------------------------------------------------

  /** What String.prototype.trim takes for white space: WhiteSpace and LineTerminator of ECMA-262. */
  predicate Blank(u: Unit) {
    || 0x09 <= u <= 0x0D || u == 0x20 || u == 0xA0 || u == 0x1680 || 0x2000 <= u <= 0x200A
    || u == 0x2028 || u == 0x2029 || u == 0x202F || u == 0x205F || u == 0x3000 || u == 0xFEFF
  }

  function TrimEnd(t: Text): Text {
    if t != [] && Blank(t[|t| - 1]) then TrimEnd(t[..|t| - 1]) else t
  }

  function Trim(t: Text): Text {
    if t != [] && Blank(t[0]) then Trim(t[1..]) else TrimEnd(t)
  }

  ghost predicate AllBlank(t: Text) {
    forall i :: 0 <= i < |t| ==> Blank(t[i])
  }

  ghost predicate Bare(t: Text) {
    t == [] || (!Blank(t[0]) && !Blank(t[|t| - 1]))
  }

  lemma {:induction false} TrimEndIs(t: Text)
    ensures TrimEnd(t) <= t && AllBlank(t[|TrimEnd(t)|..])
    ensures TrimEnd(t) != [] ==> !Blank(TrimEnd(t)[|TrimEnd(t)| - 1])
  {
    if t != [] && Blank(t[|t| - 1]) {
      TrimEndIs(t[..|t| - 1]);
      assert t[|TrimEnd(t)|..] == t[..|t| - 1][|TrimEnd(t)|..] + [t[|t| - 1]];
    }
  }

  lemma TrimEndSplits(t: Text)
    ensures Bare(TrimEnd(t)) || (t != [] && Blank(t[0]))
    ensures exists b :: AllBlank(b) && t == TrimEnd(t) + b
  {
    TrimEndIs(t);
    var b := t[|TrimEnd(t)|..];
    assert t == TrimEnd(t) + b;
  }

  /** What is left has no white space at its ends, and only white space was taken off. */
  lemma {:induction false} TrimIs(t: Text)
    ensures Bare(Trim(t))
    ensures exists a, b :: AllBlank(a) && AllBlank(b) && t == a + Trim(t) + b
  {
    if t != [] && Blank(t[0]) {
      TrimIs(t[1..]);
      var a, b :| AllBlank(a) && AllBlank(b) && t[1..] == a + Trim(t) + b;
      Fronted(t[0], t[1..], a, Trim(t), b);
      assert t == [t[0]] + t[1..];
    } else {
      TrimEndSplits(t);
      var b :| AllBlank(b) && t == TrimEnd(t) + b;
      assert [] + TrimEnd(t) == TrimEnd(t);
      assert AllBlank([]);
    }
  }

  lemma Fronted(u: Unit, rest: Text, a: Text, m: Text, b: Text)
    requires rest == a + m + b && Blank(u) && AllBlank(a) && AllBlank(b)
    ensures exists c, d :: AllBlank(c) && AllBlank(d) && [u] + rest == c + m + d
  {
    assert [u] + rest == ([u] + a) + m + b;
    assert AllBlank([u] + a);
  }

  // ---- lines ------------------------------------------------------------------------

  /** The complete lines of a stream, without their newlines, and what follows the last newline. */
  datatype Framed = Framed(lines: seq<Text>, rest: Text)

  predicate NoNewline(t: Text) {
    forall i :: 0 <= i < |t| ==> t[i] != LF
  }

  ghost function Joined(lines: seq<Text>, rest: Text): Text {
    if lines == [] then rest else lines[0] + [LF] + Joined(lines[1..], rest)
  }

  /** `f` is the stream `t`, cut at its newlines. */
  ghost predicate Frames(t: Text, f: Framed) {
    t == Joined(f.lines, f.rest) && NoNewline(f.rest) && forall i :: 0 <= i < |f.lines| ==> NoNewline(f.lines[i])
  }

  function IndexOfNewline(t: Text): (r: Option<nat>)
    ensures r.Some? ==> r.value < |t| && t[r.value] == LF && NoNewline(t[..r.value])
    ensures r.None? ==> NoNewline(t)
  {
    if t == [] then None
    else if t[0] == LF then Some(0)
    else
      var next := IndexOfNewline(t[1..]);
      if next.None? then None else
        assert t[..next.value + 1] == [t[0]] + t[1..][..next.value];
        Some(next.value + 1)
  }

  lemma {:induction false} FirstNewline(a: Text, r: Text)
    requires NoNewline(a)
    ensures IndexOfNewline(a + [LF] + r) == Some(|a|)
  {
    var t := a + [LF] + r;
    if a != [] {
      FirstNewline(a[1..], r);
      assert t[1..] == a[1..] + [LF] + r;
    }
  }

  function Cut(t: Text): Framed
    decreases |t|
  {
    match IndexOfNewline(t)
    case None => Framed([], t)
    case Some(i) =>
      var f := Cut(t[i + 1..]);
      Framed([t[..i]] + f.lines, f.rest)
  }

  lemma {:induction false} CutFrames(t: Text)
    ensures Frames(t, Cut(t))
    decreases |t|
  {
    if IndexOfNewline(t).Some? {
      var i := IndexOfNewline(t).value;
      CutFrames(t[i + 1..]);
      assert t == t[..i] + [LF] + t[i + 1..];
      assert Cut(t).lines[1..] == Cut(t[i + 1..]).lines;
    }
  }

  /** There is one way to cut a stream. */
  lemma {:induction false} FramesOnce(t: Text, f: Framed)
    requires Frames(t, f)
    ensures f == Cut(t)
    decreases |f.lines|
  {
    if f.lines != [] {
      var tail := Joined(f.lines[1..], f.rest);
      FirstNewline(f.lines[0], tail);
      assert t[..|f.lines[0]|] == f.lines[0] && t[|f.lines[0]| + 1..] == tail;
      FramesOnce(tail, Framed(f.lines[1..], f.rest));
      assert f.lines == [f.lines[0]] + f.lines[1..];
    } else {
      NoIndex(t);
    }
  }

  lemma NoIndex(t: Text)
    requires NoNewline(t)
    ensures IndexOfNewline(t).None?
  {}

  lemma Assoc<T>(a: seq<T>, b: seq<T>, c: seq<T>)
    ensures (a + b) + c == a + (b + c)
  {}

  lemma CutFirst(x: Text, r: Text)
    requires NoNewline(x)
    ensures Cut(x + [LF] + r) == Framed([x] + Cut(r).lines, Cut(r).rest)
  {
    FirstNewline(x, r);
    assert (x + [LF] + r)[..|x|] == x && (x + [LF] + r)[|x| + 1..] == r;
  }

  lemma CutStops(a: Text, b: Text)
    requires IndexOfNewline(a).None?
    ensures Cut(a + b) == Framed(Cut(a).lines + Cut(Cut(a).rest + b).lines, Cut(Cut(a).rest + b).rest)
  {
    assert [] + Cut(a + b).lines == Cut(a + b).lines;
  }

  /** Cutting what is left over together with what comes next goes on where the cutting stopped. */
  lemma {:induction false} CutGoesOn(a: Text, b: Text)
    ensures Cut(a + b) == Framed(Cut(a).lines + Cut(Cut(a).rest + b).lines, Cut(Cut(a).rest + b).rest)
    decreases |a|
  {
    match IndexOfNewline(a)
    case None => CutStops(a, b);
    case Some(i) =>
      var x, r := a[..i], a[i + 1..];
      CutGoesOn(r, b);
      Rejoined(a, i, b);
      CutFirst(x, r + b);
      Assoc([x], Cut(r).lines, Cut(Cut(r).rest + b).lines);
  }

  lemma Rejoined(a: Text, i: nat, b: Text)
    requires i < |a| && a[i] == LF
    ensures a + b == a[..i] + [LF] + (a[i + 1..] + b)
  {}

  // ---- the handler ------------------------------------------------------------------

  /** What is dispatched for each line: its trimmed text, unless nothing is left of it. */
  function Commands(lines: seq<Text>): seq<Text> {
    if lines == [] then []
    else
      var last := Trim(lines[|lines| - 1]);
      Commands(lines[..|lines| - 1]) + (if last == [] then [] else [last])
  }

  lemma {:induction false} CommandsConcat(a: seq<Text>, b: seq<Text>)
    ensures Commands(a + b) == Commands(a) + Commands(b)
  {
    if b == [] {
      assert a + b == a;
    } else {
      CommandsConcat(a, b[..|b| - 1]);
      assert (a + b)[..|a + b| - 1] == a + b[..|b| - 1];
    }
  }

  lemma CommandsOne(line: Text)
    ensures Commands([line]) == if Trim(line) == [] then [] else [Trim(line)]
  {
    assert [line][..0] == [];
  }

  lemma OneLineMore(lines: seq<Text>, raw: Text, rest: seq<Text>)
    ensures lines + ([raw] + rest) == (lines + [raw]) + rest
    ensures Commands(lines + [raw]) == Commands(lines) + if Trim(raw) == [] then [] else [Trim(raw)]
  {
    Assoc(lines, [raw], rest);
    CommandsConcat(lines, [raw]);
    CommandsOne(raw);
  }

  class Connection {
    var buffer: Text
    var dispatched: seq<Text>       // handed to the command parser, in order

    constructor ()
      ensures buffer == [] && dispatched == []
    {
      buffer, dispatched := [], [];
    }

    /** The line before this newline, taken out of the buffer. */
    method TakeLine(newlineIndex: nat) returns (raw: Text)
      requires IndexOfNewline(buffer) == Some(newlineIndex)
      modifies this`buffer
      ensures |buffer| < |old(buffer)|
      ensures Cut(old(buffer)) == Framed([raw] + Cut(buffer).lines, Cut(buffer).rest)
    {
      raw := buffer[..newlineIndex];
      buffer := buffer[newlineIndex + 1..];
    }

    /** Every complete line of the buffer, taken out and dispatched. */
    method Drain()
      modifies this
      ensures buffer == Cut(old(buffer)).rest
      ensures dispatched == old(dispatched) + Commands(Cut(old(buffer)).lines)
    {
      ghost var lines: seq<Text> := [];
      assert [] + Cut(buffer).lines == Cut(buffer).lines;
      var newlineIndex := IndexOfNewline(buffer);
      while newlineIndex.Some?
        invariant newlineIndex == IndexOfNewline(buffer)
        invariant Cut(old(buffer)).lines == lines + Cut(buffer).lines && Cut(old(buffer)).rest == Cut(buffer).rest
        invariant dispatched == old(dispatched) + Commands(lines)
        decreases |buffer|
      {
        var raw := TakeLine(newlineIndex.value);
        OneLineMore(lines, raw, Cut(buffer).lines);
        lines := lines + [raw];
        newlineIndex := IndexOfNewline(buffer);
        Dispatch(Trim(raw));
      }
      assert lines + [] == lines;
    }

    method Dispatch(line: Text)
      modifies this`dispatched
      ensures dispatched == old(dispatched) + if line == [] then [] else [line]
    {
      if line == [] { return; }
      dispatched := dispatched + [line];
    }

    /** The `data` handler. */
    method OnData(chunk: Text)
      modifies this
      ensures buffer == Cut(old(buffer) + chunk).rest
      ensures dispatched == old(dispatched) + Commands(Cut(old(buffer) + chunk).lines)
    {
      buffer := buffer + chunk;
      Drain();
    }
  }

  /** The handler called with each chunk of a stream in turn. */
  method Feed(c: Connection, chunks: seq<Text>)
    requires c.buffer == [] && c.dispatched == []
    modifies c
    ensures c.buffer == Cut(Stream(chunks)).rest && c.dispatched == Commands(Cut(Stream(chunks)).lines)
  {
    for i := 0 to |chunks|
      invariant c.buffer == Cut(Stream(chunks[..i])).rest
      invariant c.dispatched == Commands(Cut(Stream(chunks[..i])).lines)
    {
      var so := Stream(chunks[..i]);
      assert chunks[..i + 1][..i] == chunks[..i];
      CutGoesOn(so, chunks[i]);
      CommandsConcat(Cut(so).lines, Cut(Cut(so).rest + chunks[i]).lines);
      c.OnData(chunks[i]);
    }
    assert chunks[..|chunks|] == chunks;
  }

  function Stream(chunks: seq<Text>): Text {
    if chunks == [] then [] else Stream(chunks[..|chunks| - 1]) + chunks[|chunks| - 1]
  }

  // ---- the promise, in terms of chunks alone ----------------------------------------

  datatype Buffered = Buffered(buffer: Text, dispatched: seq<Text>)

  function Fed(chunks: seq<Text>): Buffered {
    if chunks == [] then Buffered([], [])
    else
      var b := Fed(chunks[..|chunks| - 1]);
      var f := Cut(b.buffer + chunks[|chunks| - 1]);
      Buffered(f.rest, b.dispatched + Commands(f.lines))
  }

  /**
    Chunk invariance: what is dispatched depends on the stream alone — its complete lines, trimmed, those
    with nothing left passed over — and what stays in the buffer is what follows its last newline.
  */
  lemma {:induction false} ChunkInvariance(chunks: seq<Text>, f: Framed)
    requires Frames(Stream(chunks), f)
    ensures Fed(chunks) == Buffered(f.rest, Commands(f.lines))
  {
    FramesOnce(Stream(chunks), f);
    if chunks != [] {
      var before, last := chunks[..|chunks| - 1], chunks[|chunks| - 1];
      CutFrames(Stream(before));
      ChunkInvariance(before, Cut(Stream(before)));
      CutGoesOn(Stream(before), last);
      CommandsConcat(Cut(Stream(before)).lines, Cut(Cut(Stream(before)).rest + last).lines);
    } else {
      NoIndex([]);
    }
  }

  /** Two ways of cutting one stream dispatch the same commands and leave the same buffer, free of newlines. */
  lemma {:induction false} AnyCut(a: seq<Text>, b: seq<Text>)
    requires Stream(a) == Stream(b)
    ensures Fed(a) == Fed(b) && NoNewline(Fed(a).buffer)
  {
    CutFrames(Stream(a));
    ChunkInvariance(a, Cut(Stream(a)));
    ChunkInvariance(b, Cut(Stream(a)));
  }
}
