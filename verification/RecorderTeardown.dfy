/** trimRecorderTeardown: what is cut off the end of a recording is the recorder's own teardown and nothing else. */
module RecorderTeardown {
  import opened CodeUnits
  import opened ControlSequences
  import opened Option

  const ALT_SCREEN_EXIT: Text := [ESC] + Ascii("[?1049l")
  const DETACHED: Text := Ascii("[detached (from session ")
  const DETACHED_END: Text := Ascii(")]")
  const HERDR_SHUTDOWN: Text := Ascii("herdr: server shut down: ")
  const PAREN: Unit := 0x29
  const LETTER_H: Unit := 0x68

  datatype Kind = Exit | Output | OtherKind
  datatype CastEvent = CastEvent(interval: real, kind: Kind, data: Text)

  datatype What = TmuxDetach | HerdrExit

  predicate LineEnd(t: Text) {
    t == [LF] || t == [CR, LF]
  }

  predicate Free(t: Text, a: nat, b: nat, u: Unit)
    requires b <= |t|
  {
    forall i :: a <= i < b ==> t[i] != u
  }

  /** The tmux notice, alone in its event: `[detached (from session NAME)]` and a line end. */
  predicate DetachNotice(t: Text) {
    DETACHED <= t && exists n :: |DETACHED| <= n <= |t| && NameEnds(t, n)
  }

  predicate NameEnds(t: Text, n: nat)
    requires |DETACHED| <= n <= |t|
  {
    && Free(t, |DETACHED|, n, PAREN) && Free(t, |DETACHED|, n, LF)
    && DETACHED_END <= t[n..] && LineEnd(t[n + |DETACHED_END|..])
  }

  /** herdr's shutdown line, from `at` to the end of the text. */
  predicate ShutdownLine(t: Text, at: nat) {
    OccursAt(t, HERDR_SHUTDOWN, at)
    && exists n :: at + |HERDR_SHUTDOWN| <= n <= |t| && LineEnd(t[n..])
         && Free(t, at + |HERDR_SHUTDOWN|, n, CR) && Free(t, at + |HERDR_SHUTDOWN|, n, LF)
  }

  /** `lastIndexOf` */
  method LastIndexOf(t: Text, part: Text) returns (at: Option<nat>)
    ensures at.Some? ==> OccursAt(t, part, at.value) && forall k :: at.value < k <= |t| ==> !OccursAt(t, part, k)
    ensures at.None? ==> forall k :: 0 <= k <= |t| ==> !OccursAt(t, part, k)
  {
    var i := |t| + 1;
    while i > 0
      invariant 0 <= i <= |t| + 1
      invariant forall k :: i <= k <= |t| ==> !OccursAt(t, part, k)
    {
      i := i - 1;
      if OccursAt(t, part, i) { return Some(i); }
    }
    return None;
  }

  /**
    One output event that is only the client's teardown: control sequences with the alternate-screen
    exit among them, then the shutdown line, which the server's own words do not start again.
  */
  ghost predicate HerdrTeardown(t: Text) {
    exists at :: 0 <= at <= |t| && TornDownAt(t, at)
  }

  ghost predicate TornDownAt(t: Text, at: nat) {
    && ShutdownLine(t, at) && Contains(t[..at], ALT_SCREEN_EXIT) && OnlyCsi(t[..at])
    && forall k :: at < k <= |t| ==> !OccursAt(t, HERDR_SHUTDOWN, k)
  }

  /** A shutdown line still is one when read from its last mark. */
  lemma LaterLine(t: Text, p: nat, q: nat)
    requires ShutdownLine(t, p) && p <= q && OccursAt(t, HERDR_SHUTDOWN, q)
    ensures ShutdownLine(t, q)
  {
    var n :| p + |HERDR_SHUTDOWN| <= n <= |t| && LineEnd(t[n..])
      && Free(t, p + |HERDR_SHUTDOWN|, n, CR) && Free(t, p + |HERDR_SHUTDOWN|, n, LF);
    MarkEnds(t, q, n);
  }

  /** The mark holds no line end, so it ends before the line does. */
  lemma MarkEnds(t: Text, q: nat, n: nat)
    requires OccursAt(t, HERDR_SHUTDOWN, q) && n <= |t| && LineEnd(t[n..])
    ensures q + |HERDR_SHUTDOWN| <= n
  {
    var m := q + |HERDR_SHUTDOWN| - 1;
    assert t[m] == t[q..q + |HERDR_SHUTDOWN|][|HERDR_SHUTDOWN| - 1] == 0x20;
    forall i | n <= i < |t| ensures t[i] == CR || t[i] == LF { assert t[i] == t[n..][i - n]; }
  }

  predicate HasShutdownLine(t: Text) {
    exists p :: 0 <= p <= |t| && ShutdownLine(t, p)
  }

  /** The teardown, if it is one, begins its line at the last mark. */
  lemma AtLastMark(t: Text, last: nat)
    requires OccursAt(t, HERDR_SHUTDOWN, last) && HasShutdownLine(t)
    requires forall k :: last < k <= |t| ==> !OccursAt(t, HERDR_SHUTDOWN, k)
    ensures HerdrTeardown(t) <==> Contains(t[..last], ALT_SCREEN_EXIT) && OnlyCsi(t[..last])
  {
    var p :| 0 <= p <= |t| && ShutdownLine(t, p);
    LaterLine(t, p, last);
    if HerdrTeardown(t) {
      var at :| 0 <= at <= |t| && TornDownAt(t, at);
      assert at == last;
    } else {
      assert !TornDownAt(t, last);
    }
  }

  method IsHerdrClientExit(e: CastEvent) returns (exit: bool)
    ensures exit <==> e.kind == Output && HerdrTeardown(e.data)
  {
    if e.kind != Output || !HasShutdownLine(e.data) { return false; }
    var last := LastIndexOf(e.data, HERDR_SHUTDOWN);
    AtLastMark(e.data, last.value);
    var prefix := e.data[..last.value];
    if !Contains(prefix, ALT_SCREEN_EXIT) { return false; }
    exit := IsOnlyCsi(prefix);
  }

  lemma NotCsi(t: Text)
    requires t != [] && t[0] != ESC
    ensures !OnlyCsi(t)
  {}

  /** Nothing that reaches into the mark is control sequences only. */
  lemma PastTheMark(t: Text, p: nat, at: nat)
    requires OccursAt(t, HERDR_SHUTDOWN, p) && p < at <= |t| && OnlyCsi(t[..p])
    ensures !OnlyCsi(t[..at])
  {
    assert t[p] == t[p..p + |HERDR_SHUTDOWN|][0] == LETTER_H;
    assert t[..at] == t[..p] + t[p..at];
    NotCsi(t[p..at]);
    OnlyCsiConcat(t[..p], t[p..at]);
  }

  /**
    Control sequences with the alternate-screen exit, then a shutdown line: such a text is taken for the
    client's teardown exactly when the mark does not come again in the server's own words.
  */
  lemma {:induction false} MarkMustNotRecur(t: Text, p: nat)
    requires p <= |t| && ShutdownLine(t, p) && Contains(t[..p], ALT_SCREEN_EXIT) && OnlyCsi(t[..p])
    ensures HerdrTeardown(t) <==> forall k :: p < k <= |t| ==> !OccursAt(t, HERDR_SHUTDOWN, k)
  {
    forall at | p < at <= |t| ensures !TornDownAt(t, at) { PastTheMark(t, p, at); }
    if forall k :: p < k <= |t| ==> !OccursAt(t, HERDR_SHUTDOWN, k) {
      assert TornDownAt(t, p);
    }
  }

  lemma AltScreenExitIsCsi()
    ensures OnlyCsi(ALT_SCREEN_EXIT)
  {
    assert Formed(ALT_SCREEN_EXIT, 7, 7);
    assert Concat([ALT_SCREEN_EXIT]) == ALT_SCREEN_EXIT;
    assert AllSequences([ALT_SCREEN_EXIT]);
    OnlyCsiIsTheGrammar(ALT_SCREEN_EXIT);
  }

  lemma Slices(a: Text, m: Text, e: Text)
    ensures var t, p, q := a + m + m + e, |a|, |a| + |m|;
      && t[..p] == a && OccursAt(t, m, p) && OccursAt(t, m, q) && t[q + |m|..] == e
      && forall i :: 0 <= i < |m| ==> t[q + i] == m[i]
  {}

  lemma MarkHasNoLineEnd()
    ensures forall i :: 0 <= i < |HERDR_SHUTDOWN| ==> HERDR_SHUTDOWN[i] != LF && HERDR_SHUTDOWN[i] != CR
  {}

  lemma RepeatedLine(t: Text, p: nat)
    requires OccursAt(t, HERDR_SHUTDOWN, p) && OccursAt(t, HERDR_SHUTDOWN, p + |HERDR_SHUTDOWN|)
    requires t[p + 2 * |HERDR_SHUTDOWN|..] == [LF]
    ensures ShutdownLine(t, p)
  {
    var q := p + |HERDR_SHUTDOWN|;
    var n := q + |HERDR_SHUTDOWN|;
    MarkHasNoLineEnd();
    forall i | q <= i < n ensures t[i] != LF && t[i] != CR {
      assert t[i] == t[q..n][i - q] == HERDR_SHUTDOWN[i - q];
    }
    assert LineEnd(t[n..]) && Free(t, q, n, CR) && Free(t, q, n, LF);
  }

  /** Such a text whose mark does come again: the whole event is kept. */
  lemma RepeatedMark() returns (t: Text, p: nat)
    ensures p <= |t| && ShutdownLine(t, p) && Contains(t[..p], ALT_SCREEN_EXIT) && OnlyCsi(t[..p])
    ensures !HerdrTeardown(t)
  {
    p := |ALT_SCREEN_EXIT|;
    t := ALT_SCREEN_EXIT + HERDR_SHUTDOWN + HERDR_SHUTDOWN + [LF];
    Slices(ALT_SCREEN_EXIT, HERDR_SHUTDOWN, [LF]);
    RepeatedLine(t, p);
    AltScreenExitIsCsi();
    assert OccursAt(t[..p], ALT_SCREEN_EXIT, 0);
    MarkMustNotRecur(t, p);
    assert OccursAt(t, HERDR_SHUTDOWN, p + |HERDR_SHUTDOWN|);
  }

  // ---- the suffix -------------------------------------------------------------------

  ghost predicate AllExits(events: seq<CastEvent>) {
    forall i :: 0 <= i < |events| ==> events[i].kind == Exit
  }

  predicate AltScreenExit(e: CastEvent) {
    e.kind == Output && Contains(e.data, ALT_SCREEN_EXIT) && OnlyCsi(e.data)
  }

  predicate Notice(e: CastEvent) {
    e.kind == Output && DetachNotice(e.data)
  }

  /** Exactly: the alternate-screen exit, the detach notice, exit events. */
  ghost predicate TmuxSuffix(events: seq<CastEvent>) {
    |events| >= 2 && AltScreenExit(events[0]) && Notice(events[1]) && AllExits(events[2..])
  }

  /** Exactly: the herdr client's one event, exit events. */
  ghost predicate HerdrSuffix(events: seq<CastEvent>) {
    |events| >= 1 && events[0].kind == Output && HerdrTeardown(events[0].data) && AllExits(events[1..])
  }

  ghost predicate EndsIn(events: seq<CastEvent>, what: What, at: nat)
    requires at <= |events|
  {
    if what == TmuxDetach then TmuxSuffix(events[at..]) else HerdrSuffix(events[at..])
  }

  /** `end` is where the trailing exit events begin. */
  ghost predicate ExitsFrom(events: seq<CastEvent>, end: nat) {
    && end <= |events| && (forall i :: end <= i < |events| ==> events[i].kind == Exit)
    && (end > 0 ==> events[end - 1].kind != Exit)
  }

  predicate TmuxBefore(events: seq<CastEvent>, end: nat)
    requires end <= |events|
  {
    end >= 2 && AltScreenExit(events[end - 2]) && Notice(events[end - 1])
  }

  ghost predicate HerdrBefore(events: seq<CastEvent>, end: nat)
    requires end <= |events|
  {
    end >= 1 && events[end - 1].kind == Output && HerdrTeardown(events[end - 1].data)
  }

  /** There is one place a teardown can begin: right before the trailing exit events. */
  lemma TmuxAt(events: seq<CastEvent>, at: nat, end: nat)
    requires at <= |events| && ExitsFrom(events, end)
    ensures EndsIn(events, TmuxDetach, at) <==> at + 2 == end && TmuxBefore(events, end)
  {
    var tail := events[at..];
    forall i | at <= i < |events| ensures tail[i - at] == events[i] {}
    if |tail| >= 2 {
      forall i | at + 2 <= i < |events| ensures tail[2..][i - at - 2] == events[i] {}
    }
  }

  lemma HerdrAt(events: seq<CastEvent>, at: nat, end: nat)
    requires at <= |events| && ExitsFrom(events, end)
    ensures EndsIn(events, HerdrExit, at) <==> at + 1 == end && HerdrBefore(events, end)
  {
    var tail := events[at..];
    forall i | at <= i < |events| ensures tail[i - at] == events[i] {}
    if |tail| >= 1 {
      forall i | at + 1 <= i < |events| ensures tail[1..][i - at - 1] == events[i] {}
    }
  }

  method SkipExits(events: seq<CastEvent>) returns (end: nat)
    ensures ExitsFrom(events, end)
  {
    end := |events|;
    while end > 0 && events[end - 1].kind == Exit
      invariant 0 <= end <= |events|
      invariant forall i :: end <= i < |events| ==> events[i].kind == Exit
    {
      end := end - 1;
    }
  }

  method IsTmuxDetach(events: seq<CastEvent>, end: nat) returns (tmux: bool)
    requires end <= |events|
    ensures tmux <==> TmuxBefore(events, end)
  {
    if end < 2 || !Notice(events[end - 1]) { return false; }
    var teardown := events[end - 2];
    if teardown.kind != Output || !Contains(teardown.data, ALT_SCREEN_EXIT) { return false; }
    tmux := IsOnlyCsi(teardown.data);
  }

  /**
    Splits the events into what is kept and a suffix that, unless it is empty, is exactly a teardown; and
    it is not empty if there is one. The tmux form goes first.
  */
  method TrimRecorderTeardown(events: seq<CastEvent>) returns (kept: seq<CastEvent>, trimmed: nat, what: Option<What>)
    ensures trimmed <= |events| && events == kept + events[|events| - trimmed..]
    ensures what.None? <==> trimmed == 0
    ensures what.Some? ==> EndsIn(events, what.value, |kept|)
    ensures what.None? ==> forall at, w :: 0 <= at <= |events| ==> !EndsIn(events, w, at)
    ensures what == Some(HerdrExit) ==> forall at :: 0 <= at <= |events| ==> !EndsIn(events, TmuxDetach, at)
  {
    var end := SkipExits(events);
    forall at: nat | at <= |events|
      ensures EndsIn(events, TmuxDetach, at) <==> at + 2 == end && TmuxBefore(events, end)
      ensures EndsIn(events, HerdrExit, at) <==> at + 1 == end && HerdrBefore(events, end)
    {
      TmuxAt(events, at, end);
      HerdrAt(events, at, end);
    }
    var tmux := IsTmuxDetach(events, end);
    if tmux { return events[..end - 2], |events| - (end - 2), Some(TmuxDetach); }
    if end >= 1 {
      var herdr := IsHerdrClientExit(events[end - 1]);
      if herdr { return events[..end - 1], |events| - (end - 1), Some(HerdrExit); }
    }
    assert !TmuxBefore(events, end) && !HerdrBefore(events, end);
    return events, 0, None;
  }
}
