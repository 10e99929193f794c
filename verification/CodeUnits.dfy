/** JavaScript strings: sequences of UTF-16 code units. */
module CodeUnits {
  type Unit = u: nat | u < 0x1_0000
  type Text = seq<Unit>

  const LF: Unit := 0x0A
  const CR: Unit := 0x0D

  function Ascii(s: string): (t: Text)
    requires forall i :: 0 <= i < |s| ==> s[i] < 128 as char
    ensures |t| == |s| && forall i :: 0 <= i < |t| ==> t[i] == s[i] as int
  {
    seq(|s|, i requires 0 <= i < |s| => s[i] as int)
  }

  predicate OccursAt(t: Text, part: Text, at: nat) {
    at + |part| <= |t| && t[at..at + |part|] == part
  }

  /** `t.includes(part)` */
  predicate Contains(t: Text, part: Text) {
    exists at :: 0 <= at <= |t| && OccursAt(t, part, at)
  }
}
