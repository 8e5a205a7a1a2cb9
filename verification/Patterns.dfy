/** The three value shapes that normalisation erases, as recognisers. The patterns are
    ASCII; Python's `$` also accepts one newline at the end. */
module Patterns {
  predicate Digit(c: char) { '0' <= c <= '9' }

  predicate Letter(c: char) { 'a' <= c <= 'z' || 'A' <= c <= 'Z' }

  predicate Hex(c: char) { Digit(c) || 'a' <= c <= 'f' || 'A' <= c <= 'F' }

  /** The part of `s` that `$` requires to be matched. */
  function FirstLine(s: string): (r: string) {
    if |s| > 0 && s[|s| - 1] == '\n' then s[..|s| - 1] else s
  }

  /** 8-4-4-4-12 hex digits. */
  predicate IsUuid(s: string) {
    var t := FirstLine(s);
    |t| == 36 && forall i :: 0 <= i < 36 ==> if i in {8, 13, 18, 23} then t[i] == '-' else Hex(t[i])
  }

  /** `YYYY-MM-DD[T ]hh:mm:ss`, an optional fraction, an optional zone. */
  predicate IsTimestamp(s: string) {
    var t := FirstLine(s);
    && |t| >= 19
    && (forall i :: 0 <= i < 19 ==>
        if i in {4, 7} then t[i] == '-'
        else if i == 10 then t[i] == 'T' || t[i] == ' '
        else if i in {13, 16} then t[i] == ':'
        else Digit(t[i]))
    && IsZone(SkipFraction(t[19..]))
  }

  function SkipDigits(s: string): string {
    if |s| > 0 && Digit(s[0]) then SkipDigits(s[1..]) else s
  }

  function SkipFraction(s: string): string {
    if |s| > 1 && s[0] == '.' && Digit(s[1]) then SkipDigits(s[1..]) else s
  }

  predicate IsZone(s: string) {
    || s == ""
    || s == "Z"
    || (|s| in {5, 6} && (s[0] == '+' || s[0] == '-') && (|s| == 6 ==> s[3] == ':')
        && Digit(s[1]) && Digit(s[2]) && Digit(s[|s| - 2]) && Digit(s[|s| - 1]))
  }

  /** 2 to 6 letters, an underscore, at least 8 hex digits. */
  predicate IsPrefixedId(s: string) {
    var t := FirstLine(s);
    exists p: int :: 2 <= p <= 6 && PrefixedAt(t, p)
  }

  predicate PrefixedAt(t: string, p: int)
    requires p >= 0
  {
    && |t| >= p + 9
    && (forall i :: 0 <= i < p ==> Letter(t[i]))
    && t[p] == '_'
    && (forall i :: p < i < |t| ==> Hex(t[i]))
  }

  predicate Shaped(s: string) {
    IsUuid(s) || IsTimestamp(s) || IsPrefixedId(s)
  }

  /** A text that starts with neither a letter nor a digit has none of the shapes. */
  lemma UnshapedStart(s: string)
    requires |s| > 1 && !Letter(s[0]) && !Hex(s[0]) && !Digit(s[0])
    ensures !Shaped(s)
  {
    assert FirstLine(s)[0] == s[0];
  }

  /** The three values that infrareplay/comparison/normalize.py gives as examples, each of its
      own shape only, and some near misses. */
  lemma ShapeExamples()
    ensures IsUuid("3fa85f64-5717-4562-b3fc-2c963f66afa6")
    ensures IsTimestamp("2026-09-21T10:00:00.412Z") && !IsUuid("2026-09-21T10:00:00.412Z")
    ensures IsPrefixedId("ord_9f2c1a7b3e00") && !IsUuid("ord_9f2c1a7b3e00") && !IsTimestamp("ord_9f2c1a7b3e00")
    ensures !IsUuid("3fa85f64-5717-4562-b3fc-2c963f66afag") && !IsUuid("3fa85f6405717-4562-b3fc-2c963f66afa6")
    ensures !IsTimestamp("2026-09-21T10:00:00.Z") && !IsTimestamp("2026-09-21") && !Shaped("409") && !Shaped("")
  {
    UuidExample();
    TimestampExample();
    var id := "ord_9f2c1a7b3e00";
    assert FirstLine(id) == id && PrefixedAt(id, 3);
    assert |FirstLine("2026-09-21T10:00:00.412Z")| == 24 && |FirstLine(id)| == 16;
    NearMisses();
  }

  lemma UuidExample()
    ensures IsUuid("3fa85f64-5717-4562-b3fc-2c963f66afa6")
  {
    assert FirstLine("3fa85f64-5717-4562-b3fc-2c963f66afa6") == "3fa85f64-5717-4562-b3fc-2c963f66afa6";
  }

  lemma TimestampExample()
    ensures IsTimestamp("2026-09-21T10:00:00.412Z")
  {
    var t := "2026-09-21T10:00:00.412Z";
    assert FirstLine(t) == t && t[19..] == ".412Z";
    assert ".412Z"[1..] == "412Z" && "412Z"[1..] == "12Z" && "12Z"[1..] == "2Z" && "2Z"[1..] == "Z";
    assert SkipDigits("Z") == "Z" && SkipDigits("2Z") == "Z" && SkipDigits("12Z") == "Z" && SkipDigits("412Z") == "Z";
  }

  lemma NearMisses()
    ensures !IsUuid("3fa85f64-5717-4562-b3fc-2c963f66afag") && !IsUuid("3fa85f6405717-4562-b3fc-2c963f66afa6")
    ensures !IsTimestamp("2026-09-21T10:00:00.Z") && !IsTimestamp("2026-09-21") && !Shaped("409") && !Shaped("")
  {
    var a, b, c := "3fa85f64-5717-4562-b3fc-2c963f66afag", "3fa85f6405717-4562-b3fc-2c963f66afa6", "2026-09-21T10:00:00.Z";
    assert FirstLine(a)[35] == 'g' && FirstLine(b)[8] == '0';
    assert FirstLine(c) == c && c[19..] == ".Z" && SkipFraction(".Z") == ".Z";
    assert FirstLine("409") == "409" && FirstLine("") == "";
  }
}
