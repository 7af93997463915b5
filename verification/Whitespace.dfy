/** Whitespace and trimming, for the three languages the repository is written in. */
module Whitespace {

  /** Python's str.isspace. */
  predicate IsPySpace(c: char) {
    IsUnicodeSpace(c) || '\U{1C}' <= c <= '\U{1F}'
  }

  /** The Unicode White_Space property, used by Rust. */
  predicate IsUnicodeSpace(c: char) {
    || '\t' <= c <= '\r' || c == ' ' || c == '\U{85}' || c == '\U{A0}' || c == '\U{1680}'
    || '\U{2000}' <= c <= '\U{200A}' || c == '\U{2028}' || c == '\U{2029}' || c == '\U{202F}'
    || c == '\U{205F}' || c == '\U{3000}'
  }

  /** What JavaScript's String.prototype.trim removes. */
  predicate IsJsSpace(c: char) {
    (IsUnicodeSpace(c) && c != '\U{85}') || c == '\U{FEFF}'
  }

  /** The number of leading whitespace characters. */
  function Lead(space: char -> bool, s: string): (n: nat)
    ensures n <= |s|
    ensures forall k :: 0 <= k < n ==> space(s[k])
    ensures n < |s| ==> !space(s[n])
  {
    if s != "" && space(s[0]) then 1 + Lead(space, s[1..]) else 0
  }

  /** What is left when trailing whitespace is not counted. */
  function Kept(space: char -> bool, s: string): (n: nat)
    ensures n <= |s|
    ensures forall k :: n <= k < |s| ==> space(s[k])
    ensures n > 0 ==> !space(s[n - 1])
  {
    if s != "" && space(s[|s| - 1]) then Kept(space, s[..|s| - 1]) else |s|
  }

  function TrimStart(space: char -> bool, s: string): string {
    s[Lead(space, s)..]
  }

  function TrimEnd(space: char -> bool, s: string): string {
    s[..Kept(space, s)]
  }

  function Trim(space: char -> bool, s: string): (t: string)
    ensures |t| <= |s|
    ensures t != "" ==> !space(t[0]) && !space(t[|t| - 1])
  {
    TrimEnd(space, TrimStart(space, s))
  }

  /** Nothing but whitespace. */
  predicate Blank(space: char -> bool, s: string) {
    forall k :: 0 <= k < |s| ==> space(s[k])
  }

  /** The characters that are not whitespace, in order. */
  function Ink(space: char -> bool, s: string): string {
    if s == "" then "" else (if space(s[0]) then "" else [s[0]]) + Ink(space, s[1..])
  }

  lemma {:induction false} InkConcat(space: char -> bool, a: string, b: string)
    ensures Ink(space, a + b) == Ink(space, a) + Ink(space, b)
  {
    if a == "" {
      assert a + b == b;
    } else {
      assert (a + b)[1..] == a[1..] + b;
      InkConcat(space, a[1..], b);
    }
  }

  lemma {:induction false} InkOfBlank(space: char -> bool, s: string)
    requires Blank(space, s)
    ensures Ink(space, s) == ""
  {
    if s != "" {
      InkOfBlank(space, s[1..]);
    }
  }

  /** Every character that is not whitespace stands in the ink, behind the ink of what is before it. */
  lemma InkHolds(space: char -> bool, s: string, i: nat)
    requires i < |s| && !space(s[i])
    ensures |Ink(space, s[..i])| < |Ink(space, s)| && Ink(space, s)[|Ink(space, s[..i])|] == s[i]
  {
    assert s == s[..i] + ([s[i]] + s[i + 1..]);
    InkConcat(space, s[..i], [s[i]] + s[i + 1..]);
  }

  /** And nothing else stands there. */
  lemma {:induction false} InkIsHeld(space: char -> bool, s: string, k: nat)
    requires k < |Ink(space, s)|
    ensures exists i: nat :: i < |s| && !space(s[i]) && |Ink(space, s[..i])| == k && Ink(space, s)[k] == s[i]
    decreases |s|
  {
    var front, c := s[..|s| - 1], s[|s| - 1];
    assert s == front + [c];
    InkConcat(space, front, [c]);
    if k < |Ink(space, front)| {
      InkIsHeld(space, front, k);
      var i: nat :| i < |front| && !space(front[i]) && |Ink(space, front[..i])| == k && Ink(space, front)[k] == front[i];
      assert front[..i] == s[..i];
    }
  }

  lemma TrimParts(space: char -> bool, s: string) returns (before: string, after: string)
    ensures s == before + Trim(space, s) + after
    ensures Blank(space, before) && Blank(space, after)
  {
    var t := TrimStart(space, s);
    before, after := s[..Lead(space, s)], t[Kept(space, t)..];
    assert s == before + t;
  }

  /** Trimming removes only whitespace. */
  lemma TrimKeepsInk(space: char -> bool, s: string)
    ensures Ink(space, Trim(space, s)) == Ink(space, s)
  {
    var before, after := TrimParts(space, s);
    InkOfBlank(space, before);
    InkOfBlank(space, after);
    InkConcat(space, before + Trim(space, s), after);
    InkConcat(space, before, Trim(space, s));
  }

  lemma BlankIffTrimsToNothing(space: char -> bool, s: string)
    ensures Trim(space, s) == "" <==> Blank(space, s)
  {
    var t := TrimStart(space, s);
    if t != "" {
      assert t[0] == s[Lead(space, s)];
      assert Kept(space, t) > 0;
    }
  }

  /** Text that begins and ends with ink is left alone. */
  lemma TrimIsIdentity(space: char -> bool, s: string)
    requires s != "" ==> !space(s[0]) && !space(s[|s| - 1])
    ensures Trim(space, s) == s
  {
  }
}
