/** What the block splitter sees in a line, in characters (src/components/MarkdownMessage.tsx, splitMarkdownBlocks). */
module BlockRules {
  import opened Sequences
  import opened MarkdownLines
  import opened Whitespace
  import opened LineBlocks
  import opened BlockSplitter

  predicate AllSpace(s: string, b: nat, e: nat) {
    b <= e <= |s| && forall k :: b <= k < e ==> IsJsSpace(s[k])
  }

  // ----- fences and display math

  /** After nothing but whitespace, exactly `n` backticks or tildes, at least three. */
  predicate FenceMark(line: string, i: nat, c: char, n: nat) {
    && i + n <= |line| && AllSpace(line, 0, i) && (c == '`' || c == '~') && n >= 3
    && (forall k :: i <= k < i + n ==> line[k] == c)
    && (i + n < |line| ==> line[i + n] != c)
  }

  /** Two dollar signs or a display delimiter, with nothing but whitespace around them. */
  predicate MathMark(line: string, i: nat) {
    && i + 2 <= |line| && AllSpace(line, 0, i) && AllSpace(line, i + 2, |line|)
    && ((line[i] == '$' && line[i + 1] == '$')
        || (line[i] == '\\' && (line[i + 1] == '[' || line[i + 1] == ']')))
  }

  lemma TrimIs(line: string) returns (b: nat, e: nat)
    ensures b <= e <= |line| && Trim(IsJsSpace, line) == line[b..e]
    ensures AllSpace(line, 0, b) && AllSpace(line, e, |line|)
    ensures b < e ==> !IsJsSpace(line[b]) && !IsJsSpace(line[e - 1])
  {
    b := Lead(IsJsSpace, line);
    e := b + Kept(IsJsSpace, line[b..]);
    forall k | e <= k < |line|
      ensures IsJsSpace(line[k])
    {
      assert line[k] == line[b..][k - b];
    }
    if b < e {
      assert line[b..][e - b - 1] == line[e - 1];
    }
  }

  lemma {:induction false} RunIs(s: string, i: nat, c: char, n: nat)
    requires i + n <= |s| && (forall k :: i <= k < i + n ==> s[k] == c) && (i + n < |s| ==> s[i + n] != c)
    ensures RunLength(s, i, c) == n
    decreases n
  {
    if n > 0 {
      RunIs(s, i + 1, c, n - 1);
    }
  }

  /** A fence opens when none is open, and closes one of the same character that is not longer. */
  lemma FenceMoves(state: State, line: string, i: nat, c: char, n: nat)
    requires FenceMark(line, i, c, n)
    ensures Advance(state, line).inDisplayMath == state.inDisplayMath
    ensures Advance(state, line).fence
         == match state.fence
            case None => Some((c, n))
            case Some(open) => if open.0 == c && open.1 <= n then None else Some(open)
  {
    var b, e := TrimIs(line);
    assert line[i] == c && !IsJsSpace(c) && i == b;
    assert line[i + n - 1] == c && i + n <= e;
    RunIs(line[b..e], 0, c, n);
  }

  /** A math mark outside fences opens display math, or closes it. */
  lemma MathMoves(state: State, line: string, i: nat)
    requires MathMark(line, i)
    ensures Advance(state, line)
         == if state.fence.Some? then state else State(None, !state.inDisplayMath)
  {
    var b, e := TrimIs(line);
    assert !IsJsSpace(line[i]) && !IsJsSpace(line[i + 1]);
    assert i == b && e == i + 2;
    assert line[b..e] == [line[i], line[i + 1]];
  }

  /** No other line opens or closes anything. */
  lemma OthersStay(state: State, line: string)
    requires forall i: nat, c: char, n: nat :: !FenceMark(line, i, c, n)
    requires forall i: nat :: !MathMark(line, i)
    ensures Advance(state, line) == state
  {
    var b, e := TrimIs(line);
    var t := line[b..e];
    if t != "" && (t[0] == '`' || t[0] == '~') && RunLength(t, 0, t[0]) >= 3 {
      var n := RunLength(t, 0, t[0]);
      assert forall k :: b <= k < b + n ==> line[k] == t[k - b];
      assert b + n < e ==> line[b + n] == t[n];
      assert FenceMark(line, b, t[0], n);
      assert false;
    }
    if t == "$$" || t == "\\[" || t == "\\]" {
      assert t[0] == line[b] && t[1] == line[b + 1];
      assert MathMark(line, b);
      assert false;
    }
  }

  // ----- lists and quotes that go on

  /** The first character that is not whitespace. */
  predicate FirstInk(s: string, i: nat) {
    i < |s| && AllSpace(s, 0, i) && !IsJsSpace(s[i])
  }

  /** A bullet and whitespace. */
  predicate BulletAt(s: string, i: nat) {
    i + 1 < |s| && (s[i] == '-' || s[i] == '+' || s[i] == '*') && IsJsSpace(s[i + 1])
  }

  /** A number, a full stop and whitespace. */
  predicate NumberAt(s: string, i: nat, n: nat) {
    && n > 0 && i + n + 1 < |s| && (forall k :: i <= k < i + n ==> '0' <= s[k] <= '9')
    && s[i + n] == '.' && IsJsSpace(s[i + n + 1])
  }

  ghost predicate ItemAt(s: string, i: nat) {
    BulletAt(s, i) || exists n: nat :: NumberAt(s, i, n)
  }

  lemma {:induction false} DigitsAre(s: string, n: nat)
    requires n < |s| && (forall k :: 0 <= k < n ==> '0' <= s[k] <= '9') && !('0' <= s[n] <= '9')
    ensures Digits(s) == n
    decreases n
  {
    if n > 0 {
      DigitsAre(s[1..], n - 1);
    }
  }

  lemma {:induction false} DigitsHold(s: string)
    ensures forall k :: 0 <= k < Digits(s) ==> '0' <= s[k] <= '9'
  {
    if s != "" && BlockSplitter.IsDigit(s[0]) {
      DigitsHold(s[1..]);
      assert forall k :: 0 < k < Digits(s) ==> s[k] == s[1..][k - 1];
    }
  }

  lemma StartsItemIff(s: string)
    ensures StartsItem(s) <==> ItemAt(s, 0)
  {
    if exists n: nat :: NumberAt(s, 0, n) {
      var n: nat :| NumberAt(s, 0, n);
      DigitsAre(s, n);
    }
    DigitsHold(s);
    if StartsItem(s) && !BulletAt(s, 0) {
      assert NumberAt(s, 0, Digits(s));
    }
  }

  /** From `i` on, the line goes to `e`. */
  predicate LineFrom(s: string, i: nat, e: nat) {
    i <= e <= |s| && (forall k :: i <= k < e ==> s[k] != '\n') && (e < |s| ==> s[e] == '\n')
  }

  /** The first line with text in `s` begins at `i`, goes to `e`, and begins a list item. */
  ghost predicate BeginsItem(s: string, i: nat, e: nat) {
    FirstInk(s, i) && LineFrom(s, i, e) && ItemAt(s[i..e], 0)
  }

  ghost predicate HasItem(s: string) {
    exists i: nat, e: nat :: BeginsItem(s, i, e)
  }

  predicate QuoteAt(s: string, i: nat) {
    FirstInk(s, i) && s[i] == '>'
  }

  ghost predicate HasQuote(s: string) {
    exists i: nat :: QuoteAt(s, i)
  }

  /** The line is an item of its own, or is indented by two characters or more. */
  ghost predicate GoesOnAt(s: string, j: nat) {
    FirstInk(s, j) && (ItemAt(s[j..], 0) || j >= 2)
  }

  ghost predicate GoesOn(s: string) {
    exists j: nat :: GoesOnAt(s, j)
  }

  lemma {:induction false} FirstLineIs(s: string) returns (e: nat)
    ensures LineFrom(s, 0, e) && FirstLine(s) == s[..e]
  {
    e := 0;
    if s != "" && s[0] != '\n' {
      var rest := FirstLineIs(s[1..]);
      e := rest + 1;
      assert forall k :: 0 < k < e ==> s[k] == s[1..][k - 1];
      assert e < |s| ==> s[e] == s[1..][rest];
      assert s[..e] == [s[0]] + s[1..][..rest];
    }
  }

  lemma InkIs(s: string)
    ensures forall i: nat :: FirstInk(s, i) ==> i == Lead(IsJsSpace, s)
    ensures Lead(IsJsSpace, s) < |s| ==> FirstInk(s, Lead(IsJsSpace, s))
  {
  }

  lemma HasItemIff(s: string)
    ensures HasItem(s) <==> StartsItem(FirstLine(TrimStart(IsJsSpace, s)))
  {
    var i, t := Lead(IsJsSpace, s), TrimStart(IsJsSpace, s);
    var e := FirstLineIs(t);
    InkIs(s);
    StartsItemIff(FirstLine(t));
    LineOfRest(s, i, e);
    if StartsItem(FirstLine(t)) {
      assert t != "";
      assert BeginsItem(s, i, i + e);
    }
    if HasItem(s) {
      var j: nat, f: nat :| BeginsItem(s, j, f);
      assert j == i;
      SameLineEnd(s, i, i + e, f);
    }
  }

  lemma LineOfRest(s: string, i: nat, e: nat)
    requires i <= |s| && LineFrom(s[i..], 0, e)
    ensures LineFrom(s, i, i + e) && s[i..i + e] == s[i..][..e]
  {
    assert forall k :: i <= k < |s| ==> s[k] == s[i..][k - i];
  }

  lemma SameLineEnd(s: string, i: nat, e: nat, f: nat)
    requires LineFrom(s, i, e) && LineFrom(s, i, f)
    ensures e == f
  {
  }

  lemma HasQuoteIff(s: string)
    ensures HasQuote(s) <==> StartsQuote(TrimStart(IsJsSpace, s))
    ensures HasQuote(s) <==> StartsQuote(FirstLine(TrimStart(IsJsSpace, s)))
  {
    InkIs(s);
    var i := Lead(IsJsSpace, s);
    if i < |s| && s[i] == '>' {
      assert QuoteAt(s, i);
    }
  }

  lemma GoesOnIff(s: string)
    ensures GoesOn(s) <==> StartsItem(TrimStart(IsJsSpace, s)) || Indented(s)
  {
    InkIs(s);
    var i := Lead(IsJsSpace, s);
    StartsItemIff(TrimStart(IsJsSpace, s));
    if i < |s| && (ItemAt(s[i..], 0) || i >= 2) {
      assert GoesOnAt(s, i);
    }
  }

  /** A list goes on with another item or an indented line, a quote with another quote; nothing else goes on. */
  lemma ContinuesIff(current: string, next: string)
    ensures Continues(current, next) <==> (HasItem(current) && GoesOn(next)) || (HasQuote(current) && HasQuote(next))
  {
    HasItemIff(current);
    GoesOnIff(next);
    HasQuoteIff(current);
    HasQuoteIff(next);
  }
}
