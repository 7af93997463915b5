/** Splitting chat markdown at blank lines (src/components/MarkdownMessage.tsx, splitMarkdownBlocks). */
module BlockSplitter {
  import opened Sequences
  import opened LineBlocks
  import opened MarkdownLines
  import opened Whitespace

  // ----- what the splitter knows about a line

  predicate BlankLine(line: string) {
    Trim(IsJsSpace, line) == ""
  }

  function Toggled(state: State, trimmed: string): State {
    if state.fence.None? && (trimmed == "$$" || trimmed == "\\[" || trimmed == "\\]")
    then state.(inDisplayMath := !state.inDisplayMath) else state
  }

  /** The state after one more line. */
  function Advance(state: State, line: string): State {
    var trimmed := Trim(IsJsSpace, line);
    if trimmed != "" && (trimmed[0] == '`' || trimmed[0] == '~') && RunLength(trimmed, 0, trimmed[0]) >= 3 then
      var length := RunLength(trimmed, 0, trimmed[0]);
      match state.fence
      case None => state.(fence := Some((trimmed[0], length)))
      case Some(f) => if trimmed[0] == f.0 && length >= f.1 then state.(fence := None) else state
    else Toggled(state, trimmed)
  }

  predicate IsDigit(c: char) {
    '0' <= c <= '9'
  }

  /** How many digits stand at the front. */
  function Digits(line: string): (n: nat)
    ensures n <= |line|
  {
    if line != "" && IsDigit(line[0]) then 1 + Digits(line[1..]) else 0
  }

  /** A bullet, or a number and a full stop, and then whitespace. */
  predicate StartsItem(line: string) {
    || (|line| >= 2 && line[0] in {'-', '+', '*'} && IsJsSpace(line[1]))
    || (var n := Digits(line); n > 0 && n + 1 < |line| && line[n] == '.' && IsJsSpace(line[n + 1]))
  }

  predicate StartsQuote(line: string) {
    line != "" && line[0] == '>'
  }

  /** The text up to the first newline. */
  function FirstLine(text: string): string {
    if text == "" || text[0] == '\n' then "" else [text[0]] + FirstLine(text[1..])
  }

  predicate Indented(line: string) {
    2 <= Lead(IsJsSpace, line) < |line|
  }

  /** The list or quote that `current` begins is taken up again by the next line with text. */
  predicate Continues(current: string, next: string) {
    var first := FirstLine(TrimStart(IsJsSpace, current));
    var trimmed := TrimStart(IsJsSpace, next);
    || (StartsItem(first) && (StartsItem(trimmed) || Indented(next)))
    || (StartsQuote(first) && StartsQuote(trimmed))
  }

  const MARKDOWN := Rules(BlankLine, Advance, Continues)

  // ----- lines and references

  function Lines(content: string, start: nat): seq<string>
    requires start <= |content|
    decreases |content| - start
  {
    if start == |content| then []
    else [content[start..LineEnd(content, start)]] + Lines(content, LineEnd(content, start))
  }

  /** A reference-style link or a footnote: at the start of a line, a label in brackets and a colon. */
  predicate ReferenceAt(content: string, p: nat, q: nat, e: nat) {
    && p <= q && q + 1 < e && e + 1 < |content|
    && (p == 0 || content[p - 1] in {'\n', '\r', '\U{2028}', '\U{2029}'})
    && (forall k :: p <= k < q ==> IsJsSpace(content[k]))
    && content[q] == '[' && content[e] == ']' && content[e + 1] == ':'
    && (forall k :: q < k < e ==> content[k] != ']')
  }

  predicate HasReference(content: string) {
    exists p: nat, q: nat, e: nat | p < |content| && q < |content| && e < |content| :: ReferenceAt(content, p, q, e)
  }

  function Blocks(content: string): seq<string> {
    if HasReference(content) then (if BlankLine(content) then [] else [content])
    else NonBlank(MARKDOWN, Pieces(MARKDOWN, Lines(content, 0), 0))
  }

  // ----- the splitter

  /** The lines of the text, as the pattern finds them. */
  method CollectLines(content: string) returns (lines: seq<string>)
    ensures lines == Lines(content, 0)
  {
    lines := [];
    var start := 0;
    while start < |content|
      invariant start <= |content|
      invariant lines + Lines(content, start) == Lines(content, 0)
    {
      var end := LineEnd(content, start);
      Regroup(lines, [content[start..end]], Lines(content, end));
      lines := lines + [content[start..end]];
      start := end;
    }
  }

  method SplitMarkdownBlocks(content: string) returns (blocks: seq<string>)
    ensures blocks == Blocks(content)
  {
    if HasReference(content) {
      if BlankLine(content) {
        return [];
      }
      return [content];
    }
    var lines := CollectLines(content);
    blocks := SplitLines(MARKDOWN, lines);
  }

  // ----- nothing but whitespace is lost

  lemma {:induction false} LinesHoldTheText(content: string, start: nat)
    requires start <= |content|
    ensures Flatten(Lines(content, start)) == content[start..]
    decreases |content| - start
  {
    if start < |content| {
      var end := LineEnd(content, start);
      LinesHoldTheText(content, end);
      assert content[start..] == content[start..end] + content[end..];
    }
  }

  lemma BlankIsInkless(line: string)
    ensures BlankLine(line) <==> Blank(IsJsSpace, line)
  {
    BlankIffTrimsToNothing(IsJsSpace, line);
  }

  lemma {:induction false} NonBlankKeepsInk(pieces: seq<string>)
    ensures Ink(IsJsSpace, Flatten(NonBlank(MARKDOWN, pieces))) == Ink(IsJsSpace, Flatten(pieces))
  {
    if pieces != [] {
      var rest := NonBlank(MARKDOWN, pieces[1..]);
      NonBlankKeepsInk(pieces[1..]);
      InkConcat(IsJsSpace, pieces[0], Flatten(pieces[1..]));
      InkConcat(IsJsSpace, pieces[0], Flatten(rest));
      if BlankLine(pieces[0]) {
        BlankIsInkless(pieces[0]);
        InkOfBlank(IsJsSpace, pieces[0]);
        assert NonBlank(MARKDOWN, pieces) == rest;
      } else {
        assert NonBlank(MARKDOWN, pieces) == [pieces[0]] + rest;
        assert ([pieces[0]] + rest)[1..] == rest;
      }
    }
  }

  /** The pieces are the whole text; the blocks are the pieces with text, and hold all of it. */
  lemma BlocksHoldTheText(content: string)
    ensures Flatten(Pieces(MARKDOWN, Lines(content, 0), 0)) == content
    ensures Ink(IsJsSpace, Flatten(Blocks(content))) == Ink(IsJsSpace, content)
  {
    var lines := Lines(content, 0);
    PiecesHoldTheLines(MARKDOWN, lines, 0);
    assert lines[0..] == lines && content[0..] == content;
    LinesHoldTheText(content, 0);
    NonBlankKeepsInk(Pieces(MARKDOWN, lines, 0));
    if HasReference(content) {
      assert Flatten([content]) == content;
      if BlankLine(content) {
        BlankIsInkless(content);
        InkOfBlank(IsJsSpace, content);
      }
    }
  }

  // ----- text that arrives later

  /**
   * A text without a reference is cut only behind blank lines at which fence and math are closed, and every piece but
   * the last leaves them closed when it is rendered on its own; the blocks are the pieces that are not blank.
   */
  lemma CutsAreSafe(content: string)
    ensures var lines := Lines(content, 0);
            CutSafely(MARKDOWN, lines, Bounds(MARKDOWN, lines, 0), Pieces(MARKDOWN, lines, 0))
    ensures !HasReference(content) ==> Blocks(content) == NonBlank(MARKDOWN, Pieces(MARKDOWN, Lines(content, 0), 0))
  {
    PiecesAreCutSafely(MARKDOWN, Lines(content, 0));
  }


  lemma BlankIsAdditive()
    ensures Additive(MARKDOWN.blank)
  {
    forall a: string, b: string
      ensures MARKDOWN.blank(a + b) == (MARKDOWN.blank(a) && MARKDOWN.blank(b))
    {
      BlankIsInkless(a);
      BlankIsInkless(b);
      BlankIsInkless(a + b);
      if Blank(IsJsSpace, a + b) {
        assert forall k :: 0 <= k < |a| ==> a[k] == (a + b)[k];
        assert forall k :: 0 <= k < |b| ==> b[k] == (a + b)[|a| + k];
      }
    }
  }

  lemma {:induction false} LineEndOfMore(content: string, more: string, start: nat)
    requires start < |content| && content[|content| - 1] == '\n'
    ensures LineEnd(content + more, start) == LineEnd(content, start)
    decreases |content| - start
  {
    if content[start] != '\n' {
      LineEndOfMore(content, more, start + 1);
    }
  }

  lemma {:induction false} LineEndShifted(content: string, more: string, start: nat)
    requires start <= |more|
    ensures LineEnd(content + more, |content| + start) == |content| + LineEnd(more, start)
    decreases |more| - start
  {
    if start < |more| && more[start] != '\n' {
      LineEndShifted(content, more, start + 1);
    }
  }

  lemma FirstLineOf(content: string, start: nat)
    requires start < |content|
    ensures Lines(content, start) == [content[start..LineEnd(content, start)]] + Lines(content, LineEnd(content, start))
  {
  }

  lemma ShiftedSlice(content: string, more: string, start: nat, end: nat)
    requires start <= end <= |more|
    ensures (content + more)[|content| + start..|content| + end] == more[start..end]
  {
  }

  lemma {:induction false} LinesShifted(content: string, more: string, start: nat)
    requires start <= |more|
    ensures Lines(content + more, |content| + start) == Lines(more, start)
    decreases |more| - start
  {
    if start < |more| {
      var end := LineEnd(more, start);
      LineEndShifted(content, more, start);
      LinesShifted(content, more, end);
      FirstLineOf(more, start);
      FirstLineOf(content + more, |content| + start);
      ShiftedSlice(content, more, start, end);
    }
  }

  lemma {:induction false} LinesOfMore(content: string, more: string, start: nat)
    requires start <= |content| && content != "" && content[|content| - 1] == '\n'
    ensures Lines(content + more, start) == Lines(content, start) + Lines(more, 0)
    decreases |content| - start
  {
    if start == |content| {
      LinesShifted(content, more, 0);
    } else {
      var end := LineEnd(content, start);
      LineEndOfMore(content, more, start);
      LinesOfMore(content, more, end);
      FirstLineOf(content, start);
      FirstLineOf(content + more, start);
      assert (content + more)[start..end] == content[start..end];
      Regroup([content[start..end]], Lines(content, end), Lines(more, 0));
    }
  }

  lemma ReferenceStays(content: string, more: string)
    requires HasReference(content)
    ensures HasReference(content + more)
  {
    var p: nat, q: nat, e: nat :| p < |content| && q < |content| && e < |content| && ReferenceAt(content, p, q, e);
    assert ReferenceAt(content + more, p, q, e);
  }

  /**
   * While a message streams in, all blocks but the last stay as they are, whatever text follows whole lines,
   * unless a reference-style link makes it one block.
   */
  lemma CompletedBlocksStay(content: string, more: string)
    requires content != "" && content[|content| - 1] == '\n'
    requires !HasReference(content + more) && Blocks(content) != []
    ensures Blocks(content)[..|Blocks(content)| - 1] <= Blocks(content + more)
  {
    if HasReference(content) {
      ReferenceStays(content, more);
    } else {
      BlankIsAdditive();
      LinesOfMore(content, more, 0);
      FinishedBlocksStay(MARKDOWN, Lines(content, 0), Lines(more, 0), 0);
    }
  }
}
