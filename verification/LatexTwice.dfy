/** Normalizing a text twice (src/components/MarkdownMessage.tsx, normalizeLatexDelimiters). */
module LatexTwice {
  import opened Sequences
  import opened MarkdownLines
  import opened LatexScanner

  // ----- the unescaped delimiters of a text, in order

  predicate IsDelimiter(c: char) {
    c in {'(', ')', '[', ']'}
  }

  /** Whether a text leaves its next character escaped, when `escaped` says so of its first. */
  function Escapes(escaped: bool, s: string): bool
    decreases |s|
  {
    if s == "" then escaped else Escapes(!escaped && s[0] == '\\', s[1..])
  }

  /** The characters of the unescaped delimiters, read from left to right. */
  function Delimiters(escaped: bool, s: string): string
    decreases |s|
  {
    if s == "" then ""
    else
      (if escaped && IsDelimiter(s[0]) then [s[0]] else "")
      + Delimiters(!escaped && s[0] == '\\', s[1..])
  }

  lemma {:induction false} ReadConcat(escaped: bool, a: string, b: string)
    ensures Escapes(escaped, a + b) == Escapes(Escapes(escaped, a), b)
    ensures Delimiters(escaped, a + b) == Delimiters(escaped, a) + Delimiters(Escapes(escaped, a), b)
    decreases |a|
  {
    if a == "" {
      assert a + b == b;
    } else {
      assert (a + b)[1..] == a[1..] + b;
      ReadConcat(!escaped && a[0] == '\\', a[1..], b);
    }
  }

  /** Whether the character at `index` is escaped. */
  function EscapedAt(source: string, index: nat): bool
    requires index <= |source|
  {
    SlashesBefore(source, index) % 2 == 1
  }

  lemma EscapedNext(source: string, index: nat)
    requires index < |source|
    ensures EscapedAt(source, index + 1) == (!EscapedAt(source, index) && source[index] == '\\')
  {
  }

  lemma {:induction false} EscapesIsEscapedAt(source: string, i: nat, j: nat)
    requires i <= j <= |source|
    ensures Escapes(EscapedAt(source, i), source[i..j]) == EscapedAt(source, j)
    decreases j - i
  {
    if i < j {
      EscapedNext(source, i);
      EscapesIsEscapedAt(source, i + 1, j);
      assert source[i..j][1..] == source[i + 1..j];
    }
  }

  /** An unescaped delimiter stands in a stretch of the source. */
  predicate StandsIn(source: string, i: nat, j: nat, c: char) {
    exists k :: i <= k && k + 1 < j && Unescaped(source, k, c)
  }

  lemma StandsInStep(source: string, i: nat, j: nat, c: char)
    requires i < j <= |source|
    ensures StandsIn(source, i, j, c) <==> (i + 1 < j && Unescaped(source, i, c)) || StandsIn(source, i + 1, j, c)
  {
  }

  lemma DelimitersStep(source: string, i: nat, j: nat)
    requires i < j <= |source|
    ensures Delimiters(EscapedAt(source, i), source[i..j])
         == (if EscapedAt(source, i) && IsDelimiter(source[i]) then [source[i]] else "")
            + Delimiters(EscapedAt(source, i + 1), source[i + 1..j])
  {
    EscapedNext(source, i);
    assert source[i..j][1..] == source[i + 1..j];
  }

  lemma UnescapedIff(source: string, i: nat, c: char)
    requires i + 1 < |source|
    ensures Unescaped(source, i, c) <==> EscapedAt(source, i + 1) && source[i + 1] == c
  {
    EscapedNext(source, i);
  }

  /** A delimiter is read in a stretch exactly when one stands there, or the stretch begins behind its backslash. */
  lemma {:induction false} DelimiterReadIff(source: string, i: nat, j: nat, c: char)
    requires i <= j <= |source| && IsDelimiter(c)
    ensures c in Delimiters(EscapedAt(source, i), source[i..j]) <==>
              (EscapedAt(source, i) && i < j && source[i] == c) || StandsIn(source, i, j, c)
    decreases j - i
  {
    if i < j {
      DelimitersStep(source, i, j);
      DelimiterReadIff(source, i + 1, j, c);
      StandsInStep(source, i, j, c);
      if i + 1 < j {
        UnescapedIff(source, i, c);
      }
    }
  }

  // ----- what rewriting leaves of them

  /** The delimiters of a segment, without the two of a span. */
  function Inner(escaped: bool, segment: Segment): string {
    match segment
    case Verbatim(text) => Delimiters(escaped, text)
    case MathSpan(_, content) => Delimiters(false, content)
  }

  /** Whether a segment leaves the next character escaped; a span never does. */
  function EscapesBehind(escaped: bool, segment: Segment): bool {
    segment.Verbatim? && Escapes(escaped, segment.text)
  }

  /** The delimiters of a text that are not the two of one of its spans. */
  function LeftOver(escaped: bool, segments: seq<Segment>): string
    decreases |segments|
  {
    if segments == [] then ""
    else Inner(escaped, segments[0]) + LeftOver(EscapesBehind(escaped, segments[0]), segments[1..])
  }

  function Leftovers(source: string): string {
    LeftOver(false, Segments(source, 0))
  }

  /** No span begins or ends behind a backslash. */
  predicate Unbroken(escaped: bool, segments: seq<Segment>)
    decreases |segments|
  {
    segments != [] ==>
      && (segments[0].MathSpan? ==> !escaped && !Escapes(false, segments[0].content))
      && Unbroken(EscapesBehind(escaped, segments[0]), segments[1..])
  }

  lemma SpanIsUnbroken(source: string, index: nat)
    requires index < |source| && SegmentAt(source, index).MathSpan?
    ensures !EscapedAt(source, index) && !EscapedAt(source, NextIndex(source, index))
    ensures !Escapes(false, SegmentAt(source, index).content)
  {
    var close := SpansAreClosed(source, index);
    BehindDelimiter(source, index, Opener(SegmentAt(source, index).display));
    EscapesIsEscapedAt(source, index + 2, close);
    BehindDelimiter(source, close, Closer(SegmentAt(source, index).display));
  }

  lemma BehindDelimiter(source: string, index: nat, c: char)
    requires Unescaped(source, index, c) && c != '\\'
    ensures !EscapedAt(source, index) && !EscapedAt(source, index + 2)
  {
    EscapedNext(source, index);
    EscapedNext(source, index + 1);
  }

  lemma VerbatimText(source: string, index: nat)
    requires index < |source| && SegmentAt(source, index).Verbatim?
    ensures SegmentAt(source, index).text == source[index..NextIndex(source, index)]
  {
    SegmentIsItsSource(source, index, KindAt(source, index));
  }

  lemma {:induction false} SegmentsAreUnbroken(source: string, index: nat)
    requires index <= |source|
    ensures Unbroken(EscapedAt(source, index), Segments(source, index))
    decreases |source| - index
  {
    if index < |source| {
      var next := NextIndex(source, index);
      SegmentsAreUnbroken(source, next);
      assert Segments(source, index)[1..] == Segments(source, next);
      if SegmentAt(source, index).MathSpan? {
        SpanIsUnbroken(source, index);
      } else {
        VerbatimText(source, index);
        EscapesIsEscapedAt(source, index, next);
      }
    }
  }

  /** Line breaks and dollar signs are no delimiters, and end an escape. */
  predicate IsFiller(s: string) {
    forall c <- s :: c == '\n' || c == '\r' || c == '$'
  }

  lemma {:induction false} FillerReads(escaped: bool, s: string)
    requires IsFiller(s)
    ensures Delimiters(escaped, s) == ""
    ensures s != "" ==> !Escapes(escaped, s)
    decreases |s|
  {
    if s != "" {
      assert s[0] in s && forall c <- s[1..] :: c in s;
      FillerReads(false, s[1..]);
    }
  }

  /** Fillers around a text change neither its delimiters nor where it leads. */
  lemma Wrapped(before: string, text: string, after: string)
    requires IsFiller(before) && IsFiller(after) && after != ""
    ensures Delimiters(false, before + text + after) == Delimiters(false, text)
    ensures !Escapes(false, before + text + after)
  {
    FillerReads(false, before);
    FillerReads(Escapes(false, text), after);
    ReadConcat(false, before + text, after);
    ReadConcat(false, before, text);
    assert !Escapes(false, before) by {
      if before != "" { FillerReads(false, before); }
    }
  }

  /** A display span's content is its first and last breaks around what is written. */
  lemma ContentParts(content: string) returns (first: string, last: string)
    ensures content == first + Body(DropFirstBreak(content)) + last
    ensures IsFiller(first) && IsFiller(last)
  {
    first := FirstBreak(content);
    last := LastBreak(DropFirstBreak(content));
    Regroup(first, Body(DropFirstBreak(content)), last);
  }

  lemma FirstBreak(content: string) returns (first: string)
    ensures content == first + DropFirstBreak(content) && IsFiller(first)
  {
    first := if DropFirstBreak(content) == content then ""
             else if content[0] == '\n' then "\n" else "\r\n";
  }

  lemma LastBreak(line: string) returns (last: string)
    ensures line == Body(line) + last && IsFiller(last)
  {
    last := if Body(line) == line then ""
            else if |Body(line)| + 1 == |line| then "\n" else "\r\n";
  }

  /** A piece of a span: its content without the outer breaks, between fillers. */
  lemma PieceParts(output: string, span: Segment, rest: string)
    returns (before: string, kept: string, after: string, first: string, last: string)
    requires span.MathSpan?
    ensures Piece(output, span, rest) == before + kept + after && span.content == first + kept + last
    ensures IsFiller(before) && IsFiller(after) && before != "" && after != ""
    ensures IsFiller(first) && IsFiller(last)
  {
    if span.display {
      first, last := ContentParts(span.content);
      kept := Body(DropFirstBreak(span.content));
      var lead := if output != "" && output[|output| - 1] != '\n' then "\n" else "";
      var trail := if rest != "" && rest[0] != '\n' then "\n" else "";
      before, after := lead + "$$\n", "\n$$" + trail;
      Regroup(lead + "$$\n" + kept, "\n$$", trail);
    } else {
      before, kept, after, first, last := "$", span.content, "$", "", "";
    }
  }

  lemma KeptReads(first: string, kept: string, last: string)
    requires IsFiller(first) && IsFiller(last)
    ensures Delimiters(false, first + kept + last) == Delimiters(false, kept)
  {
    FillerReads(false, first);
    FillerReads(Escapes(false, kept), last);
    ReadConcat(false, first + kept, last);
    ReadConcat(false, first, kept);
  }

  lemma PieceReads(output: string, span: Segment, rest: string)
    requires span.MathSpan?
    ensures Delimiters(false, Piece(output, span, rest)) == Delimiters(false, span.content)
    ensures !Escapes(false, Piece(output, span, rest))
  {
    var before, kept, after, first, last := PieceParts(output, span, rest);
    Wrapped(before, kept, after);
    KeptReads(first, kept, last);
  }

  lemma SegmentLeaves(output: string, segment: Segment, rest: string)
    requires segment.MathSpan? ==> !Escapes(false, output)
    ensures var written := output + Piece(output, segment, rest);
            && Delimiters(false, written) == Delimiters(false, output) + Inner(Escapes(false, output), segment)
            && Escapes(false, written) == EscapesBehind(Escapes(false, output), segment)
  {
    ReadConcat(false, output, Piece(output, segment, rest));
    if segment.MathSpan? {
      PieceReads(output, segment, rest);
    }
  }

  /** The rewritten text has exactly the delimiters that are left over. */
  lemma {:induction false} RewritingLeaves(output: string, segments: seq<Segment>)
    requires Unbroken(Escapes(false, output), segments)
    ensures Delimiters(false, Rewritten(output, segments))
         == Delimiters(false, output) + LeftOver(Escapes(false, output), segments)
    decreases |segments|
  {
    if segments != [] {
      var escaped, rest := Escapes(false, output), AllRaw(segments[1..]);
      SegmentLeaves(output, segments[0], rest);
      RewritingLeaves(output + Piece(output, segments[0], rest), segments[1..]);
      Regroup(Delimiters(false, output), Inner(escaped, segments[0]),
              LeftOver(EscapesBehind(escaped, segments[0]), segments[1..]));
    }
  }

  lemma NormalizingLeaves(source: string)
    ensures Delimiters(false, Normalized(source)) == Leftovers(source)
  {
    SegmentsAreUnbroken(source, 0);
    RewritingLeaves("", Segments(source, 0));
  }

  // ----- a text whose left-over delimiters do not pair is normalized once and for all

  /** No opener comes before a closer of its kind. */
  predicate NoPair(delimiters: string) {
    forall i, j, display :: 0 <= i < j < |delimiters| && delimiters[i] == Opener(display) ==>
      delimiters[j] != Closer(display)
  }

  /** The delimiters read around two of them. */
  lemma ReadAround(source: string, p: nat, q: nat, c: char, d: char) returns (a: string, b: string, e: string)
    requires p + 2 <= q && Unescaped(source, p, c) && Unescaped(source, q, d) && IsDelimiter(c) && IsDelimiter(d)
    ensures Delimiters(false, source) == a + [c] + b + [d] + e
  {
    a := Delimiters(false, source[..p]);
    b := Delimiters(false, source[p + 2..q]);
    e := Delimiters(false, source[q + 2..]);
    ReadFrom(source, q, d);
    ReadTo(source, p, q, c);
    EscapesIsEscapedAt(source, 0, q);
    ReadConcat(false, source[..q], source[q..]);
    assert source[0..q] == source[..q] && source == source[..q] + source[q..];
    Regroup(a + [c] + b, [d], e);
  }

  /** What is read from an unescaped delimiter on. */
  lemma ReadFrom(source: string, q: nat, d: char)
    requires Unescaped(source, q, d) && IsDelimiter(d)
    ensures Delimiters(false, source[q..]) == [d] + Delimiters(false, source[q + 2..])
  {
    assert source[q..][1..] == source[q + 1..] && source[q + 1..][1..] == source[q + 2..];
    assert source[q..][0] == '\\' && source[q + 1..][0] == d;
    assert Delimiters(false, source[q..]) == "" + Delimiters(true, source[q + 1..]);
  }

  lemma ReadTo(source: string, p: nat, q: nat, c: char)
    requires p + 2 <= q <= |source| && Unescaped(source, p, c) && IsDelimiter(c)
    ensures Delimiters(false, source[..q])
         == Delimiters(false, source[..p]) + [c] + Delimiters(false, source[p + 2..q])
  {
    var head := source[..q];
    EscapesIsEscapedAt(source, 0, p);
    ReadConcat(false, source[..p], source[p..q]);
    assert source[0..p] == source[..p] && head == source[..p] + source[p..q];
    assert source[p..q][1..] == source[p + 1..q] && source[p + 1..q][1..] == source[p + 2..q];
    assert source[p..q][0] == '\\' && source[p + 1..q][0] == c;
    assert Delimiters(false, source[p..q]) == "" + Delimiters(true, source[p + 1..q]);
    Regroup(Delimiters(false, source[..p]), [c], Delimiters(false, source[p + 2..q]));
  }

  lemma PairIn(a: string, b: string, e: string, display: bool)
    ensures !NoPair(a + [Opener(display)] + b + [Closer(display)] + e)
  {
    var all := a + [Opener(display)] + b + [Closer(display)] + e;
    assert all[|a|] == Opener(display) && all[|a| + 1 + |b|] == Closer(display);
  }

  /** A text whose unescaped delimiters do not pair holds no span. */
  lemma {:induction false} UnpairedHasNoSpan(source: string, index: nat)
    requires index <= |source| && NoPair(Delimiters(false, source))
    ensures NoSpan(Segments(source, index))
    decreases |source| - index
  {
    if index < |source| {
      UnpairedHasNoSpan(source, NextIndex(source, index));
      if SegmentAt(source, index).MathSpan? {
        SpanIsPair(source, index);
      }
    }
  }

  lemma SpanIsPair(source: string, index: nat)
    requires index < |source| && SegmentAt(source, index).MathSpan?
    ensures !NoPair(Delimiters(false, source))
  {
    var display := SegmentAt(source, index).display;
    var close := SpansAreClosed(source, index);
    var a, b, e := ReadAround(source, index, close, Opener(display), Closer(display));
    PairIn(a, b, e, display);
  }

  /** If no left-over opener comes before a left-over closer of its kind, normalizing twice is normalizing once. */
  lemma UnpairedIsIdempotent(source: string)
    requires NoPair(Leftovers(source))
    ensures Normalized(Normalized(source)) == Normalized(source)
  {
    NormalizingLeaves(source);
    UnpairedHasNoSpan(Normalized(source), 0);
    IdentityIff(Normalized(source));
  }

  lemma PlainLine(source: string, index: nat)
    requires index < |source| && source[index] !in {' ', '\t', '\r', '\n', '`', '~'}
    ensures FenceAtLineStart(LineAt(source, index)).NoMarker? && !IndentedCode(LineAt(source, index))
  {
    var line := LineAt(source, index);
    assert line[0] == source[index];
    assert Body(line)[0] == line[0];
    assert RunLength(line, 0, ' ') == 0;
  }

  lemma PlainSegment(source: string, index: nat)
    requires index < |source| && source[index] !in {' ', '\t', '\r', '\n', '`', '~'}
    requires !Unescaped(source, index, '(') && !Unescaped(source, index, '[')
    ensures Segments(source, index) == [Verbatim([source[index]])] + Segments(source, index + 1)
  {
    PlainLine(source, index);
    assert KindAt(source, index) == Plain;
    assert source[index..index + 1] == [source[index]];
  }

  lemma OpenerKind(source: string, index: nat, display: bool)
    requires index < |source| && Unescaped(source, index, Opener(display))
    ensures KindAt(source, index) == MathOpener(display)
  {
    PlainLine(source, index);
  }

  lemma OpenerOf(source: string, index: nat, display: bool, q: nat)
    requires index < |source| && KindOk(source, index, MathOpener(display))
    requires FindClose(source, index + 2, Closer(display)) == Some(q)
    ensures SegmentOf(source, index, MathOpener(display)) == MathSpan(display, source[index + 2..q])
    ensures NextOf(source, index, MathOpener(display)) == q + 2
  {
  }

  lemma SegmentsOfKind(source: string, index: nat, kind: Kind)
    requires index < |source| && KindOk(source, index, kind) && KindAt(source, index) == kind
    ensures Segments(source, index)
         == [SegmentOf(source, index, kind)] + Segments(source, NextOf(source, index, kind))
  {
  }

  lemma ClosedSegment(source: string, index: nat, display: bool, q: nat)
    requires index < |source| && Unescaped(source, index, Opener(display))
    requires FindClose(source, index + 2, Closer(display)) == Some(q)
    ensures Segments(source, index) == [MathSpan(display, source[index + 2..q])] + Segments(source, q + 2)
  {
    OpenerKind(source, index, display);
    OpenerOf(source, index, display, q);
    SegmentsOfKind(source, index, MathOpener(display));
  }

  lemma FirstCloser(source: string, index: nat, q: nat, c: char)
    requires index <= q && Unescaped(source, q, c)
    requires forall k :: index <= k < q ==> !Unescaped(source, k, c)
    ensures FindClose(source, index, c) == Some(q)
  {
  }

  /** An inline span that holds a display opener, with a display closer after it. */
  lemma NestedSegments(source: string)
    requires source == "\\(\\[\\)\\]"
    ensures Segments(source, 0) == [MathSpan(false, "\\["), Verbatim("\\"), Verbatim("]")]
  {
    FirstCloser(source, 2, 4, ')');
    assert source[2..4] == "\\[";
    ClosedSegment(source, 0, false, 4);
    PlainSegment(source, 6);
    PlainSegment(source, 7);
  }

  lemma RewrittenThree(span: Segment, x: string, y: string)
    requires span.MathSpan? && !span.display
    ensures Rewritten("", [span, Verbatim(x), Verbatim(y)]) == "$" + span.content + "$" + x + y
  {
    var second, last := [Verbatim(x), Verbatim(y)], [Verbatim(y)];
    assert [span, Verbatim(x), Verbatim(y)][1..] == second && second[1..] == last;
    var written := "$" + span.content + "$";
    assert "" + written == written;
    assert Rewritten(written + x + y, []) == written + x + y;
    assert last[1..] == [];
    assert Rewritten(written + x, last) == written + x + y;
    assert Rewritten(written, second) == written + x + y;
  }

  lemma DisplaySpanInside(source: string)
    requires source == "$\\[$\\]"
    ensures !NoSpan(Segments(source, 0))
  {
    FirstCloser(source, 3, 4, ']');
    PlainSegment(source, 0);
    ClosedSegment(source, 1, true, 4);
    assert MathSpan(true, source[3..4]) in Segments(source, 1);
    assert MathSpan(true, source[3..4]) in Segments(source, 0);
  }

  /** Normalizing twice can differ from normalizing once: what is left of a span may form a new one. */
  lemma NotIdempotent(source: string)
    requires source == "\\(\\[\\)\\]"
    ensures Normalized(Normalized(source)) != Normalized(source)
  {
    NestedSegments(source);
    RewrittenThree(MathSpan(false, "\\["), "\\", "]");
    DisplaySpanInside(Normalized(source));
    IdentityIff(Normalized(source));
  }

  // ----- in particular when every opener starts a segment

  /** A segment of the text starts at `p`. */
  predicate IsStart(source: string, index: nat, p: nat)
    requires index <= |source|
    decreases |source| - index
  {
    p == index || (index < |source| && IsStart(source, NextIndex(source, index), p))
  }

  predicate OpensAt(source: string, p: nat) {
    Unescaped(source, p, '(') || Unescaped(source, p, '[')
  }

  /** No opener stands in code, in a span's content, or behind an opener without a closer. */
  predicate OpenersStart(source: string) {
    forall p :: 0 <= p < |source| && OpensAt(source, p) ==> IsStart(source, 0, p)
  }

  lemma {:induction false} StartsFromNext(source: string, index: nat, p: nat)
    requires index < |source| && index < p && IsStart(source, index, p)
    ensures IsStart(source, NextIndex(source, index), p)
  {
  }

  lemma {:induction false} StartsAreLater(source: string, index: nat, p: nat)
    requires index <= |source| && IsStart(source, index, p)
    ensures index <= p
    decreases |source| - index
  {
    if p != index {
      StartsAreLater(source, NextIndex(source, index), p);
    }
  }

  predicate OpenersStartFrom(source: string, index: nat)
    requires index <= |source|
  {
    && (forall p :: index <= p < |source| && OpensAt(source, p) ==> IsStart(source, index, p))
    && (EscapedAt(source, index) && index < |source| ==> source[index] != '(' && source[index] != '[')
  }

  lemma OpenersAreNotInside(source: string, index: nat, p: nat)
    requires index < |source| && OpenersStartFrom(source, index) && index < p < |source| && OpensAt(source, p)
    ensures NextIndex(source, index) <= p && IsStart(source, NextIndex(source, index), p)
  {
    StartsFromNext(source, index, p);
    StartsAreLater(source, NextIndex(source, index), p);
  }

  lemma OpenerIsLong(source: string, index: nat)
    requires index < |source| && OpensAt(source, index)
    ensures KindAt(source, index).MathOpener? && index + 2 <= NextIndex(source, index)
  {
    OpenerKind(source, index, Unescaped(source, index, '['));
  }

  lemma NotLast(source: string, index: nat)
    requires index < |source| && OpenersStartFrom(source, index)
    ensures !OpensAt(source, NextIndex(source, index) - 1)
  {
    var last := NextIndex(source, index) - 1;
    if OpensAt(source, last) {
      if index < last {
        OpenersAreNotInside(source, index, last);
      } else {
        OpenerIsLong(source, index);
      }
      assert false;
    }
  }

  lemma BehindNoOpener(source: string, next: nat)
    requires 0 < next < |source| && !OpensAt(source, next - 1) && EscapedAt(source, next)
    ensures source[next] != '(' && source[next] != '['
  {
    UnescapedIff(source, next - 1, '(');
    UnescapedIff(source, next - 1, '[');
  }

  lemma NotAcross(source: string, index: nat)
    requires index < |source| && OpenersStartFrom(source, index)
    ensures var next := NextIndex(source, index);
            EscapedAt(source, next) && next < |source| ==> source[next] != '(' && source[next] != '['
  {
    var next := NextIndex(source, index);
    if next < |source| {
      NotLast(source, index);
      if EscapedAt(source, next) {
        BehindNoOpener(source, next);
      }
    }
  }

  lemma OpenersStartNext(source: string, index: nat)
    requires index < |source| && OpenersStartFrom(source, index)
    ensures OpenersStartFrom(source, NextIndex(source, index))
  {
    NotAcross(source, index);
    forall p | NextIndex(source, index) <= p < |source| && OpensAt(source, p)
      ensures IsStart(source, NextIndex(source, index), p)
    {
      OpenersAreNotInside(source, index, p);
    }
  }

  predicate NoOpener(delimiters: string) {
    '(' !in delimiters && '[' !in delimiters
  }

  lemma NoOpenerFirst(a: string, b: string)
    requires NoOpener(a) && NoPair(b)
    ensures NoPair(a + b)
  {
    var all := a + b;
    NoOpenerAt(a);
    forall i, j, display | 0 <= i < j < |all| && all[i] == Opener(display)
      ensures all[j] != Closer(display)
    {
      assert b[i - |a|] == Opener(display) && all[j] == b[j - |a|];
    }
  }

  lemma NoOpenerAt(delimiters: string)
    requires NoOpener(delimiters)
    ensures forall i :: 0 <= i < |delimiters| ==> delimiters[i] != '(' && delimiters[i] != '['
  {
    assert forall i :: 0 <= i < |delimiters| ==> delimiters[i] in delimiters;
  }

  /** A stretch with no opener in it, nor across its start, reads none. */
  lemma StretchWithoutOpener(source: string, i: nat, j: nat)
    requires i <= j <= |source|
    requires EscapedAt(source, i) && i < j ==> source[i] != '(' && source[i] != '['
    requires forall k :: i <= k < j ==> !OpensAt(source, k)
    ensures NoOpener(Delimiters(EscapedAt(source, i), source[i..j]))
  {
    DelimiterReadIff(source, i, j, '(');
    DelimiterReadIff(source, i, j, '[');
    forall k | i <= k && k + 1 < j
      ensures !Unescaped(source, k, '(') && !Unescaped(source, k, '[')
    {
      assert !OpensAt(source, k);
    }
  }

  /** Behind an opener without a closer nothing is left to pair. */
  lemma OpenTailIsUnpaired(source: string, index: nat, display: bool)
    requires index < |source| && Unescaped(source, index, Opener(display))
    requires FindClose(source, index + 2, Closer(display)).None?
    requires forall k :: index < k < |source| ==> !OpensAt(source, k)
    ensures NoPair(Delimiters(EscapedAt(source, index), source[index..]))
  {
    var tail := Delimiters(false, source[index + 2..]);
    EscapedNext(source, index);
    EscapedNext(source, index + 1);
    ReadFrom(source, index, Opener(display));
    assert source[index + 2..|source|] == source[index + 2..];
    DelimiterReadIff(source, index + 2, |source|, Closer(display));
    StretchWithoutOpener(source, index + 2, |source|);
    OpenerAlone(Opener(display), tail, display);
  }

  lemma OpenerAlone(c: char, tail: string, display: bool)
    requires c == Opener(display) && NoOpener(tail) && Closer(display) !in tail
    ensures NoPair([c] + tail)
  {
    var all := [c] + tail;
    NoOpenerAt(tail);
    forall i, j, kind | 0 <= i < j < |all| && all[i] == Opener(kind)
      ensures all[j] != Closer(kind)
    {
      assert i == 0;
      assert all[j] in tail;
    }
  }

  lemma {:induction false} StartingOpenersLeaveNoPair(source: string, index: nat)
    requires index <= |source| && OpenersStartFrom(source, index)
    ensures NoPair(LeftOver(EscapedAt(source, index), Segments(source, index)))
    decreases |source| - index
  {
    if index < |source| {
      var next := NextIndex(source, index);
      OpenersStartNext(source, index);
      StartingOpenersLeaveNoPair(source, next);
      assert Segments(source, index)[1..] == Segments(source, next);
      if SegmentAt(source, index).MathSpan? {
        SpanLeavesNoOpener(source, index);
        NoOpenerFirst(Delimiters(false, SegmentAt(source, index).content), LeftOver(false, Segments(source, next)));
      } else {
        VerbatimLeaves(source, index);
      }
    }
  }

  /** If every opener starts a segment, normalizing twice is normalizing once. */
  lemma StartingOpenersAreIdempotent(source: string)
    requires OpenersStart(source)
    ensures Normalized(Normalized(source)) == Normalized(source)
  {
    StartingOpenersLeaveNoPair(source, 0);
    UnpairedIsIdempotent(source);
  }

  lemma SpanLeavesNoOpener(source: string, index: nat)
    requires index < |source| && OpenersStartFrom(source, index) && SegmentAt(source, index).MathSpan?
    ensures NoOpener(Delimiters(false, SegmentAt(source, index).content))
    ensures !EscapedAt(source, NextIndex(source, index))
  {
    var close := SpansAreClosed(source, index);
    SpanIsUnbroken(source, index);
    EscapedNext(source, index);
    EscapedNext(source, index + 1);
    forall k | index + 2 <= k < close
      ensures !OpensAt(source, k)
    {
      if OpensAt(source, k) {
        OpenersAreNotInside(source, index, k);
        assert false;
      }
    }
    StretchWithoutOpener(source, index + 2, close);
  }

  lemma VerbatimLeaves(source: string, index: nat)
    requires index < |source| && OpenersStartFrom(source, index) && SegmentAt(source, index).Verbatim?
    requires NoPair(LeftOver(EscapedAt(source, NextIndex(source, index)), Segments(source, NextIndex(source, index))))
    ensures NoPair(LeftOver(EscapedAt(source, index), Segments(source, index)))
  {
    var next := NextIndex(source, index);
    var text, rest := source[index..next], LeftOver(EscapedAt(source, next), Segments(source, next));
    VerbatimText(source, index);
    EscapesIsEscapedAt(source, index, next);
    assert Segments(source, index)[1..] == Segments(source, next);
    assert LeftOver(EscapedAt(source, index), Segments(source, index))
        == Delimiters(EscapedAt(source, index), text) + rest;
    if OpensAt(source, index) {
      TailLeaves(source, index);
      assert source[index..|source|] == source[index..];
      assert Delimiters(EscapedAt(source, index), text) + "" == Delimiters(EscapedAt(source, index), text);
    } else {
      forall k | index <= k < next
        ensures !OpensAt(source, k)
      {
        if k > index && OpensAt(source, k) {
          OpenersAreNotInside(source, index, k);
          assert false;
        }
      }
      StretchWithoutOpener(source, index, next);
      NoOpenerFirst(Delimiters(EscapedAt(source, index), text), rest);
    }
  }

  lemma TailLeaves(source: string, index: nat)
    requires index < |source| && OpenersStartFrom(source, index) && SegmentAt(source, index).Verbatim?
    requires OpensAt(source, index)
    ensures NextIndex(source, index) == |source|
    ensures NoPair(Delimiters(EscapedAt(source, index), source[index..]))
  {
    OpenerIsLong(source, index);
    var display := KindAt(source, index).display;
    forall k | index < k < |source|
      ensures !OpensAt(source, k)
    {
      if OpensAt(source, k) {
        OpenersAreNotInside(source, index, k);
        assert false;
      }
    }
    OpenTailIsUnpaired(source, index, display);
  }
}
