/** Normalizing twice, for texts without code (src/components/MarkdownMessage.tsx, normalizeLatexDelimiters). */
module LatexCodeFree {
  import opened MarkdownLines
  import opened LatexScanner
  import opened LatexTwice

  // ----- texts in which nothing can be code

  /** Fewer than four spaces in a row; `gap` of them come before. */
  predicate ShortGaps(gap: nat, s: string)
    decreases |s|
  {
    s != "" ==> if s[0] == ' ' then gap + 1 < 4 && ShortGaps(gap + 1, s[1..]) else ShortGaps(0, s[1..])
  }

  /** How many spaces the text ends with, those before it included. */
  function GapAfter(gap: nat, s: string): nat
    decreases |s|
  {
    if s == "" then gap else GapAfter(if s[0] == ' ' then gap + 1 else 0, s[1..])
  }

  /** No backtick, no tilde, no tab. */
  predicate NoMarks(s: string) {
    forall c <- s :: c != '`' && c != '~' && c != '\t'
  }

  predicate CodeFree(s: string) {
    NoMarks(s) && ShortGaps(0, s)
  }

  lemma {:induction false} GapsConcat(gap: nat, a: string, b: string)
    ensures ShortGaps(gap, a + b) <==> ShortGaps(gap, a) && ShortGaps(GapAfter(gap, a), b)
    ensures GapAfter(gap, a + b) == GapAfter(GapAfter(gap, a), b)
    decreases |a|
  {
    if a == "" {
      assert a + b == b;
    } else {
      assert (a + b)[1..] == a[1..] + b;
      GapsConcat(if a[0] == ' ' then gap + 1 else 0, a[1..], b);
    }
  }

  lemma {:induction false} SmallerGap(less: nat, gap: nat, s: string)
    requires less <= gap && ShortGaps(gap, s)
    ensures ShortGaps(less, s) && GapAfter(less, s) <= GapAfter(gap, s)
    decreases |s|
  {
    if s != "" {
      if s[0] == ' ' {
        SmallerGap(less + 1, gap + 1, s[1..]);
      } else {
        SmallerGap(0, 0, s[1..]);
      }
    }
  }

  lemma {:induction false} FillerGaps(gap: nat, s: string)
    requires IsFiller(s)
    ensures ShortGaps(gap, s) && GapAfter(gap, s) == if s == "" then gap else 0
    decreases |s|
  {
    if s != "" {
      assert s[0] in s && forall c <- s[1..] :: c in s;
      FillerGaps(0, s[1..]);
    }
  }

  lemma {:induction false} SpacesFit(gap: nat, s: string, n: nat)
    requires n <= |s| && (forall k :: 0 <= k < n ==> s[k] == ' ') && ShortGaps(gap, s)
    ensures n > 0 ==> gap + n < 4
    decreases n
  {
    if n > 0 {
      SpacesFit(gap + 1, s[1..], n - 1);
    }
  }

  // ----- rewriting makes no code

  lemma PieceIsCodeFree(output: string, span: Segment, rest: string, gap: nat)
    requires span.MathSpan? && CodeFree(span.content)
    ensures ShortGaps(gap, Piece(output, span, rest)) && GapAfter(gap, Piece(output, span, rest)) == 0
    ensures NoMarks(Piece(output, span, rest))
  {
    var before, kept, after, first, last := PieceParts(output, span, rest);
    BetweenFillers(first, kept, last);
    WrappedIsCodeFree(gap, before, kept, after);
  }

  lemma BetweenFillers(first: string, kept: string, last: string)
    requires IsFiller(first) && IsFiller(last) && CodeFree(first + kept + last)
    ensures CodeFree(kept)
  {
    GapsConcat(0, first + kept, last);
    GapsConcat(0, first, kept);
    FillerGaps(0, first);
    MarksConcat(first + kept, last);
    MarksConcat(first, kept);
  }

  lemma WrappedIsCodeFree(gap: nat, before: string, kept: string, after: string)
    requires IsFiller(before) && IsFiller(after) && before != "" && after != "" && CodeFree(kept)
    ensures ShortGaps(gap, before + kept + after) && GapAfter(gap, before + kept + after) == 0
    ensures NoMarks(before + kept + after)
  {
    FillerGaps(gap, before);
    FillerGaps(GapAfter(0, kept), after);
    GapsConcat(gap, before + kept, after);
    GapsConcat(gap, before, kept);
    MarksConcat(before + kept, after);
    MarksConcat(before, kept);
  }

  lemma DelimiterEndsGap(gap: nat, c: char)
    requires c != ' '
    ensures GapAfter(gap, ['\\', c]) == 0
  {
    var rest := ['\\', c][1..];
    assert rest == [c] && rest[1..] == "";
    assert GapAfter(0, rest) == GapAfter(0, rest[1..]);
  }

  /** The content of a span, seen from its source. */
  lemma ContentIsCodeFree(span: Segment, gap: nat)
    requires span.MathSpan? && ShortGaps(gap, Raw(span)) && NoMarks(Raw(span))
    ensures CodeFree(span.content)
  {
    var open, close := ['\\', Opener(span.display)], ['\\', Closer(span.display)];
    GapsConcat(gap, open + span.content, close);
    GapsConcat(gap, open, span.content);
    DelimiterEndsGap(gap, Opener(span.display));
    assert forall c <- span.content :: c in Raw(span);
  }

  lemma MarksConcat(a: string, b: string)
    ensures NoMarks(a + b) <==> NoMarks(a) && NoMarks(b)
  {
    assert forall c :: c in a + b <==> c in a || c in b;
  }

  lemma {:induction false} RewritingIsCodeFree(output: string, segments: seq<Segment>, gap: nat)
    requires CodeFree(output) && GapAfter(0, output) <= gap
    requires NoMarks(AllRaw(segments)) && ShortGaps(gap, AllRaw(segments))
    ensures CodeFree(Rewritten(output, segments))
    decreases |segments|
  {
    if segments != [] {
      var span, rest := segments[0], AllRaw(segments[1..]);
      var piece := Piece(output, span, rest);
      var here, there := GapAfter(0, output), GapAfter(gap, Raw(span));
      GapsConcat(gap, Raw(span), rest);
      MarksConcat(Raw(span), rest);
      if span.MathSpan? {
        ContentIsCodeFree(span, gap);
        PieceIsCodeFree(output, span, rest, here);
      } else {
        SmallerGap(here, gap, piece);
      }
      GapsConcat(0, output, piece);
      MarksConcat(output, piece);
      RewritingIsCodeFree(output + piece, segments[1..], there);
    }
  }

  lemma NormalizedIsCodeFree(source: string)
    requires CodeFree(source)
    ensures CodeFree(Normalized(source))
  {
    SegmentsCoverTheSource(source, 0);
    assert source[0..] == source;
    RewritingIsCodeFree("", Segments(source, 0), 0);
  }

  // ----- where spans begin in such a text

  lemma NoFence(line: string)
    requires NoMarks(line)
    ensures FenceAtLineStart(line).NoMarker?
  {
    var body := Body(line);
    var indent := RunLength(body, 0, ' ');
    if indent < |body| {
      assert body[indent] == line[indent] && line[indent] in line;
    }
  }

  lemma {:induction false} GapsFrom(gap: nat, s: string, i: nat)
    requires i <= |s| && ShortGaps(gap, s)
    ensures ShortGaps(0, s[i..])
  {
    GapsConcat(gap, s[..i], s[i..]);
    assert s == s[..i] + s[i..];
    SmallerGap(0, GapAfter(gap, s[..i]), s[i..]);
  }

  lemma NoIndent(source: string, index: nat)
    requires index <= |source| && CodeFree(source)
    ensures !IndentedCode(LineAt(source, index))
  {
    var line := LineAt(source, index);
    var n := RunLength(line, 0, ' ');
    GapsFrom(0, source, index);
    assert forall k :: 0 <= k < n ==> source[index..][k] == line[k];
    SpacesFit(0, source[index..], n);
    if line != "" {
      assert line[0] == source[index] && source[index] in source;
    }
  }

  lemma KindInCodeFree(source: string, index: nat)
    requires index < |source| && CodeFree(source)
    ensures KindAt(source, index).Plain? || KindAt(source, index).MathOpener?
    ensures KindAt(source, index).MathOpener? <==> OpensAt(source, index)
  {
    var line := LineAt(source, index);
    assert forall c <- line :: c in source;
    NoFence(line);
    NoIndent(source, index);
    assert source[index] in source;
  }

  /** The first opener has no closer of its kind after it. */
  predicate FirstIsLone(delimiters: string)
    decreases |delimiters|
  {
    delimiters != "" ==>
      if delimiters[0] == '(' then ')' !in delimiters[1..]
      else if delimiters[0] == '[' then ']' !in delimiters[1..]
      else FirstIsLone(delimiters[1..])
  }

  /** Openers are not behind their backslash here. */
  predicate NotBehindOpener(source: string, index: nat)
    requires index <= |source|
  {
    EscapedAt(source, index) && index < |source| ==> source[index] != '(' && source[index] != '['
  }

  lemma FindCloseIff(source: string, index: nat, c: char)
    requires index <= |source| && !EscapedAt(source, index) && IsDelimiter(c)
    ensures c in Delimiters(false, source[index..]) <==> FindClose(source, index, c).Some?
  {
    DelimiterReadIff(source, index, |source|, c);
    assert source[index..|source|] == source[index..];
  }

  lemma OpenerDecides(source: string, index: nat)
    requires index < |source| && OpensAt(source, index)
    ensures NoSpan(Segments(source, index)) ==> FirstIsLone(Delimiters(EscapedAt(source, index), source[index..]))
    ensures FirstIsLone(Delimiters(EscapedAt(source, index), source[index..])) ==> NoSpan(Segments(source, index))
  {
    var display := Unescaped(source, index, '[');
    var tail := Delimiters(false, source[index + 2..]);
    EscapedNext(source, index);
    EscapedNext(source, index + 1);
    ReadFrom(source, index, Opener(display));
    assert ([Opener(display)] + tail)[1..] == tail;
    FindCloseIff(source, index + 2, Closer(display));
    OpenerKind(source, index, display);
    SegmentsOfKind(source, index, MathOpener(display));
    DecidedByCloser(source, index, display);
  }

  lemma DecidedByCloser(source: string, index: nat, display: bool)
    requires index < |source| && KindOk(source, index, MathOpener(display))
    ensures var rest := Segments(source, NextOf(source, index, MathOpener(display)));
            NoSpan([SegmentOf(source, index, MathOpener(display))] + rest)
            <==> FindClose(source, index + 2, Closer(display)).None?
  {
    var segment := SegmentOf(source, index, MathOpener(display));
    var rest := Segments(source, NextOf(source, index, MathOpener(display)));
    assert segment in [segment] + rest;
    if FindClose(source, index + 2, Closer(display)).None? {
      assert [segment] + rest == [segment];
    }
  }

  lemma PlainStep(source: string, index: nat)
    requires index < |source| && CodeFree(source) && !OpensAt(source, index) && NotBehindOpener(source, index)
    ensures NoSpan(Segments(source, index)) <==> NoSpan(Segments(source, index + 1))
    ensures NotBehindOpener(source, index + 1)
    ensures FirstIsLone(Delimiters(EscapedAt(source, index), source[index..]))
        <==> FirstIsLone(Delimiters(EscapedAt(source, index + 1), source[index + 1..]))
  {
    KindInCodeFree(source, index);
    SegmentsOfKind(source, index, Plain);
    var segment, rest := SegmentOf(source, index, Plain), Segments(source, index + 1);
    assert forall each :: each in [segment] + rest <==> each == segment || each in rest;
    if index + 1 < |source| {
      UnescapedIff(source, index, '(');
      UnescapedIff(source, index, '[');
    }
    DelimitersStep(source, index, |source|);
    assert source[index..|source|] == source[index..] && source[index + 1..|source|] == source[index + 1..];
    SkipCloser(source[index], Delimiters(EscapedAt(source, index + 1), source[index + 1..]));
  }

  lemma SkipCloser(c: char, rest: string)
    ensures c != '(' && c != '[' ==> (FirstIsLone([c] + rest) <==> FirstIsLone(rest))
    ensures "" + rest == rest
  {
    assert ([c] + rest)[1..] == rest;
  }

  /** In a text without code a span begins exactly at the first opener that has a closer, if no lone one comes first. */
  lemma {:induction false} SpanIff(source: string, index: nat)
    requires index <= |source| && CodeFree(source) && NotBehindOpener(source, index)
    ensures NoSpan(Segments(source, index)) <==> FirstIsLone(Delimiters(EscapedAt(source, index), source[index..]))
    decreases |source| - index
  {
    if index < |source| {
      if OpensAt(source, index) {
        OpenerDecides(source, index);
      } else {
        PlainStep(source, index);
        SpanIff(source, index + 1);
      }
    }
  }

  /**
   * For a text without code, normalizing twice is normalizing once exactly when the first left-over opener has no
   * left-over closer of its kind after it.
   */
  lemma CodeFreeIdempotentIff(source: string)
    requires CodeFree(source)
    ensures Normalized(Normalized(source)) == Normalized(source) <==> FirstIsLone(Leftovers(source))
  {
    NormalizedIsCodeFree(source);
    NormalizingLeaves(source);
    NoSpanIff(Normalized(source));
    IdentityIff(Normalized(source));
  }

  lemma NoSpanIff(source: string)
    requires CodeFree(source)
    ensures NoSpan(Segments(source, 0)) <==> FirstIsLone(Delimiters(false, source))
  {
    SpanIff(source, 0);
    assert source[0..] == source;
  }
}
