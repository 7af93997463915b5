/** Where code stands in a text, in characters (src/components/MarkdownMessage.tsx, normalizeLatexDelimiters). */
module LatexCode {
  import opened Sequences
  import opened MarkdownLines
  import opened LatexScanner

  // ----- lines, runs and fences

  /** The characters from `b` to `e` are a line, with its newline if it has one. */
  predicate IsLine(source: string, b: nat, e: nat) {
    && b < e <= |source|
    && (b == 0 || source[b - 1] == '\n')
    && (forall k :: b <= k < e - 1 ==> source[k] != '\n')
    && (e < |source| ==> source[e - 1] == '\n')
  }

  /** The line break at the end of a line begins at `t`. */
  predicate BreakStarts(source: string, b: nat, e: nat, t: nat) {
    && b < e <= |source| && b <= t <= e
    && if source[e - 1] != '\n' then t == e
       else if b + 1 < e && source[e - 2] == '\r' then t == e - 2
       else t == e - 1
  }

  predicate AllAre(source: string, b: nat, e: nat, c: char) {
    b <= e <= |source| && forall k :: b <= k < e ==> source[k] == c
  }

  /** The line is at most three spaces, exactly `n` marks, at least three of them, and something without a break. */
  predicate IsFenceLine(source: string, b: nat, e: nat, c: char, n: nat, indent: nat, t: nat) {
    && IsLine(source, b, e) && BreakStarts(source, b, e, t)
    && (c == '`' || c == '~') && n >= 3 && indent <= 3 && b + indent + n <= t
    && AllAre(source, b, b + indent, ' ') && AllAre(source, b + indent, b + indent + n, c)
    && (b + indent + n < t ==> source[b + indent + n] != c)
    && forall k :: b <= k < t ==> source[k] != '\r'
  }

  ghost predicate OpensFence(source: string, b: nat, e: nat, c: char, n: nat) {
    exists indent: nat, t: nat :: IsFenceLine(source, b, e, c, n, indent, t)
  }

  /** The line is at most three spaces, at least `n` marks, and then only blanks. */
  ghost predicate ClosesFence(source: string, b: nat, e: nat, c: char, n: nat) {
    exists m: nat, indent: nat, t: nat ::
      && m >= n && IsFenceLine(source, b, e, c, m, indent, t)
      && forall k :: b + indent + m <= k < t ==> source[k] == ' ' || source[k] == '\t'
  }

  /** Fenced text from `start` on ends with the first line that closes the fence, or with the whole text. */
  ghost predicate FencedTo(source: string, start: nat, c: char, n: nat, end: nat) {
    && start <= end <= |source|
    && (forall b: nat, e: nat :: start <= b && e < end && IsLine(source, b, e) ==> !ClosesFence(source, b, e, c, n))
    && (end < |source| ==> exists b: nat :: start <= b && ClosesFence(source, b, end, c, n))
  }

  // ----- fences as the scanner reads them

  lemma LineIs(source: string, b: nat)
    requires b < |source| && AtLineStart(source, b)
    ensures IsLine(source, b, LineEnd(source, b))
  {
  }

  lemma LineIsOnly(source: string, b: nat, e: nat)
    requires IsLine(source, b, e)
    ensures e == LineEnd(source, b)
  {
  }

  lemma BodyIs(source: string, b: nat, e: nat) returns (t: nat)
    requires b < e <= |source|
    ensures BreakStarts(source, b, e, t) && Body(source[b..e]) == source[b..t]
  {
    var line := source[b..e];
    t := b + |Body(line)|;
    assert line[|line| - 1] == source[e - 1];
    if |line| > 1 {
      assert line[|line| - 2] == source[e - 2];
    }
  }

  lemma {:induction false} RunIs(text: string, i: nat, c: char, n: nat)
    requires i + n <= |text| && (forall k :: i <= k < i + n ==> text[k] == c)
    requires i + n < |text| ==> text[i + n] != c
    ensures RunLength(text, i, c) == n
    decreases n
  {
    if n > 0 {
      RunIs(text, i + 1, c, n - 1);
    }
  }

  /** What the scanner takes for a fence line is one. */
  lemma MarkerIsFence(source: string, b: nat, e: nat) returns (indent: nat, t: nat)
    requires IsLine(source, b, e) && FenceAtLineStart(source[b..e]).Marker?
    ensures var marker := FenceAtLineStart(source[b..e]);
            && IsFenceLine(source, b, e, marker.mark, marker.length, indent, t)
            && (marker.canClose <==>
                forall k :: b + indent + marker.length <= k < t ==> source[k] == ' ' || source[k] == '\t')
  {
    t := BodyIs(source, b, e);
    var body := source[b..t];
    indent := RunLength(body, 0, ' ');
    assert forall k :: b <= k < t ==> source[k] == body[k - b];
  }

  lemma {:induction false} RunIsAtLeast(text: string, i: nat, c: char, n: nat)
    requires i + n <= |text| && forall k :: i <= k < i + n ==> text[k] == c
    ensures RunLength(text, i, c) >= n
    decreases n
  {
    if n > 0 {
      RunIsAtLeast(text, i + 1, c, n - 1);
    }
  }

  lemma MarkerOf(line: string, c: char, n: nat, indent: nat)
    requires var body := Body(line);
             && (c == '`' || c == '~') && n >= 3 && indent <= 3 && indent + n <= |body|
             && (forall k :: 0 <= k < indent ==> body[k] == ' ')
             && (forall k :: indent <= k < indent + n ==> body[k] == c)
             && (indent + n < |body| ==> body[indent + n] != c)
             && forall k :: 0 <= k < |body| ==> body[k] != '\r' && body[k] != '\n'
    ensures var marker, body := FenceAtLineStart(line), Body(line);
            && marker.Marker? && marker.mark == c && marker.length == n
            && (marker.canClose <==> forall k :: indent + n <= k < |body| ==> body[k] == ' ' || body[k] == '\t')
  {
    RunIs(Body(line), 0, ' ', indent);
    RunIs(Body(line), indent, c, n);
  }

  /** A fence line is what the scanner takes for one. */
  lemma FenceIsMarker(source: string, b: nat, e: nat, c: char, n: nat, indent: nat, t: nat)
    requires IsFenceLine(source, b, e, c, n, indent, t)
    ensures var marker := FenceAtLineStart(source[b..e]);
            && marker.Marker? && marker.mark == c && marker.length == n
            && (marker.canClose <==>
                forall k :: b + indent + n <= k < t ==> source[k] == ' ' || source[k] == '\t')
  {
    var u := BodyIs(source, b, e);
    assert u == t;
    SliceIs(source, b, t);
    MarkerOf(source[b..e], c, n, indent);
    if FenceAtLineStart(source[b..e]).canClose {
      forall k | b + indent + n <= k < t
        ensures source[k] == ' ' || source[k] == '\t'
      {
        assert source[k] == Body(source[b..e])[k - b];
      }
    }
  }

  lemma SliceIs(source: string, b: nat, t: nat)
    requires b <= t <= |source|
    ensures forall k :: 0 <= k < t - b ==> source[b..t][k] == source[b + k]
  {
  }

  lemma OpensIff(source: string, b: nat, e: nat)
    requires IsLine(source, b, e)
    ensures var marker := FenceAtLineStart(source[b..e]);
            marker.Marker? ==> OpensFence(source, b, e, marker.mark, marker.length)
    ensures forall c, n: nat :: OpensFence(source, b, e, c, n) ==>
              var marker := FenceAtLineStart(source[b..e]);
              marker.Marker? && marker.mark == c && marker.length == n
  {
    if FenceAtLineStart(source[b..e]).Marker? {
      var indent, t := MarkerIsFence(source, b, e);
    }
    forall c, n: nat | OpensFence(source, b, e, c, n)
      ensures var marker := FenceAtLineStart(source[b..e]);
              marker.Marker? && marker.mark == c && marker.length == n
    {
      var indent: nat, t: nat :| IsFenceLine(source, b, e, c, n, indent, t);
      FenceIsMarker(source, b, e, c, n, indent, t);
    }
  }

  lemma ClosesIff(source: string, b: nat, e: nat, fence: Marker)
    requires IsLine(source, b, e) && fence.Marker?
    ensures Closes(FenceAtLineStart(source[b..e]), fence) <==> ClosesFence(source, b, e, fence.mark, fence.length)
  {
    if Closes(FenceAtLineStart(source[b..e]), fence) {
      var indent, t := MarkerIsFence(source, b, e);
    }
    if ClosesFence(source, b, e, fence.mark, fence.length) {
      var m: nat, indent: nat, t: nat :|
        && m >= fence.length && IsFenceLine(source, b, e, fence.mark, m, indent, t)
        && forall k :: b + indent + m <= k < t ==> source[k] == ' ' || source[k] == '\t';
      FenceIsMarker(source, b, e, fence.mark, m, indent, t);
    }
  }

  lemma LaterLine(source: string, start: nat, b: nat, e: nat)
    requires start < |source| && AtLineStart(source, start) && start <= b && IsLine(source, b, e)
    ensures b == start || b >= LineEnd(source, start)
    ensures b == start ==> e == LineEnd(source, start)
  {
  }

  /** The scanner's end of a fenced block is the first line that closes it, or the end of the text. */
  lemma {:induction false} FenceEndIs(source: string, start: nat, fence: Marker)
    requires start <= |source| && (start == |source| || AtLineStart(source, start)) && fence.Marker?
    ensures FencedTo(source, start, fence.mark, fence.length, FenceEnd(source, start, fence))
    decreases |source| - start
  {
    if start < |source| {
      var e, end := LineEnd(source, start), FenceEnd(source, start, fence);
      LineIs(source, start);
      ClosesIff(source, start, e, fence);
      if !Closes(FenceAtLineStart(source[start..e]), fence) {
        FenceEndIs(source, e, fence);
      }
      forall p: nat, q: nat | start <= p && q < end && IsLine(source, p, q)
        ensures !ClosesFence(source, p, q, fence.mark, fence.length)
      {
        LaterLine(source, start, p, q);
      }
    }
  }

  // ----- inline code

  /** A run of exactly `n` backticks. */
  predicate IsRun(source: string, p: nat, n: nat) {
    && p + n <= |source| && AllAre(source, p, p + n, '`')
    && (p > 0 ==> source[p - 1] != '`') && (p + n < |source| ==> source[p + n] != '`')
  }

  /** Inline code of `n` backticks ends behind the first run of as many, or with the text. */
  ghost predicate CodeTo(source: string, start: nat, n: nat, end: nat) {
    && start <= end <= |source|
    && (forall p: nat :: start <= p && p + n < end ==> !IsRun(source, p, n))
    && (end < |source| ==> start + n <= end && IsRun(source, end - n, n))
  }

  lemma {:induction false} InlineCodeEndIs(source: string, start: nat, n: nat)
    requires 0 < start <= |source| && n > 0
    requires start < |source| ==> source[start - 1] != '`' || source[start] != '`'
    ensures CodeTo(source, start, n, InlineCodeEnd(source, start, n))
    decreases |source| - start
  {
    if start < |source| {
      var end := InlineCodeEnd(source, start, n);
      if source[start] != '`' {
        InlineCodeEndIs(source, start + 1, n);
      } else {
        var m := RunLength(source, start, '`');
        if m != n {
          InlineCodeEndIs(source, start + m, n);
        }
      }
    }
  }

  // ----- what begins at a point

  /** An indented line: a tab, or four spaces. */
  predicate IsIndented(source: string, b: nat, e: nat) {
    IsLine(source, b, e) && (source[b] == '\t' || (b + 4 <= e && AllAre(source, b, b + 4, ' ')))
  }

  /** A fenced block: its first line opens a fence, and it goes on to the line that closes that fence. */
  ghost predicate IsFenced(source: string, i: nat, next: nat) {
    exists e: nat, c: char, n: nat :: OpensFence(source, i, e, c, n) && FencedTo(source, e, c, n, next)
  }

  ghost predicate StartsFence(source: string, i: nat) {
    exists e: nat, c: char, n: nat :: OpensFence(source, i, e, c, n)
  }

  ghost predicate StartsIndented(source: string, i: nat) {
    exists e: nat :: IsIndented(source, i, e)
  }

  /** Inline code: a run of backticks, and the text to the next run of as many. */
  ghost predicate IsInlineCode(source: string, i: nat, next: nat) {
    exists n: nat :: IsCodeOf(source, i, n, next)
  }

  ghost predicate IsCodeOf(source: string, i: nat, n: nat, next: nat) {
    && n > 0 && i + n <= |source| && AllAre(source, i, i + n, '`') && (i + n < |source| ==> source[i + n] != '`')
    && CodeTo(source, i + n, n, next)
  }

  /** The first unescaped closer from `start` on. */
  predicate IsFirstCloser(source: string, start: nat, c: char, q: nat) {
    start <= q && Unescaped(source, q, c) && forall k :: start <= k < q ==> !Unescaped(source, k, c)
  }

  /** A span that ends with closer `q`. */
  predicate IsSpan(source: string, i: nat, display: bool, q: nat, segment: Segment, next: nat) {
    && i + 2 <= q && q + 2 == next <= |source| && segment == MathSpan(display, source[i + 2..q])
    && IsFirstCloser(source, i + 2, if display then ']' else ')', q)
  }

  ghost predicate HasCloser(source: string, start: nat, c: char) {
    exists q: nat :: IsFirstCloser(source, start, c, q)
  }

  /** An opener: a span up to its first closer, or without one all the rest of the text as it is. */
  ghost predicate IsMath(source: string, i: nat, display: bool, segment: Segment, next: nat) {
    if HasCloser(source, i + 2, if display then ']' else ')') then
      exists q: nat :: IsSpan(source, i, display, q, segment, next)
    else next == |source| && i <= next && segment == Verbatim(source[i..next])
  }

  /** What is read at a point outside code and math. */
  ghost predicate Reads(source: string, i: nat, segment: Segment, next: nat)
    requires i < |source|
  {
    && i < next <= |source|
    && if StartsFence(source, i) then segment == Verbatim(source[i..next]) && IsFenced(source, i, next)
       else if StartsIndented(source, i) then segment == Verbatim(source[i..next]) && IsLine(source, i, next)
       else if source[i] == '`' then segment == Verbatim(source[i..next]) && IsInlineCode(source, i, next)
       else if Unescaped(source, i, '(') then IsMath(source, i, false, segment, next)
       else if Unescaped(source, i, '[') then IsMath(source, i, true, segment, next)
       else next == i + 1 && segment == Verbatim(source[i..next])
  }

  /** The whole text, read from a point outside code and math. */
  ghost predicate ReadAs(source: string, i: nat, segments: seq<Segment>)
    decreases |segments|
  {
    if segments == [] then i == |source|
    else i < |source| && exists next: nat :: Reads(source, i, segments[0], next) && ReadAs(source, next, segments[1..])
  }

  lemma FenceStartIff(source: string, i: nat)
    requires i < |source|
    ensures StartsFence(source, i) <==> AtLineStart(source, i) && FenceAtLineStart(LineAt(source, i)).Marker?
  {
    if AtLineStart(source, i) {
      LineIs(source, i);
      OpensIff(source, i, LineEnd(source, i));
    }
    if StartsFence(source, i) {
      var e: nat, c: char, n: nat :| OpensFence(source, i, e, c, n);
      LineIsOnly(source, i, e);
      OpensIff(source, i, e);
    }
  }

  lemma IndentedIff(source: string, i: nat)
    requires i < |source|
    ensures StartsIndented(source, i) <==> AtLineStart(source, i) && IndentedCode(LineAt(source, i))
  {
    if AtLineStart(source, i) {
      LineIs(source, i);
      SpacesIff(source, i, LineEnd(source, i));
    }
    if StartsIndented(source, i) {
      var e: nat :| IsIndented(source, i, e);
      LineIsOnly(source, i, e);
    }
  }

  lemma SpacesIff(source: string, b: nat, e: nat)
    requires IsLine(source, b, e)
    ensures IndentedCode(source[b..e]) <==> IsIndented(source, b, e)
  {
    var line := source[b..e];
    SliceIs(source, b, e);
    if IsIndented(source, b, e) && source[b] != '\t' {
      RunIsAtLeast(line, 0, ' ', 4);
    }
  }

  lemma FenceReads(source: string, i: nat)
    requires i < |source| && StartsFence(source, i)
    ensures Reads(source, i, SegmentAt(source, i), NextIndex(source, i))
  {
    FenceStartIff(source, i);
    LineIs(source, i);
    var e, fence := LineEnd(source, i), FenceAtLineStart(LineAt(source, i));
    OpensIff(source, i, e);
    FenceEndIs(source, e, fence);
    assert OpensFence(source, i, e, fence.mark, fence.length)
        && FencedTo(source, e, fence.mark, fence.length, FenceEnd(source, e, fence));
  }

  lemma CodeReads(source: string, i: nat)
    requires i < |source| && KindAt(source, i).Backticks?
    ensures IsInlineCode(source, i, NextIndex(source, i))
  {
    var n := RunLength(source, i, '`');
    InlineCodeEndIs(source, i + n, n);
    assert IsCodeOf(source, i, n, NextIndex(source, i));
  }

  lemma MathReads(source: string, i: nat, display: bool)
    requires i < |source| && KindAt(source, i) == MathOpener(display)
    ensures IsMath(source, i, display, SegmentAt(source, i), NextIndex(source, i))
  {
    var c := Closer(display);
    var close := FindClose(source, i + 2, c);
    if close.Some? {
      assert IsFirstCloser(source, i + 2, c, close.value);
      assert IsSpan(source, i, display, close.value, SegmentAt(source, i), NextIndex(source, i));
    }
  }

  /** What the scanner reads at a point is what stands there. */
  lemma SegmentReads(source: string, i: nat)
    requires i < |source|
    ensures Reads(source, i, SegmentAt(source, i), NextIndex(source, i))
  {
    FenceStartIff(source, i);
    IndentedIff(source, i);
    var kind := KindAt(source, i);
    match kind {
      case FenceLine(_) => FenceReads(source, i);
      case CodeLine => LineIs(source, i);
      case Backticks => CodeReads(source, i);
      case MathOpener(display) => MathReads(source, i, display);
      case Plain =>
    }
  }

  lemma ReadOneMore(source: string, i: nat, segment: Segment, next: nat, rest: seq<Segment>)
    requires i < |source| && Reads(source, i, segment, next) && ReadAs(source, next, rest)
    ensures ReadAs(source, i, [segment] + rest)
  {
    assert ([segment] + rest)[1..] == rest;
  }

  /** The scanner cuts the text into the code, the spans and the characters that stand there. */
  lemma {:induction false} SegmentsAreRead(source: string, i: nat)
    requires i <= |source|
    ensures ReadAs(source, i, Segments(source, i))
    decreases |source| - i
  {
    if i < |source| {
      var next := NextIndex(source, i);
      SegmentReads(source, i);
      SegmentsAreRead(source, next);
      ReadOneMore(source, i, SegmentAt(source, i), next, Segments(source, next));
    }
  }

  // ----- how a span is written

  predicate IsBreak(s: string) {
    s == "" || s == "\n" || s == "\r\n"
  }

  predicate BeginsWithBreak(s: string) {
    (s != "" && s[0] == '\n') || (|s| > 1 && s[0] == '\r' && s[1] == '\n')
  }

  /** The content without one line break at its beginning and one at its end, as long as they can be. */
  predicate IsKept(content: string, first: string, kept: string, last: string) {
    && content == first + kept + last && IsBreak(first) && IsBreak(last)
    && (first == "" ==> !BeginsWithBreak(content))
    && (last == "" ==> kept == "" || kept[|kept| - 1] != '\n')
    && (last == "\n" ==> kept == "" || kept[|kept| - 1] != '\r')
  }

  lemma FirstBreakIs(content: string) returns (first: string)
    ensures content == first + DropFirstBreak(content) && IsBreak(first)
    ensures first == "" ==> !BeginsWithBreak(content)
  {
    first := if DropFirstBreak(content) == content then "" else if content[0] == '\n' then "\n" else "\r\n";
  }

  lemma LastBreakIs(line: string) returns (last: string)
    ensures line == Body(line) + last && IsBreak(last)
    ensures last == "" ==> Body(line) == "" || Body(line)[|Body(line)| - 1] != '\n'
    ensures last == "\n" ==> Body(line) == "" || Body(line)[|Body(line)| - 1] != '\r'
  {
    last := if Body(line) == line then "" else if |Body(line)| + 1 == |line| then "\n" else "\r\n";
  }

  /** A display span is written on lines of its own, between double dollar signs, without its outer line breaks. */
  lemma DisplayIsWritten(output: string, content: string, rest: string)
    returns (first: string, kept: string, last: string)
    ensures IsKept(content, first, kept, last)
    ensures Piece(output, MathSpan(true, content), rest)
         == (if output == "" || output[|output| - 1] == '\n' then "" else "\n")
            + "$$\n" + kept + "\n$$" + (if rest == "" || rest[0] == '\n' then "" else "\n")
  {
    first := FirstBreakIs(content);
    kept := Body(DropFirstBreak(content));
    last := LastBreakIs(DropFirstBreak(content));
    Regroup(first, kept, last);
  }

  lemma InlineIsWritten(output: string, content: string, rest: string)
    ensures Piece(output, MathSpan(false, content), rest) == ['$'] + content + ['$']
  {
  }
}
