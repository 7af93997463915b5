/** Rewriting TeX delimiters outside code (src/components/MarkdownMessage.tsx, normalizeLatexDelimiters). */
module LatexScanner {
  import opened Sequences
  import opened MarkdownLines

  // ----- escaped delimiters

  /** How many backslashes stand right before `index`. */
  function SlashesBefore(source: string, index: nat): (n: nat)
    requires index <= |source|
    ensures n <= index
    ensures forall k :: index - n <= k < index ==> source[k] == '\\'
    ensures n < index ==> source[index - n - 1] != '\\'
  {
    if index > 0 && source[index - 1] == '\\' then 1 + SlashesBefore(source, index - 1) else 0
  }

  /** A backslash and `c` at `index`, the backslash itself not escaped. */
  predicate Unescaped(source: string, index: nat, c: char) {
    && index + 1 < |source|
    && source[index] == '\\' && source[index + 1] == c
    && SlashesBefore(source, index) % 2 == 0
  }

  method IsUnescapedLatexDelimiter(source: string, index: nat, c: char) returns (b: bool)
    requires index < |source|
    ensures b == Unescaped(source, index, c)
  {
    if source[index] != '\\' || index + 1 >= |source| || source[index + 1] != c {
      return false;
    }
    var slashCount, cursor := 0, index;
    while cursor > 0 && source[cursor - 1] == '\\'
      invariant 0 <= cursor <= index
      invariant slashCount + SlashesBefore(source, cursor) == SlashesBefore(source, index)
    {
      slashCount, cursor := slashCount + 1, cursor - 1;
    }
    return slashCount % 2 == 0;
  }

  // ----- the reference: from each point, look ahead to the end of what starts there

  datatype Segment = Verbatim(text: string) | MathSpan(display: bool, content: string)

  function Opener(display: bool): char { if display then '[' else '(' }

  function Closer(display: bool): char { if display then ']' else ')' }

  /** The first unescaped closing delimiter from `index` on. */
  function FindClose(source: string, index: nat, c: char): (q: Option<nat>)
    requires index <= |source|
    ensures q.Some? ==> index <= q.value && Unescaped(source, q.value, c)
    ensures q.Some? ==> forall k :: index <= k < q.value ==> !Unescaped(source, k, c)
    ensures q.None? ==> forall k :: index <= k ==> !Unescaped(source, k, c)
    decreases |source| - index
  {
    if index == |source| then None
    else if Unescaped(source, index, c) then Some(index)
    else FindClose(source, index + 1, c)
  }

  /** The end of the fenced block whose next line starts at `index`. */
  function FenceEnd(source: string, index: nat, fence: Marker): (end: nat)
    requires index <= |source|
    ensures index <= end <= |source|
    decreases |source| - index
  {
    if index == |source| then index
    else
      var end := LineEnd(source, index);
      if Closes(FenceAtLineStart(source[index..end]), fence) then end else FenceEnd(source, end, fence)
  }

  /** The end of inline code: after the next run of exactly `length` backticks. */
  function InlineCodeEnd(source: string, index: nat, length: nat): (end: nat)
    requires index <= |source|
    ensures index <= end <= |source|
    decreases |source| - index
  {
    if index == |source| then index
    else if source[index] != '`' then InlineCodeEnd(source, index + 1, length)
    else
      var n := RunLength(source, index, '`');
      if n == length then index + n else InlineCodeEnd(source, index + n, length)
  }

  function LineAt(source: string, index: nat): string
    requires index <= |source|
  {
    source[index..LineEnd(source, index)]
  }

  /** What begins at a point in normal mode. */
  datatype Kind = FenceLine(fence: Marker) | CodeLine | Backticks | MathOpener(display: bool) | Plain

  function KindAt(source: string, index: nat): (kind: Kind)
    requires index < |source|
    ensures KindOk(source, index, kind)
  {
    if AtLineStart(source, index) && FenceAtLineStart(LineAt(source, index)).Marker? then
      FenceLine(FenceAtLineStart(LineAt(source, index)))
    else if AtLineStart(source, index) && IndentedCode(LineAt(source, index)) then CodeLine
    else if source[index] == '`' then Backticks
    else if Unescaped(source, index, '(') then MathOpener(false)
    else if Unescaped(source, index, '[') then MathOpener(true)
    else Plain
  }

  predicate KindOk(source: string, index: nat, kind: Kind)
    requires index < |source|
  {
    && (kind.Backticks? ==> source[index] == '`')
    && (kind.MathOpener? ==> Unescaped(source, index, Opener(kind.display)))
  }

  /** Where verbatim text that starts at `index` ends; a math opener without a closer takes the tail. */
  function VerbatimEnd(source: string, index: nat, kind: Kind): (end: nat)
    requires index < |source| && KindOk(source, index, kind)
    ensures index < end <= |source|
  {
    match kind
    case FenceLine(fence) => FenceEnd(source, LineEnd(source, index), fence)
    case CodeLine => LineEnd(source, index)
    case Backticks =>
      var n := RunLength(source, index, '`');
      InlineCodeEnd(source, index + n, n)
    case MathOpener(_) => |source|
    case Plain => index + 1
  }

  /** Where the closer of a math span is, if one begins here. */
  function CloserOf(source: string, index: nat, kind: Kind): (q: Option<nat>)
    requires index < |source| && KindOk(source, index, kind)
    ensures q.Some? ==> kind.MathOpener? && index + 2 <= q.value && q.value + 2 <= |source|
  {
    if kind.MathOpener? then FindClose(source, index + 2, Closer(kind.display)) else None
  }

  function SegmentOf(source: string, index: nat, kind: Kind): Segment
    requires index < |source| && KindOk(source, index, kind)
  {
    match CloserOf(source, index, kind)
    case Some(q) => MathSpan(kind.display, source[index + 2..q])
    case None => Verbatim(source[index..VerbatimEnd(source, index, kind)])
  }

  function NextOf(source: string, index: nat, kind: Kind): (next: nat)
    requires index < |source| && KindOk(source, index, kind)
    ensures index < next <= |source|
  {
    match CloserOf(source, index, kind)
    case Some(q) => q + 2
    case None => VerbatimEnd(source, index, kind)
  }

  function SegmentAt(source: string, index: nat): Segment
    requires index < |source|
  {
    SegmentOf(source, index, KindAt(source, index))
  }

  function NextIndex(source: string, index: nat): (next: nat)
    requires index < |source|
    ensures index < next <= |source|
  {
    NextOf(source, index, KindAt(source, index))
  }

  function Segments(source: string, index: nat): seq<Segment>
    requires index <= |source|
    decreases |source| - index
  {
    if index == |source| then [] else [SegmentAt(source, index)] + Segments(source, NextIndex(source, index))
  }

  function Raw(segment: Segment): string {
    match segment
    case Verbatim(text) => text
    case MathSpan(display, content) => ['\\', Opener(display)] + content + ['\\', Closer(display)]
  }

  function AllRaw(segments: seq<Segment>): string {
    if segments == [] then "" else Raw(segments[0]) + AllRaw(segments[1..])
  }

  function DropFirstBreak(s: string): string {
    if |s| >= 1 && s[0] == '\n' then s[1..]
    else if |s| >= 2 && s[0] == '\r' && s[1] == '\n' then s[2..]
    else s
  }

  /** What a segment becomes after `output` and before `rest`. */
  function Piece(output: string, segment: Segment, rest: string): string {
    match segment
    case Verbatim(text) => text
    case MathSpan(false, content) => "$" + content + "$"
    case MathSpan(true, content) =>
      (if output != "" && output[|output| - 1] != '\n' then "\n" else "")
      + "$$\n" + Body(DropFirstBreak(content)) + "\n$$"
      + (if rest != "" && rest[0] != '\n' then "\n" else "")
  }

  /** The rewritten text, from what is written so far and the segments still to come. */
  function Rewritten(output: string, segments: seq<Segment>): string
    decreases |segments|
  {
    if segments == [] then output
    else Rewritten(output + Piece(output, segments[0], AllRaw(segments[1..])), segments[1..])
  }

  function Normalized(source: string): string {
    Rewritten("", Segments(source, 0))
  }

  // ----- what the reference promises

  lemma CutSlice(source: string, a: nat, b: nat, c: nat)
    requires a <= b <= c <= |source|
    ensures source[a..c] == source[a..b] + source[b..c]
  {
  }

  lemma DelimiterSource(source: string, index: nat, c: char)
    requires Unescaped(source, index, c)
    ensures source[index..index + 2] == ['\\', c]
  {
  }

  /** The source of a span from its two delimiters. */
  lemma SpanSource(source: string, index: nat, close: nat, display: bool)
    requires index + 2 <= close && Unescaped(source, index, Opener(display)) && Unescaped(source, close, Closer(display))
    ensures source[index..close + 2] == Raw(MathSpan(display, source[index + 2..close]))
  {
    DelimiterSource(source, index, Opener(display));
    DelimiterSource(source, close, Closer(display));
    CutSlice(source, index, index + 2, close);
    CutSlice(source, index, close, close + 2);
  }

  /** A math span stands outside code, is opened and closed by unescaped delimiters, and the closer is the first. */
  lemma SpansAreClosed(source: string, index: nat) returns (close: nat)
    requires index < |source| && SegmentAt(source, index).MathSpan?
    ensures KindAt(source, index) == MathOpener(SegmentAt(source, index).display)
    ensures index + 2 <= close && close + 2 == NextIndex(source, index)
    ensures SegmentAt(source, index).content == source[index + 2..close]
    ensures Unescaped(source, index, Opener(SegmentAt(source, index).display))
    ensures Unescaped(source, close, Closer(SegmentAt(source, index).display))
    ensures forall k :: index + 2 <= k < close ==> !Unescaped(source, k, Closer(SegmentAt(source, index).display))
  {
    close := CloserOf(source, index, KindAt(source, index)).value;
  }

  lemma SegmentIsItsSource(source: string, index: nat, kind: Kind)
    requires index < |source| && KindOk(source, index, kind)
    ensures Raw(SegmentOf(source, index, kind)) == source[index..NextOf(source, index, kind)]
  {
    var q := CloserOf(source, index, kind);
    if q.Some? {
      SpanSource(source, index, q.value, kind.display);
    }
  }

  lemma CoverOne(source: string, index: nat, next: nat, segment: Segment, rest: seq<Segment>)
    requires index <= next <= |source|
    requires Raw(segment) == source[index..next] && AllRaw(rest) == source[next..]
    ensures AllRaw([segment] + rest) == source[index..]
  {
    assert source[index..] == source[index..next] + source[next..];
    assert ([segment] + rest)[1..] == rest;
  }

  /** The segments are the source cut into pieces, in order. */
  lemma {:induction false} SegmentsCoverTheSource(source: string, index: nat)
    requires index <= |source|
    ensures AllRaw(Segments(source, index)) == source[index..]
    decreases |source| - index
  {
    if index < |source| {
      var next := NextIndex(source, index);
      SegmentIsItsSource(source, index, KindAt(source, index));
      SegmentsCoverTheSource(source, next);
      CoverOne(source, index, next, SegmentAt(source, index), Segments(source, next));
    }
  }

  predicate NoSpan(segments: seq<Segment>) {
    forall segment <- segments :: segment.Verbatim?
  }

  /** Nothing that is written is taken back. */
  lemma {:induction false} RewritingExtends(output: string, segments: seq<Segment>)
    ensures output <= Rewritten(output, segments)
    decreases |segments|
  {
    if segments != [] {
      RewritingExtends(output + Piece(output, segments[0], AllRaw(segments[1..])), segments[1..]);
    }
  }

  lemma SpanChangesText(output: string, segments: seq<Segment>)
    requires segments != [] && segments[0].MathSpan?
    ensures Rewritten(output, segments) != output + AllRaw(segments)
  {
    var piece := Piece(output, segments[0], AllRaw(segments[1..]));
    assert piece[0] == '$' || piece[0] == '\n';
    RewritingExtends(output + piece, segments[1..]);
    assert Rewritten(output, segments)[|output|] == piece[0];
    assert AllRaw(segments)[0] == Raw(segments[0])[0];
    assert (output + AllRaw(segments))[|output|] == '\\';
  }

  /** Segments without a span are copied; the first span changes the text where it starts. */
  lemma {:induction false} RewritingIsCopyingIff(output: string, segments: seq<Segment>)
    ensures Rewritten(output, segments) == output + AllRaw(segments) <==> NoSpan(segments)
    decreases |segments|
  {
    if segments != [] {
      var rest := segments[1..];
      var piece := Piece(output, segments[0], AllRaw(rest));
      Regroup(output, Raw(segments[0]), AllRaw(rest));
      if segments[0].Verbatim? {
        RewritingIsCopyingIff(output + piece, rest);
        assert segments == [segments[0]] + rest;
      } else {
        assert segments[0] in segments;
        SpanChangesText(output, segments);
      }
    }
  }

  /** The text is left as it is exactly when it holds no closed span. */
  lemma IdentityIff(source: string)
    ensures Normalized(source) == source <==> NoSpan(Segments(source, 0))
  {
    SegmentsCoverTheSource(source, 0);
    RewritingIsCopyingIff("", Segments(source, 0));
    assert source[0..] == source;
    assert "" + AllRaw(Segments(source, 0)) == AllRaw(Segments(source, 0));
  }

  // ----- the scanner with its four modes

  datatype Mode =
    | Normal
    | Fenced(fence: Marker)
    | InlineCode(length: nat)
    | Math(display: bool, start: nat)

  predicate ModeOk(source: string, index: nat, mode: Mode) {
    index <= |source| && (mode.Math? ==> 2 <= mode.start <= index)
  }

  /** The end of a fenced block seen from inside one of its lines. */
  function FenceEndFrom(source: string, index: nat, fence: Marker): (end: nat)
    requires index <= |source|
    ensures index <= end <= |source|
  {
    FenceEnd(source, if AtLineStart(source, index) then index else LineEnd(source, index), fence)
  }

  datatype Point = Point(output: string, index: nat)

  /** Where math mode will end, and what will be written by then. */
  function MathResumes(source: string, index: nat, output: string, display: bool, start: nat): (point: Point)
    requires 2 <= start <= index <= |source|
    ensures point.index <= |source|
    decreases |source| - index
  {
    if index == |source| then Point(output + source[start - 2..], index)
    else if Unescaped(source, index, Closer(display)) then
      Point(output + Piece(output, MathSpan(display, source[start..index]), source[index + 2..]), index + 2)
    else MathResumes(source, index + 1, output, display, start)
  }

  /** Where the scanner will next be in normal mode, and what it will have written by then. */
  function Resumes(source: string, index: nat, output: string, mode: Mode): (point: Point)
    requires ModeOk(source, index, mode)
    ensures point.index <= |source|
  {
    match mode
    case Normal => Point(output, index)
    case Fenced(fence) =>
      var end := FenceEndFrom(source, index, fence);
      Point(output + source[index..end], end)
    case InlineCode(length) =>
      var end := InlineCodeEnd(source, index, length);
      Point(output + source[index..end], end)
    case Math(display, start) => MathResumes(source, index, output, display, start)
  }

  /** What is written for a closed span. */
  method WriteSpan(source: string, index: nat, output: string, display: bool, start: nat) returns (written: string)
    requires start <= index && index + 2 <= |source|
    ensures written == output + Piece(output, MathSpan(display, source[start..index]), source[index + 2..])
  {
    var content := source[start..index];
    if display {
      var lead := if output != "" && output[|output| - 1] != '\n' then "\n" else "";
      var trail := if index + 2 < |source| && source[index + 2] != '\n' then "\n" else "";
      written := output + (lead + "$$\n" + Body(DropFirstBreak(content)) + "\n$$" + trail);
    } else {
      written := output + ("$" + content + "$");
    }
  }

  method MathStep(source: string, index: nat, output: string, display: bool, start: nat)
    returns (next: nat, written: string, mode: Mode)
    requires index < |source| && ModeOk(source, index, Math(display, start))
    ensures index < next && ModeOk(source, next, mode)
    ensures Resumes(source, next, written, mode) == Resumes(source, index, output, Math(display, start))
  {
    var closes := IsUnescapedLatexDelimiter(source, index, Closer(display));
    if closes {
      written := WriteSpan(source, index, output, display, start);
      next, mode := index + 2, Normal;
    } else {
      next, written, mode := index + 1, output, Math(display, start);
    }
  }

  /** Verbatim text may be copied in two steps. */
  lemma CopyInTwo(source: string, output: string, index: nat, middle: nat, end: nat)
    requires index <= middle <= end <= |source|
    ensures output + source[index..middle] + source[middle..end] == output + source[index..end]
  {
    CutSlice(source, index, middle, end);
    Regroup(output, source[index..middle], source[middle..end]);
  }

  method InlineCodeStep(source: string, index: nat, output: string, length: nat)
    returns (next: nat, written: string, mode: Mode)
    requires index < |source|
    ensures index < next && ModeOk(source, next, mode)
    ensures Resumes(source, next, written, mode) == Resumes(source, index, output, InlineCode(length))
  {
    ghost var end := InlineCodeEnd(source, index, length);
    if source[index] == '`' {
      var n := RunLength(source, index, '`');
      next, written := index + n, output + source[index..index + n];
      mode := if n == length then Normal else InlineCode(length);
    } else {
      next, written, mode := index + 1, output + source[index..index + 1], InlineCode(length);
    }
    CopyInTwo(source, output, index, next, end);
  }

  method FencedStep(source: string, index: nat, output: string, fence: Marker)
    returns (next: nat, written: string, mode: Mode)
    requires index < |source|
    ensures index < next && ModeOk(source, next, mode)
    ensures Resumes(source, next, written, mode) == Resumes(source, index, output, Fenced(fence))
  {
    ghost var end := FenceEndFrom(source, index, fence);
    if AtLineStart(source, index) && FenceAtLineStart(LineAt(source, index)).Marker? {
      next := LineEnd(source, index);
      mode := if Closes(FenceAtLineStart(LineAt(source, index)), fence) then Normal else Fenced(fence);
    } else {
      next, mode := index + 1, Fenced(fence);
    }
    written := output + source[index..next];
    CopyInTwo(source, output, index, next, end);
  }

  /** Where the scanner is after the segment at `index`, and what it has written. */
  function AfterKind(source: string, index: nat, kind: Kind, output: string): (point: Point)
    requires index < |source| && KindOk(source, index, kind)
    ensures index < point.index <= |source|
  {
    var next := NextOf(source, index, kind);
    Point(output + Piece(output, SegmentOf(source, index, kind), source[next..]), next)
  }

  function After(source: string, index: nat, output: string): (point: Point)
    requires index < |source|
    ensures index < point.index <= |source|
  {
    AfterKind(source, index, KindAt(source, index), output)
  }

  lemma {:induction false} MathReadsOn(source: string, index: nat, output: string, display: bool, start: nat, q: nat)
    requires 2 <= start <= index <= |source| && FindClose(source, index, Closer(display)) == Some(q)
    ensures MathResumes(source, index, output, display, start) == MathResumes(source, q, output, display, start)
    decreases |source| - index
  {
    if index < q {
      MathReadsOn(source, index + 1, output, display, start, q);
    }
  }

  lemma {:induction false} MathIsNeverClosed(source: string, index: nat, output: string, display: bool, start: nat)
    requires 2 <= start <= index <= |source| && FindClose(source, index, Closer(display)).None?
    ensures MathResumes(source, index, output, display, start) == Point(output + source[start - 2..], |source|)
    decreases |source| - index
  {
    if index < |source| {
      MathIsNeverClosed(source, index + 1, output, display, start);
    }
  }

  lemma VerbatimSegment(source: string, index: nat, kind: Kind, output: string, end: nat)
    requires index < |source| && KindOk(source, index, kind)
    requires CloserOf(source, index, kind).None? && VerbatimEnd(source, index, kind) == end
    ensures AfterKind(source, index, kind, output) == Point(output + source[index..end], end)
  {
  }

  lemma SpanSegment(source: string, index: nat, display: bool, output: string, q: nat)
    requires index < |source| && KindOk(source, index, MathOpener(display))
    requires FindClose(source, index + 2, Closer(display)) == Some(q)
    ensures AfterKind(source, index, MathOpener(display), output)
         == Point(output + Piece(output, MathSpan(display, source[index + 2..q]), source[q + 2..]), q + 2)
  {
  }

  lemma MathAtCloser(source: string, q: nat, output: string, display: bool, start: nat)
    requires 2 <= start <= q && Unescaped(source, q, Closer(display))
    ensures MathResumes(source, q, output, display, start)
         == Point(output + Piece(output, MathSpan(display, source[start..q]), source[q + 2..]), q + 2)
  {
  }

  lemma ClosedMath(source: string, index: nat, display: bool, output: string, q: nat)
    requires index + 2 <= |source| && FindClose(source, index + 2, Closer(display)) == Some(q)
    ensures MathResumes(source, index + 2, output, display, index + 2)
         == Point(output + Piece(output, MathSpan(display, source[index + 2..q]), source[q + 2..]), q + 2)
  {
    MathReadsOn(source, index + 2, output, display, index + 2, q);
    MathAtCloser(source, q, output, display, index + 2);
  }

  lemma OpenMath(source: string, index: nat, display: bool, output: string)
    requires index < |source| && KindOk(source, index, MathOpener(display))
    requires FindClose(source, index + 2, Closer(display)).None?
    ensures MathResumes(source, index + 2, output, display, index + 2)
         == AfterKind(source, index, MathOpener(display), output)
  {
    VerbatimSegment(source, index, MathOpener(display), output, |source|);
    MathIsNeverClosed(source, index + 2, output, display, index + 2);
  }

  lemma MathSegment(source: string, index: nat, display: bool, output: string)
    requires index < |source| && KindOk(source, index, MathOpener(display))
    ensures MathResumes(source, index + 2, output, display, index + 2)
         == AfterKind(source, index, MathOpener(display), output)
  {
    var q := FindClose(source, index + 2, Closer(display));
    if q.Some? {
      SpanSegment(source, index, display, output, q.value);
      ClosedMath(source, index, display, output, q.value);
    } else {
      OpenMath(source, index, display, output);
    }
  }

  lemma InlineCodeResumes(source: string, index: nat, output: string, n: nat, end: nat)
    requires index <= |source| && end == InlineCodeEnd(source, index, n)
    ensures Resumes(source, index, output, InlineCode(n)) == Point(output + source[index..end], end)
  {
  }

  lemma FencedResumes(source: string, index: nat, output: string, fence: Marker, last: nat)
    requires index <= |source| && last == FenceEnd(source, LineEnd(source, index), fence)
    ensures Resumes(source, LineEnd(source, index), output, Fenced(fence))
         == Point(output + source[LineEnd(source, index)..last], last)
  {
  }

  lemma FenceSegment(source: string, index: nat, fence: Marker, output: string)
    requires index < |source|
    ensures Resumes(source, LineEnd(source, index), output + source[index..LineEnd(source, index)], Fenced(fence))
         == AfterKind(source, index, FenceLine(fence), output)
  {
    var end := LineEnd(source, index);
    var last := FenceEnd(source, end, fence);
    var start := output + source[index..end];
    FencedResumes(source, index, start, fence, last);
    assert AfterKind(source, index, FenceLine(fence), output) == Point(output + source[index..last], last) by {
      VerbatimSegment(source, index, FenceLine(fence), output, last);
    }
    CopyInTwo(source, output, index, end, last);
  }

  lemma InlineCodeSegment(source: string, index: nat, n: nat, output: string)
    requires index < |source| && source[index] == '`' && n == RunLength(source, index, '`')
    ensures Resumes(source, index + n, output + source[index..index + n], InlineCode(n))
         == AfterKind(source, index, Backticks, output)
  {
    var end := InlineCodeEnd(source, index + n, n);
    var start := output + source[index..index + n];
    InlineCodeResumes(source, index + n, start, n, end);
    assert AfterKind(source, index, Backticks, output) == Point(output + source[index..end], end) by {
      VerbatimSegment(source, index, Backticks, output, end);
    }
    CopyInTwo(source, output, index, index + n, end);
  }

  lemma NormalSegment(source: string, index: nat, kind: Kind, output: string, end: nat)
    requires index < |source| && (kind == CodeLine || kind == Plain) && VerbatimEnd(source, index, kind) == end
    ensures Resumes(source, end, output + source[index..end], Normal) == AfterKind(source, index, kind, output)
  {
    VerbatimSegment(source, index, kind, output, end);
  }

  /** What begins here, with the checks in the order they are made. */
  method Classify(source: string, index: nat) returns (kind: Kind)
    requires index < |source|
    ensures kind == KindAt(source, index)
  {
    if AtLineStart(source, index) {
      var line := LineAt(source, index);
      var marker := FenceAtLineStart(line);
      if marker.Marker? {
        return FenceLine(marker);
      }
      if IndentedCode(line) {
        return CodeLine;
      }
    }
    if source[index] == '`' {
      return Backticks;
    }
    var inline := IsUnescapedLatexDelimiter(source, index, '(');
    if inline {
      return MathOpener(false);
    }
    var display := IsUnescapedLatexDelimiter(source, index, '[');
    return if display then MathOpener(true) else Plain;
  }

  method StartSegment(source: string, index: nat, kind: Kind, output: string)
    returns (next: nat, written: string, mode: Mode)
    requires index < |source| && KindOk(source, index, kind)
    ensures index < next && ModeOk(source, next, mode)
    ensures Resumes(source, next, written, mode) == AfterKind(source, index, kind, output)
  {
    match kind
    case FenceLine(fence) =>
      FenceSegment(source, index, fence, output);
      next := LineEnd(source, index);
      return next, output + source[index..next], Fenced(fence);
    case CodeLine =>
      next := LineEnd(source, index);
      NormalSegment(source, index, kind, output, next);
      return next, output + source[index..next], Normal;
    case Backticks =>
      var n := RunLength(source, index, '`');
      InlineCodeSegment(source, index, n, output);
      return index + n, output + source[index..index + n], InlineCode(n);
    case MathOpener(display) =>
      MathSegment(source, index, display, output);
      return index + 2, output, Math(display, index + 2);
    case Plain =>
      NormalSegment(source, index, kind, output, index + 1);
      return index + 1, output + source[index..index + 1], Normal;
  }

  method NormalStep(source: string, index: nat, output: string) returns (next: nat, written: string, mode: Mode)
    requires index < |source|
    ensures index < next && ModeOk(source, next, mode)
    ensures Resumes(source, next, written, mode) == After(source, index, output)
  {
    var kind := Classify(source, index);
    next, written, mode := StartSegment(source, index, kind, output);
  }

  /** One step of the scanner, in any mode. */
  method Step(source: string, index: nat, output: string, mode: Mode)
    returns (next: nat, written: string, mode': Mode)
    requires index < |source| && ModeOk(source, index, mode)
    ensures index < next && ModeOk(source, next, mode')
    ensures Resumes(source, next, written, mode')
         == if mode.Normal? then After(source, index, output) else Resumes(source, index, output, mode)
  {
    match mode
    case Math(display, start) => next, written, mode' := MathStep(source, index, output, display, start);
    case InlineCode(length) => next, written, mode' := InlineCodeStep(source, index, output, length);
    case Fenced(fence) => next, written, mode' := FencedStep(source, index, output, fence);
    case Normal => next, written, mode' := NormalStep(source, index, output);
  }

  /** The text that a point leads to. */
  function Leads(source: string, point: Point): string
    requires point.index <= |source|
  {
    Rewritten(point.output, Segments(source, point.index))
  }

  lemma SegmentWritten(source: string, index: nat, output: string)
    requires index < |source|
    ensures Leads(source, After(source, index, output)) == Leads(source, Point(output, index))
  {
    var next := NextIndex(source, index);
    SegmentsCoverTheSource(source, next);
    assert Segments(source, index)[1..] == Segments(source, next);
  }

  /** The scanner writes what the reference says. */
  method NormalizeLatexDelimiters(source: string) returns (output: string)
    ensures output == Normalized(source)
  {
    var index: nat, mode := 0, Normal;
    output := "";
    while index < |source|
      invariant ModeOk(source, index, mode)
      invariant Leads(source, Resumes(source, index, output, mode)) == Normalized(source)
    {
      if mode.Normal? {
        SegmentWritten(source, index, output);
      }
      index, output, mode := Step(source, index, output, mode);
    }
    if mode.Math? {
      output := output + source[mode.start - 2..];
    }
  }
}
