/** Line framing of the document parser's output stream (src-tauri/src/document_parser.rs, ParserOutput). */
module ParserFraming {
  import opened Sequences
  import opened Whitespace

  newtype byte = x: int | 0 <= x < 256

  const NEWLINE: byte := 10
  const MAX_PARSER_OUTPUT_BYTES: nat := 64 * 1024 * 1024

  /** A string of the protocol, with its length in bytes. */
  datatype Text = Text(chars: string, bytes: nat)

  /** A parsed result; its fields are checked elsewhere. */
  type Document = seq<byte>

  /** What JSON decoding makes of a line. */
  datatype Decoded =
    | Malformed
    | Progress(stage: Text, percent: nat, message: Text)
    | Result(payload: Document)
    | Error(error: Text)

  type Decoder = seq<byte> -> Decoded

  datatype Failure = TooLarge | Unreadable | BadProgress | SecondResult | BadError

  /** What a caller can see: the result, the reported error, and the progress events passed on. */
  datatype View = View(result: Option<Document>, error: Option<Text>, events: seq<Decoded>)

  const NOTHING := View(None, None, [])

  predicate IsAsciiSpace(b: byte) {
    b == 32 || b == 9 || b == 10 || b == 12 || b == 13
  }

  predicate ProgressOk(stage: Text, percent: nat, message: Text) {
    && stage.chars != "" && stage.bytes <= 64
    && (forall c <- stage.chars :: 'a' <= c <= 'z' || c == '_')
    && percent <= 100
    && message.chars != "" && message.bytes <= 512
  }

  // ----- the reference: the whole stream split on newlines, processed line by line

  function Interpret(v: View, line: seq<byte>, decode: Decoder): (View, Option<Failure>) {
    if forall b <- line :: IsAsciiSpace(b) then (v, None)
    else
      var m := decode(line);
      match m
      case Malformed => (v, Some(Unreadable))
      case Progress(stage, percent, message) =>
        if ProgressOk(stage, percent, message) then (v.(events := v.events + [m]), None)
        else (v, Some(BadProgress))
      case Result(payload) =>
        (v.(result := Some(payload)), if v.result.Some? then Some(SecondResult) else None)
      case Error(error) =>
        if Trim(IsUnicodeSpace, error.chars) == "" || error.bytes > 4096 then (v, Some(BadError))
        else (v.(error := Some(error)), None)
  }

  // ----- what a single line does

  predicate IsBlank(line: seq<byte>) {
    forall k :: 0 <= k < |line| ==> line[k] == 9 || line[k] == 10 || line[k] == 12 || line[k] == 13 || line[k] == 32
  }

  lemma BlankLine(v: View, line: seq<byte>, decode: Decoder)
    requires IsBlank(line)
    ensures Interpret(v, line, decode) == (v, None)
  {
  }

  lemma NotBlank(line: seq<byte>)
    requires !IsBlank(line)
    ensures exists b <- line :: !IsAsciiSpace(b)
  {
    var k :| 0 <= k < |line| && line[k] != 9 && line[k] != 10 && line[k] != 12 && line[k] != 13 && line[k] != 32;
    assert line[k] in line;
  }

  /** A line that does not decode fails and changes nothing. */
  lemma MalformedLine(v: View, line: seq<byte>, decode: Decoder)
    requires !IsBlank(line) && decode(line).Malformed?
    ensures Interpret(v, line, decode) == (v, Some(Unreadable))
  {
    NotBlank(line);
  }

  /** Progress is passed on exactly within the limits on its stage, percentage and message. */
  lemma ProgressLine(v: View, line: seq<byte>, decode: Decoder)
    requires !IsBlank(line) && decode(line).Progress?
    ensures
      var m := decode(line);
      var good := 0 < |m.stage.chars| && m.stage.bytes <= 64 && m.percent <= 100 && 0 < |m.message.chars|
                  && m.message.bytes <= 512
                  && forall k :: 0 <= k < |m.stage.chars| ==> 'a' <= m.stage.chars[k] <= 'z' || m.stage.chars[k] == '_';
      Interpret(v, line, decode)
      == if good then (View(v.result, v.error, v.events + [m]), None) else (v, Some(BadProgress))
  {
    NotBlank(line);
    var name := decode(line).stage.chars;
    assert forall k :: 0 <= k < |name| ==> name[k] in name;
  }

  /** A result is kept; a second one replaces the first and fails. */
  lemma ResultLine(v: View, line: seq<byte>, decode: Decoder)
    requires !IsBlank(line) && decode(line).Result?
    ensures Interpret(v, line, decode).0 == View(Some(decode(line).payload), v.error, v.events)
    ensures Interpret(v, line, decode).1 == if v.result == None then None else Some(SecondResult)
  {
    NotBlank(line);
  }

  /** An error is kept if it is not blank and at most 4096 bytes long, the last one last; any other fails. */
  lemma ErrorLine(v: View, line: seq<byte>, decode: Decoder)
    requires !IsBlank(line) && decode(line).Error?
    ensures var text := decode(line).error;
            Interpret(v, line, decode)
            == if text.bytes > 4096 || forall k :: 0 <= k < |text.chars| ==> IsUnicodeSpace(text.chars[k])
               then (v, Some(BadError)) else (View(v.result, Some(text), v.events), None)
  {
    NotBlank(line);
    BlankIffTrimsToNothing(IsUnicodeSpace, decode(line).error.chars);
  }

  function InterpretAll(v: View, lines: seq<seq<byte>>, decode: Decoder): (View, Option<Failure>)
    decreases |lines|
  {
    if lines == [] then (v, None)
    else
      var (next, failure) := Interpret(v, lines[0], decode);
      if failure.Some? then (next, failure) else InterpretAll(next, lines[1..], decode)
  }

  /** The place of the first newline, or the length. */
  function FirstNewline(bytes: seq<byte>): (n: nat)
    ensures n <= |bytes|
    ensures forall k :: 0 <= k < n ==> bytes[k] != NEWLINE
    ensures n < |bytes| ==> bytes[n] == NEWLINE
  {
    NewlineFrom(bytes, 0)
  }

  function NewlineFrom(bytes: seq<byte>, i: nat): (n: nat)
    requires i <= |bytes|
    ensures i <= n <= |bytes|
    ensures forall k :: i <= k < n ==> bytes[k] != NEWLINE
    ensures n < |bytes| ==> bytes[n] == NEWLINE
    decreases |bytes| - i
  {
    if i == |bytes| || bytes[i] == NEWLINE then i else NewlineFrom(bytes, i + 1)
  }

  /** The complete lines of a stream, without their newlines. */
  function Lines(bytes: seq<byte>): seq<seq<byte>> {
    var n := FirstNewline(bytes);
    if n == |bytes| then [] else [bytes[..n]] + Lines(bytes[n + 1..])
  }

  /** What follows the last newline. */
  function Rest(bytes: seq<byte>): seq<byte> {
    var n := FirstNewline(bytes);
    if n == |bytes| then bytes else Rest(bytes[n + 1..])
  }

  /** A line without its newline at the end of the stream still counts, unless it is empty. */
  function AllLines(bytes: seq<byte>): seq<seq<byte>> {
    Lines(bytes) + (if Rest(bytes) != [] then [Rest(bytes)] else [])
  }

  lemma {:induction false} NoNewlineInRest(bytes: seq<byte>)
    ensures NEWLINE !in Rest(bytes)
  {
    var n := FirstNewline(bytes);
    if n < |bytes| {
      NoNewlineInRest(bytes[n + 1..]);
    }
  }

  lemma FirstNewlineConcat(a: seq<byte>, b: seq<byte>)
    ensures FirstNewline(a) < |a| ==> FirstNewline(a + b) == FirstNewline(a)
  {
    var n := FirstNewline(a);
    if n < |a| {
      assert (a + b)[n] == NEWLINE;
      assert forall k :: 0 <= k < n ==> (a + b)[k] == a[k];
    }
  }

  lemma LinesStep(bytes: seq<byte>, n: nat)
    requires n == FirstNewline(bytes) < |bytes|
    ensures Lines(bytes) == [bytes[..n]] + Lines(bytes[n + 1..]) && Rest(bytes) == Rest(bytes[n + 1..])
  {
  }

  /** Splitting a stream in two places the same lines. */
  lemma {:induction false} LinesConcat(a: seq<byte>, b: seq<byte>)
    ensures Lines(a + b) == Lines(a) + Lines(Rest(a) + b)
    ensures Rest(a + b) == Rest(Rest(a) + b)
  {
    var n := FirstNewline(a);
    if n < |a| {
      var later := a[n + 1..];
      FirstNewlineConcat(a, b);
      CutConcat(a, b, n);
      CutConcat(a, b, n + 1);
      LinesStep(a, n);
      LinesStep(a + b, n);
      LinesConcat(later, b);
      Regroup([a[..n]], Lines(later), Lines(Rest(later) + b));
    }
  }

  lemma {:induction false} InterpretConcat(v: View, first: seq<seq<byte>>, then_: seq<seq<byte>>, decode: Decoder)
    ensures var (mid, failure) := InterpretAll(v, first, decode);
            InterpretAll(v, first + then_, decode)
              == if failure.Some? then (mid, failure) else InterpretAll(mid, then_, decode)
    decreases |first|
  {
    if first == [] {
      assert first + then_ == then_;
    } else {
      assert (first + then_)[1..] == first[1..] + then_;
      var (next, failure) := Interpret(v, first[0], decode);
      if failure.None? {
        InterpretConcat(next, first[1..], then_, decode);
      }
    }
  }

  // ----- the incremental reader

  class ParserOutput {
    var pending: seq<byte>
    var totalBytes: nat
    var result: Option<Document>
    var error: Option<Text>
    var events: seq<Decoded>

    function Seen(): View
      reads this
    {
      View(result, error, events)
    }

    constructor ()
      ensures pending == [] && totalBytes == 0 && Seen() == NOTHING
    {
      pending, totalBytes, result, error, events := [], 0, None, None, [];
    }

    /** Only spaces, tabs, line feeds, form feeds and carriage returns. */
    method IsBlankLine(line: seq<byte>) returns (blank: bool)
      ensures blank <==> forall b <- line :: IsAsciiSpace(b)
    {
      blank := true;
      for k := 0 to |line|
        invariant blank <==> forall j :: 0 <= j < k ==> IsAsciiSpace(line[j])
      {
        blank := blank && (line[k] == 32 || line[k] == 9 || line[k] == 10 || line[k] == 12 || line[k] == 13);
      }
    }

    method IsStageName(name: string) returns (lower: bool)
      ensures lower <==> forall c <- name :: 'a' <= c <= 'z' || c == '_'
    {
      lower := true;
      for k := 0 to |name|
        invariant lower <==> forall j :: 0 <= j < k ==> 'a' <= name[j] <= 'z' || name[j] == '_'
      {
        lower := lower && ('a' <= name[k] <= 'z' || name[k] == '_');
      }
      assert forall k :: 0 <= k < |name| ==> name[k] in name;
    }

    method ProcessLine(line: seq<byte>, decode: Decoder) returns (failure: Option<Failure>)
      modifies this`result, this`error, this`events
      ensures (Seen(), failure) == Interpret(old(Seen()), line, decode)
    {
      var blank := IsBlankLine(line);
      if blank {
        return None;
      }
      var message := decode(line);
      match message {
        case Malformed => return Some(Unreadable);
        case Progress(stage, percent, text) =>
          var lower := IsStageName(stage.chars);
          if stage.chars == "" || stage.bytes > 64 || !lower || percent > 100 || text.chars == "" || text.bytes > 512 {
            return Some(BadProgress);
          }
          events := events + [message];
        case Result(payload) =>
          var replaced := result;
          result := Some(payload);
          if replaced.Some? {
            return Some(SecondResult);
          }
        case Error(text) =>
          if Trim(IsUnicodeSpace, text.chars) == "" || text.bytes > 4096 {
            return Some(BadError);
          }
          error := Some(text);
      }
      return None;
    }

    /** The line loop: take complete lines off the front until none is left or one fails. */
    method DrainLines(decode: Decoder) returns (failure: Option<Failure>)
      modifies this`pending, this`result, this`error, this`events
      ensures (Seen(), failure) == InterpretAll(old(Seen()), Lines(old(pending)), decode)
      ensures failure.None? ==> pending == Rest(old(pending))
    {
      while true
        invariant InterpretAll(old(Seen()), Lines(old(pending)), decode) == InterpretAll(Seen(), Lines(pending), decode)
        invariant Rest(old(pending)) == Rest(pending)
        decreases |pending|
      {
        var position := FirstNewline(pending);
        if position == |pending| {
          return None;
        }
        var line := pending[..position];
        assert Lines(pending) == [line] + Lines(pending[position + 1..]);
        pending := pending[position + 1..];
        failure := ProcessLine(line, decode);
        if failure.Some? {
          return;
        }
      }
    }

    method Push(bytes: seq<byte>, decode: Decoder) returns (failure: Option<Failure>)
      modifies this
      ensures totalBytes == old(totalBytes) + |bytes|
      ensures totalBytes > MAX_PARSER_OUTPUT_BYTES ==>
        failure == Some(TooLarge) && Seen() == old(Seen()) && pending == old(pending)
      ensures totalBytes <= MAX_PARSER_OUTPUT_BYTES ==>
        && (Seen(), failure) == InterpretAll(old(Seen()), Lines(old(pending) + bytes), decode)
        && (failure.None? ==> pending == Rest(old(pending) + bytes) && NEWLINE !in pending)
    {
      totalBytes := totalBytes + |bytes|;
      if totalBytes > MAX_PARSER_OUTPUT_BYTES {
        return Some(TooLarge);
      }
      pending := pending + bytes;
      NoNewlineInRest(pending);
      failure := DrainLines(decode);
    }

    method Finish(decode: Decoder) returns (failure: Option<Failure>)
      modifies this`pending, this`result, this`error, this`events
      ensures (Seen(), failure)
           == InterpretAll(old(Seen()), if old(pending) != [] then [old(pending)] else [], decode)
    {
      failure := None;
      if pending != [] {
        var line := pending;
        pending := [];
        assert [line][1..] == [];
        failure := ProcessLine(line, decode);
      }
    }
  }

  // ----- any fragmentation

  /** The stream up to and including each of the first n pieces. */
  function Streamed(pieces: seq<seq<byte>>, n: nat): seq<byte>
    requires n <= |pieces|
  {
    Flatten(pieces[..n])
  }

  lemma StreamedSnoc(pieces: seq<seq<byte>>, n: nat)
    requires n < |pieces|
    ensures Streamed(pieces, n + 1) == Streamed(pieces, n) + pieces[n]
  {
    assert pieces[..n + 1] == pieces[..n] + [pieces[n]];
    FlattenSnoc(pieces[..n], pieces[n]);
  }

  lemma {:induction false} StreamedGrows(pieces: seq<seq<byte>>, n: nat)
    requires n <= |pieces|
    ensures |Streamed(pieces, n)| <= |Flatten(pieces)|
    ensures exists tail :: Flatten(pieces) == Streamed(pieces, n) + tail
  {
    assert pieces == pieces[..n] + pieces[n..];
    FlattenConcat(pieces[..n], pieces[n..]);
  }

  /** A failure on the way is the failure of the whole stream. */
  lemma EarlyFailureIsFinal(seen: seq<byte>, tail: seq<byte>, decode: Decoder)
    requires InterpretAll(NOTHING, Lines(seen), decode).1.Some?
    ensures InterpretAll(NOTHING, AllLines(seen + tail), decode) == InterpretAll(NOTHING, Lines(seen), decode)
  {
    LinesConcat(seen, tail);
    var more := Lines(Rest(seen) + tail) + (if Rest(seen + tail) != [] then [Rest(seen + tail)] else []);
    assert AllLines(seen + tail) == Lines(seen) + more;
    InterpretConcat(NOTHING, Lines(seen), more, decode);
  }

  /** The same among the complete lines. */
  lemma EarlyFailureStays(seen: seq<byte>, tail: seq<byte>, decode: Decoder)
    requires InterpretAll(NOTHING, Lines(seen), decode).1.Some?
    ensures InterpretAll(NOTHING, Lines(seen + tail), decode) == InterpretAll(NOTHING, Lines(seen), decode)
  {
    LinesConcat(seen, tail);
    InterpretConcat(NOTHING, Lines(seen), Lines(Rest(seen) + tail), decode);
  }

  /** How many pieces fit under the cap, of which the first n do. */
  function Fitting(pieces: seq<seq<byte>>, n: nat): (m: nat)
    requires n <= |pieces| && |Streamed(pieces, n)| <= MAX_PARSER_OUTPUT_BYTES
    ensures n <= m <= |pieces| && |Streamed(pieces, m)| <= MAX_PARSER_OUTPUT_BYTES
    ensures m < |pieces| ==> |Streamed(pieces, m + 1)| > MAX_PARSER_OUTPUT_BYTES
    decreases |pieces| - n
  {
    if n < |pieces| && |Streamed(pieces, n + 1)| <= MAX_PARSER_OUTPUT_BYTES then Fitting(pieces, n + 1) else n
  }

  /** What a stream over the cap gives: the first failure in the complete lines of the pieces that fit, or else that it
      is too large. */
  function OverCap(pieces: seq<seq<byte>>, decode: Decoder): (View, Option<Failure>) {
    var (seen, failure) := InterpretAll(NOTHING, Lines(Streamed(pieces, Fitting(pieces, 0))), decode);
    (seen, if failure.Some? then failure else Some(TooLarge))
  }

  lemma {:induction false} LaterStream(pieces: seq<seq<byte>>, n: nat, m: nat) returns (tail: seq<byte>)
    requires n <= m <= |pieces|
    ensures Streamed(pieces, m) == Streamed(pieces, n) + tail
  {
    assert pieces[..m] == pieces[..n] + pieces[n..m];
    FlattenConcat(pieces[..n], pieces[n..m]);
    tail := Flatten(pieces[n..m]);
  }

  /** A failure within the cap is the failure of the whole stream, or of the pieces that fit. */
  lemma FailureIsFinal(pieces: seq<seq<byte>>, n: nat, decode: Decoder)
    requires n <= |pieces| && |Streamed(pieces, n)| <= MAX_PARSER_OUTPUT_BYTES
    requires InterpretAll(NOTHING, Lines(Streamed(pieces, n)), decode).1.Some?
    requires Fitting(pieces, 0) == Fitting(pieces, n)
    ensures InterpretAll(NOTHING, AllLines(Flatten(pieces)), decode)
         == InterpretAll(NOTHING, Lines(Streamed(pieces, n)), decode)
    ensures OverCap(pieces, decode) == InterpretAll(NOTHING, Lines(Streamed(pieces, n)), decode)
  {
    var tail := LaterStream(pieces, n, |pieces|);
    assert pieces[..|pieces|] == pieces;
    EarlyFailureIsFinal(Streamed(pieces, n), tail, decode);
    tail := LaterStream(pieces, n, Fitting(pieces, n));
    EarlyFailureStays(Streamed(pieces, n), tail, decode);
  }

  /** Pushing any pieces of a stream within the cap and finishing gives what the whole stream gives,
      split on newlines: the same result, error and events, and the same first failure. A stream over
      the cap fails, with the first failure of the pieces that fit or because it is too large. */
  method ReadStream(pieces: seq<seq<byte>>, decode: Decoder) returns (seen: View, failure: Option<Failure>)
    ensures |Flatten(pieces)| <= MAX_PARSER_OUTPUT_BYTES ==>
      (seen, failure) == InterpretAll(NOTHING, AllLines(Flatten(pieces)), decode)
    ensures |Flatten(pieces)| > MAX_PARSER_OUTPUT_BYTES ==> (seen, failure) == OverCap(pieces, decode)
  {
    var output := new ParserOutput();
    assert FirstNewline([]) == 0;
    for n := 0 to |pieces|
      invariant fresh(output)
      invariant output.totalBytes == |Streamed(pieces, n)| <= MAX_PARSER_OUTPUT_BYTES
      invariant output.pending == Rest(Streamed(pieces, n)) && Fitting(pieces, 0) == Fitting(pieces, n)
      invariant (output.Seen(), None) == InterpretAll(NOTHING, Lines(Streamed(pieces, n)), decode)
    {
      ghost var before := output.Seen();
      StreamedSnoc(pieces, n);
      StreamedGrows(pieces, n + 1);
      LinesConcat(Streamed(pieces, n), pieces[n]);
      InterpretConcat(NOTHING, Lines(Streamed(pieces, n)), Lines(output.pending + pieces[n]), decode);
      failure := output.Push(pieces[n], decode);
      if failure.Some? {
        if |Streamed(pieces, n + 1)| <= MAX_PARSER_OUTPUT_BYTES {
          FailureIsFinal(pieces, n + 1, decode);
        }
        return output.Seen(), failure;
      }
    }
    assert pieces[..|pieces|] == pieces;
    InterpretConcat(NOTHING, Lines(Flatten(pieces)), if output.pending != [] then [output.pending] else [], decode);
    failure := output.Finish(decode);
    return output.Seen(), failure;
  }

  /** The lines and the rest are the stream, cut at its newlines. */
  function Rejoined(lines: seq<seq<byte>>, rest: seq<byte>): seq<byte> {
    if lines == [] then rest else lines[0] + [NEWLINE] + Rejoined(lines[1..], rest)
  }

  lemma {:induction false} LinesAreTheStream(bytes: seq<byte>)
    ensures Rejoined(Lines(bytes), Rest(bytes)) == bytes
    ensures forall line <- Lines(bytes) :: NEWLINE !in line
  {
    var n := FirstNewline(bytes);
    if n < |bytes| {
      LinesAreTheStream(bytes[n + 1..]);
      assert bytes == bytes[..n] + [NEWLINE] + bytes[n + 1..];
    }
  }
}
