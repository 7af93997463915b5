/** Splitting a markdown table by rows (document-parser/app/parser.py, _markdown_table_parts). */
module TableParts {
  import opened Sequences
  import opened Whitespace
  import opened LongText

  const MAX_TABLE_ROWS_PER_CHUNK: nat := 40

  datatype Part = Part(text: string, rowStart: int, rowEnd: int)

  // ----- lines

  /** A single character at which str.splitlines breaks. */
  predicate IsLineBreak(c: char) {
    || '\n' <= c <= '\r' || '\U{1C}' <= c <= '\U{1E}' || c == '\U{85}' || c == '\U{2028}' || c == '\U{2029}'
  }

  /** str.splitlines; `line` is the text of the current line so far. */
  function SplitLines(line: string, s: string): seq<string>
    decreases |s|
  {
    if s == "" then (if line == "" then [] else [line])
    else if s[0] == '\r' && |s| > 1 && s[1] == '\n' then [line] + SplitLines("", s[2..])
    else if IsLineBreak(s[0]) then [line] + SplitLines("", s[1..])
    else SplitLines(line + [s[0]], s[1..])
  }

  function InkyLines(lines: seq<string>): seq<string> {
    if lines == [] then []
    else (if Trim(IsPySpace, lines[0]) != "" then [TrimEnd(IsPySpace, lines[0])] else []) + InkyLines(lines[1..])
  }

  function TableLines(markdown: string): seq<string> {
    InkyLines(SplitLines("", Trim(IsPySpace, markdown)))
  }

  function AllInk(lines: seq<string>): string {
    if lines == [] then "" else Ink(IsPySpace, lines[0]) + AllInk(lines[1..])
  }

  lemma InkMoves(line: string, s: string)
    requires s != ""
    ensures Ink(IsPySpace, line + [s[0]]) + Ink(IsPySpace, s[1..]) == Ink(IsPySpace, line) + Ink(IsPySpace, s)
  {
    InkConcat(IsPySpace, line, [s[0]]);
    InkConcat(IsPySpace, [s[0]], s[1..]);
    assert s == [s[0]] + s[1..];
    Regroup(Ink(IsPySpace, line), Ink(IsPySpace, [s[0]]), Ink(IsPySpace, s[1..]));
  }

  lemma {:induction false} SplitLinesKeepInk(line: string, s: string)
    ensures AllInk(SplitLines(line, s)) == Ink(IsPySpace, line) + Ink(IsPySpace, s)
    decreases |s|
  {
    if s != "" {
      if s[0] == '\r' && |s| > 1 && s[1] == '\n' {
        assert s == [s[0], s[1]] + s[2..];
        InkOfBlank(IsPySpace, [s[0], s[1]]);
        InkConcat(IsPySpace, [s[0], s[1]], s[2..]);
        SplitLinesKeepInk("", s[2..]);
      } else if IsLineBreak(s[0]) {
        SplitLinesKeepInk("", s[1..]);
      } else {
        SplitLinesKeepInk(line + [s[0]], s[1..]);
        InkMoves(line, s);
      }
    }
  }

  lemma TrimEndKeepsInk(s: string)
    ensures Ink(IsPySpace, TrimEnd(IsPySpace, s)) == Ink(IsPySpace, s)
  {
    var t := TrimEnd(IsPySpace, s);
    assert s == t + s[|t|..];
    InkConcat(IsPySpace, t, s[|t|..]);
    InkOfBlank(IsPySpace, s[|t|..]);
  }

  lemma BlankLineHasNoInk(s: string)
    requires Trim(IsPySpace, s) == ""
    ensures Ink(IsPySpace, s) == ""
  {
    BlankIffTrimsToNothing(IsPySpace, s);
    InkOfBlank(IsPySpace, s);
  }

  lemma {:induction false} InkyLinesKeepInk(lines: seq<string>)
    ensures AllInk(InkyLines(lines)) == AllInk(lines)
  {
    if lines != [] {
      var rest := InkyLines(lines[1..]);
      InkyLinesKeepInk(lines[1..]);
      if Trim(IsPySpace, lines[0]) == "" {
        BlankLineHasNoInk(lines[0]);
        assert InkyLines(lines) == rest;
      } else {
        TrimEndKeepsInk(lines[0]);
        var line := TrimEnd(IsPySpace, lines[0]);
        assert InkyLines(lines) == [line] + rest && ([line] + rest)[1..] == rest;
      }
    }
  }

  /** The lines of a table hold all its characters but whitespace, in order. */
  lemma TableLinesKeepInk(markdown: string)
    ensures AllInk(TableLines(markdown)) == Ink(IsPySpace, markdown)
  {
    SplitLinesKeepInk("", Trim(IsPySpace, markdown));
    InkyLinesKeepInk(SplitLines("", Trim(IsPySpace, markdown)));
    TrimKeepsInk(IsPySpace, markdown);
  }

  // ----- where lines begin and end

  /** Line feed, vertical tab, form feed, carriage return, the separators 1C to 1E, next line, and the two of Unicode. */
  predicate BreaksLine(c: char) {
    || c == '\n' || c == '\U{0B}' || c == '\U{0C}' || c == '\r' || c == '\U{1C}' || c == '\U{1D}' || c == '\U{1E}'
    || c == '\U{85}' || c == '\U{2028}' || c == '\U{2029}'
  }

  predicate IsOneLine(s: string) {
    forall k :: 0 <= k < |s| ==> !BreaksLine(s[k])
  }

  lemma {:induction false} SplitIsLines(line: string, s: string)
    requires IsOneLine(line)
    ensures forall part <- SplitLines(line, s) :: IsOneLine(part)
    decreases |s|
  {
    if s != "" {
      if s[0] == '\r' && |s| > 1 && s[1] == '\n' {
        SplitIsLines("", s[2..]);
      } else if IsLineBreak(s[0]) {
        SplitIsLines("", s[1..]);
      } else {
        SplitIsLines(line + [s[0]], s[1..]);
      }
    }
  }

  /** A line runs on to the next line break, which is one character, or a carriage return and a line feed. */
  lemma {:induction false} LineRunsToBreak(line: string, a: string, b: string)
    requires IsOneLine(a) && b != "" && BreaksLine(b[0])
    ensures SplitLines(line, a + b)
         == [line + a] + SplitLines("", b[if b[0] == '\r' && |b| > 1 && b[1] == '\n' then 2 else 1..])
    decreases |a|
  {
    if a == "" {
      assert a + b == b && line + a == line;
    } else {
      assert (a + b)[1..] == a[1..] + b && (a + b)[0] == a[0];
      assert !BreaksLine(a[0]);
      assert line + [a[0]] + a[1..] == line + a;
      assert IsOneLine(a[1..]);
      LineRunsToBreak(line + [a[0]], a[1..], b);
    }
  }

  lemma {:induction false} LastLine(line: string, s: string)
    requires IsOneLine(s) && line + s != ""
    ensures SplitLines(line, s) == [line + s]
    decreases |s|
  {
    if s == "" {
      assert line + s == line;
    } else {
      assert !BreaksLine(s[0]) && IsOneLine(s[1..]);
      assert line + [s[0]] + s[1..] == line + s;
      LastLine(line + [s[0]], s[1..]);
    }
  }

  lemma {:induction false} InkyLinesAreLines(lines: seq<string>)
    requires forall line <- lines :: IsOneLine(line)
    ensures forall line <- InkyLines(lines) ::
              IsOneLine(line) && line != "" && !IsPySpace(line[|line| - 1])
  {
    if lines != [] {
      assert lines[0] in lines;
      InkyLinesAreLines(lines[1..]);
      if Trim(IsPySpace, lines[0]) != "" {
        var t := TrimEnd(IsPySpace, lines[0]);
        TrimEndKeepsInk(lines[0]);
        BlankIffTrimsToNothing(IsPySpace, lines[0]);
        InkIffNotBlank(lines[0]);
      }
    }
  }

  lemma InkIffNotBlank(s: string)
    requires !Blank(IsPySpace, s)
    ensures TrimEnd(IsPySpace, s) != "" && !IsPySpace(TrimEnd(IsPySpace, s)[|TrimEnd(IsPySpace, s)| - 1])
  {
    var k :| 0 <= k < |s| && !IsPySpace(s[k]);
  }

  /** The lines of a table hold no line break, are not empty, and do not end with whitespace. */
  lemma TableLinesAreLines(markdown: string)
    ensures forall line <- TableLines(markdown) :: IsOneLine(line) && line != "" && !IsPySpace(line[|line| - 1])
  {
    SplitIsLines("", Trim(IsPySpace, markdown));
    InkyLinesAreLines(SplitLines("", Trim(IsPySpace, markdown)));
  }

  // ----- the row partition

  function Rendered(header: seq<string>, rows: seq<string>): string {
    Join("\n", header + rows)
  }

  /** One part holds rows[start..start + k]: it fits unless it is a single row, and the next row
      would have been one too many or would not have fitted. */
  ghost predicate PartAt(header: seq<string>, rows: seq<string>, start: nat, part: Part, k: nat) {
    && 1 <= k <= MAX_TABLE_ROWS_PER_CHUNK && start + k <= |rows|
    && part == Part(Rendered(header, rows[start..start + k]), start + 2, start + 1 + k)
    && (k > 1 ==> |part.text| <= MAX_CHUNK_CHARS)
    && (start + k < |rows| && k < MAX_TABLE_ROWS_PER_CHUNK ==>
          |Rendered(header, rows[start..start + k + 1])| > MAX_CHUNK_CHARS)
  }

  function RowCount(part: Part): int {
    part.rowEnd - part.rowStart + 1
  }

  /** The parts take all rows from `start` on, in order, each as many as it can. */
  ghost predicate Partition(header: seq<string>, rows: seq<string>, start: nat, parts: seq<Part>)
    decreases |parts|
  {
    if parts == [] then start == |rows|
    else
      && RowCount(parts[0]) > 0
      && PartAt(header, rows, start, parts[0], RowCount(parts[0]))
      && Partition(header, rows, start + RowCount(parts[0]), parts[1..])
  }

  /** The inner loop: as many rows as fit. */
  method TakeRows(header: seq<string>, rows: seq<string>, start: nat) returns (selected: seq<string>)
    requires start < |rows|
    ensures var k := |selected|;
            start + k <= |rows| && PartAt(header, rows, start,
                                          Part(Rendered(header, selected), start + 2, start + 1 + k), k)
  {
    selected := [];
    while start + |selected| < |rows| && |selected| < MAX_TABLE_ROWS_PER_CHUNK
      invariant start + |selected| <= |rows| && |selected| <= MAX_TABLE_ROWS_PER_CHUNK
      invariant selected == rows[start..start + |selected|]
      invariant |selected| > 1 ==> |Rendered(header, selected)| <= MAX_CHUNK_CHARS
    {
      var candidate := selected + [rows[start + |selected|]];
      assert candidate == rows[start..start + |candidate|];
      var rendered := Join("\n", header + candidate);
      if selected != [] && |rendered| > MAX_CHUNK_CHARS {
        break;
      }
      selected := candidate;
    }
  }

  /** A small table stays whole; a larger one is partitioned by rows. */
  ghost predicate IsTableSplit(markdown: string, parts: seq<Part>) {
    var lines := TableLines(markdown);
    if |lines| <= 2 then
      parts == [Part(Trim(IsPySpace, markdown), 1, if |lines| == 0 then 1 else |lines|)]
    else Partition(lines[..2], lines[2..], 0, parts)
  }

  method MarkdownTableParts(markdown: string) returns (parts: seq<Part>)
    ensures IsTableSplit(markdown, parts)
  {
    var lines := TableLines(markdown);
    if |lines| <= 2 {
      return [Part(Trim(IsPySpace, markdown), 1, if |lines| == 0 then 1 else |lines|)];
    }
    parts := SplitRows(lines[..2], lines[2..]);
  }

  lemma PartitionOneMore(
    header: seq<string>, rows: seq<string>, start: nat, parts: seq<Part>, part: Part, k: nat)
    requires PartAt(header, rows, start, part, k)
    requires forall tail :: Partition(header, rows, start, tail) ==> Partition(header, rows, 0, parts + tail)
    ensures forall tail :: Partition(header, rows, start + k, tail) ==> Partition(header, rows, 0, parts + [part] + tail)
  {
    forall tail | Partition(header, rows, start + k, tail)
      ensures Partition(header, rows, 0, parts + [part] + tail)
    {
      assert ([part] + tail)[1..] == tail;
      assert Partition(header, rows, start, [part] + tail);
      Regroup(parts, [part], tail);
    }
  }

  method SplitRows(header: seq<string>, rows: seq<string>) returns (parts: seq<Part>)
    ensures Partition(header, rows, 0, parts)
  {
    parts := [];
    var start := 0;
    assert forall tail :: parts + tail == tail;
    while start < |rows|
      invariant 0 <= start <= |rows|
      invariant forall tail :: Partition(header, rows, start, tail) ==> Partition(header, rows, 0, parts + tail)
    {
      var selected := TakeRows(header, rows, start);
      var part := Part(Rendered(header, selected), start + 2, start + 1 + |selected|);
      PartitionOneMore(header, rows, start, parts, part, |selected|);
      parts := parts + [part];
      start := start + |selected|;
    }
    assert parts + [] == parts;
  }

  // ----- consequences

  function RowsOf(rows: seq<string>, part: Part): seq<string> {
    if 2 <= part.rowStart && part.rowStart - 1 <= part.rowEnd && part.rowEnd - 1 <= |rows|
    then rows[part.rowStart - 2..part.rowEnd - 1] else []
  }

  function AllRows(rows: seq<string>, parts: seq<Part>): seq<string> {
    if parts == [] then [] else RowsOf(rows, parts[0]) + AllRows(rows, parts[1..])
  }

  lemma OnePartsRows(header: seq<string>, rows: seq<string>, start: nat, part: Part, k: nat)
    requires PartAt(header, rows, start, part, k)
    ensures RowsOf(rows, part) + rows[start + k..] == rows[start..]
    ensures part.text == Rendered(header, RowsOf(rows, part))
  {
    assert RowsOf(rows, part) == rows[start..start + k];
    assert rows[start..] == rows[start..start + k] + rows[start + k..];
  }

  /** The parts' rows, put together, are the table's rows, and every part repeats the header. */
  lemma {:induction false} PartsHoldAllRows(header: seq<string>, rows: seq<string>, start: nat, parts: seq<Part>)
    requires start <= |rows| && Partition(header, rows, start, parts)
    ensures AllRows(rows, parts) == rows[start..]
    ensures forall part <- parts :: part.text == Rendered(header, RowsOf(rows, part))
    decreases |parts|
  {
    if parts != [] {
      var k := RowCount(parts[0]);
      PartsHoldAllRows(header, rows, start + k, parts[1..]);
      OnePartsRows(header, rows, start, parts[0], k);
      assert parts == [parts[0]] + parts[1..];
    }
  }

  /** The row ranges run without gap from row 2 to the last row. */
  lemma {:induction false} RangesAreContiguous(header: seq<string>, rows: seq<string>, start: nat, parts: seq<Part>)
    requires start <= |rows| && Partition(header, rows, start, parts)
    ensures parts != [] ==> parts[0].rowStart == start + 2 && parts[|parts| - 1].rowEnd == |rows| + 1
    ensures forall k :: 0 <= k < |parts| - 1 ==> parts[k + 1].rowStart == parts[k].rowEnd + 1
    decreases |parts|
  {
    if parts != [] {
      var rest := parts[1..];
      RangesAreContiguous(header, rows, start + RowCount(parts[0]), rest);
      forall k | 0 <= k < |parts| - 1 ensures parts[k + 1].rowStart == parts[k].rowEnd + 1 {
        if k > 0 {
          assert rest[k - 1] == parts[k] && rest[k] == parts[k + 1];
        }
      }
    }
  }

  lemma {:induction false} JoinGrows(sep: string, parts: seq<string>, more: seq<string>)
    ensures |Join(sep, parts)| <= |Join(sep, parts + more)|
  {
    if parts == [] {
    } else if more == [] {
      assert parts + more == parts;
    } else {
      JoinConcat(sep, parts, more);
    }
  }

  /** The partition is the only one of its kind. */
  lemma {:induction false} PartitionIsUnique(
    header: seq<string>, rows: seq<string>, start: nat, a: seq<Part>, b: seq<Part>)
    requires Partition(header, rows, start, a) && Partition(header, rows, start, b)
    ensures a == b
    decreases |a|
  {
    if a != [] && b != [] {
      SamePart(header, rows, start, a[0], RowCount(a[0]), b[0], RowCount(b[0]));
      PartitionIsUnique(header, rows, start + RowCount(a[0]), a[1..], b[1..]);
      assert a == [a[0]] + a[1..] && b == [b[0]] + b[1..];
    }
  }

  lemma SamePart(header: seq<string>, rows: seq<string>, start: nat, a: Part, j: nat, b: Part, k: nat)
    requires PartAt(header, rows, start, a, j) && PartAt(header, rows, start, b, k)
    ensures a == b
  {
    if j < k {
      NoLonger(header, rows, start, j, k);
    } else if k < j {
      NoLonger(header, rows, start, k, j);
    }
  }

  lemma NoLonger(header: seq<string>, rows: seq<string>, start: nat, j: nat, k: nat)
    requires 1 <= j < k && start + k <= |rows|
    ensures |Rendered(header, rows[start..start + j + 1])| <= |Rendered(header, rows[start..start + k])|
  {
    var short, more := rows[start..start + j + 1], rows[start + j + 1..start + k];
    assert rows[start..start + k] == short + more;
    assert header + (short + more) == header + short + more;
    JoinGrows("\n", header + short, more);
  }
}
