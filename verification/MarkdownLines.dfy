/** Lines and code fences of chat markdown (src/components/MarkdownMessage.tsx). */
module MarkdownLines {

  /** Where the line that contains `start` ends, its newline included. */
  function LineEnd(source: string, start: nat): (end: nat)
    requires start <= |source|
    ensures start <= end <= |source|
    ensures start < |source| ==> start < end
    ensures forall k :: start <= k < end - 1 ==> source[k] != '\n'
    ensures end < |source| ==> end > 0 && source[end - 1] == '\n'
    decreases |source| - start
  {
    if start == |source| then start
    else if source[start] == '\n' then start + 1
    else LineEnd(source, start + 1)
  }

  predicate AtLineStart(source: string, index: nat)
    requires index <= |source|
  {
    index == 0 || source[index - 1] == '\n'
  }

  /** How many times `c` stands at `index` and right after it. */
  function RunLength(source: string, index: nat, c: char): (n: nat)
    requires index <= |source|
    ensures index + n <= |source|
    ensures forall k :: index <= k < index + n ==> source[k] == c
    ensures index + n < |source| ==> source[index + n] != c
    decreases |source| - index
  {
    if index < |source| && source[index] == c then 1 + RunLength(source, index + 1, c) else 0
  }

  /** A fence line: its character, its length, and whether only blanks follow. */
  datatype Marker = NoMarker | Marker(mark: char, length: nat, canClose: bool)

  /** The line without a final newline or carriage return and newline. */
  function Body(line: string): string {
    if line != "" && line[|line| - 1] == '\n' then
      if |line| > 1 && line[|line| - 2] == '\r' then line[..|line| - 2] else line[..|line| - 1]
    else line
  }

  /** Up to three spaces, three or more backticks or tildes, then anything but line breaks. */
  function FenceAtLineStart(line: string): Marker {
    var body := Body(line);
    var indent := RunLength(body, 0, ' ');
    if indent > 3 || indent == |body| || (body[indent] != '`' && body[indent] != '~')
       || (exists k :: 0 <= k < |body| && (body[k] == '\r' || body[k] == '\n')) then NoMarker
    else
      var length := RunLength(body, indent, body[indent]);
      if length < 3 then NoMarker
      else Marker(body[indent], length, forall k :: indent + length <= k < |body| ==> body[k] == ' ' || body[k] == '\t')
  }

  /** Indented code: a tab or four spaces. */
  predicate IndentedCode(line: string) {
    (line != "" && line[0] == '\t') || RunLength(line, 0, ' ') >= 4
  }

  predicate Closes(marker: Marker, fence: Marker) {
    marker.Marker? && fence.Marker? && marker.canClose && marker.mark == fence.mark && marker.length >= fence.length
  }
}
