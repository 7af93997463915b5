/** Splitting over-long text into overlapping windows (document-parser/app/parser.py, _split_long_text). */
module LongText {
  import opened Sequences
  import opened Whitespace

  const MAX_CHUNK_CHARS: nat := 1200
  const CHUNK_OVERLAP_CHARS: nat := 200

  datatype Window = Window(start: nat, end: nat)

  predicate IsBreak(c: char) {
    c == '\n' || c == '。'
  }

  /** The last break in content[start..end], or -1. */
  function LastBreak(content: string, start: nat, end: nat): (b: int)
    requires start <= end <= |content|
    ensures b == -1 || (start <= b < end && IsBreak(content[b]))
    ensures forall k :: start <= k < end && k > b ==> !IsBreak(content[k])
    decreases end
  {
    if start == end then -1
    else if IsBreak(content[end - 1]) then end - 1
    else LastBreak(content, start, end - 1)
  }

  /** A window ends at a break in its second half, else after 1200 characters or with the text. */
  function WindowEnd(content: string, start: nat): (end: nat)
    requires start < |content|
    ensures start < end <= |content| && end <= start + MAX_CHUNK_CHARS
    ensures end < |content| ==> start + MAX_CHUNK_CHARS < |content| && end >= start + 602
  {
    if start + MAX_CHUNK_CHARS >= |content| then |content|
    else
      var b := LastBreak(content, start, start + MAX_CHUNK_CHARS);
      if b > start + MAX_CHUNK_CHARS / 2 then b + 1 else start + MAX_CHUNK_CHARS
  }

  function Windows(content: string, start: nat): seq<Window>
    requires start < |content|
    decreases |content| - start
  {
    var end := WindowEnd(content, start);
    [Window(start, end)] + (if end == |content| then [] else Windows(content, end - CHUNK_OVERLAP_CHARS))
  }

  function Text(content: string, w: Window): string {
    if w.start <= w.end <= |content| then content[w.start..w.end] else ""
  }

  /** The trimmed texts of the windows, without the blank ones. */
  function Parts(content: string, windows: seq<Window>): seq<string> {
    if windows == [] then []
    else
      var part := Trim(IsPySpace, Text(content, windows[0]));
      (if part != "" then [part] else []) + Parts(content, windows[1..])
  }

  function SplitParts(content: string): seq<string> {
    if |content| <= MAX_CHUNK_CHARS then [content] else Parts(content, Windows(content, 0))
  }

  lemma PartsCons(content: string, w: Window, rest: seq<Window>)
    ensures
      var part := Trim(IsPySpace, Text(content, w));
      Parts(content, [w] + rest) == (if part != "" then [part] else []) + Parts(content, rest)
  {
    assert ([w] + rest)[1..] == rest;
  }

  /** What the windows from `start` on still contribute. */
  function Tail(content: string, start: nat): seq<string>
    requires start < |content|
  {
    Parts(content, Windows(content, start))
  }

  /** The part that one window gives, if any. */
  function Found(content: string, w: Window): seq<string> {
    var part := Trim(IsPySpace, Text(content, w));
    if part != "" then [part] else []
  }

  /** What the windows after one that ends at `end` contribute. */
  function After(content: string, end: nat): seq<string>
    requires CHUNK_OVERLAP_CHARS < end <= |content| || end == |content|
  {
    if end == |content| then [] else Tail(content, end - CHUNK_OVERLAP_CHARS)
  }

  lemma TailStep(content: string, start: nat)
    requires start < |content|
    ensures var end := WindowEnd(content, start);
            Tail(content, start) == Found(content, Window(start, end)) + After(content, end)
  {
    var end := WindowEnd(content, start);
    if end == |content| {
      PartsCons(content, Window(start, end), []);
    } else {
      PartsCons(content, Window(start, end), Windows(content, end - CHUNK_OVERLAP_CHARS));
    }
  }

  lemma MoreParts(content: string, parts: seq<string>, start: nat, end: nat)
    requires start < |content| && end == WindowEnd(content, start)
    ensures parts + Tail(content, start) == parts + Found(content, Window(start, end)) + After(content, end)
    ensures end == |content| ==> parts + Tail(content, start) == parts + Found(content, Window(start, end))
  {
    TailStep(content, start);
    Regroup(parts, Found(content, Window(start, end)), After(content, end));
  }

  /** The parts found so far and those still to come are all there are. */
  predicate OnTheWay(content: string, parts: seq<string>, start: nat) {
    start < |content| && parts + Tail(content, start) == Tail(content, 0)
  }

  lemma Advance(content: string, parts: seq<string>, start: nat, end: nat, found: seq<string>)
    requires OnTheWay(content, parts, start) && end == WindowEnd(content, start)
    requires found == Found(content, Window(start, end))
    ensures end == |content| ==> parts + found == Tail(content, 0)
    ensures end < |content| ==> OnTheWay(content, parts + found, end - CHUNK_OVERLAP_CHARS)
  {
    MoreParts(content, parts, start, end);
  }

  method FindWindowEnd(content: string, start: nat) returns (end: nat)
    requires start < |content|
    ensures end == WindowEnd(content, start)
  {
    end := if |content| <= start + MAX_CHUNK_CHARS then |content| else start + MAX_CHUNK_CHARS;
    if end < |content| {
      var boundary := LastBreak(content, start, end);
      if boundary > start + MAX_CHUNK_CHARS / 2 {
        end := boundary + 1;
      }
    }
  }

  method SplitLongText(content: string) returns (parts: seq<string>)
    ensures parts == SplitParts(content)
  {
    if |content| <= MAX_CHUNK_CHARS {
      return [content];
    }
    parts := [];
    var start := 0;
    while true
      invariant OnTheWay(content, parts, start)
      decreases |content| - start
    {
      var end := FindWindowEnd(content, start);
      var found := Found(content, Window(start, end));
      Advance(content, parts, start, end, found);
      parts := parts + found;
      if end >= |content| {
        return;
      }
      start := if start + 1 >= end - CHUNK_OVERLAP_CHARS then start + 1 else end - CHUNK_OVERLAP_CHARS;
    }
  }

  // ----- what the windows do

  /** Windows tile the text from `start` to its end: none over 1200 long, each but the last at least
      602 long, and each begins exactly 200 characters before its predecessor's end. */
  ghost predicate Tiles(content: string, start: nat, windows: seq<Window>) {
    && windows != []
    && windows[0].start == start
    && windows[|windows| - 1].end == |content|
    && (forall k :: 0 <= k < |windows| ==>
          windows[k].start < windows[k].end <= |content| && windows[k].end - windows[k].start <= MAX_CHUNK_CHARS)
    && (forall k, l :: 0 <= k && l == k + 1 && l < |windows| ==> Overlap(content, windows[k], windows[l]))
  }

  predicate Overlap(content: string, w: Window, next: Window) {
    && w.end - w.start >= 602
    && next.start == w.end - CHUNK_OVERLAP_CHARS
    && w.start + MAX_CHUNK_CHARS < |content|
    && EndsAtBreak(content, w)
  }

  predicate BreakAt(content: string, k: nat) {
    k < |content| && (content[k] == '\n' || content[k] == '。')
  }

  /** A window ends behind the last break of its second half, and only without one after 1200 characters. */
  predicate EndsAtBreak(content: string, w: Window) {
    && w.end <= w.start + 1200
    && (w.end < w.start + 1200 ==> w.end > w.start + 601 && BreakAt(content, w.end - 1))
    && (forall k :: w.end <= k < w.start + 1200 ==> !BreakAt(content, k))
    && (w.end == w.start + 1200 && !BreakAt(content, w.end - 1) ==>
          forall k :: w.start + 600 < k < w.end ==> !BreakAt(content, k))
  }

  lemma WindowEndsAtBreak(content: string, start: nat)
    requires start < |content| && WindowEnd(content, start) < |content|
    ensures EndsAtBreak(content, Window(start, WindowEnd(content, start)))
  {
  }

  lemma TilesCons(content: string, start: nat, end: nat, rest: seq<Window>, windows: seq<Window>)
    requires start + 602 <= end <= start + MAX_CHUNK_CHARS < |content|
    requires Tiles(content, end - CHUNK_OVERLAP_CHARS, rest) && windows == [Window(start, end)] + rest
    requires EndsAtBreak(content, Window(start, end))
    ensures Tiles(content, start, windows)
  {
    assert windows[0] == Window(start, end);
    assert forall k :: 0 < k < |windows| ==> windows[k] == rest[k - 1];
  }

  lemma {:induction false} WindowsTile(content: string, start: nat)
    requires start < |content|
    ensures Tiles(content, start, Windows(content, start))
    decreases |content| - start
  {
    var end := WindowEnd(content, start);
    if end < |content| {
      WindowsTile(content, end - CHUNK_OVERLAP_CHARS);
      WindowEndsAtBreak(content, start);
      TilesCons(content, start, end, Windows(content, end - CHUNK_OVERLAP_CHARS), Windows(content, start));
    } else {
      LastTiles(content, start);
    }
  }

  lemma LastTiles(content: string, start: nat)
    requires start < |content| && WindowEnd(content, start) == |content|
    ensures Tiles(content, start, Windows(content, start))
  {
    assert Windows(content, start) == [Window(start, |content|)];
  }

  /** The windows' texts, each without what it shares with its predecessor. */
  function Stitched(content: string, windows: seq<Window>): string {
    if windows == [] then ""
    else if |windows| == 1 then Text(content, windows[0])
    else
      var text := Text(content, windows[0]);
      (if |text| >= CHUNK_OVERLAP_CHARS then text[..|text| - CHUNK_OVERLAP_CHARS] else "")
      + Stitched(content, windows[1..])
  }

  lemma StitchedCons(content: string, w: Window, rest: seq<Window>)
    requires rest != [] && w.start + CHUNK_OVERLAP_CHARS <= w.end <= |content|
    ensures Stitched(content, [w] + rest) == content[w.start..w.end - CHUNK_OVERLAP_CHARS] + Stitched(content, rest)
  {
    StitchedStep(content, [w] + rest, w, rest);
    CutText(content, w);
  }

  lemma CutText(content: string, w: Window)
    requires w.start + CHUNK_OVERLAP_CHARS <= w.end <= |content|
    ensures var text := Text(content, w);
            |text| >= CHUNK_OVERLAP_CHARS
            && text[..|text| - CHUNK_OVERLAP_CHARS] == content[w.start..w.end - CHUNK_OVERLAP_CHARS]
  {
    FrontOfSlice(content, w.start, w.end, w.end - w.start - CHUNK_OVERLAP_CHARS);
  }

  lemma StitchedStep(content: string, windows: seq<Window>, w: Window, rest: seq<Window>)
    requires windows == [w] + rest && rest != [] && |Text(content, w)| >= CHUNK_OVERLAP_CHARS
    ensures var text := Text(content, w);
            Stitched(content, windows) == text[..|text| - CHUNK_OVERLAP_CHARS] + Stitched(content, rest)
  {
    HeadAndRest(w, rest);
  }

  lemma SplitAtPoint(content: string, start: nat, next: nat)
    requires start <= next <= |content|
    ensures content[start..] == content[start..next] + content[next..]
  {
  }

  /** Nothing lies between two windows: dropping the overlaps gives the text back. */
  lemma {:induction false} StitchingGivesTheText(content: string, start: nat)
    requires start < |content|
    ensures Stitched(content, Windows(content, start)) == content[start..]
    decreases |content| - start
  {
    var end := WindowEnd(content, start);
    if end < |content| {
      var next := end - CHUNK_OVERLAP_CHARS;
      StitchingGivesTheText(content, next);
      StitchedCons(content, Window(start, end), Windows(content, next));
      SplitAtPoint(content, start, next);
    } else {
      assert Windows(content, start) == [Window(start, end)];
    }
  }

  /** The start of the k-th window grows by at least 402 a step. */
  lemma {:induction false} StartsAdvance(content: string, start: nat, windows: seq<Window>, k: nat)
    requires Tiles(content, start, windows) && k < |windows|
    ensures windows[k].start >= start + 402 * k
  {
    if k > 0 {
      StartsAdvance(content, start, windows, k - 1);
    }
  }

  /** At most 1 + ceil((n - 1200) / 402) windows for a text of n > 1200 characters. */
  lemma WindowCount(content: string)
    requires |content| > MAX_CHUNK_CHARS
    ensures |Windows(content, 0)| - 1 <= (|content| - MAX_CHUNK_CHARS + 401) / 402
  {
    var windows := Windows(content, 0);
    WindowsTile(content, 0);
    if |windows| >= 2 {
      StartsAdvance(content, 0, windows, |windows| - 2);
      assert windows[|windows| - 2].start + MAX_CHUNK_CHARS < |content|;
    }
  }

  lemma RestTiles(content: string, start: nat, windows: seq<Window>)
    requires Tiles(content, start, windows) && |windows| > 1
    ensures Tiles(content, windows[1].start, windows[1..])
  {
    assert forall k :: 0 <= k < |windows[1..]| ==> windows[1..][k] == windows[k + 1];
  }

  lemma PartsOfBoth(content: string, windows: seq<Window>)
    requires windows != []
    ensures var part := Trim(IsPySpace, Text(content, windows[0]));
            part != "" ==> part in Parts(content, windows)
    ensures forall part <- Parts(content, windows[1..]) :: part in Parts(content, windows)
  {
  }

  lemma InkIsKept(content: string, w: Window, p: nat)
    requires w.start <= p < w.end <= |content| && !IsPySpace(content[p])
    ensures Trim(IsPySpace, Text(content, w)) != ""
    ensures Ink(IsPySpace, Trim(IsPySpace, Text(content, w))) == Ink(IsPySpace, Text(content, w))
  {
    assert Text(content, w)[p - w.start] == content[p];
    BlankIffTrimsToNothing(IsPySpace, Text(content, w));
    TrimKeepsInk(IsPySpace, Text(content, w));
  }

  /** Every character that is not whitespace lies in some window, whose trimmed text is a part and
      still holds all of the window's ink. */
  lemma {:induction false} EveryInkInSomePart(content: string, windows: seq<Window>, start: nat, p: nat)
    returns (w: Window)
    requires Tiles(content, start, windows) && start <= p < |content| && !IsPySpace(content[p])
    ensures w in windows && w.start <= p < w.end
    ensures Trim(IsPySpace, Text(content, w)) in Parts(content, windows)
    ensures Ink(IsPySpace, Trim(IsPySpace, Text(content, w))) == Ink(IsPySpace, Text(content, w))
  {
    if p < windows[0].end {
      w := windows[0];
      InkIsKept(content, w, p);
      PartsOfBoth(content, windows);
    } else {
      RestTiles(content, start, windows);
      w := EveryInkInSomePart(content, windows[1..], windows[1].start, p);
      PartsOfBoth(content, windows);
    }
  }

  /** No part is longer than a chunk may be. */
  lemma {:induction false} PartsAreShort(content: string, windows: seq<Window>)
    requires forall w <- windows :: w.start <= w.end <= |content| && w.end - w.start <= MAX_CHUNK_CHARS
    ensures forall part <- Parts(content, windows) :: 0 < |part| <= MAX_CHUNK_CHARS
  {
    if windows != [] {
      assert windows[0] in windows;
      PartsAreShort(content, windows[1..]);
    }
  }
}
