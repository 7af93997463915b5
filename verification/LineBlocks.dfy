/**
 * Cutting a list of lines into blocks, for any rules about what a line opens, closes and continues
 * (the line loop of splitMarkdownBlocks in src/components/MarkdownMessage.tsx).
 */
module LineBlocks {
  import opened Sequences

  /** An open code fence, with its character and length, and whether display math is open. */
  datatype State = State(fence: Option<(char, nat)>, inDisplayMath: bool)

  const OFF := State(None, false)

  datatype Rules = Rules(
    blank: string -> bool,
    advance: (State, string) -> State,
    continues: (string, string) -> bool)

  /** The first line from `k` on that is not blank, or nothing. */
  function NextNonEmpty(rules: Rules, lines: seq<string>, k: nat): string
    requires k <= |lines|
    decreases |lines| - k
  {
    if k == |lines| then "" else if rules.blank(lines[k]) then NextNonEmpty(rules, lines, k + 1) else lines[k]
  }

  /** The state after the first `k` lines. */
  function StateAt(rules: Rules, lines: seq<string>, k: nat): State
    requires k <= |lines|
  {
    if k == 0 then OFF else rules.advance(StateAt(rules, lines, k - 1), lines[k - 1])
  }

  // ----- the reference: from each block's first line, look ahead to its end

  /** A block that starts with line `start` ends with line `k`. */
  predicate EndsAt(rules: Rules, lines: seq<string>, start: nat, k: nat)
    requires start <= k < |lines|
  {
    && rules.blank(lines[k])
    && StateAt(rules, lines, k + 1) == OFF
    && !rules.continues(Flatten(lines[start..k + 1]), NextNonEmpty(rules, lines, k + 1))
  }

  function BlockEnd(rules: Rules, lines: seq<string>, start: nat, k: nat): (end: nat)
    requires start <= k <= |lines|
    ensures k <= end <= |lines|
    ensures k < |lines| ==> k < end
    ensures end < |lines| ==> EndsAt(rules, lines, start, end - 1)
    decreases |lines| - k
  {
    if k == |lines| then k
    else if EndsAt(rules, lines, start, k) then k + 1
    else BlockEnd(rules, lines, start, k + 1)
  }

  /** The blocks from line `start` on, blank ones included. */
  function Pieces(rules: Rules, lines: seq<string>, start: nat): seq<string>
    requires start <= |lines|
    decreases |lines| - start
  {
    if start == |lines| then []
    else
      var end := BlockEnd(rules, lines, start, start);
      [Flatten(lines[start..end])] + Pieces(rules, lines, end)
  }

  function NonBlank(rules: Rules, pieces: seq<string>): seq<string> {
    if pieces == [] then []
    else (if rules.blank(pieces[0]) then [] else [pieces[0]]) + NonBlank(rules, pieces[1..])
  }

  // ----- the loop

  /** The next line with text for every line, collected from the end. */
  method NextNonEmptyLines(rules: Rules, lines: seq<string>) returns (nexts: seq<string>)
    ensures |nexts| == |lines|
    ensures forall k :: 0 <= k < |lines| ==> nexts[k] == NextNonEmpty(rules, lines, k + 1)
  {
    nexts := seq(|lines|, _ => "");
    var next, index := "", |lines|;
    while index > 0
      invariant 0 <= index <= |lines| == |nexts|
      invariant next == NextNonEmpty(rules, lines, index)
      invariant forall k :: index <= k < |lines| ==> nexts[k] == NextNonEmpty(rules, lines, k + 1)
    {
      index := index - 1;
      nexts := nexts[index := next];
      if !rules.blank(lines[index]) {
        next := lines[index];
      }
    }
  }

  lemma LastOfSlice(lines: seq<string>, start: nat, k: nat)
    requires start <= k < |lines|
    ensures Flatten(lines[start..k + 1]) == Flatten(lines[start..k]) + lines[k]
  {
    assert lines[start..k + 1] == lines[start..k] + [lines[k]];
    FlattenSnoc(lines[start..k], lines[k]);
  }

  lemma PieceDone(rules: Rules, blocks: seq<string>, piece: string, rest: seq<string>)
    ensures blocks + NonBlank(rules, [piece] + rest)
         == (if rules.blank(piece) then blocks else blocks + [piece]) + NonBlank(rules, rest)
  {
    assert ([piece] + rest)[1..] == rest;
    Regroup(blocks, [piece], NonBlank(rules, rest));
  }

  /** The block that starts with line `start` has not ended before line `index`. */
  predicate Scanning(rules: Rules, lines: seq<string>, start: nat, index: nat, current: string, state: State) {
    && start <= index <= |lines|
    && current == Flatten(lines[start..index])
    && state == StateAt(rules, lines, index)
    && BlockEnd(rules, lines, start, index) == BlockEnd(rules, lines, start, start)
  }

  lemma ScanLine(rules: Rules, lines: seq<string>, start: nat, index: nat, current: string, state: State)
    requires Scanning(rules, lines, start, index, current, state) && index < |lines|
    ensures
      var more, next := current + lines[index], rules.advance(state, lines[index]);
      if rules.blank(lines[index]) && next == OFF && !rules.continues(more, NextNonEmpty(rules, lines, index + 1)) then
        && BlockEnd(rules, lines, start, start) == index + 1 && more == Flatten(lines[start..index + 1])
        && Scanning(rules, lines, index + 1, index + 1, "", next)
      else Scanning(rules, lines, start, index + 1, more, next)
  {
    LastOfSlice(lines, start, index);
  }

  /** The blocks so far and those from line `start` on are all there are. */
  predicate Collected(rules: Rules, lines: seq<string>, blocks: seq<string>, start: nat) {
    && start <= |lines|
    && blocks + NonBlank(rules, Pieces(rules, lines, start)) == NonBlank(rules, Pieces(rules, lines, 0))
  }

  lemma CollectedMore(rules: Rules, lines: seq<string>, blocks: seq<string>, start: nat, piece: string)
    requires Collected(rules, lines, blocks, start) && start < |lines|
    requires piece == Flatten(lines[start..BlockEnd(rules, lines, start, start)])
    ensures Collected(rules, lines, if rules.blank(piece) then blocks else blocks + [piece],
                      BlockEnd(rules, lines, start, start))
  {
    PieceDone(rules, blocks, piece, Pieces(rules, lines, BlockEnd(rules, lines, start, start)));
  }

  lemma CollectedAll(rules: Rules, lines: seq<string>, blocks: seq<string>, start: nat, piece: string)
    requires Collected(rules, lines, blocks, start) && rules.blank("")
    requires piece == Flatten(lines[start..|lines|]) && BlockEnd(rules, lines, start, start) == |lines|
    ensures (if rules.blank(piece) then blocks else blocks + [piece]) == NonBlank(rules, Pieces(rules, lines, 0))
  {
    if start < |lines| {
      CollectedMore(rules, lines, blocks, start, piece);
    }
    assert Pieces(rules, lines, |lines|) == [];
  }

  method SplitLines(rules: Rules, lines: seq<string>) returns (blocks: seq<string>)
    requires rules.blank("")
    ensures blocks == NonBlank(rules, Pieces(rules, lines, 0))
  {
    var nexts := NextNonEmptyLines(rules, lines);
    var current, state, index := "", OFF, 0;
    blocks := [];
    ghost var start := 0;
    while index < |lines|
      invariant Scanning(rules, lines, start, index, current, state)
      invariant Collected(rules, lines, blocks, start)
    {
      ScanLine(rules, lines, start, index, current, state);
      current := current + lines[index];
      state := rules.advance(state, lines[index]);
      if rules.blank(lines[index]) && state == OFF && !rules.continues(current, nexts[index]) {
        CollectedMore(rules, lines, blocks, start, current);
        if !rules.blank(current) {
          blocks := blocks + [current];
        }
        current := "";
        start := index + 1;
      }
      index := index + 1;
    }
    CollectedAll(rules, lines, blocks, start, current);
    if !rules.blank(current) {
      blocks := blocks + [current];
    }
  }

  // ----- nothing is lost, and every block is whole

  lemma {:induction false} PiecesHoldTheLines(rules: Rules, lines: seq<string>, start: nat)
    requires start <= |lines|
    ensures Flatten(Pieces(rules, lines, start)) == Flatten(lines[start..])
    decreases |lines| - start
  {
    if start < |lines| {
      var end := BlockEnd(rules, lines, start, start);
      PiecesHoldTheLines(rules, lines, end);
      assert lines[start..] == lines[start..end] + lines[end..];
      FlattenConcat(lines[start..end], lines[end..]);
    }
  }

  /** No line before a block's last could have ended it. */
  lemma {:induction false} EndIsFirst(rules: Rules, lines: seq<string>, start: nat, k: nat, m: nat)
    requires start <= k <= m < |lines| && m + 1 < BlockEnd(rules, lines, start, k)
    ensures !EndsAt(rules, lines, start, m)
    decreases |lines| - k
  {
    if k < m {
      EndIsFirst(rules, lines, start, k + 1, m);
    }
  }

  /** Read on its own, a block that starts with everything closed passes through the same states. */
  lemma {:induction false} StateFromOff(rules: Rules, lines: seq<string>, start: nat, k: nat)
    requires start <= k <= |lines| && StateAt(rules, lines, start) == OFF
    ensures StateAt(rules, lines[start..], k - start) == StateAt(rules, lines, k)
    decreases k
  {
    if start < k {
      StateFromOff(rules, lines, start, k - 1);
    }
  }

  /** Every block but the last ends with everything closed, also when read on its own. */
  lemma BlockIsWhole(rules: Rules, lines: seq<string>, start: nat, end: nat)
    requires start <= |lines| && StateAt(rules, lines, start) == OFF
    requires end == BlockEnd(rules, lines, start, start) < |lines|
    ensures start <= end && StateAt(rules, lines, end) == OFF
    ensures StateAt(rules, lines[start..end], end - start) == OFF
  {
    StateFromOff(rules, lines, start, end);
    assert lines[start..] == lines[start..end] + lines[end..];
    StateOfMore(rules, lines[start..end], lines[end..], end - start);
  }

  /** A boundary behind a blank line, with fence and math closed. */
  predicate IsSafe(rules: Rules, lines: seq<string>, k: nat) {
    0 < k <= |lines| && rules.blank(lines[k - 1]) && StateAt(rules, lines, k) == OFF
  }

  /** The lines from `i` to `j`, read on their own, leave fence and math closed. */
  predicate IsClosed(rules: Rules, lines: seq<string>, i: nat, j: nat) {
    i < j <= |lines| && StateAt(rules, lines[i..j], j - i) == OFF
  }

  /** The first line of each piece, and the end of the lines. */
  function Bounds(rules: Rules, lines: seq<string>, start: nat): (bounds: seq<nat>)
    requires start <= |lines|
    ensures bounds != [] && bounds[0] == start && bounds[|bounds| - 1] == |lines|
    decreases |lines| - start
  {
    if start == |lines| then [start] else [start] + Bounds(rules, lines, BlockEnd(rules, lines, start, start))
  }

  /** Every piece is the text between its bounds. */
  lemma {:induction false} PiecesAtBounds(rules: Rules, lines: seq<string>, start: nat, i: nat)
    requires start <= |lines| && i < |Pieces(rules, lines, start)|
    ensures var bounds := Bounds(rules, lines, start);
            && |bounds| == |Pieces(rules, lines, start)| + 1
            && bounds[i] < bounds[i + 1] <= |lines|
            && Pieces(rules, lines, start)[i] == Flatten(lines[bounds[i]..bounds[i + 1]])
    decreases |lines| - start
  {
    var end := BlockEnd(rules, lines, start, start);
    if i > 0 {
      PiecesAtBounds(rules, lines, end, i - 1);
    } else if end < |lines| {
      PiecesAtBounds(rules, lines, end, 0);
    }
  }

  /** All boundaries are safe, and all pieces but the last are closed. */
  lemma {:induction false} BoundsAreSafe(rules: Rules, lines: seq<string>, start: nat, i: nat)
    requires start <= |lines| && StateAt(rules, lines, start) == OFF
    requires i + 2 < |Bounds(rules, lines, start)|
    ensures var bounds := Bounds(rules, lines, start);
            IsSafe(rules, lines, bounds[i + 1]) && IsClosed(rules, lines, bounds[i], bounds[i + 1])
    decreases |lines| - start
  {
    var end := BlockEnd(rules, lines, start, start);
    BlockIsWhole(rules, lines, start, end);
    if i > 0 {
      BoundsAreSafe(rules, lines, end, i - 1);
    }
  }

  function PieceAt(lines: seq<string>, bounds: seq<nat>, i: nat): string {
    if i + 1 < |bounds| && bounds[i] <= bounds[i + 1] <= |lines| then Flatten(lines[bounds[i]..bounds[i + 1]]) else ""
  }

  /** Piece `i` is closed and the next one begins at a safe boundary. */
  predicate IsSafeCut(rules: Rules, lines: seq<string>, bounds: seq<nat>, i: nat) {
    i + 1 < |bounds| && IsSafe(rules, lines, bounds[i + 1]) && IsClosed(rules, lines, bounds[i], bounds[i + 1])
  }

  /** The pieces lie between their bounds; all inner bounds are safe, and all pieces but the last are closed. */
  ghost predicate CutSafely(rules: Rules, lines: seq<string>, bounds: seq<nat>, pieces: seq<string>) {
    && |bounds| == |pieces| + 1
    && (forall i :: 0 <= i < |pieces| ==> PieceAt(lines, bounds, i) == pieces[i])
    && (forall i :: 0 <= i < |pieces| - 1 ==> IsSafeCut(rules, lines, bounds, i))
  }

  lemma PiecesAreCutSafely(rules: Rules, lines: seq<string>)
    ensures CutSafely(rules, lines, Bounds(rules, lines, 0), Pieces(rules, lines, 0))
  {
    var bounds, pieces := Bounds(rules, lines, 0), Pieces(rules, lines, 0);
    if lines != [] {
      assert pieces != [];
      PiecesAtBounds(rules, lines, 0, 0);
    }
    forall i | 0 <= i < |pieces|
      ensures PieceAt(lines, bounds, i) == pieces[i]
    {
      PiecesAtBounds(rules, lines, 0, i);
    }
    forall i | 0 <= i < |pieces| - 1
      ensures IsSafeCut(rules, lines, bounds, i)
    {
      BoundsAreSafe(rules, lines, 0, i);
    }
  }

  // ----- text that arrives later

  lemma {:induction false} StateOfMore(rules: Rules, lines: seq<string>, more: seq<string>, k: nat)
    requires k <= |lines|
    ensures StateAt(rules, lines + more, k) == StateAt(rules, lines, k)
  {
    if k > 0 {
      StateOfMore(rules, lines, more, k - 1);
    }
  }

  predicate TextFrom(rules: Rules, lines: seq<string>, k: nat) {
    exists m :: k <= m < |lines| && !rules.blank(lines[m])
  }

  lemma {:induction false} NextOfMore(rules: Rules, lines: seq<string>, more: seq<string>, k: nat)
    requires k <= |lines| && TextFrom(rules, lines, k)
    ensures NextNonEmpty(rules, lines + more, k) == NextNonEmpty(rules, lines, k)
    decreases |lines| - k
  {
    if rules.blank(lines[k]) {
      NextOfMore(rules, lines, more, k + 1);
    }
  }

  lemma EndsAtOfMore(rules: Rules, lines: seq<string>, more: seq<string>, start: nat, k: nat)
    requires start <= k < |lines| && TextFrom(rules, lines, k + 1)
    ensures EndsAt(rules, lines + more, start, k) == EndsAt(rules, lines, start, k)
  {
    StateOfMore(rules, lines, more, k + 1);
    NextOfMore(rules, lines, more, k + 1);
    assert (lines + more)[start..k + 1] == lines[start..k + 1];
  }

  /** A block that has text after it keeps its end. */
  lemma {:induction false} BlockEndOfMore(rules: Rules, lines: seq<string>, more: seq<string>, start: nat, k: nat)
    requires start <= k <= |lines| && TextFrom(rules, lines, BlockEnd(rules, lines, start, k))
    ensures BlockEnd(rules, lines + more, start, k) == BlockEnd(rules, lines, start, k)
    decreases |lines| - k
  {
    EndsAtOfMore(rules, lines, more, start, k);
    if !EndsAt(rules, lines, start, k) {
      BlockEndOfMore(rules, lines, more, start, k + 1);
    }
  }

  /** Text is blank when all its parts are. */
  ghost predicate Additive(blank: string -> bool) {
    blank("") && forall a: string, b: string :: blank(a + b) == (blank(a) && blank(b))
  }

  lemma {:induction false} BlankLinesAreBlank(rules: Rules, lines: seq<string>)
    requires Additive(rules.blank) && forall line <- lines :: rules.blank(line)
    ensures rules.blank(Flatten(lines))
  {
    if lines != [] {
      assert lines[0] in lines;
      BlankLinesAreBlank(rules, lines[1..]);
    }
  }

  lemma {:induction false} BlockMeansText(rules: Rules, lines: seq<string>, start: nat)
    requires Additive(rules.blank) && start <= |lines|
    requires NonBlank(rules, Pieces(rules, lines, start)) != []
    ensures TextFrom(rules, lines, start)
    decreases |lines| - start
  {
    var end := BlockEnd(rules, lines, start, start);
    if rules.blank(Flatten(lines[start..end])) {
      BlockMeansText(rules, lines, end);
    } else if forall line <- lines[start..end] :: rules.blank(line) {
      BlankLinesAreBlank(rules, lines[start..end]);
    } else {
      var m :| start <= m < end && !rules.blank(lines[m]);
    }
  }

  lemma OneBlockMore(rules: Rules, piece: string, rest: seq<string>, later: seq<string>)
    requires NonBlank(rules, rest) != []
    requires NonBlank(rules, rest)[..|NonBlank(rules, rest)| - 1] <= NonBlank(rules, later)
    ensures var blocks := NonBlank(rules, [piece] + rest);
            blocks != [] && blocks[..|blocks| - 1] <= NonBlank(rules, [piece] + later)
  {
    PieceDone(rules, [], piece, rest);
    PieceDone(rules, [], piece, later);
    var front := if rules.blank(piece) then [] else [piece];
    assert NonBlank(rules, [piece] + rest) == front + NonBlank(rules, rest);
    assert NonBlank(rules, [piece] + later) == front + NonBlank(rules, later);
  }

  /** However many lines follow, all blocks but the last stay as they are. */
  lemma {:induction false} FinishedBlocksStay(rules: Rules, lines: seq<string>, more: seq<string>, start: nat)
    requires Additive(rules.blank) && start <= |lines|
    requires NonBlank(rules, Pieces(rules, lines, start)) != []
    ensures var blocks := NonBlank(rules, Pieces(rules, lines, start));
            blocks[..|blocks| - 1] <= NonBlank(rules, Pieces(rules, lines + more, start))
    decreases |lines| - start
  {
    var end := BlockEnd(rules, lines, start, start);
    var rest := NonBlank(rules, Pieces(rules, lines, end));
    if rest != [] {
      BlockMeansText(rules, lines, end);
      BlockEndOfMore(rules, lines, more, start, start);
      FinishedBlocksStay(rules, lines, more, end);
      assert (lines + more)[start..end] == lines[start..end];
      OneBlockMore(rules, Flatten(lines[start..end]), Pieces(rules, lines, end), Pieces(rules, lines + more, end));
    }
  }
}
