/** Where the texts of a document are found among its chunks (document-parser/app/parser.py, _document_chunks). */
module ChunkLocations {
  import opened Sequences
  import opened Whitespace
  import opened DocumentChunks
  import opened ItemPlaces
  import LongText
  import TableParts

  /** The chunks from `lo` to `hi`; and for a text that is not cut, where it begins in the one chunk. */
  datatype Location = Location(lo: nat, hi: nat, at: nat)

  /** The text stands whole in its one chunk. */
  predicate WholeAt(chunks: seq<Chunk>, text: string, x: Location) {
    && x.hi == x.lo + 1 && x.hi <= |chunks|
    && x.at + |text| <= |chunks[x.lo].content|
    && chunks[x.lo].content[x.at..x.at + |text|] == text
  }

  /** The over-long text is cut, and each of its characters but whitespace is in one of its chunks. */
  ghost predicate CutAt(chunks: seq<Chunk>, text: string, x: Location) {
    && |text| > LongText.MAX_CHUNK_CHARS && x.hi <= |chunks|
    && forall p :: 0 <= p < |text| && !IsPySpace(text[p]) ==> InSomeChunk(chunks, text, x, p)
  }

  ghost predicate InSomeChunk(chunks: seq<Chunk>, text: string, x: Location, p: nat) {
    exists k: nat, w: LongText.Window ::
      && x.lo <= k < x.hi && k < |chunks|
      && w.start <= p < w.end && chunks[k].content == Trim(IsPySpace, LongText.Text(text, w))
  }

  /** An entry is found in these chunks, with its own page and section; in a presentation a page is a slide. */
  ghost predicate FoundAt(chunks: seq<Chunk>, e: Entry, pptx: bool, x: Location) {
    && x.lo <= x.hi <= |chunks|
    && match e
       case Line(text, page, section, _) =>
         && (forall k :: x.lo <= k < x.hi ==> IsPlaced(chunks[k], page, section, pptx))
         && (WholeAt(chunks, text, x) || CutAt(chunks, text, x))
       case Grid(markdown, page, section, sheet) =>
         exists parts :: TableParts.IsTableSplit(markdown, parts) && PartsAt(chunks, parts, page, section, sheet, x)
       case Chapter => true
  }

  predicate IsPlaced(c: Chunk, page: Option<PageNumber>, section: Option<string>, pptx: bool) {
    && c.page == page && c.section == section
    && c.kind == if pptx && page.Some? then Slide(page.value) else Section
  }

  /** The parts of a table, one to a chunk, with their rows. */
  predicate PartsAt(chunks: seq<Chunk>, parts: seq<TableParts.Part>, page: Option<PageNumber>, section: Option<string>,
                    sheet: Option<string>, x: Location) {
    && x.hi <= |chunks| && x.lo + |parts| == x.hi
    && forall j :: 0 <= j < |parts| ==>
         chunks[x.lo + j] == Chunk(parts[j].text, page, section, Table(parts[j].rowStart, parts[j].rowEnd, sheet))
  }

  /** The entry at `x` comes before the one at `y`: in earlier chunks, or earlier in the same one. */
  predicate Precedes(e: Entry, x: Location, y: Location) {
    x.hi <= y.lo || (x.lo == y.lo && x.hi == y.hi && e.Line? && x.at + |e.text| <= y.at)
  }

  ghost predicate Located(chunks: seq<Chunk>, entries: seq<Entry>, pptx: bool, locations: seq<Location>) {
    && |locations| == |entries|
    && (forall k :: 0 <= k < |entries| ==> FoundAt(chunks, entries[k], pptx, locations[k]))
    && Ordered(entries, locations)
  }

  // ----- places in joined text

  function Offset(parts: seq<string>, i: nat): nat
    requires i < |parts|
  {
    if i == 0 then 0 else |parts[0]| + 2 + Offset(parts[1..], i - 1)
  }

  lemma {:induction false} JoinAt(parts: seq<string>, i: nat)
    requires i < |parts|
    ensures Offset(parts, i) + |parts[i]| <= |Join("\n\n", parts)|
    ensures Join("\n\n", parts)[Offset(parts, i)..Offset(parts, i) + |parts[i]|] == parts[i]
  {
    if i > 0 {
      var rest := Join("\n\n", parts[1..]);
      JoinAt(parts[1..], i - 1);
      SliceBehind(parts[0] + "\n\n", rest, Offset(parts[1..], i - 1), |parts[i]|);
    } else if |parts| > 1 {
      assert Join("\n\n", parts) == parts[0] + ("\n\n" + Join("\n\n", parts[1..]));
    }
  }

  lemma SliceBehind(front: string, rest: string, at: nat, n: nat)
    requires at + n <= |rest|
    ensures (front + rest)[|front| + at..|front| + at + n] == rest[at..at + n]
  {
  }

  lemma {:induction false} OffsetsGrow(parts: seq<string>, i: nat, j: nat)
    requires i < j < |parts|
    ensures Offset(parts, i) + |parts[i]| <= Offset(parts, j)
  {
    if i > 0 {
      OffsetsGrow(parts[1..], i - 1, j - 1);
    }
  }

  // ----- one block more

  function BlockLocations(block: seq<Entry>, lo: nat, hi: nat): seq<Location>
    requires IsText(block)
  {
    seq(|block|, i requires 0 <= i < |block| => Location(lo, hi, Offset(Texts(block), i)))
  }

  /** What an earlier stretch of chunks holds, the longer one holds at the same place. */
  lemma FoundInMore(chunks: seq<Chunk>, n: nat, e: Entry, pptx: bool, x: Location)
    requires n <= |chunks| && FoundAt(chunks[..n], e, pptx, x)
    ensures FoundAt(chunks, e, pptx, x)
  {
    SliceOfPrefix(chunks, n, x.lo, x.hi);
    if e.Line? && CutAt(chunks[..n], e.text, x) {
      forall p | 0 <= p < |e.text| && !IsPySpace(e.text[p])
        ensures InSomeChunk(chunks, e.text, x, p)
      {
        var k: nat, w: LongText.Window :|
          && x.lo <= k < x.hi && k < |chunks[..n]|
          && w.start <= p < w.end && chunks[..n][k].content == Trim(IsPySpace, LongText.Text(e.text, w));
      }
    }
  }

  /** A block that is not cut is one chunk, with its texts one after the other. */
  lemma UncutBlock(block: seq<Entry>, chunks: seq<Chunk>, n: nat, pptx: bool, i: nat)
    requires IsText(block) && BlockOk(block) && n <= |chunks| && RendersBlock(block, chunks[n..], pptx)
    requires |Content(block)| <= LongText.MAX_CHUNK_CHARS && i < |block|
    ensures FoundAt(chunks, block[i], pptx, Location(n, |chunks|, Offset(Texts(block), i)))
  {
    assert chunks[n..] == [Chunk(Content(block), block[0].page, block[0].section, KindAt(block[0].page, pptx))];
    assert chunks[n] == chunks[n..][0];
    JoinAt(Texts(block), i);
  }

  /** A block that is cut is a single over-long text. */
  lemma CutBlock(block: seq<Entry>, chunks: seq<Chunk>, n: nat, pptx: bool)
    requires IsText(block) && BlockOk(block) && n <= |chunks| && RendersBlock(block, chunks[n..], pptx)
    requires |Content(block)| > LongText.MAX_CHUNK_CHARS
    ensures |block| == 1 && FoundAt(chunks, block[0], pptx, Location(n, |chunks|, 0))
  {
    assert Texts(block) == [block[0].text];
    PlacedParts(LongText.SplitParts(block[0].text), chunks, n, block[0].page, block[0].section, pptx);
    CutText(block[0].text, chunks, n);
  }

  /** The parts of a text, one to a chunk. */
  lemma PlacedParts(parts: seq<string>, chunks: seq<Chunk>, n: nat, page: Option<PageNumber>, section: Option<string>,
                    pptx: bool)
    requires n <= |chunks| && chunks[n..] == TextChunks(parts, page, section, KindAt(page, pptx))
    ensures |chunks| - n == |parts|
    ensures forall k :: n <= k < |chunks| ==>
              chunks[k].content == parts[k - n] && IsPlaced(chunks[k], page, section, pptx)
  {
    forall k | n <= k < |chunks|
      ensures chunks[k].content == parts[k - n] && IsPlaced(chunks[k], page, section, pptx)
    {
      assert chunks[k] == chunks[n..][k - n];
    }
  }

  lemma CutText(text: string, chunks: seq<Chunk>, n: nat)
    requires |text| > LongText.MAX_CHUNK_CHARS && n <= |chunks| && |chunks| - n == |LongText.SplitParts(text)|
    requires forall k :: n <= k < |chunks| ==> chunks[k].content == LongText.SplitParts(text)[k - n]
    ensures CutAt(chunks, text, Location(n, |chunks|, 0))
  {
    forall p | 0 <= p < |text| && !IsPySpace(text[p])
      ensures InSomeChunk(chunks, text, Location(n, |chunks|, 0), p)
    {
      var w, part := InkInPart(text, p);
      var j :| 0 <= j < |LongText.SplitParts(text)| && LongText.SplitParts(text)[j] == part;
      assert chunks[n + j].content == part;
    }
  }

  lemma BlockIsLocated(block: seq<Entry>, chunks: seq<Chunk>, n: nat, pptx: bool) returns (more: seq<Location>)
    requires block != [] && BlockOk(block) && n <= |chunks| && RendersBlock(block, chunks[n..], pptx)
    ensures Located(chunks, block, pptx, more)
    ensures forall k :: 0 <= k < |more| ==> more[k].lo == n && more[k].hi == |chunks|
  {
    if IsText(block) {
      more := BlockLocations(block, n, |chunks|);
      TextBlockIsLocated(block, chunks, n, pptx);
    } else {
      more := [Location(n, |chunks|, 0)];
      assert chunks[n..|chunks|] == chunks[n..];
      assert block[0] in block;
      assert block[0].Line? ==> IsText(block);
    }
  }

  lemma TextBlockIsLocated(block: seq<Entry>, chunks: seq<Chunk>, n: nat, pptx: bool)
    requires IsText(block) && BlockOk(block) && n <= |chunks| && RendersBlock(block, chunks[n..], pptx)
    ensures Located(chunks, block, pptx, BlockLocations(block, n, |chunks|))
  {
    var more := BlockLocations(block, n, |chunks|);
    forall k | 0 <= k < |block|
      ensures FoundAt(chunks, block[k], pptx, more[k])
    {
      if |Content(block)| <= LongText.MAX_CHUNK_CHARS {
        UncutBlock(block, chunks, n, pptx, k);
      } else {
        CutBlock(block, chunks, n, pptx);
      }
    }
    forall k, l | 0 <= k < l < |block|
      ensures Precedes(block[k], more[k], more[l])
    {
      assert block[k] in block;
      OffsetsGrow(Texts(block), k, l);
    }
  }

  lemma LocatedConcat(chunks: seq<Chunk>, n: nat, a: seq<Entry>, x: seq<Location>, b: seq<Entry>, y: seq<Location>,
                      pptx: bool)
    requires n <= |chunks| && Located(chunks[..n], a, pptx, x) && Located(chunks, b, pptx, y)
    requires forall k :: 0 <= k < |y| ==> y[k].lo >= n
    ensures Located(chunks, a + b, pptx, x + y)
  {
    forall k | 0 <= k < |a|
      ensures FoundAt(chunks, a[k], pptx, x[k]) && x[k].hi <= n
    {
      assert FoundAt(chunks[..n], a[k], pptx, x[k]);
      FoundInMore(chunks, n, a[k], pptx, x[k]);
    }
    forall k | 0 <= k < |a + b|
      ensures FoundAt(chunks, (a + b)[k], pptx, (x + y)[k])
    {
      if k >= |a| {
        assert FoundAt(chunks, b[k - |a|], pptx, y[k - |a|]);
      }
    }
    OrderedConcat(n, a, x, b, y);
  }

  ghost predicate Ordered(entries: seq<Entry>, locations: seq<Location>)
    requires |locations| == |entries|
  {
    forall k, l :: 0 <= k < l < |entries| ==> Precedes(entries[k], locations[k], locations[l])
  }

  lemma OrderedConcat(n: nat, a: seq<Entry>, x: seq<Location>, b: seq<Entry>, y: seq<Location>)
    requires |x| == |a| && |y| == |b| && Ordered(a, x) && Ordered(b, y)
    requires (forall k :: 0 <= k < |x| ==> x[k].hi <= n) && forall k :: 0 <= k < |y| ==> y[k].lo >= n
    ensures Ordered(a + b, x + y)
  {
    forall k, l | 0 <= k < l < |a + b|
      ensures Precedes((a + b)[k], (x + y)[k], (x + y)[l])
    {
      if k >= |a| {
        assert Precedes(b[k - |a|], y[k - |a|], y[l - |a|]);
      } else if l < |a| {
        assert Precedes(a[k], x[k], x[l]);
      }
    }
  }

  lemma {:induction false} BlocksAreLocated(blocks: seq<seq<Entry>>, chunks: seq<Chunk>, pptx: bool)
    returns (locations: seq<Location>)
    requires Renders(blocks, chunks, pptx) && BlocksOk(blocks)
    ensures Located(chunks, Flatten(blocks), pptx, locations)
    decreases |blocks|
  {
    if blocks == [] {
      locations := [];
      assert Flatten(blocks) == [];
    } else {
      var front, block, n := LastChunks(blocks, chunks, pptx);
      BlocksOkSnoc(front, block);
      var before := BlocksAreLocated(front, chunks[..n], pptx);
      locations := OneBlockMore(Flatten(front), before, block, chunks, n, pptx);
      FlattenSnoc(front, block);
    }
  }

  ghost predicate BlocksOk(blocks: seq<seq<Entry>>) {
    forall block <- blocks :: block != [] && BlockOk(block)
  }

  lemma BlocksOkSnoc(front: seq<seq<Entry>>, block: seq<Entry>)
    requires BlocksOk(front + [block])
    ensures BlocksOk(front) && block != [] && BlockOk(block)
  {
    assert block in front + [block];
    assert forall each <- front :: each in front + [block];
  }

  lemma OneBlockMore(entries: seq<Entry>, before: seq<Location>, block: seq<Entry>, chunks: seq<Chunk>, n: nat,
                     pptx: bool) returns (locations: seq<Location>)
    requires block != [] && BlockOk(block) && n <= |chunks| && RendersBlock(block, chunks[n..], pptx)
    requires Located(chunks[..n], entries, pptx, before)
    ensures Located(chunks, entries + block, pptx, locations)
  {
    var more := BlockIsLocated(block, chunks, n, pptx);
    LocatedConcat(chunks, n, entries, before, block, more, pptx);
    locations := before + more;
  }

  /** All entries are found in the chunks, at their page and section, in order. */
  lemma EntriesAreLocated(chunks: seq<Chunk>, entries: seq<Entry>, pptx: bool)
    requires AreChunksOf(chunks, entries, pptx)
    ensures exists locations :: Located(chunks, entries, pptx, locations)
  {
    var blocks :| IsChunking(blocks, entries) && Renders(blocks, chunks, pptx);
    forall block <- blocks
      ensures block != [] && BlockOk(block)
    {
      var k :| 0 <= k < |blocks| && blocks[k] == block;
      assert BlockOk(blocks[k]);
    }
    var locations := BlocksAreLocated(blocks, chunks, pptx);
  }

  // ----- items

  /** How many entries come from the items before item i. */
  function EntryIndex(items: seq<Item>, i: nat, pptx: bool): nat
    requires i <= |items|
  {
    |Entries(TOP, items[..i], pptx)|
  }

  lemma {:induction false} WalkIsPrefix(items: seq<Item>, i: nat, n: nat, pptx: bool)
    requires n <= i <= |items|
    ensures Walk(TOP, items[..i], n, pptx) == Walk(TOP, items, n, pptx)
  {
    if n > 0 {
      WalkIsPrefix(items, i, n - 1, pptx);
    }
  }

  lemma {:induction false} EntriesConcat(ctx: Context, a: seq<Item>, b: seq<Item>, pptx: bool)
    ensures Entries(ctx, a + b, pptx) == Entries(ctx, a, pptx) + Entries(Walk(ctx, a, |a|, pptx), b, pptx)
    decreases |a|
  {
    if a == [] {
      assert a + b == b;
      assert Walk(ctx, a, 0, pptx) == ctx;
    } else {
      var next := Enter(ctx, a[0], pptx);
      EntriesConcat(next, a[1..], b, pptx);
      WalkFromNext(ctx, a, |a|, pptx);
      EntriesCons(ctx, a, a[1..], pptx);
      RestOfConcat(a, b);
      EntriesCons(ctx, a + b, a[1..] + b, pptx);
      Regroup(EntriesOf(ctx, a[0], pptx), Entries(next, a[1..], pptx), Entries(Walk(ctx, a, |a|, pptx), b, pptx));
    }
  }

  lemma EntriesCons(ctx: Context, items: seq<Item>, rest: seq<Item>, pptx: bool)
    requires items != [] && items[1..] == rest
    ensures Entries(ctx, items, pptx) == EntriesOf(ctx, items[0], pptx) + Entries(Enter(ctx, items[0], pptx), rest, pptx)
  {
  }

  lemma {:induction false} WalkFromNext(ctx: Context, items: seq<Item>, n: nat, pptx: bool)
    requires 0 < n <= |items|
    ensures Walk(ctx, items, n, pptx) == Walk(Enter(ctx, items[0], pptx), items[1..], n - 1, pptx)
    decreases n
  {
    if n > 1 {
      WalkFromNext(ctx, items, n - 1, pptx);
    } else {
      assert Walk(ctx, items, 0, pptx) == ctx;
    }
  }

  /** The entry of an item with text. */
  function OwnEntry(items: seq<Item>, i: nat, pptx: bool): Entry
    requires i < |items| && HasText(items[i])
  {
    EntryOf(ContextAt(items, i, pptx), items[i], pptx).value
  }

  lemma EntryInMiddle(a: seq<Item>, item: Item, b: seq<Item>, e: Entry, pptx: bool)
    requires EntriesOf(Walk(TOP, a, |a|, pptx), item, pptx) == [e]
    ensures var before, entries := Entries(TOP, a, pptx), Entries(TOP, a + ([item] + b), pptx);
            |before| < |entries| && entries[|before|] == e
  {
    EntriesConcat(TOP, a, [item] + b, pptx);
    EntriesCons(Walk(TOP, a, |a|, pptx), [item] + b, b, pptx);
  }

  lemma CutAround(items: seq<Item>, i: nat, n: nat)
    requires i < n <= |items|
    ensures items[..n] == items[..i] + ([items[i]] + items[i + 1..n])
  {
  }

  lemma OwnEntries(items: seq<Item>, i: nat, pptx: bool)
    requires i < |items| && HasText(items[i])
    ensures EntriesOf(Walk(TOP, items[..i], i, pptx), items[i], pptx) == [OwnEntry(items, i, pptx)]
  {
    WalkIsPrefix(items, i, i, pptx);
  }

  /** An item with text has its entry, after those of the items before it. */
  lemma ItemEntry(items: seq<Item>, i: nat, n: nat, pptx: bool)
    requires i < n <= |items| && HasText(items[i])
    ensures EntryIndex(items, i, pptx) < EntryIndex(items, n, pptx)
    ensures Entries(TOP, items[..n], pptx)[EntryIndex(items, i, pptx)] == OwnEntry(items, i, pptx)
  {
    CutAround(items, i, n);
    OwnEntries(items, i, pptx);
    EntryInMiddle(items[..i], items[i], items[i + 1..n], OwnEntry(items, i, pptx), pptx);
  }

  lemma EntryOfItem(items: seq<Item>, i: nat, pptx: bool)
    requires i < |items| && HasText(items[i])
    ensures var index, entries := EntryIndex(items, i, pptx), Entries(TOP, items, pptx);
            index < |entries| && Says(entries[index], items, i, pptx)
  {
    ItemEntry(items, i, |items|, pptx);
    assert items[..|items|] == items;
    EntrySays(items, i, pptx);
  }

  /**
   * Every item with text is found in the chunks: its text, whole or cut into windows, with its page and section, and
   * after the texts of all items before it.
   */
  lemma ItemsAreLocated(items: seq<Item>, pptx: bool, chunks: seq<Chunk>) returns (locations: seq<Location>)
    requires AreChunksOf(chunks, Entries(TOP, items, pptx), pptx)
    ensures Located(chunks, Entries(TOP, items, pptx), pptx, locations)
    ensures forall i :: 0 <= i < |items| && HasText(items[i]) ==>
              && EntryIndex(items, i, pptx) < |locations|
              && Says(Entries(TOP, items, pptx)[EntryIndex(items, i, pptx)], items, i, pptx)
    ensures forall i, j :: 0 <= i < j < |items| && HasText(items[i]) ==>
              EntryIndex(items, i, pptx) < EntryIndex(items, j, pptx)
  {
    EntriesAreLocated(chunks, Entries(TOP, items, pptx), pptx);
    locations :| Located(chunks, Entries(TOP, items, pptx), pptx, locations);
    forall i | 0 <= i < |items| && HasText(items[i])
      ensures EntryIndex(items, i, pptx) < |locations|
      ensures Says(Entries(TOP, items, pptx)[EntryIndex(items, i, pptx)], items, i, pptx)
    {
      EntryOfItem(items, i, pptx);
    }
    forall i, j | 0 <= i < j < |items| && HasText(items[i])
      ensures EntryIndex(items, i, pptx) < EntryIndex(items, j, pptx)
    {
      ItemEntry(items, i, j, pptx);
    }
  }
}
