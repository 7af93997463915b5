/** Turning a document's items into chunks (document-parser/app/parser.py, _document_chunks). */
module DocumentChunks {
  import opened Sequences
  import opened Whitespace
  import LongText
  import TableParts

  type PageNumber = n: nat | n > 0 witness 1

  /** One step of the document iterator: a group, a table or a text, with its nesting level. */
  datatype Item = Item(
    level: int, isGroup: bool, isTable: bool, tag: string, name: string,
    page: Option<PageNumber>, text: string, headingLevel: int, markdown: string)

  datatype Group = Group(level: int, tag: string, name: string)

  datatype Kind =
    | Section
    | Slide(number: PageNumber)
    | Table(rowStart: int, rowEnd: int, sheet: Option<string>)

  datatype Chunk = Chunk(content: string, page: Option<PageNumber>, section: Option<string>, kind: Kind)

  // ----- where an item stands

  /** Headings, open groups and slide titles, after the items so far. */
  datatype Context = Context(headings: seq<string>, groups: seq<Group>, titles: map<PageNumber, string>)

  const TOP := Context([], [], map[])

  function Outer(groups: seq<Group>, level: int): seq<Group> {
    if groups == [] then []
    else (if groups[0].level < level then [groups[0]] else []) + Outer(groups[1..], level)
  }

  function StrippedText(item: Item): string {
    Trim(IsPySpace, item.text)
  }

  predicate IsHeading(item: Item) {
    !item.isGroup && (item.tag == "title" || item.tag == "section_header") && StrippedText(item) != ""
  }

  function HeadingLevel(item: Item): (level: nat)
    ensures 1 <= level <= 6
  {
    if item.headingLevel < 1 then 1 else if item.headingLevel > 6 then 6 else item.headingLevel
  }

  predicate IsChapter(item: Item, pptx: bool) {
    item.isGroup && pptx && item.tag == "chapter"
  }

  function Prefix(headings: seq<string>, n: nat): seq<string> {
    if n <= |headings| then headings[..n] else headings
  }

  function Enter(ctx: Context, item: Item, pptx: bool): Context {
    var ctx := ctx.(groups := Outer(ctx.groups, item.level));
    if item.isGroup then
      ctx.(headings := if IsChapter(item, pptx) then [] else ctx.headings,
           groups := ctx.groups + [Group(item.level, item.tag, item.name)])
    else if IsHeading(item) then
      ctx.(headings := Prefix(ctx.headings, HeadingLevel(item) - 1) + [StrippedText(item)],
           titles := if item.page.Some? then ctx.titles[item.page.value := StrippedText(item)] else ctx.titles)
    else ctx
  }

  /** The last named sheet group of the stack. */
  function Sheet(groups: seq<Group>): Option<string> {
    if groups == [] then None
    else
      var g := groups[|groups| - 1];
      if g.tag == "sheet" && g.name != "" then Some(g.name) else Sheet(groups[..|groups| - 1])
  }

  function SectionOf(ctx: Context, page: Option<PageNumber>): Option<string> {
    if Sheet(ctx.groups).Some? then Sheet(ctx.groups)
    else if page.Some? && page.value in ctx.titles then Some(ctx.titles[page.value])
    else if ctx.headings != [] then Some(Join(" / ", ctx.headings))
    else None
  }

  // ----- what the items contribute

  /** A line of text with its place, a table, or the start of a chapter. */
  datatype Entry =
    | Line(text: string, page: Option<PageNumber>, section: Option<string>, heading: bool)
    | Grid(markdown: string, page: Option<PageNumber>, section: Option<string>, sheet: Option<string>)
    | Chapter

  function Hashes(n: nat): string {
    if n == 0 then "" else "#" + Hashes(n - 1)
  }

  function HeadingLine(item: Item): string {
    Hashes(HeadingLevel(item)) + " " + StrippedText(item)
  }

  function BodyLine(item: Item): string {
    if item.tag == "list_item" then "- " + StrippedText(item) else StrippedText(item)
  }

  /** What an item adds to the text, seen from the context after it. */
  function EntryOf(ctx: Context, item: Item, pptx: bool): Option<Entry> {
    if item.isGroup then (if IsChapter(item, pptx) then Some(Chapter) else None)
    else if IsHeading(item) then Some(Line(HeadingLine(item), item.page, Some(Join(" / ", ctx.headings)), true))
    else if item.isTable then
      Some(Grid(Trim(IsPySpace, item.markdown), item.page, SectionOf(ctx, item.page), Sheet(ctx.groups)))
    else if StrippedText(item) == "" then None
    else Some(Line(BodyLine(item), item.page, SectionOf(ctx, item.page), false))
  }

  function EntriesOf(ctx: Context, item: Item, pptx: bool): seq<Entry> {
    var e := EntryOf(Enter(ctx, item, pptx), item, pptx);
    if e.Some? then [e.value] else []
  }

  function Entries(ctx: Context, items: seq<Item>, pptx: bool): seq<Entry>
    decreases |items|
  {
    if items == [] then [] else EntriesOf(ctx, items[0], pptx) + Entries(Enter(ctx, items[0], pptx), items[1..], pptx)
  }

  // ----- the reference: a division of the entries into blocks

  predicate IsText(block: seq<Entry>) {
    block != [] && forall e <- block :: e.Line?
  }

  function Texts(block: seq<Entry>): seq<string>
    requires forall e <- block :: e.Line?
  {
    seq(|block|, k requires 0 <= k < |block| => block[k].text)
  }

  function Content(block: seq<Entry>): string
    requires forall e <- block :: e.Line?
  {
    Join("\n\n", Texts(block))
  }

  /** All lines of a text block stand at one place, only the first may be a heading, and it is over-long
      only if it is a single line; every other block is one table or one chapter mark. */
  ghost predicate BlockOk(block: seq<Entry>) {
    if IsText(block) then
      && (forall k :: 0 <= k < |block| ==> block[k].page == block[0].page && block[k].section == block[0].section)
      && (forall k :: 1 <= k < |block| ==> !block[k].heading)
      && (|block| > 1 ==> |Content(block)| <= LongText.MAX_CHUNK_CHARS)
    else |block| == 1
  }

  /** Why a text block ends where the next one begins. */
  ghost predicate Parted(a: seq<Entry>, b: seq<Entry>) {
    IsText(a) && IsText(b) ==>
      || b[0].heading
      || b[0].page != a[0].page || b[0].section != a[0].section
      || |Content(a + [b[0]])| > LongText.MAX_CHUNK_CHARS
  }

  ghost predicate IsChunking(blocks: seq<seq<Entry>>, entries: seq<Entry>) {
    && Flatten(blocks) == entries
    && (forall k :: 0 <= k < |blocks| ==> BlockOk(blocks[k]))
    && (forall k :: 0 <= k < |blocks| - 1 ==> Parted(blocks[k], blocks[k + 1]))
  }

  function KindAt(page: Option<PageNumber>, pptx: bool): Kind {
    if pptx && page.Some? then Slide(page.value) else Section
  }

  function TextChunks(parts: seq<string>, page: Option<PageNumber>, section: Option<string>, kind: Kind): seq<Chunk> {
    seq(|parts|, k requires 0 <= k < |parts| => Chunk(parts[k], page, section, kind))
  }

  function TableChunks(
    parts: seq<TableParts.Part>, page: Option<PageNumber>, section: Option<string>, sheet: Option<string>): seq<Chunk>
  {
    seq(|parts|, k requires 0 <= k < |parts| =>
      Chunk(parts[k].text, page, section, Table(parts[k].rowStart, parts[k].rowEnd, sheet)))
  }

  ghost predicate RendersBlock(block: seq<Entry>, chunks: seq<Chunk>, pptx: bool) {
    if IsText(block) then
      chunks == TextChunks(LongText.SplitParts(Content(block)), block[0].page, block[0].section,
                           KindAt(block[0].page, pptx))
    else if |block| == 1 && block[0].Grid? then
      exists parts ::
        && TableParts.IsTableSplit(block[0].markdown, parts)
        && chunks == TableChunks(parts, block[0].page, block[0].section, block[0].sheet)
    else chunks == []
  }

  ghost predicate Renders(blocks: seq<seq<Entry>>, chunks: seq<Chunk>, pptx: bool) {
    if blocks == [] then chunks == []
    else
      exists n: nat ::
        && n <= |chunks|
        && RendersBlock(blocks[|blocks| - 1], chunks[n..], pptx)
        && Renders(blocks[..|blocks| - 1], chunks[..n], pptx)
  }

  lemma RendersSnoc(blocks: seq<seq<Entry>>, chunks: seq<Chunk>, block: seq<Entry>, more: seq<Chunk>, pptx: bool)
    requires Renders(blocks, chunks, pptx) && RendersBlock(block, more, pptx)
    ensures Renders(blocks + [block], chunks + more, pptx)
  {
    var all, n := chunks + more, |chunks|;
    assert (blocks + [block])[..|blocks|] == blocks;
    assert all[n..] == more && all[..n] == chunks;
  }

  // ----- lines keep their shape through flush

  /** Starts and ends with a character that is not whitespace. */
  predicate Inked(s: string) {
    s != "" && !IsPySpace(s[0]) && !IsPySpace(s[|s| - 1])
  }

  lemma LinesAreInked(item: Item)
    requires StrippedText(item) != ""
    ensures Inked(HeadingLine(item)) && Inked(BodyLine(item))
  {
    assert Hashes(HeadingLevel(item))[0] == '#';
  }

  lemma {:induction false} JoinIsInked(parts: seq<string>)
    requires parts != [] && forall p <- parts :: Inked(p)
    ensures Inked(Join("\n\n", parts))
  {
    if |parts| > 1 {
      JoinIsInked(parts[1..]);
      var s := parts[0] + "\n\n" + Join("\n\n", parts[1..]);
      assert parts[0] in parts;
      assert s[0] == parts[0][0] && s[|s| - 1] == Join("\n\n", parts[1..])[|Join("\n\n", parts[1..])| - 1];
    }
  }

  function NonBlank(parts: seq<string>): seq<string> {
    if parts == [] then []
    else (if Trim(IsPySpace, parts[0]) != "" then [parts[0]] else []) + NonBlank(parts[1..])
  }

  lemma {:induction false} InkedAreNonBlank(parts: seq<string>)
    requires forall p <- parts :: Inked(p)
    ensures NonBlank(parts) == parts
  {
    if parts != [] {
      assert parts[0] in parts;
      BlankIffTrimsToNothing(IsPySpace, parts[0]);
      InkedAreNonBlank(parts[1..]);
    }
  }

  lemma FlushedContent(parts: seq<string>)
    requires forall p <- parts :: Inked(p)
    ensures Trim(IsPySpace, Join("\n\n", NonBlank(parts))) == Join("\n\n", parts)
  {
    InkedAreNonBlank(parts);
    if parts != [] {
      JoinIsInked(parts);
      TrimIsIdentity(IsPySpace, Join("\n\n", parts));
    }
  }

  // ----- growing a chunking by one entry

  function Last<T>(xs: seq<T>): T
    requires xs != []
  {
    xs[|xs| - 1]
  }

  /** The line may join the text block. */
  ghost predicate Joins(block: seq<Entry>, e: Entry) {
    && IsText(block) && e.Line? && !e.heading
    && e.page == block[0].page && e.section == block[0].section
    && |Content(block + [e])| <= LongText.MAX_CHUNK_CHARS
  }

  /** The entry starts a block of its own where the last one had to end, or joins the last one. */
  ghost predicate Adds(before: seq<seq<Entry>>, e: Entry, after: seq<seq<Entry>>) {
    || (after == before + [[e]] && (before != [] ==> Parted(Last(before), [e])))
    || (before != [] && Joins(Last(before), e) && after == before[..|before| - 1] + [Last(before) + [e]])
  }

  lemma StartingABlock(before: seq<seq<Entry>>, entries: seq<Entry>, e: Entry)
    requires IsChunking(before, entries) && (before != [] ==> Parted(Last(before), [e]))
    ensures IsChunking(before + [[e]], entries + [e])
  {
    FlattenSnoc(before, [e]);
    assert BlockOk([e]);
  }

  lemma JoiningTheLast(front: seq<seq<Entry>>, block: seq<Entry>, entries: seq<Entry>, e: Entry)
    requires IsChunking(front + [block], entries) && Joins(block, e)
    ensures IsChunking(front + [block + [e]], entries + [e])
  {
    var before, after := front + [block], front + [block + [e]];
    FlattenSnoc(front, block);
    FlattenSnoc(front, block + [e]);
    assert BlockOk(before[|front|]);
    assert BlockOk(block + [e]);
    forall k | 0 <= k < |after| ensures BlockOk(after[k]) {
      assert k < |front| ==> after[k] == before[k];
    }
    forall k | 0 <= k < |after| - 1 ensures Parted(after[k], after[k + 1]) {
      assert Parted(before[k], before[k + 1]);
      if k == |front| - 1 {
        PartedFromStart(front[k], block, e);
      } else {
        assert after[k] == before[k] && after[k + 1] == before[k + 1];
      }
    }
  }

  lemma PartedFromStart(a: seq<Entry>, block: seq<Entry>, e: Entry)
    requires IsText(block) && Parted(a, block)
    ensures Parted(a, block + [e])
  {
  }

  lemma AddingKeepsChunking(before: seq<seq<Entry>>, entries: seq<Entry>, e: Entry, after: seq<seq<Entry>>)
    requires IsChunking(before, entries) && Adds(before, e, after)
    ensures IsChunking(after, entries + [e])
  {
    if after == before + [[e]] && (before != [] ==> Parted(Last(before), [e])) {
      StartingABlock(before, entries, e);
    } else {
      assert before == before[..|before| - 1] + [Last(before)];
      JoiningTheLast(before[..|before| - 1], Last(before), entries, e);
    }
  }

  // ----- the imperative chunker

  /** The buffer holds the texts of the open block, and its place. */
  ghost predicate Buffered(
    open: seq<Entry>, buffer: seq<string>, page: Option<PageNumber>, section: Option<string>)
  {
    && (forall e <- open :: e.Line?)
    && buffer == Texts(open)
    && (forall p <- buffer :: Inked(p))
    && (open != [] ==> page == open[0].page && section == open[0].section)
  }

  function Flushed(
    chunks: seq<Chunk>, content: string, page: Option<PageNumber>, section: Option<string>, pptx: bool): seq<Chunk>
  {
    chunks + TextChunks(LongText.SplitParts(content), page, section, KindAt(page, pptx))
  }

  /** What flush puts out is the open block, whole. */
  lemma FlushRenders(
    blocks: seq<seq<Entry>>, chunks: seq<Chunk>, open: seq<Entry>,
    buffer: seq<string>, page: Option<PageNumber>, section: Option<string>, pptx: bool)
    requires Buffered(open, buffer, page, section) && Renders(blocks, chunks, pptx)
    ensures var content := Trim(IsPySpace, Join("\n\n", NonBlank(buffer)));
      && (content == "" <==> open == [])
      && (open != [] ==> Renders(blocks + [open], Flushed(chunks, content, page, section, pptx), pptx))
  {
    FlushedContent(buffer);
    if open != [] {
      JoinIsInked(buffer);
      var more := TextChunks(LongText.SplitParts(Content(open)), page, section, KindAt(page, pptx));
      RendersSnoc(blocks, chunks, open, more, pptx);
    }
  }

  lemma TableRenders(
    blocks: seq<seq<Entry>>, chunks: seq<Chunk>, grid: Entry, parts: seq<TableParts.Part>, pptx: bool)
    requires Renders(blocks, chunks, pptx) && grid.Grid? && TableParts.IsTableSplit(grid.markdown, parts)
    ensures Renders(blocks + [[grid]], chunks + TableChunks(parts, grid.page, grid.section, grid.sheet), pptx)
    ensures !IsText([grid])
  {
    assert grid in [grid];
    var more := TableChunks(parts, grid.page, grid.section, grid.sheet);
    assert RendersBlock([grid], more, pptx);
    RendersSnoc(blocks, chunks, [grid], more, pptx);
  }

  lemma ChapterRenders(blocks: seq<seq<Entry>>, chunks: seq<Chunk>, pptx: bool)
    requires Renders(blocks, chunks, pptx)
    ensures Renders(blocks + [[Chapter]], chunks, pptx)
    ensures !IsText([Chapter])
  {
    assert Chapter in [Chapter];
    assert RendersBlock([Chapter], [], pptx);
    RendersSnoc(blocks, chunks, [Chapter], [], pptx);
    assert chunks + [] == chunks;
  }

  class Chunker {
    const pptx: bool
    var chunks: seq<Chunk>
    var buffer: seq<string>
    var bufferPage: Option<PageNumber>
    var bufferSection: Option<string>
    var headings: seq<string>
    var groupStack: seq<Group>
    var slideTitles: map<PageNumber, string>
    ghost var blocks: seq<seq<Entry>>
    ghost var open: seq<Entry>

    function Place(): Context
      reads this
    {
      Context(headings, groupStack, slideTitles)
    }

    ghost predicate Valid()
      reads this
    {
      && Buffered(open, buffer, bufferPage, bufferSection)
      && Renders(blocks, chunks, pptx)
    }

    ghost function AllBlocks(): seq<seq<Entry>>
      reads this
    {
      if open == [] then blocks else blocks + [open]
    }

    constructor (pptx: bool)
      ensures Valid() && AllBlocks() == [] && Place() == TOP && this.pptx == pptx
    {
      this.pptx := pptx;
      chunks, buffer, bufferPage, bufferSection := [], [], None, None;
      headings, groupStack, slideTitles := [], [], map[];
      blocks, open := [], [];
    }

    method EmitBuffer()
      requires Valid()
      modifies this`chunks, this`blocks
      ensures Renders(blocks, chunks, pptx) && blocks == old(AllBlocks())
    {
      FlushRenders(blocks, chunks, open, buffer, bufferPage, bufferSection, pptx);
      var content := Trim(IsPySpace, Join("\n\n", NonBlank(buffer)));
      if content != "" {
        var parts := LongText.SplitLongText(content);
        chunks := chunks + TextChunks(parts, bufferPage, bufferSection, KindAt(bufferPage, pptx));
        blocks := blocks + [open];
      }
    }

    method Flush()
      requires Valid()
      modifies this`chunks, this`buffer, this`bufferPage, this`bufferSection, this`blocks, this`open
      ensures Valid() && open == [] && blocks == old(AllBlocks())
    {
      EmitBuffer();
      buffer, bufferPage, bufferSection, open := [], None, None, [];
    }

    /** With no open block, the last one is not text that could still grow. */
    ghost predicate Ready()
      reads this
    {
      && Valid()
      && (open == [] && blocks != [] ==> !IsText(Last(blocks)))
    }

    method StartLine(ghost e: Entry, text: string, page: Option<PageNumber>, section: Option<string>)
      requires Valid() && open == [] && e.Line? && e == Line(text, page, section, e.heading) && Inked(text)
      modifies this`buffer, this`bufferPage, this`bufferSection, this`open
      ensures Ready() && AllBlocks() == old(blocks) + [[e]]
    {
      buffer, bufferPage, bufferSection, open := [text], page, section, [e];
    }

    /** Remember the heading and, for its page, the slide title. */
    method EnterHeading(item: Item)
      requires IsHeading(item)
      modifies this`headings, this`slideTitles
      ensures headings == Prefix(old(headings), HeadingLevel(item) - 1) + [StrippedText(item)]
      ensures slideTitles == if item.page.Some? then old(slideTitles)[item.page.value := StrippedText(item)]
                             else old(slideTitles)
    {
      var text := StrippedText(item);
      headings := Prefix(headings, HeadingLevel(item) - 1) + [text];
      if item.page.Some? {
        slideTitles := slideTitles[item.page.value := text];
      }
    }

    method AddHeading(text: string, page: Option<PageNumber>, section: Option<string>)
      requires Ready() && Inked(text)
      modifies this`chunks, this`buffer, this`bufferPage, this`bufferSection, this`blocks, this`open
      ensures Ready() && Adds(old(AllBlocks()), Line(text, page, section, true), AllBlocks())
    {
      Flush();
      StartLine(Line(text, page, section, true), text, page, section);
    }

    method AddTable(markdown: string, page: Option<PageNumber>, section: Option<string>, sheet: Option<string>)
      requires Ready()
      modifies this`chunks, this`buffer, this`bufferPage, this`bufferSection, this`blocks, this`open
      ensures Ready() && Adds(old(AllBlocks()), Grid(markdown, page, section, sheet), AllBlocks())
    {
      Flush();
      PutTable(markdown, page, section, sheet);
    }

    method PutTable(markdown: string, page: Option<PageNumber>, section: Option<string>, sheet: Option<string>)
      requires Valid() && open == []
      modifies this`chunks, this`blocks
      ensures Ready() && blocks == old(blocks) + [[Grid(markdown, page, section, sheet)]]
    {
      ghost var grid := Grid(markdown, page, section, sheet);
      var parts := TableParts.MarkdownTableParts(markdown);
      TableRenders(blocks, chunks, grid, parts, pptx);
      chunks := chunks + TableChunks(parts, page, section, sheet);
      blocks := blocks + [[grid]];
    }

    method StartChapter()
      requires Ready()
      modifies this`chunks, this`buffer, this`bufferPage, this`bufferSection, this`blocks, this`open, this`headings
      ensures Ready() && Adds(old(AllBlocks()), Chapter, AllBlocks())
      ensures headings == []
    {
      Flush();
      headings := [];
      PutChapter();
    }

    ghost method PutChapter()
      requires Valid() && open == []
      modifies this`blocks
      ensures Ready() && blocks == old(blocks) + [[Chapter]]
    {
      ChapterRenders(blocks, chunks, pptx);
      blocks := blocks + [[Chapter]];
    }

    method AddLine(text: string, page: Option<PageNumber>, section: Option<string>)
      requires Ready() && Inked(text)
      modifies this`chunks, this`buffer, this`bufferPage, this`bufferSection, this`blocks, this`open
      ensures Ready() && Adds(old(AllBlocks()), Line(text, page, section, false), AllBlocks())
    {
      ghost var e := Line(text, page, section, false);
      ghost var before := AllBlocks();
      if buffer != [] && (bufferPage != page || bufferSection != section) {
        assert Parted(Last(before), [e]);
        Flush();
      }
      var candidate := Join("\n\n", buffer + [text]);
      if buffer != [] && |candidate| > LongText.MAX_CHUNK_CHARS {
        assert buffer + [text] == Texts(open + [e]);
        assert Parted(Last(before), [e]);
        Flush();
      }
      if buffer == [] {
        assert before != [] ==> Parted(Last(before), [e]);
        StartLine(e, text, page, section);
      } else {
        assert buffer + [text] == Texts(open + [e]);
        assert Joins(open, e);
        assert before[..|before| - 1] == blocks;
        buffer, open := buffer + [text], open + [e];
      }
    }

    ghost predicate Added(before: seq<seq<Entry>>, entry: Option<Entry>)
      reads this
    {
      if entry.None? then AllBlocks() == before else Adds(before, entry.value, AllBlocks())
    }

    method ProcessGroup(item: Item)
      requires Ready() && item.isGroup
      modifies this
      ensures Ready() && Place() == Enter(old(Place()), item, pptx)
      ensures Added(old(AllBlocks()), EntryOf(Place(), item, pptx))
    {
      groupStack := Outer(groupStack, item.level);
      if IsChapter(item, pptx) {
        StartChapter();
      }
      groupStack := groupStack + [Group(item.level, item.tag, item.name)];
    }

    method ProcessContent(item: Item)
      requires Ready() && !item.isGroup && !IsHeading(item)
      modifies this
      ensures Ready() && Place() == Enter(old(Place()), item, pptx)
      ensures Added(old(AllBlocks()), EntryOf(Place(), item, pptx))
    {
      groupStack := Outer(groupStack, item.level);
      var sheet := Sheet(groupStack);
      var section := SectionOf(Place(), item.page);
      if item.isTable {
        AddTable(Trim(IsPySpace, item.markdown), item.page, section, sheet);
      } else if StrippedText(item) != "" {
        LinesAreInked(item);
        AddLine(BodyLine(item), item.page, section);
      }
    }

    /** The heading takes its place among the groups and headings. */
    method PlaceHeading(item: Item)
      requires IsHeading(item)
      modifies this`groupStack, this`headings, this`slideTitles
      ensures Place() == Enter(old(Place()), item, pptx)
    {
      groupStack := Outer(groupStack, item.level);
      EnterHeading(item);
    }

    method ProcessHeading(item: Item)
      requires Ready() && IsHeading(item)
      modifies this
      ensures Ready() && Place() == Enter(old(Place()), item, pptx)
      ensures Added(old(AllBlocks()), EntryOf(Place(), item, pptx))
    {
      PlaceHeading(item);
      LinesAreInked(item);
      AddHeading(HeadingLine(item), item.page, Some(Join(" / ", headings)));
    }

    /** One step of the item loop. */
    method ProcessItem(item: Item)
      requires Ready()
      modifies this
      ensures Ready() && Place() == Enter(old(Place()), item, pptx)
      ensures Added(old(AllBlocks()), EntryOf(Place(), item, pptx))
    {
      if item.isGroup {
        ProcessGroup(item);
      } else if IsHeading(item) {
        ProcessHeading(item);
      } else {
        ProcessContent(item);
      }
    }

    /** One step of the item loop, seen on the blocks of all entries so far. */
    method TakeItem(item: Item, ghost done: seq<Entry>) returns (ghost more: seq<Entry>)
      requires Ready() && IsChunking(AllBlocks(), done)
      modifies this
      ensures Ready() && Place() == Enter(old(Place()), item, pptx)
      ensures more == done + EntriesOf(old(Place()), item, pptx) && IsChunking(AllBlocks(), more)
    {
      ghost var before, ctx := AllBlocks(), Place();
      ProcessItem(item);
      ItemKeepsChunking(before, done, ctx, item, pptx, AllBlocks());
      more := done + EntriesOf(ctx, item, pptx);
    }

    /** The last flush. */
    method TakeAll(ghost done: seq<Entry>) returns (all: seq<Chunk>)
      requires Ready() && IsChunking(AllBlocks(), done)
      modifies this
      ensures AreChunksOf(all, done, pptx)
    {
      Flush();
      all := chunks;
    }
  }

  lemma EntriesStep(done: seq<Entry>, ctx: Context, items: seq<Item>, i: nat, pptx: bool)
    requires i < |items|
    ensures done + Entries(ctx, items[i..], pptx)
         == done + EntriesOf(ctx, items[i], pptx) + Entries(Enter(ctx, items[i], pptx), items[i + 1..], pptx)
  {
    assert items[i..][1..] == items[i + 1..];
    Regroup(done, EntriesOf(ctx, items[i], pptx), Entries(Enter(ctx, items[i], pptx), items[i + 1..], pptx));
  }

  lemma NothingLeft(done: seq<Entry>, ctx: Context, items: seq<Item>, pptx: bool)
    ensures done + Entries(ctx, items[|items|..], pptx) == done
  {
  }

  ghost predicate AreChunksOf(chunks: seq<Chunk>, entries: seq<Entry>, pptx: bool) {
    exists blocks :: IsChunking(blocks, entries) && Renders(blocks, chunks, pptx)
  }

  lemma ItemKeepsChunking(
    before: seq<seq<Entry>>, done: seq<Entry>, ctx: Context, item: Item, pptx: bool, after: seq<seq<Entry>>)
    requires IsChunking(before, done)
    requires var entry := EntryOf(Enter(ctx, item, pptx), item, pptx);
             if entry.None? then after == before else Adds(before, entry.value, after)
    ensures IsChunking(after, done + EntriesOf(ctx, item, pptx))
  {
    var entry := EntryOf(Enter(ctx, item, pptx), item, pptx);
    if entry.Some? {
      AddingKeepsChunking(before, done, entry.value, after);
    } else {
      assert done + [] == done;
    }
  }

  /** The whole pass: every entry is in exactly one block, in order, and the blocks are rendered. */
  method Chunks(items: seq<Item>, pptx: bool) returns (chunks: seq<Chunk>)
    ensures AreChunksOf(chunks, Entries(TOP, items, pptx), pptx)
  {
    var chunker := new Chunker(pptx);
    ghost var done: seq<Entry> := [];
    for i := 0 to |items|
      invariant chunker.Ready() && chunker.pptx == pptx
      invariant fresh(chunker)
      invariant IsChunking(chunker.AllBlocks(), done)
      invariant done + Entries(chunker.Place(), items[i..], pptx) == Entries(TOP, items, pptx)
    {
      EntriesStep(done, chunker.Place(), items, i, pptx);
      done := chunker.TakeItem(items[i], done);
    }
    NothingLeft(done, chunker.Place(), items, pptx);
    chunks := chunker.TakeAll(done);
  }

  // ----- where an entry is found again

  /** The last block and its chunks, behind the others and theirs. */
  lemma LastChunks(blocks: seq<seq<Entry>>, chunks: seq<Chunk>, pptx: bool)
    returns (front: seq<seq<Entry>>, block: seq<Entry>, cut: nat)
    requires Renders(blocks, chunks, pptx) && blocks != []
    ensures blocks == front + [block] && cut <= |chunks|
    ensures RendersBlock(block, chunks[cut..], pptx) && Renders(front, chunks[..cut], pptx)
  {
    front, block := blocks[..|blocks| - 1], blocks[|blocks| - 1];
    FrontAndLast(blocks);
    cut := LastCut(blocks, chunks, pptx);
  }

  lemma FrontAndLast<T>(xs: seq<T>)
    requires xs != []
    ensures xs == xs[..|xs| - 1] + [xs[|xs| - 1]]
  {
  }

  lemma LastCut(blocks: seq<seq<Entry>>, chunks: seq<Chunk>, pptx: bool) returns (cut: nat)
    requires Renders(blocks, chunks, pptx) && blocks != []
    ensures cut <= |chunks| && RendersBlock(blocks[|blocks| - 1], chunks[cut..], pptx)
    ensures Renders(blocks[..|blocks| - 1], chunks[..cut], pptx)
  {
    cut :| cut <= |chunks| && RendersBlock(blocks[|blocks| - 1], chunks[cut..], pptx)
           && Renders(blocks[..|blocks| - 1], chunks[..cut], pptx);
  }

  lemma SliceOfPrefix<T>(xs: seq<T>, cut: nat, m: nat, n: nat)
    requires m <= n <= cut <= |xs|
    ensures xs[..cut][m..n] == xs[m..n] && xs[..cut][..m] == xs[..m]
  {
  }

  /** The chunks of every block stand together, after those of the blocks before it. */
  lemma {:induction false} BlockHasItsChunks(blocks: seq<seq<Entry>>, chunks: seq<Chunk>, pptx: bool, k: nat)
    returns (m: nat, n: nat)
    requires Renders(blocks, chunks, pptx) && k < |blocks|
    ensures m <= n <= |chunks| && RendersBlock(blocks[k], chunks[m..n], pptx)
    ensures Renders(blocks[..k], chunks[..m], pptx)
    decreases |blocks|
  {
    var front, block, cut := LastChunks(blocks, chunks, pptx);
    if k == |front| {
      m, n := cut, |chunks|;
      assert chunks[m..n] == chunks[cut..];
      assert blocks[..k] == front;
    } else {
      m, n := BlockHasItsChunks(front, chunks[..cut], pptx, k);
      SliceOfPrefix(chunks, cut, m, n);
      assert front[..k] == blocks[..k];
    }
  }

  lemma {:induction false} PartOfJoin(sep: string, parts: seq<string>, i: nat) returns (before: string, after: string)
    requires i < |parts|
    ensures Join(sep, parts) == before + parts[i] + after
  {
    if |parts| == 1 {
      before, after := "", "";
    } else if i == 0 {
      before, after := "", sep + Join(sep, parts[1..]);
      Regroup(parts[0], sep, Join(sep, parts[1..]));
    } else {
      before, after := PartOfJoin(sep, parts[1..], i - 1);
      Regroup(parts[0] + sep, before + parts[i], after);
      Regroup(parts[0] + sep, before, parts[i]);
      before := parts[0] + sep + before;
    }
  }

  /** A text that is not cut stands whole in one chunk, with its own page and section path. */
  lemma UncutTextIsInAChunk(blocks: seq<seq<Entry>>, chunks: seq<Chunk>, pptx: bool, k: nat, i: nat)
    returns (c: Chunk, before: string, after: string)
    requires Renders(blocks, chunks, pptx) && k < |blocks| && BlockOk(blocks[k]) && IsText(blocks[k]) && i < |blocks[k]|
    requires |blocks[k]| > 1 || |blocks[k][0].text| <= LongText.MAX_CHUNK_CHARS
    ensures c in chunks && c.page == blocks[k][i].page && c.section == blocks[k][i].section
    ensures c.content == before + blocks[k][i].text + after
  {
    var block := blocks[k];
    var m, n := BlockHasItsChunks(blocks, chunks, pptx, k);
    if |block| == 1 {
      assert Texts(block) == [block[0].text];
    }
    c := ChunkOfPart([Content(block)], block[0].page, block[0].section, KindAt(block[0].page, pptx), Content(block));
    assert c in chunks[m..n];
    before, after := PartOfJoin("\n\n", Texts(block), i);
  }

  /** A text that is cut stands alone; each of its characters but whitespace is in a chunk of its place. */
  lemma CutTextIsInChunks(blocks: seq<seq<Entry>>, chunks: seq<Chunk>, pptx: bool, k: nat, p: nat)
    returns (c: Chunk, w: LongText.Window)
    requires Renders(blocks, chunks, pptx) && k < |blocks| && BlockOk(blocks[k]) && IsText(blocks[k])
    requires |Content(blocks[k])| > LongText.MAX_CHUNK_CHARS
    requires p < |Content(blocks[k])| && !IsPySpace(Content(blocks[k])[p])
    ensures |blocks[k]| == 1 && Content(blocks[k]) == blocks[k][0].text
    ensures c in chunks && c.page == blocks[k][0].page && c.section == blocks[k][0].section
    ensures w.start <= p < w.end && c.content == Trim(IsPySpace, LongText.Text(Content(blocks[k]), w))
  {
    var block := blocks[k];
    var m, n := BlockHasItsChunks(blocks, chunks, pptx, k);
    assert Texts(block) == [block[0].text];
    var part;
    w, part := InkInPart(Content(block), p);
    var kind := KindAt(block[0].page, pptx);
    c := ChunkOfPart(LongText.SplitParts(Content(block)), block[0].page, block[0].section, kind, part);
    assert c in chunks[m..n];
  }

  lemma InkInPart(content: string, p: nat) returns (w: LongText.Window, part: string)
    requires |content| > LongText.MAX_CHUNK_CHARS && p < |content| && !IsPySpace(content[p])
    ensures w.start <= p < w.end && part == Trim(IsPySpace, LongText.Text(content, w))
    ensures part in LongText.SplitParts(content)
  {
    LongText.WindowsTile(content, 0);
    w := LongText.EveryInkInSomePart(content, LongText.Windows(content, 0), 0, p);
    part := Trim(IsPySpace, LongText.Text(content, w));
  }

  lemma ChunkOfPart(parts: seq<string>, page: Option<PageNumber>, section: Option<string>, kind: Kind, part: string)
    returns (c: Chunk)
    requires part in parts
    ensures c in TextChunks(parts, page, section, kind) && c == Chunk(part, page, section, kind)
  {
    var j :| 0 <= j < |parts| && parts[j] == part;
    c := TextChunks(parts, page, section, kind)[j];
  }

  // ----- the group stack

  /** Item j is a group that is still open when item i is reached: everything in between lies deeper. */
  predicate Encloses(items: seq<Item>, j: nat, i: nat)
    requires j < i < |items|
  {
    items[j].isGroup && forall k :: j < k <= i ==> items[j].level < items[k].level
  }

  /** The enclosing groups of item i among the first n items, outermost first. */
  function Enclosing(items: seq<Item>, i: nat, n: nat): seq<Group>
    requires n <= i < |items|
  {
    if n == 0 then []
    else
      Enclosing(items, i, n - 1)
      + (if Encloses(items, n - 1, i) then [Group(items[n - 1].level, items[n - 1].tag, items[n - 1].name)] else [])
  }

  function Walk(ctx: Context, items: seq<Item>, n: nat, pptx: bool): Context
    requires n <= |items|
  {
    if n == 0 then ctx else Enter(Walk(ctx, items, n - 1, pptx), items[n - 1], pptx)
  }

  lemma {:induction false} OuterConcat(a: seq<Group>, b: seq<Group>, level: int)
    ensures Outer(a + b, level) == Outer(a, level) + Outer(b, level)
  {
    if a == [] {
      assert a + b == b;
    } else {
      assert (a + b)[1..] == a[1..] + b;
      OuterConcat(a[1..], b, level);
    }
  }

  /** Closing groups on the way from item i - 1 to item i. */
  lemma {:induction false} OuterOfEnclosing(items: seq<Item>, i: nat, n: nat)
    requires n < i < |items|
    ensures Outer(Enclosing(items, i - 1, n), items[i].level) == Enclosing(items, i, n)
  {
    if n > 0 {
      OuterOfEnclosing(items, i, n - 1);
      var last := if Encloses(items, n - 1, i - 1)
                  then [Group(items[n - 1].level, items[n - 1].tag, items[n - 1].name)] else [];
      OuterConcat(Enclosing(items, i - 1, n - 1), last, items[i].level);
      assert Encloses(items, n - 1, i) <==> Encloses(items, n - 1, i - 1) && items[n - 1].level < items[i].level;
    }
  }

  function Pushed(item: Item): seq<Group> {
    if item.isGroup then [Group(item.level, item.tag, item.name)] else []
  }

  lemma WalkGroups(items: seq<Item>, n: nat, pptx: bool)
    requires 0 < n <= |items|
    ensures Walk(TOP, items, n, pptx).groups
         == Outer(Walk(TOP, items, n - 1, pptx).groups, items[n - 1].level) + Pushed(items[n - 1])
  {
  }

  lemma EnclosingStep(items: seq<Item>, i: nat)
    requires 0 < i < |items|
    ensures Enclosing(items, i, i)
         == Outer(Enclosing(items, i - 1, i - 1), items[i].level) + Outer(Pushed(items[i - 1]), items[i].level)
  {
    OuterOfEnclosing(items, i, i - 1);
    assert Encloses(items, i - 1, i) <==> items[i - 1].isGroup && items[i - 1].level < items[i].level;
  }

  /** When item i is processed, the stack holds exactly the groups that enclose it. */
  lemma {:induction false} StackIsEnclosing(items: seq<Item>, i: nat, pptx: bool)
    requires i < |items|
    ensures Outer(Walk(TOP, items, i, pptx).groups, items[i].level) == Enclosing(items, i, i)
  {
    if i > 0 {
      StackIsEnclosing(items, i - 1, pptx);
      assert Walk(TOP, items, i, pptx).groups == Enclosing(items, i - 1, i - 1) + Pushed(items[i - 1]) by {
        WalkGroups(items, i, pptx);
      }
      EnclosingStep(items, i);
      OuterConcat(Enclosing(items, i - 1, i - 1), Pushed(items[i - 1]), items[i].level);
    }
  }

  /** The groups an item's section and sheet are read from are those that enclose it. */
  lemma PlacedByEnclosing(items: seq<Item>, i: nat, pptx: bool)
    requires i < |items| && !items[i].isGroup
    ensures Enter(Walk(TOP, items, i, pptx), items[i], pptx).groups == Enclosing(items, i, i)
  {
    StackIsEnclosing(items, i, pptx);
  }

  ghost predicate LevelsBelow(stack: seq<Group>, items: seq<Item>, from: nat, to: nat)
    requires to < |items|
  {
    forall a, k :: 0 <= a < |stack| && from <= k <= to ==> stack[a].level < items[k].level
  }

  /** The levels of the stack strictly increase. */
  lemma {:induction false} StackLevelsIncrease(items: seq<Item>, i: nat, n: nat)
    requires n <= i < |items|
    ensures forall a, b :: 0 <= a < b < |Enclosing(items, i, n)| ==>
      Enclosing(items, i, n)[a].level < Enclosing(items, i, n)[b].level
    ensures LevelsBelow(Enclosing(items, i, n), items, n, i)
  {
    if n > 0 {
      StackLevelsIncrease(items, i, n - 1);
      var before, g := Enclosing(items, i, n - 1), items[n - 1];
      forall a | 0 <= a < |before| ensures before[a].level < g.level {
      }
      if Encloses(items, n - 1, i) {
        assert Enclosing(items, i, n) == before + [Group(g.level, g.tag, g.name)];
      } else {
        assert Enclosing(items, i, n) == before;
      }
    }
  }

  /** The sheet of an item is the name of the innermost named sheet group around it. */
  lemma {:induction false} SheetIsInnermost(items: seq<Item>, i: nat, n: nat)
    requires n <= i < |items|
    ensures
      var sheet := Sheet(Enclosing(items, i, n));
      if sheet.Some? then
        exists j: nat :: j < n && IsSheetAround(items, j, i) && sheet.value == items[j].name
          && forall k: nat :: j < k < n ==> !IsSheetAround(items, k, i)
      else forall k: nat :: k < n ==> !IsSheetAround(items, k, i)
  {
    if n > 0 {
      SheetIsInnermost(items, i, n - 1);
      var stack, before := Enclosing(items, i, n), Enclosing(items, i, n - 1);
      if Encloses(items, n - 1, i) {
        assert stack[..|stack| - 1] == before;
        if items[n - 1].tag == "sheet" && items[n - 1].name != "" {
          assert IsSheetAround(items, n - 1, i);
        }
      } else {
        assert stack == before;
      }
    }
  }

  predicate IsSheetAround(items: seq<Item>, j: nat, i: nat)
    requires i < |items|
  {
    j < i && Encloses(items, j, i) && items[j].tag == "sheet" && items[j].name != ""
  }
}
