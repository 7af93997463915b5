/** Where an item of a document stands, read off the item list (document-parser/app/parser.py, _document_chunks). */
module ItemPlaces {
  import opened Sequences
  import opened Whitespace
  import opened DocumentChunks

  // ----- headings and chapters

  /** A title or section header with some text. */
  predicate Heads(items: seq<Item>, k: nat) {
    && k < |items| && !items[k].isGroup && (items[k].tag == "title" || items[k].tag == "section_header")
    && Trim(IsPySpace, items[k].text) != ""
  }

  /** In a presentation every chapter starts anew. */
  predicate StartsChapter(items: seq<Item>, k: nat, pptx: bool) {
    k < |items| && items[k].isGroup && items[k].tag == "chapter" && pptx
  }

  /** A heading's level, from 1 to 6. */
  function LevelOf(items: seq<Item>, k: nat): (level: nat)
    requires k < |items|
    ensures 1 <= level <= 6
    ensures level < items[k].headingLevel ==> level == 6
    ensures level > items[k].headingLevel ==> level == 1
  {
    if items[k].headingLevel >= 6 then 6 else if items[k].headingLevel <= 1 then 1 else items[k].headingLevel
  }

  // ----- the section path

  /** How many headings stand above heading k: as many as stood there, but fewer than its level. */
  function Rank(items: seq<Item>, k: nat, pptx: bool): nat
    requires k < |items|
    decreases k, k + 1, 0
  {
    var above := |Standing(items, k, k, pptx)|;
    if above < LevelOf(items, k) then above else LevelOf(items, k) - 1
  }

  /** Item j takes the headings of this rank, and those below it, out of force. */
  predicate TakesOut(items: seq<Item>, j: nat, rank: nat, pptx: bool) {
    StartsChapter(items, j, pptx) || (Heads(items, j) && LevelOf(items, j) <= rank + 1)
  }

  /** Heading k is still in force at item i. */
  predicate Stands(items: seq<Item>, k: nat, i: nat, pptx: bool)
    requires k < i <= |items|
    decreases i, k, 0
  {
    Heads(items, k) && InForce(items, k, i, Rank(items, k, pptx), pptx)
  }

  predicate InForce(items: seq<Item>, k: nat, i: nat, rank: nat, pptx: bool) {
    forall j :: k < j < i ==> !TakesOut(items, j, rank, pptx)
  }

  /** The headings among the first n items that are in force at item i. */
  function Standing(items: seq<Item>, i: nat, n: nat, pptx: bool): seq<nat>
    requires n <= i <= |items|
    decreases i, n, 1
  {
    if n == 0 then []
    else Standing(items, i, n - 1, pptx) + (if Stands(items, n - 1, i, pptx) then [n - 1] else [])
  }

  function TextsOf(items: seq<Item>, places: seq<nat>): seq<string>
    requires AreItems(items, places)
  {
    seq(|places|, a requires 0 <= a < |places| => Trim(IsPySpace, items[places[a]].text))
  }

  predicate AreItems(items: seq<Item>, places: seq<nat>) {
    forall a :: 0 <= a < |places| ==> places[a] < |items|
  }

  lemma {:induction false} StandingAreItems(items: seq<Item>, i: nat, n: nat, pptx: bool)
    requires n <= i <= |items|
    ensures AreItems(items, Standing(items, i, n, pptx))
  {
    if n > 0 {
      StandingAreItems(items, i, n - 1, pptx);
    }
  }

  /** Each heading in force stands at its rank. */
  ghost predicate Ranked(items: seq<Item>, places: seq<nat>, pptx: bool) {
    forall a :: 0 <= a < |places| ==> places[a] < |items| && Rank(items, places[a], pptx) == a
  }

  function Cut(places: seq<nat>, n: nat): seq<nat> {
    if n < |places| then places[..n] else places
  }

  lemma CutSnoc(places: seq<nat>, k: nat, n: nat)
    ensures Cut(places + [k], n) == Cut(places, n) + (if |places| < n then [k] else [])
  {
  }

  lemma CutMore(before: seq<nat>, k: nat, rank: nat, level: nat, stands: bool)
    requires level > 0 && (stands ==> rank == |before|)
    ensures Cut(before + (if stands then [k] else []), level - 1)
         == Cut(before, level - 1) + (if stands && level > rank + 1 then [k] else [])
  {
    if stands {
      CutSnoc(before, k, level - 1);
    } else {
      assert before + [] == before;
    }
  }

  lemma RankedBefore(items: seq<Item>, before: seq<nat>, k: nat, stands: bool, pptx: bool)
    requires k < |items| && Ranked(items, before + (if stands then [k] else []), pptx)
    ensures Ranked(items, before, pptx) && (stands ==> Rank(items, k, pptx) == |before|)
  {
    if stands {
      RankedSnoc(items, before, k, pptx);
    } else {
      assert before + [] == before;
    }
  }

  lemma RankedSnoc(items: seq<Item>, places: seq<nat>, k: nat, pptx: bool)
    ensures Ranked(items, places + [k], pptx) <==>
              Ranked(items, places, pptx) && k < |items| && Rank(items, k, pptx) == |places|
  {
    var all := places + [k];
    assert all[|places|] == k;
    assert forall a :: 0 <= a < |places| ==> all[a] == places[a];
  }

  /** One item later. */
  lemma InForceLater(items: seq<Item>, k: nat, i: nat, rank: nat, pptx: bool)
    requires k < i
    ensures InForce(items, k, i + 1, rank, pptx) <==>
              InForce(items, k, i, rank, pptx) && !TakesOut(items, i, rank, pptx)
  {
  }

  lemma StandsLater(items: seq<Item>, k: nat, i: nat, pptx: bool)
    requires k < i < |items|
    ensures Stands(items, k, i + 1, pptx)
       <==> Stands(items, k, i, pptx) && !TakesOut(items, i, Rank(items, k, pptx), pptx)
  {
    InForceLater(items, k, i, Rank(items, k, pptx), pptx);
  }

  lemma StandingStep(items: seq<Item>, i: nat, n: nat, pptx: bool)
    requires 0 < n <= i <= |items|
    ensures Standing(items, i, n, pptx)
         == Standing(items, i, n - 1, pptx) + (if Stands(items, n - 1, i, pptx) then [n - 1] else [])
  {
  }

  lemma AfterHeading(items: seq<Item>, i: nat, n: nat, pptx: bool)
    requires 0 < n <= i < |items| && Heads(items, i)
    ensures Standing(items, i + 1, n, pptx)
         == Standing(items, i + 1, n - 1, pptx)
            + (if Stands(items, n - 1, i, pptx) && LevelOf(items, i) > Rank(items, n - 1, pptx) + 1 then [n - 1] else [])
  {
    StandsAfterHeading(items, n - 1, i, pptx);
  }

  lemma StandsAfterHeading(items: seq<Item>, k: nat, i: nat, pptx: bool)
    requires k < i < |items| && Heads(items, i)
    ensures Stands(items, k, i + 1, pptx) <==> Stands(items, k, i, pptx) && LevelOf(items, i) > Rank(items, k, pptx) + 1
  {
    StandsLater(items, k, i, pptx);
  }

  /** A heading cuts the path at its level. */
  lemma {:induction false} HeadingCuts(items: seq<Item>, i: nat, n: nat, pptx: bool)
    requires n <= i < |items| && Heads(items, i) && Ranked(items, Standing(items, i, n, pptx), pptx)
    ensures Standing(items, i + 1, n, pptx) == Cut(Standing(items, i, n, pptx), LevelOf(items, i) - 1)
  {
    if n > 0 {
      var before, stands := Standing(items, i, n - 1, pptx), Stands(items, n - 1, i, pptx);
      StandingStep(items, i, n, pptx);
      AfterHeading(items, i, n, pptx);
      RankedBefore(items, before, n - 1, stands, pptx);
      HeadingCuts(items, i, n - 1, pptx);
      CutMore(before, n - 1, Rank(items, n - 1, pptx), LevelOf(items, i), stands);
    }
  }

  lemma {:induction false} OthersKeep(items: seq<Item>, i: nat, n: nat, pptx: bool)
    requires n <= i < |items| && !Heads(items, i)
    ensures Standing(items, i + 1, n, pptx)
         == if StartsChapter(items, i, pptx) then [] else Standing(items, i, n, pptx)
  {
    if n > 0 {
      StandingStep(items, i, n, pptx);
      StandingStep(items, i + 1, n, pptx);
      StandsLater(items, n - 1, i, pptx);
      OthersKeep(items, i, n - 1, pptx);
    }
  }

  /** What item i makes of the path: a heading of level L stands last, behind the first L - 1 at most. */
  function Next(items: seq<Item>, i: nat, path: seq<nat>, pptx: bool): seq<nat>
    requires i < |items|
  {
    if Heads(items, i) then Cut(path, LevelOf(items, i) - 1) + [i]
    else if StartsChapter(items, i, pptx) then [] else path
  }

  lemma NextStanding(items: seq<Item>, i: nat, pptx: bool)
    requires i < |items| && Ranked(items, Standing(items, i, i, pptx), pptx)
    ensures Standing(items, i + 1, i + 1, pptx) == Next(items, i, Standing(items, i, i, pptx), pptx)
  {
    StandingStep(items, i + 1, i + 1, pptx);
    if Heads(items, i) {
      HeadingCuts(items, i, i, pptx);
    } else {
      OthersKeep(items, i, i, pptx);
    }
  }

  lemma CutIsRanked(items: seq<Item>, places: seq<nat>, n: nat, pptx: bool)
    requires Ranked(items, places, pptx)
    ensures Ranked(items, Cut(places, n), pptx)
  {
  }

  /** The headings in force stand in the path in order, each at its rank. */
  lemma {:induction false} StandingIsRanked(items: seq<Item>, i: nat, pptx: bool)
    requires i <= |items|
    ensures Ranked(items, Standing(items, i, i, pptx), pptx)
  {
    if i > 0 {
      var before := Standing(items, i - 1, i - 1, pptx);
      StandingIsRanked(items, i - 1, pptx);
      NextStanding(items, i - 1, pptx);
      if Heads(items, i - 1) {
        var kept := Cut(before, LevelOf(items, i - 1) - 1);
        CutIsRanked(items, before, LevelOf(items, i - 1) - 1, pptx);
        RankedSnoc(items, kept, i - 1, pptx);
      }
    }
  }

  lemma TextsOfCut(items: seq<Item>, places: seq<nat>, n: nat, k: nat)
    requires AreItems(items, places) && k < |items|
    ensures AreItems(items, Cut(places, n) + [k])
    ensures TextsOf(items, Cut(places, n) + [k])
         == Prefix(TextsOf(items, places), n) + [Trim(IsPySpace, items[k].text)]
  {
    TextsOfSnoc(items, Cut(places, n), k);
    CutTexts(items, places, n);
  }

  lemma TextsOfSnoc(items: seq<Item>, places: seq<nat>, k: nat)
    requires AreItems(items, places) && k < |items|
    ensures AreItems(items, places + [k])
    ensures TextsOf(items, places + [k]) == TextsOf(items, places) + [Trim(IsPySpace, items[k].text)]
  {
  }

  lemma CutTexts(items: seq<Item>, places: seq<nat>, n: nat)
    requires AreItems(items, places)
    ensures AreItems(items, Cut(places, n)) && TextsOf(items, Cut(places, n)) == Prefix(TextsOf(items, places), n)
  {
  }

  lemma EnterHeadings(ctx: Context, items: seq<Item>, i: nat, pptx: bool)
    requires i < |items|
    ensures Enter(ctx, items[i], pptx).headings
         == if Heads(items, i) then Prefix(ctx.headings, LevelOf(items, i) - 1) + [Trim(IsPySpace, items[i].text)]
            else if StartsChapter(items, i, pptx) then [] else ctx.headings
  {
  }

  lemma NextTexts(ctx: Context, items: seq<Item>, i: nat, path: seq<nat>, pptx: bool)
    requires i < |items| && AreItems(items, path) && ctx.headings == TextsOf(items, path)
    ensures AreItems(items, Next(items, i, path, pptx))
    ensures Enter(ctx, items[i], pptx).headings == TextsOf(items, Next(items, i, path, pptx))
  {
    EnterHeadings(ctx, items, i, pptx);
    TextsOfCut(items, path, LevelOf(items, i) - 1, i);
  }

  /** The path that is kept while walking over the items holds exactly the headings in force. */
  lemma {:induction false} PathIsStanding(items: seq<Item>, i: nat, pptx: bool)
    requires i <= |items|
    ensures AreItems(items, Standing(items, i, i, pptx))
    ensures Walk(TOP, items, i, pptx).headings == TextsOf(items, Standing(items, i, i, pptx))
  {
    if i > 0 {
      PathIsStanding(items, i - 1, pptx);
      StandingIsRanked(items, i - 1, pptx);
      NextStanding(items, i - 1, pptx);
      NextTexts(Walk(TOP, items, i - 1, pptx), items, i - 1, Standing(items, i - 1, i - 1, pptx), pptx);
    }
  }

  // ----- slide titles, sheets and sections

  /** Heading k gives page `page` its title, as seen from item i: it is the last heading on that page. */
  predicate GivesTitle(items: seq<Item>, i: nat, page: PageNumber, k: nat)
    requires i <= |items|
  {
    && k < i && Heads(items, k) && items[k].page == Some(page)
    && forall j :: k < j < i ==> !(Heads(items, j) && items[j].page == Some(page))
  }

  ghost predicate HasTitle(items: seq<Item>, i: nat, page: PageNumber)
    requires i <= |items|
  {
    exists k: nat :: GivesTitle(items, i, page, k)
  }

  lemma EnterTitles(ctx: Context, items: seq<Item>, i: nat, pptx: bool)
    requires i < |items|
    ensures Enter(ctx, items[i], pptx).titles
         == if Heads(items, i) && items[i].page.Some?
            then ctx.titles[items[i].page.value := Trim(IsPySpace, items[i].text)] else ctx.titles
  {
  }

  lemma SameTitle(items: seq<Item>, i: nat, page: PageNumber, k: nat)
    requires i < |items| && !(Heads(items, i) && items[i].page == Some(page))
    ensures GivesTitle(items, i + 1, page, k) <==> GivesTitle(items, i, page, k)
  {
  }

  /** The title kept for a page is that of the last heading on it. */
  ghost predicate TitledBy(items: seq<Item>, i: nat, page: PageNumber, titles: map<PageNumber, string>)
    requires i <= |items|
  {
    && (page in titles <==> HasTitle(items, i, page))
    && (forall k: nat :: GivesTitle(items, i, page, k) ==>
          page in titles && titles[page] == Trim(IsPySpace, items[k].text))
  }

  lemma NewTitle(items: seq<Item>, i: nat, page: PageNumber, titles: map<PageNumber, string>)
    requires i < |items| && Heads(items, i) && items[i].page == Some(page)
    ensures TitledBy(items, i + 1, page, titles[page := Trim(IsPySpace, items[i].text)])
  {
    var n := i + 1;
    assert GivesTitle(items, n, page, i);
    forall k: nat | GivesTitle(items, n, page, k)
      ensures k == i
    {
    }
  }

  lemma OldTitle(items: seq<Item>, i: nat, page: PageNumber, titles: map<PageNumber, string>,
                 more: map<PageNumber, string>)
    requires i < |items| && !(Heads(items, i) && items[i].page == Some(page)) && TitledBy(items, i, page, titles)
    requires (page in more <==> page in titles) && (page in titles ==> more[page] == titles[page])
    ensures TitledBy(items, i + 1, page, more)
  {
    forall k: nat
      ensures GivesTitle(items, i + 1, page, k) <==> GivesTitle(items, i, page, k)
    {
      SameTitle(items, i, page, k);
    }
  }

  lemma TitledLater(ctx: Context, next: Context, items: seq<Item>, i: nat, page: PageNumber, pptx: bool)
    requires i < |items| && TitledBy(items, i, page, ctx.titles) && next == Enter(ctx, items[i], pptx)
    ensures TitledBy(items, i + 1, page, next.titles)
  {
    EnterTitles(ctx, items, i, pptx);
    if Heads(items, i) && items[i].page == Some(page) {
      NewTitle(items, i, page, ctx.titles);
    } else {
      OldTitle(items, i, page, ctx.titles, next.titles);
    }
  }

  lemma NothingTitled(items: seq<Item>, page: PageNumber)
    ensures TitledBy(items, 0, page, TOP.titles)
  {
  }

  /** The titles that are kept are those of the last headings. */
  lemma {:induction false} TitlesAreLast(items: seq<Item>, i: nat, page: PageNumber, pptx: bool)
    requires i <= |items|
    ensures TitledBy(items, i, page, Walk(TOP, items, i, pptx).titles)
  {
    if i == 0 {
      NothingTitled(items, page);
    } else {
      TitlesAreLast(items, i - 1, page, pptx);
      TitledLater(Walk(TOP, items, i - 1, pptx), Walk(TOP, items, i, pptx), items, i - 1, page, pptx);
    }
  }

  /** The innermost named sheet group around item i. */
  predicate IsInnermostSheet(items: seq<Item>, i: nat, j: nat)
    requires i < |items|
  {
    IsSheetAround(items, j, i) && forall k :: j < k < i ==> !IsSheetAround(items, k, i)
  }

  ghost predicate HasSheet(items: seq<Item>, i: nat)
    requires i < |items|
  {
    exists j: nat :: IsInnermostSheet(items, i, j)
  }

  ghost predicate IsSheet(items: seq<Item>, i: nat, sheet: Option<string>)
    requires i < |items|
  {
    if HasSheet(items, i) then exists j: nat :: IsInnermostSheet(items, i, j) && sheet == Some(items[j].name)
    else sheet == None
  }

  lemma SheetIs(items: seq<Item>, i: nat)
    requires i < |items|
    ensures IsSheet(items, i, Sheet(Enclosing(items, i, i)))
    ensures Sheet(Enclosing(items, i, i)).Some? <==> HasSheet(items, i)
  {
    SheetIsInnermost(items, i, i);
    var sheet := Sheet(Enclosing(items, i, i));
    if sheet.Some? {
      var j: nat :| j < i && IsSheetAround(items, j, i) && sheet.value == items[j].name
                    && forall k: nat :: j < k < i ==> !IsSheetAround(items, k, i);
      assert IsInnermostSheet(items, i, j);
    }
  }

  /** The headings in force at item i, as the section path. */
  ghost predicate IsPath(items: seq<Item>, i: nat, pptx: bool, section: Option<string>)
    requires i <= |items|
  {
    var path := Standing(items, i, i, pptx);
    && AreItems(items, path)
    && section == if path == [] then None else Some(Join(" / ", TextsOf(items, path)))
  }

  /** The section of an item that is no heading: its sheet, else its slide's title, else the headings in force. */
  ghost predicate IsSection(items: seq<Item>, i: nat, pptx: bool, section: Option<string>)
    requires i < |items|
  {
    if HasSheet(items, i) then IsSheet(items, i, section)
    else if items[i].page.Some? && HasTitle(items, i, items[i].page.value) then
      exists k: nat :: GivesTitle(items, i, items[i].page.value, k) && section == Some(Trim(IsPySpace, items[k].text))
    else IsPath(items, i, pptx, section)
  }

  /** Headings, open groups and slide titles as item i sees them. */
  function ContextAt(items: seq<Item>, i: nat, pptx: bool): Context
    requires i < |items|
  {
    Enter(Walk(TOP, items, i, pptx), items[i], pptx)
  }

  lemma TitleIs(items: seq<Item>, i: nat, page: PageNumber, pptx: bool)
    requires i <= |items| && HasTitle(items, i, page)
    ensures page in Walk(TOP, items, i, pptx).titles
    ensures exists k: nat :: GivesTitle(items, i, page, k)
                        && Walk(TOP, items, i, pptx).titles[page] == Trim(IsPySpace, items[k].text)
  {
    TitlesAreLast(items, i, page, pptx);
    var k: nat :| GivesTitle(items, i, page, k);
  }

  lemma PathIs(items: seq<Item>, i: nat, pptx: bool)
    requires i <= |items|
    ensures var headings := Walk(TOP, items, i, pptx).headings;
            IsPath(items, i, pptx, if headings == [] then None else Some(Join(" / ", headings)))
  {
    PathIsStanding(items, i, pptx);
  }

  lemma ContextOfContent(items: seq<Item>, i: nat, pptx: bool)
    requires i < |items| && !items[i].isGroup && !Heads(items, i)
    ensures ContextAt(items, i, pptx).headings == Walk(TOP, items, i, pptx).headings
    ensures ContextAt(items, i, pptx).titles == Walk(TOP, items, i, pptx).titles
    ensures ContextAt(items, i, pptx).groups == Enclosing(items, i, i)
  {
    EnterHeadings(Walk(TOP, items, i, pptx), items, i, pptx);
    EnterTitles(Walk(TOP, items, i, pptx), items, i, pptx);
    PlacedByEnclosing(items, i, pptx);
  }

  lemma SectionIs(items: seq<Item>, i: nat, pptx: bool)
    requires i < |items| && !items[i].isGroup && !Heads(items, i)
    ensures IsSection(items, i, pptx, SectionOf(ContextAt(items, i, pptx), items[i].page))
  {
    ContextOfContent(items, i, pptx);
    SheetIs(items, i);
    if items[i].page.Some? {
      TitlesAreLast(items, i, items[i].page.value, pptx);
      if HasTitle(items, i, items[i].page.value) {
        TitleIs(items, i, items[i].page.value, pptx);
      }
    }
    PathIs(items, i, pptx);
  }

  // ----- what an item's entry says

  /** A heading is written with as many number signs as its level. */
  predicate IsHeadingText(items: seq<Item>, i: nat, text: string)
    requires i < |items|
  {
    var level := LevelOf(items, i);
    && level < |text| && (forall k :: 0 <= k < level ==> text[k] == '#')
    && text[level] == ' ' && text[level + 1..] == Trim(IsPySpace, items[i].text)
  }

  /** Any other text is written as it is, a list item behind a dash. */
  predicate IsBodyText(items: seq<Item>, i: nat, text: string)
    requires i < |items|
  {
    text == (if items[i].tag == "list_item" then "- " else "") + Trim(IsPySpace, items[i].text)
  }

  /** The entry of item i: its text, page and section, and for a table its sheet. */
  ghost predicate Says(e: Entry, items: seq<Item>, i: nat, pptx: bool)
    requires i < |items|
  {
    match e
    case Chapter => false
    case Grid(markdown, page, section, sheet) =>
      && items[i].isTable && !Heads(items, i) && markdown == Trim(IsPySpace, items[i].markdown)
      && page == items[i].page && IsSection(items, i, pptx, section) && IsSheet(items, i, sheet)
    case Line(text, page, section, heading) =>
      && page == items[i].page && heading == Heads(items, i)
      && if heading then IsHeadingText(items, i, text) && section.Some? && IsPath(items, i + 1, pptx, section)
         else !items[i].isTable && IsBodyText(items, i, text) && IsSection(items, i, pptx, section)
  }

  lemma {:induction false} HashesAre(n: nat)
    ensures |Hashes(n)| == n && forall k :: 0 <= k < n ==> Hashes(n)[k] == '#'
  {
    if n > 0 {
      HashesAre(n - 1);
    }
  }

  lemma HeadingTextIs(items: seq<Item>, i: nat)
    requires i < |items|
    ensures IsHeadingText(items, i, HeadingLine(items[i]))
  {
    HashesAre(LevelOf(items, i));
  }

  lemma HeadingPathIs(items: seq<Item>, i: nat, pptx: bool)
    requires i < |items| && Heads(items, i)
    ensures IsPath(items, i + 1, pptx, Some(Join(" / ", ContextAt(items, i, pptx).headings)))
  {
    PathIs(items, i + 1, pptx);
    EnterHeadings(Walk(TOP, items, i, pptx), items, i, pptx);
  }

  /** A heading, a table, or a text that is not blank. */
  predicate HasText(item: Item) {
    !item.isGroup && (item.isTable || Trim(IsPySpace, item.text) != "")
  }

  lemma EntrySays(items: seq<Item>, i: nat, pptx: bool)
    requires i < |items| && HasText(items[i])
    ensures EntryOf(ContextAt(items, i, pptx), items[i], pptx).Some?
    ensures Says(EntryOf(ContextAt(items, i, pptx), items[i], pptx).value, items, i, pptx)
  {
    if Heads(items, i) {
      HeadingTextIs(items, i);
      HeadingPathIs(items, i, pptx);
    } else {
      SectionIs(items, i, pptx);
      ContextOfContent(items, i, pptx);
      SheetIs(items, i);
      assert "" + Trim(IsPySpace, items[i].text) == Trim(IsPySpace, items[i].text);
    }
  }
}
