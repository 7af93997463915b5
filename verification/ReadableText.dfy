/** Turning a chapter's markup tree into plain text (src-tauri/src/reading.rs, collect_readable_text and its helpers). */
module ReadableText {
  import opened Sequences
  import opened Whitespace

  // ----- words

  /** How many characters without whitespace stand at the front. */
  function WordLength(s: string): (n: nat)
    ensures n <= |s|
    ensures s != "" && !IsUnicodeSpace(s[0]) ==> n > 0
    ensures forall k :: 0 <= k < n ==> !IsUnicodeSpace(s[k])
    ensures n < |s| ==> IsUnicodeSpace(s[n])
  {
    if s == "" || IsUnicodeSpace(s[0]) then 0 else 1 + WordLength(s[1..])
  }

  /** The text cut at whitespace. */
  function Words(s: string): seq<string>
    decreases |s|
  {
    if s == "" then []
    else if IsUnicodeSpace(s[0]) then Words(s[1..])
    else [s[..WordLength(s)]] + Words(s[WordLength(s)..])
  }

  predicate IsWord(w: string) {
    w != "" && forall k :: 0 <= k < |w| ==> !IsUnicodeSpace(w[k])
  }

  lemma {:induction false} WordsAreWords(s: string)
    ensures forall w <- Words(s) :: IsWord(w)
    decreases |s|
  {
    if s != "" {
      if IsUnicodeSpace(s[0]) {
        WordsAreWords(s[1..]);
      } else {
        WordsAreWords(s[WordLength(s)..]);
        assert IsWord(s[..WordLength(s)]);
      }
    }
  }

  lemma {:induction false} WordLengthBefore(a: string, b: string)
    requires b != "" && IsUnicodeSpace(b[0])
    ensures WordLength(a + b) == WordLength(a)
  {
    if a != "" {
      assert (a + b)[1..] == a[1..] + b;
      WordLengthBefore(a[1..], b);
    }
  }

  /** Whitespace keeps the words on its two sides apart. */
  lemma {:induction false} WordsApart(a: string, b: string)
    requires b != "" && IsUnicodeSpace(b[0])
    ensures Words(a + b) == Words(a) + Words(b)
    decreases |a|
  {
    if a == "" {
      assert a + b == b;
    } else if IsUnicodeSpace(a[0]) {
      assert (a + b)[1..] == a[1..] + b;
      WordsApart(a[1..], b);
    } else {
      var n := WordLength(a);
      WordLengthBefore(a, b);
      assert (a + b)[..n] == a[..n];
      assert (a + b)[n..] == a[n..] + b;
      WordsApart(a[n..], b);
      Regroup([a[..n]], Words(a[n..]), Words(b));
    }
  }

  lemma {:induction false} OneWord(w: string)
    requires IsWord(w)
    ensures WordLength(w) == |w| && Words(w) == [w]
  {
    assert WordLength(w) == |w|;
    assert w[..|w|] == w && w[|w|..] == "";
  }

  // ----- the tree

  datatype Node = Text(value: string) | Element(name: string, children: seq<Node>) | Other(children: seq<Node>)

  predicate IsSkipped(name: string) {
    name in {"head", "script", "style", "svg"}
  }

  predicate IsBlockElement(name: string) {
    name in {
      "address", "article", "aside", "blockquote", "div", "figcaption", "figure", "footer",
      "h1", "h2", "h3", "h4", "h5", "h6", "header", "li", "main", "p", "section"}
  }

  // ----- the reference: the document as words and paragraph breaks, cut at the breaks

  datatype Token = Word(word: string) | Break

  function WordTokens(words: seq<string>): seq<Token> {
    if words == [] then [] else [Word(words[0])] + WordTokens(words[1..])
  }

  function Tokens(node: Node): seq<Token> {
    match node
    case Text(value) => WordTokens(Words(value))
    case Other(children) => AllTokens(children)
    case Element(name, children) =>
      if IsSkipped(name) then []
      else if IsBlockElement(name) then [Break] + AllTokens(children) + [Break]
      else AllTokens(children)
  }

  function AllTokens(nodes: seq<Node>): seq<Token> {
    if nodes == [] then [] else Tokens(nodes[0]) + AllTokens(nodes[1..])
  }

  /** The words up to the first break. */
  function Run(tokens: seq<Token>): (words: seq<string>)
    ensures |words| <= |tokens|
  {
    if tokens == [] || tokens[0].Break? then [] else [tokens[0].word] + Run(tokens[1..])
  }

  /** The non-empty runs of words between breaks. */
  function Paragraphs(tokens: seq<Token>): seq<seq<string>>
    decreases |tokens|
  {
    if tokens == [] then []
    else if tokens[0].Break? then Paragraphs(tokens[1..])
    else [Run(tokens)] + Paragraphs(tokens[|Run(tokens)|..])
  }

  /** The words of the readable text nodes, in document order. */
  function WordsOf(node: Node): seq<string> {
    match node
    case Text(value) => Words(value)
    case Other(children) => AllWordsOf(children)
    case Element(name, children) => if IsSkipped(name) then [] else AllWordsOf(children)
  }

  function AllWordsOf(nodes: seq<Node>): seq<string> {
    if nodes == [] then [] else WordsOf(nodes[0]) + AllWordsOf(nodes[1..])
  }

  function Sentence(words: seq<string>): string {
    Join(" ", words)
  }

  function Sentences(paragraphs: seq<seq<string>>): seq<string> {
    if paragraphs == [] then [] else [Sentence(paragraphs[0])] + Sentences(paragraphs[1..])
  }

  /** Single spaces between words, one blank line between paragraphs. */
  function Chapter(paragraphs: seq<seq<string>>): string {
    Join("\n\n", Sentences(paragraphs))
  }

  // ----- what the output buffer stands for

  /** The paragraphs so far, and whether the last is finished. */
  datatype Draft = Draft(paragraphs: seq<seq<string>>, finished: bool)

  predicate IsParagraph(words: seq<string>) {
    words != [] && forall w <- words :: IsWord(w)
  }

  predicate DraftOk(draft: Draft) {
    && (forall p <- draft.paragraphs :: IsParagraph(p))
    && (draft.finished ==> draft.paragraphs != [])
  }

  function Written(draft: Draft): string {
    Chapter(draft.paragraphs) + (if draft.finished then "\n\n" else "")
  }

  function WithWords(draft: Draft, words: seq<string>): Draft {
    if words == [] then draft
    else if draft.finished || draft.paragraphs == [] then Draft(draft.paragraphs + [words], false)
    else
      var n := |draft.paragraphs| - 1;
      Draft(draft.paragraphs[..n] + [draft.paragraphs[n] + words], false)
  }

  function WithBreak(draft: Draft): Draft {
    Draft(draft.paragraphs, draft.paragraphs != [])
  }

  function Next(draft: Draft, token: Token): Draft {
    match token
    case Word(w) => WithWords(draft, [w])
    case Break => WithBreak(draft)
  }

  /** The draft after a document's tokens. */
  function Drafted(draft: Draft, tokens: seq<Token>): Draft
    decreases |tokens|
  {
    if tokens == [] then draft else Drafted(Next(draft, tokens[0]), tokens[1..])
  }

  // ----- text made of good paragraphs

  /** Not empty, on one line, and without whitespace at its ends. */
  predicate IsLine(s: string) {
    && s != "" && !IsUnicodeSpace(s[0]) && !IsUnicodeSpace(s[|s| - 1])
    && (forall k :: 0 <= k < |s| ==> s[k] != '\n')
  }

  lemma SpacedLine(a: string, b: string)
    requires IsLine(a) && IsLine(b)
    ensures IsLine(a + " " + b)
  {
  }

  lemma {:induction false} SentenceIsLine(words: seq<string>)
    requires IsParagraph(words)
    ensures IsLine(Sentence(words))
  {
    assert words[0] in words;
    if |words| > 1 {
      SentenceIsLine(words[1..]);
      SpacedLine(words[0], Sentence(words[1..]));
    }
  }

  lemma {:induction false} WordsOfSentence(words: seq<string>)
    requires IsParagraph(words)
    ensures Words(Sentence(words)) == words
  {
    assert words[0] in words;
    OneWord(words[0]);
    if |words| > 1 {
      var rest := Sentence(words[1..]);
      WordsOfSentence(words[1..]);
      WordsApart(words[0], " " + rest);
      Regroup(words[0], " ", rest);
      assert (" " + rest)[1..] == rest;
    }
  }

  lemma {:induction false} SentencesSnoc(paragraphs: seq<seq<string>>, last: seq<string>)
    ensures Sentences(paragraphs + [last]) == Sentences(paragraphs) + [Sentence(last)]
  {
    if paragraphs == [] {
      assert Sentences([last])[1..] == [];
    } else {
      assert (paragraphs + [last])[1..] == paragraphs[1..] + [last];
      SentencesSnoc(paragraphs[1..], last);
    }
  }

  lemma ChapterSnoc(paragraphs: seq<seq<string>>, last: seq<string>)
    ensures Chapter(paragraphs + [last])
         == (if paragraphs == [] then "" else Chapter(paragraphs) + "\n\n") + Sentence(last)
  {
    SentencesSnoc(paragraphs, last);
    if paragraphs != [] {
      JoinSnoc("\n\n", Sentences(paragraphs), Sentence(last));
    }
  }

  lemma ChapterGrows(before: seq<seq<string>>, last: seq<string>, words: seq<string>)
    requires last != [] && words != []
    ensures Chapter(before + [last + words]) == Chapter(before + [last]) + " " + Sentence(words)
  {
    ChapterSnoc(before, last);
    ChapterSnoc(before, last + words);
    JoinConcat(" ", last, words);
    var lead := if before == [] then "" else Chapter(before) + "\n\n";
    Regroup(lead, Sentence(last), " " + Sentence(words));
    Regroup(Sentence(last), " ", Sentence(words));
    Regroup(lead + Sentence(last), " ", Sentence(words));
  }

  /** A chapter with paragraphs starts and ends with ink. */
  lemma ChapterEdges(paragraphs: seq<seq<string>>)
    requires paragraphs != [] && forall p <- paragraphs :: IsParagraph(p)
    ensures var text := Chapter(paragraphs);
            text != "" && !IsUnicodeSpace(text[0]) && !IsUnicodeSpace(text[|text| - 1])
  {
    var n := |paragraphs| - 1;
    assert paragraphs == paragraphs[..n] + [paragraphs[n]];
    ChapterSnoc(paragraphs[..n], paragraphs[n]);
    SentenceIsLine(paragraphs[n]);
    SentenceIsLine(paragraphs[0]);
    assert Chapter(paragraphs)[0] == Sentence(paragraphs[0])[0];
  }

  lemma WrittenWords(draft: Draft, words: seq<string>)
    requires DraftOk(draft) && words != [] && forall w <- words :: IsWord(w)
    ensures DraftOk(WithWords(draft, words))
    ensures draft.paragraphs == [] ==> Written(draft) == ""
    ensures draft.paragraphs != [] ==>
              && Written(draft) != ""
              && IsUnicodeSpace(Written(draft)[|Written(draft)| - 1]) == draft.finished
    ensures Written(WithWords(draft, words))
         == Written(draft) + (if draft.finished || draft.paragraphs == [] then "" else " ") + Sentence(words)
  {
    if draft.paragraphs != [] {
      ChapterEdges(draft.paragraphs);
    }
    WordsWritten(draft, words);
  }

  lemma WordsWritten(draft: Draft, words: seq<string>)
    requires DraftOk(draft) && words != [] && forall w <- words :: IsWord(w)
    ensures DraftOk(WithWords(draft, words))
    ensures Written(WithWords(draft, words))
         == Written(draft) + (if draft.finished || draft.paragraphs == [] then "" else " ") + Sentence(words)
  {
    if draft.finished || draft.paragraphs == [] {
      ChapterSnoc(draft.paragraphs, words);
    } else {
      var n := |draft.paragraphs| - 1;
      assert draft.paragraphs == draft.paragraphs[..n] + [draft.paragraphs[n]];
      assert IsParagraph(draft.paragraphs[n]);
      ChapterGrows(draft.paragraphs[..n], draft.paragraphs[n], words);
    }
  }

  lemma WrittenEdges(draft: Draft)
    requires DraftOk(draft)
    ensures Chapter(draft.paragraphs) == "" <==> draft.paragraphs == []
    ensures var text := Chapter(draft.paragraphs); text != "" ==> !IsUnicodeSpace(text[|text| - 1])
  {
    if draft.paragraphs != [] {
      ChapterEdges(draft.paragraphs);
    }
  }

  lemma WrittenIsBlankIff(draft: Draft)
    requires DraftOk(draft)
    ensures Trim(IsUnicodeSpace, Written(draft)) == "" <==> draft.paragraphs == []
  {
    BlankIffTrimsToNothing(IsUnicodeSpace, Written(draft));
    if draft.paragraphs != [] {
      ChapterEdges(draft.paragraphs);
      assert Written(draft)[0] == Chapter(draft.paragraphs)[0];
    }
  }

  lemma {:induction false} DraftedConcat(draft: Draft, a: seq<Token>, b: seq<Token>)
    ensures Drafted(draft, a + b) == Drafted(Drafted(draft, a), b)
    decreases |a|
  {
    if a == [] {
      assert a + b == b;
    } else {
      assert (a + b)[1..] == a[1..] + b;
      DraftedConcat(Next(draft, a[0]), a[1..], b);
    }
  }

  lemma WordsOneByOne(draft: Draft, word: string, rest: seq<string>)
    ensures WithWords(WithWords(draft, [word]), rest) == WithWords(draft, [word] + rest)
  {
    var started := WithWords(draft, [word]);
    var n := |started.paragraphs| - 1;
    if rest == [] {
      assert [word] + rest == [word];
    } else if draft.finished || draft.paragraphs == [] {
      assert started.paragraphs[..n] == draft.paragraphs;
    } else {
      assert started.paragraphs[..n] == draft.paragraphs[..n];
      Regroup(draft.paragraphs[n], [word], rest);
    }
  }

  lemma {:induction false} DraftedWords(draft: Draft, words: seq<string>)
    ensures Drafted(draft, WordTokens(words)) == WithWords(draft, words)
    decreases |words|
  {
    if words != [] {
      DraftedWords(WithWords(draft, [words[0]]), words[1..]);
      WordsOneByOne(draft, words[0], words[1..]);
      assert [words[0]] + words[1..] == words;
      assert WordTokens(words)[1..] == WordTokens(words[1..]);
    }
  }

  lemma {:induction false} TokensSnoc(nodes: seq<Node>, last: Node)
    ensures AllTokens(nodes + [last]) == AllTokens(nodes) + Tokens(last)
  {
    if nodes == [] {
      assert AllTokens([last]) == Tokens(last) + AllTokens([]);
    } else {
      assert (nodes + [last])[1..] == nodes[1..] + [last];
      TokensSnoc(nodes[1..], last);
      Regroup(Tokens(nodes[0]), AllTokens(nodes[1..]), Tokens(last));
    }
  }

  // ----- the collector

  class TextBuilder {
    var output: string
    ghost var draft: Draft

    ghost predicate Valid()
      reads this
    {
      DraftOk(draft) && output == Written(draft)
    }

    constructor ()
      ensures Valid() && draft == Draft([], false)
    {
      output, draft := "", Draft([], false);
    }

    method AppendNormalizedText(value: string)
      requires Valid()
      modifies this
      ensures Valid() && draft == WithWords(old(draft), Words(value))
    {
      var words := Words(value);
      WordsAreWords(value);
      if words != [] {
        WrittenWords(draft, words);
        if output != "" && !IsUnicodeSpace(output[|output| - 1]) {
          output := output + " ";
        }
        output := output + Sentence(words);
        draft := WithWords(draft, words);
      }
    }

    method AppendParagraphBreak()
      requires Valid()
      modifies this
      ensures Valid() && draft == WithBreak(old(draft))
    {
      WrittenEdges(draft);
      ghost var text := Chapter(draft.paragraphs);
      while output != "" && IsUnicodeSpace(output[|output| - 1])
        invariant text <= output
        invariant forall k :: |text| <= k < |output| ==> IsUnicodeSpace(output[k])
        decreases |output|
        modifies this`output
      {
        output := output[..|output| - 1];
      }
      assert output == text;
      if output != "" && !(|output| >= 2 && output[|output| - 2..] == "\n\n") {
        output := output + "\n\n";
      }
      draft := WithBreak(draft);
    }

    method CollectReadableText(node: Node)
      requires Valid()
      modifies this
      ensures Valid() && draft == Drafted(old(draft), Tokens(node))
      decreases node, 1
    {
      match node
      case Text(value) =>
        DraftedWords(draft, Words(value));
        AppendNormalizedText(value);
      case Other(children) =>
        CollectChildren(node);
      case Element(name, children) =>
        if IsSkipped(name) {
          return;
        }
        if !IsBlockElement(name) {
          CollectChildren(node);
          return;
        }
        DraftedConcat(draft, [Break] + AllTokens(children), [Break]);
        DraftedConcat(draft, [Break], AllTokens(children));
        WrittenIsBlankIff(draft);
        if Trim(IsUnicodeSpace, output) != "" {
          AppendParagraphBreak();
        }
        CollectChildren(node);
        AppendParagraphBreak();
    }

    method CollectChildren(node: Node)
      requires !node.Text? && Valid()
      modifies this
      ensures Valid() && draft == Drafted(old(draft), AllTokens(node.children))
      decreases node, 0
    {
      var i := 0;
      while i < |node.children|
        invariant 0 <= i <= |node.children|
        invariant Valid() && draft == Drafted(old(draft), AllTokens(node.children[..i]))
      {
        assert node.children[..i + 1] == node.children[..i] + [node.children[i]];
        TokensSnoc(node.children[..i], node.children[i]);
        DraftedConcat(old(draft), AllTokens(node.children[..i]), Tokens(node.children[i]));
        CollectReadableText(node.children[i]);
        i := i + 1;
      }
      assert node.children[..i] == node.children;
    }
  }

  // ----- the buffer holds the paragraphs of the document

  /** The paragraphs after more tokens: the first run joins a paragraph that is not finished. */
  function Continued(draft: Draft, tokens: seq<Token>): seq<seq<string>> {
    if draft.finished || draft.paragraphs == [] then draft.paragraphs + Paragraphs(tokens)
    else
      var n, run := |draft.paragraphs| - 1, Run(tokens);
      draft.paragraphs[..n] + [draft.paragraphs[n] + run] + Paragraphs(tokens[|run|..])
  }

  lemma ContinuedByWord(draft: Draft, word: string, rest: seq<Token>)
    ensures Continued(WithWords(draft, [word]), rest) == Continued(draft, [Word(word)] + rest)
  {
    var tokens := [Word(word)] + rest;
    var run := Run(rest);
    assert tokens[1..] == rest;
    assert Run(tokens) == [word] + run;
    assert tokens[|[word] + run|..] == rest[|run|..];
    var after := Paragraphs(rest[|run|..]);
    if draft.finished || draft.paragraphs == [] {
      assert Paragraphs(tokens) == [[word] + run] + after;
      Regroup(draft.paragraphs, [[word] + run], after);
      assert (draft.paragraphs + [[word]])[..|draft.paragraphs|] == draft.paragraphs;
    } else {
      var n := |draft.paragraphs| - 1;
      Regroup(draft.paragraphs[n], [word], run);
      var started := WithWords(draft, [word]).paragraphs;
      assert started[..n] == draft.paragraphs[..n];
    }
  }

  lemma ContinuedByBreak(draft: Draft, rest: seq<Token>)
    ensures Continued(WithBreak(draft), rest) == Continued(draft, [Break] + rest)
  {
    var tokens := [Break] + rest;
    assert tokens[1..] == rest && tokens[0..] == tokens;
    if !draft.finished && draft.paragraphs != [] {
      var n := |draft.paragraphs| - 1;
      assert draft.paragraphs[n] + [] == draft.paragraphs[n];
      assert draft.paragraphs == draft.paragraphs[..n] + [draft.paragraphs[n]];
    }
  }

  lemma {:induction false} DraftedIsContinued(draft: Draft, tokens: seq<Token>)
    ensures Drafted(draft, tokens).paragraphs == Continued(draft, tokens)
    decreases |tokens|
  {
    if tokens == [] {
      if !draft.finished && draft.paragraphs != [] {
        ContinuedByBreak(draft, []);
        assert draft.paragraphs + [] == draft.paragraphs;
      }
    } else {
      assert tokens == [tokens[0]] + tokens[1..];
      DraftedIsContinued(Next(draft, tokens[0]), tokens[1..]);
      match tokens[0]
      case Word(w) => ContinuedByWord(draft, w, tokens[1..]);
      case Break => ContinuedByBreak(draft, tokens[1..]);
    }
  }

  // ----- splitting at blank lines and joining again

  predicate BlankLineAt(s: string, i: nat) {
    i + 1 < |s| && s[i] == '\n' && s[i + 1] == '\n'
  }

  /** Where the first two newlines in a row are, or the end. */
  function FindBlankLine(s: string, i: nat): (at: nat)
    requires i <= |s|
    ensures i <= at <= |s| && (at < |s| ==> BlankLineAt(s, at))
    ensures forall k :: i <= k < at ==> !BlankLineAt(s, k)
    decreases |s| - i
  {
    if i == |s| || BlankLineAt(s, i) then i else FindBlankLine(s, i + 1)
  }

  function SplitBlankLines(s: string): seq<string>
    decreases |s|
  {
    var at := FindBlankLine(s, 0);
    if at == |s| then [s] else [s[..at]] + SplitBlankLines(s[at + 2..])
  }

  function TrimmedTexts(parts: seq<string>): seq<string> {
    if parts == [] then []
    else
      var part := Trim(IsUnicodeSpace, parts[0]);
      (if part == "" then [] else [part]) + TrimmedTexts(parts[1..])
  }

  function NormalizeReadableText(value: string): string {
    Join("\n\n", TrimmedTexts(SplitBlankLines(value)))
  }

  lemma SplitAfterLine(line: string, rest: string)
    requires IsLine(line)
    ensures SplitBlankLines(line + "\n\n" + rest) == [line] + SplitBlankLines(rest)
  {
    var s := line + "\n\n" + rest;
    assert BlankLineAt(s, |line|);
    assert forall k :: 0 <= k < |line| ==> s[k] == line[k];
    assert FindBlankLine(s, 0) == |line|;
    assert s[..|line|] == line && s[|line| + 2..] == rest;
  }

  lemma SplitLine(line: string)
    requires IsLine(line)
    ensures SplitBlankLines(line) == [line]
  {
  }

  /** Splitting a chapter at blank lines gives back its paragraphs, and an empty part for a final break. */
  lemma {:induction false} SplitChapter(paragraphs: seq<seq<string>>, finished: bool)
    requires paragraphs != [] && forall p <- paragraphs :: IsParagraph(p)
    ensures SplitBlankLines(Written(Draft(paragraphs, finished)))
         == Sentences(paragraphs) + (if finished then [""] else [])
  {
    var line := Sentence(paragraphs[0]);
    assert IsParagraph(paragraphs[0]);
    SentenceIsLine(paragraphs[0]);
    if |paragraphs| == 1 {
      assert Sentences(paragraphs) == [line];
      if finished {
        SplitAfterLine(line, "");
        assert line + "\n\n" + "" == line + "\n\n";
      } else {
        SplitLine(line);
        assert line + "" == line;
      }
    } else {
      var rest := Written(Draft(paragraphs[1..], finished));
      SplitChapter(paragraphs[1..], finished);
      SplitAfterLine(line, rest);
      assert Sentences(paragraphs)[1..] == Sentences(paragraphs[1..]);
      Regroup(line + "\n\n", Chapter(paragraphs[1..]), if finished then "\n\n" else "");
      Regroup([line], Sentences(paragraphs[1..]), if finished then [""] else []);
    }
  }

  lemma TrimmedStep(part: string, rest: seq<string>)
    ensures var text := Trim(IsUnicodeSpace, part);
            TrimmedTexts([part] + rest) == (if text == "" then [] else [text]) + TrimmedTexts(rest)
  {
    assert ([part] + rest)[1..] == rest;
  }

  lemma {:induction false} TrimmedSentences(paragraphs: seq<seq<string>>, more: seq<string>)
    requires forall p <- paragraphs :: IsParagraph(p)
    ensures TrimmedTexts(Sentences(paragraphs) + more) == Sentences(paragraphs) + TrimmedTexts(more)
  {
    if paragraphs == [] {
      assert Sentences(paragraphs) + more == more;
    } else {
      var line, rest := Sentence(paragraphs[0]), Sentences(paragraphs[1..]);
      assert IsParagraph(paragraphs[0]);
      SentenceIsLine(paragraphs[0]);
      TrimIsIdentity(IsUnicodeSpace, line);
      TrimmedSentences(paragraphs[1..], more);
      TrimmedStep(line, rest + more);
      Regroup([line], rest, more);
      Regroup([line], rest, TrimmedTexts(more));
    }
  }

  /** Normalizing the collected buffer drops only its final break. */
  lemma NormalizingDrafts(draft: Draft)
    requires DraftOk(draft)
    ensures NormalizeReadableText(Written(draft)) == Chapter(draft.paragraphs)
  {
    var more := if draft.finished then [""] else [];
    assert TrimmedTexts(more) == [];
    if draft.paragraphs == [] {
      assert Written(draft) == "" && SplitBlankLines("") == [""];
    } else {
      SplitChapter(draft.paragraphs, draft.finished);
      TrimmedSentences(draft.paragraphs, more);
      assert Sentences(draft.paragraphs) + [] == Sentences(draft.paragraphs);
    }
  }

  /** The text of a chapter's body. */
  method ChapterText(body: Node) returns (text: string)
    ensures text == Chapter(Paragraphs(Tokens(body)))
  {
    var builder := new TextBuilder();
    builder.CollectReadableText(body);
    NormalizingDrafts(builder.draft);
    DraftedIsContinued(Draft([], false), Tokens(body));
    assert [] + Paragraphs(Tokens(body)) == Paragraphs(Tokens(body));
    text := NormalizeReadableText(builder.output);
  }

  // ----- no word is lost, merged or split

  function TokenWords(tokens: seq<Token>): seq<string> {
    if tokens == [] then [] else (if tokens[0].Word? then [tokens[0].word] else []) + TokenWords(tokens[1..])
  }

  lemma {:induction false} TokenWordsConcat(a: seq<Token>, b: seq<Token>)
    ensures TokenWords(a + b) == TokenWords(a) + TokenWords(b)
  {
    if a == [] {
      assert a + b == b;
    } else {
      assert (a + b)[1..] == a[1..] + b;
      TokenWordsConcat(a[1..], b);
    }
  }

  lemma {:induction false} WordsOfWordTokens(words: seq<string>)
    ensures TokenWords(WordTokens(words)) == words
  {
    if words != [] {
      WordsOfWordTokens(words[1..]);
    }
  }

  lemma {:induction false} TokensHoldTheWords(node: Node)
    ensures TokenWords(Tokens(node)) == WordsOf(node)
  {
    match node
    case Text(value) => WordsOfWordTokens(Words(value));
    case Other(children) => AllTokensHoldTheWords(children);
    case Element(name, children) =>
      AllTokensHoldTheWords(children);
      if !IsSkipped(name) && IsBlockElement(name) {
        TokenWordsConcat([Break] + AllTokens(children), [Break]);
        TokenWordsConcat([Break], AllTokens(children));
        assert TokenWords([Break]) == [];
      }
  }

  lemma {:induction false} AllTokensHoldTheWords(nodes: seq<Node>)
    ensures TokenWords(AllTokens(nodes)) == AllWordsOf(nodes)
  {
    if nodes != [] {
      TokensHoldTheWords(nodes[0]);
      AllTokensHoldTheWords(nodes[1..]);
      TokenWordsConcat(Tokens(nodes[0]), AllTokens(nodes[1..]));
    }
  }

  lemma {:induction false} RunIsFront(tokens: seq<Token>)
    ensures TokenWords(tokens) == Run(tokens) + TokenWords(tokens[|Run(tokens)|..])
  {
    if tokens != [] && tokens[0].Word? {
      var rest := tokens[1..];
      var n := |Run(rest)|;
      RunIsFront(rest);
      assert Run(tokens) == [tokens[0].word] + Run(rest);
      assert tokens[n + 1..] == rest[n..];
      Regroup([tokens[0].word], Run(rest), TokenWords(rest[n..]));
    }
  }

  lemma {:induction false} ParagraphsHoldTheWords(tokens: seq<Token>)
    ensures Flatten(Paragraphs(tokens)) == TokenWords(tokens)
    ensures forall p <- Paragraphs(tokens) :: p != []
    decreases |tokens|
  {
    if tokens != [] {
      if tokens[0].Break? {
        ParagraphsHoldTheWords(tokens[1..]);
      } else {
        ParagraphsHoldTheWords(tokens[|Run(tokens)|..]);
        RunIsFront(tokens);
      }
    }
  }

  lemma {:induction false} WordsOfAreWords(node: Node)
    ensures forall w <- WordsOf(node) :: IsWord(w)
  {
    match node
    case Text(value) => WordsAreWords(value);
    case Other(children) => AllWordsOfAreWords(children);
    case Element(name, children) => AllWordsOfAreWords(children);
  }

  lemma {:induction false} AllWordsOfAreWords(nodes: seq<Node>)
    ensures forall w <- AllWordsOf(nodes) :: IsWord(w)
  {
    if nodes != [] {
      WordsOfAreWords(nodes[0]);
      AllWordsOfAreWords(nodes[1..]);
    }
  }

  lemma {:induction false} PartsOfFlattened(paragraphs: seq<seq<string>>)
    requires forall w <- Flatten(paragraphs) :: IsWord(w)
    requires forall p <- paragraphs :: p != []
    ensures forall p <- paragraphs :: IsParagraph(p)
  {
    if paragraphs != [] {
      assert forall w <- paragraphs[0] :: w in Flatten(paragraphs);
      assert forall w <- Flatten(paragraphs[1..]) :: w in Flatten(paragraphs);
      assert paragraphs[0] in paragraphs && forall p <- paragraphs[1..] :: p in paragraphs;
      PartsOfFlattened(paragraphs[1..]);
    }
  }

  lemma {:induction false} WordsOfChapter(paragraphs: seq<seq<string>>)
    requires forall p <- paragraphs :: IsParagraph(p)
    ensures Words(Chapter(paragraphs)) == Flatten(paragraphs)
  {
    if paragraphs != [] {
      assert IsParagraph(paragraphs[0]);
      WordsOfSentence(paragraphs[0]);
      var line, rest := Sentence(paragraphs[0]), Chapter(paragraphs[1..]);
      if |paragraphs| == 1 {
        assert Sentences(paragraphs) == [line];
        assert Flatten(paragraphs) == paragraphs[0];
      } else {
        WordsOfChapter(paragraphs[1..]);
        assert Sentences(paragraphs)[1..] == Sentences(paragraphs[1..]);
        Regroup(line, "\n\n", rest);
        WordsApart(line, "\n\n" + rest);
        assert ("\n\n" + rest)[1..] == "\n" + rest && ("\n" + rest)[1..] == rest;
      }
    }
  }

  /** The words of a chapter are the words of its readable text nodes, in document order. */
  lemma ChapterKeepsWords(body: Node)
    ensures Words(Chapter(Paragraphs(Tokens(body)))) == WordsOf(body)
    ensures forall p <- Paragraphs(Tokens(body)) :: IsParagraph(p)
  {
    var paragraphs := Paragraphs(Tokens(body));
    ParagraphsHoldTheWords(Tokens(body));
    TokensHoldTheWords(body);
    WordsOfAreWords(body);
    PartsOfFlattened(paragraphs);
    WordsOfChapter(paragraphs);
  }

  // ----- normalizing any text

  lemma {:induction false} WordsAfterBlank(blank: string, s: string)
    requires Blank(IsUnicodeSpace, blank)
    ensures Words(blank + s) == Words(s)
  {
    if blank == "" {
      assert blank + s == s;
    } else {
      assert (blank + s)[1..] == blank[1..] + s;
      WordsAfterBlank(blank[1..], s);
    }
  }

  lemma WordsOfTrimmed(s: string)
    ensures Words(Trim(IsUnicodeSpace, s)) == Words(s)
  {
    var before, after := TrimParts(IsUnicodeSpace, s);
    var text := Trim(IsUnicodeSpace, s);
    WordsAfterBlank(before, text);
    if after == "" {
      assert before + text + after == before + text;
    } else {
      WordsApart(before + text, after);
      WordsAfterBlank(after, "");
      assert after + "" == after;
    }
  }

  lemma WordsAcrossBlankLine(a: string, b: string)
    ensures Words(a + "\n\n" + b) == Words(a) + Words(b)
  {
    Regroup(a, "\n\n", b);
    WordsApart(a, "\n\n" + b);
    WordsAfterBlank("\n\n", b);
  }

  lemma JoinedWords(first: string, texts: seq<string>)
    ensures Words(Join("\n\n", (if first == "" then [] else [first]) + texts))
         == Words(first) + Words(Join("\n\n", texts))
  {
    if first == "" {
      assert [] + texts == texts;
    } else if texts == [] {
      assert [first] + texts == [first];
    } else {
      assert ([first] + texts)[1..] == texts;
      WordsAcrossBlankLine(first, Join("\n\n", texts));
    }
  }

  lemma CutAtBlankLine(s: string, at: nat)
    requires BlankLineAt(s, at)
    ensures s == s[..at] + "\n\n" + s[at + 2..]
  {
    assert s[at..at + 2] == "\n\n";
    assert s == s[..at] + s[at..at + 2] + s[at + 2..];
  }

  lemma SplitStep(s: string, at: nat)
    requires at == FindBlankLine(s, 0) < |s|
    ensures s == s[..at] + "\n\n" + s[at + 2..]
    ensures SplitBlankLines(s) == [s[..at]] + SplitBlankLines(s[at + 2..])
  {
    CutAtBlankLine(s, at);
  }

  /** Normalizing keeps the words of any text. */
  lemma {:induction false} NormalizingKeepsWords(s: string)
    ensures Words(NormalizeReadableText(s)) == Words(s)
    decreases |s|
  {
    var at := FindBlankLine(s, 0);
    var rest := if at == |s| then [] else SplitBlankLines(s[at + 2..]);
    TrimmedStep(s[..at], rest);
    JoinedWords(Trim(IsUnicodeSpace, s[..at]), TrimmedTexts(rest));
    WordsOfTrimmed(s[..at]);
    if at == |s| {
      assert s[..at] == s && [s] + rest == [s];
    } else {
      NormalizingKeepsWords(s[at + 2..]);
      SplitStep(s, at);
      WordsAcrossBlankLine(s[..at], s[at + 2..]);
    }
  }

  // ----- which elements begin and end paragraphs

  /** A break keeps the paragraphs on its two sides apart. */
  lemma {:induction false} ParagraphsApart(a: seq<Token>, b: seq<Token>)
    ensures Paragraphs(a + [Break] + b) == Paragraphs(a) + Paragraphs(b)
    decreases |a|
  {
    var all := a + [Break] + b;
    if a == [] {
      assert all == [Break] + b && all[1..] == b;
    } else if a[0].Break? {
      assert all[1..] == a[1..] + [Break] + b;
      ParagraphsApart(a[1..], b);
    } else {
      var n := |Run(a)|;
      RunBeforeBreak(a, b);
      assert all[n..] == a[n..] + [Break] + b;
      ParagraphsApart(a[n..], b);
      Regroup([Run(a)], Paragraphs(a[n..]), Paragraphs(b));
    }
  }

  lemma {:induction false} RunBeforeBreak(a: seq<Token>, b: seq<Token>)
    ensures Run(a + [Break] + b) == Run(a)
  {
    var all := a + [Break] + b;
    if a == [] {
      assert all[0] == Break;
    } else {
      assert all[0] == a[0] && all[1..] == a[1..] + [Break] + b;
      RunBeforeBreak(a[1..], b);
    }
  }

  /** These elements begin and end a paragraph. */
  predicate StandsAlone(name: string) {
    || name == "p" || name == "div" || name == "li" || name == "h1" || name == "h2" || name == "h3" || name == "h4"
    || name == "h5" || name == "h6" || name == "section" || name == "article" || name == "aside" || name == "main"
    || name == "header" || name == "footer" || name == "address" || name == "blockquote" || name == "figure"
    || name == "figcaption"
  }

  /** Nothing in these elements is read. */
  predicate IsUnread(name: string) {
    name == "head" || name == "script" || name == "style" || name == "svg"
  }

  /** What stands in a block element shares no paragraph with what stands around it. */
  lemma BlockStandsAlone(before: seq<Token>, name: string, children: seq<Node>, after: seq<Token>)
    requires StandsAlone(name)
    ensures Paragraphs(before + Tokens(Element(name, children)) + after)
         == Paragraphs(before) + Paragraphs(AllTokens(children)) + Paragraphs(after)
  {
    Between(before, AllTokens(children), after);
  }

  lemma Between(before: seq<Token>, inner: seq<Token>, after: seq<Token>)
    ensures Paragraphs(before + ([Break] + inner + [Break]) + after)
         == Paragraphs(before) + Paragraphs(inner) + Paragraphs(after)
  {
    assert before + ([Break] + inner + [Break]) + after == before + [Break] + (inner + [Break] + after);
    ParagraphsApart(before, inner + [Break] + after);
    ParagraphsApart(inner, after);
    Regroup(Paragraphs(before), Paragraphs(inner), Paragraphs(after));
  }

  /** An element that is neither unread nor a block adds nothing to its content. */
  lemma InlineIsTransparent(name: string, children: seq<Node>)
    ensures IsUnread(name) ==> Tokens(Element(name, children)) == [] && WordsOf(Element(name, children)) == []
    ensures !IsUnread(name) && !StandsAlone(name) ==> Tokens(Element(name, children)) == AllTokens(children)
    ensures !IsUnread(name) ==> WordsOf(Element(name, children)) == AllWordsOf(children)
    ensures Tokens(Other(children)) == AllTokens(children)
  {
  }
}
