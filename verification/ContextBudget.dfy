/** The token budget and the history cut of assemble_prompt (agent/app/prompt.py). */
module ContextBudget {
  import opened Sequences
  import opened ToolHistory
  import opened StoredParts
  import opened Translation

  /** Token counting and JSON rendering are library code. */
  datatype Tokenizer = Tokenizer(count: string -> nat, dumps: seq<ToolCall> -> string)

  /** Numeric settings as they arrive; a value that is not a number is None. */
  datatype Settings = Settings(
    userLimit: Option<real>, modelLimit: nat, threshold: Option<real>, maxOutput: Option<real>, reserved: nat)

  const IMAGE_TOKEN_ESTIMATE: nat := 1024

  function Min(a: int, b: int): int { if a <= b then a else b }

  function Max(a: int, b: int): int { if a >= b then a else b }

  // ----- limits

  function ContextLimit(s: Settings): nat {
    if s.userLimit.Some? && s.userLimit.value > 0.0 then s.userLimit.value.Floor else s.modelLimit
  }

  function Threshold(s: Settings): (t: real)
    ensures 0.0 <= t <= 1.0
  {
    var t := if s.threshold.Some? then s.threshold.value else 0.85;
    if t < 0.0 then 0.0 else if t > 1.0 then 1.0 else t
  }

  function Reserved(s: Settings): nat {
    if s.maxOutput.Some? && s.maxOutput.value > 0.0 then s.maxOutput.value.Floor else s.reserved
  }

  /** What system prompt, summary and history may use together. */
  function Allowance(s: Settings): (a: nat)
    ensures a <= ContextLimit(s)
  {
    var limit := ContextLimit(s);
    assert 0.0 <= limit as real * Threshold(s) <= limit as real;
    Min((limit as real * Threshold(s)).Floor, Max(0, limit - Reserved(s)))
  }

  // ----- what the settings allow, in their own terms

  /** The context limit: the user's, cut down to a whole number, if it is positive, else the model's. */
  predicate IsLimit(s: Settings, limit: nat) {
    match s.userLimit
    case Some(own) => if own > 0.0 then limit as real <= own < limit as real + 1.0 else limit == s.modelLimit
    case None => limit == s.modelLimit
  }

  /** The share of the limit that may be used: between none and all of it, and 85 percent without a setting. */
  predicate IsShare(s: Settings, share: real) {
    match s.threshold
    case Some(own) => 0.0 <= share <= 1.0 && (share < own ==> share == 1.0) && (share > own ==> share == 0.0)
    case None => share == 0.85
  }

  /** What is reserved for the answer: the configured output, cut down to a whole number, if it is positive. */
  predicate IsReserve(s: Settings, reserve: nat) {
    match s.maxOutput
    case Some(own) => if own > 0.0 then reserve as real <= own < reserve as real + 1.0 else reserve == s.reserved
    case None => reserve == s.reserved
  }

  /** The limit, the share of it that may be used, and the reserve that apply. */
  datatype Limits = Limits(limit: nat, share: real, reserve: nat)

  predicate Apply(s: Settings, l: Limits) {
    IsLimit(s, l.limit) && IsShare(s, l.share) && IsReserve(s, l.reserve)
  }

  /** So many tokens are within the share of the limit, and leave the reserve. */
  ghost predicate Within(s: Settings, tokens: nat) {
    forall l :: Apply(s, l) ==> tokens as real <= l.limit as real * l.share && tokens + l.reserve <= l.limit
  }

  /** Beside a system prompt of so many tokens the rest may be used; beside one that is too long, nothing. */
  ghost predicate Allowed(s: Settings, system: nat, rest: nat) {
    if Within(s, system) then Within(s, system + rest) else rest == 0
  }

  lemma LimitsAre(s: Settings, l: Limits)
    ensures Apply(s, l) <==> l == Limits(ContextLimit(s), Threshold(s), Reserved(s))
  {
  }

  lemma WithinIff(s: Settings, tokens: nat)
    ensures Within(s, tokens) <==> tokens as real <= ContextLimit(s) as real * Threshold(s)
                                   && tokens + Reserved(s) <= ContextLimit(s)
  {
    LimitsAre(s, Limits(ContextLimit(s), Threshold(s), Reserved(s)));
    forall l | Apply(s, l)
      ensures l == Limits(ContextLimit(s), Threshold(s), Reserved(s))
    {
      LimitsAre(s, l);
    }
  }

  lemma FloorFits(x: real, n: int)
    ensures n as real <= x <==> n <= x.Floor
  {
  }

  lemma WithinAllowance(s: Settings, tokens: nat)
    ensures Within(s, tokens) <==> tokens <= Allowance(s) && Reserved(s) <= ContextLimit(s)
    ensures Reserved(s) > ContextLimit(s) ==> Allowance(s) == 0
  {
    WithinIff(s, tokens);
    var share := ContextLimit(s) as real * Threshold(s);
    FloorFits(share, tokens);
    FloorFits(share, 0);
    AllowanceIs(s, share);
  }

  lemma AllowanceIs(s: Settings, share: real)
    requires share == ContextLimit(s) as real * Threshold(s)
    ensures 0.0 <= share && Allowance(s) == Min(share.Floor, Max(0, ContextLimit(s) - Reserved(s)))
  {
  }

  /** The allowance is what the settings allow. */
  lemma AllowedIff(s: Settings, system: nat, rest: nat)
    ensures Allowed(s, system, rest) <==> rest <= Max(0, Allowance(s) - system)
  {
    WithinAllowance(s, system);
    WithinAllowance(s, system + rest);
  }

  // ----- token counts

  function ItemTexts(items: seq<ContentItem>): seq<string> {
    if items == [] then []
    else (if items[0].TextItem? && items[0].text != "" then [items[0].text] else []) + ItemTexts(items[1..])
  }

  function Images(items: seq<ContentItem>): nat {
    if items == [] then 0 else (if items[0].ImageItem? then 1 else 0) + Images(items[1..])
  }

  function ContentTokens(t: Tokenizer, content: Content): nat {
    match content
    case Absent => t.count("")
    case Plain(text) => t.count(text)
    case Items(items) => t.count(Join("\n", ItemTexts(items))) + IMAGE_TOKEN_ESTIMATE * Images(items)
  }

  function MessageTokens(t: Tokenizer, m: Message): nat {
    ContentTokens(t, m.content) + t.count(if m.toolCalls != [] then t.dumps(m.toolCalls) else "")
  }

  function Tokens(t: Tokenizer, messages: seq<Message>): nat {
    if messages == [] then 0 else MessageTokens(t, messages[0]) + Tokens(t, messages[1..])
  }

  lemma {:induction false} TokensConcat(t: Tokenizer, a: seq<Message>, b: seq<Message>)
    ensures Tokens(t, a + b) == Tokens(t, a) + Tokens(t, b)
  {
    if a == [] {
      assert a + b == b;
    } else {
      assert (a + b)[1..] == a[1..] + b;
      TokensConcat(t, a[1..], b);
    }
  }

  /** The texts that are not empty, and the images. */
  method ReadItems(items: seq<ContentItem>) returns (texts: seq<string>, images: nat)
    ensures texts == ItemTexts(items) && images == Images(items)
  {
    texts, images := [], 0;
    for i := 0 to |items|
      invariant texts + ItemTexts(items[i..]) == ItemTexts(items)
      invariant images + Images(items[i..]) == Images(items)
    {
      assert items[i..][1..] == items[i + 1..];
      if items[i].ImageItem? {
        images := images + 1;
      } else if items[i].text != "" {
        texts := texts + [items[i].text];
      }
    }
  }

  /** The tokens of a content: its texts, one to a line, and an estimate for every image. */
  method CountContent(t: Tokenizer, content: Content) returns (tokens: nat)
    ensures tokens == ContentTokens(t, content)
  {
    match content {
      case Absent => tokens := t.count("");
      case Plain(text) => tokens := t.count(text);
      case Items(items) =>
        var texts, images := ReadItems(items);
        tokens := t.count(Join("\n", texts)) + images * 1024;
    }
  }

  method CountGroup(t: Tokenizer, group: seq<Message>) returns (tokens: nat)
    ensures tokens == Tokens(t, group)
  {
    tokens := 0;
    for i := 0 to |group|
      invariant tokens + Tokens(t, group[i..]) == Tokens(t, group)
    {
      assert group[i..][1..] == group[i + 1..];
      var own := CountContent(t, group[i].content);
      var calls := if group[i].toolCalls != [] then t.dumps(group[i].toolCalls) else "";
      tokens := tokens + own + t.count(calls);
    }
  }

  // ----- the groups that are kept

  /** `cut` keeps the longest run of last groups that fits; with a negative budget nothing fits. */
  ghost predicate LongestFit(t: Tokenizer, groups: seq<seq<Message>>, budget: int, cut: nat) {
    && cut <= |groups|
    && (cut < |groups| ==> Tokens(t, Flatten(groups[cut..])) <= budget)
    && (forall k :: 0 <= k < cut ==> Tokens(t, Flatten(groups[k..])) > budget)
  }

  lemma {:induction false} SuffixTokensDecrease(t: Tokenizer, groups: seq<seq<Message>>, i: nat, j: nat)
    requires i <= j <= |groups|
    ensures Tokens(t, Flatten(groups[j..])) <= Tokens(t, Flatten(groups[i..]))
    decreases j - i
  {
    if i < j {
      assert groups[i..][1..] == groups[i + 1..];
      TokensConcat(t, groups[i], Flatten(groups[i + 1..]));
      SuffixTokensDecrease(t, groups, i + 1, j);
    }
  }

  /** The backward walk over the groups. */
  method SelectRecent(t: Tokenizer, groups: seq<seq<Message>>, budget: int)
    returns (filtered: seq<seq<Message>>)
    ensures |filtered| <= |groups| && filtered == groups[|groups| - |filtered|..]
    ensures LongestFit(t, groups, budget, |groups| - |filtered|)
  {
    filtered := [];
    var accumulated := 0;
    var i := |groups|;
    while i > 0
      invariant 0 <= i <= |groups|
      invariant filtered == groups[i..]
      invariant accumulated == Tokens(t, Flatten(filtered))
      invariant i < |groups| ==> accumulated <= budget
    {
      var tokens := CountGroup(t, groups[i - 1]);
      assert groups[i - 1..] == [groups[i - 1]] + groups[i..];
      TokensConcat(t, groups[i - 1], Flatten(groups[i..]));
      if accumulated + tokens > budget {
        forall k | 0 <= k < i ensures Tokens(t, Flatten(groups[k..])) > budget {
          SuffixTokensDecrease(t, groups, k, i - 1);
        }
        return;
      }
      filtered := [groups[i - 1]] + filtered;
      accumulated := accumulated + tokens;
      i := i - 1;
    }
  }

  // ----- the whole assembly

  /** What is cut off the front, found by length alone. */
  function Discarded(history: seq<Message>, kept: seq<Message>): seq<Message>
    requires |kept| <= |history|
  {
    if kept != [] then history[..|history| - |kept|] else history
  }

  /** The summary below a heading of its own. */
  function SummaryText(summary: string): (text: string)
    ensures |summary| < |text| && text[|text| - |summary|..] == summary
  {
    "Below is a summary of the preceding conversation history:\n" + summary
  }

  function SummaryMessages(summary: string): seq<Message> {
    if summary != "" then [SystemMessage(SummaryText(summary))] else []
  }

  function SummaryTokens(t: Tokenizer, summary: string): nat {
    if summary != "" then t.count(SummaryText(summary)) else 0
  }

  function InputMessages(input: Content): seq<Message> {
    if Truthy(input) then [UserMessage(input)] else []
  }

  function Budget(t: Tokenizer, s: Settings, systemPrompt: string, summary: string): int {
    Max(0, Allowance(s) - t.count(systemPrompt)) - SummaryTokens(t, summary)
  }

  datatype Prompt = Prompt(messages: seq<Message>, discarded: seq<Message>) | Failed(reason: string)

  /** The history is cut at a group boundary into what is discarded and what is kept: nothing is
      lost, nothing doubled, no exchange is torn, and the kept part is the longest that fits. */
  ghost predicate SoundCut(
    t: Tokenizer, budget: int, history: seq<Message>, discarded: seq<Message>, kept: seq<Message>)
  {
    && discarded + kept == history
    && WellFormed(discarded) && WellFormed(kept)
    && exists groups: seq<seq<Message>>, cut: nat ::
         && IsParse(groups, history)
         && LongestFit(t, groups, budget, cut)
         && kept == Flatten(groups[cut..])
  }

  ghost predicate SoundPrompt(
    t: Tokenizer, s: Settings, systemPrompt: string, summary: string, knowledge: string,
    input: Content, translated: seq<Message>, prompt: Prompt)
  {
    && prompt.Prompt?
    && exists history: seq<Message>, kept: seq<Message> ::
         && Attached(translated, knowledge, history)
         && prompt.messages == SummaryMessages(summary) + kept + InputMessages(input)
         && SoundCut(t, Budget(t, s, systemPrompt, summary), history, prompt.discarded, kept)
         && LongestAllowed(t, s, t.count(systemPrompt), SummaryTokens(t, summary), history, kept)
  }

  /** Summary and kept groups are allowed, if any group is kept; with one group more they are not. */
  ghost predicate LongestAllowed(t: Tokenizer, s: Settings, system: nat, summary: nat, history: seq<Message>,
                                 kept: seq<Message>) {
    exists groups: seq<seq<Message>>, cut: nat ::
      IsParse(groups, history) && CutsAllowed(t, s, system, summary, groups, cut) && kept == Flatten(groups[cut..])
  }

  ghost predicate CutsAllowed(t: Tokenizer, s: Settings, system: nat, summary: nat, groups: seq<seq<Message>>,
                              cut: nat) {
    && cut <= |groups|
    && (cut < |groups| ==> AllowedFrom(t, s, system, summary, groups, cut))
    && (forall k :: 0 <= k < cut ==> !AllowedFrom(t, s, system, summary, groups, k))
  }

  /** The groups from number `k` on may be sent after the summary. */
  ghost predicate AllowedFrom(t: Tokenizer, s: Settings, system: nat, summary: nat, groups: seq<seq<Message>>, k: nat) {
    k <= |groups| && Allowed(s, system, summary + Tokens(t, Flatten(groups[k..])))
  }

  lemma AllowedFromIff(t: Tokenizer, s: Settings, system: nat, summary: nat, budget: int, groups: seq<seq<Message>>,
                       k: nat)
    requires k <= |groups| && budget == Max(0, Allowance(s) - system) - summary
    ensures AllowedFrom(t, s, system, summary, groups, k) <==> Tokens(t, Flatten(groups[k..])) <= budget
  {
    AllowedIff(s, system, summary + Tokens(t, Flatten(groups[k..])));
  }

  lemma LongestCutIsAllowed(t: Tokenizer, s: Settings, system: nat, summary: nat, budget: int,
                            groups: seq<seq<Message>>, cut: nat)
    requires LongestFit(t, groups, budget, cut) && budget == Max(0, Allowance(s) - system) - summary
    ensures CutsAllowed(t, s, system, summary, groups, cut)
  {
    AllowedFromIff(t, s, system, summary, budget, groups, cut);
    forall k | 0 <= k < cut
      ensures !AllowedFrom(t, s, system, summary, groups, k)
    {
      AllowedFromIff(t, s, system, summary, budget, groups, k);
    }
  }

  lemma LongestFitIsAllowed(t: Tokenizer, s: Settings, systemPrompt: string, summary: string,
                            history: seq<Message>, discarded: seq<Message>, kept: seq<Message>)
    requires SoundCut(t, Budget(t, s, systemPrompt, summary), history, discarded, kept)
    ensures LongestAllowed(t, s, t.count(systemPrompt), SummaryTokens(t, summary), history, kept)
  {
    var budget := Budget(t, s, systemPrompt, summary);
    var groups: seq<seq<Message>>, cut: nat :|
      IsParse(groups, history) && LongestFit(t, groups, budget, cut) && kept == Flatten(groups[cut..]);
    LongestCutIsAllowed(t, s, t.count(systemPrompt), SummaryTokens(t, summary), budget, groups, cut);
  }

  lemma FlattenWellFormed(groups: seq<seq<Message>>)
    requires forall g <- groups :: Unit(g)
    ensures WellFormed(Flatten(groups))
  {
    assert IsParse(groups, Flatten(groups));
  }

  /** On a well-formed history the slice by length is the cut between the groups. */
  lemma CutByLengthIsSound(t: Tokenizer, budget: int, history: seq<Message>, cut: nat)
    requires WellFormed(history) && LongestFit(t, Groups(history), budget, cut)
    ensures |Flatten(Groups(history)[cut..])| <= |history|
    ensures var kept := Flatten(Groups(history)[cut..]);
            SoundCut(t, budget, history, Discarded(history, kept), kept)
  {
    GroupsAreUnits(history);
    GroupingIsLosslessIff(history);
    CutOfParse(t, budget, history, Groups(history), cut);
  }

  lemma CutOfParse(t: Tokenizer, budget: int, history: seq<Message>, groups: seq<seq<Message>>, cut: nat)
    requires IsParse(groups, history) && LongestFit(t, groups, budget, cut)
    ensures |Flatten(groups[cut..])| <= |history|
    ensures SoundCut(t, budget, history, Discarded(history, Flatten(groups[cut..])), Flatten(groups[cut..]))
  {
    assert groups == groups[..cut] + groups[cut..];
    CutFlattened(groups[..cut], groups[cut..]);
  }

  /** Whatever the budget, cutting by length is right exactly when the history is well formed. */
  lemma CutByLengthIsSoundIff(t: Tokenizer, budget: int, history: seq<Message>, cut: nat)
    requires LongestFit(t, Groups(history), budget, cut)
    ensures var kept := Flatten(Groups(history)[cut..]);
            |kept| <= |history| && SoundCut(t, budget, history, Discarded(history, kept), kept) <==> WellFormed(history)
  {
    var kept := Flatten(Groups(history)[cut..]);
    if WellFormed(history) {
      CutByLengthIsSound(t, budget, history, cut);
    }
    if |kept| <= |history| && SoundCut(t, budget, history, Discarded(history, kept), kept) {
      WellFormedConcat(Discarded(history, kept), kept);
    }
  }

  /** What the slice by length leaves in front of whole groups. */
  lemma CutFlattened(front: seq<seq<Message>>, back: seq<seq<Message>>)
    requires forall g <- front + back :: Unit(g)
    ensures var history, kept := Flatten(front + back), Flatten(back);
            && history == Flatten(front) + kept && Discarded(history, kept) == Flatten(front)
            && WellFormed(Flatten(front)) && WellFormed(kept)
  {
    FlattenConcat(front, back);
    assert forall g <- front :: g in front + back;
    assert forall g <- back :: g in front + back;
    FlattenWellFormed(front);
    FlattenWellFormed(back);
  }

  /** Groups the history, keeps what fits, and finds the rest by length. */
  method CutHistory(t: Tokenizer, budget: int, history: seq<Message>)
    returns (discarded: seq<Message>, kept: seq<Message>)
    requires WellFormed(history)
    ensures SoundCut(t, budget, history, discarded, kept)
  {
    var groups := GroupProtocolMessages(history);
    var filtered := SelectRecent(t, groups, budget);
    kept := Flatten(filtered);
    KeptIsSound(t, budget, history, groups, filtered, kept);
    discarded := Discarded(history, kept);
  }

  lemma KeptIsSound(t: Tokenizer, budget: int, history: seq<Message>, groups: seq<seq<Message>>,
                    filtered: seq<seq<Message>>, kept: seq<Message>)
    requires WellFormed(history) && groups == Groups(history) && kept == Flatten(filtered)
    requires |filtered| <= |groups| && filtered == groups[|groups| - |filtered|..]
    requires LongestFit(t, groups, budget, |groups| - |filtered|)
    ensures |kept| <= |history| && SoundCut(t, budget, history, Discarded(history, kept), kept)
  {
    var cut := |groups| - |filtered|;
    assert Flatten(Groups(history)[cut..]) == kept;
    CutByLengthIsSound(t, budget, history, cut);
  }

  /** A summary stands in front of all other messages, and what the user has just said behind them. */
  predicate Framed(summary: string, input: Content, messages: seq<Message>) {
    && (summary != "" ==>
          && messages != [] && messages[0].role == System
          && messages[0].content.Plain? && EndsWith(messages[0].content.text, summary))
    && ((input.Plain? && input.text != "") || (input.Items? && input.items != []) ==>
          messages != [] && messages[|messages| - 1].role == User && messages[|messages| - 1].content == input)
  }

  predicate EndsWith(text: string, end: string) {
    |end| <= |text| && text[|text| - |end|..] == end
  }

  lemma MessagesAreFramed(summary: string, kept: seq<Message>, input: Content)
    ensures Framed(summary, input, SummaryMessages(summary) + kept + InputMessages(input))
  {
    assert summary != "" ==> EndsWith(SummaryText(summary), summary);
  }

  lemma PromptIsSound(t: Tokenizer, s: Settings, systemPrompt: string, summary: string, knowledge: string,
                      input: Content, translated: seq<Message>, history: seq<Message>, kept: seq<Message>,
                      prompt: Prompt)
    requires prompt.Prompt? && prompt.messages == SummaryMessages(summary) + kept + InputMessages(input)
    requires Attached(translated, knowledge, history)
    requires SoundCut(t, Budget(t, s, systemPrompt, summary), history, prompt.discarded, kept)
    ensures SoundPrompt(t, s, systemPrompt, summary, knowledge, input, translated, prompt)
    ensures Framed(summary, input, prompt.messages)
  {
    LongestFitIsAllowed(t, s, systemPrompt, summary, history, prompt.discarded, kept);
    MessagesAreFramed(summary, kept, input);
  }

  method AssemblePrompt(
    t: Tokenizer, s: Settings, systemPrompt: string, summary: string,
    stored: seq<StoredMessage>, knowledge: string, input: Content) returns (prompt: Prompt)
    ensures prompt.Failed? ==> exists i, k :: FirstToRefuse(stored, i, k, prompt.reason)
    ensures prompt.Prompt? ==>
      && NothingRefuses(stored)
      && exists events :: TellsAll(stored, events)
                          && SoundPrompt(t, s, systemPrompt, summary, knowledge, input, Render(events), prompt)
    ensures prompt.Prompt? ==> Framed(summary, input, prompt.messages)
  {
    var messages: seq<Message> := [];
    var usable := Max(0, Allowance(s) - t.count(systemPrompt));
    if summary != "" {
      messages := messages + [SystemMessage(SummaryText(summary))];
      usable := usable - t.count(SummaryText(summary));
    }
    var translator := new Translator();
    var outcome := translator.TranslateMessages(stored);
    if outcome.Refused? {
      return Failed(outcome.reason);
    }
    EventsAreTold(stored);
    var history := new History(outcome.messages);
    history.AppendToLatestUserMessage(knowledge);
    TranslationIsWellFormed(stored);
    AttachingKeepsWellFormed(outcome.messages, knowledge, history.messages);
    var discarded, kept := CutHistory(t, usable, history.messages);
    assert messages == SummaryMessages(summary);
    assert Attached(outcome.messages, knowledge, history.messages);
    prompt := Prompt(messages + kept + InputMessages(input), discarded);
    assert SoundCut(t, Budget(t, s, systemPrompt, summary), history.messages, prompt.discarded, kept);
    PromptIsSound(t, s, systemPrompt, summary, knowledge, input, outcome.messages, history.messages, kept, prompt);
  }

  // ----- consequences

  /** The messages sent are themselves a well-formed history. */
  lemma SentMessagesWellFormed(
    t: Tokenizer, s: Settings, systemPrompt: string, summary: string, knowledge: string,
    input: Content, translated: seq<Message>, prompt: Prompt)
    requires SoundPrompt(t, s, systemPrompt, summary, knowledge, input, translated, prompt)
    ensures WellFormed(prompt.messages)
  {
    var history, kept :|
      && Attached(translated, knowledge, history)
      && prompt.messages == SummaryMessages(summary) + kept + InputMessages(input)
      && SoundCut(t, Budget(t, s, systemPrompt, summary), history, prompt.discarded, kept);
    assert IsParse([], []);
    if summary != "" {
      UnitWellFormed(SummaryMessages(summary));
    }
    if Truthy(input) {
      UnitWellFormed(InputMessages(input));
    }
    WellFormedConcat(SummaryMessages(summary), kept);
    WellFormedConcat(SummaryMessages(summary) + kept, InputMessages(input));
  }

  /** The part of the sent messages that is history. */
  function KeptPart(prompt: Prompt, summary: string, input: Content): seq<Message>
    requires prompt.Prompt? && |prompt.messages| >= |SummaryMessages(summary)| + |InputMessages(input)|
  {
    prompt.messages[|SummaryMessages(summary)|..|prompt.messages| - |InputMessages(input)|]
  }

  lemma KeptIsAllowed(t: Tokenizer, s: Settings, system: nat, summary: nat, history: seq<Message>, kept: seq<Message>)
    requires LongestAllowed(t, s, system, summary, history, kept) && kept != []
    ensures Allowed(s, system, summary + Tokens(t, kept))
  {
    var groups: seq<seq<Message>>, cut: nat :|
      IsParse(groups, history) && CutsAllowed(t, s, system, summary, groups, cut) && kept == Flatten(groups[cut..]);
    assert cut < |groups|;
  }

  /** When any history is sent and the system prompt is within what the settings allow, system prompt, summary and
      history are within it together; beside a system prompt that is not, summary and history have no tokens. */
  lemma SentWithinAllowance(
    t: Tokenizer, s: Settings, systemPrompt: string, summary: string, knowledge: string,
    input: Content, translated: seq<Message>, prompt: Prompt)
    requires SoundPrompt(t, s, systemPrompt, summary, knowledge, input, translated, prompt)
    ensures |prompt.messages| >= |SummaryMessages(summary)| + |InputMessages(input)|
    ensures KeptPart(prompt, summary, input) != [] ==>
      var used := SummaryTokens(t, summary) + Tokens(t, KeptPart(prompt, summary, input));
      if Within(s, t.count(systemPrompt)) then Within(s, t.count(systemPrompt) + used) else used == 0
  {
    var history, kept :|
      && Attached(translated, knowledge, history)
      && prompt.messages == SummaryMessages(summary) + kept + InputMessages(input)
      && SoundCut(t, Budget(t, s, systemPrompt, summary), history, prompt.discarded, kept)
      && LongestAllowed(t, s, t.count(systemPrompt), SummaryTokens(t, summary), history, kept);
    assert KeptPart(prompt, summary, input) == kept;
    if kept != [] {
      KeptIsAllowed(t, s, t.count(systemPrompt), SummaryTokens(t, summary), history, kept);
    }
  }
}
