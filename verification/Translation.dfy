/** Translation of stored multi-part messages into chat history
    (agent/app/prompt.py, translate_messages and _append_to_latest_user_message). */
module Translation {
  import opened Sequences
  import opened ToolHistory
  import opened StoredParts

  datatype Outcome = Translated(messages: seq<Message>) | Refused(reason: string)

  // ----- the reference: look ahead from each declaration for its answers

  function ToolTurn(content: seq<string>, calls: seq<ToolCall>): Message {
    AssistantMessage(Plain(Join("\n", content)), calls)
  }

  /** What is left of a broken exchange: its text, if it has any. */
  function Downgraded(exchange: Message): seq<Message> {
    if Truthy(exchange.content) then [AssistantMessage(exchange.content, [])] else []
  }

  predicate Interrupts(e: Event) {
    match e
    case Say(content, calls) => content != [] || calls != []
    case Answer(_, _, _) => false
    case UserTurn(_) => true
  }

  /** The first answer to each id that comes before anything else is said. */
  function FirstAnswers(ids: set<string>, events: seq<Event>): seq<Message> {
    if events == [] || Interrupts(events[0]) then []
    else if events[0].Answer? && events[0].id in ids then
      [ToolMessage(events[0].id, events[0].name, events[0].text)]
      + FirstAnswers(ids - {events[0].id}, events[1..])
    else FirstAnswers(ids, events[1..])
  }

  /** An exchange with the results so far and what follows: complete, or cut down to its text. */
  function Exchange(exchange: Message, results: seq<Message>, ids: set<string>, events: seq<Event>): seq<Message> {
    var answers := FirstAnswers(ids, events);
    if Answers(answers, ids) then [exchange] + results + answers else Downgraded(exchange)
  }

  function Spoken(e: Event, later: seq<Event>): seq<Message> {
    match e
    case Say(content, calls) =>
      if content == [] && calls == [] then []
      else if calls == [] then [ToolTurn(content, [])]
      else Exchange(ToolTurn(content, calls), [], DeclaredIds(calls), later)
    case Answer(_, _, _) => []
    case UserTurn(turn) => if turn.Some? then [UserMessage(turn.value)] else []
  }

  /** The history the events stand for. */
  function Render(events: seq<Event>): seq<Message> {
    if events == [] then [] else Spoken(events[0], events[1..]) + Render(events[1..])
  }

  function Translation(stored: seq<StoredMessage>): Outcome {
    var refusal := FirstRefusal(stored);
    if refusal.Some? then Refused(refusal.value) else Translated(Render(Events(stored)))
  }

  // ----- the buffering state machine

  datatype Buffer = Buffer(
    translated: seq<Message>, pending: Option<Message>, results: seq<Message>, outstanding: set<string>)

  const EMPTY_BUFFER := Buffer([], None, [], {})

  function Finish(b: Buffer): Buffer {
    Buffer(b.translated + (if b.pending.Some? then Downgraded(b.pending.value) else []), None, [], {})
  }

  function Emit(b: Buffer, content: seq<string>, calls: seq<ToolCall>): Buffer {
    if content == [] && calls == [] then b
    else if calls == [] then Finish(b).(translated := Finish(b).translated + [ToolTurn(content, [])])
    else Finish(b).(pending := Some(ToolTurn(content, calls)), outstanding := DeclaredIds(calls))
  }

  function Accept(b: Buffer, id: string, name: string, text: string): Buffer {
    if b.pending.None? || id !in b.outstanding then b
    else
      var results := b.results + [ToolMessage(id, name, text)];
      var outstanding := b.outstanding - {id};
      if outstanding != {} then b.(results := results, outstanding := outstanding)
      else Buffer(b.translated + [b.pending.value] + results, None, [], {})
  }

  function Step(b: Buffer, e: Event): Buffer {
    match e
    case Say(content, calls) => Emit(b, content, calls)
    case Answer(id, name, text) => Accept(b, id, name, text)
    case UserTurn(turn) =>
      var b := Finish(b);
      if turn.Some? then b.(translated := b.translated + [UserMessage(turn.value)]) else b
  }

  function Run(b: Buffer, events: seq<Event>): Buffer
    decreases |events|
  {
    if events == [] then b else Run(Step(b, events[0]), events[1..])
  }

  lemma {:induction false} RunConcat(b: Buffer, first: seq<Event>, rest: seq<Event>)
    ensures Run(b, first + rest) == Run(Run(b, first), rest)
    decreases |first|
  {
    if first == [] {
      assert first + rest == rest;
    } else {
      assert (first + rest)[1..] == first[1..] + rest;
      RunConcat(Step(b, first[0]), first[1..], rest);
    }
  }

  /** While an exchange is open, answered and outstanding ids split its declared ids, each answered
      once; and what has been emitted is always well formed. */
  ghost predicate BufferOk(b: Buffer) {
    && WellFormed(b.translated)
    && match b.pending
       case None => b.results == [] && b.outstanding == {}
       case Some(exchange) =>
         && Opens(exchange)
         && (forall call <- exchange.toolCalls :: call.id != "")
         && b.outstanding != {}
         && b.outstanding <= DeclaredIds(exchange.toolCalls)
         && Answers(b.results, DeclaredIds(exchange.toolCalls) - b.outstanding)
  }

  lemma EmptyBufferOk()
    ensures BufferOk(EMPTY_BUFFER)
  {
    assert IsParse([], []);
  }

  lemma {:induction false} AnswersSnoc(results: seq<Message>, ids: set<string>, last: Message)
    requires Answers(results, ids) && last.role == Tool && last.toolCallId !in ids
    ensures Answers(results + [last], ids + {last.toolCallId})
  {
    if results == [] {
      assert (results + [last])[1..] == [];
    } else {
      var head := results[0].toolCallId;
      assert (results + [last])[1..] == results[1..] + [last];
      AnswersSnoc(results[1..], ids - {head}, last);
      assert ids + {last.toolCallId} - {head} == ids - {head} + {last.toolCallId};
    }
  }

  lemma FinishOk(b: Buffer)
    requires BufferOk(b)
    ensures BufferOk(Finish(b))
  {
    if b.pending.Some? && Truthy(b.pending.value.content) {
      UnitWellFormed(Downgraded(b.pending.value));
      WellFormedConcat(b.translated, Downgraded(b.pending.value));
    } else {
      assert b.translated + [] == b.translated;
    }
  }

  lemma StandsAlone(history: seq<Message>, m: Message)
    requires WellFormed(history) && !Opens(m) && m.role != Tool
    ensures WellFormed(history + [m])
  {
    UnitWellFormed([m]);
    WellFormedConcat(history, [m]);
  }

  lemma AcceptOk(b: Buffer, id: string, name: string, text: string)
    requires BufferOk(b)
    ensures BufferOk(Accept(b, id, name, text))
  {
    if b.pending.Some? && id in b.outstanding {
      var exchange := b.pending.value;
      var ids := DeclaredIds(exchange.toolCalls);
      var results := b.results + [ToolMessage(id, name, text)];
      AnswersSnoc(b.results, ids - b.outstanding, ToolMessage(id, name, text));
      assert ids - b.outstanding + {id} == ids - (b.outstanding - {id});
      if b.outstanding - {id} == {} {
        assert ids - {} == ids;
        assert ([exchange] + results)[1..] == results;
        UnitWellFormed([exchange] + results);
        WellFormedConcat(b.translated, [exchange] + results);
        assert b.translated + [exchange] + results == b.translated + ([exchange] + results);
      }
    }
  }

  lemma EmitOk(b: Buffer, content: seq<string>, calls: seq<ToolCall>)
    requires BufferOk(b) && forall call <- calls :: call.id != ""
    ensures BufferOk(Emit(b, content, calls))
  {
    FinishOk(b);
    if calls == [] {
      StandsAlone(Finish(b).translated, ToolTurn(content, []));
    } else {
      assert calls[0].id in DeclaredIds(calls);
      assert DeclaredIds(calls) - DeclaredIds(calls) == {};
    }
  }

  /** The partition of the declared ids survives every event. */
  lemma StepKeepsPartition(b: Buffer, e: Event)
    requires BufferOk(b) && EventOk(e)
    ensures BufferOk(Step(b, e))
  {
    match e {
      case Say(content, calls) => EmitOk(b, content, calls);
      case Answer(id, name, text) => AcceptOk(b, id, name, text);
      case UserTurn(turn) =>
        FinishOk(b);
        if turn.Some? {
          StandsAlone(Finish(b).translated, UserMessage(turn.value));
        }
    }
  }

  // ----- buffering gives the same history as looking ahead

  lemma {:induction false} NothingToAnswer(events: seq<Event>)
    ensures FirstAnswers({}, events) == []
  {
    if events != [] && !Interrupts(events[0]) {
      NothingToAnswer(events[1..]);
    }
  }

  /** What a buffer still owes, given the events to come. */
  function Owed(b: Buffer, events: seq<Event>): seq<Message> {
    if b.pending.None? then []
    else Exchange(b.pending.value, b.results, b.outstanding, events)
  }

  lemma OwedStep(b: Buffer, events: seq<Event>)
    requires BufferOk(b) && events != [] && EventOk(events[0])
    ensures b.translated + Owed(b, events) + Spoken(events[0], events[1..])
         == Step(b, events[0]).translated + Owed(Step(b, events[0]), events[1..])
  {
    var e, later := events[0], events[1..];
    match e {
      case Answer(id, name, text) =>
        if b.pending.Some? && id in b.outstanding {
          OwedAnswer(b, id, name, text, later);
          assert [e] + later == events;
        }
      case Say(content, calls) =>
        if Interrupts(e) && calls != [] {
          assert forall xs: seq<Message> :: [ToolTurn(content, calls)] + [] + xs == [ToolTurn(content, calls)] + xs;
        }
      case UserTurn(turn) =>
    }
  }

  lemma OwedAnswer(b: Buffer, id: string, name: string, text: string, later: seq<Event>)
    requires BufferOk(b) && b.pending.Some? && id in b.outstanding
    ensures b.translated + Owed(b, [Answer(id, name, text)] + later)
         == Accept(b, id, name, text).translated + Owed(Accept(b, id, name, text), later)
  {
    var events := [Answer(id, name, text)] + later;
    var m := ToolMessage(id, name, text);
    var rest := b.outstanding - {id};
    assert events[1..] == later;
    var after := FirstAnswers(rest, later);
    assert FirstAnswers(b.outstanding, events) == [m] + after;
    assert ([m] + after)[1..] == after;
    assert Answers([m] + after, b.outstanding) == Answers(after, rest);
    if rest == {} {
      NothingToAnswer(later);
    }
    assert [b.pending.value] + b.results + ([m] + after) == [b.pending.value] + (b.results + [m]) + after;
  }

  lemma {:induction false} RunIsRender(b: Buffer, events: seq<Event>)
    requires BufferOk(b) && EventsOk(events)
    ensures BufferOk(Run(b, events))
    ensures Finish(Run(b, events)).translated == b.translated + Owed(b, events) + Render(events)
    decreases |events|
  {
    if events != [] {
      var next, later := Step(b, events[0]), events[1..];
      StepKeepsPartition(b, events[0]);
      RunIsRender(next, later);
      OwedStep(b, events);
      Regroup(b.translated + Owed(b, events), Spoken(events[0], later), Render(later));
    }
  }

  lemma RenderIsWellFormed(events: seq<Event>)
    requires EventsOk(events)
    ensures WellFormed(Render(events))
  {
    EmptyBufferOk();
    RunIsRender(EMPTY_BUFFER, events);
    FinishOk(Run(EMPTY_BUFFER, events));
    assert Owed(EMPTY_BUFFER, events) == [];
    assert [] + [] + Render(events) == Render(events);
  }

  /** Whatever is stored, in whatever order: the translated history is well formed. */
  lemma TranslationIsWellFormed(stored: seq<StoredMessage>)
    ensures Translation(stored).Translated? ==> WellFormed(Translation(stored).messages)
  {
    AllEventsOk(stored);
    RenderIsWellFormed(Events(stored));
  }

  // ----- no turn is lost

  /** The turns a reader sees: user messages, and assistant messages with text. */
  function Turns(messages: seq<Message>): seq<(Role, Content)> {
    if messages == [] then []
    else
      var m := messages[0];
      (if m.role == User || (m.role == Assistant && Truthy(m.content)) then [(m.role, m.content)] else [])
      + Turns(messages[1..])
  }

  function TurnOf(e: Event): seq<(Role, Content)> {
    match e
    case Say(content, calls) =>
      if Join("\n", content) != "" then [(Assistant, Plain(Join("\n", content)))] else []
    case Answer(_, _, _) => []
    case UserTurn(turn) => if turn.Some? then [(User, turn.value)] else []
  }

  function EventTurns(events: seq<Event>): seq<(Role, Content)> {
    if events == [] then [] else TurnOf(events[0]) + EventTurns(events[1..])
  }

  lemma {:induction false} TurnsConcat(a: seq<Message>, b: seq<Message>)
    ensures Turns(a + b) == Turns(a) + Turns(b)
  {
    if a == [] {
      assert a + b == b;
    } else {
      assert (a + b)[1..] == a[1..] + b;
      TurnsConcat(a[1..], b);
    }
  }

  lemma {:induction false} AnswersAreNoTurns(ids: set<string>, events: seq<Event>)
    ensures Turns(FirstAnswers(ids, events)) == []
  {
    if events != [] && !Interrupts(events[0]) {
      var e := events[0];
      if e.Answer? && e.id in ids {
        AnswersAreNoTurns(ids - {e.id}, events[1..]);
        var rest := FirstAnswers(ids - {e.id}, events[1..]);
        assert ([ToolMessage(e.id, e.name, e.text)] + rest)[1..] == rest;
      } else {
        AnswersAreNoTurns(ids, events[1..]);
      }
    }
  }

  lemma SpokenTurns(e: Event, later: seq<Event>)
    ensures Turns(Spoken(e, later)) == TurnOf(e)
  {
    if e.Say? && e.calls != [] {
      var ids, turn := DeclaredIds(e.calls), ToolTurn(e.content, e.calls);
      AnswersAreNoTurns(ids, later);
      TurnsConcat([turn] + [], FirstAnswers(ids, later));
    }
  }

  /** Every user turn and every assistant text survives, in order, whether or not the tool
      exchange around it was complete. */
  lemma {:induction false} NoTurnIsLost(events: seq<Event>)
    ensures Turns(Render(events)) == EventTurns(events)
  {
    if events != [] {
      var e, later := events[0], events[1..];
      NoTurnIsLost(later);
      TurnsConcat(Spoken(e, later), Render(later));
      SpokenTurns(e, later);
    }
  }

  // ----- the imperative translator

  class Translator {
    var translated: seq<Message>
    var pendingExchange: Option<Message>
    var pendingResults: seq<Message>
    var outstandingIds: set<string>

    ghost function Value(): Buffer
      reads this
    {
      Buffer(translated, pendingExchange, pendingResults, outstandingIds)
    }

    constructor ()
      ensures Value() == EMPTY_BUFFER
    {
      translated, pendingExchange, pendingResults, outstandingIds := [], None, [], {};
    }

    method FinishIncompleteExchange()
      modifies this
      ensures Value() == Finish(old(Value()))
    {
      if pendingExchange.Some? && Truthy(pendingExchange.value.content) {
        translated := translated + [AssistantMessage(pendingExchange.value.content, [])];
      }
      pendingExchange, pendingResults, outstandingIds := None, [], {};
    }

    method EmitAssistant(content: seq<string>, calls: seq<ToolCall>)
      modifies this
      ensures Value() == Emit(old(Value()), content, calls)
    {
      if content == [] && calls == [] {
        return;
      }
      FinishIncompleteExchange();
      if calls == [] {
        translated := translated + [ToolTurn(content, [])];
        return;
      }
      pendingExchange := Some(ToolTurn(content, calls));
      pendingResults := [];
      outstandingIds := DeclaredIds(calls);
    }

    method AcceptResult(id: string, tool: string, content: string)
      modifies this
      ensures Value() == Accept(old(Value()), id, tool, content)
    {
      if pendingExchange.Some? && id in outstandingIds {
        pendingResults := pendingResults + [ToolMessage(id, tool, content)];
        outstandingIds := outstandingIds - {id};
        if outstandingIds == {} {
          translated := translated + [pendingExchange.value];
          translated := translated + pendingResults;
          pendingExchange, pendingResults := None, [];
        }
      }
    }

    method EndMessage(author: Author, d: Draft)
      modifies this
      ensures Value() == Run(old(Value()), EndEvents(author, d))
    {
      match author {
        case FromAssistant => EmitAssistant(d.content, d.calls);
        case FromUser =>
          FinishIncompleteExchange();
          var content := UserContent(d);
          if content.Some? {
            translated := translated + [UserMessage(content.value)];
          }
        case FromOther =>
      }
    }

    method TranslateParts(author: Author, parts: seq<Part>) returns (refusal: Option<string>)
      modifies this
      ensures refusal == Refusals(author, parts)
      ensures refusal.None? ==> Value() == Run(old(Value()), PartsEvents(author, parts, EMPTY_DRAFT))
    {
      var d := EMPTY_DRAFT;
      for i := 0 to |parts|
        invariant Refusals(author, parts) == Refusals(author, parts[i..])
        invariant Run(old(Value()), PartsEvents(author, parts, EMPTY_DRAFT))
               == Run(Value(), PartsEvents(author, parts[i..], d))
      {
        var part := parts[i];
        assert parts[i..][1..] == parts[i + 1..];
        refusal := Refusal(part, author);
        if refusal.Some? {
          return;
        }
        ghost var before, later := Value(), PartsEvents(author, parts[i + 1..], AddPart(d, part, author));
        if part.ResultPart? {
          EmitAssistant(d.content, d.calls);
          AcceptResult(part.id, part.tool, part.content);
          var first := Say(d.content, d.calls);
          var second := Answer(part.id, part.tool, part.content);
          assert [first, second][1..] == [second];
          RunConcat(before, [first, second], later);
        } else {
          assert [] + later == later;
        }
        d := AddPart(d, part, author);
      }
      EndMessage(author, d);
      refusal := None;
    }

    /** The whole translation, from an empty buffer. */
    method TranslateMessages(stored: seq<StoredMessage>) returns (outcome: Outcome)
      requires Value() == EMPTY_BUFFER
      modifies this
      ensures outcome == Translation(stored)
      // In terms of the stored parts themselves.
      ensures match outcome
              case Refused(reason) => exists i, k :: FirstToRefuse(stored, i, k, reason)
              case Translated(messages) =>
                NothingRefuses(stored) && exists events :: TellsAll(stored, events) && messages == Render(events)
      ensures outcome.Translated? ==> outcome.messages == translated
    {
      ghost var first, part := FirstRefusalIs(stored);
      for i := 0 to |stored|
        invariant FirstRefusal(stored) == FirstRefusal(stored[i..])
        invariant Run(EMPTY_BUFFER, Events(stored)) == Run(Value(), Events(stored[i..]))
      {
        assert stored[i..][1..] == stored[i + 1..];
        ghost var before := Value();
        var refusal := TranslateParts(stored[i].author, stored[i].parts);
        if refusal.Some? {
          return Refused(refusal.value);
        }
        RunConcat(before, PartsEvents(stored[i].author, stored[i].parts, EMPTY_DRAFT), Events(stored[i + 1..]));
      }
      FinishIncompleteExchange();
      AllEventsOk(stored);
      EmptyBufferOk();
      RunIsRender(EMPTY_BUFFER, Events(stored));
      EventsAreTold(stored);
      return Translated(translated);
    }
  }

  // ----- context attached to the latest user message

  function WithContext(content: Content, text: string): Content {
    match content
    case Absent => Plain(text)
    case Plain(own) => Plain(if own != "" then own + "\n\n" + text else text)
    case Items(items) => Items(items + [TextItem(text)])
  }

  /** The text joins the last user message; with none, it becomes one. */
  ghost predicate Attached(before: seq<Message>, text: string, after: seq<Message>) {
    if text == "" then after == before
    else if forall m <- before :: m.role != User then after == before + [UserMessage(Plain(text))]
    else exists i :: AttachedAt(before, text, after, i)
  }

  ghost predicate AttachedAt(before: seq<Message>, text: string, after: seq<Message>, i: nat) {
    && i < |before|
    && before[i].role == User
    && (forall j :: i < j < |before| ==> before[j].role != User)
    && after == before[i := before[i].(content := WithContext(before[i].content, text))]
  }

  class History {
    var messages: seq<Message>

    constructor (messages: seq<Message>)
      ensures this.messages == messages
    {
      this.messages := messages;
    }

    method AppendToLatestUserMessage(text: string)
      modifies this
      ensures Attached(old(messages), text, messages)
    {
      if text == "" {
        return;
      }
      var i := |messages|;
      while i > 0
        invariant 0 <= i <= |messages|
        invariant messages == old(messages)
        invariant forall j :: i <= j < |messages| ==> messages[j].role != User
      {
        i := i - 1;
        if messages[i].role == User {
          var content := messages[i].content;
          if content.Plain? {
            content := Plain(if content.text == "" then text else content.text + "\n\n" + text);
          } else if content.Items? {
            content := Items(content.items + [TextItem(text)]);
          } else {
            content := Plain(text);
          }
          messages := messages[i := messages[i].(content := content)];
          assert AttachedAt(old(messages), text, messages, i);
          return;
        }
      }
      messages := messages + [UserMessage(Plain(text))];
    }
  }

  lemma {:induction false} ReplaceUserMessage(groups: seq<seq<Message>>, history: seq<Message>, i: nat, m: Message)
    requires IsParse(groups, history) && i < |history|
    requires history[i].role == User && m.role == User
    ensures WellFormed(history[i := m])
    decreases groups
  {
    var g, rest := groups[0], Flatten(groups[1..]);
    assert g in groups;
    assert history == g + rest;
    assert IsParse(groups[1..], rest);
    UnitWellFormed(g);
    if i < |g| {
      if Opens(g[0]) {
        AnswersExactlyOnce(g[1..], DeclaredIds(g[0].toolCalls));
        assert false;
      }
      assert history[i := m] == [m] + rest;
      UnitWellFormed([m]);
      WellFormedConcat([m], rest);
    } else {
      assert history[i := m] == g + rest[i - |g| := m];
      ReplaceUserMessage(groups[1..], rest, i - |g|, m);
      WellFormedConcat(g, rest[i - |g| := m]);
    }
  }

  /** All messages but the last user message stay; its own text comes first, the attached text last. */
  lemma AttachingKeepsTexts(before: seq<Message>, text: string, after: seq<Message>, i: nat)
    requires text != "" && AttachedAt(before, text, after, i)
    ensures |after| == |before| && after[i].role == User && after[i].toolCalls == before[i].toolCalls
    ensures forall k :: 0 <= k < |before| && k != i ==> after[k] == before[k]
    ensures before[i].content.Plain? ==>
              && after[i].content.Plain? && before[i].content.text <= after[i].content.text
              && exists gap :: after[i].content.text == before[i].content.text + gap + text
                               && gap == if before[i].content.text == "" then "" else "\n\n"
    ensures before[i].content.Items? ==>
              after[i].content.Items? && after[i].content.items == before[i].content.items + [TextItem(text)]
    ensures before[i].content.Absent? ==> after[i].content == Plain(text)
  {
    if before[i].content.Plain? {
      var own := before[i].content.text;
      var gap := if own == "" then "" else "\n\n";
      assert after[i].content.text == own + gap + text;
    }
  }

  /** Attaching context never breaks an exchange. */
  lemma AttachingKeepsWellFormed(before: seq<Message>, text: string, after: seq<Message>)
    requires WellFormed(before) && Attached(before, text, after)
    ensures WellFormed(after)
  {
    if text != "" {
      if forall m <- before :: m.role != User {
        StandsAlone(before, UserMessage(Plain(text)));
      } else {
        var i: nat :| AttachedAt(before, text, after, i);
        var groups :| IsParse(groups, before);
        ReplaceUserMessage(groups, before, i, after[i]);
      }
    }
  }
}
