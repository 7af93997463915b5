/** Chat histories with tool exchanges, and their division into protocol groups
    (agent/app/prompt.py). */
module ToolHistory {
  import opened Sequences

  datatype Role = System | User | Assistant | Tool

  datatype ContentItem = TextItem(text: string) | ImageItem(url: string)

  /** The `content` of a message: missing, a string, or a list of items. */
  datatype Content = Absent | Plain(text: string) | Items(items: seq<ContentItem>)

  /** One declared call; a missing id is the empty string. */
  datatype ToolCall = ToolCall(id: string, name: string, arguments: string)

  datatype Message = Message(
    role: Role, content: Content, toolCalls: seq<ToolCall>, toolCallId: string, name: string)

  function SystemMessage(text: string): Message {
    Message(System, Plain(text), [], "", "")
  }

  function UserMessage(content: Content): Message {
    Message(User, content, [], "", "")
  }

  function AssistantMessage(content: Content, calls: seq<ToolCall>): Message {
    Message(Assistant, content, calls, "", "")
  }

  function ToolMessage(id: string, name: string, text: string): Message {
    Message(Tool, Plain(text), [], id, name)
  }

  /** Python truthiness of a content value. */
  predicate Truthy(content: Content) {
    match content
    case Absent => false
    case Plain(text) => text != ""
    case Items(items) => items != []
  }

  function DeclaredIds(calls: seq<ToolCall>): set<string> {
    set call | call in calls && call.id != "" :: call.id
  }

  /** An assistant message that declares tool calls. */
  predicate Opens(m: Message) {
    m.role == Assistant && m.toolCalls != []
  }

  /** The messages answer exactly the ids, once each, in some order. */
  predicate Answers(results: seq<Message>, ids: set<string>) {
    if results == [] then ids == {}
    else
      && results[0].role == Tool
      && results[0].toolCallId in ids
      && Answers(results[1..], ids - {results[0].toolCallId})
  }

  /** A message that stands alone, or an assistant message with all its answers. */
  predicate Unit(group: seq<Message>) {
    && group != []
    && if Opens(group[0]) then Answers(group[1..], DeclaredIds(group[0].toolCalls))
       else group[0].role != Tool && |group| == 1
  }

  /** Every declaring assistant message is followed at once by answers to exactly
      its ids, and no tool message stands anywhere else. */
  ghost predicate WellFormed(history: seq<Message>) {
    exists groups: seq<seq<Message>> :: IsParse(groups, history)
  }

  ghost predicate IsParse(groups: seq<seq<Message>>, history: seq<Message>) {
    && (forall g <- groups :: Unit(g))
    && Flatten(groups) == history
  }

  // ----- group_protocol_messages

  /** How many leading messages answer ids that are still outstanding. */
  function Consumed(messages: seq<Message>, outstanding: set<string>): (n: nat)
    ensures n <= |messages|
  {
    if messages == [] || outstanding == {} || messages[0].role != Tool
       || messages[0].toolCallId !in outstanding then 0
    else 1 + Consumed(messages[1..], outstanding - {messages[0].toolCallId})
  }

  /** The ids those leading messages leave unanswered. */
  function Unanswered(messages: seq<Message>, outstanding: set<string>): set<string> {
    if messages == [] || outstanding == {} || messages[0].role != Tool
       || messages[0].toolCallId !in outstanding then outstanding
    else Unanswered(messages[1..], outstanding - {messages[0].toolCallId})
  }

  /** The groups the first message gives rise to; a broken exchange keeps only its text. */
  function FirstGroup(messages: seq<Message>): seq<seq<Message>>
    requires messages != []
  {
    var m := messages[0];
    if !Opens(m) then (if m.role != Tool then [[m]] else [])
    else
      var ids := DeclaredIds(m.toolCalls);
      if Unanswered(messages[1..], ids) == {} then [messages[..1 + Consumed(messages[1..], ids)]]
      else if Truthy(m.content) then [[AssistantMessage(m.content, [])]]
      else []
  }

  /** How many messages the first group uses up. */
  function FirstSpan(messages: seq<Message>): (n: nat)
    requires messages != []
    ensures 1 <= n <= |messages|
  {
    if !Opens(messages[0]) then 1
    else 1 + Consumed(messages[1..], DeclaredIds(messages[0].toolCalls))
  }

  function Groups(messages: seq<Message>): seq<seq<Message>> {
    if messages == [] then []
    else FirstGroup(messages) + Groups(messages[FirstSpan(messages)..])
  }

  /** The inner loop: read the answers that directly follow a declaring message. */
  method ReadAnswers(messages: seq<Message>, start: nat, ids: set<string>)
    returns (end: nat, outstanding: set<string>)
    requires start <= |messages|
    ensures end == start + Consumed(messages[start..], ids)
    ensures outstanding == Unanswered(messages[start..], ids)
  {
    end, outstanding := start, ids;
    while end < |messages| && outstanding != {}
      invariant start <= end <= |messages|
      invariant Consumed(messages[start..], ids) == end - start + Consumed(messages[end..], outstanding)
      invariant Unanswered(messages[start..], ids) == Unanswered(messages[end..], outstanding)
    {
      var result := messages[end];
      if result.role != Tool || result.toolCallId !in outstanding {
        break;
      }
      assert messages[end..][1..] == messages[end + 1..];
      outstanding := outstanding - {result.toolCallId};
      end := end + 1;
    }
  }

  /** The body of the outer loop: the groups that start at `start`, and where the next ones do. */
  method ReadGroup(messages: seq<Message>, start: nat) returns (found: seq<seq<Message>>, next: nat)
    requires start < |messages|
    ensures found == FirstGroup(messages[start..])
    ensures next == start + FirstSpan(messages[start..])
  {
    var message := messages[start];
    assert messages[start..][1..] == messages[start + 1..];
    found, next := [], start + 1;
    if !Opens(message) {
      if message.role != Tool {
        found := [[message]];
      }
    } else {
      var outstanding;
      next, outstanding := ReadAnswers(messages, start + 1, DeclaredIds(message.toolCalls));
      if outstanding == {} {
        assert messages[start..][..next - start] == messages[start..next];
        found := [messages[start..next]];
      } else if Truthy(message.content) {
        found := [[AssistantMessage(message.content, [])]];
      }
    }
  }

  /** The groups found so far and those from `index` on are all there are. */
  predicate Grouped(messages: seq<Message>, groups: seq<seq<Message>>, index: nat) {
    index <= |messages| && groups + Groups(messages[index..]) == Groups(messages)
  }

  lemma GroupedMore(messages: seq<Message>, groups: seq<seq<Message>>, start: nat, next: nat)
    requires Grouped(messages, groups, start) && start < |messages| && next == start + FirstSpan(messages[start..])
    ensures Grouped(messages, groups + FirstGroup(messages[start..]), next)
  {
    assert messages[start..][next - start..] == messages[next..];
    Regroup(groups, FirstGroup(messages[start..]), Groups(messages[next..]));
  }

  method GroupProtocolMessages(messages: seq<Message>) returns (groups: seq<seq<Message>>)
    ensures groups == Groups(messages)
  {
    groups := [];
    var index := 0;
    while index < |messages|
      invariant Grouped(messages, groups, index)
    {
      var found, next := ReadGroup(messages, index);
      GroupedMore(messages, groups, index, next);
      groups, index := groups + found, next;
    }
  }

  lemma {:induction false} ConsumedAnswers(messages: seq<Message>, ids: set<string>)
    requires Unanswered(messages, ids) == {}
    ensures Answers(messages[..Consumed(messages, ids)], ids)
  {
    if ids != {} {
      var id := messages[0].toolCallId;
      ConsumedAnswers(messages[1..], ids - {id});
      var n := Consumed(messages[1..], ids - {id});
      assert messages[..1 + n][1..] == messages[1..][..n];
    }
  }

  lemma {:induction false} AnswersAreConsumed(results: seq<Message>, rest: seq<Message>, ids: set<string>)
    requires Answers(results, ids)
    ensures Consumed(results + rest, ids) == |results|
    ensures Unanswered(results + rest, ids) == {}
  {
    if results == [] {
      assert results + rest == rest;
    } else {
      assert (results + rest)[1..] == results[1..] + rest;
      AnswersAreConsumed(results[1..], rest, ids - {results[0].toolCallId});
    }
  }

  /** Whatever the messages are, every group is a unit, so the grouped history is well formed. */
  lemma {:induction false} GroupsAreUnits(messages: seq<Message>)
    ensures forall g <- Groups(messages) :: Unit(g)
    ensures WellFormed(Flatten(Groups(messages)))
  {
    if messages != [] {
      var m := messages[0];
      if Opens(m) {
        var ids := DeclaredIds(m.toolCalls);
        if Unanswered(messages[1..], ids) == {} {
          ConsumedAnswers(messages[1..], ids);
          var n := Consumed(messages[1..], ids);
          assert messages[..1 + n][1..] == messages[1..][..n];
        }
      }
      GroupsAreUnits(messages[FirstSpan(messages)..]);
    }
    assert IsParse(Groups(messages), Flatten(Groups(messages)));
  }

  /** A history built of units has one division into groups, and it is the one computed. */
  lemma {:induction false} GroupsOfUnits(groups: seq<seq<Message>>)
    requires forall g <- groups :: Unit(g)
    ensures Groups(Flatten(groups)) == groups
  {
    if groups != [] {
      var g := groups[0];
      assert g in groups;
      var rest := Flatten(groups[1..]);
      var h := g + rest;
      assert Flatten(groups) == h;
      if Opens(g[0]) {
        assert h[1..] == g[1..] + rest;
        AnswersAreConsumed(g[1..], rest, DeclaredIds(g[0].toolCalls));
      }
      assert FirstSpan(h) == |g|;
      assert h[..|g|] == g && h[|g|..] == rest;
      assert |g| == 1 ==> g == [h[0]];
      assert FirstGroup(h) == [g];
      GroupsOfUnits(groups[1..]);
      assert groups == [g] + groups[1..];
    }
  }

  /** Grouping loses nothing exactly on the well-formed histories. */
  lemma GroupingIsLosslessIff(messages: seq<Message>)
    ensures Flatten(Groups(messages)) == messages <==> WellFormed(messages)
  {
    GroupsAreUnits(messages);
    if WellFormed(messages) {
      var groups :| IsParse(groups, messages);
      GroupsOfUnits(groups);
    }
  }

  lemma WellFormedConcat(a: seq<Message>, b: seq<Message>)
    requires WellFormed(a) && WellFormed(b)
    ensures WellFormed(a + b)
  {
    var ga :| IsParse(ga, a);
    var gb :| IsParse(gb, b);
    FlattenConcat(ga, gb);
    assert IsParse(ga + gb, a + b);
  }

  lemma UnitWellFormed(unit: seq<Message>)
    requires Unit(unit)
    ensures WellFormed(unit)
  {
    assert Flatten([unit]) == unit;
    assert IsParse([unit], unit);
  }

  // ----- what well-formedness says position by position

  /** The number of messages right after `i` that answer it. */
  ghost predicate AnsweredAt(history: seq<Message>, i: nat)
    requires i < |history|
  {
    var ids := DeclaredIds(history[i].toolCalls);
    && i + 1 + |ids| <= |history|
    && (forall j :: i < j <= i + |ids| ==> history[j].role == Tool && history[j].toolCallId in ids)
    && (forall id <- ids :: exists j :: i < j <= i + |ids| && history[j].toolCallId == id)
    && (forall j, k :: i < j < k <= i + |ids| ==> history[j].toolCallId != history[k].toolCallId)
  }

  /** A declaring message stands so close before `j` that `j` is one of its answers. */
  ghost predicate OwnedAt(history: seq<Message>, j: nat)
    requires j < |history|
  {
    exists i :: 0 <= i < j && Opens(history[i]) && j <= i + |DeclaredIds(history[i].toolCalls)|
  }

  lemma {:induction false} AnswersExactlyOnce(results: seq<Message>, ids: set<string>)
    requires Answers(results, ids)
    ensures |results| == |ids|
    ensures forall r <- results :: r.role == Tool && r.toolCallId in ids
    ensures forall id <- ids :: exists j :: 0 <= j < |results| && results[j].toolCallId == id
    ensures forall j, k :: 0 <= j < k < |results| ==> results[j].toolCallId != results[k].toolCallId
  {
    if results != [] {
      var head := results[0].toolCallId;
      AnswersExactlyOnce(results[1..], ids - {head});
      forall id <- ids ensures exists j :: 0 <= j < |results| && results[j].toolCallId == id {
        if id == head {
          assert results[0].toolCallId == id;
        } else {
          assert id in ids - {head};
          var j :| 0 <= j < |results[1..]| && results[1..][j].toolCallId == id;
          assert results[j + 1].toolCallId == id;
        }
      }
    }
  }

  /** In a well-formed history every declaring message is answered in the positions right
      after it, each declared id once, and a tool message is always one of those answers. */
  lemma {:induction false} WellFormedPositions(history: seq<Message>, groups: seq<seq<Message>>)
    requires IsParse(groups, history)
    decreases groups
    ensures forall i :: 0 <= i < |history| && Opens(history[i]) ==> AnsweredAt(history, i)
    ensures forall j :: 0 <= j < |history| && history[j].role == Tool ==> OwnedAt(history, j)
  {
    if groups != [] {
      var g, rest := groups[0], Flatten(groups[1..]);
      assert g in groups && history == g + rest;
      WellFormedPositions(rest, groups[1..]);
      UnitThenAnswered(g, rest);
      UnitThenOwned(g, rest);
    }
  }

  lemma UnitThenAnswered(g: seq<Message>, rest: seq<Message>)
    requires Unit(g) && OpenersAnswered(rest)
    ensures OpenersAnswered(g + rest)
  {
    var history := g + rest;
    if Opens(g[0]) {
      AnswersExactlyOnce(g[1..], DeclaredIds(g[0].toolCalls));
      FirstExchangeAnswered(g, rest);
    }
    forall i | 0 <= i < |history| && Opens(history[i])
      ensures AnsweredAt(history, i)
    {
      if i >= |g| {
        ShiftAnswered(g, rest, i - |g|);
      }
    }
  }

  lemma UnitThenOwned(g: seq<Message>, rest: seq<Message>)
    requires Unit(g) && AnswersOwned(rest)
    ensures AnswersOwned(g + rest)
  {
    var history := g + rest;
    if Opens(g[0]) {
      AnswersExactlyOnce(g[1..], DeclaredIds(g[0].toolCalls));
    }
    forall j | 0 <= j < |history| && history[j].role == Tool
      ensures OwnedAt(history, j)
    {
      if j >= |g| {
        assert rest[j - |g|].role == Tool;
        ShiftOwned(g, rest, j - |g|);
      } else {
        assert Opens(history[0]);
      }
    }
  }

  lemma ShiftOwned(g: seq<Message>, rest: seq<Message>, j: nat)
    requires j < |rest| && OwnedAt(rest, j)
    ensures OwnedAt(g + rest, |g| + j)
  {
    var i :| 0 <= i < j && Opens(rest[i]) && j <= i + |DeclaredIds(rest[i].toolCalls)|;
    assert (g + rest)[|g| + i] == rest[i];
  }

  /** Messages that name each of the ids once are answers to exactly them. */
  lemma {:induction false} NamedOnceAnswers(results: seq<Message>, ids: set<string>)
    requires |results| == |ids|
    requires forall j :: 0 <= j < |results| ==> results[j].role == Tool && results[j].toolCallId in ids
    requires forall j, k :: 0 <= j < k < |results| ==> results[j].toolCallId != results[k].toolCallId
    ensures Answers(results, ids)
  {
    if results != [] {
      NamedOnceAnswers(results[1..], ids - {results[0].toolCallId});
    }
  }

  /** What well-formedness says position by position. */
  ghost predicate PositionsOk(history: seq<Message>) {
    OpenersAnswered(history) && AnswersOwned(history)
  }

  ghost predicate OpenersAnswered(history: seq<Message>) {
    forall i :: 0 <= i < |history| && Opens(history[i]) ==> AnsweredAt(history, i)
  }

  ghost predicate AnswersOwned(history: seq<Message>) {
    forall j :: 0 <= j < |history| && history[j].role == Tool ==> OwnedAt(history, j)
  }

  lemma FirstAnswersNothing(history: seq<Message>)
    requires history != [] && PositionsOk(history)
    ensures history[0].role != Tool
  {
  }

  /** The exchange at the front, or the lone message. */
  lemma FirstUnit(history: seq<Message>) returns (n: nat)
    requires history != [] && PositionsOk(history)
    ensures 0 < n <= |history| && Unit(history[..n])
    ensures n == if Opens(history[0]) then 1 + |DeclaredIds(history[0].toolCalls)| else 1
    ensures forall j :: 0 < j < n ==> history[j].role == Tool
  {
    n := 1;
    if Opens(history[0]) {
      var ids := DeclaredIds(history[0].toolCalls);
      assert AnsweredAt(history, 0);
      n := 1 + |ids|;
      NamedOnceAnswers(history[..n][1..], ids);
    } else {
      FirstAnswersNothing(history);
    }
  }

  lemma RestIsAnswered(history: seq<Message>, n: nat)
    requires OpenersAnswered(history) && n <= |history|
    ensures OpenersAnswered(history[n..])
  {
    var rest := history[n..];
    forall i | 0 <= i < |rest| && Opens(rest[i])
      ensures AnsweredAt(rest, i)
    {
      assert rest[i] == history[n + i];
      UnshiftAnswered(history, n, i);
    }
  }

  lemma RestIsOwned(history: seq<Message>, n: nat)
    requires AnswersOwned(history) && 0 < n <= |history|
    requires n == if Opens(history[0]) then 1 + |DeclaredIds(history[0].toolCalls)| else 1
    requires forall j :: 0 < j < n ==> history[j].role == Tool
    ensures AnswersOwned(history[n..])
  {
    var rest := history[n..];
    forall j | 0 <= j < |rest| && rest[j].role == Tool
      ensures OwnedAt(rest, j)
    {
      assert rest[j] == history[n + j];
      UnshiftOwned(history, n, j);
    }
  }

  lemma UnshiftOwned(history: seq<Message>, n: nat, j: nat)
    requires 0 < n && n + j < |history| && OwnedAt(history, n + j)
    requires n == if Opens(history[0]) then 1 + |DeclaredIds(history[0].toolCalls)| else 1
    requires forall k :: 0 < k < n ==> history[k].role == Tool
    ensures OwnedAt(history[n..], j)
  {
    var i :| 0 <= i < n + j && Opens(history[i]) && n + j <= i + |DeclaredIds(history[i].toolCalls)|;
    assert history[n..][i - n] == history[i];
  }

  lemma UnshiftAnswered(history: seq<Message>, n: nat, i: nat)
    requires n + i < |history| && AnsweredAt(history, n + i)
    ensures AnsweredAt(history[n..], i)
  {
    var rest, ids := history[n..], DeclaredIds(history[n + i].toolCalls);
    assert forall j :: i < j <= i + |ids| ==> rest[j] == history[n + j];
    forall id <- ids
      ensures exists j :: i < j <= i + |ids| && rest[j].toolCallId == id
    {
      var j :| n + i < j <= n + i + |ids| && history[j].toolCallId == id;
      assert rest[j - n].toolCallId == id;
    }
  }

  lemma SplitFirstUnit(history: seq<Message>) returns (unit: seq<Message>, rest: seq<Message>)
    requires history != [] && PositionsOk(history)
    ensures history == unit + rest && |rest| < |history| && Unit(unit) && PositionsOk(rest)
  {
    var n := FirstUnit(history);
    RestIsAnswered(history, n);
    RestIsOwned(history, n);
    SplitAt(history, n);
    unit, rest := history[..n], history[n..];
  }

  lemma {:induction false} PositionsMakeWellFormed(history: seq<Message>)
    requires PositionsOk(history)
    ensures WellFormed(history)
    decreases |history|
  {
    if history == [] {
      assert IsParse([], history);
    } else {
      var unit, rest := SplitFirstUnit(history);
      PositionsMakeWellFormed(rest);
      UnitWellFormed(unit);
      WellFormedConcat(unit, rest);
    }
  }

  /** Well-formed histories are exactly those whose positions are in order. */
  lemma WellFormedIffPositionsOk(history: seq<Message>)
    ensures WellFormed(history) <==> PositionsOk(history)
  {
    if WellFormed(history) {
      var groups :| IsParse(groups, history);
      WellFormedPositions(history, groups);
    }
    if PositionsOk(history) {
      PositionsMakeWellFormed(history);
    }
  }

  lemma FirstExchangeAnswered(g: seq<Message>, rest: seq<Message>)
    requires Unit(g) && Opens(g[0])
    ensures AnsweredAt(g + rest, 0)
  {
    var h, ids, results := g + rest, DeclaredIds(g[0].toolCalls), g[1..];
    AnswersExactlyOnce(results, ids);
    forall id <- ids ensures exists j :: 0 < j <= |ids| && h[j].toolCallId == id {
      var j :| 0 <= j < |results| && results[j].toolCallId == id;
      assert h[j + 1].toolCallId == id;
    }
    assert forall j :: 0 < j <= |ids| ==> h[j] == results[j - 1];
  }

  lemma ShiftAnswered(g: seq<Message>, rest: seq<Message>, i: nat)
    requires i < |rest| && AnsweredAt(rest, i)
    ensures AnsweredAt(g + rest, |g| + i)
  {
    var h, ids := g + rest, DeclaredIds(rest[i].toolCalls);
    assert forall j :: |g| + i < j <= |g| + i + |ids| ==> h[j] == rest[j - |g|];
    forall id <- ids ensures exists j :: |g| + i < j <= |g| + i + |ids| && h[j].toolCallId == id {
      var j :| i < j <= i + |ids| && rest[j].toolCallId == id;
      assert h[j + |g|].toolCallId == id;
    }
  }

  /** The declaring message that a tool message of a well-formed history belongs to. */
  lemma OpenerOf(history: seq<Message>, j: nat) returns (i: nat)
    requires WellFormed(history) && j < |history| && history[j].role == Tool
    ensures i < j && Opens(history[i]) && j <= i + |DeclaredIds(history[i].toolCalls)|
    ensures forall k :: i < k <= j ==> history[k].role == Tool
  {
    var groups :| IsParse(groups, history);
    WellFormedPositions(history, groups);
    i :| 0 <= i < j && Opens(history[i]) && j <= i + |DeclaredIds(history[i].toolCalls)|;
    assert AnsweredAt(history, i);
  }

  /** In a well-formed history every call with an id is answered, with nothing but answers in between. */
  lemma CallIsAnswered(history: seq<Message>, i: nat, call: ToolCall) returns (j: nat)
    requires WellFormed(history) && i < |history| && history[i].role == Assistant
    requires call in history[i].toolCalls && call.id != ""
    ensures i < j < |history| && history[j].toolCallId == call.id
    ensures forall k :: i < k <= j ==> history[k].role == Tool
  {
    WellFormedIffPositionsOk(history);
    assert Opens(history[i]) && AnsweredAt(history, i);
    assert call.id in DeclaredIds(history[i].toolCalls);
    j :| i < j <= i + |DeclaredIds(history[i].toolCalls)| && history[j].toolCallId == call.id;
  }

  /** And every tool message answers a call of the assistant message right before its answers. */
  lemma AnswerHasCall(history: seq<Message>, j: nat) returns (i: nat, call: ToolCall)
    requires WellFormed(history) && j < |history| && history[j].role == Tool
    ensures i < j && history[i].role == Assistant && call in history[i].toolCalls
    ensures call.id != "" && call.id == history[j].toolCallId
    ensures forall k :: i < k <= j ==> history[k].role == Tool
  {
    WellFormedIffPositionsOk(history);
    assert OwnedAt(history, j);
    i :| 0 <= i < j && Opens(history[i]) && j <= i + |DeclaredIds(history[i].toolCalls)|;
    assert AnsweredAt(history, i);
    assert history[j].toolCallId in DeclaredIds(history[i].toolCalls);
    call :| call in history[i].toolCalls && call.id != "" && call.id == history[j].toolCallId;
  }
}
