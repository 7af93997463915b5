/** The call_llm / execute_tools loop of one run (agent/app/graph.py). */
module AgentLoop {
  import opened Sequences
  import opened ToolHistory
  import opened ToolCallStream
  import opened ModelTurn

  /** What the outside world does in one round: the candidate models, the made-up ids, the tool results. */
  datatype Turn = Turn(attempts: seq<Attempt>, suffix: nat -> string, results: nat -> string)

  datatype End = Running | Finished | Failed

  /** The tool messages for a list of calls: one each, same id and name, same order. */
  function ResultMessages(calls: seq<ToolCall>, results: nat -> string): (messages: seq<Message>)
    ensures |messages| == |calls|
    ensures forall k :: 0 <= k < |calls| ==>
      && messages[k].role == Tool && messages[k].toolCallId == calls[k].id && messages[k].name == calls[k].name
      && messages[k].content == Plain(results(k)) && messages[k].toolCalls == []
  {
    var messages := seq(|calls|, k requires 0 <= k < |calls| => ToolMessage(calls[k].id, calls[k].name, results(k)));
    assert forall k :: 0 <= k < |calls| ==> messages[k] == ToolMessage(calls[k].id, calls[k].name, results(k));
    messages
  }

  /** The assistant message that a candidate's stream stands for. */
  ghost predicate Answered(turn: Turn, active: nat, m: Message) {
    && active < |turn.attempts|
    && turn.attempts[active].ending.Completed?
    && m.content.Plain?
    && m == AssistantMessage(m.content, m.toolCalls)
    && Voices(turn.attempts[active].deltas, turn.suffix, m.content.text, m.toolCalls)
  }

  /** An assistant message with calls, and one result per call. */
  ghost predicate Round(turn: Turn, active: nat, round: seq<Message>) {
    && round != []
    && Answered(turn, active, round[0])
    && round[0].toolCalls != []
    && round[1..] == ResultMessages(round[0].toolCalls, turn.results)
  }

  lemma RoundOf(turn: Turn, active: nat, reply: Message)
    requires Answered(turn, active, reply) && reply.toolCalls != []
    ensures Round(turn, active, [reply] + ResultMessages(reply.toolCalls, turn.results))
  {
    var results := ResultMessages(reply.toolCalls, turn.results);
    assert ([reply] + results)[1..] == results;
  }

  /** Every turn offers the same candidates. */
  ghost predicate Offered(turns: seq<Turn>, candidates: nat) {
    forall turn <- turns :: |turn.attempts| == candidates
  }

  /** The model that answers: once locked, the active one stays. */
  function ActiveIn(turn: Turn, index: int, locked: bool): (active: nat)
    requires turn.attempts != []
    ensures active < |turn.attempts|
  {
    Selected(turn.attempts, ClampIndex(index, |turn.attempts|), locked)
  }

  /** Every round is the answer of the same model to its own turn. */
  ghost predicate Rounds(turns: seq<Turn>, active: nat, rounds: seq<seq<Message>>) {
    rounds != [] ==>
      && |rounds| <= |turns|
      && Round(turns[|rounds| - 1], active, rounds[|rounds| - 1])
      && Rounds(turns, active, rounds[..|rounds| - 1])
  }

  /** A history and the rounds added to it. */
  function Grown(history: seq<Message>, rounds: seq<seq<Message>>): seq<Message> {
    history + Flatten(rounds)
  }

  lemma GrownSnoc(history: seq<Message>, rounds: seq<seq<Message>>, round: seq<Message>)
    ensures Grown(history, rounds + [round]) == Grown(history, rounds) + round
    ensures Grown(history, rounds + [round]) + [] == Grown(history, rounds + [round])
  {
    FlattenSnoc(rounds, round);
  }

  /** How a run stops: at an error, or at a reply without calls. */
  ghost predicate Stops(end: End, turn: Turn, active: nat, last: seq<Message>) {
    match end
    case Running => false
    case Failed => last == [] && active < |turn.attempts| && turn.attempts[active].ending.Broke?
    case Finished => |last| == 1 && last[0].toolCalls == [] && Answered(turn, active, last[0])
  }

  lemma RoundsSnoc(turns: seq<Turn>, active: nat, rounds: seq<seq<Message>>, round: seq<Message>)
    requires |rounds| < |turns| && Rounds(turns, active, rounds)
    requires Round(turns[|rounds|], active, round)
    ensures Rounds(turns, active, rounds + [round])
  {
    assert (rounds + [round])[..|rounds|] == rounds;
  }

  lemma LockedStays(turn: Turn, index: nat)
    requires index < |turn.attempts|
    ensures ActiveIn(turn, index, true) == index
  {
  }

  class Agent {
    var messages: seq<Message>
    var pending: seq<ToolCall>
    var finished: bool
    var activeIndex: int
    var locked: bool

    constructor (messages: seq<Message>)
      ensures this.messages == messages && pending == [] && !finished && activeIndex == 0 && !locked
    {
      this.messages, pending, finished, activeIndex, locked := messages, [], false, 0, false;
    }

    method CallLlm(turn: Turn) returns (raised: bool, emitted: seq<Emission>, ghost reply: Message)
      requires turn.attempts != []
      modifies this
      ensures raised == turn.attempts[ActiveIn(turn, old(activeIndex), old(locked))].ending.Broke?
      ensures emitted == Output(turn.attempts[ActiveIn(turn, old(activeIndex), old(locked))])
      ensures raised ==> unchanged(this)
      ensures !raised ==>
        && messages == old(messages) + [reply]
        && Answered(turn, ActiveIn(turn, old(activeIndex), old(locked)), reply)
        && pending == reply.toolCalls
        && finished == (pending == [])
        && activeIndex == ActiveIn(turn, old(activeIndex), old(locked))
        && locked
    {
      var answer, _, wire := CallModel(turn.attempts, activeIndex, locked, turn.suffix);
      raised, emitted := answer.Raised?, wire;
      reply := UserMessage(Absent);
      if answer.Replied? {
        var m := AssistantMessage(Plain(answer.content), answer.calls);
        reply := m;
        messages := messages + [m];
        pending, finished := answer.calls, |answer.calls| == 0;
        activeIndex, locked := answer.activeIndex, answer.locked;
      }
    }

    method ExecuteTools(turn: Turn)
      modifies this`messages, this`pending
      ensures messages == old(messages) + ResultMessages(old(pending), turn.results)
      ensures |messages| == |old(messages)| + |old(pending)|
      ensures forall k :: 0 <= k < |old(pending)| ==>
                messages[|old(messages)| + k].content == Plain(turn.results(k))
                && messages[|old(messages)| + k].toolCallId == old(pending)[k].id
      ensures pending == []
    {
      for k := 0 to |pending|
        invariant pending == old(pending)
        invariant messages == old(messages) + ResultMessages(pending, turn.results)[..k]
      {
        messages := messages + [ToolMessage(pending[k].id, pending[k].name, turn.results(k))];
      }
      pending := [];
    }

    /** One pass through the graph: a model call, then its tools unless it made no calls. */
    method Step(turn: Turn) returns (end: End, ghost added: seq<Message>)
      requires turn.attempts != []
      modifies this
      ensures messages == old(messages) + added
      ensures end.Failed? <==> turn.attempts[ActiveIn(turn, old(activeIndex), old(locked))].ending.Broke?
      ensures end.Failed? ==> added == [] && activeIndex == old(activeIndex) && locked == old(locked)
      ensures !end.Failed? ==> activeIndex == ActiveIn(turn, old(activeIndex), old(locked)) && locked
      ensures end.Running? ==> Round(turn, ActiveIn(turn, old(activeIndex), old(locked)), added)
      ensures end.Finished? ==> |added| == 1 && added[0].toolCalls == []
                                && Answered(turn, ActiveIn(turn, old(activeIndex), old(locked)), added[0])
    {
      var raised, _, reply := CallLlm(turn);
      if raised {
        return Failed, [];
      }
      if finished {
        return Finished, [reply];
      }
      ghost var active, results := activeIndex as nat, ResultMessages(reply.toolCalls, turn.results);
      ExecuteTools(turn);
      RoundOf(turn, active, reply);
      Regroup(old(messages), [reply], results);
      return Running, [reply] + results;
    }

    /** The graph, for as many turns as the world supplies: the history only grows, by one whole
        round a turn, all answered by the model that answered first; the run ends exactly at the
        first reply without calls, or at the first error that may not fall back. */
    method Run(turns: seq<Turn>, candidates: nat)
      returns (end: End, ghost rounds: seq<seq<Message>>, ghost last: seq<Message>)
      requires candidates > 0 && Offered(turns, candidates) && turns != []
      modifies this
      ensures messages == Grown(old(messages), rounds) + last
      ensures
        var active := ActiveIn(turns[0], old(activeIndex), old(locked));
        && (if end.Running? then |rounds| == |turns| else |rounds| < |turns|)
        && Rounds(turns, active, rounds)
        && (if end.Running? then last == [] else Stops(end, turns[|rounds|], active, last))
      ensures end.Finished? || rounds != [] ==>
        locked && activeIndex == ActiveIn(turns[0], old(activeIndex), old(locked))
    {
      rounds, last, end := [], [], Running;
      ghost var active := ActiveIn(turns[0], activeIndex, locked);
      var k := 0;
      while k < |turns| && end.Running?
        invariant 0 <= k <= |turns|
        invariant messages == Grown(old(messages), rounds) + last
        invariant Rounds(turns, active, rounds)
        invariant end.Running? ==> |rounds| == k && last == [] && messages == Grown(old(messages), rounds)
        invariant !end.Running? ==> |rounds| < k && Stops(end, turns[|rounds|], active, last)
        invariant k == 0 ==> activeIndex == old(activeIndex) && locked == old(locked)
        invariant end.Finished? || rounds != [] ==> locked && activeIndex == active
      {
        if k > 0 {
          LockedStays(turns[k], active);
        }
        ghost var added;
        end, added := Step(turns[k]);
        if end.Running? {
          GrownSnoc(old(messages), rounds, added);
          RoundsSnoc(turns, active, rounds, added);
          rounds := rounds + [added];
        } else {
          last := added;
        }
        k := k + 1;
      }
    }
  }

  // ----- the grown history as protocol history

  predicate DistinctIds(calls: seq<ToolCall>) {
    forall j, k :: 0 <= j < k < |calls| ==> calls[j].id != calls[k].id
  }

  predicate NoRepeatedId(round: seq<Message>) {
    round != [] ==> DistinctIds(round[0].toolCalls)
  }

  lemma {:induction false} ResultsAnswer(calls: seq<ToolCall>, replies: seq<Message>)
    requires DistinctIds(calls) && forall call <- calls :: call.id != ""
    requires |replies| == |calls|
    requires forall k :: 0 <= k < |calls| ==> replies[k].role == Tool && replies[k].toolCallId == calls[k].id
    ensures Answers(replies, DeclaredIds(calls))
  {
    if calls != [] {
      var rest := calls[1..];
      assert forall call :: call in calls <==> call == calls[0] || call in rest;
      assert DeclaredIds(rest) == DeclaredIds(calls) - {calls[0].id};
      ResultsAnswer(rest, replies[1..]);
    }
  }

  /** A round is a complete exchange when its ids are distinct. */
  lemma RoundIsUnit(turn: Turn, active: nat, round: seq<Message>)
    requires Round(turn, active, round) && NoRepeatedId(round)
    ensures Unit(round)
  {
    ResultsAnswer(round[0].toolCalls, round[1..]);
  }

  lemma RepeatedIdDeclaresFewer(calls: seq<ToolCall>, j: nat, k: nat)
    requires j < k < |calls| && calls[j].id == calls[k].id
    ensures |DeclaredIds(calls)| < |calls|
  {
    var fewer := calls[..k] + calls[k + 1..];
    forall id | id in DeclaredIds(calls) ensures id in DeclaredIds(fewer) {
      var call :| call in calls && call.id == id && call.id != "";
      var n :| 0 <= n < |calls| && calls[n] == call;
      if n < k {
        assert fewer[n] == call;
      } else if n > k {
        assert fewer[n - 1] == call;
      } else {
        assert fewer[j] == calls[j];
      }
    }
    assert DeclaredIds(calls) <= DeclaredIds(fewer);
    SubsetSize(DeclaredIds(calls), DeclaredIds(fewer));
    DeclaresAtMost(fewer);
  }

  lemma {:induction false} SubsetSize<T>(a: set<T>, b: set<T>)
    requires a <= b
    ensures |a| <= |b|
  {
    if a != {} {
      var x :| x in a;
      SubsetSize(a - {x}, b - {x});
    }
  }

  lemma {:induction false} DeclaresAtMost(calls: seq<ToolCall>)
    ensures |DeclaredIds(calls)| <= |calls|
  {
    if calls != [] {
      var rest := calls[1..];
      DeclaresAtMost(rest);
      assert forall call :: call in calls <==> call == calls[0] || call in rest;
      assert DeclaredIds(calls) <= DeclaredIds(rest) + {calls[0].id};
      SubsetSize(DeclaredIds(calls), DeclaredIds(rest) + {calls[0].id});
    }
  }

  /** In a well-formed history no more tool messages follow a declaration than it has ids. */
  lemma ToolRunIsBounded(h: seq<Message>, i: nat, n: nat)
    requires WellFormed(h) && i + n < |h| && Opens(h[i]) && n > 0
    requires forall j :: i < j <= i + n ==> h[j].role == Tool
    ensures n <= |DeclaredIds(h[i].toolCalls)|
  {
    assert h[i + n].role == Tool;
    var o := OpenerOf(h, i + n);
    assert o == i;
  }

  /** A well-formed history cannot hold a round that repeats an id. */
  lemma RepeatedIdBreaksHistory(
    turn: Turn, active: nat, before: seq<Message>, round: seq<Message>, after: seq<Message>)
    requires Round(turn, active, round) && !NoRepeatedId(round)
    ensures !WellFormed(before + round + after)
  {
    var h, i, calls := before + round + after, |before|, round[0].toolCalls;
    RepeatDeclaresFewer(calls);
    RoundAt(turn, active, before, round, after);
    if WellFormed(h) {
      ToolRunIsBounded(h, i, |calls|);
    }
  }

  lemma RepeatDeclaresFewer(calls: seq<ToolCall>)
    requires !DistinctIds(calls)
    ensures |DeclaredIds(calls)| < |calls|
  {
    var j, k :| 0 <= j < k < |calls| && calls[j].id == calls[k].id;
    RepeatedIdDeclaresFewer(calls, j, k);
  }

  /** A round inside a history: its reply, then as many tool messages as calls. */
  lemma RoundAt(turn: Turn, active: nat, before: seq<Message>, round: seq<Message>, after: seq<Message>)
    requires Round(turn, active, round)
    ensures var h, i, calls := before + round + after, |before|, round[0].toolCalls;
            && i + |calls| < |h| && h[i] == round[0] && Opens(h[i])
            && forall n :: i < n <= i + |calls| ==> h[n].role == Tool
  {
    var h, i, calls := before + round + after, |before|, round[0].toolCalls;
    forall n | i < n <= i + |calls|
      ensures h[n].role == Tool
    {
      assert h[n] == round[1..][n - i - 1];
    }
  }

  // ----- which streams repeat an id

  /** The calls that a candidate streams. */
  function Streamed(turn: Turn, active: nat): seq<ToolCall> {
    if active < |turn.attempts| then Calls(Fragments(turn.attempts[active].deltas)) else []
  }

  /** Two streamed calls get different ids: their own, or the ones made up for those without. */
  predicate Apart(a: ToolCall, madeUp: string, b: ToolCall, alsoMadeUp: string) {
    if a.id != "" && b.id != "" then a.id != b.id
    else if a.id != "" then a.id != "tc_" + alsoMadeUp
    else if b.id != "" then b.id != "tc_" + madeUp
    else madeUp != alsoMadeUp
  }

  /** A turn's stream leads to distinct ids. */
  predicate StreamsDistinctIds(turn: Turn, active: nat) {
    var calls := Streamed(turn, active);
    forall j, k :: 0 <= j < k < |calls| ==> Apart(calls[j], turn.suffix(j), calls[k], turn.suffix(k))
  }

  lemma ApartIff(a: ToolCall, madeUp: string, b: ToolCall, alsoMadeUp: string)
    ensures Apart(a, madeUp, b, alsoMadeUp) <==> WithId(a, madeUp).id != WithId(b, alsoMadeUp).id
  {
    var x, y := "tc_" + madeUp, "tc_" + alsoMadeUp;
    assert x[3..] == madeUp && y[3..] == alsoMadeUp;
  }

  /** A round repeats no id exactly when its turn's stream and the made-up ids hold no two the same. */
  lemma NoRepeatedIdIff(turn: Turn, active: nat, round: seq<Message>)
    requires Round(turn, active, round)
    ensures NoRepeatedId(round) <==> StreamsDistinctIds(turn, active)
  {
    var calls, sent := Streamed(turn, active), round[0].toolCalls;
    forall j, k | 0 <= j < k < |calls|
      ensures sent[j].id != sent[k].id <==> Apart(calls[j], turn.suffix(j), calls[k], turn.suffix(k))
    {
      ApartIff(calls[j], turn.suffix(j), calls[k], turn.suffix(k));
    }
  }

  lemma {:induction false} RoundAtTurn(turns: seq<Turn>, active: nat, rounds: seq<seq<Message>>, k: nat)
    requires Rounds(turns, active, rounds) && k < |rounds|
    ensures |rounds| <= |turns| && Round(turns[k], active, rounds[k])
    decreases |rounds|
  {
    if k < |rounds| - 1 {
      RoundAtTurn(turns, active, rounds[..|rounds| - 1], k);
    }
  }

  /**
   * What a run adds keeps the history well formed exactly when each turn that led to a round streams distinct ids,
   * those made up included.
   */
  lemma RunKeepsProtocolIff(history: seq<Message>, turns: seq<Turn>, active: nat, rounds: seq<seq<Message>>)
    requires WellFormed(history) && Rounds(turns, active, rounds)
    ensures |rounds| <= |turns|
    ensures WellFormed(Grown(history, rounds)) <==>
              forall k :: 0 <= k < |rounds| ==> StreamsDistinctIds(turns[k], active)
  {
    GrownIsWellFormedIff(history, turns, active, rounds);
    forall k | 0 <= k < |rounds|
      ensures NoRepeatedId(rounds[k]) <==> StreamsDistinctIds(turns[k], active)
    {
      RoundAtTurn(turns, active, rounds, k);
      NoRepeatedIdIff(turns[k], active, rounds[k]);
    }
  }

  lemma {:induction false} GrownIsWellFormedIff(
    history: seq<Message>, turns: seq<Turn>, active: nat, rounds: seq<seq<Message>>)
    requires WellFormed(history) && Rounds(turns, active, rounds)
    ensures WellFormed(Grown(history, rounds)) <==> forall round <- rounds :: NoRepeatedId(round)
  {
    if rounds == [] {
      assert history + [] == history;
    } else {
      var front, round := rounds[..|rounds| - 1], rounds[|rounds| - 1];
      assert rounds == front + [round];
      GrownSnoc(history, front, round);
      GrownIsWellFormedIff(history, turns, active, front);
      NoRepeatsSnoc(front, round);
      if forall each <- front :: NoRepeatedId(each) {
        LastRound(turns[|front|], active, Grown(history, front), round);
      } else {
        BreaksEarly(history, turns, active, front, round);
      }
    }
  }

  lemma NoRepeatsSnoc(front: seq<seq<Message>>, round: seq<Message>)
    ensures (forall each <- front + [round] :: NoRepeatedId(each)) <==>
              (forall each <- front :: NoRepeatedId(each)) && NoRepeatedId(round)
  {
    assert forall each :: each in front + [round] <==> each in front || each == round;
  }

  lemma LastRound(turn: Turn, active: nat, before: seq<Message>, round: seq<Message>)
    requires Round(turn, active, round)
    ensures WellFormed(before) && NoRepeatedId(round) ==> WellFormed(before + round)
    ensures !NoRepeatedId(round) ==> !WellFormed(before + round)
  {
    if !NoRepeatedId(round) {
      RepeatedIdBreaksHistory(turn, active, before, round, []);
      assert before + round + [] == before + round;
    } else if WellFormed(before) {
      RoundIsUnit(turn, active, round);
      UnitWellFormed(round);
      WellFormedConcat(before, round);
    }
  }

  /** A repeated id earlier on is not mended by later rounds. */
  lemma {:induction false} BreaksEarly(
    history: seq<Message>, turns: seq<Turn>, active: nat, rounds: seq<seq<Message>>, tail: seq<Message>)
    requires Rounds(turns, active, rounds)
    ensures (exists round <- rounds :: !NoRepeatedId(round)) ==> !WellFormed(Grown(history, rounds) + tail)
  {
    if rounds != [] {
      var front, round := rounds[..|rounds| - 1], rounds[|rounds| - 1];
      assert rounds == front + [round];
      GrownSnoc(history, front, round);
      NoRepeatsSnoc(front, round);
      if !NoRepeatedId(round) {
        RepeatedIdBreaksHistory(turns[|front|], active, Grown(history, front), round, tail);
      } else {
        BreaksEarly(history, turns, active, front, round + tail);
        Regroup(Grown(history, front), round, tail);
      }
    }
  }

  /** A stream that gives one id to two of its calls. */
  function Repeating(id: string): seq<Delta> {
    [Delta("", "", [Fragment(0, id, "a", ""), Fragment(1, id, "b", "")])]
  }

  lemma RepeatingCalls(id: string)
    ensures Calls(Fragments(Repeating(id))) == [ToolCall(id, "a", ""), ToolCall(id, "b", "")]
    ensures Text(Repeating(id)) == ""
  {
    var f, g := Fragment(0, id, "a", ""), Fragment(1, id, "b", "");
    assert Fragments(Repeating(id)) == [f, g];
    ArrivalsSnoc([], f);
    ArrivalsSnoc([f], g);
    assert [] + [f] == [f] && [f] + [g] == [f, g];
    OwnFragmentsSnoc([], f);
    OwnFragmentsSnoc([f], g);
    var fragments := Fragments(Repeating(id));
    assert Arrivals(fragments) == [0, 1];
    assert Only(fragments, 0) == [f] && Only(fragments, 1) == [g];
    assert Assembled([f]) == ToolCall(id, "a", "") by { AssembledSnoc([], f); }
    assert Assembled([g]) == ToolCall(id, "b", "") by { AssembledSnoc([], g); }
  }

  /** A model that gives one id to two calls does break the history. */
  lemma RepeatedIdHappens(id: string, suffix: nat -> string, results: nat -> string)
    returns (turn: Turn, round: seq<Message>)
    requires id != ""
    ensures turn == Turn([Attempt(Repeating(id), Completed)], suffix, results)
    ensures Round(turn, 0, round) && !NoRepeatedId(round) && !WellFormed(round)
  {
    turn := Turn([Attempt(Repeating(id), Completed)], suffix, results);
    RepeatingCalls(id);
    var reply := AssistantMessage(Plain(""), [ToolCall(id, "a", ""), ToolCall(id, "b", "")]);
    RoundOf(turn, 0, reply);
    round := [reply] + ResultMessages(reply.toolCalls, results);
    assert round[0].toolCalls[0].id == round[0].toolCalls[1].id;
    RepeatedIdBreaksHistory(turn, 0, [], round, []);
    assert [] + round + [] == round;
  }
}
