/** One model call with fallback and streaming (agent/app/graph.py, call_llm_node). */
module ModelTurn {
  import opened Sequences
  import opened ToolHistory
  import opened ToolCallStream

  /** One streamed chunk; a chunk without choices has every field empty. */
  datatype Delta = Delta(reasoning: string, content: string, fragments: seq<Fragment>)

  /** How a stream ends: normally, or with an error that may or may not allow another model. */
  datatype Ending = Completed | Broke(retryable: bool)

  /** What one candidate model would do when asked. */
  datatype Attempt = Attempt(deltas: seq<Delta>, ending: Ending)

  /** What is sent: the two thought tags, pieces of text, and the placeholder. */
  datatype Emission = OpenThought | CloseThought | Thought(text: string) | Spoken(text: string) | Placeholder

  const PLACEHOLDER_TEXT := "（模型未返回正文，请重试或关闭思考模式后再试。）"

  datatype Reply =
    | Raised(emitted: seq<Emission>)
    | Replied(content: string, calls: seq<ToolCall>, activeIndex: nat, locked: bool, emitted: seq<Emission>)

  // ----- the reference: what a stream says, and where its tags go

  function Text(deltas: seq<Delta>): string {
    if deltas == [] then "" else deltas[0].content + Text(deltas[1..])
  }

  function ReasoningText(deltas: seq<Delta>): string {
    if deltas == [] then "" else deltas[0].reasoning + ReasoningText(deltas[1..])
  }

  function Fragments(deltas: seq<Delta>): seq<Fragment> {
    if deltas == [] then [] else deltas[0].fragments + Fragments(deltas[1..])
  }

  predicate SilentDelta(d: Delta) {
    d.reasoning == "" && d.content == "" && d.fragments == []
  }

  predicate Silent(deltas: seq<Delta>) {
    forall d <- deltas :: SilentDelta(d)
  }

  /** The untagged text pieces of one chunk. */
  function Pieces(d: Delta): seq<Emission> {
    (if d.reasoning != "" then [Thought(d.reasoning)] else [])
    + (if d.content != "" then [Spoken(d.content)] else [])
  }

  function AllPieces(deltas: seq<Delta>): seq<Emission> {
    if deltas == [] then [] else Pieces(deltas[0]) + AllPieces(deltas[1..])
  }

  datatype Phase = Before | Inside | After

  function NextPhase(phase: Phase, piece: Emission): Phase {
    if phase == Before && piece.Thought? then Inside
    else if phase == Inside && piece.Spoken? then After
    else phase
  }

  /** The thought tag opens before the first reasoning and closes before the next content. */
  function Tagged(phase: Phase, pieces: seq<Emission>): seq<Emission>
    decreases |pieces|
  {
    if pieces == [] then []
    else
      var next := NextPhase(phase, pieces[0]);
      Tag(phase, next) + [pieces[0]] + Tagged(next, pieces[1..])
  }

  function PhaseAfter(phase: Phase, pieces: seq<Emission>): Phase
    decreases |pieces|
  {
    if pieces == [] then phase else PhaseAfter(NextPhase(phase, pieces[0]), pieces[1..])
  }

  /** A tag still open when the stream ends is closed. */
  function Closed(phase: Phase, pieces: seq<Emission>): seq<Emission> {
    Tagged(phase, pieces) + (if PhaseAfter(phase, pieces) == Inside then [CloseThought] else [])
  }

  /** Everything a completed stream puts on the wire. */
  function Transcript(deltas: seq<Delta>): seq<Emission> {
    Closed(Before, AllPieces(deltas))
  }

  function Tag(phase: Phase, next: Phase): seq<Emission> {
    if next == phase then [] else if next == Inside then [OpenThought] else [CloseThought]
  }

  lemma {:induction false} TaggedConcat(phase: Phase, a: seq<Emission>, b: seq<Emission>)
    ensures Tagged(phase, a + b) == Tagged(phase, a) + Tagged(PhaseAfter(phase, a), b)
    ensures PhaseAfter(phase, a + b) == PhaseAfter(PhaseAfter(phase, a), b)
    decreases |a|
  {
    if a == [] {
      assert a + b == b;
    } else {
      assert (a + b)[1..] == a[1..] + b;
      var next := NextPhase(phase, a[0]);
      TaggedConcat(next, a[1..], b);
      var head := Tag(phase, next) + [a[0]];
      var tail := Tagged(PhaseAfter(phase, a), b);
      assert Tagged(phase, a + b) == head + (Tagged(next, a[1..]) + tail);
      assert Tagged(phase, a) == head + Tagged(next, a[1..]);
    }
  }

  lemma {:induction false} PiecesSnoc(deltas: seq<Delta>, d: Delta)
    ensures AllPieces(deltas + [d]) == AllPieces(deltas) + Pieces(d)
    ensures Text(deltas + [d]) == Text(deltas) + d.content
    ensures ReasoningText(deltas + [d]) == ReasoningText(deltas) + d.reasoning
    ensures Fragments(deltas + [d]) == Fragments(deltas) + d.fragments
  {
    if deltas != [] {
      assert (deltas + [d])[1..] == deltas[1..] + [d];
      PiecesSnoc(deltas[1..], d);
    }
  }

  lemma {:induction false} SilentSaysNothing(deltas: seq<Delta>)
    ensures Silent(deltas) <==> Text(deltas) == "" && ReasoningText(deltas) == "" && Fragments(deltas) == []
    ensures Silent(deltas) ==> AllPieces(deltas) == []
  {
    if deltas != [] {
      SilentSaysNothing(deltas[1..]);
      assert Silent(deltas) <==> SilentDelta(deltas[0]) && Silent(deltas[1..]) by {
        assert forall d :: d in deltas <==> d == deltas[0] || d in deltas[1..];
      }
      assert |Text(deltas)| == |deltas[0].content| + |Text(deltas[1..])|;
      assert |ReasoningText(deltas)| == |deltas[0].reasoning| + |ReasoningText(deltas[1..])|;
      assert |Fragments(deltas)| == |deltas[0].fragments| + |Fragments(deltas[1..])|;
    }
  }

  lemma SilentIff(deltas: seq<Delta>)
    ensures Silent(deltas) <==> Text(deltas) == "" && ReasoningText(deltas) == "" && Calls(Fragments(deltas)) == []
    ensures Silent(deltas) ==> AllPieces(deltas) == []
  {
    SilentSaysNothing(deltas);
    CallsEmptyIff(Fragments(deltas));
  }

  lemma CallsEmptyIff(fragments: seq<Fragment>)
    ensures Calls(fragments) == [] <==> fragments == []
  {
    if fragments != [] {
      ArrivedIff(fragments, fragments[0].index);
      assert Arrivals(fragments) != [];
    }
  }

  // ----- which candidate answers

  /** No reasoning, no content and no fragment of a call. */
  predicate ShowsNothing(attempt: Attempt) {
    forall k :: 0 <= k < |attempt.deltas| ==>
      var d := attempt.deltas[k]; |d.reasoning| == 0 && |d.content| == 0 && |d.fragments| == 0
  }

  /** These showed nothing and failed, if at all, in a way that allows another model; and no model was locked. */
  predicate PassedOver(attempts: seq<Attempt>, start: nat, active: nat, locked: bool) {
    && active <= |attempts|
    && forall j :: start <= j < active ==>
         !locked && ShowsNothing(attempts[j]) && attempts[j].ending != Broke(false)
  }

  /** This one is locked, or the last, or showed something, or failed in a way that allows no other model. */
  predicate Stays(attempts: seq<Attempt>, active: nat, locked: bool) {
    && active < |attempts|
    && (locked || active == |attempts| - 1 || !ShowsNothing(attempts[active])
        || attempts[active].ending == Broke(false))
  }

  lemma StaysIff(attempts: seq<Attempt>, active: nat, locked: bool)
    requires active < |attempts|
    ensures Stays(attempts, active, locked) <==> !FallsThrough(attempts, active, locked)
    ensures FallsThrough(attempts, active, locked) ==> PassedOver(attempts, active, active + 1, locked)
  {
    ShowsNothingIff(attempts[active]);
  }

  lemma ShowsNothingIff(attempt: Attempt)
    ensures ShowsNothing(attempt) <==> Silent(attempt.deltas)
  {
    assert forall k :: 0 <= k < |attempt.deltas| ==> attempt.deltas[k] in attempt.deltas;
  }

  /** The attempt showed nothing and may be handed to the next model. */
  predicate FallsThrough(attempts: seq<Attempt>, i: nat, locked: bool)
    requires i < |attempts|
  {
    && !locked
    && i + 1 < |attempts|
    && Silent(attempts[i].deltas)
    && (attempts[i].ending.Completed? || attempts[i].ending.retryable)
  }

  function Selected(attempts: seq<Attempt>, start: nat, locked: bool): (i: nat)
    requires start < |attempts|
    ensures start <= i < |attempts|
    ensures !FallsThrough(attempts, i, locked)
    ensures forall j :: start <= j < i ==> FallsThrough(attempts, j, locked)
    decreases |attempts| - start
  {
    if FallsThrough(attempts, start, locked) then Selected(attempts, start + 1, locked) else start
  }

  function ClampIndex(index: int, n: nat): (start: nat)
    requires n > 0
    ensures start < n
    ensures 0 <= index < n ==> start == index
    ensures index < 0 ==> start == 0
    ensures index >= n ==> start + 1 == n
  {
    if index < 0 then 0 else if index > n - 1 then n - 1 else index
  }

  /** Neither content nor a tool call. */
  predicate Blank(deltas: seq<Delta>) {
    Text(deltas) == "" && Calls(Fragments(deltas)) == []
  }

  /** The content and calls that one stream stands for; only missing ids are made up. */
  predicate Voices(deltas: seq<Delta>, suffix: nat -> string, content: string, calls: seq<ToolCall>) {
    var streamed := Calls(Fragments(deltas));
    && content == (if Blank(deltas) then PLACEHOLDER_TEXT else Text(deltas))
    && |calls| == |streamed|
    && (forall k :: 0 <= k < |calls| ==> calls[k] == WithId(streamed[k], suffix(k)))
  }

  /** What the node puts on the wire when this attempt answers or raises. */
  function Output(attempt: Attempt): seq<Emission> {
    Shown(attempt) + (if attempt.ending.Completed? && Blank(attempt.deltas) then [Placeholder] else [])
  }

  /** What an attempt puts on the wire by itself. */
  function Shown(attempt: Attempt): seq<Emission> {
    if attempt.ending.Broke? then Tagged(Before, AllPieces(attempt.deltas)) else Transcript(attempt.deltas)
  }

  // ----- the stream loop

  class StreamState {
    var text: string
    var reasoning: string
    var accumulator: Accumulator
    var reasoningStarted: bool
    var reasoningClosed: bool
    var activity: bool
    var emitted: seq<Emission>

    function CurrentPhase(): Phase
      reads this
    {
      if !reasoningStarted then Before else if !reasoningClosed then Inside else After
    }

    /** The text fields and the wire agree with a list of untagged pieces. */
    ghost predicate Sent(pieces: seq<Emission>)
      reads this
    {
      && (reasoningClosed ==> reasoningStarted)
      && CurrentPhase() == PhaseAfter(Before, pieces)
      && emitted == Tagged(Before, pieces)
    }

    ghost predicate Follows(deltas: seq<Delta>)
      reads this
    {
      && Sent(AllPieces(deltas))
      && text == Text(deltas)
      && reasoning == ReasoningText(deltas)
      && Tracks(accumulator, Fragments(deltas))
      && activity == !Silent(deltas)
    }

    constructor ()
      ensures Follows([])
    {
      text, reasoning, accumulator := "", "", NO_CALLS;
      reasoningStarted, reasoningClosed, activity, emitted := false, false, false, [];
    }

    method AddReasoning(piece: string, ghost before: seq<Emission>)
      requires Sent(before)
      modifies this`activity, this`reasoningStarted, this`reasoning, this`emitted
      ensures activity && reasoning == old(reasoning) + piece
      ensures Sent(before + [Thought(piece)])
    {
      TaggedConcat(Before, before, [Thought(piece)]);
      activity := true;
      if !reasoningStarted {
        reasoningStarted := true;
        emitted := emitted + [OpenThought];
      }
      reasoning := reasoning + piece;
      emitted := emitted + [Thought(piece)];
    }

    method AddContent(piece: string, ghost before: seq<Emission>)
      requires Sent(before)
      modifies this`activity, this`reasoningClosed, this`text, this`emitted
      ensures activity && text == old(text) + piece
      ensures Sent(before + [Emission.Spoken(piece)])
    {
      TaggedConcat(Before, before, [Emission.Spoken(piece)]);
      activity := true;
      if reasoningStarted && !reasoningClosed {
        reasoningClosed := true;
        emitted := emitted + [CloseThought];
      }
      text := text + piece;
      emitted := emitted + [Spoken(piece)];
    }

    method ReadText(d: Delta, ghost before: seq<Emission>)
      requires Sent(before)
      modifies this`activity, this`reasoningStarted, this`reasoning, this`reasoningClosed, this`text, this`emitted
      ensures Sent(before + Pieces(d))
      ensures text == old(text) + d.content && reasoning == old(reasoning) + d.reasoning
      ensures activity == (old(activity) || d.reasoning != "" || d.content != "")
    {
      ghost var thoughts := if d.reasoning != "" then [Thought(d.reasoning)] else [];
      if d.reasoning != "" {
        AddReasoning(d.reasoning, before);
      } else {
        assert before + [] == before;
      }
      if d.content != "" {
        AddContent(d.content, before + thoughts);
        assert before + Pieces(d) == before + thoughts + [Emission.Spoken(d.content)];
      } else {
        assert before + Pieces(d) == before + thoughts;
      }
    }

    method Read(d: Delta, ghost before: seq<Delta>)
      requires Follows(before)
      modifies this
      ensures Follows(before + [d])
    {
      PiecesSnoc(before, d);
      SilentSnoc(before, d);
      ReadText(d, AllPieces(before));
      if d.fragments != [] {
        activity := true;
        accumulator := Accumulate(accumulator, d.fragments, Fragments(before));
      } else {
        assert Fragments(before) + [] == Fragments(before);
      }
    }

    method ReadAll(deltas: seq<Delta>)
      requires Follows([])
      modifies this
      ensures Follows(deltas)
    {
      for i := 0 to |deltas|
        invariant Follows(deltas[..i])
      {
        assert deltas[..i + 1] == deltas[..i] + [deltas[i]];
        Read(deltas[i], deltas[..i]);
      }
      assert deltas[..|deltas|] == deltas;
    }

    method CloseThoughtTag(ghost deltas: seq<Delta>)
      requires Follows(deltas)
      modifies this
      ensures emitted == Transcript(deltas)
      ensures text == old(text) && reasoning == old(reasoning)
      ensures accumulator == old(accumulator) && activity == old(activity)
    {
      if reasoningStarted && !reasoningClosed {
        reasoningClosed := true;
        emitted := emitted + [CloseThought];
      }
    }
  }

  lemma SilentSnoc(before: seq<Delta>, d: Delta)
    ensures Silent(before + [d]) <==> Silent(before) && SilentDelta(d)
  {
    assert forall e :: e in before + [d] <==> e in before || e == d;
  }

  // ----- the node

  /** One attempt: what its stream gave before it ended. */
  method Attend(attempt: Attempt)
    returns (text: string, reasoning: string, pending: seq<ToolCall>, activity: bool, emitted: seq<Emission>)
    ensures text == Text(attempt.deltas) && reasoning == ReasoningText(attempt.deltas)
    ensures pending == Calls(Fragments(attempt.deltas))
    ensures activity == !Silent(attempt.deltas)
    ensures emitted == if attempt.ending.Broke? then Tagged(Before, AllPieces(attempt.deltas))
                       else Transcript(attempt.deltas)
  {
    var stream := new StreamState();
    stream.ReadAll(attempt.deltas);
    if attempt.ending.Completed? {
      stream.CloseThoughtTag(attempt.deltas);
    }
    ValuesAreCalls(stream.accumulator, Fragments(attempt.deltas));
    return stream.text, stream.reasoning, Values(stream.accumulator), stream.activity, stream.emitted;
  }

  /** The reply, or the error, and everything emitted come from this one attempt; a reply locks its model. */
  predicate ComesFrom(chosen: Attempt, suffix: nat -> string, active: nat, reply: Reply) {
    && (reply.Raised? <==> chosen.ending.Broke?)
    && reply.emitted == Output(chosen)
    && (reply.Replied? ==>
          && Voices(chosen.deltas, suffix, reply.content, reply.calls)
          && reply.activeIndex == active
          && reply.locked)
  }

  predicate Concluded(text: string, pending: seq<ToolCall>, emitted: seq<Emission>, active: nat, locked: bool,
                      suffix: nat -> string, reply: Reply) {
    && reply.Replied? && reply.activeIndex == active
    && reply.locked == (locked || reply.content != "")
    && (text == "" && pending == [] ==>
          reply.content == PLACEHOLDER_TEXT && reply.emitted == emitted + [Placeholder])
    && (!(text == "" && pending == []) ==> reply.content == text && reply.emitted == emitted)
    && |reply.calls| == |pending|
    && forall k :: 0 <= k < |pending| ==> reply.calls[k] == WithId(pending[k], suffix(k))
  }

  /** What a completed stream gave, or the placeholder for nothing at all. */
  predicate Drafted(deltas: seq<Delta>, text: string, pending: seq<ToolCall>, emitted: seq<Emission>) {
    || (text == Text(deltas) && pending == Calls(Fragments(deltas)) && emitted == Transcript(deltas))
    || (&& Silent(deltas) && text == PLACEHOLDER_TEXT && pending == []
        && emitted == Transcript(deltas) + [Placeholder])
  }

  lemma ConcludedComesFrom(attempt: Attempt, text: string, pending: seq<ToolCall>, emitted: seq<Emission>,
                           active: nat, locked: bool, suffix: nat -> string, reply: Reply)
    requires attempt.ending.Completed? && Drafted(attempt.deltas, text, pending, emitted)
    requires Concluded(text, pending, emitted, active, locked || !Silent(attempt.deltas), suffix, reply)
    ensures ComesFrom(attempt, suffix, active, reply)
  {
    SilentIff(attempt.deltas);
  }

  /** The reply: blank text gets the placeholder, calls get their ids, and the model is locked. */
  method Conclude(text: string, pending: seq<ToolCall>, emitted: seq<Emission>, active: nat, locked: bool,
                  suffix: nat -> string) returns (reply: Reply)
    ensures Concluded(text, pending, emitted, active, locked, suffix, reply)
  {
    var content, sent := text, emitted;
    if content == "" && pending == [] {
      content, sent := PLACEHOLDER_TEXT, sent + [Placeholder];
    }
    var calls := FillIds(pending, suffix);
    reply := Replied(content, calls, active, locked || content != "", sent);
  }

  /** One pass of the fallback loop: hand over to the next model, or give the answer. */
  method Try(attempts: seq<Attempt>, active: nat, locked: bool, suffix: nat -> string)
    returns (handOver: bool, reply: Reply)
    requires active < |attempts|
    ensures handOver == FallsThrough(attempts, active, locked)
    ensures handOver ==> reply.emitted == Shown(attempts[active])
    ensures !handOver ==> ComesFrom(attempts[active], suffix, active, reply)
  {
    var attempt := attempts[active];
    var text, reasoning, pending, activity, emitted := Attend(attempt);
    SilentIff(attempt.deltas);
    reply := Raised(emitted);
    var emptyStream := text == "" && reasoning == "" && pending == [];
    var retryable := if attempt.ending.Broke? then attempt.ending.retryable else true;
    if attempt.ending.Broke? || emptyStream {
      if !locked && !activity && retryable && active + 1 < |attempts| {
        return true, reply;
      }
      if attempt.ending.Broke? {
        return false, reply;
      }
      text, emitted, pending := PLACEHOLDER_TEXT, emitted + [Placeholder], [];
    }
    handOver := false;
    reply := Conclude(text, pending, emitted, active, locked || activity, suffix);
    ConcludedComesFrom(attempt, text, pending, emitted, active, locked, suffix, reply);
  }

  method CallModel(attempts: seq<Attempt>, index: int, locked: bool, suffix: nat -> string)
    returns (reply: Reply, switches: nat, wire: seq<Emission>)
    requires attempts != []
    ensures switches == Selected(attempts, ClampIndex(index, |attempts|), locked) - ClampIndex(index, |attempts|)
    ensures var active := Selected(attempts, ClampIndex(index, |attempts|), locked);
            ComesFrom(attempts[active], suffix, active, reply)
    // In terms of what the attempts did: who was passed over, and why the last one was not.
    ensures PassedOver(attempts, ClampIndex(index, |attempts|), ClampIndex(index, |attempts|) + switches, locked)
    ensures var active := ClampIndex(index, |attempts|) + switches;
            && Stays(attempts, active, locked)
            && (reply.Raised? <==> attempts[active].ending.Broke?)
            && (reply.Replied? ==> reply.activeIndex == active && reply.locked)
    // All that was put on the wire, by every attempt, is what belongs to the reply.
    ensures wire == reply.emitted
  {
    var active := ClampIndex(index, |attempts|);
    ghost var start, selected := active, Selected(attempts, active, locked);
    switches, wire := 0, [];
    while true
      invariant start <= active < |attempts| && switches == active - start
      invariant Selected(attempts, active, locked) == selected && wire == []
      invariant PassedOver(attempts, start, active, locked)
      decreases |attempts| - active
    {
      var handOver;
      handOver, reply := Try(attempts, active, locked, suffix);
      wire := wire + reply.emitted;
      StaysIff(attempts, active, locked);
      if !handOver {
        return;
      }
      FallbackIsInvisible(attempts, active, locked, active);
      active, switches := active + 1, switches + 1;
    }
  }

  // ----- consequences

  /** Every attempt that was passed over had put nothing on the wire, and no lock was set. */
  lemma FallbackIsInvisible(attempts: seq<Attempt>, start: nat, locked: bool, j: nat)
    requires start <= j < |attempts| && j < Selected(attempts, start, locked)
    ensures Tagged(Before, AllPieces(attempts[j].deltas)) == [] && Transcript(attempts[j].deltas) == []
    ensures !locked
  {
    assert FallsThrough(attempts, j, locked);
    SilentIff(attempts[j].deltas);
  }

  predicate Bare(pieces: seq<Emission>) {
    forall p <- pieces :: p.Thought? || p.Spoken?
  }

  lemma {:induction false} PiecesAreBare(deltas: seq<Delta>)
    ensures Bare(AllPieces(deltas))
  {
    if deltas != [] {
      PiecesAreBare(deltas[1..]);
    }
  }

  predicate AllSpoken(pieces: seq<Emission>) {
    forall p <- pieces :: p.Spoken?
  }

  predicate AllThought(pieces: seq<Emission>) {
    forall p <- pieces :: p.Thought?
  }

  /** Content, then one run of reasoning, then nothing or more starting with content. */
  ghost predicate Parts(lead: seq<Emission>, thoughts: seq<Emission>, rest: seq<Emission>) {
    && AllSpoken(lead)
    && AllThought(thoughts) && thoughts != []
    && (rest != [] ==> rest[0].Spoken?)
  }

  lemma {:induction false} SamePhase(phase: Phase, pieces: seq<Emission>)
    requires (phase == Before && AllSpoken(pieces)) || (phase == Inside && AllThought(pieces)) || phase == After
    ensures Tagged(phase, pieces) == pieces && PhaseAfter(phase, pieces) == phase
  {
    if pieces != [] {
      assert pieces[0] in pieces && pieces == [pieces[0]] + pieces[1..];
      assert NextPhase(phase, pieces[0]) == phase;
      SamePhase(phase, pieces[1..]);
    }
  }

  lemma OpensWithThoughts(thoughts: seq<Emission>)
    requires AllThought(thoughts) && thoughts != []
    ensures Tagged(Before, thoughts) == [OpenThought] + thoughts && PhaseAfter(Before, thoughts) == Inside
  {
    var first, later := thoughts[0], thoughts[1..];
    assert first in thoughts;
    SamePhase(Inside, later);
    assert NextPhase(Before, first) == Inside && Tag(Before, Inside) == [OpenThought];
    Regroup([OpenThought], [first], later);
    assert thoughts == [first] + later;
  }

  lemma ClosedConcat(phase: Phase, a: seq<Emission>, b: seq<Emission>)
    ensures Closed(phase, a + b) == Tagged(phase, a) + Closed(PhaseAfter(phase, a), b)
  {
    TaggedConcat(phase, a, b);
  }

  lemma ClosesBefore(rest: seq<Emission>)
    requires rest != [] ==> rest[0].Spoken?
    ensures Closed(Inside, rest) == [CloseThought] + rest
  {
    if rest != [] {
      assert rest == [rest[0]] + rest[1..];
      SamePhase(After, rest[1..]);
    }
  }

  lemma ClosedAfterLead(lead: seq<Emission>, tail: seq<Emission>)
    requires AllSpoken(lead)
    ensures Closed(Before, lead + tail) == lead + Closed(Before, tail)
  {
    SamePhase(Before, lead);
    ClosedConcat(Before, lead, tail);
  }

  lemma ClosedAfterThoughts(thoughts: seq<Emission>, rest: seq<Emission>)
    requires AllThought(thoughts) && thoughts != [] && (rest != [] ==> rest[0].Spoken?)
    ensures Closed(Before, thoughts + rest) == [OpenThought] + thoughts + ([CloseThought] + rest)
  {
    OpensWithThoughts(thoughts);
    ClosesBefore(rest);
    ClosedConcat(Before, thoughts, rest);
  }

  /** The tags stand around the run of reasoning, once each; what follows stays untagged. */
  lemma TagsAroundThoughts(lead: seq<Emission>, thoughts: seq<Emission>, rest: seq<Emission>)
    requires Parts(lead, thoughts, rest)
    ensures Closed(Before, lead + thoughts + rest) == lead + [OpenThought] + thoughts + [CloseThought] + rest
  {
    ClosedAfterLead(lead, thoughts + rest);
    ClosedAfterThoughts(thoughts, rest);
    assert lead + (thoughts + rest) == lead + thoughts + rest;
  }

  lemma {:induction false} SplitThoughts(pieces: seq<Emission>) returns (thoughts: seq<Emission>, rest: seq<Emission>)
    requires Bare(pieces)
    ensures pieces == thoughts + rest && AllThought(thoughts) && (rest != [] ==> rest[0].Spoken?)
    ensures pieces != [] && pieces[0].Thought? ==> thoughts != []
  {
    if pieces == [] || pieces[0].Spoken? {
      thoughts, rest := [], pieces;
    } else {
      thoughts, rest := SplitThoughts(pieces[1..]);
      thoughts := [pieces[0]] + thoughts;
    }
  }

  lemma {:induction false} SplitParts(pieces: seq<Emission>)
    returns (lead: seq<Emission>, thoughts: seq<Emission>, rest: seq<Emission>)
    requires Bare(pieces) && !AllSpoken(pieces)
    ensures pieces == lead + thoughts + rest && Parts(lead, thoughts, rest)
  {
    if pieces[0].Thought? {
      lead := [];
      thoughts, rest := SplitThoughts(pieces);
    } else {
      lead, thoughts, rest := SplitParts(pieces[1..]);
      lead := [pieces[0]] + lead;
    }
  }

  /** Some reasoning comes after content that itself comes after reasoning. */
  ghost predicate Resumes(pieces: seq<Emission>) {
    exists i, j, k :: 0 <= i < j < k < |pieces| && pieces[i].Thought? && pieces[j].Spoken? && pieces[k].Thought?
  }

  lemma ResumesIff(lead: seq<Emission>, thoughts: seq<Emission>, rest: seq<Emission>)
    requires Parts(lead, thoughts, rest)
    ensures Resumes(lead + thoughts + rest) <==> exists p <- rest :: p.Thought?
  {
    var pieces, b := lead + thoughts + rest, |lead| + |thoughts|;
    forall k | 0 <= k < |lead| ensures pieces[k].Spoken? {
      assert pieces[k] == lead[k];
    }
    forall k | |lead| <= k < b ensures pieces[k].Thought? {
      assert pieces[k] == thoughts[k - |lead|];
    }
    if p :| p in rest && p.Thought? {
      var k :| 0 <= k < |rest| && rest[k] == p;
      assert pieces[|lead|].Thought? && pieces[b].Spoken? && pieces[b + k].Thought?;
    }
    if Resumes(pieces) {
      var i, j, k :| 0 <= i < j < k < |pieces| && pieces[i].Thought? && pieces[j].Spoken? && pieces[k].Thought?;
      assert |lead| <= i && b <= j;
      assert rest[k - b].Thought?;
    }
  }

  /** What a completed stream looks like on the wire: without reasoning no tags, otherwise each tag
      once around the first run of reasoning. Reasoning is sent outside the tags exactly when it
      resumes after content. */
  lemma TranscriptShape(deltas: seq<Delta>)
    ensures AllSpoken(AllPieces(deltas)) ==> Transcript(deltas) == AllPieces(deltas)
    ensures !AllSpoken(AllPieces(deltas)) ==> exists lead, thoughts, rest ::
      && Parts(lead, thoughts, rest)
      && AllPieces(deltas) == lead + thoughts + rest
      && Transcript(deltas) == lead + [OpenThought] + thoughts + [CloseThought] + rest
      && ((exists p <- rest :: p.Thought?) <==> Resumes(AllPieces(deltas)))
  {
    PiecesAreBare(deltas);
    if AllSpoken(AllPieces(deltas)) {
      SamePhase(Before, AllPieces(deltas));
    } else {
      var lead, thoughts, rest := SplitParts(AllPieces(deltas));
      TagsAroundThoughts(lead, thoughts, rest);
      ResumesIff(lead, thoughts, rest);
    }
  }

  /** Reasoning, content and reasoning again: the second reasoning does go out behind the closing tag. */
  lemma ReasoningResumes(first: string, content: string, second: string)
    requires first != "" && content != "" && second != ""
    ensures var deltas := [Delta(first, "", []), Delta("", content, []), Delta(second, "", [])];
            && Resumes(AllPieces(deltas))
            && Transcript(deltas)
            == [OpenThought, Thought(first), CloseThought, Spoken(content), Thought(second)]
  {
    var a, b, c := Delta(first, "", []), Delta("", content, []), Delta(second, "", []);
    var x, y, z := Thought(first), Spoken(content), Thought(second);
    assert AllPieces([c]) == [z];
    assert [b, c][1..] == [c] && AllPieces([b, c]) == [y, z];
    assert [a, b, c][1..] == [b, c] && AllPieces([a, b, c]) == [x, y, z];
    assert [x, y, z][0].Thought? && [x, y, z][1].Spoken? && [x, y, z][2].Thought?;
    TagsAroundThoughts([], [x], [y, z]);
    assert [] + [x] + [y, z] == [x, y, z];
  }
}
