/** Stored messages and the protocol events that their parts tell (agent/app/prompt.py, translate_messages). */
module StoredParts {
  import opened Sequences
  import opened ToolHistory

  /** What rendering an attachment gives: nothing, a note, a note with an image, or an error. */
  datatype Attachment =
    | Ignored
    | Note(text: string)
    | Image(text: string, url: string)
    | Rejected(reason: string)

  /** One stored part; missing call fields are empty strings. */
  datatype Part =
    | TextPart(content: string)
    | AttachmentPart(outcome: Attachment)
    | ThoughtPart(content: string)
    | CallPart(id: string, tool: string, arguments: string, content: string)
    | ResultPart(id: string, tool: string, content: string)
    | OtherPart

  datatype Author = FromUser | FromAssistant | FromOther

  datatype StoredMessage = StoredMessage(author: Author, parts: seq<Part>)

  // ----- the parts of one message, read as protocol events

  /** Say ends an assistant turn (a no-op when empty), Answer is a tool result, UserTurn a user message. */
  datatype Event =
    | Say(content: seq<string>, calls: seq<ToolCall>)
    | Answer(id: string, name: string, text: string)
    | UserTurn(turn: Option<Content>)

  /** What the parts read so far have collected. */
  datatype Draft = Draft(content: seq<string>, images: seq<ContentItem>, calls: seq<ToolCall>)

  const EMPTY_DRAFT := Draft([], [], [])

  function Refusal(part: Part, author: Author): Option<string> {
    if part.AttachmentPart? && author == FromUser && part.outcome.Rejected? then Some(part.outcome.reason)
    else None
  }

  function AddPart(d: Draft, part: Part, author: Author): Draft {
    match part
    case TextPart(content) => d.(content := d.content + [content])
    case AttachmentPart(outcome) =>
      if author != FromUser then d
      else (match outcome
            case Note(text) => d.(content := d.content + [text])
            case Image(text, url) => d.(content := d.content + [text], images := d.images + [ImageItem(url)])
            case _ => d)
    case ThoughtPart(content) => d.(content := d.content + ["<thought>\n" + content + "\n</thought>"])
    case CallPart(id, tool, arguments, content) =>
      var call := ToolCall(id, tool, if arguments == "" then "{}" else arguments);
      var d := if id != "" && tool != "" then d.(calls := d.calls + [call]) else d;
      if content != "" then d.(content := d.content + [content]) else d
    case ResultPart(_, _, _) => d.(content := [], calls := [])
    case OtherPart => d
  }

  function PartEvents(d: Draft, part: Part): seq<Event> {
    if part.ResultPart? then [Say(d.content, d.calls), Answer(part.id, part.tool, part.content)] else []
  }

  function UserContent(d: Draft): Option<Content> {
    var text := Join("\n\n", d.content);
    if d.content == [] then None
    else if d.images != [] then Some(Items([TextItem(text)] + d.images))
    else Some(Plain(text))
  }

  function EndEvents(author: Author, d: Draft): seq<Event> {
    match author
    case FromAssistant => [Say(d.content, d.calls)]
    case FromUser => [UserTurn(UserContent(d))]
    case FromOther => []
  }

  function PartsEvents(author: Author, parts: seq<Part>, d: Draft): seq<Event>
    decreases |parts|
  {
    if parts == [] then EndEvents(author, d)
    else PartEvents(d, parts[0]) + PartsEvents(author, parts[1..], AddPart(d, parts[0], author))
  }

  function Events(stored: seq<StoredMessage>): seq<Event> {
    if stored == [] then []
    else PartsEvents(stored[0].author, stored[0].parts, EMPTY_DRAFT) + Events(stored[1..])
  }

  /** The part makes the translation refuse, for this reason. */
  predicate Refuses(stored: seq<StoredMessage>, i: nat, k: nat, reason: string) {
    && i < |stored| && k < |stored[i].parts| && stored[i].author == FromUser
    && stored[i].parts[k] == AttachmentPart(Rejected(reason))
  }

  predicate Earlier(i: nat, k: nat, j: nat, l: nat) {
    i < j || (i == j && k < l)
  }

  /** The first part that makes the translation refuse. */
  ghost predicate FirstToRefuse(stored: seq<StoredMessage>, i: nat, k: nat, reason: string) {
    && Refuses(stored, i, k, reason)
    && forall j: nat, l: nat, other: string :: Earlier(j, l, i, k) ==> !Refuses(stored, j, l, other)
  }

  ghost predicate NothingRefuses(stored: seq<StoredMessage>) {
    forall i: nat, k: nat, reason: string :: !Refuses(stored, i, k, reason)
  }

  function Refusals(author: Author, parts: seq<Part>): Option<string> {
    if parts == [] then None
    else if Refusal(parts[0], author).Some? then Refusal(parts[0], author)
    else Refusals(author, parts[1..])
  }

  function FirstRefusal(stored: seq<StoredMessage>): Option<string> {
    if stored == [] then None
    else if Refusals(stored[0].author, stored[0].parts).Some? then Refusals(stored[0].author, stored[0].parts)
    else FirstRefusal(stored[1..])
  }

  lemma {:induction false} FirstOfParts(author: Author, parts: seq<Part>) returns (k: nat)
    ensures k <= |parts| && (k < |parts| <==> Refusals(author, parts).Some?)
    ensures k < |parts| ==> author == FromUser && parts[k] == AttachmentPart(Rejected(Refusals(author, parts).value))
    ensures forall l :: 0 <= l < k ==> !(author == FromUser && parts[l].AttachmentPart? && parts[l].outcome.Rejected?)
  {
    k := 0;
    if parts != [] && Refusal(parts[0], author).None? {
      var rest := FirstOfParts(author, parts[1..]);
      k := rest + 1;
      assert forall l :: 0 < l < k ==> parts[l] == parts[1..][l - 1];
    }
  }

  /** A translation is refused exactly when some part refuses it, and for the reason of the first that does. */
  lemma {:induction false} FirstRefusalIs(stored: seq<StoredMessage>) returns (i: nat, k: nat)
    ensures FirstRefusal(stored).Some? ==> FirstToRefuse(stored, i, k, FirstRefusal(stored).value)
    ensures FirstRefusal(stored).None? ==> NothingRefuses(stored)
  {
    i, k := 0, 0;
    if stored != [] {
      var rest := stored[1..];
      k := FirstOfParts(stored[0].author, stored[0].parts);
      if k == |stored[0].parts| {
        var j, l := FirstRefusalIs(rest);
        i, k := j + 1, l;
        forall a: nat, b: nat, other: string | Refuses(stored, a, b, other)
          ensures a > 0 && Refuses(rest, a - 1, b, other)
        {
        }
      }
    }
  }

  predicate DraftOk(d: Draft) {
    forall call <- d.calls :: call.id != ""
  }

  /** Every declared call carries an id. */
  predicate EventOk(e: Event) {
    e.Say? ==> forall call <- e.calls :: call.id != ""
  }

  predicate EventsOk(events: seq<Event>) {
    forall e <- events :: EventOk(e)
  }

  lemma {:induction false} PartsEventsOk(author: Author, parts: seq<Part>, d: Draft)
    requires DraftOk(d)
    ensures EventsOk(PartsEvents(author, parts, d))
    decreases |parts|
  {
    if parts != [] {
      PartsEventsOk(author, parts[1..], AddPart(d, parts[0], author));
    }
  }

  lemma {:induction false} AllEventsOk(stored: seq<StoredMessage>)
    ensures EventsOk(Events(stored))
  {
    if stored != [] {
      PartsEventsOk(stored[0].author, stored[0].parts, EMPTY_DRAFT);
      AllEventsOk(stored[1..]);
    }
  }

  // ----- what one part gives

  /** The text that a part shows; attachments count in user messages only. */
  predicate ShowsText(author: Author, part: Part, text: string) {
    match part
    case TextPart(content) => text == content
    case ThoughtPart(content) => text == "<thought>\n" + content + "\n</thought>"
    case CallPart(_, _, _, content) => content != "" && text == content
    case AttachmentPart(Note(note)) => author == FromUser && text == note
    case AttachmentPart(Image(note, _)) => author == FromUser && text == note
    case _ => false
  }

  /** The image that a part attaches. */
  predicate ShowsImage(author: Author, part: Part, image: ContentItem) {
    author == FromUser && part.AttachmentPart? && part.outcome.Image? && image == ImageItem(part.outcome.url)
  }

  /** The call that a part declares: it has an id and a tool, and missing arguments are an empty object. */
  predicate Declares(part: Part, call: ToolCall) {
    && part.CallPart? && part.id != "" && part.tool != ""
    && call.id == part.id && call.name == part.tool
    && call.arguments == (if part.arguments == "" then "{}" else part.arguments)
  }

  // ----- what several parts give, in order

  /** Each value stands at its own place among the parts, in their order, and no value is left out. */
  ghost predicate PlacedAt<T(!new)>(parts: seq<Part>, gives: (Part, T) -> bool, values: seq<T>, places: seq<nat>) {
    && |places| == |values|
    && (forall i, j :: 0 <= i < j < |places| ==> places[i] < places[j])
    && (forall i :: 0 <= i < |places| ==> places[i] < |parts| && gives(parts[places[i]], values[i]))
    && (forall k, value :: 0 <= k < |parts| && gives(parts[k], value) ==> k in places)
  }

  /** What the parts give, in order. */
  ghost predicate InOrder<T(!new)>(parts: seq<Part>, gives: (Part, T) -> bool, values: seq<T>) {
    exists places :: PlacedAt(parts, gives, values, places)
  }

  function Text(author: Author): (Part, string) -> bool {
    (part, text) => ShowsText(author, part, text)
  }

  function Picture(author: Author): (Part, ContentItem) -> bool {
    (part, image) => ShowsImage(author, part, image)
  }

  function Call(): (Part, ToolCall) -> bool {
    (part, call) => Declares(part, call)
  }

  lemma NoneInOrder<T(!new)>(gives: (Part, T) -> bool)
    ensures InOrder([], gives, [])
  {
    assert PlacedAt([], gives, [], []);
  }

  lemma OneMore<T(!new)>(parts: seq<Part>, gives: (Part, T) -> bool, values: seq<T>, part: Part, value: T)
    requires InOrder(parts, gives, values) && gives(part, value)
    ensures InOrder(parts + [part], gives, values + [value])
  {
    var places :| PlacedAt(parts, gives, values, places);
    PlaceMore(parts, gives, values, places, part, value);
  }

  lemma PlaceMore<T(!new)>(
    parts: seq<Part>, gives: (Part, T) -> bool, values: seq<T>, places: seq<nat>, part: Part, value: T)
    requires PlacedAt(parts, gives, values, places) && gives(part, value)
    ensures PlacedAt(parts + [part], gives, values + [value], places + [|parts|])
  {
    var all, more: seq<nat> := parts + [part], places + [|parts|];
    assert more[|places|] == |parts|;
    forall k, other | 0 <= k < |all| && gives(all[k], other)
      ensures k in more
    {
      if k < |parts| {
        assert gives(parts[k], other);
        assert k in places;
      }
    }
  }

  lemma NoMore<T(!new)>(parts: seq<Part>, gives: (Part, T) -> bool, values: seq<T>, part: Part)
    requires InOrder(parts, gives, values) && forall value :: !gives(part, value)
    ensures InOrder(parts + [part], gives, values)
  {
    var places :| PlacedAt(parts, gives, values, places);
    assert PlacedAt(parts + [part], gives, values, places);
  }

  // ----- what a stored message tells

  /** The next result from part `start` on, or the end. */
  function NextResult(parts: seq<Part>, start: nat): (r: nat)
    requires start <= |parts|
    ensures start <= r <= |parts| && (r < |parts| ==> parts[r].ResultPart?)
    ensures forall k :: start <= k < r ==> !parts[k].ResultPart?
    decreases |parts| - start
  {
    if start == |parts| || parts[start].ResultPart? then start else NextResult(parts, start + 1)
  }

  /** The assistant turn of some parts: their texts, and the calls that they declare. */
  ghost predicate TellsTurn(author: Author, parts: seq<Part>, e: Event) {
    e.Say? && InOrder(parts, Text(author), e.content) && InOrder(parts, Call(), e.calls)
  }

  /** The user turn: the texts since the last result, and all images of the message. */
  ghost predicate TellsUserTurn(parts: seq<Part>, start: nat, e: Event)
    requires start <= |parts|
  {
    e.UserTurn?
    && exists texts, images ::
         && InOrder(parts[start..], Text(FromUser), texts) && InOrder(parts, Picture(FromUser), images)
         && e.turn == (if texts == [] then None
                       else if images == [] then Some(Plain(Join("\n\n", texts)))
                       else Some(Items([TextItem(Join("\n\n", texts))] + images)))
  }

  /** The turn before each result, the results with their ids, tools and texts, and the turn that ends the message. */
  ghost predicate Tells(m: StoredMessage, start: nat, events: seq<Event>)
    requires start <= |m.parts|
    decreases |m.parts| - start
  {
    var r := NextResult(m.parts, start);
    if r < |m.parts| then
      && |events| >= 2
      && TellsTurn(m.author, m.parts[start..r], events[0])
      && events[1] == Answer(m.parts[r].id, m.parts[r].tool, m.parts[r].content)
      && Tells(m, r + 1, events[2..])
    else
      match m.author
      case FromAssistant => |events| == 1 && TellsTurn(FromAssistant, m.parts[start..], events[0])
      case FromUser => |events| == 1 && TellsUserTurn(m.parts, start, events[0])
      case FromOther => events == []
  }

  ghost predicate TellsAll(stored: seq<StoredMessage>, events: seq<Event>) {
    if stored == [] then events == []
    else exists n :: 0 <= n <= |events| && Tells(stored[0], 0, events[..n]) && TellsAll(stored[1..], events[n..])
  }

  // ----- the draft keeps to it

  /** The draft holds what the parts from `start` to `k` show and declare, and the images of all parts before `k`. */
  ghost predicate DraftSo(m: StoredMessage, start: nat, k: nat, d: Draft) {
    && start <= k <= |m.parts|
    && InOrder(m.parts[start..k], Text(m.author), d.content)
    && InOrder(m.parts[start..k], Call(), d.calls)
    && InOrder(m.parts[..k], Picture(m.author), d.images)
  }

  lemma TextAdded(parts: seq<Part>, author: Author, d: Draft, part: Part)
    requires InOrder(parts, Text(author), d.content) && !part.ResultPart?
    ensures InOrder(parts + [part], Text(author), AddPart(d, part, author).content)
  {
    var content := AddPart(d, part, author).content;
    if |content| > |d.content| {
      OneMore(parts, Text(author), d.content, part, content[|d.content|]);
    } else {
      NoMore(parts, Text(author), d.content, part);
    }
  }

  lemma CallAdded(parts: seq<Part>, author: Author, d: Draft, part: Part)
    requires InOrder(parts, Call(), d.calls) && !part.ResultPart?
    ensures InOrder(parts + [part], Call(), AddPart(d, part, author).calls)
  {
    var calls := AddPart(d, part, author).calls;
    if |calls| > |d.calls| {
      OneMore(parts, Call(), d.calls, part, calls[|d.calls|]);
    } else {
      NoMore(parts, Call(), d.calls, part);
    }
  }

  lemma ImageAdded(parts: seq<Part>, author: Author, d: Draft, part: Part)
    requires InOrder(parts, Picture(author), d.images)
    ensures InOrder(parts + [part], Picture(author), AddPart(d, part, author).images)
  {
    var images := AddPart(d, part, author).images;
    if |images| > |d.images| {
      OneMore(parts, Picture(author), d.images, part, images[|d.images|]);
    } else {
      NoMore(parts, Picture(author), d.images, part);
    }
  }

  lemma DraftMore(m: StoredMessage, start: nat, k: nat, d: Draft)
    requires DraftSo(m, start, k, d) && k < |m.parts|
    ensures DraftSo(m, if m.parts[k].ResultPart? then k + 1 else start, k + 1, AddPart(d, m.parts[k], m.author))
  {
    var part := m.parts[k];
    assert m.parts[..k + 1] == m.parts[..k] + [part];
    ImageAdded(m.parts[..k], m.author, d, part);
    if part.ResultPart? {
      assert m.parts[k + 1..k + 1] == [];
      NoneInOrder(Text(m.author));
      NoneInOrder(Call());
    } else {
      assert m.parts[start..k + 1] == m.parts[start..k] + [part];
      TextAdded(m.parts[start..k], m.author, d, part);
      CallAdded(m.parts[start..k], m.author, d, part);
    }
  }

  lemma EndTells(m: StoredMessage, start: nat, d: Draft)
    requires DraftSo(m, start, |m.parts|, d) && NextResult(m.parts, start) == |m.parts|
    ensures Tells(m, start, EndEvents(m.author, d))
  {
    assert m.parts[start..|m.parts|] == m.parts[start..] && m.parts[..|m.parts|] == m.parts;
    if m.author == FromUser {
      assert TellsUserTurn(m.parts, start, UserTurn(UserContent(d)));
    }
  }

  lemma ResultTells(m: StoredMessage, start: nat, r: nat, d: Draft, later: seq<Event>)
    requires DraftSo(m, start, r, d) && r < |m.parts| && NextResult(m.parts, start) == r
    requires Tells(m, r + 1, later)
    ensures Tells(m, start, PartEvents(d, m.parts[r]) + later)
  {
    var events := PartEvents(d, m.parts[r]) + later;
    assert events[2..] == later;
  }

  lemma PartsEventsFrom(author: Author, parts: seq<Part>, k: nat, d: Draft)
    requires k < |parts|
    ensures PartsEvents(author, parts[k..], d)
         == PartEvents(d, parts[k]) + PartsEvents(author, parts[k + 1..], AddPart(d, parts[k], author))
  {
    assert parts[k..][1..] == parts[k + 1..];
  }

  lemma {:induction false} PartsTell(m: StoredMessage, start: nat, k: nat, d: Draft)
    requires DraftSo(m, start, k, d) && NextResult(m.parts, start) == NextResult(m.parts, k)
    ensures Tells(m, start, PartsEvents(m.author, m.parts[k..], d))
    decreases |m.parts| - k
  {
    if k == |m.parts| {
      EndTells(m, start, d);
    } else {
      var next := AddPart(d, m.parts[k], m.author);
      var later := PartsEvents(m.author, m.parts[k + 1..], next);
      DraftMore(m, start, k, d);
      PartsEventsFrom(m.author, m.parts, k, d);
      if m.parts[k].ResultPart? {
        PartsTell(m, k + 1, k + 1, next);
        ResultTells(m, start, k, d, later);
      } else {
        PartsTell(m, start, k + 1, next);
        assert PartEvents(d, m.parts[k]) + later == later;
      }
    }
  }

  /** The events are what the stored parts tell. */
  lemma {:induction false} EventsAreTold(stored: seq<StoredMessage>)
    ensures TellsAll(stored, Events(stored))
  {
    if stored != [] {
      var m, first, rest := stored[0], PartsEvents(stored[0].author, stored[0].parts, EMPTY_DRAFT), Events(stored[1..]);
      NoneInOrder(Text(m.author));
      NoneInOrder(Call());
      NoneInOrder(Picture(m.author));
      assert m.parts[0..0] == [] && m.parts[..0] == [] && m.parts[0..] == m.parts;
      PartsTell(m, 0, 0, EMPTY_DRAFT);
      EventsAreTold(stored[1..]);
      assert (first + rest)[..|first|] == first && (first + rest)[|first|..] == rest;
    }
  }
}
