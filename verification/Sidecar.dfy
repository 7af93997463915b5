/** The sidecar's receive loop and its concurrent runs, one await at a time (agent/app/main.py). */
module Sidecar {
  import opened Sequences

  datatype Kind = Delta | ToolRequest(id: string) | RunFinished | RunError | TitleUpdate

  /** A message put on the socket by a task. */
  datatype Sent = Sent(task: nat, kind: Kind)

  /** A future: waiting, holding a result, or cancelled. */
  datatype Cell = Waiting | Resolved(payload: string) | Cancelled

  /** A future together with the call that created it. */
  datatype Future = Future(owner: nat, id: string, cell: Cell)

  /** The await at which a task is suspended. A message named in a `...Send` point is on the socket. */
  datatype Point =
    | Created
    | Preparing
    | PrepareErrorSend
    | InGraph
    | ToolPrepare(id: string)
    | ToolSend(id: string, future: nat)
    | ToolWait(id: string, future: nat)
    | Embedding
    | FinishSend
    | Titling
    | TitleSend
    | CancelSend
    | ErrorSend
    | Done

  /** `lateCancel` records that a cancellation was raised inside the send of RUN_FINISHED. */
  datatype Task = Task(run: string, point: Point, cancelled: bool, lateCancel: bool)

  datatype Delivery = Delivery(task: nat, id: string, future: nat, payload: string)

  datatype State = State(
    tasks: seq<Task>,
    runTasks: map<string, nat>,
    pending: map<string, nat>,
    futures: seq<Future>,
    wire: seq<Sent>,
    delivered: seq<Delivery>,
    crashed: bool)

  const START := State([], map[], map[], [], [], [], false)

  /** What a running task does up to its next await; Break is an exception that nothing catches. */
  datatype Choice = Fail | Break | Stream | CallTool(id: string) | Embed | Finish | Title | Stop

  datatype Event =
    | RunRequest(run: string)
    | ToolResult(id: string, payload: string)
    | RunCancel(run: string)
    | Reap(task: nat)
    | Wake(task: nat, choice: Choice)

  // ----- steps

  function At(s: State, t: nat, point: Point): State
    requires t < |s.tasks|
  {
    s.(tasks := s.tasks[t := s.tasks[t].(point := point)])
  }

  function Send(s: State, t: nat, kind: Kind, point: Point): State
    requires t < |s.tasks|
  {
    At(s, t, point).(wire := s.wire + [Sent(t, kind)])
  }

  /** The graph runs on to its next await. */
  function InGraphNext(s: State, t: nat, choice: Choice): State
    requires t < |s.tasks|
  {
    match choice
    case Stream => Send(s, t, Delta, InGraph)
    case CallTool(id) => At(s, t, ToolPrepare(id))
    case Embed => At(s, t, Embedding)
    case Finish => Send(s, t, RunFinished, FinishSend)
    case _ => Send(s, t, RunError, ErrorSend)
  }

  /** A call's future is in the table; its request is not on the socket yet. */
  function Register(s: State, t: nat, id: string): State {
    s.(futures := s.futures + [Future(t, id, Waiting)], pending := s.pending[id := |s.futures|])
  }

  /** `finally` of execute_tool. */
  function Forget(s: State, id: string): State {
    s.(pending := s.pending - {id})
  }

  /** The awaited result is there: clean up and go on. */
  function Deliver(s: State, t: nat, id: string, future: nat, choice: Choice): State
    requires t < |s.tasks| && future < |s.futures| && s.futures[future].cell.Resolved?
  {
    var d := Delivery(t, id, future, s.futures[future].cell.payload);
    InGraphNext(Forget(s, id).(delivered := s.delivered + [d]), t, choice)
  }

  /** CancelledError raised at the await. */
  function Unwind(s: State, t: nat): State
    requires t < |s.tasks|
  {
    var s := s.(tasks := s.tasks[t := s.tasks[t].(cancelled := false)]);
    match s.tasks[t].point
    case InGraph => Send(s, t, RunError, CancelSend)
    case ToolPrepare(_) => Send(s, t, RunError, CancelSend)
    case ToolSend(id, _) => Send(Forget(s, id), t, RunError, CancelSend)
    case ToolWait(id, _) => Send(Forget(s, id), t, RunError, CancelSend)
    case Embedding => Send(s, t, RunError, CancelSend)
    case FinishSend =>
      Send(s.(tasks := s.tasks[t := s.tasks[t].(lateCancel := true)]), t, RunError, CancelSend)
    case _ => At(s, t, Done)
  }

  function Resume(s: State, t: nat, choice: Choice): State
    requires t < |s.tasks|
  {
    match s.tasks[t].point
    case Created => At(s, t, if choice.Break? then Done else Preparing)
    case Preparing =>
      if choice.Fail? then Send(s, t, RunError, PrepareErrorSend)
      else if choice.Break? then At(s, t, Done)
      else InGraphNext(s, t, choice)
    case InGraph => InGraphNext(s, t, choice)
    case ToolPrepare(id) => Send(Register(s, t, id), t, ToolRequest(id), ToolSend(id, |s.futures|))
    case ToolSend(id, future) =>
      if future < |s.futures| && s.futures[future].cell.Resolved? then Deliver(s, t, id, future, choice)
      else At(s, t, ToolWait(id, future))
    case ToolWait(id, future) =>
      if future < |s.futures| && s.futures[future].cell.Resolved? then Deliver(s, t, id, future, choice) else s
    case Embedding => Send(s, t, RunFinished, FinishSend)
    case FinishSend => if choice.Title? then At(s, t, Titling) else At(s, t, Done)
    case Titling => if choice.Title? then Send(s, t, TitleUpdate, TitleSend) else At(s, t, Done)
    case Done => s
    case _ => At(s, t, Done)
  }

  function Awaited(s: State, t: nat): Option<nat>
    requires t < |s.tasks|
  {
    if s.tasks[t].point.ToolWait? && s.tasks[t].point.future < |s.futures| then Some(s.tasks[t].point.future)
    else None
  }

  function CancelTask(s: State, t: nat): State
    requires t < |s.tasks|
  {
    if s.tasks[t].point.Done? then s
    else
      var marked := s.(tasks := s.tasks[t := s.tasks[t].(cancelled := true)]);
      var f := Awaited(s, t);
      if f.Some? && s.futures[f.value].cell.Waiting? then
        marked.(futures := s.futures[f.value := s.futures[f.value].(cell := Cancelled)])
      else marked
  }

  function Receive(s: State, id: string, payload: string): State {
    if id !in s.pending || s.pending[id] >= |s.futures| then s
    else
      var f := s.pending[id];
      if s.futures[f].cell.Waiting? then s.(futures := s.futures[f := s.futures[f].(cell := Resolved(payload))])
      else s.(crashed := true)
  }

  function Step(s: State, e: Event): State {
    if s.crashed then s
    else match e
      case RunRequest(run) =>
        s.(tasks := s.tasks + [Task(run, Created, false, false)], runTasks := s.runTasks[run := |s.tasks|])
      case ToolResult(id, payload) => Receive(s, id, payload)
      case RunCancel(run) =>
        if run in s.runTasks && s.runTasks[run] < |s.tasks| then CancelTask(s, s.runTasks[run]) else s
      case Reap(t) =>
        if t < |s.tasks| && s.tasks[t].point.Done? then s.(runTasks := s.runTasks - {s.tasks[t].run}) else s
      case Wake(t, choice) =>
        if t >= |s.tasks| then s
        else if s.tasks[t].cancelled && !s.tasks[t].point.Done? then Unwind(s, t)
        else Resume(s, t, choice)
  }

  function Run(s: State, events: seq<Event>): State
    decreases |events|
  {
    if events == [] then s else Run(Step(s, events[0]), events[1..])
  }

  // ----- terminal messages

  predicate Terminal(kind: Kind) {
    kind.RunFinished? || kind.RunError?
  }

  function Terminals(wire: seq<Sent>, t: nat): nat {
    if wire == [] then 0
    else Terminals(wire[..|wire| - 1], t)
         + (if wire[|wire| - 1].task == t && Terminal(wire[|wire| - 1].kind) then 1 else 0)
  }

  predicate HasFinished(wire: seq<Sent>, t: nat) {
    Sent(t, RunFinished) in wire
  }

  /** What the await at which a task stands says about the messages it has sent. */
  predicate SentAt(task: Task, terminals: nat, finished: bool) {
    match task.point
    case PrepareErrorSend => terminals == 1 && !task.lateCancel
    case ErrorSend => terminals == 1 && !task.lateCancel
    case FinishSend => terminals == 1 && finished && !task.lateCancel
    case Titling => terminals == 1 && finished && !task.lateCancel
    case TitleSend => terminals == 1 && finished && !task.lateCancel
    case CancelSend => terminals == if task.lateCancel then 2 else 1
    case Done => if task.lateCancel then terminals == 2 else terminals <= 1
    case _ => terminals == 0 && !task.lateCancel
  }

  ghost predicate TitlesFollow(wire: seq<Sent>) {
    forall j :: 0 <= j < |wire| && wire[j].kind.TitleUpdate? ==>
      exists i :: 0 <= i < j && wire[i] == Sent(wire[j].task, RunFinished)
  }

  ghost predicate WireOk(s: State) {
    && (forall m <- s.wire :: m.task < |s.tasks|)
    && (forall t :: 0 <= t < |s.tasks| ==> SentAt(s.tasks[t], Terminals(s.wire, t), HasFinished(s.wire, t)))
    && TitlesFollow(s.wire)
  }

  lemma TerminalsSnoc(wire: seq<Sent>, m: Sent, t: nat)
    ensures Terminals(wire + [m], t) == Terminals(wire, t) + (if m.task == t && Terminal(m.kind) then 1 else 0)
  {
    assert (wire + [m])[..|wire|] == wire;
  }

  lemma {:induction false} NoTerminals(wire: seq<Sent>, t: nat)
    requires forall m <- wire :: m.task != t
    ensures Terminals(wire, t) == 0
  {
    if wire != [] {
      assert wire[|wire| - 1] in wire;
      NoTerminals(wire[..|wire| - 1], t);
    }
  }

  /** A title update comes only after the task's own RUN_FINISHED. */
  lemma TitlesFollowMore(wire: seq<Sent>, t: nat, sent: seq<Sent>)
    requires TitlesFollow(wire) && |sent| <= 1 && forall m <- sent :: m.task == t
    requires forall m <- sent :: m.kind.TitleUpdate? ==> HasFinished(wire, t)
    ensures TitlesFollow(wire + sent)
  {
    var more := wire + sent;
    forall j | 0 <= j < |more| && more[j].kind.TitleUpdate?
      ensures exists i :: 0 <= i < j && more[i] == Sent(more[j].task, RunFinished)
    {
      if j < |wire| {
        var i :| 0 <= i < j && wire[i] == Sent(wire[j].task, RunFinished);
        assert more[i] == wire[i];
      } else {
        assert sent[0] in sent;
        var i :| 0 <= i < |wire| && wire[i] == Sent(t, RunFinished);
        assert more[i] == wire[i];
      }
    }
  }

  /** What one task sends is not on another's account. */
  lemma OthersSendNothing(wire: seq<Sent>, t: nat, sent: seq<Sent>, k: nat)
    requires |sent| <= 1 && k != t && forall m <- sent :: m.task == t
    ensures Terminals(wire + sent, k) == Terminals(wire, k) && HasFinished(wire + sent, k) == HasFinished(wire, k)
  {
    if sent == [] {
      assert wire + sent == wire;
    } else {
      assert sent == [sent[0]] && sent[0] in sent;
      TerminalsSnoc(wire, sent[0], k);
    }
  }

  /** A step of one task that keeps its own account keeps everybody's. */
  lemma OneTaskSends(s: State, t: nat, next: State, sent: seq<Sent>)
    requires WireOk(s) && t < |s.tasks|
    requires |next.tasks| == |s.tasks| && forall k :: 0 <= k < |s.tasks| && k != t ==> next.tasks[k] == s.tasks[k]
    requires |sent| <= 1 && next.wire == s.wire + sent && forall m <- sent :: m.task == t
    requires SentAt(next.tasks[t], Terminals(next.wire, t), HasFinished(next.wire, t))
    requires forall m <- sent :: m.kind.TitleUpdate? ==> HasFinished(s.wire, t)
    ensures WireOk(next)
  {
    forall k | 0 <= k < |s.tasks| && k != t
      ensures SentAt(next.tasks[k], Terminals(next.wire, k), HasFinished(next.wire, k))
    {
      OthersSendNothing(s.wire, t, sent, k);
    }
    TitlesFollowMore(s.wire, t, sent);
    assert forall m <- next.wire :: m in s.wire || m in sent;
  }

  lemma MoveKeepsWire(s: State, t: nat, next: State)
    requires WireOk(s) && t < |s.tasks|
    requires |next.tasks| == |s.tasks| && forall k :: 0 <= k < |s.tasks| && k != t ==> next.tasks[k] == s.tasks[k]
    requires next.wire == s.wire
    requires SentAt(next.tasks[t], Terminals(s.wire, t), HasFinished(s.wire, t))
    ensures WireOk(next)
  {
    OneTaskSends(s, t, next, []);
  }

  lemma SendKeepsWire(s: State, t: nat, kind: Kind, next: State)
    requires WireOk(s) && t < |s.tasks|
    requires |next.tasks| == |s.tasks| && forall k :: 0 <= k < |s.tasks| && k != t ==> next.tasks[k] == s.tasks[k]
    requires next.wire == s.wire + [Sent(t, kind)]
    requires SentAt(next.tasks[t], Terminals(s.wire, t) + (if Terminal(kind) then 1 else 0),
                    HasFinished(s.wire, t) || kind.RunFinished?)
    requires kind.TitleUpdate? ==> HasFinished(s.wire, t)
    ensures WireOk(next)
  {
    TerminalsSnoc(s.wire, Sent(t, kind), t);
    OneTaskSends(s, t, next, [Sent(t, kind)]);
  }

  lemma GraphKeepsWire(s: State, t: nat, choice: Choice)
    requires WireOk(s) && t < |s.tasks| && Terminals(s.wire, t) == 0 && !s.tasks[t].lateCancel
    ensures WireOk(InGraphNext(s, t, choice))
  {
    var next := InGraphNext(s, t, choice);
    match choice {
      case Stream => SendKeepsWire(s, t, Delta, next);
      case CallTool(id) => MoveKeepsWire(s, t, next);
      case Embed => MoveKeepsWire(s, t, next);
      case Finish => SendKeepsWire(s, t, RunFinished, next);
      case _ => SendKeepsWire(s, t, RunError, next);
    }
  }

  lemma DeliverKeepsWire(s: State, t: nat, id: string, future: nat, choice: Choice)
    requires WireOk(s) && t < |s.tasks| && Terminals(s.wire, t) == 0 && !s.tasks[t].lateCancel
    requires future < |s.futures| && s.futures[future].cell.Resolved?
    ensures WireOk(Deliver(s, t, id, future, choice))
  {
    var d := Delivery(t, id, future, s.futures[future].cell.payload);
    GraphKeepsWire(Forget(s, id).(delivered := s.delivered + [d]), t, choice);
  }

  lemma ResumeToolKeepsWire(s: State, t: nat, choice: Choice)
    requires WireOk(s) && t < |s.tasks|
    requires var p := s.tasks[t].point; p.ToolPrepare? || p.ToolSend? || p.ToolWait?
    ensures WireOk(Resume(s, t, choice))
  {
    var next, p := Resume(s, t, choice), s.tasks[t].point;
    if p.ToolPrepare? {
      SendKeepsWire(s, t, ToolRequest(p.id), next);
    } else if p.future < |s.futures| && s.futures[p.future].cell.Resolved? {
      DeliverKeepsWire(s, t, p.id, p.future, choice);
    } else if p.ToolSend? {
      MoveKeepsWire(s, t, next);
    }
  }

  lemma ResumeGraphKeepsWire(s: State, t: nat, choice: Choice)
    requires WireOk(s) && t < |s.tasks| && (s.tasks[t].point.Preparing? || s.tasks[t].point.InGraph?)
    ensures WireOk(Resume(s, t, choice))
  {
    if s.tasks[t].point.Preparing? && choice.Fail? {
      SendKeepsWire(s, t, RunError, Resume(s, t, choice));
    } else if s.tasks[t].point.Preparing? && choice.Break? {
      MoveKeepsWire(s, t, At(s, t, Done));
    } else {
      GraphKeepsWire(s, t, choice);
    }
  }

  /** The points at which neither a tool call nor the graph is concerned. */
  predicate Outside(p: Point) {
    !p.ToolPrepare? && !p.ToolSend? && !p.ToolWait? && !p.Preparing? && !p.InGraph?
  }

  lemma EndKeepsWire(s: State, t: nat)
    requires WireOk(s) && t < |s.tasks|
    ensures WireOk(At(s, t, Done))
  {
    MoveKeepsWire(s, t, At(s, t, Done));
  }

  lemma ResumeSilentlyKeepsWire(s: State, t: nat, choice: Choice)
    requires WireOk(s) && t < |s.tasks| && Outside(s.tasks[t].point)
    requires !s.tasks[t].point.Embedding? && !(s.tasks[t].point.Titling? && choice.Title?)
    ensures WireOk(Resume(s, t, choice))
  {
    var p := s.tasks[t].point;
    if p.Created? && !choice.Break? {
      MoveKeepsWire(s, t, At(s, t, Preparing));
    } else if p.FinishSend? && choice.Title? {
      MoveKeepsWire(s, t, At(s, t, Titling));
    } else if !p.Done? {
      EndKeepsWire(s, t);
    }
  }

  lemma ResumeOutsideKeepsWire(s: State, t: nat, choice: Choice)
    requires WireOk(s) && t < |s.tasks| && Outside(s.tasks[t].point)
    ensures WireOk(Resume(s, t, choice))
  {
    if s.tasks[t].point.Embedding? {
      SendKeepsWire(s, t, RunFinished, Send(s, t, RunFinished, FinishSend));
    } else if s.tasks[t].point.Titling? && choice.Title? {
      SendKeepsWire(s, t, TitleUpdate, Send(s, t, TitleUpdate, TitleSend));
    } else {
      ResumeSilentlyKeepsWire(s, t, choice);
    }
  }

  lemma ResumeKeepsWire(s: State, t: nat, choice: Choice)
    requires WireOk(s) && t < |s.tasks|
    ensures WireOk(Resume(s, t, choice))
  {
    if Outside(s.tasks[t].point) {
      ResumeOutsideKeepsWire(s, t, choice);
    } else if s.tasks[t].point.Preparing? || s.tasks[t].point.InGraph? {
      ResumeGraphKeepsWire(s, t, choice);
    } else {
      ResumeToolKeepsWire(s, t, choice);
    }
  }

  lemma UnwindKeepsWire(s: State, t: nat)
    requires WireOk(s) && t < |s.tasks| && !s.tasks[t].point.Done?
    ensures WireOk(Unwind(s, t))
  {
    if Reports(s.tasks[t].point) {
      ReportKeepsWire(s, t);
    } else {
      MoveKeepsWire(s, t, Unwind(s, t));
    }
  }

  /** The points at which a cancellation is reported. */
  predicate Reports(p: Point) {
    p.InGraph? || p.ToolPrepare? || p.ToolSend? || p.ToolWait? || p.Embedding? || p.FinishSend?
  }

  lemma ReportKeepsWire(s: State, t: nat)
    requires WireOk(s) && t < |s.tasks| && Reports(s.tasks[t].point)
    ensures WireOk(Unwind(s, t))
  {
    UnwindReports(s, t);
    assert SentAt(s.tasks[t], Terminals(s.wire, t), HasFinished(s.wire, t));
    SendKeepsWire(s, t, RunError, Unwind(s, t));
  }

  lemma UnwindReports(s: State, t: nat)
    requires t < |s.tasks| && Reports(s.tasks[t].point)
    ensures var next := Unwind(s, t);
      && next.wire == s.wire + [Sent(t, RunError)] && |next.tasks| == |s.tasks|
      && next.tasks[t].point.CancelSend?
      && next.tasks[t].lateCancel == (s.tasks[t].lateCancel || s.tasks[t].point.FinishSend?)
      && forall k :: 0 <= k < |s.tasks| && k != t ==> next.tasks[k] == s.tasks[k]
  {
    var p := s.tasks[t].point;
    var marked := s.(tasks := s.tasks[t := s.tasks[t].(cancelled := false)]);
    if p.ToolSend? || p.ToolWait? {
      assert Unwind(s, t) == Send(Forget(marked, p.id), t, RunError, CancelSend);
    } else if p.FinishSend? {
      assert Unwind(s, t)
          == Send(marked.(tasks := marked.tasks[t := marked.tasks[t].(lateCancel := true)]), t, RunError, CancelSend);
    } else {
      assert Unwind(s, t) == Send(marked, t, RunError, CancelSend);
    }
  }

  lemma StepKeepsWire(s: State, e: Event)
    requires WireOk(s)
    ensures WireOk(Step(s, e))
  {
    if !s.crashed {
      match e {
        case RunRequest(run) =>
          NoTerminals(s.wire, |s.tasks|);
        case RunCancel(run) =>
          if run in s.runTasks && s.runTasks[run] < |s.tasks| {
            MoveKeepsWire(s, s.runTasks[run], Step(s, e));
          }
        case Wake(t, choice) =>
          if t < |s.tasks| {
            if s.tasks[t].cancelled && !s.tasks[t].point.Done? {
              UnwindKeepsWire(s, t);
            } else {
              ResumeKeepsWire(s, t, choice);
            }
          }
        case _ =>
      }
    }
  }

  lemma {:induction false} RunKeepsWire(s: State, events: seq<Event>)
    requires WireOk(s)
    ensures WireOk(Run(s, events))
    decreases |events|
  {
    if events != [] {
      StepKeepsWire(s, events[0]);
      RunKeepsWire(Step(s, events[0]), events[1..]);
    }
  }

  /** Across every interleaving each run sends at most one of RUN_FINISHED and RUN_ERROR, unless a
      cancellation is raised inside the send of RUN_FINISHED itself: then exactly both. A title
      update always follows the run's own RUN_FINISHED. */
  lemma AtMostOneTerminalIff(events: seq<Event>, t: nat)
    requires t < |Run(START, events).tasks|
    ensures var s := Run(START, events);
            && Terminals(s.wire, t) <= 2
            && (Terminals(s.wire, t) <= 1 <==> !FinishCancelled(START, events, t))
            && TitlesFollow(s.wire)
  {
    RunKeepsWire(START, events);
    LateCancelIff(START, events, t);
  }

  lemma UnwindEnds(s: State, t: nat)
    requires WireOk(s) && t < |s.tasks| && !s.tasks[t].point.Done? && Unwind(s, t).tasks[t].point.Done?
    ensures Terminals(Unwind(s, t).wire, t) == 0 <==> s.tasks[t].point.Created? || s.tasks[t].point.Preparing?
  {
    assert SentAt(s.tasks[t], Terminals(s.wire, t), HasFinished(s.wire, t));
    assert Unwind(s, t).wire == s.wire;
  }

  /** An exception that nothing catches, before the graph is called. */
  predicate Breaks(task: Task, choice: Choice) {
    choice.Break? && (task.point.Created? || task.point.Preparing?)
  }

  /** A task that ends by itself has sent a terminal message, unless it breaks off. */
  lemma ResumeEnds(s: State, t: nat, choice: Choice)
    requires WireOk(s) && t < |s.tasks| && !s.tasks[t].point.Done?
    ensures var next := Resume(s, t, choice);
            && t < |next.tasks|
            && (next.tasks[t].point.Done? ==> (Terminals(next.wire, t) == 0 <==> Breaks(s.tasks[t], choice)))
  {
    assert SentAt(s.tasks[t], Terminals(s.wire, t), HasFinished(s.wire, t));
    if Breaks(s.tasks[t], choice) {
      assert Resume(s, t, choice) == At(s, t, Done);
    } else if Live(s.tasks[t]) || s.tasks[t].point.Preparing? || s.tasks[t].point.InGraph? {
      GoesOn(s, t, choice);
    }
  }

  lemma GoesOn(s: State, t: nat, choice: Choice)
    requires t < |s.tasks|
    requires Live(s.tasks[t]) || s.tasks[t].point.Preparing? || s.tasks[t].point.InGraph?
    requires !Breaks(s.tasks[t], choice)
    ensures var next := Resume(s, t, choice); t < |next.tasks| && !next.tasks[t].point.Done?
  {
    if Live(s.tasks[t]) {
      CallGoesOn(s, t, choice);
    } else {
      GraphGoesOn(s, t, choice);
    }
  }

  lemma CallGoesOn(s: State, t: nat, choice: Choice)
    requires t < |s.tasks| && Live(s.tasks[t])
    ensures var next := Resume(s, t, choice); t < |next.tasks| && !next.tasks[t].point.Done?
  {
    var p := s.tasks[t].point;
    if p.future < |s.futures| && s.futures[p.future].cell.Resolved? {
      var d := Delivery(t, p.id, p.future, s.futures[p.future].cell.payload);
      GraphGoesOn(Forget(s, p.id).(delivered := s.delivered + [d]), t, choice);
    }
  }

  lemma GraphGoesOn(s: State, t: nat, choice: Choice)
    requires t < |s.tasks|
    ensures var next := InGraphNext(s, t, choice); t < |next.tasks| && !next.tasks[t].point.Done?
  {
  }

  /** The step raises a cancellation inside the send of the run's RUN_FINISHED. */
  predicate CancelsFinish(s: State, e: Event, t: nat) {
    && !s.crashed && e.Wake? && e.task == t && t < |s.tasks|
    && s.tasks[t].cancelled && s.tasks[t].point.FinishSend?
  }

  /** Such a step is among the events. */
  predicate FinishCancelled(s: State, events: seq<Event>, t: nat)
    decreases |events|
  {
    events != [] && (CancelsFinish(s, events[0], t) || FinishCancelled(Step(s, events[0]), events[1..], t))
  }

  predicate IsLate(s: State, t: nat) {
    t < |s.tasks| && s.tasks[t].lateCancel
  }

  lemma GraphKeepsLate(s: State, w: nat, choice: Choice, t: nat)
    requires w < |s.tasks|
    ensures IsLate(InGraphNext(s, w, choice), t) == IsLate(s, t)
  {
  }

  lemma OutsideKeepsLate(s: State, w: nat, choice: Choice, t: nat)
    requires w < |s.tasks| && Outside(s.tasks[w].point)
    ensures IsLate(Resume(s, w, choice), t) == IsLate(s, t)
  {
  }

  lemma ResumeKeepsLate(s: State, w: nat, choice: Choice, t: nat)
    requires w < |s.tasks|
    ensures IsLate(Resume(s, w, choice), t) == IsLate(s, t)
  {
    var p := s.tasks[w].point;
    if Outside(p) {
      OutsideKeepsLate(s, w, choice, t);
    } else if Live(s.tasks[w]) {
      if p.future < |s.futures| && s.futures[p.future].cell.Resolved? {
        var d := Delivery(w, p.id, p.future, s.futures[p.future].cell.payload);
        GraphKeepsLate(Forget(s, p.id).(delivered := s.delivered + [d]), w, choice, t);
      }
    } else if !p.ToolPrepare? {
      GraphKeepsLate(s, w, choice, t);
    }
  }

  lemma UnwindMarksLate(s: State, w: nat, t: nat)
    requires w < |s.tasks|
    ensures IsLate(Unwind(s, w), t) == (IsLate(s, t) || (w == t && s.tasks[w].point.FinishSend?))
  {
    if Reports(s.tasks[w].point) {
      UnwindReports(s, w);
    }
  }

  lemma StepMarksLate(s: State, e: Event, t: nat)
    ensures IsLate(Step(s, e), t) == (IsLate(s, t) || CancelsFinish(s, e, t))
  {
    if !s.crashed && e.Wake? && e.task < |s.tasks| {
      if s.tasks[e.task].cancelled && !s.tasks[e.task].point.Done? {
        UnwindMarksLate(s, e.task, t);
      } else {
        ResumeKeepsLate(s, e.task, e.choice, t);
      }
    }
  }

  /** What `lateCancel` records is exactly that such a step was among the events. */
  lemma {:induction false} LateCancelIff(s: State, events: seq<Event>, t: nat)
    ensures IsLate(Run(s, events), t) <==> IsLate(s, t) || FinishCancelled(s, events, t)
    decreases |events|
  {
    if events != [] {
      StepMarksLate(s, events[0], t);
      LateCancelIff(Step(s, events[0]), events[1..], t);
    }
  }

  /** A task ends without any terminal message exactly when its cancellation is raised before the
      prompt is prepared, or it breaks off before it calls the graph. */
  lemma EndsSilentlyIff(s: State, t: nat, choice: Choice)
    requires WireOk(s) && !s.crashed && t < |s.tasks| && !s.tasks[t].point.Done?
    requires Step(s, Wake(t, choice)).tasks[t].point.Done?
    ensures Terminals(Step(s, Wake(t, choice)).wire, t) == 0
       <==> (s.tasks[t].point.Created? || s.tasks[t].point.Preparing?) && (s.tasks[t].cancelled || choice.Break?)
  {
    if s.tasks[t].cancelled {
      UnwindEnds(s, t);
    } else {
      ResumeEnds(s, t, choice);
    }
  }

  /** A cancellation or an uncaught exception during preparation does end a run with no message at all. */
  lemma SilentEndHappens(run: string)
    ensures var s := Run(START, [RunRequest(run), Wake(0, Stop), RunCancel(run), Wake(0, Stop)]);
            s.tasks == [Task(run, Done, false, false)] && s.wire == []
    ensures var s := Run(START, [RunRequest(run), Wake(0, Stop), Wake(0, Break)]);
            s.tasks == [Task(run, Done, false, false)] && s.wire == []
  {
    var e1, e2, e3, e4 := RunRequest(run), Wake(0, Stop), RunCancel(run), Wake(0, Stop);
    var s1 := Step(START, e1);
    var s2 := Step(s1, e2);
    var s3 := Step(s2, e3);
    var s4 := Step(s3, e4);
    assert [e1, e2, e3, e4][1..] == [e2, e3, e4] && [e2, e3, e4][1..] == [e3, e4] && [e3, e4][1..] == [e4];
    assert Run(START, [e1, e2, e3, e4]) == Run(s1, [e2, e3, e4]) == Run(s2, [e3, e4]) == Run(s3, [e4]) == s4;
    var e := Wake(0, Break);
    assert [e1, e2, e][1..] == [e2, e] && [e2, e][1..] == [e];
    assert Run(START, [e1, e2, e]) == Run(s1, [e2, e]) == Run(s2, [e]) == Step(s2, e);
  }

  // ----- tool results

  predicate Live(task: Task) {
    task.point.ToolSend? || task.point.ToolWait?
  }

  /** The task stands in a tool call whose future is `f`. */
  predicate Calls(s: State, t: nat, id: string, f: nat) {
    && t < |s.tasks| && f < |s.futures|
    && (s.tasks[t].point == ToolSend(id, f) || s.tasks[t].point == ToolWait(id, f))
  }

  /** Futures belong to their calls, registered futures to live calls, deliveries to their futures. */
  ghost predicate FuturesOk(s: State) {
    && (forall t :: 0 <= t < |s.tasks| && Live(s.tasks[t]) ==> CallOk(s, t))
    && (forall id <- s.pending :: EntryOk(s, id))
    && (forall d <- s.delivered :: DeliveryOk(s, d))
  }

  predicate CallOk(s: State, t: nat)
    requires t < |s.tasks| && Live(s.tasks[t])
  {
    var p := s.tasks[t].point;
    && p.future < |s.futures|
    && s.futures[p.future].owner == t
    && s.futures[p.future].id == p.id
    && (s.futures[p.future].cell.Cancelled? ==> s.tasks[t].cancelled && p.ToolWait?)
  }

  predicate EntryOk(s: State, id: string)
    requires id in s.pending
  {
    s.pending[id] < |s.futures| && Calls(s, s.futures[s.pending[id]].owner, id, s.pending[id])
  }

  predicate DeliveryOk(s: State, d: Delivery) {
    d.future < |s.futures| && s.futures[d.future] == Future(d.task, d.id, Resolved(d.payload))
  }

  lemma NonLiveMoveKeepsFutures(s: State, t: nat, next: State)
    requires FuturesOk(s) && t < |s.tasks| && |next.tasks| == |s.tasks| && !Live(next.tasks[t])
    requires forall k :: 0 <= k < |s.tasks| && k != t ==> next.tasks[k] == s.tasks[k]
    requires next.futures == s.futures
    requires next.pending == if Live(s.tasks[t]) then s.pending - {s.tasks[t].point.id} else s.pending
    requires forall d <- next.delivered :: DeliveryOk(s, d)
    ensures FuturesOk(next)
  {
    forall k | 0 <= k < |next.tasks| && Live(next.tasks[k]) ensures CallOk(next, k) {
      assert CallOk(s, k);
    }
    forall id | id in next.pending ensures EntryOk(next, id) {
      assert EntryOk(s, id);
    }
  }

  lemma GraphNextIsQuiet(s: State, t: nat, choice: Choice)
    requires t < |s.tasks|
    ensures var next := InGraphNext(s, t, choice);
      && next.futures == s.futures && next.pending == s.pending && next.delivered == s.delivered
      && |next.tasks| == |s.tasks| && !Live(next.tasks[t])
      && next.crashed == s.crashed
      && forall k :: 0 <= k < |s.tasks| && k != t ==> next.tasks[k] == s.tasks[k]
  {
  }

  /** A wake-up that leaves futures, registrations and deliveries alone. */
  lemma QuietResume(s: State, t: nat, choice: Choice)
    requires t < |s.tasks| && !Live(s.tasks[t]) && !s.tasks[t].point.ToolPrepare?
    ensures var next := Resume(s, t, choice);
      && next.futures == s.futures && next.pending == s.pending && next.delivered == s.delivered
      && |next.tasks| == |s.tasks| && !Live(next.tasks[t])
      && forall k :: 0 <= k < |s.tasks| && k != t ==> next.tasks[k] == s.tasks[k]
  {
    if Outside(s.tasks[t].point) {
      QuietOutside(s, t, choice);
    } else {
      GraphNextIsQuiet(s, t, choice);
    }
  }

  lemma QuietOutside(s: State, t: nat, choice: Choice)
    requires t < |s.tasks| && Outside(s.tasks[t].point)
    ensures var next := Resume(s, t, choice);
      && next.futures == s.futures && next.pending == s.pending && next.delivered == s.delivered
      && |next.tasks| == |s.tasks| && !Live(next.tasks[t])
      && forall k :: 0 <= k < |s.tasks| && k != t ==> next.tasks[k] == s.tasks[k]
  {
    var p := s.tasks[t].point;
    if p.Embedding? {
      assert Resume(s, t, choice) == Send(s, t, RunFinished, FinishSend);
    } else if p.Titling? && choice.Title? {
      assert Resume(s, t, choice) == Send(s, t, TitleUpdate, TitleSend);
    } else {
      QuietMove(s, t, choice);
    }
  }

  /** A wake-up that only moves the task, or does nothing. */
  lemma QuietMove(s: State, t: nat, choice: Choice)
    requires t < |s.tasks| && Outside(s.tasks[t].point)
    requires !s.tasks[t].point.Embedding? && !(s.tasks[t].point.Titling? && choice.Title?)
    ensures (s.tasks[t].point.Done? && Resume(s, t, choice) == s)
         || exists point :: Quiet(point) && Resume(s, t, choice) == At(s, t, point)
  {
    var p := s.tasks[t].point;
    if p.Created? && !choice.Break? {
      assert Resume(s, t, choice) == At(s, t, Preparing) && Quiet(Preparing);
    } else if p.FinishSend? && choice.Title? {
      assert Resume(s, t, choice) == At(s, t, Titling) && Quiet(Titling);
    } else if !p.Done? {
      assert Resume(s, t, choice) == At(s, t, Done) && Quiet(Done);
    }
  }

  predicate Quiet(p: Point) {
    p.Preparing? || p.Titling? || p.Done?
  }

  /** A wake-up whose result is there. */
  lemma DeliveringResume(s: State, t: nat, choice: Choice)
    requires t < |s.tasks| && Live(s.tasks[t])
    requires var f := s.tasks[t].point.future; f < |s.futures| && s.futures[f].cell.Resolved?
    ensures var next, p := Resume(s, t, choice), s.tasks[t].point;
      && next.futures == s.futures && next.pending == s.pending - {p.id}
      && next.delivered == s.delivered + [Delivery(t, p.id, p.future, s.futures[p.future].cell.payload)]
      && |next.tasks| == |s.tasks| && !Live(next.tasks[t])
      && forall k :: 0 <= k < |s.tasks| && k != t ==> next.tasks[k] == s.tasks[k]
  {
    var p := s.tasks[t].point;
    var d := Delivery(t, p.id, p.future, s.futures[p.future].cell.payload);
    GraphNextIsQuiet(Forget(s, p.id).(delivered := s.delivered + [d]), t, choice);
  }

  lemma DeliverKeepsFutures(s: State, t: nat, choice: Choice)
    requires FuturesOk(s) && t < |s.tasks| && Live(s.tasks[t])
    requires var f := s.tasks[t].point.future; f < |s.futures| && s.futures[f].cell.Resolved?
    ensures FuturesOk(Resume(s, t, choice))
  {
    assert CallOk(s, t);
    DeliveringResume(s, t, choice);
    NonLiveMoveKeepsFutures(s, t, Resume(s, t, choice));
  }

  lemma QuietResumeKeepsFutures(s: State, t: nat, choice: Choice)
    requires FuturesOk(s) && t < |s.tasks| && !Live(s.tasks[t]) && !s.tasks[t].point.ToolPrepare?
    ensures FuturesOk(Resume(s, t, choice))
  {
    QuietResume(s, t, choice);
    NonLiveMoveKeepsFutures(s, t, Resume(s, t, choice));
  }

  lemma RegisterKeepsFutures(s: State, t: nat, choice: Choice)
    requires FuturesOk(s) && t < |s.tasks| && s.tasks[t].point.ToolPrepare?
    ensures FuturesOk(Resume(s, t, choice))
  {
    var next, id := Resume(s, t, choice), s.tasks[t].point.id;
    forall k | 0 <= k < |next.tasks| && Live(next.tasks[k]) ensures CallOk(next, k) {
      if k != t {
        assert CallOk(s, k);
      }
    }
    forall key | key in next.pending ensures EntryOk(next, key) {
      if key != id {
        assert EntryOk(s, key);
      }
    }
    forall d | d in next.delivered ensures DeliveryOk(next, d) {
      assert DeliveryOk(s, d);
    }
  }

  lemma WaitKeepsFutures(s: State, t: nat, choice: Choice)
    requires FuturesOk(s) && t < |s.tasks| && Live(s.tasks[t])
    requires var f := s.tasks[t].point.future; f < |s.futures| && !s.futures[f].cell.Resolved?
    ensures FuturesOk(Resume(s, t, choice))
  {
    var next := Resume(s, t, choice);
    forall k | 0 <= k < |next.tasks| && Live(next.tasks[k]) ensures CallOk(next, k) {
      assert CallOk(s, k);
    }
    forall key | key in next.pending ensures EntryOk(next, key) {
      assert EntryOk(s, key);
    }
    forall d | d in next.delivered ensures DeliveryOk(next, d) {
      assert DeliveryOk(s, d);
    }
  }

  lemma ResumeKeepsFutures(s: State, t: nat, choice: Choice)
    requires FuturesOk(s) && t < |s.tasks|
    ensures FuturesOk(Resume(s, t, choice))
  {
    if s.tasks[t].point.ToolPrepare? {
      RegisterKeepsFutures(s, t, choice);
    } else if !Live(s.tasks[t]) {
      QuietResumeKeepsFutures(s, t, choice);
    } else {
      assert CallOk(s, t);
      if s.futures[s.tasks[t].point.future].cell.Resolved? {
        DeliverKeepsFutures(s, t, choice);
      } else {
        WaitKeepsFutures(s, t, choice);
      }
    }
  }

  lemma UnwindKeepsFutures(s: State, t: nat)
    requires FuturesOk(s) && t < |s.tasks|
    ensures FuturesOk(Unwind(s, t))
  {
    UnwindIsQuiet(s, t);
    NonLiveMoveKeepsFutures(s, t, Unwind(s, t));
  }

  /** A cancellation takes a call out of the table, and changes nothing else about futures and deliveries. */
  lemma UnwindIsQuiet(s: State, t: nat)
    requires t < |s.tasks|
    ensures var next := Unwind(s, t);
      && next.futures == s.futures && next.delivered == s.delivered
      && next.pending == (if Live(s.tasks[t]) then s.pending - {s.tasks[t].point.id} else s.pending)
      && |next.tasks| == |s.tasks| && !Live(next.tasks[t])
      && forall k :: 0 <= k < |s.tasks| && k != t ==> next.tasks[k] == s.tasks[k]
  {
    var marked := s.(tasks := s.tasks[t := s.tasks[t].(cancelled := false)]);
    match s.tasks[t].point {
      case ToolSend(id, _) => assert Unwind(s, t) == Send(Forget(marked, id), t, RunError, CancelSend);
      case ToolWait(id, _) => assert Unwind(s, t) == Send(Forget(marked, id), t, RunError, CancelSend);
      case _ =>
    }
  }

  lemma ReceiveKeepsFutures(s: State, id: string, payload: string)
    requires FuturesOk(s)
    ensures FuturesOk(Receive(s, id, payload))
  {
    var next := Receive(s, id, payload);
    if next.futures != s.futures {
      forall k | 0 <= k < |next.tasks| && Live(next.tasks[k]) ensures CallOk(next, k) {
        assert CallOk(s, k);
      }
      forall key | key in next.pending ensures EntryOk(next, key) {
        assert EntryOk(s, key);
      }
      forall d | d in next.delivered ensures DeliveryOk(next, d) {
        assert DeliveryOk(s, d);
      }
    }
  }

  lemma CancelKeepsCall(s: State, t: nat, k: nat)
    requires FuturesOk(s) && t < |s.tasks| && k < |s.tasks| && Live(s.tasks[k])
    ensures k < |CancelTask(s, t).tasks| && Live(CancelTask(s, t).tasks[k]) && CallOk(CancelTask(s, t), k)
  {
    assert CallOk(s, k);
    if Live(s.tasks[t]) {
      assert CallOk(s, t);
    }
  }

  lemma CancelKeepsFutures(s: State, t: nat)
    requires FuturesOk(s) && t < |s.tasks|
    ensures FuturesOk(CancelTask(s, t))
  {
    var next := CancelTask(s, t);
    forall k | 0 <= k < |next.tasks| && Live(next.tasks[k]) ensures CallOk(next, k) {
      CancelKeepsCall(s, t, k);
    }
    forall key | key in next.pending ensures EntryOk(next, key) {
      assert EntryOk(s, key);
    }
    forall d | d in next.delivered ensures DeliveryOk(next, d) {
      assert DeliveryOk(s, d);
    }
  }

  lemma NewTaskKeepsFutures(s: State, run: string)
    requires FuturesOk(s) && !s.crashed
    ensures FuturesOk(Step(s, RunRequest(run)))
  {
    var next := Step(s, RunRequest(run));
    forall k | 0 <= k < |next.tasks| && Live(next.tasks[k]) ensures CallOk(next, k) {
      assert CallOk(s, k);
    }
    forall key | key in next.pending ensures EntryOk(next, key) {
      assert EntryOk(s, key);
    }
  }

  lemma StepKeepsFutures(s: State, e: Event)
    requires FuturesOk(s)
    ensures FuturesOk(Step(s, e))
  {
    if !s.crashed {
      match e {
        case RunRequest(run) => NewTaskKeepsFutures(s, run);
        case ToolResult(id, payload) => ReceiveKeepsFutures(s, id, payload);
        case RunCancel(run) =>
          if run in s.runTasks && s.runTasks[run] < |s.tasks| {
            CancelKeepsFutures(s, s.runTasks[run]);
          }
        case Reap(t) => assert Step(s, e).tasks == s.tasks && Step(s, e).futures == s.futures;
        case Wake(t, choice) =>
          if t < |s.tasks| {
            if s.tasks[t].cancelled && !s.tasks[t].point.Done? {
              UnwindKeepsFutures(s, t);
            } else {
              ResumeKeepsFutures(s, t, choice);
            }
          }
      }
    }
  }

  lemma {:induction false} RunKeepsFutures(s: State, events: seq<Event>)
    requires FuturesOk(s)
    ensures FuturesOk(Run(s, events))
    decreases |events|
  {
    if events != [] {
      StepKeepsFutures(s, events[0]);
      RunKeepsFutures(Step(s, events[0]), events[1..]);
    }
  }

  // ----- which calls a result can reach

  /** Every live call is the one its id leads to. */
  ghost predicate Reachable(s: State) {
    forall t :: 0 <= t < |s.tasks| && Live(s.tasks[t]) ==>
      s.tasks[t].point.id in s.pending && s.pending[s.tasks[t].point.id] == s.tasks[t].point.future
  }

  /** The id that a step puts into `pending_futures`. */
  function Registers(s: State, e: Event): Option<string> {
    if !s.crashed && e.Wake? && e.task < |s.tasks| && !s.tasks[e.task].cancelled && s.tasks[e.task].point.ToolPrepare?
    then Some(s.tasks[e.task].point.id) else None
  }

  lemma OtherCallsKeepTheirIds(s: State, t: nat, k: nat)
    requires FuturesOk(s) && Reachable(s) && t < |s.tasks| && k < |s.tasks| && k != t
    requires Live(s.tasks[t]) && Live(s.tasks[k])
    ensures s.tasks[t].point.id != s.tasks[k].point.id
  {
    assert CallOk(s, t) && CallOk(s, k);
  }

  lemma NonLiveMoveKeepsReachable(s: State, t: nat, next: State)
    requires FuturesOk(s) && Reachable(s) && t < |s.tasks| && |next.tasks| == |s.tasks| && !Live(next.tasks[t])
    requires forall k :: 0 <= k < |s.tasks| && k != t ==> next.tasks[k] == s.tasks[k]
    requires next.pending == if Live(s.tasks[t]) then s.pending - {s.tasks[t].point.id} else s.pending
    ensures Reachable(next)
  {
    forall k | 0 <= k < |next.tasks| && Live(next.tasks[k])
      ensures next.tasks[k].point.id in next.pending
           && next.pending[next.tasks[k].point.id] == next.tasks[k].point.future
    {
      if Live(s.tasks[t]) {
        OtherCallsKeepTheirIds(s, t, k);
      }
    }
  }

  lemma LiveResumeKeepsReachable(s: State, t: nat, choice: Choice)
    requires FuturesOk(s) && Reachable(s) && t < |s.tasks| && Live(s.tasks[t])
    ensures Reachable(Resume(s, t, choice))
  {
    assert CallOk(s, t);
    if s.futures[s.tasks[t].point.future].cell.Resolved? {
      DeliveringResume(s, t, choice);
      NonLiveMoveKeepsReachable(s, t, Resume(s, t, choice));
    }
  }

  lemma UnwindKeepsReachable(s: State, t: nat)
    requires FuturesOk(s) && Reachable(s) && t < |s.tasks|
    ensures Reachable(Unwind(s, t))
  {
    UnwindIsQuiet(s, t);
    NonLiveMoveKeepsReachable(s, t, Unwind(s, t));
  }

  lemma WakeKeepsReachable(s: State, t: nat, choice: Choice)
    requires FuturesOk(s) && Reachable(s) && !s.crashed && t < |s.tasks|
    requires Registers(s, Wake(t, choice)).None?
    ensures Reachable(Step(s, Wake(t, choice)))
  {
    if s.tasks[t].cancelled && !s.tasks[t].point.Done? {
      UnwindKeepsReachable(s, t);
    } else if Live(s.tasks[t]) {
      LiveResumeKeepsReachable(s, t, choice);
    } else {
      QuietResume(s, t, choice);
      NonLiveMoveKeepsReachable(s, t, Resume(s, t, choice));
    }
  }

  /** Calls stay reachable through a step exactly when it does not register an id that is in flight. */
  lemma StepKeepsReachableIff(s: State, e: Event)
    requires FuturesOk(s) && Reachable(s)
    ensures Reachable(Step(s, e)) <==> (Registers(s, e).Some? ==> Registers(s, e).value !in s.pending)
  {
    var next := Step(s, e);
    if Registers(s, e).Some? {
      var id := Registers(s, e).value;
      if id in s.pending {
        assert EntryOk(s, id);
        var owner := s.futures[s.pending[id]].owner;
        assert owner != e.task && next.tasks[owner] == s.tasks[owner];
      } else {
        forall k | 0 <= k < |next.tasks| && Live(next.tasks[k])
          ensures next.tasks[k].point.id in next.pending
               && next.pending[next.tasks[k].point.id] == next.tasks[k].point.future
        {
          if k != e.task {
            assert next.tasks[k] == s.tasks[k];
          }
        }
      }
    } else if !s.crashed && e.Wake? && e.task < |s.tasks| {
      WakeKeepsReachable(s, e.task, e.choice);
    } else {
      forall k | 0 <= k < |next.tasks| && Live(next.tasks[k])
        ensures next.tasks[k].point.id in next.pending
             && next.pending[next.tasks[k].point.id] == next.tasks[k].point.future
      {
        assert k < |s.tasks| && s.tasks[k].point == next.tasks[k].point;
      }
    }
  }

  /** Ids in flight are distinct at every registration. */
  ghost predicate DistinctIds(s: State, events: seq<Event>)
    decreases |events|
  {
    events == [] ||
    (&& (Registers(s, events[0]).Some? ==> Registers(s, events[0]).value !in s.pending)
     && DistinctIds(Step(s, events[0]), events[1..]))
  }

  lemma {:induction false} RunKeepsReachable(s: State, events: seq<Event>)
    requires FuturesOk(s) && Reachable(s) && DistinctIds(s, events)
    ensures Reachable(Run(s, events)) && FuturesOk(Run(s, events))
    decreases |events|
  {
    if events != [] {
      StepKeepsFutures(s, events[0]);
      StepKeepsReachableIff(s, events[0]);
      RunKeepsReachable(Step(s, events[0]), events[1..]);
    }
  }

  /** A step leaves a call alone unless it wakes it or is the receive loop at work. */
  lemma ResolvedStays(s: State, e: Event, t: nat, id: string, f: nat, payload: string)
    requires Calls(s, t, id, f) && s.futures[f].cell == Resolved(payload)
    requires !(e.Wake? && e.task == t)
    ensures Calls(Step(s, e), t, id, f) && Step(s, e).futures[f].cell == Resolved(payload)
  {
    if !s.crashed && e.Wake? && e.task < |s.tasks| {
      var next := Step(s, e);
      if !(s.tasks[e.task].cancelled && !s.tasks[e.task].point.Done?) {
        WakeTouchesOneTask(s, e.task, e.choice, t, f);
      }
    }
  }

  lemma WakeTouchesOneTask(s: State, w: nat, choice: Choice, t: nat, f: nat)
    requires w < |s.tasks| && t < |s.tasks| && w != t && f < |s.futures|
    ensures var next := Resume(s, w, choice);
            |next.tasks| == |s.tasks| && next.tasks[t] == s.tasks[t]
            && |s.futures| <= |next.futures| && next.futures[f] == s.futures[f]
  {
    if !Live(s.tasks[w]) && !s.tasks[w].point.ToolPrepare? {
      QuietResume(s, w, choice);
    } else if Live(s.tasks[w]) {
      var g := s.tasks[w].point.future;
      if g < |s.futures| && s.futures[g].cell.Resolved? {
        DeliveringResume(s, w, choice);
      }
    }
  }

  lemma {:induction false} ResolvedStaysLong(s: State, events: seq<Event>, t: nat, id: string, f: nat, payload: string)
    requires Calls(s, t, id, f) && s.futures[f].cell == Resolved(payload)
    requires forall e <- events :: !(e.Wake? && e.task == t)
    ensures Calls(Run(s, events), t, id, f) && Run(s, events).futures[f].cell == Resolved(payload)
    decreases |events|
  {
    if events != [] {
      assert events[0] in events;
      ResolvedStays(s, events[0], t, id, f, payload);
      ResolvedStaysLong(Step(s, events[0]), events[1..], t, id, f, payload);
    }
  }

  /** In any run with distinct ids in flight, a result reaches the call that registered its id, even
      when it arrives while that call is still sending its request: whatever happens meanwhile, unless
      the run is cancelled the call's next wake-up returns exactly that payload. */
  lemma ResultReachesItsCall(
    before: seq<Event>, t: nat, id: string, f: nat, payload: string, between: seq<Event>, choice: Choice)
    requires DistinctIds(START, before) && Calls(Run(START, before), t, id, f)
    requires Run(START, before).futures[f].cell.Waiting? && !Run(START, before).crashed
    requires forall e <- between :: !(e.Wake? && e.task == t)
    ensures
      var s := Run(Step(Run(START, before), ToolResult(id, payload)), between);
      && t < |s.tasks|
      && (!s.crashed && !s.tasks[t].cancelled ==>
            Step(s, Wake(t, choice)).delivered == s.delivered + [Delivery(t, id, f, payload)])
  {
    RunKeepsReachable(START, before);
    ResultIsStored(Run(START, before), t, id, f, payload);
    StoredIsDelivered(Step(Run(START, before), ToolResult(id, payload)), between, t, id, f, payload, choice);
  }

  lemma StoredIsDelivered(
    s: State, between: seq<Event>, t: nat, id: string, f: nat, payload: string, choice: Choice)
    requires Calls(s, t, id, f) && s.futures[f].cell == Resolved(payload)
    requires forall e <- between :: !(e.Wake? && e.task == t)
    ensures
      var last := Run(s, between);
      && t < |last.tasks|
      && (!last.crashed && !last.tasks[t].cancelled ==>
            Step(last, Wake(t, choice)).delivered == last.delivered + [Delivery(t, id, f, payload)])
  {
    ResolvedStaysLong(s, between, t, id, f, payload);
    DeliveringResume(Run(s, between), t, choice);
  }

  /** The receive loop stores a result in the future of the live call with its id. */
  lemma ResultIsStored(s: State, t: nat, id: string, f: nat, payload: string)
    requires FuturesOk(s) && Reachable(s) && !s.crashed
    requires Calls(s, t, id, f) && s.futures[f].cell.Waiting?
    ensures var next := Step(s, ToolResult(id, payload));
            Calls(next, t, id, f) && next.futures[f].cell == Resolved(payload)
  {
    assert Live(s.tasks[t]) && CallOk(s, t);
  }

  /** Whatever a call is given was sent to its own id and stored in its own future. */
  lemma DeliveriesAreOwn(events: seq<Event>, d: Delivery)
    requires d in Run(START, events).delivered
    ensures d.future < |Run(START, events).futures|
    ensures Run(START, events).futures[d.future] == Future(d.task, d.id, Resolved(d.payload))
  {
    RunKeepsFutures(START, events);
    assert DeliveryOk(Run(START, events), d);
  }

  /** The receive loop dies on a tool result exactly when the result is the second one for a live
      call, or comes between a call's cancellation and its clean-up. */
  lemma CrashIff(events: seq<Event>, id: string, payload: string)
    requires !Run(START, events).crashed
    ensures
      var s := Run(START, events);
      Step(s, ToolResult(id, payload)).crashed <==>
        exists t: nat, f: nat ::
          && Calls(s, t, id, f)
          && id in s.pending && s.pending[id] == f
          && (s.futures[f].cell.Resolved? || (s.tasks[t].cancelled && s.futures[f].cell.Cancelled?))
  {
    RunKeepsFutures(START, events);
    var s := Run(START, events);
    if id in s.pending {
      assert EntryOk(s, id);
      var f := s.pending[id];
      var t := s.futures[f].owner;
      assert Calls(s, t, id, f);
      assert CallOk(s, t);
    }
  }

  // ----- what a repeated id does

  ghost predicate Unregistered(s: State, f: nat) {
    && f < |s.futures| && !s.futures[f].cell.Resolved?
    && forall id <- s.pending :: s.pending[id] != f
  }

  lemma UnregisteredStays(s: State, e: Event, f: nat)
    requires Unregistered(s, f)
    ensures Unregistered(Step(s, e), f)
  {
    if !s.crashed && e.Wake? && e.task < |s.tasks| && !(s.tasks[e.task].cancelled && !s.tasks[e.task].point.Done?) {
      if !Live(s.tasks[e.task]) && !s.tasks[e.task].point.ToolPrepare? {
        QuietResume(s, e.task, e.choice);
      } else if Live(s.tasks[e.task]) {
        var g := s.tasks[e.task].point.future;
        if g < |s.futures| && s.futures[g].cell.Resolved? {
          DeliveringResume(s, e.task, e.choice);
        }
      }
    }
  }

  lemma {:induction false} UnregisteredForever(s: State, events: seq<Event>, f: nat)
    requires Unregistered(s, f)
    ensures Unregistered(Run(s, events), f)
    decreases |events|
  {
    if events != [] {
      UnregisteredStays(s, events[0], f);
      UnregisteredForever(Step(s, events[0]), events[1..], f);
    }
  }

  /** The id of the call that the step takes out of the table, with its result or by its cancellation. */
  function Leaves(s: State, e: Event): Option<string> {
    if !s.crashed && e.Wake? && e.task < |s.tasks| && Live(s.tasks[e.task])
       && (s.tasks[e.task].cancelled
           || (s.tasks[e.task].point.future < |s.futures| && s.futures[s.tasks[e.task].point.future].cell.Resolved?))
    then Some(s.tasks[e.task].point.id) else None
  }

  /** A call in flight is waiting for a result that the table leads to. */
  predicate Expects(s: State, t: nat, id: string, f: nat) {
    Calls(s, t, id, f) && !s.futures[f].cell.Resolved? && id in s.pending && s.pending[id] == f
  }

  lemma LeavingPops(s: State, e: Event)
    requires Leaves(s, e).Some?
    ensures Step(s, e).futures == s.futures && Step(s, e).pending == s.pending - {Leaves(s, e).value}
    ensures !Live(Step(s, e).tasks[e.task])
  {
    if s.tasks[e.task].cancelled {
      UnwindReports(s, e.task);
    } else {
      DeliveringResume(s, e.task, e.choice);
    }
  }

  /** No other step takes an entry away. */
  lemma EntriesStay(s: State, e: Event, id: string)
    requires id in s.pending && Registers(s, e) != Some(id) && Leaves(s, e) != Some(id)
    ensures id in Step(s, e).pending && Step(s, e).pending[id] == s.pending[id]
  {
    if Leaves(s, e).Some? {
      LeavingPops(s, e);
    } else if !s.crashed && e.Wake? && e.task < |s.tasks| {
      WakeKeepsEntries(s, e.task, e.choice);
    }
  }

  lemma WakeKeepsEntries(s: State, t: nat, choice: Choice)
    requires !s.crashed && t < |s.tasks| && Leaves(s, Wake(t, choice)).None?
    ensures forall id <- s.pending :: Registers(s, Wake(t, choice)) != Some(id) ==>
              id in Step(s, Wake(t, choice)).pending && Step(s, Wake(t, choice)).pending[id] == s.pending[id]
  {
    if s.tasks[t].cancelled {
    } else if !Live(s.tasks[t]) && !s.tasks[t].point.ToolPrepare? {
      QuietResume(s, t, choice);
    }
  }

  lemma EntryGone(s: State, e: Event, t: nat, id: string, f: nat)
    requires FuturesOk(s) && Expects(s, t, id, f) && (Registers(s, e) == Some(id) || Leaves(s, e) == Some(id))
    ensures Unregistered(Step(s, e), f)
  {
    if Leaves(s, e).Some? {
      LeavingPops(s, e);
    }
    forall key | key in s.pending && key != id
      ensures s.pending[key] != f
    {
      assert EntryOk(s, key) && EntryOk(s, id);
    }
  }

  /**
   * While a call in flight expects its result, a step strands it exactly when it registers the call's id once more, or
   * takes another call under that id out of the table; and then it is stranded for good, whatever happens.
   */
  lemma StrandedIff(before: seq<Event>, e: Event, t: nat, id: string, f: nat, later: seq<Event>)
    requires Expects(Run(START, before), t, id, f) && Calls(Step(Run(START, before), e), t, id, f)
    ensures
      var s := Run(START, before);
      var strands := Registers(s, e) == Some(id) || Leaves(s, e) == Some(id);
      && (Unregistered(Step(s, e), f) <==> strands)
      && (strands ==> Unregistered(Run(Step(s, e), later), f))
  {
    var s := Run(START, before);
    RunKeepsFutures(START, before);
    if Registers(s, e) == Some(id) || Leaves(s, e) == Some(id) {
      EntryGone(s, e, t, id, f);
      UnregisteredForever(Step(s, e), later, f);
    } else {
      EntriesStay(s, e, id);
    }
  }

  lemma {:induction false} ResolvedForever(s: State, events: seq<Event>, f: nat)
    requires f < |s.futures| && s.futures[f].cell.Resolved?
    ensures f < |Run(s, events).futures| && Run(s, events).futures[f].cell.Resolved?
    decreases |events|
  {
    if events != [] {
      ResolvedStaysSo(s, events[0], f);
      ResolvedForever(Step(s, events[0]), events[1..], f);
    }
  }

  lemma ResolvedStaysSo(s: State, e: Event, f: nat)
    requires f < |s.futures| && s.futures[f].cell.Resolved?
    ensures f < |Step(s, e).futures| && Step(s, e).futures[f].cell.Resolved?
  {
    if Leaves(s, e).Some? {
      LeavingPops(s, e);
    } else if !s.crashed && e.Wake? && e.task < |s.tasks| && !s.tasks[e.task].cancelled {
      if !Live(s.tasks[e.task]) && !s.tasks[e.task].point.ToolPrepare? {
        QuietResume(s, e.task, e.choice);
      }
    }
  }

  /**
   * Two calls in flight under one id: registering the second strands the first for good exactly when the first has not
   * got its result by then.
   */
  lemma RepeatedIdStrandsTheFirstIff(before: seq<Event>, e: Event, id: string, later: seq<Event>)
    requires var s := Run(START, before); Registers(s, e) == Some(id) && id in s.pending
    ensures
      var s := Run(START, before);
      var f := s.pending[id];
      && f < |s.futures| && Calls(s, s.futures[f].owner, id, f)
      && (Unregistered(Run(Step(s, e), later), f) <==> !s.futures[f].cell.Resolved?)
  {
    RunKeepsFutures(START, before);
    var s := Run(START, before);
    var f := s.pending[id];
    assert EntryOk(s, id);
    if s.futures[f].cell.Resolved? {
      ResolvedForever(s, [e] + later, f);
      assert ([e] + later)[1..] == later;
    } else {
      EntryGone(s, e, s.futures[f].owner, id, f);
      UnregisteredForever(Step(s, e), later, f);
    }
  }

  /**
   * Two calls in flight under one id: when the first has its result, or is cancelled, its clean-up takes the second's
   * entry away, and if the second's result has not come by then, it never will.
   */
  lemma RepeatedIdStrandsTheSecond(
    before: seq<Event>, first: nat, f: nat, second: nat, g: nat, id: string, choice: Choice, later: seq<Event>)
    requires var s := Run(START, before);
             && !s.crashed && first != second && Calls(s, first, id, f) && Expects(s, second, id, g)
             && (s.futures[f].cell.Resolved? || s.tasks[first].cancelled)
    ensures
      var s := Run(START, before);
      var next := Step(s, Wake(first, choice));
      Calls(next, second, id, g) && Unregistered(Run(next, later), g)
  {
    var s := Run(START, before);
    var e := Wake(first, choice);
    LeavingMovesOne(s, e, second);
    StrandedIff(before, e, second, id, g, later);
  }

  lemma LeavingMovesOne(s: State, e: Event, k: nat)
    requires Leaves(s, e).Some? && k < |s.tasks| && k != e.task
    ensures |Step(s, e).tasks| == |s.tasks| && Step(s, e).tasks[k] == s.tasks[k] && Step(s, e).futures == s.futures
  {
    if s.tasks[e.task].cancelled {
      UnwindReports(s, e.task);
    } else {
      DeliveringResume(s, e.task, e.choice);
    }
  }

  // ----- what is sent, and when

  /** A woken task goes on in the graph: it is called, it went on after a send, or a call has its result. */
  predicate AtGraph(s: State, t: nat)
    requires t < |s.tasks|
  {
    var p := s.tasks[t].point;
    p.Preparing? || p.InGraph?
    || ((p.ToolSend? || p.ToolWait?) && p.future < |s.futures| && s.futures[p.future].cell.Resolved?)
  }

  /** The graph raises: the choice is none of those that lead on, nor an exception that nothing catches. */
  predicate Raises(p: Point, choice: Choice) {
    choice.Fail? || choice.Title? || choice.Stop? || (choice.Break? && !p.Preparing?)
  }

  /** Event `e` makes task `t` send a message of this kind. */
  predicate Sends(s: State, e: Event, t: nat, kind: Kind) {
    && !s.crashed && e.Wake? && e.task == t && t < |s.tasks|
    && var p, calm := s.tasks[t].point, !s.tasks[t].cancelled;
       match kind
       case Delta => calm && AtGraph(s, t) && e.choice.Stream?
       case ToolRequest(id) => calm && p == ToolPrepare(id)
       case RunFinished => calm && ((AtGraph(s, t) && e.choice.Finish?) || p.Embedding?)
       case TitleUpdate => calm && p.Titling? && e.choice.Title?
       case RunError =>
         if calm then AtGraph(s, t) && Raises(p, e.choice)
         else p.InGraph? || p.ToolPrepare? || p.ToolSend? || p.ToolWait? || p.Embedding? || p.FinishSend?
  }

  /** Where a task that is woken uncancelled stands next. */
  predicate GoesTo(s: State, t: nat, choice: Choice, next: Point)
    requires t < |s.tasks|
  {
    var p := s.tasks[t].point;
    if AtGraph(s, t) then
      match choice
      case Stream => next == InGraph
      case CallTool(id) => next == ToolPrepare(id)
      case Embed => next == Embedding
      case Finish => next == FinishSend
      case _ => next == if !p.Preparing? then ErrorSend
                        else if choice.Fail? then PrepareErrorSend else if choice.Break? then Done else ErrorSend
    else
      match p
      case Created => next == if choice.Break? then Done else Preparing
      case ToolPrepare(id) => next == ToolSend(id, |s.futures|)
      case ToolSend(id, f) => next == ToolWait(id, f)
      case ToolWait(_, _) => next == p
      case Embedding => next == FinishSend
      case FinishSend => next == if choice.Title? then Titling else Done
      case Titling => next == if choice.Title? then TitleSend else Done
      case _ => next == Done
  }

  /** A step sends at most one message, exactly when it should. */
  ghost predicate SendsOnly(s: State, e: Event, next: State) {
    && (forall t: nat, kind :: Sends(s, e, t, kind) ==> next.wire == s.wire + [Sent(t, kind)])
    && ((forall t: nat, kind :: !Sends(s, e, t, kind)) ==> next.wire == s.wire)
  }

  lemma GraphSends(s: State, t: nat, choice: Choice, base: State)
    requires t < |s.tasks| && AtGraph(s, t) && !s.tasks[t].cancelled && !s.crashed
    requires base.wire == s.wire && base.tasks == s.tasks && !(s.tasks[t].point.Preparing? && choice.Break?)
    requires s.tasks[t].point.Preparing? ==> !choice.Fail?
    ensures SendsOnly(s, Wake(t, choice), InGraphNext(base, t, choice))
    ensures |InGraphNext(base, t, choice).tasks| == |s.tasks|
    ensures GoesTo(s, t, choice, InGraphNext(base, t, choice).tasks[t].point)
  {
    var e, next := Wake(t, choice), InGraphNext(base, t, choice);
    match choice {
      case Stream => assert Sends(s, e, t, Delta);
      case CallTool(_) => assert next.wire == s.wire;
      case Embed => assert next.wire == s.wire;
      case Finish => assert Sends(s, e, t, RunFinished);
      case _ => assert Sends(s, e, t, RunError);
    }
  }

  lemma CallSends(s: State, t: nat, choice: Choice)
    requires t < |s.tasks| && Live(s.tasks[t]) && !s.tasks[t].cancelled && !s.crashed
    ensures SendsOnly(s, Wake(t, choice), Resume(s, t, choice))
    ensures |Resume(s, t, choice).tasks| == |s.tasks| && GoesTo(s, t, choice, Resume(s, t, choice).tasks[t].point)
  {
    var p := s.tasks[t].point;
    if AtGraph(s, t) {
      var d := Delivery(t, p.id, p.future, s.futures[p.future].cell.payload);
      GraphSends(s, t, choice, Forget(s, p.id).(delivered := s.delivered + [d]));
    }
  }

  lemma OutsideSends(s: State, t: nat, choice: Choice)
    requires t < |s.tasks| && Outside(s.tasks[t].point) && !s.tasks[t].cancelled && !s.crashed
    ensures SendsOnly(s, Wake(t, choice), Resume(s, t, choice))
    ensures |Resume(s, t, choice).tasks| == |s.tasks| && GoesTo(s, t, choice, Resume(s, t, choice).tasks[t].point)
  {
    var e, p := Wake(t, choice), s.tasks[t].point;
    if p.Embedding? {
      assert Sends(s, e, t, RunFinished);
    } else if p.Titling? && choice.Title? {
      assert Sends(s, e, t, TitleUpdate);
    }
  }

  lemma ResumeSends(s: State, t: nat, choice: Choice)
    requires t < |s.tasks| && !s.tasks[t].cancelled && !s.crashed
    ensures SendsOnly(s, Wake(t, choice), Resume(s, t, choice))
    ensures |Resume(s, t, choice).tasks| == |s.tasks| && GoesTo(s, t, choice, Resume(s, t, choice).tasks[t].point)
  {
    var e, p := Wake(t, choice), s.tasks[t].point;
    if Outside(p) {
      OutsideSends(s, t, choice);
    } else if Live(s.tasks[t]) {
      CallSends(s, t, choice);
    } else if p.ToolPrepare? {
      assert Sends(s, e, t, ToolRequest(p.id));
    } else if p.Preparing? && choice.Fail? {
      assert Sends(s, e, t, RunError);
    } else if !(p.Preparing? && choice.Break?) {
      GraphSends(s, t, choice, s);
    }
  }

  lemma UnwindSends(s: State, t: nat, choice: Choice)
    requires t < |s.tasks| && s.tasks[t].cancelled && !s.tasks[t].point.Done? && !s.crashed
    ensures SendsOnly(s, Wake(t, choice), Unwind(s, t))
    ensures |Unwind(s, t).tasks| == |s.tasks|
    ensures Unwind(s, t).tasks[t].point == if Sends(s, Wake(t, choice), t, RunError) then CancelSend else Done
  {
    if Reports(s.tasks[t].point) {
      UnwindReports(s, t);
      assert Sends(s, Wake(t, choice), t, RunError);
    }
  }

  /** A task that is woken goes where its point and the choice lead; a cancelled one reports, or ends. */
  lemma WokenGoesTo(s: State, t: nat, choice: Choice)
    requires !s.crashed && t < |s.tasks|
    ensures |Step(s, Wake(t, choice)).tasks| == |s.tasks|
    ensures var next := Step(s, Wake(t, choice)).tasks[t].point;
            if !s.tasks[t].cancelled then GoesTo(s, t, choice, next)
            else next == if Sends(s, Wake(t, choice), t, RunError) then CancelSend else Done
  {
    if s.tasks[t].cancelled && !s.tasks[t].point.Done? {
      UnwindSends(s, t, choice);
    } else if !s.tasks[t].cancelled {
      ResumeSends(s, t, choice);
    }
  }

  /** Every step sends what it should, and nothing else. */
  lemma StepSendsOnly(s: State, e: Event)
    ensures SendsOnly(s, e, Step(s, e))
  {
    if !s.crashed && e.Wake? && e.task < |s.tasks| {
      if s.tasks[e.task].cancelled && !s.tasks[e.task].point.Done? {
        UnwindSends(s, e.task, e.choice);
      } else if !s.tasks[e.task].cancelled {
        ResumeSends(s, e.task, e.choice);
      }
    }
  }

  /** One of the events makes the task send a message of this kind. */
  ghost predicate SentBy(events: seq<Event>, t: nat, kind: Kind) {
    exists k :: 0 <= k < |events| && SendsAt(events, k, t, kind)
  }

  /** Event number `k` of the list does. */
  predicate SendsAt(events: seq<Event>, k: nat, t: nat, kind: Kind)
    requires k < |events|
  {
    Sends(Run(START, events[..k]), events[k], t, kind)
  }

  lemma SentByMore(events: seq<Event>, last: Event, t: nat, kind: Kind)
    ensures SentBy(events + [last], t, kind) <==>
              SentBy(events, t, kind) || Sends(Run(START, events), last, t, kind)
  {
    var more := events + [last];
    if SentBy(events, t, kind) {
      var k :| 0 <= k < |events| && SendsAt(events, k, t, kind);
      CutConcat(events, [last], k);
      assert SendsAt(more, k, t, kind);
    }
    if Sends(Run(START, events), last, t, kind) {
      CutConcat(events, [last], |events|);
      assert events[..|events|] == events;
      assert SendsAt(more, |events|, t, kind);
    }
    if SentBy(more, t, kind) {
      var k :| 0 <= k < |more| && SendsAt(more, k, t, kind);
      CutConcat(events, [last], k);
      assert k == |events| ==> events[..k] == events;
      assert k < |events| ==> SendsAt(events, k, t, kind);
    }
  }

  /** A message is on the wire exactly when some event made its task send it. */
  lemma {:induction false} SentIff(events: seq<Event>, t: nat, kind: Kind)
    ensures Sent(t, kind) in Run(START, events).wire <==> SentBy(events, t, kind)
    decreases |events|
  {
    if events != [] {
      var before, last := events[..|events| - 1], events[|events| - 1];
      assert events == before + [last];
      SentIff(before, t, kind);
      SentByMore(before, last, t, kind);
      RunSnoc(START, before, last);
      StepSendsOnly(Run(START, before), last);
      NewOnWire(Run(START, before), last, Step(Run(START, before), last), t, kind);
    }
  }

  lemma NewOnWire(s: State, e: Event, next: State, t: nat, kind: Kind)
    requires SendsOnly(s, e, next)
    ensures Sent(t, kind) in next.wire <==> Sent(t, kind) in s.wire || Sends(s, e, t, kind)
  {
    if i: nat, other :| Sends(s, e, i, other) {
      assert next.wire == s.wire + [Sent(i, other)];
    }
  }

  // ----- whom a cancellation reaches

  /** The task stands in the table of running tasks under its run's name. */
  predicate Registered(s: State, run: string, t: nat) {
    run in s.runTasks && s.runTasks[run] == t
  }

  /** A cancellation waits to be raised in the task. */
  predicate Marked(s: State, t: nat) {
    t < |s.tasks| && s.tasks[t].cancelled && !s.tasks[t].point.Done?
  }

  /** A request that becomes task `t`. */
  predicate Starts(s: State, e: Event, run: string, t: nat) {
    !s.crashed && e == RunRequest(run) && t == |s.tasks|
  }

  /** A request of the same name, or a task of that name that is done, takes the place in the table. */
  predicate Replaces(s: State, e: Event, run: string) {
    && !s.crashed
    && (|| e == RunRequest(run)
        || (e.Reap? && e.task < |s.tasks| && s.tasks[e.task].point.Done? && s.tasks[e.task].run == run))
  }

  /** A cancellation of the name under which the task is registered, before it is done. */
  predicate Cancels(s: State, e: Event, t: nat) {
    !s.crashed && e.RunCancel? && Registered(s, e.run, t) && t < |s.tasks| && !s.tasks[t].point.Done?
  }

  predicate Wakes(s: State, e: Event, t: nat) {
    !s.crashed && e.Wake? && e.task == t
  }

  /** Where a task stands changes only when it is woken itself, and its run never does. */
  lemma OnlyWakesMove(s: State, e: Event, t: nat)
    requires t < |s.tasks|
    ensures var next := Step(s, e);
            && t < |next.tasks| && next.tasks[t].run == s.tasks[t].run
            && (!Wakes(s, e, t) ==> next.tasks[t].point == s.tasks[t].point)
  {
    if !s.crashed && e.Wake? && e.task < |s.tasks| {
      WakeTouchesOne(s, e.task, e.choice);
    }
  }

  /** Only this task has moved, and no cancellation waits in it. */
  ghost predicate TouchesOne(s: State, w: nat, next: State)
    requires w < |s.tasks|
  {
    && next.runTasks == s.runTasks && |next.tasks| == |s.tasks| && next.tasks[w].run == s.tasks[w].run
    && !Marked(next, w)
    && forall k :: 0 <= k < |s.tasks| && k != w ==> next.tasks[k] == s.tasks[k]
  }

  lemma GraphTouchesOne(s: State, base: State, w: nat, choice: Choice)
    requires w < |s.tasks| && !s.tasks[w].cancelled && base.tasks == s.tasks && base.runTasks == s.runTasks
    ensures TouchesOne(s, w, InGraphNext(base, w, choice))
  {
  }

  lemma WaitTouchesOne(s: State, w: nat, choice: Choice)
    requires w < |s.tasks| && Live(s.tasks[w]) && !s.tasks[w].cancelled
    requires var f := s.tasks[w].point.future; f >= |s.futures| || !s.futures[f].cell.Resolved?
    ensures TouchesOne(s, w, Resume(s, w, choice))
  {
  }

  lemma CallTouchesOne(s: State, w: nat, choice: Choice)
    requires w < |s.tasks| && Live(s.tasks[w]) && !s.tasks[w].cancelled
    ensures TouchesOne(s, w, Resume(s, w, choice))
  {
    var p := s.tasks[w].point;
    if p.future < |s.futures| && s.futures[p.future].cell.Resolved? {
      var d := Delivery(w, p.id, p.future, s.futures[p.future].cell.payload);
      var base := Forget(s, p.id).(delivered := s.delivered + [d]);
      GraphTouchesOne(s, base, w, choice);
      assert Resume(s, w, choice) == InGraphNext(base, w, choice);
    } else {
      WaitTouchesOne(s, w, choice);
    }
  }

  lemma ResumeTouchesOne(s: State, w: nat, choice: Choice)
    requires w < |s.tasks| && !Marked(s, w)
    ensures TouchesOne(s, w, Resume(s, w, choice))
  {
    var p := s.tasks[w].point;
    if p.Done? {
      assert Resume(s, w, choice) == s;
    } else if Live(s.tasks[w]) {
      CallTouchesOne(s, w, choice);
    } else if p.InGraph? || (p.Preparing? && !choice.Fail? && !choice.Break?) {
      GraphTouchesOne(s, s, w, choice);
    }
  }

  lemma WakeTouchesOne(s: State, w: nat, choice: Choice)
    requires !s.crashed && w < |s.tasks|
    ensures TouchesOne(s, w, Step(s, Wake(w, choice)))
  {
    if !Marked(s, w) {
      ResumeTouchesOne(s, w, choice);
    } else if Reports(s.tasks[w].point) {
      UnwindReports(s, w);
    }
  }

  /** The step at which a task comes into the table, and the one at which it leaves it. */
  lemma StepRegisters(s: State, e: Event, run: string, t: nat)
    ensures Registered(Step(s, e), run, t)
       <==> Starts(s, e, run, t) || (Registered(s, run, t) && !Replaces(s, e, run))
  {
    if !s.crashed && e.Wake? && e.task < |s.tasks| {
      WakeTouchesOne(s, e.task, e.choice);
    }
  }

  /** The step at which a cancellation is put into a task, and the one at which it is raised. */
  lemma StepMarks(s: State, e: Event, t: nat)
    ensures Marked(Step(s, e), t) <==> Cancels(s, e, t) || (Marked(s, t) && !Wakes(s, e, t))
  {
    if !s.crashed && e.Wake? && e.task < |s.tasks| {
      WakeTouchesOne(s, e.task, e.choice);
    }
  }

  /** Event number `k` comes in this way. */
  predicate Comes(way: (State, Event) -> bool, events: seq<Event>, k: nat)
    requires k < |events|
  {
    way(Run(START, events[..k]), events[k])
  }

  /** An event of the one kind, and none of the other after it. */
  ghost predicate Since(begins: (State, Event) -> bool, ends: (State, Event) -> bool, events: seq<Event>) {
    exists k :: 0 <= k < |events| && Comes(begins, events, k)
                && forall j :: k < j < |events| ==> !Comes(ends, events, j)
  }

  lemma ComesBefore(way: (State, Event) -> bool, events: seq<Event>, last: Event, k: nat)
    requires k <= |events|
    ensures Comes(way, events + [last], k)
         == if k < |events| then Comes(way, events, k) else way(Run(START, events), last)
  {
    CutConcat(events, [last], k);
    assert k == |events| ==> events[..k] == events;
  }

  lemma SinceSnoc(begins: (State, Event) -> bool, ends: (State, Event) -> bool, events: seq<Event>, last: Event)
    ensures Since(begins, ends, events + [last])
       <==> (|| begins(Run(START, events), last)
             || (Since(begins, ends, events) && !ends(Run(START, events), last)))
  {
    var more, n := events + [last], |events|;
    forall k: nat | k <= n
      ensures Comes(begins, more, k) == if k < n then Comes(begins, events, k) else begins(Run(START, events), last)
      ensures Comes(ends, more, k) == if k < n then Comes(ends, events, k) else ends(Run(START, events), last)
    {
      ComesBefore(begins, events, last, k);
      ComesBefore(ends, events, last, k);
    }
    if begins(Run(START, events), last) {
      assert Comes(begins, more, n);
    }
    if Since(begins, ends, events) && !ends(Run(START, events), last) {
      var k :| 0 <= k < n && Comes(begins, events, k) && forall j :: k < j < n ==> !Comes(ends, events, j);
      assert Comes(begins, more, k);
    }
    if Since(begins, ends, more) {
      var k :| 0 <= k < |more| && Comes(begins, more, k) && forall j :: k < j < |more| ==> !Comes(ends, more, j);
      if k < n {
        assert Comes(begins, events, k) && !Comes(ends, more, n);
        assert forall j :: k < j < n ==> !Comes(ends, events, j) by {
          forall j | k < j < n ensures !Comes(ends, events, j) { assert !Comes(ends, more, j); }
        }
      }
    }
  }

  /** The table names a task exactly when its request was the last of that name, and no task of the name was taken out
      since. */
  lemma {:induction false} RegisteredIff(events: seq<Event>, run: string, t: nat)
    ensures Registered(Run(START, events), run, t)
       <==> Since((s, e) => Starts(s, e, run, t), (s, e) => Replaces(s, e, run), events)
    decreases |events|
  {
    if events != [] {
      var before, last := events[..|events| - 1], events[|events| - 1];
      assert events == before + [last];
      RegisteredIff(before, run, t);
      RunSnoc(START, before, last);
      StepRegisters(Run(START, before), last, run, t);
      SinceSnoc((s, e) => Starts(s, e, run, t), (s, e) => Replaces(s, e, run), before, last);
    }
  }

  /** Every task was started by a request of its run. */
  lemma {:induction false} TaskWasStarted(events: seq<Event>, t: nat)
    requires t < |Run(START, events).tasks|
    ensures Since((s, e) => Starts(s, e, Run(START, events).tasks[t].run, t), (s, e) => false, events)
    decreases |events|
  {
    if events != [] {
      var before, last := events[..|events| - 1], events[|events| - 1];
      assert events == before + [last];
      RunSnoc(START, before, last);
      var run := Run(START, events).tasks[t].run;
      SinceSnoc((s, e) => Starts(s, e, run, t), (s, e) => false, before, last);
      if t < |Run(START, before).tasks| {
        OnlyWakesMove(Run(START, before), last, t);
        TaskWasStarted(before, t);
      } else {
        StepStarts(Run(START, before), last, t);
      }
    }
  }

  lemma StepStarts(s: State, e: Event, t: nat)
    requires |s.tasks| <= t < |Step(s, e).tasks|
    ensures Starts(s, e, Step(s, e).tasks[t].run, t)
  {
    if !s.crashed && e.Wake? && e.task < |s.tasks| {
      WakeTouchesOne(s, e.task, e.choice);
    }
  }

  /** A cancellation of its name came in since the task was last woken. */
  ghost predicate CancelWaits(events: seq<Event>, t: nat) {
    Since((s, e) => Cancels(s, e, t), (s, e) => Wakes(s, e, t), events)
  }

  /** A cancellation waits in a task exactly when one of its name came in since the task was last woken. */
  lemma {:induction false} MarkedIff(events: seq<Event>, t: nat)
    ensures Marked(Run(START, events), t) <==> CancelWaits(events, t)
    decreases |events|
  {
    if events != [] {
      var before, last := events[..|events| - 1], events[|events| - 1];
      assert events == before + [last];
      MarkedIff(before, t);
      RunSnoc(START, before, last);
      StepMarks(Run(START, before), last, t);
      SinceSnoc((s, e) => Cancels(s, e, t), (s, e) => Wakes(s, e, t), before, last);
    }
  }

  // ----- the imperative loop

  class Loop {
    var tasks: seq<Task>
    var runTasks: map<string, nat>
    var pendingFutures: map<string, nat>
    var futures: seq<Future>
    var wire: seq<Sent>
    var delivered: seq<Delivery>
    var crashed: bool

    ghost function Value(): State
      reads this
    {
      State(tasks, runTasks, pendingFutures, futures, wire, delivered, crashed)
    }

    constructor ()
      ensures Value() == START
    {
      tasks, runTasks, pendingFutures, futures, wire, delivered, crashed := [], map[], map[], [], [], [], false;
    }

    method OnRunRequest(run: string)
      requires !crashed
      modifies this
      ensures Value() == Step(old(Value()), RunRequest(run))
    {
      runTasks := runTasks[run := |tasks|];
      tasks := tasks + [Task(run, Created, false, false)];
    }

    method OnToolResult(id: string, payload: string)
      requires !crashed
      modifies this
      ensures Value() == Step(old(Value()), ToolResult(id, payload))
    {
      if id in pendingFutures && pendingFutures[id] < |futures| {
        var f := pendingFutures[id];
        if futures[f].cell.Waiting? {
          futures := futures[f := futures[f].(cell := Resolved(payload))];
        } else {
          crashed := true;
        }
      }
    }

    method OnRunCancel(run: string)
      requires !crashed
      modifies this
      ensures Value() == Step(old(Value()), RunCancel(run))
    {
      if run in runTasks && runTasks[run] < |tasks| {
        var t := runTasks[run];
        if !tasks[t].point.Done? {
          if tasks[t].point.ToolWait? && tasks[t].point.future < |futures|
             && futures[tasks[t].point.future].cell.Waiting? {
            var f := tasks[t].point.future;
            futures := futures[f := futures[f].(cell := Cancelled)];
          }
          tasks := tasks[t := tasks[t].(cancelled := true)];
        }
      }
    }

    method OnTaskDone(t: nat)
      requires !crashed
      modifies this
      ensures Value() == Step(old(Value()), Reap(t))
    {
      if t < |tasks| && tasks[t].point.Done? {
        runTasks := runTasks - {tasks[t].run};
      }
    }

    // ----- what a task does between two awaits

    method MoveTo(t: nat, point: Point)
      requires t < |tasks|
      modifies this`tasks
      ensures Value() == At(old(Value()), t, point)
    {
      tasks := tasks[t := tasks[t].(point := point)];
    }

    method PutOnSocket(t: nat, kind: Kind, point: Point)
      requires t < |tasks|
      modifies this`tasks, this`wire
      ensures Value() == Send(old(Value()), t, kind, point)
    {
      wire := wire + [Sent(t, kind)];
      MoveTo(t, point);
    }

    /** The graph runs on to its next await, or its error is reported. */
    method RunGraph(t: nat, choice: Choice)
      requires t < |tasks|
      modifies this`tasks, this`wire
      ensures Value() == InGraphNext(old(Value()), t, choice)
    {
      match choice {
        case Stream => PutOnSocket(t, Delta, InGraph);
        case CallTool(id) => MoveTo(t, ToolPrepare(id));
        case Embed => MoveTo(t, Embedding);
        case Finish => PutOnSocket(t, RunFinished, FinishSend);
        case _ => PutOnSocket(t, RunError, ErrorSend);
      }
    }

    /** The call's future goes into the table; nothing is sent. */
    method RegisterCall(t: nat, id: string) returns (f: nat)
      modifies this`futures, this`pendingFutures
      ensures Value() == Register(old(Value()), t, id)
      ensures f < |futures| && futures[f] == Future(t, id, Waiting) && id in pendingFutures && pendingFutures[id] == f
    {
      f := |futures|;
      futures := futures + [Future(t, id, Waiting)];
      pendingFutures := pendingFutures[id := f];
    }

    /** The request goes on the socket; its future has to be in the table, waiting. */
    method SendRequest(t: nat, id: string, f: nat)
      requires t < |tasks| && f < |futures| && futures[f] == Future(t, id, Waiting)
      requires id in pendingFutures && pendingFutures[id] == f
      modifies this`tasks, this`wire
      ensures Value() == Send(old(Value()), t, ToolRequest(id), ToolSend(id, f))
    {
      PutOnSocket(t, ToolRequest(id), ToolSend(id, f));
    }

    /** execute_tool up to its send. */
    method StartCall(t: nat, choice: Choice)
      requires t < |tasks| && tasks[t].point.ToolPrepare?
      modifies this
      ensures Value() == Resume(old(Value()), t, choice)
    {
      var id := tasks[t].point.id;
      var f := RegisterCall(t, id);
      SendRequest(t, id, f);
    }

    /** execute_tool after its send or at its future: take the result if it is there, and clean up. */
    method AwaitResult(t: nat, choice: Choice)
      requires t < |tasks| && Live(tasks[t])
      modifies this
      ensures Value() == Resume(old(Value()), t, choice)
    {
      var id, f := tasks[t].point.id, tasks[t].point.future;
      if f < |futures| && futures[f].cell.Resolved? {
        pendingFutures := pendingFutures - {id};
        delivered := delivered + [Delivery(t, id, f, futures[f].cell.payload)];
        RunGraph(t, choice);
      } else if tasks[t].point.ToolSend? {
        MoveTo(t, ToolWait(id, f));
      }
    }

    /** The beginning of a run, and what follows the graph. */
    method GoOn(t: nat, choice: Choice)
      requires t < |tasks| && Outside(tasks[t].point)
      modifies this
      ensures Value() == Resume(old(Value()), t, choice)
    {
      var point := tasks[t].point;
      if point.Created? && !choice.Break? {
        MoveTo(t, Preparing);
      } else if point.Embedding? {
        PutOnSocket(t, RunFinished, FinishSend);
      } else if point.FinishSend? && choice.Title? {
        MoveTo(t, Titling);
      } else if point.Titling? && choice.Title? {
        PutOnSocket(t, TitleUpdate, TitleSend);
      } else if !point.Done? {
        MoveTo(t, Done);
      }
    }

    /** A cancellation is raised at the await: a call is cleaned up, and what has to be reported is reported. */
    method RaiseCancelled(t: nat)
      requires t < |tasks|
      modifies this
      ensures Value() == Unwind(old(Value()), t)
    {
      var point := tasks[t].point;
      tasks := tasks[t := tasks[t].(cancelled := false)];
      if point.ToolSend? || point.ToolWait? {
        pendingFutures := pendingFutures - {point.id};
      }
      if point.FinishSend? {
        tasks := tasks[t := tasks[t].(lateCancel := true)];
      }
      if Reports(point) {
        PutOnSocket(t, RunError, CancelSend);
      } else {
        MoveTo(t, Done);
      }
    }

    method ResumeTask(t: nat, choice: Choice)
      requires t < |tasks|
      modifies this
      ensures Value() == Resume(old(Value()), t, choice)
    {
      var point := tasks[t].point;
      if Outside(point) {
        GoOn(t, choice);
      } else if point.ToolPrepare? {
        StartCall(t, choice);
      } else if point.ToolSend? || point.ToolWait? {
        AwaitResult(t, choice);
      } else if point.Preparing? && choice.Fail? {
        PutOnSocket(t, RunError, PrepareErrorSend);
      } else if point.Preparing? && choice.Break? {
        MoveTo(t, Done);
      } else {
        RunGraph(t, choice);
      }
    }

    /** The event loop wakes a task, which runs to its next await. */
    method OnWake(t: nat, choice: Choice)
      requires !crashed
      modifies this
      ensures Value() == Step(old(Value()), Wake(t, choice))
    {
      if t < |tasks| {
        if tasks[t].cancelled && !tasks[t].point.Done? {
          RaiseCancelled(t);
        } else {
          ResumeTask(t, choice);
        }
      }
    }

    // ----- the whole loop

    ghost predicate Valid()
      reads this
    {
      WireOk(Value()) && FuturesOk(Value())
    }

    /** One event, of any kind. */
    method Handle(e: Event)
      requires !crashed && Valid()
      modifies this
      ensures Valid() && Value() == Step(old(Value()), e)
    {
      StepKeepsWire(Value(), e);
      StepKeepsFutures(Value(), e);
      match e {
        case RunRequest(run) => OnRunRequest(run);
        case ToolResult(id, payload) => OnToolResult(id, payload);
        case RunCancel(run) => OnRunCancel(run);
        case Reap(t) => OnTaskDone(t);
        case Wake(t, choice) => OnWake(t, choice);
      }
    }

    /**
     * Whatever happens, in whatever order: each run sends at most one terminal message unless a cancellation lands in
     * the send of its RUN_FINISHED, title updates follow the run's own RUN_FINISHED, and every delivery is the call's
     * own. The loop ends early only when a tool result crashes it.
     */
    method Serve(events: seq<Event>)
      requires Value() == START
      modifies this
      ensures Valid() && Value() == Run(START, events)
      ensures forall t :: 0 <= t < |tasks| ==>
                && Terminals(wire, t) <= 2
                && (Terminals(wire, t) <= 1 <==> !FinishCancelled(START, events, t))
      ensures TitlesFollow(wire)
      ensures forall t: nat, kind :: Sent(t, kind) in wire <==> SentBy(events, t, kind)
      ensures forall t: nat :: Marked(Value(), t) <==> CancelWaits(events, t)
      ensures forall d <- delivered ::
                d.future < |futures| && futures[d.future] == Future(d.task, d.id, Resolved(d.payload))
    {
      var i := 0;
      assert events[0..] == events;
      while i < |events| && !crashed
        invariant 0 <= i <= |events| && Valid()
        invariant Run(START, events) == Run(Value(), events[i..])
      {
        assert events[i..][1..] == events[i + 1..];
        Handle(events[i]);
        i := i + 1;
      }
      CrashedStays(Value(), events[i..]);
      forall t | 0 <= t < |tasks|
        ensures Terminals(wire, t) <= 2 && (Terminals(wire, t) <= 1 <==> !FinishCancelled(START, events, t))
      {
        AtMostOneTerminalIff(events, t);
      }
      forall t: nat, kind
        ensures Sent(t, kind) in wire <==> SentBy(events, t, kind)
      {
        SentIff(events, t, kind);
      }
      forall t: nat ensures Marked(Value(), t) <==> CancelWaits(events, t) {
        MarkedIff(events, t);
      }
      forall d <- delivered
        ensures d.future < |futures| && futures[d.future] == Future(d.task, d.id, Resolved(d.payload))
      {
        assert DeliveryOk(Value(), d);
      }
    }
  }

  /** A whole session, from an empty table. */
  method Session(events: seq<Event>) returns (wire: seq<Sent>, delivered: seq<Delivery>, crashed: bool)
    ensures wire == Run(START, events).wire && delivered == Run(START, events).delivered
    ensures crashed == Run(START, events).crashed && TitlesFollow(wire)
    ensures forall t: nat, kind :: Sent(t, kind) in wire <==> SentBy(events, t, kind)
    ensures forall t :: 0 <= t < |Run(START, events).tasks| ==>
              Terminals(wire, t) <= 2 && (Terminals(wire, t) <= 1 <==> !FinishCancelled(START, events, t))
  {
    var loop := new Loop();
    loop.Serve(events);
    wire, delivered, crashed := loop.wire, loop.delivered, loop.crashed;
  }

  lemma {:induction false} CrashedStays(s: State, events: seq<Event>)
    requires s.crashed || events == []
    ensures Run(s, events) == s
    decreases |events|
  {
    if events != [] {
      CrashedStays(s, events[1..]);
    }
  }

  // ----- that it does happen

  lemma RunSnoc(s: State, events: seq<Event>, last: Event)
    ensures Run(s, events + [last]) == Step(Run(s, events), last)
    decreases |events|
  {
    if events == [] {
      assert [last][1..] == [] && events + [last] == [last];
      assert Run(s, [last]) == Run(Step(s, last), []);
    } else {
      assert (events + [last])[1..] == events[1..] + [last];
      RunSnoc(Step(s, events[0]), events[1..], last);
    }
  }

  /** A run cancelled inside the send of its RUN_FINISHED does send both terminal messages. */
  lemma BothTerminalsHappen(run: string)
    ensures Run(START, [RunRequest(run), Wake(0, Stop), Wake(0, Finish), RunCancel(run), Wake(0, Stop)]).wire
         == [Sent(0, RunFinished), Sent(0, RunError)]
  {
    var e1, e2, e3, e4, e5 := RunRequest(run), Wake(0, Stop), Wake(0, Finish), RunCancel(run), Wake(0, Stop);
    var s3 := Step(Step(Step(START, e1), e2), e3);
    assert s3.tasks == [Task(run, FinishSend, false, false)] && s3.wire == [Sent(0, RunFinished)];
    var s4 := Step(s3, e4);
    assert s4.tasks == [Task(run, FinishSend, true, false)] && s4.wire == s3.wire;
    UnwindReports(s4, 0);
    Run5(e1, e2, e3, e4, e5);
  }

  lemma Run5(e1: Event, e2: Event, e3: Event, e4: Event, e5: Event)
    ensures Run(START, [e1, e2, e3, e4, e5]) == Step(Step(Step(Step(Step(START, e1), e2), e3), e4), e5)
  {
    RunSnoc(START, [], e1);
    RunSnoc(START, [e1], e2);
    RunSnoc(START, [e1, e2], e3);
    RunSnoc(START, [e1, e2, e3], e4);
    RunSnoc(START, [e1, e2, e3, e4], e5);
    assert [] + [e1] == [e1] && [e1] + [e2] == [e1, e2] && [e1, e2] + [e3] == [e1, e2, e3];
    assert [e1, e2, e3] + [e4] == [e1, e2, e3, e4] && [e1, e2, e3, e4] + [e5] == [e1, e2, e3, e4, e5];
  }

  /** What leads a new run into a tool call that has sent its request. */
  function CallEvents(run: string, t: nat, id: string): seq<Event> {
    [RunRequest(run), Wake(t, Stop), Wake(t, CallTool(id)), Wake(t, Stop)]
  }

  lemma FirstCall(run: string, id: string)
    ensures var s := Run(START, CallEvents(run, 0, id));
            && s.tasks == [Task(run, ToolSend(id, 0), false, false)] && !s.crashed
            && s.futures == [Future(0, id, Waiting)] && s.pending == map[id := 0] && s.runTasks == map[run := 0]
  {
    var e1, e2, e3, e4 := RunRequest(run), Wake(0, Stop), Wake(0, CallTool(id)), Wake(0, Stop);
    RunOfFour(START, e1, e2, e3, e4);
    var s3 := Step(Step(Step(START, e1), e2), e3);
    assert s3.tasks == [Task(run, ToolPrepare(id), false, false)];
  }

  lemma RunOfFour(s: State, e1: Event, e2: Event, e3: Event, e4: Event)
    ensures Run(s, [e1, e2, e3, e4]) == Step(Step(Step(Step(s, e1), e2), e3), e4)
  {
    RunSnoc(s, [e1, e2, e3], e4);
    RunSnoc(s, [e1, e2], e3);
    RunSnoc(s, [e1], e2);
    RunSnoc(s, [], e1);
    assert [] + [e1] == [e1] && [e1] + [e2] == [e1, e2] && [e1, e2] + [e3] == [e1, e2, e3];
    assert [e1, e2, e3] + [e4] == [e1, e2, e3, e4];
  }

  /** Two results for one call do crash the receive loop. */
  lemma CrashHappens(run: string, id: string, payload: string)
    ensures Run(START, CallEvents(run, 0, id) + [ToolResult(id, payload)] + [ToolResult(id, payload)]).crashed
  {
    FirstCall(run, id);
    RunSnoc(START, CallEvents(run, 0, id), ToolResult(id, payload));
    RunSnoc(START, CallEvents(run, 0, id) + [ToolResult(id, payload)], ToolResult(id, payload));
  }

  /** Two runs do register one id in flight. */
  lemma RepeatedIdHappens(first: string, second: string, id: string)
    ensures var before := CallEvents(first, 0, id) + [RunRequest(second)] + [Wake(1, Stop)] + [Wake(1, CallTool(id))];
            var s := Run(START, before);
            && Registers(s, Wake(1, Stop)) == Some(id) && id in s.pending && s.pending[id] < |s.futures|
            && !s.futures[s.pending[id]].cell.Resolved? && Calls(s, 0, id, s.pending[id])
  {
    var calls := CallEvents(first, 0, id);
    FirstCall(first, id);
    RunSnoc(START, calls, RunRequest(second));
    RunSnoc(START, calls + [RunRequest(second)], Wake(1, Stop));
    RunSnoc(START, calls + [RunRequest(second)] + [Wake(1, Stop)], Wake(1, CallTool(id)));
  }

  /** A result between a call's cancellation and its clean-up does crash the receive loop. */
  lemma CrashAfterCancelHappens(run: string, id: string, payload: string)
    ensures Run(START, CallEvents(run, 0, id) + [Wake(0, Stop)] + [RunCancel(run)] + [ToolResult(id, payload)]).crashed
  {
    var calls := CallEvents(run, 0, id);
    FirstCall(run, id);
    RunSnoc(START, calls, Wake(0, Stop));
    RunSnoc(START, calls + [Wake(0, Stop)], RunCancel(run));
    RunSnoc(START, calls + [Wake(0, Stop)] + [RunCancel(run)], ToolResult(id, payload));
  }

  /** A second run does register the id of a call that has got its result but has not taken it. */
  lemma SecondRegisters(first: string, second: string, id: string, payload: string) returns (events: seq<Event>)
    ensures events == CallEvents(first, 0, id) + [ToolResult(id, payload)] + [RunRequest(second)] + [Wake(1, Stop)]
                      + [Wake(1, CallTool(id))] + [Wake(1, Stop)]
    ensures var s := Run(START, events);
            && !s.crashed && Calls(s, 0, id, 0) && s.futures[0].cell == Resolved(payload) && Expects(s, 1, id, 1)
            && !s.tasks[0].cancelled
  {
    var calls := CallEvents(first, 0, id) + [ToolResult(id, payload)];
    FirstCall(first, id);
    RunSnoc(START, CallEvents(first, 0, id), ToolResult(id, payload));
    RunSnoc(START, calls, RunRequest(second));
    RunSnoc(START, calls + [RunRequest(second)], Wake(1, Stop));
    RunSnoc(START, calls + [RunRequest(second)] + [Wake(1, Stop)], Wake(1, CallTool(id)));
    RunSnoc(START, calls + [RunRequest(second)] + [Wake(1, Stop)] + [Wake(1, CallTool(id))], Wake(1, Stop));
    events := calls + [RunRequest(second)] + [Wake(1, Stop)] + [Wake(1, CallTool(id))] + [Wake(1, Stop)];
  }

  /** The first call is then served, and the second is stranded. */
  lemma SecondIsStrandedHappens(first: string, second: string, id: string, payload: string, choice: Choice)
    returns (events: seq<Event>)
    ensures events == CallEvents(first, 0, id) + [ToolResult(id, payload)] + [RunRequest(second)] + [Wake(1, Stop)]
                      + [Wake(1, CallTool(id))] + [Wake(1, Stop)]
    ensures var s := Run(START, events + [Wake(0, choice)]);
            && s.delivered == Run(START, events).delivered + [Delivery(0, id, 0, payload)]
            && Calls(s, 1, id, 1) && Unregistered(s, 1)
  {
    events := SecondRegisters(first, second, id, payload);
    RunSnoc(START, events, Wake(0, choice));
    DeliveringResume(Run(START, events), 0, choice);
    RepeatedIdStrandsTheSecond(events, 0, 0, 1, 1, id, choice, []);
  }
}
