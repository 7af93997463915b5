/** Reassembly of streamed tool calls (agent/app/graph.py, call_llm_node). */
module ToolCallStream {
  import opened ToolHistory

  /** One streamed piece of a tool call; a missing field is the empty string. */
  datatype Fragment = Fragment(index: int, id: string, name: string, arguments: string)

  /** A dictionary that remembers the order in which its keys arrived. */
  datatype Accumulator = Accumulator(order: seq<int>, table: map<int, ToolCall>)

  const NO_CALLS := Accumulator([], map[])

  // ----- the reference: every index read on its own

  function Only(fragments: seq<Fragment>, index: int): seq<Fragment> {
    if fragments == [] then []
    else (if fragments[0].index == index then [fragments[0]] else []) + Only(fragments[1..], index)
  }

  function Names(fragments: seq<Fragment>): string {
    if fragments == [] then "" else fragments[0].name + Names(fragments[1..])
  }

  function ArgumentText(fragments: seq<Fragment>): string {
    if fragments == [] then "" else fragments[0].arguments + ArgumentText(fragments[1..])
  }

  function LastId(fragments: seq<Fragment>): string {
    if fragments == [] then ""
    else
      var later := LastId(fragments[1..]);
      if later != "" then later else fragments[0].id
  }

  function Assembled(own: seq<Fragment>): ToolCall {
    ToolCall(LastId(own), Names(own), ArgumentText(own))
  }

  /** The indices in the order of their first fragment. */
  function Arrivals(fragments: seq<Fragment>): seq<int> {
    if fragments == [] then []
    else
      var last := fragments[|fragments| - 1].index;
      var before := Arrivals(fragments[..|fragments| - 1]);
      if last in before then before else before + [last]
  }

  function Calls(fragments: seq<Fragment>): seq<ToolCall> {
    var order := Arrivals(fragments);
    seq(|order|, k requires 0 <= k < |order| => Assembled(Only(fragments, order[k])))
  }

  // ----- the loop

  function Values(acc: Accumulator): seq<ToolCall>
    requires forall k :: 0 <= k < |acc.order| ==> acc.order[k] in acc.table
  {
    seq(|acc.order|, k requires 0 <= k < |acc.order| => acc.table[acc.order[k]])
  }

  ghost predicate Tracks(acc: Accumulator, fragments: seq<Fragment>) {
    && acc.order == Arrivals(fragments)
    && (forall k :: 0 <= k < |acc.order| ==> acc.order[k] in acc.table)
    && (forall i <- acc.table :: i in acc.order)
    && (forall i <- acc.table :: acc.table[i] == Assembled(Only(fragments, i)))
  }

  method AddFragment(acc: Accumulator, f: Fragment, ghost seen: seq<Fragment>) returns (next: Accumulator)
    requires Tracks(acc, seen)
    ensures Tracks(next, seen + [f])
  {
    OwnFragmentsSnoc(seen, f);
    ArrivalsSnoc(seen, f);
    AssembledSnoc(Only(seen, f.index), f);
    if f.index !in acc.table {
      NothingArrived(seen, f.index);
      next := Accumulator(acc.order + [f.index], acc.table[f.index := ToolCall(f.id, f.name, f.arguments)]);
    } else {
      var call := acc.table[f.index];
      if f.id != "" {
        call := call.(id := f.id);
      }
      call := call.(name := call.name + f.name, arguments := call.arguments + f.arguments);
      next := acc.(table := acc.table[f.index := call]);
    }
    assert next.table[f.index] == Assembled(Only(seen + [f], f.index));
    TracksOneMore(acc, seen, f, next);
  }

  lemma TracksOneMore(acc: Accumulator, seen: seq<Fragment>, f: Fragment, next: Accumulator)
    requires Tracks(acc, seen) && next.order == Arrivals(seen + [f])
    requires f.index in next.table && next.table == acc.table[f.index := next.table[f.index]]
    requires next.table[f.index] == Assembled(Only(seen + [f], f.index))
    ensures Tracks(next, seen + [f])
  {
    OrderHolds(acc, seen, f, next);
    forall i <- next.table
      ensures next.table[i] == Assembled(Only(seen + [f], i))
    {
      OwnFragmentsSnoc(seen, f);
      assert i != f.index ==> i in acc.table && next.table[i] == acc.table[i];
    }
  }

  lemma OrderHolds(acc: Accumulator, seen: seq<Fragment>, f: Fragment, next: Accumulator)
    requires Tracks(acc, seen) && next.order == Arrivals(seen + [f])
    requires next.table.Keys == acc.table.Keys + {f.index}
    ensures forall k :: 0 <= k < |next.order| ==> next.order[k] in next.table
    ensures forall i <- next.table :: i in next.order
  {
    ArrivalsSnoc(seen, f);
    assert forall i <- next.order :: i in acc.order || i == f.index;
  }

  method Accumulate(acc: Accumulator, fragments: seq<Fragment>, ghost before: seq<Fragment>)
    returns (next: Accumulator)
    requires Tracks(acc, before)
    ensures Tracks(next, before + fragments)
  {
    next := acc;
    assert before + fragments[..0] == before;
    for k := 0 to |fragments|
      invariant Tracks(next, before + fragments[..k])
    {
      assert before + fragments[..k + 1] == before + fragments[..k] + [fragments[k]];
      next := AddFragment(next, fragments[k], before + fragments[..k]);
    }
    assert before + fragments[..|fragments|] == before + fragments;
  }

  lemma OwnFragmentsSnoc(seen: seq<Fragment>, f: Fragment)
    ensures Only(seen + [f], f.index) == Only(seen, f.index) + [f]
    ensures forall i :: i != f.index ==> Only(seen + [f], i) == Only(seen, i)
  {
    OnlySnoc(seen, f, f.index);
    forall i | i != f.index ensures Only(seen + [f], i) == Only(seen, i) {
      OnlySnoc(seen, f, i);
    }
  }

  lemma {:induction false} OnlySnoc(fragments: seq<Fragment>, last: Fragment, index: int)
    ensures Only(fragments + [last], index) == Only(fragments, index) + (if last.index == index then [last] else [])
  {
    if fragments != [] {
      assert (fragments + [last])[1..] == fragments[1..] + [last];
      OnlySnoc(fragments[1..], last, index);
    }
  }

  lemma ArrivalsSnoc(fragments: seq<Fragment>, last: Fragment)
    ensures Arrivals(fragments + [last])
         == if last.index in Arrivals(fragments) then Arrivals(fragments) else Arrivals(fragments) + [last.index]
  {
    var all := fragments + [last];
    assert all[..|all| - 1] == fragments && all[|all| - 1] == last;
  }

  lemma {:induction false} AssembledSnoc(own: seq<Fragment>, last: Fragment)
    ensures Assembled(own + [last])
         == ToolCall(if last.id != "" then last.id else LastId(own),
                     Names(own) + last.name, ArgumentText(own) + last.arguments)
  {
    var all := own + [last];
    if own == [] {
      assert all[1..] == [];
      assert Names(all) == last.name && ArgumentText(all) == last.arguments;
      assert LastId(all) == last.id;
    } else {
      assert all[1..] == own[1..] + [last];
      AssembledSnoc(own[1..], last);
      assert Names(all) == own[0].name + Names(own[1..]) + last.name;
      assert ArgumentText(all) == own[0].arguments + ArgumentText(own[1..]) + last.arguments;
    }
  }

  /** An index has arrived exactly when it has a fragment. */
  lemma {:induction false} ArrivedIff(fragments: seq<Fragment>, index: int)
    ensures index in Arrivals(fragments) <==> Only(fragments, index) != []
  {
    if fragments != [] {
      var before, last := fragments[..|fragments| - 1], fragments[|fragments| - 1];
      assert fragments == before + [last];
      ArrivedIff(before, index);
      OnlySnoc(before, last, index);
    }
  }

  lemma NothingArrived(fragments: seq<Fragment>, index: int)
    requires index !in Arrivals(fragments)
    ensures Only(fragments, index) == []
  {
    ArrivedIff(fragments, index);
  }

  lemma ValuesAreCalls(acc: Accumulator, fragments: seq<Fragment>)
    requires Tracks(acc, fragments)
    ensures Values(acc) == Calls(fragments)
  {
  }

  /** The calls of some indices, in their order. */
  function CallsAt(fragments: seq<Fragment>, order: seq<int>): seq<ToolCall> {
    seq(|order|, k requires 0 <= k < |order| => Assembled(Only(fragments, order[k])))
  }

  /** Every index arrives once. */
  lemma {:induction false} ArrivesOnce(fragments: seq<Fragment>, index: int)
    ensures multiset(Arrivals(fragments))[index] == if Only(fragments, index) != [] then 1 else 0
  {
    if fragments != [] {
      var before, last := fragments[..|fragments| - 1], fragments[|fragments| - 1];
      assert fragments == before + [last];
      ArrivesOnce(before, index);
      ArrivedIff(before, last.index);
      OnlySnoc(before, last, index);
    }
  }

  /** Reordering the indices reorders the calls. */
  lemma {:induction false} CallsOfReordered(fragments: seq<Fragment>, a: seq<int>, b: seq<int>)
    requires multiset(a) == multiset(b)
    ensures multiset(CallsAt(fragments, a)) == multiset(CallsAt(fragments, b))
    decreases |a|
  {
    if a != [] {
      var first, rest := a[0], a[1..];
      var front, back := FindFirst(a, b);
      CallsOfReordered(fragments, rest, front + back);
      assert a == [first] + rest;
      CallsAtConcat(fragments, [first], rest);
      OneOut(fragments, front, first, back);
    }
  }

  /** Where the first index stands in the other order. */
  lemma FindFirst(a: seq<int>, b: seq<int>) returns (front: seq<int>, back: seq<int>)
    requires a != [] && multiset(a) == multiset(b)
    ensures b == front + [a[0]] + back && multiset(a[1..]) == multiset(front + back)
  {
    assert a[0] in multiset(b);
    var j :| 0 <= j < |b| && b[j] == a[0];
    front, back := b[..j], b[j + 1..];
    HeadOut(a);
    MiddleOut(b, j);
  }

  lemma HeadOut(a: seq<int>)
    requires a != []
    ensures multiset(a[1..]) == multiset(a) - multiset{a[0]}
  {
    assert a == [a[0]] + a[1..];
  }

  lemma MiddleOut(b: seq<int>, j: nat)
    requires j < |b|
    ensures b == b[..j] + [b[j]] + b[j + 1..]
    ensures multiset(b[..j] + b[j + 1..]) == multiset(b) - multiset{b[j]}
  {
    assert b == b[..j] + [b[j]] + b[j + 1..];
    assert multiset(b[..j] + [b[j]] + b[j + 1..]) == multiset(b[..j]) + multiset{b[j]} + multiset(b[j + 1..]);
  }

  lemma OneOut(fragments: seq<Fragment>, front: seq<int>, index: int, back: seq<int>)
    ensures multiset(CallsAt(fragments, front + [index] + back))
         == multiset(CallsAt(fragments, [index])) + multiset(CallsAt(fragments, front + back))
  {
    CallsAtConcat(fragments, front, back);
    CallsAtConcat(fragments, front + [index], back);
    CallsAtConcat(fragments, front, [index]);
  }

  lemma CallsAtConcat(fragments: seq<Fragment>, a: seq<int>, b: seq<int>)
    ensures CallsAt(fragments, a + b) == CallsAt(fragments, a) + CallsAt(fragments, b)
  {
  }

  /** Interleaving does not matter: if every index sees the same fragments in the same order,
      the same calls come out, each as often, and in the same order if the indices arrive so. */
  lemma InterleavingIndependent(a: seq<Fragment>, b: seq<Fragment>)
    requires forall i :: Only(a, i) == Only(b, i)
    ensures multiset(Arrivals(a)) == multiset(Arrivals(b))
    ensures multiset(Calls(a)) == multiset(Calls(b))
    ensures Arrivals(a) == Arrivals(b) ==> Calls(a) == Calls(b)
  {
    forall i
      ensures multiset(Arrivals(a))[i] == multiset(Arrivals(b))[i]
    {
      ArrivesOnce(a, i);
      ArrivesOnce(b, i);
    }
    CallsOfReordered(a, Arrivals(a), Arrivals(b));
    assert CallsAt(a, Arrivals(b)) == Calls(b);
    assert CallsAt(a, Arrivals(a)) == Calls(a);
  }

  /** The place of an index's first fragment. */
  function FirstAt(fragments: seq<Fragment>, index: int): nat {
    if fragments == [] || fragments[0].index == index then 0 else 1 + FirstAt(fragments[1..], index)
  }

  lemma {:induction false} FirstAtConcat(fragments: seq<Fragment>, last: Fragment, index: int)
    ensures FirstAt(fragments + [last], index)
         == if Only(fragments, index) != [] then FirstAt(fragments, index)
            else |fragments| + (if last.index == index then 0 else 1)
    ensures Only(fragments, index) != [] ==> FirstAt(fragments, index) < |fragments|
  {
    if fragments != [] {
      assert (fragments + [last])[1..] == fragments[1..] + [last];
      FirstAtConcat(fragments[1..], last, index);
    }
  }

  /** Calls come out in the order of their first fragments, one per index. */
  lemma {:induction false} ArrivalsInOrder(fragments: seq<Fragment>, j: nat, k: nat)
    requires j < k < |Arrivals(fragments)|
    ensures FirstAt(fragments, Arrivals(fragments)[j]) < FirstAt(fragments, Arrivals(fragments)[k])
    decreases |fragments|
  {
    var order := Arrivals(fragments);
    var before, last := fragments[..|fragments| - 1], fragments[|fragments| - 1];
    assert fragments == before + [last];
    FirstAtConcat(before, last, order[j]);
    FirstAtConcat(before, last, order[k]);
    ArrivedIff(before, order[j]);
    ArrivedIff(before, order[k]);
    if k < |Arrivals(before)| {
      ArrivalsInOrder(before, j, k);
    } else {
      assert order[j] in Arrivals(before);
    }
  }

  // ----- missing ids

  /** The call with an id of its own or a made-up one; its name and arguments stay. */
  function WithId(call: ToolCall, suffix: string): (named: ToolCall)
    ensures named.name == call.name && named.arguments == call.arguments && named.id != ""
    ensures named.id == call.id || (call.id == "" && |named.id| == 3 + |suffix| && named.id[3..] == suffix)
  {
    if call.id == "" then call.(id := "tc_" + suffix) else call
  }

  /** Calls without an id get a fresh one; nothing else changes. */
  method FillIds(calls: seq<ToolCall>, suffix: nat -> string) returns (filled: seq<ToolCall>)
    ensures |filled| == |calls|
    ensures forall k :: 0 <= k < |calls| ==> filled[k] == WithId(calls[k], suffix(k))
    ensures forall k :: 0 <= k < |calls| ==>
              && filled[k].name == calls[k].name && filled[k].arguments == calls[k].arguments
              && filled[k].id == if calls[k].id == "" then "tc_" + suffix(k) else calls[k].id
  {
    filled := calls;
    for k := 0 to |calls|
      invariant |filled| == |calls|
      invariant forall j :: 0 <= j < k ==> filled[j] == WithId(calls[j], suffix(j))
      invariant forall j :: k <= j < |calls| ==> filled[j] == calls[j]
    {
      if filled[k].id == "" {
        filled := filled[k := filled[k].(id := "tc_" + suffix(k))];
      }
    }
  }
}
