/** The matcher used when a run resumes: last call first, no shadowing. Each key's unresolved calls
    are proved to be the stack `RepairSpec.OpenStack` describes. */
module ResumeMatching {
  import opened History
  import opened RepairSpec
  import opened RepairPasses

  /** The active calls with one key, oldest first. */
  ghost function Live(tracked: seq<Tracked>, key: Key): seq<ToolCall> {
    if tracked == [] then []
    else
      var item := tracked[|tracked| - 1];
      Live(tracked[..|tracked| - 1], key) + if item.active && CallKey(item.call) == key then [item.call] else []
  }

  ghost function Trim(stack: seq<ToolCall>, count: nat): seq<ToolCall> {
    stack[..if |stack| > count then |stack| - count else 0]
  }

  lemma LiveAppend(tracked: seq<Tracked>, item: Tracked, key: Key)
    ensures Live(tracked + [item], key)
         == Live(tracked, key) + if item.active && CallKey(item.call) == key then [item.call] else []
  {
    assert (tracked + [item])[..|tracked|] == tracked;
  }

  lemma LiveLength(tracked: seq<Tracked>, key: Key)
    ensures |Live(tracked, key)| == |ActiveWith(tracked, key)|
  {}

  ghost function DropLast<T>(items: seq<T>): seq<T>
    requires items != []
  {
    items[..|items| - 1]
  }

  lemma {:induction false} PopLast(tracked: seq<Tracked>, top: nat, key: Key, other: Key)
    requires top < |tracked| && tracked[top].active && CallKey(tracked[top].call) == key
    requires forall t :: top < t < |tracked| ==> !(tracked[t].active && CallKey(tracked[t].call) == key)
    ensures Live(tracked, key) != [] && ActiveWith(tracked, key) != []
    ensures var popped := tracked[top := tracked[top].(active := false)];
      && Live(popped, other) == (if other == key then DropLast(Live(tracked, key)) else Live(tracked, other))
      && ActiveWith(popped, other)
         == (if other == key then DropLast(ActiveWith(tracked, key)) else ActiveWith(tracked, other))
  {
    hide MatchKey, Live, ActiveWith;
    var last := |tracked| - 1;
    var body, item := tracked[..last], tracked[last];
    var popped := tracked[top := tracked[top].(active := false)];
    assert tracked == body + [item];
    LiveAppend(body, item, key);
    LiveAppend(body, item, other);
    ActiveAppend(body, item, key);
    ActiveAppend(body, item, other);
    if top == last {
      var retired := item.(active := false);
      assert popped == body + [retired];
      LiveAppend(body, retired, other);
      ActiveAppend(body, retired, other);
    } else {
      PopLast(body, top, key, other);
      var shorter := body[top := body[top].(active := false)];
      assert popped == shorter + [item];
      LiveAppend(shorter, item, other);
      ActiveAppend(shorter, item, other);
    }
  }

  lemma CallsWithAppend(calls: seq<ToolCall>, call: ToolCall, key: Key)
    ensures CallsWith(calls + [call], key) == CallsWith(calls, key) + if CallKey(call) == key then [call] else []
  {
    if calls != [] {
      CallsWithAppend(calls[1..], call, key);
      assert (calls + [call])[0] == calls[0] && (calls + [call])[1..] == calls[1..] + [call];
      hide MatchKey;
    } else {
      assert calls + [call] == [call];
    }
  }

  ghost function TrackedCalls(tracked: seq<Tracked>): (calls: seq<ToolCall>)
    ensures |calls| == |tracked|
  {
    seq(|tracked|, t requires 0 <= t < |tracked| => tracked[t].call)
  }

  /** `picked` lists the places in `all` that `some` was taken from, in order. */
  ghost predicate Picks(some: seq<ToolCall>, all: seq<ToolCall>, picked: seq<nat>) {
    && |picked| == |some|
    && (forall i :: 0 <= i < |picked| ==> picked[i] < |all| && some[i] == all[picked[i]])
    && (forall i, j :: 0 <= i < j < |picked| ==> picked[i] < picked[j])
  }

  lemma TrackedMore(tracked: seq<Tracked>, item: Tracked)
    ensures TrackedCalls(tracked + [item]) == TrackedCalls(tracked) + [item.call]
  {}

  method PushCalls(calls: seq<ToolCall>, tracked: seq<Tracked>, open: Queues)
    returns (tracked': seq<Tracked>, open': Queues)
    requires QueuesOk(tracked, open)
    ensures QueuesOk(tracked', open')
    ensures forall key :: Live(tracked', key) == Live(tracked, key) + CallsWith(calls, key)
    ensures TrackedCalls(tracked') == TrackedCalls(tracked) + calls
  {
    hide Live, ActiveWith, CallsWith, TrackedCalls;
    tracked', open' := tracked, open;
    NothingLive();
    assert calls[..0] == [];
    for index := 0 to |calls|
      invariant QueuesOk(tracked', open')
      invariant forall key :: Live(tracked', key) == Live(tracked, key) + CallsWith(calls[..index], key)
      invariant TrackedCalls(tracked') == TrackedCalls(tracked) + calls[..index]
    {
      var call := calls[index];
      var key := CallKey(call);
      var item := Tracked(0, call, true, false);
      ghost var before, queues := tracked', open';
      open' := open'[key := Pending(open', key) + [|tracked'|]];
      tracked' := tracked' + [item];
      assert TrackedCalls(tracked') == TrackedCalls(before) + [call] by { TrackedMore(before, item); }
      assert calls[..index + 1] == calls[..index] + [call];
      forall k
        ensures Live(tracked', k) == Live(tracked, k) + CallsWith(calls[..index + 1], k)
        ensures Pending(open', k) == ActiveWith(tracked', k)
      {
        LiveAppend(before, item, k);
        ActiveAppend(before, item, k);
        CallsWithAppend(calls[..index], call, k);
        assert Live(before, k) == Live(tracked, k) + CallsWith(calls[..index], k);
        assert Pending(queues, k) == ActiveWith(before, k);
      }
    }
    assert calls[..|calls|] == calls;
  }

  method PopResults(parts: seq<RequestPart>, tracked: seq<Tracked>, open: Queues)
    returns (tracked': seq<Tracked>, open': Queues)
    requires QueuesOk(tracked, open)
    ensures QueuesOk(tracked', open')
    ensures forall key :: Live(tracked', key) == Trim(Live(tracked, key), CountResults(parts, key))
    ensures TrackedCalls(tracked') == TrackedCalls(tracked)
  {
    hide Live, ActiveWith, CountResults;
    tracked', open' := tracked, open;
    NoResults();
    assert parts[..0] == [];
    for index := 0 to |parts|
      invariant QueuesOk(tracked', open')
      invariant forall key :: Live(tracked', key) == Trim(Live(tracked, key), CountResults(parts[..index], key))
      invariant TrackedCalls(tracked') == TrackedCalls(tracked)
    {
      var part := parts[index];
      assert parts[..index + 1] == parts[..index] + [part];
      ghost var before, queues := tracked', open';
      if IsResult(part) {
        var key := ResultKey(part);
        var calls := Pending(open', key);
        assert calls == ActiveWith(tracked', key);
        ActiveMembers(tracked', key);
        LiveLength(tracked', key);
        if |calls| > 0 {
          var top := calls[|calls| - 1];
          var item := tracked'[top];
          tracked' := tracked'[top := item.(active := false)];
          open' := open'[key := calls[..|calls| - 1]];
          forall k
            ensures Live(tracked', k) == if k == key then DropLast(Live(before, k)) else Live(before, k)
            ensures Pending(open', k) == ActiveWith(tracked', k)
          {
            assert Pending(queues, k) == ActiveWith(before, k);
            PopLast(before, top, key, k);
          }
        }
      }
      forall k ensures Live(tracked', k) == Trim(Live(tracked, k), CountResults(parts[..index + 1], k)) {
        CountResultsConcat(parts[..index], [part], k);
        OneResult(part, k);
        assert Live(before, k) == Trim(Live(tracked, k), CountResults(parts[..index], k));
      }
    }
    assert parts[..|parts|] == parts;
  }

  lemma NoResults()
    ensures forall key :: CountResults([], key) == 0
  {}

  method ActiveCalls(tracked: seq<Tracked>) returns (pending: seq<ToolCall>, ghost picked: seq<nat>)
    ensures forall key :: CallsWith(pending, key) == Live(tracked, key)
    ensures Picks(pending, TrackedCalls(tracked), picked)
  {
    hide Live, CallsWith;
    NothingLive();
    pending, picked := [], [];
    assert tracked[..0] == [];
    for index := 0 to |tracked|
      invariant forall key :: CallsWith(pending, key) == Live(tracked[..index], key)
      invariant Picks(pending, TrackedCalls(tracked), picked) && (picked != [] ==> picked[|picked| - 1] < index)
    {
      ghost var before := pending;
      if tracked[index].active {
        pending := pending + [tracked[index].call];
        picked := picked + [index];
      }
      assert tracked[..index + 1] == tracked[..index] + [tracked[index]];
      forall key ensures CallsWith(pending, key) == Live(tracked[..index + 1], key) {
        LiveAppend(tracked[..index], tracked[index], key);
        CallsWithAppend(before, tracked[index].call, key);
        assert CallsWith(before, key) == Live(tracked[..index], key);
      }
    }
    assert tracked[..|tracked|] == tracked;
  }

  lemma NothingLive()
    ensures forall key :: CallsWith([], key) == [] && Live([], key) == []
  {}

  ghost predicate StackedUpTo(messages: seq<Message>, index: nat, tracked: seq<Tracked>)
    requires index <= |messages|
  {
    forall key :: OpenStack(messages, key, []) == OpenStack(messages[index..], key, Live(tracked, key))
  }

  lemma StackStep(messages: seq<Message>, index: nat, before: seq<Tracked>, after: seq<Tracked>)
    requires index < |messages| && StackedUpTo(messages, index, before)
    requires forall key ::
      (Live(after, key)
       == if messages[index].Response? then Live(before, key) + CallsWith(Calls(messages[index].outs), key)
          else Trim(Live(before, key), CountResults(messages[index].parts, key)))
    ensures StackedUpTo(messages, index + 1, after)
  {
    hide Live, Calls, CallsWith, CountResults;
    assert messages[index..][1..] == messages[index + 1..];
    forall key ensures OpenStack(messages, key, []) == OpenStack(messages[index + 1..], key, Live(after, key)) {
      assert OpenStack(messages, key, []) == OpenStack(messages[index..], key, Live(before, key));
    }
  }

  lemma NextCalls(messages: seq<Message>, index: nat)
    requires index < |messages|
    ensures Calls(AllOuts(messages[index..]))
         == (if messages[index].Response? then Calls(messages[index].outs) else [])
           + Calls(AllOuts(messages[index + 1..]))
  {
    assert messages[index..][1..] == messages[index + 1..];
    var outs := if messages[index].Response? then messages[index].outs else [];
    assert AllOuts(messages[index..]) == outs + AllOuts(messages[index + 1..]);
    CallsConcat(outs, AllOuts(messages[index + 1..]));
  }

  /** Every unresolved call, and no other: per key, the calls left on the stack, all in call order. */
  method UnresolvedToolCalls(messages: seq<Message>) returns (pending: seq<ToolCall>)
    ensures forall key :: CallsWith(pending, key) == OpenStack(messages, key, [])
    ensures exists picked :: Picks(pending, Calls(AllOuts(messages)), picked)
    ensures AllAnswered(messages) ==> pending == []
  {
    var tracked: seq<Tracked> := [];
    var open: Queues := map[];
    assert messages[0..] == messages;
    for index := 0 to |messages|
      invariant QueuesOk(tracked, open)
      invariant StackedUpTo(messages, index, tracked)
      invariant TrackedCalls(tracked) + Calls(AllOuts(messages[index..])) == Calls(AllOuts(messages))
    {
      ghost var before := tracked;
      NextCalls(messages, index);
      match messages[index] {
        case Response(_, _, _, _, _, _, _, _, _) =>
          tracked, open := PushCalls(Calls(messages[index].outs), tracked, open);
        case Request(_, _, _, _, _, _, _) =>
          tracked, open := PopResults(messages[index].parts, tracked, open);
      }
      StackStep(messages, index, before, tracked);
    }
    ghost var picked;
    pending, picked := ActiveCalls(tracked);
    assert Picks(pending, Calls(AllOuts(messages)), picked);
    forall key ensures CallsWith(pending, key) == OpenStack(messages, key, []) {
      assert OpenStack(messages, key, []) == OpenStack(messages[|messages|..], key, Live(tracked, key));
    }
    if AllAnswered(messages) && pending != [] {
      ghost var key := CallKey(pending[0]);
      ghost var left := CallsWith(pending, key);
      AnsweredLeavesNoStack(messages, key, []);
    }
  }

  lemma {:induction false} StackMore(messages: seq<Message>, more: seq<Message>, key: Key, stack: seq<ToolCall>)
    ensures OpenStack(messages + more, key, stack) == OpenStack(more, key, OpenStack(messages, key, stack))
  {
    if messages == [] {
      assert messages + more == more;
    } else {
      assert (messages + more)[0] == messages[0] && (messages + more)[1..] == messages[1..] + more;
      hide CallsWith, CountResults, Calls;
      var message := messages[0];
      if message.Response? {
        StackMore(messages[1..], more, key, stack + CallsWith(Calls(message.outs), key));
      } else {
        var left := |stack| - CountResults(message.parts, key);
        StackMore(messages[1..], more, key, stack[..if left > 0 then left else 0]);
      }
    }
  }

  /** Results go to the calls made last: the calls of the response before them, from its last one, and only then
      to calls made earlier. */
  lemma {:induction false} LastCallsFirst(messages: seq<Message>, response: Message, request: Message, key: Key)
    requires response.Response? && request.Request?
    ensures var before := OpenStack(messages, key, []);
      var calls, results := CallsWith(Calls(response.outs), key), CountResults(request.parts, key);
      OpenStack(messages + [response, request], key, [])
      == if results <= |calls| then before + calls[..|calls| - results]
         else if results - |calls| <= |before| then before[..|before| - (results - |calls|)]
         else []
  {
    StackMore(messages, [response, request], key, []);
    hide CallsWith, CountResults, Calls;
    var before, calls := OpenStack(messages, key, []), CallsWith(Calls(response.outs), key);
    assert [response, request][1..] == [request] && [request][1..] == [];
    var left := |before + calls| - CountResults(request.parts, key);
    assert OpenStack([request], key, before + calls) == (before + calls)[..if left > 0 then left else 0];
    assert OpenStack([response, request], key, before) == OpenStack([request], key, before + calls);
    if CountResults(request.parts, key) <= |calls| {
      assert (before + calls)[..left] == before + calls[..|calls| - CountResults(request.parts, key)];
    } else if left >= 0 {
      assert (before + calls)[..left] == before[..left];
    }
  }
}
