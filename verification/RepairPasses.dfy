/** The repair passes as the code runs them: loops over messages, parts and calls that fill local
    slices, sets and maps. Each is proved equal to its description in `RepairSpec`. */
module RepairPasses {
  import opened History
  import opened RepairSpec

  // ----- orphaned results -----

  lemma {:induction false} DropStep(messages: seq<Message>, index: nat, seen: set<Key>)
    requires index < |messages|
    ensures var message := messages[index];
      var rest := DropOrphans(messages[index + 1..], SeenAfter(message, seen));
      DropOrphans(messages[index..], seen)
      == if message.Response? then [message] + rest
         else
           var parts := KeepParts(message.parts, seen);
           if parts != [] || index == |messages| - 1 then [message.(parts := parts)] + rest else rest
  {
    assert messages[index..][1..] == messages[index + 1..];
  }

  method KeepKnownParts(parts: seq<RequestPart>, seenCalls: set<Key>) returns (kept: seq<RequestPart>)
    ensures kept == KeepParts(parts, seenCalls)
  {
    kept := [];
    for index := 0 to |parts|
      invariant KeepParts(parts, seenCalls) == kept + KeepParts(parts[index..], seenCalls)
    {
      var part := parts[index];
      assert parts[index..][1..] == parts[index + 1..];
      if IsResult(part) && ResultKey(part) !in seenCalls {
        continue;
      }
      kept := kept + [part];
    }
  }

  lemma DropEnds(messages: seq<Message>, seen: set<Key>)
    ensures messages[0..] == messages && DropOrphans(messages[|messages|..], seen) == []
  {}

  ghost function KeysOf(calls: seq<ToolCall>): set<Key> { set call | call in calls :: CallKey(call) }

  lemma KeysGrow(calls: seq<ToolCall>, index: nat)
    requires index < |calls|
    ensures KeysOf(calls[..index + 1]) == KeysOf(calls[..index]) + {CallKey(calls[index])}
  {
    assert calls[..index + 1] == calls[..index] + [calls[index]];
  }

  method SeeCalls(message: Message, seenCalls: set<Key>) returns (seen: set<Key>)
    ensures seen == SeenAfter(message, seenCalls)
  {
    seen := seenCalls;
    var calls := MessageCalls(message);
    assert calls[..0] == [] && calls[..|calls|] == calls;
    assert SeenAfter(message, seenCalls) == seenCalls + KeysOf(calls);
    assert seenCalls + KeysOf([]) == seenCalls;
    hide KeysOf, SeenAfter, Calls;
    for index := 0 to |calls|
      invariant seen == seenCalls + KeysOf(calls[..index])
    {
      KeysGrow(calls, index);
      seen := seen + {CallKey(calls[index])};
    }
  }

  method DropOrphanedToolResults(messages: seq<Message>) returns (repaired: seq<Message>)
    ensures repaired == DropOrphans(messages, {})
  {
    hide Calls, DropOrphans, KeepParts, SeenAfter;
    var seenCalls: set<Key> := {};
    repaired := [];
    DropEnds(messages, {});
    for index := 0 to |messages|
      invariant DropOrphans(messages, {}) == repaired + DropOrphans(messages[index..], seenCalls)
    {
      var message := messages[index];
      DropStep(messages, index, seenCalls);
      match message {
        case Response(_, _, _, _, _, _, _, _, _) =>
          seenCalls := SeeCalls(message, seenCalls);
          repaired := repaired + [message];
        case Request(_, _, _, _, _, _, _) =>
          var parts := KeepKnownParts(message.parts, seenCalls);
          RequestSeesNothing(message, seenCalls);
          if |parts| > 0 || index == |messages| - 1 {
            repaired := repaired + [message.(parts := parts)];
          }
      }
    }
    DropEnds(messages, seenCalls);
  }

  // ----- dangling calls -----

  /** `open` holds positions in `tracked` where the code holds references to the same records. */
  datatype Tracked = Tracked(responseIndex: nat, call: ToolCall, active: bool, dangling: bool)

  type Queues = map<Key, seq<nat>>

  function Pending(open: Queues, key: Key): seq<nat> { if key in open then open[key] else [] }

  /** How many calls the first `count` messages make. */
  ghost function Offset(messages: seq<Message>, count: nat): nat
    requires count <= |messages|
  {
    if count == 0 then 0 else Offset(messages, count - 1) + |MessageCalls(messages[count - 1])|
  }

  ghost predicate CallsAgain(messages: seq<Message>, key: Key) {
    exists i :: 0 <= i < |messages| && CallsKey(messages[i], key)
  }

  /** The matcher is inside message `at`, having seen `calls` of its calls or `parts` of its parts. */
  ghost predicate Inside(messages: seq<Message>, at: nat, calls: seq<ToolCall>, parts: seq<RequestPart>) {
    at <= |messages| && (calls == [] || parts == [])
  }

  ghost function CallsOf(messages: seq<Message>, at: nat, calls: seq<ToolCall>, index: nat): seq<ToolCall>
    requires index <= at <= |messages|
  {
    if index == at then calls else MessageCalls(messages[index])
  }

  /** Results so far that can serve the calls response `index` makes with `key`. */
  ghost function Served(messages: seq<Message>, at: nat, parts: seq<RequestPart>, index: nat, key: Key): nat
    requires index <= at <= |messages|
  {
    if index == at then 0
    else Window(messages[index + 1..at], key)
         + if CallsAgain(messages[index + 1..at], key) then 0 else CountResults(parts, key)
  }

  ghost predicate Shadowed(messages: seq<Message>, at: nat, calls: seq<ToolCall>, index: nat, key: Key)
    requires index <= at <= |messages|
  {
    index < at && (CallsAgain(messages[index + 1..at], key) || CountCalls(calls, key) > 0)
  }

  ghost predicate SlotOk(
    messages: seq<Message>, at: nat, calls: seq<ToolCall>, parts: seq<RequestPart>, item: Tracked, slot: nat
  )
    requires Inside(messages, at, calls, parts)
  {
    var index := item.responseIndex;
    && index <= at
    && Offset(messages, index) <= slot < Offset(messages, index) + |CallsOf(messages, at, calls, index)|
    && var made := CallsOf(messages, at, calls, index);
       var position := slot - Offset(messages, index);
       var key := CallKey(item.call);
    && item.call == made[position]
    && (item.active || item.dangling
        <==> CountCalls(made[..position + 1], key) > Served(messages, at, parts, index, key))
    && (item.active ==> !Shadowed(messages, at, calls, index, key))
    && (item.dangling ==> Shadowed(messages, at, calls, index, key) && !item.active)
  }

  /** Positions of the active calls with one key, oldest first. */
  ghost function ActiveWith(tracked: seq<Tracked>, key: Key): seq<nat> {
    if tracked == [] then []
    else
      var item := tracked[|tracked| - 1];
      ActiveWith(tracked[..|tracked| - 1], key)
      + if item.active && CallKey(item.call) == key then [|tracked| - 1] else []
  }

  ghost predicate MatchOk(
    messages: seq<Message>, at: nat, calls: seq<ToolCall>, parts: seq<RequestPart>,
    tracked: seq<Tracked>, open: Queues
  ) {
    && Inside(messages, at, calls, parts)
    && |tracked| == Offset(messages, at) + |calls|
    && SlotsOk(messages, at, calls, parts, tracked)
    && QueuesOk(tracked, open)
  }

  ghost predicate SlotsOk(
    messages: seq<Message>, at: nat, calls: seq<ToolCall>, parts: seq<RequestPart>, tracked: seq<Tracked>
  )
    requires Inside(messages, at, calls, parts)
  {
    forall t :: 0 <= t < |tracked| ==> SlotOk(messages, at, calls, parts, tracked[t], t)
  }

  ghost predicate QueuesOk(tracked: seq<Tracked>, open: Queues) {
    forall key :: Pending(open, key) == ActiveWith(tracked, key)
  }

  lemma ActiveMembers(tracked: seq<Tracked>, key: Key)
    ensures forall x :: 0 <= x < |ActiveWith(tracked, key)| ==> ActiveWith(tracked, key)[x] < |tracked|
    ensures forall x, y :: 0 <= x < y < |ActiveWith(tracked, key)| ==>
      ActiveWith(tracked, key)[x] < ActiveWith(tracked, key)[y]
    ensures forall t :: 0 <= t < |tracked| ==>
      (t in ActiveWith(tracked, key) <==> tracked[t].active && CallKey(tracked[t].call) == key)
  {
    if tracked != [] {
      ActiveMembers(tracked[..|tracked| - 1], key);
    }
  }

  /** Retiring calls of one key leaves the other queues alone, and retiring all of them empties this one. */
  lemma ActiveAfterRetiring(tracked: seq<Tracked>, marked: seq<Tracked>, key: Key, other: Key)
    requires |marked| == |tracked|
    requires forall t :: 0 <= t < |tracked| ==>
      && marked[t].call == tracked[t].call
      && (marked[t].active <==> tracked[t].active && CallKey(tracked[t].call) != key)
    ensures ActiveWith(marked, other) == if other == key then [] else ActiveWith(tracked, other)
  {
    if tracked != [] {
      ActiveAfterRetiring(tracked[..|tracked| - 1], marked[..|tracked| - 1], key, other);
    }
  }

  lemma NoneActive(tracked: seq<Tracked>, key: Key)
    requires forall t :: 0 <= t < |tracked| ==> !(tracked[t].active && CallKey(tracked[t].call) == key)
    ensures ActiveWith(tracked, key) == []
  {}

  lemma ActiveAppend(tracked: seq<Tracked>, item: Tracked, key: Key)
    ensures ActiveWith(tracked + [item], key)
         == ActiveWith(tracked, key) + if item.active && CallKey(item.call) == key then [|tracked|] else []
  {
    assert (tracked + [item])[..|tracked|] == tracked;
  }

  lemma {:induction false} ActiveAfterPop(tracked: seq<Tracked>, front: nat, key: Key, other: Key)
    requires front < |tracked| && tracked[front].active && CallKey(tracked[front].call) == key
    requires forall t :: 0 <= t < front ==> !(tracked[t].active && CallKey(tracked[t].call) == key)
    ensures ActiveWith(tracked, key) != []
    ensures var popped := tracked[front := tracked[front].(active := false)];
      ActiveWith(popped, other) == if other == key then ActiveWith(tracked, key)[1..] else ActiveWith(tracked, other)
  {
    hide MatchKey, ActiveWith;
    var last := |tracked| - 1;
    var body, item := tracked[..last], tracked[last];
    assert tracked == body + [item];
    ActiveAppend(body, item, key);
    ActiveAppend(body, item, other);
    var popped := tracked[front := tracked[front].(active := false)];
    if front == last {
      NoneActive(body, key);
      assert popped == body + [item.(active := false)];
      ActiveAppend(body, item.(active := false), other);
    } else {
      ActiveAfterPop(body, front, key, other);
      var shorter := body[front := body[front].(active := false)];
      assert popped == shorter + [item];
      ActiveAppend(shorter, item, other);
    }
  }

  lemma WindowAppend(messages: seq<Message>, message: Message, key: Key)
    ensures Window(messages + [message], key)
         == Window(messages, key)
            + if CallsAgain(messages, key) || CallsKey(message, key) then 0 else MessageResults(message, key)
  {
    if messages == [] {
      assert messages + [message] == [message];
    } else {
      assert (messages + [message])[1..] == messages[1..] + [message];
      WindowAppend(messages[1..], message, key);
      if CallsAgain(messages[1..], key) {
        var i :| 0 <= i < |messages[1..]| && CallsKey(messages[1..][i], key);
        assert CallsKey(messages[i + 1], key);
      }
      if CallsAgain(messages, key) && !CallsKey(messages[0], key) {
        var i :| 0 <= i < |messages| && CallsKey(messages[i], key);
        assert CallsKey(messages[1..][i - 1], key);
      }
    }
  }

  lemma CallsAgainAppend(messages: seq<Message>, message: Message, key: Key)
    ensures CallsAgain(messages + [message], key) <==> CallsAgain(messages, key) || CallsKey(message, key)
  {
    var all := messages + [message];
    if CallsAgain(messages, key) {
      var i :| 0 <= i < |messages| && CallsKey(messages[i], key);
      assert CallsKey(all[i], key);
    }
    if CallsKey(message, key) {
      assert CallsKey(all[|messages|], key);
    }
  }

  lemma {:induction false} OffsetMonotone(messages: seq<Message>, low: nat, high: nat)
    requires low <= high <= |messages|
    ensures Offset(messages, low) <= Offset(messages, high)
    decreases high - low
  {
    hide Calls;
    if low < high {
      OffsetMonotone(messages, low + 1, high);
    }
  }

  lemma {:induction false} SlotBelow(messages: seq<Message>, index: nat, at: nat)
    requires index < at <= |messages|
    ensures Offset(messages, index) + |MessageCalls(messages[index])| <= Offset(messages, at)
  {
    hide Calls;
    OffsetMonotone(messages, index + 1, at);
  }

  /** A slot belongs to one response. */
  lemma {:induction false} SlotOwner(messages: seq<Message>, i: nat, j: nat, slot: nat)
    requires i < j <= |messages| && Offset(messages, j) <= slot
    ensures Offset(messages, i) + |MessageCalls(messages[i])| <= slot
  {
    SlotBelow(messages, i, j);
  }

  lemma RankGrows(calls: seq<ToolCall>, low: nat, high: nat, key: Key)
    requires low <= high <= |calls|
    ensures CountCalls(calls[..low], key) <= CountCalls(calls[..high], key)
  {
    assert calls[..high] == calls[..low] + calls[low..high];
    CountCallsConcat(calls[..low], calls[low..high], key);
  }

  /** Each rank up to the last is held by exactly one call. */
  lemma RankHolder(calls: seq<ToolCall>, count: nat, key: Key, rank: nat) returns (position: nat)
    requires count <= |calls| && 0 < rank <= CountCalls(calls[..count], key)
    ensures position < count && CallKey(calls[position]) == key && CountCalls(calls[..position + 1], key) == rank
  {
    CountCallsPrefix(calls, count, key);
    if CountCalls(calls[..count - 1], key) >= rank {
      position := RankHolder(calls, count - 1, key, rank);
    } else {
      position := count - 1;
    }
  }

  method Shadow(tracked: seq<Tracked>, pending: seq<nat>) returns (marked: seq<Tracked>)
    requires forall x :: 0 <= x < |pending| ==> pending[x] < |tracked|
    ensures |marked| == |tracked|
    ensures forall t :: 0 <= t < |tracked| ==>
      marked[t] == if t in pending then tracked[t].(active := false, dangling := true) else tracked[t]
  {
    marked := tracked;
    for x := 0 to |pending|
      invariant |marked| == |tracked|
      invariant forall t :: 0 <= t < |tracked| ==>
        marked[t] == if t in pending[..x] then tracked[t].(active := false, dangling := true) else tracked[t]
    {
      var item := marked[pending[x]];
      marked := marked[pending[x] := item.(active := false, dangling := true)];
      assert pending[..x + 1] == pending[..x] + [pending[x]];
    }
    assert pending[..|pending|] == pending;
  }

  lemma OneCall(call: ToolCall, key: Key)
    ensures CountCalls([call], key) == if CallKey(call) == key then 1 else 0
  {}

  lemma {:induction false} TrackSlot(messages: seq<Message>, at: nat, calls: seq<ToolCall>, call: ToolCall,
                                     item: Tracked, slot: nat)
    requires Inside(messages, at, calls, []) && SlotOk(messages, at, calls, [], item, slot)
    ensures var shadow := item.active && CallKey(item.call) == CallKey(call) && item.responseIndex < at;
            SlotOk(messages, at, calls + [call], [],
                   if shadow then item.(active := false, dangling := true) else item, slot)
  {
    hide CountCalls, Window, Calls, Offset, CallsAgain;
    var index := item.responseIndex;
    var position := slot - Offset(messages, index);
    OneCall(call, CallKey(item.call));
    CountCallsConcat(calls, [call], CallKey(item.call));
    if index == at {
      assert (calls + [call])[..position + 1] == calls[..position + 1];
    }
  }

  lemma {:induction false} NewSlot(messages: seq<Message>, at: nat, calls: seq<ToolCall>, call: ToolCall)
    requires Inside(messages, at, calls, [])
    ensures SlotOk(messages, at, calls + [call], [], Tracked(at, call, true, false), Offset(messages, at) + |calls|)
  {
    CountCallsPrefix(calls + [call], |calls| + 1, CallKey(call));
  }

  lemma LaterCallShadows(messages: seq<Message>, at: nat, calls: seq<ToolCall>, i: nat, j: nat, call: ToolCall)
    requires i < j <= at <= |messages| && call in CallsOf(messages, at, calls, j)
    ensures Shadowed(messages, at, calls, i, CallKey(call))
  {
    CountCallsMember(CallsOf(messages, at, calls, j), CallKey(call));
    if j < at {
      assert CallsKey(messages[i + 1..at][j - i - 1], CallKey(call));
    }
  }

  /** Pending calls of one key all belong to one response, the last one to call it. */
  lemma {:induction false} SameResponse(messages: seq<Message>, at: nat, calls: seq<ToolCall>, parts: seq<RequestPart>,
                     tracked: seq<Tracked>, open: Queues, t: nat, u: nat)
    requires MatchOk(messages, at, calls, parts, tracked, open)
    requires t < |tracked| && u < |tracked| && tracked[t].active && tracked[u].active
    requires CallKey(tracked[t].call) == CallKey(tracked[u].call)
    ensures tracked[t].responseIndex >= tracked[u].responseIndex
  {
    hide Window, Calls, CountCalls, Offset, Shadowed, Served, ActiveWith;
    var i, j, key := tracked[t].responseIndex, tracked[u].responseIndex, CallKey(tracked[u].call);
    assert SlotOk(messages, at, calls, parts, tracked[t], t);
    assert SlotOk(messages, at, calls, parts, tracked[u], u);
    if i < j {
      LaterCallShadows(messages, at, calls, i, j, tracked[u].call);
    }
  }

  lemma {:induction false} SlotsInRange(messages: seq<Message>, at: nat, calls: seq<ToolCall>, parts: seq<RequestPart>,
                                        tracked: seq<Tracked>)
    requires Inside(messages, at, calls, parts) && SlotsOk(messages, at, calls, parts, tracked)
    ensures forall t :: 0 <= t < |tracked| ==> tracked[t].responseIndex <= at
  {
    forall t | 0 <= t < |tracked| ensures tracked[t].responseIndex <= at {
      assert SlotOk(messages, at, calls, parts, tracked[t], t);
    }
  }

  /** The pending calls that a call of response `at` shadows are those of earlier responses. */
  lemma {:induction false} MarkedExactly(messages: seq<Message>, at: nat, calls: seq<ToolCall>, key: Key,
                      tracked: seq<Tracked>, open: Queues, t: nat)
    requires MatchOk(messages, at, calls, [], tracked, open) && t < |tracked|
    requires forall u :: 0 <= u < |tracked| ==>
      (u in Pending(open, key) <==> tracked[u].active && CallKey(tracked[u].call) == key)
    requires forall x :: 0 <= x < |Pending(open, key)| ==> Pending(open, key)[x] < |tracked|
    ensures var pending := Pending(open, key);
      tracked[t].active && CallKey(tracked[t].call) == key && tracked[t].responseIndex < at
      <==> t in pending && tracked[pending[|pending| - 1]].responseIndex != at
  {
    hide SlotOk, CallsOf, ActiveWith, Offset, Calls;
    var pending := Pending(open, key);
    SlotsInRange(messages, at, calls, [], tracked);
    if t in pending {
      var u := pending[|pending| - 1];
      assert u in pending;
      SameResponse(messages, at, calls, [], tracked, open, t, u);
      SameResponse(messages, at, calls, [], tracked, open, u, t);
    }
  }

  lemma {:induction false} TrackSlots(messages: seq<Message>, at: nat, calls: seq<ToolCall>, call: ToolCall,
                   tracked: seq<Tracked>, marked: seq<Tracked>)
    requires Inside(messages, at, calls, []) && SlotsOk(messages, at, calls, [], tracked)
    requires |marked| == |tracked| == Offset(messages, at) + |calls|
    requires forall t :: 0 <= t < |tracked| ==>
      marked[t] == if tracked[t].active && CallKey(tracked[t].call) == CallKey(call) && tracked[t].responseIndex < at
                   then tracked[t].(active := false, dangling := true) else tracked[t]
    ensures SlotsOk(messages, at, calls + [call], [], marked + [Tracked(at, call, true, false)])
  {
    var longer := marked + [Tracked(at, call, true, false)];
    hide SlotOk;
    forall t | 0 <= t < |longer| ensures SlotOk(messages, at, calls + [call], [], longer[t], t) {
      if t < |tracked| {
        TrackSlot(messages, at, calls, call, tracked[t], t);
      } else {
        NewSlot(messages, at, calls, call);
      }
    }
  }

  lemma {:induction false} TrackQueues(tracked: seq<Tracked>, marked: seq<Tracked>, open: Queues, pending: seq<nat>,
                                       item: Tracked)
    requires QueuesOk(tracked, open) && |marked| == |tracked| && item.active
    requires var queue := Pending(open, CallKey(item.call));
      || (pending == queue && marked == tracked)
      || (pending == [] && forall t :: 0 <= t < |tracked| ==>
            marked[t] == if t in queue then tracked[t].(active := false, dangling := true) else tracked[t])
    ensures QueuesOk(marked + [item], open[CallKey(item.call) := pending + [|tracked|]])
  {
    hide ActiveWith, MatchKey;
    var key := CallKey(item.call);
    var open' := open[key := pending + [|tracked|]];
    assert Pending(open, key) == ActiveWith(tracked, key);
    ActiveMembers(tracked, key);
    forall k ensures Pending(open', k) == ActiveWith(marked + [item], k) {
      assert Pending(open, k) == ActiveWith(tracked, k);
      ActiveAppend(marked, item, k);
      if pending == ActiveWith(tracked, key) && marked == tracked {
      } else {
        ActiveAfterRetiring(tracked, marked, key, k);
      }
      if k == key {
        assert Pending(open', k) == pending + [|tracked|];
      } else {
        assert Pending(open', k) == Pending(open, k);
        assert ActiveWith(marked + [item], k) == ActiveWith(marked, k) + [];
      }
    }
  }

  /** One call of response `at`: a pending call of an earlier response with the same key is shadowed. */
  method TrackCall(ghost messages: seq<Message>, at: nat, ghost calls: seq<ToolCall>, call: ToolCall,
                   tracked: seq<Tracked>, open: Queues)
    returns (tracked': seq<Tracked>, open': Queues)
    requires MatchOk(messages, at, calls, [], tracked, open)
    ensures MatchOk(messages, at, calls + [call], [], tracked', open')
  {
    hide SlotOk;
    var key := CallKey(call);
    var pending := Pending(open, key);
    assert pending == ActiveWith(tracked, key);
    ActiveMembers(tracked, key);
    tracked' := tracked;
    if |pending| > 0 && tracked[pending[|pending| - 1]].responseIndex != at {
      tracked' := Shadow(tracked, pending);
      pending := [];
    }
    forall t | 0 <= t < |tracked|
      ensures tracked'[t] == if tracked[t].active && CallKey(tracked[t].call) == key && tracked[t].responseIndex < at
                             then tracked[t].(active := false, dangling := true) else tracked[t]
    {
      MarkedExactly(messages, at, calls, key, tracked, open, t);
    }
    TrackSlots(messages, at, calls, call, tracked, tracked');
    TrackQueues(tracked, tracked', open, pending, Tracked(at, call, true, false));
    tracked' := tracked' + [Tracked(at, call, true, false)];
    open' := open[key := pending + [|tracked|]];
  }

  /** The oldest pending call is the next to be served, and every other one comes later. */
  lemma {:induction false} FrontIsNext(messages: seq<Message>, at: nat, parts: seq<RequestPart>, tracked: seq<Tracked>,
                                       open: Queues, key: Key, front: nat, t: nat)
    requires MatchOk(messages, at, [], parts, tracked, open)
    requires front < |tracked| && tracked[front].active && CallKey(tracked[front].call) == key
    requires forall u :: 0 <= u < front ==> !(tracked[u].active && CallKey(tracked[u].call) == key)
    requires front <= t < |tracked| && tracked[t].active && CallKey(tracked[t].call) == key
    ensures var index := tracked[t].responseIndex;
      && index < at && 0 <= t - Offset(messages, index) < |MessageCalls(messages[index])|
      && var made := MessageCalls(messages[index]);
         var rank := CountCalls(made[..t - Offset(messages, index) + 1], key);
         var served := Served(messages, at, parts, index, key);
      && (t == front ==> rank == served + 1)
      && (t != front ==> rank > served + 1)
  {
    hide CountCalls, Window, Calls, Offset, Served, Shadowed;
    assert SlotOk(messages, at, [], parts, tracked[front], front);
    assert SlotOk(messages, at, [], parts, tracked[t], t);
    SameResponse(messages, at, [], parts, tracked, open, front, t);
    SameResponse(messages, at, [], parts, tracked, open, t, front);
    var index := tracked[front].responseIndex;
    var base, made := Offset(messages, index), MessageCalls(messages[index]);
    var served := Served(messages, at, parts, index, key);
    var position := RankHolder(made, front - base + 1, key, served + 1);
    SlotAt(messages, at, [], parts, tracked, index, position);
    assert SlotOk(messages, at, [], parts, tracked[base + position], base + position);
    assert base + position == front;
    if t != front {
      RankGrows(made, front - base + 1, t - base, key);
      CountCallsPrefix(made, t - base + 1, key);
    }
  }

  lemma {:induction false} SlotAt(messages: seq<Message>, at: nat, calls: seq<ToolCall>, parts: seq<RequestPart>,
               tracked: seq<Tracked>, index: nat, position: nat)
    requires Inside(messages, at, calls, parts) && SlotsOk(messages, at, calls, parts, tracked)
    requires |tracked| == Offset(messages, at) + |calls|
    requires index <= at && position < |CallsOf(messages, at, calls, index)|
    ensures var slot := Offset(messages, index) + position;
      slot < |tracked| && tracked[slot].responseIndex == index
      && tracked[slot].call == CallsOf(messages, at, calls, index)[position]
  {
    hide CountCalls, Served, Shadowed, Calls, Offset;
    var slot := Offset(messages, index) + position;
    if index < at { SlotBelow(messages, index, at); }
    assert SlotOk(messages, at, calls, parts, tracked[slot], slot);
    var owner := tracked[slot].responseIndex;
    if owner < index {
      SlotOwner(messages, owner, index, slot);
    } else if index < owner {
      SlotOwner(messages, index, owner, slot);
    }
  }

  lemma OneResult(part: RequestPart, key: Key)
    ensures CountResults([part], key) == if AnswersKey(part, key) then 1 else 0
  {}

  lemma {:induction false} TakeSlot(messages: seq<Message>, at: nat, parts: seq<RequestPart>, part: RequestPart,
                                    item: Tracked, slot: nat, taken: bool)
    requires Inside(messages, at, [], parts) && SlotOk(messages, at, [], parts, item, slot)
    requires var index := item.responseIndex;
      var rank := CountCalls(MessageCalls(messages[index])[..slot - Offset(messages, index) + 1], CallKey(item.call));
      var served := Served(messages, at, parts, index, CallKey(item.call));
      if taken then item.active && AnswersKey(part, CallKey(item.call)) && rank == served + 1
      else item.active && AnswersKey(part, CallKey(item.call)) ==> rank > served + 1
    ensures SlotOk(messages, at, [], parts + [part], if taken then item.(active := false) else item, slot)
  {
    NothingYet(CallKey(item.call));
    OneResult(part, CallKey(item.call));
    hide CountCalls, CountResults, Window, Calls, Offset, CallsAgain;
    CountResultsConcat(parts, [part], CallKey(item.call));
  }

  lemma {:induction false} TakeSlots(messages: seq<Message>, at: nat, parts: seq<RequestPart>, part: RequestPart,
                  tracked: seq<Tracked>, open: Queues, front: nat)
    requires MatchOk(messages, at, [], parts, tracked, open) && IsResult(part)
    requires front < |tracked| && tracked[front].active && CallKey(tracked[front].call) == ResultKey(part)
    requires forall u :: 0 <= u < front ==> !(tracked[u].active && CallKey(tracked[u].call) == ResultKey(part))
    ensures SlotsOk(messages, at, [], parts + [part], tracked[front := tracked[front].(active := false)])
  {
    hide Offset, Calls, CountCalls, Window, ActiveWith;
    var popped := tracked[front := tracked[front].(active := false)];
    forall t | 0 <= t < |popped| ensures SlotOk(messages, at, [], parts + [part], popped[t], t) {
      assert SlotOk(messages, at, [], parts, tracked[t], t);
      if tracked[t].active && CallKey(tracked[t].call) == ResultKey(part) {
        FrontIsNext(messages, at, parts, tracked, open, ResultKey(part), front, t);
      }
      TakeSlot(messages, at, parts, part, tracked[t], t, t == front);
    }
  }

  lemma {:induction false} IgnoreSlots(messages: seq<Message>, at: nat, parts: seq<RequestPart>, part: RequestPart,
                                       tracked: seq<Tracked>)
    requires Inside(messages, at, [], parts) && SlotsOk(messages, at, [], parts, tracked)
    requires IsResult(part) ==>
      forall t :: 0 <= t < |tracked| ==> !(tracked[t].active && CallKey(tracked[t].call) == ResultKey(part))
    ensures SlotsOk(messages, at, [], parts + [part], tracked)
  {
    forall t | 0 <= t < |tracked| ensures SlotOk(messages, at, [], parts + [part], tracked[t], t) {
      assert SlotOk(messages, at, [], parts, tracked[t], t);
      TakeSlot(messages, at, parts, part, tracked[t], t, false);
    }
  }

  /** One tool result of message `at` resolves the oldest pending call with its key. */
  method TakeResult(ghost messages: seq<Message>, ghost at: nat, ghost parts: seq<RequestPart>, part: RequestPart,
                    tracked: seq<Tracked>, open: Queues)
    returns (tracked': seq<Tracked>, open': Queues)
    requires MatchOk(messages, at, [], parts, tracked, open)
    ensures MatchOk(messages, at, [], parts + [part], tracked', open')
  {
    hide SlotsOk, ActiveWith, SlotOk;
    tracked', open' := tracked, open;
    if IsResult(part) {
      var key := ResultKey(part);
      var pending := Pending(open, key);
      assert pending == ActiveWith(tracked, key);
      ActiveMembers(tracked, key);
      if |pending| > 0 {
        var item := tracked[pending[0]];
        TakeSlots(messages, at, parts, part, tracked, open, pending[0]);
        tracked' := tracked[pending[0] := item.(active := false)];
        open' := open[key := pending[1..]];
        forall k ensures Pending(open', k) == ActiveWith(tracked', k) {
          ActiveAfterPop(tracked, pending[0], key, k);
          assert Pending(open, k) == ActiveWith(tracked, k);
        }
        return;
      }
    }
    IgnoreSlots(messages, at, parts, part, tracked);
  }

  lemma {:induction false} NextSlot(messages: seq<Message>, at: nat, calls: seq<ToolCall>, parts: seq<RequestPart>,
                                    item: Tracked, slot: nat)
    requires at < |messages| && Inside(messages, at, calls, parts) && SlotOk(messages, at, calls, parts, item, slot)
    requires calls == MessageCalls(messages[at])
    requires parts == if messages[at].Request? then messages[at].parts else []
    ensures SlotOk(messages, at + 1, [], [], item, slot)
  {
    hide Offset, Calls, CountCalls, Window;
    var index, key := item.responseIndex, CallKey(item.call);
    NothingYet(key);
    if index < at {
      assert messages[index + 1..at + 1] == messages[index + 1..at] + [messages[at]];
      WindowAppend(messages[index + 1..at], messages[at], key);
      CallsAgainAppend(messages[index + 1..at], messages[at], key);
      RequestMakesNoCalls(messages[at], key);
    } else {
      assert messages[index + 1..at + 1] == [];
    }
  }

  lemma NothingYet(key: Key)
    ensures CountCalls([], key) == 0 && Window([], key) == 0 && !CallsAgain([], key)
  {}

  lemma RequestMakesNoCalls(message: Message, key: Key)
    ensures message.Request? ==> !CallsKey(message, key)
  {}

  lemma {:induction false} NextMessage(messages: seq<Message>, at: nat, calls: seq<ToolCall>, parts: seq<RequestPart>,
                                       tracked: seq<Tracked>, open: Queues)
    requires at < |messages| && MatchOk(messages, at, calls, parts, tracked, open)
    requires calls == MessageCalls(messages[at])
    requires parts == if messages[at].Request? then messages[at].parts else []
    ensures MatchOk(messages, at + 1, [], [], tracked, open)
  {
    hide SlotOk;
    forall t | 0 <= t < |tracked| ensures SlotOk(messages, at + 1, [], [], tracked[t], t) {
      NextSlot(messages, at, calls, parts, tracked[t], t);
    }
  }

  lemma MatchStarts(messages: seq<Message>)
    ensures MatchOk(messages, 0, [], [], [], map[])
  {}

  /** The matching loop over the whole history. */
  method MatchResults(messages: seq<Message>) returns (tracked: seq<Tracked>, ghost open': Queues)
    ensures MatchOk(messages, |messages|, [], [], tracked, open')
  {
    tracked := [];
    var open: Queues := map[];
    MatchStarts(messages);
    hide MatchOk, Calls;
    for index := 0 to |messages|
      invariant MatchOk(messages, index, [], [], tracked, open)
    {
      match messages[index] {
        case Response(_, _, _, _, _, _, _, _, _) =>
          var calls := Calls(messages[index].outs);
          assert calls[..0] == [];
          for i := 0 to |calls|
            invariant MatchOk(messages, index, calls[..i], [], tracked, open)
          {
            tracked, open := TrackCall(messages, index, calls[..i], calls[i], tracked, open);
            assert calls[..i] + [calls[i]] == calls[..i + 1];
          }
          assert calls[..|calls|] == calls;
          NextMessage(messages, index, calls, [], tracked, open);
        case Request(_, _, _, _, _, _, _) =>
          var parts := messages[index].parts;
          assert parts[..0] == [];
          for i := 0 to |parts|
            invariant MatchOk(messages, index, [], parts[..i], tracked, open)
          {
            tracked, open := TakeResult(messages, index, parts[..i], parts[i], tracked, open);
            assert parts[..i] + [parts[i]] == parts[..i + 1];
          }
          assert parts[..|parts|] == parts;
          NextMessage(messages, index, [], parts, tracked, open);
      }
    }
    open' := open;
  }

  type Shortfall = map<nat, seq<RequestPart>>

  function ShortfallOf(dangling: Shortfall, index: nat): seq<RequestPart> {
    if index in dangling then dangling[index] else []
  }

  ghost function Visited(messages: seq<Message>, slots: nat, index: nat): (count: nat)
    requires index < |messages|
    ensures count <= |MessageCalls(messages[index])|
  {
    var all, seen := |MessageCalls(messages[index])|, slots - Offset(messages, index);
    if seen < 0 then 0 else if seen > all then all else seen
  }

  lemma {:induction false} VisitOne(messages: seq<Message>, slot: nat, owner: nat, index: nat)
    requires owner < |messages| && index < |messages|
    requires Offset(messages, owner) <= slot < Offset(messages, owner) + |MessageCalls(messages[owner])|
    ensures Visited(messages, slot + 1, index) == Visited(messages, slot, index) + if index == owner then 1 else 0
  {
    hide Offset, Calls;
    if index < owner {
      SlotBelow(messages, index, owner);
    } else if owner < index {
      SlotBelow(messages, owner, index);
    }
  }

  lemma {:induction false} MissingStep(messages: seq<Message>, tracked: seq<Tracked>, slot: nat, index: nat)
    requires slot < |tracked| && SlotOk(messages, |messages|, [], [], tracked[slot], slot)
    requires index < |messages|
    ensures tracked[slot].responseIndex < |messages|
    ensures var item := tracked[slot];
      Missing(MessageCalls(messages[index]), Visited(messages, slot + 1, index), messages[index + 1..])
      == Missing(MessageCalls(messages[index]), Visited(messages, slot, index), messages[index + 1..])
         + if index == item.responseIndex && (item.active || item.dangling) then [Interrupted(item.call)] else []
  {
    hide Offset, Calls, CountCalls, Window;
    var owner := tracked[slot].responseIndex;
    assert messages[owner + 1..|messages|] == messages[owner + 1..];
    VisitOne(messages, slot, owner, index);
  }

  method CollectDangling(messages: seq<Message>, tracked: seq<Tracked>, ghost open: Queues)
    returns (dangling: Shortfall)
    requires MatchOk(messages, |messages|, [], [], tracked, open)
    ensures forall index :: 0 <= index < |messages| ==>
      ShortfallOf(dangling, index) == AddedFor(messages[index], messages[index + 1..])
  {
    hide Calls, Offset, Missing, SlotOk;
    dangling := map[];
    forall index | 0 <= index < |messages|
      ensures Missing(MessageCalls(messages[index]), Visited(messages, 0, index), messages[index + 1..]) == []
    {
      StartEmpty(messages, index);
    }
    for t := 0 to |tracked|
      invariant forall index :: 0 <= index < |messages| ==>
        ShortfallOf(dangling, index)
        == Missing(MessageCalls(messages[index]), Visited(messages, t, index), messages[index + 1..])
    {
      var item := tracked[t];
      ghost var before := dangling;
      if item.active || item.dangling {
        var before := ShortfallOf(dangling, item.responseIndex);
        dangling := dangling[item.responseIndex := before + [Interrupted(item.call)]];
      }
      forall index | 0 <= index < |messages|
        ensures ShortfallOf(dangling, index)
          == Missing(MessageCalls(messages[index]), Visited(messages, t + 1, index), messages[index + 1..])
      {
        MissingStep(messages, tracked, t, index);
      }
    }
    forall index | 0 <= index < |messages|
      ensures ShortfallOf(dangling, index) == AddedFor(messages[index], messages[index + 1..])
    {
      EndFull(messages, index);
    }
  }

  lemma StartEmpty(messages: seq<Message>, index: nat)
    requires index < |messages|
    ensures Missing(MessageCalls(messages[index]), Visited(messages, 0, index), messages[index + 1..]) == []
  {}

  lemma {:induction false} EndFull(messages: seq<Message>, index: nat)
    requires index < |messages|
    ensures Visited(messages, Offset(messages, |messages|), index) == |MessageCalls(messages[index])|
    ensures AddedFor(messages[index], messages[index + 1..])
         == Missing(MessageCalls(messages[index]), |MessageCalls(messages[index])|, messages[index + 1..])
  {
    hide Calls, Offset, Window, CountCalls;
    SlotBelow(messages, index, |messages|);
    if messages[index].Request? {
      RequestMakesNone(messages[index]);
    }
  }

  lemma RequestMakesNone(message: Message)
    requires message.Request?
    ensures MessageCalls(message) == []
  {}

  // ----- rebuilding -----

  method InsertionPoint(parts: seq<RequestPart>) returns (insertAt: nat)
    ensures insertAt == LastResult(parts)
  {
    insertAt := 0;
    for index := 0 to |parts|
      invariant insertAt == LastResult(parts[..index])
    {
      assert parts[..index + 1][..index] == parts[..index];
      if IsResult(parts[index]) {
        insertAt := index + 1;
      }
    }
    assert parts[..|parts|] == parts;
  }

  lemma {:induction false} NothingAdded(messages: seq<Message>)
    requires forall i :: 0 <= i < |messages| ==> AddedFor(messages[i], messages[i + 1..]) == []
    ensures AllAnswered(messages)
  {
    hide AddedFor;
    if messages != [] {
      var message, rest := messages[0], messages[1..];
      assert AddedFor(message, messages[0 + 1..]) == [];
      forall i | 0 <= i < |rest| ensures AddedFor(rest[i], rest[i + 1..]) == [] {
        assert rest[i + 1..] == messages[i + 1 + 1..];
        assert AddedFor(messages[i + 1], messages[i + 1 + 1..]) == [];
      }
      NothingAdded(rest);
      NothingAddedHere(message, rest);
    }
  }

  lemma NothingAddedHere(message: Message, rest: seq<Message>)
    requires AddedFor(message, rest) == []
    ensures AnsweredBy(message, rest)
  {
    forall key ensures CountCalls(MessageCalls(message), key) <= Window(rest, key) {
      MissingAfterIsShortfall(message, rest, key);
    }
  }

  lemma FillAt(messages: seq<Message>, index: nat, pending: seq<RequestPart>)
    requires index < |messages|
    ensures var rest := Fill(messages[index + 1..], AddedFor(messages[index], messages[index + 1..]));
      Fill(messages[index..], pending) == (FilledHead(messages[index], pending) + rest.0, rest.1)
  {
    var message := messages[index];
    var rest := Fill(messages[index + 1..], AddedFor(message, messages[index + 1..]));
    assert messages[index..][1..] == messages[index + 1..] && messages[index..][0] == message;
    if message.Response? && pending == [] {
      assert [] + [message] + rest.0 == [message] + rest.0;
    } else if message.Response? {
      assert [BareRequest(pending)] + [message] == FilledHead(message, pending);
    }
  }

  method RepairDanglingToolCalls(messages: seq<Message>)
    returns (repaired: seq<Message>, pending: seq<RequestPart>)
    ensures (repaired, pending) == Fill(messages, [])
  {
    ghost var open;
    var tracked: seq<Tracked>;
    tracked, open := MatchResults(messages);
    var dangling := CollectDangling(messages, tracked, open);
    if |dangling| == 0 {
      NothingAdded(messages);
      FillIdle(messages);
      return messages, [];
    }
    repaired, pending := InsertDangling(messages, dangling);
  }

  /** The first `index` messages have been filled into `repaired`, leaving `pending`. */
  ghost predicate FilledUpTo(messages: seq<Message>, index: nat, repaired: seq<Message>, pending: seq<RequestPart>)
    requires index <= |messages|
  {
    var rest := Fill(messages[index..], pending);
    Fill(messages, []) == (repaired + rest.0, rest.1)
  }

  lemma FillOne(messages: seq<Message>, index: nat, repaired: seq<Message>, pending: seq<RequestPart>)
    requires index < |messages| && FilledUpTo(messages, index, repaired, pending)
    ensures FilledUpTo(messages, index + 1, repaired + FilledHead(messages[index], pending),
                       AddedFor(messages[index], messages[index + 1..]))
  {
    FillAt(messages, index, pending);
    hide Fill, FilledHead, AddedFor;
    var head := FilledHead(messages[index], pending);
    var rest := Fill(messages[index + 1..], AddedFor(messages[index], messages[index + 1..]));
    assert repaired + (head + rest.0) == (repaired + head) + rest.0;
  }

  lemma FillEnds(messages: seq<Message>, repaired: seq<Message>, pending: seq<RequestPart>)
    ensures FilledUpTo(messages, 0, [], [])
    ensures FilledUpTo(messages, |messages|, repaired, pending) ==> Fill(messages, []) == (repaired, pending)
  {
    assert messages[0..] == messages && messages[|messages|..] == [];
    assert [] + Fill(messages, []).0 == Fill(messages, []).0 && repaired + [] == repaired;
  }

  method InsertDangling(messages: seq<Message>, dangling: Shortfall)
    returns (repaired: seq<Message>, pending: seq<RequestPart>)
    requires forall index :: 0 <= index < |messages| ==>
      ShortfallOf(dangling, index) == AddedFor(messages[index], messages[index + 1..])
    ensures (repaired, pending) == Fill(messages, [])
  {
    hide Fill, AddedFor, InsertResults, FilledUpTo, LastResult;
    repaired, pending := [], [];
    FillEnds(messages, repaired, pending);
    for index := 0 to |messages|
      invariant FilledUpTo(messages, index, repaired, pending)
    {
      FillOne(messages, index, repaired, pending);
      ghost var sofar, head := repaired, FilledHead(messages[index], pending);
      var message := messages[index];
      match message {
        case Response(_, _, _, _, _, _, _, _, _) =>
          if |pending| > 0 {
            repaired := repaired + [BareRequest(pending)];
          }
          repaired := repaired + [message];
          pending := ShortfallOf(dangling, index);
        case Request(_, _, _, _, _, _, _) =>
          RequestAddsNone(message, messages[index + 1..], pending);
          if |pending| > 0 {
            var insertAt := InsertionPoint(message.parts);
            message := message.(parts := message.parts[..insertAt] + pending + message.parts[insertAt..]);
            pending := [];
          }
          repaired := repaired + [message];
      }
      assert repaired == sofar + head;
    }
    FillEnds(messages, repaired, pending);
  }

  lemma RequestAddsNone(message: Message, rest: seq<Message>, pending: seq<RequestPart>)
    requires message.Request?
    ensures AddedFor(message, rest) == []
    ensures pending == [] ==> InsertResults(message.parts, pending) == message.parts
    ensures InsertResults(message.parts, pending)
         == message.parts[..LastResult(message.parts)] + pending + message.parts[LastResult(message.parts)..]
  {}

  // ----- merging -----

  lemma SplitStep(parts: seq<RequestPart>, index: nat)
    requires index < |parts|
    ensures Results(parts[index..])
      == (if IsResult(parts[index]) then [parts[index]] else []) + Results(parts[index + 1..])
    ensures NonResults(parts[index..])
         == (if IsResult(parts[index]) then [] else [parts[index]]) + NonResults(parts[index + 1..])
  {
    assert parts[index..][1..] == parts[index + 1..];
  }

  lemma SplitEnds(parts: seq<RequestPart>)
    ensures parts[0..] == parts && Results(parts[|parts|..]) == [] && NonResults(parts[|parts|..]) == []
  {}

  method ResultsFirst(combined: seq<RequestPart>) returns (parts: seq<RequestPart>)
    ensures parts == Results(combined) + NonResults(combined)
  {
    hide Results, NonResults;
    SplitEnds(combined);
    parts := [];
    for index := 0 to |combined|
      invariant Results(combined) == parts + Results(combined[index..])
    {
      SplitStep(combined, index);
      if IsResult(combined[index]) {
        parts := parts + [combined[index]];
      }
    }
    for index := 0 to |combined|
      invariant Results(combined) + NonResults(combined) == parts + NonResults(combined[index..])
    {
      SplitStep(combined, index);
      if !IsResult(combined[index]) {
        parts := parts + [combined[index]];
      }
    }
  }

  lemma {:induction false} MergeStep(last: Message, messages: seq<Message>, index: nat)
    requires index < |messages|
    ensures Merge([last] + messages[index..])
         == if Mergeable(last, messages[index]) then Merge([Combine(last, messages[index])] + messages[index + 1..])
            else [last] + Merge([messages[index]] + messages[index + 1..])
  {
    hide Combine;
    var all := [last] + messages[index..];
    assert all[0] == last && all[1] == messages[index] && all[2..] == messages[index + 1..];
    assert all[1..] == [messages[index]] + messages[index + 1..];
  }

  /** The first `index` messages have been merged; the last merged one may still grow. */
  ghost predicate MergedUpTo(messages: seq<Message>, index: nat, merged: seq<Message>)
    requires index <= |messages|
  {
    if index == 0 then merged == []
    else merged != [] && Merge(messages) == merged[..|merged| - 1] + Merge([merged[|merged| - 1]] + messages[index..])
  }

  lemma MergeFirst(messages: seq<Message>)
    requires messages != []
    ensures MergedUpTo(messages, 1, [messages[0]])
  {
    assert [messages[0]] + messages[1..] == messages;
    assert [] + Merge(messages) == Merge(messages);
  }

  lemma MergeNext(messages: seq<Message>, index: nat, merged: seq<Message>)
    requires 0 < index < |messages| && MergedUpTo(messages, index, merged)
    ensures merged != []
    ensures var last := |merged| - 1;
      if Mergeable(merged[last], messages[index])
      then MergedUpTo(messages, index + 1, merged[last := Combine(merged[last], messages[index])])
      else MergedUpTo(messages, index + 1, merged + [messages[index]])
  {
    hide Merge, Combine, Mergeable;
    var last, message := |merged| - 1, messages[index];
    MergeStep(merged[last], messages, index);
    var done := merged[..last];
    if Mergeable(merged[last], message) {
      assert merged[last := Combine(merged[last], message)][..last] == done;
    } else {
      assert (merged + [message])[..last + 1] == done + [merged[last]];
      var rest := Merge([message] + messages[index + 1..]);
      assert done + ([merged[last]] + rest) == (done + [merged[last]]) + rest;
    }
  }

  lemma MergeEnds(messages: seq<Message>, merged: seq<Message>)
    requires MergedUpTo(messages, |messages|, merged)
    ensures merged == Merge(messages)
  {
    if messages != [] {
      var last := |merged| - 1;
      assert [merged[last]] + messages[|messages|..] == [merged[last]];
      assert merged == merged[..last] + [merged[last]];
    }
  }

  method CombineMessages(previous: Message, message: Message) returns (combined: Message)
    requires Mergeable(previous, message)
    ensures combined == Combine(previous, message)
  {
    hide Results, NonResults;
    match message {
      case Request(_, _, _, _, _, _, _) =>
        var parts := ResultsFirst(previous.parts + message.parts);
        var instructions := previous.instructions;
        if instructions == "" {
          instructions := message.instructions;
        }
        var timestamp := message.timestamp;
        if timestamp == 0 {
          timestamp := previous.timestamp;
        }
        var runId := message.runId;
        if runId == "" {
          runId := previous.runId;
        }
        var conversationId := message.conversationId;
        if conversationId == "" {
          conversationId := previous.conversationId;
        }
        combined := Request(parts, instructions, timestamp, runId, conversationId,
                            previous.metadata + message.metadata, message.state);
      case Response(_, _, _, _, _, _, _, _, _) =>
        combined := previous.(outs := previous.outs + message.outs);
    }
  }

  method MergeConsecutiveMessages(messages: seq<Message>) returns (merged: seq<Message>)
    ensures merged == Merge(messages)
  {
    hide Merge, Combine, Mergeable;
    merged := [];
    for index := 0 to |messages|
      invariant MergedUpTo(messages, index, merged)
    {
      var message := messages[index];
      if |merged| == 0 {
        MergeFirst(messages);
        merged := [message];
        continue;
      }
      MergeNext(messages, index, merged);
      var previous := merged[|merged| - 1];
      if !Mergeable(previous, message) {
        merged := merged + [message];
        continue;
      }
      var combined := CombineMessages(previous, message);
      merged := merged[|merged| - 1 := combined];
    }
    MergeEnds(messages, merged);
  }

  /** `RepairMessages` without `PreserveLastResponse`: any history in, a valid one out. */
  method RepairMessages(messages: seq<Message>) returns (repaired: seq<Message>)
    ensures repaired == Repair(messages) && ProviderValid(repaired)
    ensures repaired == messages <==> ProviderValid(messages)
  {
    var pending;
    repaired := DropOrphanedToolResults(messages);
    repaired, pending := RepairDanglingToolCalls(repaired);
    if |pending| > 0 {
      repaired := repaired + [ClosingRequest(repaired, pending)];
    }
    repaired := MergeConsecutiveMessages(repaired);
    RepairIsValid(messages);
    RepairFixpoint(messages);
  }
}
