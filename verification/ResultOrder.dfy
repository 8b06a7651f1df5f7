/** Sending the results that answer a response in the order of its calls. */
module ResultOrder {
  import opened History
  import opened ToolTrace

  function ResultId(part: RequestPart): string { if IsResult(part) then part.id else "" }

  /** The distinct IDs a response calls, in order of first appearance. */
  function CallOrder(calls: seq<ToolCall>): (order: seq<string>)
    ensures "" !in order && forall i, j :: 0 <= i < j < |order| ==> order[i] != order[j]
  {
    if calls == [] then []
    else
      var before := CallOrder(calls[..|calls| - 1]);
      var id := calls[|calls| - 1].id;
      before + if id == "" || id in before then [] else [id]
  }

  /** The results that answer one of the IDs, with the IDs taken in order: a stable sort. */
  function ByCall(parts: seq<RequestPart>, order: seq<string>): seq<RequestPart> {
    if order == [] then []
    else ByCall(parts, order[..|order| - 1]) + WithId(parts, order[|order| - 1])
  }

  function WithId(parts: seq<RequestPart>, id: string): seq<RequestPart> {
    if parts == [] then [] else (if ResultId(parts[0]) == id then [parts[0]] else []) + WithId(parts[1..], id)
  }

  /** The parts that answer take the sorted results, one after another; all others stay where they are. */
  function PutBack(parts: seq<RequestPart>, order: seq<string>, sorted: seq<RequestPart>): seq<RequestPart> {
    if parts == [] then []
    else if ResultId(parts[0]) !in order then [parts[0]] + PutBack(parts[1..], order, sorted)
    else if sorted == [] then parts
    else [sorted[0]] + PutBack(parts[1..], order, sorted[1..])
  }

  function Picked(parts: seq<RequestPart>, order: seq<string>): seq<RequestPart> {
    if parts == [] then [] else (if ResultId(parts[0]) in order then [parts[0]] else []) + Picked(parts[1..], order)
  }

  function Ordered(parts: seq<RequestPart>, calls: seq<ToolCall>): seq<RequestPart> {
    PutBack(parts, CallOrder(calls), ByCall(parts, CallOrder(calls)))
  }

  function OrderMessages(messages: seq<Message>): seq<Message> {
    if messages == [] then []
    else
      var front, last := messages[..|messages| - 1], messages[|messages| - 1];
      OrderMessages(front)
      + [if front != [] && front[|front| - 1].Response? && last.Request? then
           last.(parts := Ordered(last.parts, Calls(front[|front| - 1].outs)))
         else last]
  }

  // ----- the sort -----

  lemma {:induction false} ByCallSize(parts: seq<RequestPart>, order: seq<string>)
    requires forall i, j :: 0 <= i < j < |order| ==> order[i] != order[j]
    ensures |ByCall(parts, order)| == |Picked(parts, order)|
  {
    if order == [] {
      NonePicked(parts);
    } else {
      var front, last := order[..|order| - 1], order[|order| - 1];
      ByCallSize(parts, front);
      PickedMore(parts, front, last);
      assert order == front + [last];
    }
  }

  lemma NonePicked(parts: seq<RequestPart>)
    ensures Picked(parts, []) == []
  {}

  lemma {:induction false} PickedMore(parts: seq<RequestPart>, order: seq<string>, id: string)
    requires id !in order
    ensures |Picked(parts, order + [id])| == |Picked(parts, order)| + |WithId(parts, id)|
  {
    if parts != [] { PickedMore(parts[1..], order, id); }
  }

  lemma {:induction false} WithIdIs(parts: seq<RequestPart>, id: string)
    ensures forall i :: 0 <= i < |WithId(parts, id)| ==> ResultId(WithId(parts, id)[i]) == id
  {
    if parts != [] { WithIdIs(parts[1..], id); }
  }

  lemma WithIdFirst(parts: seq<RequestPart>, id: string)
    requires parts != []
    ensures WithId(parts, id) == (if ResultId(parts[0]) == id then [parts[0]] else []) + WithId(parts[1..], id)
  {}

  lemma {:induction false} WithIdJoin(a: seq<RequestPart>, b: seq<RequestPart>, id: string)
    ensures WithId(a + b, id) == WithId(a, id) + WithId(b, id)
  {
    if a == [] {
      assert a + b == b;
      assert WithId([], id) + WithId(b, id) == WithId(b, id);
    } else {
      WithIdJoin(a[1..], b, id);
      WithIdFirst(a, id);
      WithIdFirst(a + b, id);
      hide WithId, ResultId;
      assert (a + b)[0] == a[0] && (a + b)[1..] == a[1..] + b;
      Associate(if ResultId(a[0]) == id then [a[0]] else [], WithId(a[1..], id), WithId(b, id));
    }
  }

  lemma {:induction false} WithOtherId(parts: seq<RequestPart>, id: string, other: string)
    requires forall i :: 0 <= i < |parts| ==> ResultId(parts[i]) == other
    ensures WithId(parts, id) == if id == other then parts else []
  {
    if parts != [] { WithOtherId(parts[1..], id, other); }
  }

  /** The sort is stable: results with one ID keep their order. */
  lemma {:induction false} ByCallKeeps(parts: seq<RequestPart>, order: seq<string>, id: string)
    requires forall i, j :: 0 <= i < j < |order| ==> order[i] != order[j]
    ensures WithId(ByCall(parts, order), id) == if id in order then WithId(parts, id) else []
  {
    if order != [] {
      var front, last := order[..|order| - 1], order[|order| - 1];
      assert order == front + [last];
      ByCallKeeps(parts, front, id);
      WithIdJoin(ByCall(parts, front), WithId(parts, last), id);
      WithIdIs(parts, last);
      WithOtherId(WithId(parts, last), id, last);
    }
  }

  /** Putting sorted results back changes nothing but the results' order among their places. */
  lemma {:induction false} PutBackKeeps(parts: seq<RequestPart>, order: seq<string>, sorted: seq<RequestPart>)
    requires |sorted| == |Picked(parts, order)|
    requires forall i :: 0 <= i < |sorted| ==> ResultId(sorted[i]) in order
    ensures var all := PutBack(parts, order, sorted);
      && |all| == |parts| && Picked(all, order) == sorted
      && forall i :: 0 <= i < |parts| && ResultId(parts[i]) !in order ==> all[i] == parts[i]
  {
    hide ResultId;
    if parts != [] {
      if ResultId(parts[0]) !in order {
        PutBackKeeps(parts[1..], order, sorted);
      } else {
        PutBackKeeps(parts[1..], order, sorted[1..]);
        assert sorted == [sorted[0]] + sorted[1..];
      }
    }
  }

  lemma {:induction false} PutBackIds(parts: seq<RequestPart>, order: seq<string>, sorted: seq<RequestPart>, id: string)
    requires |sorted| == |Picked(parts, order)|
    requires forall i :: 0 <= i < |sorted| ==> ResultId(sorted[i]) in order
    ensures WithId(PutBack(parts, order, sorted), id) == if id in order then WithId(sorted, id) else WithId(parts, id)
  {
    hide ResultId;
    if parts != [] {
      if ResultId(parts[0]) !in order {
        PutBackIds(parts[1..], order, sorted, id);
      } else {
        PutBackIds(parts[1..], order, sorted[1..], id);
        assert sorted == [sorted[0]] + sorted[1..];
      }
    }
  }

  lemma {:induction false} ByCallIds(parts: seq<RequestPart>, order: seq<string>)
    ensures forall i :: 0 <= i < |ByCall(parts, order)| ==> ResultId(ByCall(parts, order)[i]) in order
  {
    hide ResultId;
    if order != [] {
      ByCallIds(parts, order[..|order| - 1]);
      WithIdIs(parts, order[|order| - 1]);
    }
  }

  /** Within a request, results of one call keep their order, whatever its ID; parts that answer no call of
      the response stay in place; and the answers stand in the order of the calls. */
  lemma {:induction false} OrderedKeeps(parts: seq<RequestPart>, calls: seq<ToolCall>, id: string)
    ensures var (all, order) := (Ordered(parts, calls), CallOrder(calls));
      && |all| == |parts| && WithId(all, id) == WithId(parts, id)
      && Picked(all, order) == ByCall(parts, order)
      && forall i :: 0 <= i < |parts| && ResultId(parts[i]) !in order ==> all[i] == parts[i]
  {
    hide PutBack, ByCall, Picked, WithId, ResultId;
    var order := CallOrder(calls);
    var sorted := ByCall(parts, order);
    ByCallSize(parts, order);
    ByCallIds(parts, order);
    ByCallKeeps(parts, order, id);
    PutBackKeeps(parts, order, sorted);
    PutBackIds(parts, order, sorted, id);
  }

  /** The answers of `ByCall` come in the order of the IDs. */
  ghost predicate InCallOrder(parts: seq<RequestPart>, order: seq<string>) {
    forall i, j, x, y :: (0 <= i < j < |parts| && 0 <= x < |order| && 0 <= y < |order|
                          && ResultId(parts[i]) == order[x] && ResultId(parts[j]) == order[y]) ==> x <= y
  }

  lemma {:induction false} ByCallInOrder(parts: seq<RequestPart>, order: seq<string>)
    requires forall i, j :: 0 <= i < j < |order| ==> order[i] != order[j]
    ensures InCallOrder(ByCall(parts, order), order)
  {
    hide ResultId;
    if order != [] {
      var front, last := order[..|order| - 1], order[|order| - 1];
      ByCallInOrder(parts, front);
      ByCallIds(parts, front);
      WithIdIs(parts, last);
      var before, all := ByCall(parts, front), ByCall(parts, order);
      forall i, j, x, y | 0 <= i < j < |all| && 0 <= x < |order| && 0 <= y < |order|
        && ResultId(all[i]) == order[x] && ResultId(all[j]) == order[y] ensures x <= y
      {
        if j >= |before| {
          assert all[j] == WithId(parts, last)[j - |before|];
        } else {
          assert all[i] == before[i] && all[j] == before[j];
          assert ResultId(before[i]) in front && ResultId(before[j]) in front;
        }
      }
    }
  }

  // ----- traces -----

  function KeyId(key: Key): string { if key.ById? then key.id else "" }

  lemma {:induction false} AnswersWithId(parts: seq<RequestPart>, key: Key)
    ensures AnswersIn(parts, key) == AnswersIn(WithId(parts, KeyId(key)), key)
  {
    if parts != [] {
      AnswersWithId(parts[1..], key);
      var rest := WithId(parts[1..], KeyId(key));
      if ResultId(parts[0]) == KeyId(key) {
        assert ([parts[0]] + rest)[1..] == rest;
      } else {
        assert [] + rest == rest && !AnswersKey(parts[0], key);
        assert [] + AnswersIn(parts[1..], key) == AnswersIn(parts[1..], key);
      }
    }
  }

  lemma {:induction false} SameMessageTrace(parts: seq<RequestPart>, calls: seq<ToolCall>, key: Key)
    ensures AnswersIn(Ordered(parts, calls), key) == AnswersIn(parts, key)
  {
    OrderedKeeps(parts, calls, KeyId(key));
    AnswersWithId(parts, key);
    AnswersWithId(Ordered(parts, calls), key);
  }

  /** Ordering results leaves every call with the results it had. */
  lemma {:induction false} OrderKeepsTraces(messages: seq<Message>, key: Key)
    ensures |OrderMessages(messages)| == |messages| && Trace(OrderMessages(messages), key) == Trace(messages, key)
  {
    hide Ordered, Trace;
    if messages != [] {
      var front, last := messages[..|messages| - 1], messages[|messages| - 1];
      OrderKeepsTraces(front, key);
      assert messages == front + [last];
      TraceJoin(front, [last], key);
      var last' := OrderMessages(messages)[|front|];
      assert OrderMessages(messages) == OrderMessages(front) + [last'];
      TraceJoin(OrderMessages(front), [last'], key);
      TraceOne(last, key);
      TraceOne(last', key);
      if last' != last { SameMessageTrace(last.parts, Calls(front[|front| - 1].outs), key); }
    }
  }

  // ----- places -----

  /** A message stays in its place; only a request directly after a response has its results ordered. */
  lemma {:induction false} OrderedAt(messages: seq<Message>, i: nat)
    requires i < |messages|
    ensures |OrderMessages(messages)| == |messages|
    ensures OrderMessages(messages)[i]
         == if i > 0 && messages[i - 1].Response? && messages[i].Request? then
              messages[i].(parts := Ordered(messages[i].parts, Calls(messages[i - 1].outs)))
            else messages[i]
  {
    hide Ordered, Calls;
    var front := messages[..|messages| - 1];
    if i < |front| {
      OrderedAt(front, i);
    } else if front != [] {
      OrderedAt(front, 0);
    }
  }

  /** The first result of a single call stays in front. */
  lemma FirstStays(parts: seq<RequestPart>, call: ToolCall)
    requires parts != [] && ResultId(parts[0]) == call.id
    ensures Ordered(parts, [call]) != [] && Ordered(parts, [call])[0] == parts[0]
  {
    assert [call][..0] == [] && CallOrder([call][..0]) == [];
    var order := CallOrder([call]);
    assert order == if call.id == "" then [] else [call.id];
    assert order != [] ==> order[..0] == [] && ByCall(parts, order) == [] + WithId(parts, call.id);
    hide ByCall, CallOrder;
  }

  // ----- the order, call by call -----

  predicate Called(calls: seq<ToolCall>, id: string) { exists x :: 0 <= x < |calls| && calls[x].id == id }

  /** The first call with an ID. */
  predicate FirstCall(calls: seq<ToolCall>, id: string, x: nat) {
    x < |calls| && calls[x].id == id && forall y :: 0 <= y < x ==> calls[y].id != id
  }

  predicate AnswersCall(part: RequestPart, calls: seq<ToolCall>) {
    IsResult(part) && part.id != "" && Called(calls, part.id)
  }

  lemma CalledMore(calls: seq<ToolCall>, call: ToolCall, id: string)
    ensures Called(calls + [call], id) <==> Called(calls, id) || call.id == id
  {
    var more := calls + [call];
    assert more[|calls|] == call;
    if x :| 0 <= x < |calls| && calls[x].id == id { assert more[x].id == id; }
  }

  lemma {:induction false} CallOrderHas(calls: seq<ToolCall>, id: string)
    ensures id in CallOrder(calls) <==> id != "" && Called(calls, id)
  {
    if calls != [] {
      var last := |calls| - 1;
      CallOrderHas(calls[..last], id);
      CalledMore(calls[..last], calls[last], id);
      assert calls[..last] + [calls[last]] == calls;
    }
  }

  lemma FirstCallIn(calls: seq<ToolCall>, call: ToolCall, id: string, x: nat)
    requires FirstCall(calls + [call], id, x)
    ensures if Called(calls, id) then FirstCall(calls, id, x) else x == |calls|
  {
    assert forall y :: 0 <= y < |calls| ==> (calls + [call])[y] == calls[y];
  }

  lemma {:induction false} CallOrderRises(calls: seq<ToolCall>, a: nat, b: nat, x: nat, y: nat)
    requires a < b < |CallOrder(calls)|
    requires FirstCall(calls, CallOrder(calls)[a], x) && FirstCall(calls, CallOrder(calls)[b], y)
    ensures x < y
  {
    var last := |calls| - 1;
    var front, order := calls[..last], CallOrder(calls);
    assert front + [calls[last]] == calls;
    FirstCallIn(front, calls[last], order[a], x);
    FirstCallIn(front, calls[last], order[b], y);
    assert order[a] in CallOrder(front);
    CallOrderHas(front, order[a]);
    CallOrderHas(front, order[b]);
    if b < |CallOrder(front)| {
      assert order[b] in CallOrder(front);
      CallOrderRises(front, a, b, x, y);
    }
  }

  /** The answers to a response come in the order in which it first makes their calls, in the places where
      answers stood; everything else stays where it was. */
  lemma {:induction false} AnswersFollowCalls(parts: seq<RequestPart>, calls: seq<ToolCall>)
    ensures var all := Ordered(parts, calls);
      && |all| == |parts|
      && (forall i :: 0 <= i < |parts| ==> (AnswersCall(all[i], calls) <==> AnswersCall(parts[i], calls)))
      && (forall i :: 0 <= i < |parts| && !AnswersCall(parts[i], calls) ==> all[i] == parts[i])
      && forall i, j, x, y :: (0 <= i < j < |all| && AnswersCall(all[i], calls) && AnswersCall(all[j], calls)
                               && FirstCall(calls, all[i].id, x) && FirstCall(calls, all[j].id, y)) ==> x <= y
  {
    var all, order := Ordered(parts, calls), CallOrder(calls);
    var sorted := ByCall(parts, order);
    ByCallSize(parts, order);
    ByCallIds(parts, order);
    ByCallInOrder(parts, order);
    PutBackLength(parts, order, sorted);
    hide CallOrder, ByCall, PutBack, Picked, IsResult, InCallOrder, FirstCall;
    forall i | 0 <= i < |parts|
      ensures AnswersCall(parts[i], calls) <==> ResultId(parts[i]) in order
      ensures AnswersCall(all[i], calls) <==> ResultId(parts[i]) in order
      ensures ResultId(parts[i]) !in order ==> all[i] == parts[i]
    {
      CallOrderHas(calls, ResultId(parts[i]));
      CallOrderHas(calls, ResultId(all[i]));
      PutBackAt(parts, order, sorted, i);
    }
    forall i, j, x, y | 0 <= i < j < |all| && AnswersCall(all[i], calls) && AnswersCall(all[j], calls)
      && FirstCall(calls, all[i].id, x) && FirstCall(calls, all[j].id, y) ensures x <= y
    {
      TwoAnswers(parts, calls, i, j, x, y);
    }
  }

  lemma {:induction false} TwoAnswers(parts: seq<RequestPart>, calls: seq<ToolCall>, i: nat, j: nat, x: nat, y: nat)
    requires i < j < |parts| == |Ordered(parts, calls)|
    requires ResultId(parts[i]) in CallOrder(calls) && ResultId(parts[j]) in CallOrder(calls)
    requires FirstCall(calls, ResultId(Ordered(parts, calls)[i]), x)
    requires FirstCall(calls, ResultId(Ordered(parts, calls)[j]), y)
    ensures x <= y
  {
    hide CallOrder, ByCall, PutBack, Picked, ResultId;
    var order := CallOrder(calls);
    var sorted := ByCall(parts, order);
    ByCallSize(parts, order);
    ByCallIds(parts, order);
    ByCallInOrder(parts, order);
    PutBackAt(parts, order, sorted, i);
    PutBackAt(parts, order, sorted, j);
    var p, q := |Picked(parts[..i], order)|, |Picked(parts[..j], order)|;
    MorePicked(parts, order, i, j);
    var a :| 0 <= a < |order| && order[a] == ResultId(sorted[p]);
    var b :| 0 <= b < |order| && order[b] == ResultId(sorted[q]);
    assert a <= b;
    if a < b {
      CallOrderRises(calls, a, b, x, y);
    } else {
      assert x == y by { hide Called; }
    }
  }

  lemma {:induction false} MorePicked(parts: seq<RequestPart>, order: seq<string>, i: nat, j: nat)
    requires i < j < |parts| && ResultId(parts[i]) in order
    ensures |Picked(parts[..i], order)| < |Picked(parts[..j], order)|
  {
    hide ResultId;
    PickedJoin(parts[..i], [parts[i]], order);
    PickedJoin(parts[..i] + [parts[i]], parts[i + 1..j], order);
    assert parts[..j] == parts[..i] + [parts[i]] + parts[i + 1..j];
    assert [parts[i]][1..] == [];
  }

  // ----- the pass -----

  lemma CallOrderNext(calls: seq<ToolCall>, k: nat)
    requires k < |calls|
    ensures var before, id := CallOrder(calls[..k]), calls[k].id;
      CallOrder(calls[..k + 1]) == if id != "" && id !in before then before + [id] else before
  {
    assert calls[..k + 1][..k] == calls[..k];
  }

  method CollectOrder(calls: seq<ToolCall>) returns (order: seq<string>)
    ensures order == CallOrder(calls)
  {
    assert CallOrder(calls[..0]) == [] && calls[..|calls|] == calls;
    hide CallOrder;
    order := [];
    var k := 0;
    while k < |calls|
      invariant 0 <= k <= |calls| && order == CallOrder(calls[..k])
    {
      CallOrderNext(calls, k);
      if calls[k].id != "" && calls[k].id !in order { order := order + [calls[k].id]; }
      k := k + 1;
    }
  }

  function Slots(parts: seq<RequestPart>, order: seq<string>): seq<nat> {
    if parts == [] then []
    else
      var last := |parts| - 1;
      Slots(parts[..last], order) + if ResultId(parts[last]) in order then [last] else []
  }

  /** What ends up at each place. */
  lemma {:induction false} PutBackAt(parts: seq<RequestPart>, order: seq<string>, sorted: seq<RequestPart>, i: nat)
    requires |sorted| == |Picked(parts, order)| && i < |parts|
    ensures |PutBack(parts, order, sorted)| == |parts|
    ensures |Picked(parts[..i], order)| <= |sorted|
    ensures ResultId(parts[i]) in order ==> |Picked(parts[..i], order)| < |sorted|
    ensures PutBack(parts, order, sorted)[i]
         == if ResultId(parts[i]) in order then sorted[|Picked(parts[..i], order)|] else parts[i]
  {
    PutBackLength(parts, order, sorted);
    PickedFirst(parts, order);
    hide ResultId, Picked;
    if i > 0 {
      PickedFirst(parts[..i], order);
      assert parts[..i][1..] == parts[1..][..i - 1];
      if ResultId(parts[0]) !in order {
        PutBackAt(parts[1..], order, sorted, i - 1);
      } else {
        PutBackAt(parts[1..], order, sorted[1..], i - 1);
      }
    } else {
      assert parts[..0] == [];
      NothingPicked(order);
    }
  }

  lemma PickedFirst(parts: seq<RequestPart>, order: seq<string>)
    requires parts != []
    ensures |Picked(parts, order)| == (if ResultId(parts[0]) in order then 1 else 0) + |Picked(parts[1..], order)|
  {}

  lemma NothingPicked(order: seq<string>)
    ensures Picked([], order) == []
  {}

  lemma {:induction false} PutBackLength(parts: seq<RequestPart>, order: seq<string>, sorted: seq<RequestPart>)
    ensures |PutBack(parts, order, sorted)| == |parts|
  {
    hide ResultId;
    if parts != [] {
      if ResultId(parts[0]) !in order {
        PutBackLength(parts[1..], order, sorted);
      } else if sorted != [] {
        PutBackLength(parts[1..], order, sorted[1..]);
      }
    }
  }

  lemma {:induction false} SlotsAre(parts: seq<RequestPart>, order: seq<string>)
    ensures var slots := Slots(parts, order);
      && |slots| == |Picked(parts, order)|
      && (forall r :: 0 <= r < |slots| ==>
            (slots[r] < |parts| && ResultId(parts[slots[r]]) in order && |Picked(parts[..slots[r]], order)| == r))
      && (forall i :: 0 <= i < |parts| && ResultId(parts[i]) in order ==> i in slots)
  {
    hide ResultId;
    if parts != [] {
      var front, last := parts[..|parts| - 1], |parts| - 1;
      SlotsAre(front, order);
      PickedJoin(front, [parts[last]], order);
      assert parts == front + [parts[last]];
      assert forall i :: 0 <= i <= last ==> front[..i] == parts[..i];
      assert [parts[last]][1..] == [];
    }
  }

  lemma {:induction false} PickedJoin(a: seq<RequestPart>, b: seq<RequestPart>, order: seq<string>)
    ensures Picked(a + b, order) == Picked(a, order) + Picked(b, order)
  {
    hide ResultId;
    if a == [] {
      assert a + b == b;
    } else {
      PickedJoin(a[1..], b, order);
      assert (a + b)[0] == a[0] && (a + b)[1..] == a[1..] + b;
      var own := if ResultId(a[0]) in order then [a[0]] else [];
      assert Picked(a + b, order) == own + (Picked(a[1..], order) + Picked(b, order));
    }
  }

  /** Collects the answering parts and their places, sorts the parts, and puts them back in place. */
  method OrderParts(parts: seq<RequestPart>, calls: seq<ToolCall>) returns (ordered: seq<RequestPart>)
    ensures ordered == Ordered(parts, calls)
  {
    hide PutBack, Picked, ByCall, ResultId, CallOrder, Slots;
    var order := CollectOrder(calls);
    var slots := CollectSlots(parts, order);
    var sorted := ByCall(parts, order);
    OrderDistinct(calls);
    ByCallSize(parts, order);
    SlotsAre(parts, order);
    ordered := parts;
    var r := 0;
    while r < |slots|
      invariant 0 <= r <= |slots| && |ordered| == |parts|
      invariant forall q :: 0 <= q < r ==> ordered[slots[q]] == sorted[q]
      invariant forall i :: 0 <= i < |parts| && i !in slots ==> ordered[i] == parts[i]
    {
      DifferentSlots(parts, order, slots, r);
      ordered := ordered[slots[r] := sorted[r]];
      r := r + 1;
    }
    PutBackLength(parts, order, sorted);
    forall i | 0 <= i < |parts| ensures ordered[i] == PutBack(parts, order, sorted)[i] {
      PutBackAt(parts, order, sorted, i);
      if i in slots {
        var q :| 0 <= q < |slots| && slots[q] == i;
      }
    }
  }

  lemma OrderDistinct(calls: seq<ToolCall>)
    ensures var order := CallOrder(calls); forall i, j :: 0 <= i < j < |order| ==> order[i] != order[j]
  {}

  lemma DifferentSlots(parts: seq<RequestPart>, order: seq<string>, slots: seq<nat>, r: nat)
    requires r < |slots| && forall q :: 0 <= q < |slots| ==>
      slots[q] <= |parts| && |Picked(parts[..slots[q]], order)| == q
    ensures forall q :: 0 <= q < r ==> slots[q] != slots[r]
  {}

  method CollectSlots(parts: seq<RequestPart>, order: seq<string>) returns (slots: seq<nat>)
    ensures slots == Slots(parts, order)
  {
    slots := [];
    var k := 0;
    while k < |parts|
      invariant 0 <= k <= |parts| && slots == Slots(parts[..k], order)
    {
      assert parts[..k + 1][..k] == parts[..k];
      if ResultId(parts[k]) in order { slots := slots + [k]; }
      k := k + 1;
    }
    assert parts[..k] == parts;
  }

  /** Orders the results of every request that directly follows a response, in place. */
  method OrderToolResultsByCall(messages: array<Message>)
    modifies messages
    ensures messages[..] == OrderMessages(old(messages[..]))
  {
    ghost var was := messages[..];
    hide Ordered, OrderMessages;
    var k := 0;
    NothingOrdered();
    while k < messages.Length
      invariant 0 <= k <= messages.Length && messages[..k] == OrderMessages(was[..k])
      invariant forall i :: k <= i < messages.Length ==> messages[i] == was[i]
      invariant k > 0 ==> messages[k - 1].Request? == was[k - 1].Request?
      invariant k > 0 && was[k - 1].Response? ==> messages[k - 1] == was[k - 1]
    {
      OrderNext(was, k);
      if k > 0 && messages[k].Request? && messages[k - 1].Response? {
        var parts := OrderParts(messages[k].parts, Calls(messages[k - 1].outs));
        messages[k] := messages[k].(parts := parts);
      }
      assert messages[..k + 1] == messages[..k] + [messages[k]];
      k := k + 1;
    }
    assert was[..k] == was && messages[..k] == messages[..];
  }

  lemma NothingOrdered()
    ensures OrderMessages([]) == []
  {}

  lemma OrderNext(messages: seq<Message>, k: nat)
    requires k < |messages|
    ensures OrderMessages(messages[..k + 1])
         == OrderMessages(messages[..k])
            + [if k > 0 && messages[k - 1].Response? && messages[k].Request? then
                 messages[k].(parts := Ordered(messages[k].parts, Calls(messages[k - 1].outs)))
               else messages[k]]
  {
    assert messages[..k + 1][..k] == messages[..k];
  }
}
