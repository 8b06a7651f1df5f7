/** What `RepairMessages` promises, stated on histories as values.

    The code matches results to calls with mutable queues. Here the same matching is described
    by looking ahead: a response's calls with one key are served by the results with that key that
    arrive before another response calls the key again (`Window`), first call first. */
module RepairSpec {
  import opened Options
  import opened History

  const INTERRUPTED := "The tool call was interrupted before a result was produced."

  /** Results with `key` that arrive before the next response that calls `key`. */
  function Window(messages: seq<Message>, key: Key): nat {
    if messages == [] || CallsKey(messages[0], key) then 0
    else MessageResults(messages[0], key) + Window(messages[1..], key)
  }

  ghost predicate AnsweredBy(message: Message, rest: seq<Message>) {
    forall key :: CountCalls(MessageCalls(message), key) <= Window(rest, key)
  }

  /** Every call has a result of its own before its key is called again. */
  ghost predicate AllAnswered(messages: seq<Message>) {
    messages == [] || (AllAnswered(messages[1..]) && AnsweredBy(messages[0], messages[1..]))
  }

  /** Keys called by a message, after the keys called so far. */
  function SeenAfter(message: Message, seen: set<Key>): set<Key> {
    seen + set call | call in MessageCalls(message) :: CallKey(call)
  }

  ghost predicate ResultsKnown(message: Message, seen: set<Key>) {
    message.Request? ==> forall part :: part in message.parts && IsResult(part) ==> ResultKey(part) in seen
  }

  /** Every result comes after a call with its key. */
  ghost predicate NoOrphans(messages: seq<Message>, seen: set<Key>) {
    messages == [] ||
    (ResultsKnown(messages[0], seen) && NoOrphans(messages[1..], SeenAfter(messages[0], seen)))
  }

  predicate EmptyRequest(message: Message) { message.Request? && message.parts == [] }

  predicate EmptyOnlyLast(messages: seq<Message>) {
    forall i :: 0 <= i < |messages| - 1 ==> !EmptyRequest(messages[i])
  }

  /** Two neighbours that the provider expects as one message. */
  predicate Mergeable(first: Message, second: Message) {
    if second.Request? then
      first.Request? && (first.instructions == "" || second.instructions == ""
                         || first.instructions == second.instructions)
    else
      && first.Response? && first.modelName == "" && second.modelName == ""
      && first.providerName == "" && second.providerName == ""
      && first.providerResponseId == "" && second.providerResponseId == ""
  }

  predicate NoMergeable(messages: seq<Message>) {
    forall i :: 0 <= i < |messages| - 1 ==> !Mergeable(messages[i], messages[i + 1])
  }

  /** The histories that need no repair. */
  ghost predicate ProviderValid(messages: seq<Message>) {
    AllAnswered(messages) && NoOrphans(messages, {}) && EmptyOnlyLast(messages) && NoMergeable(messages)
  }

  // ----- the three passes -----

  function KeepParts(parts: seq<RequestPart>, seen: set<Key>): seq<RequestPart> {
    if parts == [] then []
    else (if IsResult(parts[0]) && ResultKey(parts[0]) !in seen then [] else [parts[0]]) + KeepParts(parts[1..], seen)
  }

  /** Orphaned results go; a request left empty goes with them unless it is the last message. */
  function DropOrphans(messages: seq<Message>, seen: set<Key>): seq<Message> {
    if messages == [] then []
    else
      var rest := DropOrphans(messages[1..], SeenAfter(messages[0], seen));
      if messages[0].Response? then [messages[0]] + rest
      else
        var parts := KeepParts(messages[0].parts, seen);
        if parts != [] || |messages| == 1 then [messages[0].(parts := parts)] + rest else rest
  }

  function Interrupted(call: ToolCall): RequestPart {
    ToolReturn(call.name, call.id, call.kind, INTERRUPTED, true)
  }

  /** Among the first `count` calls of a response, one interrupted result for each call whose
      position among its key's calls exceeds the results in its window. */
  function Missing(calls: seq<ToolCall>, count: nat, rest: seq<Message>): seq<RequestPart>
    requires count <= |calls|
  {
    if count == 0 then []
    else
      var call := calls[count - 1];
      Missing(calls, count - 1, rest) +
      if CountCalls(calls[..count], CallKey(call)) > Window(rest, CallKey(call)) then [Interrupted(call)] else []
  }

  function MissingAfter(message: Message, rest: seq<Message>): seq<RequestPart> {
    var calls := MessageCalls(message);
    Missing(calls, |calls|, rest)
  }

  function LastResult(parts: seq<RequestPart>): (at: nat)
    ensures at <= |parts|
  {
    if parts == [] then 0
    else if IsResult(parts[|parts| - 1]) then |parts| else LastResult(parts[..|parts| - 1])
  }

  /** `added` goes right after the last result a request already carries. */
  function InsertResults(parts: seq<RequestPart>, added: seq<RequestPart>): seq<RequestPart> {
    parts[..LastResult(parts)] + added + parts[LastResult(parts)..]
  }

  function BareRequest(parts: seq<RequestPart>): Message {
    Request(parts, "", 0, "", "", map[], "")
  }

  /** Missing results wait in `pending` for the next message: they join a request, or become one. */
  function Fill(messages: seq<Message>, pending: seq<RequestPart>): (seq<Message>, seq<RequestPart>) {
    if messages == [] then ([], pending)
    else
      var message := messages[0];
      if message.Response? then
        var (rest, left) := Fill(messages[1..], MissingAfter(message, messages[1..]));
        ((if pending == [] then [] else [BareRequest(pending)]) + [message] + rest, left)
      else
        var (rest, left) := Fill(messages[1..], []);
        ([message.(parts := InsertResults(message.parts, pending))] + rest, left)
  }

  /** The closing request carries the identity of the last response. */
  function ClosingRequest(messages: seq<Message>, parts: seq<RequestPart>): (closing: Message)
    ensures closing.Request? && closing.parts == parts
  {
    if messages == [] then Request(parts, "", 0, "", "", map[], "interrupted")
    else
      var last := messages[|messages| - 1];
      if last.Response? then
        Request(parts, "", last.timestamp, last.runId, last.conversationId, map[], "interrupted")
      else ClosingRequest(messages[..|messages| - 1], parts)
  }

  /** The filled messages, closed by `tail` carrying whatever no later message could take. */
  function CloseWith(filled: (seq<Message>, seq<RequestPart>), tail: Message): seq<Message>
    requires tail.Request?
  {
    if filled.1 == [] then filled.0 else filled.0 + [tail.(parts := filled.1)]
  }

  function Results(parts: seq<RequestPart>): seq<RequestPart> {
    if parts == [] then [] else (if IsResult(parts[0]) then [parts[0]] else []) + Results(parts[1..])
  }

  function NonResults(parts: seq<RequestPart>): seq<RequestPart> {
    if parts == [] then [] else (if IsResult(parts[0]) then [] else [parts[0]]) + NonResults(parts[1..])
  }

  function Combine(first: Message, second: Message): Message
    requires Mergeable(first, second)
  {
    if second.Request? then
      Request(
        Results(first.parts + second.parts) + NonResults(first.parts + second.parts),
        Either(first.instructions, second.instructions),
        if second.timestamp != 0 then second.timestamp else first.timestamp,
        Either(second.runId, first.runId), Either(second.conversationId, first.conversationId),
        first.metadata + second.metadata, second.state)
    else first.(outs := first.outs + second.outs)
  }

  function Merge(messages: seq<Message>): seq<Message>
    decreases |messages|
  {
    if |messages| < 2 then messages
    else if Mergeable(messages[0], messages[1]) then
      Merge([Combine(messages[0], messages[1])] + messages[2..])
    else [messages[0]] + Merge(messages[1..])
  }

  function Repair(messages: seq<Message>): seq<Message> {
    var filled := Fill(DropOrphans(messages, {}), []);
    Merge(CloseWith(filled, ClosingRequest(filled.0, filled.1)))
  }

  // ----- matching -----

  lemma CountCallsPrefix(calls: seq<ToolCall>, count: nat, key: Key)
    requires 0 < count <= |calls|
    ensures CountCalls(calls[..count], key)
         == CountCalls(calls[..count - 1], key) + if CallKey(calls[count - 1]) == key then 1 else 0
  {
    assert calls[..count] == calls[..count - 1] + [calls[count - 1]];
    CountCallsConcat(calls[..count - 1], [calls[count - 1]], key);
  }

  /** Interrupted results make up exactly the shortfall of each key. */
  lemma {:induction false} MissingIsShortfall(calls: seq<ToolCall>, count: nat, rest: seq<Message>, key: Key)
    requires count <= |calls|
    ensures var need := CountCalls(calls[..count], key) - Window(rest, key);
            CountResults(Missing(calls, count, rest), key) == if need > 0 then need else 0
  {
    hide Window, Calls;
    if count > 0 {
      MissingIsShortfall(calls, count - 1, rest, key);
      CountCallsPrefix(calls, count, key);
      CountResultsConcat(Missing(calls, count - 1, rest), [Interrupted(calls[count - 1])], key);
      var call := calls[count - 1];
      assert call.id != "" || CallKey(call) == ByName(call.name);
      assert ResultKey(Interrupted(call)) == CallKey(call);
      assert Missing(calls, count - 1, rest) + [] == Missing(calls, count - 1, rest);
    }
  }

  lemma MissingAfterIsShortfall(message: Message, rest: seq<Message>, key: Key)
    ensures var need := CountCalls(MessageCalls(message), key) - Window(rest, key);
            CountResults(MissingAfter(message, rest), key) == if need > 0 then need else 0
  {
    var calls := MessageCalls(message);
    assert calls[..|calls|] == calls;
    MissingIsShortfall(calls, |calls|, rest, key);
  }

  lemma InsertedCount(parts: seq<RequestPart>, added: seq<RequestPart>, key: Key)
    ensures CountResults(InsertResults(parts, added), key) == CountResults(parts, key) + CountResults(added, key)
  {
    var at := LastResult(parts);
    CountResultsConcat(parts[..at], added, key);
    CountResultsConcat(parts[..at] + added, parts[at..], key);
    CountResultsConcat(parts[..at], parts[at..], key);
    assert parts[..at] + parts[at..] == parts;
  }

  function AddedFor(message: Message, rest: seq<Message>): seq<RequestPart> {
    if message.Response? then MissingAfter(message, rest) else []
  }

  /** What filling puts before the remaining messages. */
  function FilledHead(message: Message, pending: seq<RequestPart>): seq<Message> {
    if message.Request? then [message.(parts := InsertResults(message.parts, pending))]
    else if pending == [] then [message]
    else [BareRequest(pending), message]
  }

  lemma {:induction false} FillStep(messages: seq<Message>, pending: seq<RequestPart>, tail: Message)
    requires tail.Request? && messages != []
    ensures CloseWith(Fill(messages, pending), tail)
         == FilledHead(messages[0], pending)
            + CloseWith(Fill(messages[1..], AddedFor(messages[0], messages[1..])), tail)
  {
    hide Missing, Calls, InsertResults;
  }

  lemma WindowStep(message: Message, rest: seq<Message>, key: Key)
    ensures Window([message] + rest, key)
         == if CallsKey(message, key) then 0 else MessageResults(message, key) + Window(rest, key)
  {
    assert ([message] + rest)[1..] == rest;
  }

  lemma FilledHeadWindow(message: Message, pending: seq<RequestPart>, rest: seq<Message>, key: Key)
    ensures Window(FilledHead(message, pending) + rest, key)
         == CountResults(pending, key)
            + if CallsKey(message, key) then 0 else MessageResults(message, key) + Window(rest, key)
  {
    var head := FilledHead(message, pending);
    if message.Request? {
      InsertedCount(message.parts, pending, key);
      WindowStep(head[0], rest, key);
    } else {
      WindowStep(message, rest, key);
      if pending != [] {
        assert head + rest == [BareRequest(pending)] + ([message] + rest);
        WindowStep(BareRequest(pending), [message] + rest, key);
      }
    }
  }

  lemma {:induction false} FillWindow(messages: seq<Message>, pending: seq<RequestPart>, tail: Message, key: Key)
    requires tail.Request?
    ensures Window(CloseWith(Fill(messages, pending), tail), key) == CountResults(pending, key) + Window(messages, key)
  {
    if messages == [] {
      if pending != [] {
        WindowStep(tail.(parts := pending), [], key);
        assert [tail.(parts := pending)] + [] == CloseWith(Fill(messages, pending), tail);
      }
    } else {
      var added := AddedFor(messages[0], messages[1..]);
      FillStep(messages, pending, tail);
      FillWindow(messages[1..], added, tail, key);
      FilledHeadWindow(messages[0], pending, CloseWith(Fill(messages[1..], added), tail), key);
      MissingAfterIsShortfall(messages[0], messages[1..], key);
    }
  }

  lemma AnsweredStep(message: Message, rest: seq<Message>)
    ensures AllAnswered([message] + rest) <==> AllAnswered(rest) && AnsweredBy(message, rest)
  {
    assert ([message] + rest)[1..] == rest;
  }

  lemma RequestAnswered(message: Message, rest: seq<Message>)
    requires message.Request?
    ensures AnsweredBy(message, rest)
  {}

  lemma {:induction false} FilledHeadAnswered(message: Message, pending: seq<RequestPart>, rest: seq<Message>)
    requires AllAnswered(rest) && AnsweredBy(message, rest)
    ensures AllAnswered(FilledHead(message, pending) + rest)
  {
    hide Window, Calls, CountCalls, InsertResults;
    var head := FilledHead(message, pending);
    if message.Request? {
      RequestAnswered(head[0], rest);
      AnsweredStep(head[0], rest);
    } else {
      AnsweredStep(message, rest);
      if pending != [] {
        assert head + rest == [BareRequest(pending)] + ([message] + rest);
        RequestAnswered(BareRequest(pending), [message] + rest);
        AnsweredStep(BareRequest(pending), [message] + rest);
      }
    }
  }

  /** After filling, the matcher finds no dangling call. */
  lemma {:induction false} FillAnswersAll(messages: seq<Message>, pending: seq<RequestPart>, tail: Message)
    requires tail.Request?
    ensures AllAnswered(CloseWith(Fill(messages, pending), tail))
  {
    if messages == [] {
      if pending != [] {
        AnsweredStep(tail.(parts := pending), []);
        assert [tail.(parts := pending)] + [] == CloseWith(Fill(messages, pending), tail);
      }
    } else {
      var message := messages[0];
      var added := AddedFor(message, messages[1..]);
      var rest := CloseWith(Fill(messages[1..], added), tail);
      FillStep(messages, pending, tail);
      FillAnswersAll(messages[1..], added, tail);
      forall key ensures CountCalls(MessageCalls(message), key) <= Window(rest, key) {
        FillWindow(messages[1..], added, tail, key);
        MissingAfterIsShortfall(message, messages[1..], key);
      }
      FilledHeadAnswered(message, pending, rest);
    }
  }

  // ----- merging -----

  lemma ResultsCount(parts: seq<RequestPart>, key: Key)
    ensures CountResults(Results(parts), key) == CountResults(parts, key)
    ensures CountResults(NonResults(parts), key) == 0
  {
    if parts != [] {
      ResultsCount(parts[1..], key);
      if IsResult(parts[0]) {
        assert Results(parts)[1..] == Results(parts[1..]);
        assert NonResults(parts) == NonResults(parts[1..]);
      } else {
        assert NonResults(parts)[1..] == NonResults(parts[1..]);
        assert Results(parts) == Results(parts[1..]);
      }
    }
  }

  lemma CombineCounts(first: Message, second: Message, key: Key)
    requires Mergeable(first, second)
    ensures CountCalls(MessageCalls(Combine(first, second)), key)
         == CountCalls(MessageCalls(first), key) + CountCalls(MessageCalls(second), key)
    ensures MessageResults(Combine(first, second), key) == MessageResults(first, key) + MessageResults(second, key)
  {
    if second.Request? {
      var parts := first.parts + second.parts;
      ResultsCount(parts, key);
      CountResultsConcat(Results(parts), NonResults(parts), key);
      CountResultsConcat(first.parts, second.parts, key);
    } else {
      CallsConcat(first.outs, second.outs);
      CountCallsConcat(Calls(first.outs), Calls(second.outs), key);
    }
  }

  lemma CombineWindow(first: Message, second: Message, rest: seq<Message>, key: Key)
    requires Mergeable(first, second)
    ensures Window([Combine(first, second)] + rest, key) == Window([first, second] + rest, key)
  {
    CombineCounts(first, second, key);
    WindowStep(Combine(first, second), rest, key);
    assert [first, second] + rest == [first] + ([second] + rest);
    WindowStep(first, [second] + rest, key);
    WindowStep(second, rest, key);
  }

  /** Neighbouring responses whose calls are all answered share no key, so joining them is safe. */
  lemma CombineAnswered(first: Message, second: Message, rest: seq<Message>)
    requires Mergeable(first, second) && AllAnswered([first, second] + rest)
    ensures AllAnswered([Combine(first, second)] + rest)
  {
    assert [first, second] + rest == [first] + ([second] + rest);
    AnsweredStep(first, [second] + rest);
    AnsweredStep(second, rest);
    forall key ensures CountCalls(MessageCalls(Combine(first, second)), key) <= Window(rest, key) {
      CombineCounts(first, second, key);
      WindowStep(second, rest, key);
    }
    AnsweredStep(Combine(first, second), rest);
  }

  lemma {:induction false} MergeWindow(messages: seq<Message>, key: Key)
    ensures Window(Merge(messages), key) == Window(messages, key)
    decreases |messages|
  {
    if |messages| >= 2 {
      var rest := messages[2..];
      if Mergeable(messages[0], messages[1]) {
        MergeWindow([Combine(messages[0], messages[1])] + rest, key);
        CombineWindow(messages[0], messages[1], rest, key);
        assert messages == [messages[0], messages[1]] + rest;
      } else {
        MergeWindow(messages[1..], key);
        WindowStep(messages[0], Merge(messages[1..]), key);
      }
    }
  }

  lemma {:induction false} MergeAnswered(messages: seq<Message>)
    requires AllAnswered(messages)
    ensures AllAnswered(Merge(messages))
    decreases |messages|
  {
    if |messages| >= 2 {
      var rest := messages[2..];
      if Mergeable(messages[0], messages[1]) {
        assert messages == [messages[0], messages[1]] + rest;
        CombineAnswered(messages[0], messages[1], rest);
        MergeAnswered([Combine(messages[0], messages[1])] + rest);
      } else {
        MergeAnswered(messages[1..]);
        forall key ensures CountCalls(MessageCalls(messages[0]), key) <= Window(Merge(messages[1..]), key) {
          MergeWindow(messages[1..], key);
        }
        AnsweredStep(messages[0], Merge(messages[1..]));
      }
    }
  }

  lemma MergeHead(messages: seq<Message>, before: Message)
    requires messages != []
    ensures Merge(messages) != []
    ensures !Mergeable(before, messages[0]) ==> !Mergeable(before, Merge(messages)[0])
    decreases |messages|
  {
    if |messages| >= 2 && Mergeable(messages[0], messages[1]) {
      MergeHead([Combine(messages[0], messages[1])] + messages[2..], before);
    }
  }

  lemma {:induction false} MergeLeavesNoMergeable(messages: seq<Message>)
    ensures NoMergeable(Merge(messages))
    decreases |messages|
  {
    if |messages| >= 2 {
      if Mergeable(messages[0], messages[1]) {
        MergeLeavesNoMergeable([Combine(messages[0], messages[1])] + messages[2..]);
      } else {
        MergeLeavesNoMergeable(messages[1..]);
        MergeHead(messages[1..], messages[0]);
      }
    }
  }

  lemma {:induction false} MergeIdle(messages: seq<Message>)
    requires NoMergeable(messages)
    ensures Merge(messages) == messages
  {
    if |messages| >= 2 {
      assert !Mergeable(messages[0], messages[0 + 1]);
      forall i | 0 <= i < |messages[1..]| - 1 ensures !Mergeable(messages[1..][i], messages[1..][i + 1]) {
        assert !Mergeable(messages[i + 1], messages[i + 1 + 1]);
      }
      MergeIdle(messages[1..]);
    }
  }

  // ----- orphans -----

  lemma OrphanStep(message: Message, rest: seq<Message>, seen: set<Key>)
    ensures NoOrphans([message] + rest, seen)
       <==> ResultsKnown(message, seen) && NoOrphans(rest, SeenAfter(message, seen))
  {
    assert ([message] + rest)[1..] == rest;
  }

  lemma RequestSeesNothing(message: Message, seen: set<Key>)
    requires message.Request?
    ensures SeenAfter(message, seen) == seen
  {}

  lemma KeptKnown(parts: seq<RequestPart>, seen: set<Key>)
    ensures forall part :: part in KeepParts(parts, seen) && IsResult(part) ==> ResultKey(part) in seen
  {}

  lemma {:induction false} DropLeavesNoOrphans(messages: seq<Message>, seen: set<Key>)
    ensures NoOrphans(DropOrphans(messages, seen), seen)
  {
    if messages != [] {
      var message := messages[0];
      var rest := DropOrphans(messages[1..], SeenAfter(message, seen));
      DropLeavesNoOrphans(messages[1..], SeenAfter(message, seen));
      if message.Response? {
        OrphanStep(message, rest, seen);
      } else {
        var kept := message.(parts := KeepParts(message.parts, seen));
        RequestSeesNothing(message, seen);
        RequestSeesNothing(kept, seen);
        KeptKnown(message.parts, seen);
        OrphanStep(kept, rest, seen);
      }
    }
  }

  lemma MissingKnown(message: Message, calls: seq<ToolCall>, count: nat, rest: seq<Message>, seen: set<Key>)
    requires calls == MessageCalls(message) && count <= |calls|
    ensures forall part :: part in Missing(calls, count, rest) ==>
      IsResult(part) && ResultKey(part) in SeenAfter(message, seen)
  {
    if count > 0 {
      MissingKnown(message, calls, count - 1, rest, seen);
      assert calls[count - 1] in calls;
    }
  }

  lemma {:induction false} FilledHeadKnown(message: Message, pending: seq<RequestPart>, rest: seq<Message>,
                                           seen: set<Key>)
    requires ResultsKnown(message, seen) && NoOrphans(rest, SeenAfter(message, seen))
    requires forall part :: part in pending ==> IsResult(part) && ResultKey(part) in seen
    ensures NoOrphans(FilledHead(message, pending) + rest, seen)
  {
    hide NoOrphans, SeenAfter, LastResult, Calls;
    var head := FilledHead(message, pending);
    if message.Request? {
      var at := LastResult(message.parts);
      assert message.parts == message.parts[..at] + message.parts[at..];
      RequestSeesNothing(message, seen);
      RequestSeesNothing(head[0], seen);
      OrphanStep(head[0], rest, seen);
    } else {
      OrphanStep(message, rest, seen);
      if pending != [] {
        assert head + rest == [BareRequest(pending)] + ([message] + rest);
        RequestSeesNothing(BareRequest(pending), seen);
        OrphanStep(BareRequest(pending), [message] + rest, seen);
      }
    }
  }

  lemma {:induction false} FillKeepsOrder(
    messages: seq<Message>, pending: seq<RequestPart>, tail: Message, seen: set<Key>
  )
    requires tail.Request? && NoOrphans(messages, seen)
    requires forall part :: part in pending ==> IsResult(part) && ResultKey(part) in seen
    ensures NoOrphans(CloseWith(Fill(messages, pending), tail), seen)
  {
    if messages == [] {
      if pending != [] {
        OrphanStep(tail.(parts := pending), [], seen);
        assert [tail.(parts := pending)] + [] == CloseWith(Fill(messages, pending), tail);
      }
    } else {
      var message := messages[0];
      var added := AddedFor(message, messages[1..]);
      FillStep(messages, pending, tail);
      MissingKnown(message, MessageCalls(message), |MessageCalls(message)|, messages[1..], seen);
      FillKeepsOrder(messages[1..], added, tail, SeenAfter(message, seen));
      FilledHeadKnown(message, pending, CloseWith(Fill(messages[1..], added), tail), seen);
    }
  }

  lemma SplitMembers(parts: seq<RequestPart>)
    ensures forall part :: part in Results(parts) <==> part in parts && IsResult(part)
    ensures forall part :: part in NonResults(parts) <==> part in parts && !IsResult(part)
  {}

  lemma CombineSeen(first: Message, second: Message, seen: set<Key>)
    requires Mergeable(first, second)
    requires ResultsKnown(first, seen) && ResultsKnown(second, SeenAfter(first, seen))
    ensures ResultsKnown(Combine(first, second), seen)
    ensures SeenAfter(Combine(first, second), seen) == SeenAfter(second, SeenAfter(first, seen))
  {
    if second.Request? {
      SplitMembers(first.parts + second.parts);
      RequestSeesNothing(first, seen);
      RequestSeesNothing(second, seen);
      RequestSeesNothing(Combine(first, second), seen);
    } else {
      CallsConcat(first.outs, second.outs);
    }
  }

  lemma {:induction false} MergeKeepsOrder(messages: seq<Message>, seen: set<Key>)
    requires NoOrphans(messages, seen)
    ensures NoOrphans(Merge(messages), seen)
    decreases |messages|
  {
    hide Calls, SeenAfter, Results, NonResults;
    if |messages| >= 2 {
      var first, second, rest := messages[0], messages[1], messages[2..];
      if Mergeable(first, second) {
        assert messages == [first] + ([second] + rest);
        OrphanStep(first, [second] + rest, seen);
        OrphanStep(second, rest, SeenAfter(first, seen));
        CombineSeen(first, second, seen);
        OrphanStep(Combine(first, second), rest, seen);
        MergeKeepsOrder([Combine(first, second)] + rest, seen);
      } else {
        MergeKeepsOrder(messages[1..], SeenAfter(first, seen));
        OrphanStep(first, Merge(messages[1..]), seen);
      }
    }
  }

  // ----- empty requests -----

  lemma EmptyStep(message: Message, rest: seq<Message>)
    requires EmptyOnlyLast(rest) && (rest == [] || !EmptyRequest(message))
    ensures EmptyOnlyLast([message] + rest)
  {}

  lemma EmptyTail(messages: seq<Message>)
    requires messages != [] && EmptyOnlyLast(messages)
    ensures EmptyOnlyLast(messages[1..])
    ensures |messages| > 1 ==> !EmptyRequest(messages[0])
  {
    forall i | 0 <= i < |messages[1..]| - 1 ensures !EmptyRequest(messages[1..][i]) {
      assert !EmptyRequest(messages[i + 1]);
    }
  }

  lemma {:induction false} DropLeavesEmptyOnlyLast(messages: seq<Message>, seen: set<Key>)
    ensures EmptyOnlyLast(DropOrphans(messages, seen))
  {
    if messages != [] {
      var message := messages[0];
      var rest := DropOrphans(messages[1..], SeenAfter(message, seen));
      DropLeavesEmptyOnlyLast(messages[1..], SeenAfter(message, seen));
      var kept := if message.Request? then message.(parts := KeepParts(message.parts, seen)) else message;
      if message.Response? || kept.parts != [] || |messages| == 1 {
        EmptyStep(kept, rest);
      }
    }
  }

  lemma {:induction false} FilledHeadEmpty(message: Message, pending: seq<RequestPart>, rest: seq<Message>)
    requires EmptyOnlyLast(rest) && (rest == [] || !EmptyRequest(message))
    ensures EmptyOnlyLast(FilledHead(message, pending) + rest)
  {
    if message.Request? {
      var grown := FilledHead(message, pending)[0];
      assert message.parts != [] ==> grown.parts != [] by {
        assert |grown.parts| == |message.parts| + |pending|;
      }
      EmptyStep(grown, rest);
    } else {
      EmptyStep(message, rest);
      if pending != [] {
        assert FilledHead(message, pending) + rest == [BareRequest(pending)] + ([message] + rest);
        EmptyStep(BareRequest(pending), [message] + rest);
      }
    }
  }

  lemma {:induction false} FillKeepsEmptyOnlyLast(messages: seq<Message>, pending: seq<RequestPart>, tail: Message)
    requires tail.Request? && EmptyOnlyLast(messages)
    ensures EmptyOnlyLast(CloseWith(Fill(messages, pending), tail))
  {
    if messages != [] {
      var added := AddedFor(messages[0], messages[1..]);
      FillStep(messages, pending, tail);
      EmptyTail(messages);
      FillKeepsEmptyOnlyLast(messages[1..], added, tail);
      FilledHeadEmpty(messages[0], pending, CloseWith(Fill(messages[1..], added), tail));
    }
  }

  lemma SplitLength(parts: seq<RequestPart>)
    ensures |Results(parts)| + |NonResults(parts)| == |parts|
  {}

  lemma {:induction false} MergeKeepsEmptyOnlyLast(messages: seq<Message>)
    requires EmptyOnlyLast(messages)
    ensures EmptyOnlyLast(Merge(messages))
    decreases |messages|
  {
    if |messages| >= 2 {
      var first, second, rest := messages[0], messages[1], messages[2..];
      EmptyTail(messages);
      if Mergeable(first, second) {
        if second.Request? {
          SplitLength(first.parts + second.parts);
        }
        EmptyTail(messages[1..]);
        assert rest == messages[1..][1..];
        EmptyStep(Combine(first, second), rest);
        MergeKeepsEmptyOnlyLast([Combine(first, second)] + rest);
      } else {
        MergeKeepsEmptyOnlyLast(messages[1..]);
        EmptyStep(first, Merge(messages[1..]));
      }
    }
  }

  // ----- valid histories are left alone -----

  lemma KeepAll(parts: seq<RequestPart>, seen: set<Key>)
    requires forall part :: part in parts && IsResult(part) ==> ResultKey(part) in seen
    ensures KeepParts(parts, seen) == parts
  {
    if parts != [] {
      assert forall part :: part in parts[1..] ==> part in parts;
      KeepAll(parts[1..], seen);
      assert parts == [parts[0]] + parts[1..];
    }
  }

  lemma {:induction false} DropIdle(messages: seq<Message>, seen: set<Key>)
    requires NoOrphans(messages, seen) && EmptyOnlyLast(messages)
    ensures DropOrphans(messages, seen) == messages
  {
    hide Calls, SeenAfter, KeepParts;
    if messages != [] {
      EmptyTail(messages);
      DropIdle(messages[1..], SeenAfter(messages[0], seen));
      if messages[0].Request? {
        KeepAll(messages[0].parts, seen);
      }
      assert messages == [messages[0]] + messages[1..];
    }
  }

  lemma {:induction false} NothingMissing(calls: seq<ToolCall>, count: nat, rest: seq<Message>)
    requires count <= |calls| && forall key :: CountCalls(calls, key) <= Window(rest, key)
    ensures Missing(calls, count, rest) == []
  {
    hide Window;
    if count > 0 {
      NothingMissing(calls, count - 1, rest);
      var key := CallKey(calls[count - 1]);
      CountCallsConcat(calls[..count], calls[count..], key);
      assert calls == calls[..count] + calls[count..];
    }
  }

  lemma {:induction false} FillIdle(messages: seq<Message>)
    requires AllAnswered(messages)
    ensures Fill(messages, []) == (messages, [])
  {
    hide Missing, Window, CountCalls, Calls;
    if messages != [] {
      FillIdle(messages[1..]);
      if messages[0].Response? {
        NothingMissing(MessageCalls(messages[0]), |MessageCalls(messages[0])|, messages[1..]);
        assert Fill(messages[1..], []) == (messages[1..], []);
        assert [] + [messages[0]] + messages[1..] == messages;
      } else {
        assert InsertResults(messages[0].parts, []) == messages[0].parts;
        assert [messages[0]] + messages[1..] == messages;
      }
    }
  }

  // ----- the two main results -----

  /** Repair delivers a valid history, from any history. */
  lemma RepairIsValid(messages: seq<Message>)
    ensures ProviderValid(Repair(messages))
  {
    var dropped := DropOrphans(messages, {});
    var filled := Fill(dropped, []);
    var tail := ClosingRequest(filled.0, filled.1);
    var closed := CloseWith(filled, tail);
    DropLeavesNoOrphans(messages, {});
    DropLeavesEmptyOnlyLast(messages, {});
    FillAnswersAll(dropped, [], tail);
    FillKeepsOrder(dropped, [], tail, {});
    FillKeepsEmptyOnlyLast(dropped, [], tail);
    MergeAnswered(closed);
    MergeKeepsOrder(closed, {});
    MergeKeepsEmptyOnlyLast(closed);
    MergeLeavesNoMergeable(closed);
  }

  /** Repair changes exactly the histories that are not valid, so repairing twice is repairing once. */
  lemma RepairFixpoint(messages: seq<Message>)
    ensures Repair(messages) == messages <==> ProviderValid(messages)
    ensures Repair(Repair(messages)) == Repair(messages)
  {
    forall valid | ProviderValid(valid) ensures Repair(valid) == valid {
      DropIdle(valid, {});
      FillIdle(valid);
      MergeIdle(valid);
    }
    RepairIsValid(messages);
  }

  // ----- what repair keeps -----

  function AllOuts(messages: seq<Message>): seq<ResponsePart> {
    if messages == [] then []
    else (if messages[0].Response? then messages[0].outs else []) + AllOuts(messages[1..])
  }

  function AllPrompts(messages: seq<Message>): seq<RequestPart> {
    if messages == [] then []
    else (if messages[0].Request? then NonResults(messages[0].parts) else []) + AllPrompts(messages[1..])
  }

  function AllResults(messages: seq<Message>): seq<RequestPart> {
    if messages == [] then []
    else (if messages[0].Request? then Results(messages[0].parts) else []) + AllResults(messages[1..])
  }

  /** The results that come after a call with their key. */
  function KnownResults(messages: seq<Message>, seen: set<Key>): seq<RequestPart> {
    if messages == [] then []
    else (if messages[0].Request? then Results(KeepParts(messages[0].parts, seen)) else [])
         + KnownResults(messages[1..], SeenAfter(messages[0], seen))
  }

  predicate IsSynthesized(part: RequestPart) { part.ToolReturn? && part.synthesized }

  function Genuine(parts: seq<RequestPart>): seq<RequestPart> {
    if parts == [] then [] else (if IsSynthesized(parts[0]) then [] else [parts[0]]) + Genuine(parts[1..])
  }

  /** Calls the matcher leaves without a result. */
  function DanglingCalls(messages: seq<Message>): nat {
    if messages == [] then 0 else |AddedFor(messages[0], messages[1..])| + DanglingCalls(messages[1..])
  }

  lemma {:induction false} ConcatResults(a: seq<RequestPart>, b: seq<RequestPart>)
    ensures Results(a + b) == Results(a) + Results(b)
  {
    if a == [] {
      assert a + b == b;
    } else {
      assert (a + b)[1..] == a[1..] + b;
      ConcatResults(a[1..], b);
      assert (if IsResult(a[0]) then [a[0]] else []) + (Results(a[1..]) + Results(b))
        == ((if IsResult(a[0]) then [a[0]] else []) + Results(a[1..])) + Results(b);
    }
  }

  lemma {:induction false} ConcatNonResults(a: seq<RequestPart>, b: seq<RequestPart>)
    ensures NonResults(a + b) == NonResults(a) + NonResults(b)
  {
    if a == [] {
      assert a + b == b;
    } else {
      assert (a + b)[1..] == a[1..] + b;
      ConcatNonResults(a[1..], b);
      assert (if IsResult(a[0]) then [] else [a[0]]) + (NonResults(a[1..]) + NonResults(b))
        == ((if IsResult(a[0]) then [] else [a[0]]) + NonResults(a[1..])) + NonResults(b);
    }
  }

  lemma {:induction false} ConcatGenuine(a: seq<RequestPart>, b: seq<RequestPart>)
    ensures Genuine(a + b) == Genuine(a) + Genuine(b)
  {
    if a == [] {
      assert a + b == b;
    } else {
      assert (a + b)[1..] == a[1..] + b;
      ConcatGenuine(a[1..], b);
      assert (if IsSynthesized(a[0]) then [] else [a[0]]) + (Genuine(a[1..]) + Genuine(b))
        == ((if IsSynthesized(a[0]) then [] else [a[0]]) + Genuine(a[1..])) + Genuine(b);
    }
  }

  lemma ConcatParts(a: seq<RequestPart>, b: seq<RequestPart>)
    ensures Results(a + b) == Results(a) + Results(b)
    ensures NonResults(a + b) == NonResults(a) + NonResults(b)
    ensures Genuine(a + b) == Genuine(a) + Genuine(b)
  {
    ConcatResults(a, b);
    ConcatNonResults(a, b);
    ConcatGenuine(a, b);
  }

  lemma {:induction false} ConcatAllOuts(a: seq<Message>, b: seq<Message>)
    ensures AllOuts(a + b) == AllOuts(a) + AllOuts(b)
  {
    hide Results, NonResults;
    if a == [] {
      assert a + b == b;
    } else {
      assert (a + b)[1..] == a[1..] + b;
      ConcatAllOuts(a[1..], b);
    }
  }

  lemma {:induction false} ConcatAllPrompts(a: seq<Message>, b: seq<Message>)
    ensures AllPrompts(a + b) == AllPrompts(a) + AllPrompts(b)
  {
    hide Results, NonResults;
    if a == [] {
      assert a + b == b;
    } else {
      assert (a + b)[1..] == a[1..] + b;
      ConcatAllPrompts(a[1..], b);
    }
  }

  lemma {:induction false} ConcatAllResults(a: seq<Message>, b: seq<Message>)
    ensures AllResults(a + b) == AllResults(a) + AllResults(b)
  {
    hide Results, NonResults;
    if a == [] {
      assert a + b == b;
    } else {
      assert (a + b)[1..] == a[1..] + b;
      ConcatAllResults(a[1..], b);
    }
  }

  lemma ConcatMessages(a: seq<Message>, b: seq<Message>)
    ensures AllOuts(a + b) == AllOuts(a) + AllOuts(b)
    ensures AllPrompts(a + b) == AllPrompts(a) + AllPrompts(b)
    ensures AllResults(a + b) == AllResults(a) + AllResults(b)
  {
    ConcatAllOuts(a, b);
    ConcatAllPrompts(a, b);
    ConcatAllResults(a, b);
  }

  lemma SplitTwice(parts: seq<RequestPart>)
    ensures Results(Results(parts)) == Results(parts) && NonResults(Results(parts)) == []
    ensures NonResults(NonResults(parts)) == NonResults(parts) && Results(NonResults(parts)) == []
  {
    if parts != [] {
      SplitTwice(parts[1..]);
      if IsResult(parts[0]) {
        assert Results(parts)[1..] == Results(parts[1..]);
        assert NonResults(parts) == NonResults(parts[1..]);
      } else {
        assert NonResults(parts)[1..] == NonResults(parts[1..]);
        assert Results(parts) == Results(parts[1..]);
      }
    }
  }

  lemma KeepPartsPrompts(parts: seq<RequestPart>, seen: set<Key>)
    ensures NonResults(KeepParts(parts, seen)) == NonResults(parts)
  {
    if parts != [] {
      KeepPartsPrompts(parts[1..], seen);
      if IsResult(parts[0]) && ResultKey(parts[0]) !in seen {
        assert KeepParts(parts, seen) == KeepParts(parts[1..], seen);
      } else {
        assert KeepParts(parts, seen)[1..] == KeepParts(parts[1..], seen);
      }
    }
  }

  lemma {:induction false} DropConserves(messages: seq<Message>, seen: set<Key>)
    ensures AllOuts(DropOrphans(messages, seen)) == AllOuts(messages)
    ensures AllPrompts(DropOrphans(messages, seen)) == AllPrompts(messages)
    ensures AllResults(DropOrphans(messages, seen)) == KnownResults(messages, seen)
  {
    if messages != [] {
      var message := messages[0];
      var rest := DropOrphans(messages[1..], SeenAfter(message, seen));
      DropConserves(messages[1..], SeenAfter(message, seen));
      if message.Response? {
        assert ([message] + rest)[1..] == rest;
      } else {
        KeepPartsPrompts(message.parts, seen);
        var kept := message.(parts := KeepParts(message.parts, seen));
        assert ([kept] + rest)[1..] == rest;
        assert kept.parts == [] ==> Results(kept.parts) == NonResults(kept.parts) == [];
      }
    }
  }

  lemma AllInterrupted(calls: seq<ToolCall>, count: nat, rest: seq<Message>)
    requires count <= |calls|
    ensures Results(Missing(calls, count, rest)) == Missing(calls, count, rest)
    ensures NonResults(Missing(calls, count, rest)) == [] && Genuine(Missing(calls, count, rest)) == []
  {
    if count > 0 {
      AllInterrupted(calls, count - 1, rest);
      ConcatParts(Missing(calls, count - 1, rest), [Interrupted(calls[count - 1])]);
      ConcatParts(Missing(calls, count - 1, rest), []);
    }
  }

  ghost predicate OnlyInterrupted(parts: seq<RequestPart>) {
    Results(parts) == parts && NonResults(parts) == [] && Genuine(parts) == []
  }

  lemma OneMessage(message: Message)
    ensures AllOuts([message]) == if message.Response? then message.outs else []
    ensures AllPrompts([message]) == if message.Request? then NonResults(message.parts) else []
    ensures AllResults([message]) == if message.Request? then Results(message.parts) else []
  {
    assert [message][1..] == [];
  }

  lemma {:induction false} InsertConserves(parts: seq<RequestPart>, added: seq<RequestPart>)
    requires OnlyInterrupted(added)
    ensures NonResults(InsertResults(parts, added)) == NonResults(parts)
    ensures Genuine(Results(InsertResults(parts, added))) == Genuine(Results(parts))
    ensures |Results(InsertResults(parts, added))| == |Results(parts)| + |added|
  {
    hide Results, NonResults, Genuine, LastResult;
    var at := LastResult(parts);
    var before, after := parts[..at], parts[at..];
    assert parts == before + after;
    ConcatParts(before, after);
    ConcatParts(before, added);
    ConcatParts(before + added, after);
    ConcatParts(Results(before), Results(after));
    ConcatParts(Results(before), added);
    ConcatParts(Results(before) + added, Results(after));
  }

  lemma {:induction false} FilledHeadConserves(message: Message, pending: seq<RequestPart>)
    requires OnlyInterrupted(pending)
    ensures var head := FilledHead(message, pending);
      && AllOuts(head) == AllOuts([message])
      && AllPrompts(head) == AllPrompts([message])
      && Genuine(AllResults(head)) == Genuine(AllResults([message]))
      && |AllResults(head)| == |AllResults([message])| + |pending|
  {
    hide Results, NonResults, AllOuts, AllPrompts, AllResults, InsertResults;
    OneMessage(message);
    if message.Request? {
      InsertConserves(message.parts, pending);
      OneMessage(FilledHead(message, pending)[0]);
    } else if pending != [] {
      OneMessage(BareRequest(pending));
      ConcatMessages([BareRequest(pending)], [message]);
      assert [BareRequest(pending)] + [message] == FilledHead(message, pending);
      assert pending + [] == pending && Genuine([]) == [];
    }
  }

  lemma {:induction false} FillConserves(messages: seq<Message>, pending: seq<RequestPart>, tail: Message)
    requires tail.Request? && OnlyInterrupted(pending)
    ensures var closed := CloseWith(Fill(messages, pending), tail);
      && AllOuts(closed) == AllOuts(messages)
      && AllPrompts(closed) == AllPrompts(messages)
      && Genuine(AllResults(closed)) == Genuine(AllResults(messages))
      && |AllResults(closed)| == |AllResults(messages)| + |pending| + DanglingCalls(messages)
  {
    if messages == [] {
      if pending != [] {
        assert CloseWith(Fill(messages, pending), tail) == [tail.(parts := pending)];
        assert AllResults([tail.(parts := pending)]) == pending;
      }
    } else {
      var message := messages[0];
      var added := AddedFor(message, messages[1..]);
      var rest := CloseWith(Fill(messages[1..], added), tail);
      FillStep(messages, pending, tail);
      AllInterrupted(MessageCalls(message), |MessageCalls(message)|, messages[1..]);
      FillConserves(messages[1..], added, tail);
      FilledHeadConserves(message, pending);
      ConcatMessages(FilledHead(message, pending), rest);
      ConcatMessages([message], messages[1..]);
      assert messages == [message] + messages[1..];
      ConcatParts(AllResults(FilledHead(message, pending)), AllResults(rest));
      ConcatParts(AllResults([message]), AllResults(messages[1..]));
    }
  }

  lemma CombineConserves(first: Message, second: Message)
    requires Mergeable(first, second)
    ensures AllOuts([Combine(first, second)]) == AllOuts([first, second])
    ensures AllPrompts([Combine(first, second)]) == AllPrompts([first, second])
    ensures AllResults([Combine(first, second)]) == AllResults([first, second])
  {
    ConcatMessages([first], [second]);
    assert [first, second] == [first] + [second];
    OneMessage(first);
    OneMessage(second);
    OneMessage(Combine(first, second));
    if second.Request? {
      var parts := first.parts + second.parts;
      var both := Combine(first, second).parts;
      assert NonResults(both) == NonResults(parts) && Results(both) == Results(parts) by {
        SplitTwice(parts);
        ConcatResults(Results(parts), NonResults(parts));
        ConcatNonResults(Results(parts), NonResults(parts));
      }
      ConcatResults(first.parts, second.parts);
      ConcatNonResults(first.parts, second.parts);
    }
  }

  lemma {:induction false} MergeConserves(messages: seq<Message>)
    ensures AllOuts(Merge(messages)) == AllOuts(messages)
    ensures AllPrompts(Merge(messages)) == AllPrompts(messages)
    ensures AllResults(Merge(messages)) == AllResults(messages)
    decreases |messages|
  {
    if |messages| >= 2 {
      var first, second, rest := messages[0], messages[1], messages[2..];
      if Mergeable(first, second) {
        MergeConserves([Combine(first, second)] + rest);
        CombineConserves(first, second);
        assert messages == [first, second] + rest;
        ConcatMessages([first, second], rest);
        ConcatMessages([Combine(first, second)], rest);
      } else {
        MergeConserves(messages[1..]);
        assert ([first] + Merge(messages[1..]))[1..] == Merge(messages[1..]);
      }
    }
  }

  lemma KeptCount(parts: seq<RequestPart>, seen: set<Key>, key: Key)
    requires key in seen
    ensures CountResults(KeepParts(parts, seen), key) == CountResults(parts, key)
  {
    if parts != [] {
      KeptCount(parts[1..], seen, key);
      if IsResult(parts[0]) && ResultKey(parts[0]) !in seen {
        assert KeepParts(parts, seen) == KeepParts(parts[1..], seen);
      } else {
        assert KeepParts(parts, seen)[1..] == KeepParts(parts[1..], seen);
      }
    }
  }

  lemma {:induction false} DropWindow(messages: seq<Message>, seen: set<Key>, key: Key)
    requires key in seen
    ensures Window(DropOrphans(messages, seen), key) == Window(messages, key)
  {
    if messages != [] {
      var message := messages[0];
      var rest := DropOrphans(messages[1..], SeenAfter(message, seen));
      DropWindow(messages[1..], SeenAfter(message, seen), key);
      if message.Response? {
        WindowStep(message, rest, key);
      } else {
        var kept := message.(parts := KeepParts(message.parts, seen));
        KeptCount(message.parts, seen, key);
        WindowStep(kept, rest, key);
      }
    }
  }

  lemma {:induction false} DropMissing(message: Message, calls: seq<ToolCall>, count: nat, rest: seq<Message>,
                                       seen: set<Key>)
    requires calls == MessageCalls(message) && count <= |calls|
    ensures Missing(calls, count, DropOrphans(rest, SeenAfter(message, seen))) == Missing(calls, count, rest)
  {
    hide Calls, Window, DropOrphans, CountCalls;
    if count > 0 {
      DropMissing(message, calls, count - 1, rest, seen);
      assert calls[count - 1] in calls;
      DropWindow(rest, SeenAfter(message, seen), CallKey(calls[count - 1]));
    }
  }

  lemma {:induction false} DropDangling(messages: seq<Message>, seen: set<Key>)
    ensures DanglingCalls(DropOrphans(messages, seen)) == DanglingCalls(messages)
  {
    if messages != [] {
      var message := messages[0];
      var rest := DropOrphans(messages[1..], SeenAfter(message, seen));
      DropDangling(messages[1..], SeenAfter(message, seen));
      if message.Response? {
        DropMissing(message, MessageCalls(message), |MessageCalls(message)|, messages[1..], seen);
        assert ([message] + rest)[1..] == rest;
      } else {
        var kept := message.(parts := KeepParts(message.parts, seen));
        assert ([kept] + rest)[1..] == rest;
      }
    }
  }

  /** Response parts and prompts survive in order; the genuine results left are those that follow a
      call with their key, in order; and one result is added per dangling call. */
  lemma RepairConserves(messages: seq<Message>)
    ensures AllOuts(Repair(messages)) == AllOuts(messages)
    ensures AllPrompts(Repair(messages)) == AllPrompts(messages)
    ensures Genuine(AllResults(Repair(messages))) == Genuine(KnownResults(messages, {}))
    ensures |AllResults(Repair(messages))| == |KnownResults(messages, {})| + DanglingCalls(messages)
  {
    var dropped := DropOrphans(messages, {});
    var filled := Fill(dropped, []);
    var tail := ClosingRequest(filled.0, filled.1);
    DropConserves(messages, {});
    DropDangling(messages, {});
    FillConserves(dropped, [], tail);
    MergeConserves(CloseWith(filled, tail));
  }

  // ----- the resume-time matcher -----

  /** Last-in-first-out matching without shadowing, one key at a time: a stack of unresolved calls. */
  function OpenStack(messages: seq<Message>, key: Key, stack: seq<ToolCall>): seq<ToolCall> {
    if messages == [] then stack
    else if messages[0].Response? then
      OpenStack(messages[1..], key, stack + CallsWith(Calls(messages[0].outs), key))
    else
      var left := |stack| - CountResults(messages[0].parts, key);
      OpenStack(messages[1..], key, stack[..if left > 0 then left else 0])
  }

  lemma {:induction false} AnsweredLeavesNoStack(messages: seq<Message>, key: Key, stack: seq<ToolCall>)
    requires AllAnswered(messages) && |stack| <= Window(messages, key)
    ensures OpenStack(messages, key, stack) == []
  {
    if messages != [] {
      var message := messages[0];
      if message.Response? {
        CallsWithCount(Calls(message.outs), key);
        AnsweredLeavesNoStack(messages[1..], key, stack + CallsWith(Calls(message.outs), key));
      } else {
        var left := |stack| - CountResults(message.parts, key);
        AnsweredLeavesNoStack(messages[1..], key, stack[..if left > 0 then left else 0]);
      }
    }
  }

  /** The two matchers disagree on the order they resolve calls in, yet after repair neither finds
      an unresolved one. */
  lemma RepairResolvesAll(messages: seq<Message>, key: Key)
    ensures OpenStack(Repair(messages), key, []) == []
  {
    RepairIsValid(messages);
    AnsweredLeavesNoStack(Repair(messages), key, []);
  }
}
