/** Where repair puts what it adds, and what a merged message is made of, without the functions that
    compute either. */
module RepairPlacement {
  import opened Options
  import opened History
  import opened RepairSpec
  import opened Pieces

  // ----- where interrupted results go -----

  /** No result stands behind a prompt. */
  predicate ResultsLead(parts: seq<RequestPart>) {
    forall i, j :: 0 <= i < j < |parts| && IsResult(parts[j]) ==> IsResult(parts[i])
  }

  /** `added` stands directly behind the last result there was, or in front when there was none. */
  ghost predicate PutAt(before: seq<RequestPart>, after: seq<RequestPart>, added: seq<RequestPart>, at: nat) {
    && at <= |before|
    && (at > 0 ==> IsResult(before[at - 1]))
    && (forall i :: at <= i < |before| ==> !IsResult(before[i]))
    && after == before[..at] + added + before[at..]
  }

  ghost predicate PutBehind(before: seq<RequestPart>, after: seq<RequestPart>, added: seq<RequestPart>) {
    exists at: nat :: PutAt(before, after, added, at)
  }

  /** `added` answers the calls at these positions, in order: of the calls with one key the last ones, as
      many as there are calls beyond the results that arrive in time. */
  ghost predicate Picks(calls: seq<ToolCall>, rest: seq<Message>, at: seq<nat>, added: seq<RequestPart>) {
    && |at| == |added|
    && (forall k :: 0 <= k < |at| ==> at[k] < |calls| && IsInterruption(calls[at[k]], added[k]))
    && (forall j, k :: 0 <= j < k < |at| ==> at[j] < at[k])
    && (forall i, j :: 0 <= i < j < |calls| && CallKey(calls[i]) == CallKey(calls[j]) && i in at ==> j in at)
    && (forall key ::
          CountResults(added, key) == NonNegative(CountCalls(calls, key) - Window(rest, key)))
  }

  function NonNegative(n: int): nat { if n > 0 then n else 0 }

  predicate IsInterruption(call: ToolCall, part: RequestPart) {
    && part.ToolReturn? && part.name == call.name && part.id == call.id && part.kind == call.kind
    && part.content == "The tool call was interrupted before a result was produced." && part.synthesized
  }

  /** What a message leaves to be added after it. */
  ghost predicate Owed(message: Message, rest: seq<Message>, added: seq<RequestPart>) {
    exists at :: Picks(MessageCalls(message), rest, at, added)
  }

  /** What becomes of a message when `due` is to be added before the next response. */
  ghost predicate Placed(message: Message, due: seq<RequestPart>, block: seq<Message>) {
    if message.Request? then
      && |block| == 1 && block[0].Request? && block[0] == message.(parts := block[0].parts)
      && PutBehind(message.parts, block[0].parts, due)
    else if due == [] then block == [message]
    else block == [Request(due, "", 0, "", "", map[], ""), message]
  }

  ghost predicate AllPlaced(messages: seq<Message>, pending: seq<RequestPart>, tail: Message, filled: seq<Message>,
                            dues: seq<seq<RequestPart>>, blocks: seq<seq<Message>>)
    requires tail.Request?
  {
    && |dues| == |blocks| == |messages| + 1 && dues[0] == pending && Flat(blocks) == filled
    && (forall i :: 0 <= i < |messages| ==>
          Owed(messages[i], messages[i + 1..], dues[i + 1]) && Placed(messages[i], dues[i], blocks[i]))
    && blocks[|messages|] == if dues[|messages|] == [] then [] else [tail.(parts := dues[|messages|])]
  }

  lemma InterruptedIs(call: ToolCall)
    ensures IsInterruption(call, Interrupted(call))
  {}

  /** One of the first calls is beyond the results for its key. */
  predicate Beyond(calls: seq<ToolCall>, rest: seq<Message>, i: nat)
    requires i < |calls|
  {
    CountCalls(calls[..i + 1], CallKey(calls[i])) > Window(rest, CallKey(calls[i]))
  }

  lemma MissingStep(calls: seq<ToolCall>, count: nat, rest: seq<Message>)
    requires 0 < count <= |calls|
    ensures Missing(calls, count, rest)
         == Missing(calls, count - 1, rest)
            + if Beyond(calls, rest, count - 1) then [Interrupted(calls[count - 1])] else []
  {
    assert calls[..count - 1 + 1] == calls[..count];
  }

  lemma {:induction false} MissingPicks(calls: seq<ToolCall>, count: nat, rest: seq<Message>) returns (at: seq<nat>)
    requires count <= |calls|
    ensures |at| == |Missing(calls, count, rest)| && Rising(at, count)
    ensures forall k :: 0 <= k < |at| ==> IsInterruption(calls[at[k]], Missing(calls, count, rest)[k])
    ensures forall i :: 0 <= i < count ==> (i in at <==> Beyond(calls, rest, i))
  {
    if count == 0 {
      at := [];
    } else {
      at := MissingPicks(calls, count - 1, rest);
      MissingStep(calls, count, rest);
      InterruptedIs(calls[count - 1]);
      hide Missing, IsInterruption, Interrupted, Beyond;
      if Beyond(calls, rest, count - 1) { at := at + [count - 1]; }
    }
  }

  lemma {:induction false} MoreCalls(calls: seq<ToolCall>, i: nat, j: nat, key: Key)
    requires i <= j <= |calls|
    ensures CountCalls(calls[..i], key) <= CountCalls(calls[..j], key)
  {
    assert calls[..j] == calls[..i] + calls[i..j];
    CountCallsConcat(calls[..i], calls[i..j], key);
  }

  lemma {:induction false} MissingOwed(message: Message, rest: seq<Message>)
    ensures Owed(message, rest, AddedFor(message, rest))
  {
    hide Missing, CountCalls, Window, Calls, CallKey, IsInterruption;
    var calls := MessageCalls(message);
    var at := MissingPicks(calls, |calls|, rest);
    var added := Missing(calls, |calls|, rest);
    forall i, j | 0 <= i < j < |calls| && CallKey(calls[i]) == CallKey(calls[j]) && i in at ensures j in at {
      MoreCalls(calls, i + 1, j + 1, CallKey(calls[i]));
    }
    forall key ensures CountResults(added, key) == NonNegative(CountCalls(calls, key) - Window(rest, key)) {
      MissingAfterIsShortfall(message, rest, key);
    }
    assert Picks(calls, rest, at, added);
    if message.Request? { assert at == [] && added == []; }
  }

  lemma {:induction false} LastResultIsLast(parts: seq<RequestPart>)
    ensures var at := LastResult(parts);
      (at > 0 ==> IsResult(parts[at - 1])) && forall i :: at <= i < |parts| ==> !IsResult(parts[i])
  {
    hide IsResult;
    if parts != [] { LastResultIsLast(parts[..|parts| - 1]); }
  }

  lemma {:induction false} HeadPlaced(message: Message, due: seq<RequestPart>)
    ensures Placed(message, due, FilledHead(message, due))
  {
    if message.Request? {
      LastResultIsLast(message.parts);
      assert PutAt(message.parts, InsertResults(message.parts, due), due, LastResult(message.parts));
    }
  }

  lemma RestAgrees(messages: seq<Message>, i: nat)
    requires 0 < i < |messages|
    ensures messages[1..][i - 1] == messages[i] && messages[1..][i - 1 + 1..] == messages[i + 1..]
  {}

  lemma {:induction false} BlocksMore(messages: seq<Message>, pending: seq<RequestPart>, tail: Message,
                                      filled: seq<Message>, dues: seq<seq<RequestPart>>,
                                      blocks: seq<seq<Message>>, head: seq<Message>)
    requires messages != [] && dues != [] && tail.Request?
    requires AllPlaced(messages[1..], dues[0], tail, filled, dues, blocks)
    requires Owed(messages[0], messages[1..], dues[0]) && Placed(messages[0], pending, head)
    ensures AllPlaced(messages, pending, tail, head + filled, [pending] + dues, [head] + blocks)
  {
    hide Owed, Placed, Flat;
    FlatFirst(head, blocks);
    var allDues, allBlocks := [pending] + dues, [head] + blocks;
    forall i | 0 <= i < |messages|
      ensures Owed(messages[i], messages[i + 1..], allDues[i + 1]) && Placed(messages[i], allDues[i], allBlocks[i])
    {
      if i > 0 {
        RestAgrees(messages, i);
        assert allDues[i] == dues[i - 1] && allDues[i + 1] == dues[i - 1 + 1] && allBlocks[i] == blocks[i - 1];
      }
    }
  }

  lemma OnlyTail(pending: seq<RequestPart>, tail: Message)
    requires tail.Request?
    ensures AllPlaced([], pending, tail, CloseWith(([], pending), tail), [pending], [CloseWith(([], pending), tail)])
  {
    var closed := CloseWith(([], pending), tail);
    assert [closed][..0] == [] && [] + closed == closed;
  }

  lemma {:induction false} FillBlocks(messages: seq<Message>, pending: seq<RequestPart>, tail: Message)
    returns (dues: seq<seq<RequestPart>>, blocks: seq<seq<Message>>)
    requires tail.Request?
    ensures AllPlaced(messages, pending, tail, CloseWith(Fill(messages, pending), tail), dues, blocks)
  {
    hide Owed, Placed, FilledHead, AddedFor, Flat, CloseWith;
    if messages == [] {
      dues, blocks := [pending], [CloseWith(([], pending), tail)];
      OnlyTail(pending, tail);
    } else {
      var message, rest := messages[0], messages[1..];
      var added := AddedFor(message, rest);
      dues, blocks := FillBlocks(rest, added, tail);
      FillStep(messages, pending, tail);
      MissingOwed(message, rest);
      HeadPlaced(message, pending);
      assert dues[0] == added;
      hide AllPlaced, Fill;
      BlocksMore(messages, pending, tail, CloseWith(Fill(rest, added), tail), dues, blocks,
        FilledHead(message, pending));
      dues, blocks := [pending] + dues, [FilledHead(message, pending)] + blocks;
    }
  }

  /** Filling turns each message into its own block, in order. What a response leaves unanswered joins the
      request after it, behind the last result there, or becomes a request of its own before the next
      response, or the closing one. */
  lemma {:induction false} FillPlaces(messages: seq<Message>, pending: seq<RequestPart>, tail: Message)
    requires tail.Request?
    ensures exists dues, blocks ::
      AllPlaced(messages, pending, tail, CloseWith(Fill(messages, pending), tail), dues, blocks)
  {
    hide AllPlaced, Fill;
    var dues, blocks := FillBlocks(messages, pending, tail);
  }

  // ----- which results are dropped -----

  /** Some response among the first `n` messages calls the key. */
  ghost predicate CalledBefore(messages: seq<Message>, n: nat, seen: set<Key>, key: Key)
    requires n <= |messages|
  {
    key in seen || exists i :: 0 <= i < n && CallsKey(messages[i], key)
  }

  /** `kept` holds, in order, the parts that are no result or answer a key called before. */
  ghost predicate KeptAt(messages: seq<Message>, n: nat, seen: set<Key>, at: seq<nat>, kept: seq<RequestPart>)
    requires n < |messages| && messages[n].Request?
  {
    var parts := messages[n].parts;
    && |at| == |kept| && Rising(at, |parts|)
    && (forall k :: 0 <= k < |at| ==> kept[k] == parts[at[k]])
    && (forall i :: 0 <= i < |parts| ==>
          (i in at <==> (IsResult(parts[i]) ==> CalledBefore(messages, n, seen, ResultKey(parts[i])))))
  }

  ghost predicate KeptIn(messages: seq<Message>, n: nat, seen: set<Key>, kept: seq<RequestPart>)
    requires n < |messages| && messages[n].Request?
  {
    exists at :: KeptAt(messages, n, seen, at, kept)
  }

  ghost predicate Dropped(messages: seq<Message>, n: nat, seen: set<Key>, block: seq<Message>)
    requires n < |messages|
  {
    if messages[n].Response? then block == [messages[n]]
    else exists kept :: (KeptIn(messages, n, seen, kept)
      && block == if kept != [] || n == |messages| - 1 then [messages[n].(parts := kept)] else [])
  }

  ghost predicate AllDropped(messages: seq<Message>, seen: set<Key>, left: seq<Message>, blocks: seq<seq<Message>>) {
    && |blocks| == |messages| && Flat(blocks) == left
    && forall n :: 0 <= n < |messages| ==> Dropped(messages, n, seen, blocks[n])
  }

  predicate Stays(part: RequestPart, seen: set<Key>) { IsResult(part) ==> ResultKey(part) in seen }

  lemma KeepFirst(parts: seq<RequestPart>, seen: set<Key>)
    requires parts != []
    ensures KeepParts(parts, seen) == (if Stays(parts[0], seen) then [parts[0]] else []) + KeepParts(parts[1..], seen)
  {}

  lemma {:induction false} KeepStep(parts: seq<RequestPart>, last: RequestPart, seen: set<Key>)
    ensures KeepParts(parts + [last], seen) == KeepParts(parts, seen) + if Stays(last, seen) then [last] else []
  {
    KeepFirst(parts + [last], seen);
    if parts == [] {
      assert parts + [last] == [last] && [last][1..] == [] && KeepParts([], seen) == [];
    } else {
      KeepFirst(parts, seen);
      KeepStep(parts[1..], last, seen);
      hide KeepParts, Stays;
      assert (parts + [last])[0] == parts[0] && (parts + [last])[1..] == parts[1..] + [last];
    }
  }

  lemma {:induction false} PartsKept(parts: seq<RequestPart>, seen: set<Key>) returns (at: seq<nat>)
    ensures |at| == |KeepParts(parts, seen)| && Rising(at, |parts|)
    ensures forall k :: 0 <= k < |at| ==> KeepParts(parts, seen)[k] == parts[at[k]]
    ensures forall i :: 0 <= i < |parts| ==> (i in at <==> Stays(parts[i], seen))
  {
    if parts == [] {
      at := [];
    } else {
      var front, last := parts[..|parts| - 1], |parts| - 1;
      at := PartsKept(front, seen);
      KeepStep(front, parts[last], seen);
      assert front + [parts[last]] == parts;
      hide KeepParts, Stays;
      if Stays(parts[last], seen) { at := at + [last]; }
    }
  }

  lemma {:induction false} HeadDropped(messages: seq<Message>, seen: set<Key>)
    requires messages != [] && messages[0].Request?
    ensures KeptIn(messages, 0, seen, KeepParts(messages[0].parts, seen))
  {
    hide IsResult, ResultKey, KeepParts, CallsKey;
    var at := PartsKept(messages[0].parts, seen);
    assert KeptAt(messages, 0, seen, at, KeepParts(messages[0].parts, seen));
  }

  lemma SeenLater(messages: seq<Message>, n: nat, seen: set<Key>, key: Key)
    requires 0 < n <= |messages|
    ensures CalledBefore(messages[1..], n - 1, SeenAfter(messages[0], seen), key)
       <==> CalledBefore(messages, n, seen, key)
  {
    hide CountCalls;
    CountCallsMember(MessageCalls(messages[0]), key);
    var rest := messages[1..];
    if i :| 0 <= i < n && CallsKey(messages[i], key) {
      if i > 0 { assert CallsKey(rest[i - 1], key); }
    }
    if i :| 0 <= i < n - 1 && CallsKey(rest[i], key) { assert CallsKey(messages[i + 1], key); }
  }

  lemma {:induction false} KeptLater(messages: seq<Message>, n: nat, seen: set<Key>, kept: seq<RequestPart>)
    requires 0 < n < |messages| && messages[n].Request?
    requires messages[1..][n - 1] == messages[n] && KeptIn(messages[1..], n - 1, SeenAfter(messages[0], seen), kept)
    ensures KeptIn(messages, n, seen, kept)
  {
    var rest, known := messages[1..], SeenAfter(messages[0], seen);
    var at :| KeptAt(rest, n - 1, known, at, kept);
    hide CalledBefore, IsResult, ResultKey, SeenAfter, Rising;
    var parts := messages[n].parts;
    forall i | 0 <= i < |parts|
      ensures i in at <==> (IsResult(parts[i]) ==> CalledBefore(messages, n, seen, ResultKey(parts[i])))
    {
      if IsResult(parts[i]) { SeenLater(messages, n, seen, ResultKey(parts[i])); }
    }
    assert KeptAt(messages, n, seen, at, kept);
  }

  lemma {:induction false} DroppedLater(messages: seq<Message>, n: nat, seen: set<Key>, block: seq<Message>)
    requires 0 < n < |messages| && Dropped(messages[1..], n - 1, SeenAfter(messages[0], seen), block)
    ensures Dropped(messages, n, seen, block)
  {
    hide KeptIn, SeenAfter;
    var rest, known := messages[1..], SeenAfter(messages[0], seen);
    assert rest[n - 1] == messages[n];
    if messages[n].Request? {
      var kept :| KeptIn(rest, n - 1, known, kept)
        && block == if kept != [] || n == |messages| - 1 then [messages[n].(parts := kept)] else [];
      KeptLater(messages, n, seen, kept);
    }
  }

  lemma {:induction false} DropHead(messages: seq<Message>, seen: set<Key>) returns (own: seq<Message>)
    requires messages != []
    ensures Dropped(messages, 0, seen, own)
    ensures DropOrphans(messages, seen) == own + DropOrphans(messages[1..], SeenAfter(messages[0], seen))
  {
    hide KeptIn, SeenAfter, KeepParts;
    var message := messages[0];
    if message.Response? {
      own := [message];
    } else {
      HeadDropped(messages, seen);
      var kept := KeepParts(message.parts, seen);
      own := if kept != [] || |messages| == 1 then [message.(parts := kept)] else [];
    }
  }

  lemma {:induction false} DropBlocks(messages: seq<Message>, seen: set<Key>) returns (blocks: seq<seq<Message>>)
    ensures AllDropped(messages, seen, DropOrphans(messages, seen), blocks)
  {
    if messages == [] {
      blocks := [];
    } else {
      var known := SeenAfter(messages[0], seen);
      var later := DropBlocks(messages[1..], known);
      var own := DropHead(messages, seen);
      FlatFirst(own, later);
      hide Dropped, DropOrphans, Flat, SeenAfter;
      blocks := [own] + later;
      forall n | 0 < n < |messages| ensures Dropped(messages, n, seen, blocks[n]) {
        assert blocks[n] == later[n - 1];
        DroppedLater(messages, n, seen, later[n - 1]);
      }
    }
  }

  /** Dropping orphans leaves every response; a request keeps, in order, its prompts and the results whose key
      an earlier response calls, and goes when nothing is left of it, unless it is the last message. */
  lemma {:induction false} DropPlaces(messages: seq<Message>)
    ensures exists blocks :: AllDropped(messages, {}, DropOrphans(messages, {}), blocks)
  {
    hide AllDropped, DropOrphans;
    var blocks := DropBlocks(messages, {});
  }

  // ----- what a merged message is made of -----

  ghost predicate OnlyText(values: seq<string>, value: string) {
    value in values && forall i :: 0 <= i < |values| ==> values[i] == "" || values[i] == value
  }

  predicate AllRequests(run: seq<Message>) { forall i :: 0 <= i < |run| ==> run[i].Request? }

  function Instructions(run: seq<Message>): seq<string>
    requires AllRequests(run)
  {
    seq(|run|, i requires 0 <= i < |run| => run[i].instructions)
  }

  function Timestamps(run: seq<Message>): seq<int>
    requires AllRequests(run)
  {
    seq(|run|, i requires 0 <= i < |run| => run[i].timestamp)
  }

  function RunIds(run: seq<Message>): seq<string>
    requires AllRequests(run)
  {
    seq(|run|, i requires 0 <= i < |run| => run[i].runId)
  }

  function Conversations(run: seq<Message>): seq<string>
    requires AllRequests(run)
  {
    seq(|run|, i requires 0 <= i < |run| => run[i].conversationId)
  }

  function Entries(run: seq<Message>, key: string): seq<Option<string>>
    requires AllRequests(run)
  {
    seq(|run|, i requires 0 <= i < |run| => Entry(run[i].metadata, key))
  }

  /** The fields of one request that stands for a run of them. */
  ghost predicate FieldsOf(run: seq<Message>, whole: Message)
    requires AllRequests(run) && run != [] && whole.Request?
  {
    && OnlyText(Instructions(run), whole.instructions)
    && LastSet(Timestamps(run), 0, whole.timestamp)
    && LastSet(RunIds(run), "", whole.runId)
    && LastSet(Conversations(run), "", whole.conversationId)
    && (forall key :: LastSet(Entries(run, key), None, Entry(whole.metadata, key)))
    && whole.state == run[|run| - 1].state
  }

  predicate Anonymous(message: Message) {
    && message.Response? && message.modelName == "" && message.providerName == ""
    && message.providerResponseId == ""
  }

  ghost predicate RequestsJoin(run: seq<Message>, whole: Message) {
    && run != [] && whole.Request? && AllRequests(run) && FieldsOf(run, whole) && ResultsLead(whole.parts)
    && Results(whole.parts) == AllResults(run) && NonResults(whole.parts) == AllPrompts(run)
  }

  /** What merging makes of a run: a single message stays; requests keep their results, then their prompts, in
      order; responses without identity keep their parts in order under the first one's fields. */
  ghost predicate Joined(run: seq<Message>, whole: Message) {
    if |run| == 1 then whole == run[0]
    else if run == [] then false
    else if whole.Request? then RequestsJoin(run, whole)
    else
      && (forall i :: 0 <= i < |run| ==> Anonymous(run[i]))
      && whole == run[0].(outs := AllOuts(run))
  }

  ghost predicate AllJoined(messages: seq<Message>, merged: seq<Message>, runs: seq<seq<Message>>) {
    |runs| == |merged| && Flat(runs) == messages && forall i :: 0 <= i < |runs| ==> Joined(runs[i], merged[i])
  }

  lemma {:induction false} LastSetMore<T>(a: T, b: T, rest: seq<T>, unset: T, value: T)
    requires LastSet([if b != unset then b else a] + rest, unset, value)
    ensures LastSet([a] + ([b] + rest), unset, value)
  {
    var both, more := [if b != unset then b else a] + rest, [a] + ([b] + rest);
    var i: nat :| LastSetAt(both, unset, value, i);
    assert forall j :: 0 < j < |both| ==> more[j + 1] == both[j];
    forall j | 1 < j < |more| ensures more[j] == both[j - 1] {}
    if i > 0 {
      assert LastSetAt(more, unset, value, i + 1);
    } else if b != unset {
      assert LastSetAt(more, unset, value, 1);
    } else {
      assert LastSetAt(more, unset, value, 0);
    }
  }

  lemma OnlyTextMore(a: string, b: string, rest: seq<string>, value: string)
    requires a == "" || b == "" || a == b
    requires OnlyText([if a != "" then a else b] + rest, value)
    ensures OnlyText([a] + ([b] + rest), value)
  {
    var both, more := [if a != "" then a else b] + rest, [a] + ([b] + rest);
    var i :| 0 <= i < |both| && both[i] == value;
    assert both[0] == "" || both[0] == value;
    assert more[0] == a && more[1] == b;
    forall j | 1 < j < |more| ensures more[j] == both[j - 1] {}
    if i > 0 {
      assert more[i + 1] == value;
    } else {
      assert more[if a != "" then 0 else 1] == value;
    }
  }

  lemma {:induction false} FieldsAlone(message: Message)
    requires message.Request?
    ensures FieldsOf([message], message)
  {
    assert LastSetAt(Timestamps([message]), 0, message.timestamp, 0);
    assert LastSetAt(RunIds([message]), "", message.runId, 0);
    assert LastSetAt(Conversations([message]), "", message.conversationId, 0);
    assert Instructions([message])[0] == message.instructions;
    forall key ensures LastSet(Entries([message], key), None, Entry(message.metadata, key)) {
      assert LastSetAt(Entries([message], key), None, Entry(message.metadata, key), 0);
    }
  }

  lemma CombinedFields(first: Message, second: Message)
    requires Mergeable(first, second) && second.Request?
    ensures var both := Combine(first, second);
      && first.Request? && both.Request? && both.state == second.state
      && (first.instructions == "" || second.instructions == "" || first.instructions == second.instructions)
      && both.instructions == (if first.instructions != "" then first.instructions else second.instructions)
      && both.timestamp == (if second.timestamp != 0 then second.timestamp else first.timestamp)
      && both.runId == (if second.runId != "" then second.runId else first.runId)
      && both.conversationId
         == (if second.conversationId != "" then second.conversationId else first.conversationId)
      && both.metadata == first.metadata + second.metadata
  {}

  lemma ListsOf(message: Message, rest: seq<Message>)
    requires message.Request? && AllRequests(rest)
    ensures AllRequests([message] + rest)
    ensures Instructions([message] + rest) == [message.instructions] + Instructions(rest)
    ensures Timestamps([message] + rest) == [message.timestamp] + Timestamps(rest)
    ensures RunIds([message] + rest) == [message.runId] + RunIds(rest)
    ensures Conversations([message] + rest) == [message.conversationId] + Conversations(rest)
  {}

  lemma EntriesOf(message: Message, rest: seq<Message>, key: string)
    requires message.Request? && AllRequests(rest)
    ensures AllRequests([message] + rest)
    ensures Entries([message] + rest, key) == [Entry(message.metadata, key)] + Entries(rest, key)
  {}

  lemma Pair<T>(a: T, b: T, rest: seq<T>)
    ensures [a] + ([b] + rest) == [a, b] + rest
  {}

  lemma MoreRequests(first: Message, second: Message, rest: seq<Message>)
    requires first.Request? && second.Request? && AllRequests(rest)
    ensures var more := [first] + ([second] + rest);
      && AllRequests(more) && more != [] && more[|more| - 1] == (if rest == [] then second else rest[|rest| - 1])
  {}

  lemma {:induction false} TextsMore(first: Message, second: Message, rest: seq<Message>, whole: Message)
    requires Mergeable(first, second) && second.Request? && AllRequests(rest) && whole.Request?
    requires FieldsOf([Combine(first, second)] + rest, whole)
    ensures var more := [first] + ([second] + rest);
      && AllRequests(more) && OnlyText(Instructions(more), whole.instructions)
      && LastSet(Timestamps(more), 0, whole.timestamp)
  {
    CombinedFields(first, second);
    var run := [Combine(first, second)] + rest;
    assert OnlyText(Instructions(run), whole.instructions) && LastSet(Timestamps(run), 0, whole.timestamp);
    hide Combine, Mergeable, FieldsOf, LastSet, OnlyText, Instructions, Timestamps, RunIds, Conversations;
    ListsOf(Combine(first, second), rest);
    ListsOf(second, rest);
    ListsOf(first, [second] + rest);
    hide AllRequests;
    OnlyTextMore(first.instructions, second.instructions, Instructions(rest), whole.instructions);
    LastSetMore(first.timestamp, second.timestamp, Timestamps(rest), 0, whole.timestamp);
  }

  lemma {:induction false} IdsMore(first: Message, second: Message, rest: seq<Message>, whole: Message)
    requires Mergeable(first, second) && second.Request? && AllRequests(rest) && whole.Request?
    requires FieldsOf([Combine(first, second)] + rest, whole)
    ensures var more := [first] + ([second] + rest);
      && AllRequests(more) && LastSet(RunIds(more), "", whole.runId)
      && LastSet(Conversations(more), "", whole.conversationId)
  {
    CombinedFields(first, second);
    var run := [Combine(first, second)] + rest;
    assert LastSet(RunIds(run), "", whole.runId) && LastSet(Conversations(run), "", whole.conversationId);
    hide Combine, Mergeable, FieldsOf, LastSet, OnlyText, Instructions, Timestamps, RunIds, Conversations;
    ListsOf(Combine(first, second), rest);
    ListsOf(second, rest);
    ListsOf(first, [second] + rest);
    hide AllRequests;
    LastSetMore(first.runId, second.runId, RunIds(rest), "", whole.runId);
    LastSetMore(first.conversationId, second.conversationId, Conversations(rest), "", whole.conversationId);
  }

  lemma {:induction false} EntriesMore(first: Message, second: Message, rest: seq<Message>, whole: Message, key: string)
    requires Mergeable(first, second) && second.Request? && AllRequests(rest) && whole.Request?
    requires FieldsOf([Combine(first, second)] + rest, whole)
    ensures AllRequests([first] + ([second] + rest))
    ensures LastSet(Entries([first] + ([second] + rest), key), None, Entry(whole.metadata, key))
  {
    CombinedFields(first, second);
    assert LastSet(Entries([Combine(first, second)] + rest, key), None, Entry(whole.metadata, key));
    hide Combine, Mergeable, FieldsOf, LastSet, Entries;
    EntriesOf(Combine(first, second), rest, key);
    EntriesOf(second, rest, key);
    EntriesOf(first, [second] + rest, key);
    LastSetMore(Entry(first.metadata, key), Entry(second.metadata, key), Entries(rest, key), None,
      Entry(whole.metadata, key));
  }

  lemma LastState(first: Message, second: Message, rest: seq<Message>, whole: Message)
    requires Mergeable(first, second) && second.Request? && AllRequests(rest) && whole.Request?
    requires FieldsOf([Combine(first, second)] + rest, whole)
    ensures whole.state == (if rest == [] then second else rest[|rest| - 1]).state
  {
    CombinedFields(first, second);
    hide Combine, Mergeable, OnlyText, LastSet;
  }

  lemma {:induction false} FieldsMore(first: Message, second: Message, rest: seq<Message>, whole: Message)
    requires Mergeable(first, second) && second.Request? && AllRequests(rest) && whole.Request?
    requires FieldsOf([Combine(first, second)] + rest, whole)
    ensures AllRequests([first] + ([second] + rest)) && FieldsOf([first] + ([second] + rest), whole)
  {
    CombinedFields(first, second);
    MoreRequests(first, second, rest);
    TextsMore(first, second, rest, whole);
    IdsMore(first, second, rest, whole);
    LastState(first, second, rest, whole);
    hide Combine, Mergeable, LastSet, OnlyText, Instructions, Timestamps, RunIds, Conversations, Entries, AllRequests;
    var more := [first] + ([second] + rest);
    forall key ensures LastSet(Entries(more, key), None, Entry(whole.metadata, key)) {
      EntriesMore(first, second, rest, whole, key);
    }
  }

  lemma {:induction false} CombinedLead(parts: seq<RequestPart>)
    ensures ResultsLead(Results(parts) + NonResults(parts))
  {
    AreResults(parts);
  }

  lemma {:induction false} AreResults(parts: seq<RequestPart>)
    ensures forall i :: 0 <= i < |Results(parts)| ==> IsResult(Results(parts)[i])
    ensures forall i :: 0 <= i < |NonResults(parts)| ==> !IsResult(NonResults(parts)[i])
  {
    if parts != [] { AreResults(parts[1..]); }
  }

  lemma {:induction false} SameContents(first: Message, second: Message, rest: seq<Message>)
    requires Mergeable(first, second)
    ensures var run, more := [Combine(first, second)] + rest, [first, second] + rest;
      AllResults(more) == AllResults(run) && AllPrompts(more) == AllPrompts(run) && AllOuts(more) == AllOuts(run)
  {
    CombineConserves(first, second);
    ConcatMessages([Combine(first, second)], rest);
    ConcatMessages([first, second], rest);
  }

  lemma {:induction false} RunOfRequests(run: seq<Message>, whole: Message)
    requires Joined(run, whole) && run[0].Request? && ResultsLead(run[0].parts)
    ensures RequestsJoin(run, whole)
  {
    hide FieldsOf, ResultsLead, Results, NonResults, AllResults, AllPrompts, AllOuts;
    assert run != [];
    if |run| == 1 {
      assert run == [run[0]];
      FieldsAlone(run[0]);
      OneMessage(run[0]);
    }
  }

  lemma {:induction false} RequestsJoinMore(first: Message, second: Message, rest: seq<Message>, whole: Message)
    requires Mergeable(first, second) && second.Request? && RequestsJoin([Combine(first, second)] + rest, whole)
    ensures RequestsJoin([first, second] + rest, whole)
  {
    CombinedFields(first, second);
    SameContents(first, second, rest);
    hide FieldsOf, ResultsLead, Results, NonResults, AllResults, AllPrompts, AllOuts, Combine, Mergeable;
    forall i | 0 <= i < |rest| ensures rest[i].Request? {
      assert ([Combine(first, second)] + rest)[i + 1] == rest[i];
    }
    Pair(first, second, rest);
    FieldsMore(first, second, rest, whole);
  }

  lemma {:induction false} RequestsJoined(first: Message, second: Message, rest: seq<Message>, whole: Message)
    requires Mergeable(first, second) && second.Request? && Joined([Combine(first, second)] + rest, whole)
    ensures Joined([first, second] + rest, whole)
  {
    var both := Combine(first, second);
    CombinedLead(first.parts + second.parts);
    assert both.Request? && ResultsLead(both.parts);
    hide ResultsLead, Results, NonResults, Combine, Mergeable, RequestsJoin;
    assert ([both] + rest)[0] == both;
    RunOfRequests([both] + rest, whole);
    RequestsJoinMore(first, second, rest, whole);
    IsRequest([both] + rest, whole);
  }

  lemma IsRequest(run: seq<Message>, whole: Message)
    requires RequestsJoin(run, whole)
    ensures whole.Request?
  {}

  lemma {:induction false} ResponsesJoined(first: Message, second: Message, rest: seq<Message>, whole: Message)
    requires Mergeable(first, second) && second.Response? && Joined([Combine(first, second)] + rest, whole)
    ensures Joined([first, second] + rest, whole)
  {
    var both := Combine(first, second);
    SameContents(first, second, rest);
    OneMessage(both);
    assert Anonymous(first) && Anonymous(second) && both == first.(outs := both.outs);
    hide AllOuts, Combine, Mergeable;
    var run, more := [both] + rest, [first, second] + rest;
    if rest == [] {
      assert run == [both];
    } else {
      forall i | 0 <= i < |more| ensures Anonymous(more[i]) {
        if i > 1 { assert more[i] == run[i - 1]; }
      }
    }
  }

  lemma {:induction false} JoinedMore(first: Message, second: Message, rest: seq<Message>, whole: Message)
    requires Mergeable(first, second) && Joined([Combine(first, second)] + rest, whole)
    ensures Joined([first, second] + rest, whole)
  {
    if second.Request? {
      RequestsJoined(first, second, rest, whole);
    } else {
      ResponsesJoined(first, second, rest, whole);
    }
  }

  lemma {:induction false} MergeBlocks(messages: seq<Message>) returns (runs: seq<seq<Message>>)
    ensures AllJoined(messages, Merge(messages), runs)
    decreases |messages|
  {
    hide Mergeable, Combine, AllJoined;
    if messages == [] {
      runs := [];
      NothingJoined();
    } else if |messages| == 1 {
      NothingJoined();
      runs := RunAlone(messages[0], [], [], []);
      assert messages == [messages[0]] + [];
    } else if Mergeable(messages[0], messages[1]) {
      var first, second, rest := messages[0], messages[1], messages[2..];
      var later := MergeBlocks([Combine(first, second)] + rest);
      runs := RunsMore(first, second, rest, Merge(messages), later);
      assert messages == [first, second] + rest;
    } else {
      var later := MergeBlocks(messages[1..]);
      runs := RunAlone(messages[0], messages[1..], Merge(messages[1..]), later);
      assert messages == [messages[0]] + messages[1..];
    }
  }

  lemma NothingJoined()
    ensures AllJoined([], [], [])
  {}

  lemma {:induction false} RunAlone(message: Message, rest: seq<Message>, merged: seq<Message>,
                                    later: seq<seq<Message>>) returns (runs: seq<seq<Message>>)
    requires AllJoined(rest, merged, later)
    ensures AllJoined([message] + rest, [message] + merged, runs)
  {
    runs := [[message]] + later;
    FlatFirst([message], later);
    assert Joined([message], message);
    hide Joined;
  }

  lemma {:induction false} RunsMore(first: Message, second: Message, rest: seq<Message>, merged: seq<Message>,
                                    later: seq<seq<Message>>) returns (runs: seq<seq<Message>>)
    requires Mergeable(first, second) && AllJoined([Combine(first, second)] + rest, merged, later)
    ensures AllJoined([first, second] + rest, merged, runs)
  {
    hide Joined, Combine, Mergeable;
    var both := Combine(first, second);
    assert later != [];
    EmptyRun(merged[0]);
    assert Joined(later[0], merged[0]);
    assert later == [later[0]] + later[1..];
    FlatFirst(later[0], later[1..]);
    var own := later[0][1..];
    assert later[0][0] == ([both] + rest)[0];
    assert later[0] == [both] + own;
    JoinedMore(first, second, own, merged[0]);
    runs := [[first, second] + own] + later[1..];
    FlatFirst([first, second] + own, later[1..]);
    var tail := Flat(later[1..]);
    assert [both] + rest == [both] + own + tail && rest == ([both] + rest)[1..];
    assert rest == own + tail;
    assert [first, second] + rest == ([first, second] + own) + Flat(later[1..]);
  }

  lemma EmptyRun(whole: Message)
    ensures !Joined([], whole)
  {}

  /** Merging splits the history into runs and makes one message of each. */
  lemma {:induction false} MergePlaces(messages: seq<Message>)
    ensures exists runs :: AllJoined(messages, Merge(messages), runs)
  {
    hide AllJoined;
    var runs := MergeBlocks(messages);
  }

  // ----- results stay in front -----

  ghost predicate AllLead(messages: seq<Message>) {
    forall message :: message in messages && message.Request? ==> ResultsLead(message.parts)
  }

  lemma {:induction false} DropKeepsLead(messages: seq<Message>, seen: set<Key>)
    requires AllLead(messages)
    ensures AllLead(DropOrphans(messages, seen))
  {
    hide ResultsLead, KeepParts, SeenAfter;
    if messages != [] {
      DropKeepsLead(messages[1..], SeenAfter(messages[0], seen));
      assert messages[0] in messages;
      if messages[0].Request? { KeptLead(messages[0].parts, seen); }
    }
  }

  lemma KeptLead(parts: seq<RequestPart>, seen: set<Key>)
    requires ResultsLead(parts)
    ensures ResultsLead(KeepParts(parts, seen))
  {
    hide KeepParts;
    var at := PartsKept(parts, seen);
  }

  lemma {:induction false} InsertedLead(parts: seq<RequestPart>, added: seq<RequestPart>)
    requires ResultsLead(parts) && forall i :: 0 <= i < |added| ==> IsResult(added[i])
    ensures ResultsLead(InsertResults(parts, added))
  {
    hide IsResult, LastResult;
    LastResultIsLast(parts);
    var at := LastResult(parts);
    assert forall i :: 0 <= i < at ==> IsResult(parts[i]);
    var all := InsertResults(parts, added);
    assert forall i :: at + |added| <= i < |all| ==> all[i] == parts[i - |added|];
  }

  lemma {:induction false} AddedAreResults(message: Message, rest: seq<Message>)
    ensures forall i :: 0 <= i < |AddedFor(message, rest)| ==> IsResult(AddedFor(message, rest)[i])
  {
    hide Missing, Beyond, Rising;
    if message.Response? {
      var at := MissingPicks(MessageCalls(message), |MessageCalls(message)|, rest);
    }
  }

  lemma {:induction false} FillKeepsLead(messages: seq<Message>, pending: seq<RequestPart>, tail: Message)
    requires tail.Request? && AllLead(messages) && forall i :: 0 <= i < |pending| ==> IsResult(pending[i])
    ensures AllLead(CloseWith(Fill(messages, pending), tail))
  {
    hide IsResult, InsertResults, AddedFor;
    if messages != [] {
      var added := AddedFor(messages[0], messages[1..]);
      AddedAreResults(messages[0], messages[1..]);
      FillStep(messages, pending, tail);
      FillKeepsLead(messages[1..], added, tail);
      assert messages[0] in messages;
      hide Fill, CloseWith;
      if messages[0].Request? { InsertedLead(messages[0].parts, pending); }
    }
  }

  lemma CombineLeads(first: Message, second: Message)
    requires Mergeable(first, second)
    ensures Combine(first, second).Request? ==> ResultsLead(Combine(first, second).parts)
  {
    hide ResultsLead, Results, NonResults;
    if second.Request? { CombinedLead(first.parts + second.parts); }
  }

  lemma {:induction false} MergeKeepsLead(messages: seq<Message>)
    requires AllLead(messages)
    ensures AllLead(Merge(messages))
    decreases |messages|
  {
    hide ResultsLead, Mergeable, Combine;
    if |messages| >= 2 {
      assert messages[0] in messages;
      if Mergeable(messages[0], messages[1]) {
        CombineLeads(messages[0], messages[1]);
        MergeKeepsLead([Combine(messages[0], messages[1])] + messages[2..]);
      } else {
        MergeKeepsLead(messages[1..]);
      }
    }
  }

  /** When no request of a history has a result behind a prompt, none has after repair. */
  lemma {:induction false} RepairKeepsLead(messages: seq<Message>)
    requires AllLead(messages)
    ensures AllLead(Repair(messages))
  {
    hide DropOrphans, Fill, Merge, AllLead;
    var dropped := DropOrphans(messages, {});
    var filled := Fill(dropped, []);
    DropKeepsLead(messages, {});
    FillKeepsLead(dropped, [], ClosingRequest(filled.0, filled.1));
    MergeKeepsLead(CloseWith(filled, ClosingRequest(filled.0, filled.1)));
  }

  /** The closing request goes by the last response. */
  lemma {:induction false} ClosingFollowsResponse(messages: seq<Message>, parts: seq<RequestPart>, last: nat)
    requires last < |messages| && messages[last].Response?
    requires forall i :: last < i < |messages| ==> messages[i].Request?
    ensures var response := messages[last];
      ClosingRequest(messages, parts)
      == Request(parts, "", response.timestamp, response.runId, response.conversationId, map[], "interrupted")
  {
    if last < |messages| - 1 { ClosingFollowsResponse(messages[..|messages| - 1], parts, last); }
  }

  /** Neighbours that repair leaves apart have to stay apart: two requests with different instructions, or two
      responses of which one says where it comes from. */
  lemma {:induction false} NeighboursDiffer(messages: seq<Message>, i: nat)
    requires i + 1 < |Repair(messages)|
    ensures var a, b := Repair(messages)[i], Repair(messages)[i + 1];
      && (a.Request? && b.Request? ==>
            a.instructions != "" && b.instructions != "" && a.instructions != b.instructions)
      && (a.Response? && b.Response? ==> !Anonymous(a) || !Anonymous(b))
  {
    RepairIsValid(messages);
    hide Repair, AllAnswered, NoOrphans, EmptyOnlyLast;
    assert !Mergeable(Repair(messages)[i], Repair(messages)[i + 1]);
  }
}
