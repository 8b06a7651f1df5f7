/** Telling a model about newly available tools: each availability delta becomes a tool search call and,
    at the start of the next request, its answer. */
module AvailabilitySpec {
  import opened Options
  import opened History
  import opened ToolTrace

  const TOOL_SEARCH := "search_tools"

  /** `allowed` restricts the tools that may be announced. A delta without a usable call ID of its own gets
      one from `hash`, which is any function; probing gives up after `patience` collisions. */
  datatype Naming = Naming(allowed: Option<set<string>>, hash: (nat, seq<string>) -> string, patience: nat)

  function Announced(naming: Naming, tools: seq<string>): seq<string> {
    if tools == [] then []
    else
      var last := tools[|tools| - 1];
      Announced(naming, tools[..|tools| - 1])
      + if naming.allowed.Some? && last !in naming.allowed.value then [] else [last]
  }

  function HashedId(naming: Naming, ordinal: nat, names: seq<string>): (id: string)
    ensures id != ""
  {
    "tool-call-" + naming.hash(ordinal, names)
  }

  /** The first unused ID, and the ordinal to go on with. */
  function ProbeId(naming: Naming, used: set<string>, ordinal: nat, names: seq<string>, tries: nat)
    : (found: Option<(string, nat)>)
    ensures found.Some? ==> found.value.0 !in used && found.value.0 != ""
    decreases naming.patience - tries
  {
    var id := HashedId(naming, ordinal, names);
    if id !in used then Some((id, ordinal + 1))
    else if tries >= naming.patience then None
    else ProbeId(naming, used, ordinal + 1, names, tries + 1)
  }

  function CallIdFor(naming: Naming, used: set<string>, ordinal: nat, delta: RequestPart, names: seq<string>)
    : (found: Option<(string, nat)>)
    requires delta.AvailabilityDelta?
    ensures found.Some? ==> found.value.0 !in used && found.value.0 != ""
  {
    if delta.id != "" && delta.id !in used then Some((delta.id, ordinal))
    else ProbeId(naming, used, ordinal, names, 0)
  }

  function Joined(names: seq<string>): string {
    if names == [] then "" else Joined(names[..|names| - 1]) + "\n" + names[|names| - 1]
  }

  function SearchCall(id: string, names: seq<string>): Message {
    Response([CallPart(ToolCall(TOOL_SEARCH, id, "tool_search", Joined(names)))], "", "", "", 0, "", "", "", "")
  }

  function SearchAnswer(id: string, names: seq<string>): RequestPart {
    ToolReturn(TOOL_SEARCH, id, "tool_search", Joined(names), false)
  }

  /** Results come before deltas at the head of a request. */
  function Head(parts: seq<RequestPart>): (head: nat)
    ensures head <= |parts|
  {
    if parts == [] || !(parts[0].AvailabilityDelta? || IsResult(parts[0])) then 0 else 1 + Head(parts[1..])
  }

  function Deltas(parts: seq<RequestPart>, wanted: bool): seq<RequestPart> {
    if parts == [] then []
    else (if parts[0].AvailabilityDelta? == wanted then [parts[0]] else []) + Deltas(parts[1..], wanted)
  }

  function Arranged(parts: seq<RequestPart>): seq<RequestPart> {
    var head := parts[..Head(parts)];
    Deltas(head, false) + Deltas(head, true) + parts[Head(parts)..]
  }

  function Flush(request: Message, pending: seq<RequestPart>): seq<Message>
    requires request.Request?
  {
    if pending == [] then [] else [request.(parts := pending)]
  }

  /** IDs in use and the ordinal of the next hash. */
  datatype Names = Names(used: set<string>, ordinal: nat)

  /** A request split at its deltas. None when probing gave up. */
  function Split(naming: Naming, names: Names, request: Message, parts: seq<RequestPart>, pending: seq<RequestPart>)
    : Option<(seq<Message>, Names)>
    requires request.Request?
    decreases |parts|
  {
    if parts == [] then Some((Flush(request, pending), names))
    else if !parts[0].AvailabilityDelta? then Split(naming, names, request, parts[1..], pending + [parts[0]])
    else
      var tools := Announced(naming, parts[0].toolsAdded);
      if tools == [] then Split(naming, names, request, parts[1..], pending)
      else
        var found := CallIdFor(naming, names.used, names.ordinal, parts[0], tools);
        if found.None? then None
        else
          var (id, ordinal) := found.value;
          var rest := Split(naming, Names(names.used + {id}, ordinal), request, parts[1..], [SearchAnswer(id, tools)]);
          if rest.None? then None
          else Some((Flush(request, pending) + [SearchCall(id, tools)] + rest.value.0, rest.value.1))
  }

  predicate HasDelta(message: Message) {
    message.Request? && exists i :: 0 <= i < |message.parts| && message.parts[i].AvailabilityDelta?
  }

  function Expand(naming: Naming, names: Names, message: Message): Option<(seq<Message>, Names)> {
    if HasDelta(message) then Split(naming, names, message, Arranged(message.parts), []) else Some(([message], names))
  }

  function ExpandAll(naming: Naming, names: Names, messages: seq<Message>): Option<(seq<Message>, Names)> {
    if messages == [] then Some(([], names))
    else
      var before := ExpandAll(naming, names, messages[..|messages| - 1]);
      if before.None? then None
      else
        var own := Expand(naming, before.value.1, messages[|messages| - 1]);
        if own.None? then None else Some((before.value.0 + own.value.0, own.value.1))
  }

  // ----- the IDs of a history -----

  function PartIdOf(part: RequestPart): set<string> { if part.ToolReturn? || part.RetryPrompt? then {part.id} else {} }

  function OutIdOf(out: ResponsePart): set<string> {
    match out
    case CallPart(call) => {call.id}
    case NativeCallPart(id, _) => {id}
    case NativeReturnPart(id, _) => {id}
    case _ => {}
  }

  ghost function UsedIn(message: Message): set<string> {
    if message.Request? then set i, id | 0 <= i < |message.parts| && id in PartIdOf(message.parts[i]) :: id
    else set i, id | 0 <= i < |message.outs| && id in OutIdOf(message.outs[i]) :: id
  }

  ghost function UsedIds(messages: seq<Message>): set<string> {
    if messages == [] then {} else UsedIds(messages[..|messages| - 1]) + UsedIn(messages[|messages| - 1])
  }

  // ----- what happens to each key -----

  lemma SilentDelta(part: RequestPart, key: Key)
    requires part.AvailabilityDelta?
    ensures AnswersIn([part], key) == []
  {}

  lemma {:induction false} ArrangedTrace(parts: seq<RequestPart>, key: Key)
    ensures AnswersIn(Arranged(parts), key) == AnswersIn(parts, key)
  {
    hide AnswersIn, Deltas, Head;
    var head, tail := parts[..Head(parts)], parts[Head(parts)..];
    DeltasTrace(head, key);
    AnswersJoin(Deltas(head, false), Deltas(head, true), key);
    AnswersJoin(Deltas(head, false) + Deltas(head, true), tail, key);
    assert head + tail == parts;
    AnswersJoin(head, tail, key);
    assert AnswersIn(Deltas(head, false), key) + [] == AnswersIn(Deltas(head, false), key);
  }

  lemma {:induction false} DeltasTrace(parts: seq<RequestPart>, key: Key)
    ensures AnswersIn(Deltas(parts, false), key) == AnswersIn(parts, key) && AnswersIn(Deltas(parts, true), key) == []
  {
    hide AnswersIn;
    NoAnswers(key);
    if parts != [] {
      var first, rest := [parts[0]], parts[1..];
      DeltasTrace(rest, key);
      assert parts == first + rest;
      AnswersJoin(first, rest, key);
      AnswersJoin(first, Deltas(rest, false), key);
      AnswersJoin(first, Deltas(rest, true), key);
      assert [] + Deltas(rest, true) == Deltas(rest, true) && [] + Deltas(rest, false) == Deltas(rest, false);
      if parts[0].AvailabilityDelta? {
        SilentDelta(parts[0], key);
        assert [] + AnswersIn(rest, key) == AnswersIn(rest, key);
      }
    }
  }

  lemma NoAnswers(key: Key)
    ensures AnswersIn([], key) == []
  {}

  lemma FlushTrace(request: Message, pending: seq<RequestPart>, key: Key)
    requires request.Request?
    ensures Trace(Flush(request, pending), key) == AnswersIn(pending, key)
  {
    NoAnswers(key);
    if pending != [] { TraceOne(request.(parts := pending), key); }
  }

  lemma SearchTrace(id: string, tools: seq<string>, key: Key)
    requires id != ""
    ensures Trace([SearchCall(id, tools)], key)
         == (if key == ById(id) then [Group([SearchCall(id, tools).outs[0].call])] else [])
    ensures AnswersIn([SearchAnswer(id, tools)], key)
         == if key == ById(id) then [Answer(SearchAnswer(id, tools))] else []
  {
    TraceOne(SearchCall(id, tools), key);
    var call := SearchCall(id, tools).outs[0].call;
    assert Calls(SearchCall(id, tools).outs) == [call] by { assert SearchCall(id, tools).outs[1..] == []; }
    assert CallsWith([call], key) == if key == ById(id) then [call] else [] by { assert [call][1..] == []; }
    assert [SearchAnswer(id, tools)][1..] == [];
  }

  /** The search made for a fresh ID: one call, one answer. */
  ghost predicate Searched(trace: seq<Mark>) {
    && |trace| == 2 && trace[0].Group? && |trace[0].calls| == 1 && trace[0].calls[0].name == TOOL_SEARCH
    && trace[1].Answer? && trace[1].part.ToolReturn? && trace[1].part.name == TOOL_SEARCH
    && trace[1].part.id == trace[0].calls[0].id && trace[1].part.content == trace[0].calls[0].payload
  }

  ghost predicate Fresh(key: Key, before: Names, after: Names) { key.ById? && key.id in after.used - before.used }

  /** Keys that were in use keep their results. */
  lemma {:induction false} SplitKeeps(naming: Naming, names: Names, request: Message, parts: seq<RequestPart>,
                                      pending: seq<RequestPart>, key: Key)
    requires request.Request? && Split(naming, names, request, parts, pending).Some?
    ensures names.used <= Split(naming, names, request, parts, pending).value.1.used
    ensures var (all, after) := Split(naming, names, request, parts, pending).value;
      !Fresh(key, names, after) ==> Trace(all, key) == AnswersIn(pending, key) + AnswersIn(parts, key)
    decreases |parts|
  {
    hide Trace, AnswersIn, Announced, CallIdFor, Flush;
    NoAnswers(key);
    FlushTrace(request, pending, key);
    if parts == [] {
      assert AnswersIn(pending, key) + [] == AnswersIn(pending, key);
    } else {
      var first, rest := [parts[0]], parts[1..];
      assert parts == first + rest;
      AnswersJoin(first, rest, key);
      if !parts[0].AvailabilityDelta? {
        SplitKeeps(naming, names, request, rest, pending + first, key);
        AnswersJoin(pending, first, key);
        Associate(AnswersIn(pending, key), AnswersIn(first, key), AnswersIn(rest, key));
      } else {
        SilentDelta(parts[0], key);
        assert [] + AnswersIn(rest, key) == AnswersIn(rest, key);
        var tools := Announced(naming, parts[0].toolsAdded);
        if tools == [] {
          SplitKeeps(naming, names, request, rest, pending, key);
        } else {
          SplitDelta(naming, names, request, parts, pending, tools, key);
        }
      }
    }
  }

  lemma {:induction false} SplitDelta(naming: Naming, names: Names, request: Message, parts: seq<RequestPart>,
                                      pending: seq<RequestPart>, tools: seq<string>, key: Key)
    requires request.Request? && Split(naming, names, request, parts, pending).Some?
    requires parts != [] && parts[0].AvailabilityDelta? && tools == Announced(naming, parts[0].toolsAdded)
    requires tools != []
    ensures names.used <= Split(naming, names, request, parts, pending).value.1.used
    ensures var (all, after) := Split(naming, names, request, parts, pending).value;
      var id := CallIdFor(naming, names.used, names.ordinal, parts[0], tools).value.0;
      && id != "" && id !in names.used && id in after.used
      && (!Fresh(key, names, after) ==> Trace(all, key) == AnswersIn(pending, key) + AnswersIn(parts[1..], key))
      && (key == ById(id) ==>
            Trace(all, key) == AnswersIn(pending, key)
              + [Group([SearchCall(id, tools).outs[0].call]), Answer(SearchAnswer(id, tools))]
                + AnswersIn(parts[1..], key))
    decreases |parts|, 0
  {
    hide Trace, AnswersIn, Announced, CallIdFor, Flush;
    var (id, ordinal) := CallIdFor(naming, names.used, names.ordinal, parts[0], tools).value;
    var next := Names(names.used + {id}, ordinal);
    var answer := [SearchAnswer(id, tools)];
    SplitKeeps(naming, next, request, parts[1..], answer, key);
    var rest := Split(naming, next, request, parts[1..], answer).value.0;
    TraceJoin(Flush(request, pending) + [SearchCall(id, tools)], rest, key);
    TraceJoin(Flush(request, pending), [SearchCall(id, tools)], key);
    FlushTrace(request, pending, key);
    SearchTrace(id, tools, key);
    var own, tail := AnswersIn(pending, key), AnswersIn(parts[1..], key);
    assert own + [] + ([] + tail) == own + tail;
    var call := Group([SearchCall(id, tools).outs[0].call]);
    assert own + [call] + ([Answer(answer[0])] + tail) == own + [call, Answer(answer[0])] + tail;
  }

  /** An ID added for a search belongs to that search alone, and its answer opens the next request. */
  ghost predicate SearchAt(messages: seq<Message>, i: nat, id: string, tools: seq<string>) {
    && i + 1 < |messages| && messages[i] == SearchCall(id, tools)
    && messages[i + 1].Request? && messages[i + 1].parts != [] && messages[i + 1].parts[0] == SearchAnswer(id, tools)
  }

  ghost predicate SearchFound(messages: seq<Message>, id: string) {
    exists i: nat, tools: seq<string> :: SearchAt(messages, i, id, tools)
  }

  lemma SearchShifts(before: seq<Message>, messages: seq<Message>, more: seq<Message>, id: string)
    requires SearchFound(messages, id)
    ensures SearchFound(before + messages + more, id)
  {
    var i: nat, tools: seq<string> :| SearchAt(messages, i, id, tools);
    assert (before + messages + more)[|before| + i] == messages[i];
    assert (before + messages + more)[|before| + i + 1] == messages[i + 1];
    assert SearchAt(before + messages + more, |before| + i, id, tools);
  }

  /** What is pending opens the next request. */
  lemma {:induction false} PendingOpens(naming: Naming, names: Names, request: Message, parts: seq<RequestPart>,
                                        pending: seq<RequestPart>)
    requires request.Request? && pending != [] && Split(naming, names, request, parts, pending).Some?
    ensures var all := Split(naming, names, request, parts, pending).value.0;
      all != [] && all[0].Request? && pending <= all[0].parts
    decreases |parts|
  {
    hide Announced, CallIdFor;
    if parts != [] {
      if !parts[0].AvailabilityDelta? {
        PendingOpens(naming, names, request, parts[1..], pending + [parts[0]]);
      } else if Announced(naming, parts[0].toolsAdded) == [] {
        PendingOpens(naming, names, request, parts[1..], pending);
      }
    }
  }

  lemma {:induction false} SplitSearches(naming: Naming, names: Names, request: Message, parts: seq<RequestPart>,
                                         pending: seq<RequestPart>, key: Key)
    requires request.Request? && Split(naming, names, request, parts, pending).Some?
    requires Fresh(key, names, Split(naming, names, request, parts, pending).value.1)
    requires AnswersIn(pending, key) == [] && AnswersIn(parts, key) == []
    ensures var all := Split(naming, names, request, parts, pending).value.0;
      Searched(Trace(all, key)) && SearchFound(all, key.id)
    decreases |parts|
  {
    hide Trace, AnswersIn, Announced, CallIdFor, SearchFound, Searched;
    if parts != [] {
      var first, rest := [parts[0]], parts[1..];
      assert parts == first + rest;
      AnswersJoin(first, rest, key);
      if !parts[0].AvailabilityDelta? {
        AnswersJoin(pending, first, key);
        SplitSearches(naming, names, request, rest, pending + first, key);
      } else if Announced(naming, parts[0].toolsAdded) == [] {
        SplitSearches(naming, names, request, rest, pending, key);
      } else {
        SearchHere(naming, names, request, parts, pending, Announced(naming, parts[0].toolsAdded), key);
      }
    }
  }

  lemma {:induction false} SearchHere(naming: Naming, names: Names, request: Message, parts: seq<RequestPart>,
                                      pending: seq<RequestPart>, tools: seq<string>, key: Key)
    requires request.Request? && Split(naming, names, request, parts, pending).Some?
    requires parts != [] && parts[0].AvailabilityDelta? && tools == Announced(naming, parts[0].toolsAdded)
    requires tools != []
    requires Fresh(key, names, Split(naming, names, request, parts, pending).value.1)
    requires AnswersIn(pending, key) == [] && AnswersIn(parts[1..], key) == []
    ensures var all := Split(naming, names, request, parts, pending).value.0;
      Searched(Trace(all, key)) && SearchFound(all, key.id)
    decreases |parts|, 0
  {
    hide Trace, AnswersIn, Announced, CallIdFor, Searched, SearchFound;
    SplitDelta(naming, names, request, parts, pending, tools, key);
    var all := Split(naming, names, request, parts, pending).value.0;
    var (id, ordinal) := CallIdFor(naming, names.used, names.ordinal, parts[0], tools).value;
    var next, answer := Names(names.used + {id}, ordinal), [SearchAnswer(id, tools)];
    var rest := Split(naming, next, request, parts[1..], answer).value.0;
    var head := Flush(request, pending);
    assert all == head + [SearchCall(id, tools)] + rest;
    if key == ById(id) {
      var call := SearchCall(id, tools).outs[0].call;
      assert [] + [Group([call]), Answer(answer[0])] + [] == [Group([call]), Answer(answer[0])];
      IsSearched(call, answer[0]);
      PendingOpens(naming, next, request, parts[1..], answer);
      FoundAt(all, head, rest, id, tools);
    } else {
      SearchTrace(id, tools, key);
      SplitSearches(naming, next, request, parts[1..], answer, key);
      SearchShifts(head + [SearchCall(id, tools)], rest, [], key.id);
      assert all + [] == all;
      TraceJoin(head + [SearchCall(id, tools)], rest, key);
      TraceJoin(head, [SearchCall(id, tools)], key);
      FlushTrace(request, pending, key);
      assert [] + [] + Trace(rest, key) == Trace(rest, key);
    }
  }

  lemma IsSearched(call: ToolCall, answer: RequestPart)
    requires call.name == TOOL_SEARCH && answer.ToolReturn? && answer.name == TOOL_SEARCH
    requires answer.id == call.id && answer.content == call.payload
    ensures Searched([Group([call]), Answer(answer)])
  {}

  lemma FoundAt(all: seq<Message>, head: seq<Message>, rest: seq<Message>, id: string, tools: seq<string>)
    requires all == head + [SearchCall(id, tools)] + rest
    requires rest != [] && rest[0].Request? && [SearchAnswer(id, tools)] <= rest[0].parts
    ensures SearchFound(all, id)
  {
    assert all[|head|] == SearchCall(id, tools) && all[|head| + 1] == rest[0];
    assert rest[0].parts[0] == [SearchAnswer(id, tools)][0];
    assert SearchAt(all, |head|, id, tools);
  }

  // ----- whole histories -----

  lemma {:induction false} UnusedSilent(parts: seq<RequestPart>, key: Key)
    requires key.ById? && forall i :: 0 <= i < |parts| ==> key.id !in PartIdOf(parts[i])
    ensures AnswersIn(parts, key) == []
  {
    if parts != [] { UnusedSilent(parts[1..], key); }
  }

  lemma {:induction false} UncalledSilent(outs: seq<ResponsePart>, key: Key)
    requires key.ById? && forall i :: 0 <= i < |outs| ==> key.id !in OutIdOf(outs[i])
    ensures CallsWith(Calls(outs), key) == []
  {
    if outs != [] {
      UncalledSilent(outs[1..], key);
      var rest := Calls(outs[1..]);
      if outs[0].CallPart? {
        assert ([outs[0].call] + rest)[1..] == rest;
      } else {
        assert [] + rest == rest;
      }
    }
  }

  lemma {:induction false} UnusedMessage(message: Message, key: Key)
    requires key.ById? && key.id !in UsedIn(message)
    ensures MessageTrace(message, key) == []
  {
    if message.Request? {
      forall i | 0 <= i < |message.parts| ensures key.id !in PartIdOf(message.parts[i]) {}
      UnusedSilent(message.parts, key);
    } else {
      forall i | 0 <= i < |message.outs| ensures key.id !in OutIdOf(message.outs[i]) {}
      UncalledSilent(message.outs, key);
    }
  }

  lemma {:induction false} ExpandKeeps(naming: Naming, names: Names, message: Message, key: Key)
    requires Expand(naming, names, message).Some?
    ensures var (all, after) := Expand(naming, names, message).value;
      && names.used <= after.used
      && (!Fresh(key, names, after) ==> Trace(all, key) == MessageTrace(message, key))
      && (Fresh(key, names, after) && MessageTrace(message, key) == [] ==>
            Searched(Trace(all, key)) && SearchFound(all, key.id))
  {
    hide Trace, AnswersIn, Split, Searched, SearchFound, Arranged;
    if HasDelta(message) {
      ArrangedTrace(message.parts, key);
      NoAnswers(key);
      SplitKeeps(naming, names, message, Arranged(message.parts), [], key);
      assert [] + AnswersIn(message.parts, key) == AnswersIn(message.parts, key);
      if Fresh(key, names, Expand(naming, names, message).value.1) && MessageTrace(message, key) == [] {
        SplitSearches(naming, names, message, Arranged(message.parts), [], key);
      }
    } else {
      TraceOne(message, key);
    }
  }

  /** Over a whole history: every key in use keeps its calls and results, and each ID added belongs to one
      search call whose answer opens the request right after it. */
  lemma {:induction false} ExpandAllKeeps(naming: Naming, names: Names, messages: seq<Message>, key: Key)
    requires UsedIds(messages) <= names.used && ExpandAll(naming, names, messages).Some?
    ensures var (all, after) := ExpandAll(naming, names, messages).value;
      && names.used <= after.used
      && (!Fresh(key, names, after) ==> Trace(all, key) == Trace(messages, key))
      && (Fresh(key, names, after) ==> Searched(Trace(all, key)) && SearchFound(all, key.id))
  {
    hide Trace, Expand, Searched, SearchFound, UsedIn, MessageTrace;
    if messages == [] {
      NothingExpanded(key);
    } else {
      var front, last := messages[..|messages| - 1], messages[|messages| - 1];
      assert messages == front + [last];
      ExpandAllKeeps(naming, names, front, key);
      var (before, middle) := ExpandAll(naming, names, front).value;
      ExpandKeeps(naming, middle, last, key);
      var (own, after) := Expand(naming, middle, last).value;
      TraceJoin(front, [last], key);
      TraceOne(last, key);
      TraceJoin(before, own, key);
      if Fresh(key, names, after) {
        UnusedMessage(last, key);
        UnusedAll(front, key);
        assert [] + Trace(own, key) == Trace(own, key) && Trace(before, key) + [] == Trace(before, key);
        assert before + own + [] == before + own && [] + before + own == before + own;
        if Fresh(key, names, middle) {
          SearchShifts([], before, own, key.id);
        } else {
          SearchShifts(before, own, [], key.id);
        }
      }
    }
  }

  lemma NothingExpanded(key: Key)
    ensures Trace([], key) == []
  {}

  lemma {:induction false} UnusedAll(messages: seq<Message>, key: Key)
    requires key.ById? && key.id !in UsedIds(messages)
    ensures Trace(messages, key) == []
  {
    hide MessageTrace, UsedIn;
    if messages != [] {
      var front, last := messages[..|messages| - 1], messages[|messages| - 1];
      assert messages == front + [last];
      UnusedAll(front, key);
      UnusedMessage(last, key);
      TraceJoin(front, [last], key);
      TraceOne(last, key);
    }
  }
}
