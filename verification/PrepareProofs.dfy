/** Preparing a history for a model keeps each call with its results, up to an injective change of IDs. */
module PrepareProofs {
  import opened Options
  import opened History
  import opened RepairSpec
  import opened ToolTrace
  import opened PrepareSpec
  import Ids = ToolCallIds
  import ResultOrder
  import Availability = AvailabilitySpec

  /** What the model's profile supports. An ID length of zero stands for any length. */
  datatype Profile = Profile(audio: bool, scopedPrompts: bool, availability: bool, naming: Availability.Naming,
                             fitting: Ids.Fitting)

  ghost function StartNames(messages: seq<Message>): Availability.Names {
    Availability.Names(Availability.UsedIds(messages), 0)
  }

  ghost function Synthesized(profile: Profile, messages: seq<Message>): Option<(seq<Message>, Availability.Names)> {
    if profile.availability then Some((messages, StartNames(messages)))
    else
      var expanded := Availability.ExpandAll(profile.naming, StartNames(messages), messages);
      if expanded.None? then None else Some(expanded.value)
  }

  /** Everything but the change of IDs: the messages and the names used before and after. */
  ghost function BeforeFitting(profile: Profile, messages: seq<Message>)
    : Option<(seq<Message>, Availability.Names, Availability.Names)> {
    var converted := ConvertSpeech(messages, profile.audio);
    if converted.None? then None
    else
      var scoped := if profile.scopedPrompts then converted.value else ScopePrompts(converted.value);
      var expanded := Synthesized(profile, scoped);
      if expanded.None? then None
      else Some((ResultOrder.OrderMessages(expanded.value.0), StartNames(scoped), expanded.value.1))
  }

  /** The change of IDs; none at all when the profile has no length. */
  ghost function NewIds(profile: Profile, messages: seq<Message>): Option<map<string, string>> {
    if profile.fitting.length == 0 then Some(map[])
    else
      var outcome := Ids.FitAll(profile.fitting, Ids.AllIds(messages));
      if outcome.Fitted? then Some(outcome.table.replacements) else None
  }

  ghost function Prepared(profile: Profile, messages: seq<Message>): Option<seq<Message>> {
    var before := BeforeFitting(profile, messages);
    if before.None? then None
    else
      var ids := NewIds(profile, before.value.0);
      if ids.None? then None
      else if profile.fitting.length == 0 then Some(before.value.0)
      else Some(Ids.RenameAll(ids.value, before.value.0))
  }

  // ----- up to the change of IDs -----

  lemma {:induction false} SpeechKeeps(messages: seq<Message>, includeAudio: bool, key: Key)
    requires ConvertSpeech(messages, includeAudio).Some?
    ensures Trace(ConvertSpeech(messages, includeAudio).value, key) == Trace(messages, key)
  {
    ConvertKeepsTraces(messages, includeAudio, key);
  }

  lemma {:induction false} PromptsKeep(messages: seq<Message>, key: Key)
    ensures Trace(ScopePrompts(messages), key) == Trace(messages, key)
  {
    ScopeKeepsTraces(messages, |messages|, key);
    assert messages[..|messages|] == messages;
  }

  /** Speech, prompts, tool availability and result order: every key keeps its calls and results, and each ID
      added is a search call with its answer. */
  lemma {:induction false} BeforeFittingKeeps(profile: Profile, messages: seq<Message>, key: Key)
    requires BeforeFitting(profile, messages).Some?
    ensures var (all, before, after) := BeforeFitting(profile, messages).value;
      && (!Availability.Fresh(key, before, after) ==> Trace(all, key) == Trace(messages, key))
      && (Availability.Fresh(key, before, after) ==>
            Availability.Searched(Trace(all, key)) && Availability.SearchFound(all, key.id))
  {
    hide ConvertSpeech, ScopePrompts, Trace, Availability.ExpandAll, Availability.Searched, Availability.SearchFound,
      Availability.UsedIds;
    var converted := ConvertSpeech(messages, profile.audio).value;
    SpeechKeeps(messages, profile.audio, key);
    var scoped := if profile.scopedPrompts then converted else ScopePrompts(converted);
    PromptsKeep(converted, key);
    if !profile.availability {
      Availability.ExpandAllKeeps(profile.naming, StartNames(scoped), scoped, key);
    }
    var expanded := Synthesized(profile, scoped).value.0;
    ResultOrder.OrderKeepsTraces(expanded, key);
    if Availability.Fresh(key, StartNames(scoped), Synthesized(profile, scoped).value.1) {
      SearchStaysInOrder(expanded, key.id);
    }
  }

  /** A search's answer stays the first part of the request after it. */
  lemma SearchStaysInOrder(messages: seq<Message>, id: string)
    requires Availability.SearchFound(messages, id)
    ensures Availability.SearchFound(ResultOrder.OrderMessages(messages), id)
  {
    hide ResultOrder.OrderMessages, ResultOrder.Ordered;
    var i: nat, tools: seq<string> :| Availability.SearchAt(messages, i, id, tools);
    ResultOrder.OrderedAt(messages, i);
    ResultOrder.OrderedAt(messages, i + 1);
    var call := messages[i].outs[0].call;
    assert messages[i].outs[1..] == [];
    assert Calls(messages[i].outs) == [call];
    ResultOrder.FirstStays(messages[i + 1].parts, call);
    assert Availability.SearchAt(ResultOrder.OrderMessages(messages), i, id, tools);
  }

  lemma SearchedAnswered(trace: seq<Mark>)
    requires Availability.Searched(trace)
    ensures TraceAnswered(trace)
  {
    assert trace[1..] == [trace[1]] && trace[1..][1..] == [];
    assert Lead(trace[1..]) == 1;
  }

  lemma {:induction false} BeforeFittingAnswers(profile: Profile, messages: seq<Message>)
    requires BeforeFitting(profile, messages).Some? && AllAnswered(messages)
    ensures AllAnswered(BeforeFitting(profile, messages).value.0)
  {
    hide BeforeFitting, Availability.Searched, Trace, TraceAnswered, AllAnswered, Availability.Fresh;
    var (all, before, after) := BeforeFitting(profile, messages).value;
    AnsweredByTraces(messages);
    forall key ensures TraceAnswered(Trace(all, key)) {
      BeforeFittingKeeps(profile, messages, key);
      assert TraceAnswered(Trace(messages, key));
      if Availability.Fresh(key, before, after) { SearchedAnswered(Trace(all, key)); }
    }
    AnsweredByTraces(all);
  }

  // ----- the change of IDs -----

  function NewKey(f: map<string, string>, key: Key): Key {
    if key.ById? then ById(Ids.Renamed(f, key.id)) else key
  }

  function NewCall(f: map<string, string>, call: ToolCall): ToolCall {
    ToolCall(call.name, Ids.Renamed(f, call.id), call.kind, call.payload)
  }

  function NewCalls(f: map<string, string>, calls: seq<ToolCall>): (new_: seq<ToolCall>)
    ensures |new_| == |calls|
  {
    if calls == [] then [] else [NewCall(f, calls[0])] + NewCalls(f, calls[1..])
  }

  function NewMark(f: map<string, string>, mark: Mark): Mark {
    if mark.Group? then Group(NewCalls(f, mark.calls)) else Answer(Ids.RenamePart(f, mark.part))
  }

  /** The same trace under new IDs. */
  function NewTrace(f: map<string, string>, trace: seq<Mark>): (new_: seq<Mark>)
    ensures |new_| == |trace|
  {
    if trace == [] then [] else [NewMark(f, trace[0])] + NewTrace(f, trace[1..])
  }

  /** Distinct IDs stay distinct, and no ID appears or disappears. */
  ghost predicate GoodRenaming(f: map<string, string>) {
    Ids.Injective(f) && "" !in f && forall id :: id in f ==> f[id] != ""
  }

  predicate Known(f: map<string, string>, id: string) { id == "" || id in f }

  lemma KeysMatch(f: map<string, string>, name: string, id: string, key: Key)
    requires GoodRenaming(f) && Known(f, id) && (key.ById? ==> key.id in f)
    ensures MatchKey(name, Ids.Renamed(f, id)) == NewKey(f, key) <==> MatchKey(name, id) == key
  {}

  lemma {:induction false} NewTraceJoin(f: map<string, string>, a: seq<Mark>, b: seq<Mark>)
    ensures NewTrace(f, a + b) == NewTrace(f, a) + NewTrace(f, b)
  {
    hide NewMark;
    if a == [] {
      assert a + b == b;
    } else {
      NewTraceJoin(f, a[1..], b);
      assert (a + b)[0] == a[0] && (a + b)[1..] == a[1..] + b;
      Associate([NewMark(f, a[0])], NewTrace(f, a[1..]), NewTrace(f, b));
    }
  }

  lemma {:induction false} PartsRenamed(f: map<string, string>, parts: seq<RequestPart>, key: Key)
    requires GoodRenaming(f) && (key.ById? ==> key.id in f) && Ids.Named(Ids.PartIds(parts)) <= f.Keys
    ensures AnswersIn(Ids.RenameParts(f, parts), NewKey(f, key)) == NewTrace(f, AnswersIn(parts, key))
  {
    hide AnswersIn, GoodRenaming, NewKey, OneAnswer, Ids.RenamePart;
    if parts == [] {
      Availability.NoAnswers(key);
      Availability.NoAnswers(NewKey(f, key));
    } else {
      var front, last := parts[..|parts| - 1], parts[|parts| - 1];
      assert parts == front + [last];
      Ids.NamedMore(Ids.PartIds(front), Ids.PartId(last));
      PartsRenamed(f, front, key);
      AnswersJoin(front, [last], key);
      AnswersJoin(Ids.RenameParts(f, front), [Ids.RenamePart(f, last)], NewKey(f, key));
      NewTraceJoin(f, AnswersIn(front, key), AnswersIn([last], key));
      PartRenamed(f, last, key);
    }
  }

  lemma {:induction false} PartRenamed(f: map<string, string>, part: RequestPart, key: Key)
    requires GoodRenaming(f) && (key.ById? ==> key.id in f) && Known(f, Ids.PartId(part))
    ensures AnswersIn([Ids.RenamePart(f, part)], NewKey(f, key)) == NewTrace(f, AnswersIn([part], key))
  {
    assert [part][1..] == [] && [Ids.RenamePart(f, part)][1..] == [];
    if part.ToolReturn? || part.RetryPrompt? { KeysMatch(f, part.name, part.id, key); }
    assert [Answer(part)][1..] == [];
    hide GoodRenaming, NewKey;
  }

  lemma {:induction false} NewCallsJoin(f: map<string, string>, a: seq<ToolCall>, b: seq<ToolCall>)
    ensures NewCalls(f, a + b) == NewCalls(f, a) + NewCalls(f, b)
  {
    hide NewCall;
    if a == [] {
      assert a + b == b;
    } else {
      NewCallsJoin(f, a[1..], b);
      assert (a + b)[0] == a[0] && (a + b)[1..] == a[1..] + b;
      Associate([NewCall(f, a[0])], NewCalls(f, a[1..]), NewCalls(f, b));
    }
  }

  lemma {:induction false} OutsRenamed(f: map<string, string>, outs: seq<ResponsePart>)
    ensures Calls(Ids.RenameOuts(f, outs)) == NewCalls(f, Calls(outs))
  {
    if outs != [] {
      var front, last := outs[..|outs| - 1], outs[|outs| - 1];
      assert outs == front + [last];
      OutsRenamed(f, front);
      CallsConcat(front, [last]);
      CallsConcat(Ids.RenameOuts(f, front), [Ids.RenameOut(f, last)]);
      NewCallsJoin(f, Calls(front), Calls([last]));
      OutRenamed(f, last);
    }
  }

  lemma OutRenamed(f: map<string, string>, out: ResponsePart)
    ensures Calls([Ids.RenameOut(f, out)]) == NewCalls(f, Calls([out]))
  {
    assert [out][1..] == [] && [Ids.RenameOut(f, out)][1..] == [];
    if out.CallPart? { assert [out.call][1..] == []; }
  }

  ghost predicate CallsKnown(f: map<string, string>, calls: seq<ToolCall>) {
    forall i :: 0 <= i < |calls| ==> Known(f, calls[i].id)
  }

  lemma {:induction false} CallsRenamed(f: map<string, string>, calls: seq<ToolCall>, key: Key)
    requires GoodRenaming(f) && (key.ById? ==> key.id in f) && CallsKnown(f, calls)
    ensures CallsWith(NewCalls(f, calls), NewKey(f, key)) == NewCalls(f, CallsWith(calls, key))
  {
    if calls != [] {
      CallsRenamed(f, calls[1..], key);
      KeysMatch(f, calls[0].name, calls[0].id, key);
      hide GoodRenaming, NewKey;
      var own := if CallKey(calls[0]) == key then [calls[0]] else [];
      NewCallsJoin(f, own, CallsWith(calls[1..], key));
      assert [calls[0]][1..] == [];
      assert ([NewCall(f, calls[0])] + NewCalls(f, calls[1..]))[1..] == NewCalls(f, calls[1..]);
    }
  }

  lemma {:induction false} OutsKnown(f: map<string, string>, outs: seq<ResponsePart>)
    requires Ids.Named(Ids.OutIds(outs)) <= f.Keys
    ensures CallsKnown(f, Calls(outs))
  {
    if outs != [] {
      var front, last := outs[..|outs| - 1], outs[|outs| - 1];
      assert outs == front + [last];
      Ids.NamedMore(Ids.OutIds(front), Ids.OutId(last));
      OutsKnown(f, front);
      CallsConcat(front, [last]);
      assert [last][1..] == [];
    }
  }

  lemma {:induction false} MessageRenamed(f: map<string, string>, message: Message, key: Key)
    requires GoodRenaming(f) && (key.ById? ==> key.id in f) && Ids.Named(Ids.MessageIds(message)) <= f.Keys
    ensures MessageTrace(Ids.RenameMessage(f, message), NewKey(f, key)) == NewTrace(f, MessageTrace(message, key))
  {
    hide GoodRenaming, NewKey, AnswersIn, CallsWith;
    if message.Request? {
      PartsRenamed(f, message.parts, key);
    } else {
      OutsRenamed(f, message.outs);
      OutsKnown(f, message.outs);
      CallsRenamed(f, Calls(message.outs), key);
      var calls := CallsWith(Calls(message.outs), key);
      if calls != [] { assert [Group(calls)][1..] == []; }
    }
  }

  /** A change of IDs changes nothing else in any trace. */
  lemma {:induction false} HistoryRenamed(f: map<string, string>, messages: seq<Message>, key: Key)
    requires GoodRenaming(f) && (key.ById? ==> key.id in f) && Ids.Named(Ids.AllIds(messages)) <= f.Keys
    ensures Trace(Ids.RenameAll(f, messages), NewKey(f, key)) == NewTrace(f, Trace(messages, key))
  {
    hide GoodRenaming, NewKey, Trace, MessageTrace, Ids.RenameMessage, Ids.MessageIds;
    if messages == [] {
      Availability.NothingExpanded(key);
      Availability.NothingExpanded(NewKey(f, key));
    } else {
      var front, last := messages[..|messages| - 1], messages[|messages| - 1];
      assert messages == front + [last];
      Ids.NamedJoin(Ids.AllIds(front), Ids.MessageIds(last));
      HistoryRenamed(f, front, key);
      MessageRenamed(f, last, key);
      TraceJoin(front, [last], key);
      TraceOne(last, key);
      TraceJoin(Ids.RenameAll(f, front), [Ids.RenameMessage(f, last)], NewKey(f, key));
      TraceOne(Ids.RenameMessage(f, last), NewKey(f, key));
      NewTraceJoin(f, Trace(front, key), MessageTrace(last, key));
    }
  }

  /** Under new IDs a search is still a search, and its answer still opens the next request. */
  lemma SearchRenamed(f: map<string, string>, messages: seq<Message>, id: string)
    requires Availability.SearchFound(messages, id)
    ensures Availability.SearchFound(Ids.RenameAll(f, messages), Ids.Renamed(f, id))
  {
    hide Ids.RenameAll;
    var i: nat, tools: seq<string> :| Availability.SearchAt(messages, i, id, tools);
    Ids.RenamedAt(f, messages, i);
    Ids.RenamedAt(f, messages, i + 1);
    Ids.PartRenamedAt(f, messages[i + 1].parts, 0);
    var outs := messages[i].outs;
    assert outs[..0] == [] && Ids.RenameOuts(f, outs[..0]) == [];
    assert Ids.RenameOuts(f, outs) == Availability.SearchCall(Ids.Renamed(f, id), tools).outs;
    assert Availability.SearchAt(Ids.RenameAll(f, messages), i, Ids.Renamed(f, id), tools);
  }

  lemma SearchedRenamed(f: map<string, string>, trace: seq<Mark>)
    requires Availability.Searched(trace)
    ensures Availability.Searched(NewTrace(f, trace))
  {
    assert trace == [trace[0]] + [trace[1]];
    NewTraceJoin(f, [trace[0]], [trace[1]]);
    assert [trace[0]][1..] == [] && [trace[1]][1..] == [];
  }

  lemma {:induction false} SameCalls(calls: seq<ToolCall>)
    ensures NewCalls(map[], calls) == calls
  {
    if calls != [] { SameCalls(calls[1..]); }
  }

  /** No change of IDs, no change of traces. */
  lemma {:induction false} SameTrace(trace: seq<Mark>)
    ensures NewTrace(map[], trace) == trace
  {
    if trace != [] {
      SameTrace(trace[1..]);
      if trace[0].Group? { SameCalls(trace[0].calls); }
    }
  }

  lemma {:induction false} LeadRenamed(f: map<string, string>, trace: seq<Mark>)
    ensures Lead(NewTrace(f, trace)) == Lead(trace) && (TraceAnswered(NewTrace(f, trace)) <==> TraceAnswered(trace))
  {
    if trace != [] {
      LeadRenamed(f, trace[1..]);
      assert NewTrace(f, trace)[1..] == NewTrace(f, trace[1..]);
    }
  }

  lemma {:induction false} PartsUnderNewIds(f: map<string, string>, parts: seq<RequestPart>, key: Key)
    requires Ids.Named(Ids.PartIds(parts)) <= f.Keys && GoodRenaming(f) && key.ById? && key.id !in f.Values
    ensures AnswersIn(Ids.RenameParts(f, parts), key) == []
  {
    hide AnswersIn, Ids.RenamePart;
    Availability.NoAnswers(key);
    if parts != [] {
      var front, last := parts[..|parts| - 1], parts[|parts| - 1];
      assert parts == front + [last];
      Ids.NamedMore(Ids.PartIds(front), Ids.PartId(last));
      PartsUnderNewIds(f, front, key);
      AnswersJoin(Ids.RenameParts(f, front), [Ids.RenamePart(f, last)], key);
      PartUnderNewId(f, last, key);
    }
  }

  lemma PartUnderNewId(f: map<string, string>, part: RequestPart, key: Key)
    requires Known(f, Ids.PartId(part)) && GoodRenaming(f) && key.ById? && key.id !in f.Values
    ensures AnswersIn([Ids.RenamePart(f, part)], key) == []
  {
    assert [Ids.RenamePart(f, part)][1..] == [];
    if Ids.PartId(part) in f { assert f[Ids.PartId(part)] in f.Values; }
  }

  lemma {:induction false} CallsUnderNewIds(f: map<string, string>, calls: seq<ToolCall>, key: Key)
    requires CallsKnown(f, calls) && GoodRenaming(f) && key.ById? && key.id !in f.Values
    ensures CallsWith(NewCalls(f, calls), key) == []
  {
    if calls != [] {
      CallsUnderNewIds(f, calls[1..], key);
      if calls[0].id in f { assert f[calls[0].id] in f.Values; }
      assert ([NewCall(f, calls[0])] + NewCalls(f, calls[1..]))[1..] == NewCalls(f, calls[1..]);
    }
  }

  lemma {:induction false} NothingUnderOtherIds(f: map<string, string>, messages: seq<Message>, key: Key)
    requires Ids.Named(Ids.AllIds(messages)) <= f.Keys && GoodRenaming(f) && key.ById? && key.id !in f.Values
    ensures Trace(Ids.RenameAll(f, messages), key) == []
  {
    hide GoodRenaming, Trace, CallsWith, AnswersIn;
    if messages == [] {
      Availability.NothingExpanded(key);
    } else {
      var front, last := messages[..|messages| - 1], messages[|messages| - 1];
      assert messages == front + [last];
      Ids.NamedJoin(Ids.AllIds(front), Ids.MessageIds(last));
      NothingUnderOtherIds(f, front, key);
      TraceJoin(Ids.RenameAll(f, front), [Ids.RenameMessage(f, last)], key);
      TraceOne(Ids.RenameMessage(f, last), key);
      if last.Request? {
        PartsUnderNewIds(f, last.parts, key);
      } else {
        OutsRenamed(f, last.outs);
        OutsKnown(f, last.outs);
        CallsUnderNewIds(f, Calls(last.outs), key);
      }
    }
  }

  lemma {:induction false} TableRenames(fitting: Ids.Fitting, messages: seq<Message>)
    requires fitting.length > 0 && Ids.FitAll(fitting, Ids.AllIds(messages)).Fitted?
    ensures var f := Ids.FitAll(fitting, Ids.AllIds(messages)).table.replacements;
      GoodRenaming(f) && Ids.Named(Ids.AllIds(messages)) <= f.Keys
  {
    Ids.FitAllOk(fitting, Ids.AllIds(messages));
    hide Ids.FitAll, Ids.AllIds, Ids.Alphanumeric;
    var table := Ids.FitAll(fitting, Ids.AllIds(messages)).table;
    forall id | id in table.replacements ensures table.replacements[id] != "" {
      assert Ids.Fits(table.replacements[id], fitting.length);
    }
  }

  lemma {:induction false} RenamingAnswers(f: map<string, string>, messages: seq<Message>)
    requires GoodRenaming(f) && Ids.Named(Ids.AllIds(messages)) <= f.Keys && AllAnswered(messages)
    ensures AllAnswered(Ids.RenameAll(f, messages))
  {
    hide GoodRenaming, AllAnswered, Trace, TraceAnswered, Ids.RenameAll, Ids.AllIds;
    AnsweredByTraces(messages);
    forall key ensures TraceAnswered(Trace(Ids.RenameAll(f, messages), key)) {
      if key.ById? && key.id !in f.Values {
        NothingUnderOtherIds(f, messages, key);
        EmptyAnswered();
      } else {
        var old_ := OldKey(f, key);
        HistoryRenamed(f, messages, old_);
        assert TraceAnswered(Trace(messages, old_));
        LeadRenamed(f, Trace(messages, old_));
      }
    }
    AnsweredByTraces(Ids.RenameAll(f, messages));
  }

  lemma EmptyAnswered()
    ensures TraceAnswered([])
  {}

  // ----- the whole preparation -----

  /** What preparation ends with, in terms of the messages before the change of IDs. */
  lemma {:induction false} PreparedIs(profile: Profile, messages: seq<Message>)
    requires Prepared(profile, messages).Some?
    ensures BeforeFitting(profile, messages).Some?
    ensures var before := BeforeFitting(profile, messages).value.0;
      var f := NewIds(profile, before);
      && f.Some? && Ids.Injective(f.value)
      && (profile.fitting.length == 0 ==> f.value == map[] && Prepared(profile, messages).value == before)
      && (profile.fitting.length > 0 ==>
            GoodRenaming(f.value) && Ids.Named(Ids.AllIds(before)) <= f.value.Keys
            && Prepared(profile, messages).value == Ids.RenameAll(f.value, before))
  {
    hide BeforeFitting, Ids.AllIds, Ids.RenameAll, Ids.FitAll;
    var before := BeforeFitting(profile, messages).value.0;
    if profile.fitting.length > 0 { TableRenames(profile.fitting, before); }
  }

  /** If every call of the history is answered, every call of the prepared history is. */
  lemma {:induction false} PreparationKeepsAnswers(profile: Profile, messages: seq<Message>)
    requires Prepared(profile, messages).Some? && AllAnswered(messages)
    ensures AllAnswered(Prepared(profile, messages).value)
  {
    hide BeforeFitting, AllAnswered, Prepared, GoodRenaming, Ids.Injective, NewIds, Ids.AllIds, Ids.RenameAll;
    PreparedIs(profile, messages);
    BeforeFittingAnswers(profile, messages);
    var before := BeforeFitting(profile, messages).value.0;
    if profile.fitting.length > 0 { RenamingAnswers(NewIds(profile, before).value, before); }
  }

  /** Each key's trace is carried over under an injective change of IDs that depends on nothing else. It is
      the trace the history had, so each call keeps the very results it had, or that of a tool search added
      under an ID of its own: one call and one answer, which opens the request right after it. Keys are taken
      from the history, or from the searches added. */
  lemma {:induction false} PreparationKeepsPairs(profile: Profile, messages: seq<Message>, key: Key)
    requires Prepared(profile, messages).Some?
    requires key.ById? && profile.fitting.length > 0 ==>
      key.id in NewIds(profile, BeforeFitting(profile, messages).value.0).value
    ensures var (all, before, after) := BeforeFitting(profile, messages).value;
      var (f, prepared) := (NewIds(profile, all).value, Prepared(profile, messages).value);
      && Ids.Injective(f)
      && Trace(prepared, NewKey(f, key)) == NewTrace(f, Trace(all, key))
      && (!Availability.Fresh(key, before, after) ==> Trace(all, key) == Trace(messages, key))
      && (Availability.Fresh(key, before, after) ==>
            && Availability.Searched(Trace(prepared, NewKey(f, key)))
            && Availability.SearchFound(prepared, Ids.Renamed(f, key.id)))
  {
    hide BeforeFitting, Trace, Prepared, GoodRenaming, Ids.Injective, NewIds, Ids.AllIds, Ids.RenameAll,
      Availability.Searched, Availability.SearchFound, NewTrace;
    PreparedIs(profile, messages);
    BeforeFittingKeeps(profile, messages, key);
    var (all, before, after) := BeforeFitting(profile, messages).value;
    var f := NewIds(profile, all).value;
    if profile.fitting.length > 0 {
      HistoryRenamed(f, all, key);
    } else {
      assert NewKey(f, key) == key;
      SameTrace(Trace(all, key));
    }
    if Availability.Fresh(key, before, after) {
      SearchedRenamed(f, Trace(all, key));
      if profile.fitting.length > 0 { SearchRenamed(f, all, key.id); }
    }
  }

  /** `key` is the new form of `old_`, which the history uses or a search was added under. */
  ghost predicate ComesFrom(profile: Profile, messages: seq<Message>, key: Key, old_: Key)
    requires Prepared(profile, messages).Some?
  {
    var (all, before, after) := BeforeFitting(profile, messages).value;
    var f := NewIds(profile, all).value;
    && key == NewKey(f, old_) && (old_.ById? && profile.fitting.length > 0 ==> old_.id in f)
    && (Trace(messages, old_) != [] || Availability.Fresh(old_, before, after))
  }

  /** The prepared history has no calls or results but those. */
  lemma {:induction false} PreparationAddsNothingElse(profile: Profile, messages: seq<Message>, key: Key)
    requires Prepared(profile, messages).Some? && Trace(Prepared(profile, messages).value, key) != []
    ensures exists old_ :: ComesFrom(profile, messages, key, old_)
  {
    hide BeforeFitting, Trace, Prepared, GoodRenaming, Ids.Injective, NewIds, Ids.AllIds, Ids.RenameAll,
      Availability.Searched, Availability.SearchFound, Availability.Fresh;
    PreparedIs(profile, messages);
    var (all, before, after) := BeforeFitting(profile, messages).value;
    var f := NewIds(profile, all).value;
    if profile.fitting.length == 0 {
      assert NewKey(f, key) == key;
      BeforeFittingKeeps(profile, messages, key);
      assert ComesFrom(profile, messages, key, key);
    } else if key.ById? && key.id !in f.Values {
      NothingUnderOtherIds(f, all, key);
    } else {
      var old_ := OldKey(f, key);
      HistoryRenamed(f, all, old_);
      BeforeFittingKeeps(profile, messages, old_);
      assert ComesFrom(profile, messages, key, old_);
    }
  }

  ghost function OldKey(f: map<string, string>, key: Key): (old_: Key)
    requires key.ById? ==> key.id in f.Values
    ensures (old_.ById? ==> old_.id in f) && NewKey(f, old_) == key
  {
    if key.ById? then
      var id :| id in f && f[id] == key.id;
      ById(id)
    else key
  }

  /** Every key in use has a new form: the history's, and those of the searches added. */
  lemma {:induction false} KeysInUseAreRenamed(profile: Profile, messages: seq<Message>, key: Key)
    requires Prepared(profile, messages).Some? && key.ById? && profile.fitting.length > 0
    ensures var (all, before, after) := BeforeFitting(profile, messages).value;
      Trace(messages, key) != [] || Availability.Fresh(key, before, after) ==> key.id in NewIds(profile, all).value
  {
    hide BeforeFitting, Trace, Prepared, GoodRenaming, Ids.Injective, NewIds, Ids.AllIds, Ids.RenameAll,
      Availability.SearchFound, Availability.Fresh;
    PreparedIs(profile, messages);
    BeforeFittingKeeps(profile, messages, key);
    var (all, before, after) := BeforeFitting(profile, messages).value;
    if Trace(all, key) != [] { TracedIsNamed(all, key); }
  }

  lemma {:induction false} TracedIsNamed(messages: seq<Message>, key: Key)
    requires key.ById? && Trace(messages, key) != []
    ensures key.id in Ids.Named(Ids.AllIds(messages))
  {
    hide Trace, MessageTrace, Ids.MessageIds;
    Availability.NothingExpanded(key);
    if messages != [] {
      var front, last := messages[..|messages| - 1], messages[|messages| - 1];
      assert messages == front + [last];
      TraceJoin(front, [last], key);
      TraceOne(last, key);
      Ids.NamedJoin(Ids.AllIds(front), Ids.MessageIds(last));
      if Trace(front, key) != [] {
        TracedIsNamed(front, key);
      } else {
        TracedMessageIsNamed(last, key);
      }
    }
  }

  lemma {:induction false} TracedMessageIsNamed(message: Message, key: Key)
    requires key.ById? && MessageTrace(message, key) != []
    ensures key.id in Ids.Named(Ids.MessageIds(message))
  {
    if message.Request? { AnsweredIsNamed(message.parts, key); } else { CalledIsNamed(message.outs, key); }
  }

  lemma {:induction false} AnsweredIsNamed(parts: seq<RequestPart>, key: Key)
    requires key.ById? && AnswersIn(parts, key) != []
    ensures key.id in Ids.Named(Ids.PartIds(parts))
  {
    hide AnswersIn;
    Availability.NoAnswers(key);
    if parts != [] {
      var front, last := parts[..|parts| - 1], parts[|parts| - 1];
      assert parts == front + [last];
      AnswersJoin(front, [last], key);
      Ids.NamedMore(Ids.PartIds(front), Ids.PartId(last));
      if AnswersIn(front, key) != [] { AnsweredIsNamed(front, key); } else { OneAnswerIsNamed(last, key); }
    }
  }

  lemma OneAnswerIsNamed(part: RequestPart, key: Key)
    requires key.ById? && AnswersIn([part], key) != []
    ensures key.id == Ids.PartId(part) && key.id != ""
  {
    assert [part][1..] == [];
  }

  lemma {:induction false} CalledIsNamed(outs: seq<ResponsePart>, key: Key)
    requires key.ById? && CallsWith(Calls(outs), key) != []
    ensures key.id in Ids.Named(Ids.OutIds(outs))
  {
    CallsWithCount(Calls(outs), key);
    CountCallsMember(Calls(outs), key);
    var call :| call in Calls(outs) && CallKey(call) == key;
    CallIsNamed(outs, call);
  }

  lemma {:induction false} CallIsNamed(outs: seq<ResponsePart>, call: ToolCall)
    requires call in Calls(outs) && call.id != ""
    ensures call.id in Ids.Named(Ids.OutIds(outs))
  {
    if outs != [] {
      var front, last := outs[..|outs| - 1], outs[|outs| - 1];
      assert outs == front + [last];
      CallsConcat(front, [last]);
      assert [last][1..] == [];
      Ids.NamedMore(Ids.OutIds(front), Ids.OutId(last));
      if call in Calls(front) { CallIsNamed(front, call); }
    }
  }
}
