/** What preparing a history keeps besides calls and results: every prompt and every response part comes
    through, in order. */
module PrepareConserves {
  import opened Options
  import opened History
  import opened RepairSpec
  import opened PrepareSpec
  import opened PrepareProofs
  import opened Pieces
  import Ids = ToolCallIds
  import ResultOrder
  import Availability = AvailabilitySpec

  predicate NotResult(part: RequestPart) { !IsResult(part) }

  /** Neither a result nor a change of the tools available. */
  predicate IsPlain(part: RequestPart) { !IsResult(part) && !part.AvailabilityDelta? }

  /** The request parts of a history to keep, in order. */
  function PartsWhere(messages: seq<Message>, keep: RequestPart -> bool): seq<RequestPart> {
    if messages == [] then []
    else
      var last := messages[|messages| - 1];
      PartsWhere(messages[..|messages| - 1], keep) + if last.Request? then Where(last.parts, keep) else []
  }

  /** Response parts other than the calls made under the IDs added in between. */
  ghost function NotAdded(before: Availability.Names, after: Availability.Names): ResponsePart -> bool {
    (part: ResponsePart) => !(part.CallPart? && part.call.id in after.used - before.used)
  }

  lemma {:induction false} PartsJoin(a: seq<Message>, b: seq<Message>, keep: RequestPart -> bool)
    ensures PartsWhere(a + b, keep) == PartsWhere(a, keep) + PartsWhere(b, keep)
  {
    hide Where;
    if b == [] {
      assert a + b == a && PartsWhere(a, keep) + [] == PartsWhere(a, keep);
    } else {
      var front, last := b[..|b| - 1], b[|b| - 1];
      PartsJoin(a, front, keep);
      assert (a + b)[..|a + b| - 1] == a + front && (a + b)[|a + b| - 1] == last;
      var own := if last.Request? then Where(last.parts, keep) else [];
      assert PartsWhere(a, keep) + PartsWhere(front, keep) + own
          == PartsWhere(a, keep) + (PartsWhere(front, keep) + own);
    }
  }

  lemma PartsOne(message: Message, keep: RequestPart -> bool)
    ensures PartsWhere([message], keep) == if message.Request? then Where(message.parts, keep) else []
  {
    assert [message][..0] == [] && PartsWhere([message][..0], keep) == [];
  }

  // ----- the order of results -----

  lemma {:induction false} OrderedParts(parts: seq<RequestPart>, calls: seq<ToolCall>, keep: RequestPart -> bool)
    requires forall part :: keep(part) ==> !IsResult(part)
    ensures Where(ResultOrder.Ordered(parts, calls), keep) == Where(parts, keep)
  {
    hide ResultOrder.Ordered, ResultOrder.Called, ResultOrder.FirstCall;
    ResultOrder.AnswersFollowCalls(parts, calls);
    WhereAlike(ResultOrder.Ordered(parts, calls), parts, keep);
  }

  lemma {:induction false} OrderKeeps(messages: seq<Message>, keep: RequestPart -> bool)
    requires forall part :: keep(part) ==> !IsResult(part)
    ensures PartsWhere(ResultOrder.OrderMessages(messages), keep) == PartsWhere(messages, keep)
    ensures AllOuts(ResultOrder.OrderMessages(messages)) == AllOuts(messages)
  {
    hide ResultOrder.Ordered, Where, AllOuts, PartsWhere, Calls;
    if messages != [] {
      var front, last := messages[..|messages| - 1], messages[|messages| - 1];
      OrderKeeps(front, keep);
      assert messages == front + [last];
      var own := if front != [] && front[|front| - 1].Response? && last.Request? then
          last.(parts := ResultOrder.Ordered(last.parts, Calls(front[|front| - 1].outs)))
        else last;
      if own != last { OrderedParts(last.parts, Calls(front[|front| - 1].outs), keep); }
      assert ResultOrder.OrderMessages(messages) == ResultOrder.OrderMessages(front) + [own];
      PartsJoin(front, [last], keep);
      PartsJoin(ResultOrder.OrderMessages(front), [own], keep);
      PartsOne(last, keep);
      PartsOne(own, keep);
      ConcatAllOuts(front, [last]);
      ConcatAllOuts(ResultOrder.OrderMessages(front), [own]);
      OneMessage(last);
      OneMessage(own);
    }
  }

  // ----- tool searches -----

  lemma {:induction false} ArrangedPlain(parts: seq<RequestPart>)
    ensures Where(Availability.Arranged(parts), IsPlain) == Where(parts, IsPlain)
  {
    hide Where, Availability.Deltas, Availability.Head, IsPlain;
    var head := Availability.Head(parts);
    var first, rest := parts[..head], parts[head..];
    HeadNotPlain(parts);
    var results, deltas := Availability.Deltas(first, false), Availability.Deltas(first, true);
    DeltasNotPlain(first);
    WhereJoin(first, rest, IsPlain);
    WhereJoin(results + deltas, rest, IsPlain);
    WhereJoin(results, deltas, IsPlain);
    WhereNone(first, IsPlain);
    WhereNone(results, IsPlain);
    WhereNone(deltas, IsPlain);
    assert parts == first + rest;
  }

  lemma {:induction false} HeadNotPlain(parts: seq<RequestPart>)
    ensures forall i :: 0 <= i < Availability.Head(parts) ==> !IsPlain(parts[i])
  {
    if parts != [] && !IsPlain(parts[0]) {
      HeadNotPlain(parts[1..]);
      forall i | 0 <= i < Availability.Head(parts) ensures !IsPlain(parts[i]) {
        if i > 0 { assert parts[i] == parts[1..][i - 1]; }
      }
    }
  }

  lemma {:induction false} DeltasNotPlain(parts: seq<RequestPart>)
    requires forall i :: 0 <= i < |parts| ==> !IsPlain(parts[i])
    ensures forall i :: 0 <= i < |Availability.Deltas(parts, false)| ==> !IsPlain(Availability.Deltas(parts, false)[i])
    ensures forall i :: 0 <= i < |Availability.Deltas(parts, true)| ==> !IsPlain(Availability.Deltas(parts, true)[i])
  {
    hide IsPlain;
    if parts != [] { DeltasNotPlain(parts[1..]); }
  }

  lemma FlushKeeps(request: Message, pending: seq<RequestPart>)
    requires request.Request?
    ensures PartsWhere(Availability.Flush(request, pending), IsPlain) == Where(pending, IsPlain)
    ensures AllOuts(Availability.Flush(request, pending)) == []
  {
    if pending != [] {
      PartsOne(request.(parts := pending), IsPlain);
      OneMessage(request.(parts := pending));
    }
  }

  /** Splitting a request keeps its plain parts in order, and adds no response part but calls under new IDs. */
  lemma {:induction false} SplitConserves(naming: Availability.Naming, names: Availability.Names, request: Message,
                                          parts: seq<RequestPart>, pending: seq<RequestPart>,
                                          before: Availability.Names, after: Availability.Names)
    requires request.Request? && Availability.Split(naming, names, request, parts, pending).Some?
    requires before.used <= names.used
    requires Availability.Split(naming, names, request, parts, pending).value.1.used <= after.used
    ensures var all := Availability.Split(naming, names, request, parts, pending).value.0;
      && PartsWhere(all, IsPlain) == Where(pending, IsPlain) + Where(parts, IsPlain)
      && Where(AllOuts(all), NotAdded(before, after)) == []
    decreases |parts|
  {
    hide Where, PartsWhere, AllOuts, IsPlain, NotAdded, Availability.Announced, Availability.CallIdFor,
      Availability.Flush;
    FlushKeeps(request, pending);
    WhereNone<ResponsePart>([], NotAdded(before, after));
    WhereNone<RequestPart>([], IsPlain);
    if parts == [] {
      assert Where(pending, IsPlain) + [] == Where(pending, IsPlain);
    } else {
      var first, rest := parts[0], parts[1..];
      assert parts == [first] + rest;
      WhereJoin([first], rest, IsPlain);
      if !first.AvailabilityDelta? {
        SplitConserves(naming, names, request, rest, pending + [first], before, after);
        WhereJoin(pending, [first], IsPlain);
        assert Where(pending, IsPlain) + Where([first], IsPlain) + Where(rest, IsPlain)
            == Where(pending, IsPlain) + (Where([first], IsPlain) + Where(rest, IsPlain));
      } else {
        DeltaNotPlain(first);
        assert [] + Where(rest, IsPlain) == Where(rest, IsPlain);
        if Availability.Announced(naming, first.toolsAdded) == [] {
          SplitConserves(naming, names, request, rest, pending, before, after);
        } else {
          SearchConserves(naming, names, request, parts, pending, before, after);
        }
      }
    }
  }

  lemma DeltaNotPlain(part: RequestPart)
    requires part.AvailabilityDelta? || IsResult(part)
    ensures Where([part], IsPlain) == []
  {
    WhereNone([part], IsPlain);
  }

  lemma {:induction false} SearchConserves(naming: Availability.Naming, names: Availability.Names, request: Message,
                                           parts: seq<RequestPart>, pending: seq<RequestPart>,
                                           before: Availability.Names, after: Availability.Names)
    requires request.Request? && Availability.Split(naming, names, request, parts, pending).Some?
    requires before.used <= names.used
    requires Availability.Split(naming, names, request, parts, pending).value.1.used <= after.used
    requires parts != [] && parts[0].AvailabilityDelta?
    requires Availability.Announced(naming, parts[0].toolsAdded) != []
    ensures var all := Availability.Split(naming, names, request, parts, pending).value.0;
      && PartsWhere(all, IsPlain) == Where(pending, IsPlain) + Where(parts[1..], IsPlain)
      && Where(AllOuts(all), NotAdded(before, after)) == []
    decreases |parts|, 0
  {
    hide Where, PartsWhere, AllOuts, IsPlain, NotAdded, Availability.Announced, Availability.CallIdFor,
      Availability.Flush;
    var tools := Availability.Announced(naming, parts[0].toolsAdded);
    var (id, ordinal) := Availability.CallIdFor(naming, names.used, names.ordinal, parts[0], tools).value;
    var next, answer := Availability.Names(names.used + {id}, ordinal), Availability.SearchAnswer(id, tools);
    Availability.SplitKeeps(naming, next, request, parts[1..], [answer], ById(id));
    SplitConserves(naming, next, request, parts[1..], [answer], before, after);
    var rest := Availability.Split(naming, next, request, parts[1..], [answer]).value.0;
    var flushed, call := Availability.Flush(request, pending), Availability.SearchCall(id, tools);
    FlushKeeps(request, pending);
    PartsJoin(flushed + [call], rest, IsPlain);
    PartsJoin(flushed, [call], IsPlain);
    PartsOne(call, IsPlain);
    DeltaNotPlain(answer);
    ConcatAllOuts(flushed + [call], rest);
    ConcatAllOuts(flushed, [call]);
    OneMessage(call);
    WhereJoin([] + call.outs, AllOuts(rest), NotAdded(before, after));
    AddedCall(before, after, call);
    assert [] + call.outs == call.outs;
    assert Where(pending, IsPlain) + [] + ([] + Where(parts[1..], IsPlain))
        == Where(pending, IsPlain) + Where(parts[1..], IsPlain);
  }

  lemma AddedCall(before: Availability.Names, after: Availability.Names, call: Message)
    requires call.Response? && |call.outs| == 1 && call.outs[0].CallPart?
    requires call.outs[0].call.id in after.used - before.used
    ensures Where(call.outs, NotAdded(before, after)) == []
  {
    WhereNone(call.outs, NotAdded(before, after));
  }

  lemma {:induction false} ExpandConserves(naming: Availability.Naming, names: Availability.Names,
                                           messages: seq<Message>, before: Availability.Names,
                                           after: Availability.Names)
    requires Availability.ExpandAll(naming, names, messages).Some?
    requires before.used <= names.used && Availability.UsedIds(messages) <= before.used
    requires Availability.ExpandAll(naming, names, messages).value.1.used <= after.used
    ensures var (all, end) := Availability.ExpandAll(naming, names, messages).value;
      && names.used <= end.used
      && PartsWhere(all, IsPlain) == PartsWhere(messages, IsPlain)
      && Where(AllOuts(all), NotAdded(before, after)) == AllOuts(messages)
  {
    hide Where, PartsWhere, AllOuts, IsPlain, NotAdded, Availability.Expand, Availability.UsedIn;
    if messages == [] {
      NothingConserved(before, after);
    } else {
      var front, last := messages[..|messages| - 1], messages[|messages| - 1];
      assert messages == front + [last];
      var middle := Availability.ExpandAll(naming, names, front).value.1;
      Availability.ExpandKeeps(naming, middle, last, ById(""));
      ExpandConserves(naming, names, front, before, after);
      var sofar := Availability.ExpandAll(naming, names, front).value.0;
      var own := Availability.Expand(naming, middle, last).value.0;
      OneConserved(naming, middle, last, before, after);
      PartsJoin(front, [last], IsPlain);
      PartsJoin(sofar, own, IsPlain);
      ConcatAllOuts(front, [last]);
      ConcatAllOuts(sofar, own);
      WhereJoin(AllOuts(sofar), AllOuts(own), NotAdded(before, after));
    }
  }

  lemma NothingConserved(before: Availability.Names, after: Availability.Names)
    ensures PartsWhere([], IsPlain) == [] && AllOuts([]) == [] && Where([], NotAdded(before, after)) == []
  {}

  lemma {:induction false} OneConserved(naming: Availability.Naming, names: Availability.Names, message: Message,
                                        before: Availability.Names, after: Availability.Names)
    requires Availability.Expand(naming, names, message).Some?
    requires before.used <= names.used && Availability.UsedIn(message) <= before.used
    requires Availability.Expand(naming, names, message).value.1.used <= after.used
    ensures var all := Availability.Expand(naming, names, message).value.0;
      && PartsWhere(all, IsPlain) == PartsWhere([message], IsPlain)
      && Where(AllOuts(all), NotAdded(before, after)) == AllOuts([message])
  {
    hide Where, PartsWhere, AllOuts, IsPlain, Availability.Split, Availability.Arranged;
    PartsOne(message, IsPlain);
    OneMessage(message);
    if Availability.HasDelta(message) {
      var parts := Availability.Arranged(message.parts);
      SplitConserves(naming, names, message, parts, [], before, after);
      ArrangedPlain(message.parts);
      NothingKept();
      assert [] + Where(parts, IsPlain) == Where(parts, IsPlain);
    } else if message.Response? {
      forall i | 0 <= i < |message.outs| ensures NotAdded(before, after)(message.outs[i]) {
        if message.outs[i].CallPart? { assert message.outs[i].call.id in Availability.OutIdOf(message.outs[i]); }
      }
      WhereAll(message.outs, NotAdded(before, after));
    } else {
      WhereNone<ResponsePart>([], NotAdded(before, after));
    }
  }

  lemma NothingKept()
    ensures Where([], IsPlain) == []
  {}

  // ----- the change of IDs -----

  lemma {:induction false} RenamePartsJoin(f: map<string, string>, a: seq<RequestPart>, b: seq<RequestPart>)
    ensures Ids.RenameParts(f, a + b) == Ids.RenameParts(f, a) + Ids.RenameParts(f, b)
  {
    hide Ids.RenamePart;
    if b == [] {
      assert a + b == a;
    } else {
      RenamePartsJoin(f, a, b[..|b| - 1]);
      assert (a + b)[..|a + b| - 1] == a + b[..|b| - 1];
    }
  }

  lemma {:induction false} RenameOutsJoin(f: map<string, string>, a: seq<ResponsePart>, b: seq<ResponsePart>)
    ensures Ids.RenameOuts(f, a + b) == Ids.RenameOuts(f, a) + Ids.RenameOuts(f, b)
  {
    hide Ids.RenameOut;
    if b == [] {
      assert a + b == a;
    } else {
      RenameOutsJoin(f, a, b[..|b| - 1]);
      assert (a + b)[..|a + b| - 1] == a + b[..|b| - 1];
    }
  }

  lemma {:induction false} RenamedWhere(f: map<string, string>, parts: seq<RequestPart>, keep: RequestPart -> bool)
    requires forall part :: keep(Ids.RenamePart(f, part)) <==> keep(part)
    ensures Where(Ids.RenameParts(f, parts), keep) == Ids.RenameParts(f, Where(parts, keep))
  {
    hide Ids.RenamePart;
    if parts != [] {
      var front, last := parts[..|parts| - 1], parts[|parts| - 1];
      RenamedWhere(f, front, keep);
      WhereMore(Ids.RenameParts(f, front), Ids.RenamePart(f, last), keep);
      RenamePartsJoin(f, Where(front, keep), if keep(last) then [last] else []);
      assert [last][..0] == [] && Ids.RenameParts(f, [last][..0]) == [];
    }
  }

  lemma {:induction false} RenamedParts(f: map<string, string>, messages: seq<Message>, keep: RequestPart -> bool)
    requires forall part :: keep(Ids.RenamePart(f, part)) <==> keep(part)
    ensures PartsWhere(Ids.RenameAll(f, messages), keep) == Ids.RenameParts(f, PartsWhere(messages, keep))
  {
    hide Where, Ids.RenamePart, Ids.RenameOuts;
    if messages != [] {
      var front, last := messages[..|messages| - 1], messages[|messages| - 1];
      RenamedParts(f, front, keep);
      var own := Ids.RenameMessage(f, last);
      assert Ids.RenameAll(f, messages) == Ids.RenameAll(f, front) + [own] && messages == front + [last];
      hide Ids.RenameAll, PartsWhere;
      PartsJoin(front, [last], keep);
      PartsOne(last, keep);
      PartsJoin(Ids.RenameAll(f, front), [own], keep);
      PartsOne(own, keep);
      if last.Request? { RenamedWhere(f, last.parts, keep); }
      RenamePartsJoin(f, PartsWhere(front, keep), if last.Request? then Where(last.parts, keep) else []);
    }
  }

  lemma {:induction false} RenamedOuts(f: map<string, string>, messages: seq<Message>)
    ensures AllOuts(Ids.RenameAll(f, messages)) == Ids.RenameOuts(f, AllOuts(messages))
  {
    hide AllOuts, Ids.RenameOut, Ids.RenameParts;
    NoOuts();
    if messages != [] {
      var front, last := messages[..|messages| - 1], messages[|messages| - 1];
      RenamedOuts(f, front);
      var own := Ids.RenameMessage(f, last);
      assert Ids.RenameAll(f, messages) == Ids.RenameAll(f, front) + [own] && messages == front + [last];
      hide Ids.RenameAll;
      ConcatAllOuts(front, [last]);
      ConcatAllOuts(Ids.RenameAll(f, front), [own]);
      OneMessage(last);
      OneMessage(own);
      RenameOutsJoin(f, AllOuts(front), if last.Response? then last.outs else []);
    }
  }

  lemma NoOuts()
    ensures AllOuts([]) == []
  {}

  lemma {:induction false} SameParts(parts: seq<RequestPart>)
    ensures Ids.RenameParts(map[], parts) == parts
  {
    if parts != [] { SameParts(parts[..|parts| - 1]); }
  }

  lemma {:induction false} SameOuts(outs: seq<ResponsePart>)
    ensures Ids.RenameOuts(map[], outs) == outs
  {
    if outs != [] { SameOuts(outs[..|outs| - 1]); }
  }

  function NewId(f: map<string, string>, id: string): string { if id in f then f[id] else id }

  /** The change of IDs changes the IDs of calls and of their results, and nothing else. */
  lemma {:induction false} OnlyIdsChange(f: map<string, string>, messages: seq<Message>, i: nat, k: nat)
    requires i < |messages|
    ensures |Ids.RenameAll(f, messages)| == |messages|
    ensures var was, now := messages[i], Ids.RenameAll(f, messages)[i];
      if was.Request? then
        && now.Request? && now == was.(parts := now.parts) && |now.parts| == |was.parts|
        && (k < |was.parts| ==>
              now.parts[k] == match was.parts[k]
              case ToolReturn(name, id, kind, content, synthesized) =>
                ToolReturn(name, NewId(f, id), kind, content, synthesized)
              case RetryPrompt(name, id, content) => RetryPrompt(name, NewId(f, id), content)
              case other => other)
      else
        && now.Response? && now == was.(outs := now.outs) && |now.outs| == |was.outs|
        && (k < |was.outs| ==>
              var out := was.outs[k];
              now.outs[k] == if out.CallPart? then out.(call := out.call.(id := NewId(f, out.call.id))) else out)
  {
    Ids.RenamedAt(f, messages, i);
    if messages[i].Request? {
      RenamePartsLength(f, messages[i].parts);
      if k < |messages[i].parts| { Ids.PartRenamedAt(f, messages[i].parts, k); }
    } else {
      OutRenamedAt(f, messages[i].outs, k);
    }
  }

  lemma {:induction false} RenamePartsLength(f: map<string, string>, parts: seq<RequestPart>)
    ensures |Ids.RenameParts(f, parts)| == |parts|
  {
    if parts != [] { Ids.PartRenamedAt(f, parts, 0); }
  }

  lemma {:induction false} OutRenamedAt(f: map<string, string>, outs: seq<ResponsePart>, k: nat)
    ensures |Ids.RenameOuts(f, outs)| == |outs|
    ensures k < |outs| ==> Ids.RenameOuts(f, outs)[k] == Ids.RenameOut(f, outs[k])
  {
    hide Ids.RenameOut;
    if outs != [] { OutRenamedAt(f, outs[..|outs| - 1], k); }
  }

  // ----- the whole preparation -----

  /** The history once speech is text and prompts are in place. */
  ghost function Scoped(profile: Profile, messages: seq<Message>): seq<Message>
    requires ConvertSpeech(messages, profile.audio).Some?
  {
    var converted := ConvertSpeech(messages, profile.audio).value;
    if profile.scopedPrompts then converted else ScopePrompts(converted)
  }

  lemma {:induction false} OneScoped(messages: seq<Message>, k: nat, scoped: seq<RequestPart>)
    requires k < |messages|
    ensures AllOuts(ScopeOne(messages, k, scoped)) == AllOuts([messages[k]])
  {
    hide AllOuts, Unscoped, LastRequestEnd;
    NoOuts();
    OneMessage(messages[k]);
    var own := ScopeOne(messages, k, scoped);
    if own != [] { OneMessage(own[0]); }
  }

  lemma {:induction false} ScopeKeepsOuts(messages: seq<Message>, k: nat)
    requires k <= |messages|
    ensures AllOuts(ScopeFirst(messages, k)) == AllOuts(messages[..k])
  {
    hide AllOuts, ScopeOne, CurrentScoped;
    if k == 0 {
      assert messages[..0] == [];
    } else {
      ScopeKeepsOuts(messages, k - 1);
      var own := ScopeOne(messages, k - 1, CurrentScoped(messages, k));
      assert messages[..k] == messages[..k - 1] + [messages[k - 1]];
      ConcatAllOuts(messages[..k - 1], [messages[k - 1]]);
      ConcatAllOuts(ScopeFirst(messages, k - 1), own);
      OneScoped(messages, k - 1, CurrentScoped(messages, k));
    }
  }

  lemma {:induction false} ScopedOuts(profile: Profile, messages: seq<Message>)
    requires ConvertSpeech(messages, profile.audio).Some?
    ensures AllOuts(Scoped(profile, messages)) == AllOuts(ConvertSpeech(messages, profile.audio).value)
  {
    hide AllOuts, ScopeFirst, ConvertSpeech;
    var converted := ConvertSpeech(messages, profile.audio).value;
    ScopeKeepsOuts(converted, |converted|);
    assert converted[..|converted|] == converted;
  }

  lemma {:induction false} BeforeFittingConserves(profile: Profile, messages: seq<Message>)
    requires BeforeFitting(profile, messages).Some?
    ensures ConvertSpeech(messages, profile.audio).Some?
    ensures var (all, before, after) := BeforeFitting(profile, messages).value;
      var scoped := Scoped(profile, messages);
      && PartsWhere(all, IsPlain) == PartsWhere(scoped, IsPlain)
      && (profile.availability ==> PartsWhere(all, NotResult) == PartsWhere(scoped, NotResult))
      && Where(AllOuts(all), NotAdded(before, after)) == AllOuts(scoped)
  {
    hide PartsWhere, AllOuts, Where, ConvertSpeech, ScopePrompts, ResultOrder.OrderMessages, Availability.ExpandAll,
      Availability.UsedIds;
    var (all, before, after) := BeforeFitting(profile, messages).value;
    var scoped := Scoped(profile, messages);
    var expanded := Synthesized(profile, scoped).value.0;
    OrderKeeps(expanded, IsPlain);
    OrderKeeps(expanded, NotResult);
    if profile.availability {
      WhereAll(AllOuts(scoped), NotAdded(before, after));
    } else {
      ExpandConserves(profile.naming, StartNames(scoped), scoped, before, after);
    }
  }

  /** From the history whose speech is text and whose prompts are in place, everything comes through in order
      up to the change of IDs: all request parts other than results, and other than deltas where those become
      searches; and all response parts, between which nothing is added but the calls of those searches. */
  lemma {:induction false} PreparationKeepsContents(profile: Profile, messages: seq<Message>)
    requires Prepared(profile, messages).Some?
    ensures BeforeFitting(profile, messages).Some? && ConvertSpeech(messages, profile.audio).Some?
    ensures var (all, before, after) := BeforeFitting(profile, messages).value;
      var (f, prepared) := (NewIds(profile, all).value, Prepared(profile, messages).value);
      var converted, scoped := ConvertSpeech(messages, profile.audio).value, Scoped(profile, messages);
      && PartsWhere(prepared, IsPlain) == Ids.RenameParts(f, PartsWhere(scoped, IsPlain))
      && (profile.availability ==>
            PartsWhere(prepared, NotResult) == Ids.RenameParts(f, PartsWhere(scoped, NotResult)))
      && AllOuts(prepared) == Ids.RenameOuts(f, AllOuts(all))
      && Where(AllOuts(all), NotAdded(before, after)) == AllOuts(converted)
  {
    hide BeforeFitting, PartsWhere, AllOuts, Where, ConvertSpeech, Scoped, Prepared, NewIds, GoodRenaming,
      Ids.Injective, Ids.AllIds, Ids.RenameAll;
    PreparedIs(profile, messages);
    BeforeFittingConserves(profile, messages);
    ScopedOuts(profile, messages);
    var all := BeforeFitting(profile, messages).value.0;
    var f := NewIds(profile, all).value;
    if profile.fitting.length == 0 {
      SameParts(PartsWhere(all, IsPlain));
      SameParts(PartsWhere(all, NotResult));
      SameOuts(AllOuts(all));
    } else {
      RenamedParts(f, all, IsPlain);
      RenamedParts(f, all, NotResult);
      RenamedOuts(f, all);
    }
  }
}
