/** Wire preparation as it runs, pass by pass over the messages. */
module PrepareMessages {
  import opened Options
  import opened History
  import opened PrepareSpec
  import opened PrepareProofs
  import opened Availability = AvailabilitySpec
  import Ids = ToolCallIds
  import ResultOrder

  // ----- speech -----

  method AnySpeech(messages: seq<Message>) returns (found: bool)
    ensures found <==> exists i :: 0 <= i < |messages| && HasSpeech(messages[i])
  {
    var k := 0;
    while k < |messages|
      invariant 0 <= k <= |messages| && forall i :: 0 <= i < k ==> !HasSpeech(messages[i])
    {
      if HasSpeech(messages[k]) { return true; }
      k := k + 1;
    }
    found := false;
  }

  method ConvertRequestParts(parts: seq<RequestPart>, includeAudio: bool)
    returns (ok: bool, converted: seq<RequestPart>)
    ensures ok <==> forall i :: 0 <= i < |parts| && parts[i].SpeechIn? ==> parts[i].fromUser
    ensures ok ==> converted == ConvertIns(parts, includeAudio)
  {
    ok, converted := true, [];
    var k := 0;
    while k < |parts|
      invariant 0 <= k <= |parts| && converted == ConvertIns(parts[..k], includeAudio)
      invariant forall i :: 0 <= i < k && parts[i].SpeechIn? ==> parts[i].fromUser
    {
      assert parts[..k + 1][..k] == parts[..k];
      var part := parts[k];
      if !part.SpeechIn? {
        converted := converted + [part];
      } else {
        if !part.fromUser { return false, converted; }
        if includeAudio && part.audio != "" {
          converted := converted + [UserPrompt(part.audio)];
        } else if part.transcript != "" {
          converted := converted + [UserPrompt(part.transcript)];
        }
      }
      k := k + 1;
    }
    assert parts[..k] == parts;
  }

  method FindLastSpeech(outs: seq<ResponsePart>) returns (last: int)
    ensures last == LastSpeech(outs)
  {
    last := -1;
    var k := 0;
    while k < |outs|
      invariant 0 <= k <= |outs| && last == LastSpeech(outs[..k])
    {
      assert outs[..k + 1][..k] == outs[..k];
      if outs[k].SpeechOut? { last := k; }
      k := k + 1;
    }
    assert outs[..k] == outs;
  }

  method ConvertResponseParts(outs: seq<ResponsePart>, interruptedAt: int)
    returns (ok: bool, converted: seq<ResponsePart>)
    ensures ok <==> forall i :: 0 <= i < |outs| && outs[i].SpeechOut? ==> outs[i].assistant
    ensures ok ==> converted == ConvertOuts(outs, interruptedAt)
  {
    hide SpokenText;
    ok, converted := true, [];
    var k := 0;
    while k < |outs|
      invariant 0 <= k <= |outs| && converted == ConvertOuts(outs[..k], interruptedAt)
      invariant forall i :: 0 <= i < k && outs[i].SpeechOut? ==> outs[i].assistant
    {
      assert outs[..k + 1][..k] == outs[..k];
      var out := outs[k];
      if !out.SpeechOut? {
        converted := converted + [out];
      } else {
        if !out.assistant { return false, converted; }
        var content := SpokenText(out, k == interruptedAt);
        if content != "" { converted := converted + [TextOut(content)]; }
      }
      k := k + 1;
    }
    assert outs[..k] == outs;
  }

  /** Messages that held nothing but silence are left out. */
  method ConvertSpeechMessages(messages: seq<Message>, includeAudio: bool) returns (converted: Option<seq<Message>>)
    ensures converted == ConvertSpeech(messages, includeAudio)
  {
    hide ConvertIns, ConvertOuts, LastSpeech, HasSpeech;
    var found := AnySpeech(messages);
    if !found { return Some(messages); }
    var done: seq<Message> := [];
    var k := 0;
    while k < |messages|
      invariant 0 <= k <= |messages| && done == ConvertAll(messages[..k], includeAudio)
      invariant forall i :: 0 <= i < k ==> SpeakersOk(messages[i])
    {
      assert messages[..k + 1][..k] == messages[..k];
      if messages[k].Request? {
        var ok, parts := ConvertRequestParts(messages[k].parts, includeAudio);
        if !ok { return None; }
        if parts != [] { done := done + [messages[k].(parts := parts)]; }
      } else {
        var at := FindLastSpeech(messages[k].outs);
        var ok, outs := ConvertResponseParts(messages[k].outs, if messages[k].state == "interrupted" then at else -1);
        if !ok { return None; }
        if outs != [] { done := done + [messages[k].(outs := outs)]; }
      }
      k := k + 1;
    }
    assert messages[..k] == messages;
    converted := Some(done);
  }

  // ----- request-scoped prompts -----

  method SplitScoped(parts: seq<RequestPart>) returns (kept: seq<RequestPart>, scoped: seq<RequestPart>)
    ensures kept == Unscoped(parts) && scoped == ScopedOf(parts)
  {
    kept, scoped := [], [];
    var k := 0;
    while k < |parts|
      invariant 0 <= k <= |parts| && kept == Unscoped(parts[..k]) && scoped == ScopedOf(parts[..k])
    {
      assert parts[..k + 1][..k] == parts[..k];
      if IsScoped(parts[k]) { scoped := scoped + [parts[k]]; } else { kept := kept + [parts[k]]; }
      k := k + 1;
    }
    assert parts[..k] == parts;
  }

  method AnyScoped(messages: seq<Message>) returns (found: bool)
    ensures found <==> exists i :: 0 <= i < |messages| && HasScoped(messages[i])
  {
    var k := 0;
    while k < |messages|
      invariant 0 <= k <= |messages| && forall i :: 0 <= i < k ==> !HasScoped(messages[i])
    {
      if HasScoped(messages[k]) { return true; }
      k := k + 1;
    }
    found := false;
  }

  /** Looks back over trailing responses, then over the requests before them. */
  method FindCurrent(messages: seq<Message>) returns (start: nat, end: nat)
    ensures end == LastRequestEnd(messages) && start == CurrentStart(messages, end)
  {
    end := |messages|;
    assert messages[..end] == messages;
    while end > 0 && messages[end - 1].Response?
      invariant 0 <= end <= |messages| && LastRequestEnd(messages) == LastRequestEnd(messages[..end])
    {
      assert messages[..end][..end - 1] == messages[..end - 1];
      end := end - 1;
    }
    assert messages[..end] != [] ==> messages[..end][end - 1] == messages[end - 1];
    start := end;
    while start > 0 && messages[start - 1].Request?
      invariant 0 <= start <= end && CurrentStart(messages, end) == CurrentStart(messages, start)
    {
      start := start - 1;
    }
  }

  method ScopeRequestSystemPrompts(messages: seq<Message>) returns (prepared: seq<Message>)
    ensures prepared == ScopePrompts(messages)
  {
    hide Unscoped, ScopedOf, HasScoped, CurrentStart, LastRequestEnd, ScopeFirst, CurrentScoped, ScopeOne;
    var found := AnyScoped(messages);
    if !found { return messages; }
    var start, end := FindCurrent(messages);
    var scoped: seq<RequestPart> := [];
    prepared := [];
    var k := 0;
    NothingScoped(messages);
    while k < |messages|
      invariant 0 <= k <= |messages| && prepared == ScopeFirst(messages, k) && scoped == CurrentScoped(messages, k)
    {
      ScopeNext(messages, k);
      if messages[k].Response? {
        prepared := prepared + [messages[k]];
      } else {
        var parts, own := SplitScoped(messages[k].parts);
        if k >= start { scoped := scoped + own; }
        if k + 1 == end { parts := parts + scoped; }
        if parts != [] || messages[k].parts == [] || k + 1 == end {
          prepared := prepared + [messages[k].(parts := parts)];
        }
      }
      k := k + 1;
    }
  }

  lemma NothingScoped(messages: seq<Message>)
    ensures ScopeFirst(messages, 0) == [] && CurrentScoped(messages, 0) == []
  {}

  /** What one message adds. */
  lemma ScopeNext(messages: seq<Message>, k: nat)
    requires k < |messages|
    ensures var (end, message) := (LastRequestEnd(messages), messages[k]);
      var scoped := CurrentScoped(messages, k);
      var more :=
        if message.Request? && k >= CurrentStart(messages, end) then scoped + ScopedOf(message.parts) else scoped;
      && CurrentScoped(messages, k + 1) == more
      && (if message.Response? then ScopeFirst(messages, k + 1) == ScopeFirst(messages, k) + [message]
          else
            var parts := if k + 1 == end then Unscoped(message.parts) + more else Unscoped(message.parts);
            ScopeFirst(messages, k + 1)
            == if parts != [] || message.parts == [] || k + 1 == end then
                 ScopeFirst(messages, k) + [message.(parts := parts)]
               else ScopeFirst(messages, k))
  {
    hide Unscoped, ScopedOf, CurrentStart, LastRequestEnd;
    assert CurrentScoped(messages, k) + [] == CurrentScoped(messages, k);
    if messages[k].Request? { assert Unscoped(messages[k].parts) + [] == Unscoped(messages[k].parts); }
    assert ScopeFirst(messages, k) + [] == ScopeFirst(messages, k);
  }

  // ----- tool availability -----

  method Announce(naming: Naming, tools: seq<string>) returns (names: seq<string>)
    ensures names == Announced(naming, tools)
  {
    names := [];
    var k := 0;
    while k < |tools|
      invariant 0 <= k <= |tools| && names == Announced(naming, tools[..k])
    {
      assert tools[..k + 1][..k] == tools[..k];
      if !(naming.allowed.Some? && tools[k] !in naming.allowed.value) { names := names + [tools[k]]; }
      k := k + 1;
    }
    assert tools[..k] == tools;
  }

  method ChooseId(naming: Naming, used: set<string>, ordinal: nat, delta: RequestPart, names: seq<string>)
    returns (found: Option<(string, nat)>)
    requires delta.AvailabilityDelta?
    ensures found == CallIdFor(naming, used, ordinal, delta, names)
  {
    if delta.id != "" && delta.id !in used { return Some((delta.id, ordinal)); }
    var next, tries := ordinal, 0;
    while true
      invariant tries <= naming.patience
      invariant ProbeId(naming, used, ordinal, names, 0) == ProbeId(naming, used, next, names, tries)
      decreases naming.patience - tries
    {
      var id := HashedId(naming, next, names);
      next := next + 1;
      if id !in used { return Some((id, next)); }
      if tries >= naming.patience { return None; }
      tries := tries + 1;
    }
  }

  /** The head of the request with its results before its deltas, then the rest. */
  method Arrange(parts: seq<RequestPart>) returns (arranged: seq<RequestPart>)
    ensures arranged == Arranged(parts)
  {
    var head := 0;
    while head < |parts| && (parts[head].AvailabilityDelta? || IsResult(parts[head]))
      invariant 0 <= head <= |parts| && Head(parts) == head + Head(parts[head..])
    {
      head := head + 1;
    }
    assert Head(parts) == head;
    var results := Pick(parts[..head], false);
    var deltas := Pick(parts[..head], true);
    arranged := results + deltas + parts[head..];
  }

  method Pick(parts: seq<RequestPart>, wanted: bool) returns (picked: seq<RequestPart>)
    ensures picked == Deltas(parts, wanted)
  {
    picked := [];
    var k := |parts|;
    while k > 0
      invariant 0 <= k <= |parts| && picked == Deltas(parts[k..], wanted)
    {
      k := k - 1;
      assert parts[k..][1..] == parts[k + 1..];
      if parts[k].AvailabilityDelta? == wanted { picked := [parts[k]] + picked; }
    }
  }

  method SplitAtDeltas(naming: Naming, names: Names, request: Message, parts: seq<RequestPart>)
    returns (split: Option<(seq<Message>, Names)>)
    requires request.Request?
    ensures split == Split(naming, names, request, parts, [])
  {
    hide Announced, CallIdFor, ProbeId;
    var prepared: seq<Message>, pending: seq<RequestPart>, now := [], [], names;
    var k := 0;
    ThenNothing(Split(naming, names, request, parts, []));
    while k < |parts|
      invariant 0 <= k <= |parts|
      invariant Split(naming, names, request, parts, [])
        == Then(prepared, Split(naming, now, request, parts[k..], pending))
    {
      assert parts[k..][0] == parts[k] && parts[k..][1..] == parts[k + 1..];
      if !parts[k].AvailabilityDelta? {
        pending := pending + [parts[k]];
      } else {
        var tools := Announce(naming, parts[k].toolsAdded);
        if tools != [] {
          var found := ChooseId(naming, now.used, now.ordinal, parts[k], tools);
          if found.None? { return None; }
          var (id, ordinal) := found.value;
          ThenMore(prepared, Flush(request, pending) + [SearchCall(id, tools)],
                   Split(naming, Names(now.used + {id}, ordinal), request, parts[k + 1..], [SearchAnswer(id, tools)]));
          prepared := prepared + (Flush(request, pending) + [SearchCall(id, tools)]);
          pending, now := [SearchAnswer(id, tools)], Names(now.used + {id}, ordinal);
        }
      }
      k := k + 1;
    }
    assert parts[k..] == [];
    split := Some((prepared + Flush(request, pending), now));
  }

  function Then(before: seq<Message>, rest: Option<(seq<Message>, Names)>): Option<(seq<Message>, Names)> {
    if rest.None? then None else Some((before + rest.value.0, rest.value.1))
  }

  lemma ThenMore(a: seq<Message>, b: seq<Message>, rest: Option<(seq<Message>, Names)>)
    ensures Then(a, Then(b, rest)) == Then(a + b, rest)
  {
    if rest.Some? { assert a + (b + rest.value.0) == a + b + rest.value.0; }
  }

  lemma ThenNothing(rest: Option<(seq<Message>, Names)>)
    ensures Then([], rest) == rest
  {
    if rest.Some? { assert [] + rest.value.0 == rest.value.0; }
  }

  method CollectUsedIds(messages: seq<Message>) returns (used: set<string>)
    ensures used == UsedIds(messages)
  {
    hide PartIdOf, OutIdOf;
    used := {};
    var k := 0;
    while k < |messages|
      invariant 0 <= k <= |messages| && used == UsedIds(messages[..k])
    {
      assert messages[..k + 1][..k] == messages[..k];
      var own := CollectMessageIds(messages[k]);
      used := used + own;
      k := k + 1;
    }
    assert messages[..k] == messages;
  }

  method CollectMessageIds(message: Message) returns (used: set<string>)
    ensures used == UsedIn(message)
  {
    hide PartIdOf, OutIdOf;
    used := {};
    var k := 0;
    if message.Request? {
      while k < |message.parts|
        invariant 0 <= k <= |message.parts|
        invariant forall id :: id in used <==> exists i :: 0 <= i < k && id in PartIdOf(message.parts[i])
      {
        used := used + PartIdOf(message.parts[k]);
        k := k + 1;
      }
    } else {
      while k < |message.outs|
        invariant 0 <= k <= |message.outs|
        invariant forall id :: id in used <==> exists i :: 0 <= i < k && id in OutIdOf(message.outs[i])
      {
        used := used + OutIdOf(message.outs[k]);
        k := k + 1;
      }
    }
  }

  /** Deltas become searches, with IDs that nothing in the history uses. */
  method SynthesizeToolAvailability(naming: Naming, messages: seq<Message>) returns (prepared: Option<seq<Message>>)
    ensures var expanded := ExpandAll(naming, StartNames(messages), messages);
      prepared == if expanded.None? then None else Some(expanded.value.0)
  {
    hide Split, UsedIds, HasDelta, Arranged;
    var used := CollectUsedIds(messages);
    var names := Names(used, 0);
    ghost var start := names;
    var done: seq<Message> := [];
    var k := 0;
    while k < |messages|
      invariant 0 <= k <= |messages| && ExpandAll(naming, start, messages[..k]) == Some((done, names))
    {
      assert messages[..k + 1][..k] == messages[..k];
      if HasDelta(messages[k]) {
        DeltaInRequest(messages[k]);
        var parts := Arrange(messages[k].parts);
        var split := SplitAtDeltas(naming, names, messages[k], parts);
        if split.None? {
          StuckAt(naming, start, messages, k + 1);
          return None;
        }
        done, names := done + split.value.0, split.value.1;
      } else {
        done := done + [messages[k]];
      }
      k := k + 1;
    }
    assert messages[..k] == messages;
    prepared := Some(done);
  }

  lemma DeltaInRequest(message: Message)
    requires HasDelta(message)
    ensures message.Request?
  {}

  lemma {:induction false} StuckAt(naming: Naming, names: Names, messages: seq<Message>, k: nat)
    requires k <= |messages| && ExpandAll(naming, names, messages[..k]).None?
    ensures ExpandAll(naming, names, messages).None?
  {
    hide Expand;
    if k == |messages| {
      assert messages[..k] == messages;
    } else {
      assert messages[..|messages| - 1][..k] == messages[..k];
      StuckAt(naming, names, messages[..|messages| - 1], k);
    }
  }

  // ----- all passes -----

  /** The history as a model with this profile takes it. */
  method PrepareModelMessages(profile: Profile, messages: seq<Message>) returns (prepared: Option<seq<Message>>)
    ensures prepared == Prepared(profile, messages)
  {
    hide ConvertSpeech, ScopePrompts, ExpandAll, UsedIds, ResultOrder.OrderMessages, Ids.FitAll, Ids.RenameAll,
      Ids.AllIds;
    var converted := ConvertSpeechMessages(messages, profile.audio);
    if converted.None? { return None; }
    var now := converted.value;
    if !profile.scopedPrompts { now := ScopeRequestSystemPrompts(now); }
    if !profile.availability {
      var expanded := SynthesizeToolAvailability(profile.naming, now);
      if expanded.None? { return None; }
      now := expanded.value;
    }
    now := OrderResults(now);
    if profile.fitting.length > 0 {
      prepared := Ids.FitToolCallIds(profile.fitting, now);
    } else {
      prepared := Some(now);
    }
  }

  method OrderResults(messages: seq<Message>) returns (ordered: seq<Message>)
    ensures ordered == ResultOrder.OrderMessages(messages)
  {
    if messages == [] { return []; }
    var copy := new Message[|messages|](i requires 0 <= i < |messages| => messages[i]);
    assert copy[..] == messages;
    ResultOrder.OrderToolResultsByCall(copy);
    ordered := copy[..];
  }
}
