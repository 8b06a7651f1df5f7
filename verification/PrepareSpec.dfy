/** What wire preparation makes of a history: realtime speech becomes text, request-scoped prompts move,
    tool availability becomes a search call with its answer. */
module PrepareSpec {
  import opened Options
  import opened History
  import opened Decimals
  import opened ToolTrace

  // ----- speech -----

  function WithLine(content: string, line: string): string { if content == "" then line else content + "\n" + line }

  /** What a spoken answer says, and that it was interrupted. */
  function SpokenText(part: ResponsePart, interrupted: bool): string
    requires part.SpeechOut?
  {
    if part.interruptedAtMs >= 0 then
      WithLine(part.transcript, "[Interrupted after " + Decimal(part.interruptedAtMs) + " ms]")
    else if interrupted then WithLine(part.transcript, "[Interrupted]")
    else part.transcript
  }

  function ConvertIn(part: RequestPart, includeAudio: bool): seq<RequestPart> {
    if !part.SpeechIn? then [part]
    else if includeAudio && part.audio != "" then [UserPrompt(part.audio)]
    else if part.transcript != "" then [UserPrompt(part.transcript)]
    else []
  }

  function ConvertIns(parts: seq<RequestPart>, includeAudio: bool): seq<RequestPart> {
    if parts == [] then []
    else ConvertIns(parts[..|parts| - 1], includeAudio) + ConvertIn(parts[|parts| - 1], includeAudio)
  }

  function LastSpeech(outs: seq<ResponsePart>): int {
    if outs == [] then -1 else if outs[|outs| - 1].SpeechOut? then |outs| - 1 else LastSpeech(outs[..|outs| - 1])
  }

  function ConvertOut(part: ResponsePart, interrupted: bool): seq<ResponsePart> {
    if !part.SpeechOut? then [part]
    else if SpokenText(part, interrupted) != "" then [TextOut(SpokenText(part, interrupted))] else []
  }

  /** Only the last spoken part of an interrupted response is marked so. */
  function ConvertOuts(outs: seq<ResponsePart>, interruptedAt: int): seq<ResponsePart> {
    if outs == [] then []
    else
      ConvertOuts(outs[..|outs| - 1], interruptedAt) + ConvertOut(outs[|outs| - 1], |outs| - 1 == interruptedAt)
  }

  function ConvertMessage(message: Message, includeAudio: bool): seq<Message> {
    if message.Request? then
      var parts := ConvertIns(message.parts, includeAudio);
      if parts == [] then [] else [message.(parts := parts)]
    else
      var at := if message.state == "interrupted" then LastSpeech(message.outs) else -1;
      var outs := ConvertOuts(message.outs, at);
      if outs == [] then [] else [message.(outs := outs)]
  }

  function ConvertAll(messages: seq<Message>, includeAudio: bool): seq<Message> {
    if messages == [] then []
    else ConvertAll(messages[..|messages| - 1], includeAudio) + ConvertMessage(messages[|messages| - 1], includeAudio)
  }

  predicate HasSpeech(message: Message) {
    if message.Request? then exists i :: 0 <= i < |message.parts| && message.parts[i].SpeechIn?
    else exists i :: 0 <= i < |message.outs| && message.outs[i].SpeechOut?
  }

  predicate SpeakersOk(message: Message) {
    if message.Request? then
      forall i :: 0 <= i < |message.parts| && message.parts[i].SpeechIn? ==> message.parts[i].fromUser
    else
      forall i :: 0 <= i < |message.outs| && message.outs[i].SpeechOut? ==> message.outs[i].assistant
  }

  /** A history without speech is left alone; a wrong speaker is an error. */
  ghost function ConvertSpeech(messages: seq<Message>, includeAudio: bool): Option<seq<Message>> {
    if forall i :: 0 <= i < |messages| ==> !HasSpeech(messages[i]) then Some(messages)
    else if forall i :: 0 <= i < |messages| ==> SpeakersOk(messages[i]) then Some(ConvertAll(messages, includeAudio))
    else None
  }

  // ----- request-scoped system prompts -----

  predicate IsScoped(part: RequestPart) { part.SystemPrompt? && part.requestScoped }

  function Unscoped(parts: seq<RequestPart>): seq<RequestPart> {
    if parts == [] then []
    else Unscoped(parts[..|parts| - 1]) + if IsScoped(parts[|parts| - 1]) then [] else [parts[|parts| - 1]]
  }

  function ScopedOf(parts: seq<RequestPart>): seq<RequestPart> {
    if parts == [] then []
    else ScopedOf(parts[..|parts| - 1]) + if IsScoped(parts[|parts| - 1]) then [parts[|parts| - 1]] else []
  }

  /** Behind the last request. */
  function LastRequestEnd(messages: seq<Message>): (end: nat)
    ensures end <= |messages| && (end > 0 ==> messages[end - 1].Request?)
  {
    if messages == [] then 0
    else if messages[|messages| - 1].Request? then |messages| else LastRequestEnd(messages[..|messages| - 1])
  }

  /** Where the run of requests that ends there starts. */
  function CurrentStart(messages: seq<Message>, end: nat): (start: nat)
    requires end <= |messages|
    ensures start <= end
  {
    if end == 0 || messages[end - 1].Response? then end else CurrentStart(messages, end - 1)
  }

  /** Answered prompts go; current ones gather at the end of the last request, which stays even if empty. */
  function ScopeOne(messages: seq<Message>, k: nat, scoped: seq<RequestPart>): seq<Message>
    requires k < |messages|
  {
    var message := messages[k];
    if message.Response? then [message]
    else
      var isLast := k + 1 == LastRequestEnd(messages);
      var parts := Unscoped(message.parts) + if isLast then scoped else [];
      if parts != [] || message.parts == [] || isLast then [message.(parts := parts)] else []
  }

  function CurrentScoped(messages: seq<Message>, k: nat): seq<RequestPart>
    requires k <= |messages|
  {
    if k == 0 then []
    else
      var start := CurrentStart(messages, LastRequestEnd(messages));
      CurrentScoped(messages, k - 1)
      + if k - 1 >= start && messages[k - 1].Request? then ScopedOf(messages[k - 1].parts) else []
  }

  function ScopeFirst(messages: seq<Message>, k: nat): seq<Message>
    requires k <= |messages|
  {
    if k == 0 then []
    else ScopeFirst(messages, k - 1) + ScopeOne(messages, k - 1, CurrentScoped(messages, k))
  }

  predicate HasScoped(message: Message) {
    message.Request? && exists i :: 0 <= i < |message.parts| && IsScoped(message.parts[i])
  }

  ghost function ScopePrompts(messages: seq<Message>): seq<Message> {
    if forall i :: 0 <= i < |messages| ==> !HasScoped(messages[i]) then messages else ScopeFirst(messages, |messages|)
  }

  // ----- traces are kept -----

  lemma {:induction false} ConvertInsTrace(parts: seq<RequestPart>, includeAudio: bool, key: Key)
    ensures AnswersIn(ConvertIns(parts, includeAudio), key) == AnswersIn(parts, key)
  {
    if parts != [] {
      var front, last := parts[..|parts| - 1], parts[|parts| - 1];
      ConvertInsTrace(front, includeAudio, key);
      assert parts == front + [last];
      AnswersJoin(front, [last], key);
      AnswersJoin(ConvertIns(front, includeAudio), ConvertIn(last, includeAudio), key);
      OneConverted(last, includeAudio, key);
    }
  }

  lemma OneConverted(part: RequestPart, includeAudio: bool, key: Key)
    ensures AnswersIn(ConvertIn(part, includeAudio), key) == AnswersIn([part], key)
  {
    if part.SpeechIn? { assert AnswersIn([part], key) == []; }
  }

  lemma {:induction false} ConvertOutsCalls(outs: seq<ResponsePart>, at: int)
    ensures Calls(ConvertOuts(outs, at)) == Calls(outs)
  {
    if outs != [] {
      var front, last := outs[..|outs| - 1], outs[|outs| - 1];
      ConvertOutsCalls(front, at);
      assert outs == front + [last];
      CallsConcat(front, [last]);
      var own := ConvertOut(last, |outs| - 1 == at);
      CallsConcat(ConvertOuts(front, at), own);
      OneOutConverted(last, |outs| - 1 == at);
    }
  }

  lemma OneOutConverted(part: ResponsePart, interrupted: bool)
    ensures Calls(ConvertOut(part, interrupted)) == Calls([part])
  {
    hide SpokenText;
    if part.SpeechOut? { assert Calls([part]) == []; }
  }

  lemma {:induction false} ConvertMessageTrace(message: Message, includeAudio: bool, key: Key)
    ensures Trace(ConvertMessage(message, includeAudio), key) == MessageTrace(message, key)
  {
    hide AnswersIn, Calls, ConvertIns, ConvertOuts;
    if message.Request? {
      ConvertInsTrace(message.parts, includeAudio, key);
    } else {
      var at := if message.state == "interrupted" then LastSpeech(message.outs) else -1;
      ConvertOutsCalls(message.outs, at);
    }
    EmptyTraces(key);
    if ConvertMessage(message, includeAudio) != [] { TraceOne(ConvertMessage(message, includeAudio)[0], key); }
  }

  lemma EmptyTraces(key: Key)
    ensures AnswersIn([], key) == [] && Calls([]) == [] && CallsWith([], key) == []
  {}

  lemma {:induction false} ConvertKeepsTraces(messages: seq<Message>, includeAudio: bool, key: Key)
    ensures Trace(ConvertAll(messages, includeAudio), key) == Trace(messages, key)
  {
    hide Trace, ConvertMessage;
    if messages == [] {
    } else {
      var front, last := messages[..|messages| - 1], messages[|messages| - 1];
      ConvertKeepsTraces(front, includeAudio, key);
      ConvertMessageTrace(last, includeAudio, key);
      assert messages == front + [last];
      TraceJoin(front, [last], key);
      TraceOne(last, key);
      TraceJoin(ConvertAll(front, includeAudio), ConvertMessage(last, includeAudio), key);
    }
  }

  lemma {:induction false} UnscopedTrace(parts: seq<RequestPart>, key: Key)
    ensures AnswersIn(Unscoped(parts), key) == AnswersIn(parts, key) && AnswersIn(ScopedOf(parts), key) == []
  {
    hide AnswersIn;
    EmptyTraces(key);
    if parts != [] {
      var front, last := parts[..|parts| - 1], parts[|parts| - 1];
      UnscopedTrace(front, key);
      assert parts == front + [last];
      AnswersJoin(front, [last], key);
      AnswersJoin(Unscoped(front), [last], key);
      AnswersJoin(ScopedOf(front), [last], key);
      assert Unscoped(front) + [] == Unscoped(front) && ScopedOf(front) + [] == ScopedOf(front);
      if IsScoped(last) { ScopedSilent(last, key); }
    }
  }

  lemma ScopedSilent(part: RequestPart, key: Key)
    requires !IsResult(part)
    ensures AnswersIn([part], key) == []
  {}

  lemma {:induction false} CurrentScopedSilent(messages: seq<Message>, k: nat, key: Key)
    requires k <= |messages|
    ensures AnswersIn(CurrentScoped(messages, k), key) == []
  {
    hide AnswersIn;
    EmptyTraces(key);
    if k > 0 {
      CurrentScopedSilent(messages, k - 1, key);
      var start := CurrentStart(messages, LastRequestEnd(messages));
      if k - 1 >= start && messages[k - 1].Request? {
        UnscopedTrace(messages[k - 1].parts, key);
        AnswersJoin(CurrentScoped(messages, k - 1), ScopedOf(messages[k - 1].parts), key);
      } else {
        assert CurrentScoped(messages, k) == CurrentScoped(messages, k - 1);
      }
    }
  }

  lemma {:induction false} ScopeKeepsTraces(messages: seq<Message>, k: nat, key: Key)
    requires k <= |messages|
    ensures Trace(ScopeFirst(messages, k), key) == Trace(messages[..k], key)
  {
    hide Trace, AnswersIn, Unscoped, CurrentScoped, LastRequestEnd, CurrentStart;
    if k > 0 {
      ScopeKeepsTraces(messages, k - 1, key);
      assert messages[..k] == messages[..k - 1] + [messages[k - 1]];
      TraceJoin(messages[..k - 1], [messages[k - 1]], key);
      TraceOne(messages[k - 1], key);
      var own := ScopeOne(messages, k - 1, CurrentScoped(messages, k));
      TraceJoin(ScopeFirst(messages, k - 1), own, key);
      if own != [] { TraceOne(own[0], key); }
      TraceOne(messages[k - 1], key);
      if messages[k - 1].Request? {
        UnscopedTrace(messages[k - 1].parts, key);
        CurrentScopedSilent(messages, k, key);
        AnswersJoin(Unscoped(messages[k - 1].parts), CurrentScoped(messages, k), key);
        EmptyTraces(key);
        assert Unscoped(messages[k - 1].parts) + [] == Unscoped(messages[k - 1].parts);
      }
    } else {
      assert messages[..0] == [];
    }
  }
}
