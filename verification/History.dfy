/** Message history shared by the repair passes and by wire preparation: requests and
    responses, the tool calls a response makes, and the tool results a request carries. */
module History {

  datatype ToolCall = ToolCall(name: string, id: string, kind: string, payload: string)

  datatype ResponsePart =
    | CallPart(call: ToolCall)
    | NativeCallPart(callId: string, nativePayload: string)
    | NativeReturnPart(callId: string, nativePayload: string)
    | SpeechOut(assistant: bool, transcript: string, interruptedAtMs: int)  // a negative time stands for nil
    | TextOut(text: string)
    | OtherOut(payload: string)

  datatype RequestPart =
    | ToolReturn(name: string, id: string, kind: string, content: string, synthesized: bool)
    | RetryPrompt(name: string, id: string, content: string)
    | SystemPrompt(requestScoped: bool, content: string)
    | AvailabilityDelta(toolsAdded: seq<string>, id: string)
    | SpeechIn(fromUser: bool, transcript: string, audio: string)  // an empty audio stands for nil
    | UserPrompt(content: string)

  /** Request fields and response fields that no pass inspects travel in `rest`. */
  datatype Message =
    | Request(parts: seq<RequestPart>, instructions: string, timestamp: int, runId: string,
              conversationId: string, metadata: map<string, string>, state: string)
    | Response(outs: seq<ResponsePart>, modelName: string, providerName: string, providerResponseId: string,
               timestamp: int, runId: string, conversationId: string, state: string, rest: string)

  /** The key calls and results are matched on: the call ID, or the tool name when there is no ID. */
  datatype Key = ById(id: string) | ByName(name: string)

  function MatchKey(name: string, id: string): Key {
    if id != "" then ById(id) else ByName(name)
  }

  function CallKey(call: ToolCall): Key { MatchKey(call.name, call.id) }

  /** A retry prompt without a tool name is a prompt to the model, not a tool result. */
  predicate IsResult(part: RequestPart) {
    part.ToolReturn? || (part.RetryPrompt? && part.name != "")
  }

  function ResultKey(part: RequestPart): Key
    requires IsResult(part)
  {
    MatchKey(part.name, part.id)
  }

  predicate AnswersKey(part: RequestPart, key: Key) {
    IsResult(part) && ResultKey(part) == key
  }

  function Calls(outs: seq<ResponsePart>): (calls: seq<ToolCall>) {
    if outs == [] then [] else (if outs[0].CallPart? then [outs[0].call] else []) + Calls(outs[1..])
  }

  function CountCalls(calls: seq<ToolCall>, key: Key): nat {
    if calls == [] then 0 else (if CallKey(calls[0]) == key then 1 else 0) + CountCalls(calls[1..], key)
  }

  /** The calls with one key, in order. */
  function CallsWith(calls: seq<ToolCall>, key: Key): seq<ToolCall> {
    if calls == [] then []
    else (if CallKey(calls[0]) == key then [calls[0]] else []) + CallsWith(calls[1..], key)
  }

  function CountResults(parts: seq<RequestPart>, key: Key): nat {
    if parts == [] then 0 else (if AnswersKey(parts[0], key) then 1 else 0) + CountResults(parts[1..], key)
  }

  function MessageCalls(message: Message): seq<ToolCall> {
    if message.Response? then Calls(message.outs) else []
  }

  function MessageResults(message: Message, key: Key): nat {
    if message.Request? then CountResults(message.parts, key) else 0
  }

  predicate CallsKey(message: Message, key: Key) { CountCalls(MessageCalls(message), key) > 0 }

  lemma CallsConcat(a: seq<ResponsePart>, b: seq<ResponsePart>)
    ensures Calls(a + b) == Calls(a) + Calls(b)
  {
    if a == [] {
      assert a + b == b;
    } else {
      assert (a + b)[1..] == a[1..] + b;
    }
  }

  lemma CountCallsConcat(a: seq<ToolCall>, b: seq<ToolCall>, key: Key)
    ensures CountCalls(a + b, key) == CountCalls(a, key) + CountCalls(b, key)
  {
    if a == [] {
      assert a + b == b;
    } else {
      assert (a + b)[1..] == a[1..] + b;
    }
  }

  lemma {:induction false} CallsWithCount(calls: seq<ToolCall>, key: Key)
    ensures |CallsWith(calls, key)| == CountCalls(calls, key)
  {
    if calls != [] { CallsWithCount(calls[1..], key); }
  }

  lemma CountResultsConcat(a: seq<RequestPart>, b: seq<RequestPart>, key: Key)
    ensures CountResults(a + b, key) == CountResults(a, key) + CountResults(b, key)
  {
    if a == [] {
      assert a + b == b;
    } else {
      assert (a + b)[1..] == a[1..] + b;
    }
  }

  lemma CountCallsMember(calls: seq<ToolCall>, key: Key)
    ensures CountCalls(calls, key) > 0 <==> exists c :: c in calls && CallKey(c) == key
  {
    if calls != [] {
      CountCallsMember(calls[1..], key);
      assert calls == [calls[0]] + calls[1..];
    }
  }
}
