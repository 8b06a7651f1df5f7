/** Normalized stream events and the consumer's side of them: deltas applied to parts. */
module StreamEvents {
  import opened Options

  type Details = map<string, string>

  datatype Speech = Speech(speaker: string, transcript: Option<string>, audio: Option<string>, rest: string)

  datatype Part =
    | TextPart(text: string, textId: string, textProvider: string, textDetails: Details)
    | ThinkingPart(thought: string, thoughtId: string, signature: string, thoughtProvider: string,
                   thoughtDetails: Details)
    | CompactionPart(summary: string, summaryId: string, summaryProvider: string, summaryDetails: Details)
    | SpeechPart(speech: Speech)
    | CallPart(native: bool, name: string, args: string, callId: string, toolKind: string,
               partId: string, callProvider: string, callDetails: Details)
    | FilePart(file: string)
    | NativeReturnPart(returned: string)

  datatype Kind = Text | Thinking | Compaction | SpeechKind | ToolCall | NativeToolCall | File | NativeReturn

  function KindOf(part: Part): Kind {
    match part
    case TextPart(_, _, _, _) => Text
    case ThinkingPart(_, _, _, _, _) => Thinking
    case CompactionPart(_, _, _, _) => Compaction
    case SpeechPart(_) => SpeechKind
    case CallPart(native, _, _, _, _, _, _, _) => if native then NativeToolCall else ToolCall
    case FilePart(_) => File
    case NativeReturnPart(_) => NativeReturn
  }

  datatype Delta =
    | TextDelta(content: string, provider: string, details: Details)
    | ThinkingDelta(content: string, signature: string, provider: string, details: Details)
    | SpeechDelta(speaker: string, transcriptDelta: string, transcript: Option<string>, audioChunk: string)
    | CallDelta(native: bool, nameDelta: string, args: string, callId: string, provider: string)
    | FileDelta(payload: string)

  function ApplySpeech(speech: Speech, delta: Delta): Speech
    requires delta.SpeechDelta?
  {
    var transcript :=
      if delta.transcript.Some? then delta.transcript
      else if delta.transcriptDelta != "" then
        Some((if speech.transcript.Some? then speech.transcript.value else "") + delta.transcriptDelta)
      else speech.transcript;
    var audio := if speech.audio.Some? then Some(speech.audio.value + delta.audioChunk) else None;
    speech.(transcript := transcript, audio := audio)
  }

  /** Each delta applies to its own kind of part; a call's non-empty ID never changes. */
  function Apply(delta: Delta, part: Part): Option<Part> {
    match delta
    case TextDelta(content, provider, details) =>
      if part.TextPart? then
        Some(part.(text := part.text + content, textProvider := Either(provider, part.textProvider),
                   textDetails := part.textDetails + details))
      else None
    case ThinkingDelta(content, signature, provider, details) =>
      if part.ThinkingPart? then
        Some(part.(thought := part.thought + content, signature := Either(signature, part.signature),
                   thoughtProvider := Either(provider, part.thoughtProvider),
                   thoughtDetails := part.thoughtDetails + details))
      else None
    case SpeechDelta(_, _, _, _) =>
      if part.SpeechPart? then Some(SpeechPart(ApplySpeech(part.speech, delta))) else None
    case CallDelta(native, nameDelta, args, callId, provider) =>
      if !part.CallPart? || part.native != native then None
      else if callId != "" && part.callId != "" && callId != part.callId then None
      else Some(part.(name := part.name + nameDelta, args := part.args + args,
                      callId := Either(callId, part.callId),
                      callProvider := Either(provider, part.callProvider)))
    case FileDelta(payload) =>
      if part.FilePart? then Some(FilePart(payload)) else None
  }

  /** Response metadata. The framework's own entry holds the marker by which a response replaces the one
      before it; a namespace may carry other entries besides. */
  datatype Namespace = Namespace(replacePrevious: Option<bool>, others: Details)
  datatype Metadata = Metadata(namespace: Option<Namespace>, plain: Details)

  /** Response fields other than the parts. An empty state has not been set. */
  datatype Fields = Fields(modelName: string, providerName: string, providerResponseId: string, state: string,
                           usage: int, attempts: seq<string>, providerDetails: Details, metadata: Metadata,
                            rest: string)

  const NO_FIELDS := Fields("", "", "", "", 0, [], map[], Metadata(None, map[]), "")

  datatype StreamEvent =
    | PartStart(index: nat, partId: string, part: Part, previous: Option<Kind>)
    | PartDelta(index: nat, partId: string, delta: Delta)
    | PartEnd(index: nat, partId: string, part: Part, next: Option<Kind>)
    | FinalResult(toolName: string, toolCallId: string)
    | Finish(fields: Fields)

  /** What makes a part the run's output: free text, or a call of the output tool. */
  datatype OutputRule = OutputRule(allowText: bool, outputTool: Option<string>)

  function Announcement(rule: OutputRule, part: Part): Option<StreamEvent> {
    match part
    case TextPart(_, _, _, _) => if rule.allowText then Some(FinalResult("", "")) else None
    case SpeechPart(speech) =>
      if rule.allowText && speech.transcript.Some? && speech.transcript.value != "" then Some(FinalResult("", ""))
      else None
    case CallPart(native, name, _, callId, _, _, _, _) =>
      if !native && rule.outputTool == Some(name) then Some(FinalResult(name, callId)) else None
    case _ => None
  }

  // ----- the consumer -----

  /** Text and thinking deltas do not carry the provider's part ID, so a consumer may miss a later one. */
  predicate SameButId(a: Part, b: Part) {
    if a.TextPart? && b.TextPart? then a.(textId := "") == b.(textId := "")
    else if a.ThinkingPart? && b.ThinkingPart? then a.(thoughtId := "") == b.(thoughtId := "")
    else a == b
  }

  predicate Mirrors(view: seq<Part>, parts: seq<Part>) {
    |view| == |parts| && forall i :: 0 <= i < |view| ==> SameButId(view[i], parts[i])
  }

  /** A consumer that folds events and checks the lifecycle: `ended` holds the kind announced by the
      last part's end, `due` the final-result event that must come next. */
  datatype Consumer = Consumer(view: seq<Part>, ended: Option<Option<Kind>>, due: Option<StreamEvent>,
                               announced: bool, finished: bool)

  const NEW_CONSUMER := Consumer([], None, None, false, false)

  function LastKind(view: seq<Part>): Option<Kind> {
    if view == [] then None else Some(KindOf(view[|view| - 1]))
  }

  /** None when the event breaks the lifecycle: starts are numbered in order and directly follow the
      end of the part before, deltas apply to started parts, an end repeats the accumulated part, the
      first matching part is announced at once and nothing else is, and finishing ends everything. */
  function Consume(rule: OutputRule, consumer: Consumer, event: StreamEvent): Option<Consumer> {
    if consumer.finished || (consumer.due.Some? && consumer.due != Some(event)) then None
    else match event
      case PartStart(index, _, part, previous) =>
        if index != |consumer.view| || previous != LastKind(consumer.view) then None
        else if consumer.ended != (if index == 0 then None else Some(Some(KindOf(part)))) then None
        else
          var due := if consumer.announced then None else Announcement(rule, part);
          Some(consumer.(view := consumer.view + [part], ended := None, due := due))
      case PartDelta(index, _, delta) =>
        if index >= |consumer.view| || consumer.ended.Some? then None
        else
          var part := Apply(delta, consumer.view[index]);
          if part.None? then None else Some(consumer.(view := consumer.view[index := part.value]))
      case PartEnd(index, _, part, next) =>
        if index + 1 != |consumer.view| || consumer.ended.Some? || !SameButId(consumer.view[index], part) then None
        else Some(consumer.(ended := Some(next)))
      case FinalResult(_, _) =>
        if consumer.due != Some(event) then None else Some(consumer.(due := None, announced := true))
      case Finish(_) =>
        if consumer.ended != (if consumer.view == [] then None else Some(None)) then None
        else Some(consumer.(finished := true))
  }

  function Watch(rule: OutputRule, events: seq<StreamEvent>): Option<Consumer> {
    if events == [] then Some(NEW_CONSUMER)
    else
      var before := Watch(rule, events[..|events| - 1]);
      if before.None? then None else Consume(rule, before.value, events[|events| - 1])
  }

  lemma WatchAppend(rule: OutputRule, events: seq<StreamEvent>, event: StreamEvent)
    ensures Watch(rule, events + [event])
         == if Watch(rule, events).None? then None else Consume(rule, Watch(rule, events).value, event)
  {
    assert (events + [event])[..|events|] == events;
  }
}
