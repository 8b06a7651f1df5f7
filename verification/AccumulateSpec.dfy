/** What accumulating a provider stream computes: how each event finds its part, starts or updates
    it, and which lifecycle events the consumer is sent. */
module AccumulateSpec {
  import opened Options
  import opened StreamEvents

  datatype ModelEvent =
    | MetadataEvent(fields: Fields)
    | TextEvent(part: string, text: string, id: string, provider: string, details: Details)
    | ThinkingEvent(part: string, text: string, id: string, signature: string, provider: string, details: Details)
    | SpeechEvent(part: string, seed: Speech, speaker: string, transcriptDelta: string,
                  transcript: Option<string>, audioChunk: string)
    | CompactionEvent(part: string, text: string, id: string, provider: string, details: Details)
    | CallStartEvent(part: string, name: string, callId: string, toolKind: string, id: string,
                     provider: string, details: Details, native: bool)
    | CallDeltaEvent(part: string, callId: string, args: string)
    | FileEvent(part: string, payload: string, replace: bool)
    | NativeReturnEvent(part: string, payload: string)
    | FinishEvent(snapshot: Option<seq<Part>>, fields: Fields)
    | StreamError

  predicate IsPartEvent(event: ModelEvent) {
    !event.MetadataEvent? && !event.FinishEvent? && !event.StreamError?
  }

  /** An accumulated part. Its index is its position. */
  datatype AccPart = AccPart(key: string, kind: Kind, text: string, responseId: string, signature: string,
                             toolName: string, toolCallId: string, toolKind: string, toolArgs: string,
                             provider: string, details: Details, speech: Speech, complete: Option<Part>)

  const NO_SPEECH := Speech("", None, None, "")

  function Blank(key: string, kind: Kind): AccPart {
    AccPart(key, kind, "", "", "", "", "", "", "", "", map[], NO_SPEECH, None)
  }

  /** The response part an accumulated part stands for. */
  function Render(part: AccPart): Part {
    if part.complete.Some? then part.complete.value
    else match part.kind
      case SpeechKind => SpeechPart(part.speech)
      case Text => TextPart(part.text, part.responseId, part.provider, part.details)
      case Thinking => ThinkingPart(part.text, part.responseId, part.signature, part.provider, part.details)
      case Compaction => CompactionPart(part.text, part.responseId, part.provider, part.details)
      case _ => CallPart(part.kind == NativeToolCall, part.toolName, part.toolArgs, part.toolCallId, part.toolKind,
                         part.responseId, part.provider, part.details)
  }

  /** Files and native returns are stored whole; every other kind is rendered from its fields. */
  predicate PartOk(part: AccPart) {
    match part.kind
    case File => part.complete.Some? && part.complete.value.FilePart?
    case NativeReturn => part.complete.Some? && part.complete.value.NativeReturnPart?
    case Text => part.complete.None? && part.signature == ""
    case _ => part.complete.None?
  }

  function EventKind(event: ModelEvent): Kind
    requires IsPartEvent(event)
  {
    match event
    case TextEvent(_, _, _, _, _) => Text
    case ThinkingEvent(_, _, _, _, _, _) => Thinking
    case SpeechEvent(_, _, _, _, _, _) => SpeechKind
    case CompactionEvent(_, _, _, _, _) => Compaction
    case CallStartEvent(_, _, _, _, _, _, _, native) => if native then NativeToolCall else ToolCall
    case CallDeltaEvent(_, _, _) => ToolCall
    case FileEvent(_, _, _) => File
    case NativeReturnEvent(_, _) => NativeReturn
  }

  predicate IsCallKind(kind: Kind) { kind == ToolCall || kind == NativeToolCall }

  function SpeechDeltaOf(event: ModelEvent): Delta
    requires event.SpeechEvent?
  {
    SpeechDelta(event.speaker, event.transcriptDelta, event.transcript, event.audioChunk)
  }

  /** The part an event starts. Call arguments cannot come before the call. */
  function StartedBy(event: ModelEvent): Option<AccPart>
    requires IsPartEvent(event)
  {
    var blank := Blank(event.part, EventKind(event));
    match event
    case TextEvent(_, text, id, provider, details) =>
      Some(blank.(text := text, responseId := id, provider := provider, details := details))
    case ThinkingEvent(_, text, id, signature, provider, details) =>
      Some(blank.(text := text, responseId := id, signature := signature, provider := provider, details := details))
    case SpeechEvent(_, seed, speaker, _, _, _) =>
      Some(blank.(speech := ApplySpeech(seed.(speaker := Either(seed.speaker, speaker)), SpeechDeltaOf(event))))
    case CompactionEvent(_, text, id, provider, details) =>
      Some(blank.(text := text, responseId := id, provider := provider, details := details))
    case CallStartEvent(_, name, callId, toolKind, id, provider, details, _) =>
      Some(blank.(toolName := name, toolCallId := callId, toolKind := toolKind, responseId := id,
                  provider := provider, details := details))
    case CallDeltaEvent(_, _, _) => None
    case FileEvent(_, payload, _) => Some(blank.(complete := Some(FilePart(payload))))
    case NativeReturnEvent(_, payload) => Some(blank.(complete := Some(NativeReturnPart(payload))))
  }

  /** An update of a part already started, and the delta that tells the consumer. */
  function UpdatedBy(part: AccPart, event: ModelEvent): Option<(AccPart, Delta)>
    requires IsPartEvent(event)
  {
    match event
    case TextEvent(_, text, id, provider, details) =>
      if part.kind != Text then None
      else Some((part.(text := part.text + text, responseId := Either(id, part.responseId),
                       provider := Either(provider, part.provider), details := part.details + details),
                 TextDelta(text, provider, details)))
    case ThinkingEvent(_, text, id, signature, provider, details) =>
      if part.kind != Thinking then None
      else Some((part.(text := part.text + text, responseId := Either(id, part.responseId),
                       signature := Either(signature, part.signature),
                       provider := Either(provider, part.provider), details := part.details + details),
                 ThinkingDelta(text, signature, provider, details)))
    case SpeechEvent(_, _, _, _, _, _) =>
      if part.kind != SpeechKind then None
      else Some((part.(speech := ApplySpeech(part.speech, SpeechDeltaOf(event))), SpeechDeltaOf(event)))
    case CallDeltaEvent(_, callId, args) =>
      if !IsCallKind(part.kind) then None
      else if callId != "" && part.toolCallId != "" && callId != part.toolCallId then None
      else Some((part.(toolCallId := Either(callId, part.toolCallId), toolArgs := part.toolArgs + args),
                 CallDelta(part.kind == NativeToolCall, "", args, callId, "")))
    case FileEvent(_, payload, replace) =>
      if part.kind != File || !replace then None
      else Some((part.(complete := Some(FilePart(payload))), FileDelta(payload)))
    case _ => None
  }

  /** Parts in order of first appearance, parts by key, and the part last touched. */
  datatype Core = Core(parts: seq<AccPart>, byKey: map<string, nat>, current: Option<nat>)

  const NO_PARTS := Core([], map[], None)

  predicate InRange(core: Core) {
    && (core.current.Some? ==> core.current.value < |core.parts|)
    && (forall key :: key in core.byKey ==> core.byKey[key] < |core.parts|)
  }

  /** An event with a key belongs to the part with that key. Without one, text, thinking, speech and
      call arguments continue the current part if its kind fits; anything else starts a part. */
  function Target(core: Core, event: ModelEvent): (target: Option<nat>)
    requires IsPartEvent(event) && InRange(core)
    ensures target.Some? ==> target.value < |core.parts|
  {
    if event.part != "" then
      if event.part in core.byKey then Some(core.byKey[event.part]) else None
    else if core.current.Some?
            && (event.TextEvent? || event.ThinkingEvent? || event.SpeechEvent? || event.CallDeltaEvent?)
            && (core.parts[core.current.value].kind == EventKind(event)
                || (event.CallDeltaEvent? && IsCallKind(core.parts[core.current.value].kind))) then core.current
    else None
  }

  datatype Change = Started(index: nat) | Updated(index: nat, delta: Delta)

  /** None when the provider broke its own stream. */
  function Advance(core: Core, event: ModelEvent): (r: Option<(Core, Change)>)
    requires IsPartEvent(event) && InRange(core)
    ensures r.Some? ==> InRange(r.value.0) && r.value.1.index < |r.value.0.parts| && |core.parts| <= |r.value.0.parts|
  {
    var target := Target(core, event);
    if target.None? then
      var part := StartedBy(event);
      if part.None? then None
      else
        var index := |core.parts|;
        var byKey := if event.part != "" then core.byKey[event.part := index] else core.byKey;
        Some((Core(core.parts + [part.value], byKey, Some(index)), Started(index)))
    else
      var index := target.value;
      var update := UpdatedBy(core.parts[index], event);
      if update.None? then None
      else
        Some((Core(core.parts[index := update.value.0], core.byKey, Some(index)), Updated(index, update.value.1)))
  }

  // ----- emission -----

  datatype Acc = Acc(core: Core, lastStarted: Option<nat>, finalSent: bool, emitted: seq<StreamEvent>, fields: Fields)

  const EMPTY := Acc(NO_PARTS, None, false, [], NO_FIELDS)

  predicate AccOk(acc: Acc) {
    InRange(acc.core) && (acc.lastStarted.Some? ==> acc.lastStarted.value < |acc.core.parts|)
  }

  /** The consumer accepts its first `accepts` events and refuses the one after. */
  datatype Setting = Setting(rule: OutputRule, accepts: nat)

  function Emit(acc: Acc, event: StreamEvent, setting: Setting): (Acc, bool) {
    (acc.(emitted := acc.emitted + [event]), |acc.emitted| < setting.accepts)
  }

  function EndLast(acc: Acc, next: Option<Kind>, setting: Setting): (r: (Acc, bool))
    requires AccOk(acc)
    ensures r.0 == acc.(emitted := r.0.emitted)
  {
    if acc.lastStarted.None? then (acc, true)
    else
      var part := acc.core.parts[acc.lastStarted.value];
      Emit(acc, PartEnd(acc.lastStarted.value, part.key, Render(part), next), setting)
  }

  function StartPart(acc: Acc, index: nat, setting: Setting): (r: (Acc, bool))
    requires AccOk(acc) && index < |acc.core.parts|
    ensures AccOk(r.0)
  {
    var part := acc.core.parts[index];
    var (ended, more) := EndLast(acc, Some(part.kind), setting);
    if !more then (ended, false)
    else
      var previous := if acc.lastStarted.Some? then Some(acc.core.parts[acc.lastStarted.value].kind) else None;
      var (started, more) := Emit(ended.(lastStarted := Some(index)),
                                  PartStart(index, part.key, Render(part), previous), setting);
      var announcement := Announcement(setting.rule, Render(part));
      if !more || started.finalSent || announcement.None? then (started, more)
      else Emit(started.(finalSent := true), announcement.value, setting)
  }

  function Announce(acc: Acc, change: Change, setting: Setting): (r: (Acc, bool))
    requires AccOk(acc) && change.index < |acc.core.parts|
    ensures AccOk(r.0)
  {
    match change
    case Started(index) => StartPart(acc, index, setting)
    case Updated(index, delta) => Emit(acc, PartDelta(index, acc.core.parts[index].key, delta), setting)
  }

  /** How a run ends: the provider broke its stream, the stream failed or ran dry, the consumer refused
      an event, it refused the finish event itself, or the response is complete. */
  datatype Status = Running | Rejected | Failed | Cancelled | FinishRefused | Finished

  function Step(acc: Acc, event: ModelEvent, setting: Setting): (r: (Acc, Status))
    requires AccOk(acc)
    ensures AccOk(r.0)
  {
    match event
    case StreamError => (acc, Failed)
    case MetadataEvent(fields) => (acc.(fields := fields), Running)
    case FinishEvent(_, fields) =>
      var (ended, more) := EndLast(acc, None, setting);
      if !more then (ended, Cancelled)
      else
        var (finished, more) := Emit(ended.(fields := fields), Finish(fields), setting);
        (finished, if more then Finished else FinishRefused)
    case _ =>
      var advance := Advance(acc.core, event);
      if advance.None? then (acc, Rejected)
      else
        var (after, more) := Announce(acc.(core := advance.value.0), advance.value.1, setting);
        (after, if more then Running else Cancelled)
  }

  /** The state after the events, reading no further than the one that ends the run. */
  function Run(events: seq<ModelEvent>, setting: Setting): (r: (Acc, Status))
    ensures AccOk(r.0)
  {
    if events == [] then (EMPTY, Running)
    else
      var (acc, status) := Run(events[..|events| - 1], setting);
      if status != Running then (acc, status) else Step(acc, events[|events| - 1], setting)
  }

  // ----- the response -----

  /** Text and thinking that carry nothing at all are left out of the response. */
  predicate Kept(part: AccPart) {
    (part.kind == Text || part.kind == Thinking) ==>
      part.text != "" || part.responseId != "" || part.signature != "" || part.provider != "" || part.details != map[]
  }

  function Materialize(parts: seq<AccPart>): seq<Part> {
    if parts == [] then []
    else
      var last := parts[|parts| - 1];
      Materialize(parts[..|parts| - 1]) + if Kept(last) then [Render(last)] else []
  }

  datatype ModelResponse = ModelResponse(parts: seq<Part>, fields: Fields)

  /** What survives an unfinished stream, marked incomplete; nothing if nothing arrived. */
  function Partial(acc: Acc): Option<ModelResponse> {
    var parts := Materialize(acc.core.parts);
    var fields := acc.fields;
    if parts == [] && fields.providerResponseId == "" && fields.providerName == "" && fields.modelName == ""
       && fields.state == "" && fields.usage == 0 then None
    else Some(ModelResponse(parts, fields.(state := Either(fields.state, "incomplete"))))
  }

  /** A finish event may carry an authoritative snapshot of the parts. */
  function Complete(acc: Acc, finish: ModelEvent): ModelResponse
    requires finish.FinishEvent?
  {
    ModelResponse(if finish.snapshot.Some? then finish.snapshot.value else Materialize(acc.core.parts), finish.fields)
  }

  /** What a run hands back: nothing once the provider broke its stream, the complete response once it
      finished, even if the consumer refused the finish event, and otherwise what survives. */
  function Response(events: seq<ModelEvent>, setting: Setting): Option<ModelResponse> {
    var (acc, status) := Run(events, setting);
    match status
    case Rejected => None
    case Running | Failed | Cancelled => Partial(acc)
    case Finished | FinishRefused =>
      if events == [] || Run(events[..|events| - 1], setting).1 != Running then
        if events == [] then None else Response(events[..|events| - 1], setting)
      else if events[|events| - 1].FinishEvent? then Some(Complete(acc, events[|events| - 1]))
      else None
  }

  function RenderAll(parts: seq<AccPart>): (all: seq<Part>)
    ensures |all| == |parts| && forall i :: 0 <= i < |parts| ==> all[i] == Render(parts[i])
  {
    if parts == [] then [] else RenderAll(parts[..|parts| - 1]) + [Render(parts[|parts| - 1])]
  }
}
