/** What each part of an accumulated stream holds, from the events that belong to it, and which events those
    are, without the functions that find, start and update parts. */
module StreamContents {
  import opened Options
  import opened StreamEvents
  import opened AccumulateSpec
  import opened AccumulateProofs
  import opened Pieces

  // ----- what an event brings -----

  function TextIn(event: ModelEvent): string {
    match event
    case TextEvent(_, text, _, _, _) => text
    case ThinkingEvent(_, text, _, _, _, _) => text
    case CompactionEvent(_, text, _, _, _) => text
    case _ => ""
  }

  function IdIn(event: ModelEvent): string {
    match event
    case TextEvent(_, _, id, _, _) => id
    case ThinkingEvent(_, _, id, _, _, _) => id
    case CompactionEvent(_, _, id, _, _) => id
    case CallStartEvent(_, _, _, _, id, _, _, _) => id
    case _ => ""
  }

  function ProviderIn(event: ModelEvent): string {
    match event
    case TextEvent(_, _, _, provider, _) => provider
    case ThinkingEvent(_, _, _, _, provider, _) => provider
    case CompactionEvent(_, _, _, provider, _) => provider
    case CallStartEvent(_, _, _, _, _, provider, _, _) => provider
    case _ => ""
  }

  function DetailsIn(event: ModelEvent): Details {
    match event
    case TextEvent(_, _, _, _, details) => details
    case ThinkingEvent(_, _, _, _, _, details) => details
    case CompactionEvent(_, _, _, _, details) => details
    case CallStartEvent(_, _, _, _, _, _, details, _) => details
    case _ => map[]
  }

  function DetailIn(key: string): ModelEvent -> Option<string> { (event: ModelEvent) => Entry(DetailsIn(event), key) }

  function SignatureIn(event: ModelEvent): string { if event.ThinkingEvent? then event.signature else "" }

  function ArgsIn(event: ModelEvent): string { if event.CallDeltaEvent? then event.args else "" }

  function CallIdIn(event: ModelEvent): string {
    match event
    case CallStartEvent(_, _, callId, _, _, _, _, _) => callId
    case CallDeltaEvent(_, callId, _) => callId
    case _ => ""
  }

  function NameIn(event: ModelEvent): (string, string) {
    if event.CallStartEvent? then (event.name, event.toolKind) else ("", "")
  }

  function WholeIn(event: ModelEvent): Option<string> { if event.SpeechEvent? then event.transcript else None }

  function SpokenIn(event: ModelEvent): string { if event.SpeechEvent? then event.transcriptDelta else "" }

  function AudioIn(event: ModelEvent): string { if event.SpeechEvent? then event.audioChunk else "" }

  // ----- what a part is made from -----

  /** Text is joined; of IDs, providers and details the last given counts. */
  ghost predicate Worded(sources: seq<ModelEvent>, part: AccPart) {
    && part.text == Flat(Each(sources, TextIn))
    && LastSet(Each(sources, IdIn), "", part.responseId)
    && LastSet(Each(sources, ProviderIn), "", part.provider)
    && LastSet(Each(sources, SignatureIn), "", part.signature)
    && forall key :: LastSet(Each(sources, DetailIn(key)), None, Entry(part.details, key))
  }

  /** A call has the name it started with, one ID at most, and its arguments joined. */
  ghost predicate Called(sources: seq<ModelEvent>, part: AccPart)
    requires sources != []
  {
    && (part.toolName, part.toolKind) == NameIn(sources[0])
    && part.toolArgs == Flat(Each(sources, ArgsIn))
    && part.toolCallId in Each(sources, CallIdIn)
    && forall id :: id in Each(sources, CallIdIn) ==> id == "" || id == part.toolCallId
  }

  /** Since the first `m` events no whole transcript came; the last of those brought one, if there are any. */
  ghost predicate WholeUntil(sources: seq<ModelEvent>, m: nat) {
    && m <= |sources| && (m > 0 ==> WholeIn(sources[m - 1]).Some?)
    && forall j :: m <= j < |sources| ==> WholeIn(sources[j]).None?
  }

  function Appended(whole: Option<string>, added: string): Option<string> {
    if whole.Some? then Some(whole.value + added) else if added == "" then None else Some(added)
  }

  /** The transcript is the last whole one, or the one the speech came with, and what was added since. */
  ghost predicate Transcribed(sources: seq<ModelEvent>, seed: Option<string>, transcript: Option<string>, m: nat) {
    && WholeUntil(sources, m)
    && transcript == Appended(if m > 0 then WholeIn(sources[m - 1]) else seed, Flat(Each(sources[m..], SpokenIn)))
  }

  ghost predicate Spoken(sources: seq<ModelEvent>, speech: Speech)
    requires sources != [] && sources[0].SpeechEvent?
  {
    var seed := sources[0].seed;
    && (exists m: nat :: Transcribed(sources, seed.transcript, speech.transcript, m))
    && speech.rest == seed.rest
    && speech.speaker == (if seed.speaker != "" then seed.speaker else sources[0].speaker)
    && speech.audio == if seed.audio.Some? then Some(seed.audio.value + Flat(Each(sources, AudioIn))) else None
  }

  /** A part is made from events of its kind, a call from its arguments besides; only a file that says so
      replaces another; compactions and native returns come whole. */
  predicate Fit(first: ModelEvent, later: ModelEvent) {
    match first
    case TextEvent(_, _, _, _, _) => later.TextEvent?
    case ThinkingEvent(_, _, _, _, _, _) => later.ThinkingEvent?
    case SpeechEvent(_, _, _, _, _, _) => later.SpeechEvent?
    case CallStartEvent(_, _, _, _, _, _, _, _) => later.CallDeltaEvent?
    case FileEvent(_, _, _) => later.FileEvent? && later.replace
    case _ => false
  }

  function StoredBy(event: ModelEvent): Option<Part> {
    match event
    case FileEvent(_, payload, _) => Some(FilePart(payload))
    case NativeReturnEvent(_, payload) => Some(NativeReturnPart(payload))
    case _ => None
  }

  ghost predicate Framed(sources: seq<ModelEvent>, part: AccPart)
    requires sources != []
  {
    && IsPartEvent(sources[0]) && !sources[0].CallDeltaEvent?
    && part.kind == EventKind(sources[0]) && part.key == sources[0].part
    && (forall k :: 0 < k < |sources| ==> Fit(sources[0], sources[k]))
    && part.complete == StoredBy(sources[|sources| - 1])
  }

  ghost predicate MadeFrom(sources: seq<ModelEvent>, part: AccPart) {
    && sources != [] && Framed(sources, part) && Worded(sources, part) && Called(sources, part)
    && if sources[0].SpeechEvent? then Spoken(sources, part.speech) else part.speech == NO_SPEECH
  }

  // ----- starting a part -----

  lemma OneEach<T>(event: ModelEvent, f: ModelEvent -> T)
    ensures Each([event], f) == [f(event)]
  {}

  lemma FlatOne(text: string)
    ensures Flat([text]) == text
  {
    assert [text][..0] == [];
  }

  lemma {:induction false} StartWorded(event: ModelEvent)
    requires IsPartEvent(event) && StartedBy(event).Some?
    ensures Worded([event], StartedBy(event).value)
  {
    OneEach(event, TextIn);
    OneEach(event, IdIn);
    OneEach(event, ProviderIn);
    OneEach(event, SignatureIn);
    var part := StartedBy(event).value;
    FlatOne(TextIn(event));
    LastSetAlone(IdIn(event), "");
    LastSetAlone(ProviderIn(event), "");
    LastSetAlone(SignatureIn(event), "");
    forall key ensures LastSet(Each([event], DetailIn(key)), None, Entry(part.details, key)) {
      OneEach(event, DetailIn(key));
      LastSetAlone(DetailIn(key)(event), None);
    }
    hide LastSet, Each, Flat;
  }

  lemma Joins(text: string)
    ensures text + "" == text && "" + text == text
  {}

  lemma NothingSaid(sources: seq<ModelEvent>)
    ensures Flat(Each(sources[|sources|..], SpokenIn)) == ""
  {}

  lemma {:induction false} StartSpoken(event: ModelEvent)
    requires event.SpeechEvent?
    ensures Spoken([event], StartedBy(event).value.speech)
  {
    OneEach(event, AudioIn);
    FlatOne(AudioIn(event));
    OneEach(event, SpokenIn);
    FlatOne(SpokenIn(event));
    NothingSaid([event]);
    assert [event][0..] == [event];
    var seed, speech := event.seed, StartedBy(event).value.speech;
    if event.transcript.Some? {
      Joins(event.transcript.value);
      assert Transcribed([event], seed.transcript, speech.transcript, 1);
    } else {
      if seed.transcript.Some? { Joins(seed.transcript.value); }
      Joins(event.transcriptDelta);
      assert Transcribed([event], seed.transcript, speech.transcript, 0);
    }
  }

  lemma StartFramed(event: ModelEvent)
    requires IsPartEvent(event) && StartedBy(event).Some?
    ensures Framed([event], StartedBy(event).value)
    ensures !event.SpeechEvent? ==> StartedBy(event).value.speech == NO_SPEECH
  {
    hide ApplySpeech;
  }

  lemma StartBrings(event: ModelEvent)
    requires IsPartEvent(event) && StartedBy(event).Some?
    ensures var part := StartedBy(event).value;
      && (part.toolName, part.toolKind) == NameIn(event) && part.toolCallId == CallIdIn(event)
      && part.toolArgs == ArgsIn(event)
  {
    hide ApplySpeech;
  }

  lemma {:induction false} StartCalled(event: ModelEvent)
    requires IsPartEvent(event) && StartedBy(event).Some?
    ensures Called([event], StartedBy(event).value)
  {
    StartBrings(event);
    OneEach(event, ArgsIn);
    FlatOne(ArgsIn(event));
    OneEach(event, CallIdIn);
    hide StartedBy, Each, Flat, ArgsIn, CallIdIn, NameIn;
    assert [CallIdIn(event)][0] == CallIdIn(event);
  }

  lemma {:induction false} StartMade(event: ModelEvent)
    requires IsPartEvent(event) && StartedBy(event).Some?
    ensures MadeFrom([event], StartedBy(event).value)
  {
    StartWorded(event);
    StartCalled(event);
    StartFramed(event);
    hide Worded, Called, Framed, Spoken, StartedBy;
    if event.SpeechEvent? { StartSpoken(event); }
  }

  // ----- updating a part -----

  /** What one event changes. */
  lemma UpdateBrings(part: AccPart, event: ModelEvent)
    requires IsPartEvent(event) && UpdatedBy(part, event).Some?
    ensures var updated := UpdatedBy(part, event).value.0;
      && updated.text == part.text + TextIn(event) && updated.toolArgs == part.toolArgs + ArgsIn(event)
      && updated.responseId == (if IdIn(event) != "" then IdIn(event) else part.responseId)
      && updated.provider == (if ProviderIn(event) != "" then ProviderIn(event) else part.provider)
      && updated.signature == (if SignatureIn(event) != "" then SignatureIn(event) else part.signature)
      && updated.details == part.details + DetailsIn(event)
  {
    Joins(part.text);
    Joins(part.toolArgs);
  }

  lemma UpdateFrames(part: AccPart, event: ModelEvent)
    requires IsPartEvent(event) && UpdatedBy(part, event).Some?
    ensures var updated := UpdatedBy(part, event).value.0;
      && updated.kind == part.kind && updated.key == part.key
      && (updated.toolName, updated.toolKind) == (part.toolName, part.toolKind)
      && updated.toolCallId == (if CallIdIn(event) != "" then CallIdIn(event) else part.toolCallId)
      && (CallIdIn(event) != "" ==> part.toolCallId == "" || part.toolCallId == CallIdIn(event))
      && updated.complete == (if event.FileEvent? then StoredBy(event) else part.complete)
      && updated.speech
         == (if event.SpeechEvent? then ApplySpeech(part.speech, SpeechDeltaOf(event)) else part.speech)
      && (if IsCallKind(part.kind) then event.CallDeltaEvent? else part.kind == EventKind(event))
      && (event.FileEvent? ==> event.replace) && !event.CompactionEvent? && !event.NativeReturnEvent?
  {
    hide ApplySpeech;
  }

  lemma LastOfEach<T>(sources: seq<ModelEvent>, event: ModelEvent, f: ModelEvent -> T, unset: T, value: T)
    requires LastSet(Each(sources, f), unset, value)
    ensures LastSet(Each(sources + [event], f), unset, if f(event) != unset then f(event) else value)
  {
    hide LastSet;
    EachMore(sources, event, f);
    LastSetThen(Each(sources, f), f(event), unset, value);
  }

  lemma {:induction false} UpdateTexts(sources: seq<ModelEvent>, part: AccPart, event: ModelEvent)
    requires Worded(sources, part) && IsPartEvent(event) && UpdatedBy(part, event).Some?
    ensures var (all, updated) := (sources + [event], UpdatedBy(part, event).value.0);
      && updated.text == Flat(Each(all, TextIn)) && LastSet(Each(all, IdIn), "", updated.responseId)
      && LastSet(Each(all, ProviderIn), "", updated.provider)
      && LastSet(Each(all, SignatureIn), "", updated.signature)
  {
    UpdateBrings(part, event);
    EachMore(sources, event, TextIn);
    FlatMore(Each(sources, TextIn), TextIn(event));
    LastOfEach(sources, event, IdIn, "", part.responseId);
    LastOfEach(sources, event, ProviderIn, "", part.provider);
    LastOfEach(sources, event, SignatureIn, "", part.signature);
    hide UpdatedBy, LastSet, Each, Flat, TextIn, IdIn, ProviderIn, SignatureIn, DetailIn;
  }

  lemma {:induction false} UpdateDetails(sources: seq<ModelEvent>, part: AccPart, event: ModelEvent, key: string)
    requires Worded(sources, part) && IsPartEvent(event) && UpdatedBy(part, event).Some?
    ensures LastSet(Each(sources + [event], DetailIn(key)), None,
                    Entry(UpdatedBy(part, event).value.0.details, key))
  {
    UpdateBrings(part, event);
    hide UpdatedBy, LastSet, Each, Flat, DetailsIn;
    LastOfEach(sources, event, DetailIn(key), None, Entry(part.details, key));
  }

  lemma {:induction false} UpdateWorded(sources: seq<ModelEvent>, part: AccPart, event: ModelEvent)
    requires Worded(sources, part) && IsPartEvent(event) && UpdatedBy(part, event).Some?
    ensures Worded(sources + [event], UpdatedBy(part, event).value.0)
  {
    UpdateTexts(sources, part, event);
    forall key
      ensures LastSet(Each(sources + [event], DetailIn(key)), None, Entry(UpdatedBy(part, event).value.0.details, key))
    {
      UpdateDetails(sources, part, event, key);
    }
    hide UpdatedBy, LastSet, Each, Flat, TextIn, IdIn, ProviderIn, SignatureIn, DetailIn;
  }

  lemma OneId(ids: seq<string>, id: string, was: string, now: string)
    requires was in ids && (forall other :: other in ids ==> other == "" || other == was)
    requires now == (if id != "" then id else was) && (id != "" ==> was == "" || was == id)
    ensures now in ids + [id] && forall other :: other in ids + [id] ==> other == "" || other == now
  {
    assert (ids + [id])[|ids|] == id;
  }

  lemma {:induction false} UpdateCalled(sources: seq<ModelEvent>, part: AccPart, event: ModelEvent)
    requires sources != [] && Called(sources, part) && IsPartEvent(event) && UpdatedBy(part, event).Some?
    ensures Called(sources + [event], UpdatedBy(part, event).value.0)
  {
    UpdateBrings(part, event);
    UpdateFrames(part, event);
    EachMore(sources, event, ArgsIn);
    EachMore(sources, event, CallIdIn);
    FlatMore(Each(sources, ArgsIn), ArgsIn(event));
    OneId(Each(sources, CallIdIn), CallIdIn(event), part.toolCallId, UpdatedBy(part, event).value.0.toolCallId);
    assert (sources + [event])[0] == sources[0];
    hide UpdatedBy, Each, Flat, ArgsIn, CallIdIn, NameIn;
  }

  lemma {:induction false} WholeMore(sources: seq<ModelEvent>, event: ModelEvent, m: nat)
    requires WholeUntil(sources, m)
    ensures WholeUntil(sources + [event], if WholeIn(event).Some? then |sources| + 1 else m)
  {
    hide WholeIn;
  }

  lemma {:induction false} AddedMore(sources: seq<ModelEvent>, event: ModelEvent, m: nat)
    requires m <= |sources|
    ensures Flat(Each((sources + [event])[m..], SpokenIn)) == Flat(Each(sources[m..], SpokenIn)) + SpokenIn(event)
  {
    assert (sources + [event])[m..] == sources[m..] + [event];
    EachMore(sources[m..], event, SpokenIn);
    FlatMore(Each(sources[m..], SpokenIn), SpokenIn(event));
    hide Each, Flat, SpokenIn;
  }

  lemma {:induction false} TranscriptMore(sources: seq<ModelEvent>, event: ModelEvent, seed: Option<string>,
                                          speech: Speech, m: nat)
    requires event.SpeechEvent? && Transcribed(sources, seed, speech.transcript, m)
    ensures var all := sources + [event];
      Transcribed(all, seed, ApplySpeech(speech, SpeechDeltaOf(event)).transcript,
                  if event.transcript.Some? then |all| else m)
  {
    WholeMore(sources, event, m);
    AddedMore(sources, event, m);
    NothingSaid(sources + [event]);
    hide Each, Flat, WholeUntil;
    if event.transcript.Some? {
      Joins(event.transcript.value);
    } else {
      var whole := if m > 0 then WholeIn(sources[m - 1]) else seed;
      AppendedMore(whole, Flat(Each(sources[m..], SpokenIn)), event.transcriptDelta);
      hide Appended;
    }
  }

  lemma AppendedMore(whole: Option<string>, added: string, more: string)
    ensures var before := Appended(whole, added);
      Appended(whole, added + more)
      == if more == "" then before else Some((if before.Some? then before.value else "") + more)
  {
    Joins(added);
    Joins(more);
    if whole.Some? { assert whole.value + added + more == whole.value + (added + more); }
  }

  lemma {:induction false} AudioMore(sources: seq<ModelEvent>, event: ModelEvent, seed: string)
    ensures seed + Flat(Each(sources + [event], AudioIn)) == seed + Flat(Each(sources, AudioIn)) + AudioIn(event)
  {
    EachMore(sources, event, AudioIn);
    FlatMore(Each(sources, AudioIn), AudioIn(event));
    hide Each, Flat, AudioIn;
    var audio := Flat(Each(sources, AudioIn));
    assert seed + audio + AudioIn(event) == seed + (audio + AudioIn(event));
  }

  lemma {:induction false} UpdateSpoken(sources: seq<ModelEvent>, speech: Speech, event: ModelEvent)
    requires sources != [] && sources[0].SpeechEvent? && Spoken(sources, speech) && event.SpeechEvent?
    ensures Spoken(sources + [event], ApplySpeech(speech, SpeechDeltaOf(event)))
  {
    var seed := sources[0].seed;
    var m: nat :| Transcribed(sources, seed.transcript, speech.transcript, m);
    TranscriptMore(sources, event, seed.transcript, speech, m);
    assert (sources + [event])[0] == sources[0];
    hide Transcribed, Each, Flat;
    if seed.audio.Some? { AudioMore(sources, event, seed.audio.value); }
  }

  lemma {:induction false} UpdateFramed(sources: seq<ModelEvent>, part: AccPart, event: ModelEvent)
    requires sources != [] && Framed(sources, part) && IsPartEvent(event) && UpdatedBy(part, event).Some?
    ensures Framed(sources + [event], UpdatedBy(part, event).value.0) && Fit(sources[0], event)
  {
    UpdateFrames(part, event);
    hide UpdatedBy;
    var all := sources + [event];
    assert Fit(sources[0], event);
    forall k | 0 < k < |all| ensures Fit(all[0], all[k]) {
      if k < |sources| { assert all[k] == sources[k]; }
    }
    hide Fit;
  }

  lemma {:induction false} UpdateMade(sources: seq<ModelEvent>, part: AccPart, event: ModelEvent)
    requires MadeFrom(sources, part) && IsPartEvent(event) && UpdatedBy(part, event).Some?
    ensures MadeFrom(sources + [event], UpdatedBy(part, event).value.0)
  {
    UpdateWorded(sources, part, event);
    UpdateCalled(sources, part, event);
    UpdateFramed(sources, part, event);
    UpdateFrames(part, event);
    assert (sources + [event])[0] == sources[0];
    assert sources[0].SpeechEvent? <==> event.SpeechEvent?;
    hide UpdatedBy, Worded, Called, Framed, Spoken, ApplySpeech;
    if event.SpeechEvent? { UpdateSpoken(sources, part.speech, event); }
  }

  // ----- which part an event belongs to -----

  /** The number of parts begun by events that belong to these parts. */
  function Begun(owners: seq<nat>): nat {
    if owners == [] then 0
    else
      var before, last := Begun(owners[..|owners| - 1]), owners[|owners| - 1];
      if last + 1 > before then last + 1 else before
  }

  /** The events of one part, in order. */
  function Mine(events: seq<ModelEvent>, owners: seq<nat>, i: nat): seq<ModelEvent>
    requires |owners| == |events|
  {
    if events == [] then []
    else
      var last := |events| - 1;
      Mine(events[..last], owners[..last], i) + if owners[last] == i then [events[last]] else []
  }

  function KeyOf(event: ModelEvent): string { if IsPartEvent(event) then event.part else "" }

  ghost predicate KeyKnown(events: seq<ModelEvent>, key: string) {
    exists m :: 0 <= m < |events| && KeyOf(events[m]) == key
  }

  /** Without a key, text, thinking, speech and call arguments continue what the event before them belongs to,
      if they fit it. */
  predicate Continues(first: ModelEvent, event: ModelEvent) {
    || (first.TextEvent? && event.TextEvent?) || (first.ThinkingEvent? && event.ThinkingEvent?)
    || (first.SpeechEvent? && event.SpeechEvent?) || (first.CallStartEvent? && event.CallDeltaEvent?)
  }

  /** An event with a key belongs where that key does; any other continues the part before it or begins one. */
  ghost predicate Belongs(events: seq<ModelEvent>, owners: seq<nat>, event: ModelEvent, owner: nat)
    requires |owners| == |events|
  {
    if KeyOf(event) != "" then
      if KeyKnown(events, KeyOf(event)) then
        && owner < Begun(owners)
        && forall m :: 0 <= m < |events| && KeyOf(events[m]) == KeyOf(event) ==> owners[m] == owner
      else owner == Begun(owners)
    else if events != [] && ContinuesLast(events, owners, event) then owner == owners[|owners| - 1]
    else owner == Begun(owners)
  }

  predicate ContinuesLast(events: seq<ModelEvent>, owners: seq<nat>, event: ModelEvent)
    requires |owners| == |events| && events != []
  {
    var same := Mine(events, owners, owners[|owners| - 1]);
    same != [] && Continues(same[0], event)
  }

  ghost predicate Routed(events: seq<ModelEvent>, owners: seq<nat>) {
    && |owners| == |events|
    && forall n :: 0 <= n < |events| ==> Belongs(events[..n], owners[..n], events[n], owners[n])
  }

  ghost predicate HeldBy(events: seq<ModelEvent>, owners: seq<nat>, i: nat, part: AccPart)
    requires |owners| == |events|
  {
    MadeFrom(Mine(events, owners, i), part)
  }

  /** The parts of a core, each made from its own events. */
  ghost predicate Holds(events: seq<ModelEvent>, owners: seq<nat>, parts: seq<AccPart>)
    requires |owners| == |events|
  {
    |parts| == Begun(owners) && forall i :: 0 <= i < |parts| ==> HeldBy(events, owners, i, parts[i])
  }

  /** The part last touched, and the parts by key. */
  ghost predicate Tracks(events: seq<ModelEvent>, owners: seq<nat>, core: Core)
    requires |owners| == |events|
  {
    && InRange(core)
    && core.current == (if owners == [] then None else Some(owners[|owners| - 1]))
    && (forall n :: 0 <= n < |events| && KeyOf(events[n]) != "" ==>
          KeyOf(events[n]) in core.byKey && core.byKey[KeyOf(events[n])] == owners[n])
    && (forall key :: key in core.byKey ==> key != "" && KeyKnown(events, key))
  }

  lemma MineMore(events: seq<ModelEvent>, owners: seq<nat>, event: ModelEvent, o: nat, i: nat)
    requires |owners| == |events|
    ensures Mine(events + [event], owners + [o], i) == Mine(events, owners, i) + if o == i then [event] else []
  {
    assert (events + [event])[..|events|] == events && (owners + [o])[..|owners|] == owners;
  }

  lemma BegunMore(owners: seq<nat>, o: nat)
    ensures Begun(owners + [o]) == if o + 1 > Begun(owners) then o + 1 else Begun(owners)
  {
    assert (owners + [o])[..|owners|] == owners;
  }

  lemma {:induction false} NoneMine(events: seq<ModelEvent>, owners: seq<nat>, i: nat)
    requires |owners| == |events| && i >= Begun(owners)
    ensures Mine(events, owners, i) == []
  {
    if events != [] { NoneMine(events[..|events| - 1], owners[..|owners| - 1], i); }
  }

  lemma OtherHeld(events: seq<ModelEvent>, owners: seq<nat>, event: ModelEvent, o: nat, i: nat, part: AccPart)
    requires |owners| == |events| && i != o && HeldBy(events, owners, i, part)
    ensures HeldBy(events + [event], owners + [o], i, part)
  {
    MineMore(events, owners, event, o, i);
    hide Mine, MadeFrom;
    assert Mine(events, owners, i) + [] == Mine(events, owners, i);
  }

  lemma StartHeld(events: seq<ModelEvent>, owners: seq<nat>, event: ModelEvent, o: nat, part: AccPart)
    requires |owners| == |events| && o >= Begun(owners) && MadeFrom([event], part)
    ensures HeldBy(events + [event], owners + [o], o, part)
  {
    NoneMine(events, owners, o);
    MineMore(events, owners, event, o, o);
    hide MadeFrom, Mine;
    assert [] + [event] == [event];
  }

  lemma {:induction false} HoldsStart(events: seq<ModelEvent>, owners: seq<nat>, parts: seq<AccPart>,
                                      event: ModelEvent, part: AccPart)
    requires |owners| == |events| && Holds(events, owners, parts) && MadeFrom([event], part)
    ensures Holds(events + [event], owners + [|parts|], parts + [part])
  {
    hide HeldBy, MadeFrom, Mine, Begun;
    var o := |parts|;
    BegunMore(owners, o);
    StartHeld(events, owners, event, o, part);
    forall i | 0 <= i < o ensures HeldBy(events + [event], owners + [o], i, parts[i]) {
      OtherHeld(events, owners, event, o, i, parts[i]);
    }
  }

  lemma UpdateHeld(events: seq<ModelEvent>, owners: seq<nat>, event: ModelEvent, o: nat, part: AccPart)
    requires |owners| == |events| && HeldBy(events, owners, o, part) && IsPartEvent(event)
    requires UpdatedBy(part, event).Some?
    ensures HeldBy(events + [event], owners + [o], o, UpdatedBy(part, event).value.0)
  {
    hide MadeFrom, Mine, UpdatedBy;
    MineMore(events, owners, event, o, o);
    UpdateMade(Mine(events, owners, o), part, event);
  }

  lemma {:induction false} HoldsUpdate(events: seq<ModelEvent>, owners: seq<nat>, parts: seq<AccPart>,
                                       event: ModelEvent, o: nat)
    requires |owners| == |events| && Holds(events, owners, parts) && IsPartEvent(event) && o < |parts|
    requires UpdatedBy(parts[o], event).Some?
    ensures Holds(events + [event], owners + [o], parts[o := UpdatedBy(parts[o], event).value.0])
  {
    hide HeldBy, MadeFrom, UpdatedBy, Mine, Begun;
    BegunMore(owners, o);
    UpdateHeld(events, owners, event, o, parts[o]);
    forall i | 0 <= i < |parts| && i != o ensures HeldBy(events + [event], owners + [o], i, parts[i]) {
      OtherHeld(events, owners, event, o, i, parts[i]);
    }
  }

  /** Where the next event goes. */
  function Owner(core: Core, event: ModelEvent): nat
    requires IsPartEvent(event) && InRange(core)
  {
    if Target(core, event).Some? then Target(core, event).value else |core.parts|
  }

  lemma {:induction false} KnownMore(events: seq<ModelEvent>, event: ModelEvent, key: string)
    ensures KeyKnown(events + [event], key) <==> KeyKnown(events, key) || KeyOf(event) == key
  {
    hide KeyOf;
    var all := events + [event];
    assert all[|events|] == event;
    if m :| 0 <= m < |events| && KeyOf(events[m]) == key { assert KeyOf(all[m]) == key; }
  }

  lemma {:induction false} KeyTracked(events: seq<ModelEvent>, owners: seq<nat>, core: Core, event: ModelEvent)
    requires |owners| == |events| && Tracks(events, owners, core) && KeyOf(event) != ""
    ensures KeyOf(event) in core.byKey <==> KeyKnown(events, KeyOf(event))
    ensures IsPartEvent(event)
    ensures Target(core, event)
         == if KeyOf(event) in core.byKey then Some(core.byKey[KeyOf(event)]) else None
  {
    assert Target(core, event) == if KeyOf(event) in core.byKey then Some(core.byKey[KeyOf(event)]) else None;
    hide KeyOf;
  }

  /** What a step does to the parts and to the way they are found. */
  lemma {:induction false} AdvanceIs(core: Core, event: ModelEvent)
    requires InRange(core) && IsPartEvent(event) && Advance(core, event).Some?
    ensures var (after, o) := (Advance(core, event).value.0, Owner(core, event));
      && InRange(after) && after.current == Some(o)
      && (if Target(core, event).None? then
            && StartedBy(event).Some? && after.parts == core.parts + [StartedBy(event).value]
            && after.byKey == if KeyOf(event) != "" then core.byKey[KeyOf(event) := o] else core.byKey
          else
            && UpdatedBy(core.parts[o], event).Some? && after.byKey == core.byKey
            && after.parts == core.parts[o := UpdatedBy(core.parts[o], event).value.0])
  {
    hide StartedBy, UpdatedBy, Target;
  }

  lemma {:induction false} TracksNext(events: seq<ModelEvent>, owners: seq<nat>, core: Core, event: ModelEvent)
    requires |owners| == |events| && Tracks(events, owners, core) && IsPartEvent(event)
    requires Advance(core, event).Some?
    ensures Tracks(events + [event], owners + [Owner(core, event)], Advance(core, event).value.0)
  {
    AdvanceIs(core, event);
    if KeyOf(event) != "" { KeyTracked(events, owners, core, event); }
    forall key ensures KeyKnown(events + [event], key) <==> KeyKnown(events, key) || KeyOf(event) == key {
      KnownMore(events, event, key);
    }
    hide StartedBy, UpdatedBy, KeyKnown, KeyOf, Advance, Target;
    var after, o, all := Advance(core, event).value.0, Owner(core, event), events + [event];
    forall n | 0 <= n < |all| && KeyOf(all[n]) != ""
      ensures KeyOf(all[n]) in after.byKey && after.byKey[KeyOf(all[n])] == (owners + [o])[n]
    {
      if n < |events| {
        assert all[n] == events[n];
      } else {
        assert all[n] == event;
      }
    }
  }

  lemma {:induction false} FirstKind(events: seq<ModelEvent>, owners: seq<nat>, parts: seq<AccPart>,
                                     event: ModelEvent, i: nat)
    requires |owners| == |events| && Holds(events, owners, parts) && i < |parts| && IsPartEvent(event)
    ensures Mine(events, owners, i) != []
    ensures Continues(Mine(events, owners, i)[0], event) <==>
      (event.TextEvent? || event.ThinkingEvent? || event.SpeechEvent? || event.CallDeltaEvent?)
      && (parts[i].kind == EventKind(event) || (event.CallDeltaEvent? && IsCallKind(parts[i].kind)))
  {
    hide Mine, Begun, Worded, Called, Spoken, Fit, StoredBy;
    assert HeldBy(events, owners, i, parts[i]) && Framed(Mine(events, owners, i), parts[i]);
  }

  lemma {:induction false} UnkeyedTarget(core: Core, event: ModelEvent)
    requires InRange(core) && IsPartEvent(event) && KeyOf(event) == ""
    ensures Target(core, event)
         == if core.current.Some?
               && (event.TextEvent? || event.ThinkingEvent? || event.SpeechEvent? || event.CallDeltaEvent?)
               && (core.parts[core.current.value].kind == EventKind(event)
                   || (event.CallDeltaEvent? && IsCallKind(core.parts[core.current.value].kind)))
            then core.current else None
  {}

  lemma {:induction false} BelongsNext(events: seq<ModelEvent>, owners: seq<nat>, core: Core, event: ModelEvent)
    requires |owners| == |events| && Tracks(events, owners, core) && Holds(events, owners, core.parts)
    requires IsPartEvent(event)
    ensures Belongs(events, owners, event, Owner(core, event))
  {
    if KeyOf(event) != "" {
      KeyTracked(events, owners, core, event);
      hide MadeFrom, Mine, Begun, Target, KeyOf;
      if KeyKnown(events, KeyOf(event)) {
        forall m | 0 <= m < |events| && KeyOf(events[m]) == KeyOf(event)
          ensures owners[m] == core.byKey[KeyOf(event)] {}
      }
    } else {
      UnkeyedTarget(core, event);
      if core.current.Some? { FirstKind(events, owners, core.parts, event, core.current.value); }
      hide MadeFrom, Mine, Begun, Target, KeyOf, Continues;
    }
  }

  lemma RoutedNext(events: seq<ModelEvent>, owners: seq<nat>, event: ModelEvent, o: nat)
    requires Routed(events, owners) && Belongs(events, owners, event, o)
    ensures Routed(events + [event], owners + [o])
  {
    hide Belongs;
    var all, allOwners := events + [event], owners + [o];
    assert all[..|events|] == events && allOwners[..|owners|] == owners;
    forall n | 0 <= n < |all| ensures Belongs(all[..n], allOwners[..n], all[n], allOwners[n]) {
      if n < |events| { assert all[..n] == events[..n] && allOwners[..n] == owners[..n]; }
    }
  }

  /** Every part holds what the events that belong to it brought, and events belong where they say. */
  ghost predicate Told(events: seq<ModelEvent>, core: Core, owners: seq<nat>) {
    Routed(events, owners) && Holds(events, owners, core.parts)
  }

  lemma {:induction false} ToldNext(events: seq<ModelEvent>, core: Core, owners: seq<nat>, event: ModelEvent)
    requires Told(events, core, owners) && Tracks(events, owners, core) && IsPartEvent(event)
    requires Advance(core, event).Some?
    ensures Told(events + [event], Advance(core, event).value.0, owners + [Owner(core, event)])
    ensures Tracks(events + [event], owners + [Owner(core, event)], Advance(core, event).value.0)
  {
    TracksNext(events, owners, core, event);
    BelongsNext(events, owners, core, event);
    RoutedNext(events, owners, event, Owner(core, event));
    AdvanceIs(core, event);
    hide Tracks, Routed, MadeFrom, Mine, Begun, StartedBy, UpdatedBy, Advance;
    if Target(core, event).None? {
      StartMade(event);
      HoldsStart(events, owners, core.parts, event, StartedBy(event).value);
    } else {
      HoldsUpdate(events, owners, core.parts, event, Owner(core, event));
    }
  }

  lemma {:induction false} RunTold(events: seq<ModelEvent>, setting: Setting) returns (owners: seq<nat>)
    requires Run(events, setting).1 == Running
    ensures |owners| == |Where(events, IsPartEvent)|
    ensures Told(Where(events, IsPartEvent), Run(events, setting).0.core, owners)
    ensures Tracks(Where(events, IsPartEvent), owners, Run(events, setting).0.core)
  {
    hide Step, Told, Tracks, Owner;
    if events == [] {
      owners := [];
      NothingTold();
    } else {
      var front, event := events[..|events| - 1], events[|events| - 1];
      RunUnfolds(events, setting);
      owners := RunTold(front, setting);
      var before := Where(front, IsPartEvent);
      StepMoves(Run(front, setting).0, event, setting);
      if IsPartEvent(event) {
        ToldNext(before, Run(front, setting).0.core, owners, event);
        owners := owners + [Owner(Run(front, setting).0.core, event)];
      } else {
        assert before + [] == before;
      }
    }
  }

  lemma NothingTold()
    ensures Told([], EMPTY.core, []) && Tracks([], [], EMPTY.core)
  {}

  lemma {:induction false} StepMoves(acc: Acc, event: ModelEvent, setting: Setting)
    requires AccOk(acc) && Step(acc, event, setting).1 == Running
    ensures var core := Step(acc, event, setting).0.core;
      if IsPartEvent(event) then Advance(acc.core, event).Some? && core == Advance(acc.core, event).value.0
      else core == acc.core
  {
    hide Advance, Render, Announcement;
  }

  /** For any stream, however its events are interleaved and wherever keys are missing: each part holds what the
      events that belong to it brought, and each event belongs to the part of its key, or to the one before it, or
      to a part of its own. */
  lemma {:induction false} PartsSayWhatArrived(events: seq<ModelEvent>, setting: Setting)
    requires Run(events, setting).1 == Running
    ensures exists owners :: Told(Where(events, IsPartEvent), Run(events, setting).0.core, owners)
  {
    hide Told, Run;
    var owners := RunTold(events, setting);
  }

  // ----- the response -----

  /** Anything but a text or a thought that carries nothing at all. */
  predicate Carries(part: AccPart) {
    || !(part.kind == Text || part.kind == Thinking) || part.text != "" || part.responseId != ""
    || part.signature != "" || part.provider != "" || part.details != map[]
  }

  /** The fields given last before the end. */
  function LastFields(events: seq<ModelEvent>): Fields {
    if events == [] then NO_FIELDS
    else if events[|events| - 1].MetadataEvent? then events[|events| - 1].fields
    else LastFields(events[..|events| - 1])
  }

  lemma {:induction false} KeptParts(parts: seq<AccPart>)
    ensures Materialize(parts) == Each(Where(parts, Carries), Render)
  {
    hide Render;
    if parts != [] {
      var front, last := parts[..|parts| - 1], parts[|parts| - 1];
      KeptParts(front);
      EachMore(Where(front, Carries), last, Render);
      assert Where(front, Carries) + [] == Where(front, Carries);
    }
  }

  lemma {:induction false} StepFields(acc: Acc, event: ModelEvent, setting: Setting)
    requires AccOk(acc)
    ensures var (after, status) := Step(acc, event, setting);
      status in {Running, Failed, Cancelled} ==>
        after.fields == if event.MetadataEvent? then event.fields else acc.fields
  {
    hide Advance, Render, Announcement;
  }

  lemma {:induction false} RunFields(events: seq<ModelEvent>, setting: Setting)
    requires events == [] || Run(events[..|events| - 1], setting).1 == Running
    requires Run(events, setting).1 in {Running, Failed, Cancelled}
    ensures Run(events, setting).0.fields == LastFields(events)
  {
    hide Step;
    if events != [] {
      var front := events[..|events| - 1];
      if front != [] { RunUnfolds(front, setting); }
      RunFields(front, setting);
      StepFields(Run(front, setting).0, events[|events| - 1], setting);
    }
  }

  /** A stream that fails, is refused or runs dry hands back the parts that carry something, with the fields given
      last and marked incomplete unless they say otherwise; nothing if there is neither. */
  lemma {:induction false} CutOffResponse(events: seq<ModelEvent>, setting: Setting)
    requires events == [] || Run(events[..|events| - 1], setting).1 == Running
    requires Run(events, setting).1 in {Running, Failed, Cancelled}
    ensures var parts := Each(Where(Run(events, setting).0.core.parts, Carries), Render);
      var fields := LastFields(events);
      Response(events, setting)
      == if && parts == [] && fields.providerResponseId == "" && fields.providerName == "" && fields.modelName == ""
            && fields.state == "" && fields.usage == 0 then None
         else Some(ModelResponse(parts, if fields.state == "" then fields.(state := "incomplete") else fields))
  {
    RunFields(events, setting);
    KeptParts(Run(events, setting).0.core.parts);
    hide Step, Run, Render, Materialize;
  }

  lemma {:induction false} AfterTheEnd(events: seq<ModelEvent>, more: seq<ModelEvent>, setting: Setting)
    requires Run(events, setting).1 != Running
    ensures Run(events + more, setting) == Run(events, setting)
    ensures Response(events + more, setting) == Response(events, setting)
  {
    hide Step, Partial, Complete;
    if more == [] {
      assert events + more == events;
    } else {
      AfterTheEnd(events, more[..|more| - 1], setting);
      assert (events + more)[..|events + more| - 1] == events + more[..|more| - 1];
    }
  }

  /** A finished stream hands back the parts of its snapshot, or those that carry something, with the fields it
      finishes with, even when the consumer refuses the last event; whatever follows is not read. */
  lemma {:induction false} FinishedResponse(events: seq<ModelEvent>, snapshot: Option<seq<Part>>, fields: Fields,
                                            more: seq<ModelEvent>, setting: Setting)
    requires Run(events, setting).1 == Running
    requires Run(events + [FinishEvent(snapshot, fields)], setting).1 in {Finished, FinishRefused}
    ensures var parts := Each(Where(Run(events, setting).0.core.parts, Carries), Render);
      Response(events + [FinishEvent(snapshot, fields)] + more, setting)
      == Some(ModelResponse(if snapshot.Some? then snapshot.value else parts, fields))
    ensures var sent := Run(events + [FinishEvent(snapshot, fields)] + more, setting).0.emitted;
      sent != [] && sent[|sent| - 1] == Finish(fields)
  {
    var finish := FinishEvent(snapshot, fields);
    var all := events + [finish];
    assert all[..|events|] == events;
    AfterTheEnd(all, more, setting);
    FinishKeepsParts(Run(events, setting).0, finish, setting);
    KeptParts(Run(events, setting).0.core.parts);
    hide Step, Render, Materialize;
  }

  lemma FinishKeepsParts(acc: Acc, finish: ModelEvent, setting: Setting)
    requires AccOk(acc) && finish.FinishEvent?
    ensures Step(acc, finish, setting).0.core == acc.core
    ensures var (after, status) := Step(acc, finish, setting);
      status in {Finished, FinishRefused} ==>
        after.emitted != [] && after.emitted[|after.emitted| - 1] == Finish(finish.fields)
  {
    hide Render;
  }

  // ----- the names under which parts are sent -----

  /** Every event about a part carries the part's key. */
  ghost predicate KeyedAs(sent: seq<StreamEvent>, parts: seq<AccPart>) {
    forall n :: 0 <= n < |sent| && !sent[n].FinalResult? && !sent[n].Finish? ==>
      sent[n].index < |parts| && sent[n].partId == parts[sent[n].index].key
  }

  /** Parts keep their keys, and there may be more of them. */
  ghost predicate SameKeys(before: seq<AccPart>, after: seq<AccPart>) {
    |before| <= |after| && forall i :: 0 <= i < |before| ==> after[i].key == before[i].key
  }

  lemma {:induction false} KeysStay(sent: seq<StreamEvent>, before: seq<AccPart>, after: seq<AccPart>)
    requires KeyedAs(sent, before) && SameKeys(before, after)
    ensures KeyedAs(sent, after)
  {}

  lemma {:induction false} AnnounceKeyed(acc: Acc, change: Change, setting: Setting)
    requires AccOk(acc) && change.index < |acc.core.parts| && KeyedAs(acc.emitted, acc.core.parts)
    ensures var after := Announce(acc, change, setting).0;
      after.core == acc.core && KeyedAs(after.emitted, acc.core.parts)
  {
    hide Render;
    if change.Started? { AnnouncesResult(setting.rule, Render(acc.core.parts[change.index])); }
    hide Announcement;
  }

  lemma {:induction false} AdvanceKeepsKeys(core: Core, event: ModelEvent)
    requires InRange(core) && IsPartEvent(event) && Advance(core, event).Some?
    ensures SameKeys(core.parts, Advance(core, event).value.0.parts)
  {
    AdvanceIs(core, event);
    if Target(core, event).Some? { UpdateFrames(core.parts[Owner(core, event)], event); }
    hide StartedBy, UpdatedBy, Advance;
  }

  lemma {:induction false} StepKeyed(acc: Acc, event: ModelEvent, setting: Setting)
    requires AccOk(acc) && KeyedAs(acc.emitted, acc.core.parts)
    ensures var after := Step(acc, event, setting).0; KeyedAs(after.emitted, after.core.parts)
  {
    hide KeyedAs, Advance, Announce, Render, EndLast;
    if IsPartEvent(event) && Advance(acc.core, event).Some? {
      var (core, change) := Advance(acc.core, event).value;
      AdvanceKeepsKeys(acc.core, event);
      KeysStay(acc.emitted, acc.core.parts, core.parts);
      AnnounceKeyed(acc.(core := core), change, setting);
    } else if event.FinishEvent? {
      EndKeyed(acc, event.fields, setting);
    }
  }

  lemma EndKeyed(acc: Acc, fields: Fields, setting: Setting)
    requires AccOk(acc) && KeyedAs(acc.emitted, acc.core.parts)
    ensures var ended := EndLast(acc, None, setting).0;
      KeyedAs(ended.emitted, acc.core.parts) && KeyedAs(ended.emitted + [Finish(fields)], acc.core.parts)
  {
    hide Render;
  }

  /** In every run, whatever is sent about a part names it by its key. */
  lemma {:induction false} PartsAreNamed(events: seq<ModelEvent>, setting: Setting)
    ensures KeyedAs(Run(events, setting).0.emitted, Run(events, setting).0.core.parts)
  {
    hide KeyedAs, Step;
    if events == [] {
      NothingNamed();
    } else {
      var front := events[..|events| - 1];
      PartsAreNamed(front, setting);
      if Run(front, setting).1 == Running { StepKeyed(Run(front, setting).0, events[|events| - 1], setting); }
    }
  }

  lemma NothingNamed()
    ensures KeyedAs(EMPTY.emitted, EMPTY.core.parts)
  {}

  /** Once the provider has broken its stream nothing is handed back. */
  lemma {:induction false} RejectedResponse(events: seq<ModelEvent>, setting: Setting)
    requires Run(events, setting).1 == Rejected
    ensures Response(events, setting).None?
  {
    hide Run;
  }
}
