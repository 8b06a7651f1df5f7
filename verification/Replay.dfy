/** A finished response turned back into the stream events that would have built it. */
module Replay {
  import opened Options
  import opened StreamEvents
  import opened AccumulateSpec
  import opened AccumulateProofs
  import opened Decimals

  // ----- the events -----

  function PartEvents(part: Part, key: string): (events: seq<ModelEvent>)
    ensures 1 <= |events| <= 2 && (|events| == 2 <==> part.CallPart?)
  {
    match part
    case TextPart(text, id, provider, details) => [TextEvent(key, text, id, provider, details)]
    case ThinkingPart(thought, id, signature, provider, details) =>
      [ThinkingEvent(key, thought, id, signature, provider, details)]
    case CompactionPart(summary, id, provider, details) => [CompactionEvent(key, summary, id, provider, details)]
    case SpeechPart(speech) => [SpeechEvent(key, speech, "", "", None, "")]
    case CallPart(native, name, args, callId, toolKind, id, provider, details) =>
      [CallStartEvent(key, name, callId, toolKind, id, provider, details, native), CallDeltaEvent(key, "", args)]
    case FilePart(file) => [FileEvent(key, file, false)]
    case NativeReturnPart(returned) => [NativeReturnEvent(key, returned)]
  }

  function AllEvents(parts: seq<Part>): seq<ModelEvent> {
    if parts == [] then []
    else AllEvents(parts[..|parts| - 1]) + PartEvents(parts[|parts| - 1], Decimal(|parts| - 1))
  }

  function Completed(fields: Fields): Fields { fields.(state := Either(fields.state, "complete")) }

  function ReplayAsEvents(response: ModelResponse): seq<ModelEvent> {
    AllEvents(response.parts) + [FinishEvent(Some(response.parts), Completed(response.fields))]
  }

  // ----- what accumulating them gives -----

  lemma RunMore(events: seq<ModelEvent>, event: ModelEvent, setting: Setting)
    ensures var (acc, status) := Run(events, setting);
      Run(events + [event], setting) == if status != Running then (acc, status) else Step(acc, event, setting)
  {
    hide Step;
    assert (events + [event])[..|events|] == events;
  }

  /** The parts so far are restored, under their positions as keys, and the consumer has them. */
  ghost predicate Restored(acc: Acc, parts: seq<Part>, setting: Setting) {
    && InStep(acc, setting) && ExactView(acc, setting) && RenderAll(acc.core.parts) == parts
    && (forall key :: key in acc.core.byKey ==> exists i :: 0 <= i < |parts| && key == Decimal(i))
  }

  lemma {:induction false} NewKey(acc: Acc, parts: seq<Part>, setting: Setting)
    requires Restored(acc, parts, setting)
    ensures Decimal(|parts|) != "" && Decimal(|parts|) !in acc.core.byKey
  {
    hide InStep, ExactView, RenderAll, Decimal;
    DecimalInverts(|parts|);
    if Decimal(|parts|) in acc.core.byKey {
      var i :| 0 <= i < |parts| && Decimal(|parts|) == Decimal(i);
      DecimalInverts(i);
    }
  }

  /** The first event of a part restores all of it but a call's arguments. */
  function FirstView(part: Part): Part { if part.CallPart? then part.(args := "") else part }

  lemma FirstRenders(part: Part, key: string)
    ensures var first := PartEvents(part, key)[0];
      && IsPartEvent(first) && first.part == key
      && StartedBy(first).Some? && Render(StartedBy(first).value) == FirstView(part)
  {
    if part.SpeechPart? {
      var speech := part.speech;
      assert speech.(speaker := Either(speech.speaker, "")) == speech;
      assert speech.audio.Some? ==> speech.audio.value + "" == speech.audio.value;
      assert ApplySpeech(speech, SpeechDelta("", "", None, "")) == speech;
    }
  }

  lemma ArgsRender(core: Core, part: Part, key: string)
    requires InRange(core) && core.parts != [] && part.CallPart? && key != ""
    requires key in core.byKey && core.byKey[key] == |core.parts| - 1
    requires PartOk(core.parts[|core.parts| - 1]) && Render(core.parts[|core.parts| - 1]) == FirstView(part)
    requires core.parts[|core.parts| - 1].key == key
    ensures var args, last := CallDeltaEvent(key, "", part.args), |core.parts| - 1;
      && Target(core, args) == Some(last) && UpdatedBy(core.parts[last], args).Some?
      && Render(UpdatedBy(core.parts[last], args).value.0) == part && KeepsId(core, args)
  {
    assert "" + part.args == part.args;
  }

  lemma {:induction false} RestoreFirst(acc: Acc, parts: seq<Part>, part: Part, setting: Setting)
    requires Restored(acc, parts, setting)
    ensures var key := Decimal(|parts|);
      var (after, status) := Step(acc, PartEvents(part, key)[0], setting);
      && (status == Running || status == Cancelled)
      && (status == Running ==>
            (Restored(after, parts + [FirstView(part)], setting)
             && key in after.core.byKey && after.core.byKey[key] == |parts|))
  {
    hide Decimal, PartEvents, FirstView, Render, RenderAll, StartedBy, UpdatedBy, ExactView, Watch, PartOk, Step,
      Announce, KeepsId, CoreOk, Mirrors;
    var key := Decimal(|parts|);
    var event := PartEvents(part, key)[0];
    NewKey(acc, parts, setting);
    FirstRenders(part, key);
    StepSeen(acc, event, setting);
    var (after, status) := Step(acc, event, setting);
    KeepsCore(acc, event, setting);
    assert after.core.parts == acc.core.parts + [StartedBy(event).value];
    assert RenderAll(after.core.parts) == parts + [FirstView(part)] by {
      assert RenderAll(acc.core.parts) == parts;
    }
    if status == Running {
      StartKeepsId(acc.core, event);
      ExactStep(acc, event, setting);
      forall k | k in after.core.byKey ensures exists i :: 0 <= i < |parts| + 1 && k == Decimal(i) {
        if k == key { assert k == Decimal(|parts|); }
      }
    }
  }

  lemma {:induction false} RestoreArgs(acc: Acc, parts: seq<Part>, part: Part, setting: Setting)
    requires part.CallPart? && Restored(acc, parts + [FirstView(part)], setting)
    requires var key := Decimal(|parts|); key in acc.core.byKey && acc.core.byKey[key] == |parts|
    ensures var (after, status) := Step(acc, CallDeltaEvent(Decimal(|parts|), "", part.args), setting);
      && (status == Running || status == Cancelled)
      && (status == Running ==> Restored(after, parts + [part], setting))
  {
    hide Decimal, FirstView, Render, RenderAll, StartedBy, UpdatedBy, ExactView, Watch, Step, PartOk, KeepsId, Announce,
      CoreOk, Mirrors;
    var key := Decimal(|parts|);
    var event := CallDeltaEvent(key, "", part.args);
    DecimalInverts(|parts|);
    assert RenderAll(acc.core.parts)[|parts|] == FirstView(part);
    CallAt(acc.core, key);
    ArgsRender(acc.core, part, key);
    StepSeen(acc, event, setting);
    var (after, status) := Step(acc, event, setting);
    KeepsCore(acc, event, setting);
    if status == Running {
      ExactStep(acc, event, setting);
      assert forall i :: 0 <= i < |parts| ==> RenderAll(acc.core.parts)[i] == parts[i];
      assert RenderAll(after.core.parts) == parts + [part];
    }
  }

  lemma CallAt(core: Core, key: string)
    requires CoreOk(core) && key in core.byKey
    ensures core.parts[core.byKey[key]].key == key && PartOk(core.parts[core.byKey[key]])
  {}

  lemma StartKeepsId(core: Core, event: ModelEvent)
    requires InRange(core) && IsPartEvent(event) && Target(core, event).None?
    ensures KeepsId(core, event)
  {}

  lemma {:induction false} KeepsCore(acc: Acc, event: ModelEvent, setting: Setting)
    requires AccOk(acc) && IsPartEvent(event) && Advance(acc.core, event).Some?
    ensures var (after, status) := Step(acc, event, setting);
      after.core == Advance(acc.core, event).value.0 && (status == Running || status == Cancelled)
  {
    hide Advance, Render, Announcement;
  }

  lemma {:induction false} RestorePart(events: seq<ModelEvent>, parts: seq<Part>, part: Part, setting: Setting)
    requires var (acc, status) := Run(events, setting);
      status == Cancelled || (status == Running && Restored(acc, parts, setting))
    ensures var (acc, status) := Run(events + PartEvents(part, Decimal(|parts|)), setting);
      status == Cancelled || (status == Running && Restored(acc, parts + [part], setting))
  {
    hide Run, Step, Decimal, Restored;
    var key := Decimal(|parts|);
    var own := PartEvents(part, key);
    RunMore(events, own[0], setting);
    if Run(events, setting).1 == Running {
      RestoreFirst(Run(events, setting).0, parts, part, setting);
    }
    if part.CallPart? {
      assert events + own == events + [own[0]] + [own[1]];
      RunMore(events + [own[0]], own[1], setting);
      if Run(events + [own[0]], setting).1 == Running {
        RestoreArgs(Run(events + [own[0]], setting).0, parts, part, setting);
      }
    } else {
      assert own == [own[0]];
    }
  }

  lemma NothingRestored(setting: Setting)
    ensures Run([], setting) == (EMPTY, Running) && Restored(EMPTY, [], setting)
  {
    hide Step, Consume, Render, Decimal;
  }

  lemma {:induction false} RestoreAll(parts: seq<Part>, setting: Setting)
    ensures var (acc, status) := Run(AllEvents(parts), setting);
      status == Cancelled || (status == Running && Restored(acc, parts, setting))
  {
    hide Run, Decimal, Restored, PartEvents, Step;
    if parts == [] {
      NothingRestored(setting);
    } else {
      var last := |parts| - 1;
      RestoreAll(parts[..last], setting);
      RestorePart(AllEvents(parts[..last]), parts[..last], parts[last], setting);
      assert parts[..last] + [parts[last]] == parts;
    }
  }

  lemma {:induction false} FinishReplay(body: seq<ModelEvent>, response: ModelResponse, setting: Setting)
    requires Run(body, setting).1 == Running && Restored(Run(body, setting).0, response.parts, setting)
    ensures var events := body + [FinishEvent(Some(response.parts), Completed(response.fields))];
      var (acc, status) := Run(events, setting);
      && status in {Finished, FinishRefused, Cancelled}
      && (status != Cancelled ==>
            && RenderAll(acc.core.parts) == response.parts
            && Seen(acc, setting).Some? && Seen(acc, setting).value.view == response.parts
            && Response(events, setting) == Some(ModelResponse(response.parts, Completed(response.fields))))
  {
    hide RenderAll, Watch, Render, Announcement, Completed, Consume, Decimal, CoreOk, Mirrors, EndLast;
    var finish := FinishEvent(Some(response.parts), Completed(response.fields));
    var acc := Run(body, setting).0;
    RunMore(body, finish, setting);
    assert (body + [finish])[..|body|] == body;
    FinishSeen(acc, finish.fields, finish.snapshot, setting);
    FinishStatus(acc, finish, setting);
    hide Run, Step;
  }

  lemma FinishStatus(acc: Acc, finish: ModelEvent, setting: Setting)
    requires AccOk(acc) && finish.FinishEvent?
    ensures Step(acc, finish, setting).1 in {Finished, FinishRefused, Cancelled}
  {
    hide Render;
  }

  /** Replaying a response never breaks the stream: it restores every part, in the accumulator and in the
      consumer's view, and the whole response, unless the consumer refuses an event. */
  lemma {:induction false} ReplayRestoresResponse(response: ModelResponse, setting: Setting)
    ensures var events := ReplayAsEvents(response);
      var (acc, status) := Run(events, setting);
      && status in {Finished, FinishRefused, Cancelled}
      && (status != Cancelled ==>
            && RenderAll(acc.core.parts) == response.parts
            && Seen(acc, setting).Some? && Seen(acc, setting).value.view == response.parts
            && Response(events, setting) == Some(response.(fields := response.fields.(state :=
                 if response.fields.state == "" then "complete" else response.fields.state))))
      && (status != Finished ==> |acc.emitted| == setting.accepts + 1)
  {
    hide AllEvents, RenderAll, Watch, Run, Response, Restored;
    var body := AllEvents(response.parts);
    var finish := FinishEvent(Some(response.parts), Completed(response.fields));
    NeverCalledAfterRefusal(body + [finish], setting);
    RestoreAll(response.parts, setting);
    if Run(body, setting).1 == Running {
      FinishReplay(body, response, setting);
    } else {
      StillCancelled(body, finish, setting);
    }
  }

  lemma StillCancelled(events: seq<ModelEvent>, finish: ModelEvent, setting: Setting)
    requires Run(events, setting).1 == Cancelled
    ensures Run(events + [finish], setting).1 == Cancelled
  {
    hide Step;
    assert (events + [finish])[..|events|] == events;
  }

  predicate CarriesNothing(part: Part) {
    match part
    case TextPart(text, id, provider, details) => text == "" && id == "" && provider == "" && details == map[]
    case ThinkingPart(thought, id, signature, provider, details) =>
      thought == "" && id == "" && signature == "" && provider == "" && details == map[]
    case _ => false
  }

  lemma NothingToKeep(part: AccPart)
    requires PartOk(part)
    ensures Kept(part) <==> !CarriesNothing(Render(part))
  {}

  /** Even without the snapshot the parts come back, exactly when none of them is an empty text or
      thinking part. */
  lemma {:induction false} ReplayWithoutSnapshot(response: ModelResponse, setting: Setting)
    requires Run(AllEvents(response.parts), setting).1 == Running
    ensures Materialize(Run(AllEvents(response.parts), setting).0.core.parts) == response.parts
       <==> forall i :: 0 <= i < |response.parts| ==> !CarriesNothing(response.parts[i])
  {
    hide Run, Render, Kept, CarriesNothing, AllEvents, PartOk, Watch, Materialize, ExactView, Mirrors;
    RestoreAll(response.parts, setting);
    var acc := Run(AllEvents(response.parts), setting).0;
    MaterializeKept(acc.core.parts);
    forall i | 0 <= i < |response.parts| ensures Kept(acc.core.parts[i]) <==> !CarriesNothing(response.parts[i]) {
      assert RenderAll(acc.core.parts)[i] == Render(acc.core.parts[i]);
      NothingToKeep(acc.core.parts[i]);
    }
  }
}
