/** The accumulator as it runs: one loop over the provider's events that updates parts in place and
    sends the consumer an event for each change. */
module Accumulator {
  import opened Options
  import opened StreamEvents
  import opened AccumulateSpec

  /** A step did what `Step` says. A rejected event may leave its part current, which nobody sees. */
  ghost predicate Did(before: Acc, event: ModelEvent, after: Acc, status: Status, setting: Setting)
    requires AccOk(before)
  {
    && AccOk(after) && status == Step(before, event, setting).1
    && (status != Rejected ==> after == Step(before, event, setting).0)
    && (status == Rejected ==> after.emitted == before.emitted)
  }

  lemma StepStarts(acc: Acc, event: ModelEvent, part: AccPart, setting: Setting)
    requires AccOk(acc) && IsPartEvent(event) && Target(acc.core, event).None? && StartedBy(event) == Some(part)
    ensures var index := |acc.core.parts|;
      var byKey := if event.part != "" then acc.core.byKey[event.part := index] else acc.core.byKey;
      var started := acc.(core := Core(acc.core.parts + [part], byKey, Some(index)));
      var (after, more) := Announce(started, Started(index), setting);
      Step(acc, event, setting) == (after, if more then Running else Cancelled)
  {
    hide Announce, StartedBy, UpdatedBy, Target;
  }

  lemma StepUpdates(acc: Acc, event: ModelEvent, index: nat, updated: AccPart, delta: Delta, setting: Setting)
    requires AccOk(acc) && IsPartEvent(event) && Target(acc.core, event) == Some(index)
    requires UpdatedBy(acc.core.parts[index], event) == Some((updated, delta))
    ensures var core := Core(acc.core.parts[index := updated], acc.core.byKey, Some(index));
      var (after, more) := Announce(acc.(core := core), Updated(index, delta), setting);
      Step(acc, event, setting) == (after, if more then Running else Cancelled)
  {
    hide Announce, StartedBy, UpdatedBy, Target;
  }

  lemma StepRejects(acc: Acc, event: ModelEvent, setting: Setting)
    requires AccOk(acc) && IsPartEvent(event)
    requires var target := Target(acc.core, event);
      if target.None? then StartedBy(event).None? else UpdatedBy(acc.core.parts[target.value], event).None?
    ensures Step(acc, event, setting) == (acc, Rejected)
  {
    hide Announce, StartedBy, UpdatedBy, Target;
  }

  class Accumulator {
    const setting: Setting
    var parts: seq<AccPart>
    var byKey: map<string, nat>
    var current: Option<nat>
    var lastStarted: Option<nat>
    var finalSent: bool
    var emitted: seq<StreamEvent>
    var fields: Fields

    ghost function State(): Acc
      reads this
    {
      Acc(Core(parts, byKey, current), lastStarted, finalSent, emitted, fields)
    }

    constructor (setting: Setting)
      ensures State() == EMPTY && this.setting == setting
    {
      this.setting := setting;
      parts, byKey, current, lastStarted, finalSent, emitted, fields := [], map[], None, None, false, [], NO_FIELDS;
    }

    method EmitEvent(event: StreamEvent) returns (more: bool)
      modifies this
      ensures (State(), more) == Emit(old(State()), event, setting)
    {
      more := |emitted| < setting.accepts;
      emitted := emitted + [event];
    }

    method NewPart(key: string, kind: Kind) returns (index: nat)
      modifies this
      ensures index == old(|parts|)
      ensures State() == old(State()).(core := Core(old(parts) + [Blank(key, kind)],
                if key != "" then old(byKey)[key := index] else old(byKey), Some(index)))
    {
      index := |parts|;
      parts := parts + [Blank(key, kind)];
      if key != "" { byKey := byKey[key := index]; }
      current := Some(index);
    }

    /** The part a delta continues: the one with its key, or the current one, or a new one. None when
        the part with its key is of another kind. */
    method PartForDelta(key: string, kind: Kind) returns (index: Option<nat>, started: bool)
      requires InRange(State().core)
      modifies this
      ensures var known :=
          if key != "" then key in old(byKey) else old(current).Some? && old(parts[current.value]).kind == kind;
        var found := if key != "" && known then Some(old(byKey)[key]) else old(current);
        && started == !known
        && (if !known then
              && index == Some(old(|parts|))
              && State() == old(State()).(core := Core(old(parts) + [Blank(key, kind)],
                   if key != "" then old(byKey)[key := old(|parts|)] else old(byKey), index))
            else if old(parts)[found.value].kind != kind then index.None? && State() == old(State())
            else index == found && State() == old(State()).(core := old(State()).core.(current := found)))
    {
      if key != "" {
        if key in byKey {
          var part := byKey[key];
          if parts[part].kind != kind { return None, false; }
          current := Some(part);
          return current, false;
        }
        var added := NewPart(key, kind);
        return Some(added), true;
      }
      if current.Some? && parts[current.value].kind == kind { return current, false; }
      var added := NewPart("", kind);
      return Some(added), true;
    }

    method EndLastPart(next: Option<Kind>) returns (more: bool)
      requires AccOk(State())
      modifies this
      ensures (State(), more) == EndLast(old(State()), next, setting)
    {
      if lastStarted.None? { return true; }
      var part := parts[lastStarted.value];
      more := EmitEvent(PartEnd(lastStarted.value, part.key, Render(part), next));
    }

    method StartPart(index: nat) returns (more: bool)
      requires AccOk(State()) && index < |parts|
      modifies this
      ensures (State(), more) == AccumulateSpec.StartPart(old(State()), index, setting)
    {
      hide Render, Announcement;
      var part := parts[index];
      more := EndLastPart(Some(part.kind));
      if !more { return; }
      var previous := if lastStarted.Some? then Some(parts[lastStarted.value].kind) else None;
      lastStarted := Some(index);
      more := EmitEvent(PartStart(index, part.key, Render(part), previous));
      if !more || finalSent { return; }
      var announcement := Announcement(setting.rule, Render(part));
      if announcement.Some? {
        finalSent := true;
        more := EmitEvent(announcement.value);
      }
    }

    /** Tells the consumer of a part just started, or of an update to it. */
    method Tell(index: nat, started: bool, delta: Delta) returns (status: Status)
      requires AccOk(State()) && index < |parts|
      modifies this
      ensures var change := if started then Started(index) else Updated(index, delta);
        var (after, more) := Announce(old(State()), change, setting);
        State() == after && status == if more then Running else Cancelled
    {
      var more;
      if started {
        more := StartPart(index);
      } else {
        more := EmitEvent(PartDelta(index, parts[index].key, delta));
      }
      status := if more then Running else Cancelled;
    }

    method OnText(event: ModelEvent) returns (status: Status)
      requires AccOk(State()) && event.TextEvent?
      modifies this
      ensures Did(old(State()), event, State(), status, setting)
    {
      hide Announce, Step, Advance;
      var index, started := PartForDelta(event.part, Text);
      if index.None? { StepRejects(State(), event, setting); return Rejected; }
      var part := parts[index.value];
      parts := parts[index.value :=
                       part.(text := part.text + event.text, responseId := Either(event.id, part.responseId),
                       provider := Either(event.provider, part.provider), details := part.details + event.details)];
      ghost var updated := parts[index.value];
      if started {
        assert "" + event.text == event.text && map[] + event.details == event.details;
        assert parts == old(parts) + [updated];
        StepStarts(old(State()), event, updated, setting);
      } else {
        var delta := TextDelta(event.text, event.provider, event.details);
        StepUpdates(old(State()), event, index.value, updated, delta, setting);
      }
      status := Tell(index.value, started, TextDelta(event.text, event.provider, event.details));
    }

    method OnThinking(event: ModelEvent) returns (status: Status)
      requires AccOk(State()) && event.ThinkingEvent?
      modifies this
      ensures Did(old(State()), event, State(), status, setting)
    {
      hide Announce, Step, Advance;
      var index, started := PartForDelta(event.part, Thinking);
      if index.None? { StepRejects(State(), event, setting); return Rejected; }
      var part := parts[index.value];
      parts := parts[index.value :=
                       part.(text := part.text + event.text, responseId := Either(event.id, part.responseId),
                       signature := Either(event.signature, part.signature),
                       provider := Either(event.provider, part.provider), details := part.details + event.details)];
      ghost var updated := parts[index.value];
      if started {
        assert "" + event.text == event.text && map[] + event.details == event.details;
        assert parts == old(parts) + [updated];
        StepStarts(old(State()), event, updated, setting);
      } else {
        var delta := ThinkingDelta(event.text, event.signature, event.provider, event.details);
        StepUpdates(old(State()), event, index.value, updated, delta, setting);
      }
      status := Tell(index.value, started, ThinkingDelta(event.text, event.signature, event.provider, event.details));
    }

    method OnSpeech(event: ModelEvent) returns (status: Status)
      requires AccOk(State()) && event.SpeechEvent?
      modifies this
      ensures Did(old(State()), event, State(), status, setting)
    {
      hide Announce, Step, Advance, ApplySpeech;
      var index, started := PartForDelta(event.part, SpeechKind);
      if index.None? { StepRejects(State(), event, setting); return Rejected; }
      var part := parts[index.value];
      if started {
        part := part.(speech := event.seed.(speaker := Either(event.seed.speaker, event.speaker)));
      }
      parts := parts[index.value := part.(speech := ApplySpeech(part.speech, SpeechDeltaOf(event)))];
      ghost var updated := parts[index.value];
      if started {
        assert parts == old(parts) + [updated];
        StepStarts(old(State()), event, updated, setting);
      } else {
        StepUpdates(old(State()), event, index.value, updated, SpeechDeltaOf(event), setting);
      }
      status := Tell(index.value, started, SpeechDeltaOf(event));
    }

    /** Parts that arrive whole, and the start of a call: a key already in use is an error. */
    method OnWhole(event: ModelEvent) returns (status: Status)
      requires AccOk(State())
      requires event.CompactionEvent? || event.CallStartEvent? || event.NativeReturnEvent?
      modifies this
      ensures Did(old(State()), event, State(), status, setting)
    {
      hide Announce, Step, Advance;
      if event.part != "" && event.part in byKey { StepRejects(State(), event, setting); return Rejected; }
      var index := NewPart(event.part, EventKind(event));
      var part := parts[index];
      match event {
        case CompactionEvent(_, text, id, provider, details) =>
          part := part.(text := text, responseId := id, provider := provider, details := details);
        case CallStartEvent(_, name, callId, toolKind, id, provider, details, _) =>
          part := part.(toolName := name, toolCallId := callId, toolKind := toolKind, responseId := id,
                        provider := provider, details := details);
        case NativeReturnEvent(_, payload) =>
          part := part.(complete := Some(NativeReturnPart(payload)));
      }
      parts := parts[index := part];
      assert parts == old(parts) + [part];
      StepStarts(old(State()), event, part, setting);
      status := Tell(index, true, FileDelta(""));
    }

    method OnCallDelta(event: ModelEvent) returns (status: Status)
      requires AccOk(State()) && event.CallDeltaEvent?
      modifies this
      ensures Did(old(State()), event, State(), status, setting)
    {
      hide Announce, Step, Advance;
      var index: Option<nat> := None;
      if event.part != "" {
        if event.part in byKey { index := Some(byKey[event.part]); }
      } else if current.Some? && IsCallKind(parts[current.value].kind) {
        index := current;
      }
      if index.None? || !IsCallKind(parts[index.value].kind) { StepRejects(State(), event, setting); return Rejected; }
      current := index;
      var part := parts[index.value];
      if event.callId != "" && part.toolCallId != "" && event.callId != part.toolCallId {
        StepRejects(old(State()), event, setting);
        return Rejected;
      }
      parts := parts[index.value := part.(toolCallId := Either(event.callId, part.toolCallId),
                       toolArgs := part.toolArgs + event.args)];
      StepUpdates(old(State()), event, index.value, parts[index.value],
                  CallDelta(part.kind == NativeToolCall, "", event.args, event.callId, ""), setting);
      status := Tell(index.value, false, CallDelta(part.kind == NativeToolCall, "", event.args, event.callId, ""));
    }

    method OnFile(event: ModelEvent) returns (status: Status)
      requires AccOk(State()) && event.FileEvent?
      modifies this
      ensures Did(old(State()), event, State(), status, setting)
    {
      hide Announce, Step, Advance;
      var started := !(event.part != "" && event.part in byKey);
      var index;
      if started {
        index := NewPart(event.part, File);
      } else {
        index := byKey[event.part];
        if parts[index].kind != File || !event.replace { StepRejects(State(), event, setting); return Rejected; }
        current := Some(index);
      }
      parts := parts[index := parts[index].(complete := Some(FilePart(event.payload)))];
      if started {
        assert parts == old(parts) + [parts[index]];
        StepStarts(old(State()), event, parts[index], setting);
      } else {
        StepUpdates(old(State()), event, index, parts[index], FileDelta(event.payload), setting);
      }
      status := Tell(index, started, FileDelta(event.payload));
    }

    method OnFinish(event: ModelEvent) returns (status: Status)
      requires AccOk(State()) && event.FinishEvent?
      modifies this
      ensures Did(old(State()), event, State(), status, setting)
    {
      var more := EndLastPart(None);
      if !more { return Cancelled; }
      fields := event.fields;
      more := EmitEvent(Finish(event.fields));
      status := if more then Finished else FinishRefused;
    }

    method OnEvent(event: ModelEvent) returns (status: Status)
      requires AccOk(State())
      modifies this
      ensures Did(old(State()), event, State(), status, setting)
    {
      match event
      case StreamError => status := Failed;
      case MetadataEvent(received) => fields := received; status := Running;
      case TextEvent(_, _, _, _, _) => status := OnText(event);
      case ThinkingEvent(_, _, _, _, _, _) => status := OnThinking(event);
      case SpeechEvent(_, _, _, _, _, _) => status := OnSpeech(event);
      case CallDeltaEvent(_, _, _) => status := OnCallDelta(event);
      case FileEvent(_, _, _) => status := OnFile(event);
      case FinishEvent(_, _) => status := OnFinish(event);
      case _ => status := OnWhole(event);
    }

    /** The parts worth keeping, in order. */
    method MaterializeParts() returns (kept: seq<Part>)
      ensures kept == Materialize(parts)
    {
      kept := [];
      var i := 0;
      while i < |parts|
        invariant 0 <= i <= |parts| && kept == Materialize(parts[..i])
      {
        assert parts[..i + 1][..i] == parts[..i];
        if Kept(parts[i]) { kept := kept + [Render(parts[i])]; }
        i := i + 1;
      }
      assert parts[..i] == parts;
    }

    method PartialResponse() returns (response: Option<ModelResponse>)
      ensures response == Partial(State())
    {
      var kept := MaterializeParts();
      if kept == [] && fields.providerResponseId == "" && fields.providerName == "" && fields.modelName == ""
         && fields.state == "" && fields.usage == 0 {
        return None;
      }
      response := Some(ModelResponse(kept, fields.(state := Either(fields.state, "incomplete"))));
    }

    /** Reads events until one ends the run. */
    method Accumulate(events: seq<ModelEvent>) returns (response: Option<ModelResponse>, status: Status)
      requires State() == EMPTY
      modifies this
      ensures status == Run(events, setting).1 && response == Response(events, setting)
      ensures emitted == Run(events, setting).0.emitted
    {
      hide Step, Materialize, Render;
      var i := 0;
      while i < |events|
        invariant 0 <= i <= |events| && AccOk(State())
        invariant Run(events[..i], setting) == (State(), Running)
      {
        StepExtends(events, i, setting);
        status := OnEvent(events[i]);
        if status != Running {
          StopsAt(events, i + 1, setting);
          Unfinished(events[..i + 1], setting);
          if status == Rejected {
            RejectedKeeps(Run(events[..i], setting).0, events[i], setting);
            return None, status;
          }
          if status == Finished || status == FinishRefused {
            EndsOnFinish(Run(events[..i], setting).0, events[i], setting);
            var kept := MaterializeParts();
            var finish := events[i];
            response := Some(ModelResponse(if finish.snapshot.Some? then finish.snapshot.value else kept, fields));
            FinishedResponse(events, i, setting);
            return response, status;
          }
          ghost var reached := State();
          assert reached == Run(events, setting).0;
          response := PartialResponse();
          assert State() == reached;
          assert response == Partial(reached);
          assert Response(events, setting) == Partial(reached);
          return response, status;
        }
        i := i + 1;
      }
      assert events[..i] == events;
      Unfinished(events, setting);
      response := PartialResponse();
      status := Running;
    }
  }

  lemma StepExtends(events: seq<ModelEvent>, n: nat, setting: Setting)
    requires n < |events| && Run(events[..n], setting).1 == Running
    ensures Run(events[..n + 1], setting) == Step(Run(events[..n], setting).0, events[n], setting)
  {
    hide Step;
    assert events[..n + 1][..n] == events[..n];
  }

  /** Nothing is read after the event that ends the run. */
  lemma {:induction false} StopsAt(events: seq<ModelEvent>, n: nat, setting: Setting)
    requires n <= |events| && Run(events[..n], setting).1 != Running
    ensures Run(events, setting) == Run(events[..n], setting)
    ensures Response(events, setting) == Response(events[..n], setting)
  {
    hide Step, Partial, Complete;
    if n == |events| {
      assert events[..n] == events;
    } else {
      assert events[..|events| - 1][..n] == events[..n];
      StopsAt(events[..|events| - 1], n, setting);
    }
  }

  lemma Unfinished(events: seq<ModelEvent>, setting: Setting)
    ensures var (acc, status) := Run(events, setting);
      && (status == Rejected ==> Response(events, setting).None?)
      && ((status == Running || status == Failed || status == Cancelled) ==> Response(events, setting) == Partial(acc))
  {
    hide Step, Partial, Complete;
  }

  lemma RejectedKeeps(acc: Acc, event: ModelEvent, setting: Setting)
    requires AccOk(acc) && Step(acc, event, setting).1 == Rejected
    ensures Step(acc, event, setting).0 == acc
  {
    hide Announce, Advance;
  }

  lemma EndsOnFinish(acc: Acc, event: ModelEvent, setting: Setting)
    requires AccOk(acc) && Step(acc, event, setting).1 in {Finished, FinishRefused}
    ensures event.FinishEvent? && Step(acc, event, setting).0.fields == event.fields
    ensures Step(acc, event, setting).0.core == acc.core
  {
    hide Announce, Advance;
  }

  lemma {:induction false} FinishedResponse(events: seq<ModelEvent>, n: nat, setting: Setting)
    requires n < |events| && Run(events[..n], setting).1 == Running && events[n].FinishEvent?
    requires Run(events[..n + 1], setting).1 in {Finished, FinishRefused}
    ensures Response(events[..n + 1], setting) == Some(Complete(Run(events[..n + 1], setting).0, events[n]))
  {
    hide Step, Complete;
    assert events[..n + 1][..n] == events[..n];
  }
}
