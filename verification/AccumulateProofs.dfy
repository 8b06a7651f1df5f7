/** The accumulator and its consumer agree after every event. */
module AccumulateProofs {
  import opened Options
  import opened StreamEvents
  import opened AccumulateSpec

  /** Keys name distinct parts, and every part is stored the way its kind is. */
  ghost predicate CoreOk(core: Core) {
    && InRange(core)
    && (forall key :: key in core.byKey ==> key != "" && core.parts[core.byKey[key]].key == key)
    && (forall i :: 0 <= i < |core.parts| && core.parts[i].key != "" ==>
          core.parts[i].key in core.byKey && core.byKey[core.parts[i].key] == i)
    && (forall i :: 0 <= i < |core.parts| ==> PartOk(core.parts[i]))
  }

  lemma RenderKind(part: AccPart)
    requires PartOk(part)
    ensures KindOf(Render(part)) == part.kind
  {}

  lemma StartedOk(event: ModelEvent)
    requires IsPartEvent(event) && StartedBy(event).Some?
    ensures PartOk(StartedBy(event).value) && StartedBy(event).value.key == event.part
  {}

  /** What the consumer does with a delta is what the accumulator did with the event, up to the part ID
      that text and thinking deltas do not carry. */
  lemma UpdateMatchesDelta(part: AccPart, event: ModelEvent, view: Part)
    requires PartOk(part) && IsPartEvent(event) && UpdatedBy(part, event).Some?
    requires SameButId(view, Render(part))
    ensures var (updated, delta) := UpdatedBy(part, event).value;
      && PartOk(updated) && updated.key == part.key && updated.kind == part.kind
      && Apply(delta, view).Some? && SameButId(Apply(delta, view).value, Render(updated))
  {
    RenderKind(part);
    match event
    case TextEvent(_, _, _, _, _) =>
    case ThinkingEvent(_, _, _, _, _, _) =>
    case SpeechEvent(_, _, _, _, _, _) =>
    case CallDeltaEvent(_, _, _) =>
    case FileEvent(_, _, _) =>
    case _ =>
  }

  lemma {:induction false} AdvanceOk(core: Core, event: ModelEvent)
    requires CoreOk(core) && IsPartEvent(event) && Advance(core, event).Some?
    ensures CoreOk(Advance(core, event).value.0)
  {
    hide Render, SameButId, Apply;
    var target := Target(core, event);
    if target.None? {
      StartedOk(event);
    } else {
      var part := core.parts[target.value];
      UpdateMatchesDelta(part, event, Render(part));
    }
  }

  function Seen(acc: Acc, setting: Setting): Option<Consumer> { Watch(setting.rule, acc.emitted) }

  /** Between events the consumer has every part, and waits for nothing. */
  ghost predicate InStep(acc: Acc, setting: Setting) {
    && AccOk(acc) && CoreOk(acc.core)
    && acc.lastStarted == (if acc.core.parts == [] then None else Some(|acc.core.parts| - 1))
    && var seen := Seen(acc, setting);
    && seen.Some? && seen.value.ended.None? && seen.value.due.None? && !seen.value.finished
    && seen.value.announced == acc.finalSent
    && Mirrors(seen.value.view, RenderAll(acc.core.parts))
  }

  /** After a refused event the consumer still has a lawful view of all parts, or of all but a last one
      it was never told about. */
  ghost predicate CutShort(acc: Acc, setting: Setting) {
    && AccOk(acc)
    && var seen := Seen(acc, setting);
    && seen.Some? && !seen.value.finished && |seen.value.view| <= |acc.core.parts| <= |seen.value.view| + 1
    && Mirrors(seen.value.view, RenderAll(acc.core.parts)[..|seen.value.view|])
  }

  ghost predicate Told(acc: Acc, setting: Setting) {
    && AccOk(acc)
    && var seen := Seen(acc, setting);
    && seen.Some? && seen.value.finished && seen.value.due.None?
    && Mirrors(seen.value.view, RenderAll(acc.core.parts))
  }

  /** The event does not give a text or thinking part an ID it does not already have. */
  predicate KeepsId(core: Core, event: ModelEvent)
    requires InRange(core)
  {
    (event.TextEvent? || event.ThinkingEvent?) && Target(core, event).Some? ==>
      event.id == "" || event.id == core.parts[Target(core, event).value].responseId
  }

  ghost predicate ExactView(acc: Acc, setting: Setting) {
    Seen(acc, setting).Some? && Seen(acc, setting).value.view == RenderAll(acc.core.parts)
  }

  lemma ExactUpdate(part: AccPart, event: ModelEvent)
    requires PartOk(part) && IsPartEvent(event) && UpdatedBy(part, event).Some?
    ensures var (updated, delta) := UpdatedBy(part, event).value;
      Apply(delta, Render(part)) == Some(Render(updated))
      <==> ((event.TextEvent? || event.ThinkingEvent?) ==> event.id == "" || event.id == part.responseId)
  {
    UpdateMatchesDelta(part, event, Render(part));
    RenderKind(part);
  }

  lemma SameKind(a: Part, b: Part)
    ensures SameButId(a, a)
    ensures SameButId(a, b) ==> KindOf(a) == KindOf(b)
  {}

  lemma {:induction false} LastKindMirrors(view: seq<Part>, parts: seq<AccPart>)
    requires Mirrors(view, RenderAll(parts)) && forall i :: 0 <= i < |parts| ==> PartOk(parts[i])
    ensures LastKind(view) == if parts == [] then None else Some(parts[|parts| - 1].kind)
  {
    hide Render, PartOk, RenderAll, SameButId, KindOf;
    if parts != [] {
      RenderKind(parts[|parts| - 1]);
      SameKind(view[|view| - 1], Render(parts[|parts| - 1]));
    }
  }

  /** Ending the last part leaves the consumer ready for a part of the next kind, or for the finish. */
  lemma {:induction false} EndSeen(acc: Acc, next: Option<Kind>, setting: Setting)
    requires InStep(acc, setting)
    ensures var seen, ended := Seen(acc, setting).value, Seen(EndLast(acc, next, setting).0, setting);
      ended == Some(seen.(ended := if acc.core.parts == [] then None else Some(next)))
  {
    hide Watch, PartOk, KindOf;
    if acc.lastStarted.Some? {
      var last := acc.lastStarted.value;
      WatchAppend(setting.rule, acc.emitted,
        PartEnd(last, acc.core.parts[last].key, Render(acc.core.parts[last]), next));
    }
  }

  /** A start that follows the end before it is lawful, and so is the announcement it calls for. */
  lemma {:induction false} StartLawful(rule: OutputRule, events: seq<StreamEvent>, consumer: Consumer, key: string,
                                       part: Part)
    requires Watch(rule, events) == Some(consumer) && consumer.due.None? && !consumer.finished
    requires consumer.ended == if consumer.view == [] then None else Some(Some(KindOf(part)))
    ensures var start := PartStart(|consumer.view|, key, part, LastKind(consumer.view));
      var due := if consumer.announced then None else Announcement(rule, part);
      var started := consumer.(view := consumer.view + [part], ended := None, due := due);
      && Watch(rule, events + [start]) == Some(started)
      && (due.Some? ==> Watch(rule, events + [start] + [due.value]) == Some(started.(due := None, announced := true)))
  {
    hide Watch, KindOf;
    var start := PartStart(|consumer.view|, key, part, LastKind(consumer.view));
    WatchAppend(rule, events, start);
    var due := if consumer.announced then None else Announcement(rule, part);
    if due.Some? {
      AnnouncesResult(rule, part);
      WatchAppend(rule, events + [start], due.value);
    }
  }

  lemma AnnouncesResult(rule: OutputRule, part: Part)
    ensures Announcement(rule, part).Some? ==> Announcement(rule, part).value.FinalResult?
  {}

  lemma {:induction false} MirrorsGrows(view: seq<Part>, parts: seq<AccPart>, part: AccPart)
    requires Mirrors(view, RenderAll(parts))
    ensures Mirrors(view, RenderAll(parts + [part])[..|view|])
    ensures Mirrors(view + [Render(part)], RenderAll(parts + [part]))
    ensures view == RenderAll(parts) ==> view + [Render(part)] == RenderAll(parts + [part])
  {
    hide Render, SameButId;
    SameKind(Render(part), Render(part));
    assert (parts + [part])[..|parts|] == parts;
    assert RenderAll(parts + [part]) == RenderAll(parts) + [Render(part)];
  }

  /** Starting the next part: the consumer is told of it, or the run is cut short. */
  lemma {:induction false} StartSeen(acc: Acc, part: AccPart, core: Core, setting: Setting)
    requires InStep(acc, setting) && PartOk(part) && CoreOk(core)
    requires core.parts == acc.core.parts + [part]
    ensures var (after, more) := StartPart(acc.(core := core), |acc.core.parts|, setting);
      && after.core == core
      && (if more then InStep(after, setting) else CutShort(after, setting))
      && (more && ExactView(acc, setting) ==> ExactView(after, setting))
  {
    hide Watch, KindOf, Announcement, PartOk, Render, RenderAll, SameButId, Consume;
    var index := |acc.core.parts|;
    var seen := Seen(acc, setting).value;
    var moved := acc.(core := core);
    RenderKind(part);
    LastKindMirrors(seen.view, acc.core.parts);
    MirrorsGrows(seen.view, acc.core.parts, part);
    EndSeen(acc, Some(part.kind), setting);
    var (ended, more) := EndLast(moved, Some(part.kind), setting);
    assert ended.emitted == EndLast(acc, Some(part.kind), setting).0.emitted;
    if more {
      StartLawful(setting.rule, ended.emitted, Seen(ended, setting).value, part.key, Render(part));
      AnnouncesResult(setting.rule, Render(part));
      assert RenderAll(core.parts)[..|core.parts|] == RenderAll(core.parts);
    }
  }

  lemma {:induction false} MirrorsUpdate(view: seq<Part>, parts: seq<AccPart>, index: nat, part: Part, updated: AccPart)
    requires Mirrors(view, RenderAll(parts)) && index < |parts| && SameButId(part, Render(updated))
    ensures Mirrors(view[index := part], RenderAll(parts[index := updated]))
    ensures view == RenderAll(parts) ==>
      (view[index := part] == RenderAll(parts[index := updated]) <==> part == Render(updated))
  {
    hide Render, RenderAll, SameButId;
    var after := parts[index := updated];
    forall i | 0 <= i < |view| ensures SameButId(view[index := part][i], RenderAll(after)[i]) {
      assert SameButId(view[i], RenderAll(parts)[i]);
    }
    if view == RenderAll(parts) {
      assert view[index := part][index] == part && RenderAll(after)[index] == Render(updated);
      assert forall i :: 0 <= i < |view| && i != index ==> view[index := part][i] == RenderAll(after)[i];
    }
  }

  lemma {:induction false} UpdateFacts(core: Core, event: ModelEvent, view: Part)
    requires CoreOk(core) && IsPartEvent(event) && Target(core, event).Some? && Advance(core, event).Some?
    requires SameButId(view, Render(core.parts[Target(core, event).value]))
    ensures var index := Target(core, event).value;
      var (after, change) := Advance(core, event).value;
      && CoreOk(after) && |after.parts| == |core.parts|
      && after.parts == core.parts[index := after.parts[index]]
      && change.Updated? && change.index == index
      && Apply(change.delta, view).Some? && SameButId(Apply(change.delta, view).value, Render(after.parts[index]))
      && (view == Render(core.parts[index]) ==>
            (Apply(change.delta, view).value == Render(after.parts[index]) <==> KeepsId(core, event)))
  {
    AdvanceOk(core, event);
    var part := core.parts[Target(core, event).value];
    UpdateMatchesDelta(part, event, view);
    ExactUpdate(part, event);
    hide Render, SameButId, UpdatedBy, StartedBy, Apply, Target, CoreOk, PartOk;
  }

  lemma {:induction false} UpdateSeen(acc: Acc, event: ModelEvent, setting: Setting)
    requires InStep(acc, setting) && IsPartEvent(event)
    requires Target(acc.core, event).Some? && Advance(acc.core, event).Some?
    ensures var (core, change) := Advance(acc.core, event).value;
      var (after, more) := Announce(acc.(core := core), change, setting);
      && after.core == core && InStep(after, setting) && CutShort(after, setting)
      && (ExactView(acc, setting) ==> (ExactView(after, setting) <==> KeepsId(acc.core, event)))
  {
    hide Watch, PartOk, Render, RenderAll, SameButId, Apply, Target, Advance, CoreOk, KeepsId;
    var index := Target(acc.core, event).value;
    var (core, change) := Advance(acc.core, event).value;
    var seen := Seen(acc, setting).value;
    UpdateFacts(acc.core, event, seen.view[index]);
    var updated := core.parts[index];
    MirrorsUpdate(seen.view, acc.core.parts, index, Apply(change.delta, seen.view[index]).value, updated);
    WatchAppend(setting.rule, acc.emitted, PartDelta(index, updated.key, change.delta));
    assert RenderAll(core.parts)[..|core.parts|] == RenderAll(core.parts);
  }

  lemma {:induction false} FinishSeen(acc: Acc, fields: Fields, snapshot: Option<seq<Part>>, setting: Setting)
    requires InStep(acc, setting)
    ensures var (after, status) := Step(acc, FinishEvent(snapshot, fields), setting);
      if status == Cancelled then CutShort(after, setting)
      else Told(after, setting) && after.core == acc.core && (ExactView(acc, setting) ==> ExactView(after, setting))
  {
    hide Watch, PartOk, RenderAll, Render, SameButId, CoreOk;
    EndSeen(acc, None, setting);
    var ended := EndLast(acc, None, setting).0;
    WatchAppend(setting.rule, ended.emitted, Finish(fields));
    var parts := acc.core.parts;
    assert RenderAll(parts)[..|parts|] == RenderAll(parts);
  }

  lemma {:induction false} StartEventSeen(acc: Acc, event: ModelEvent, setting: Setting)
    requires InStep(acc, setting) && IsPartEvent(event)
    requires Target(acc.core, event).None? && Advance(acc.core, event).Some?
    ensures var (core, change) := Advance(acc.core, event).value;
      var (after, more) := Announce(acc.(core := core), change, setting);
      && (if more then InStep(after, setting) else CutShort(after, setting))
      && (more && ExactView(acc, setting) ==> ExactView(after, setting))
  {
    AdvanceOk(acc.core, event);
    StartedOk(event);
    hide Watch, PartOk, RenderAll, UpdatedBy, StartedBy, StartPart, Target, CoreOk, InStep, CutShort;
    StartSeen(acc, StartedBy(event).value, Advance(acc.core, event).value.0, setting);
  }

  lemma {:induction false} StepSeen(acc: Acc, event: ModelEvent, setting: Setting)
    requires InStep(acc, setting)
    ensures var (after, status) := Step(acc, event, setting);
      && (status in {Running, Rejected, Failed} ==> InStep(after, setting))
      && (status == Cancelled ==> CutShort(after, setting))
      && (status in {Finished, FinishRefused} ==> Told(after, setting))
  {
    hide Watch, PartOk, RenderAll, UpdatedBy, StartedBy, StartPart, CoreOk, Target, Mirrors;
    if IsPartEvent(event) {
      var advance := Advance(acc.core, event);
      if advance.Some? {
        if Target(acc.core, event).Some? {
          UpdateSeen(acc, event, setting);
        } else {
          StartEventSeen(acc, event, setting);
        }
      }
    } else if event.FinishEvent? {
      FinishSeen(acc, event.fields, event.snapshot, setting);
    }
  }

  /** For any provider stream, any output rule and any point at which the consumer stops accepting: the
      events sent obey the lifecycle `Consume` checks, and folding them gives the accumulated parts. */
  lemma {:induction false} ConsumerMirrorsAccumulator(events: seq<ModelEvent>, setting: Setting)
    ensures var (acc, status) := Run(events, setting);
      && (status in {Running, Rejected, Failed} ==> InStep(acc, setting))
      && (status == Cancelled ==> CutShort(acc, setting))
      && (status in {Finished, FinishRefused} ==> Told(acc, setting))
  {
    if events != [] {
      var last := |events| - 1;
      ConsumerMirrorsAccumulator(events[..last], setting);
      if Run(events[..last], setting).1 == Running {
        StepSeen(Run(events[..last], setting).0, events[last], setting);
      }
    }
  }

  /** From an exact view, an accepted event keeps the view exact, IDs included, exactly when it keeps
      the ID of the part it updates; a part that starts is always seen whole. */
  lemma {:induction false} ExactStep(acc: Acc, event: ModelEvent, setting: Setting)
    requires InStep(acc, setting) && ExactView(acc, setting) && Step(acc, event, setting).1 == Running
    ensures ExactView(Step(acc, event, setting).0, setting) <==> KeepsId(acc.core, event)
  {
    hide Watch, PartOk, RenderAll, UpdatedBy, StartedBy, StartPart;
    if IsPartEvent(event) {
      if Target(acc.core, event).Some? {
        UpdateSeen(acc, event, setting);
      } else {
        StartEventSeen(acc, event, setting);
      }
    }
  }

  lemma RunUnfolds(events: seq<ModelEvent>, setting: Setting)
    requires events != [] && Run(events, setting).1 == Running
    ensures var front := Run(events[..|events| - 1], setting);
      front.1 == Running && Run(events, setting) == Step(front.0, events[|events| - 1], setting)
  {
    hide Step;
  }

  /** Over a whole run: the view is exact after every event exactly when no event changes an ID. */
  lemma {:induction false} ExactRun(events: seq<ModelEvent>, setting: Setting)
    requires Run(events, setting).1 == Running
    ensures (forall n :: 0 <= n <= |events| ==> ExactView(Run(events[..n], setting).0, setting))
       <==> (forall n :: 0 <= n < |events| ==> KeepsId(Run(events[..n], setting).0.core, events[n]))
  {
    hide ExactView, KeepsId, Step, InStep, Run;
    if events == [] {
      StartsExact(setting);
    } else {
      var last := |events| - 1;
      var front := events[..last];
      RunUnfolds(events, setting);
      ConsumerMirrorsAccumulator(front, setting);
      ExactRun(front, setting);
      assert forall n :: 0 <= n <= last ==> front[..n] == events[..n];
      assert events[..|events|] == events;
      if ExactView(Run(front, setting).0, setting) {
        ExactStep(Run(front, setting).0, events[last], setting);
      } else {
        assert front[..last] == front;
      }
      if forall n :: 0 <= n <= |events| ==> ExactView(Run(events[..n], setting).0, setting) {
        forall n | 0 <= n <= last ensures ExactView(Run(front[..n], setting).0, setting) {
          assert ExactView(Run(events[..n], setting).0, setting);
        }
        forall n | 0 <= n < |events| ensures KeepsId(Run(events[..n], setting).0.core, events[n]) {
          if n < last { assert KeepsId(Run(front[..n], setting).0.core, front[n]); }
        }
      }
      if forall n :: 0 <= n < |events| ==> KeepsId(Run(events[..n], setting).0.core, events[n]) {
        forall n | 0 <= n < last ensures KeepsId(Run(front[..n], setting).0.core, front[n]) {
          assert KeepsId(Run(events[..n], setting).0.core, events[n]);
        }
        forall n | 0 <= n <= |events| ensures ExactView(Run(events[..n], setting).0, setting) {
          if n <= last { assert ExactView(Run(front[..n], setting).0, setting); }
        }
      }
    }
  }

  lemma StartsExact(setting: Setting)
    ensures Run([], setting) == (EMPTY, Running) && ExactView(EMPTY, setting)
  {}

  // ----- the response and the consumer's view -----

  predicate AllKept(parts: seq<AccPart>) { forall i :: 0 <= i < |parts| ==> Kept(parts[i]) }

  lemma {:induction false} MaterializeKept(parts: seq<AccPart>)
    ensures |Materialize(parts)| <= |parts|
    ensures |Materialize(parts)| == |parts| <==> AllKept(parts)
    ensures AllKept(parts) ==> Materialize(parts) == RenderAll(parts)
  {
    hide Kept, Render;
    if parts != [] {
      var front := parts[..|parts| - 1];
      MaterializeKept(front);
      assert AllKept(parts) <==> AllKept(front) && Kept(parts[|parts| - 1]);
    }
  }

  /** Without a snapshot, a consumer that saw the whole stream holds the response's parts exactly when
      no part was dropped for carrying nothing. */
  lemma {:induction false} ViewIsResponse(events: seq<ModelEvent>, fields: Fields, setting: Setting)
    requires Run(events, setting).1 == Running
    requires Run(events + [FinishEvent(None, fields)], setting).1 == Finished
    ensures var all := events + [FinishEvent(None, fields)];
      var acc := Run(all, setting).0;
      && Response(all, setting).Some? && Seen(acc, setting).Some?
      && (Mirrors(Seen(acc, setting).value.view, Response(all, setting).value.parts) <==> AllKept(acc.core.parts))
  {
    hide Step, Materialize, RenderAll, Watch, InStep, CutShort, Kept, SameButId;
    var finish := FinishEvent(None, fields);
    var all := events + [finish];
    assert all[..|events|] == events;
    ConsumerMirrorsAccumulator(all, setting);
    MaterializeKept(Run(all, setting).0.core.parts);
  }

  lemma {:induction false} AnnounceCalls(acc: Acc, change: Change, setting: Setting)
    requires AccOk(acc) && change.index < |acc.core.parts| && |acc.emitted| <= setting.accepts
    ensures var (after, more) := Announce(acc, change, setting);
      if more then |after.emitted| <= setting.accepts else |after.emitted| == setting.accepts + 1
  {
    hide Render, Announcement;
  }

  lemma {:induction false} StepCalls(acc: Acc, event: ModelEvent, setting: Setting)
    requires AccOk(acc) && |acc.emitted| <= setting.accepts
    ensures var (after, status) := Step(acc, event, setting);
      if status == Cancelled || status == FinishRefused then |after.emitted| == setting.accepts + 1
      else |after.emitted| <= setting.accepts
  {
    hide Advance, Render, Announcement, Announce;
    if IsPartEvent(event) && Advance(acc.core, event).Some? {
      var (core, change) := Advance(acc.core, event).value;
      AnnounceCalls(acc.(core := core), change, setting);
    }
  }

  /** The consumer is never called again after it refuses an event. */
  lemma {:induction false} NeverCalledAfterRefusal(events: seq<ModelEvent>, setting: Setting)
    ensures var (acc, status) := Run(events, setting);
      if status == Cancelled || status == FinishRefused then |acc.emitted| == setting.accepts + 1
      else |acc.emitted| <= setting.accepts
  {
    hide Step;
    if events != [] {
      var front := events[..|events| - 1];
      NeverCalledAfterRefusal(front, setting);
      if Run(front, setting).1 == Running {
        StepCalls(Run(front, setting).0, events[|events| - 1], setting);
      }
    }
  }
}
