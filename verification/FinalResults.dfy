/** When the consumer of a stream is told that the run's result has begun, in terms of the events it is
    sent. */
module FinalResults {
  import opened Options
  import opened StreamEvents
  import opened AccumulateSpec
  import opened AccumulateProofs

  /** Free text, spoken or written, where the run may end with text; or a call of its output tool. */
  predicate IsResult(rule: OutputRule, part: Part) {
    || (part.TextPart? && rule.allowText)
    || (part.SpeechPart? && rule.allowText && part.speech.transcript.Some? && part.speech.transcript.value != "")
    || (part.CallPart? && !part.native && rule.outputTool == Some(part.name))
  }

  predicate StartsResult(rule: OutputRule, event: StreamEvent) { event.PartStart? && IsResult(rule, event.part) }

  /** The first start of a result. */
  ghost predicate FirstAt(rule: OutputRule, events: seq<StreamEvent>, j: nat) {
    j < |events| && StartsResult(rule, events[j]) && forall i :: 0 <= i < j ==> !StartsResult(rule, events[i])
  }

  /** A call is announced by its name and ID, text by neither. */
  function Named(part: Part): StreamEvent {
    if part.CallPart? then FinalResult(part.name, part.callId) else FinalResult("", "")
  }

  /** The first start of a result, once accepted, is directly followed by its announcement, and there is no
      other announcement. */
  ghost predicate AnnouncesFirst(setting: Setting, events: seq<StreamEvent>) {
    && (forall j :: 0 <= j < setting.accepts && FirstAt(setting.rule, events, j) ==>
          j + 1 < |events| && events[j + 1] == Named(events[j].part))
    && (forall k :: 0 <= k < |events| && events[k].FinalResult? ==> k > 0 && FirstAt(setting.rule, events, k - 1))
  }

  ghost predicate SomeResult(rule: OutputRule, events: seq<StreamEvent>) {
    exists j :: 0 <= j < |events| && StartsResult(rule, events[j])
  }

  lemma AnnouncementIs(rule: OutputRule, part: Part)
    ensures Announcement(rule, part) == if IsResult(rule, part) then Some(Named(part)) else None
  {}

  lemma {:induction false} FirstExists(rule: OutputRule, events: seq<StreamEvent>)
    requires SomeResult(rule, events)
    ensures exists j: nat :: FirstAt(rule, events, j)
  {
    hide StartsResult;
    var j :| 0 <= j < |events| && StartsResult(rule, events[j]);
    var front := events[..j];
    if SomeResult(rule, front) {
      FirstExists(rule, front);
      var i: nat :| FirstAt(rule, front, i);
      assert FirstAt(rule, events, i);
    } else {
      assert forall i :: 0 <= i < j ==> !StartsResult(rule, events[i]) by {
        forall i | 0 <= i < j ensures !StartsResult(rule, events[i]) { assert front[i] == events[i]; }
      }
      assert FirstAt(rule, events, j);
    }
  }

  lemma {:induction false} FirstStays(rule: OutputRule, events: seq<StreamEvent>, event: StreamEvent, j: nat)
    ensures j < |events| ==> (FirstAt(rule, events + [event], j) <==> FirstAt(rule, events, j))
    ensures FirstAt(rule, events + [event], |events|) <==>
      StartsResult(rule, event) && !SomeResult(rule, events)
    ensures j > |events| ==> !FirstAt(rule, events + [event], j)
  {
    hide StartsResult;
    var more := events + [event];
    assert forall i :: 0 <= i < |events| ==> more[i] == events[i];
    if j < |events| && FirstAt(rule, more, j) {
      forall i | 0 <= i < j ensures !StartsResult(rule, events[i]) { assert !StartsResult(rule, more[i]); }
    }
    if FirstAt(rule, more, |events|) {
      forall i | 0 <= i < |events| ensures !StartsResult(rule, events[i]) { assert !StartsResult(rule, more[i]); }
    }
  }

  /** Any event but the first start of a result and its announcement. */
  lemma {:induction false} OtherEvent(setting: Setting, events: seq<StreamEvent>, event: StreamEvent)
    requires AnnouncesFirst(setting, events) && !event.FinalResult?
    requires !StartsResult(setting.rule, event) || SomeResult(setting.rule, events) || |events| >= setting.accepts
    ensures AnnouncesFirst(setting, events + [event])
    ensures SomeResult(setting.rule, events + [event]) <==>
      SomeResult(setting.rule, events) || StartsResult(setting.rule, event)
  {
    hide IsResult, Named, SomeResult;
    var more := events + [event];
    forall j | 0 <= j < setting.accepts && FirstAt(setting.rule, more, j)
      ensures j + 1 < |more| && more[j + 1] == Named(more[j].part)
    {
      FirstStays(setting.rule, events, event, j);
    }
    forall k | 0 <= k < |more| && more[k].FinalResult? ensures k > 0 && FirstAt(setting.rule, more, k - 1) {
      assert more[k] == events[k];
      FirstStays(setting.rule, events, event, k - 1);
    }
    SomeMore(setting.rule, events, event);
  }

  lemma SomeMore(rule: OutputRule, events: seq<StreamEvent>, event: StreamEvent)
    ensures SomeResult(rule, events + [event]) <==> SomeResult(rule, events) || StartsResult(rule, event)
  {
    hide StartsResult;
    var more := events + [event];
    assert more[|events|] == event;
    if j :| 0 <= j < |events| && StartsResult(rule, events[j]) { assert StartsResult(rule, more[j]); }
  }

  lemma {:induction false} NothingAnnounced(setting: Setting, events: seq<StreamEvent>)
    requires AnnouncesFirst(setting, events) && !SomeResult(setting.rule, events)
    ensures forall k :: 0 <= k < |events| ==> !events[k].FinalResult?
  {
    hide StartsResult;
  }

  /** The first start of a result, and its announcement. */
  lemma {:induction false} ResultEvents(setting: Setting, events: seq<StreamEvent>, start: StreamEvent)
    requires AnnouncesFirst(setting, events) && |events| < setting.accepts
    requires StartsResult(setting.rule, start) && !SomeResult(setting.rule, events)
    ensures AnnouncesFirst(setting, events + [start] + [Named(start.part)])
    ensures SomeResult(setting.rule, events + [start] + [Named(start.part)])
  {
    NamedIsFinal(start.part);
    hide IsResult, Named;
    var started := events + [start];
    var more := started + [Named(start.part)];
    assert more[|events|] == start;
    forall j | 0 <= j < setting.accepts && FirstAt(setting.rule, more, j)
      ensures j + 1 < |more| && more[j + 1] == Named(more[j].part)
    {
      FirstStays(setting.rule, started, Named(start.part), j);
      FirstStays(setting.rule, events, start, j);
    }
    NothingAnnounced(setting, events);
    assert forall k :: 0 <= k < |started| ==> more[k] == started[k];
    FirstStays(setting.rule, started, Named(start.part), |events|);
    FirstStays(setting.rule, events, start, |events|);
    SomeMore(setting.rule, events, start);
    SomeMore(setting.rule, started, Named(start.part));
  }

  /** The accumulator remembers whether a result has begun. */
  ghost predicate Remembers(acc: Acc, setting: Setting) {
    AnnouncesFirst(setting, acc.emitted) && (acc.finalSent <==> SomeResult(setting.rule, acc.emitted))
  }

  lemma {:induction false} EndRemembers(acc: Acc, next: Option<Kind>, setting: Setting)
    requires AccOk(acc) && Remembers(acc, setting)
    ensures Remembers(EndLast(acc, next, setting).0, setting)
  {
    hide AnnouncesFirst, SomeResult, Render;
    if acc.lastStarted.Some? {
      var last := acc.lastStarted.value;
      OtherEvent(setting, acc.emitted, PartEnd(last, acc.core.parts[last].key, Render(acc.core.parts[last]), next));
    }
  }

  lemma {:induction false} StartRemembers(acc: Acc, index: nat, setting: Setting)
    requires AccOk(acc) && index < |acc.core.parts| && Remembers(acc, setting)
    ensures var (after, more) := StartPart(acc, index, setting);
      AnnouncesFirst(setting, after.emitted) && (more ==> Remembers(after, setting))
  {
    hide AnnouncesFirst, SomeResult, Render, Announcement, IsResult, Named;
    var part := acc.core.parts[index];
    EndRemembers(acc, Some(part.kind), setting);
    var (ended, more) := EndLast(acc, Some(part.kind), setting);
    if more {
      var previous := if acc.lastStarted.Some? then Some(acc.core.parts[acc.lastStarted.value].kind) else None;
      var start := PartStart(index, part.key, Render(part), previous);
      AnnouncementIs(setting.rule, Render(part));
      if IsResult(setting.rule, Render(part)) && !ended.finalSent && |ended.emitted| < setting.accepts {
        ResultEvents(setting, ended.emitted, start);
      } else {
        OtherEvent(setting, ended.emitted, start);
      }
    }
  }

  lemma {:induction false} StepRemembers(acc: Acc, event: ModelEvent, setting: Setting)
    requires AccOk(acc) && Remembers(acc, setting)
    ensures var (after, status) := Step(acc, event, setting);
      AnnouncesFirst(setting, after.emitted) && (status == Running ==> Remembers(after, setting))
  {
    hide AnnouncesFirst, SomeResult, StartPart, Render, Target, StartedBy, UpdatedBy;
    if event.FinishEvent? {
      EndRemembers(acc, None, setting);
      OtherEvent(setting, EndLast(acc, None, setting).0.emitted, Finish(event.fields));
    } else if IsPartEvent(event) && Advance(acc.core, event).Some? {
      var (core, change) := Advance(acc.core, event).value;
      var moved := acc.(core := core);
      if change.Started? {
        StartRemembers(moved, change.index, setting);
      } else {
        OtherEvent(setting, acc.emitted, PartDelta(change.index, core.parts[change.index].key, change.delta));
      }
    }
  }

  /** In every run: the first start of a result that the consumer accepts is directly followed by its
      announcement, naming the call or nothing; and nothing else is announced. */
  lemma {:induction false} FinalResultAnnounced(events: seq<ModelEvent>, setting: Setting)
    ensures AnnouncesFirst(setting, Run(events, setting).0.emitted)
    ensures Run(events, setting).1 == Running ==> Remembers(Run(events, setting).0, setting)
  {
    hide AnnouncesFirst, SomeResult, Step;
    if events == [] {
      NothingSent(setting);
    } else {
      var front := events[..|events| - 1];
      FinalResultAnnounced(front, setting);
      if Run(front, setting).1 == Running { StepRemembers(Run(front, setting).0, events[|events| - 1], setting); }
    }
  }

  lemma NothingSent(setting: Setting)
    ensures Remembers(EMPTY, setting)
  {}

  /** So a result is announced if and only if a start of one was accepted. */
  lemma {:induction false} AnnouncedIffStarted(events: seq<ModelEvent>, setting: Setting)
    ensures var sent := Run(events, setting).0.emitted;
      (exists k :: 0 <= k < |sent| && sent[k].FinalResult?)
      <==> exists j :: 0 <= j < |sent| && j < setting.accepts && StartsResult(setting.rule, sent[j])
  {
    hide IsResult, Named, Run;
    FinalResultAnnounced(events, setting);
    NeverCalledAfterRefusal(events, setting);
    var sent := Run(events, setting).0.emitted;
    if k :| 0 <= k < |sent| && sent[k].FinalResult? {
      assert FirstAt(setting.rule, sent, k - 1);
    }
    if j :| 0 <= j < |sent| && j < setting.accepts && StartsResult(setting.rule, sent[j]) {
      FirstExists(setting.rule, sent);
      var first: nat :| FirstAt(setting.rule, sent, first);
      assert first <= j;
      NamedIsFinal(sent[first].part);
      assert sent[first + 1].FinalResult?;
    }
  }

  lemma NamedIsFinal(part: Part)
    ensures Named(part).FinalResult?
  {}
}
