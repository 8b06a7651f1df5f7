/** Deltas of different keyed parts may arrive in any interleaving: the accumulated parts depend only on
    which keys appear first and on each key's own events. */
module Interleaving {
  import opened Options
  import opened StreamEvents
  import opened AccumulateSpec
  import opened AccumulateProofs

  /** Events of parts with a key of their own. */
  type KeyedEvent = e: ModelEvent | IsPartEvent(e) && e.part != "" witness NativeReturnEvent("0", "")

  function CoreRun(events: seq<KeyedEvent>): (r: Option<Core>)
    ensures r.Some? ==> InRange(r.value)
  {
    if events == [] then Some(NO_PARTS)
    else
      var before := CoreRun(events[..|events| - 1]);
      if before.None? then None
      else
        var advance := Advance(before.value, events[|events| - 1]);
        if advance.None? then None else Some(advance.value.0)
  }

  function PartEvents(events: seq<ModelEvent>): seq<ModelEvent> {
    if events == [] then []
    else
      var last := events[|events| - 1];
      PartEvents(events[..|events| - 1]) + if IsPartEvent(last) then [last] else []
  }

  function Project(events: seq<KeyedEvent>, key: string): seq<KeyedEvent> {
    if events == [] then []
    else
      var last := events[|events| - 1];
      Project(events[..|events| - 1], key) + if last.part == key then [last] else []
  }

  function FirstAppearance(events: seq<KeyedEvent>): seq<string> {
    if events == [] then []
    else
      var before := FirstAppearance(events[..|events| - 1]);
      var key := events[|events| - 1].part;
      before + if key in before then [] else [key]
  }

  function Keys(parts: seq<AccPart>): seq<string> {
    if parts == [] then [] else Keys(parts[..|parts| - 1]) + [parts[|parts| - 1].key]
  }

  lemma KeysAt(parts: seq<AccPart>)
    ensures |Keys(parts)| == |parts| && forall i :: 0 <= i < |parts| ==> Keys(parts)[i] == parts[i].key
  {}

  /** Part `i` is what its own events build alone. */
  ghost predicate BuiltAlone(events: seq<KeyedEvent>, part: AccPart) {
    var alone := CoreRun(Project(events, part.key));
    alone.Some? && CoreOk(alone.value) && alone.value.parts == [part]
  }

  ghost predicate BuiltFrom(events: seq<KeyedEvent>, core: Core) {
    && CoreOk(core) && Keys(core.parts) == FirstAppearance(events)
    && (forall i :: 0 <= i < |core.parts| ==> core.parts[i].key != "" && BuiltAlone(events, core.parts[i]))
  }

  lemma Append(events: seq<KeyedEvent>, event: KeyedEvent, key: string)
    ensures Project(events + [event], key) == Project(events, key) + if key == event.part then [event] else []
    ensures FirstAppearance(events + [event])
         == FirstAppearance(events) + if event.part in FirstAppearance(events) then [] else [event.part]
    ensures CoreRun(events + [event])
         == if CoreRun(events).None? || Advance(CoreRun(events).value, event).None? then None
            else Some(Advance(CoreRun(events).value, event).value.0)
  {
    assert (events + [event])[..|events|] == events;
  }

  lemma ProjectAbsent(events: seq<KeyedEvent>, key: string)
    requires key !in FirstAppearance(events)
    ensures Project(events, key) == []
  {}

  /** Events of one key alone only ever touch one part. */
  lemma {:induction false} UpdateAlone(core: Core, alone: Core, event: KeyedEvent, index: nat)
    requires CoreOk(core) && CoreOk(alone)
    requires index < |core.parts| && core.parts[index].key == event.part && alone.parts == [core.parts[index]]
    ensures Target(core, event) == Some(index) && Target(alone, event) == Some(0)
    ensures Advance(core, event).Some? <==> Advance(alone, event).Some?
    ensures Advance(core, event).Some? ==>
      && var (after, own) := (Advance(core, event).value.0, Advance(alone, event).value.0);
      && after.parts == core.parts[index := after.parts[index]] && |after.parts| == |core.parts|
      && after.parts[index].key == event.part && own.parts == [after.parts[index]]
      && CoreOk(after) && CoreOk(own)
  {
    hide UpdatedBy, StartedBy, PartOk;
    assert alone.parts[0].key == event.part;
    if UpdatedBy(core.parts[index], event).Some? {
      AdvanceOk(core, event);
      AdvanceOk(alone, event);
      UpdateKeepsKey(core.parts[index], event);
    }
  }

  lemma UpdateKeepsKey(part: AccPart, event: ModelEvent)
    requires IsPartEvent(event) && UpdatedBy(part, event).Some?
    ensures UpdatedBy(part, event).value.0.key == part.key
  {}

  lemma {:induction false} NewAlone(core: Core, event: KeyedEvent)
    requires CoreOk(core) && event.part !in core.byKey
    ensures Target(core, event).None? && Target(NO_PARTS, event).None?
    ensures Advance(core, event).Some? <==> Advance(NO_PARTS, event).Some?
    ensures Advance(core, event).Some? ==>
      && var (after, own) := (Advance(core, event).value.0, Advance(NO_PARTS, event).value.0);
      && |after.parts| == |core.parts| + 1 && after.parts == core.parts + own.parts && |own.parts| == 1
      && own.parts[0].key == event.part && CoreOk(after) && CoreOk(own)
  {
    hide UpdatedBy, StartedBy, PartOk;
    if StartedBy(event).Some? {
      StartedOk(event);
      AdvanceOk(core, event);
      AdvanceOk(NO_PARTS, event);
    }
  }

  lemma {:induction false} StaysBuiltAlone(events: seq<KeyedEvent>, event: KeyedEvent, part: AccPart)
    requires BuiltAlone(events, part) && part.key != event.part
    ensures BuiltAlone(events + [event], part)
  {
    hide CoreRun, Project, CoreOk;
    Append(events, event, part.key);
    assert Project(events, part.key) + [] == Project(events, part.key);
  }

  /** Parts of other keys are not disturbed by an event. */
  lemma {:induction false} OthersStayBuilt(events: seq<KeyedEvent>, core: Core, event: KeyedEvent)
    requires BuiltFrom(events, core)
    ensures forall i :: 0 <= i < |core.parts| && core.parts[i].key != event.part ==>
      BuiltAlone(events + [event], core.parts[i])
  {
    hide BuiltAlone, CoreOk;
    forall i | 0 <= i < |core.parts| && core.parts[i].key != event.part
      ensures BuiltAlone(events + [event], core.parts[i])
    {
      StaysBuiltAlone(events, event, core.parts[i]);
    }
  }

  lemma {:induction false} OneKeyOnePart(core: Core, index: nat)
    requires CoreOk(core) && index < |core.parts| && core.parts[index].key != ""
    ensures forall i :: 0 <= i < |core.parts| && i != index ==> core.parts[i].key != core.parts[index].key
  {
    hide PartOk;
    forall i | 0 <= i < |core.parts| && i != index ensures core.parts[i].key != core.parts[index].key {
      assert core.parts[i].key != "" ==> core.byKey[core.parts[i].key] == i;
    }
  }

  lemma {:induction false} BuiltUpdate(events: seq<KeyedEvent>, core: Core, event: KeyedEvent, index: nat)
    requires CoreRun(events) == Some(core) && BuiltFrom(events, core)
    requires index < |core.parts| && core.parts[index].key == event.part
    ensures var own := CoreRun(Project(events, event.part));
      own.Some? && (Advance(core, event).Some? <==> Advance(own.value, event).Some?)
    ensures Advance(core, event).Some? ==> BuiltFrom(events + [event], Advance(core, event).value.0)
  {
    hide Advance, Target, CoreOk, PartOk, CoreRun, Project, FirstAppearance, Keys;
    KeysAt(core.parts);
    assert BuiltAlone(events, core.parts[index]);
    var alone := CoreRun(Project(events, event.part)).value;
    UpdateAlone(core, alone, event, index);
    Append(events, event, event.part);
    Append(Project(events, event.part), event, event.part);
    if Advance(core, event).Some? {
      var after := Advance(core, event).value.0;
      OthersStayBuilt(events, core, event);
      OneKeyOnePart(core, index);
      SameKeys(core.parts, after.parts, index);
      assert event.part in FirstAppearance(events) by { assert FirstAppearance(events)[index] == event.part; }
      assert Keys(after.parts) == FirstAppearance(events + [event]);
      assert BuiltAlone(events + [event], after.parts[index]);
    }
  }

  lemma SameKeys(before: seq<AccPart>, after: seq<AccPart>, index: nat)
    requires index < |before| && |after| == |before| && after == before[index := after[index]]
    requires after[index].key == before[index].key
    ensures Keys(after) == Keys(before)
  {
    KeysAt(before);
    KeysAt(after);
  }

  lemma {:induction false} BuiltStart(events: seq<KeyedEvent>, core: Core, event: KeyedEvent)
    requires CoreRun(events) == Some(core) && BuiltFrom(events, core) && event.part !in core.byKey
    ensures var own := CoreRun(Project(events, event.part));
      own.Some? && (Advance(core, event).Some? <==> Advance(own.value, event).Some?)
    ensures Advance(core, event).Some? ==> BuiltFrom(events + [event], Advance(core, event).value.0)
  {
    hide Advance, Target, PartOk, CoreRun, Project, FirstAppearance, Keys, BuiltAlone;
    NewToAll(events, core, event);
    hide CoreOk;
    NewAlone(core, event);
    Append(events, event, event.part);
    Append([], event, event.part);
    if Advance(core, event).Some? {
      var after := Advance(core, event).value.0;
      OthersStayBuilt(events, core, event);
      var own := Advance(NO_PARTS, event).value.0;
      assert own.parts == [after.parts[|core.parts|]];
      assert BuiltAlone(events + [event], after.parts[|core.parts|]) by {
        FirstBuilt(events, event, own, after.parts[|core.parts|]);
      }
      MoreKeys(core.parts, after.parts);
    }
  }

  lemma FirstBuilt(events: seq<KeyedEvent>, event: KeyedEvent, own: Core, part: AccPart)
    requires Project(events + [event], event.part) == [event] && CoreRun([event]) == Some(own) && CoreOk(own)
    requires own.parts == [part] && part.key == event.part
    ensures BuiltAlone(events + [event], part)
  {}

  lemma MoreKeys(before: seq<AccPart>, after: seq<AccPart>)
    requires |after| == |before| + 1 && after[..|before|] == before
    ensures Keys(after) == Keys(before) + [after[|before|].key]
  {}

  lemma {:induction false} NewToAll(events: seq<KeyedEvent>, core: Core, event: KeyedEvent)
    requires BuiltFrom(events, core) && event.part !in core.byKey
    ensures event.part !in FirstAppearance(events) && Project(events, event.part) == []
    ensures CoreRun([]) == Some(NO_PARTS) && Project([], event.part) == []
    ensures forall i :: 0 <= i < |core.parts| ==> core.parts[i].key != event.part
  {
    hide PartOk, BuiltAlone;
    KeysAt(core.parts);
    assert forall i :: 0 <= i < |core.parts| ==> core.parts[i].key in core.byKey;
    ProjectAbsent(events, event.part);
  }

  /** Every key's own events are accepted when they come alone. */
  ghost predicate EachAccepted(events: seq<KeyedEvent>) {
    forall key :: CoreRun(Project(events, key)).Some?
  }

  /** A stream is accepted exactly when each key's own events are, and then each part is what those
      events build alone, in order of first appearance. */
  lemma {:induction false} PartsAreProjections(events: seq<KeyedEvent>)
    ensures CoreRun(events).Some? <==> EachAccepted(events)
    ensures CoreRun(events).Some? ==> BuiltFrom(events, CoreRun(events).value)
  {
    if events == [] {
      NothingRuns();
    } else {
      hide Advance, CoreRun, Project, FirstAppearance, EachAccepted, BuiltFrom;
      var front, event := events[..|events| - 1], events[|events| - 1];
      assert events == front + [event];
      PartsAreProjections(front);
      AcceptanceGrows(front, event);
      Append(front, event, event.part);
      if CoreRun(front).Some? {
        BuiltStep(front, CoreRun(front).value, event);
      }
    }
  }

  lemma {:induction false} BuiltStep(events: seq<KeyedEvent>, core: Core, event: KeyedEvent)
    requires CoreRun(events) == Some(core) && BuiltFrom(events, core)
    ensures var own := CoreRun(Project(events, event.part));
      own.Some? && (Advance(core, event).Some? <==> Advance(own.value, event).Some?)
    ensures Advance(core, event).Some? ==> BuiltFrom(events + [event], Advance(core, event).value.0)
  {
    hide Advance, CoreRun, Project, FirstAppearance, BuiltAlone, PartOk;
    if event.part in core.byKey {
      BuiltUpdate(events, core, event, core.byKey[event.part]);
    } else {
      BuiltStart(events, core, event);
    }
  }

  lemma {:induction false} AcceptanceGrows(events: seq<KeyedEvent>, event: KeyedEvent)
    ensures EachAccepted(events + [event]) <==>
      var own := CoreRun(Project(events, event.part));
      EachAccepted(events) && own.Some? && Advance(own.value, event).Some?
  {
    hide Advance, CoreRun, Project, FirstAppearance;
    Append(events, event, event.part);
    Append(Project(events, event.part), event, event.part);
    forall key | key != event.part ensures Project(events + [event], key) == Project(events, key) {
      Append(events, event, key);
      assert Project(events, key) + [] == Project(events, key);
    }
    if EachAccepted(events + [event]) {
      forall key ensures CoreRun(Project(events, key)).Some? {
        assert CoreRun(Project(events + [event], key)).Some?;
      }
      assert CoreRun(Project(events + [event], event.part)).Some?;
    }
    if EachAccepted(events) && Advance(CoreRun(Project(events, event.part)).value, event).Some? {
      forall key ensures CoreRun(Project(events + [event], key)).Some? {
        assert CoreRun(Project(events, key)).Some?;
      }
    }
  }

  lemma NothingRuns()
    ensures CoreRun([]) == Some(NO_PARTS) && BuiltFrom([], NO_PARTS)
    ensures EachAccepted([])
  {}

  lemma {:induction false} SamePart(a: seq<KeyedEvent>, b: seq<KeyedEvent>, p: AccPart, q: AccPart)
    requires BuiltAlone(a, p) && BuiltAlone(b, q) && p.key == q.key && Project(a, p.key) == Project(b, p.key)
    ensures p == q
  {
    assert [p][0] == [q][0];
  }

  /** Two interleavings of the same keyed streams build the same parts, or are both rejected. */
  lemma {:induction false} InterleavingIrrelevant(a: seq<KeyedEvent>, b: seq<KeyedEvent>)
    requires FirstAppearance(a) == FirstAppearance(b) && forall key :: Project(a, key) == Project(b, key)
    ensures CoreRun(a).Some? <==> CoreRun(b).Some?
    ensures CoreRun(a).Some? ==> CoreRun(a).value.parts == CoreRun(b).value.parts
  {
    hide Advance, CoreRun, Project, FirstAppearance, BuiltAlone, CoreOk;
    PartsAreProjections(a);
    PartsAreProjections(b);
    forall key ensures CoreRun(Project(a, key)) == CoreRun(Project(b, key)) {}
    if EachAccepted(a) {
      assert forall key :: CoreRun(Project(a, key)).Some?;
    }
    if EachAccepted(b) {
      assert forall key :: CoreRun(Project(b, key)).Some?;
    }
    if CoreRun(a).Some? {
      var p, q := CoreRun(a).value.parts, CoreRun(b).value.parts;
      KeysAt(p);
      KeysAt(q);
      forall i | 0 <= i < |p| ensures p[i] == q[i] {
        SamePart(a, b, p[i], q[i]);
      }
    }
  }

  ghost predicate AllKeyed(events: seq<ModelEvent>) {
    forall i :: 0 <= i < |events| && IsPartEvent(events[i]) ==> events[i].part != ""
  }

  lemma PartEventsKeyed(events: seq<ModelEvent>)
    requires AllKeyed(events)
    ensures forall e :: e in PartEvents(events) ==> IsPartEvent(e) && e.part != ""
  {}

  ghost function KeyedParts(events: seq<ModelEvent>): seq<KeyedEvent>
    requires AllKeyed(events)
  {
    PartEventsKeyed(events);
    PartEvents(events)
  }

  /** The accumulator follows `CoreRun` while it runs, whatever metadata arrives in between. */
  lemma {:induction false} RunIsCoreRun(events: seq<ModelEvent>, setting: Setting)
    requires AllKeyed(events)
    ensures var (acc, status) := Run(events, setting);
      && (status == Running ==> CoreRun(KeyedParts(events)) == Some(acc.core))
      && (status == Rejected ==> CoreRun(KeyedParts(events)).None?)
  {
    if events != [] {
      hide Step, CoreRun, Project, FirstAppearance;
      var front, event := events[..|events| - 1], events[|events| - 1];
      RunIsCoreRun(front, setting);
      StepIsAdvance(Run(front, setting).0, event, setting);
      if IsPartEvent(event) {
        assert KeyedParts(events) == KeyedParts(front) + [event];
        Append(KeyedParts(front), event, event.part);
      } else {
        assert KeyedParts(events) == KeyedParts(front);
      }
    }
  }

  lemma StepIsAdvance(acc: Acc, event: ModelEvent, setting: Setting)
    requires AccOk(acc)
    ensures var (after, status) := Step(acc, event, setting);
      if IsPartEvent(event) then
        && (status == Running ==> Advance(acc.core, event).Some? && after.core == Advance(acc.core, event).value.0)
        && (status == Rejected ==> Advance(acc.core, event).None?)
      else status != Rejected && (status == Running ==> after.core == acc.core)
  {
    hide Advance, Render, Announcement;
  }

  /** The response depends on the interleaving only through the keys' first appearance. */
  lemma {:induction false} ResponseIndependentOfInterleaving(a: seq<ModelEvent>, b: seq<ModelEvent>, setting: Setting)
    requires AllKeyed(a) && AllKeyed(b)
    requires FirstAppearance(KeyedParts(a)) == FirstAppearance(KeyedParts(b))
    requires forall key :: Project(KeyedParts(a), key) == Project(KeyedParts(b), key)
    requires Run(a, setting).1 == Running
    ensures Run(b, setting).1 != Rejected
    ensures Run(b, setting).1 == Running ==> Run(b, setting).0.core.parts == Run(a, setting).0.core.parts
    ensures Run(b, setting).1 == Running ==>
      forall finish: ModelEvent :: finish.FinishEvent? ==>
        Complete(Run(b, setting).0, finish) == Complete(Run(a, setting).0, finish)
  {
    RunIsCoreRun(a, setting);
    RunIsCoreRun(b, setting);
    InterleavingIrrelevant(KeyedParts(a), KeyedParts(b));
  }
}
