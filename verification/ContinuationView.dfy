/** What a consumer sees of a response built from several segments: the events of each further segment
    are shifted behind the parts it already has. */
module ContinuationView {
  import opened Options
  import opened StreamEvents
  import opened AccumulateSpec
  import opened AccumulateProofs
  import opened Continuation

  function Reindex(event: StreamEvent, offset: nat): StreamEvent {
    match event
    case PartStart(index, partId, part, previous) => PartStart(index + offset, partId, part, previous)
    case PartDelta(index, partId, delta) => PartDelta(index + offset, partId, delta)
    case PartEnd(index, partId, part, next) => PartEnd(index + offset, partId, part, next)
    case _ => event
  }

  function ReindexAll(events: seq<StreamEvent>, offset: nat): (shifted: seq<StreamEvent>)
    ensures |shifted| == |events|
  {
    if events == [] then []
    else ReindexAll(events[..|events| - 1], offset) + [Reindex(events[|events| - 1], offset)]
  }

  /** A consumer that only folds parts: starts append, deltas apply, everything else passes. */
  function FoldEvent(view: seq<Part>, event: StreamEvent): Option<seq<Part>> {
    match event
    case PartStart(index, _, part, _) => if index == |view| then Some(view + [part]) else None
    case PartDelta(index, _, delta) =>
      if index >= |view| || Apply(delta, view[index]).None? then None
      else Some(view[index := Apply(delta, view[index]).value])
    case _ => Some(view)
  }

  function Fold(view: seq<Part>, events: seq<StreamEvent>): Option<seq<Part>> {
    if events == [] then Some(view)
    else
      var before := Fold(view, events[..|events| - 1]);
      if before.None? then None else FoldEvent(before.value, events[|events| - 1])
  }

  lemma {:induction false} FoldAppends(view: seq<Part>, a: seq<StreamEvent>, b: seq<StreamEvent>)
    ensures Fold(view, a + b) == if Fold(view, a).None? then None else Fold(Fold(view, a).value, b)
  {
    hide FoldEvent;
    if b == [] {
      assert a + b == a;
    } else {
      FoldAppends(view, a, b[..|b| - 1]);
      assert (a + b)[..|a + b| - 1] == a + b[..|b| - 1];
    }
  }

  /** The lifecycle's own consumer folds the same way. */
  lemma {:induction false} WatchFolds(rule: OutputRule, events: seq<StreamEvent>)
    requires Watch(rule, events).Some?
    ensures Fold([], events) == Some(Watch(rule, events).value.view)
  {
    hide Announcement, Apply;
    if events != [] {
      WatchFolds(rule, events[..|events| - 1]);
    }
  }

  lemma ShiftedEvent(base: seq<Part>, view: seq<Part>, event: StreamEvent)
    requires FoldEvent(view, event).Some?
    ensures FoldEvent(base + view, Reindex(event, |base|)) == Some(base + FoldEvent(view, event).value)
  {
    hide Apply;
    if event.PartStart? {
      assert (base + view) + [event.part] == base + (view + [event.part]);
    } else if event.PartDelta? {
      var part := Apply(event.delta, view[event.index]).value;
      assert (base + view)[event.index + |base|] == view[event.index];
      assert (base + view)[event.index + |base| := part] == base + view[event.index := part];
    }
  }

  /** Shifted events leave what was there before them alone. */
  lemma {:induction false} ShiftedFold(base: seq<Part>, events: seq<StreamEvent>)
    requires Fold([], events).Some?
    ensures Fold(base, ReindexAll(events, |base|)) == Some(base + Fold([], events).value)
  {
    hide FoldEvent, Reindex;
    if events == [] {
      assert base + [] == base;
    } else {
      var last := |events| - 1;
      ShiftedFold(base, events[..last]);
      ShiftedEvent(base, Fold([], events[..last]).value, events[last]);
      assert ReindexAll(events, |base|)[..last] == ReindexAll(events[..last], |base|);
    }
  }

  function Starts(events: seq<StreamEvent>): nat {
    if events == [] then 0
    else Starts(events[..|events| - 1]) + if events[|events| - 1].PartStart? then 1 else 0
  }

  lemma {:induction false} FoldGrowsByStarts(view: seq<Part>, events: seq<StreamEvent>, offset: nat)
    ensures Fold(view, events).Some? ==> |Fold(view, events).value| == |view| + Starts(events)
    ensures Starts(ReindexAll(events, offset)) == Starts(events)
  {
    hide Apply;
    if events != [] {
      FoldGrowsByStarts(view, events[..|events| - 1], offset);
    }
  }

  // ----- segments streamed one after another -----

  /** A segment as the provider streams it, up to and including its finish event. */
  datatype Streamed = Streamed(events: seq<ModelEvent>, fields: Fields)

  function Source(segment: Streamed): seq<ModelEvent> {
    segment.events + [FinishEvent(None, segment.fields)]
  }

  ghost predicate Streams(segment: Streamed, setting: Setting) {
    Run(segment.events, setting).1 == Running && Run(Source(segment), setting).1 == Finished
  }

  function Accumulated(segment: Streamed, setting: Setting): (acc: Acc)
    ensures AccOk(acc)
  {
    Run(Source(segment), setting).0
  }

  /** The segment's response. Its state is set when the provider left it out. */
  function SegmentResponse(segment: Streamed, setting: Setting): ModelResponse {
    Defaulted(ModelResponse(Materialize(Accumulated(segment, setting).core.parts), segment.fields))
  }

  lemma {:induction false} SegmentResponseIsTheAccumulators(segment: Streamed, setting: Setting)
    requires Streams(segment, setting)
    ensures Response(Source(segment), setting).Some?
    ensures SegmentResponse(segment, setting) == Defaulted(Response(Source(segment), setting).value)
  {
    hide Step, Materialize;
    assert Source(segment)[..|segment.events|] == segment.events;
  }

  function Responses(segments: seq<Streamed>, setting: Setting): (responses: seq<ModelResponse>)
    ensures |responses| == |segments|
  {
    if segments == [] then []
    else Responses(segments[..|segments| - 1], setting) + [SegmentResponse(segments[|segments| - 1], setting)]
  }

  /** All events the consumer is sent, each segment's shifted by the offset in force when it began. */
  function AllEvents(seed: Option<ModelResponse>, segments: seq<Streamed>, setting: Setting): seq<StreamEvent> {
    if segments == [] then []
    else
      var front, last := segments[..|segments| - 1], segments[|segments| - 1];
      AllEvents(seed, front, setting)
      + ReindexAll(Accumulated(last, setting).emitted, EventOffset(seed, Responses(front, setting)))
  }

  function SeedParts(seed: Option<ModelResponse>): seq<Part> { if seed.Some? then seed.value.parts else [] }

  /** Every segment streams to its end, is merged by accumulation, and finds no background flag set. */
  ghost predicate Accumulating(seed: Option<ModelResponse>, segments: seq<Streamed>, setting: Setting) {
    segments != [] ==>
      var front, last := segments[..|segments| - 1], segments[|segments| - 1];
      var before := Folded(seed, Responses(front, setting));
      && Accumulating(seed, front, setting) && Streams(last, setting)
      && (before.Some? ==>
            !InBackground(before.value) && MergeMode(before.value, SegmentResponse(last, setting)) == Accumulate)
  }

  function MergedParts(seed: Option<ModelResponse>, segments: seq<Streamed>, setting: Setting): seq<Part> {
    var merged := Folded(seed, Responses(segments, setting));
    if merged.Some? then merged.value.parts else []
  }

  /** No segment has an empty text or thinking part, which its response would drop. */
  ghost predicate NothingDropped(segments: seq<Streamed>, setting: Setting) {
    forall k :: 0 <= k < |segments| ==> AllKept(Accumulated(segments[k], setting).core.parts)
  }

  lemma {:induction false} SegmentFold(segment: Streamed, setting: Setting)
    requires Streams(segment, setting)
    ensures var acc := Accumulated(segment, setting);
      && Fold([], acc.emitted).Some? && Mirrors(Fold([], acc.emitted).value, RenderAll(acc.core.parts))
      && Starts(acc.emitted) == |acc.core.parts|
  {
    hide Run, Watch, RenderAll, SameButId, Fold, Starts;
    ConsumerMirrorsAccumulator(Source(segment), setting);
    var acc := Accumulated(segment, setting);
    WatchFolds(setting.rule, acc.emitted);
    FoldGrowsByStarts([], acc.emitted, 0);
  }

  lemma {:induction false} NextSegment(seed: Option<ModelResponse>, front: seq<Streamed>, last: Streamed,
                                       setting: Setting)
    requires Accumulating(seed, front + [last], setting)
    ensures var kept := Materialize(Accumulated(last, setting).core.parts);
      && MergedParts(seed, front + [last], setting) == MergedParts(seed, front, setting) + kept
      && EventOffset(seed, Responses(front, setting)) == |MergedParts(seed, front, setting)|
      && AllEvents(seed, front + [last], setting)
         == AllEvents(seed, front, setting)
            + ReindexAll(Accumulated(last, setting).emitted, |MergedParts(seed, front, setting)|)
      && Accumulating(seed, front, setting) && Streams(last, setting)
  {
    hide Materialize, Accumulated, MergeMode, MergeMetadata, LastOffset, Streams, ReindexAll;
    var all := front + [last];
    assert all[..|front|] == front;
    var responses := Responses(all, setting);
    assert responses[..|front|] == Responses(front, setting);
    assert responses[|front|] == SegmentResponse(last, setting);
    var kept := Materialize(Accumulated(last, setting).core.parts);
    assert [] + kept == kept;
  }

  lemma {:induction false} MirrorsJoin(a: seq<Part>, b: seq<Part>, x: seq<Part>, y: seq<Part>)
    requires Mirrors(a, x) && Mirrors(b, y)
    ensures Mirrors(a + b, x + y)
  {
    hide SameButId;
    forall i | 0 <= i < |a + b| ensures SameButId((a + b)[i], (x + y)[i]) {
      if i < |a| {
        assert SameButId(a[i], x[i]);
      } else {
        assert SameButId(b[i - |a|], y[i - |a|]);
      }
    }
  }

  lemma MirrorsSelf(parts: seq<Part>)
    ensures Mirrors(parts, parts)
  {
    hide SameButId;
    forall i | 0 <= i < |parts| ensures SameButId(parts[i], parts[i]) { SameKind(parts[i], parts[i]); }
  }

  /** Starts count what the segments built, merged parts what they kept. */
  lemma {:induction false} Lengths(seed: Option<ModelResponse>, segments: seq<Streamed>, setting: Setting)
    requires Accumulating(seed, segments, setting)
    ensures |MergedParts(seed, segments, setting)| <= |SeedParts(seed)| + Starts(AllEvents(seed, segments, setting))
    ensures |MergedParts(seed, segments, setting)| == |SeedParts(seed)| + Starts(AllEvents(seed, segments, setting))
       <==> NothingDropped(segments, setting)
  {
    hide Starts, AllEvents, Accumulated, Accumulating, AllKept, Materialize, MergedParts, NothingDropped, Mirrors,
      RenderAll, Fold, ReindexAll;
    if segments == [] {
      LengthsOfNone(seed, setting);
    } else {
      var front, last := segments[..|segments| - 1], segments[|segments| - 1];
      assert segments == front + [last];
      NextSegment(seed, front, last, setting);
      Lengths(seed, front, setting);
      SegmentFold(last, setting);
      MaterializeKept(Accumulated(last, setting).core.parts);
      FoldGrowsByStarts([], Accumulated(last, setting).emitted, |MergedParts(seed, front, setting)|);
      StartsJoin(AllEvents(seed, front, setting),
                 ReindexAll(Accumulated(last, setting).emitted, |MergedParts(seed, front, setting)|));
      DroppedGrows(front, last, setting);
    }
  }

  lemma LengthsOfNone(seed: Option<ModelResponse>, setting: Setting)
    ensures MergedParts(seed, [], setting) == SeedParts(seed) && Starts(AllEvents(seed, [], setting)) == 0
    ensures NothingDropped([], setting)
  {}

  lemma {:induction false} DroppedGrows(front: seq<Streamed>, last: Streamed, setting: Setting)
    ensures NothingDropped(front + [last], setting)
       <==> NothingDropped(front, setting) && AllKept(Accumulated(last, setting).core.parts)
  {
    hide AllKept, Accumulated;
    var all := front + [last];
    assert all[|front|] == last && forall k :: 0 <= k < |front| ==> all[k] == front[k];
    if NothingDropped(all, setting) {
      forall k | 0 <= k < |front| ensures AllKept(Accumulated(front[k], setting).core.parts) {
        assert AllKept(Accumulated(all[k], setting).core.parts);
      }
    }
  }

  lemma {:induction false} StartsJoin(a: seq<StreamEvent>, b: seq<StreamEvent>)
    ensures Starts(a + b) == Starts(a) + Starts(b)
  {
    if b == [] {
      assert a + b == a;
    } else {
      StartsJoin(a, b[..|b| - 1]);
      assert (a + b)[..|a + b| - 1] == a + b[..|b| - 1];
    }
  }

  lemma {:induction false} ViewWhenKept(seed: Option<ModelResponse>, segments: seq<Streamed>, setting: Setting)
    requires Accumulating(seed, segments, setting) && NothingDropped(segments, setting)
    ensures var view := Fold(SeedParts(seed), AllEvents(seed, segments, setting));
      view.Some? && Mirrors(view.value, MergedParts(seed, segments, setting))
  {
    hide AllEvents, Accumulated, Accumulating, AllKept, Materialize, MergedParts, Fold, Mirrors, RenderAll,
      NothingDropped, ReindexAll, Starts;
    if segments == [] {
      NothingSent(seed, setting);
    } else {
      var front, last := segments[..|segments| - 1], segments[|segments| - 1];
      assert segments == front + [last];
      NextSegment(seed, front, last, setting);
      DroppedGrows(front, last, setting);
      ViewWhenKept(seed, front, setting);
      SegmentFold(last, setting);
      MaterializeKept(Accumulated(last, setting).core.parts);
      var before := Fold(SeedParts(seed), AllEvents(seed, front, setting)).value;
      var own := Accumulated(last, setting).emitted;
      MirrorsLength(before, MergedParts(seed, front, setting));
      FoldAppends(SeedParts(seed), AllEvents(seed, front, setting), ReindexAll(own, |before|));
      ShiftedFold(before, own);
      MirrorsJoin(before, Fold([], own).value, MergedParts(seed, front, setting),
                  RenderAll(Accumulated(last, setting).core.parts));
    }
  }

  lemma MirrorsLength(a: seq<Part>, b: seq<Part>)
    requires Mirrors(a, b)
    ensures |a| == |b|
  {}

  lemma NothingSent(seed: Option<ModelResponse>, setting: Setting)
    ensures Fold(SeedParts(seed), AllEvents(seed, [], setting)) == Some(SeedParts(seed))
    ensures Mirrors(SeedParts(seed), MergedParts(seed, [], setting))
  {
    MirrorsSelf(SeedParts(seed));
  }

  /** Over any number of accumulated segments, resumed or not, a consumer that folds the shifted events
      ends with the merged response's parts exactly when no segment dropped an empty part. */
  lemma {:induction false} ViewIsMergedResponse(seed: Option<ModelResponse>, segments: seq<Streamed>, setting: Setting)
    requires Accumulating(seed, segments, setting)
    ensures var view := Fold(SeedParts(seed), AllEvents(seed, segments, setting));
      view.Some? && Mirrors(view.value, MergedParts(seed, segments, setting)) <==> NothingDropped(segments, setting)
  {
    hide AllEvents, Accumulating, MergedParts, Fold, SameButId, NothingDropped, Starts;
    Lengths(seed, segments, setting);
    FoldGrowsByStarts(SeedParts(seed), AllEvents(seed, segments, setting), 0);
    if NothingDropped(segments, setting) {
      ViewWhenKept(seed, segments, setting);
    }
  }
}
