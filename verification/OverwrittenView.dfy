/** What a consumer that keeps parts by index sees when segments replace the ones before them: a replacing
    response starts over, but its events may be shifted, and no event takes a part back. */
module OverwrittenView {
  import opened Options
  import opened StreamEvents
  import opened AccumulateSpec
  import opened AccumulateProofs
  import opened Continuation
  import opened ContinuationView

  type View = map<nat, Part>

  /** Starts overwrite, deltas to unknown parts are ignored. */
  function Show(view: View, event: StreamEvent): Option<View> {
    match event
    case PartStart(index, _, part, _) => Some(view[index := part])
    case PartDelta(index, _, delta) =>
      if index !in view then Some(view)
      else if Apply(delta, view[index]).None? then None
      else Some(view[index := Apply(delta, view[index]).value])
    case _ => Some(view)
  }

  function ShowAll(view: View, events: seq<StreamEvent>): Option<View> {
    if events == [] then Some(view)
    else
      var before := ShowAll(view, events[..|events| - 1]);
      if before.None? then None else Show(before.value, events[|events| - 1])
  }

  lemma {:induction false} ShowAppends(view: View, a: seq<StreamEvent>, b: seq<StreamEvent>)
    ensures ShowAll(view, a + b) == if ShowAll(view, a).None? then None else ShowAll(ShowAll(view, a).value, b)
  {
    hide Show;
    if b == [] {
      assert a + b == a;
    } else {
      ShowAppends(view, a, b[..|b| - 1]);
      assert (a + b)[..|a + b| - 1] == a + b[..|b| - 1];
    }
  }

  /** Parts at consecutive indexes. */
  function Placed(parts: seq<Part>, offset: nat): View {
    if parts == [] then map[]
    else Placed(parts[..|parts| - 1], offset)[offset + |parts| - 1 := parts[|parts| - 1]]
  }

  lemma {:induction false} PlacedAt(parts: seq<Part>, offset: nat)
    ensures forall i :: i in Placed(parts, offset) <==> offset <= i < offset + |parts|
    ensures forall i :: i in Placed(parts, offset) ==> Placed(parts, offset)[i] == parts[i - offset]
  {
    if parts != [] { PlacedAt(parts[..|parts| - 1], offset); }
  }

  lemma {:induction false} OverlaidStart(base: View, parts: seq<Part>, part: Part, offset: nat)
    ensures (base + Placed(parts, offset))[offset + |parts| := part] == base + Placed(parts + [part], offset)
  {
    hide Placed;
    PlacedAt(parts, offset);
    PlacedAt(parts + [part], offset);
  }

  lemma {:induction false} OverlaidDelta(base: View, parts: seq<Part>, index: nat, part: Part, offset: nat)
    requires index < |parts|
    ensures index + offset in Placed(parts, offset) && Placed(parts, offset)[index + offset] == parts[index]
    ensures (base + Placed(parts, offset))[index + offset := part] == base + Placed(parts[index := part], offset)
  {
    hide Placed;
    PlacedAt(parts, offset);
    PlacedAt(parts[index := part], offset);
  }

  lemma {:induction false} OverlaidEvent(base: View, parts: seq<Part>, event: StreamEvent, offset: nat)
    requires FoldEvent(parts, event).Some?
    ensures Show(base + Placed(parts, offset), Reindex(event, offset))
         == Some(base + Placed(FoldEvent(parts, event).value, offset))
  {
    hide Apply, Placed;
    match event
    case PartStart(_, _, part, _) =>
      OverlaidStart(base, parts, part, offset);
    case PartDelta(index, _, delta) =>
      OverlaidDelta(base, parts, index, Apply(delta, parts[index]).value, offset);
    case _ =>
  }

  /** Shifted events lay their parts over what was there. */
  lemma {:induction false} OverlaidFold(base: View, events: seq<StreamEvent>, offset: nat)
    requires Fold([], events).Some?
    ensures ShowAll(base, ReindexAll(events, offset)) == Some(base + Placed(Fold([], events).value, offset))
  {
    hide FoldEvent, Reindex, Show;
    if events == [] {
      assert base + map[] == base;
    } else {
      var last := |events| - 1;
      OverlaidFold(base, events[..last], offset);
      OverlaidEvent(base, Fold([], events[..last]).value, events[last], offset);
      assert ReindexAll(events, offset)[..last] == ReindexAll(events[..last], offset);
    }
  }

  /** The view holds these parts and no others, up to the IDs that deltas do not carry. */
  ghost predicate Displays(view: View, parts: seq<Part>) {
    && (forall i :: i in view <==> 0 <= i < |parts|)
    && (forall i :: 0 <= i < |parts| ==> SameButId(view[i], parts[i]))
  }

  function Built(segment: Streamed, setting: Setting): seq<AccPart> { Accumulated(segment, setting).core.parts }

  /** The last segment is the first of all, or replaces what came before. */
  ghost predicate Replaces(seed: Option<ModelResponse>, front: seq<Streamed>, last: Streamed, setting: Setting) {
    var before := Folded(seed, Responses(front, setting));
    Streams(last, setting)
    && (before.Some? ==> MergeMode(before.value, SegmentResponse(last, setting)) != Accumulate)
  }

  lemma {:induction false} ReplacedParts(seed: Option<ModelResponse>, front: seq<Streamed>, last: Streamed,
                                         setting: Setting)
    requires Replaces(seed, front, last, setting)
    ensures MergedParts(seed, front + [last], setting) == Materialize(Built(last, setting))
  {
    hide Materialize, Accumulated, MergeMode, MergeMetadata, Streams;
    var all := front + [last];
    assert all[..|front|] == front;
    var responses := Responses(all, setting);
    assert responses[..|front|] == Responses(front, setting) && responses[|front|] == SegmentResponse(last, setting);
  }

  /** Indexes below `k` only. */
  ghost predicate Within(view: View, k: nat) { forall i :: i in view ==> i < k }

  lemma {:induction false} Overlay(view: View, own: seq<Part>, offset: nat)
    ensures var shown := view + Placed(own, offset);
      && (forall i :: i in shown <==> i in view || offset <= i < offset + |own|)
      && (forall i :: 0 <= i < |own| ==> shown[offset + i] == own[i])
  {
    PlacedAt(own, offset);
    hide Placed;
    var placed := Placed(own, offset);
    forall i | 0 <= i < |own| ensures (view + placed)[offset + i] == own[i] { assert offset + i in placed; }
  }

  lemma {:induction false} DisplayedKeys(view: View, own: seq<Part>, offset: nat, kept: seq<Part>)
    requires |kept| <= |own| && Displays(view + Placed(own, offset), kept)
    ensures |kept| == |own| && (own == [] || offset == 0) && Within(view, |own|)
  {
    Overlay(view, own, offset);
    hide SameButId, Placed;
    var shown := view + Placed(own, offset);
    assert own != [] ==> offset + |own| - 1 in shown;
    assert forall i :: i in view ==> i in shown;
  }

  lemma {:induction false} OverlayDisplays(view: View, own: seq<Part>, offset: nat, built: seq<Part>, kept: seq<Part>)
    requires Mirrors(own, built) && |kept| <= |built| && (|kept| == |built| ==> kept == built)
    ensures Displays(view + Placed(own, offset), kept)
       <==> |kept| == |built| && (built == [] || offset == 0) && Within(view, |built|)
  {
    hide SameButId, Placed;
    var shown := view + Placed(own, offset);
    if Displays(shown, kept) {
      DisplayedKeys(view, own, offset, kept);
    } else if |kept| == |built| && (built == [] || offset == 0) && Within(view, |built|) {
      AllDisplayed(view, own, offset, kept);
    }
  }

  lemma {:induction false} AllDisplayed(view: View, own: seq<Part>, offset: nat, kept: seq<Part>)
    requires Mirrors(own, kept) && (own == [] || offset == 0) && Within(view, |own|)
    ensures Displays(view + Placed(own, offset), kept)
  {
    Overlay(view, own, offset);
    hide SameButId, Placed;
    var shown := view + Placed(own, offset);
    forall i | 0 <= i < |kept| ensures SameButId(shown[i], kept[i]) {
      assert SameButId(own[i], kept[i]) && shown[offset + i] == own[i];
    }
  }

  /** Whatever the view was before, after a replacing segment it displays the merged response exactly when
      the segment dropped no empty part, its events were not shifted, and it has at least as many parts as
      the view had. */
  lemma {:induction false} ReplacedView(seed: Option<ModelResponse>, front: seq<Streamed>, last: Streamed,
                                        setting: Setting, view: View)
    requires Replaces(seed, front, last, setting)
    ensures var (built, offset) := (Built(last, setting), EventOffset(seed, Responses(front, setting)));
      var shown := ShowAll(view, ReindexAll(Accumulated(last, setting).emitted, offset));
      && shown.Some?
      && (Displays(shown.value, MergedParts(seed, front + [last], setting))
          <==> AllKept(built) && (built == [] || offset == 0) && Within(view, |built|))
  {
    hide Fold, Accumulated, Folded, Materialize, RenderAll, AllKept, Mirrors, Displays, EventOffset, Within, ReindexAll,
      MergedParts, Placed;
    var offset := EventOffset(seed, Responses(front, setting));
    ReplacedParts(seed, front, last, setting);
    SegmentFold(last, setting);
    MaterializeKept(Built(last, setting));
    var own := Fold([], Accumulated(last, setting).emitted).value;
    OverlaidFold(view, Accumulated(last, setting).emitted, offset);
    RenderLength(Built(last, setting));
    OverlayDisplays(view, own, offset, RenderAll(Built(last, setting)), Materialize(Built(last, setting)));
  }

  lemma {:induction false} RenderLength(parts: seq<AccPart>)
    ensures |RenderAll(parts)| == |parts|
  {
    hide Render;
    if parts != [] { RenderLength(parts[..|parts| - 1]); }
  }

  // ----- polling a background job -----

  /** Every segment replaces the response before it, which is flagged as background work. */
  ghost predicate Polling(seed: Option<ModelResponse>, segments: seq<Streamed>, setting: Setting) {
    segments != [] ==>
      var front, last := segments[..|segments| - 1], segments[|segments| - 1];
      var before := Folded(seed, Responses(front, setting));
      && Polling(seed, front, setting) && Replaces(seed, front, last, setting)
      && (before.Some? ==> InBackground(before.value))
  }

  /** Polls are not shifted. */
  lemma {:induction false} PollOffset(seed: Option<ModelResponse>, segments: seq<Streamed>, setting: Setting)
    requires Polling(seed, segments, setting)
    ensures LastOffset(seed, Responses(segments, setting)) == 0
    ensures segments != [] ==> EventOffset(seed, Responses(segments[..|segments| - 1], setting)) == 0
  {
    hide Folded, MergeMode, LastMode, Accumulated, Streams;
    if segments != [] {
      var front := segments[..|segments| - 1];
      PollOffset(seed, front, setting);
      assert Responses(segments, setting)[..|front|] == Responses(front, setting);
    }
  }

  /** No poll, nor the resumed response, had more parts than this. */
  ghost predicate NeverLonger(seed: Option<ModelResponse>, segments: seq<Streamed>, setting: Setting, k: nat) {
    |SeedParts(seed)| <= k && forall j :: 0 <= j < |segments| ==> |Built(segments[j], setting)| <= k
  }

  lemma {:induction false} NeverLongerNext(seed: Option<ModelResponse>, front: seq<Streamed>, last: Streamed,
                                           setting: Setting, k: nat)
    ensures NeverLonger(seed, front + [last], setting, k)
       <==> NeverLonger(seed, front, setting, k) && |Built(last, setting)| <= k
  {
    hide Built;
    var all := front + [last];
    assert all[|front|] == last && forall j :: 0 <= j < |front| ==> all[j] == front[j];
    if NeverLonger(seed, all, setting, k) {
      forall j | 0 <= j < |front| ensures |Built(front[j], setting)| <= k { assert |Built(all[j], setting)| <= k; }
    }
  }

  function Watched(seed: Option<ModelResponse>, segments: seq<Streamed>, setting: Setting): Option<View> {
    ShowAll(Placed(SeedParts(seed), 0), AllEvents(seed, segments, setting))
  }

  /** One more segment shows its events over the view so far. */
  lemma {:induction false} WatchedNext(seed: Option<ModelResponse>, front: seq<Streamed>, last: Streamed,
                                       setting: Setting)
    requires Watched(seed, front, setting).Some?
    ensures Watched(seed, front + [last], setting)
         == ShowAll(Watched(seed, front, setting).value,
                    ReindexAll(Accumulated(last, setting).emitted, EventOffset(seed, Responses(front, setting))))
  {
    hide Accumulated, EventOffset, ReindexAll, Show;
    var all := front + [last];
    assert all[..|front|] == front;
    ShowAppends(Placed(SeedParts(seed), 0), AllEvents(seed, front, setting),
                ReindexAll(Accumulated(last, setting).emitted, EventOffset(seed, Responses(front, setting))));
  }

  /** The view keeps as many parts as the longest response had. */
  lemma {:induction false} WatchedWithin(seed: Option<ModelResponse>, segments: seq<Streamed>, setting: Setting, k: nat)
    requires Polling(seed, segments, setting)
    ensures Watched(seed, segments, setting).Some?
    ensures Within(Watched(seed, segments, setting).value, k) <==> NeverLonger(seed, segments, setting, k)
  {
    hide Accumulated, EventOffset, Fold, RenderAll, Replaces, Placed, Within, NeverLonger, ReindexAll, Watched;
    if segments == [] {
      WatchedNothing(seed, setting, k);
    } else {
      var front, last := segments[..|segments| - 1], segments[|segments| - 1];
      assert segments == front + [last];
      WatchedWithin(seed, front, setting, k);
      PollOffset(seed, segments, setting);
      WatchedNext(seed, front, last, setting);
      NeverLongerNext(seed, front, last, setting, k);
      ReplacingStreams(seed, front, last, setting);
      SegmentFold(last, setting);
      RenderLength(Built(last, setting));
      OverlaidFold(Watched(seed, front, setting).value, Accumulated(last, setting).emitted, 0);
      OverlayWithin(Watched(seed, front, setting).value, Fold([], Accumulated(last, setting).emitted).value, k);
    }
  }

  lemma ReplacingStreams(seed: Option<ModelResponse>, front: seq<Streamed>, last: Streamed, setting: Setting)
    requires Replaces(seed, front, last, setting)
    ensures Streams(last, setting)
  {}

  lemma WatchedNothing(seed: Option<ModelResponse>, setting: Setting, k: nat)
    ensures Watched(seed, [], setting) == Some(Placed(SeedParts(seed), 0))
    ensures Within(Placed(SeedParts(seed), 0), k) <==> NeverLonger(seed, [], setting, k)
  {
    PlacedAt(SeedParts(seed), 0);
    var parts := SeedParts(seed);
    assert parts != [] ==> |parts| - 1 in Placed(parts, 0);
    hide Placed;
  }

  lemma OverlayWithin(view: View, own: seq<Part>, k: nat)
    ensures Within(view + Placed(own, 0), k) <==> Within(view, k) && |own| <= k
  {
    PlacedAt(own, 0);
    var shown := view + Placed(own, 0);
    assert own != [] ==> |own| - 1 in shown;
    assert forall i :: i in view ==> i in shown;
    hide Placed;
  }

  /** After any number of polls, from a fresh start or a resumed response, the view displays the merged
      response exactly when the last poll dropped no empty part and no earlier response had more parts. */
  lemma {:induction false} PolledView(seed: Option<ModelResponse>, segments: seq<Streamed>, setting: Setting)
    requires segments != [] && Polling(seed, segments, setting)
    ensures var built := Built(segments[|segments| - 1], setting);
      && Watched(seed, segments, setting).Some?
      && (Displays(Watched(seed, segments, setting).value, MergedParts(seed, segments, setting))
          <==> AllKept(built) && NeverLonger(seed, segments, setting, |built|))
  {
    hide Accumulated, EventOffset, LastOffset, Replaces, Within, NeverLonger, ReindexAll, AllKept, Displays,
      MergedParts, Watched;
    var front, last := segments[..|segments| - 1], segments[|segments| - 1];
    assert segments == front + [last];
    var k := |Built(last, setting)|;
    WatchedWithin(seed, front, setting, k);
    WatchedNext(seed, front, last, setting);
    PollOffset(seed, segments, setting);
    NeverLongerNext(seed, front, last, setting, k);
    ReplacedView(seed, front, last, setting, Watched(seed, front, setting).value);
  }
}
