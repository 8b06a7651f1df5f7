/** Suspended model responses: the model is asked again, and each further segment is merged into the
    response so far, until the response is no longer suspended or a limit is reached. */
module Continuation {
  import opened Options
  import opened StreamEvents
  import opened AccumulateSpec

  const MAX_GENERATION_CONTINUATIONS: nat := 10
  const MAX_BACKGROUND_POLLS: nat := 1000

  datatype Mode = Accumulate | ReplaceSameId | ReplaceNew

  predicate MarkedReplacing(metadata: Metadata) {
    metadata.namespace.Some? && metadata.namespace.value.replacePrevious == Some(true)
  }

  function MergeMode(existing: ModelResponse, next: ModelResponse): Mode {
    var (old_, new_) := (existing.fields, next.fields);
    if MarkedReplacing(new_.metadata) then ReplaceNew
    else if old_.providerResponseId != "" && old_.providerResponseId == new_.providerResponseId then ReplaceSameId
    else if old_.modelName != "" && new_.modelName != "" && old_.modelName != new_.modelName then ReplaceNew
    else Accumulate
  }

  /** Top-level entries of the update win; the marker itself is then dropped, and its namespace with it
      if nothing else is in there. */
  function MergeMetadata(base: Metadata, update: Metadata): Metadata {
    var namespace := if update.namespace.Some? then update.namespace else base.namespace;
    var kept :=
      if namespace.None? || namespace.value.others == map[] then None
      else Some(namespace.value.(replacePrevious := None));
    Metadata(kept, base.plain + update.plain)
  }

  function Merge(existing: ModelResponse, next: ModelResponse): ModelResponse {
    var mode := MergeMode(existing, next);
    var (old_, new_) := (existing.fields, next.fields);
    ModelResponse(
      if mode == Accumulate then existing.parts + next.parts else next.parts,
      new_.(usage := if mode == ReplaceSameId then new_.usage else old_.usage + new_.usage,
            providerResponseId := if mode == Accumulate then Either(new_.providerResponseId, old_.providerResponseId)
                                  else new_.providerResponseId,
            attempts := old_.attempts + new_.attempts,
            providerDetails := old_.providerDetails + new_.providerDetails,
            metadata := MergeMetadata(old_.metadata, new_.metadata)))
  }

  predicate Suspended(response: ModelResponse) { response.fields.state == "suspended" }

  function MergeInto(response: Option<ModelResponse>, segment: ModelResponse): ModelResponse {
    if response.None? then segment else Merge(response.value, segment)
  }

  /** The response after the segments received so far, starting from a resumed one if there is one. */
  function Folded(seed: Option<ModelResponse>, segments: seq<ModelResponse>): Option<ModelResponse> {
    if segments == [] then seed
    else Some(MergeInto(Folded(seed, segments[..|segments| - 1]), segments[|segments| - 1]))
  }

  /** How the last segment was merged. The first segment of all is not merged. */
  function LastMode(seed: Option<ModelResponse>, segments: seq<ModelResponse>): Mode {
    if segments == [] then Accumulate
    else
      var before := Folded(seed, segments[..|segments| - 1]);
      if before.None? then Accumulate else MergeMode(before.value, segments[|segments| - 1])
  }

  predicate InBackground(response: ModelResponse) {
    "background" in response.fields.providerDetails && response.fields.providerDetails["background"] == "true"
  }

  /** Where the last segment's events were put in the consumer's view. */
  function LastOffset(seed: Option<ModelResponse>, segments: seq<ModelResponse>): nat
    decreases |segments|, 0
  {
    if segments == [] then 0
    else
      var front := segments[..|segments| - 1];
      if Folded(seed, front).None? || LastMode(seed, segments) == ReplaceNew then 0
      else EventOffset(seed, front)
  }

  /** Where the next segment's events go: after the parts so far, or over the last segment when the
      provider works in the background. */
  function EventOffset(seed: Option<ModelResponse>, segments: seq<ModelResponse>): nat
    decreases |segments|, 1
  {
    var response := Folded(seed, segments);
    if response.None? then 0
    else if InBackground(response.value) then LastOffset(seed, segments)
    else |response.value.parts|
  }

  // ----- what is billed -----

  function Min(a: nat, b: nat): nat { if a < b then a else b }

  /** The response with only the usage and attempts beyond the resumed one. */
  function BilledBeyond(response: ModelResponse, resumed: Option<ModelResponse>): ModelResponse {
    if resumed.None? then response
    else
      var billed := response.fields;
      response.(fields := billed.(
        usage := billed.usage - resumed.value.fields.usage,
        attempts := billed.attempts[Min(|resumed.value.fields.attempts|, |billed.attempts|)..]))
  }

  function AllAttempts(segments: seq<ModelResponse>): seq<string> {
    if segments == [] then []
    else AllAttempts(segments[..|segments| - 1]) + segments[|segments| - 1].fields.attempts
  }

  function TotalUsage(segments: seq<ModelResponse>): int {
    if segments == [] then 0
    else TotalUsage(segments[..|segments| - 1]) + segments[|segments| - 1].fields.usage
  }

  /** In every merge mode, the attempts billed are those of the segments requested, in order. */
  lemma {:induction false} BilledAttemptsAreTheSegments(seed: Option<ModelResponse>, segments: seq<ModelResponse>)
    requires segments != [] || seed.Some?
    ensures BilledBeyond(Folded(seed, segments).value, seed).fields.attempts == AllAttempts(segments)
  {
    FoldedAttempts(seed, segments);
    if seed.Some? {
      var all := Folded(seed, segments).value.fields.attempts;
      assert all[|seed.value.fields.attempts|..] == AllAttempts(segments);
    }
  }

  lemma {:induction false} FoldedAttempts(seed: Option<ModelResponse>, segments: seq<ModelResponse>)
    requires segments != [] || seed.Some?
    ensures Folded(seed, segments).value.fields.attempts
         == (if seed.Some? then seed.value.fields.attempts else []) + AllAttempts(segments)
  {
    hide MergeMode, MergeMetadata;
    if segments != [] {
      var front := segments[..|segments| - 1];
      if front != [] || seed.Some? {
        FoldedAttempts(seed, front);
      }
    }
  }

  /** No segment was merged by the replace-same-ID mode. */
  ghost predicate NeverSameId(seed: Option<ModelResponse>, segments: seq<ModelResponse>) {
    forall n :: 0 < n <= |segments| ==> LastMode(seed, segments[..n]) != ReplaceSameId
  }

  /** Except across polls of one provider job, which report their usage anew, so is the usage. */
  lemma {:induction false} BilledUsageIsTheSegments(seed: Option<ModelResponse>, segments: seq<ModelResponse>)
    requires (segments != [] || seed.Some?) && NeverSameId(seed, segments)
    ensures BilledBeyond(Folded(seed, segments).value, seed).fields.usage == TotalUsage(segments)
  {
    hide MergeMode, MergeMetadata;
    if segments != [] {
      var front := segments[..|segments| - 1];
      assert segments[..|segments|] == segments;
      assert LastMode(seed, segments) != ReplaceSameId;
      if front != [] || seed.Some? {
        forall n | 0 < n <= |front| ensures LastMode(seed, front[..n]) != ReplaceSameId {
          assert front[..n] == segments[..n];
        }
        BilledUsageIsTheSegments(seed, front);
      }
    }
  }

  /** The marker never outlives the merge it caused, so it cannot make the next merge replace. */
  lemma MergeUnmarks(existing: ModelResponse, next: ModelResponse)
    ensures !MarkedReplacing(Merge(existing, next).fields.metadata)
    ensures Merge(existing, next).fields.metadata.namespace.Some? ==>
      Merge(existing, next).fields.metadata.namespace.value.others != map[]
  {}

  // ----- the loop -----

  /** What the model does with a request: it may fail, with or without a partial response. A failure may say
      that all fallbacks are exhausted, and list the attempts that were made and billed. */
  datatype Segment = Segment(response: Option<ModelResponse>, failed: bool, exhausted: Option<seq<string>>,
                             detached: bool)

  /** What is billed for attempts alone. */
  function OnlyAttempts(attempts: seq<string>): ModelResponse { ModelResponse([], NO_FIELDS.(attempts := attempts)) }

  /** The request exhausted the fallbacks, and with their usage the run is over its limits. */
  predicate LimitHit(segment: Segment, affordable: ModelResponse -> bool) {
    segment.failed && segment.exhausted.Some? && !affordable(OnlyAttempts(segment.exhausted.value))
  }

  function Defaulted(response: ModelResponse): ModelResponse {
    response.(fields := response.fields.(state := Either(response.fields.state, "complete")))
  }

  predicate Answered(segment: Segment) { !segment.failed && segment.response.Some? }

  /** The first `n` segments, all answered. */
  ghost function Received(provider: nat -> Segment, n: nat): (segments: seq<ModelResponse>)
    requires AllAnswered(provider, n)
    ensures |segments| == n
  {
    if n == 0 then []
    else
      assert Answered(provider(n - 1));
      Received(provider, n - 1) + [Defaulted(provider(n - 1).response.value)]
  }

  ghost predicate AllAnswered(provider: nat -> Segment, n: nat) { forall k :: 0 <= k < n ==> Answered(provider(k)) }

  datatype Failure =
    | TooManyContinuations | WaitFailed | RequestFailed | NoResponse | OverUsageLimit
    | ExhaustedOverLimit  // the fallbacks are exhausted, and the limits as well

  /** `cancelled` is the suspended response whose server-side job was given up; `detached` the one kept
      for a later resumption. */
  datatype Result = Done(response: ModelResponse)
                  | Abandoned(failure: Failure, cancelled: Option<ModelResponse>, detached: Option<ModelResponse>)

  function IfSuspended(response: Option<ModelResponse>): Option<ModelResponse> {
    if response.Some? && Suspended(response.value) then response else None
  }

  /** How often the loop has asked again for a response of each kind, given the segments received. */
  function Generations(seed: Option<ModelResponse>, segments: seq<ModelResponse>, asked: nat): nat
    requires asked <= |segments| + 1
  {
    if asked == 0 then 0
    else
      var before := segments[..asked - 1];
      Generations(seed, segments, asked - 1)
      + if Folded(seed, before).Some? && LastMode(seed, before) != ReplaceSameId then 1 else 0
  }

  function Polls(seed: Option<ModelResponse>, segments: seq<ModelResponse>, asked: nat): nat
    requires asked <= |segments| + 1
  {
    if asked == 0 then 0
    else
      var before := segments[..asked - 1];
      Polls(seed, segments, asked - 1)
      + if Folded(seed, before).Some? && LastMode(seed, before) == ReplaceSameId then 1 else 0
  }

  /** Every request but a fresh first one is a continuation or a poll. */
  lemma {:induction false} AskedAgain(seed: Option<ModelResponse>, segments: seq<ModelResponse>, asked: nat)
    requires asked <= |segments| + 1
    ensures Generations(seed, segments, asked) + Polls(seed, segments, asked)
         == if seed.None? && asked > 0 then asked - 1 else asked
  {
    hide LastMode;
    if asked > 0 {
      AskedAgain(seed, segments, asked - 1);
    }
  }

  lemma {:induction false} CountsExtend(seed: Option<ModelResponse>, segments: seq<ModelResponse>,
                                        segment: ModelResponse, asked: nat)
    requires asked <= |segments| + 1
    ensures Generations(seed, segments + [segment], asked) == Generations(seed, segments, asked)
    ensures Polls(seed, segments + [segment], asked) == Polls(seed, segments, asked)
  {
    hide LastMode, Folded;
    if asked > 0 {
      CountsExtend(seed, segments, segment, asked - 1);
      assert (segments + [segment])[..asked - 1] == segments[..asked - 1];
    }
  }

  /** The requests made stay within the limits, so the response's history is this long at most. */
  ghost predicate WithinLimits(seed: Option<ModelResponse>, segments: seq<ModelResponse>, asked: nat)
    requires asked <= |segments| + 1
  {
    && Generations(seed, segments, asked) <= MAX_GENERATION_CONTINUATIONS
    && Polls(seed, segments, asked) <= MAX_BACKGROUND_POLLS
    && asked <= (if seed.None? then 1 else 0) + MAX_GENERATION_CONTINUATIONS + MAX_BACKGROUND_POLLS
  }

  /** All responses before the last segment were suspended, so asking again was called for. */
  ghost predicate AllSuspended(seed: Option<ModelResponse>, segments: seq<ModelResponse>, n: nat)
    requires n <= |segments|
  {
    forall k :: 0 <= k < n && Folded(seed, segments[..k]).Some? ==> Suspended(Folded(seed, segments[..k]).value)
  }

  /** Every request after a response so far was waited for. */
  ghost predicate Waited(seed: Option<ModelResponse>, segments: seq<ModelResponse>, waits: nat -> bool, asked: nat)
    requires asked <= |segments| + 1
  {
    forall k :: 0 <= k < asked && Folded(seed, segments[..k]).Some? ==> waits(k)
  }

  /** Every suspended response so far left room in the usage limits. */
  ghost predicate Afforded(seed: Option<ModelResponse>, segments: seq<ModelResponse>, affordable: ModelResponse -> bool,
                           n: nat)
    requires n <= |segments|
  {
    forall k :: 0 < k <= n && IfSuspended(Folded(seed, segments[..k])).Some? ==>
      affordable(BilledBeyond(Folded(seed, segments[..k]).value, seed))
  }

  /** Each failure has its cause: a loop that gives up early, late or for another reason does not meet this. */
  ghost predicate Caused(failure: Failure, seed: Option<ModelResponse>, provider: nat -> Segment, waits: nat -> bool,
                         affordable: ModelResponse -> bool, asked: nat, answered: nat)
    requires answered <= asked <= answered + 1 && AllAnswered(provider, answered)
  {
    var segments := Received(provider, answered);
    var response := Folded(seed, segments);
    match failure
    case TooManyContinuations => asked == answered && response.Some? && !WithinLimits(seed, segments, asked + 1)
    case WaitFailed =>
      asked == answered && response.Some? && WithinLimits(seed, segments, asked + 1) && !waits(asked)
    case RequestFailed =>
      asked == answered + 1 && provider(answered).failed && !LimitHit(provider(answered), affordable)
    case ExhaustedOverLimit => asked == answered + 1 && LimitHit(provider(answered), affordable)
    case NoResponse => asked == answered + 1 && !provider(answered).failed && provider(answered).response.None?
    case OverUsageLimit =>
      && asked == answered > 0 && response.Some? && Suspended(response.value)
      && !affordable(BilledBeyond(response.value, seed))
  }

  /** What a failure finds left running: what the failed request added to, if that is suspended, or else
      what it asked about. */
  function LeftRunning(response: Option<ModelResponse>, segment: Segment): Option<ModelResponse> {
    var partial :=
      if segment.response.Some? then Some(MergeInto(response, Defaulted(segment.response.value))) else response;
    if IfSuspended(partial).Some? then partial else IfSuspended(response)
  }

  /** What any failure finds left running: only a failed request may have added to the response. */
  function StillRunning(failure: Failure, response: Option<ModelResponse>, segment: Segment): Option<ModelResponse> {
    if failure == RequestFailed || failure == ExhaustedOverLimit then LeftRunning(response, segment) else response
  }

  lemma {:induction false} WaitedMore(seed: Option<ModelResponse>, segments: seq<ModelResponse>, waits: nat -> bool)
    requires Waited(seed, segments, waits, |segments|) && (Folded(seed, segments).Some? ==> waits(|segments|))
    ensures Waited(seed, segments, waits, |segments| + 1)
  {
    hide Folded;
    assert segments[..|segments|] == segments;
  }

  lemma {:induction false} WaitedNext(seed: Option<ModelResponse>, segments: seq<ModelResponse>, waits: nat -> bool,
                                      segment: ModelResponse)
    requires Waited(seed, segments, waits, |segments| + 1)
    ensures Waited(seed, segments + [segment], waits, |segments| + 1)
  {
    hide Folded;
    forall k | 0 <= k < |segments| + 1 ensures (segments + [segment])[..k] == segments[..k] {}
  }

  lemma {:induction false} AffordedNext(seed: Option<ModelResponse>, segments: seq<ModelResponse>,
                                        affordable: ModelResponse -> bool, segment: ModelResponse)
    requires Afforded(seed, segments, affordable, |segments|)
    ensures Afforded(seed, segments + [segment], affordable, |segments|)
    ensures var response := Folded(seed, segments + [segment]);
      response.Some?
      && (Suspended(response.value) ==> affordable(BilledBeyond(response.value, seed))) ==>
        Afforded(seed, segments + [segment], affordable, |segments| + 1)
  {
    hide Folded;
    forall k | 0 < k <= |segments| ensures (segments + [segment])[..k] == segments[..k] {}
    assert (segments + [segment])[..|segments| + 1] == segments + [segment];
  }

  lemma NextFold(seed: Option<ModelResponse>, segments: seq<ModelResponse>, segment: ModelResponse)
    ensures var before := Folded(seed, segments);
      && Folded(seed, segments + [segment]) == Some(MergeInto(before, segment))
      && LastMode(seed, segments + [segment]) == if before.None? then Accumulate else MergeMode(before.value, segment)
  {
    hide Merge, MergeMode;
    assert (segments + [segment])[..|segments|] == segments;
  }

  lemma {:induction false} StillSuspended(seed: Option<ModelResponse>, segments: seq<ModelResponse>,
                                          segment: ModelResponse)
    requires AllSuspended(seed, segments, |segments|)
    requires Folded(seed, segments).Some? ==> Suspended(Folded(seed, segments).value)
    ensures AllSuspended(seed, segments + [segment], |segments| + 1)
  {
    hide Folded;
    forall k | 0 <= k < |segments| + 1 ensures (segments + [segment])[..k] == segments[..k] {}
    assert segments[..|segments|] == segments;
  }

  method ContinuationLimit(mode: Mode, generations: nat, polls: nat) returns (within: bool, g: nat, p: nat)
    ensures mode == ReplaceSameId ==> g == generations && p == polls + 1 && within == (p <= MAX_BACKGROUND_POLLS)
    ensures mode != ReplaceSameId ==>
      g == generations + 1 && p == polls && within == (g <= MAX_GENERATION_CONTINUATIONS)
  {
    g, p := generations, polls;
    if mode == ReplaceSameId {
      p := p + 1;
      within := p <= MAX_BACKGROUND_POLLS;
    } else {
      g := g + 1;
      within := g <= MAX_GENERATION_CONTINUATIONS;
    }
  }

  /** What either loop knows before each request. */
  ghost predicate Looping(seed: Option<ModelResponse>, provider: nat -> Segment, response: Option<ModelResponse>,
                          mode: Mode, generations: nat, polls: nat, asked: nat) {
    && AllAnswered(provider, asked)
    && var segments := Received(provider, asked);
    && response == Folded(seed, segments) && mode == LastMode(seed, segments)
    && generations == Generations(seed, segments, asked) && polls == Polls(seed, segments, asked)
    && generations <= MAX_GENERATION_CONTINUATIONS && polls <= MAX_BACKGROUND_POLLS
    && AllSuspended(seed, segments, asked)
  }

  lemma LoopStarts(seed: Option<ModelResponse>, provider: nat -> Segment)
    ensures Looping(seed, provider, seed, Accumulate, 0, 0, 0)
  {}

  /** Once the next request is charged it is within the limits. */
  lemma {:induction false} Charged(seed: Option<ModelResponse>, provider: nat -> Segment,
                                   response: Option<ModelResponse>, mode: Mode, generations: nat, polls: nat,
                                   asked: nat, g: nat, p: nat)
    requires Looping(seed, provider, response, mode, generations, polls, asked)
    requires g == generations + (if response.Some? && mode != ReplaceSameId then 1 else 0)
    requires p == polls + (if response.Some? && mode == ReplaceSameId then 1 else 0)
    ensures var segments := Received(provider, asked);
      && WithinLimits(seed, segments, asked)
      && g == Generations(seed, segments, asked + 1) && p == Polls(seed, segments, asked + 1)
      && (g <= MAX_GENERATION_CONTINUATIONS && p <= MAX_BACKGROUND_POLLS <==> WithinLimits(seed, segments, asked + 1))
  {
    hide LastMode, Folded, AllSuspended;
    var segments := Received(provider, asked);
    AskedAgain(seed, segments, asked);
    AskedAgain(seed, segments, asked + 1);
    assert segments[..asked] == segments;
  }

  /** A response received keeps the loop's knowledge, with the request charged before it. */
  lemma {:induction false} ReceiveKeepsLooping(seed: Option<ModelResponse>, provider: nat -> Segment,
                                               response: Option<ModelResponse>, mode: Mode, generations: nat,
                                               polls: nat, asked: nat, g: nat, p: nat)
    requires Looping(seed, provider, response, mode, generations, polls, asked) && Answered(provider(asked))
    requires response.Some? ==> Suspended(response.value)
    requires g <= MAX_GENERATION_CONTINUATIONS && p <= MAX_BACKGROUND_POLLS
    requires var segments := Received(provider, asked);
      g == Generations(seed, segments, asked + 1) && p == Polls(seed, segments, asked + 1)
    ensures var received := Defaulted(provider(asked).response.value);
      Looping(seed, provider, Some(MergeInto(response, received)),
              if response.None? then Accumulate else MergeMode(response.value, received), g, p, asked + 1)
  {
    hide LastMode, Folded, AllSuspended, Generations, Polls, Merge, MergeMode;
    var segments := Received(provider, asked);
    var received := Defaulted(provider(asked).response.value);
    CountsExtend(seed, segments, received, asked + 1);
    StillSuspended(seed, segments, received);
    NextFold(seed, segments, received);
  }

  /** What is known of the segments received, besides the counters. */
  ghost predicate Passed(seed: Option<ModelResponse>, provider: nat -> Segment, waits: nat -> bool,
                         affordable: ModelResponse -> bool, asked: nat) {
    && AllAnswered(provider, asked)
    && Waited(seed, Received(provider, asked), waits, asked)
    && Afforded(seed, Received(provider, asked), affordable, asked)
  }

  lemma PassedAtStart(seed: Option<ModelResponse>, provider: nat -> Segment, waits: nat -> bool,
                      affordable: ModelResponse -> bool)
    ensures Passed(seed, provider, waits, affordable, 0)
  {}

  /** The next request is made, and then either answered or not. */
  lemma {:induction false} PassedNext(seed: Option<ModelResponse>, provider: nat -> Segment, waits: nat -> bool,
                                      affordable: ModelResponse -> bool, asked: nat)
    requires Passed(seed, provider, waits, affordable, asked)
    requires Folded(seed, Received(provider, asked)).Some? ==> waits(asked)
    ensures Waited(seed, Received(provider, asked), waits, asked + 1)
    ensures Afforded(seed, Received(provider, asked), affordable, asked)
    ensures Answered(provider(asked)) ==>
      && AllAnswered(provider, asked + 1)
      && var all := Received(provider, asked + 1);
      && Waited(seed, all, waits, asked + 1) && Afforded(seed, all, affordable, asked)
      && Folded(seed, all).Some?
      && (!Suspended(Folded(seed, all).value) || affordable(BilledBeyond(Folded(seed, all).value, seed)) ==>
            Passed(seed, provider, waits, affordable, asked + 1))
  {
    hide Waited, Afforded, Folded;
    var segments := Received(provider, asked);
    WaitedMore(seed, segments, waits);
    if Answered(provider(asked)) {
      var segment := Defaulted(provider(asked).response.value);
      WaitedNext(seed, segments, waits, segment);
      NextFold(seed, segments, segment);
      AffordedNext(seed, segments, affordable, segment);
    }
  }

  /** Where the loop may end. What a failure finds still running is given up, or kept for a later
      resumption, unless exhausted fallbacks took the run over its limits: then it is neither. */
  ghost predicate EndsWith(seed: Option<ModelResponse>, provider: nat -> Segment, waits: nat -> bool,
                           affordable: ModelResponse -> bool, result: Result, asked: nat, answered: nat)
    requires answered <= asked <= answered + 1 && AllAnswered(provider, answered)
  {
    var segments := Received(provider, answered);
    var response := Folded(seed, segments);
    && WithinLimits(seed, segments, asked)
    && AllSuspended(seed, segments, answered) && Waited(seed, segments, waits, asked)
    && match result
       case Done(complete) =>
         && asked == answered && response == Some(complete) && !Suspended(complete)
         && Afforded(seed, segments, affordable, answered)
       case Abandoned(failure, cancelled, detached) =>
         var running := StillRunning(failure, response, provider(answered));
         && Caused(failure, seed, provider, waits, affordable, asked, answered)
         && Afforded(seed, segments, affordable, if failure == OverUsageLimit then answered - 1 else answered)
         && (response.Some? ==> Suspended(response.value))
         && (cancelled, detached)
            == (if failure == ExhaustedOverLimit then (None, None)
                else if failure == RequestFailed && provider(answered).detached then (None, running)
                else (running, None))
  }

  /** A job that still runs when the loop gives up, asked about before or begun by the failed request, is
      neither cancelled nor kept exactly when that request exhausted the fallbacks and the run is then over
      its limits. */
  lemma {:induction false} JobLostExactly(seed: Option<ModelResponse>, provider: nat -> Segment, waits: nat -> bool,
                                          affordable: ModelResponse -> bool, result: Result, asked: nat, answered: nat)
    requires answered <= asked <= answered + 1 && AllAnswered(provider, answered) && result.Abandoned?
    requires EndsWith(seed, provider, waits, affordable, result, asked, answered)
    ensures var response := Folded(seed, Received(provider, answered));
      var running := StillRunning(result.failure, response, provider(answered));
      && (response.Some? ==> running.Some?)
      && (running.Some? ==>
            && Suspended(running.value)
            && (result.cancelled.None? && result.detached.None?
                <==> asked == answered + 1 && LimitHit(provider(answered), affordable)))
  {
    hide Received, Folded, WithinLimits, AllSuspended, Waited, Afforded, MergeInto, AllAnswered;
  }

  /** Such an input: a suspended response is resumed, every fallback is rejected, and what they cost is over
      the limit. However the loop ends, the job runs on. */
  lemma {:induction false} ExhaustedFallbackLosesJob()
    ensures exists seed: ModelResponse, provider: nat -> Segment, waits: nat -> bool,
      affordable: ModelResponse -> bool :: Suspended(seed) && LosesJob(seed, provider, waits, affordable)
  {
    var seed := ModelResponse([], NO_FIELDS.(providerResponseId := "job", state := "suspended"));
    var provider: nat -> Segment := (k: nat) => Segment(None, true, Some(["rejected"]), false);
    var waits: nat -> bool := (k: nat) => true;
    var affordable: ModelResponse -> bool := (r: ModelResponse) => r.fields.attempts == [];
    forall result: Result, asked: nat, answered: nat |
      answered <= asked <= answered + 1 && AllAnswered(provider, answered)
      && EndsWith(Some(seed), provider, waits, affordable, result, asked, answered)
      ensures result == Abandoned(ExhaustedOverLimit, None, None)
    {
      NoneAnswered(provider, answered);
      assert Folded(Some(seed), []) == Some(seed) && LastMode(Some(seed), []) == Accumulate;
      assert Generations(Some(seed), [], 0) == 0 && Polls(Some(seed), [], 0) == 0;
      var none: seq<ModelResponse> := [];
      assert none[..0] == none;
      assert Generations(Some(seed), [], 1) == 1 && Polls(Some(seed), [], 1) == 0;
    }
    assert LosesJob(seed, provider, waits, affordable);
  }

  ghost predicate LosesJob(seed: ModelResponse, provider: nat -> Segment, waits: nat -> bool,
                           affordable: ModelResponse -> bool) {
    forall result: Result, asked: nat, answered: nat ::
      answered <= asked <= answered + 1 && AllAnswered(provider, answered)
      && EndsWith(Some(seed), provider, waits, affordable, result, asked, answered) ==>
        result == Abandoned(ExhaustedOverLimit, None, None)
  }

  lemma NoneAnswered(provider: nat -> Segment, n: nat)
    requires AllAnswered(provider, n) && provider(0).failed
    ensures n == 0 && Received(provider, n) == []
  {
    assert !Answered(provider(0));
  }

  /** One model turn. Segments that arrive are merged until the response is complete. The loop ends by
      itself whatever the provider does. */
  method DoModelRequest(seed: Option<ModelResponse>, provider: nat -> Segment, waits: nat -> bool,
                        affordable: ModelResponse -> bool) returns (result: Result, asked: nat, answered: nat)
    requires seed.Some? ==> Suspended(seed.value)
    ensures answered <= asked <= answered + 1
    ensures AllAnswered(provider, answered)
    ensures EndsWith(seed, provider, waits, affordable, result, asked, answered)
  {
    hide Looping, Passed, Received, Folded, Generations, Polls, WithinLimits, AllSuspended, MergeInto, MergeMode,
      BilledBeyond, Defaulted, AllAnswered, Waited, Afforded;
    var response := seed;
    var lastMode: Mode, generationCount: nat, pollCount: nat := Accumulate, 0, 0;
    asked, answered := 0, 0;
    LoopStarts(seed, provider);
    PassedAtStart(seed, provider, waits, affordable);
    while true
      invariant asked == answered && Looping(seed, provider, response, lastMode, generationCount, pollCount, asked)
      invariant Passed(seed, provider, waits, affordable, asked)
      invariant generationCount <= MAX_GENERATION_CONTINUATIONS && pollCount <= MAX_BACKGROUND_POLLS
      decreases if response.None? then 1 else 0,
                MAX_GENERATION_CONTINUATIONS - generationCount + MAX_BACKGROUND_POLLS - pollCount
    {
      ghost var g := generationCount + (if response.Some? && lastMode != ReplaceSameId then 1 else 0);
      ghost var p := pollCount + (if response.Some? && lastMode == ReplaceSameId then 1 else 0);
      Charged(seed, provider, response, lastMode, generationCount, pollCount, asked, g, p);
      LoopingGives(seed, provider, response, lastMode, generationCount, pollCount, asked);
      PassedGives(seed, provider, waits, affordable, asked);
      ghost var before := (lastMode, generationCount, pollCount);
      if response.Some? {
        if !Suspended(response.value) { return Done(response.value), asked, answered; }
        var within;
        within, generationCount, pollCount := ContinuationLimit(lastMode, generationCount, pollCount);
        if !within { return Abandoned(TooManyContinuations, response, None), asked, answered; }
        if !waits(asked) { return Abandoned(WaitFailed, response, None), asked, answered; }
      }
      PassedNext(seed, provider, waits, affordable, asked);
      var segment := provider(asked);
      asked := asked + 1;
      if segment.failed {
        if segment.exhausted.Some? && !affordable(OnlyAttempts(segment.exhausted.value)) {
          return Abandoned(ExhaustedOverLimit, None, None), asked, answered;
        }
        var partial :=
          if segment.response.Some? then Some(MergeInto(response, Defaulted(segment.response.value))) else response;
        var given := if IfSuspended(partial).Some? then partial else IfSuspended(response);
        if segment.detached { return Abandoned(RequestFailed, None, given), asked, answered; }
        return Abandoned(RequestFailed, given, None), asked, answered;
      }
      if segment.response.None? { return Abandoned(NoResponse, response, None), asked, answered; }
      ReceiveKeepsLooping(seed, provider, response, before.0, before.1, before.2, answered, g, p);
      var received := Defaulted(segment.response.value);
      lastMode := if response.None? then Accumulate else MergeMode(response.value, received);
      response := Some(MergeInto(response, received));
      answered := answered + 1;
      LoopingGives(seed, provider, response, lastMode, generationCount, pollCount, asked);
      if Suspended(response.value) && !affordable(BilledBeyond(response.value, seed)) {
        Charged(seed, provider, response, lastMode, generationCount, pollCount, asked,
                generationCount + (if lastMode != ReplaceSameId then 1 else 0),
                pollCount + (if lastMode == ReplaceSameId then 1 else 0));
        return Abandoned(OverUsageLimit, response, None), asked, answered;
      }
    }
  }

  lemma PassedGives(seed: Option<ModelResponse>, provider: nat -> Segment, waits: nat -> bool,
                    affordable: ModelResponse -> bool, asked: nat)
    requires Passed(seed, provider, waits, affordable, asked)
    ensures AllAnswered(provider, asked)
    ensures Waited(seed, Received(provider, asked), waits, asked)
    ensures Afforded(seed, Received(provider, asked), affordable, asked)
  {}

  lemma LoopingGives(seed: Option<ModelResponse>, provider: nat -> Segment, response: Option<ModelResponse>,
                     mode: Mode, generations: nat, polls: nat, asked: nat)
    requires Looping(seed, provider, response, mode, generations, polls, asked)
    ensures AllAnswered(provider, asked) && Folded(seed, Received(provider, asked)) == response
    ensures AllSuspended(seed, Received(provider, asked), asked)
    ensures generations <= MAX_GENERATION_CONTINUATIONS && polls <= MAX_BACKGROUND_POLLS
  {}

  /** The direct loop checks no usage limits. */
  const ANY_COST: ModelResponse -> bool := _ => true

  /** A request outside a run. On failure it gives back what it has. */
  datatype DirectResult = DirectDone(response: ModelResponse)
                        | DirectFailed(failure: Failure, partial: Option<ModelResponse>,
                                       cancelled: Option<ModelResponse>)

  /** The same loop without a run around it. It gives up a suspended job on failure too, but only when
      what it hands back is suspended: a failed segment's own partial response, which is not, hides the
      job it continued. */
  method RequestModelDirect(seed: Option<ModelResponse>, provider: nat -> Segment, waits: nat -> bool)
    returns (result: DirectResult, asked: nat, answered: nat)
    requires seed.Some? ==> Suspended(seed.value)
    ensures answered <= asked <= answered + 1
    ensures AllAnswered(provider, answered)
    ensures var segments := Received(provider, answered);
      var response := Folded(seed, segments);
      && WithinLimits(seed, segments, asked)
      && AllSuspended(seed, segments, answered) && Waited(seed, segments, waits, asked)
      && (result.DirectDone? ==>
            asked == answered && response == Some(result.response) && !Suspended(result.response))
      && (result.DirectFailed? ==>
            && Caused(result.failure, seed, provider, waits, ANY_COST, asked, answered)
            && (response.Some? ==> Suspended(response.value))
            && result.partial == (if result.failure == RequestFailed && provider(answered).response.Some?
                                  then Some(MergeInto(response, provider(answered).response.value)) else response)
            && result.cancelled == IfSuspended(result.partial))
  {
    hide Looping, Passed, Received, Folded, Generations, Polls, WithinLimits, AllSuspended, MergeInto, MergeMode,
      BilledBeyond, Defaulted, AllAnswered, Waited, Afforded;
    var response := seed;
    var lastMode: Mode, generationCount: nat, pollCount: nat := Accumulate, 0, 0;
    asked, answered := 0, 0;
    LoopStarts(seed, provider);
    PassedAtStart(seed, provider, waits, ANY_COST);
    while true
      invariant asked == answered && Looping(seed, provider, response, lastMode, generationCount, pollCount, asked)
      invariant Passed(seed, provider, waits, ANY_COST, asked)
      invariant generationCount <= MAX_GENERATION_CONTINUATIONS && pollCount <= MAX_BACKGROUND_POLLS
      decreases if response.None? then 1 else 0,
                MAX_GENERATION_CONTINUATIONS - generationCount + MAX_BACKGROUND_POLLS - pollCount
    {
      ghost var g := generationCount + (if response.Some? && lastMode != ReplaceSameId then 1 else 0);
      ghost var p := pollCount + (if response.Some? && lastMode == ReplaceSameId then 1 else 0);
      Charged(seed, provider, response, lastMode, generationCount, pollCount, asked, g, p);
      LoopingGives(seed, provider, response, lastMode, generationCount, pollCount, asked);
      PassedGives(seed, provider, waits, ANY_COST, asked);
      ghost var before := (lastMode, generationCount, pollCount);
      if response.Some? {
        if !Suspended(response.value) { return DirectDone(response.value), asked, answered; }
        var within;
        within, generationCount, pollCount := ContinuationLimit(lastMode, generationCount, pollCount);
        if !within { return DirectFailed(TooManyContinuations, response, response), asked, answered; }
        if !waits(asked) { return DirectFailed(WaitFailed, response, response), asked, answered; }
      }
      PassedNext(seed, provider, waits, ANY_COST, asked);
      var segment := provider(asked);
      asked := asked + 1;
      if segment.failed {
        var partial := if segment.response.Some? then Some(MergeInto(response, segment.response.value)) else response;
        return DirectFailed(RequestFailed, partial, IfSuspended(partial)), asked, answered;
      }
      if segment.response.None? { return DirectFailed(NoResponse, response, response), asked, answered; }
      ReceiveKeepsLooping(seed, provider, response, before.0, before.1, before.2, answered, g, p);
      var received := Defaulted(segment.response.value);
      lastMode := if response.None? then Accumulate else MergeMode(response.value, received);
      response := Some(MergeInto(response, received));
      answered := answered + 1;
      LoopingGives(seed, provider, response, lastMode, generationCount, pollCount, asked);
    }
  }

  /** A failed request hides the running job from the direct loop exactly when it brought a response of its
      own that is not suspended. The loop in a run looks behind that response; `JobLostExactly` says when it
      does not look at all. */
  lemma JobHiddenExactly(response: ModelResponse, segment: Segment)
    requires Suspended(response)
    ensures var partial :=
        if segment.response.Some? then Some(MergeInto(Some(response), segment.response.value)) else Some(response);
      IfSuspended(partial).None? <==> segment.response.Some? && !Suspended(segment.response.value)
    ensures LeftRunning(Some(response), segment).Some?
  {}

  /** A job left running: its next poll fails with a response cut short, and nothing is cancelled. */
  lemma FailedPartHidesJob()
    ensures exists seed: ModelResponse, part: ModelResponse ::
      Suspended(seed) && IfSuspended(Some(MergeInto(Some(seed), part))).None?
  {
    var seed := ModelResponse([], NO_FIELDS.(providerResponseId := "job", state := "suspended"));
    var part := ModelResponse([], NO_FIELDS.(providerResponseId := "job", state := "incomplete"));
    assert IfSuspended(Some(MergeInto(Some(seed), part))).None?;
  }
}
