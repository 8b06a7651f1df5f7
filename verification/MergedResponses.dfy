/** What a response built from several segments consists of, in terms of the segments alone. */
module MergedResponses {
  import opened Options
  import opened StreamEvents
  import opened AccumulateSpec
  import opened Continuation
  import opened Pieces

  /** The resumed response, if there is one, and the segments received. */
  function Chain(seed: Option<ModelResponse>, segments: seq<ModelResponse>): seq<ModelResponse> {
    (if seed.Some? then [seed.value] else []) + segments
  }

  function AllParts(chain: seq<ModelResponse>): seq<Part> {
    if chain == [] then [] else AllParts(chain[..|chain| - 1]) + chain[|chain| - 1].parts
  }

  /** The last ID given, or none. */
  function LastId(chain: seq<ModelResponse>): string {
    if chain == [] then ""
    else
      var id := chain[|chain| - 1].fields.providerResponseId;
      if id != "" then id else LastId(chain[..|chain| - 1])
  }

  /** The last segment says that it replaces what came before. */
  predicate Marked(chain: seq<ModelResponse>)
    requires chain != []
  {
    var namespace := chain[|chain| - 1].fields.metadata.namespace;
    namespace.Some? && namespace.value.replacePrevious == Some(true)
  }

  /** The last segment carries the ID that the response has kept so far. */
  predicate SharesId(chain: seq<ModelResponse>)
    requires chain != []
  {
    var front, id := chain[..|chain| - 1], chain[|chain| - 1].fields.providerResponseId;
    id != "" && LastId(front[Start(front)..]) == id
  }

  /** The last segment names another model than the one before it. */
  predicate OtherModel(chain: seq<ModelResponse>)
    requires |chain| > 1
  {
    var was, now := chain[|chain| - 2].fields.modelName, chain[|chain| - 1].fields.modelName;
    was != "" && now != "" && was != now
  }

  /** The segment that last replaced everything before it. */
  function Start(chain: seq<ModelResponse>): (start: nat)
    ensures start <= |chain| && (chain != [] ==> start < |chain|)
    decreases |chain|
  {
    if |chain| <= 1 then 0
    else
      var front, id := chain[..|chain| - 1], chain[|chain| - 1].fields.providerResponseId;
      if Marked(chain) || (id != "" && LastId(front[Start(front)..]) == id) || OtherModel(chain) then |chain| - 1
      else Start(front)
  }

  /** The last poll that reported the usage of its job anew. */
  function UsageStart(chain: seq<ModelResponse>): (start: nat)
    ensures start <= |chain|
  {
    if |chain| <= 1 then 0
    else if !Marked(chain) && SharesId(chain) then |chain| - 1
    else UsageStart(chain[..|chain| - 1])
  }

  function Details(chain: seq<ModelResponse>, key: string): seq<Option<string>> {
    if chain == [] then []
    else Details(chain[..|chain| - 1], key) + [Entry(chain[|chain| - 1].fields.providerDetails, key)]
  }

  function Plain(chain: seq<ModelResponse>, key: string): seq<Option<string>> {
    if chain == [] then []
    else Plain(chain[..|chain| - 1], key) + [Entry(chain[|chain| - 1].fields.metadata.plain, key)]
  }

  function Namespaces(chain: seq<ModelResponse>): seq<Option<Namespace>> {
    if chain == [] then [] else Namespaces(chain[..|chain| - 1]) + [chain[|chain| - 1].fields.metadata.namespace]
  }

  /** The namespace without its marker, or nothing if that was all. */
  function Unmarked(namespace: Option<Namespace>): Option<Namespace> {
    if namespace.None? || namespace.value.others == map[] then None
    else Some(Namespace(None, namespace.value.others))
  }

  /** The parts since the last replacement, the last ID given since then, the usage since the last poll of the
      same job, all attempts, and of details and metadata the last entry for each key; everything else is the
      last segment's. */
  ghost predicate MadeOf(chain: seq<ModelResponse>, whole: ModelResponse)
    requires chain != []
  {
    var last, fields := chain[|chain| - 1].fields, whole.fields;
    && whole.parts == AllParts(chain[Start(chain)..])
    && fields.providerResponseId == LastId(chain[Start(chain)..])
    && fields.usage == TotalUsage(chain[UsageStart(chain)..])
    && fields.attempts == AllAttempts(chain)
    && (fields.modelName, fields.providerName, fields.state, fields.rest)
       == (last.modelName, last.providerName, last.state, last.rest)
    && (forall key :: LastSet(Details(chain, key), None, Entry(fields.providerDetails, key)))
    && (forall key :: LastSet(Plain(chain, key), None, Entry(fields.metadata.plain, key)))
    && LastNamespace(chain, fields.metadata.namespace)
  }

  ghost predicate LastNamespace(chain: seq<ModelResponse>, namespace: Option<Namespace>) {
    exists given :: (LastSet(Namespaces(chain), None, given)
                     && namespace == if |chain| == 1 then given else Unmarked(given))
  }

  lemma {:induction false} SeedComesFirst(seed: ModelResponse, segments: seq<ModelResponse>)
    ensures Folded(Some(seed), segments) == Folded(None, [seed] + segments)
  {
    hide Merge;
    if segments == [] {
      assert [seed] + segments == [seed] && [seed][..0] == [];
    } else {
      var front := segments[..|segments| - 1];
      SeedComesFirst(seed, front);
      assert ([seed] + segments)[..|segments|] == [seed] + front;
    }
  }

  lemma OneResponse(response: ModelResponse)
    ensures Folded(None, [response]) == Some(response) && MadeOf([response], response)
  {
    assert [response][..0] == [] && [response][0..] == [response];
    assert Start([response]) == 0 && UsageStart([response]) == 0;
    forall key ensures LastSet(Details([response], key), None, Entry(response.fields.providerDetails, key))
      && LastSet(Plain([response], key), None, Entry(response.fields.metadata.plain, key))
    {
      assert Details([response], key) == [Entry(response.fields.providerDetails, key)];
      assert Plain([response], key) == [Entry(response.fields.metadata.plain, key)];
      LastSetAlone(Entry(response.fields.providerDetails, key), None);
      LastSetAlone(Entry(response.fields.metadata.plain, key), None);
    }
    assert Namespaces([response]) == [response.fields.metadata.namespace];
    LastSetAlone(response.fields.metadata.namespace, None);
    assert LastSet(Namespaces([response]), None, response.fields.metadata.namespace);
  }

  lemma {:induction false} SuffixMore(chain: seq<ModelResponse>, start: nat)
    requires start < |chain|
    ensures var front, last := chain[..|chain| - 1], chain[|chain| - 1];
      && AllParts(chain[start..]) == AllParts(front[start..]) + last.parts
      && LastId(chain[start..])
         == (if last.fields.providerResponseId != "" then last.fields.providerResponseId else LastId(front[start..]))
      && TotalUsage(chain[start..]) == TotalUsage(front[start..]) + last.fields.usage
  {
    var suffix := chain[start..];
    assert suffix[..|suffix| - 1] == chain[..|chain| - 1][start..] && suffix[|suffix| - 1] == chain[|chain| - 1];
  }

  lemma EmptySuffix(chain: seq<ModelResponse>)
    ensures AllParts(chain[|chain|..]) == [] && LastId(chain[|chain|..]) == "" && TotalUsage(chain[|chain|..]) == 0
  {}

  /** Which of the three ways of merging the last segment calls for. */
  lemma {:induction false} ModeIs(chain: seq<ModelResponse>, before: ModelResponse)
    requires |chain| > 1 && MadeOf(chain[..|chain| - 1], before)
    ensures MergeMode(before, chain[|chain| - 1])
         == if Marked(chain) then ReplaceNew
            else if SharesId(chain) then ReplaceSameId
            else if OtherModel(chain) then ReplaceNew else Accumulate
  {
    hide LastSet, AllParts, LastId, TotalUsage, Start, UsageStart, AllAttempts, LastNamespace;
  }

  lemma {:induction false} EntriesMerged(chain: seq<ModelResponse>, before: ModelResponse, key: string)
    requires |chain| > 1 && MadeOf(chain[..|chain| - 1], before)
    ensures var merged := Merge(before, chain[|chain| - 1]).fields;
      && LastSet(Details(chain, key), None, Entry(merged.providerDetails, key))
      && LastSet(Plain(chain, key), None, Entry(merged.metadata.plain, key))
  {
    hide LastSet, AllParts, LastId, TotalUsage, Start, UsageStart, AllAttempts, LastNamespace, MergeMode;
    var front, last := chain[..|chain| - 1], chain[|chain| - 1].fields;
    LastSetThen(Details(front, key), Entry(last.providerDetails, key), None,
      Entry(before.fields.providerDetails, key));
    LastSetThen(Plain(front, key), Entry(last.metadata.plain, key), None, Entry(before.fields.metadata.plain, key));
  }

  lemma {:induction false} NamespaceMerged(chain: seq<ModelResponse>, before: ModelResponse)
    requires |chain| > 1 && MadeOf(chain[..|chain| - 1], before)
    ensures LastNamespace(chain, Merge(before, chain[|chain| - 1]).fields.metadata.namespace)
  {
    hide AllParts, LastId, TotalUsage, Start, UsageStart, AllAttempts, MergeMode, Details, Plain, LastSet;
    var front, last := chain[..|chain| - 1], chain[|chain| - 1].fields.metadata.namespace;
    var given :| LastSet(Namespaces(front), None, given)
      && before.fields.metadata.namespace == if |front| == 1 then given else Unmarked(given);
    LastSetThen(Namespaces(front), last, None, given);
    assert LastSet(Namespaces(chain), None, if last != None then last else given);
  }

  lemma {:induction false} PartsMerged(chain: seq<ModelResponse>, before: ModelResponse)
    requires |chain| > 1 && MadeOf(chain[..|chain| - 1], before)
    ensures var merged := Merge(before, chain[|chain| - 1]);
      && merged.parts == AllParts(chain[Start(chain)..])
      && merged.fields.providerResponseId == LastId(chain[Start(chain)..])
      && merged.fields.usage == TotalUsage(chain[UsageStart(chain)..])
  {
    ModeIs(chain, before);
    var front := chain[..|chain| - 1];
    SuffixMore(chain, Start(chain));
    SuffixMore(chain, UsageStart(chain));
    EmptySuffix(front);
    assert Start(chain) == if Marked(chain) || SharesId(chain) || OtherModel(chain) then |front| else Start(front);
    hide Start, UsageStart, LastSet, AllParts, LastId, TotalUsage, MergeMode, MergeMetadata, AllAttempts, Details,
      Plain, LastNamespace, Marked, SharesId, OtherModel;
  }

  lemma {:induction false} MergedChain(chain: seq<ModelResponse>)
    requires chain != []
    ensures Folded(None, chain).Some? && MadeOf(chain, Folded(None, chain).value)
  {
    if |chain| == 1 {
      OneResponse(chain[0]);
      assert chain == [chain[0]];
    } else {
      var front := chain[..|chain| - 1];
      MergedChain(front);
      var before := Folded(None, front).value;
      PartsMerged(chain, before);
      NamespaceMerged(chain, before);
      forall key {
        EntriesMerged(chain, before, key);
      }
      hide Start, UsageStart, LastSet, AllParts, LastId, TotalUsage, MergeMode, MergeMetadata, Details, Plain,
        LastNamespace;
    }
  }

  /** The response after any segments, resumed or not: a segment that is marked, shares the ID kept so far, or
      names another model replaces the parts; only an unmarked one that shares the ID replaces the usage. */
  lemma {:induction false} FoldedIsMadeOf(seed: Option<ModelResponse>, segments: seq<ModelResponse>)
    requires seed.Some? || segments != []
    ensures Folded(seed, segments).Some? && MadeOf(Chain(seed, segments), Folded(seed, segments).value)
  {
    hide MadeOf, Folded;
    if seed.Some? {
      SeedComesFirst(seed.value, segments);
    } else {
      assert Chain(seed, segments) == segments;
    }
    MergedChain(Chain(seed, segments));
  }

  // ----- what the loop makes of it -----

  /** The last segment is a poll of the job asked about before. */
  predicate IsPoll(chain: seq<ModelResponse>) { |chain| > 1 && !Marked(chain) && SharesId(chain) }

  lemma {:induction false} LastModeIs(seed: Option<ModelResponse>, segments: seq<ModelResponse>)
    requires segments != []
    ensures var chain := Chain(seed, segments);
      LastMode(seed, segments)
      == if |chain| == 1 then Accumulate
         else if Marked(chain) then ReplaceNew
         else if SharesId(chain) then ReplaceSameId
         else if OtherModel(chain) then ReplaceNew else Accumulate
  {
    hide MadeOf, MergeMode, Marked, SharesId, OtherModel, Merge;
    var chain, front := Chain(seed, segments), segments[..|segments| - 1];
    assert chain[..|chain| - 1] == Chain(seed, front) && chain[|chain| - 1] == segments[|segments| - 1];
    if |chain| > 1 {
      FoldedIsMadeOf(seed, front);
      ModeIs(chain, Folded(seed, front).value);
    }
  }

  /** Asking again counts as a poll exactly after a poll's answer, and otherwise as a continuation, once there is
      a response to ask about. */
  lemma {:induction false} CountedAs(seed: Option<ModelResponse>, segments: seq<ModelResponse>, asked: nat)
    requires asked <= |segments|
    ensures var chain := Chain(seed, segments[..asked]);
      && Polls(seed, segments, asked + 1)
         == Polls(seed, segments, asked) + (if asked > 0 && IsPoll(chain) then 1 else 0)
      && Generations(seed, segments, asked + 1)
         == Generations(seed, segments, asked) + (if chain != [] && !(asked > 0 && IsPoll(chain)) then 1 else 0)
  {
    hide Marked, SharesId, OtherModel, LastMode, Folded, MadeOf;
    var before := segments[..asked];
    if asked > 0 {
      LastModeIs(seed, before);
      FoldedIsMadeOf(seed, before);
    } else {
      NothingReceived(seed);
    }
  }

  lemma NothingReceived(seed: Option<ModelResponse>)
    ensures Folded(seed, []) == seed && LastMode(seed, []) == Accumulate
  {}

  /** What a failed request leaves running: the response with the part that came with the failure, if that part
      says that the job is suspended, or else the response asked about, if that does. */
  lemma RunningIs(response: Option<ModelResponse>, segment: Segment)
    ensures LeftRunning(response, segment)
         == if segment.response.Some? && segment.response.value.fields.state == "suspended" then
              Some(MergeInto(response, segment.response.value))
            else if response.Some? && response.value.fields.state == "suspended" then response
            else None
  {}

  /** The segments received are the provider's answers, complete unless they say otherwise. */
  lemma {:induction false} ReceivedAt(provider: nat -> Segment, n: nat, k: nat)
    requires AllAnswered(provider, n) && k < n
    ensures provider(k).response.Some?
    ensures var response, segment := provider(k).response.value, Received(provider, n)[k];
      && segment == response.(fields := segment.fields)
      && segment.fields == response.fields.(state := segment.fields.state)
      && segment.fields.state == if response.fields.state == "" then "complete" else response.fields.state
  {
    assert Answered(provider(k));
    if k < n - 1 { ReceivedAt(provider, n - 1, k); }
  }
}
