/** What each call of a response ends with, from what it does when run, without the functions that collect
    the outcomes. */
module FinalContents {
  import opened Options
  import opened ExecutorSpec
  import opened ExecutorProofs
  import opened Pieces

  predicate Yields(calls: seq<Call>, results: nat -> Result, i: nat) {
    i < |calls| && calls[i].output && results(i).Output?
  }

  predicate YieldsBefore(calls: seq<Call>, results: nat -> Result, n: nat) {
    exists j :: 0 <= j < n && Yields(calls, results, j)
  }

  /** The first output call that yields output when calls are taken in order. */
  predicate YieldsFirst(calls: seq<Call>, results: nat -> Result, i: nat) {
    Yields(calls, results, i) && !YieldsBefore(calls, results, i)
  }

  /** Whether a call runs. Exhaustive runs all; otherwise outputs run until one yields output, and functions
      run always when graceful, or if no output call yields output when early. */
  predicate IsRun(strategy: Strategy, calls: seq<Call>, results: nat -> Result, i: nat)
    requires i < |calls|
  {
    || strategy.Exhaustive?
    || (calls[i].output && !YieldsBefore(calls, results, i))
    || (!calls[i].output && (strategy.Graceful? || !YieldsBefore(calls, results, |calls|)))
  }

  /** A call that ran and is known as a function asks to be called again. */
  predicate Overruled(strategy: Strategy, calls: seq<Call>, results: nat -> Result) {
    && !strategy.Early?
    && exists i :: 0 <= i < |calls| && AsksAgain(calls[i], results(i)) && IsRun(strategy, calls, results, i)
  }

  /** The response has a final output. */
  predicate Won(strategy: Strategy, calls: seq<Call>, results: nat -> Result) {
    YieldsBefore(calls, results, |calls|) && !Overruled(strategy, calls, results)
  }

  /** What call `i` ends with: its own result's part, content included, when it ran; outputs say whether
      they became final; what was skipped says so; a deferred call has a part only when output won. */
  predicate EndsWith(strategy: Strategy, calls: seq<Call>, results: nat -> Result, i: nat, part: Option<Part>)
    requires i < |calls|
  {
    var id := calls[i].id;
    if !IsRun(strategy, calls, results, i) then
      part == Some(ToolReturn(id, if calls[i].output then OUTPUT_SKIPPED else TOOL_SKIPPED, true))
    else match results(i)
      case Success(content) => part == Some(ToolReturn(id, content, true))
      case Unsuccessful(content) => part == Some(ToolReturn(id, content, false))
      case AskRetry(content) => part == Some(RetryPrompt(id, content))
      case Output(_) =>
        if !YieldsFirst(calls, results, i) then part == Some(ToolReturn(id, OUTPUT_NOT_FINAL, true))
        else if Won(strategy, calls, results) then part == Some(ToolReturn(id, FINAL_RESULT_PROCESSED, true))
        else part == Some(ToolReturn(id, RETRY_WINS, true))
      case Defer(_) => part == if Won(strategy, calls, results) then Some(ToolReturn(id, TOOL_SKIPPED, true)) else None
      case _ => true
  }

  /** The part a call ends with, and the request: a deferred call is left pending unless output won. */
  predicate Concludes(strategy: Strategy, calls: seq<Call>, results: nat -> Result, i: nat, part: Option<Part>,
                     request: Option<Request>)
    requires i < |calls|
  {
    && EndsWith(strategy, calls, results, i, part)
    && request == if IsRun(strategy, calls, results, i) && results(i).Defer? && !Won(strategy, calls, results) then
                    Some(Request(calls[i].id, results(i).kind))
                  else None
  }

  lemma {:induction false} CandidateYieldsFirst(calls: seq<Call>, results: nat -> Result)
    ensures Candidate(calls, results).Some? <==> YieldsBefore(calls, results, |calls|)
    ensures forall i :: 0 <= i < |calls| ==> (Candidate(calls, results) == Some(i) <==> YieldsFirst(calls, results, i))
    ensures forall i :: 0 <= i < |calls| ==>
      (YieldsBefore(calls, results, i) <==> Candidate(calls, results).Some? && Candidate(calls, results).value < i)
  {
    CandidateIsFirst(calls, results);
    hide Candidate;
    if Candidate(calls, results).Some? { assert Yields(calls, results, Candidate(calls, results).value); }
  }

  lemma {:induction false} RunsAre(strategy: Strategy, calls: seq<Call>, results: nat -> Result, i: nat)
    requires i < |calls|
    ensures Runs(strategy, calls, results, i) <==> IsRun(strategy, calls, results, i)
  {
    CandidateYieldsFirst(calls, results);
    hide Candidate, YieldsBefore;
  }

  lemma {:induction false} RetryIsOverruling(strategy: Strategy, calls: seq<Call>, results: nat -> Result,
                                             outcomes: seq<Outcome>)
    requires AllPossible(calls, results) && Settled(strategy, calls, results, outcomes)
    ensures !strategy.Early? ==> (FunctionRetry(outcomes) <==> Overruled(strategy, calls, results))
  {
    hide Candidate, Runs, IsRun;
    forall i | 0 <= i < |calls|
      ensures RetryAsked(outcomes[i]) <==> AsksAgain(calls[i], results(i)) && IsRun(strategy, calls, results, i)
    {
      RunsAre(strategy, calls, results, i);
      assert Possible(calls[i], results(i));
    }
    if FunctionRetry(outcomes) {
      var i :| 0 <= i < |outcomes| && RetryAsked(outcomes[i]);
      assert AsksAgain(calls[i], results(i));
    }
    if i :| 0 <= i < |calls| && AsksAgain(calls[i], results(i)) && IsRun(strategy, calls, results, i) {
      assert RetryAsked(outcomes[i]);
    }
  }

  /** There is a winner exactly when an output call yields output and nothing overrules it; it is what the
      first one yields. */
  lemma {:induction false} WinnerIsFirst(strategy: Strategy, calls: seq<Call>, results: nat -> Result,
                                         outcomes: seq<Outcome>)
    requires AllPossible(calls, results) && Settled(strategy, calls, results, outcomes)
    ensures var winner := Winner(outcomes, RetryCanWin(strategy));
      && (winner.Some? <==> Won(strategy, calls, results))
      && (forall i :: 0 <= i < |calls| && YieldsFirst(calls, results, i) && winner.Some? ==>
            winner.value == results(i).output)
  {
    FirstOutputIsCandidate(strategy, calls, results, outcomes);
    CandidateYieldsFirst(calls, results);
    RetryIsOverruling(strategy, calls, results, outcomes);
    hide Candidate, FirstOutput, FunctionRetry, Overruled, Settled, AllPossible;
  }

  /** In every strategy, whatever the calls do and whoever wins: each call ends with the part its own result
      makes, and nothing else becomes of a function's result than that a final output skips what deferred. */
  lemma {:induction false} EachCallEndsWithItsResult(strategy: Strategy, calls: seq<Call>, results: nat -> Result,
                                                     outcomes: seq<Outcome>, i: nat)
    requires AllPossible(calls, results) && Settled(strategy, calls, results, outcomes) && i < |calls|
    ensures Concludes(strategy, calls, results, i, FinalPart(calls, outcomes, RetryCanWin(strategy), i),
                     FinalRequest(calls, outcomes, RetryCanWin(strategy), i))
  {
    FirstOutputIsCandidate(strategy, calls, results, outcomes);
    CandidateYieldsFirst(calls, results);
    WinnerIsFirst(strategy, calls, results, outcomes);
    RunsAre(strategy, calls, results, i);
    assert Possible(calls[i], results(i));
    hide Candidate, FirstOutput, Winner, Won, Runs, IsRun, YieldsFirst, AllPossible;
  }

  // ----- all parts and requests -----

  /** The values given, in order. */
  ghost predicate Gathers<T>(options: seq<Option<T>>, at: seq<nat>, values: seq<T>) {
    && Rising(at, |options|) && |values| == |at|
    && (forall k :: 0 <= k < |at| ==> options[at[k]] == Some(values[k]))
    && (forall i :: 0 <= i < |options| ==> (i in at <==> options[i].Some?))
  }

  lemma {:induction false} GathersMore<T>(options: seq<Option<T>>, at: seq<nat>, values: seq<T>, option: Option<T>)
    returns (more: seq<nat>)
    requires Gathers(options, at, values)
    ensures Gathers(options + [option], more, values + if option.Some? then [option.value] else [])
  {
    more := at;
    if option.Some? {
      more := more + [|options|];
    } else {
      assert values + [] == values;
    }
  }

  /** What the calls end with, one by one. */
  ghost predicate AllEnd(strategy: Strategy, calls: seq<Call>, results: nat -> Result, parts: seq<Option<Part>>,
                         requests: seq<Option<Request>>)
  {
    && |parts| == |requests| <= |calls|
    && forall i :: 0 <= i < |parts| ==> Concludes(strategy, calls, results, i, parts[i], requests[i])
  }

  function EachPart(calls: seq<Call>, outcomes: seq<Outcome>, retryCanWin: bool, n: nat): (parts: seq<Option<Part>>)
    requires n <= |calls| == |outcomes|
    ensures |parts| == n && forall i :: 0 <= i < n ==> parts[i] == FinalPart(calls, outcomes, retryCanWin, i)
  {
    if n == 0 then []
    else EachPart(calls, outcomes, retryCanWin, n - 1) + [FinalPart(calls, outcomes, retryCanWin, n - 1)]
  }

  function EachRequest(calls: seq<Call>, outcomes: seq<Outcome>, retryCanWin: bool, n: nat)
    : (requests: seq<Option<Request>>)
    requires n <= |calls| == |outcomes|
    ensures |requests| == n
    ensures forall i :: 0 <= i < n ==> requests[i] == FinalRequest(calls, outcomes, retryCanWin, i)
  {
    if n == 0 then []
    else EachRequest(calls, outcomes, retryCanWin, n - 1) + [FinalRequest(calls, outcomes, retryCanWin, n - 1)]
  }

  lemma {:induction false} GatherParts(calls: seq<Call>, outcomes: seq<Outcome>, retryCanWin: bool, n: nat)
    returns (at: seq<nat>)
    requires n <= |calls| == |outcomes|
    ensures Gathers(EachPart(calls, outcomes, retryCanWin, n), at, FinalParts(calls, outcomes, retryCanWin, n))
  {
    hide FinalPart, Gathers;
    if n == 0 {
      at := [];
      NothingGathered<Part>();
    } else {
      at := GatherParts(calls, outcomes, retryCanWin, n - 1);
      at := GathersMore(EachPart(calls, outcomes, retryCanWin, n - 1), at,
        FinalParts(calls, outcomes, retryCanWin, n - 1), FinalPart(calls, outcomes, retryCanWin, n - 1));
    }
  }

  lemma {:induction false} GatherRequests(calls: seq<Call>, outcomes: seq<Outcome>, retryCanWin: bool, n: nat)
    returns (at: seq<nat>)
    requires n <= |calls| == |outcomes|
    ensures Gathers(EachRequest(calls, outcomes, retryCanWin, n), at,
                    FinalRequests(calls, outcomes, retryCanWin, n))
  {
    hide FinalRequest, Gathers;
    if n == 0 {
      at := [];
      NothingGathered<Request>();
    } else {
      at := GatherRequests(calls, outcomes, retryCanWin, n - 1);
      at := GathersMore(EachRequest(calls, outcomes, retryCanWin, n - 1), at,
        FinalRequests(calls, outcomes, retryCanWin, n - 1), FinalRequest(calls, outcomes, retryCanWin, n - 1));
    }
  }

  lemma NothingGathered<T>()
    ensures Gathers<T>([], [], [])
  {}

  ghost predicate CollectedFrom(strategy: Strategy, calls: seq<Call>, results: nat -> Result, collected: Collected,
                                parts: seq<Option<Part>>, requests: seq<Option<Request>>)
    requires collected.Collected?
  {
    && |parts| == |calls| && AllEnd(strategy, calls, results, parts, requests)
    && (exists at: seq<nat> :: Gathers(parts, at, collected.parts))
    && (exists at: seq<nat> :: Gathers(requests, at, collected.requests))
  }

  lemma {:induction false} ListsCollected(strategy: Strategy, calls: seq<Call>, results: nat -> Result,
                                          outcomes: seq<Outcome>)
    requires AllPossible(calls, results) && Settled(strategy, calls, results, outcomes)
    ensures var collected := Collecting(calls, outcomes, RetryCanWin(strategy));
      collected.Collected? ==>
        exists parts, requests :: CollectedFrom(strategy, calls, results, collected, parts, requests)
  {
    assert |outcomes| == |calls|;
    hide AllPossible, Settled, RetryCanWin, Gathers, NamelessRequest, Winner, FinalParts, FinalRequests, Concludes;
    var retryCanWin := RetryCanWin(strategy);
    var parts := EachPart(calls, outcomes, retryCanWin, |calls|);
    var requests := EachRequest(calls, outcomes, retryCanWin, |calls|);
    var partsAt := GatherParts(calls, outcomes, retryCanWin, |calls|);
    var requestsAt := GatherRequests(calls, outcomes, retryCanWin, |calls|);
    forall i | 0 <= i < |calls| ensures Concludes(strategy, calls, results, i, parts[i], requests[i]) {
      EachCallEndsWithItsResult(strategy, calls, results, outcomes, i);
    }
    hide EachPart, EachRequest, FinalPart, FinalRequest;
    var collected := Collecting(calls, outcomes, retryCanWin);
    if collected.Collected? {
      assert CollectedFrom(strategy, calls, results, collected, parts, requests);
    }
  }

  /** A deferred call that no output skips has no ID to answer it by. */
  predicate LeftNameless(strategy: Strategy, calls: seq<Call>, results: nat -> Result, i: nat) {
    && i < |calls| && calls[i].id == "" && results(i).Defer? && IsRun(strategy, calls, results, i)
    && !Won(strategy, calls, results)
  }

  lemma {:induction false} NamelessIs(strategy: Strategy, calls: seq<Call>, results: nat -> Result,
                                      outcomes: seq<Outcome>, i: nat)
    requires AllPossible(calls, results) && Settled(strategy, calls, results, outcomes) && i < |calls|
    ensures NamelessRequest(calls, outcomes, RetryCanWin(strategy), i) <==> LeftNameless(strategy, calls, results, i)
  {
    EachCallEndsWithItsResult(strategy, calls, results, outcomes, i);
    hide AllPossible, Settled, IsRun, Won, EndsWith, FinalPart, FinalRequest, RetryCanWin;
  }

  /** What is collected, in every strategy: the parts and the requests the calls end with, in emission order,
      and the first output if nothing overrules it; or an error, exactly when a request would have no ID. */
  lemma {:induction false} CollectedInOrder(strategy: Strategy, calls: seq<Call>, results: nat -> Result,
                                            outcomes: seq<Outcome>)
    requires AllPossible(calls, results) && Settled(strategy, calls, results, outcomes)
    ensures var collected := Collecting(calls, outcomes, RetryCanWin(strategy));
      && (collected.EmptyId? <==> exists i :: 0 <= i < |calls| && LeftNameless(strategy, calls, results, i))
      && (collected.Collected? ==>
            && (exists parts, requests :: CollectedFrom(strategy, calls, results, collected, parts, requests))
            && (collected.winner.Some? <==> Won(strategy, calls, results))
            && forall i :: 0 <= i < |calls| && YieldsFirst(calls, results, i) && collected.winner.Some? ==>
                 collected.winner.value == results(i).output)
  {
    assert |outcomes| == |calls|;
    forall i | 0 <= i < |calls|
      ensures NamelessRequest(calls, outcomes, RetryCanWin(strategy), i)
         <==> LeftNameless(strategy, calls, results, i)
    {
      NamelessIs(strategy, calls, results, outcomes, i);
    }
    ListsCollected(strategy, calls, results, outcomes);
    WinnerIsFirst(strategy, calls, results, outcomes);
    hide AllPossible, Settled, Won, RetryCanWin, YieldsFirst, Winner, FinalParts, FinalRequests, CollectedFrom,
      LeftNameless, NamelessRequest;
  }

  // ----- with output already streamed -----

  /** What a call ends with when the caller already has output: the streamed call is processed; functions run
      unless ending early, output calls only when exhaustive, and none of their outputs becomes final. */
  predicate EndsCommitted(strategy: Strategy, call: Call, result: Result, isStreamed: bool, part: Option<Part>) {
    var runs := (strategy.Graceful? && !call.output) || (strategy.Exhaustive? && !isStreamed);
    if !runs && isStreamed then part == Some(ToolReturn(call.id, FINAL_RESULT_PROCESSED, true))
    else if !runs then part == Some(ToolReturn(call.id, if call.output then OUTPUT_SKIPPED else TOOL_SKIPPED, true))
    else match result
      case Success(content) => part == Some(ToolReturn(call.id, content, true))
      case Unsuccessful(content) => part == Some(ToolReturn(call.id, content, false))
      case AskRetry(content) => part == Some(RetryPrompt(call.id, content))
      case Output(_) => part == Some(ToolReturn(call.id, OUTPUT_NOT_FINAL, true))
      case Fail(cancelled) =>
        call.output && !cancelled ==> part == Some(ToolReturn(call.id, OUTPUT_VALIDATION_FAILED, true))
      case Defer(_) => part == None
      case _ => true
  }

  // ----- the limit -----

  /** What counts is the success of a tool that runs here, told to the consumer or not, an output included if its
      tool goes by a function's name. */
  lemma CountsExactly(call: Call, result: Result)
    requires Possible(call, result)
    ensures Counts(call, OutcomeOf(call, result)) <==>
      && call.available && !call.external && call.resolution != ResolvedExternally
      && (result.Success? || result.Refused? || result.Output?)
  {}

  /** A function is expected to count exactly when it may. */
  lemma ExpectedExactly(call: Call)
    requires !call.output
    ensures Expected(call) <==> exists result :: Possible(call, result) && Counts(call, OutcomeOf(call, result))
  {
    if Expected(call) {
      var result := Success("");
      assert Possible(call, result) && Counts(call, OutcomeOf(call, result));
    }
  }
}
