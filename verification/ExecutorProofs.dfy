/** What the end strategies guarantee, whatever the calls do. */
module ExecutorProofs {
  import opened Options
  import opened ExecutorSpec

  ghost predicate AllPossible(calls: seq<Call>, results: nat -> Result) {
    forall i :: 0 <= i < |calls| ==> Possible(calls[i], results(i))
  }

  /** No output tool shares a function tool's name. */
  predicate NamesApart(calls: seq<Call>) { forall i :: 0 <= i < |calls| && calls[i].output ==> !calls[i].available }

  ghost predicate AllFinish(calls: seq<Call>, results: nat -> Result) {
    forall i :: 0 <= i < |calls| ==> Finishes(results(i))
  }

  ghost predicate DistinctIds(calls: seq<Call>) {
    forall i, j :: 0 <= i < j < |calls| ==> calls[i].id != calls[j].id
  }

  lemma {:induction false} FirstOutputIs(outcomes: seq<Outcome>, k: nat)
    requires k < |outcomes| && outcomes[k].output.Some? && forall i :: 0 <= i < k ==> outcomes[i].output.None?
    ensures FirstOutput(outcomes) == Some(k)
  {
    if k == |outcomes| - 1 {
      NoOutput(outcomes[..k]);
    } else {
      FirstOutputIs(outcomes[..|outcomes| - 1], k);
    }
  }

  lemma {:induction false} NoOutput(outcomes: seq<Outcome>)
    requires forall i :: 0 <= i < |outcomes| ==> outcomes[i].output.None?
    ensures FirstOutput(outcomes).None?
  {}

  lemma {:induction false} CandidateIsFirst(calls: seq<Call>, results: nat -> Result)
    ensures var candidate := Candidate(calls, results);
      if candidate.Some? then
        && candidate.value < |calls| && calls[candidate.value].output && results(candidate.value).Output?
        && forall i :: 0 <= i < candidate.value && calls[i].output ==> !results(i).Output?
      else forall i :: 0 <= i < |calls| && calls[i].output ==> !results(i).Output?
  {
    if calls != [] { CandidateIsFirst(calls[..|calls| - 1], results); }
  }

  /** In every strategy the first output found is the candidate's. */
  lemma {:induction false} FirstOutputIsCandidate(strategy: Strategy, calls: seq<Call>, results: nat -> Result,
                                                  outcomes: seq<Outcome>)
    requires AllPossible(calls, results) && Settled(strategy, calls, results, outcomes)
    ensures FirstOutput(outcomes) == Candidate(calls, results)
    ensures Candidate(calls, results).Some? ==>
      outcomes[Candidate(calls, results).value].output == Some(results(Candidate(calls, results).value).output)
  {
    CandidateIsFirst(calls, results);
    var candidate := Candidate(calls, results);
    hide Candidate, FirstOutput;
    if candidate.Some? {
      FirstOutputIs(outcomes, candidate.value);
    } else {
      NoOutput(outcomes);
    }
  }

  /** A function tool, or an output tool that shares a function tool's name, asks to be called again. */
  predicate AsksAgain(call: Call, result: Result) { call.available && result.AskRetry? }

  /** Such a call runs whatever output is found: it is a function, or no output comes before it. */
  predicate RetryRuns(calls: seq<Call>, results: nat -> Result) {
    var candidate := Candidate(calls, results);
    exists i :: (0 <= i < |calls| && AsksAgain(calls[i], results(i))
                 && (!calls[i].output || candidate.None? || i < candidate.value))
  }

  /** An output call after the first that yields output would ask, if it were run. */
  predicate RetrySkipped(calls: seq<Call>, results: nat -> Result) {
    var candidate := Candidate(calls, results);
    candidate.Some?
    && exists i :: candidate.value < i < |calls| && calls[i].output && AsksAgain(calls[i], results(i))
  }

  lemma {:induction false} GracefulRetry(calls: seq<Call>, results: nat -> Result, outcomes: seq<Outcome>)
    requires AllPossible(calls, results) && Settled(Graceful, calls, results, outcomes)
    ensures FunctionRetry(outcomes) <==> RetryRuns(calls, results)
  {
    CandidateIsFirst(calls, results);
    hide Candidate;
    if FunctionRetry(outcomes) {
      var i :| 0 <= i < |outcomes| && RetryAsked(outcomes[i]);
      assert AsksAgain(calls[i], results(i));
    }
    if RetryRuns(calls, results) {
      var i :| 0 <= i < |calls| && AsksAgain(calls[i], results(i))
        && (!calls[i].output || Candidate(calls, results).None? || i < Candidate(calls, results).value);
      assert RetryAsked(outcomes[i]);
    }
  }

  lemma {:induction false} ExhaustiveRetry(calls: seq<Call>, results: nat -> Result, outcomes: seq<Outcome>)
    requires AllPossible(calls, results) && Settled(Exhaustive, calls, results, outcomes)
    ensures FunctionRetry(outcomes) <==> RetryRuns(calls, results) || RetrySkipped(calls, results)
  {
    CandidateIsFirst(calls, results);
    hide Candidate;
    if FunctionRetry(outcomes) {
      var i :| 0 <= i < |outcomes| && RetryAsked(outcomes[i]);
      assert AsksAgain(calls[i], results(i));
    }
    if RetryRuns(calls, results) {
      var i :| 0 <= i < |calls| && AsksAgain(calls[i], results(i));
      assert RetryAsked(outcomes[i]);
    }
    if RetrySkipped(calls, results) {
      var i :| 0 <= i < |calls| && AsksAgain(calls[i], results(i));
      assert RetryAsked(outcomes[i]);
    }
  }

  /** Graceful and exhaustive choose the same output except when the wish to be called again that would
      overrule it comes only from an output call that graceful skips. Early chooses it too, exactly when no
      such wish is heard. */
  lemma {:induction false} StrategiesAgree(calls: seq<Call>, results: nat -> Result, early: seq<Outcome>,
                                           graceful: seq<Outcome>, exhaustive: seq<Outcome>)
    requires AllPossible(calls, results)
    requires Settled(Early, calls, results, early) && Settled(Graceful, calls, results, graceful)
    requires Settled(Exhaustive, calls, results, exhaustive)
    ensures Winner(graceful, true) == Winner(exhaustive, true)
       <==> !(RetrySkipped(calls, results) && !RetryRuns(calls, results))
    ensures Winner(early, false) == Winner(graceful, true)
       <==> !(Candidate(calls, results).Some? && RetryRuns(calls, results))
    ensures Winner(early, false) == Winner(exhaustive, true)
       <==> !(Candidate(calls, results).Some? && (RetryRuns(calls, results) || RetrySkipped(calls, results)))
  {
    FirstOutputIsCandidate(Early, calls, results, early);
    FirstOutputIsCandidate(Graceful, calls, results, graceful);
    FirstOutputIsCandidate(Exhaustive, calls, results, exhaustive);
    GracefulRetry(calls, results, graceful);
    ExhaustiveRetry(calls, results, exhaustive);
    assert RetrySkipped(calls, results) ==> Candidate(calls, results).Some?;
    hide AllPossible, Settled, FirstOutput, Candidate, FunctionRetry, RetryRuns, RetrySkipped;
  }

  /** Some function tool would ask to be called again. */
  predicate WouldRetry(calls: seq<Call>, results: nat -> Result) {
    exists i :: 0 <= i < |calls| && !calls[i].output && AsksAgain(calls[i], results(i))
  }

  /** With names kept apart only function tools are heard, so graceful and exhaustive always agree. */
  lemma {:induction false} StrategiesAgreeApart(calls: seq<Call>, results: nat -> Result, early: seq<Outcome>,
                                                graceful: seq<Outcome>, exhaustive: seq<Outcome>)
    requires AllPossible(calls, results) && NamesApart(calls)
    requires Settled(Early, calls, results, early) && Settled(Graceful, calls, results, graceful)
    requires Settled(Exhaustive, calls, results, exhaustive)
    ensures Winner(graceful, true) == Winner(exhaustive, true)
    ensures Winner(early, false) == Winner(graceful, true)
       <==> !(Candidate(calls, results).Some? && WouldRetry(calls, results))
  {
    StrategiesAgree(calls, results, early, graceful, exhaustive);
    OnlyFunctionsAsk(calls, results);
    hide AllPossible, Settled, Candidate, Winner, RetryRuns, RetrySkipped, WouldRetry;
  }

  lemma {:induction false} OnlyFunctionsAsk(calls: seq<Call>, results: nat -> Result)
    requires NamesApart(calls)
    ensures !RetrySkipped(calls, results) && (RetryRuns(calls, results) <==> WouldRetry(calls, results))
  {
    hide Candidate;
    if RetryRuns(calls, results) {
      var i :| 0 <= i < |calls| && AsksAgain(calls[i], results(i));
      assert !calls[i].output;
    }
    if WouldRetry(calls, results) {
      var i :| 0 <= i < |calls| && !calls[i].output && AsksAgain(calls[i], results(i));
      assert AsksAgain(calls[i], results(i));
    }
  }

  /** Two calls of an output tool whose name is a function tool's too: the first yields output, the second
      would ask again. Graceful skips it and returns the output; exhaustive runs it and returns none. */
  lemma {:induction false} ClashSeparatesStrategies(graceful: seq<Outcome>, exhaustive: seq<Outcome>)
    requires Settled(Graceful, CLASHING, CLASH_RESULTS, graceful)
    requires Settled(Exhaustive, CLASHING, CLASH_RESULTS, exhaustive)
    ensures AllPossible(CLASHING, CLASH_RESULTS) && DistinctIds(CLASHING)
    ensures Winner(graceful, true) == Some("answer") && Winner(exhaustive, true).None?
  {
    var calls, results := CLASHING, CLASH_RESULTS;
    assert calls[..1] == [calls[0]] && calls[..1][..0] == [];
    assert Candidate(calls[..1], results) == Some(0);
    assert Candidate(calls, results) == Some(0);
    FirstOutputIs(graceful, 0);
    FirstOutputIs(exhaustive, 0);
    assert RetryAsked(exhaustive[1]);
  }

  const CLASHING: seq<Call> := [
    Call("first", true, false, true, false, false, Unresolved),
    Call("second", true, false, true, false, false, Unresolved)
  ]

  const CLASH_RESULTS: nat -> Result := (i: nat) => if i == 0 then Output("answer") else AskRetry("again")

  /** What a settled outcome of a call looks like. */
  ghost predicate Answerable(calls: seq<Call>, outcomes: seq<Outcome>) {
    && |outcomes| == |calls|
    && forall i :: 0 <= i < |calls| ==>
         && !outcomes[i].failed
         && (outcomes[i].part.Some? ==> outcomes[i].part.value.id == calls[i].id)
         && (outcomes[i].part.Some? <==> outcomes[i].deferred.None?)
         && (outcomes[i].output.Some? ==> outcomes[i].part.Some? && outcomes[i].part.value.ToolReturn?)
  }

  lemma {:induction false} SettledAnswerable(strategy: Strategy, calls: seq<Call>, results: nat -> Result,
                                             outcomes: seq<Outcome>)
    requires AllFinish(calls, results) && Settled(strategy, calls, results, outcomes)
    ensures Answerable(calls, outcomes)
  {
    hide Candidate;
  }

  /** Each call has a part or a pending request, with its ID, and never both. */
  lemma {:induction false} PartOrRequest(calls: seq<Call>, outcomes: seq<Outcome>, retryCanWin: bool, i: nat)
    requires Answerable(calls, outcomes) && i < |calls|
    ensures var part, request := FinalPart(calls, outcomes, retryCanWin, i),
      FinalRequest(calls, outcomes, retryCanWin, i);
      && (part.Some? <==> request.None?)
      && (part.Some? ==> part.value.id == calls[i].id) && (request.Some? ==> request.value.id == calls[i].id)
  {
    hide FirstOutput, FunctionRetry;
  }

  function PartIds(parts: seq<Part>): seq<string> {
    if parts == [] then [] else PartIds(parts[..|parts| - 1]) + [parts[|parts| - 1].id]
  }

  function RequestIds(requests: seq<Request>): seq<string> {
    if requests == [] then [] else RequestIds(requests[..|requests| - 1]) + [requests[|requests| - 1].id]
  }

  /** The calls that are, or are not, left pending, in emission order. */
  function IdsWhere(calls: seq<Call>, outcomes: seq<Outcome>, retryCanWin: bool, pending: bool, n: nat): seq<string>
    requires n <= |calls| == |outcomes|
  {
    if n == 0 then []
    else
      IdsWhere(calls, outcomes, retryCanWin, pending, n - 1)
      + if FinalRequest(calls, outcomes, retryCanWin, n - 1).Some? == pending then [calls[n - 1].id] else []
  }

  lemma NoIds()
    ensures PartIds([]) == [] && RequestIds([]) == []
  {}

  lemma MoreIds(parts: seq<Part>, part: Part)
    ensures PartIds(parts + [part]) == PartIds(parts) + [part.id]
  {
    assert (parts + [part])[..|parts|] == parts;
  }

  lemma MoreRequestIds(requests: seq<Request>, request: Request)
    ensures RequestIds(requests + [request]) == RequestIds(requests) + [request.id]
  {
    assert (requests + [request])[..|requests|] == requests;
  }

  lemma SameWhenEmpty(parts: seq<Part>, requests: seq<Request>)
    ensures parts + [] == parts && requests + [] == requests
  {}

  lemma {:induction false} PartsInOrder(calls: seq<Call>, outcomes: seq<Outcome>, retryCanWin: bool, n: nat)
    requires |outcomes| == |calls| && Answerable(calls, outcomes) && n <= |calls|
    ensures PartIds(FinalParts(calls, outcomes, retryCanWin, n)) == IdsWhere(calls, outcomes, retryCanWin, false, n)
    ensures RequestIds(FinalRequests(calls, outcomes, retryCanWin, n))
      == IdsWhere(calls, outcomes, retryCanWin, true, n)
  {
    hide FinalPart, FinalRequest, Answerable, PartIds, RequestIds;
    if n == 0 {
      NoIds();
    } else {
      PartsInOrder(calls, outcomes, retryCanWin, n - 1);
      PartOrRequest(calls, outcomes, retryCanWin, n - 1);
      var part := FinalPart(calls, outcomes, retryCanWin, n - 1);
      if part.Some? { MoreIds(FinalParts(calls, outcomes, retryCanWin, n - 1), part.value); }
      var request := FinalRequest(calls, outcomes, retryCanWin, n - 1);
      if request.Some? { MoreRequestIds(FinalRequests(calls, outcomes, retryCanWin, n - 1), request.value); }
      SameWhenEmpty(FinalParts(calls, outcomes, retryCanWin, n - 1),
        FinalRequests(calls, outcomes, retryCanWin, n - 1));
    }
  }

  function Occurrences(ids: seq<string>, id: string): nat {
    if ids == [] then 0 else Occurrences(ids[..|ids| - 1], id) + if ids[|ids| - 1] == id then 1 else 0
  }

  lemma NoneOccur(id: string)
    ensures Occurrences([], id) == 0
  {}

  lemma MoreOccur(ids: seq<string>, last: string, id: string)
    ensures Occurrences(ids + [last], id) == Occurrences(ids, id) + if last == id then 1 else 0
  {
    assert (ids + [last])[..|ids|] == ids;
  }

  lemma {:induction false} IdsOccur(calls: seq<Call>, outcomes: seq<Outcome>, retryCanWin: bool, n: nat, i: nat)
    requires |calls| == |outcomes| && DistinctIds(calls) && n <= |calls| && i < |calls|
    ensures Occurrences(IdsWhere(calls, outcomes, retryCanWin, false, n), calls[i].id)
            + Occurrences(IdsWhere(calls, outcomes, retryCanWin, true, n), calls[i].id) == if i < n then 1 else 0
  {
    hide FinalRequest, Occurrences;
    if n == 0 {
      NoneOccur(calls[i].id);
    } else {
      IdsOccur(calls, outcomes, retryCanWin, n - 1, i);
      var pending := FinalRequest(calls, outcomes, retryCanWin, n - 1).Some?;
      MoreOccur(IdsWhere(calls, outcomes, retryCanWin, pending, n - 1), calls[n - 1].id, calls[i].id);
      assert IdsWhere(calls, outcomes, retryCanWin, !pending, n - 1) + []
        == IdsWhere(calls, outcomes, retryCanWin, !pending, n - 1);
    }
  }

  /** In every strategy, when nothing fails: each call ends with exactly one result part or exactly one
      pending request carrying its ID, both in emission order; and a final output leaves nothing pending. */
  lemma {:induction false} EveryCallEndsOnce(strategy: Strategy, calls: seq<Call>, results: nat -> Result,
                                             outcomes: seq<Outcome>, i: nat)
    requires AllFinish(calls, results) && DistinctIds(calls) && Settled(strategy, calls, results, outcomes)
    requires i < |calls|
    ensures var parts := FinalParts(calls, outcomes, RetryCanWin(strategy), |calls|);
      var requests := FinalRequests(calls, outcomes, RetryCanWin(strategy), |calls|);
      && Occurrences(PartIds(parts), calls[i].id) + Occurrences(RequestIds(requests), calls[i].id) == 1
      && PartIds(parts) == IdsWhere(calls, outcomes, RetryCanWin(strategy), false, |calls|)
      && RequestIds(requests) == IdsWhere(calls, outcomes, RetryCanWin(strategy), true, |calls|)
      && (Winner(outcomes, RetryCanWin(strategy)).Some? ==> requests == [])
  {
    SettledAnswerable(strategy, calls, results, outcomes);
    PartsInOrder(calls, outcomes, RetryCanWin(strategy), |calls|);
    IdsOccur(calls, outcomes, RetryCanWin(strategy), |calls|, i);
    if Winner(outcomes, RetryCanWin(strategy)).Some? {
      NothingPending(calls, outcomes, RetryCanWin(strategy), |calls|);
    }
  }

  lemma {:induction false} NothingPending(calls: seq<Call>, outcomes: seq<Outcome>, retryCanWin: bool, n: nat)
    requires |calls| == |outcomes| && n <= |calls| && Winner(outcomes, retryCanWin).Some?
    ensures FinalRequests(calls, outcomes, retryCanWin, n) == []
  {
    hide Winner;
    if n > 0 { NothingPending(calls, outcomes, retryCanWin, n - 1); }
  }

  // ----- the limit -----

  /** An output tool that shares the name of a function tool: its success counts, but was not expected. */
  predicate Clashes(call: Call) {
    call.output && call.available && !call.external && call.resolution != ResolvedExternally
  }

  ghost predicate NoClash(calls: seq<Call>) { forall i :: 0 <= i < |calls| ==> !Clashes(calls[i]) }

  /** The successes that would count if every call ran. */
  ghost function AllCounted(calls: seq<Call>, results: nat -> Result): set<nat> {
    set i | 0 <= i < |calls| && Counts(calls[i], OutcomeOf(calls[i], results(i)))
  }

  ghost predicate WithinExpected(calls: seq<Call>, results: nat -> Result) {
    |AllCounted(calls, results)| <= |ExpectedCalls(calls, |calls|)|
  }

  /** Each call as successful as it can be. */
  function Best(call: Call): Result {
    if call.output then Output("") else if Expected(call) then Success("") else AskRetry("")
  }

  function BestOf(calls: seq<Call>): nat -> Result { (i: nat) => if i < |calls| then Best(calls[i]) else AskRetry("") }

  /** No more successes count than the limit expected, whatever the calls do, exactly when no output tool
      shares its name with a function tool. */
  lemma {:induction false} ExpectedIsEnough(calls: seq<Call>)
    ensures (forall results: nat -> Result :: AllPossible(calls, results) ==> WithinExpected(calls, results))
      <==> NoClash(calls)
  {
    if NoClash(calls) {
      forall results: nat -> Result | AllPossible(calls, results) ensures WithinExpected(calls, results) {
        EnoughWithoutClash(calls, results);
      }
    } else {
      var i :| 0 <= i < |calls| && Clashes(calls[i]);
      BestExceeds(calls, i);
    }
  }

  lemma {:induction false} EnoughWithoutClash(calls: seq<Call>, results: nat -> Result)
    requires AllPossible(calls, results) && NoClash(calls)
    ensures WithinExpected(calls, results)
  {
    var counted, expected := AllCounted(calls, results), ExpectedCalls(calls, |calls|);
    forall i | i in counted ensures i in expected {
      assert Possible(calls[i], results(i)) && !Clashes(calls[i]);
    }
    Fewer(counted, expected);
  }

  lemma BestCounts(call: Call)
    ensures Possible(call, Best(call))
    ensures Expected(call) || Clashes(call) ==> Counts(call, OutcomeOf(call, Best(call)))
    ensures Clashes(call) ==> !Expected(call)
  {}

  lemma {:induction false} BestExceeds(calls: seq<Call>, i: nat)
    requires i < |calls| && Clashes(calls[i])
    ensures AllPossible(calls, BestOf(calls)) && !WithinExpected(calls, BestOf(calls))
  {
    hide Best, Possible, Counts, OutcomeOf, Expected, Clashes;
    forall j | 0 <= j < |calls| ensures Possible(calls[j], BestOf(calls)(j)) { BestCounts(calls[j]); }
    var counted, expected := AllCounted(calls, BestOf(calls)), ExpectedCalls(calls, |calls|);
    forall j | j in expected + {i} ensures j in counted { BestCounts(calls[j]); }
    BestCounts(calls[i]);
    Fewer(expected + {i}, counted);
  }

  lemma Fewer(a: set<nat>, b: set<nat>)
    requires a <= b
    ensures |a| <= |b|
  {
    assert b == a + (b - a);
  }
}
