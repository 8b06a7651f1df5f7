/** Tool calls of one model response: what running a call leaves behind, which calls the limit counts,
    and what is made of all outcomes together. */
module ExecutorSpec {
  import opened Options

  datatype Resolution = Unresolved | ResolvedExternally | Approved | Denied

  /** A call with what is known of its tool: whether it is the output tool, must run alone, is a function
      tool available now, runs elsewhere, or needs approval; and how an earlier deferral was resolved. */
  datatype Call = Call(id: string, output: bool, sequential: bool, available: bool, external: bool, approval: bool,
                       resolution: Resolution)

  datatype DeferralKind = ExternalCall | ApprovalNeeded

  /** What a call does when it is run. A refused call succeeded, but the consumer refused the event that tells
      of it, which is a failure; interrupted calls are those that end after the run was cancelled. */
  datatype Result =
    | Success(content: string)
    | Unsuccessful(content: string)
    | AskRetry(content: string)
    | Output(output: string)
    | Defer(kind: DeferralKind)
    | Fail(cancelled: bool)
    | Refused(content: string)
    | Interrupted

  datatype Part = ToolReturn(id: string, content: string, success: bool) | RetryPrompt(id: string, content: string)

  datatype Outcome = Outcome(part: Option<Part>, output: Option<string>, deferred: Option<DeferralKind>,
                             functionCall: bool, failed: bool)

  const NOT_RUN := Outcome(None, None, None, false, false)

  const FINAL_RESULT_PROCESSED := "Final result processed."
  const OUTPUT_SKIPPED := "Output tool not used - a final result was already processed."
  const TOOL_SKIPPED := "Tool not executed - a final result was already processed."
  const OUTPUT_VALIDATION_FAILED := "Output tool not used - output failed validation."
  const OUTPUT_NOT_FINAL := "Output tool processed, but its value will not be the final result of the agent run."
  const RETRY_WINS := "Output not used as the final result - addressing tool retries from this round first."

  predicate Succeeds(result: Result) { result.Success? || result.Refused? }

  predicate Fails(result: Result) { result.Fail? || result.Refused? }

  /** The results a call can have. Only the output tool produces output, and it never defers; a name that
      is no available tool can only be asked about again; what still needs approval, or was denied, does not
      succeed. */
  predicate Possible(call: Call, result: Result) {
    if call.output then result.Output? || result.AskRetry? || result.Fail? || result.Interrupted?
    else
      && !result.Output?
      && (!call.available ==> result.AskRetry? || result.Fail? || result.Interrupted?)
      && (call.approval && (call.resolution == Unresolved || call.resolution == Denied) ==> !Succeeds(result))
      && (call.external && call.resolution == Unresolved ==> !Succeeds(result))
  }

  function OutcomeOf(call: Call, result: Result): Outcome {
    match result
    case Success(content) => Outcome(Some(ToolReturn(call.id, content, true)), None, None, call.available, false)
    case Unsuccessful(content) => Outcome(Some(ToolReturn(call.id, content, false)), None, None, call.available, false)
    case AskRetry(content) => Outcome(Some(RetryPrompt(call.id, content)), None, None, call.available, false)
    case Output(output) =>
      Outcome(Some(ToolReturn(call.id, FINAL_RESULT_PROCESSED, true)), Some(output), None, call.available, false)
    case Defer(kind) => Outcome(None, None, Some(kind), call.available, false)
    case Fail(_) => Outcome(None, None, None, call.available, true)
    case Refused(content) => Outcome(Some(ToolReturn(call.id, content, true)), None, None, call.available, true)
    case Interrupted => Outcome(None, None, None, call.available, false)
  }

  function Skipped(call: Call): Outcome {
    var content := if call.output then OUTPUT_SKIPPED else TOOL_SKIPPED;
    Outcome(Some(ToolReturn(call.id, content, true)), None, None, false, false)
  }

  /** Once output was already streamed to the caller, no other output can become final, and an output call
      that fails says so instead of failing the run. */
  function CommittedOutcome(call: Call, result: Result): Outcome {
    var outcome := OutcomeOf(call, result);
    if !call.output || (result.Fail? && result.cancelled) || result.Refused? then outcome
    else if outcome.failed then
      Outcome(Some(ToolReturn(call.id, OUTPUT_VALIDATION_FAILED, true)), None, None, false, false)
    else if outcome.output.Some? && outcome.part.Some? then
      outcome.(part := Some(outcome.part.value.(content := OUTPUT_NOT_FINAL)), output := None)
    else outcome
  }

  /** The answer given to a call that is not run because output was already streamed. */
  function CommittedAnswer(call: Call, winner: bool): Outcome {
    var content := if winner then FINAL_RESULT_PROCESSED else if call.output then OUTPUT_SKIPPED else TOOL_SKIPPED;
    Outcome(Some(ToolReturn(call.id, content, true)), None, None, !call.output, false)
  }

  // ----- the limit -----

  /** A success that counts towards the limit. It is counted before the consumer is told, so also when the
      consumer then refuses. */
  predicate Counts(call: Call, outcome: Outcome) {
    && outcome.functionCall && !call.external && call.resolution != ResolvedExternally
    && outcome.part.Some? && outcome.part.value.ToolReturn? && outcome.part.value.success
  }

  /** A call that the limit expects to count. */
  predicate Expected(call: Call) {
    && !call.output && call.available && !call.external && call.resolution != ResolvedExternally
    && (call.approval ==> call.resolution == Approved)
  }

  ghost function ExpectedCalls(calls: seq<Call>, n: nat): set<nat>
    requires n <= |calls|
  {
    set i | 0 <= i < n && Expected(calls[i])
  }

  ghost function CountedCalls(calls: seq<Call>, results: nat -> Result, run: set<nat>): set<nat> {
    set i | i in run && i < |calls| && Counts(calls[i], OutcomeOf(calls[i], results(i)))
  }

  // ----- collecting outcomes -----

  function FirstOutput(outcomes: seq<Outcome>): (index: Option<nat>)
    ensures index.Some? ==> index.value < |outcomes| && outcomes[index.value].output.Some?
  {
    if outcomes == [] then None
    else
      var before := FirstOutput(outcomes[..|outcomes| - 1]);
      if before.Some? then before
      else if outcomes[|outcomes| - 1].output.Some? then Some(|outcomes| - 1) else None
  }

  predicate RetryAsked(outcome: Outcome) {
    outcome.functionCall && outcome.part.Some? && outcome.part.value.RetryPrompt?
  }

  predicate FunctionRetry(outcomes: seq<Outcome>) { exists i :: 0 <= i < |outcomes| && RetryAsked(outcomes[i]) }

  /** The final output, unless a function tool's wish to be called again takes precedence. */
  function Winner(outcomes: seq<Outcome>, retryCanWin: bool): Option<string> {
    var first := FirstOutput(outcomes);
    if first.None? || (retryCanWin && FunctionRetry(outcomes)) then None else outcomes[first.value].output
  }

  /** The content a part ends with. */
  function FinalContent(content: string, output: bool, first: bool, won: bool): string {
    if !output then content else if !first then OUTPUT_NOT_FINAL else if !won then RETRY_WINS else content
  }

  /** The part that answers call `i`. A final output skips what was deferred. */
  function FinalPart(calls: seq<Call>, outcomes: seq<Outcome>, retryCanWin: bool, i: nat): Option<Part>
    requires i < |calls| == |outcomes|
  {
    Answer(calls[i], outcomes[i], FirstOutput(outcomes) == Some(i), Winner(outcomes, retryCanWin).Some?)
  }

  function Answer(call: Call, outcome: Outcome, first: bool, won: bool): Option<Part> {
    if outcome.deferred.Some? then if won then Some(ToolReturn(call.id, TOOL_SKIPPED, true)) else outcome.part
    else if outcome.part.None? then None
    else
      Some(outcome.part.value.(content := FinalContent(outcome.part.value.content, outcome.output.Some?, first, won)))
  }

  datatype Request = Request(id: string, kind: DeferralKind)

  /** The request left pending for call `i`. */
  function FinalRequest(calls: seq<Call>, outcomes: seq<Outcome>, retryCanWin: bool, i: nat): Option<Request>
    requires i < |calls| == |outcomes|
  {
    if outcomes[i].deferred.Some? && Winner(outcomes, retryCanWin).None? then
      Some(Request(calls[i].id, outcomes[i].deferred.value))
    else None
  }

  function FinalParts(calls: seq<Call>, outcomes: seq<Outcome>, retryCanWin: bool, n: nat): seq<Part>
    requires n <= |calls| == |outcomes|
  {
    if n == 0 then []
    else
      var part := FinalPart(calls, outcomes, retryCanWin, n - 1);
      FinalParts(calls, outcomes, retryCanWin, n - 1) + if part.Some? then [part.value] else []
  }

  function FinalRequests(calls: seq<Call>, outcomes: seq<Outcome>, retryCanWin: bool, n: nat): seq<Request>
    requires n <= |calls| == |outcomes|
  {
    if n == 0 then []
    else
      var request := FinalRequest(calls, outcomes, retryCanWin, n - 1);
      FinalRequests(calls, outcomes, retryCanWin, n - 1) + if request.Some? then [request.value] else []
  }

  datatype Collected = Collected(parts: seq<Part>, requests: seq<Request>, winner: Option<string>) | EmptyId

  /** A request left pending must have an ID to answer it by. */
  predicate NamelessRequest(calls: seq<Call>, outcomes: seq<Outcome>, retryCanWin: bool, i: nat)
    requires i < |calls| == |outcomes|
  {
    FinalRequest(calls, outcomes, retryCanWin, i).Some? && calls[i].id == ""
  }

  ghost function Collecting(calls: seq<Call>, outcomes: seq<Outcome>, retryCanWin: bool): Collected
    requires |calls| == |outcomes|
  {
    if exists i :: 0 <= i < |calls| && NamelessRequest(calls, outcomes, retryCanWin, i) then EmptyId
    else Collected(FinalParts(calls, outcomes, retryCanWin, |calls|),
      FinalRequests(calls, outcomes, retryCanWin, |calls|), Winner(outcomes, retryCanWin))
  }

  // ----- what the strategies leave behind -----

  /** The position of the first output call that yields output. */
  function Candidate(calls: seq<Call>, results: nat -> Result): Option<nat> {
    if calls == [] then None
    else
      var before := Candidate(calls[..|calls| - 1], results);
      if before.Some? then before
      else if calls[|calls| - 1].output && results(|calls| - 1).Output? then Some(|calls| - 1) else None
  }

  datatype Strategy = Early | Graceful | Exhaustive

  /** Which calls a strategy runs. */
  predicate Runs(strategy: Strategy, calls: seq<Call>, results: nat -> Result, i: nat)
    requires i < |calls|
  {
    var candidate := Candidate(calls, results);
    match strategy
    case Exhaustive => true
    case Graceful => !calls[i].output || candidate.None? || i <= candidate.value
    case Early => if calls[i].output then candidate.None? || i <= candidate.value else candidate.None?
  }

  /** The outcomes when nothing fails. */
  ghost predicate Settled(strategy: Strategy, calls: seq<Call>, results: nat -> Result, outcomes: seq<Outcome>) {
    && |outcomes| == |calls|
    && forall i :: 0 <= i < |calls| ==>
         outcomes[i] == if Runs(strategy, calls, results, i) then OutcomeOf(calls[i], results(i)) else Skipped(calls[i])
  }

  predicate RetryCanWin(strategy: Strategy) { !strategy.Early? }

  predicate Finishes(result: Result) { !Fails(result) && !result.Interrupted? }
}
