/** Applying the results of deferred-call handlers: each handler sees what the ones before it left. */
module DeferredHandlers {
  import opened Options
  import opened ExecutorSpec
  import opened ExecutorProofs
  import Executor
  import opened DeferredSpec
  import opened Pieces

  datatype Settings = Settings(strategy: Strategy, sequentialTools: bool, limit: Option<nat>, hooks: bool)

  /** The tool of a pending call is available and can have deferred it, and the answer is of its kind. */
  predicate FitsTool(d: Deferred, results: Results, requireAll: bool, hooks: bool) {
    var hookDeferred := d.stored.Some? && hooks;
    && d.call.available
    && (d.call.external || d.dynamicExternal || d.call.approval || d.dynamicApproval || hookDeferred)
    && (if d.call.id in results.external then
          (d.stored.Some? ==> d.stored.value == ExternalCall) && (hookDeferred || d.call.external || d.dynamicExternal)
        else if d.call.id in results.approvals then
          (d.stored.Some? ==> d.stored.value == ApprovalNeeded)
            && (hookDeferred || d.call.approval || d.dynamicApproval)
        else !requireAll)
  }

  ghost predicate DistinctNonEmpty(pending: seq<Deferred>) {
    && (forall i :: 0 <= i < |pending| ==> pending[i].call.id != "")
    && (forall i, j :: 0 <= i < j < |pending| ==> pending[i].call.id != pending[j].call.id)
  }

  ghost function IdSet(pending: seq<Deferred>): set<string> { set d | d in pending :: d.call.id }

  /** The results answer pending calls only, each in one way, and fit the tools. */
  ghost predicate Fitting(pending: seq<Deferred>, results: Results, requireAll: bool, hooks: bool) {
    && DistinctNonEmpty(pending)
    && results.external <= IdSet(pending) && results.approvals.Keys <= IdSet(pending)
    && results.metadata <= IdSet(pending)
    && results.external !! results.approvals.Keys
    && (forall i :: 0 <= i < |pending| ==> FitsTool(pending[i], results, requireAll, hooks))
  }

  /** The run's tools behave as `Possible` says, and no available tool is the output tool. */
  ghost predicate Behaves(calls: set<Call>, results: Results, doing: Doing, h: nat) {
    forall c :: c in calls ==>
      && (c.output ==> !c.available)
      && (c.id in results.external ==> Possible(c.(resolution := ResolvedExternally), doing(h, c.id)))
      && (c.id in results.approvals ==>
            Possible(c.(resolution := if results.approvals[c.id] then Approved else Denied), doing(h, c.id)))
  }

  ghost function CallSet(pending: seq<Deferred>): set<Call> { set d | d in pending :: d.call }

  datatype Applied = Mismatch | RunFailed | Applied(parts: seq<Part>, again: Batch)

  function Doings(selected: seq<Deferred>, doing: Doing, h: nat): nat -> Result {
    (i: nat) => if i < |selected| then doing(h, selected[i].call.id) else Interrupted
  }

  // ----- running the selected calls -----

  lemma {:induction false} SelectedIs(pending: seq<Deferred>, results: Results)
    ensures forall d :: d in Selected(pending, results) <==> d in pending && Answers(results, d.call.id)
    ensures DistinctNonEmpty(pending) ==> DistinctNonEmpty(Selected(pending, results))
  {
    if pending != [] {
      var front, last := pending[..|pending| - 1], pending[|pending| - 1];
      assert pending == front + [last];
      SelectedIs(front, results);
      if DistinctNonEmpty(pending) {
        var before := Selected(front, results);
        forall i | 0 <= i < |before| ensures before[i].call.id != last.call.id {
          assert before[i] in before;
          var j :| 0 <= j < |front| && front[j] == before[i];
          assert pending[j] == front[j];
        }
      }
    }
  }

  lemma CallsOfAt(selected: seq<Deferred>, results: Results)
    ensures forall i :: 0 <= i < |selected| ==> CallsOf(selected, results)[i] == Resolved(selected[i], results)
  {}

  /** With no output call among them, all selected calls run and keep their own parts. */
  lemma {:induction false} PlainOutcomes(strategy: Strategy, selected: seq<Deferred>, results: Results, doing: Doing,
                                         h: nat, outcomes: seq<Outcome>)
    requires Settled(strategy, CallsOf(selected, results), Doings(selected, doing, h), outcomes)
    requires forall i :: 0 <= i < |selected| ==> !selected[i].call.output && !Resolved(selected[i], results).output
    requires forall i :: 0 <= i < |selected| ==>
      Possible(Resolved(selected[i], results), doing(h, selected[i].call.id)) && selected[i].call.id != ""
    ensures var calls := CallsOf(selected, results);
      && |outcomes| == |selected|
      && (forall i :: 0 <= i < |selected| ==>
            outcomes[i] == OutcomeOf(Resolved(selected[i], results), doing(h, selected[i].call.id)))
      && FirstOutput(outcomes).None?
  {
    CallsOfAt(selected, results);
    CandidateIsFirst(CallsOf(selected, results), Doings(selected, doing, h));
    hide Candidate, FirstOutput, CallsOf, Resolved;
    var calls, doings := CallsOf(selected, results), Doings(selected, doing, h);
    assert forall i :: 0 <= i < |calls| ==> !calls[i].output && Runs(strategy, calls, doings, i);
    NoOutput(outcomes);
  }

  lemma {:induction false} PlainParts(selected: seq<Deferred>, results: Results, doing: Doing, h: nat,
                                      outcomes: seq<Outcome>, retryCanWin: bool, n: nat)
    requires |outcomes| == |selected| && n <= |selected| && FirstOutput(outcomes).None?
    requires forall i :: 0 <= i < |selected| ==>
      outcomes[i] == OutcomeOf(Resolved(selected[i], results), doing(h, selected[i].call.id))
      && !outcomes[i].output.Some?
    ensures FinalParts(CallsOf(selected, results), outcomes, retryCanWin, n)
      == PartsOf(selected[..n], results, doing, h)
    ensures forall r :: r in FinalRequests(CallsOf(selected, results), outcomes, retryCanWin, n) <==>
      exists i :: 0 <= i < n && RequestAt(selected, doing, h, i) == Some(r)
  {
    hide OutcomeOf, Answers, FirstOutput, FunctionRetry;
    if n > 0 {
      PlainParts(selected, results, doing, h, outcomes, retryCanWin, n - 1);
      assert selected[..n][..n - 1] == selected[..n - 1];
      CallsOfAt(selected, results);
      PlainAnswer(selected, results, doing, h, outcomes, retryCanWin, n - 1);
    }
  }

  function RequestAt(selected: seq<Deferred>, doing: Doing, h: nat, i: nat): Option<Request>
    requires i < |selected|
  {
    var result := doing(h, selected[i].call.id);
    if result.Defer? then Some(Request(selected[i].call.id, result.kind)) else None
  }

  lemma {:induction false} PlainAnswer(selected: seq<Deferred>, results: Results, doing: Doing, h: nat,
                                       outcomes: seq<Outcome>, retryCanWin: bool, i: nat)
    requires |outcomes| == |selected| && i < |selected| && FirstOutput(outcomes).None?
    requires outcomes[i] == OutcomeOf(Resolved(selected[i], results), doing(h, selected[i].call.id))
    requires !outcomes[i].output.Some?
    ensures FinalPart(CallsOf(selected, results), outcomes, retryCanWin, i) == outcomes[i].part
    ensures FinalRequest(CallsOf(selected, results), outcomes, retryCanWin, i) == RequestAt(selected, doing, h, i)
  {
    CallsOfAt(selected, results);
    hide FirstOutput, FunctionRetry;
  }

  /** What running the selected calls left pending again, found by the requests gathered. */
  method CollectAgain(selected: seq<Deferred>, requests: seq<Request>, ghost doing: Doing, ghost h: nat)
    returns (again: Batch)
    requires DistinctNonEmpty(selected)
    requires forall r :: r in requests <==>
      exists i :: 0 <= i < |selected| && RequestAt(selected, doing, h, i) == Some(r)
    ensures again == Batch(AgainOf(selected, ExternalCall, doing, h), AgainOf(selected, ApprovalNeeded, doing, h))
  {
    again := Batch([], []);
    var k := 0;
    while k < |selected|
      invariant 0 <= k <= |selected|
      invariant again == Batch(AgainOf(selected[..k], ExternalCall, doing, h),
        AgainOf(selected[..k], ApprovalNeeded, doing, h))
    {
      var d := selected[k];
      assert selected[..k + 1] == selected[..k] + [d];
      AgainNext(selected[..k], d, doing, h);
      Requested(selected, requests, doing, h, k);
      if Request(d.call.id, ExternalCall) in requests {
        again := again.(calls := again.calls + [d.(stored := Some(ExternalCall))]);
      } else if Request(d.call.id, ApprovalNeeded) in requests {
        again := again.(approvals := again.approvals + [d.(stored := Some(ApprovalNeeded))]);
      }
      k := k + 1;
    }
    assert selected[..k] == selected;
  }

  lemma AgainNext(front: seq<Deferred>, d: Deferred, doing: Doing, h: nat)
    ensures forall kind ::
      AgainOf(front + [d], kind, doing, h)
      == (if doing(h, d.call.id) == Defer(kind) then AgainOf(front, kind, doing, h) + [d.(stored := Some(kind))]
          else AgainOf(front, kind, doing, h))
  {
    assert (front + [d])[..|front|] == front;
  }

  lemma {:induction false} Requested(selected: seq<Deferred>, requests: seq<Request>, doing: Doing, h: nat, k: nat)
    requires k < |selected| && DistinctNonEmpty(selected)
    requires forall r :: r in requests <==>
      exists i :: 0 <= i < |selected| && RequestAt(selected, doing, h, i) == Some(r)
    ensures forall kind ::
      Request(selected[k].call.id, kind) in requests <==> doing(h, selected[k].call.id) == Defer(kind)
  {
    forall kind
      ensures Request(selected[k].call.id, kind) in requests <==> doing(h, selected[k].call.id) == Defer(kind)
    {
      var r := Request(selected[k].call.id, kind);
      if r in requests {
        var i :| 0 <= i < |selected| && RequestAt(selected, doing, h, i) == Some(r);
        assert i == k;
      }
      if doing(h, selected[k].call.id) == Defer(kind) {
        assert RequestAt(selected, doing, h, k) == Some(r);
      }
    }
  }

  // ----- which answers fit -----

  predicate Given(results: Results, id: string, kind: DeferralKind) {
    match kind
    case ExternalCall => id in results.external
    case ApprovalNeeded => id in results.approvals
  }

  /** The tool may leave a call pending in this way, by itself or through a hook that has done so. */
  predicate MayDefer(d: Deferred, kind: DeferralKind, hooks: bool) {
    || (d.stored.Some? && hooks)
    || match kind
       case ExternalCall => d.call.external || d.dynamicExternal
       case ApprovalNeeded => d.call.approval || d.dynamicApproval
  }

  /** An answer of one kind fits a call whose tool may defer so and that is not known to have deferred
      otherwise; a call without an answer fits unless all must have one. */
  lemma FitsExactly(d: Deferred, results: Results, requireAll: bool, hooks: bool)
    requires results.external !! results.approvals.Keys
    ensures FitsTool(d, results, requireAll, hooks) <==>
      && d.call.available && (exists kind :: MayDefer(d, kind, hooks))
      && (forall kind :: Given(results, d.call.id, kind) ==>
            MayDefer(d, kind, hooks) && (d.stored.Some? ==> d.stored.value == kind))
      && (requireAll ==> exists kind :: Given(results, d.call.id, kind))
  {
    if FitsTool(d, results, requireAll, hooks) {
      assert MayDefer(d, ExternalCall, hooks) || MayDefer(d, ApprovalNeeded, hooks);
      assert requireAll ==>
          Given(results, d.call.id, ExternalCall) || Given(results, d.call.id, ApprovalNeeded);
    } else if d.call.available && exists kind :: MayDefer(d, kind, hooks) {
      assert Given(results, d.call.id, ExternalCall) ==> d.call.id !in results.approvals;
      assert Given(results, d.call.id, ApprovalNeeded) ==> d.call.id !in results.external;
    }
  }

  lemma {:induction false} CountedWhenPending(pending: seq<Deferred>, id: string)
    ensures Count(pending, id) > 0 <==> id in IdSet(pending)
  {
    hide Count;
    if pending == [] {
      NothingCounted(id);
    } else {
      var front, last := pending[..|pending| - 1], pending[|pending| - 1];
      assert pending == front + [last];
      CountedWhenPending(front, id);
      CountMore(front, last, id);
      assert IdSet(pending) == IdSet(front) + {last.call.id};
    }
  }

  lemma {:induction false} DistinctMeansOnce(pending: seq<Deferred>, id: string)
    requires DistinctNonEmpty(pending)
    ensures Count(pending, id) <= 1
  {
    hide Count;
    if pending == [] {
      NothingCounted(id);
    } else {
      var front, last := pending[..|pending| - 1], pending[|pending| - 1];
      assert pending == front + [last];
      DistinctMeansOnce(front, id);
      CountMore(front, last, id);
      CountedWhenPending(front, id);
    }
  }

  lemma {:induction false} TwiceCounted(pending: seq<Deferred>, i: nat, j: nat)
    requires i < j < |pending| && pending[i].call.id == pending[j].call.id
    ensures Count(pending, pending[i].call.id) > 1
  {
    hide Count;
    var front, last := pending[..|pending| - 1], pending[|pending| - 1];
    assert pending == front + [last];
    CountMore(front, last, pending[i].call.id);
    if j < |front| {
      TwiceCounted(front, i, j);
    } else {
      assert front[i] in front;
      CountedWhenPending(front, pending[i].call.id);
    }
  }

  /** Results fit when every pending call can be told by its ID, every ID they name is that of one pending call, no
      call is answered in both ways, and each answer fits its call. */
  lemma {:induction false} FittingExactly(pending: seq<Deferred>, results: Results, requireAll: bool, hooks: bool)
    ensures Fitting(pending, results, requireAll, hooks) <==>
      && (forall d :: d in pending ==> d.call.id != "" && Count(pending, d.call.id) == 1)
      && (forall id :: id in results.external || id in results.approvals || id in results.metadata ==>
            Count(pending, id) == 1)
      && (forall id :: !(id in results.external && id in results.approvals))
      && (forall d :: d in pending ==> FitsTool(d, results, requireAll, hooks))
  {
    hide Count, FitsTool;
    forall id ensures Count(pending, id) > 0 <==> id in IdSet(pending) { CountedWhenPending(pending, id); }
    if DistinctNonEmpty(pending) {
      forall id ensures Count(pending, id) <= 1 { DistinctMeansOnce(pending, id); }
      forall d | d in pending ensures d.call.id != "" && Count(pending, d.call.id) == 1 {
        assert d.call.id in IdSet(pending);
      }
    }
    if forall d :: d in pending ==> d.call.id != "" && Count(pending, d.call.id) == 1 {
      forall i, j | 0 <= i < j < |pending| ensures pending[i].call.id != pending[j].call.id {
        assert pending[i] in pending;
        if pending[i].call.id == pending[j].call.id { TwiceCounted(pending, i, j); }
      }
    }
  }

  lemma {:induction false} InAgain(selected: seq<Deferred>, kind: DeferralKind, doing: Doing, h: nat, d: Deferred)
    requires d in selected && doing(h, d.call.id) == Defer(kind)
    ensures d.(stored := Some(kind)) in AgainOf(selected, kind, doing, h)
  {
    if d != selected[|selected| - 1] {
      assert selected == selected[..|selected| - 1] + [selected[|selected| - 1]];
      InAgain(selected[..|selected| - 1], kind, doing, h, d);
    }
  }

  /** A call that defers while it is being answered waits among those of its new kind, and the next handler can
      answer it in that way, never in the other. */
  lemma {:induction false} DefersAgain(batch: Batch, results: Results, doing: Doing, h: nat, d: Deferred,
                                       kind: DeferralKind, later: Results, requireAll: bool, hooks: bool)
    requires d in Pending(batch) && Answers(results, d.call.id) && doing(h, d.call.id) == Defer(kind)
    requires d.call.available && (hooks || MayDefer(d, kind, false)) && later.external !! later.approvals.Keys
    ensures var again, next := d.(stored := Some(kind)), NextBatch(batch, results, doing, h);
      && again in (if kind == ExternalCall then next.calls else next.approvals)
      && (Given(later, d.call.id, kind) ==> FitsTool(again, later, requireAll, hooks))
      && (forall other :: other != kind && Given(later, d.call.id, other) ==>
            !FitsTool(again, later, requireAll, hooks))
  {
    SelectedIs(Pending(batch), results);
    InAgain(Selected(Pending(batch), results), kind, doing, h, d);
    var again := d.(stored := Some(kind));
    FitsExactly(again, later, requireAll, hooks);
    hide FitsTool, Selected, AgainOf;
    assert MayDefer(again, kind, hooks);
    forall other | Given(later, d.call.id, other) && Given(later, d.call.id, kind) ensures other == kind {
      assert later.external * later.approvals.Keys == {};
    }
  }

  function Unanswered(results: Results): Deferred -> bool { (d: Deferred) => !Answers(results, d.call.id) }

  /** A call that is answered and, when run on that answer, defers in this way. */
  function AgainAs(results: Results, kind: DeferralKind, doing: Doing, h: nat): Deferred -> bool {
    (d: Deferred) => Answers(results, d.call.id) && doing(h, d.call.id) == Defer(kind)
  }

  function Storing(kind: DeferralKind): Deferred -> Deferred { (d: Deferred) => d.(stored := Some(kind)) }

  lemma {:induction false} KeptWhere(pending: seq<Deferred>, results: Results)
    ensures Kept(pending, results) == Where(pending, Unanswered(results))
  {
    if pending != [] { KeptWhere(pending[..|pending| - 1], results); }
  }

  lemma {:induction false} AgainWhere(pending: seq<Deferred>, results: Results, kind: DeferralKind, doing: Doing,
                                      h: nat)
    ensures AgainOf(Selected(pending, results), kind, doing, h)
         == Each(Where(pending, AgainAs(results, kind, doing, h)), Storing(kind))
  {
    if pending != [] {
      var front, last := pending[..|pending| - 1], pending[|pending| - 1];
      AgainWhere(front, results, kind, doing, h);
      var selected, again := Selected(front, results), Where(front, AgainAs(results, kind, doing, h));
      EachMore(again, last, Storing(kind));
      AgainNext(selected, last, doing, h);
      assert selected + [] == selected && again + [] == again;
      assert Selected(pending, results) == if Answers(results, last.call.id) then selected + [last] else selected;
      assert Storing(kind)(last) == last.(stored := Some(kind));
    }
  }

  /** After a handler, what it did not answer comes first, in its order, and then what deferred again, approvals
      before external calls, under its new kind. */
  lemma {:induction false} BatchInOrder(batch: Batch, results: Results, doing: Doing, h: nat)
    ensures var again := (kind: DeferralKind) =>
        Each(Where(batch.approvals + batch.calls, AgainAs(results, kind, doing, h)), Storing(kind));
      NextBatch(batch, results, doing, h)
      == Batch(Where(batch.calls, Unanswered(results)) + again(ExternalCall),
               Where(batch.approvals, Unanswered(results)) + again(ApprovalNeeded))
  {
    hide Where, Each, Selected, AgainOf;
    KeptWhere(batch.calls, results);
    KeptWhere(batch.approvals, results);
    AgainWhere(Pending(batch), results, ExternalCall, doing, h);
    AgainWhere(Pending(batch), results, ApprovalNeeded, doing, h);
  }

  /** The part a call ends with when it is answered. */
  function PartFor(id: string, result: Result): Option<Part> {
    match result
    case Success(content) => Some(ToolReturn(id, content, true))
    case Unsuccessful(content) => Some(ToolReturn(id, content, false))
    case AskRetry(content) => Some(RetryPrompt(id, content))
    case Output(_) => Some(ToolReturn(id, FINAL_RESULT_PROCESSED, true))
    case Refused(content) => Some(ToolReturn(id, content, true))
    case _ => None
  }

  function PartsFor(pending: seq<Deferred>, results: Results, doing: Doing, h: nat): seq<seq<Part>> {
    Each(pending, (d: Deferred) =>
      if Answers(results, d.call.id) && PartFor(d.call.id, doing(h, d.call.id)).Some? then
        [PartFor(d.call.id, doing(h, d.call.id)).value]
      else [])
  }

  lemma ResolvedPart(d: Deferred, results: Results, result: Result)
    ensures OutcomeOf(Resolved(d, results), result).part == PartFor(d.call.id, result)
  {}

  /** A handler's parts are those its answers make, in pending order. */
  lemma {:induction false} PartsInOrder(pending: seq<Deferred>, results: Results, doing: Doing, h: nat)
    ensures PartsOf(Selected(pending, results), results, doing, h) == Flat(PartsFor(pending, results, doing, h))
  {
    hide OutcomeOf, Resolved, PartFor;
    if pending != [] {
      var front, last := pending[..|pending| - 1], pending[|pending| - 1];
      PartsInOrder(front, results, doing, h);
      ResolvedPart(last, results, doing(h, last.call.id));
      var selected, parts := Selected(front, results), PartsFor(front, results, doing, h);
      var own := if Answers(results, last.call.id) && PartFor(last.call.id, doing(h, last.call.id)).Some? then
          [PartFor(last.call.id, doing(h, last.call.id)).value]
        else [];
      assert PartsFor(pending, results, doing, h) == parts + [own];
      FlatMore(parts, own);
      assert selected + [] == selected && (selected + [last])[..|selected|] == selected;
      assert Flat(parts) + [] == Flat(parts);
    }
  }

  /** Parts of later handlers come behind those of earlier ones. */
  lemma {:induction false} HandlersInOrder(batch: Batch, handlers: seq<Option<Results>>, doing: Doing, n: nat)
    requires n <= |handlers|
    ensures Handled(batch, handlers[..n], doing).0 <= Handled(batch, handlers, doing).0
  {
    hide PartsOf, NextBatch, Selected;
    if n == |handlers| {
      assert handlers[..n] == handlers;
    } else {
      var front := handlers[..|handlers| - 1];
      HandlersInOrder(batch, front, doing, n);
      assert front[..n] == handlers[..n];
    }
  }

  // ----- applying results -----

  method AllIn(ids: set<string>, known: set<string>) returns (all: bool)
    ensures all <==> ids <= known
  {
    var rest := ids;
    while rest != {}
      invariant rest <= ids && ids - rest <= known
      decreases |rest|
    {
      var id :| id in rest;
      if id !in known { return false; }
      rest := rest - {id};
    }
    all := true;
  }

  method PendingIds(pending: seq<Deferred>) returns (ok: bool, ids: set<string>)
    ensures ok <==> DistinctNonEmpty(pending)
    ensures ok ==> ids == IdSet(pending)
  {
    ids := {};
    var k := 0;
    while k < |pending|
      invariant 0 <= k <= |pending| && DistinctNonEmpty(pending[..k])
      invariant forall id :: id in ids <==> exists i :: 0 <= i < k && pending[i].call.id == id
    {
      var id := pending[k].call.id;
      if id == "" || id in ids { return false, ids; }
      ids := ids + {id};
      k := k + 1;
    }
    assert pending[..k] == pending;
    ok := true;
  }

  method SelectFitting(pending: seq<Deferred>, results: Results, requireAll: bool, hooks: bool)
    returns (fits: bool, selected: seq<Deferred>)
    ensures fits <==> forall i :: 0 <= i < |pending| ==> FitsTool(pending[i], results, requireAll, hooks)
    ensures fits ==> selected == Selected(pending, results)
  {
    selected := [];
    var k := 0;
    while k < |pending|
      invariant 0 <= k <= |pending| && selected == Selected(pending[..k], results)
      invariant forall i :: 0 <= i < k ==> FitsTool(pending[i], results, requireAll, hooks)
    {
      assert pending[..k + 1][..k] == pending[..k];
      if !FitsTool(pending[k], results, requireAll, hooks) { return false, selected; }
      if Answers(results, pending[k].call.id) { selected := selected + [pending[k]]; }
      k := k + 1;
    }
    assert pending[..k] == pending;
    fits := true;
  }

  lemma NoneSelected(results: Results, doing: Doing, h: nat)
    ensures Charge([], results, doing, h) == 0
    ensures PartsOf([], results, doing, h) == []
    ensures AgainOf([], ExternalCall, doing, h) == [] && AgainOf([], ApprovalNeeded, doing, h) == []
  {}

  /** How far running the selected calls moves the counter. */
  ghost function Charge(selected: seq<Deferred>, results: Results, doing: Doing, h: nat): nat {
    |AllCounted(CallsOf(selected, results), Doings(selected, doing, h))|
  }

  /** Nothing stops the selected calls: they fit the limit and none of them fails. */
  ghost predicate Unstopped(selected: seq<Deferred>, results: Results, doing: Doing, h: nat, limit: Option<nat>,
                            toolCalls: nat) {
    && (limit.Some? ==> toolCalls + |ExpectedCalls(CallsOf(selected, results), |selected|)| <= limit.value)
    && (forall i :: 0 <= i < |selected| ==> !Fails(doing(h, selected[i].call.id)))
  }

  lemma {:induction false} RanAll(calls: seq<Call>, results: nat -> Result, list: seq<nat>)
    requires forall i :: i in list <==> 0 <= i < |calls|
    ensures CountedCalls(calls, results, Executor.SetOf(list)) == AllCounted(calls, results)
  {
    hide OutcomeOf;
  }

  lemma ResolvedKeeps(selected: seq<Deferred>, results: Results)
    ensures forall i :: 0 <= i < |selected| ==>
      && CallsOf(selected, results)[i].id == selected[i].call.id
      && CallsOf(selected, results)[i].output == selected[i].call.output
  {
    CallsOfAt(selected, results);
  }

  lemma FailsWhenItFails(call: Call, result: Result)
    ensures OutcomeOf(call, result).failed <==> Fails(result)
  {}

  /** What the executor's answer means when there are only functions to run. */
  lemma {:induction false} AnswerOfFunctions(executor: Executor.Executor, selected: seq<Deferred>, results: Results,
                                             doing: Doing, h: nat, limit: Option<nat>, answer: Executor.Answered)
    requires executor.calls == CallsOf(selected, results) && executor.results == Doings(selected, doing, h)
    requires executor.streamed.None? && executor.limit == limit && executor.Valid()
    requires DistinctNonEmpty(selected) && forall i :: 0 <= i < |selected| ==> !selected[i].call.output
    requires executor.list <= executor.Plan()
    requires answer.Failed? <==> !executor.NoFailure()
    requires answer == Executor.DuplicateId <==> !DistinctIds(executor.calls)
    requires answer == Executor.LimitExceeded <==>
      DistinctIds(executor.calls) && executor.NoFailure() && executor.TooMany()
      && (executor.strategy == Early ==> Candidate(executor.calls, executor.results).None?)
    requires answer.Done? ==> executor.list == executor.Plan()
    ensures answer.Done? <==> Unstopped(selected, results, doing, h, limit, executor.before)
    ensures answer.Done? ==> executor.toolCalls == executor.before + Charge(selected, results, doing, h)
  {
    ResolvedKeeps(selected, results);
    hide Resolved, CallsOf, Selected, Candidate, OutcomeOf, ExpectedCalls, CountedCalls, AllCounted, Executor.RunsGroup,
      Executor.BarriersKept, executor.Plan, executor.AtCheck;
    executor.FunctionsAllRun();
    assert forall i :: i in executor.list ==> i in executor.Plan();
    forall i | 0 <= i < |selected| ensures executor.OutcomeAt(i).failed <==> Fails(doing(h, selected[i].call.id)) {
      FailsWhenItFails(executor.calls[i], executor.results(i));
    }
    if answer.Done? { RanAll(executor.calls, executor.results, executor.list); }
  }

  /** The selected calls run under the run's own rules. */
  method RunSelected(selected: seq<Deferred>, results: Results, doing: Doing, h: nat, settings: Settings,
                     toolCalls: nat)
    returns (applied: Applied, total: nat)
    requires DistinctNonEmpty(selected) && AllPossible(CallsOf(selected, results), Doings(selected, doing, h))
    requires forall i :: 0 <= i < |selected| ==>
      && !selected[i].call.output && selected[i].call.id != ""
      && Possible(Resolved(selected[i], results), doing(h, selected[i].call.id))
    ensures applied.Applied? || applied.RunFailed?
    ensures settings.limit.Some? && toolCalls <= settings.limit.value ==> total <= settings.limit.value
    ensures applied.Applied? <==> Unstopped(selected, results, doing, h, settings.limit, toolCalls)
    ensures applied.Applied? ==>
      && total == toolCalls + Charge(selected, results, doing, h)
      && applied.parts == PartsOf(selected, results, doing, h)
      && applied.again == Batch(AgainOf(selected, ExternalCall, doing, h), AgainOf(selected, ApprovalNeeded, doing, h))
  {
    hide OutcomeOf, PartsOf, AgainOf, Possible, AllPossible, Runs, FirstOutput, FinalParts, FinalRequests, Unstopped,
      Charge;
    var calls := ResolveAll(selected, results);
    var doings := Doings(selected, doing, h);
    var executor := new Executor.Executor(calls, doings, settings.strategy, settings.sequentialTools, settings.limit,
      None, toolCalls);
    hide executor.Valid, executor.Plan, executor.TooMany, executor.NoFailure, executor.Halts, DistinctIds, Collecting,
      Candidate, CallsOf, DistinctNonEmpty;
    FunctionsOnly(selected, results);
    var answer := executor.ExecuteCalls();
    total := executor.toolCalls;
    AnswerOfFunctions(executor, selected, results, doing, h, settings.limit, answer);
    if !answer.Done? { return RunFailed, total; }
    ghost var outcomes :| Settled(settings.strategy, calls, doings, outcomes)
      && answer.collected == Collecting(calls, outcomes, RetryCanWin(settings.strategy));
    PlainOutcomes(settings.strategy, selected, results, doing, h, outcomes);
    AllNamed(selected, results, outcomes, RetryCanWin(settings.strategy));
    PlainCollection(settings.strategy, selected, results, doing, h, outcomes);
    var again := CollectAgain(selected, answer.collected.requests, doing, h);
    applied := Applied(answer.collected.parts, again);
  }

  lemma AllNamed(selected: seq<Deferred>, results: Results, outcomes: seq<Outcome>, retryCanWin: bool)
    requires |outcomes| == |selected| && forall i :: 0 <= i < |selected| ==> selected[i].call.id != ""
    ensures Collecting(CallsOf(selected, results), outcomes, retryCanWin).Collected?
  {
    ResolvedKeeps(selected, results);
    hide CallsOf, FinalRequest;
  }

  lemma FunctionsOnly(selected: seq<Deferred>, results: Results)
    requires forall i :: 0 <= i < |selected| ==> !selected[i].call.output
    ensures NoClash(CallsOf(selected, results))
  {
    CallsOfAt(selected, results);
  }

  lemma {:induction false} PlainCollection(strategy: Strategy, selected: seq<Deferred>, results: Results, doing: Doing,
                                           h: nat, outcomes: seq<Outcome>)
    requires |outcomes| == |selected| && FirstOutput(outcomes).None?
    requires forall i :: 0 <= i < |selected| ==>
      && outcomes[i] == OutcomeOf(Resolved(selected[i], results), doing(h, selected[i].call.id))
      && !selected[i].call.output && Possible(Resolved(selected[i], results), doing(h, selected[i].call.id))
    ensures var collected := Collecting(CallsOf(selected, results), outcomes, RetryCanWin(strategy));
      collected.Collected? ==>
        && collected.parts == PartsOf(selected, results, doing, h)
        && forall r :: r in collected.requests <==>
             exists i :: 0 <= i < |selected| && RequestAt(selected, doing, h, i) == Some(r)
  {
    forall i | 0 <= i < |selected| ensures outcomes[i].output.None? {}
    hide OutcomeOf, PartsOf, Possible, FirstOutput, FinalParts, FinalRequests, NamelessRequest, Winner;
    PlainParts(selected, results, doing, h, outcomes, RetryCanWin(strategy), |selected|);
    assert selected[..|selected|] == selected;
  }

  /** The results fit, and nothing stops the calls they answer. */
  ghost predicate Applies(pending: seq<Deferred>, results: Results, requireAll: bool, doing: Doing, h: nat,
                          settings: Settings, toolCalls: nat) {
    var selected := Selected(pending, results);
    && Fitting(pending, results, requireAll, settings.hooks)
    && (selected == [] || Unstopped(selected, results, doing, h, settings.limit, toolCalls))
  }

  /** Checks the results against the pending calls, runs those answered, and tells what they left. */
  method ApplyDeferredToolResults(pending: seq<Deferred>, results: Results, requireAll: bool, doing: Doing, h: nat,
                                  settings: Settings, toolCalls: nat) returns (applied: Applied, total: nat)
    requires Behaves(CallSet(pending), results, doing, h)
    ensures applied == Mismatch <==> !Fitting(pending, results, requireAll, settings.hooks)
    ensures settings.limit.Some? && toolCalls <= settings.limit.value ==> total <= settings.limit.value
    ensures applied.Applied? <==> Applies(pending, results, requireAll, doing, h, settings, toolCalls)
    ensures applied.Applied? ==>
      var selected := Selected(pending, results);
      && total == toolCalls + Charge(selected, results, doing, h)
      && applied.parts == PartsOf(selected, results, doing, h)
      && applied.again == Batch(AgainOf(selected, ExternalCall, doing, h), AgainOf(selected, ApprovalNeeded, doing, h))
  {
    total := toolCalls;
    hide FitsTool, OutcomeOf, Behaves, PartsOf, AgainOf, Selected, DistinctNonEmpty, IdSet, Unstopped;
    var ok, ids := PendingIds(pending);
    if !ok { return Mismatch, total; }
    var callsKnown := AllIn(results.external, ids);
    var approvalsKnown := AllIn(results.approvals.Keys, ids);
    var metadataKnown := AllIn(results.metadata, ids);
    if !callsKnown || !approvalsKnown || !metadataKnown { return Mismatch, total; }
    if !(results.external !! results.approvals.Keys) { return Mismatch, total; }
    var fits, selected := SelectFitting(pending, results, requireAll, settings.hooks);
    if !fits { return Mismatch, total; }
    if selected == [] {
      NoneSelected(results, doing, h);
      return Applied([], Batch([], [])), total;
    }
    SelectedIs(pending, results);
    SelectedBehave(pending, results, requireAll, settings.hooks, doing, h);
    applied, total := RunSelected(selected, results, doing, h, settings, toolCalls);
  }

  method ResolveAll(selected: seq<Deferred>, results: Results) returns (calls: seq<Call>)
    ensures calls == CallsOf(selected, results)
  {
    calls := [];
    var k := 0;
    while k < |selected|
      invariant 0 <= k <= |selected| && calls == CallsOf(selected[..k], results)
    {
      assert selected[..k + 1][..k] == selected[..k];
      calls := calls + [Resolved(selected[k], results)];
      k := k + 1;
    }
    assert selected[..k] == selected;
  }

  lemma {:induction false} SelectedBehave(pending: seq<Deferred>, results: Results, requireAll: bool, hooks: bool,
                                          doing: Doing, h: nat)
    requires Behaves(CallSet(pending), results, doing, h) && Fitting(pending, results, requireAll, hooks)
    ensures var selected := Selected(pending, results);
      && (forall i :: 0 <= i < |selected| ==>
            && !selected[i].call.output && selected[i].call.id != ""
            && Possible(Resolved(selected[i], results), doing(h, selected[i].call.id)))
      && AllPossible(CallsOf(selected, results), Doings(selected, doing, h))
  {
    hide Possible;
    var selected := Selected(pending, results);
    SelectedIs(pending, results);
    CallsOfAt(selected, results);
    forall i | 0 <= i < |selected|
      ensures !selected[i].call.output && selected[i].call.id != ""
      ensures Possible(Resolved(selected[i], results), doing(h, selected[i].call.id))
    {
      assert selected[i] in selected;
      var j :| 0 <= j < |pending| && pending[j] == selected[i];
      assert FitsTool(pending[j], results, requireAll, hooks);
      assert selected[i].call in CallSet(pending);
    }
  }

  // ----- all handlers -----

  lemma {:induction false} SameCalls(batch: Batch, results: Results, doing: Doing, h: nat)
    ensures CallSet(Pending(NextBatch(batch, results, doing, h))) <= CallSet(Pending(batch))
  {
    var selected := Selected(Pending(batch), results);
    KeptIn(batch.calls, results);
    KeptIn(batch.approvals, results);
    AgainIn(selected, ExternalCall, doing, h);
    AgainIn(selected, ApprovalNeeded, doing, h);
    SelectedIs(Pending(batch), results);
  }

  lemma KeptIn(pending: seq<Deferred>, results: Results)
    ensures forall d :: d in Kept(pending, results) ==> d in pending
  {}

  lemma AgainIn(selected: seq<Deferred>, kind: DeferralKind, doing: Doing, h: nat)
    ensures forall d :: d in AgainOf(selected, kind, doing, h) ==> exists e :: e in selected && e.call == d.call
  {}

  method RemainingRequests(pending: seq<Deferred>, results: Results) returns (kept: seq<Deferred>)
    ensures kept == Kept(pending, results)
  {
    kept := [];
    var k := 0;
    while k < |pending|
      invariant 0 <= k <= |pending| && kept == Kept(pending[..k], results)
    {
      assert pending[..k + 1][..k] == pending[..k];
      if !Answers(results, pending[k].call.id) { kept := kept + [pending[k]]; }
      k := k + 1;
    }
    assert pending[..k] == pending;
  }

  /** The counter after all handlers. */
  ghost function TotalAfter(batch: Batch, handlers: seq<Option<Results>>, doing: Doing, toolCalls: nat): nat {
    if handlers == [] then toolCalls
    else
      var h := |handlers| - 1;
      var before := Handled(batch, handlers[..h], doing).1;
      TotalAfter(batch, handlers[..h], doing, toolCalls)
      + if handlers[h].None? || Pending(before) == [] then 0
        else Charge(Selected(Pending(before), handlers[h].value), handlers[h].value, doing, h)
  }

  /** Each handler's results apply to what the handlers before it left. */
  ghost predicate AllApply(batch: Batch, handlers: seq<Option<Results>>, doing: Doing, settings: Settings,
                           toolCalls: nat) {
    handlers == [] ||
      var h := |handlers| - 1;
      var before := Handled(batch, handlers[..h], doing).1;
      && AllApply(batch, handlers[..h], doing, settings, toolCalls)
      && (handlers[h].None? || Pending(before) == []
          || Applies(Pending(before), handlers[h].value, false, doing, h, settings,
                     TotalAfter(batch, handlers[..h], doing, toolCalls)))
  }

  lemma {:induction false} AllApplyFirst(batch: Batch, handlers: seq<Option<Results>>, doing: Doing, settings: Settings,
                                         toolCalls: nat, k: nat)
    requires k <= |handlers| && AllApply(batch, handlers, doing, settings, toolCalls)
    ensures AllApply(batch, handlers[..k], doing, settings, toolCalls)
  {
    hide Handled, Applies;
    if k == |handlers| {
      assert handlers[..k] == handlers;
    } else {
      assert handlers[..|handlers| - 1][..k] == handlers[..k];
      AllApplyFirst(batch, handlers[..|handlers| - 1], doing, settings, toolCalls, k);
    }
  }

  /** Once nothing is pending, later handlers change nothing. */
  lemma {:induction false} Idle(batch: Batch, handlers: seq<Option<Results>>, doing: Doing, settings: Settings,
                                toolCalls: nat, k: nat)
    requires k <= |handlers| && Pending(Handled(batch, handlers[..k], doing).1) == []
    ensures Handled(batch, handlers, doing) == Handled(batch, handlers[..k], doing)
    ensures TotalAfter(batch, handlers, doing, toolCalls) == TotalAfter(batch, handlers[..k], doing, toolCalls)
    ensures AllApply(batch, handlers, doing, settings, toolCalls)
      <==> AllApply(batch, handlers[..k], doing, settings, toolCalls)
  {
    hide Applies, Charge;
    if k == |handlers| {
      assert handlers[..k] == handlers;
    } else {
      assert handlers[..|handlers| - 1][..k] == handlers[..k];
      Idle(batch, handlers[..|handlers| - 1], doing, settings, toolCalls, k);
    }
  }

  /** Where the loop stands before handler `h`: everything so far has applied, and something is pending,
      unless nothing was from the start. */
  ghost predicate AtHandler(batch: Batch, handlers: seq<Option<Results>>, doing: Doing, settings: Settings,
                            toolCalls: nat, h: nat, parts: seq<Part>, remaining: Batch, total: nat)
    requires h <= |handlers|
  {
    && (parts, remaining) == Handled(batch, handlers[..h], doing)
    && (Pending(batch) != [] ==>
          && Pending(remaining) != []
          && AllApply(batch, handlers[..h], doing, settings, toolCalls)
          && total == TotalAfter(batch, handlers[..h], doing, toolCalls))
  }

  lemma StartsAtHandler(batch: Batch, handlers: seq<Option<Results>>, doing: Doing, settings: Settings, toolCalls: nat)
    ensures AtHandler(batch, handlers, doing, settings, toolCalls, 0, [], batch, toolCalls)
  {}

  lemma {:induction false} SkipHandler(batch: Batch, handlers: seq<Option<Results>>, doing: Doing, settings: Settings,
                                       toolCalls: nat, h: nat, parts: seq<Part>, remaining: Batch, total: nat)
    requires h < |handlers| && handlers[h].None?
    requires AtHandler(batch, handlers, doing, settings, toolCalls, h, parts, remaining, total)
    ensures AtHandler(batch, handlers, doing, settings, toolCalls, h + 1, parts, remaining, total)
  {
    assert handlers[..h + 1][..h] == handlers[..h];
  }

  /** A handler's results fail to apply: not all of them do. */
  lemma {:induction false} HandlerFails(batch: Batch, handlers: seq<Option<Results>>, doing: Doing, settings: Settings,
                                        toolCalls: nat, h: nat, parts: seq<Part>, remaining: Batch, total: nat)
    requires h < |handlers| && handlers[h].Some? && Pending(batch) != []
    requires AtHandler(batch, handlers, doing, settings, toolCalls, h, parts, remaining, total)
    requires !Applies(Pending(remaining), handlers[h].value, false, doing, h, settings, total)
    ensures !AllApply(batch, handlers, doing, settings, toolCalls)
  {
    hide Applies, Handled, TotalAfter, Pending;
    assert handlers[..h + 1][..h] == handlers[..h];
    assert !AllApply(batch, handlers[..h + 1], doing, settings, toolCalls);
    if AllApply(batch, handlers, doing, settings, toolCalls) {
      AllApplyFirst(batch, handlers, doing, settings, toolCalls, h + 1);
    }
  }

  /** A handler's results apply: the first `h + 1` handlers leave what they make of the batch. */
  lemma {:induction false} HandlerApplies(batch: Batch, handlers: seq<Option<Results>>, doing: Doing,
                                          settings: Settings,
                                          toolCalls: nat, h: nat, parts: seq<Part>, remaining: Batch, total: nat)
    requires h < |handlers| && handlers[h].Some? && Pending(batch) != []
    requires AtHandler(batch, handlers, doing, settings, toolCalls, h, parts, remaining, total)
    requires Applies(Pending(remaining), handlers[h].value, false, doing, h, settings, total)
    ensures var (results, some) := (handlers[h].value, handlers[..h + 1]);
      var selected := Selected(Pending(remaining), results);
      && Handled(batch, some, doing)
        == (parts + PartsOf(selected, results, doing, h), NextBatch(remaining, results, doing, h))
      && AllApply(batch, some, doing, settings, toolCalls)
      && TotalAfter(batch, some, doing, toolCalls) == total + Charge(selected, results, doing, h)
  {
    hide Applies, Charge, PartsOf, Selected, NextBatch, Pending;
    assert handlers[..h + 1][..h] == handlers[..h];
  }

  /** A handler's results fail to apply, and so not all of them do, or they apply, and the loop goes on
      with what is left, or ends with nothing left. */
  lemma {:induction false} AfterHandler(batch: Batch, handlers: seq<Option<Results>>, doing: Doing, settings: Settings,
                                        toolCalls: nat, h: nat, parts: seq<Part>, remaining: Batch, total: nat)
    requires h < |handlers| && handlers[h].Some?
    requires AtHandler(batch, handlers, doing, settings, toolCalls, h, parts, remaining, total)
    ensures var (results, pending) := (handlers[h].value, Pending(remaining));
      var next := NextBatch(remaining, results, doing, h);
      var selected := Selected(pending, results);
      if !Applies(pending, results, false, doing, h, settings, total) then
        Pending(batch) != [] ==> !AllApply(batch, handlers, doing, settings, toolCalls)
      else
        var parts' := parts + PartsOf(selected, results, doing, h);
        var total' := total + Charge(selected, results, doing, h);
        if Pending(next) != [] then AtHandler(batch, handlers, doing, settings, toolCalls, h + 1, parts', next, total')
        else
          && (parts', next) == Handled(batch, handlers, doing)
          && (Pending(batch) != [] ==>
                AllApply(batch, handlers, doing, settings, toolCalls)
                && total' == TotalAfter(batch, handlers, doing, toolCalls))
  {
    hide Applies, Handled, AllApply, TotalAfter, Charge, PartsOf, Selected, NextBatch, Pending;
    var results := handlers[h].value;
    if Pending(batch) == [] {
      NothingToHandle(batch, handlers[..h], doing);
      NothingToHandle(batch, handlers, doing);
      NothingLeft(batch, results, doing, h);
      assert parts == [] && remaining == batch;
      assert parts + PartsOf(Selected(Pending(batch), results), results, doing, h) == [];
    } else if !Applies(Pending(remaining), results, false, doing, h, settings, total) {
      HandlerFails(batch, handlers, doing, settings, toolCalls, h, parts, remaining, total);
    } else {
      HandlerApplies(batch, handlers, doing, settings, toolCalls, h, parts, remaining, total);
      if Pending(NextBatch(remaining, results, doing, h)) == [] {
        Idle(batch, handlers, doing, settings, toolCalls, h + 1);
      }
    }
  }

  lemma NothingLeft(batch: Batch, results: Results, doing: Doing, h: nat)
    requires Pending(batch) == []
    ensures var selected := Selected(Pending(batch), results);
      selected == [] && PartsOf(selected, results, doing, h) == [] && NextBatch(batch, results, doing, h) == batch
  {}

  lemma {:induction false} NothingToHandle(batch: Batch, handlers: seq<Option<Results>>, doing: Doing)
    requires Pending(batch) == []
    ensures Handled(batch, handlers, doing) == ([], batch)
  {
    if handlers != [] { NothingToHandle(batch, handlers[..|handlers| - 1], doing); }
  }

  /** Each handler in turn sees the remaining batch and may answer some of it. It goes well exactly when all
      results apply, and then the outcome is `Handled`, which conserves every call. */
  method HandleDeferredToolCalls(batch: Batch, handlers: seq<Option<Results>>, doing: Doing, settings: Settings,
                                 toolCalls: nat) returns (ok: bool, parts: seq<Part>, remaining: Batch, total: nat)
    requires forall h :: 0 <= h < |handlers| && handlers[h].Some? ==>
      Behaves(CallSet(Pending(batch)), handlers[h].value, doing, h)
    ensures ok ==> (parts, remaining) == Handled(batch, handlers, doing)
    ensures Pending(batch) != [] ==>
      && (ok <==> AllApply(batch, handlers, doing, settings, toolCalls))
      && (ok ==> total == TotalAfter(batch, handlers, doing, toolCalls))
    ensures settings.limit.Some? && toolCalls <= settings.limit.value ==> total <= settings.limit.value
  {
    hide Behaves, PartsOf, Selected, Kept, AgainOf, Fitting, CallSet, Pending, Applies, Charge, Unstopped, AtHandler,
      AllApply, Handled, TotalAfter;
    ok, parts, remaining, total := true, [], batch, toolCalls;
    var h := 0;
    StartsAtHandler(batch, handlers, doing, settings, toolCalls);
    while h < |handlers|
      invariant 0 <= h <= |handlers| && ok
      invariant AtHandler(batch, handlers, doing, settings, toolCalls, h, parts, remaining, total)
      invariant CallSet(Pending(remaining)) <= CallSet(Pending(batch))
      invariant settings.limit.Some? && toolCalls <= settings.limit.value ==> total <= settings.limit.value
    {
      if handlers[h].Some? {
        var results := handlers[h].value;
        AfterHandler(batch, handlers, doing, settings, toolCalls, h, parts, remaining, total);
        StillBehave(remaining, batch, results, doing, h);
        SameCalls(remaining, results, doing, h);
        NextIs(remaining, results, doing, h);
        var applied;
        var pending := remaining.approvals + remaining.calls;
        applied, total := ApplyDeferredToolResults(pending, results, false, doing, h, settings, total);
        if !applied.Applied? { return false, parts, remaining, total; }
        parts := parts + applied.parts;
        var calls := RemainingRequests(remaining.calls, results);
        var approvals := RemainingRequests(remaining.approvals, results);
        remaining := Batch(calls + applied.again.calls, approvals + applied.again.approvals);
        if remaining.calls == [] && remaining.approvals == [] {
          NothingPending(remaining);
          return ok, parts, remaining, total;
        }
        SomethingPending(remaining);
      } else {
        SkipHandler(batch, handlers, doing, settings, toolCalls, h, parts, remaining, total);
      }
      h := h + 1;
    }
    AtEnd(batch, handlers, doing, settings, toolCalls, parts, remaining, total);
  }

  lemma AtEnd(batch: Batch, handlers: seq<Option<Results>>, doing: Doing, settings: Settings, toolCalls: nat,
              parts: seq<Part>, remaining: Batch, total: nat)
    requires AtHandler(batch, handlers, doing, settings, toolCalls, |handlers|, parts, remaining, total)
    ensures (parts, remaining) == Handled(batch, handlers, doing)
    ensures Pending(batch) != [] ==>
      AllApply(batch, handlers, doing, settings, toolCalls) && total == TotalAfter(batch, handlers, doing, toolCalls)
  {
    assert handlers[..|handlers|] == handlers;
  }

  lemma NothingPending(batch: Batch)
    requires batch.calls == [] && batch.approvals == []
    ensures Pending(batch) == []
  {}

  lemma SomethingPending(batch: Batch)
    requires batch.calls != [] || batch.approvals != []
    ensures Pending(batch) != []
  {}

  lemma StillBehave(remaining: Batch, batch: Batch, results: Results, doing: Doing, h: nat)
    requires CallSet(Pending(remaining)) <= CallSet(Pending(batch))
    requires Behaves(CallSet(Pending(batch)), results, doing, h)
    ensures Behaves(CallSet(remaining.approvals + remaining.calls), results, doing, h)
  {
    assert Pending(remaining) == remaining.approvals + remaining.calls;
    hide Possible;
  }

  lemma NextIs(batch: Batch, results: Results, doing: Doing, h: nat)
    ensures Pending(batch) == batch.approvals + batch.calls
    ensures var selected := Selected(batch.approvals + batch.calls, results);
      NextBatch(batch, results, doing, h)
      == Batch(Kept(batch.calls, results) + AgainOf(selected, ExternalCall, doing, h),
               Kept(batch.approvals, results) + AgainOf(selected, ApprovalNeeded, doing, h))
  {}
}
