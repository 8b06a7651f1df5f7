/** Deferred tool calls and the handlers that resolve some of them: what one handler's results make of
    the pending batch, and what a list of handlers makes of it. */
module DeferredSpec {
  import opened Options
  import opened ExecutorSpec
  import opened ExecutorProofs

  /** A pending call, with the ways its tool may defer and the kind of deferral stored for it. */
  datatype Deferred = Deferred(call: Call, dynamicExternal: bool, dynamicApproval: bool, stored: Option<DeferralKind>)

  datatype Batch = Batch(calls: seq<Deferred>, approvals: seq<Deferred>)

  /** A handler's answers by call ID: external results, approvals (or denials), and metadata. */
  datatype Results = Results(external: set<string>, approvals: map<string, bool>, metadata: set<string>)

  /** What each resolved call does when the given handler's results are applied. */
  type Doing = (nat, string) -> Result

  function Pending(batch: Batch): seq<Deferred> { batch.approvals + batch.calls }

  function Ids(pending: seq<Deferred>): seq<string> {
    if pending == [] then [] else Ids(pending[..|pending| - 1]) + [pending[|pending| - 1].call.id]
  }

  predicate Answers(results: Results, id: string) { id in results.external || id in results.approvals }

  function Resolved(d: Deferred, results: Results): Call {
    if d.call.id in results.external then d.call.(resolution := ResolvedExternally)
    else if d.call.id in results.approvals then
      d.call.(resolution := if results.approvals[d.call.id] then Approved else Denied)
    else d.call
  }

  /** The calls to run, in pending order. */
  function Selected(pending: seq<Deferred>, results: Results): seq<Deferred> {
    if pending == [] then []
    else
      var last := pending[|pending| - 1];
      Selected(pending[..|pending| - 1], results) + if Answers(results, last.call.id) then [last] else []
  }

  function Kept(pending: seq<Deferred>, results: Results): seq<Deferred> {
    if pending == [] then []
    else
      var last := pending[|pending| - 1];
      Kept(pending[..|pending| - 1], results) + if Answers(results, last.call.id) then [] else [last]
  }

  function CallsOf(selected: seq<Deferred>, results: Results): (calls: seq<Call>)
    ensures |calls| == |selected|
  {
    if selected == [] then []
    else CallsOf(selected[..|selected| - 1], results) + [Resolved(selected[|selected| - 1], results)]
  }

  function PartsOf(selected: seq<Deferred>, results: Results, doing: Doing, h: nat): seq<Part> {
    if selected == [] then []
    else
      var last := selected[|selected| - 1];
      var outcome := OutcomeOf(Resolved(last, results), doing(h, last.call.id));
      PartsOf(selected[..|selected| - 1], results, doing, h) + if outcome.part.Some? then [outcome.part.value] else []
  }

  /** The calls that defer again, of the given kind, which is stored with them. */
  function AgainOf(selected: seq<Deferred>, kind: DeferralKind, doing: Doing, h: nat): seq<Deferred> {
    if selected == [] then []
    else
      var last := selected[|selected| - 1];
      AgainOf(selected[..|selected| - 1], kind, doing, h)
      + if doing(h, last.call.id) == Defer(kind) then [last.(stored := Some(kind))] else []
  }

  /** The batch after a handler's results: what it did not answer, then what deferred again. */
  function NextBatch(batch: Batch, results: Results, doing: Doing, h: nat): Batch {
    var selected := Selected(Pending(batch), results);
    Batch(Kept(batch.calls, results) + AgainOf(selected, ExternalCall, doing, h),
          Kept(batch.approvals, results) + AgainOf(selected, ApprovalNeeded, doing, h))
  }

  /** The parts and the batch after the first `n` handlers, some of which give no results. */
  function Handled(batch: Batch, handlers: seq<Option<Results>>, doing: Doing): (seq<Part>, Batch) {
    if handlers == [] then ([], batch)
    else
      var h := |handlers| - 1;
      var (parts, before) := Handled(batch, handlers[..h], doing);
      if handlers[h].None? || Pending(before) == [] then (parts, before)
      else
        var results := handlers[h].value;
        (parts + PartsOf(Selected(Pending(before), results), results, doing, h), NextBatch(before, results, doing, h))
  }

  // ----- conservation -----

  lemma {:induction false} OccurJoin(a: seq<string>, b: seq<string>, id: string)
    ensures Occurrences(a + b, id) == Occurrences(a, id) + Occurrences(b, id)
  {
    if b == [] {
      assert a + b == a;
    } else {
      OccurJoin(a, b[..|b| - 1], id);
      assert (a + b)[..|a + b| - 1] == a + b[..|b| - 1];
    }
  }

  lemma {:induction false} IdsJoin(a: seq<Deferred>, b: seq<Deferred>)
    ensures Ids(a + b) == Ids(a) + Ids(b)
  {
    if b == [] {
      assert a + b == a;
    } else {
      IdsJoin(a, b[..|b| - 1]);
      assert (a + b)[..|a + b| - 1] == a + b[..|b| - 1];
    }
  }

  lemma {:induction false} PartIdsJoin(a: seq<Part>, b: seq<Part>)
    ensures PartIds(a + b) == PartIds(a) + PartIds(b)
  {
    if b == [] {
      assert a + b == a;
    } else {
      PartIdsJoin(a, b[..|b| - 1]);
      assert (a + b)[..|a + b| - 1] == a + b[..|b| - 1];
    }
  }

  function Count(pending: seq<Deferred>, id: string): nat { Occurrences(Ids(pending), id) }

  lemma CountMore(pending: seq<Deferred>, d: Deferred, id: string)
    ensures Count(pending + [d], id) == Count(pending, id) + if d.call.id == id then 1 else 0
  {
    assert (pending + [d])[..|pending|] == pending;
    MoreOccur(Ids(pending), d.call.id, id);
  }

  lemma {:induction false} CountJoin(a: seq<Deferred>, b: seq<Deferred>, id: string)
    ensures Count(a + b, id) == Count(a, id) + Count(b, id)
  {
    IdsJoin(a, b);
    OccurJoin(Ids(a), Ids(b), id);
  }

  lemma {:induction false} KeptOrSelected(pending: seq<Deferred>, results: Results, id: string)
    ensures Count(Kept(pending, results), id) == if Answers(results, id) then 0 else Count(pending, id)
    ensures Count(Selected(pending, results), id) == if Answers(results, id) then Count(pending, id) else 0
  {
    hide Count;
    if pending == [] {
      NothingCounted(id);
    } else {
      var front, last := pending[..|pending| - 1], pending[|pending| - 1];
      assert pending == front + [last];
      KeptOrSelected(front, results, id);
      CountMore(front, last, id);
      CountMore(Kept(front, results), last, id);
      CountMore(Selected(front, results), last, id);
      Unchanged(Kept(front, results));
      Unchanged(Selected(front, results));
    }
  }

  lemma Unchanged(pending: seq<Deferred>)
    ensures pending + [] == pending
  {}

  lemma NothingCounted(id: string)
    ensures Count([], id) == 0
  {}

  predicate Settles(result: Result) { Finishes(result) && !result.Defer? }

  /** Each selected call yields a part or defers again, depending only on what it does. */
  lemma {:induction false} SelectedEnds(selected: seq<Deferred>, results: Results, doing: Doing, h: nat, id: string)
    requires Finishes(doing(h, id))
    ensures Occurrences(PartIds(PartsOf(selected, results, doing, h)), id)
         == if Settles(doing(h, id)) then Count(selected, id) else 0
    ensures Count(AgainOf(selected, ExternalCall, doing, h), id)
      + Count(AgainOf(selected, ApprovalNeeded, doing, h), id)
         == if Settles(doing(h, id)) then 0 else Count(selected, id)
  {
    hide Count, Occurrences, PartIds;
    if selected == [] {
      NothingCounted(id);
      NoIds();
      NoneOccur(id);
    } else {
      var front, last := selected[..|selected| - 1], selected[|selected| - 1];
      assert selected == front + [last];
      SelectedEnds(front, results, doing, h, id);
      CountMore(front, last, id);
      OneAgain(front, last, ExternalCall, doing, h, id);
      OneAgain(front, last, ApprovalNeeded, doing, h, id);
      if last.call.id == id && doing(h, id).Defer? {
        assert doing(h, id).kind == ExternalCall || doing(h, id).kind == ApprovalNeeded;
      }
      OnePart(front, last, results, doing, h, id);
    }
  }

  lemma {:induction false} OneAgain(front: seq<Deferred>, last: Deferred, kind: DeferralKind, doing: Doing, h: nat,
                                    id: string)
    ensures Count(AgainOf(front + [last], kind, doing, h), id)
         == Count(AgainOf(front, kind, doing, h), id)
            + if last.call.id == id && doing(h, id) == Defer(kind) then 1 else 0
  {
    hide Count;
    assert (front + [last])[..|front|] == front;
    if doing(h, last.call.id) == Defer(kind) {
      CountMore(AgainOf(front, kind, doing, h), last.(stored := Some(kind)), id);
    } else {
      Unchanged(AgainOf(front, kind, doing, h));
    }
  }

  lemma PartOfCall(d: Deferred, results: Results, result: Result)
    ensures var part := OutcomeOf(Resolved(d, results), result).part;
      (part.Some? ==> part.value.id == d.call.id) && (Finishes(result) ==> (part.Some? <==> Settles(result)))
  {}

  lemma {:induction false} OnePart(front: seq<Deferred>, last: Deferred, results: Results, doing: Doing, h: nat,
                                   id: string)
    requires Finishes(doing(h, id))
    ensures Occurrences(PartIds(PartsOf(front + [last], results, doing, h)), id)
         == Occurrences(PartIds(PartsOf(front, results, doing, h)), id)
            + if last.call.id == id && Settles(doing(h, id)) then 1 else 0
  {
    hide Occurrences, PartIds, OutcomeOf, Resolved, Settles, Finishes;
    assert (front + [last])[..|front|] == front;
    PartOfCall(last, results, doing(h, last.call.id));
    var outcome := OutcomeOf(Resolved(last, results), doing(h, last.call.id));
    if outcome.part.Some? {
      MoreIds(PartsOf(front, results, doing, h), outcome.part.value);
      MoreOccur(PartIds(PartsOf(front, results, doing, h)), outcome.part.value.id, id);
    } else {
      assert PartsOf(front, results, doing, h) + [] == PartsOf(front, results, doing, h);
    }
  }

  ghost predicate AllFinished(doing: Doing) { forall h, id :: Finishes(doing(h, id)) }

  /** One handler moves calls from the batch to the parts, and loses or repeats none. */
  lemma {:induction false} StepConserves(batch: Batch, results: Results, doing: Doing, h: nat, id: string)
    requires AllFinished(doing)
    ensures var parts := PartsOf(Selected(Pending(batch), results), results, doing, h);
      var after := Pending(NextBatch(batch, results, doing, h));
      && Count(after, id) + Occurrences(PartIds(parts), id) == Count(Pending(batch), id)
      && (Occurrences(PartIds(parts), id)
          == if Answers(results, id) && Settles(doing(h, id)) then Count(Pending(batch), id) else 0)
  {
    hide Count, Occurrences, PartIds;
    var selected := Selected(Pending(batch), results);
    var next := NextBatch(batch, results, doing, h);
    KeptOrSelected(batch.calls, results, id);
    KeptOrSelected(batch.approvals, results, id);
    KeptOrSelected(Pending(batch), results, id);
    SelectedEnds(selected, results, doing, h, id);
    CountJoin(batch.approvals, batch.calls, id);
    CountJoin(next.approvals, next.calls, id);
    CountJoin(Kept(batch.calls, results), AgainOf(selected, ExternalCall, doing, h), id);
    CountJoin(Kept(batch.approvals, results), AgainOf(selected, ApprovalNeeded, doing, h), id);
  }

  /** Over any list of handlers, including calls that defer again: every ID occurs among the result parts
      and the remaining batch together exactly as often as in the batch at first. */
  lemma {:induction false} HandlersConserve(batch: Batch, handlers: seq<Option<Results>>, doing: Doing, id: string)
    requires AllFinished(doing)
    ensures var (parts, remaining) := Handled(batch, handlers, doing);
      Occurrences(PartIds(parts), id) + Count(Pending(remaining), id) == Count(Pending(batch), id)
  {
    hide Count, Occurrences, PartIds, PartsOf, NextBatch, Pending, AllFinished;
    if handlers == [] {
      NoIds();
      NoneOccur(id);
    } else {
      var h := |handlers| - 1;
      HandlersConserve(batch, handlers[..h], doing, id);
      var (parts, before) := Handled(batch, handlers[..h], doing);
      if handlers[h].Some? && Pending(before) != [] {
        var results := handlers[h].value;
        StepConserves(before, results, doing, h, id);
        var more := PartsOf(Selected(Pending(before), results), results, doing, h);
        PartIdsJoin(parts, more);
        OccurJoin(PartIds(parts), PartIds(more), id);
      }
    }
  }

  /** Some handler answered the call, and it did not defer again. */
  predicate AnsweredForGood(handlers: seq<Option<Results>>, doing: Doing, id: string) {
    exists h :: 0 <= h < |handlers| && handlers[h].Some? && Answers(handlers[h].value, id) && Settles(doing(h, id))
  }

  /** A pending call ends with its one result part exactly when a handler answered it for good; otherwise
      it is still pending, once. */
  lemma {:induction false} EachCallIsAnsweredOrRemains(batch: Batch, handlers: seq<Option<Results>>, doing: Doing,
                                                       id: string)
    requires AllFinished(doing) && Count(Pending(batch), id) == 1
    ensures var (parts, remaining) := Handled(batch, handlers, doing);
      if AnsweredForGood(handlers, doing, id) then
        Occurrences(PartIds(parts), id) == 1 && Count(Pending(remaining), id) == 0
      else
        Occurrences(PartIds(parts), id) == 0 && Count(Pending(remaining), id) == 1
  {
    hide Count, Occurrences, PartIds, PartsOf, NextBatch, Pending, AllFinished, Settles;
    HandlersConserve(batch, handlers, doing, id);
    if handlers == [] {
      NoIds();
      NoneOccur(id);
    } else {
      var h := |handlers| - 1;
      EachCallIsAnsweredOrRemains(batch, handlers[..h], doing, id);
      GoodSoFar(handlers, doing, id);
      var (parts, before) := Handled(batch, handlers[..h], doing);
      if Pending(before) == [] { NothingCounted(id); }
      if handlers[h].Some? && Pending(before) != [] {
        var results := handlers[h].value;
        StepConserves(before, results, doing, h, id);
        var more := PartsOf(Selected(Pending(before), results), results, doing, h);
        PartIdsJoin(parts, more);
        OccurJoin(PartIds(parts), PartIds(more), id);
      }
    }
  }

  lemma GoodSoFar(handlers: seq<Option<Results>>, doing: Doing, id: string)
    requires handlers != []
    ensures var h := |handlers| - 1;
      AnsweredForGood(handlers, doing, id) <==>
        AnsweredForGood(handlers[..h], doing, id)
        || (handlers[h].Some? && Answers(handlers[h].value, id) && Settles(doing(h, id)))
  {
    var h := |handlers| - 1;
    if AnsweredForGood(handlers[..h], doing, id) {
      var k :| 0 <= k < h && handlers[..h][k].Some? && Answers(handlers[..h][k].value, id) && Settles(doing(k, id));
      assert handlers[k].Some?;
    }
    if AnsweredForGood(handlers, doing, id) {
      var k :| 0 <= k < |handlers| && handlers[k].Some? && Answers(handlers[k].value, id) && Settles(doing(k, id));
      if k < h { assert handlers[..h][k].Some?; }
    }
  }
}
