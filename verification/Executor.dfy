/** Running the calls: sequential barriers, parallel batches whose calls start and end in any order, and
    the counter the limit is checked against. */
module Executor {
  import opened Options
  import opened ExecutorSpec
  import opened ExecutorProofs
  import opened FinalContents

  datatype Mark = Started(call: nat) | Ended(call: nat)

  // ----- orders of starts and ends -----

  /** Every call of the group starts and ends within the marks, once, and no other call does. */
  ghost predicate RunsGroup(marks: seq<Mark>, group: seq<nat>) {
    && (forall p :: 0 <= p < |marks| ==> marks[p].call in group)
    && (forall i :: i in group ==> Started(i) in marks && Ended(i) in marks)
    && (forall p, q :: 0 <= p < q < |marks| ==> marks[p] != marks[q])
    && (forall p :: 0 <= p < |marks| && marks[p].Ended? ==> Started(marks[p].call) in marks[..p])
  }

  /** Whatever comes before a call in the list has ended when the call starts, if either must run alone. */
  ghost predicate BarriersKept(marks: seq<Mark>, list: seq<nat>, alone: nat -> bool) {
    forall p, x, y :: (0 <= p < |marks| && 0 <= x < y < |list| && marks[p] == Started(list[y])
                       && (alone(list[x]) || alone(list[y]))) ==> Ended(list[x]) in marks[..p]
  }

  ghost predicate Distinct(list: seq<nat>) { forall x, y :: 0 <= x < y < |list| ==> list[x] != list[y] }

  /** A batch, in which nothing must run alone unless it is the only one, follows what has ended. */
  lemma {:induction false} AddGroup(marks: seq<Mark>, list: seq<nat>, more: seq<Mark>, group: seq<nat>,
                                    alone: nat -> bool)
    requires RunsGroup(marks, list) && BarriersKept(marks, list, alone) && RunsGroup(more, group)
    requires Distinct(list + group)
    requires |group| <= 1 || forall i :: i in group ==> !alone(i)
    ensures RunsGroup(marks + more, list + group) && BarriersKept(marks + more, list + group, alone)
  {
    AddRun(marks, list, more, group);
    var all, both := marks + more, list + group;
    hide RunsGroup, BarriersKept;
    forall p, x, y | 0 <= p < |all| && 0 <= x < y < |both| && all[p] == Started(both[y])
      && (alone(both[x]) || alone(both[y])) ensures Ended(both[x]) in all[..p]
    {
      EndedBefore(marks, list, more, group, alone, p, x, y);
    }
    KeptAt(all, both, alone);
  }

  lemma KeptAt(marks: seq<Mark>, list: seq<nat>, alone: nat -> bool)
    requires forall p, x, y :: (0 <= p < |marks| && 0 <= x < y < |list| && marks[p] == Started(list[y])
                                && (alone(list[x]) || alone(list[y]))) ==> Ended(list[x]) in marks[..p]
    ensures BarriersKept(marks, list, alone)
  {}

  lemma {:induction false} EndedBefore(marks: seq<Mark>, list: seq<nat>, more: seq<Mark>, group: seq<nat>,
                                       alone: nat -> bool, p: nat, x: nat, y: nat)
    requires RunsGroup(marks, list) && BarriersKept(marks, list, alone) && RunsGroup(more, group)
    requires Distinct(list + group)
    requires |group| <= 1 || forall i :: i in group ==> !alone(i)
    requires p < |marks + more| && x < y < |list + group| && (marks + more)[p] == Started((list + group)[y])
    requires alone((list + group)[x]) || alone((list + group)[y])
    ensures Ended((list + group)[x]) in (marks + more)[..p]
  {
    var all, both := marks + more, list + group;
    InBoth(list, group, y, both[y]);
    if p < |marks| {
      assert marks[p].call in list;
      assert all[..p] == marks[..p];
    } else {
      assert more[p - |marks|].call in group;
      assert all[..p] == marks + more[..p - |marks|];
      if x < |list| { assert Ended(list[x]) in marks; }
    }
  }

  lemma InBoth(list: seq<nat>, group: seq<nat>, y: nat, i: nat)
    requires Distinct(list + group) && y < |list + group| && (list + group)[y] == i
    ensures (y < |list| ==> i !in group) && (y >= |list| ==> i !in list)
  {
    var both := list + group;
    forall z | 0 <= z < |group| && y < |list| ensures group[z] != i { assert both[|list| + z] == group[z]; }
    forall z | 0 <= z < |list| && y >= |list| ensures list[z] != i { assert both[z] == list[z]; }
  }

  lemma {:induction false} AddRun(marks: seq<Mark>, list: seq<nat>, more: seq<Mark>, group: seq<nat>)
    requires RunsGroup(marks, list) && RunsGroup(more, group) && Distinct(list + group)
    ensures RunsGroup(marks + more, list + group)
  {
    var all, both := marks + more, list + group;
    forall p, q | 0 <= p < q < |all| ensures all[p] != all[q] {
      if p < |marks| <= q {
        assert marks[p].call in list && more[q - |marks|].call in group;
        var y :| 0 <= y < |list| && list[y] == marks[p].call;
        InBoth(list, group, y, marks[p].call);
      }
    }
    forall p | 0 <= p < |all| && all[p].Ended? ensures Started(all[p].call) in all[..p] {
      if p < |marks| {
        assert all[..p] == marks[..p];
      } else {
        assert all[..p] == marks + more[..p - |marks|];
      }
    }
    assert forall i :: i in both ==> i in list || i in group;
  }

  lemma {:induction false} StartBeforeEnd(marks: seq<Mark>, list: seq<nat>, i: nat, s: nat, e: nat)
    requires RunsGroup(marks, list) && s < |marks| && e < |marks| && marks[s] == Started(i) && marks[e] == Ended(i)
    ensures s < e
  {
    assert Started(i) in marks[..e];
  }

  /** No mark of another call lies between the two of a call that must run alone. */
  lemma {:induction false} MarkOutside(marks: seq<Mark>, list: seq<nat>, alone: nat -> bool, p: nat, q: nat, i: nat,
                                       r: nat)
    requires RunsGroup(marks, list) && BarriersKept(marks, list, alone) && Distinct(list) && alone(i)
    requires p < |marks| && q < |marks| && r < |marks| && r != p && r != q
    requires marks[p] == Started(i) && marks[q] == Ended(i)
    ensures r < p || q < r
  {
    var j := marks[r].call;
    var x :| 0 <= x < |list| && list[x] == i;
    var y :| 0 <= y < |list| && list[y] == j;
    var s :| 0 <= s < |marks| && marks[s] == Started(j);
    var e :| 0 <= e < |marks| && marks[e] == Ended(j);
    StartBeforeEnd(marks, list, j, s, e);
    assert r == s || r == e;
    hide RunsGroup;
    if y < x {
      EndedFirst(marks, list, alone, y, x, e, p);
    } else if x < y {
      EndedFirst(marks, list, alone, x, y, q, s);
    }
  }

  lemma EndedFirst(marks: seq<Mark>, list: seq<nat>, alone: nat -> bool, x: nat, y: nat, e: nat, s: nat)
    requires BarriersKept(marks, list, alone) && x < y < |list| && e < |marks| && s < |marks|
    requires forall p, q :: 0 <= p < q < |marks| ==> marks[p] != marks[q]
    requires marks[e] == Ended(list[x]) && marks[s] == Started(list[y]) && (alone(list[x]) || alone(list[y]))
    ensures e < s
  {
    assert Ended(list[x]) in marks[..s];
  }

  // ----- the executor -----

  predicate InRange(list: seq<nat>, n: nat) { forall x :: 0 <= x < |list| ==> list[x] < n }

  ghost function SetOf(list: seq<nat>): set<nat> { set i | i in list }

  datatype Status = Completed | Failed | OverLimit

  datatype Answered = DuplicateId | LimitExceeded | Failed | Done(collected: Collected)

  /** The calls of one response and what they do when run. */
  class Executor {
    const calls: seq<Call>
    const results: nat -> Result
    const strategy: Strategy
    const sequentialTools: bool
    const limit: Option<nat>
    const streamed: Option<nat>  // the call whose output the caller already has
    var toolCalls: nat
    var trace: seq<Mark>
    ghost const before: nat
    ghost var list: seq<nat>

    /** The order in which the strategy takes up calls: early sees to output calls first. */
    predicate Precedes(i: nat, j: nat) {
      i < |calls| && j < |calls|
      && if strategy == Early && calls[i].output != calls[j].output then calls[i].output else i < j
    }

    ghost predicate Ordered(list: seq<nat>) { forall x, y :: 0 <= x < y < |list| ==> Precedes(list[x], list[y]) }

    lemma OrderedDistinct(list: seq<nat>)
      requires Ordered(list)
      ensures Distinct(list)
    {}

    /** What is known between any two steps of the scheduler, not of the calls. */
    ghost predicate Valid()
      reads this
    {
      && Ordered(list) && InRange(list, |calls|)
      && RunsGroup(trace, list) && BarriersKept(trace, list, Alone)
      && toolCalls == before + |CountedCalls(calls, results, SetOf(list))|
    }

    constructor (calls: seq<Call>, results: nat -> Result, strategy: Strategy, sequentialTools: bool,
                 limit: Option<nat>, streamed: Option<nat>, toolCalls: nat)
      ensures Valid() && list == [] && this.calls == calls && this.results == results && this.strategy == strategy
      ensures this.sequentialTools == sequentialTools && this.limit == limit && this.streamed == streamed
      ensures this.toolCalls == toolCalls && this.before == toolCalls
    {
      this.calls, this.results, this.strategy, this.sequentialTools := calls, results, strategy, sequentialTools;
      this.limit, this.streamed, this.toolCalls, this.trace := limit, streamed, toolCalls, [];
      this.before, this.list := toolCalls, [];
    }

    predicate IsBarrier(call: Call, outputToolsConcurrent: bool) {
      sequentialTools || call.sequential || (call.output && !outputToolsConcurrent)
    }

    predicate Alone(i: nat) {
      i < |calls| && (IsBarrier(calls[i], true) || (calls[i].output && strategy != Exhaustive))
    }

    function OutcomeAt(i: nat): Outcome
      requires i < |calls|
    {
      if streamed.Some? then CommittedOutcome(calls[i], results(i)) else OutcomeOf(calls[i], results(i))
    }

    function RestAt(i: nat): Outcome
      requires i < |calls|
    {
      if streamed.Some? then CommittedAnswer(calls[i], streamed == Some(i)) else Skipped(calls[i])
    }

    method StartCall(i: nat)
      modifies this`trace
      ensures trace == old(trace) + [Started(i)]
    {
      trace := trace + [Started(i)];
    }

    method EndCall(outcomes: array<Outcome>, i: nat)
      requires outcomes.Length == |calls| && i < |calls|
      modifies this`trace, this`toolCalls, outcomes
      ensures trace == old(trace) + [Ended(i)] && outcomes[..] == old(outcomes[..])[i := OutcomeAt(i)]
      ensures toolCalls == old(toolCalls) + if Counts(calls[i], OutcomeOf(calls[i], results(i))) then 1 else 0
    {
      outcomes[i] := OutcomeAt(i);
      if Counts(calls[i], OutcomeOf(calls[i], results(i))) { toolCalls := toolCalls + 1; }
      trace := trace + [Ended(i)];
    }

    /** Runs the calls of a batch together: any of them may start or end next. */
    method RunTogether(outcomes: array<Outcome>, batch: seq<nat>)
      requires Valid() && outcomes.Length == |calls| && Ordered(list + batch) && InRange(batch, |calls|)
      requires |batch| <= 1 || forall i :: i in batch ==> !Alone(i)
      modifies this`trace, this`toolCalls, this`list, outcomes
      ensures Valid() && list == old(list) + batch
      ensures forall i :: 0 <= i < |calls| ==> outcomes[i] == if i in batch then OutcomeAt(i) else old(outcomes[i])
    {
      hide RunsGroup, BarriersKept, Ordered, Distinct, Counts, Underway, InRange, OutcomeOf, CommittedOutcome, SetOf,
        Left, Total;
      var waiting, running := set i | i in batch, {};
      ghost var more: seq<Mark> := [];
      ghost var done: set<nat> := {};
      OrderedDistinct(list + batch);
      BatchBegins(batch);
      NoneDone(calls, results, list);
      while waiting + running != {}
        invariant Underway(batch, more, waiting, running, done)
        invariant trace == old(trace) + more && list == old(list)
        invariant forall i :: 0 <= i < |calls| ==> outcomes[i] == if i in done then OutcomeAt(i) else old(outcomes[i])
        invariant toolCalls == before + Total(calls, results, list, done)
        decreases Left(waiting, running)
      {
        var start: bool := *;
        if waiting != {} && (running == {} || start) {
          var i :| i in waiting;
          CallStarts(batch, more, waiting, running, done, i);
          StartCall(i);
          more := more + [Started(i)];
          waiting, running := waiting - {i}, running + {i};
        } else {
          var i :| i in running;
          CallEnds(batch, more, waiting, running, done, i);
          BatchInRange(batch, |calls|, i);
          CountOne(calls, results, list, batch, done, i);
          EndCall(outcomes, i);
          more := more + [Ended(i)];
          done, running := done + {i}, running - {i};
        }
      }
      BatchEnds(batch, more, waiting, running, done);
      BatchCounted(calls, results, list, batch, done);
      AddGroup(old(trace), old(list), more, batch, Alone);
      BothInRange(list, batch, |calls|);
      list := list + batch;
    }

    /** The calls run so far have their outcomes. */
    ghost predicate Recorded(outcomes: array<Outcome>)
      reads this, outcomes
    {
      outcomes.Length == |calls| && forall i :: 0 <= i < |calls| && i in list ==> outcomes[i] == OutcomeAt(i)
    }

    /** Calls not run keep the outcome they had. */
    twostate predicate OthersKept(outcomes: array<Outcome>)
      reads this, outcomes
    {
      forall i :: 0 <= i < outcomes.Length && i !in list ==> outcomes[i] == old(outcomes[i])
    }

    ghost predicate NoFailure()
      reads this
    {
      forall i :: 0 <= i < |calls| && i in list ==> !OutcomeAt(i).failed
    }

    /** After a failure only the failed call's own batch goes on: nothing that must run alone, so no later
        batch either, comes after it. */
    ghost predicate Halts()
      reads this
    {
      forall x, y :: 0 <= x < y < |list| && list[x] < |calls| && OutcomeAt(list[x]).failed ==>
        !Alone(list[x]) && !Alone(list[y])
    }

    lemma NoFailureHalts()
      requires NoFailure()
      ensures Halts()
    {}

    lemma BatchHalts(first: seq<nat>, batch: seq<nat>)
      requires list == first + batch && (|batch| <= 1 || forall i :: i in batch ==> !Alone(i))
      requires forall i :: 0 <= i < |calls| && i in first ==> !OutcomeAt(i).failed
      ensures Halts()
    {
      hide OutcomeOf, CommittedOutcome, Alone;
    }

    lemma SliceGrows(indexes: seq<nat>, a: nat, b: nat)
      requires a <= b < |indexes|
      ensures indexes[a..b + 1] == indexes[a..b] + [indexes[b]]
    {}

    lemma SlicePrefix(first: seq<nat>, indexes: seq<nat>, k: nat)
      requires k <= |indexes|
      ensures first + indexes[..k] <= first + indexes
    {}

    /** The calls the strategy takes up when nothing fails, in the order it takes them up. */
    ghost function Plan(): seq<nat> {
      if streamed.Some? then Select(|calls|, CommittedRuns)
      else
        match strategy
        case Early =>
          Select(|calls|, OutputRunsHere) + if Candidate(calls, results).None? then Select(|calls|, IsFunction) else []
        case Graceful => Select(|calls|, RunsHere)
        case Exhaustive => Select(|calls|, Any)
    }

    /** The counter when the limit is checked: the early strategy has run its output calls by then. */
    ghost function AtCheck(): nat {
      before + if strategy == Early then |CountedCalls(calls, results, SetOf(Select(|calls|, OutputRunsHere)))| else 0
    }

    /** The functions expected to count do not fit the limit any more. */
    ghost predicate TooMany() { limit.Some? && AtCheck() + |ExpectedCalls(calls, |calls|)| > limit.value }

    /** A batch of one runs in place; either way failures are looked for at the end. */
    method ExecuteIndexBatch(outcomes: array<Outcome>, batch: seq<nat>) returns (failed: bool)
      requires Valid() && Recorded(outcomes) && NoFailure() && Ordered(list + batch) && InRange(batch, |calls|)
      requires |batch| <= 1 || forall i :: i in batch ==> !Alone(i)
      modifies this`trace, this`toolCalls, this`list, outcomes
      ensures Valid() && list == old(list) + batch && Recorded(outcomes) && OthersKept(outcomes)
      ensures Halts() && (failed <==> !NoFailure())
    {
      hide RunsGroup, BarriersKept, CountedCalls, Ordered, OutcomeOf, CommittedOutcome;
      RunTogether(outcomes, batch);
      failed := false;
      var k := 0;
      while k < |batch|
        invariant 0 <= k <= |batch| && (failed <==> exists x :: 0 <= x < k && outcomes[batch[x]].failed)
      {
        if outcomes[batch[k]].failed { failed := true; }
        k := k + 1;
      }
      assert forall x :: 0 <= x < |batch| ==> batch[x] in batch;
      BatchHalts(old(list), batch);
    }

    /** Barriers run alone, after the batch before them has ended and before the next begins. */
    method ExecuteSelected(outcomes: array<Outcome>, indexes: seq<nat>, outputToolsConcurrent: bool)
      returns (failed: bool)
      requires Valid() && Recorded(outcomes) && NoFailure() && Ordered(list + indexes) && InRange(indexes, |calls|)
      requires forall i :: i in indexes && i < |calls| ==> Alone(i) == IsBarrier(calls[i], outputToolsConcurrent)
      modifies this`trace, this`toolCalls, this`list, outcomes
      ensures Valid() && Recorded(outcomes) && OthersKept(outcomes) && (failed <==> !NoFailure())
      ensures Halts() && list <= old(list) + indexes && (!failed ==> list == old(list) + indexes)
    {
      hide Valid, Recorded, NoFailure, Halts, Alone, Ordered, InRange, IsBarrier;
      var batch: seq<nat> := [];
      var k := 0;
      ghost var first := list;
      SliceOrdered(first, indexes, 0, 0);
      while k < |indexes|
        invariant |batch| <= k <= |indexes| && batch == indexes[k - |batch|..k]
        invariant list == first + indexes[..k - |batch|]
        invariant Valid() && Recorded(outcomes) && NoFailure() && OthersKept(outcomes)
        invariant forall i :: i in batch ==> !Alone(i)
      {
        ghost var flushed := k - |batch|;
        SliceInRange(indexes, |calls|, flushed, k);
        SliceOrdered(first, indexes, flushed, k);
        SlicePrefix(first, indexes, k);
        SlicePrefix(first, indexes, k + 1);
        assert indexes[k] in indexes;
        if !IsBarrier(calls[indexes[k]], outputToolsConcurrent) {
          SliceGrows(indexes, flushed, k);
          batch := batch + [indexes[k]];
        } else {
          failed := ExecuteIndexBatch(outcomes, batch);
          if failed { return; }
          batch := [];
          SliceInRange(indexes, |calls|, k, k + 1);
          SliceOrdered(first, indexes, k, k + 1);
          assert indexes[k..k + 1] == [indexes[k]];
          failed := ExecuteIndexBatch(outcomes, [indexes[k]]);
          if failed { return; }
        }
        k := k + 1;
      }
      SliceInRange(indexes, |calls|, k - |batch|, k);
      SliceOrdered(first, indexes, k - |batch|, k);
      assert indexes[..k] == indexes;
      failed := ExecuteIndexBatch(outcomes, batch);
    }

    predicate IsFunction(i: nat) { i < |calls| && !calls[i].output }

    predicate RunsHere(i: nat) { i < |calls| && Runs(strategy, calls, results, i) }

    predicate OutputRunsHere(i: nat) { RunsHere(i) && calls[i].output }

    predicate Any(i: nat) { true }

    /** Counts the calls that may still count before any function runs. */
    method CheckToolCallLimit() returns (within: bool)
      ensures within <==> limit.None? || toolCalls + |ExpectedCalls(calls, |calls|)| <= limit.value
    {
      hide Expected;
      if limit.None? { return true; }
      var pending, k := 0, 0;
      while k < |calls|
        invariant 0 <= k <= |calls| && pending == |ExpectedCalls(calls, k)|
      {
        MoreExpected(calls, k);
        if Expected(calls[k]) { pending := pending + 1; }
        k := k + 1;
      }
      within := toolCalls + pending <= limit.value;
    }

    /** Every index whose call was not run holds the text that says so. */
    ghost predicate RestSkipped(outcomes: array<Outcome>, n: nat, also: seq<nat>)
      reads this, outcomes
    {
      outcomes.Length == |calls| && n <= |calls|
      && forall i :: 0 <= i < n && i !in list && i !in also ==> outcomes[i] == RestAt(i)
    }

    lemma AllSettled(outcomes: array<Outcome>)
      requires Recorded(outcomes) && RestSkipped(outcomes, |calls|, []) && streamed.None?
      requires forall i :: 0 <= i < |calls| ==> (i in list <==> RunsHere(i))
      ensures Settled(strategy, calls, results, outcomes[..])
    {
      hide Runs;
    }

    method ExecuteCallsExhaustive(outcomes: array<Outcome>) returns (status: Status)
      requires Valid() && list == [] && outcomes.Length == |calls| && strategy == Exhaustive
      requires AllPossible(calls, results) && streamed.None?
      modifies this`trace, this`toolCalls, this`list, outcomes
      ensures Valid() && Recorded(outcomes) && (status == Status.Failed <==> !NoFailure())
      ensures (status == OverLimit <==> TooMany()) && (TooMany() ==> list == [])
      ensures Halts() && list <= Plan() && (status == Completed ==> list == Plan())
      ensures NoClash(calls) && limit.Some? && before <= limit.value ==> toolCalls <= limit.value
      ensures status == Completed ==> Settled(strategy, calls, results, outcomes[..])
    {
      hide Valid, NoFailure, Halts, RunsGroup, BarriersKept, Ordered, InRange, Runs, Candidate, OutcomeOf,
        CommittedOutcome, AllPossible, CountedCalls, ExpectedCalls, Settled;
      NothingRun();
      NoFailureHalts();
      var within := CheckToolCallLimit();
      if !within { return OverLimit; }
      var indexes, k := [], 0;
      while k < |calls|
        invariant 0 <= k <= |calls| && indexes == Select(k, Any)
      {
        indexes := indexes + [k];
        k := k + 1;
      }
      AllFollow(indexes);
      var failed := ExecuteSelected(outcomes, indexes, true);
      CountedWithin();
      if failed { return Status.Failed; }
      AllRan(outcomes);
      status := Completed;
    }

    /** Ends the batch, then runs call `k` alone or skips it. */
    method FlushThenRun(outcomes: array<Outcome>, batch: seq<nat>, k: nat, skip: bool) returns (failed: bool)
      requires Valid() && Recorded(outcomes) && NoFailure() && RestSkipped(outcomes, k, batch) && k < |calls|
      requires Ordered(list + batch) && InRange(batch, |calls|) && forall i :: i in batch ==> !Alone(i)
      requires Ordered(list + batch + [k])
      modifies this`trace, this`toolCalls, this`list, outcomes
      ensures Valid() && Recorded(outcomes) && (failed <==> !NoFailure())
      ensures !failed ==> RestSkipped(outcomes, k + 1, [])
      ensures Halts() && list <= old(list) + batch + (if skip then [] else [k])
      ensures !failed ==> list == old(list) + batch + if skip then [] else [k]
    {
      hide Valid, NoFailure, Halts, RunsGroup, BarriersKept, Ordered, Alone, Counts, OutcomeOf, CommittedOutcome,
        CountedCalls;
      failed := ExecuteIndexBatch(outcomes, batch);
      if failed { return; }
      if skip {
        NotIn(k);
        outcomes[k] := RestAt(k);
        assert list == old(list) + batch + [];
      } else {
        failed := ExecuteIndexBatch(outcomes, [k]);
      }
    }

    method FlushLast(outcomes: array<Outcome>, batch: seq<nat>) returns (failed: bool)
      requires Valid() && Recorded(outcomes) && NoFailure() && RestSkipped(outcomes, |calls|, batch)
      requires Ordered(list + batch) && InRange(batch, |calls|) && forall i :: i in batch ==> !Alone(i)
      modifies this`trace, this`toolCalls, this`list, outcomes
      ensures Valid() && Recorded(outcomes) && (failed <==> !NoFailure())
      ensures Halts() && RestSkipped(outcomes, |calls|, []) && list == old(list) + batch
    {
      hide Valid, NoFailure, Halts, RunsGroup, BarriersKept, Ordered, Alone, Counts, OutcomeOf, CommittedOutcome,
        CountedCalls;
      failed := ExecuteIndexBatch(outcomes, batch);
    }

    /** Function tools run in batches between output calls, which run one by one until one yields output. */
    method ExecuteCallsGraceful(outcomes: array<Outcome>) returns (status: Status)
      requires Valid() && list == [] && outcomes.Length == |calls| && strategy == Graceful
      requires AllPossible(calls, results) && streamed.None?
      modifies this`trace, this`toolCalls, this`list, outcomes
      ensures Valid() && Recorded(outcomes) && (status == Status.Failed <==> !NoFailure())
      ensures (status == OverLimit <==> TooMany()) && (TooMany() ==> list == [])
      ensures Halts() && list <= Plan() && (status == Completed ==> list == Plan())
      ensures NoClash(calls) && limit.Some? && before <= limit.value ==> toolCalls <= limit.value
      ensures status == Completed ==> Settled(strategy, calls, results, outcomes[..])
    {
      hide Valid, NoFailure, Halts, RunsGroup, BarriersKept, Ordered, InRange, Runs, Candidate, Select, ExpectedCalls,
        OutcomeOf, AllPossible, Alone, IsBarrier, RestSkipped, Skipped;
      NothingRun();
      NoFailureHalts();
      var within := CheckToolCallLimit();
      if !within { return OverLimit; }
      var batch: seq<nat> := [];
      var winner: Option<string> := None;
      var k := 0;
      NoCandidateYet(calls, results);
      SelectNone(RunsHere);
      NoneSkipped(outcomes);
      while k < |calls|
        invariant 0 <= k <= |calls| && list + batch == Select(k, RunsHere)
        invariant Valid() && Recorded(outcomes) && NoFailure() && RestSkipped(outcomes, k, batch)
        invariant forall i :: i in batch ==> i < k && !Alone(i)
        invariant winner.Some? <==> Candidate(calls[..k], results).Some?
      {
        SelectOrdered(k);
        SelectPrefix(k + 1, |calls|, RunsHere);
        BatchRange(list, batch, k, |calls|);
        CandidateNext(calls, results, k);
        NextRuns(k);
        if !calls[k].output && !IsBarrier(calls[k], true) {
          assert list + (batch + [k]) == list + batch + [k];
          JoinsBatch(outcomes, k, batch);
          batch := batch + [k];
        } else {
          SelectOrdered(k);
          var failed := FlushThenRun(outcomes, batch, k, calls[k].output && winner.Some?);
          CountedWithin();
          if failed { return Status.Failed; }
          batch := [];
          assert list + batch == list;
          OutputKnown(calls, results, k);
          if calls[k].output && winner.None? && outcomes[k].output.Some? { winner := outcomes[k].output; }
        }
        k := k + 1;
      }
      SelectOrdered(k);
      BatchRange(list, batch, k, |calls|);
      var failed := FlushLast(outcomes, batch);
      CountedWithin();
      if failed { return Status.Failed; }
      AllRunOrSkipped(outcomes);
      status := Completed;
    }

    lemma AllFollow(indexes: seq<nat>)
      requires list == [] && indexes == Select(|calls|, Any) && strategy == Exhaustive
      ensures Ordered(list + indexes) && InRange(indexes, |calls|) && list + indexes == indexes
      ensures forall i :: i in indexes && i < |calls| ==> Alone(i) == IsBarrier(calls[i], true)
    {
      hide Select;
      SelectAscends(|calls|, Any);
      assert list + indexes == indexes;
    }

    lemma AllRan(outcomes: array<Outcome>)
      requires Recorded(outcomes) && strategy == Exhaustive && streamed.None? && list == Select(|calls|, Any)
      ensures Settled(strategy, calls, results, outcomes[..])
    {
      SelectIs(|calls|, Any);
      AllSettled(outcomes);
    }

    lemma SelectOrdered(k: nat)
      requires k < |calls| + 1 && strategy != Early
      ensures Ordered(Select(k, RunsHere)) && (k < |calls| ==> Ordered(Select(k, RunsHere) + [k]))
    {
      hide Runs;
      SelectAscends(k, RunsHere);
    }

    lemma OutputsOrdered(k: nat)
      requires k < |calls| && calls[k].output
      ensures Ordered(Select(k, OutputRunsHere) + [k])
    {
      hide Runs;
      SelectAscends(k, OutputRunsHere);
      SelectIs(k, OutputRunsHere);
      var all := Select(k, OutputRunsHere) + [k];
      forall x | 0 <= x < |all| ensures all[x] < |calls| && calls[all[x]].output {
        if x < |all| - 1 {
          assert all[x] == Select(k, OutputRunsHere)[x];
          assert all[x] in Select(k, OutputRunsHere);
        }
      }
    }

    lemma NotIn(k: nat)
      requires Ordered(list + [k])
      ensures k !in list
    {
      OrderedDistinct(list + [k]);
      InBoth(list, [k], |list|, k);
    }

    lemma SliceOrdered(first: seq<nat>, indexes: seq<nat>, a: nat, b: nat)
      requires a <= b <= |indexes| && Ordered(first + indexes)
      ensures Ordered(first + indexes[..a] + indexes[a..b])
      ensures first + indexes[..a] + indexes[a..b] == first + indexes[..b]
      ensures first + [] == first
    {
      var all, part := first + indexes, first + indexes[..a] + indexes[a..b];
      assert part == all[..|first| + b];
    }

    lemma CountedWithin()
      requires Valid() && AllPossible(calls, results)
      ensures NoClash(calls) ==> toolCalls <= before + |ExpectedCalls(calls, |calls|)|
    {
      CountedAreExpected(calls, results, list);
    }

    lemma NoneSkipped(outcomes: array<Outcome>)
      requires outcomes.Length == |calls|
      ensures RestSkipped(outcomes, 0, [])
    {}

    lemma NextRuns(k: nat)
      requires k < |calls| && strategy == Graceful
      ensures var candidate := Candidate(calls, results);
        var runs := !calls[k].output || candidate.None? || k <= candidate.value;
        Select(k + 1, RunsHere) == if runs then Select(k, RunsHere) + [k] else Select(k, RunsHere)
    {}

    lemma AllRunOrSkipped(outcomes: array<Outcome>)
      requires Recorded(outcomes) && RestSkipped(outcomes, |calls|, []) && list == Select(|calls|, RunsHere)
      requires streamed.None?
      ensures Settled(strategy, calls, results, outcomes[..])
    {
      SelectIs(|calls|, RunsHere);
      AllSettled(outcomes);
    }

    lemma JoinsBatch(outcomes: array<Outcome>, k: nat, batch: seq<nat>)
      requires RestSkipped(outcomes, k, batch) && k < |calls| && !calls[k].output && !IsBarrier(calls[k], true)
      ensures RestSkipped(outcomes, k + 1, batch + [k]) && !Alone(k)
    {}

    lemma NothingRun()
      requires Valid() && list == []
      ensures toolCalls == before && NoFailure()
    {
      NothingCounted(calls, results);
    }

    /** Output calls not run hold the text that says so. */
    ghost predicate OutputsSkipped(outcomes: array<Outcome>, n: nat)
      reads this, outcomes
    {
      outcomes.Length == |calls| && n <= |calls|
      && forall i :: 0 <= i < n && calls[i].output && i !in list ==> outcomes[i] == Skipped(calls[i])
    }

    /** Output calls one by one until one yields output. */
    method RunOutputCalls(outcomes: array<Outcome>) returns (failed: bool, found: bool)
      requires Valid() && list == [] && outcomes.Length == |calls| && strategy == Early && AllPossible(calls, results)
      requires streamed.None?
      modifies this`trace, this`toolCalls, this`list, outcomes
      ensures Valid() && Recorded(outcomes) && (failed <==> !NoFailure())
      ensures forall i :: i in list ==> i < |calls| && calls[i].output
      ensures Halts() && list <= Select(|calls|, OutputRunsHere)
      ensures !failed ==> list == Select(|calls|, OutputRunsHere) && OutputsSkipped(outcomes, |calls|)
      ensures !failed ==> (found <==> Candidate(calls, results).Some?)
    {
      hide Valid, NoFailure, Halts, RunsGroup, BarriersKept, Ordered, InRange, Runs, Candidate, Select, OutcomeOf,
        CommittedOutcome, AllPossible, Alone, IsBarrier, Skipped;
      NothingRun();
      NoCandidateYet(calls, results);
      SelectNone(OutputRunsHere);
      found := false;
      var k := 0;
      while k < |calls|
        invariant 0 <= k <= |calls| && list == Select(k, OutputRunsHere)
        invariant forall i :: i in list ==> i < k && calls[i].output
        invariant Valid() && Recorded(outcomes) && NoFailure() && OutputsSkipped(outcomes, k)
        invariant found <==> Candidate(calls[..k], results).Some?
      {
        CandidateNext(calls, results, k);
        NextOutputRuns(k);
        SelectPrefix(k + 1, |calls|, OutputRunsHere);
        if calls[k].output {
          if found {
            outcomes[k] := Skipped(calls[k]);
          } else {
            OutputsOrdered(k);
            BatchRange(list, [k], k + 1, |calls|);
            failed := ExecuteIndexBatch(outcomes, [k]);
            if failed { return; }
            OutputKnown(calls, results, k);
            found := outcomes[k].output.Some?;
          }
        }
        k := k + 1;
      }
      assert calls[..k] == calls;
      NoFailureHalts();
      failed := false;
    }

    lemma NextOutputRuns(k: nat)
      requires k < |calls| && strategy == Early
      ensures var candidate := Candidate(calls, results);
        var runs := calls[k].output && (candidate.None? || k <= candidate.value);
        Select(k + 1, OutputRunsHere) == if runs then Select(k, OutputRunsHere) + [k] else Select(k, OutputRunsHere)
    {}

    /** The functions run only when no output call yielded output; the limit is checked just before. */
    method ExecuteCallsEarly(outcomes: array<Outcome>) returns (status: Status)
      requires Valid() && list == [] && outcomes.Length == |calls| && strategy == Early && AllPossible(calls, results)
      requires streamed.None?
      modifies this`trace, this`toolCalls, this`list, outcomes
      ensures Valid() && Recorded(outcomes) && (status == Status.Failed <==> !NoFailure())
      ensures status == OverLimit <==> NoFailure() && Candidate(calls, results).None? && TooMany()
      ensures status == OverLimit ==> list == Select(|calls|, OutputRunsHere)
      ensures Halts() && list <= Plan() && (status == Completed ==> list == Plan())
      ensures status == Completed ==> Settled(strategy, calls, results, outcomes[..])
      ensures NoClash(calls) && limit.Some? && before <= limit.value ==> toolCalls <= limit.value
    {
      hide RunsGroup, BarriersKept, Ordered, InRange, Runs, Candidate, Select, OutcomeOf, CommittedOutcome, AllPossible,
        CountedCalls, ExpectedCalls, NoFailure, Halts, Recorded, Settled, Alone, Skipped;
      var failed, found := RunOutputCalls(outcomes);
      OutputsCountNothing(calls, results, list);
      if failed { return Status.Failed; }
      if found {
        SkipFunctions(outcomes);
        return Completed;
      }
      var within := CheckToolCallLimit();
      if !within { return OverLimit; }
      var indexes := FunctionCallIndexes();
      FunctionsFollow(indexes);
      failed := ExecuteSelected(outcomes, indexes, false);
      CountedAreExpected(calls, results, list);
      if failed { return Status.Failed; }
      status := Completed;
      FunctionsRan(outcomes, indexes);
    }

    method FunctionCallIndexes() returns (indexes: seq<nat>)
      ensures indexes == Select(|calls|, IsFunction)
    {
      indexes := [];
      var k := 0;
      while k < |calls|
        invariant 0 <= k <= |calls| && indexes == Select(k, IsFunction)
      {
        if !calls[k].output { indexes := indexes + [k]; }
        k := k + 1;
      }
    }

    method SkipFunctions(outcomes: array<Outcome>)
      requires Recorded(outcomes) && NoFailure() && OutputsSkipped(outcomes, |calls|) && strategy == Early
      requires list == Select(|calls|, OutputRunsHere) && Candidate(calls, results).Some? && streamed.None?
      modifies outcomes
      ensures Recorded(outcomes) && Settled(strategy, calls, results, outcomes[..])
    {
      hide Candidate, OutcomeOf, CommittedOutcome;
      SelectIs(|calls|, OutputRunsHere);
      var k := 0;
      while k < |calls|
        invariant 0 <= k <= |calls| && Recorded(outcomes) && OutputsSkipped(outcomes, |calls|)
        invariant forall i :: 0 <= i < k && !calls[i].output ==> outcomes[i] == Skipped(calls[i])
      {
        if !calls[k].output { outcomes[k] := Skipped(calls[k]); }
        k := k + 1;
      }
      AllSettled(outcomes);
    }

    lemma FunctionsFollow(indexes: seq<nat>)
      requires list == Select(|calls|, OutputRunsHere) && indexes == Select(|calls|, IsFunction) && strategy == Early
      ensures Ordered(list + indexes) && InRange(indexes, |calls|)
      ensures forall i :: i in indexes && i < |calls| ==> Alone(i) == IsBarrier(calls[i], false)
    {
      hide Runs;
      SelectIs(|calls|, OutputRunsHere);
      SelectIs(|calls|, IsFunction);
      SelectAscends(|calls|, OutputRunsHere);
      SelectAscends(|calls|, IsFunction);
      var all := list + indexes;
      forall x, y | 0 <= x < y < |all| ensures Precedes(all[x], all[y]) {
        assert if x < |list| then all[x] in list else all[x] in indexes;
        assert if y < |list| then all[y] in list else all[y] in indexes;
      }
    }

    lemma FunctionsRan(outcomes: array<Outcome>, indexes: seq<nat>)
      requires Recorded(outcomes) && OutputsSkipped(outcomes, |calls|) && strategy == Early && streamed.None?
      requires indexes == Select(|calls|, IsFunction) && list == Select(|calls|, OutputRunsHere) + indexes
      requires Candidate(calls, results).None?
      ensures Settled(strategy, calls, results, outcomes[..])
    {
      hide Candidate, OutcomeOf, CommittedOutcome, Settled;
      SelectIs(|calls|, OutputRunsHere);
      SelectIs(|calls|, IsFunction);
      AllSettled(outcomes);
    }

    /** Settles the parts in place, then gathers them and what stays pending. */
    method CollectCallOutcomes(outcomes: array<Outcome>, retryCanWin: bool) returns (collected: Collected)
      requires outcomes.Length == |calls|
      requires forall i :: 0 <= i < |calls| ==>
        (outcomes[i].output.Some? ==> outcomes[i].part.Some?) && (outcomes[i].deferred.Some? ==> outcomes[i].part.None?)
      modifies outcomes
      ensures collected == Collecting(calls, old(outcomes[..]), retryCanWin)
    {
      hide Answer, Winner, FirstOutput;
      ghost var was := outcomes[..];
      var winning, functionRetry := FindWinner(outcomes);
      WinnerIs(was, retryCanWin, winning, functionRetry);
      var retryWon := retryCanWin && functionRetry && winning.Some?;
      var winner := if winning.None? || retryWon then None else outcomes[winning.value].output;
      var parts: seq<Part>, requests: seq<Request> := [], [];
      var k := 0;
      while k < |calls|
        invariant 0 <= k <= |calls| && parts == FinalParts(calls, was, retryCanWin, k)
        invariant requests == FinalRequests(calls, was, retryCanWin, k)
        invariant forall i :: k <= i < |calls| ==> outcomes[i] == was[i]
        invariant forall i :: 0 <= i < k ==> !NamelessRequest(calls, was, retryCanWin, i)
      {
        var outcome := outcomes[k];
        if outcome.deferred.Some? && winner.None? && calls[k].id == "" {
          assert NamelessRequest(calls, was, retryCanWin, k);
          return EmptyId;
        }
        outcome := Settle(calls[k], outcome, winning == Some(k), winner.Some?, retryWon);
        if outcome.deferred.Some? && winner.None? {
          requests := requests + [Request(calls[k].id, outcome.deferred.value)];
        }
        outcomes[k] := outcome;
        if outcome.part.Some? { parts := parts + [outcome.part.value]; }
        k := k + 1;
      }
      collected := Collected(parts, requests, winner);
    }

    method Settle(call: Call, outcome: Outcome, first: bool, won: bool, retryWon: bool) returns (settled: Outcome)
      requires outcome.output.Some? ==> outcome.part.Some?
      requires outcome.deferred.Some? ==> outcome.part.None?
      requires first ==> outcome.output.Some? && won == !retryWon
      ensures settled == outcome.(part := Answer(call, outcome, first, won))
    {
      settled := outcome;
      if outcome.output.Some? {
        var part := outcome.part.value;
        if !first {
          part := part.(content := OUTPUT_NOT_FINAL);
        } else if retryWon {
          part := part.(content := RETRY_WINS);
        }
        settled := settled.(part := Some(part));
      }
      if outcome.deferred.Some? && won {
        settled := settled.(part := Some(ToolReturn(call.id, TOOL_SKIPPED, true)));
      }
    }

    method FindWinner(outcomes: array<Outcome>) returns (winning: Option<nat>, functionRetry: bool)
      requires outcomes.Length == |calls|
      ensures winning == FirstOutput(outcomes[..]) && functionRetry == FunctionRetry(outcomes[..])
    {
      winning, functionRetry := None, false;
      var k := 0;
      while k < |calls|
        invariant 0 <= k <= |calls| && winning == FirstOutput(outcomes[..k])
        invariant functionRetry <==> exists i :: 0 <= i < k && RetryAsked(outcomes[i])
      {
        assert outcomes[..k + 1][..k] == outcomes[..k];
        if outcomes[k].output.Some? && winning.None? { winning := Some(k); }
        if RetryAsked(outcomes[k]) { functionRetry := true; }
        k := k + 1;
      }
      assert outcomes[..k] == outcomes[..];
      assert forall i :: 0 <= i < |calls| ==> outcomes[i] == outcomes[..][i];
    }

    /** A final outcome, part or request for every call of the response, or an error. */
    method ExecuteCalls() returns (answer: Answered)
      requires Valid() && list == [] && AllPossible(calls, results) && streamed.None?
      modifies this`trace, this`toolCalls, this`list
      ensures Valid()
      ensures answer == DuplicateId <==> !DistinctIds(calls)
      ensures Halts() && list <= Plan()
      ensures answer.Failed? <==> !NoFailure()
      ensures answer == LimitExceeded <==>
        DistinctIds(calls) && NoFailure() && TooMany() && (strategy == Early ==> Candidate(calls, results).None?)
      ensures answer == DuplicateId ==> list == []
      ensures answer.Done? ==> list == Plan()
      ensures answer.Done? ==>
        exists outcomes: seq<Outcome> ::
          (Settled(strategy, calls, results, outcomes)
           && answer.collected == Collecting(calls, outcomes, RetryCanWin(strategy)))
      ensures NoClash(calls) && limit.Some? && before <= limit.value ==> toolCalls <= limit.value
    {
      hide NoFailure, Halts, Plan, RunsGroup, BarriersKept, Ordered, InRange, AllPossible, CountedCalls, Settled,
        Collecting, DistinctIds, Alone;
      NothingRun();
      NoFailureHalts();
      var duplicate := HasDuplicateId();
      if duplicate { return DuplicateId; }
      var outcomes := new Outcome[|calls|](_ => NOT_RUN);
      var status;
      match strategy {
        case Early => status := ExecuteCallsEarly(outcomes);
        case Graceful => status := ExecuteCallsGraceful(outcomes);
        case Exhaustive => status := ExecuteCallsExhaustive(outcomes);
      }
      if status == OverLimit { return LimitExceeded; }
      if status == Status.Failed { return Answered.Failed; }
      SettledParts(strategy, calls, results, outcomes[..]);
      ghost var settled := outcomes[..];
      var collected := CollectCallOutcomes(outcomes, RetryCanWin(strategy));
      answer := Done(collected);
      assert Settled(strategy, calls, results, settled);
    }

    method HasDuplicateId() returns (duplicate: bool)
      ensures duplicate <==> !DistinctIds(calls)
    {
      var seen: set<string>, k := {}, 0;
      while k < |calls|
        invariant 0 <= k <= |calls| && DistinctIds(calls[..k])
        invariant forall id :: id in seen <==> exists i :: 0 <= i < k && calls[i].id == id
      {
        if calls[k].id in seen { return true; }
        seen := seen + {calls[k].id};
        k := k + 1;
      }
      assert calls[..k] == calls;
      duplicate := false;
    }

    predicate MustBeAlone(i: nat) {
      i < |calls| && (sequentialTools || calls[i].sequential || (calls[i].output && strategy != Exhaustive))
    }

    /** While a call runs that must run alone, no other call starts or ends: with sequential tools any call, a
        sequential one always, an output call unless the strategy is exhaustive. */
    lemma {:induction false} RunsAlone(p: nat, q: nat, i: nat)
      requires Valid() && MustBeAlone(i) && p < |trace| && q < |trace|
      requires trace[p] == Started(i) && trace[q] == Ended(i)
      ensures q == p + 1
    {
      OrderedDistinct(list);
      StartBeforeEnd(trace, list, i, p, q);
      hide RunsGroup, BarriersKept, Ordered, InRange, Distinct;
      if p + 1 != q { MarkOutside(trace, list, Alone, p, q, i, p + 1); }
    }

    /** The calls taken up, in order: every call when exhaustive; otherwise output calls until one yields output,
        and functions in place when graceful, or after them, if none did, when early. */
    lemma {:induction false} PlanIs(i: nat)
      requires streamed.None? && i < |calls|
      ensures i in Plan() <==> IsRun(strategy, calls, results, i)
    {
      hide Candidate, Select, IsRun;
      RunsAre(strategy, calls, results, i);
      SelectIs(|calls|, RunsHere);
      SelectIs(|calls|, IsFunction);
      SelectIs(|calls|, OutputRunsHere);
      SelectIs(|calls|, Any);
    }

    /** With no output call among them, all calls are taken up, and nothing counts before the limit is checked. */
    lemma {:induction false} FunctionsAllRun()
      requires streamed.None? && forall i :: 0 <= i < |calls| ==> !calls[i].output
      ensures Candidate(calls, results).None? && AtCheck() == before
      ensures forall i :: i in Plan() <==> 0 <= i < |calls|
    {
      hide Candidate, Select, ExpectedCalls, CountedCalls, Distinct, InRange;
      NoOutputsRun();
      NothingCounted(calls, results);
      SelectIs(|calls|, IsFunction);
      SelectIs(|calls|, RunsHere);
      SelectIs(|calls|, Any);
    }

    lemma {:induction false} NoOutputsRun()
      requires forall i :: 0 <= i < |calls| ==> !calls[i].output
      ensures Candidate(calls, results).None? && Select(|calls|, OutputRunsHere) == []
    {
      hide Candidate, Select, Distinct, InRange;
      CandidateIsFirst(calls, results);
      SelectIs(|calls|, OutputRunsHere);
      EmptyOrMember(Select(|calls|, OutputRunsHere));
    }

    predicate NotStreamed(i: nat) { streamed != Some(i) }

    /** The calls of a response whose output the caller already has: what still runs is nothing when ending
        early, functions only when ending gracefully, otherwise all but that output call. The same barriers
        and the same limit hold. */
    method ExecuteCallsWithCommittedOutput(outcomes: array<Outcome>) returns (status: Status)
      requires Valid() && list == [] && outcomes.Length == |calls| && AllPossible(calls, results) && streamed.Some?
      modifies this`trace, this`toolCalls, this`list, outcomes
      ensures Valid() && (status == Status.Failed <==> !NoFailure())
      ensures (status == OverLimit <==> strategy != Early && TooMany()) && (status == OverLimit ==> list == [])
      ensures NoClash(calls) && limit.Some? && before <= limit.value ==> toolCalls <= limit.value
      ensures Halts() && list <= Plan() && (status == Completed ==> list == Plan())
      ensures status == Completed ==> forall i :: 0 <= i < |calls| ==>
        outcomes[i] == if CommittedRuns(i) then OutcomeAt(i) else CommittedAnswer(calls[i], streamed == Some(i))
    {
      hide Valid, NoFailure, Halts, RunsGroup, BarriersKept, Ordered, InRange, AllPossible, CountedCalls, ExpectedCalls,
        Alone, OutcomeOf, CommittedOutcome, CommittedAnswer, Select;
      NothingRun();
      NoFailureHalts();
      if strategy != Early {
        var within := CheckToolCallLimit();
        if !within { return OverLimit; }
      }
      var failed := false;
      match strategy {
        case Early => AnswerAll(outcomes);
        case Graceful => failed := CommittedGraceful(outcomes);
        case Exhaustive => failed := CommittedExhaustive(outcomes);
      }
      CountedWithin();
      if failed { return Status.Failed; }
      SelectIs(|calls|, CommittedRuns);
      status := Completed;
    }

    /** Every call ends as its own result asks; no second output is made final. */
    lemma CommittedEnds(i: nat, outcome: Outcome)
      requires streamed.Some? && i < |calls| && Possible(calls[i], results(i))
      requires outcome == if CommittedRuns(i) then OutcomeAt(i) else CommittedAnswer(calls[i], streamed == Some(i))
      ensures EndsCommitted(strategy, calls[i], results(i), streamed == Some(i), outcome.part)
      ensures outcome.output.None?
      ensures outcome.failed <==>
        CommittedRuns(i) && Fails(results(i)) && !(calls[i].output && results(i).Fail? && !results(i).cancelled)
    {}

    predicate CommittedRuns(i: nat) {
      match strategy
      case Early => false
      case Graceful => IsFunction(i)
      case Exhaustive => NotStreamed(i)
    }

    lemma {:induction false} NothingSelected(n: nat)
      requires strategy == Early
      ensures Select(n, CommittedRuns) == []
    {
      if n > 0 { NothingSelected(n - 1); }
    }

    method AnswerAll(outcomes: array<Outcome>)
      requires Recorded(outcomes) && list == [] && strategy == Early
      modifies outcomes
      ensures RestSkipped(outcomes, |calls|, []) && list == Select(|calls|, CommittedRuns)
    {
      hide Select, OutcomeOf, CommittedOutcome, RestAt;
      NothingSelected(|calls|);
      var k := 0;
      while k < |calls|
        invariant 0 <= k <= |calls| && forall i :: 0 <= i < k ==> outcomes[i] == RestAt(i)
        modifies outcomes
      {
        outcomes[k] := RestAt(k);
        k := k + 1;
      }
    }

    method CommittedExhaustive(outcomes: array<Outcome>) returns (failed: bool)
      requires Valid() && list == [] && Recorded(outcomes) && NoFailure() && strategy == Exhaustive && streamed.Some?
      modifies this`trace, this`toolCalls, this`list, outcomes
      ensures Valid() && Recorded(outcomes) && (failed <==> !NoFailure())
      ensures Halts() && list <= Select(|calls|, CommittedRuns)
      ensures !failed ==> list == Select(|calls|, CommittedRuns) && RestSkipped(outcomes, |calls|, [])
    {
      hide Valid, NoFailure, Halts, RunsGroup, BarriersKept, Ordered, InRange, Alone, OutcomeOf, CommittedOutcome,
        RestAt;
      var indexes, k := [], 0;
      while k < |calls|
        invariant 0 <= k <= |calls| && indexes == Select(k, CommittedRuns) && Recorded(outcomes)
        invariant forall i :: 0 <= i < k && streamed == Some(i) ==> outcomes[i] == RestAt(i)
        modifies outcomes
      {
        if streamed == Some(k) {
          outcomes[k] := RestAt(k);
        } else {
          indexes := indexes + [k];
        }
        k := k + 1;
      }
      CommittedOrdered(indexes);
      SelectIs(|calls|, CommittedRuns);
      hide Select;
      failed := ExecuteSelected(outcomes, indexes, true);
    }

    lemma CommittedOrdered(indexes: seq<nat>)
      requires list == [] && indexes == Select(|calls|, CommittedRuns) && strategy == Exhaustive
      ensures Ordered(list + indexes) && InRange(indexes, |calls|) && list + indexes == indexes
      ensures forall i :: i in indexes && i < |calls| ==> Alone(i) == IsBarrier(calls[i], true)
    {
      hide Select;
      SelectAscends(|calls|, CommittedRuns);
      assert list + indexes == indexes;
    }

    method CommittedGraceful(outcomes: array<Outcome>) returns (failed: bool)
      requires Valid() && list == [] && Recorded(outcomes) && NoFailure() && strategy == Graceful && streamed.Some?
      modifies this`trace, this`toolCalls, this`list, outcomes
      ensures Valid() && Recorded(outcomes) && (failed <==> !NoFailure())
      ensures Halts() && list <= Select(|calls|, CommittedRuns)
      ensures !failed ==> list == Select(|calls|, CommittedRuns) && RestSkipped(outcomes, |calls|, [])
    {
      hide Valid, NoFailure, Halts, RunsGroup, BarriersKept, Ordered, InRange, Select, OutcomeOf, CommittedOutcome,
        Alone, IsBarrier, RestSkipped, CommittedAnswer;
      var batch: seq<nat> := [];
      var k := 0;
      SelectNone(CommittedRuns);
      NoneSkipped(outcomes);
      while k < |calls|
        invariant 0 <= k <= |calls| && list + batch == Select(k, CommittedRuns)
        invariant Valid() && Recorded(outcomes) && NoFailure() && RestSkipped(outcomes, k, batch)
        invariant forall i :: i in batch ==> i < k && !Alone(i)
      {
        FunctionsOrdered(k);
        BatchRange(list, batch, k, |calls|);
        SelectNext(k, CommittedRuns);
        SelectPrefix(k + 1, |calls|, CommittedRuns);
        if !calls[k].output && !IsBarrier(calls[k], true) {
          assert list + (batch + [k]) == list + batch + [k];
          JoinsBatch(outcomes, k, batch);
          batch := batch + [k];
        } else {
          failed := FlushThenRun(outcomes, batch, k, calls[k].output);
          if failed { return; }
          batch := [];
          assert list + batch == list;
        }
        k := k + 1;
      }
      FunctionsOrdered(k);
      BatchRange(list, batch, k, |calls|);
      failed := FlushLast(outcomes, batch);
    }

    lemma FunctionsOrdered(k: nat)
      requires k <= |calls| && strategy == Graceful
      ensures Ordered(Select(k, CommittedRuns)) && (k < |calls| ==> Ordered(Select(k, CommittedRuns) + [k]))
    {
      SelectAscends(k, CommittedRuns);
    }
  }

  /** The indexes below `n` that are kept, in order. */
  ghost function Select(n: nat, keep: nat -> bool): seq<nat> {
    if n == 0 then [] else Select(n - 1, keep) + if keep(n - 1) then [n - 1] else []
  }

  lemma {:induction false} SelectIs(n: nat, keep: nat -> bool)
    ensures InRange(Select(n, keep), n) && Distinct(Select(n, keep))
    ensures forall i :: i in Select(n, keep) <==> 0 <= i < n && keep(i)
  {
    if n > 0 { SelectIs(n - 1, keep); }
  }

  lemma EmptyOrMember(list: seq<nat>)
    ensures list == [] || exists i :: i in list
  {
    assert list == [] || list[0] in list;
  }

  lemma {:induction false} SelectPrefix(m: nat, n: nat, keep: nat -> bool)
    requires m <= n
    ensures Select(m, keep) <= Select(n, keep)
  {
    if m < n { SelectPrefix(m, n - 1, keep); }
  }

  lemma MoreExpected(calls: seq<Call>, k: nat)
    requires k < |calls|
    ensures |ExpectedCalls(calls, k + 1)| == |ExpectedCalls(calls, k)| + if Expected(calls[k]) then 1 else 0
  {
    var expected := ExpectedCalls(calls, k);
    assert ExpectedCalls(calls, k + 1) == if Expected(calls[k]) then expected + {k} else expected;
  }

  lemma NothingCounted(calls: seq<Call>, results: nat -> Result)
    ensures |CountedCalls(calls, results, SetOf([]))| == 0 && |ExpectedCalls(calls, 0)| == 0
  {
    assert CountedCalls(calls, results, SetOf([])) == {};
  }

  lemma NoCandidateYet(calls: seq<Call>, results: nat -> Result)
    ensures Candidate(calls[..0], results).None?
  {}

  /** An output call runs exactly when no output was found before it. */
  lemma {:induction false} CandidateNext(calls: seq<Call>, results: nat -> Result, k: nat)
    requires k < |calls|
    ensures var before, next := Candidate(calls[..k], results), Candidate(calls[..k + 1], results);
      && (next.Some? <==> before.Some? || (calls[k].output && results(k).Output?))
      && (calls[k].output ==> (before.None? <==>
            Candidate(calls, results).None? || k <= Candidate(calls, results).value))
  {
    assert calls[..k + 1][..k] == calls[..k];
    CandidateIsFirst(calls[..k], results);
    CandidateIsFirst(calls, results);
    if Candidate(calls[..k], results).Some? {
      SameCandidate(calls, results, k);
    }
  }

  lemma {:induction false} SameCandidate(calls: seq<Call>, results: nat -> Result, k: nat)
    requires k <= |calls| && Candidate(calls[..k], results).Some?
    ensures Candidate(calls, results) == Candidate(calls[..k], results) && Candidate(calls, results).value < k
  {
    CandidateIsFirst(calls[..k], results);
    if k < |calls| {
      var front := calls[..|calls| - 1];
      assert front[..k] == calls[..k];
      SameCandidate(front, results, k);
    } else {
      assert calls[..k] == calls;
    }
  }

  lemma SelectNone(keep: nat -> bool)
    ensures Select(0, keep) == []
  {}

  predicate Ascends(list: seq<nat>) { forall x, y :: 0 <= x < y < |list| ==> list[x] < list[y] }

  lemma {:induction false} SelectAscends(n: nat, keep: nat -> bool)
    ensures Ascends(Select(n, keep)) && forall x :: 0 <= x < |Select(n, keep)| ==> Select(n, keep)[x] < n
  {
    SelectRange(n, keep);
    if n > 0 {
      SelectAscends(n - 1, keep);
      var before, all := Select(n - 1, keep), Select(n, keep);
      assert all == if keep(n - 1) then before + [n - 1] else before;
    }
  }

  lemma SelectRange(n: nat, keep: nat -> bool)
    ensures forall x :: 0 <= x < |Select(n, keep)| ==> Select(n, keep)[x] < n
  {
    SelectIs(n, keep);
    forall x | 0 <= x < |Select(n, keep)| ensures Select(n, keep)[x] < n {
      assert Select(n, keep)[x] in Select(n, keep);
    }
  }

  lemma OutputKnown(calls: seq<Call>, results: nat -> Result, k: nat)
    requires AllPossible(calls, results) && k < |calls|
    ensures OutcomeOf(calls[k], results(k)).output.Some? <==> calls[k].output && results(k).Output?
  {}

  lemma SelectNext(n: nat, keep: nat -> bool)
    ensures Select(n + 1, keep) == if keep(n) then Select(n, keep) + [n] else Select(n, keep)
  {}

  lemma BatchRange(list: seq<nat>, batch: seq<nat>, k: nat, n: nat)
    requires k <= n && forall i :: i in batch ==> i < k
    ensures InRange(batch, n)
  {
    forall x | 0 <= x < |batch| ensures batch[x] < n { assert batch[x] in batch; }
  }

  /** Successes that count are calls the limit expected. */
  lemma {:induction false} CountedAreExpected(calls: seq<Call>, results: nat -> Result, list: seq<nat>)
    requires AllPossible(calls, results)
    ensures NoClash(calls) ==> |CountedCalls(calls, results, SetOf(list))| <= |ExpectedCalls(calls, |calls|)|
  {
    if NoClash(calls) {
      var counted, expected := CountedCalls(calls, results, SetOf(list)), ExpectedCalls(calls, |calls|);
      forall i | i in counted ensures i in expected {
        assert Possible(calls[i], results(i));
      }
      Fewer(counted, expected);
    }
  }

  lemma {:induction false} OutputsCountNothing(calls: seq<Call>, results: nat -> Result, list: seq<nat>)
    requires forall i :: i in list ==> i < |calls| && calls[i].output
    ensures NoClash(calls) ==> |CountedCalls(calls, results, SetOf(list))| == 0
  {
    if NoClash(calls) {
      assert CountedCalls(calls, results, SetOf(list)) == {};
    }
  }

  lemma WinnerIs(outcomes: seq<Outcome>, retryCanWin: bool, winning: Option<nat>, functionRetry: bool)
    requires winning == FirstOutput(outcomes) && functionRetry == FunctionRetry(outcomes)
    ensures Winner(outcomes, retryCanWin)
         == if winning.None? || (retryCanWin && functionRetry) then None else outcomes[winning.value].output
  {}

  lemma {:induction false} SettledParts(strategy: Strategy, calls: seq<Call>, results: nat -> Result,
                                        outcomes: seq<Outcome>)
    requires Settled(strategy, calls, results, outcomes)
    ensures forall i :: 0 <= i < |calls| ==>
      (outcomes[i].output.Some? ==> outcomes[i].part.Some?) && (outcomes[i].deferred.Some? ==> outcomes[i].part.None?)
  {
    hide Candidate;
  }

  lemma SliceInRange(indexes: seq<nat>, n: nat, a: nat, b: nat)
    requires a <= b <= |indexes| && InRange(indexes, n)
    ensures InRange(indexes[a..b], n) && (b < |indexes| ==> indexes[b] < n)
  {}

  // ----- a batch underway -----

  ghost predicate Underway(batch: seq<nat>, marks: seq<Mark>, waiting: set<nat>, running: set<nat>, done: set<nat>) {
    && (forall i :: i in batch <==> i in waiting || i in running || i in done)
    && waiting !! running && waiting !! done && running !! done
    && MarksOk(marks)
    && (forall i :: Started(i) in marks <==> i in running || i in done)
    && (forall i :: Ended(i) in marks <==> i in done)
  }

  ghost predicate MarksOk(marks: seq<Mark>) {
    && (forall p, q :: 0 <= p < q < |marks| ==> marks[p] != marks[q])
    && (forall p :: 0 <= p < |marks| && marks[p].Ended? ==> Started(marks[p].call) in marks[..p])
  }

  ghost function Left(waiting: set<nat>, running: set<nat>): nat { 2 * |waiting| + |running| }

  lemma BatchBegins(batch: seq<nat>)
    ensures Underway(batch, [], set i | i in batch, {}, {})
  {}

  lemma {:induction false} CallStarts(batch: seq<nat>, marks: seq<Mark>, waiting: set<nat>, running: set<nat>,
                                      done: set<nat>, i: nat)
    requires Underway(batch, marks, waiting, running, done) && i in waiting
    ensures Underway(batch, marks + [Started(i)], waiting - {i}, running + {i}, done)
    ensures Left(waiting - {i}, running + {i}) < Left(waiting, running)
  {
    AddMark(marks, Started(i));
    hide MarksOk;
  }

  lemma {:induction false} CallEnds(batch: seq<nat>, marks: seq<Mark>, waiting: set<nat>, running: set<nat>,
                                    done: set<nat>, i: nat)
    requires Underway(batch, marks, waiting, running, done) && i in running
    ensures Underway(batch, marks + [Ended(i)], waiting, running - {i}, done + {i})
    ensures Left(waiting, running - {i}) < Left(waiting, running) && i in batch && i !in done
  {
    AddMark(marks, Ended(i));
    hide MarksOk;
  }

  lemma {:induction false} AddMark(marks: seq<Mark>, mark: Mark)
    requires mark !in marks && MarksOk(marks) && (mark.Ended? ==> Started(mark.call) in marks)
    ensures MarksOk(marks + [mark])
  {
    var all := marks + [mark];
    forall p | 0 <= p < |all| && all[p].Ended? ensures Started(all[p].call) in all[..p] {
      if p < |marks| { assert all[..p] == marks[..p]; } else { assert all[..p] == marks; }
    }
  }

  lemma {:induction false} BatchEnds(batch: seq<nat>, marks: seq<Mark>, waiting: set<nat>, running: set<nat>,
                                     done: set<nat>)
    requires Underway(batch, marks, waiting, running, done) && waiting + running == {}
    ensures RunsGroup(marks, batch) && forall i :: i in batch <==> i in done
  {
    assert forall i :: i !in waiting + running;
    forall p | 0 <= p < |marks| ensures marks[p].call in batch {
      assert marks[p] in marks;
      match marks[p]
      case Started(i) => assert i in running || i in done;
      case Ended(i) => assert i in done;
    }
  }

  // ----- the counter -----

  ghost function Total(calls: seq<Call>, results: nat -> Result, list: seq<nat>, done: set<nat>): nat {
    |CountedCalls(calls, results, SetOf(list) + done)|
  }

  lemma NoneDone(calls: seq<Call>, results: nat -> Result, list: seq<nat>)
    ensures Total(calls, results, list, {}) == |CountedCalls(calls, results, SetOf(list))|
  {
    assert SetOf(list) + {} == SetOf(list);
  }

  lemma CountOne(calls: seq<Call>, results: nat -> Result, list: seq<nat>, batch: seq<nat>, done: set<nat>, i: nat)
    requires Distinct(list + batch) && i in batch && i !in done && i < |calls|
    ensures Total(calls, results, list, done + {i})
         == Total(calls, results, list, done) + if Counts(calls[i], OutcomeOf(calls[i], results(i))) then 1 else 0
  {
    var y :| 0 <= y < |batch| && batch[y] == i;
    InBoth(list, batch, |list| + y, i);
    var run := SetOf(list) + done;
    assert SetOf(list) + (done + {i}) == run + {i};
    var counted := CountedCalls(calls, results, run);
    assert CountedCalls(calls, results, run + {i})
        == if Counts(calls[i], OutcomeOf(calls[i], results(i))) then counted + {i} else counted;
  }

  lemma BatchCounted(calls: seq<Call>, results: nat -> Result, list: seq<nat>, batch: seq<nat>, done: set<nat>)
    requires forall i :: i in batch <==> i in done
    ensures Total(calls, results, list, done) == |CountedCalls(calls, results, SetOf(list + batch))|
  {
    assert SetOf(list + batch) == SetOf(list) + done;
  }

  lemma BatchInRange(batch: seq<nat>, n: nat, i: nat)
    requires InRange(batch, n) && i in batch
    ensures i < n
  {}

  lemma BothInRange(a: seq<nat>, b: seq<nat>, n: nat)
    requires InRange(a, n) && InRange(b, n)
    ensures InRange(a + b, n)
  {}
}
