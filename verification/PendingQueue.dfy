/** Messages enqueued while a run is under way: a shared queue that the run drains before model requests
    and when it would end, and that closes in the same step in which it is found empty at the end. */
module PendingQueue {
  import opened Options

  datatype Priority = Asap | WhenIdle

  datatype Group = Group(id: string, priority: Priority, content: string)

  /** The groups of one priority, in order. */
  function Of(groups: seq<Group>, priority: Priority): seq<Group> {
    if groups == [] then []
    else
      var last := groups[|groups| - 1];
      Of(groups[..|groups| - 1], priority) + if last.priority == priority then [last] else []
  }

  class PendingMessageQueue {
    var pending: seq<Group>
    var closed: bool

    constructor (restored: seq<Group>)
      ensures pending == restored && !closed
    {
      pending, closed := restored, false;
    }

    /** The queue is the one of that state of the run. */
    ghost predicate Shows(s: State)
      reads this
    {
      s.pending == pending && s.closed == closed
    }

    method Add(group: Group) returns (ok: bool)
      modifies this
      ensures forall s: State :: old(Shows(s)) ==> Shows(Next(s, Enqueue(group)).value) && ok == Accepts(s)
      ensures ok == !old(closed) && closed == old(closed)
      ensures pending == if ok then old(pending) + [group] else old(pending)
    {
      if closed { return false; }
      pending := pending + [group];
      ok := true;
    }

    method Close()
      modifies this
      ensures forall s: State :: old(Shows(s)) && Next(s, Step.Close).Some? ==> Shows(Next(s, Step.Close).value)
      ensures closed && pending == old(pending)
    {
      closed := true;
    }

    method Drain(priority: Priority) returns (drained: seq<Group>)
      modifies this
      ensures forall s: State :: old(Shows(s)) && priority == Asap && s.phase == Working ==>
        Shows(Next(s, DrainAsap).value) && Next(s, DrainAsap).value.inFlight == drained
      ensures drained == Of(old(pending), priority) && closed == old(closed)
      ensures pending == Of(old(pending), if priority == Asap then WhenIdle else Asap)
    {
      var other := if priority == Asap then WhenIdle else Asap;
      var remaining := [];
      drained := [];
      var k := 0;
      while k < |pending|
        invariant 0 <= k <= |pending| && pending == old(pending) && closed == old(closed)
        invariant drained == Of(pending[..k], priority) && remaining == Of(pending[..k], other)
      {
        assert pending[..k + 1][..k] == pending[..k];
        if pending[k].priority == priority {
          drained := drained + [pending[k]];
        } else {
          remaining := remaining + [pending[k]];
        }
        k := k + 1;
      }
      assert pending[..k] == pending;
      pending := remaining;
    }

    /** Everything, urgent groups first; finding nothing closes the queue. */
    method DrainForRedirect() returns (drained: seq<Group>)
      modifies this
      ensures forall s: State :: old(Shows(s)) && s.phase == Working && s.inFlight == [] ==>
        && Shows(Next(s, Redirect).value) && Next(s, Redirect).value.inFlight == drained
        && (drained == [] <==> Next(s, Redirect).value.phase == Ended)
      ensures drained == Of(old(pending), Asap) + Of(old(pending), WhenIdle) && pending == []
      ensures closed == (old(closed) || old(pending) == [])
    {
      var asap := OfPriority(Asap);
      var idle := OfPriority(WhenIdle);
      drained := asap + idle;
      SplitKeeps(pending);
      pending := [];
      if |drained| == 0 { closed := true; }
    }

    method OfPriority(priority: Priority) returns (groups: seq<Group>)
      ensures groups == Of(pending, priority)
    {
      groups := [];
      var k := 0;
      while k < |pending|
        invariant 0 <= k <= |pending| && groups == Of(pending[..k], priority)
      {
        assert pending[..k + 1][..k] == pending[..k];
        if pending[k].priority == priority { groups := groups + [pending[k]]; }
        k := k + 1;
      }
      assert pending[..k] == pending;
    }
  }

  lemma {:induction false} SplitKeeps(groups: seq<Group>)
    ensures |Of(groups, Asap)| + |Of(groups, WhenIdle)| == |groups|
  {
    if groups != [] { SplitKeeps(groups[..|groups| - 1]); }
  }

  // ----- the run and those who enqueue -----

  /** Where the run is: between deliveries, delivering drained groups one by one (after which it goes on),
      ended with a final output, or failed. */
  datatype Phase = Working | Delivering | Ended | Failed

  /** `accepted` lists what the queue took, restored groups first; `delivered` what entered the history. */
  datatype State = State(pending: seq<Group>, closed: bool, phase: Phase, inFlight: seq<Group>,
                         accepted: seq<Group>, delivered: seq<Group>)

  function Start(restored: seq<Group>): State { State(restored, false, Working, [], restored, []) }

  /** The atomic steps. `Enqueue` may come from any thread at any time, the others are the run's own. */
  datatype Step = Enqueue(group: Group) | DrainAsap | Redirect | Deliver(wanted: bool) | Fail | Close

  predicate Accepts(s: State) { !s.closed }

  /** None when the run is not at such a step. */
  function Next(s: State, step: Step): Option<State> {
    match step
    case Enqueue(group) =>
      Some(if Accepts(s) then s.(pending := s.pending + [group], accepted := s.accepted + [group]) else s)
    case DrainAsap =>
      if s.phase != Working then None
      else Some(s.(pending := Of(s.pending, WhenIdle), inFlight := Of(s.pending, Asap), phase := Delivering))
    case Redirect =>
      if s.phase != Working then None
      else if s.pending == [] then Some(s.(closed := true, phase := Ended))
      else Some(s.(pending := [], inFlight := Of(s.pending, Asap) + Of(s.pending, WhenIdle), phase := Delivering))
    case Deliver(wanted) =>
      if s.phase != Delivering then None
      else if s.inFlight == [] then Some(s.(phase := Working))
      else Some(s.(inFlight := s.inFlight[1..], delivered := s.delivered + [s.inFlight[0]],
                   phase := if wanted then Delivering else Failed))
    case Fail => if s.phase != Working then None else Some(s.(phase := Failed))
    case Close => if s.phase != Failed && s.phase != Ended then None else Some(s.(closed := true))
  }

  function Run(restored: seq<Group>, steps: seq<Step>): Option<State> {
    if steps == [] then Some(Start(restored))
    else
      var before := Run(restored, steps[..|steps| - 1]);
      if before.None? then None else Next(before.value, steps[|steps| - 1])
  }

  lemma {:induction false} OfJoin(a: seq<Group>, b: seq<Group>, priority: Priority)
    ensures Of(a + b, priority) == Of(a, priority) + Of(b, priority)
  {
    if b == [] {
      assert a + b == a;
      assert Of(a, priority) + [] == Of(a, priority);
    } else {
      OfJoin(a, b[..|b| - 1], priority);
      assert (a + b)[..|a + b| - 1] == a + b[..|b| - 1];
    }
  }

  lemma OfOne(group: Group, priority: Priority)
    ensures Of([], priority) == [] && Of([group], priority) == if group.priority == priority then [group] else []
  {
    assert [group][..0] == [];
  }

  lemma {:induction false} OfOf(groups: seq<Group>, priority: Priority, again: Priority)
    ensures Of(Of(groups, priority), again) == if priority == again then Of(groups, priority) else []
  {
    if groups != [] {
      var front, last := groups[..|groups| - 1], groups[|groups| - 1];
      OfOf(front, priority, again);
      OfOne(last, again);
      OfJoin(Of(front, priority), if last.priority == priority then [last] else [], again);
    }
  }

  /** What was accepted is, in order: what was delivered, what is being delivered, and what still waits. */
  ghost predicate NoneOfLost(s: State, priority: Priority) {
    Of(s.accepted, priority) == Of(s.delivered, priority) + Of(s.inFlight, priority) + Of(s.pending, priority)
  }

  ghost predicate NothingLost(s: State) {
    forall priority :: NoneOfLost(s, priority)
  }

  ghost predicate Inv(s: State) {
    && NothingLost(s)
    && (s.phase == Ended ==> s.closed && s.pending == [])
    && (s.closed ==> s.phase == Ended || s.phase == Failed)
    && (s.phase == Working || s.phase == Ended ==> s.inFlight == [])
  }

  lemma {:induction false} NextKeepsGroups(s: State, step: Step, priority: Priority)
    requires NoneOfLost(s, priority) && (s.phase == Working ==> s.inFlight == []) && Next(s, step).Some?
    ensures NoneOfLost(Next(s, step).value, priority)
  {
    hide Of;
    OfNone(priority);
    match step
    case Enqueue(group) => GroupJoins(s, group, priority);
    case DrainAsap =>
      OfOf(s.pending, WhenIdle, priority);
      OfOf(s.pending, Asap, priority);
      Regroup(Of(s.delivered, priority), [], Of(s.pending, priority), []);
    case Redirect =>
      OfOf(s.pending, WhenIdle, priority);
      OfOf(s.pending, Asap, priority);
      OfJoin(Of(s.pending, Asap), Of(s.pending, WhenIdle), priority);
      Regroup(Of(s.delivered, priority), [], Of(s.pending, priority), []);
    case Deliver(_) =>
      if s.inFlight != [] { GroupArrives(s, priority); }
    case _ =>
  }

  lemma Regroup(a: seq<Group>, b: seq<Group>, c: seq<Group>, d: seq<Group>)
    ensures a + (b + c) + d == (a + b) + c + d && a + b + (c + d) == (a + b + c) + d
    ensures [] + c == c && c + [] == c && a + c + [] == a + [] + c
  {}

  lemma OfNone(priority: Priority)
    ensures Of([], priority) == []
  {}

  lemma {:induction false} GroupJoins(s: State, group: Group, priority: Priority)
    requires NoneOfLost(s, priority)
    ensures Of(s.accepted + [group], priority)
         == Of(s.delivered, priority) + Of(s.inFlight, priority) + Of(s.pending + [group], priority)
  {
    hide Of;
    OfJoin(s.accepted, [group], priority);
    OfJoin(s.pending, [group], priority);
    Regroup(Of(s.delivered, priority), Of(s.inFlight, priority), Of(s.pending, priority), Of([group], priority));
  }

  lemma {:induction false} GroupArrives(s: State, priority: Priority)
    requires NoneOfLost(s, priority) && s.inFlight != []
    ensures Of(s.accepted, priority)
         == Of(s.delivered + [s.inFlight[0]], priority) + Of(s.inFlight[1..], priority) + Of(s.pending, priority)
  {
    hide Of;
    var first, rest := [s.inFlight[0]], s.inFlight[1..];
    OfJoin(s.delivered, first, priority);
    OfJoin(first, rest, priority);
    assert first + rest == s.inFlight;
    Regroup(Of(s.delivered, priority), Of(first, priority), Of(rest, priority), Of(s.pending, priority));
  }

  lemma {:induction false} NextKeepsInv(s: State, step: Step)
    requires Inv(s) && Next(s, step).Some?
    ensures Inv(Next(s, step).value)
  {
    forall priority ensures NoneOfLost(Next(s, step).value, priority) {
      NextKeepsGroups(s, step, priority);
    }
    hide Of, NoneOfLost;
  }

  lemma {:induction false} RunKeepsInv(restored: seq<Group>, steps: seq<Step>)
    requires Run(restored, steps).Some?
    ensures Inv(Run(restored, steps).value)
  {
    hide Next, Inv;
    if steps == [] {
      StartOk(restored);
    } else {
      RunKeepsInv(restored, steps[..|steps| - 1]);
      NextKeepsInv(Run(restored, steps[..|steps| - 1]).value, steps[|steps| - 1]);
    }
  }

  lemma StartOk(restored: seq<Group>)
    ensures Inv(Start(restored))
  {
    assert forall priority :: [] + [] + Of(restored, priority) == Of(restored, priority);
  }

  /** When the run ends with a final output, everything ever accepted was delivered, once, in the order of
      acceptance within each priority; and nothing is accepted from then on. */
  lemma {:induction false} EndedRunDeliveredEverything(restored: seq<Group>, steps: seq<Step>, more: seq<Step>)
    requires Run(restored, steps).Some? && Run(restored, steps).value.phase == Ended
    requires Run(restored, steps + more).Some?
    ensures var s, later := Run(restored, steps).value, Run(restored, steps + more).value;
      && (forall priority :: Of(s.delivered, priority) == Of(s.accepted, priority))
      && |s.delivered| == |s.accepted|
      && !Accepts(later) && later.accepted == s.accepted && later.delivered == s.delivered
  {
    RunKeepsInv(restored, steps);
    var s := Run(restored, steps).value;
    forall priority ensures Of(s.delivered, priority) == Of(s.accepted, priority) {
      assert NoneOfLost(s, priority);
    }
    SplitKeeps(s.delivered);
    SplitKeeps(s.accepted);
    StaysEnded(restored, steps, more);
  }

  lemma {:induction false} StaysEnded(restored: seq<Group>, steps: seq<Step>, more: seq<Step>)
    requires Run(restored, steps).Some? && Run(restored, steps).value.phase == Ended
    requires Run(restored, steps).value.closed
    requires Run(restored, steps + more).Some?
    ensures var s, later := Run(restored, steps).value, Run(restored, steps + more).value;
      later.phase == Ended && later.closed && later.accepted == s.accepted && later.delivered == s.delivered
  {
    if more == [] {
      assert steps + more == steps;
    } else {
      var front := more[..|more| - 1];
      assert (steps + more)[..|steps + more| - 1] == steps + front;
      StaysEnded(restored, steps, front);
    }
  }

  /** A redirect takes everything that waits, urgent groups before idle ones; before a model request nothing
      urgent that was accepted is left waiting. */
  lemma {:induction false} DrainsTakeWhatIsDue(s: State)
    requires Inv(s) && s.phase == Working
    ensures s.pending != [] ==>
      var r := Next(s, Redirect).value;
      && r.pending == [] && |r.inFlight| == |s.pending|
      && forall i, j :: 0 <= i < j < |r.inFlight| && r.inFlight[j].priority == Asap ==> r.inFlight[i].priority == Asap
    ensures var r := Next(s, DrainAsap).value;
      Of(r.pending, Asap) == [] && Of(r.inFlight, WhenIdle) == []
  {
    hide Of, NoneOfLost;
    SplitKeeps(s.pending);
    OfIsOf(s.pending, Asap);
    OfIsOf(s.pending, WhenIdle);
    OfOf(s.pending, WhenIdle, Asap);
    OfOf(s.pending, Asap, WhenIdle);
  }

  lemma {:induction false} OfIsOf(groups: seq<Group>, priority: Priority)
    ensures forall i :: 0 <= i < |Of(groups, priority)| ==> Of(groups, priority)[i].priority == priority
  {
    if groups != [] { OfIsOf(groups[..|groups| - 1], priority); }
  }
}
