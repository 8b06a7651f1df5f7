/** A manually driven run: a worker produces events, `Next` takes them one at a time, `Close` abandons the
    run. Channels are unbuffered, so a send and its receive are one step. */
module AgentRun {
  import opened Options

  /** What the run's stream yields: events, and possibly a failure. */
  datatype Item = Event(event: string) | Failure

  /** The run under the driver. Releasing its resources at the end may fail as well. A capability may wrap
      the stream: it can swallow the run's failure, or yield one of its own though the run succeeds. */
  datatype Config = Config(stream: seq<Item>, closeFails: bool, wrapped: bool)

  datatype Worker =
    | Unstarted
    | Producing          // the run computes its next item
    | Sending(item: Item)
    | AwaitingAdvance    // an event was taken; waiting to be told to go on
    | Closing            // releasing resources
    | SendingCloseError
    | Finishing
    | EventsClosed
    | Finished           // `done` is closed

  datatype Next =
    | Idle
    | Advancing          // telling the worker to go on
    | Receiving
    | Got(got: string)   // received an event, about to return it
    | AwaitingDone       // received an error, waiting for the run to end

  /** `stop` and `closers` belong to `Close`; `pending` is set when an event was returned and the worker
      has not been told to go on. The rest records what happened: items taken from the stream, calls of
      `Next`, the events and failures they returned. */
  datatype State = State(worker: Worker, next: Next, stop: bool, closers: nat, pending: bool, failed: bool,
                         taken: nat, calls: nat, returned: seq<string>, failures: nat)

  const START := State(Unstarted, Idle, false, 0, false, false, 0, 0, [], 0)

  datatype Action =
    | CallNext | CallClose
    | CloseReturns | ReturnEvent | ReturnEnd | ReturnFailure
    | Produce | Deliver | Advance | SeeDone | Stopped
    | Release(runError: bool) | DeliverCloseError | Finish | CloseDone

  /** Steps other than new calls. */
  predicate Internal(a: Action) { !a.CallNext? && !a.CallClose? }

  function Started(worker: Worker): Worker { if worker == Unstarted then Producing else worker }

  function If(enabled: bool, s: State): Option<State> { if enabled then Some(s) else None }

  /** None when the step is not enabled. */
  function Step(c: Config, s: State, a: Action): Option<State> {
    match a
    case CallNext =>
      If(s.next == Idle, s.(worker := Started(s.worker), next := if s.pending then Advancing else Receiving,
                            pending := false, calls := s.calls + 1))
    case CallClose => Some(s.(worker := Started(s.worker), stop := true, closers := s.closers + 1))
    case CloseReturns =>
      if s.closers > 0 && s.worker == Finished then Some(s.(closers := s.closers - 1)) else None
    case ReturnEvent =>
      if s.next.Got? then Some(s.(next := Idle, pending := true, returned := s.returned + [s.next.got])) else None
    case ReturnEnd => If(s.next == Receiving && (s.worker == EventsClosed || s.worker == Finished), s.(next := Idle))
    case ReturnFailure =>
      If(s.next == AwaitingDone && s.worker == Finished, s.(next := Idle, failures := s.failures + 1))
    case Produce =>
      if s.worker != Producing then None
      else if s.taken < |c.stream| then
        var item := c.stream[s.taken];
        Some(s.(worker := Sending(item), taken := s.taken + 1, failed := s.failed || item.Failure?))
      else Some(s.(worker := Closing))
    case Deliver =>
      if !s.worker.Sending? || s.next != Receiving then None
      else match s.worker.item {
        case Event(event) => Some(s.(worker := AwaitingAdvance, next := Got(event)))
        case Failure => Some(s.(worker := Producing, next := AwaitingDone))
      }
    case Advance =>
      If(s.worker == AwaitingAdvance && s.next == Advancing, s.(worker := Producing, next := Receiving))
    case SeeDone => If(s.worker == Finished && s.next == Advancing, s.(next := Receiving))
    case Stopped =>
      if !s.stop then None
      else if s.worker.Sending? || s.worker == AwaitingAdvance then Some(s.(worker := Closing))
      else If(s.worker == SendingCloseError, s.(worker := Finishing))
    case Release(runError) =>
      // The run has failed if its stream said so, or without saying so once stopped; who wraps the stream
      // can break the tie between the two.
      if s.worker != Closing || !(c.wrapped || runError == s.failed || (runError && s.stop)) then None
      else Some(s.(worker := if c.closeFails && !runError then SendingCloseError else Finishing))
    case DeliverCloseError =>
      If(s.worker == SendingCloseError && s.next == Receiving, s.(worker := Finishing, next := AwaitingDone))
    case Finish => If(s.worker == Finishing, s.(worker := EventsClosed, pending := false))
    case CloseDone => If(s.worker == EventsClosed, s.(worker := Finished))
  }

  function Run(c: Config, actions: seq<Action>): Option<State> {
    if actions == [] then Some(START)
    else
      var before := Run(c, actions[..|actions| - 1]);
      if before.None? then None else Step(c, before.value, actions[|actions| - 1])
  }

  // ----- what every step keeps -----

  function Events(items: seq<Item>): seq<string> {
    if items == [] then []
    else
      var last := items[|items| - 1];
      Events(items[..|items| - 1]) + if last.Event? then [last.event] else []
  }

  /** The events that left the worker. */
  function Delivered(s: State): seq<string> { s.returned + if s.next.Got? then [s.next.got] else [] }

  predicate Working(worker: Worker) { worker.Producing? || worker.Sending? || worker.AwaitingAdvance? }

  predicate Ended(worker: Worker) { worker.EventsClosed? || worker.Finished? }

  predicate HasFailure(stream: seq<Item>) { exists i :: 0 <= i < |stream| && stream[i].Failure? }

  ghost predicate Taken(c: Config, s: State) {
    && s.taken <= |c.stream|
    && (!s.failed ==> |Events(c.stream[..s.taken])| == s.taken)
    && (s.failed ==> HasFailure(c.stream))
    && (s.worker == Unstarted ==> s == START)
    && (s.worker.Sending? ==> s.taken > 0 && s.worker.item == c.stream[s.taken - 1])
    && (if s.worker.Sending? && s.worker.item.Event? then
          Events(c.stream[..s.taken]) == Delivered(s) + [s.worker.item.event]
        else if Working(s.worker) then Events(c.stream[..s.taken]) == Delivered(s)
        else Delivered(s) <= Events(c.stream[..s.taken]))
  }

  /** The handshake: while the worker computes or sends, the `Next` that asked for it is waiting; once an
      event was taken, that `Next` returns it and leaves the advance to the one after. */
  ghost predicate Handshake(s: State) {
    && (s.closers > 0 ==> s.stop)
    && (s.worker.Producing? || s.worker.Sending? ==>
      !s.pending && (s.next == Receiving || s.next == AwaitingDone || s.stop))
    && (s.worker.Producing? || s.worker.Sending? ==> !s.next.Got? && s.next != Advancing)
    && (s.worker.AwaitingAdvance? ==> s.next.Got? || s.next == Advancing || (s.next == Idle && s.pending))
    && (s.pending ==> s.next == Idle)
    && (!Working(s.worker) && s.worker != Unstarted && !Ended(s.worker) ==>
          s.pending || s.next == Advancing || s.next.Got? ==> s.stop)
    && (s.next == AwaitingDone && !s.failed ==> s.worker == Finishing || Ended(s.worker))
    && (s.worker.Sending? && s.worker.item.Failure? ==> s.failed)
    && (s.worker != Finished ==> s.failures == 0)
    && s.failures + (if s.next == AwaitingDone then 1 else 0) <= 1
  }

  /** Every call is accounted for while the worker works. */
  ghost predicate CallsCounted(s: State) {
    Working(s.worker) ==> s.calls == |s.returned| + if s.next == Idle then 0 else 1
  }

  ghost predicate Inv(c: Config, s: State) { Taken(c, s) && Handshake(s) && CallsCounted(s) }

  lemma EventsMore(items: seq<Item>, n: nat)
    requires n < |items|
    ensures Events(items[..n + 1]) == Events(items[..n]) + if items[n].Event? then [items[n].event] else []
  {
    assert items[..n + 1][..n] == items[..n];
  }

  lemma {:induction false} ProduceKeepsTaken(c: Config, s: State)
    requires Taken(c, s) && Handshake(s) && Step(c, s, Produce).Some?
    ensures Taken(c, Step(c, s, Produce).value)
  {
    if s.taken < |c.stream| { EventsMore(c.stream, s.taken); }
    hide Events, Handshake;
  }

  lemma {:induction false} EventKeepsTaken(c: Config, s: State, a: Action)
    requires Taken(c, s) && Handshake(s) && Step(c, s, a).Some? && (a == Deliver || a == ReturnEvent || a == Stopped)
    ensures Taken(c, Step(c, s, a).value)
  {
    hide Events;
  }

  lemma {:induction false} OthersKeepTaken(c: Config, s: State, a: Action)
    requires Taken(c, s) && Handshake(s) && Step(c, s, a).Some?
    requires a != Produce && a != Deliver && a != ReturnEvent && a != Stopped
    ensures Taken(c, Step(c, s, a).value)
  {
    assert Events(c.stream[..0]) == [];
    hide Events;
  }

  lemma {:induction false} StepKeepsHandshake(c: Config, s: State, a: Action)
    requires Taken(c, s) && Handshake(s) && Step(c, s, a).Some?
    ensures Handshake(Step(c, s, a).value)
  {
    hide Events;
  }

  lemma {:induction false} StepKeepsCalls(c: Config, s: State, a: Action)
    requires Inv(c, s) && Step(c, s, a).Some?
    ensures CallsCounted(Step(c, s, a).value)
  {
    hide Events;
  }

  lemma {:induction false} StepKeepsInv(c: Config, s: State, a: Action)
    requires Inv(c, s) && Step(c, s, a).Some?
    ensures Inv(c, Step(c, s, a).value)
  {
    hide Step, Taken, Handshake, CallsCounted;
    StepKeepsHandshake(c, s, a);
    StepKeepsCalls(c, s, a);
    if a == Produce {
      ProduceKeepsTaken(c, s);
    } else if a == Deliver || a == ReturnEvent || a == Stopped {
      EventKeepsTaken(c, s, a);
    } else {
      OthersKeepTaken(c, s, a);
    }
  }

  lemma StartOk(c: Config)
    ensures Inv(c, START)
  {}

  lemma {:induction false} RunKeepsInv(c: Config, actions: seq<Action>)
    requires Run(c, actions).Some?
    ensures Inv(c, Run(c, actions).value)
  {
    hide Step, Inv;
    if actions == [] {
      StartOk(c);
    } else {
      RunKeepsInv(c, actions[..|actions| - 1]);
      StepKeepsInv(c, Run(c, actions[..|actions| - 1]).value, actions[|actions| - 1]);
    }
  }

  // ----- what callers see -----

  lemma {:induction false} EventsPrefix(items: seq<Item>, n: nat)
    requires n <= |items|
    ensures Events(items[..n]) <= Events(items)
  {
    if n < |items| {
      EventsPrefix(items[..|items| - 1], n);
      assert items[..|items| - 1][..n] == items[..n];
    } else {
      assert items[..n] == items;
    }
  }

  /** Over any interleaving of `Next` and `Close`, the events returned are the stream's, in order and
      without repetition, up to some point; at most one failure is returned. */
  lemma {:induction false} ReturnsAPrefixOfTheStream(c: Config, actions: seq<Action>)
    requires Run(c, actions).Some?
    ensures Run(c, actions).value.returned <= Events(c.stream) && Run(c, actions).value.failures <= 1
  {
    RunKeepsInv(c, actions);
    hide Run, Events, CallsCounted;
    EventsPrefix(c.stream, Run(c, actions).value.taken);
  }

  /** The worker never runs ahead: before a `Close` or a failure, it computes or sends an event only when
      a `Next` has been called for it. */
  lemma {:induction false} WorkerWaitsForNext(c: Config, actions: seq<Action>)
    requires Run(c, actions).Some?
    ensures var s := Run(c, actions).value;
      !s.stop && !s.failed ==>
        && (Working(s.worker) ==> s.taken <= s.calls)
        && (s.worker == Producing ==> s.taken < s.calls)
        && (s.worker.Sending? || s.worker == Producing ==> s.next == Receiving)
  {
    RunKeepsInv(c, actions);
    hide Run, Events;
  }

  // ----- deadlock -----

  /** Nothing follows a failure. */
  predicate FailureLast(stream: seq<Item>) { forall i :: 0 <= i < |stream| - 1 ==> !stream[i].Failure? }

  /** Neither an item of the stream nor the closing error follows a failure. */
  predicate Orderly(c: Config) {
    FailureLast(c.stream) && !(c.wrapped && c.closeFails && HasFailure(c.stream))
  }

  /** Someone waits, and nothing but a new call can happen. */
  ghost predicate Stuck(c: Config, s: State) {
    (s.next != Idle || s.closers > 0) && forall a: Action :: Internal(a) ==> Step(c, s, a).None?
  }

  /** Once a failure was handed over, the worker only has to wind down. */
  ghost predicate WindsDown(c: Config, s: State) {
    s.next == AwaitingDone ==>
      && !s.worker.Sending? && !s.worker.AwaitingAdvance? && s.worker != SendingCloseError && s.worker != Unstarted
      && (s.worker == Producing ==> s.taken == |c.stream|)
  }

  lemma {:induction false} RunWindsDown(c: Config, actions: seq<Action>)
    requires Orderly(c) && Run(c, actions).Some?
    ensures WindsDown(c, Run(c, actions).value)
  {
    hide Events, CallsCounted;
    if actions != [] {
      var front, a := actions[..|actions| - 1], actions[|actions| - 1];
      RunWindsDown(c, front);
      RunKeepsInv(c, front);
      WindsDownStep(c, Run(c, front).value, a);
    }
  }

  lemma {:induction false} WindsDownStep(c: Config, s: State, a: Action)
    requires Orderly(c) && Inv(c, s) && WindsDown(c, s) && Step(c, s, a).Some?
    ensures WindsDown(c, Step(c, s, a).value)
  {
    hide Events, CallsCounted;
  }

  /** The step that gets a waiting caller on. */
  function Move(s: State): Action {
    match s.worker
    case Producing => Produce
    case Sending(_) => if s.stop then Stopped else Deliver
    case AwaitingAdvance => if s.stop then Stopped else if s.next.Got? then ReturnEvent else Advance
    case Closing => Release(s.failed)
    case SendingCloseError => if s.stop then Stopped else if s.next.Got? then ReturnEvent else DeliverCloseError
    case Finishing => Finish
    case EventsClosed => CloseDone
    case _ =>
      match s.next
      case Idle => CloseReturns
      case Advancing => SeeDone
      case Receiving => ReturnEnd
      case Got(_) => ReturnEvent
      case AwaitingDone => ReturnFailure
  }

  /** Once `Close` was called somebody can always go on, whatever the stream; so can they without it, as
      long as the worker only winds down after a failure. */
  lemma {:induction false} NeverStuck(c: Config, s: State)
    requires Inv(c, s) && (s.next != Idle || s.closers > 0) && (s.stop || WindsDown(c, s))
    ensures Internal(Move(s)) && Step(c, s, Move(s)).Some?
  {
    hide Events, CallsCounted;
  }

  /** The worker sends on, an item or the closing error, to a `Next` that has its failure and waits for the
      run to end. */
  predicate Deadlocked(s: State) {
    s.next == AwaitingDone && (s.worker.Sending? || s.worker == SendingCloseError) && !s.stop
  }

  lemma {:induction false} StuckIsDeadlocked(c: Config, s: State)
    requires Inv(c, s)
    ensures Stuck(c, s) <==> Deadlocked(s)
  {
    hide Events, CallsCounted;
    if Deadlocked(s) {
      forall a: Action | Internal(a) ensures Step(c, s, a).None? {}
    } else if s.next != Idle || s.closers > 0 {
      assert Step(c, s, Move(s)).Some?;
    }
  }

  /** Only `Next` can be stuck, and only when nobody has called `Close`; calling it frees both. */
  lemma {:induction false} OnlyNextGetsStuck(c: Config, actions: seq<Action>)
    requires Run(c, actions).Some?
    ensures var s := Run(c, actions).value;
      && (Stuck(c, s) <==> Deadlocked(s))
      && (Stuck(c, s) ==> s.closers == 0)
      && Step(c, s, CallClose).Some? && !Stuck(c, Step(c, s, CallClose).value)
  {
    RunKeepsInv(c, actions);
    var s := Run(c, actions).value;
    hide Events, CallsCounted, Run;
    StuckIsDeadlocked(c, s);
    StepKeepsInv(c, s, CallClose);
    StuckIsDeadlocked(c, Step(c, s, CallClose).value);
  }

  lemma RunMore(c: Config, actions: seq<Action>, a: Action)
    ensures Run(c, actions + [a]) == if Run(c, actions).None? then None else Step(c, Run(c, actions).value, a)
  {
    assert (actions + [a])[..|actions|] == actions;
  }

  ghost predicate Reachable(c: Config, s: State) { exists actions :: Run(c, actions) == Some(s) }

  lemma {:induction false} ReachableStep(c: Config, s: State, a: Action)
    requires Reachable(c, s) && Step(c, s, a).Some?
    ensures Reachable(c, Step(c, s, a).value)
  {
    var actions :| Run(c, actions) == Some(s);
    hide Step;
    RunMore(c, actions, a);
  }

  /** After `n` events, each taken by its own `Next`. */
  function After(stream: seq<Item>, n: nat): State
    requires n <= |stream|
  {
    State(if n == 0 then Unstarted else AwaitingAdvance, Idle, false, 0, n > 0, false, n, n, Events(stream[..n]), 0)
  }

  /** The next item is sent to a `Next` that waits for it. */
  lemma {:induction false} SendNext(c: Config, n: nat)
    requires n < |c.stream| && Reachable(c, After(c.stream, n))
    ensures Reachable(c, After(c.stream, n).(worker := Sending(c.stream[n]), next := Receiving, pending := false,
                                             failed := c.stream[n].Failure?, taken := n + 1, calls := n + 1))
  {
    var s := After(c.stream, n);
    hide Reachable, Events;
    ReachableStep(c, s, CallNext);
    s := Step(c, s, CallNext).value;
    if n > 0 {
      ReachableStep(c, s, Advance);
      s := Step(c, s, Advance).value;
    }
    ReachableStep(c, s, Produce);
  }

  lemma {:induction false} ReachAfter(c: Config, n: nat)
    requires n <= |c.stream| && forall i :: 0 <= i < n ==> c.stream[i].Event?
    ensures Reachable(c, After(c.stream, n))
  {
    hide Reachable, Events;
    if n == 0 {
      ReachStart(c);
    } else {
      ReachAfter(c, n - 1);
      SendNext(c, n - 1);
      var s := After(c.stream, n - 1).(worker := Sending(c.stream[n - 1]), next := Receiving, pending := false,
                                       failed := false, taken := n, calls := n);
      ReachableStep(c, s, Deliver);
      s := Step(c, s, Deliver).value;
      ReachableStep(c, s, ReturnEvent);
      EventsMore(c.stream, n - 1);
    }
  }

  lemma ReachStart(c: Config)
    ensures Reachable(c, After(c.stream, 0))
  {
    assert Run(c, []) == Some(START);
    assert c.stream[..0] == [];
  }

  /** A `Next` can be left waiting together with the worker exactly when the stream goes on after a failure,
      or, under a wrapper, ends in one over a run that then fails to close. */
  lemma {:induction false} StuckExactlyAfterAFailure(c: Config)
    ensures (exists s :: Reachable(c, s) && Stuck(c, s))
       <==> !FailureLast(c.stream) || (c.wrapped && c.closeFails && HasFailure(c.stream))
  {
    if Orderly(c) {
      forall s | Reachable(c, s) ensures !Stuck(c, s) {
        var actions :| Run(c, actions) == Some(s);
        RunKeepsInv(c, actions);
        RunWindsDown(c, actions);
        if s.next != Idle || s.closers > 0 {
          hide Step, Inv;
          NeverStuck(c, s);
        }
      }
    } else if FailureLast(c.stream) {
      StuckClosing(c);
    } else {
      var i :| 0 <= i < |c.stream| - 1 && c.stream[i].Failure?;
      StuckAfter(c, FirstFailure(c.stream, i));
    }
  }

  function FirstFailure(stream: seq<Item>, i: nat): (first: nat)
    requires i < |stream| && stream[i].Failure?
    ensures first <= i && stream[first].Failure? && forall j :: 0 <= j < first ==> stream[j].Event?
  {
    if stream[0].Failure? then 0 else 1 + FirstFailure(stream[1..], i - 1)
  }

  lemma {:induction false} StuckAfter(c: Config, i: nat)
    requires i < |c.stream| - 1 && c.stream[i].Failure? && forall j :: 0 <= j < i ==> c.stream[j].Event?
    ensures exists s :: Reachable(c, s) && Stuck(c, s)
  {
    hide Reachable, Events;
    ReachAfter(c, i);
    SendNext(c, i);
    var s := After(c.stream, i).(worker := Sending(c.stream[i]), next := Receiving, pending := false,
                                 failed := true, taken := i + 1, calls := i + 1);
    ReachableStep(c, s, Deliver);
    s := Step(c, s, Deliver).value;
    ReachableStep(c, s, Produce);
    s := Step(c, s, Produce).value;
    assert Stuck(c, s);
  }

  lemma {:induction false} StuckClosing(c: Config)
    requires FailureLast(c.stream) && c.wrapped && c.closeFails && HasFailure(c.stream)
    ensures exists s :: Reachable(c, s) && Stuck(c, s)
  {
    hide Reachable, Events;
    var last := |c.stream| - 1;
    assert c.stream[last].Failure?;
    ReachAfter(c, last);
    SendNext(c, last);
    var s := After(c.stream, last).(worker := Sending(c.stream[last]), next := Receiving, pending := false,
                                    failed := true, taken := last + 1, calls := last + 1);
    ReachableStep(c, s, Deliver);
    s := Step(c, s, Deliver).value;
    ReachableStep(c, s, Produce);
    s := Step(c, s, Produce).value;
    ReachableStep(c, s, Release(false));
    s := Step(c, s, Release(false)).value;
    assert Stuck(c, s);
  }

  // ----- progress -----

  function WorkerRank(worker: Worker): nat {
    match worker
    case Unstarted | Finished => 0
    case Producing => 10
    case Sending(_) => 13
    case AwaitingAdvance => 11
    case Closing => 8
    case SendingCloseError => 6
    case Finishing => 4
    case EventsClosed => 2
  }

  function NextRank(next: Next): nat {
    match next
    case Idle => 0
    case Advancing => 3
    case Receiving => 2
    case _ => 1
  }

  /** What is left to do without new calls. */
  function Rank(c: Config, s: State): nat
    requires s.taken <= |c.stream|
  {
    4 * (|c.stream| - s.taken) + WorkerRank(s.worker) + NextRank(s.next) + s.closers
  }

  /** Every call returns: each internal step brings the end closer, and one is always possible while
      somebody waits, provided that `Close` was called or that the run is orderly. So `Close` returns
      for every stream, and takes a waiting `Next` along. */
  lemma {:induction false} CallsReturn(c: Config, actions: seq<Action>)
    requires Run(c, actions).Some?
    ensures var s := Run(c, actions).value;
      && s.taken <= |c.stream|
      && (forall a: Action :: Internal(a) && Step(c, s, a).Some? ==>
            Step(c, s, a).value.taken <= |c.stream| && Rank(c, Step(c, s, a).value) < Rank(c, s))
      && (s.closers > 0 ==> s.stop)
      && ((s.next != Idle || s.closers > 0) && (s.stop || Orderly(c)) ==>
            exists a: Action :: Internal(a) && Step(c, s, a).Some?)
  {
    var s := Run(c, actions).value;
    RunKeepsInv(c, actions);
    forall a: Action | Internal(a) && Step(c, s, a).Some?
      ensures Step(c, s, a).value.taken <= |c.stream| && Rank(c, Step(c, s, a).value) < Rank(c, s)
    {
      RankDecreases(c, s, a);
    }
    if (s.next != Idle || s.closers > 0) && (s.stop || Orderly(c)) {
      if !s.stop { RunWindsDown(c, actions); }
      NeverStuck(c, s);
    }
  }

  lemma {:induction false} RankDecreases(c: Config, s: State, a: Action)
    requires s.taken <= |c.stream| && Internal(a) && Step(c, s, a).Some?
    ensures Step(c, s, a).value.taken <= |c.stream| && Rank(c, Step(c, s, a).value) < Rank(c, s)
  {}
}
