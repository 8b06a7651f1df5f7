/** Event dispatch: any thread of a run may emit, one thread at a time delivers to the consumer, and an
    emitter may be installed while events are already queued. The lock sections are the atomic steps. */
module EventDispatch {
  import opened Options

  /** An event is named by its place in enqueue order. `heard` says its listeners run elsewhere. */
  datatype Queued = Queued(ticket: nat, heard: bool)

  /** Where a thread is inside an emit, between two atomic steps. */
  datatype Pc =
    | Listening(ticket: nat, owner: bool)  // an immediate event's listeners are running
    | Checking                             // about to read the emitter, without the lock
    | Releasing                            // read no emitter, about to give up dispatching
    | Draining                             // about to take the next event
    | Delivering(queued: Queued)           // took an event, its listeners may have to run
    | Calling(called: nat)                 // the consumer is being called

  /** The run's fields and its threads' places, then what has happened so far. `lost` is set when events
      are dropped; `owner`, `taken` and `listening` record which thread dispatches, which holds an event
      taken off the queue, and whose listeners an immediate event waits for. */
  datatype State = State(queue: seq<Queued>, dispatching: bool, emitter: bool, failed: bool, pcs: map<nat, Pc>,
                         enqueued: nat, delivered: seq<nat>, heard: set<nat>, immediate: set<nat>, lost: bool,
                         owner: Option<nat>, taken: Option<(nat, Queued)>, listening: map<nat, nat>)

  const START := State([], false, false, false, map[], 0, [], {}, {}, false, None, None, map[])

  datatype Action =
    | Emit(t: nat)
    | EmitImmediate(t: nat)
    | Install(t: nat)
    | Heard(t: nat)          // the listeners of the event at hand return
    | ListenerFails(t: nat)
    | ReadEmitter(t: nat)
    | Release(t: nat)
    | Take(t: nat)
    | Accept(t: nat)         // the consumer returns, wanting more
    | Refuse(t: nat)

  predicate Owns(pc: Pc) { !pc.Listening? || pc.owner }

  /** The thread leaves its place. */
  function Idle(s: State, t: nat): State {
    s.(pcs := s.pcs - {t},
       owner := if s.owner == Some(t) then None else s.owner,
       taken := if s.taken.Some? && s.taken.value.0 == t then None else s.taken,
       listening := if t in s.pcs && s.pcs[t].Listening? then s.listening - {s.pcs[t].ticket} else s.listening)
  }

  /** The thread moves to a place. */
  function At(s: State, t: nat, pc: Pc): State {
    var left := Idle(s, t);
    left.(pcs := left.pcs[t := pc],
          owner := if Owns(pc) then Some(t) else left.owner,
          taken := if pc.Delivering? then Some((t, pc.queued)) else left.taken,
          listening := if pc.Listening? then left.listening[pc.ticket := t] else left.listening)
  }

  /** Dropping everything after a listener error or a refusal. */
  function Drop(s: State, t: nat, failed: bool): State {
    Idle(s.(queue := [], dispatching := false, failed := failed, lost := true), t)
  }

  /** None when the thread is not at such a step. */
  function Step(s: State, a: Action): Option<State> {
    match a
    case Emit(t) =>
      if t in s.pcs then None
      else if s.failed then Some(s)
      else
        var queued := s.(queue := s.queue + [Queued(s.enqueued, false)], enqueued := s.enqueued + 1);
        if s.dispatching || !s.emitter then Some(queued) else Some(At(queued.(dispatching := true), t, Draining))
    case EmitImmediate(t) =>
      if t in s.pcs then None
      else if s.failed then Some(s)
      else
        var queued := s.(queue := s.queue + [Queued(s.enqueued, true)], enqueued := s.enqueued + 1,
                         immediate := s.immediate + {s.enqueued}, dispatching := true);
        Some(At(queued, t, Listening(s.enqueued, !s.dispatching)))
    case Install(t) =>
      if t in s.pcs || s.emitter then None
      else
        var installed := s.(emitter := true);
        if s.dispatching || s.queue == [] then Some(installed)
        else Some(At(installed.(dispatching := true), t, Draining))
    case Heard(t) =>
      if t !in s.pcs then None
      else match s.pcs[t] {
        case Listening(ticket, owner) =>
          var heard := s.(heard := s.heard + {ticket});
          Some(if owner then At(heard, t, Checking) else Idle(heard, t))
        case Delivering(queued) =>
          var heard := if queued.heard then s else s.(heard := s.heard + {queued.ticket});
          Some(At(heard.(delivered := s.delivered + [queued.ticket]), t, Calling(queued.ticket)))
        case _ => None
      }
    case ListenerFails(t) =>
      if t !in s.pcs then None
      else match s.pcs[t] {
        case Listening(_, _) => Some(Drop(s, t, true))
        case Delivering(queued) => if queued.heard then None else Some(Drop(s, t, true))
        case _ => None
      }
    case ReadEmitter(t) =>
      if t !in s.pcs || s.pcs[t] != Checking then None
      else Some(At(s, t, if s.emitter then Draining else Releasing))
    case Release(t) =>
      if t !in s.pcs || s.pcs[t] != Releasing then None else Some(Idle(s.(dispatching := false), t))
    case Take(t) =>
      if t !in s.pcs || s.pcs[t] != Draining then None
      else if s.queue == [] || !s.emitter then Some(Idle(s.(dispatching := false), t))
      else Some(At(s.(queue := s.queue[1..]), t, Delivering(s.queue[0])))
    case Accept(t) =>
      if t !in s.pcs || !s.pcs[t].Calling? then None else Some(At(s, t, Draining))
    case Refuse(t) =>
      if t !in s.pcs || !s.pcs[t].Calling? then None else Some(Drop(s, t, s.failed))
  }

  function Run(s: State, actions: seq<Action>): Option<State> {
    if actions == [] then Some(s)
    else
      var before := Run(s, actions[..|actions| - 1]);
      if before.None? then None else Step(before.value, actions[|actions| - 1])
  }

  // ----- what every step keeps -----

  ghost predicate OneOwner(s: State) {
    && (s.owner.Some? ==> s.owner.value in s.pcs && Owns(s.pcs[s.owner.value]))
    && (forall t :: t in s.pcs && Owns(s.pcs[t]) ==> s.owner == Some(t))
    && (s.dispatching ==> s.owner.Some?)
    && (s.owner.Some? ==> s.dispatching || s.failed)
    && (s.failed ==> s.queue == [] && s.lost)
  }

  /** Where an owner can be: it drains only once there is an emitter, and until then nobody takes its
      own event off the queue. */
  ghost predicate OwnerPlace(s: State) {
    forall t :: t in s.pcs ==>
      match s.pcs[t]
      case Listening(_, owner) => owner && !s.failed ==> s.queue != []
      case Checking | Releasing => s.queue != [] || s.failed
      case Draining | Delivering(_) | Calling(_) => s.emitter
  }

  /** The taken event is the one its thread is delivering. */
  ghost predicate Held(s: State) {
    && (s.taken.Some? ==> s.taken.value.0 in s.pcs && s.pcs[s.taken.value.0] == Delivering(s.taken.value.1))
    && (forall t :: t in s.pcs && s.pcs[t].Delivering? ==> s.taken == Some((t, s.pcs[t].queued)))
  }

  predicate Ascending(tickets: seq<nat>, bound: int) {
    && (forall i, j :: 0 <= i < j < |tickets| ==> tickets[i] < tickets[j])
    && (forall i :: 0 <= i < |tickets| ==> tickets[i] < bound)
  }

  /** How many events have left the queue, or were dropped from it. */
  function Gone(s: State): int { s.enqueued - |s.queue| }

  /** Delivery follows enqueue order; absent losses it skips nothing. */
  ghost predicate InOrder(s: State) {
    && 0 <= Gone(s)
    && (forall i :: 0 <= i < |s.queue| ==> s.queue[i].ticket == Gone(s) + i)
    && Ascending(s.delivered, if s.taken.Some? then s.taken.value.1.ticket else Gone(s))
    && (s.taken.Some? ==> s.taken.value.1.ticket < Gone(s))
    && (!s.lost ==>
          && (forall i :: 0 <= i < |s.delivered| ==> s.delivered[i] == i)
          && |s.delivered| + (if s.taken.Some? then 1 else 0) == Gone(s)
          && (s.taken.Some? ==> s.taken.value.1.ticket == |s.delivered|))
  }

  ghost predicate ListeningOk(s: State) {
    && (forall t :: t in s.pcs && s.pcs[t].Listening? ==>
      s.pcs[t].ticket in s.listening && s.listening[s.pcs[t].ticket] == t)
    && (forall k :: k in s.listening ==>
          s.listening[k] in s.pcs && s.pcs[s.listening[k]].Listening? && s.pcs[s.listening[k]].ticket == k)
  }

  /** Listeners hear each event at most once; absent losses, every event was heard, or waits with one
      thread or in the queue. */
  ghost predicate HeardOnce(s: State) {
    && (forall k :: k in s.heard || k in s.immediate ==> k < s.enqueued)
    && (forall k :: k in s.listening ==> k in s.immediate && k !in s.heard)
    && (forall i :: 0 <= i < |s.queue| ==>
          (s.queue[i].heard <==> s.queue[i].ticket in s.immediate)
          && (!s.queue[i].heard ==> s.queue[i].ticket !in s.heard))
    && (s.taken.Some? ==>
          (s.taken.value.1.heard <==> s.taken.value.1.ticket in s.immediate)
          && (!s.taken.value.1.heard ==> s.taken.value.1.ticket !in s.heard))
  }

  ghost predicate NoneUnheard(s: State) {
    !s.lost ==>
      && (forall k :: 0 <= k < Gone(s) && k !in s.immediate && k !in s.heard ==>
        s.taken.Some? && s.taken.value.1.ticket == k)
      && (forall k :: k in s.immediate && k !in s.heard ==> k in s.listening)
  }

  ghost predicate Inv(s: State) {
    OneOwner(s) && OwnerPlace(s) && Held(s) && InOrder(s) && ListeningOk(s) && HeardOnce(s) && NoneUnheard(s)
  }

  predicate Enqueues(a: Action) { a.Emit? || a.EmitImmediate? || a.Install? }

  predicate Moves(a: Action) { !Enqueues(a) && !a.Heard? && !a.ListenerFails? }

  /** What the invariants say of one thread, as far as its own steps need it. */
  ghost predicate Mine(s: State, a: Action) {
    && (s.taken.Some? && s.taken.value.0 == a.t <==> a.t in s.pcs && s.pcs[a.t].Delivering?)
    && (a.t in s.pcs && s.pcs[a.t].Delivering? ==> s.taken.value.1 == s.pcs[a.t].queued)
    && (a.t in s.pcs && s.pcs[a.t].Listening? ==> s.pcs[a.t].ticket in s.listening)
    && (a.Take? && a.t in s.pcs && s.pcs[a.t].Draining? ==> s.taken.None?)
  }

  lemma {:induction false} KnowMine(s: State, a: Action)
    requires OneOwner(s) && Held(s) && ListeningOk(s)
    ensures Mine(s, a)
  {}

  lemma {:induction false} StepKeepsPlace(s: State, a: Action)
    requires OneOwner(s) && OwnerPlace(s) && Step(s, a).Some?
    ensures OwnerPlace(Step(s, a).value)
  {}

  lemma {:induction false} IdleKeepsListening(s: State, t: nat)
    requires ListeningOk(s)
    ensures ListeningOk(Idle(s, t))
  {}

  lemma {:induction false} AtKeepsListening(s: State, t: nat, pc: Pc)
    requires ListeningOk(s) && (pc.Listening? ==> pc.ticket !in s.listening)
    ensures ListeningOk(At(s, t, pc))
  {
    IdleKeepsListening(s, t);
    hide Owns;
  }

  lemma ListeningSame(s: State, r: State)
    requires ListeningOk(s) && r.pcs == s.pcs && r.listening == s.listening
    ensures ListeningOk(r)
  {}

  lemma {:induction false} EnqueueKeepsOwner(s: State, a: Action)
    requires OneOwner(s) && OwnerPlace(s) && Enqueues(a) && Step(s, a).Some?
    ensures OneOwner(Step(s, a).value)
  {}

  lemma {:induction false} HearKeepsOwner(s: State, a: Action)
    requires OneOwner(s) && OwnerPlace(s) && a.Heard? && Step(s, a).Some?
    ensures OneOwner(Step(s, a).value)
  {}

  lemma {:induction false} FailKeepsOwner(s: State, a: Action)
    requires OneOwner(s) && OwnerPlace(s) && a.ListenerFails? && Step(s, a).Some?
    ensures OneOwner(Step(s, a).value)
  {}

  lemma {:induction false} MoveKeepsOwner(s: State, a: Action)
    requires OneOwner(s) && OwnerPlace(s) && Moves(a) && Step(s, a).Some?
    ensures OneOwner(Step(s, a).value)
  {}

  lemma {:induction false} EnqueueKeepsHeld(s: State, a: Action)
    requires OneOwner(s) && Held(s) && Enqueues(a) && Step(s, a).Some?
    ensures Held(Step(s, a).value)
  {}

  lemma {:induction false} HearKeepsHeld(s: State, a: Action)
    requires OneOwner(s) && Held(s) && a.Heard? && Step(s, a).Some?
    ensures Held(Step(s, a).value)
  {}

  lemma {:induction false} FailKeepsHeld(s: State, a: Action)
    requires OneOwner(s) && Held(s) && a.ListenerFails? && Step(s, a).Some?
    ensures Held(Step(s, a).value)
  {}

  lemma {:induction false} MoveKeepsHeld(s: State, a: Action)
    requires OneOwner(s) && Held(s) && Moves(a) && Step(s, a).Some?
    ensures Held(Step(s, a).value)
  {}

  lemma {:induction false} EnqueueEffect(s: State, a: Action)
    requires Mine(s, a) && Enqueues(a) && Step(s, a).Some?
    ensures var r := Step(s, a).value;
      && r.heard == s.heard && r.taken == s.taken && r.delivered == s.delivered && r.lost == s.lost
      && (r.enqueued == s.enqueued ==> r.queue == s.queue && r.immediate == s.immediate && r.listening == s.listening)
      && (r.enqueued != s.enqueued ==>
            (r.enqueued == s.enqueued + 1 && r.queue == s.queue + [Queued(s.enqueued, a.EmitImmediate?)]
             && r.immediate == (if a.EmitImmediate? then s.immediate + {s.enqueued} else s.immediate)
             && r.listening == (if a.EmitImmediate? then s.listening[s.enqueued := a.t] else s.listening)))
  {
    hide Owns;
  }

  /** A move hears and enqueues nothing. */
  ghost predicate SameEvents(s: State, r: State) {
    && r.heard == s.heard && r.immediate == s.immediate && r.listening == s.listening && r.enqueued == s.enqueued
    && r.delivered == s.delivered
  }

  /** It leaves the queue alone, or takes the first event, if none is taken. */
  ghost predicate TakesAtMostFirst(s: State, a: Action, r: State) {
    if s.queue != [] && r.queue == s.queue[1..] then
      s.taken.None? && r.taken == Some((a.t, s.queue[0])) && r.lost == s.lost
    else r.queue == s.queue && r.taken == s.taken && r.lost == s.lost
  }

  /** A consumer that refuses loses what is queued. */
  ghost predicate Emptied(s: State, r: State) { r.queue == [] && r.taken == s.taken && r.lost }

  lemma {:induction false} TakeEffect(s: State, a: Action)
    requires Mine(s, a) && a.Take? && Step(s, a).Some?
    ensures SameEvents(s, Step(s, a).value) && TakesAtMostFirst(s, a, Step(s, a).value)
  {
    hide Owns;
  }

  lemma {:induction false} OtherMoves(s: State, a: Action)
    requires Mine(s, a) && Moves(a) && !a.Take? && Step(s, a).Some?
    ensures SameEvents(s, Step(s, a).value)
    ensures if a.Refuse? then Emptied(s, Step(s, a).value) else TakesAtMostFirst(s, a, Step(s, a).value)
  {
    hide Owns;
  }

  lemma {:induction false} MoveEffect(s: State, a: Action)
    requires Mine(s, a) && Moves(a) && Step(s, a).Some?
    ensures SameEvents(s, Step(s, a).value)
    ensures if a.Refuse? then Emptied(s, Step(s, a).value) else TakesAtMostFirst(s, a, Step(s, a).value)
  {
    if a.Take? {
      TakeEffect(s, a);
    } else {
      OtherMoves(s, a);
    }
    hide Idle, At, Step, Mine;
  }

  lemma {:induction false} EnqueueKeepsOrder(s: State, a: Action)
    requires Mine(s, a) && InOrder(s) && Enqueues(a) && Step(s, a).Some?
    ensures InOrder(Step(s, a).value)
  {
    EnqueueEffect(s, a);
    hide Step, Mine;
  }

  lemma {:induction false} ListeningEnds(s: State, a: Action)
    requires Mine(s, a) && a.Heard? && Step(s, a).Some? && s.pcs[a.t].Listening?
    ensures var (r, pc) := (Step(s, a).value, s.pcs[a.t]);
      && r.queue == s.queue && r.enqueued == s.enqueued && r.lost == s.lost && r.immediate == s.immediate
      && pc.ticket in s.listening && r.heard == s.heard + {pc.ticket} && r.delivered == s.delivered
      && r.taken == s.taken && r.listening == s.listening - {pc.ticket}
  {
    hide Owns;
  }

  lemma {:induction false} TakenIsHeard(s: State, a: Action)
    requires Mine(s, a) && a.Heard? && Step(s, a).Some? && s.pcs[a.t].Delivering?
    ensures var (r, pc) := (Step(s, a).value, s.pcs[a.t]);
      && r.queue == s.queue && r.enqueued == s.enqueued && r.lost == s.lost && r.immediate == s.immediate
      && s.taken == Some((a.t, pc.queued)) && r.taken.None? && r.listening == s.listening
      && r.delivered == s.delivered + [pc.queued.ticket]
      && r.heard == s.heard + if pc.queued.heard then {} else {pc.queued.ticket}
  {
    hide Owns;
  }

  /** What hearing an event changes: an immediate event is no longer waited for, a taken one goes to the
      consumer. */
  lemma {:induction false} HearEffect(s: State, a: Action)
    requires Mine(s, a) && a.Heard? && Step(s, a).Some?
    ensures var (r, pc) := (Step(s, a).value, s.pcs[a.t]);
      && r.queue == s.queue && r.enqueued == s.enqueued && r.lost == s.lost && r.immediate == s.immediate
      && (pc.Listening? || pc.Delivering?)
      && (pc.Listening? ==>
            (pc.ticket in s.listening && r.heard == s.heard + {pc.ticket} && r.delivered == s.delivered
             && r.taken == s.taken && r.listening == s.listening - {pc.ticket}))
      && (pc.Delivering? ==>
            (s.taken == Some((a.t, pc.queued)) && r.taken.None? && r.listening == s.listening
             && r.delivered == s.delivered + [pc.queued.ticket]
             && r.heard == s.heard + if pc.queued.heard then {} else {pc.queued.ticket}))
  {
    if s.pcs[a.t].Listening? {
      ListeningEnds(s, a);
    } else {
      TakenIsHeard(s, a);
    }
    hide Idle, At, Mine;
  }

  lemma {:induction false} HearKeepsOrder(s: State, a: Action)
    requires Mine(s, a) && InOrder(s) && a.Heard? && Step(s, a).Some?
    ensures InOrder(Step(s, a).value)
  {
    HearEffect(s, a);
    hide Step, Mine;
  }

  lemma {:induction false} FailKeepsOrder(s: State, a: Action)
    requires Mine(s, a) && InOrder(s) && a.ListenerFails? && Step(s, a).Some?
    ensures InOrder(Step(s, a).value)
  {}

  lemma {:induction false} MoveKeepsOrder(s: State, a: Action)
    requires Mine(s, a) && InOrder(s) && Moves(a) && Step(s, a).Some?
    ensures InOrder(Step(s, a).value)
  {
    MoveEffect(s, a);
    hide Step, Mine;
  }

  lemma {:induction false} EnqueueKeepsHeardOnce(s: State, a: Action)
    requires Mine(s, a) && InOrder(s) && HeardOnce(s) && Enqueues(a) && Step(s, a).Some?
    ensures HeardOnce(Step(s, a).value)
  {
    EnqueueEffect(s, a);
    hide Step, Mine;
  }

  lemma {:induction false} HearKeepsHeardOnce(s: State, a: Action)
    requires Mine(s, a) && InOrder(s) && HeardOnce(s) && a.Heard? && Step(s, a).Some?
    ensures HeardOnce(Step(s, a).value)
  {
    HearEffect(s, a);
    hide Step, Mine;
  }

  lemma {:induction false} FailKeepsHeardOnce(s: State, a: Action)
    requires Mine(s, a) && InOrder(s) && HeardOnce(s) && a.ListenerFails? && Step(s, a).Some?
    ensures HeardOnce(Step(s, a).value)
  {}

  lemma {:induction false} MoveKeepsHeardOnce(s: State, a: Action)
    requires Mine(s, a) && InOrder(s) && HeardOnce(s) && Moves(a) && Step(s, a).Some?
    ensures HeardOnce(Step(s, a).value)
  {
    MoveEffect(s, a);
    hide Step, Mine;
  }

  lemma {:induction false} EnqueueKeepsNoneUnheard(s: State, a: Action)
    requires Mine(s, a) && InOrder(s) && HeardOnce(s) && NoneUnheard(s) && Enqueues(a) && Step(s, a).Some?
    ensures NoneUnheard(Step(s, a).value)
  {}

  lemma {:induction false} HearKeepsNoneUnheard(s: State, a: Action)
    requires Mine(s, a) && InOrder(s) && HeardOnce(s) && NoneUnheard(s) && a.Heard? && Step(s, a).Some?
    ensures NoneUnheard(Step(s, a).value)
  {
    HearEffect(s, a);
    hide Step, Mine;
  }

  lemma {:induction false} FailKeepsNoneUnheard(s: State, a: Action)
    requires Mine(s, a) && InOrder(s) && HeardOnce(s) && NoneUnheard(s) && a.ListenerFails? && Step(s, a).Some?
    ensures NoneUnheard(Step(s, a).value)
  {}

  lemma {:induction false} MoveKeepsNoneUnheard(s: State, a: Action)
    requires Mine(s, a) && InOrder(s) && HeardOnce(s) && NoneUnheard(s) && Moves(a) && Step(s, a).Some?
    ensures NoneUnheard(Step(s, a).value)
  {}

  lemma {:induction false} StepKeepsListening(s: State, a: Action)
    requires ListeningOk(s) && HeardOnce(s) && Step(s, a).Some?
    ensures ListeningOk(Step(s, a).value)
  {
    hide Owns, Idle, At, ListeningOk;
    forall r: State | r.pcs == s.pcs && r.listening == s.listening ensures ListeningOk(r) { ListeningSame(s, r); }
    forall r: State, t | ListeningOk(r) ensures ListeningOk(Idle(r, t)) { IdleKeepsListening(r, t); }
    forall r: State, t, pc: Pc | ListeningOk(r) && (pc.Listening? ==> pc.ticket !in r.listening)
      ensures ListeningOk(At(r, t, pc))
    {
      AtKeepsListening(r, t, pc);
    }
  }

  lemma {:induction false} StepKeepsInv(s: State, a: Action)
    requires Inv(s) && Step(s, a).Some?
    ensures Inv(Step(s, a).value)
  {
    KnowMine(s, a);
    StepKeepsPlace(s, a);
    StepKeepsListening(s, a);
    hide Step, OneOwner, OwnerPlace, Held, InOrder, ListeningOk, HeardOnce, NoneUnheard, Mine;
    if Enqueues(a) {
      EnqueueKeepsOwner(s, a); EnqueueKeepsHeld(s, a); EnqueueKeepsOrder(s, a);
      EnqueueKeepsHeardOnce(s, a); EnqueueKeepsNoneUnheard(s, a);
    } else if a.Heard? {
      HearKeepsOwner(s, a); HearKeepsHeld(s, a); HearKeepsOrder(s, a);
      HearKeepsHeardOnce(s, a); HearKeepsNoneUnheard(s, a);
    } else if a.ListenerFails? {
      FailKeepsOwner(s, a); FailKeepsHeld(s, a); FailKeepsOrder(s, a);
      FailKeepsHeardOnce(s, a); FailKeepsNoneUnheard(s, a);
    } else {
      MoveKeepsOwner(s, a); MoveKeepsHeld(s, a); MoveKeepsOrder(s, a);
      MoveKeepsHeardOnce(s, a); MoveKeepsNoneUnheard(s, a);
    }
  }

  lemma StartOk()
    ensures Inv(START)
  {}

  lemma {:induction false} RunKeepsInv(s: State, actions: seq<Action>)
    requires Inv(s) && Run(s, actions).Some?
    ensures Inv(Run(s, actions).value)
  {
    hide Step, Inv;
    if actions != [] {
      var front := actions[..|actions| - 1];
      RunKeepsInv(s, front);
      StepKeepsInv(Run(s, front).value, actions[|actions| - 1]);
    }
  }

  // ----- what it means for the consumer -----

  predicate WithConsumer(pc: Pc) { pc.Delivering? || pc.Calling? }

  /** Whatever the interleaving, and even after losses: one thread at a time is with the consumer, and
      events arrive in enqueue order without repetition. Without losses none is skipped. */
  lemma {:induction false} DeliversInOrderOneAtATime(actions: seq<Action>)
    requires Run(START, actions).Some?
    ensures var s := Run(START, actions).value;
      && (forall t, u :: t in s.pcs && u in s.pcs && WithConsumer(s.pcs[t]) && WithConsumer(s.pcs[u]) ==> t == u)
      && Ascending(s.delivered, s.enqueued)
      && (!s.lost ==>
            (forall i :: 0 <= i < |s.delivered| ==> s.delivered[i] == i)
            && |s.delivered| + (if s.taken.Some? then 1 else 0) + |s.queue| == s.enqueued)
  {
    StartOk();
    RunKeepsInv(START, actions);
    hide OwnerPlace, Held, ListeningOk, HeardOnce, NoneUnheard, Run;
  }

  /** Events wait, the consumer is there, and no thread will take them. */
  ghost predicate Stranded(s: State) {
    s.emitter && s.queue != [] && forall t :: t in s.pcs ==> !Owns(s.pcs[t])
  }

  ghost predicate Reachable(s: State) { exists actions :: Run(START, actions) == Some(s) }

  /** When all threads are done, nothing was lost and nothing is stranded, every event was delivered and
      heard, once. */
  lemma {:induction false} QuietMeansDelivered(s: State)
    requires Reachable(s) && s.pcs == map[] && s.emitter && !s.lost && !Stranded(s)
    ensures |s.delivered| == s.enqueued && forall i :: 0 <= i < s.enqueued ==> s.delivered[i] == i && i in s.heard
  {
    var actions :| Run(START, actions) == Some(s);
    StartOk();
    RunKeepsInv(START, actions);
    hide OwnerPlace, Run;
  }

  // ----- progress -----

  /** Steps that go on with what was begun. */
  predicate GoesOn(a: Action) { !a.Emit? && !a.EmitImmediate? && !a.Install? }

  /** How a thread can go on. */
  function Onward(pc: Pc, t: nat): Action {
    match pc
    case Listening(_, _) | Delivering(_) => Heard(t)
    case Checking => ReadEmitter(t)
    case Releasing => Release(t)
    case Draining => Take(t)
    case Calling(_) => Accept(t)
  }

  function PcRank(pc: Pc): nat {
    match pc
    case Listening(_, _) => 4
    case Checking => 3
    case Delivering(_) => 2
    case Calling(_) => 1
    case Releasing | Draining => 0
  }

  /** What is left to do without new events. */
  function Rank(s: State): nat {
    10 * |s.pcs| + 4 * |s.queue| + if s.owner.Some? && s.owner.value in s.pcs then PcRank(s.pcs[s.owner.value]) else 0
  }

  lemma IdleRank(s: State, t: nat)
    requires t in s.pcs
    ensures Rank(Idle(s, t)) < Rank(s)
  {
    assert (s.pcs - {t}).Keys == s.pcs.Keys - {t};
  }

  lemma AtRank(s: State, t: nat, pc: Pc)
    requires s.owner == Some(t) && t in s.pcs && Owns(pc)
    ensures Rank(At(s, t, pc)) == Rank(s) - PcRank(s.pcs[t]) + PcRank(pc)
  {
    assert (s.pcs - {t})[t := pc].Keys == s.pcs.Keys;
  }

  lemma {:induction false} HeardRanks(s: State, t: nat)
    requires s.owner == Some(t) && t in s.pcs && Owns(s.pcs[t]) && Step(s, Heard(t)).Some?
    ensures Rank(Step(s, Heard(t)).value) < Rank(s)
  {
    hide Rank, At, Idle;
    SameRank(s);
    match s.pcs[t]
    case Listening(ticket, _) =>
      AtRank(s.(heard := s.heard + {ticket}), t, Checking);
    case Delivering(queued) =>
      var heard := if queued.heard then s else s.(heard := s.heard + {queued.ticket});
      AtRank(heard.(delivered := s.delivered + [queued.ticket]), t, Calling(queued.ticket));
    case _ =>
  }

  lemma {:induction false} TakeRanks(s: State, t: nat)
    requires s.owner == Some(t) && Step(s, Take(t)).Some?
    ensures Rank(Step(s, Take(t)).value) < Rank(s)
  {
    hide Rank, At, Idle;
    SameRank(s);
    if s.queue == [] || !s.emitter {
      IdleRank(s.(dispatching := false), t);
    } else {
      AtRank(s.(queue := s.queue[1..]), t, Delivering(s.queue[0]));
    }
  }

  lemma {:induction false} ReadRanks(s: State, t: nat)
    requires s.owner == Some(t) && Step(s, ReadEmitter(t)).Some?
    ensures Rank(Step(s, ReadEmitter(t)).value) < Rank(s)
  {
    hide Rank, At;
    AtRank(s, t, if s.emitter then Draining else Releasing);
  }

  lemma {:induction false} ReturnRanks(s: State, t: nat)
    requires s.owner == Some(t)
    ensures Step(s, Release(t)).Some? ==> Rank(Step(s, Release(t)).value) < Rank(s)
    ensures Step(s, Accept(t)).Some? ==> Rank(Step(s, Accept(t)).value) < Rank(s)
  {
    hide Rank, At, Idle;
    SameRank(s);
    if Step(s, Release(t)).Some? { IdleRank(s.(dispatching := false), t); }
    if Step(s, Accept(t)).Some? { AtRank(s, t, Draining); }
  }

  lemma {:induction false} DropRanks(s: State, t: nat)
    requires t in s.pcs
    ensures Rank(Drop(s, t, true)) < Rank(s) && Rank(Drop(s, t, s.failed)) < Rank(s)
  {
    hide Rank, Idle;
    SameRank(s);
    IdleRank(s.(queue := [], dispatching := false, failed := true, lost := true), t);
    IdleRank(s.(queue := [], dispatching := false, failed := s.failed, lost := true), t);
  }

  /** The rank looks at the threads, the queue and the owner only. */
  lemma SameRank(s: State)
    ensures forall heard, delivered :: Rank(s.(heard := heard, delivered := delivered)) == Rank(s)
    ensures forall heard :: Rank(s.(heard := heard)) == Rank(s)
    ensures Rank(s.(dispatching := false)) == Rank(s)
    ensures forall failed :: Rank(s.(queue := [], dispatching := false, failed := failed, lost := true)) <= Rank(s)
    ensures s.queue != [] ==> Rank(s.(queue := s.queue[1..])) == Rank(s) - 4
  {}

  lemma {:induction false} ThreadRanks(s: State, a: Action)
    requires OneOwner(s) && GoesOn(a) && Step(s, a).Some?
    ensures Rank(Step(s, a).value) < Rank(s)
  {
    hide Rank, At, Idle, Drop;
    if a.ListenerFails? || a.Refuse? {
      DropRanks(s, a.t);
    } else if Owns(s.pcs[a.t]) {
      assert s.owner == Some(a.t);
      match a
      case Heard(t) => HeardRanks(s, t);
      case ReadEmitter(t) => ReadRanks(s, t);
      case Take(t) => TakeRanks(s, t);
      case _ => ReturnRanks(s, a.t);
    } else {
      SameRank(s);
      IdleRank(s.(heard := s.heard + {s.pcs[a.t].ticket}), a.t);
    }
  }

  /** Every thread inside an emit can go on, and each step that goes on lowers a measure. So when listeners
      and the consumer return and no new events come, all threads are done after finitely many steps,
      whatever the schedule, and `QuietMeansDelivered` applies. */
  lemma {:induction false} ThreadsFinish(actions: seq<Action>)
    requires Run(START, actions).Some?
    ensures var s := Run(START, actions).value;
      && (forall t :: t in s.pcs ==> GoesOn(Onward(s.pcs[t], t)) && Step(s, Onward(s.pcs[t], t)).Some?)
      && (forall a: Action :: GoesOn(a) && Step(s, a).Some? ==> Rank(Step(s, a).value) < Rank(s))
  {
    StartOk();
    RunKeepsInv(START, actions);
    var s := Run(START, actions).value;
    assert OneOwner(s);
    forall a: Action | GoesOn(a) && Step(s, a).Some? ensures Rank(Step(s, a).value) < Rank(s) {
      ThreadRanks(s, a);
    }
    hide Inv, Run, Rank, OneOwner;
  }

  // ----- when a waiting event has a thread responsible for it -----

  /** With the emitter installed and no thread on its way to giving up, waiting events have an owner. */
  ghost predicate Responsible(s: State) {
    && s.emitter && (s.queue != [] ==> s.owner.Some?)
    && (s.failed || forall t :: t in s.pcs ==> s.pcs[t] != Releasing)
  }

  lemma {:induction false} StepKeepsResponsible(s: State, a: Action)
    requires OneOwner(s) && Responsible(s) && Step(s, a).Some?
    ensures Responsible(Step(s, a).value)
  {}

  lemma {:induction false} RunKeepsResponsible(s: State, actions: seq<Action>)
    requires Inv(s) && Responsible(s) && Run(s, actions).Some?
    ensures Responsible(Run(s, actions).value) && Inv(Run(s, actions).value)
  {
    hide Step, Responsible, OneOwner, OwnerPlace, Held, InOrder, ListeningOk, HeardOnce, NoneUnheard;
    if actions != [] {
      var front := actions[..|actions| - 1];
      RunKeepsResponsible(s, front);
      StepKeepsResponsible(Run(s, front).value, actions[|actions| - 1]);
      StepKeepsInv(Run(s, front).value, actions[|actions| - 1]);
    }
  }

  /** An immediate event's thread has read that there is no emitter and is about to act on it. */
  ghost predicate InTheWindow(s: State) {
    s.queue != [] && exists u :: u in s.pcs && s.pcs[u] == Releasing
  }

  ghost predicate MayStrand(s: State) {
    exists actions :: Run(s, actions).Some? && Stranded(Run(s, actions).value)
  }

  /** Installing the emitter is safe, for every continuation, exactly when no immediate event is in that
      window. */
  lemma {:induction false} StrandsExactlyInTheWindow(s: State, t: nat)
    requires Reachable(s) && Step(s, Install(t)).Some?
    ensures MayStrand(Step(s, Install(t)).value) <==> InTheWindow(s)
  {
    var actions :| Run(START, actions) == Some(s);
    StartOk();
    RunKeepsInv(START, actions);
    StepKeepsInv(s, Install(t));
    var installed := Step(s, Install(t)).value;
    if InTheWindow(s) {
      var u :| u in s.pcs && s.pcs[u] == Releasing;
      ReleaseStrands(s, t, u);
    } else {
      SafeInstall(s, t);
      if MayStrand(installed) {
        var more :| Run(installed, more).Some? && Stranded(Run(installed, more).value);
        RunKeepsResponsible(installed, more);
        NotStranded(Run(installed, more).value);
      }
    }
  }

  lemma {:induction false} SafeInstall(s: State, t: nat)
    requires OneOwner(s) && OwnerPlace(s) && Step(s, Install(t)).Some? && !InTheWindow(s)
    ensures Responsible(Step(s, Install(t)).value)
  {}

  lemma NotStranded(s: State)
    requires OneOwner(s) && Responsible(s)
    ensures !Stranded(s)
  {}

  lemma {:induction false} ReleaseStrands(s: State, t: nat, u: nat)
    requires Inv(s) && Step(s, Install(t)).Some? && s.queue != [] && u in s.pcs && s.pcs[u] == Releasing
    ensures MayStrand(Step(s, Install(t)).value)
  {
    hide Held, InOrder, ListeningOk, HeardOnce, NoneUnheard, OwnerPlace;
    var installed := Step(s, Install(t)).value;
    assert Owns(s.pcs[u]);
    assert installed == s.(emitter := true);
    var released := Step(installed, Release(u)).value;
    assert [Release(u)][..0] == [];
    assert Run(installed, [Release(u)]) == Some(released);
    assert Stranded(released);
  }

  /** The window is reachable: an immediate event is heard, its thread reads that there is no emitter. */
  lemma TheWindowIsReachable()
    ensures exists s :: Reachable(s) && InTheWindow(s) && Step(s, Install(1)).Some?
  {
    var one := Step(START, EmitImmediate(0)).value;
    var two := Step(one, Heard(0)).value;
    var three := Step(two, ReadEmitter(0)).value;
    var actions := [EmitImmediate(0), Heard(0), ReadEmitter(0)];
    assert actions[..2] == [EmitImmediate(0), Heard(0)];
    assert actions[..2][..1] == [EmitImmediate(0)] && actions[..2][..1][..0] == [];
    assert Run(START, actions[..2][..1]) == Some(one);
    assert Run(START, actions[..2]) == Some(two);
    assert Run(START, actions) == Some(three);
    assert three.pcs[0] == Releasing && InTheWindow(three);
  }
}
