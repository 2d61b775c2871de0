/** Order, attempts and breaker over every run of the dispatch worker. */
module DispatchRuns {
  import Bytes
  import opened Outcomes
  import opened CircuitBreaking
  import opened DispatchQueue
  import opened DispatchSteps
  import opened DispatchSafety

  // -- Order within a priority ------------------------------------------------

  // Every command offered earlier at the same priority has met its fate.
  ghost predicate EarlierSettled(h: History, n: nat) {
    n < |h.priorities| && forall k: nat :: k < n && h.priorities[k] == h.priorities[n] ==> k in h.fates
  }

  ghost predicate OrderOk(w: Worker) {
    var order := w.past.dispatchOrder;
    && (forall i :: 0 <= i < |order| ==> order[i] in w.past.fates && EarlierSettled(w.past, order[i]))
    && (forall i, j :: 0 <= i < j < |order| && w.past.priorities[order[i]] == w.past.priorities[order[j]] ==>
          order[i] < order[j])
    && (w.inFlight.Some? ==> EarlierSettled(w.past, w.inFlight.value.number))
  }

  // A turn that starts an attempt starts the command of highest priority that was offered
  // first, in time, and only once everything earlier at its priority is settled.
  lemma AttemptIsTheirTurn(w: Worker, now: real, checked: real, granted: real)
    requires PlacesOk(w) && w.inFlight == None && AfterTurn(w, now, checked, granted).inFlight.Some?
    ensures var c := AfterTurn(w, now, checked, granted).inFlight.value;
      && c in w.queue && c.notBefore <= now <= c.expiresAt
      && (forall x :: x in w.queue ==>
            && x.number < |w.past.priorities| && c.number < |w.past.priorities|
            && (x == c || w.past.priorities[x.number] < w.past.priorities[c.number]
                || (w.past.priorities[x.number] == w.past.priorities[c.number] && c.number < x.number)))
      && EarlierSettled(w.past, c.number)
  {
  }

  ghost predicate Grows(a: History, b: History) {
    && a.fates.Keys <= b.fates.Keys && a.dispatchOrder == b.dispatchOrder && |a.priorities| <= |b.priorities|
    && forall k :: 0 <= k < |a.priorities| ==> a.priorities[k] == b.priorities[k]
  }

  lemma StepGrows(w: Worker, e: Event)
    requires Enabled(w, e) && !e.Answered?
    ensures Grows(w.past, Apply(w, e).past)
  {
  }

  lemma OrderKept(w: Worker, v: Worker)
    requires OrderOk(w) && Grows(w.past, v.past)
    requires v.inFlight.Some? ==>
      (w.inFlight.Some? && v.inFlight.value.number == w.inFlight.value.number) ||
      EarlierSettled(w.past, v.inFlight.value.number)
    ensures OrderOk(v)
  {
  }

  lemma AnsweredOrder(w: Worker, now: real)
    requires PlacesOk(w) && OrderOk(w) && w.inFlight.Some?
    ensures OrderOk(AfterSuccess(w, now))
  {
  }

  lemma OrderStep(w: Worker, e: Event)
    requires PlacesOk(w) && OrderOk(w) && Enabled(w, e)
    ensures OrderOk(Apply(w, e))
  {
    if e.Answered? {
      AnsweredOrder(w, e.now);
    } else {
      StepGrows(w, e);
      if e.Turn? && Apply(w, e).inFlight.Some? {
        AttemptIsTheirTurn(w, e.now, e.checked, e.granted);
      }
      hide OrderOk, EarlierSettled, PlacesOk, Grows;
      OrderKept(w, Apply(w, e));
    }
  }

  // -- How often a command can be tried -----------------------------------------

  // The least time between acceptance and the attempt after k failures.
  function Waited(k: nat): real {
    if k == 0 then 0.0 else Waited(k - 1) + Delay(k, 0.0)
  }

  function MaxAttempts(priority: int): nat {
    if priority >= 90 then 14 else if priority >= 5 then 8 else 7
  }

  lemma {:induction false} LongBackoff(k: nat)
    requires k >= 6
    ensures Bytes.Pow2(k) >= 64
  {
    if k == 6 {
      assert Bytes.Pow2(3) == 8;
    } else {
      LongBackoff(k - 1);
    }
  }

  lemma {:induction false} WaitedValue(k: nat)
    requires k >= 6
    ensures Waited(k) == 61.0 + 30.0 * (k - 6) as real
  {
    LongBackoff(k);
    if k == 6 {
      assert Bytes.Pow2(1) == 2 && Bytes.Pow2(2) == 4 && Bytes.Pow2(3) == 8;
      assert Bytes.Pow2(4) == 16 && Bytes.Pow2(5) == 32;
      assert Waited(1) == 1.0;
      assert Waited(3) == 7.0;
      assert Waited(5) == 31.0;
    } else {
      WaitedValue(k - 1);
    }
  }

  lemma {:induction false} WaitedGrows(j: nat, k: nat)
    requires j <= k
    ensures Waited(j) <= Waited(k)
  {
    if j < k {
      WaitedGrows(j, k - 1);
    }
  }

  // The backoffs fit in the lifetime exactly for these many attempts.
  lemma BackoffFits(priority: int, k: nat)
    ensures Waited(k) <= Ttl(priority) <==> k < MaxAttempts(priority)
  {
    var last := MaxAttempts(priority);
    WaitedValue(last);
    WaitedValue(last - 1);
    if k < last {
      WaitedGrows(k, last - 1);
    } else {
      WaitedGrows(last, k);
    }
  }

  // The command's wait so far was at least what its failures call for.
  predicate Paced(c: Command) {
    c.notBefore >= c.expiresAt - Ttl(-c.negPriority) + Waited(c.attempts)
  }

  function Tries(log: seq<Attempt>, n: nat): nat {
    if log == [] then 0
    else Tries(log[..|log| - 1], n) + if log[|log| - 1].command.number == n then 1 else 0
  }

  lemma TriesAppend(log: seq<Attempt>, a: Attempt, n: nat)
    ensures Tries(log + [a], n) == Tries(log, n) + if a.command.number == n then 1 else 0
  {
  }

  // n commands were tried as often as their attempts field says, and no more than the bound.
  ghost predicate QueueTriesOk(q: seq<Command>, log: seq<Attempt>) {
    forall c :: c in q ==> Paced(c) && Tries(log, c.number) == c.attempts
  }

  ghost predicate TriesOk(w: Worker) {
    && QueueTriesOk(w.queue, w.past.attempts)
    && (w.inFlight.Some? ==>
          var c := w.inFlight.value;
          Paced(c) && c.notBefore <= w.past.clock && Tries(w.past.attempts, c.number) == c.attempts + 1)
    && (forall n: nat :: n < NextNumber(w) ==> Tries(w.past.attempts, n) <= MaxAttempts(w.past.priorities[n]))
    && (forall n: nat :: n >= NextNumber(w) ==> Tries(w.past.attempts, n) == 0)
  }

  // v's queue holds at most w's commands and c, and no attempt was made in between.
  ghost predicate Untried(w: Worker, v: Worker, c: Command) {
    && (forall x :: x in v.queue ==> x in w.queue || x == c)
    && v.inFlight == w.inFlight && v.past.attempts == w.past.attempts && w.past.clock <= v.past.clock
  }

  lemma ArriveUntried(w: Worker, priority: int, now: real, purgedAt: real)
    requires w.past.clock <= now <= purgedAt
    ensures Untried(w, Enqueued(w, priority, now, purgedAt), NewCommand(w, priority, now))
    ensures Enqueued(w, priority, now, purgedAt).past.priorities == w.past.priorities + [priority]
  {
    var c := NewCommand(w, priority, now);
    InsertHolds(w.queue, c);
    UnexpiredIsExact(w.queue, purgedAt);
    InsertHolds(Unexpired(w.queue, purgedAt), c);
  }

  lemma ArriveTries(w: Worker, priority: int, now: real, purgedAt: real)
    requires TriesOk(w) && w.past.clock <= now <= purgedAt
    ensures TriesOk(Enqueued(w, priority, now, purgedAt))
  {
    ArriveUntried(w, priority, now, purgedAt);
    var c := NewCommand(w, priority, now);
    assert Paced(c) && Tries(w.past.attempts, c.number) == c.attempts;
    hide Paced, Tries, Enqueued, NewCommand;
  }

  lemma RetryPaced(c: Command, at: real, jitter: real)
    requires Paced(c) && c.notBefore <= at && jitter >= 0.0
    ensures Paced(Retried(c, at, jitter))
  {
  }

  lemma FinishTries(w: Worker, e: Event)
    requires Enabled(w, e) && TriesOk(w) && (e.Answered? || e.NotDelivered?)
    ensures TriesOk(Apply(w, e))
  {
    if e.NotDelivered? {
      var c := w.inFlight.value;
      RetryPaced(c, e.requeuedAt, e.jitter);
      hide Paced, Tries;
      InsertHolds(w.queue, Retried(c, e.requeuedAt, e.jitter));
    }
  }

  lemma StartTries(w: Worker, c: Command, at: real, now: real, circuit: Breaker)
    requires PlacesOk(w) && TriesOk(w) && w.inFlight == None && w.queue != [] && c == w.queue[0]
    requires c.notBefore <= now <= c.expiresAt && w.past.clock <= now <= at
    ensures TriesOk(StartAttempt(w.(queue := w.queue[1..], circuit := circuit), c, at))
  {
    PartitionTake(w.queue, w.past.fates, w.past.priorities);
    assert c in w.queue && c in {c} && Known(c, w.past.fates, w.past.priorities);
    BackoffFits(-c.negPriority, c.attempts);
    var a := Attempt(c, at, w.past.streak, w.past.lastFailureAt);
    forall n: nat
      ensures Tries(w.past.attempts + [a], n) == Tries(w.past.attempts, n) + if c.number == n then 1 else 0
    {
      TriesAppend(w.past.attempts, a, n);
    }
    hide Paced, Waited, Tries, Sorted, Known;
    forall x | x in w.queue[1..]
      ensures x.number != c.number && x in w.queue
    {
      assert !Holds(w.queue[1..], c.number);
    }
  }

  lemma TurnUntried(w: Worker, now: real, checked: real, granted: real)
    requires Sorted(w.queue) && Enabled(w, Turn(now, checked, granted)) && w.queue != []
    ensures var v := AfterTurn(w, now, checked, granted);
      v.past.priorities == w.past.priorities && (v.inFlight == None ==> Untried(w, v, w.queue[0]))
  {
    InsertHead(w.queue);
  }

  lemma TurnTries(w: Worker, now: real, checked: real, granted: real)
    requires PlacesOk(w) && TriesOk(w) && Enabled(w, Turn(now, checked, granted))
    ensures TriesOk(AfterTurn(w, now, checked, granted))
  {
    if w.queue != [] {
      var item := w.queue[0];
      if AfterTurn(w, now, checked, granted).inFlight.Some? {
        hide PlacesOk, TriesOk, Reinserted, StartAttempt;
        var (_, circuit) := Allow(w.circuit, checked, granted);
        StartTries(w, item, granted, now, circuit);
        StartIgnoresClock(w.(queue := w.queue[1..], circuit := circuit), item, granted);
      } else {
        assert item in w.queue;
        hide PlacesOk, AfterTurn, Paced, Tries;
        TurnUntried(w, now, checked, granted);
      }
    }
  }

  lemma StartIgnoresClock(w: Worker, c: Command, at: real)
    ensures StartAttempt(w.(past := w.past.(clock := at)), c, at) == StartAttempt(w, c, at)
  {
  }

  lemma TriesStep(w: Worker, e: Event)
    requires PlacesOk(w) && TriesOk(w) && Enabled(w, e)
    ensures TriesOk(Apply(w, e))
  {
    hide PlacesOk, TriesOk;
    match e
    case Arrive(priority, now, purgedAt) => ArriveTries(w, priority, now, purgedAt);
    case Turn(now, checked, granted) => TurnTries(w, now, checked, granted);
    case _ => FinishTries(w, e);
  }

  // -- The breaker --------------------------------------------------------------

  // Five failures in a row or more, and the next attempt waits.
  predicate Rested(a: Attempt) {
    a.streak >= FAILURE_THRESHOLD ==> a.startedAt >= a.lastFailureAt + RESET_TIMEOUT
  }

  predicate BreakerOk(w: Worker) {
    && w.circuit.failures == w.past.streak
    && (w.circuit.state.Closed? <==> w.circuit.failures < FAILURE_THRESHOLD)
    && (w.circuit.state.Open? ==> w.circuit.openedAt == w.past.lastFailureAt)
    && (w.circuit.state.HalfOpen? ==> w.inFlight.Some?)
    && (forall i :: 0 <= i < |w.past.attempts| ==> Rested(w.past.attempts[i]))
  }

  lemma BreakerStep(w: Worker, e: Event)
    requires BreakerOk(w) && Enabled(w, e)
    ensures BreakerOk(Apply(w, e))
  {
  }

  // -- Whole runs -----------------------------------------------------------------

  ghost predicate Safe(w: Worker) {
    PlacesOk(w) && CountsOk(w) && FatesOk(w) && OrderOk(w) && TriesOk(w) && BreakerOk(w)
  }

  lemma PlacesStep(w: Worker, e: Event)
    requires PlacesOk(w) && Enabled(w, e)
    ensures PlacesOk(Apply(w, e))
  {
    hide PlacesOk;
    match e
    case Arrive(priority, now, purgedAt) => ArrivePlaces(w, priority, now, purgedAt);
    case Turn(now, checked, granted) => TurnPlaces(w, now, checked, granted);
    case _ => FinishPlaces(w, e);
  }

  lemma FatesStep(w: Worker, e: Event)
    requires PlacesOk(w) && FatesOk(w) && Enabled(w, e)
    ensures FatesOk(Apply(w, e))
  {
    hide PlacesOk, FatesOk;
    match e
    case Arrive(priority, now, purgedAt) => ArriveFates(w, priority, now, purgedAt);
    case Turn(now, checked, granted) => TurnFates(w, now, checked, granted);
    case _ => FinishFates(w, e);
  }

  lemma SafeStep(w: Worker, e: Event)
    requires Safe(w) && Enabled(w, e)
    ensures Safe(Apply(w, e))
  {
    assert Sorted(w.queue);
    hide PlacesOk, CountsOk, FatesOk, OrderOk, TriesOk, BreakerOk, Apply, Enabled, Sorted;
    PlacesStep(w, e);
    CountsStep(w, e);
    FatesStep(w, e);
    OrderStep(w, e);
    TriesStep(w, e);
    BreakerStep(w, e);
  }

  lemma {:induction false} RunKeepsSafe(w: Worker, events: seq<Event>)
    requires Safe(w) && Possible(w, events)
    ensures Safe(Execute(w, events)) && Execute(w, events).maxsize == w.maxsize
    decreases |events|
  {
    hide Safe, Apply, Enabled;
    if events != [] {
      SafeStep(w, events[0]);
      SameMaxsize(w, events[0]);
      RunKeepsSafe(Apply(w, events[0]), events[1..]);
    }
  }

  lemma SameMaxsize(w: Worker, e: Event)
    requires Enabled(w, e)
    ensures Apply(w, e).maxsize == w.maxsize
  {
  }

  lemma EveryRunSafe(maxsize: nat, events: seq<Event>)
    requires Possible(InitialWorker(maxsize), events)
    ensures Safe(Execute(InitialWorker(maxsize), events))
    ensures Execute(InitialWorker(maxsize), events).maxsize == maxsize
  {
    RunKeepsSafe(InitialWorker(maxsize), events);
  }

  // Offered commands are queued, in flight, or counted, save those a retry dropped.
  lemma EveryRunConserves(maxsize: nat, events: seq<Event>)
    requires Possible(InitialWorker(maxsize), events)
    ensures var w := Execute(InitialWorker(maxsize), events);
      && NextNumber(w) == |w.queue| + (if w.inFlight.Some? then 1 else 0)
                          + w.dispatched + w.expired + w.rejected + w.past.dropped
      && (maxsize > 0 ==> |w.queue| <= maxsize)
  {
    EveryRunSafe(maxsize, events);
    var w := Execute(InitialWorker(maxsize), events);
    assert CountsOk(w);
  }

  // The counters count commands: as many as met each fate, and each offered command has
  // met one, or is queued, or is in flight.
  lemma EveryRunSettles(maxsize: nat, events: seq<Event>)
    requires Possible(InitialWorker(maxsize), events)
    ensures var w := Execute(InitialWorker(maxsize), events);
      && w.dispatched == |WithFate(w.past.fates, Dispatched)| && w.expired == |WithFate(w.past.fates, Expired)|
      && w.rejected == |WithFate(w.past.fates, Rejected)| && w.past.dropped == |WithFate(w.past.fates, Dropped)|
      && (forall n: nat :: n in w.past.dispatchOrder <==> n in w.past.fates && w.past.fates[n] == Dispatched)
      && forall n: nat :: n < NextNumber(w) <==>
           n in w.past.fates || Holds(w.queue, n) || (w.inFlight.Some? && w.inFlight.value.number == n)
  {
    EveryRunSafe(maxsize, events);
    var w := Execute(InitialWorker(maxsize), events);
    assert FatesOk(w) && PlacesOk(w);
    forall n: nat | n in w.past.dispatchOrder
      ensures n in WithFate(w.past.fates, Dispatched)
    {
    }
    assert w.inFlight.Some? ==> w.inFlight.value in Held(w);
  }

  // A command leaves uncounted exactly when a failed attempt finds the queue full again.
  lemma OnlyRetryDrops(w: Worker, e: Event)
    requires Safe(w) && Enabled(w, e)
    ensures Apply(w, e).past.dropped ==
              w.past.dropped + if e.NotDelivered? && Full(w.queue, w.maxsize) then 1 else 0
  {
  }

  // A turn that neither attempts nor expires its command leaves the queue as it was.
  lemma TurnPutsBack(w: Worker, e: Event)
    requires Safe(w) && Enabled(w, e) && e.Turn?
    requires Apply(w, e).inFlight == None && Apply(w, e).expired == w.expired
    ensures Apply(w, e).queue == w.queue && Apply(w, e).past.fates == w.past.fates
  {
    hide FatesOk, OrderOk, TriesOk, BreakerOk;
    if w.queue != [] {
      InsertHead(w.queue);
    }
  }

  // Successes come in order within a priority, none twice, each after all before it settled.
  lemma EveryRunOrdered(maxsize: nat, events: seq<Event>, i: nat, j: nat)
    requires Possible(InitialWorker(maxsize), events)
    requires i < j < |Execute(InitialWorker(maxsize), events).past.dispatchOrder|
    ensures var h := Execute(InitialWorker(maxsize), events).past;
      var (m, n) := (h.dispatchOrder[i], h.dispatchOrder[j]);
      && m != n && m < |h.priorities| && n < |h.priorities|
      && (h.priorities[m] == h.priorities[n] ==> m < n)
      && EarlierSettled(h, n)
  {
    EveryRunSafe(maxsize, events);
    var w := Execute(InitialWorker(maxsize), events);
    assert OrderOk(w);
    assert EarlierSettled(w.past, w.past.dispatchOrder[i]) && EarlierSettled(w.past, w.past.dispatchOrder[j]);
  }

  // Whatever the jitter and timing, no command is attempted more often than this.
  lemma EveryRunBounded(maxsize: nat, events: seq<Event>, n: nat)
    requires Possible(InitialWorker(maxsize), events)
    requires n < NextNumber(Execute(InitialWorker(maxsize), events))
    ensures var h := Execute(InitialWorker(maxsize), events).past;
      Tries(h.attempts, n) <= MaxAttempts(h.priorities[n])
  {
    EveryRunSafe(maxsize, events);
    assert TriesOk(Execute(InitialWorker(maxsize), events));
  }

  // Between turns no probe is outstanding; after five failures in a row every attempt
  // comes at least the reset timeout after the failure before it.
  lemma EveryRunRests(maxsize: nat, events: seq<Event>)
    requires Possible(InitialWorker(maxsize), events)
    ensures var w := Execute(InitialWorker(maxsize), events);
      && (w.inFlight == None ==> !w.circuit.state.HalfOpen?)
      && (w.circuit.state.Closed? <==> w.circuit.failures < FAILURE_THRESHOLD)
      && w.circuit.failures == w.past.streak
      && forall i :: 0 <= i < |w.past.attempts| ==> Rested(w.past.attempts[i])
  {
    EveryRunSafe(maxsize, events);
    assert BreakerOk(Execute(InitialWorker(maxsize), events));
  }
}
