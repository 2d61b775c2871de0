/** Runs of the dispatch worker that reach its limits: as many attempts as the bounds allow,
    and a command lost between the counters. */
module DispatchBounds {
  import Bytes
  import opened Outcomes
  import opened CircuitBreaking
  import opened DispatchQueue
  import opened DispatchSteps
  import opened DispatchSafety
  import opened DispatchRuns

  // When the k-th attempt of a command offered at time 0 can take place, if every attempt
  // fails at once: after its backoff, and from the sixth on after the breaker's rest.
  function TryAt(k: nat): real {
    if k <= 1 then 0.0 else if k == 2 then 1.0 else if k == 3 then 3.0 else if k == 4 then 7.0
    else if k == 5 then 15.0 else 45.0 + 30.0 * (k - 6) as real
  }

  function RetryAt(k: nat): real {
    if k == 0 then 0.0 else TryAt(k) + Delay(k, 0.0)
  }

  function Round(k: nat): seq<Event> {
    [Turn(TryAt(k), TryAt(k), TryAt(k)), NotDelivered(TryAt(k), TryAt(k), 0.0)]
  }

  function Rounds(k: nat, n: nat): seq<Event>
    decreases n + 1 - k
  {
    if k > n then [] else Round(k) + Rounds(k + 1, n)
  }

  // The worker after k failed attempts at its only command.
  predicate Failing(w: Worker, priority: int, k: nat) {
    && w.queue == [Command(-priority, 0, RetryAt(k), Ttl(priority), k)]
    && w.inFlight == None && w.past.priorities == [priority] && w.past.clock == TryAt(k)
    && w.circuit.failures == k
    && (if k < FAILURE_THRESHOLD then w.circuit.state.Closed?
        else w.circuit.state.Open? && w.circuit.openedAt == TryAt(k))
    && Tries(w.past.attempts, 0) == k
  }

  // Each attempt is in time: after the backoff and the rest, and within the lifetime.
  lemma InTime(priority: int, k: nat)
    requires 1 <= k <= MaxAttempts(priority)
    ensures RetryAt(k - 1) <= TryAt(k) <= Ttl(priority) && TryAt(k - 1) <= TryAt(k)
    ensures k > FAILURE_THRESHOLD ==> TryAt(k) - TryAt(k - 1) >= RESET_TIMEOUT
  {
    if k > 6 {
      LongBackoff(k - 1);
    } else {
      assert Bytes.Pow2(1) == 2 && Bytes.Pow2(2) == 4 && Bytes.Pow2(3) == 8;
      assert Bytes.Pow2(4) == 16 && Bytes.Pow2(5) == 32;
    }
  }

  lemma TurnStarts(w: Worker, priority: int, k: nat)
    requires 1 <= k <= MaxAttempts(priority) && Failing(w, priority, k - 1)
    ensures Enabled(w, Round(k)[0])
    ensures var v := Apply(w, Round(k)[0]);
      && v.inFlight == Some(w.queue[0]) && v.queue == [] && v.maxsize == w.maxsize && v.past.clock == TryAt(k)
      && v.past.priorities == [priority] && Tries(v.past.attempts, 0) == k
      && v.circuit.failures == k - 1 && (v.circuit.state.Closed? <==> k - 1 < FAILURE_THRESHOLD)
      && !v.circuit.state.Open?
  {
    InTime(priority, k);
    TriesAppend(w.past.attempts, Attempt(w.queue[0], TryAt(k), w.past.streak, w.past.lastFailureAt), 0);
    hide Delay, Tries, MaxAttempts, TryAt;
  }

  lemma TwoEvents(w: Worker, a: Event, b: Event)
    requires Enabled(w, a) && Enabled(Apply(w, a), b)
    ensures Possible(w, [a, b]) && Execute(w, [a, b]) == Apply(Apply(w, a), b)
  {
    hide Enabled, Apply;
    assert [a, b][1..] == [b] && [b][1..] == [];
    var v := Apply(w, a);
    var u := Apply(v, b);
    assert Possible(u, []) && Execute(u, []) == u;
    assert Possible(v, [b]) && Execute(v, [b]) == u;
  }

  lemma RoundFails(w: Worker, priority: int, k: nat)
    requires 1 <= k <= MaxAttempts(priority) && Failing(w, priority, k - 1)
    ensures Possible(w, Round(k)) && Failing(Execute(w, Round(k)), priority, k)
    ensures Execute(w, Round(k)).maxsize == w.maxsize
  {
    TurnStarts(w, priority, k);
    hide AfterTurn, Delay, Tries, TryAt;
    TwoEvents(w, Round(k)[0], Round(k)[1]);
  }

  lemma {:induction false} RunAppend(w: Worker, a: seq<Event>, b: seq<Event>)
    requires Possible(w, a) && Possible(Execute(w, a), b)
    ensures Possible(w, a + b) && Execute(w, a + b) == Execute(Execute(w, a), b)
    decreases |a|
  {
    hide Apply, Enabled;
    if a == [] {
      assert a + b == b;
    } else {
      assert (a + b)[0] == a[0] && (a + b)[1..] == a[1..] + b;
      RunAppend(Apply(w, a[0]), a[1..], b);
    }
  }

  lemma {:induction false} RoundsFail(w: Worker, priority: int, k: nat, n: nat)
    requires 1 <= k <= n + 1 && n <= MaxAttempts(priority) && Failing(w, priority, k - 1)
    ensures Possible(w, Rounds(k, n)) && Failing(Execute(w, Rounds(k, n)), priority, n)
    decreases n + 1 - k
  {
    hide Failing, Round;
    if k <= n {
      RoundFails(w, priority, k);
      RoundsFail(Execute(w, Round(k)), priority, k + 1, n);
      RunAppend(w, Round(k), Rounds(k + 1, n));
    }
  }

  // For each priority and every size of queue, a run makes as many attempts as allowed.
  lemma BoundIsAttained(maxsize: nat, priority: int)
    ensures exists events ::
      && Possible(InitialWorker(maxsize), events)
      && Tries(Execute(InitialWorker(maxsize), events).past.attempts, 0) == MaxAttempts(priority)
  {
    var w, arrival := InitialWorker(maxsize), [Arrive(priority, 0.0, 0.0)];
    assert arrival[1..] == [];
    assert Possible(w, arrival) && Failing(Execute(w, arrival), priority, 0);
    var rounds := Rounds(1, MaxAttempts(priority));
    hide Failing, Rounds, MaxAttempts, Tries;
    RoundsFail(Execute(w, arrival), priority, 1, MaxAttempts(priority));
    RunAppend(w, arrival, rounds);
    FailingTries(Execute(w, arrival + rounds), priority, MaxAttempts(priority));
  }

  lemma FailingTries(w: Worker, priority: int, k: nat)
    requires Failing(w, priority, k)
    ensures Tries(w.past.attempts, 0) == k
  {
  }

  // -- A lost command -------------------------------------------------------------

  function Arrivals(n: nat): seq<Event> {
    if n == 0 then [] else [Arrive(0, 0.0, 0.0)] + Arrivals(n - 1)
  }

  // Arrivals at time 0 only lengthen a queue that has room for them.
  lemma {:induction false} ArrivalsQueue(w: Worker, n: nat)
    requires (w.maxsize > 0 ==> |w.queue| + n <= w.maxsize) && w.past.clock == 0.0
    ensures Possible(w, Arrivals(n))
    ensures var v := Execute(w, Arrivals(n));
      && |v.queue| == |w.queue| + n && v.inFlight == w.inFlight && v.maxsize == w.maxsize && v.past.clock == 0.0
      && v.past.fates == w.past.fates && v.dispatched == w.dispatched && v.expired == w.expired
      && v.rejected == w.rejected
    decreases n
  {
    if n > 0 {
      var v := Apply(w, Arrive(0, 0.0, 0.0));
      assert Arrivals(n)[1..] == Arrivals(n - 1);
      ArrivalsQueue(v, n - 1);
    }
  }

  // A command is tried, as many arrive meanwhile as the queue holds, and the attempt fails.
  function LosingRun(maxsize: nat): seq<Event> {
    [Arrive(0, 0.0, 0.0), Turn(0.0, 0.0, 0.0)] + Arrivals(maxsize) + [NotDelivered(1.0, 1.0, 0.0)]
  }

  // Then it is gone, and no counter tells, whatever the size of the queue.
  lemma RetryCanDrop(maxsize: nat)
    requires maxsize > 0
    ensures Possible(InitialWorker(maxsize), LosingRun(maxsize))
    ensures var w := Execute(InitialWorker(maxsize), LosingRun(maxsize));
      && w.past.fates == map[0 := Dropped] && |w.queue| == maxsize && w.inFlight == None
      && w.dispatched == w.expired == w.rejected == 0
  {
    var w, start := InitialWorker(maxsize), [Arrive(0, 0.0, 0.0), Turn(0.0, 0.0, 0.0)];
    assert start[1..] == [Turn(0.0, 0.0, 0.0)] && start[1..][1..] == [];
    var v := Execute(w, start);
    assert Possible(w, start) && v.queue == [] && v.past.fates == map[];
    assert v.inFlight.Some? && v.inFlight.value.number == 0;
    ArrivalsQueue(v, maxsize);
    var u, last := Execute(v, Arrivals(maxsize)), [NotDelivered(1.0, 1.0, 0.0)];
    assert last[1..] == [];
    assert Possible(u, last);
    RunAppend(w, start, Arrivals(maxsize));
    RunAppend(w, start + Arrivals(maxsize), last);
  }
}
