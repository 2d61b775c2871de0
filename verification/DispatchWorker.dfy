/** The aggregator's delivery worker: a bounded priority queue with lifetimes, retries with
    backoff, and a circuit breaker. */
module DispatchWorking {
  import opened Outcomes
  import opened CircuitBreaking
  import opened DispatchQueue
  import opened DispatchSteps
  import opened DispatchSafety
  import opened DispatchRuns
  import opened DispatchEffects

  class DispatchWorker {
    const maxsize: nat
    const circuit: CircuitBreaker
    var queue: seq<Command>
    var nextSeq: nat
    var dispatchedTotal: nat
    var failedTotal: nat
    var expiredTotal: nat
    var rejectedTotal: nat
    var inFlight: Option<Command>   // the command whose request is awaited
    ghost var past: History

    ghost function View(): Worker
      reads this, circuit
    {
      Worker(queue, maxsize, circuit.View(), inFlight, dispatchedTotal, failedTotal, expiredTotal, rejectedTotal, past)
    }

    ghost predicate Valid()
      reads this, circuit
    {
      nextSeq == NextNumber(View()) && Safe(View())
    }

    constructor (maxsize: nat)
      ensures Valid() && fresh(circuit) && View() == InitialWorker(maxsize)
      ensures inFlight == None && past.clock == 0.0
    {
      this.maxsize := maxsize;
      circuit := new CircuitBreaker();
      queue, nextSeq, inFlight := [], 0, None;
      dispatchedTotal, failedTotal, expiredTotal, rejectedTotal := 0, 0, 0, 0;
      past := History([], map[], [], [], 0, 0, 0.0, 0.0);
      InitiallySafe(maxsize);
    }

    // Empties the queue, counting what has expired.
    method Drain(now: real) returns (kept: seq<Command>, dropped: nat)
      modifies this`queue, this`expiredTotal
      ensures queue == [] && kept == Unexpired(old(queue), now)
      ensures dropped == |old(queue)| - |kept| && expiredTotal == old(expiredTotal) + dropped
    {
      kept, dropped := [], 0;
      ghost var i := 0;
      assert queue[..0] == [];
      while queue != []
        invariant 0 <= i <= |old(queue)| && queue == old(queue)[i..]
        invariant kept == Unexpired(old(queue)[..i], now) && |kept| + dropped == i
        invariant expiredTotal == old(expiredTotal) + dropped
        decreases |queue|
      {
        var queued := queue[0];
        assert old(queue)[..i + 1][..i] == old(queue)[..i];
        queue := queue[1..];
        if now > queued.expiresAt {
          dropped := dropped + 1;
          expiredTotal := expiredTotal + 1;
        } else {
          kept := kept + [queued];
        }
        i := i + 1;
      }
      assert old(queue)[..i] == old(queue);
    }

    method Refill(kept: seq<Command>)
      requires queue == [] && Sorted(kept)
      modifies this`queue
      ensures queue == kept
    {
      var j := 0;
      while j < |kept|
        invariant 0 <= j <= |kept| && queue == kept[..j]
      {
        InsertLast(queue, kept[j]);
        queue := Insert(queue, kept[j]);
        j := j + 1;
      }
    }

    method PurgeExpired(now: real) returns (dropped: nat)
      requires Sorted(queue)
      modifies this`queue, this`expiredTotal, this`past
      ensures View() == Purged(old(View()), now)
      ensures dropped == old(|queue|) - |queue|
    {
      UnexpiredSorted(queue, now);
      ghost var was := queue;
      var kept: seq<Command>;
      kept, dropped := Drain(now);
      Refill(kept);
      past := ExpireAll(past, was, now).(clock := now);
    }

    method Put(c: Command) returns (ok: bool)
      modifies this`queue
      ensures ok == !Full(old(queue), maxsize)
      ensures queue == if ok then Insert(old(queue), c) else old(queue)
    {
      ok := !Full(queue, maxsize);
      if ok {
        queue := Insert(queue, c);
      }
    }

    // The clock, which never goes back, is read at now and, to purge, at purgedAt.
    method Enqueue(priority: int, now: real, purgedAt: real)
      requires Valid() && Enabled(View(), Arrive(priority, now, purgedAt))
      modifies this`queue, this`nextSeq, this`expiredTotal, this`rejectedTotal, this`past
      ensures Valid() && View() == Enqueued(old(View()), priority, now, purgedAt)
      ensures inFlight == old(inFlight) && past.clock <= purgedAt
      ensures nextSeq == old(nextSeq) + 1 == |past.priorities| && (maxsize > 0 ==> |queue| <= maxsize)
      // Rejected only if the queue is full of commands that have not expired; otherwise queued.
      ensures rejectedTotal == old(rejectedTotal) +
        if 0 < maxsize <= |old(queue)| && (forall c :: c in old(queue) ==> purgedAt <= c.expiresAt) then 1 else 0
      ensures rejectedTotal == old(rejectedTotal) ==> Arriving(old(nextSeq), priority, now) in queue
      ensures maxsize == 0 || |old(queue)| < maxsize ==>
        expiredTotal == old(expiredTotal) && forall c :: c in old(queue) ==> c in queue
      ensures expiredTotal - old(expiredTotal) ==
        |old(queue)| - |queue| + if rejectedTotal == old(rejectedTotal) then 1 else 0
    {
      hide Insert, Unexpired, ExpireAll, Safe, Arriving;
      QueueOf(View());
      EnqueuedIs(View(), priority, now, purgedAt);
      SafeStep(View(), Arrive(priority, now, purgedAt));
      QueueOf(Enqueued(View(), priority, now, purgedAt));
      var item := Command(-priority, nextSeq, now, now + Ttl(priority), 0);
      nextSeq := nextSeq + 1;
      past := past.(priorities := past.priorities + [priority], clock := now);
      var ok := Put(item);
      if ok {
        return;
      }
      var dropped := PurgeExpired(purgedAt);
      ok := Put(item);
      if !ok {
        rejectedTotal := rejectedTotal + 1;
        past := Settle(past, item.number, Rejected);
      }
    }

    method Reinsert(item: Command) returns (ok: bool)
      modifies this`queue, this`past
      ensures View() == Reinserted(old(View()), item)
      ensures ok == !Full(old(queue), maxsize) && past.priorities == old(past).priorities
    {
      ok := Put(item);
      if !ok {
        past := Settle(past, item.number, Dropped).(dropped := past.dropped + 1);
      }
    }

    // Both reinserts find room: no await stands between taking the head and putting it back.
    method RunOnce(now: real, checked: real, granted: real) returns (attempting: bool)
      requires Valid() && Enabled(View(), Turn(now, checked, granted))
      modifies this`queue, this`expiredTotal, this`inFlight, this`past, circuit
      ensures Valid() && View() == AfterTurn(old(View()), now, checked, granted)
      ensures attempting == inFlight.Some? && past.dropped == old(past).dropped && past.clock <= granted
    {
      hide Safe;
      QueueOf(View());
      SafeStep(View(), Turn(now, checked, granted));
      if queue == [] {
        return false;
      }
      var item := queue[0];
      InsertHead(queue);
      queue := queue[1..];
      past := past.(clock := granted);
      if now > item.expiresAt {
        expiredTotal := expiredTotal + 1;
        past := Settle(past, item.number, Expired);
        return false;
      }
      if now < item.notBefore {
        var ok := Reinsert(item);
        assert ok;
        return false;
      }
      var allowed := circuit.AllowRequest(checked, granted);
      if !allowed {
        var ok := Reinsert(item);
        assert ok;
        return false;
      }
      inFlight := Some(item);
      past := past.(attempts := past.attempts + [Attempt(item, granted, past.streak, past.lastFailureAt)],
        clock := granted);
      return true;
    }

    method Succeeded(now: real)
      requires Valid() && Enabled(View(), Answered(now))
      modifies this`inFlight, this`dispatchedTotal, this`past, circuit
      ensures Valid() && View() == AfterSuccess(old(View()), now)
      ensures inFlight == None && past.clock == now
    {
      hide Safe;
      SafeStep(View(), Answered(now));
      circuit.RecordSuccess();
      dispatchedTotal := dispatchedTotal + 1;
      past := Settle(past, inFlight.value.number, Dispatched).(
        dispatchOrder := past.dispatchOrder + [inFlight.value.number], streak := 0, clock := now);
      inFlight := None;
    }

    // Any other answer or error: record it, back off, put the command back.
    method Failed(failedAt: real, requeuedAt: real, jitter: real)
      requires Valid() && Enabled(View(), NotDelivered(failedAt, requeuedAt, jitter))
      modifies this`queue, this`inFlight, this`failedTotal, this`past, circuit
      ensures Valid() && View() == AfterFailure(old(View()), failedAt, requeuedAt, jitter)
      ensures inFlight == None && past.clock == requeuedAt
    {
      hide Safe;
      SafeStep(View(), NotDelivered(failedAt, requeuedAt, jitter));
      failedTotal := failedTotal + 1;
      circuit.RecordFailure(failedAt);
      past := past.(streak := past.streak + 1, lastFailureAt := failedAt, clock := requeuedAt);
      var item := inFlight.value;
      item := item.(attempts := item.attempts + 1);
      item := item.(notBefore := requeuedAt + Delay(item.attempts, jitter));
      inFlight := None;
      var ok := Reinsert(item);
    }

    // Any run: arrivals, turns and answers as they come.
    method Run(events: seq<Event>)
      requires Valid() && Possible(View(), events)
      modifies this, circuit
      ensures Valid() && View() == Execute(old(View()), events)
    {
      hide Safe, Enqueued, AfterTurn, AfterSuccess, AfterFailure;
      var i := 0;
      assert events[0..] == events;
      while i < |events|
        invariant 0 <= i <= |events| && Valid() && Possible(View(), events[i..])
        invariant Execute(old(View()), events) == Execute(View(), events[i..])
      {
        assert events[i..][0] == events[i] && events[i..][1..] == events[i + 1..];
        match events[i] {
          case Arrive(priority, now, purgedAt) => Enqueue(priority, now, purgedAt);
          case Turn(now, checked, granted) => var attempting := RunOnce(now, checked, granted);
          case Answered(now) => Succeeded(now);
          case NotDelivered(failedAt, requeuedAt, jitter) => Failed(failedAt, requeuedAt, jitter);
        }
        i := i + 1;
      }
    }
  }

  lemma InitiallySafe(maxsize: nat)
    ensures Safe(InitialWorker(maxsize))
  {
  }

  // What the queue operations need to know of it.
  lemma QueueOf(w: Worker)
    requires Safe(w)
    ensures Sorted(w.queue) && (w.maxsize > 0 ==> |w.queue| <= w.maxsize)
  {
  }
}
