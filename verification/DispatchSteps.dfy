/** What the delivery worker's operations do to its state, and to the history of its
    commands. Times are seconds on a monotonic clock. */
module DispatchSteps {
  import Bytes
  import opened Outcomes
  import opened CircuitBreaking
  import opened DispatchQueue

  const BACKOFF_BASE := 0.5
  const BACKOFF_MAX := 30.0

  function Ttl(priority: int): real {
    if priority >= 90 then 300.0 else if priority >= 5 then 120.0 else 90.0
  }

  function Delay(attempts: nat, jitter: real): real {
    var raw := BACKOFF_BASE * Bytes.Pow2(attempts) as real + jitter;
    if raw < BACKOFF_MAX then raw else BACKOFF_MAX
  }

  datatype Fate = Dispatched | Expired | Rejected | Dropped

  // An attempt: its command, and the failures in a row and the latest failure before it.
  datatype Attempt = Attempt(command: Command, startedAt: real, streak: nat, lastFailureAt: real)

  // What happened so far, by command number.
  datatype History = History(
    priorities: seq<int>,
    fates: map<nat, Fate>,
    dispatchOrder: seq<nat>,
    attempts: seq<Attempt>,
    dropped: nat,
    streak: nat,
    lastFailureAt: real,
    clock: real)

  datatype Worker = Worker(
    queue: seq<Command>,
    maxsize: nat,
    circuit: Breaker,
    inFlight: Option<Command>,
    dispatched: nat,
    failed: nat,
    expired: nat,
    rejected: nat,
    past: History)

  function NextNumber(w: Worker): nat {
    |w.past.priorities|
  }

  function InitialWorker(maxsize: nat): Worker {
    Worker([], maxsize, INITIAL_BREAKER, None, 0, 0, 0, 0, History([], map[], [], [], 0, 0, 0.0, 0.0))
  }

  // -- Specification of the operations ---------------------------------------

  function Settle(h: History, number: nat, fate: Fate): History {
    h.(fates := h.fates[number := fate])
  }

  function ExpiredNumbers(q: seq<Command>, now: real): set<nat> {
    set c | c in q && now > c.expiresAt :: c.number
  }

  function ExpireAll(h: History, q: seq<Command>, now: real): (r: History)
    ensures r == h.(fates := r.fates)
  {
    h.(fates := h.fates + map n | n in ExpiredNumbers(q, now) :: Expired)
  }

  function Purged(w: Worker, now: real): Worker {
    var kept := Unexpired(w.queue, now);
    w.(queue := kept, expired := w.expired + |w.queue| - |kept|,
       past := ExpireAll(w.past, w.queue, now).(clock := now))
  }

  // A maximum of zero means no bound.
  predicate Full(q: seq<Command>, maxsize: nat) {
    0 < maxsize <= |q|
  }

  // Putting a command back; a full queue loses it, and no counter tells.
  function Reinserted(w: Worker, c: Command): Worker {
    if !Full(w.queue, w.maxsize) then w.(queue := Insert(w.queue, c))
    else w.(past := Settle(w.past, c.number, Dropped).(dropped := w.past.dropped + 1))
  }

  function NewCommand(w: Worker, priority: int, now: real): Command {
    Command(-priority, NextNumber(w), now, now + Ttl(priority), 0)
  }

  function Enqueued(w: Worker, priority: int, now: real, purgedAt: real): Worker {
    var c := NewCommand(w, priority, now);
    var v := w.(past := w.past.(priorities := w.past.priorities + [priority], clock := now));
    if !Full(v.queue, v.maxsize) then v.(queue := Insert(v.queue, c))
    else
      var p := Purged(v, purgedAt);
      if !Full(p.queue, p.maxsize) then p.(queue := Insert(p.queue, c))
      else p.(rejected := p.rejected + 1, past := Settle(p.past, c.number, Rejected))
  }

  function StartAttempt(w: Worker, c: Command, at: real): Worker {
    w.(inFlight := Some(c),
       past := w.past.(
         attempts := w.past.attempts + [Attempt(c, at, w.past.streak, w.past.lastFailureAt)],
         clock := at))
  }

  // One turn of the worker, up to the request it awaits, if any. The clock is read at the
  // start, by the breaker, and by a breaker that grants a probe.
  function AfterTurn(w: Worker, now: real, checked: real, granted: real): Worker {
    if w.queue == [] then w
    else
      var item := w.queue[0];
      var v := w.(queue := w.queue[1..], past := w.past.(clock := granted));
      if now > item.expiresAt then v.(expired := v.expired + 1, past := Settle(v.past, item.number, Expired))
      else if now < item.notBefore then Reinserted(v, item)
      else
        var (allowed, circuit) := Allow(v.circuit, checked, granted);
        if allowed then StartAttempt(v.(circuit := circuit), item, granted)
        else Reinserted(v.(circuit := circuit), item)
  }

  function AfterSuccess(w: Worker, now: real): Worker
    requires w.inFlight.Some?
  {
    var c := w.inFlight.value;
    w.(inFlight := None, circuit := Succeed(w.circuit), dispatched := w.dispatched + 1,
       past := Settle(w.past, c.number, Dispatched).(
         dispatchOrder := w.past.dispatchOrder + [c.number], streak := 0, clock := now))
  }

  function Retried(c: Command, requeuedAt: real, jitter: real): Command {
    c.(attempts := c.attempts + 1, notBefore := requeuedAt + Delay(c.attempts + 1, jitter))
  }

  function AfterFailure(w: Worker, failedAt: real, requeuedAt: real, jitter: real): Worker
    requires w.inFlight.Some?
  {
    var v := w.(inFlight := None, circuit := Fail(w.circuit, failedAt), failed := w.failed + 1,
                past := w.past.(streak := w.past.streak + 1, lastFailureAt := failedAt, clock := requeuedAt));
    Reinserted(v, Retried(w.inFlight.value, requeuedAt, jitter))
  }
}
