/** What each operation of the dispatch worker does, in plain terms: which command is queued,
    expired, attempted, rejected or put back, and when. */
module DispatchEffects {
  import Bytes
  import opened Outcomes
  import opened CircuitBreaking
  import opened DispatchQueue
  import opened DispatchSteps

  // The command that arrives now.
  function Arriving(number: nat, priority: int, now: real): Command {
    Command(-priority, number, now, now + (if priority >= 90 then 300.0 else if priority >= 5 then 120.0 else 90.0), 0)
  }

  // A full queue in which nothing has expired has no room to make.
  predicate Hopeless(q: seq<Command>, maxsize: nat, at: real) {
    0 < maxsize <= |q| && forall c :: c in q ==> at <= c.expiresAt
  }

  lemma {:induction false} PurgeMakesRoom(q: seq<Command>, now: real)
    ensures (forall c :: c in q ==> now <= c.expiresAt) ==> Unexpired(q, now) == q
    ensures (exists c :: c in q && now > c.expiresAt) ==> |Unexpired(q, now)| < |q|
  {
    if q != [] {
      var front, last := q[..|q| - 1], q[|q| - 1];
      PurgeMakesRoom(front, now);
      assert q == front + [last];
    }
  }

  // A new command is queued unless the queue is full of commands that have not expired: then,
  // and only then, it is rejected. A queue with room keeps everything; a full one loses
  // exactly its expired commands, which are counted.
  lemma EnqueuedIs(w: Worker, priority: int, now: real, purgedAt: real)
    requires w.maxsize > 0 ==> |w.queue| <= w.maxsize
    ensures var v := Enqueued(w, priority, now, purgedAt);
            var c := Arriving(NextNumber(w), priority, now);
            && v.past.priorities == w.past.priorities + [priority]
            && (if Hopeless(w.queue, w.maxsize, purgedAt) then
                  && v.queue == w.queue && v.rejected == w.rejected + 1 && v.expired == w.expired
                  && v.past.fates == w.past.fates[c.number := Rejected]
                else
                  && v.rejected == w.rejected && c in v.queue
                  && (forall d :: d in v.queue ==> d == c || d in w.queue)
                  && |v.queue| == |w.queue| + 1 - (v.expired - w.expired)
                  && if 0 < w.maxsize <= |w.queue|
                     then (&& v.expired > w.expired
                           && forall d :: d in w.queue && d != c ==> (d in v.queue <==> purgedAt <= d.expiresAt))
                     else v.expired == w.expired && forall d :: d in w.queue ==> d in v.queue)
            && v.inFlight == w.inFlight && v.circuit == w.circuit && v.maxsize == w.maxsize
            && v.dispatched == w.dispatched && v.failed == w.failed && v.past.attempts == w.past.attempts
  {
    hide Insert, Unexpired;
    var c := Arriving(NextNumber(w), priority, now);
    assert c == NewCommand(w, priority, now);
    InsertHolds(w.queue, c);
    PurgeMakesRoom(w.queue, purgedAt);
    UnexpiredIsExact(w.queue, purgedAt);
    InsertHolds(Unexpired(w.queue, purgedAt), c);
  }

  // When the breaker lets a request through: closed, or 30 s after it opened or after the
  // last probe was granted. Only a probe changes it, to half-open.
  predicate LetsThrough(b: Breaker, checked: real) {
    || b.state.Closed?
    || (b.state.Open? && checked - b.openedAt >= 30.0)
    || (b.state.HalfOpen? && checked - b.probeGrantedAt >= 30.0)
  }

  lemma AllowIs(b: Breaker, checked: real, granted: real)
    ensures var (allowed, c) := Allow(b, checked, granted);
            && allowed == LetsThrough(b, checked)
            && c == if b.state.Closed? || !LetsThrough(b, checked) then b
                    else b.(state := HalfOpen, probeGrantedAt := granted)
  {
  }

  // A success closes it and forgets the failures; a failure opens it if it was half-open or
  // is the fifth in a row or later.
  lemma OutcomesAre(b: Breaker, at: real)
    ensures Succeed(b) == b.(failures := 0, state := Closed)
    ensures Fail(b, at) ==
              if b.state.HalfOpen? || b.failures >= 4 then b.(failures := b.failures + 1, state := Open, openedAt := at)
              else b.(failures := b.failures + 1)
  {
  }

  // One turn looks at the head alone: expired it is dropped and counted, too early or without
  // the breaker's leave it stays, and otherwise it is attempted. The breaker is asked last.
  lemma TurnIs(w: Worker, now: real, checked: real, granted: real)
    requires Sorted(w.queue) && w.inFlight == None && (w.maxsize > 0 ==> |w.queue| <= w.maxsize)
    ensures var v := AfterTurn(w, now, checked, granted);
            if w.queue == [] then v == w
            else
              var c := w.queue[0];
              if now > c.expiresAt then
                v == w.(queue := w.queue[1..], expired := w.expired + 1,
                        past := w.past.(fates := w.past.fates[c.number := Expired], clock := granted))
              else if now < c.notBefore || !LetsThrough(w.circuit, checked) then
                v == w.(past := w.past.(clock := granted))
              else
                && v == w.(queue := w.queue[1..], inFlight := Some(c), circuit := v.circuit, past := v.past)
                && v.circuit == (if w.circuit.state.Closed? then w.circuit
                                 else w.circuit.(state := HalfOpen, probeGrantedAt := granted))
                && v.past == w.past.(attempts := v.past.attempts, clock := granted)
                && |v.past.attempts| == |w.past.attempts| + 1 && v.past.attempts[..|w.past.attempts|] == w.past.attempts
                && v.past.attempts[|w.past.attempts|].command == c
                && v.past.attempts[|w.past.attempts|].startedAt == granted
  {
    hide Insert;
    if w.queue != [] {
      InsertHead(w.queue);
    }
  }

  lemma DeliveredIs(w: Worker, now: real)
    requires w.inFlight.Some?
    ensures var v := AfterSuccess(w, now);
            && v.inFlight == None && v.queue == w.queue && v.dispatched == w.dispatched + 1
            && v.circuit == w.circuit.(failures := 0, state := Closed)
            && v.failed == w.failed && v.expired == w.expired && v.rejected == w.rejected
            && v.past.fates == w.past.fates[w.inFlight.value.number := Dispatched]
            && v.past.dispatchOrder == w.past.dispatchOrder + [w.inFlight.value.number]
  {
  }

  // After a failure the command waits for twice as long as after the one before, from one
  // second up to thirty, with the jitter; it goes back to the queue unless that is full.
  lemma FailedIs(w: Worker, failedAt: real, requeuedAt: real, jitter: real)
    requires w.inFlight.Some?
    ensures var v := AfterFailure(w, failedAt, requeuedAt, jitter);
            var c := w.inFlight.value;
            var wait := 0.5 * Bytes.Pow2(c.attempts + 1) as real + jitter;
            var again := c.(attempts := c.attempts + 1, notBefore := requeuedAt + if wait < 30.0 then wait else 30.0);
            && v.inFlight == None && v.failed == w.failed + 1 && v.dispatched == w.dispatched
            && v.expired == w.expired && v.rejected == w.rejected
            && v.circuit == (if w.circuit.state.HalfOpen? || w.circuit.failures >= 4
                             then w.circuit.(failures := w.circuit.failures + 1, state := Open, openedAt := failedAt)
                             else w.circuit.(failures := w.circuit.failures + 1))
            && if 0 < w.maxsize <= |w.queue|
               then (v.queue == w.queue && v.past.dropped == w.past.dropped + 1
                     && v.past.fates == w.past.fates[c.number := Dropped])
               else (v.past.dropped == w.past.dropped && v.past.fates == w.past.fates
                     && |v.queue| == |w.queue| + 1 && forall d :: d in v.queue <==> d in w.queue || d == again)
  {
    hide Insert;
    InsertHolds(w.queue, Retried(w.inFlight.value, requeuedAt, jitter));
  }
}
