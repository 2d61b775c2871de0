/** What every run of the dispatch worker keeps, with producers interleaved at every await. */
module DispatchSafety {
  import opened Outcomes
  import opened CircuitBreaking
  import opened DispatchQueue
  import opened DispatchSteps

  datatype Event =
    | Arrive(priority: int, now: real, purgedAt: real)
    | Turn(now: real, checked: real, granted: real)
    | Answered(now: real)
    | NotDelivered(failedAt: real, requeuedAt: real, jitter: real)

  // The clock never goes back; a turn starts once the previous attempt is over.
  predicate Enabled(w: Worker, e: Event) {
    match e
    case Arrive(_, now, purgedAt) => w.past.clock <= now <= purgedAt
    case Turn(now, checked, granted) => w.inFlight == None && w.past.clock <= now <= checked <= granted
    case Answered(now) => w.inFlight.Some? && w.past.clock <= now
    case NotDelivered(failedAt, requeuedAt, jitter) =>
      w.inFlight.Some? && w.past.clock <= failedAt <= requeuedAt && 0.0 <= jitter <= 0.5
  }

  function Apply(w: Worker, e: Event): Worker
    requires Enabled(w, e)
  {
    match e
    case Arrive(priority, now, purgedAt) => Enqueued(w, priority, now, purgedAt)
    case Turn(now, checked, granted) => AfterTurn(w, now, checked, granted)
    case Answered(now) => AfterSuccess(w, now)
    case NotDelivered(failedAt, requeuedAt, jitter) => AfterFailure(w, failedAt, requeuedAt, jitter)
  }

  predicate Possible(w: Worker, events: seq<Event>)
    decreases |events|
  {
    events == [] || (Enabled(w, events[0]) && Possible(Apply(w, events[0]), events[1..]))
  }

  function Execute(w: Worker, events: seq<Event>): Worker
    requires Possible(w, events)
    decreases |events|
  {
    if events == [] then w else Execute(Apply(w, events[0]), events[1..])
  }

  // -- Every command is in one place ------------------------------------------

  // c is the accepted command of that number, and its fate is open.
  predicate Known(c: Command, fates: map<nat, Fate>, priorities: seq<int>) {
    c.number < |priorities| && c.negPriority == -priorities[c.number] && c.number !in fates
  }

  // Each command ever offered is queued, held, or settled, and only one of these.
  ghost predicate Partition(q: seq<Command>, held: set<Command>, fates: map<nat, Fate>, priorities: seq<int>) {
    && Sorted(q)
    && (forall c :: c in q ==> Known(c, fates, priorities))
    && (forall c :: c in held ==> Known(c, fates, priorities) && !Holds(q, c.number))
    && (forall c, d :: c in held && d in held && c.number == d.number ==> c == d)
    && (forall n :: n in fates ==> n < |priorities|)
    && (forall n: nat :: n < |priorities| ==> n in fates || Holds(q, n) || exists c :: c in held && c.number == n)
  }

  lemma PartitionNew(q: seq<Command>, held: set<Command>, fates: map<nat, Fate>, priorities: seq<int>,
                     c: Command, priority: int)
    requires Partition(q, held, fates, priorities) && c.number == |priorities| && c.negPriority == -priority
    ensures Partition(q, held + {c}, fates, priorities + [priority])
  {
  }

  lemma PartitionInsert(q: seq<Command>, held: set<Command>, fates: map<nat, Fate>, priorities: seq<int>, c: Command)
    requires Partition(q, held, fates, priorities) && c in held
    ensures Partition(Insert(q, c), held - {c}, fates, priorities)
  {
    var r := Insert(q, c);
    InsertHolds(q, c);
    InsertSorted(q, c);
    assert c in r;
    forall n: nat | n < |priorities| && n !in fates && !Holds(r, n)
      ensures exists d :: d in held - {c} && d.number == n
    {
      forall x | x in q
        ensures x.number != n
      {
        assert x in r;
      }
      var d :| d in held && d.number == n;
      assert d in held - {c};
    }
  }

  lemma PartitionSettle(q: seq<Command>, held: set<Command>, fates: map<nat, Fate>, priorities: seq<int>,
                        c: Command, fate: Fate)
    requires Partition(q, held, fates, priorities) && c in held
    ensures Partition(q, held - {c}, fates[c.number := fate], priorities)
  {
  }

  lemma PartitionTake(q: seq<Command>, fates: map<nat, Fate>, priorities: seq<int>)
    requires Partition(q, {}, fates, priorities) && q != []
    ensures Partition(q[1..], {q[0]}, fates, priorities)
  {
  }

  // Some queued commands are settled, the others stay.
  lemma PartitionSome(q: seq<Command>, r: seq<Command>, held: set<Command>,
                      fates: map<nat, Fate>, after: map<nat, Fate>, priorities: seq<int>)
    requires Partition(q, held, fates, priorities) && Sorted(r)
    requires forall c :: c in r ==> c in q && c.number !in after
    requires forall c :: c in q ==> c in r || c.number in after
    requires forall n :: n in fates ==> n in after
    requires forall n :: n in after ==> n in fates || Holds(q, n)
    ensures Partition(r, held, after, priorities)
  {
  }

  lemma PartitionPurge(q: seq<Command>, held: set<Command>, h: History, now: real)
    requires Partition(q, held, h.fates, h.priorities)
    ensures Partition(Unexpired(q, now), held, ExpireAll(h, q, now).fates, h.priorities)
  {
    var r, after := Unexpired(q, now), ExpireAll(h, q, now).fates;
    UnexpiredSorted(q, now);
    UnexpiredIsExact(q, now);
    forall c | c in r
      ensures c in q && c.number !in after
    {
      if c.number in ExpiredNumbers(q, now) {
        var x :| x in q && now > x.expiresAt && x.number == c.number;
        SameNumber(q, held, h.fates, h.priorities, c, x);
      }
    }
    forall c | c in q
      ensures c in r || c.number in after
    {
      assert c in r || c.number in ExpiredNumbers(q, now);
    }
    hide Partition, ExpireAll, Unexpired, Sorted;
    PartitionSome(q, r, held, h.fates, after, h.priorities);
  }

  lemma SameNumber(q: seq<Command>, held: set<Command>, fates: map<nat, Fate>, priorities: seq<int>,
                   a: Command, b: Command)
    requires Partition(q, held, fates, priorities) && a in q && b in q && a.number == b.number
    ensures a == b
  {
  }

  // -- The worker's invariant -----------------------------------------------

  function Held(w: Worker): set<Command> {
    if w.inFlight.Some? then {w.inFlight.value} else {}
  }

  ghost predicate PlacesOk(w: Worker) {
    Partition(w.queue, Held(w), w.past.fates, w.past.priorities)
  }

  // Nothing is lost without a count, and the queue keeps its bound.
  predicate CountsOk(w: Worker) {
    && NextNumber(w) == |w.queue| + |Held(w)| + w.dispatched + w.expired + w.rejected + w.past.dropped
    && |w.past.attempts| == w.dispatched + w.failed + |Held(w)|
    && |w.past.dispatchOrder| == w.dispatched
    && (w.maxsize > 0 ==> |w.queue| <= w.maxsize)
  }

  lemma CountsStep(w: Worker, e: Event)
    requires Enabled(w, e) && Sorted(w.queue) && CountsOk(w)
    ensures CountsOk(Apply(w, e))
  {
    hide Insert, Unexpired, ExpireAll, Allow, Fail, Succeed;
    if w.queue != [] {
      InsertHead(w.queue);
    }
  }

  lemma ArrivePlaces(w: Worker, priority: int, now: real, purgedAt: real)
    requires PlacesOk(w)
    ensures PlacesOk(Enqueued(w, priority, now, purgedAt))
  {
    hide Partition, Unexpired, ExpireAll, Insert;
    var c, held := NewCommand(w, priority, now), Held(w);
    var v := w.(past := w.past.(priorities := w.past.priorities + [priority], clock := now));
    PartitionNew(w.queue, held, w.past.fates, w.past.priorities, c, priority);
    assert c !in held by { NewIsNotHeld(w, c); }
    assert held + {c} - {c} == held;
    if !Full(v.queue, v.maxsize) {
      PartitionInsert(v.queue, held + {c}, v.past.fates, v.past.priorities, c);
    } else {
      PartitionPurge(v.queue, held + {c}, v.past, purgedAt);
      var p := Purged(v, purgedAt);
      if !Full(p.queue, p.maxsize) {
        PartitionInsert(p.queue, held + {c}, p.past.fates, p.past.priorities, c);
      } else {
        PartitionSettle(p.queue, held + {c}, p.past.fates, p.past.priorities, c, Rejected);
      }
    }
  }

  lemma NewIsNotHeld(w: Worker, c: Command)
    requires PlacesOk(w) && c.number == NextNumber(w)
    ensures c !in Held(w)
  {
  }

  lemma ReinsertPlaces(w: Worker, c: Command)
    requires w.inFlight == None && Partition(w.queue, {c}, w.past.fates, w.past.priorities)
    ensures PlacesOk(Reinserted(w, c))
  {
    hide Partition, Insert;
    assert {c} - {c} == {};
    if Full(w.queue, w.maxsize) {
      PartitionSettle(w.queue, {c}, w.past.fates, w.past.priorities, c, Dropped);
    } else {
      PartitionInsert(w.queue, {c}, w.past.fates, w.past.priorities, c);
    }
  }

  lemma TurnPlaces(w: Worker, now: real, checked: real, granted: real)
    requires PlacesOk(w) && w.inFlight == None
    ensures PlacesOk(AfterTurn(w, now, checked, granted))
  {
    if w.queue != [] {
      PartitionTake(w.queue, w.past.fates, w.past.priorities);
      hide Partition, Reinserted;
      var item := w.queue[0];
      var v := w.(queue := w.queue[1..], past := w.past.(clock := granted));
      if now > item.expiresAt {
        assert {item} - {item} == {};
        PartitionSettle(v.queue, {item}, v.past.fates, v.past.priorities, item, Expired);
      } else {
        ReinsertPlaces(v, item);
        ReinsertPlaces(v.(circuit := Allow(v.circuit, checked, granted).1), item);
      }
    }
  }

  lemma FinishPlaces(w: Worker, e: Event)
    requires Enabled(w, e) && PlacesOk(w) && (e.Answered? || e.NotDelivered?)
    ensures PlacesOk(Apply(w, e))
  {
    var c := w.inFlight.value;
    if e.Answered? {
      hide Partition;
      assert {c} - {c} == {};
      PartitionSettle(w.queue, {c}, w.past.fates, w.past.priorities, c, Dispatched);
    } else {
      var d := Retried(c, e.requeuedAt, e.jitter);
      PartitionSwap(w.queue, w.past.fates, w.past.priorities, c, d);
      hide Partition, Reinserted, Retried, PlacesOk;
      ReinsertPlaces(w.(inFlight := None, circuit := Fail(w.circuit, e.failedAt), failed := w.failed + 1,
        past := w.past.(streak := w.past.streak + 1, lastFailureAt := e.failedAt, clock := e.requeuedAt)), d);
    }
  }

  // -- Counters and fates -------------------------------------------------------

  function WithFate(fates: map<nat, Fate>, f: Fate): set<nat> {
    set n | n in fates && fates[n] == f
  }

  // Each counter is the number of commands that met that fate, and those dispatched are
  // the ones on record.
  ghost predicate FatesOk(w: Worker) {
    && w.dispatched == |WithFate(w.past.fates, Dispatched)|
    && w.expired == |WithFate(w.past.fates, Expired)|
    && w.rejected == |WithFate(w.past.fates, Rejected)|
    && w.past.dropped == |WithFate(w.past.fates, Dropped)|
    && (forall n: nat :: n in w.past.dispatchOrder <==> n in WithFate(w.past.fates, Dispatched))
  }

  // One more command meets its fate.
  lemma SettledCounts(fates: map<nat, Fate>, n: nat, f: Fate)
    requires n !in fates
    ensures WithFate(fates[n := f], f) == WithFate(fates, f) + {n}
    ensures |WithFate(fates[n := f], f)| == |WithFate(fates, f)| + 1
    ensures forall g :: g != f ==> WithFate(fates[n := f], g) == WithFate(fates, g)
  {
    assert WithFate(fates[n := f], f) == WithFate(fates, f) + {n};
    forall g | g != f
      ensures WithFate(fates[n := f], g) == WithFate(fates, g)
    {
    }
  }

  lemma ExpiredWithLast(front: seq<Command>, last: Command, now: real)
    requires forall c :: c in front ==> c.number != last.number
    ensures last.number !in ExpiredNumbers(front, now)
    ensures ExpiredNumbers(front + [last], now) ==
              ExpiredNumbers(front, now) + if now > last.expiresAt then {last.number} else {}
  {
    assert forall c :: c in front + [last] <==> c in front || c == last;
  }

  // Of commands with numbers of their own, as many expire as a purge removes.
  lemma {:induction false} ExpiredCount(q: seq<Command>, now: real)
    requires forall i, j :: 0 <= i < j < |q| ==> q[i].number != q[j].number
    ensures |ExpiredNumbers(q, now)| == |q| - |Unexpired(q, now)|
  {
    if q == [] {
      assert ExpiredNumbers(q, now) == {};
    } else {
      var front, last := q[..|q| - 1], q[|q| - 1];
      assert q == front + [last];
      hide ExpiredNumbers;
      ExpiredCount(front, now);
      ExpiredWithLast(front, last, now);
    }
  }

  lemma NumbersDiffer(q: seq<Command>, held: set<Command>, fates: map<nat, Fate>, priorities: seq<int>)
    requires Partition(q, held, fates, priorities)
    ensures forall i, j :: 0 <= i < j < |q| ==> q[i].number != q[j].number
  {
    forall i, j | 0 <= i < j < |q|
      ensures q[i].number != q[j].number
    {
      assert Before(q[i], q[j]) && Known(q[i], fates, priorities) && Known(q[j], fates, priorities);
    }
  }

  lemma ExpiredAreOpen(q: seq<Command>, held: set<Command>, fates: map<nat, Fate>, priorities: seq<int>, now: real)
    requires Partition(q, held, fates, priorities)
    ensures forall n :: n in ExpiredNumbers(q, now) ==> n !in fates
  {
    forall n | n in ExpiredNumbers(q, now)
      ensures n !in fates
    {
      var c :| c in q && now > c.expiresAt && c.number == n;
      assert Known(c, fates, priorities);
    }
  }

  // Several commands expire at once.
  lemma ExpiredCounts(fates: map<nat, Fate>, gone: set<nat>, after: map<nat, Fate>)
    requires after == fates + map n | n in gone :: Expired
    requires forall n :: n in gone ==> n !in fates
    ensures |WithFate(after, Expired)| == |WithFate(fates, Expired)| + |gone|
    ensures forall g :: g != Expired ==> WithFate(after, g) == WithFate(fates, g)
  {
    assert WithFate(after, Expired) == WithFate(fates, Expired) + gone;
    forall g | g != Expired
      ensures WithFate(after, g) == WithFate(fates, g)
    {
    }
  }

  lemma PurgedCounts(q: seq<Command>, held: set<Command>, h: History, now: real)
    requires Partition(q, held, h.fates, h.priorities)
    ensures var after := ExpireAll(h, q, now).fates;
      && |WithFate(after, Expired)| == |WithFate(h.fates, Expired)| + |q| - |Unexpired(q, now)|
      && forall g :: g != Expired ==> WithFate(after, g) == WithFate(h.fates, g)
  {
    NumbersDiffer(q, held, h.fates, h.priorities);
    ExpiredAreOpen(q, held, h.fates, h.priorities, now);
    hide Partition, WithFate, ExpiredNumbers, Unexpired;
    ExpiredCount(q, now);
    ExpiredCounts(h.fates, ExpiredNumbers(q, now), ExpireAll(h, q, now).fates);
  }

  lemma ArriveFates(w: Worker, priority: int, now: real, purgedAt: real)
    requires PlacesOk(w) && FatesOk(w)
    ensures FatesOk(Enqueued(w, priority, now, purgedAt))
  {
    hide Insert, Unexpired, ExpireAll, WithFate;
    var c := NewCommand(w, priority, now);
    var v := w.(past := w.past.(priorities := w.past.priorities + [priority], clock := now));
    PartitionNew(w.queue, Held(w), w.past.fates, w.past.priorities, c, priority);
    if Full(v.queue, v.maxsize) {
      PurgedCounts(v.queue, Held(w) + {c}, v.past, purgedAt);
      PartitionPurge(v.queue, Held(w) + {c}, v.past, purgedAt);
      var p := Purged(v, purgedAt);
      assert c in Held(w) + {c} && c.number !in p.past.fates;
      SettledCounts(p.past.fates, c.number, Rejected);
    }
  }

  lemma ReinsertFates(w: Worker, c: Command)
    requires FatesOk(w) && c.number !in w.past.fates
    ensures FatesOk(Reinserted(w, c))
  {
    SettledCounts(w.past.fates, c.number, Dropped);
    hide WithFate, Insert;
  }

  lemma ExpireFates(w: Worker, c: Command)
    requires FatesOk(w) && c.number !in w.past.fates
    ensures FatesOk(w.(expired := w.expired + 1, past := Settle(w.past, c.number, Expired)))
  {
    SettledCounts(w.past.fates, c.number, Expired);
    hide WithFate;
  }

  lemma TurnFates(w: Worker, now: real, checked: real, granted: real)
    requires PlacesOk(w) && FatesOk(w)
    ensures FatesOk(AfterTurn(w, now, checked, granted))
  {
    if w.queue != [] {
      var item := w.queue[0];
      assert item in w.queue && Known(item, w.past.fates, w.past.priorities);
      var v := w.(queue := w.queue[1..], past := w.past.(clock := granted));
      hide WithFate, Reinserted, PlacesOk, Settle;
      ExpireFates(v, item);
      ReinsertFates(v, item);
      ReinsertFates(v.(circuit := Allow(v.circuit, checked, granted).1), item);
    }
  }

  lemma AnsweredFates(w: Worker, now: real)
    requires w.inFlight.Some? && w.inFlight.value.number !in w.past.fates && FatesOk(w)
    ensures FatesOk(AfterSuccess(w, now))
  {
    SettledCounts(w.past.fates, w.inFlight.value.number, Dispatched);
    hide WithFate;
  }

  lemma FinishFates(w: Worker, e: Event)
    requires Enabled(w, e) && PlacesOk(w) && FatesOk(w) && (e.Answered? || e.NotDelivered?)
    ensures FatesOk(Apply(w, e))
  {
    var c := w.inFlight.value;
    assert c in Held(w) && Known(c, w.past.fates, w.past.priorities);
    hide WithFate, Reinserted, PlacesOk, AfterSuccess;
    if e.Answered? {
      AnsweredFates(w, e.now);
    } else {
      ReinsertFates(w.(inFlight := None, circuit := Fail(w.circuit, e.failedAt), failed := w.failed + 1,
        past := w.past.(streak := w.past.streak + 1, lastFailureAt := e.failedAt, clock := e.requeuedAt)),
        Retried(c, e.requeuedAt, e.jitter));
    }
  }

  lemma PartitionSwap(q: seq<Command>, fates: map<nat, Fate>, priorities: seq<int>, c: Command, d: Command)
    requires Partition(q, {c}, fates, priorities) && c.number == d.number && c.negPriority == d.negPriority
    ensures Partition(q, {d}, fates, priorities)
  {
  }
}
