/** The release gate on memory samples: resident set size, its trend, and resource counts. */
module MemoryGate {
  import opened Outcomes
  import opened LeastSquares

  datatype Stage = Running | Closed | AfterMallocTrim | BeforeGc

  // cycle and cycles are two spellings of the same field; either may be missing.
  datatype Sample = Sample(stage: Stage, cycle: Option<int>, cycles: Option<int>,
                           rssKib: int, fds: int, tasks: int, threads: int)

  datatype GateError = RssGrew | RssSlope | GrowingFds | GrowingTasks | GrowingThreads

  // The source's ValueError with too few samples, the TypeError of sorting a missing key
  // among others, and the ValueError that fails the release.
  datatype Failure = TooFew | Unsortable | Growing(errors: seq<GateError>)

  datatype Report = Report(growthKib: int, slope: real, samples: nat)

  function Key(s: Sample): Option<int> {
    if s.cycle.Some? then s.cycle else s.cycles
  }

  function CycleOf(s: Sample): int
    requires Key(s).Some?
  {
    Key(s).value
  }

  predicate Kept(s: Sample, warmup: int) {
    s.stage.Running? && (if Key(s).Some? then CycleOf(s) else 0) >= warmup
  }

  function KeptOf(samples: seq<Sample>, warmup: int): seq<Sample> {
    if samples == [] then []
    else
      var last := samples[|samples| - 1];
      KeptOf(samples[..|samples| - 1], warmup) + if Kept(last, warmup) then [last] else []
  }

  // A running sample whose cycle, 0 if neither spelling has one, is past the warmup.
  predicate PastWarmup(s: Sample, warmup: int) {
    && s.stage != Closed && s.stage != AfterMallocTrim && s.stage != BeforeGc
    && match s.cycle
       case Some(c) => c >= warmup
       case None => match s.cycles case Some(c) => c >= warmup case None => 0 >= warmup
  }

  // They are kept, all of them and nothing else, in their order.
  lemma {:induction false} KeptInOrder(samples: seq<Sample>, warmup: int) returns (at: seq<nat>)
    ensures |at| == |KeptOf(samples, warmup)|
    ensures forall k :: 0 <= k < |at| ==> at[k] < |samples| && KeptOf(samples, warmup)[k] == samples[at[k]]
    ensures forall j, k :: 0 <= j < k < |at| ==> at[j] < at[k]
    ensures forall i: nat :: i < |samples| ==> (i in at <==> PastWarmup(samples[i], warmup))
  {
    hide Kept, PastWarmup;
    if samples == [] {
      at := [];
    } else {
      var n := |samples| - 1;
      at := KeptInOrder(samples[..n], warmup);
      KeptIsPast(samples[n], warmup);
      assert n !in at;
      if PastWarmup(samples[n], warmup) {
        at := at + [n];
      }
      forall i: nat | i < n
        ensures i in at <==> PastWarmup(samples[i], warmup)
      {
        assert samples[..n][i] == samples[i];
      }
    }
  }

  lemma KeptIsPast(s: Sample, warmup: int)
    ensures Kept(s, warmup) <==> PastWarmup(s, warmup)
  {
  }

  // The first kept sample of each cycle.
  predicate FirstOf(kept: seq<Sample>, s: Sample) {
    exists i :: 0 <= i < |kept| && kept[i] == s && forall j :: 0 <= j < i ==> Key(kept[j]) != Key(s)
  }

  // What the gate judges: one sample per cycle, in the order of the cycles.
  ghost predicate Judged(kept: seq<Sample>, ss: seq<Sample>) {
    && (forall i :: 0 <= i < |ss| ==> Key(ss[i]).Some? && FirstOf(kept, ss[i]))
    && (forall i, j :: 0 <= i < j < |ss| ==> CycleOf(ss[i]) < CycleOf(ss[j]))
    && (forall s :: s in kept ==> exists i :: 0 <= i < |ss| && Key(ss[i]) == Key(s))
  }

  // Where two selections agree up to n, the next key of a is found in b no earlier.
  lemma NextKey(kept: seq<Sample>, a: seq<Sample>, b: seq<Sample>, n: nat) returns (j: nat)
    requires Judged(kept, a) && Judged(kept, b) && n < |a| && n <= |b|
    requires forall i :: 0 <= i < n ==> a[i] == b[i]
    ensures n <= j < |b| && Key(b[j]) == Key(a[n])
  {
    assert FirstOf(kept, a[n]);
    assert a[n] in kept;
    hide FirstOf;
    j :| 0 <= j < |b| && Key(b[j]) == Key(a[n]);
    assert forall i :: 0 <= i < n ==> Key(a[i]) != Key(a[n]);
  }

  lemma {:induction false} JudgedAgree(kept: seq<Sample>, a: seq<Sample>, b: seq<Sample>, n: nat)
    requires Judged(kept, a) && Judged(kept, b) && n <= |a|
    ensures n <= |b| && forall i :: 0 <= i < n ==> a[i] == b[i]
  {
    hide Judged, FirstOf;
    if n > 0 {
      JudgedAgree(kept, a, b, n - 1);
      var j := NextKey(kept, a, b, n - 1);
      var i := NextKey(kept, b, a, n - 1);
      SameKey(kept, a, b, n - 1, i, j);
    }
  }

  lemma SameKey(kept: seq<Sample>, a: seq<Sample>, b: seq<Sample>, n: nat, i: nat, j: nat)
    requires Judged(kept, a) && Judged(kept, b)
    requires n <= i < |a| && n <= j < |b| && Key(b[j]) == Key(a[n]) && Key(a[i]) == Key(b[n])
    ensures a[n] == b[n]
  {
  }

  // Nothing else could be judged.
  lemma JudgedIsUnique(kept: seq<Sample>, a: seq<Sample>, b: seq<Sample>)
    requires Judged(kept, a) && Judged(kept, b)
    ensures a == b
  {
    JudgedAgree(kept, a, b, |a|);
    JudgedAgree(kept, b, a, |b|);
  }

  // Of two samples of one cycle the earlier is judged.
  lemma EarlierWins(kept: seq<Sample>, ss: seq<Sample>, i: nat, j: nat)
    requires Judged(kept, ss) && i < j < |kept| && kept[i].cycle.Some? && kept[j].cycle == kept[i].cycle
    requires kept[j] !in kept[..i + 1]
    ensures kept[j] !in ss
  {
  }

  // -- The gate itself ----------------------------------------------------------

  predicate Ordered(ss: seq<Sample>) {
    && (forall i :: 0 <= i < |ss| ==> Key(ss[i]).Some?)
    && (forall i, j :: 0 <= i < j < |ss| ==> CycleOf(ss[i]) < CycleOf(ss[j]))
  }

  function Cycles(ss: seq<Sample>): (xs: seq<real>)
    requires Ordered(ss)
    ensures |xs| == |ss| && Increasing(xs)
    ensures forall i :: 0 <= i < |ss| ==> xs[i] == CycleOf(ss[i]) as real
  {
    seq(|ss|, i requires 0 <= i < |ss| => CycleOf(ss[i]) as real)
  }

  function Sizes(ss: seq<Sample>): (ys: seq<real>)
    ensures |ys| == |ss| && forall i :: 0 <= i < |ss| ==> ys[i] == ss[i].rssKib as real
  {
    seq(|ss|, i requires 0 <= i < |ss| => ss[i].rssKib as real)
  }

  function Trend(ss: seq<Sample>): real
    requires Ordered(ss) && |ss| >= 2
  {
    Slope(Cycles(ss), Sizes(ss))
  }

  function Largest(ss: seq<Sample>): (m: int)
    requires ss != []
    ensures forall i :: 0 <= i < |ss| ==> ss[i].rssKib <= m
    ensures exists i :: 0 <= i < |ss| && ss[i].rssKib == m
  {
    var last := ss[|ss| - 1].rssKib;
    if |ss| == 1 then last
    else var m := Largest(ss[..|ss| - 1]); if last > m then last else m
  }

  function Growth(ss: seq<Sample>): int
    requires ss != []
  {
    Largest(ss) - ss[0].rssKib
  }

  datatype Resource = Fds | Tasks | Threads

  function Count(s: Sample, r: Resource): int {
    match r case Fds => s.fds case Tasks => s.tasks case Threads => s.threads
  }

  function Allowance(r: Resource): int {
    if r.Fds? then 2 else 1
  }

  predicate Leaks(ss: seq<Sample>, r: Resource)
    requires ss != []
  {
    exists i :: 0 <= i < |ss| && Count(ss[i], r) > Count(ss[0], r) + Allowance(r)
  }

  function LeakError(r: Resource): GateError {
    match r case Fds => GrowingFds case Tasks => GrowingTasks case Threads => GrowingThreads
  }

  const RESOURCES := [Fds, Tasks, Threads]

  function LeakErrors(ss: seq<Sample>, rs: seq<Resource>): seq<GateError>
    requires ss != []
  {
    if rs == [] then []
    else
      var last := rs[|rs| - 1];
      LeakErrors(ss, rs[..|rs| - 1]) + if Leaks(ss, last) then [LeakError(last)] else []
  }

  function Errors(ss: seq<Sample>): seq<GateError>
    requires Ordered(ss) && |ss| >= 2
  {
    (if Growth(ss) > 4096 then [RssGrew] else [])
    + (if Trend(ss) * 1000.0 > 1024.0 then [RssSlope] else [])
    + LeakErrors(ss, RESOURCES)
  }

  function Verdict(ss: seq<Sample>): Result<Report, Failure>
    requires Ordered(ss)
  {
    if |ss| < 4 then Err(TooFew)
    else if Errors(ss) != [] then Err(Growing(Errors(ss)))
    else Ok(Report(Growth(ss), Trend(ss), |ss|))
  }

  // -- What the gate means --------------------------------------------------------

  // It passes exactly when nothing grew by more than its allowance.
  lemma {:induction false} NoLeakErrors(ss: seq<Sample>, rs: seq<Resource>)
    requires ss != []
    ensures LeakErrors(ss, rs) == [] <==> forall r :: r in rs ==> !Leaks(ss, r)
    ensures RssGrew !in LeakErrors(ss, rs) && RssSlope !in LeakErrors(ss, rs)
  {
    if rs != [] {
      NoLeakErrors(ss, rs[..|rs| - 1]);
    }
  }

  lemma PassesWhen(ss: seq<Sample>)
    requires Ordered(ss) && |ss| >= 4
    ensures Verdict(ss).Ok? <==>
      && Trend(ss) <= 1.024
      && forall i :: 0 <= i < |ss| ==>
           && ss[i].rssKib - ss[0].rssKib <= 4096
           && ss[i].fds <= ss[0].fds + 2 && ss[i].tasks <= ss[0].tasks + 1 && ss[i].threads <= ss[0].threads + 1
  {
    hide Trend, LeakErrors, Ordered;
    NoLeakErrors(ss, RESOURCES);
    assert Fds in RESOURCES && Tasks in RESOURCES && Threads in RESOURCES;
  }

  // Which errors are raised, and in which order.
  lemma ErrorsAre(ss: seq<Sample>)
    requires Ordered(ss) && |ss| >= 2
    ensures Errors(ss) ==
      (if exists i :: 0 <= i < |ss| && ss[i].rssKib > ss[0].rssKib + 4096 then [RssGrew] else [])
      + (if Trend(ss) > 1.024 then [RssSlope] else [])
      + (if exists i :: 0 <= i < |ss| && ss[i].fds > ss[0].fds + 2 then [GrowingFds] else [])
      + (if exists i :: 0 <= i < |ss| && ss[i].tasks > ss[0].tasks + 1 then [GrowingTasks] else [])
      + (if exists i :: 0 <= i < |ss| && ss[i].threads > ss[0].threads + 1 then [GrowingThreads] else [])
  {
    hide Trend, Ordered;
    LeaksInFull(ss);
    var first := ss[0];
    assert Growth(ss) > 4096 <==> exists i :: 0 <= i < |ss| && ss[i].rssKib > first.rssKib + 4096;
  }

  lemma LeaksInFull(ss: seq<Sample>)
    requires ss != []
    ensures LeakErrors(ss, RESOURCES) ==
      (if exists i :: 0 <= i < |ss| && ss[i].fds > ss[0].fds + 2 then [GrowingFds] else [])
      + (if exists i :: 0 <= i < |ss| && ss[i].tasks > ss[0].tasks + 1 then [GrowingTasks] else [])
      + (if exists i :: 0 <= i < |ss| && ss[i].threads > ss[0].threads + 1 then [GrowingThreads] else [])
  {
    assert Leaks(ss, Fds) <==> exists i :: 0 <= i < |ss| && ss[i].fds > ss[0].fds + 2;
    assert Leaks(ss, Tasks) <==> exists i :: 0 <= i < |ss| && ss[i].tasks > ss[0].tasks + 1;
    assert Leaks(ss, Threads) <==> exists i :: 0 <= i < |ss| && ss[i].threads > ss[0].threads + 1;
    hide Leaks;
    assert RESOURCES[..2] == [Fds, Tasks] && RESOURCES[..2][..1] == [Fds] && RESOURCES[..2][..1][..0] == [];
    assert LeakErrors(ss, [Fds]) == if Leaks(ss, Fds) then [GrowingFds] else [];
    assert LeakErrors(ss, [Fds, Tasks]) == LeakErrors(ss, [Fds]) + if Leaks(ss, Tasks) then [GrowingTasks] else [];
  }

  // The verdict: too few samples, the errors, or the growth from the first sample to the
  // largest with the trend and the number of samples.
  lemma VerdictIs(ss: seq<Sample>)
    requires Ordered(ss)
    ensures match Verdict(ss)
            case Err(e) =>
              if |ss| < 4 then e == TooFew else e == Growing(Errors(ss)) && Errors(ss) != []
            case Ok(report) =>
              && |ss| >= 4 && Errors(ss) == [] && report.samples == |ss| && report.slope == Trend(ss)
              && (forall i :: 0 <= i < |ss| ==> ss[i].rssKib - ss[0].rssKib <= report.growthKib)
              && exists i :: 0 <= i < |ss| && ss[i].rssKib - ss[0].rssKib == report.growthKib
  {
    hide Trend, Errors, Ordered;
  }

  // The trend is the slope of the line with the least squared error, and no other slope is.
  lemma TrendIsLeastSquares(ss: seq<Sample>, a: real, b: real)
    requires Ordered(ss) && |ss| >= 2 && a != Trend(ss)
    ensures SquaredError(Cycles(ss), Sizes(ss), a, b) >
              SquaredError(Cycles(ss), Sizes(ss), Trend(ss), Mean(Sizes(ss)) - Times(Trend(ss), Mean(Cycles(ss))))
  {
    SlopeIsLeastSquares(Cycles(ss), Sizes(ss), a, b);
  }

  // KiB per poll from one sample to the next.
  predicate RateAtMost(a: Sample, b: Sample, c: real)
    requires Key(a).Some? && Key(b).Some?
  {
    (b.rssKib - a.rssKib) as real <= c * (CycleOf(b) - CycleOf(a)) as real
  }

  predicate RateAtLeast(a: Sample, b: Sample, c: real)
    requires Key(a).Some? && Key(b).Some?
  {
    (b.rssKib - a.rssKib) as real >= c * (CycleOf(b) - CycleOf(a)) as real
  }

  // The trend lies between the least and the greatest rate of neighbouring samples.
  lemma TrendAtMost(ss: seq<Sample>, c: real)
    requires Ordered(ss) && |ss| >= 2 && forall i :: 0 < i < |ss| ==> RateAtMost(ss[i - 1], ss[i], c)
    ensures Trend(ss) <= c
  {
    SlopeAtMost(Cycles(ss), Sizes(ss), c);
  }

  lemma TrendAtLeast(ss: seq<Sample>, c: real)
    requires Ordered(ss) && |ss| >= 2 && forall i :: 0 < i < |ss| ==> RateAtLeast(ss[i - 1], ss[i], c)
    ensures Trend(ss) >= c
  {
    SlopeAtLeast(Cycles(ss), Sizes(ss), c);
  }

  // Slow growth throughout never trips the slope gate.
  lemma SlowNeverTrips(ss: seq<Sample>)
    requires Ordered(ss) && |ss| >= 2 && forall i :: 0 < i < |ss| ==> RateAtMost(ss[i - 1], ss[i], 1.024)
    ensures RssSlope !in Errors(ss)
  {
    TrendAtMost(ss, 1.024);
    NoLeakErrors(ss, RESOURCES);
  }

  lemma FasterRate(a: Sample, b: Sample) returns (c: real)
    requires Key(a).Some? && Key(b).Some? && CycleOf(a) < CycleOf(b) && !RateAtMost(a, b, 1.024)
    ensures c > 1.024 && RateAtLeast(a, b, c)
  {
    var dy, dx := (b.rssKib - a.rssKib) as real, (CycleOf(b) - CycleOf(a)) as real;
    Rate(dy, dx, 1.024);
    c := dy / dx;
  }

  lemma {:induction false} SomeFasterRate(ss: seq<Sample>) returns (c: real)
    requires Ordered(ss) && forall i :: 0 < i < |ss| ==> !RateAtMost(ss[i - 1], ss[i], 1.024)
    ensures c > 1.024 && forall i :: 0 < i < |ss| ==> RateAtLeast(ss[i - 1], ss[i], c)
  {
    if |ss| < 2 {
      c := 2.0;
    } else {
      hide RateAtMost, RateAtLeast;
      var n := |ss| - 1;
      var front := SomeFasterRate(ss[..n]);
      var last := FasterRate(ss[n - 1], ss[n]);
      c := if front < last then front else last;
      forall i | 0 < i < |ss|
        ensures RateAtLeast(ss[i - 1], ss[i], c)
      {
        if i < n {
          assert RateAtLeast(ss[..n][i - 1], ss[..n][i], front);
        }
        LowerRate(ss[i - 1], ss[i], if i < n then front else last, c);
      }
    }
  }

  lemma Rate(dy: real, dx: real, c: real)
    requires dx > 0.0 && !(dy <= c * dx)
    ensures dy / dx > c && dy == dy / dx * dx
  {
  }

  lemma LowerRate(a: Sample, b: Sample, c: real, d: real)
    requires Key(a).Some? && Key(b).Some? && CycleOf(a) < CycleOf(b) && d <= c && RateAtLeast(a, b, c)
    ensures RateAtLeast(a, b, d)
  {
  }

  // Fast growth throughout always does.
  lemma FastAlwaysTrips(ss: seq<Sample>)
    requires Ordered(ss) && |ss| >= 2 && forall i :: 0 < i < |ss| ==> !RateAtMost(ss[i - 1], ss[i], 1.024)
    ensures RssSlope in Errors(ss)
  {
    var c := SomeFasterRate(ss);
    TrendAtLeast(ss, c);
  }

  // -- Selecting the samples ------------------------------------------------------

  function InsertKey(keys: seq<int>, k: int): seq<int> {
    if keys == [] || keys[0] > k then [k] + keys
    else [keys[0]] + InsertKey(keys[1..], k)
  }

  // sorted(keys)
  function SortKeys(keys: seq<int>): seq<int> {
    if keys == [] then [] else InsertKey(SortKeys(keys[..|keys| - 1]), keys[|keys| - 1])
  }

  predicate Rising(keys: seq<int>) {
    forall i, j :: 0 <= i < j < |keys| ==> keys[i] < keys[j]
  }

  lemma PrependRises(k: int, keys: seq<int>)
    requires Rising(keys) && forall x :: x in keys ==> k < x
    ensures Rising([k] + keys)
  {
    assert forall i :: 0 <= i < |keys| ==> keys[i] in keys;
  }

  lemma {:induction false} InsertRises(keys: seq<int>, k: int)
    requires Rising(keys) && k !in keys
    ensures Rising(InsertKey(keys, k)) && forall x :: x in InsertKey(keys, k) <==> x in keys || x == k
  {
    if keys == [] {
    } else if keys[0] > k {
      PrependRises(k, keys);
    } else {
      assert keys[0] in keys && keys == [keys[0]] + keys[1..];
      InsertRises(keys[1..], k);
      PrependRises(keys[0], InsertKey(keys[1..], k));
    }
  }

  predicate Distinct(keys: seq<int>) {
    forall i, j :: 0 <= i < j < |keys| ==> keys[i] != keys[j]
  }

  lemma {:induction false} SortRises(keys: seq<int>)
    requires Distinct(keys)
    ensures Rising(SortKeys(keys)) && forall x :: x in SortKeys(keys) <==> x in keys
  {
    if keys != [] {
      SortRises(keys[..|keys| - 1]);
      InsertRises(SortKeys(keys[..|keys| - 1]), keys[|keys| - 1]);
    }
  }

  // The first sample of each cycle, and of those without one; keys in the order found.
  method FirstPerCycle(kept: seq<Sample>) returns (unique: map<int, Sample>, keys: seq<int>, missing: Option<Sample>)
    ensures Distinct(keys) && (forall c :: c in keys ==> c in unique) && (forall c :: c in unique ==> c in keys)
    ensures forall c :: c in unique ==> Key(unique[c]) == Some(c) && FirstOf(kept, unique[c])
    ensures forall s :: s in kept && Key(s).Some? ==> CycleOf(s) in unique
    ensures missing.Some? <==> exists s :: s in kept && Key(s).None?
  {
    unique, keys, missing := map[], [], None;
    var i := 0;
    while i < |kept|
      invariant 0 <= i <= |kept|
      invariant Distinct(keys) && (forall c :: c in keys ==> c in unique) && (forall c :: c in unique ==> c in keys)
      invariant forall c :: c in unique ==> Key(unique[c]) == Some(c) && FirstOf(kept, unique[c])
      invariant forall j :: 0 <= j < i && Key(kept[j]).Some? ==> CycleOf(kept[j]) in unique
      invariant missing.Some? <==> exists j :: 0 <= j < i && Key(kept[j]).None?
    {
      var key := Key(kept[i]);
      if key.None? {
        missing := if missing.None? then Some(kept[i]) else missing;
      } else if CycleOf(kept[i]) !in unique {
        assert FirstOf(kept, kept[i]) by {
          assert forall j :: 0 <= j < i ==> Key(kept[j]) != key;
        }
        unique, keys := unique[CycleOf(kept[i]) := kept[i]], keys + [CycleOf(kept[i])];
      }
      i := i + 1;
    }
  }

  method Judge(ss: seq<Sample>) returns (r: Result<Report, Failure>)
    requires Ordered(ss)
    ensures r == Verdict(ss)
  {
    if |ss| < 4 {
      return Err(TooFew);
    }
    hide Growth, Trend, Leaks, Ordered;
    var growth, slope := Growth(ss), Trend(ss);
    var errors: seq<GateError> := [];
    if growth > 4096 {
      errors := errors + [RssGrew];
    }
    if slope * 1000.0 > 1024.0 {
      errors := errors + [RssSlope];
    }
    ghost var before := errors;
    assert before == (if growth > 4096 then [RssGrew] else []) + (if slope * 1000.0 > 1024.0 then [RssSlope] else []);
    var i := 0;
    assert RESOURCES[..0] == [];
    while i < |RESOURCES|
      invariant 0 <= i <= |RESOURCES| && errors == before + LeakErrors(ss, RESOURCES[..i])
    {
      assert RESOURCES[..i + 1][..i] == RESOURCES[..i];
      if Leaks(ss, RESOURCES[i]) {
        errors := errors + [LeakError(RESOURCES[i])];
      }
      i := i + 1;
    }
    assert RESOURCES[..i] == RESOURCES;
    r := if errors != [] then Err(Growing(errors)) else Ok(Report(growth, slope, |ss|));
  }

  // One sample per cycle in the order of the cycles, unless a sample lacks its cycle.
  method Select(kept: seq<Sample>) returns (r: Result<seq<Sample>, Failure>)
    ensures r.Ok? ==> Judged(kept, r.value)
    ensures r.Err? ==> exists s :: s in kept && Key(s).None?
    ensures r.Err? ==> r.error == if exists s :: s in kept && Key(s).Some? then Unsortable else TooFew
  {
    hide FirstOf;
    var unique, found, missing := FirstPerCycle(kept);
    if missing.Some? {
      if found != [] {
        assert found[0] in found;
        FirstIsKept(kept, unique[found[0]]);
        return Err(Unsortable);
      }
      return Err(TooFew);
    }
    SortRises(found);
    var keys := SortKeys(found);
    var ss: seq<Sample> := [];
    var i := 0;
    while i < |keys|
      invariant 0 <= i <= |keys| && |ss| == i
      invariant forall j :: 0 <= j < i ==> Key(ss[j]) == Some(keys[j]) && FirstOf(kept, ss[j])
    {
      assert keys[i] in keys && keys[i] in unique;
      ss := ss + [unique[keys[i]]];
      i := i + 1;
    }
    forall s | s in kept
      ensures exists j :: 0 <= j < |ss| && Key(ss[j]) == Key(s)
    {
      assert CycleOf(s) in unique && CycleOf(s) in found;
      var k :| 0 <= k < |keys| && keys[k] == CycleOf(s);
      assert Key(ss[k]) == Key(s);
    }
    r := Ok(ss);
  }

  lemma FirstIsKept(kept: seq<Sample>, s: Sample)
    requires FirstOf(kept, s)
    ensures s in kept
  {
  }

  // The verdict on the one possible selection; a missing cycle is an error of its own.
  method Assess(samples: seq<Sample>, warmup: int) returns (r: Result<Report, Failure>)
    ensures var kept := KeptOf(samples, warmup);
      && (forall ss :: Judged(kept, ss) ==> Ordered(ss) && r == Verdict(ss))
      && ((forall s :: s in kept ==> Key(s).Some?) ==> exists ss :: Judged(kept, ss) && Ordered(ss) && r == Verdict(ss))
      && ((exists s :: s in kept && Key(s).None?) ==>
            r == Err(if exists s :: s in kept && Key(s).Some? then Unsortable else TooFew))
  {
    var kept := KeptOf(samples, warmup);
    var selected := Select(kept);
    if selected.Err? {
      return Err(selected.error);
    }
    var ss := selected.value;
    forall other | Judged(kept, other)
      ensures other == ss
    {
      JudgedIsUnique(kept, other, ss);
    }
    r := Judge(ss);
  }
}
