/** Rolling a release out over the six services, verifying it, and rolling it back. */
module Releasing {
  import opened Outcomes

  datatype Service = Aggregator | CalendarPoller | SysmonPoller | TransportAdapter | WeatherPoller | WebhookReceiver

  const SERVICES := [Aggregator, CalendarPoller, SysmonPoller, TransportAdapter, WeatherPoller, WebhookReceiver]

  type Image = nat

  // How a command ends: a failed or timed-out process, or any other exception. A failing
  // command that sets an image may have set it all the same.
  datatype Outcome = Done | ProcessError(applied: bool) | OtherError(applied: bool)

  predicate Applies(o: Outcome) {
    o.Done? || o.applied
  }

  // Setting a service's image and awaiting its rollout.
  datatype Step = Step(change: Outcome, status: Outcome)

  predicate StepOk(s: Step) {
    s.change.Done? && s.status.Done?
  }

  // The first command that fails ends the step, with the process's error or another.
  predicate StepFails(s: Step) {
    s.change.ProcessError? || (s.change.Done? && s.status.ProcessError?)
  }

  predicate StepEscapes(s: Step) {
    s.change.OtherError? || (s.change.Done? && s.status.OtherError?)
  }

  // What a request answers: a value, or an exception, which is fatal to the verification
  // unless it is of a kind that has the pass tried again.
  datatype Answer<+T> = Got(value: T) | Threw(fatal: bool)

  datatype Pod = Pod(deleting: bool, restarts: seq<nat>)

  datatype PanelHealth = PanelHealth(connected: bool, queueDepth: int)

  // The answers to one verification pass: whether each service reports to be well, its
  // pods, the panel, and the push timestamps in each poller's metrics.
  datatype Pass = Pass(
    health: Service -> Answer<bool>,
    pods: Service -> Answer<seq<Pod>>,
    panel: Answer<PanelHealth>,
    pushes: Service -> Answer<seq<real>>)

  // One check of a pass.
  datatype Check = Good | TryAgain | Fatal

  const POLLED := [CalendarPoller, WeatherPoller]
  const POLLERS := [CalendarPoller, SysmonPoller, WeatherPoller]
  const MAX_DEPTH := 20

  // What the world answers: to the rollout, to the requests to poll, to each
  // verification pass begun before the deadline, and to each restore. started is the
  // time the rollout began.
  datatype World = World(rollout: Service -> Step, polled: Service -> bool, started: real, passes: seq<Pass>,
                         restore: Service -> Step)

  datatype Result =
    | Returned(pass: nat)
    | Raised
    | RollbackFailed(services: seq<Service>)
    | Escaped

  // The services touched by the rollout: up to the first that fails, and that one too.
  function Changed(rollout: Service -> Step, services: seq<Service>): seq<Service> {
    if services == [] then []
    else [services[0]] + if StepOk(rollout(services[0])) then Changed(rollout, services[1..]) else []
  }

  predicate RolledOut(w: World) {
    forall s :: s in SERVICES ==> StepOk(w.rollout(s))
  }

  // -- Verification -----------------------------------------------------------

  predicate Well(a: Answer<bool>) {
    a.Got? && a.value
  }

  // Some pod is there to stay, and none of those has restarted.
  predicate Steady(a: Answer<seq<Pod>>) {
    && a.Got?
    && (exists p :: p in a.value && !p.deleting)
    && forall p :: p in a.value && !p.deleting ==> forall n :: n in p.restarts ==> n == 0
  }

  predicate Delivering(a: Answer<PanelHealth>) {
    a.Got? && a.value.connected && a.value.queueDepth <= MAX_DEPTH
  }

  predicate Pushed(a: Answer<seq<real>>, started: real) {
    a.Got? && a.value != [] && a.value[0] >= started
  }

  // Every service, the panel and all three deliveries are good in this one pass.
  predicate AllGood(p: Pass, started: real) {
    && (forall s :: s in SERVICES ==> Well(p.health(s)) && Steady(p.pods(s)))
    && Delivering(p.panel)
    && (forall s :: s in POLLERS ==> Pushed(p.pushes(s), started))
  }

  function Judge<T>(a: Answer<T>, good: bool): Check {
    if a.Threw? && a.fatal then Fatal else if good then Good else TryAgain
  }

  // The next check, unless one has ended the pass already.
  function AndThen(c: Check, next: Check): Check {
    if c.Good? then next else c
  }

  function ServiceOutcome(p: Pass, services: seq<Service>): Check {
    if services == [] then Good
    else
      var last := services[|services| - 1];
      AndThen(AndThen(ServiceOutcome(p, services[..|services| - 1]), Judge(p.health(last), Well(p.health(last)))),
              Judge(p.pods(last), Steady(p.pods(last))))
  }

  function PushOutcome(p: Pass, started: real, pollers: seq<Service>): Check {
    if pollers == [] then Good
    else
      var last := pollers[|pollers| - 1];
      AndThen(PushOutcome(p, started, pollers[..|pollers| - 1]), Judge(p.pushes(last), Pushed(p.pushes(last), started)))
  }

  // A pass ends at its first check that is not good: the services, the panel, the pollers.
  function PassOutcome(p: Pass, started: real): Check {
    AndThen(AndThen(ServiceOutcome(p, SERVICES), Judge(p.panel, Delivering(p.panel))), PushOutcome(p, started, POLLERS))
  }

  lemma {:induction false} GoodServices(p: Pass, services: seq<Service>)
    ensures ServiceOutcome(p, services).Good? <==> forall s :: s in services ==> Well(p.health(s)) && Steady(p.pods(s))
  {
    if services != [] {
      var front, last := services[..|services| - 1], services[|services| - 1];
      GoodServices(p, front);
      assert services == front + [last] && last in services;
    }
  }

  lemma {:induction false} GoodPushes(p: Pass, started: real, pollers: seq<Service>)
    ensures PushOutcome(p, started, pollers).Good? <==> forall s :: s in pollers ==> Pushed(p.pushes(s), started)
  {
    if pollers != [] {
      GoodPushes(p, started, pollers[..|pollers| - 1]);
      assert pollers == pollers[..|pollers| - 1] + [pollers[|pollers| - 1]];
    }
  }

  // A pass succeeds exactly when all its checks are good.
  lemma GoodPass(p: Pass, started: real)
    ensures PassOutcome(p, started).Good? <==> AllGood(p, started)
  {
    GoodServices(p, SERVICES);
    GoodPushes(p, started, POLLERS);
  }

  // All of them, answer by answer: every service reports to be well and has pods to stay, none
  // of which restarted; the panel is connected with at most 20 frames waiting; and each
  // poller's first timestamp is not before the rollout.
  lemma AllGoodIs(p: Pass, started: real)
    ensures AllGood(p, started) <==>
      && (forall s :: s in SERVICES ==> p.health(s) == Got(true) && CalmPods(p.pods(s)))
      && (match p.panel case Got(h) => h.connected && h.queueDepth <= 20 case Threw(_) => false)
      && PushedSince(p.pushes(CalendarPoller), started) && PushedSince(p.pushes(SysmonPoller), started)
      && PushedSince(p.pushes(WeatherPoller), started)
  {
    assert POLLERS[0] == CalendarPoller && POLLERS[1] == SysmonPoller && POLLERS[2] == WeatherPoller;
    forall s: Service
      ensures Steady(p.pods(s)) <==> CalmPods(p.pods(s))
    {
      SteadyIs(p.pods(s));
    }
    hide Steady, CalmPods;
  }

  predicate CalmPods(a: Answer<seq<Pod>>) {
    match a
    case Threw(_) => false
    case Got(pods) =>
      && (exists i :: 0 <= i < |pods| && !pods[i].deleting)
      && forall i, j :: 0 <= i < |pods| && !pods[i].deleting && 0 <= j < |pods[i].restarts| ==> pods[i].restarts[j] == 0
  }

  lemma SteadyIs(a: Answer<seq<Pod>>)
    ensures (Steady(a) <==> CalmPods(a)) && (a.Threw? ==> !Steady(a))
  {
    if Steady(a) {
      var pod :| pod in a.value && !pod.deleting;
      var at :| 0 <= at < |a.value| && a.value[at] == pod;
      forall i, j | 0 <= i < |a.value| && !a.value[i].deleting && 0 <= j < |a.value[i].restarts|
        ensures a.value[i].restarts[j] == 0
      {
        assert a.value[i] in a.value && a.value[i].restarts[j] in a.value[i].restarts;
      }
    }
  }

  predicate PushedSince(a: Answer<seq<real>>, started: real) {
    match a case Threw(_) => false case Got(times) => |times| > 0 && times[0] >= started
  }

  // Up to its i-th service a pass is good.
  predicate ServicesGood(p: Pass, i: nat) {
    i <= |SERVICES| && forall k :: 0 <= k < i ==> p.health(SERVICES[k]) == Got(true) && CalmPods(p.pods(SERVICES[k]))
  }

  predicate PushesGood(p: Pass, started: real, i: nat) {
    i <= |POLLERS| && forall k :: 0 <= k < i ==> PushedSince(p.pushes(POLLERS[k]), started)
  }

  predicate PanelGood(p: Pass) {
    match p.panel case Got(h) => h.connected && h.queueDepth <= 20 case Threw(_) => false
  }

  // The first check that is not good met an exception that no later pass can mend.
  predicate Dies(p: Pass, started: real) {
    || (exists i :: 0 <= i < |SERVICES| && ServicesGood(p, i) &&
          (p.health(SERVICES[i]) == Threw(true)
           || (p.health(SERVICES[i]) == Got(true) && p.pods(SERVICES[i]) == Threw(true))))
    || (ServicesGood(p, |SERVICES|) && p.panel == Threw(true))
    || (ServicesGood(p, |SERVICES|) && PanelGood(p)
        && exists i :: 0 <= i < |POLLERS| && PushesGood(p, started, i) && p.pushes(POLLERS[i]) == Threw(true))
  }

  lemma {:induction false} ServicesEnd(p: Pass, n: nat)
    requires n <= |SERVICES|
    ensures ServiceOutcome(p, SERVICES[..n]).Good? <==> ServicesGood(p, n)
    ensures ServiceOutcome(p, SERVICES[..n]).Fatal? <==>
      exists i :: 0 <= i < n && ServicesGood(p, i) &&
        (p.health(SERVICES[i]) == Threw(true)
         || (p.health(SERVICES[i]) == Got(true) && p.pods(SERVICES[i]) == Threw(true)))
  {
    if n > 0 {
      ServicesEnd(p, n - 1);
      assert SERVICES[..n][..n - 1] == SERVICES[..n - 1];
      CheckIs(p.health(SERVICES[n - 1]), p.pods(SERVICES[n - 1]));
      hide ServiceOutcome;
    }
  }

  lemma CheckIs(health: Answer<bool>, pods: Answer<seq<Pod>>)
    ensures Judge(health, Well(health)).Good? <==> health == Got(true)
    ensures Judge(health, Well(health)).Fatal? <==> health == Threw(true)
    ensures Judge(pods, Steady(pods)).Good? <==> CalmPods(pods)
    ensures Judge(pods, Steady(pods)).Fatal? <==> pods == Threw(true)
  {
    SteadyIs(pods);
    hide Steady, CalmPods;
  }

  lemma {:induction false} PushesEnd(p: Pass, started: real, n: nat)
    requires n <= |POLLERS|
    ensures PushOutcome(p, started, POLLERS[..n]).Good? <==> PushesGood(p, started, n)
    ensures PushOutcome(p, started, POLLERS[..n]).Fatal? <==>
      exists i :: 0 <= i < n && PushesGood(p, started, i) && p.pushes(POLLERS[i]) == Threw(true)
  {
    if n > 0 {
      PushesEnd(p, started, n - 1);
      assert POLLERS[..n][..n - 1] == POLLERS[..n - 1];
    }
  }

  // A pass ends the verification exactly when it dies in this sense; otherwise, unless it is
  // good in every check, it is tried again.
  lemma PassEnds(p: Pass, started: real)
    ensures PassOutcome(p, started).Fatal? <==> Dies(p, started)
    ensures PassOutcome(p, started).TryAgain? <==> !Dies(p, started) && !AllGood(p, started)
  {
    ServicesEnd(p, |SERVICES|);
    PushesEnd(p, started, |POLLERS|);
    assert SERVICES[..|SERVICES|] == SERVICES && POLLERS[..|POLLERS|] == POLLERS;
    hide ServiceOutcome, PushOutcome;
    GoodPass(p, started);
  }

  // The first pass that does not ask to be tried again is good in every check.
  predicate VerifiedAt(passes: seq<Pass>, started: real, k: nat) {
    k < |passes| && AllGood(passes[k], started) && forall i :: 0 <= i < k ==> PassOutcome(passes[i], started).TryAgain?
  }

  predicate Succeeds(w: World, k: nat) {
    && RolledOut(w) && w.polled(CalendarPoller) && w.polled(WeatherPoller)
    && VerifiedAt(w.passes, w.started, k)
  }

  // -- Rollback -----------------------------------------------------------------

  // Those whose restore failed, in the order they were restored.
  function Failing(restore: Service -> Step, changed: seq<Service>): seq<Service> {
    if changed == [] then []
    else Failing(restore, changed[1..]) + if StepFails(restore(changed[0])) then [changed[0]] else []
  }

  lemma {:induction false} FailingIsExact(restore: Service -> Step, changed: seq<Service>)
    ensures forall s :: s in Failing(restore, changed) <==> s in changed && StepFails(restore(s))
  {
    if changed != [] {
      FailingIsExact(restore, changed[1..]);
    }
  }

  // They are named in the order they were restored, the last changed first.
  lemma {:induction false} FailingBackwards(restore: Service -> Step, changed: seq<Service>, i: nat, j: nat)
    requires Distinct(changed) && i < j < |Failing(restore, changed)|
    ensures exists k, l ::
      && 0 <= k < l < |changed|
      && changed[l] == Failing(restore, changed)[i] && changed[k] == Failing(restore, changed)[j]
  {
    var rest := Failing(restore, changed[1..]);
    FailingIsExact(restore, changed[1..]);
    if j < |rest| {
      FailingBackwards(restore, changed[1..], i, j);
      var k, l :| 0 <= k < l < |changed[1..]| && changed[1..][l] == rest[i] && changed[1..][k] == rest[j];
      assert changed[l + 1] == rest[i] && changed[k + 1] == rest[j];
    } else {
      assert rest[i] in rest;
      var l :| 0 <= l < |changed[1..]| && changed[1..][l] == rest[i];
      assert changed[l + 1] == rest[i] && changed[0] == Failing(restore, changed)[j];
    }
  }

  // A step: both commands done, or the first failure decides how it ends.
  lemma StepsAre(s: Step)
    ensures StepOk(s) <==> s.change == Done && s.status == Done
    ensures StepFails(s) <==> s.change.ProcessError? || (s.change == Done && s.status.ProcessError?)
    ensures StepEscapes(s) <==> !StepOk(s) && !StepFails(s)
  {
  }

  predicate Total(images: map<Service, Image>) {
    forall s: Service :: s in images
  }

  lemma {:induction false} ChangedIsPrefix(rollout: Service -> Step, services: seq<Service>, n: nat)
    requires n < |services| && forall i :: 0 <= i < n ==> StepOk(rollout(services[i]))
    ensures !StepOk(rollout(services[n])) ==> Changed(rollout, services) == services[..n + 1]
    ensures n + 1 == |services| ==> Changed(rollout, services) == services
  {
    if n > 0 {
      ChangedIsPrefix(rollout, services[1..], n - 1);
      assert services[..n + 1] == [services[0]] + services[1..][..n];
      assert services == [services[0]] + services[1..];
    } else if !StepOk(rollout(services[0])) {
      assert services[..1] == [services[0]];
    }
  }

  // The images once services were set to their targets, up to the first that fails.
  function AfterRollOut(images: map<Service, Image>, targets: map<Service, Image>,
                        services: seq<Service>, rollout: Service -> Step): map<Service, Image>
    requires Total(targets)
    decreases |services|
  {
    if services == [] then images
    else
      var s := services[0];
      var next := if Applies(rollout(s).change) then images[s := targets[s]] else images;
      if StepOk(rollout(s)) then AfterRollOut(next, targets, services[1..], rollout) else next
  }

  // The images once the changed services were restored in reverse; an exception other than
  // a failed process ends the restoring there and then.
  function AfterRollBack(images: map<Service, Image>, previous: map<Service, Image>,
                         changed: seq<Service>, restore: Service -> Step): map<Service, Image>
    requires Total(previous)
    decreases |changed|
  {
    if changed == [] then images
    else
      var last := changed[|changed| - 1];
      var next := if Applies(restore(last).change) then images[last := previous[last]] else images;
      if StepEscapes(restore(last)) then next
      else AfterRollBack(next, previous, changed[..|changed| - 1], restore)
  }

  predicate Escapes(restore: Service -> Step, changed: seq<Service>) {
    exists s :: s in changed && StepEscapes(restore(s))
  }

  // What a release that did not succeed ends with.
  function RollBackResult(restore: Service -> Step, changed: seq<Service>): Result {
    if Escapes(restore, changed) then Escaped
    else if Failing(restore, changed) != [] then RollbackFailed(Failing(restore, changed))
    else Raised
  }

  function RolledBack(previous: map<Service, Image>, targets: map<Service, Image>, w: World): map<Service, Image>
    requires Total(previous) && Total(targets)
  {
    AfterRollBack(AfterRollOut(previous, targets, SERVICES, w.rollout), previous,
                  Changed(w.rollout, SERVICES), w.restore)
  }

  lemma {:induction false} RolledOutImage(images: map<Service, Image>, targets: map<Service, Image>,
                                          services: seq<Service>, rollout: Service -> Step, s: Service)
    requires Total(images) && Total(targets)
    ensures var after := AfterRollOut(images, targets, services, rollout);
      Total(after) &&
      after[s] == if s in Changed(rollout, services) && Applies(rollout(s).change) then targets[s] else images[s]
  {
    if services != [] {
      var c := services[0];
      var next := if Applies(rollout(c).change) then images[c := targets[c]] else images;
      RolledOutImage(next, targets, services[1..], rollout, s);
    }
  }

  // Where the restoring, which goes backwards, came to an end.
  predicate LastEscape(restore: Service -> Step, changed: seq<Service>, e: nat) {
    && e < |changed| && StepEscapes(restore(changed[e]))
    && forall j :: e < j < |changed| ==> !StepEscapes(restore(changed[j]))
  }

  function Reached(restore: Service -> Step, changed: seq<Service>): (e: nat)
    ensures e <= |changed|
  {
    if changed == [] then 0
    else if StepEscapes(restore(changed[|changed| - 1])) then |changed| - 1
    else Reached(restore, changed[..|changed| - 1])
  }

  lemma {:induction false} ReachedIsLastEscape(restore: Service -> Step, changed: seq<Service>)
    ensures Escapes(restore, changed) ==> LastEscape(restore, changed, Reached(restore, changed))
    ensures !Escapes(restore, changed) ==> Reached(restore, changed) == 0
  {
    if changed != [] {
      var front, last := changed[..|changed| - 1], changed[|changed| - 1];
      ReachedIsLastEscape(restore, front);
      assert changed == front + [last];
      assert last in changed && forall s :: s in front ==> s in changed;
    }
  }

  lemma {:induction false} RestoredImage(images: map<Service, Image>, previous: map<Service, Image>,
                                         changed: seq<Service>, restore: Service -> Step, s: Service)
    requires Total(images) && Total(previous)
    ensures var after := AfterRollBack(images, previous, changed, restore);
      Total(after) &&
      after[s] == if s in changed[Reached(restore, changed)..] && Applies(restore(s).change) then previous[s]
        else images[s]
    decreases |changed|
  {
    if changed != [] {
      var front, last := changed[..|changed| - 1], changed[|changed| - 1];
      var next := if Applies(restore(last).change) then images[last := previous[last]] else images;
      if !StepEscapes(restore(last)) {
        RestoredImage(next, previous, front, restore, s);
        assert changed[Reached(restore, changed)..] == front[Reached(restore, front)..] + [last];
      }
    }
  }

  predicate Distinct(services: seq<Service>) {
    forall i, j :: 0 <= i < j < |services| ==> services[i] != services[j]
  }

  lemma {:induction false} ChangedDistinct(rollout: Service -> Step, services: seq<Service>)
    requires Distinct(services)
    ensures Changed(rollout, services) <= services && Distinct(Changed(rollout, services))
  {
    if services != [] {
      ChangedDistinct(rollout, services[1..]);
    }
  }

  // s was set to another image, and its restore was never tried or did not take; the
  // exception that ended the restoring names no service.
  ghost predicate Stranded(w: World, previous: map<Service, Image>, targets: map<Service, Image>, s: Service)
    requires Total(previous) && Total(targets)
  {
    var changed := Changed(w.rollout, SERVICES);
    exists e, i ::
      && LastEscape(w.restore, changed, e)
      && 0 <= i < |changed| && changed[i] == s
      && targets[s] != previous[s] && Applies(w.rollout(s).change)
      && (i < e || !Applies(w.restore(s).change))
  }

  // s is off its previous image and the error does not name it.
  predicate Unnamed(previous: map<Service, Image>, images: map<Service, Image>, r: Result, s: Service)
    requires Total(previous) && Total(images)
  {
    images[s] != previous[s] && !(r.RollbackFailed? && s in r.services)
  }

  lemma LastEscapeIsUnique(restore: Service -> Step, changed: seq<Service>, d: nat, e: nat)
    requires LastEscape(restore, changed, d) && LastEscape(restore, changed, e)
    ensures d == e
  {
  }

  // With distinct services, what lies before e is what the restoring never came to.
  lemma BeforeOrFrom(changed: seq<Service>, e: nat, i: nat)
    requires Distinct(changed) && e <= |changed| && i < |changed|
    ensures changed[i] in changed[e..] <==> e <= i
  {
    if e <= i {
      assert changed[e..][i - e] == changed[i];
    }
  }

  // Being stranded, by s's place among the changed services.
  lemma StrandedAt(w: World, previous: map<Service, Image>, targets: map<Service, Image>, e: nat, i: nat)
    requires Total(previous) && Total(targets) && LastEscape(w.restore, Changed(w.rollout, SERVICES), e)
    requires i < |Changed(w.rollout, SERVICES)|
    ensures var s := Changed(w.rollout, SERVICES)[i];
      Stranded(w, previous, targets, s) <==>
        targets[s] != previous[s] && Applies(w.rollout(s).change) && (i < e || !Applies(w.restore(s).change))
  {
    hide Changed;
    var changed := Changed(w.rollout, SERVICES);
    ChangedDistinct(w.rollout, SERVICES);
    forall d: nat | LastEscape(w.restore, changed, d)
      ensures d == e
    {
      LastEscapeIsUnique(w.restore, changed, d, e);
    }
  }

  lemma ImageAfterEscape(previous: map<Service, Image>, targets: map<Service, Image>, w: World, e: nat, s: Service)
    requires Total(previous) && Total(targets) && LastEscape(w.restore, Changed(w.rollout, SERVICES), e)
    ensures Total(RolledBack(previous, targets, w))
    ensures RolledBack(previous, targets, w)[s] != previous[s] <==> Stranded(w, previous, targets, s)
  {
    hide Changed, AfterRollOut, AfterRollBack, Reached, Distinct;
    var changed := Changed(w.rollout, SERVICES);
    var rolled := AfterRollOut(previous, targets, SERVICES, w.rollout);
    RolledOutImage(previous, targets, SERVICES, w.rollout, s);
    RestoredImage(rolled, previous, changed, w.restore, s);
    ReachedIsLastEscape(w.restore, changed);
    assert changed[e] in changed;
    LastEscapeIsUnique(w.restore, changed, Reached(w.restore, changed), e);
    if s in changed {
      var i :| 0 <= i < |changed| && changed[i] == s;
      ServicesDistinct();
      ChangedDistinct(w.rollout, SERVICES);
      BeforeOrFrom(changed, e, i);
      StrandedAt(w, previous, targets, e, i);
    }
  }

  lemma ServicesDistinct()
    ensures Distinct(SERVICES)
  {
  }

  // Without an escape whatever is off its previous image is named.
  lemma NobodyStranded(previous: map<Service, Image>, targets: map<Service, Image>, w: World, s: Service)
    requires Total(previous) && Total(targets) && !Escapes(w.restore, Changed(w.rollout, SERVICES))
    ensures Total(RolledBack(previous, targets, w))
    ensures !Unnamed(previous, RolledBack(previous, targets, w),
                     RollBackResult(w.restore, Changed(w.rollout, SERVICES)), s)
    ensures !Stranded(w, previous, targets, s)
  {
    hide Changed, AfterRollOut, AfterRollBack, Failing, Reached;
    var changed := Changed(w.rollout, SERVICES);
    var rolled := AfterRollOut(previous, targets, SERVICES, w.rollout);
    RolledOutImage(previous, targets, SERVICES, w.rollout, s);
    RestoredImage(rolled, previous, changed, w.restore, s);
    ReachedIsLastEscape(w.restore, changed);
    assert changed[0..] == changed;
    FailingIsExact(w.restore, changed);
    forall e: nat
      ensures !LastEscape(w.restore, changed, e)
    {
      assert e < |changed| ==> changed[e] in changed;
    }
  }

  // A service is off its previous image and named by nobody exactly when it is stranded.
  lemma StrandedIff(previous: map<Service, Image>, targets: map<Service, Image>, w: World, s: Service)
    requires Total(previous) && Total(targets)
    ensures Total(RolledBack(previous, targets, w))
    ensures Unnamed(previous, RolledBack(previous, targets, w),
                    RollBackResult(w.restore, Changed(w.rollout, SERVICES)), s)
            <==> Stranded(w, previous, targets, s)
  {
    hide Changed, RolledBack, Stranded, Failing, Reached;
    var changed := Changed(w.rollout, SERVICES);
    if Escapes(w.restore, changed) {
      ReachedIsLastEscape(w.restore, changed);
      ImageAfterEscape(previous, targets, w, Reached(w.restore, changed), s);
    } else {
      NobodyStranded(previous, targets, w, s);
    }
  }

  // -- Two escapes --------------------------------------------------------------

  const OK_STEP := Step(Done, Done)

  // The first rollout fails, and awaiting its restored image raises something else: an
  // exception escapes though every image is as before.
  lemma HarmlessEscape(previous: map<Service, Image>, targets: map<Service, Image>, w: World)
    requires Total(previous) && Total(targets)
    requires w.rollout(Aggregator) == Step(Done, ProcessError(false))
    requires w.restore(Aggregator) == Step(Done, OtherError(false))
    ensures RollBackResult(w.restore, Changed(w.rollout, SERVICES)) == Escaped
    ensures RolledBack(previous, targets, w) == previous && forall s :: !Stranded(w, previous, targets, s)
    ensures forall k :: !Succeeds(w, k)
  {
    assert SERVICES[0] == Aggregator && Changed(w.rollout, SERVICES) == [Aggregator];
    assert RolledBack(previous, targets, w) == previous;
    forall s
      ensures !Stranded(w, previous, targets, s)
    {
      StrandedIff(previous, targets, w, s);
    }
  }

  // The second rollout fails and a signal ends its restore: the first service keeps its new
  // image and nobody says so.
  lemma EscapeLeavesOthers(previous: map<Service, Image>, targets: map<Service, Image>, w: World)
    requires Total(previous) && Total(targets) && targets[Aggregator] != previous[Aggregator]
    requires w.rollout(Aggregator) == OK_STEP && w.rollout(CalendarPoller) == Step(Done, ProcessError(false))
    requires w.restore(CalendarPoller) == Step(OtherError(false), Done)
    ensures RollBackResult(w.restore, Changed(w.rollout, SERVICES)) == Escaped
    ensures RolledBack(previous, targets, w)[Aggregator] == targets[Aggregator]
    ensures Stranded(w, previous, targets, Aggregator)
    ensures forall k :: !Succeeds(w, k)
  {
    assert SERVICES[0] == Aggregator && SERVICES[1] == CalendarPoller;
    var changed := Changed(w.rollout, SERVICES);
    assert changed == [Aggregator, CalendarPoller];
    assert LastEscape(w.restore, changed, 1) && changed[0] == Aggregator;
  }

  // One such release, in which every other command succeeds.
  const SIGNALLED := World(
    (s: Service) => if s.CalendarPoller? then Step(Done, ProcessError(false)) else OK_STEP,
    (s: Service) => true, 0.0, [],
    (s: Service) => if s.CalendarPoller? then Step(OtherError(false), Done) else OK_STEP)

  lemma SignalledReleaseStrands(previous: map<Service, Image>, targets: map<Service, Image>)
    requires Total(previous) && Total(targets) && targets[Aggregator] != previous[Aggregator]
    ensures Stranded(SIGNALLED, previous, targets, Aggregator)
    ensures Total(RolledBack(previous, targets, SIGNALLED))
    ensures Unnamed(previous, RolledBack(previous, targets, SIGNALLED),
                    RollBackResult(SIGNALLED.restore, Changed(SIGNALLED.rollout, SERVICES)), Aggregator)
  {
    EscapeLeavesOthers(previous, targets, SIGNALLED);
    StrandedIff(previous, targets, SIGNALLED, Aggregator);
  }

  class Cluster {
    var images: map<Service, Image>

    constructor (images: map<Service, Image>)
      ensures this.images == images
    {
      this.images := images;
    }

    // kubectl set image
    method SetImage(s: Service, image: Image, o: Outcome)
      modifies this
      ensures images == match o
                        case Done => old(images)[s := image]
                        case ProcessError(applied) => if applied then old(images)[s := image] else old(images)
                        case OtherError(applied) => if applied then old(images)[s := image] else old(images)
    {
      if Applies(o) {
        images := images[s := image];
      }
    }

    // Sets the services to their targets in order, until a command fails.
    method RollOut(services: seq<Service>, targets: map<Service, Image>, rollout: Service -> Step)
      returns (changed: seq<Service>, ok: bool)
      requires Total(images) && Total(targets)
      modifies this
      ensures Total(images) && changed == Changed(rollout, services)
      ensures ok <==> forall s :: s in services ==> StepOk(rollout(s))
      ensures ok ==> forall s :: s in services ==> images[s] == targets[s]
      ensures forall s :: s !in changed ==> images[s] == old(images)[s]
      ensures images == AfterRollOut(old(images), targets, services, rollout)
    {
      changed, ok := [], true;
      assert services[0..] == services;
      var i := 0;
      while i < |services| && ok
        invariant 0 <= i <= |services| && Total(images)
        invariant ok ==> changed == services[..i] && forall j :: 0 <= j < i ==> StepOk(rollout(services[j]))
        invariant ok ==> forall s :: s in changed ==> images[s] == targets[s]
        invariant !ok ==> changed == Changed(rollout, services) && exists s :: s in services && !StepOk(rollout(s))
        invariant forall s :: s !in changed ==> images[s] == old(images)[s]
        invariant AfterRollOut(old(images), targets, services, rollout) ==
                  if ok then AfterRollOut(images, targets, services[i..], rollout) else images
        decreases |services| - i
      {
        var s := services[i];
        changed := changed + [s];
        assert services[i..][0] == s && services[i..][1..] == services[i + 1..];
        SetImage(s, targets[s], rollout(s).change);
        ChangedIsPrefix(rollout, services, i);
        if !StepOk(rollout(s)) {
          ok := false;
        }
        i := i + 1;
      }
      if ok && services != [] {
        ChangedIsPrefix(rollout, services, |services| - 1);
      }
    }

    // Restores the changed services in reverse, going on past failed processes.
    method RollBack(previous: map<Service, Image>, changed: seq<Service>, restore: Service -> Step)
      returns (failures: seq<Service>, escaped: bool)
      requires Total(images) && Total(previous)
      modifies this
      ensures Total(images)
      ensures escaped <==> exists s :: s in changed && StepEscapes(restore(s))
      ensures !escaped ==> failures == Failing(restore, changed)
      ensures !escaped ==> forall s :: s in changed && Applies(restore(s).change) ==> images[s] == previous[s]
      ensures forall s :: s !in changed ==> images[s] == old(images)[s]
      ensures images == AfterRollBack(old(images), previous, changed, restore)
    {
      failures, escaped := [], false;
      var i := |changed|;
      assert changed[..i] == changed;
      while i > 0
        invariant 0 <= i <= |changed| && Total(images)
        invariant failures == Failing(restore, changed[i..])
        invariant AfterRollBack(old(images), previous, changed, restore) ==
                  AfterRollBack(images, previous, changed[..i], restore)
        invariant forall s :: s in changed[i..] ==> !StepEscapes(restore(s))
        invariant forall s :: s in changed[i..] && Applies(restore(s).change) ==> images[s] == previous[s]
        invariant forall s :: s !in changed ==> images[s] == old(images)[s]
      {
        i := i - 1;
        var s := changed[i];
        assert changed[..i + 1][..i] == changed[..i];
        assert changed[i..][1..] == changed[i + 1..];
        SetImage(s, previous[s], restore(s).change);
        if StepEscapes(restore(s)) {
          return failures, true;
        }
        if StepFails(restore(s)) {
          failures := failures + [s];
        }
      }
      assert changed[0..] == changed;
    }
  }

  // The source's order: each service's health and pods, the panel, each poller's pushes.
  method RunPass(p: Pass, started: real) returns (c: Check)
    ensures c == PassOutcome(p, started)
  {
    hide Steady, Pushed;
    c := Good;
    var i := 0;
    assert SERVICES[..0] == [];
    while i < |SERVICES|
      invariant 0 <= i <= |SERVICES| && c == ServiceOutcome(p, SERVICES[..i])
    {
      var s := SERVICES[i];
      assert SERVICES[..i + 1][..i] == SERVICES[..i];
      if c.Good? {
        c := Judge(p.health(s), Well(p.health(s)));
      }
      if c.Good? {
        c := Judge(p.pods(s), Steady(p.pods(s)));
      }
      i := i + 1;
    }
    assert SERVICES[..i] == SERVICES;
    if c.Good? {
      c := Judge(p.panel, Delivering(p.panel));
    }
    ghost var before := c;
    i := 0;
    assert POLLERS[..0] == [];
    while i < |POLLERS|
      invariant 0 <= i <= |POLLERS| && c == AndThen(before, PushOutcome(p, started, POLLERS[..i]))
    {
      var s := POLLERS[i];
      assert POLLERS[..i + 1][..i] == POLLERS[..i];
      if c.Good? {
        c := Judge(p.pushes(s), Pushed(p.pushes(s), started));
      }
      i := i + 1;
    }
    assert POLLERS[..i] == POLLERS;
  }

  // Passes until one is good, one dies, or the deadline leaves no more.
  method Verify(passes: seq<Pass>, started: real) returns (k: Option<nat>)
    ensures k.Some? ==> VerifiedAt(passes, started, k.value)
    ensures k.None? ==> forall n :: !VerifiedAt(passes, started, n)
  {
    hide PassOutcome, AllGood;
    var i := 0;
    while i < |passes|
      invariant 0 <= i <= |passes|
      invariant forall n :: 0 <= n < i ==> PassOutcome(passes[n], started).TryAgain? && !AllGood(passes[n], started)
    {
      var c := RunPass(passes[i], started);
      GoodPass(passes[i], started);
      if c.Good? {
        return Some(i);
      }
      if c.Fatal? {
        return None;
      }
      i := i + 1;
    }
    k := None;
  }

  // The rollout, the two requests to poll, and the verification.
  method Advance(cluster: Cluster, targets: map<Service, Image>, w: World)
    returns (changed: seq<Service>, k: Option<nat>)
    requires Total(cluster.images) && Total(targets)
    modifies cluster
    ensures Total(cluster.images) && changed == Changed(w.rollout, SERVICES)
    ensures cluster.images == AfterRollOut(old(cluster.images), targets, SERVICES, w.rollout)
    ensures k.Some? ==> Succeeds(w, k.value) && forall s :: s in SERVICES ==> cluster.images[s] == targets[s]
    ensures k.None? ==> forall n :: !Succeeds(w, n)
    ensures forall s :: s !in changed ==> cluster.images[s] == old(cluster.images)[s]
  {
    hide VerifiedAt, Changed, AfterRollOut;
    k := None;
    var ok: bool;
    changed, ok := cluster.RollOut(SERVICES, targets, w.rollout);
    if ok {
      var i := 0;
      while i < |POLLED| && w.polled(POLLED[i])
        invariant 0 <= i <= |POLLED| && forall j :: 0 <= j < i ==> w.polled(POLLED[j])
      {
        i := i + 1;
      }
      if i == |POLLED| {
        assert w.polled(POLLED[0]) && w.polled(POLLED[1]);
        k := Verify(w.passes, w.started);
      } else {
        assert !w.polled(POLLED[i]);
      }
    }
  }

  method Deploy(cluster: Cluster, targets: map<Service, Image>, w: World) returns (r: Result)
    requires Total(cluster.images) && Total(targets)
    modifies cluster
    ensures Total(cluster.images)
    // It returns exactly when the rollout and the polls went well and a pass was good.
    ensures r.Returned? ==> Succeeds(w, r.pass) && forall s :: s in SERVICES ==> cluster.images[s] == targets[s]
    ensures !r.Returned? ==> forall k :: !Succeeds(w, k)
    // Otherwise every changed service was restored, unless the restores say otherwise.
    ensures !r.Returned? ==>
      var changed := Changed(w.rollout, SERVICES);
      && (r.Escaped? <==> exists s :: s in changed && StepEscapes(w.restore(s)))
      && (r.Raised? <==> forall s :: s in changed ==> StepOk(w.restore(s)))
      && (r.RollbackFailed? ==> r.services == Failing(w.restore, changed))
    ensures r.Raised? ==> cluster.images == old(cluster.images)
    ensures r.RollbackFailed? ==> forall s :: s !in r.services ==> cluster.images[s] == old(cluster.images)[s]
    ensures !r.Returned? ==>
      r == RollBackResult(w.restore, Changed(w.rollout, SERVICES))
        && cluster.images == RolledBack(old(cluster.images), targets, w)
    // A service is off its previous image and named by nobody exactly when it is stranded.
    ensures !r.Returned? ==> forall s ::
      (cluster.images[s] != old(cluster.images)[s] && !(r.RollbackFailed? && s in r.services))
      <==> Stranded(w, old(cluster.images), targets, s)
  {
    hide Succeeds, Changed, AfterRollOut, AfterRollBack, Failing, Stranded;
    var previous := cluster.images;
    var changed, k := Advance(cluster, targets, w);
    if k.Some? {
      return Returned(k.value);
    }
    var failures, escaped := cluster.RollBack(previous, changed, w.restore);
    FailingIsExact(w.restore, changed);
    forall s
      ensures Unnamed(previous, RolledBack(previous, targets, w), RollBackResult(w.restore, changed), s)
              <==> Stranded(w, previous, targets, s)
    {
      StrandedIff(previous, targets, w, s);
    }
    if escaped {
      return Escaped;
    }
    if failures != [] {
      assert failures[0] in failures;
      return RollbackFailed(failures);
    }
    return Raised;
  }
}
