/** What every run of the panel sessions keeps: one owner, and no stale frame sent. */
module PanelSafety {
  import opened Outcomes
  import opened PanelState
  import opened PanelSessions

  // -- Ownership ------------------------------------------------------------

  // A session that may still run, or that has not yet cleaned up.
  predicate Live(phase: Phase) {
    phase.Created? || phase.Running? || phase.Stopping?
  }

  ghost predicate OwnerFields(p: PanelView) {
    p.activeTask == p.activeSocket && (p.connected <==> p.activeSocket.Some?)
  }

  // Only the panel's owner is live.
  ghost predicate LiveIsOwner(st: State) {
    forall s :: s in st.sessions && Live(st.sessions[s].phase) ==> st.panel.activeSocket == Some(s)
  }

  ghost predicate Known(st: State) {
    && (forall s :: s in st.sessions ==> HandlerAt(st, s, Serving) || HandlerAt(st, s, Left))
    && (st.panel.activeSocket.Some? ==> st.panel.activeSocket.value in st.sessions)
  }

  // The lock's holder, and what it may rely on.
  ghost predicate LockOk(st: State) {
    && (forall h :: h in st.handlers && (st.handlers[h].Joining? || st.handlers[h].Holding?) ==> st.lock == Some(h))
    && (st.lock.Some? ==>
      var h := st.lock.value;
      && h in st.handlers && (st.handlers[h].Joining? || st.handlers[h].Holding?)
      && (st.handlers[h].Joining? ==>
            st.panel.activeSocket == None || st.panel.activeSocket == st.handlers[h].previous)
      && (st.handlers[h].Holding? ==> forall s :: s in st.sessions ==> !Live(st.sessions[s].phase)))
  }

  ghost predicate OwnerInv(st: State) {
    OwnerFields(st.panel) && LiveIsOwner(st) && Known(st) && LockOk(st)
  }

  // Steps that leave ownership fields, phases, handlers and the lock alone.
  ghost predicate SameOwnership(a: State, b: State) {
    && a.handlers == b.handlers && a.lock == b.lock
    && a.panel.activeSocket == b.panel.activeSocket && a.panel.activeTask == b.panel.activeTask
    && a.panel.connected == b.panel.connected
    && a.sessions.Keys == b.sessions.Keys
    && forall s :: s in a.sessions ==> a.sessions[s].phase == b.sessions[s].phase
  }

  lemma OwnershipKept(a: State, b: State)
    requires OwnerInv(a) && SameOwnership(a, b)
    ensures OwnerInv(b)
  {
  }

  // Events that change at most queues, flags, readers and writers.
  predicate MovesOwnership(e: Event) {
    e.Connect? || e.AcquireLock? || e.PreviousJoined? || e.TakeOver? || e.CancelHandler? || e.SessionJoined? ||
    e.Start? || e.Stop? || e.CleanUp? || e.SocketClosed?
  }

  lemma ProducerStepOwnership(st: State, e: Event)
    requires Enabled(st, e) && (e.Post? || e.RefreshPut?)
    ensures SameOwnership(st, Apply(st, e))
  {
    if e.Post? {
      PutAllAppends(st.panel, e.bodies);
    }
  }

  lemma ReaderStepOwnership(st: State, e: Event)
    requires Enabled(st, e) && (e.Hello? || e.OtaStart? || e.PauseSent? || e.OtaEnd? || e.Refreshed?)
    ensures SameOwnership(st, Apply(st, e))
  {
  }

  lemma WriterStepOwnership(st: State, e: Event)
    requires Enabled(st, e)
    requires e.WriterPass? || e.WriterSlept? || e.Delivered? || e.GetterTakes? || e.GetterReturns? ||
             e.GetterCancelled? || e.GetTimedOut?
    ensures SameOwnership(st, Apply(st, e))
  {
  }

  lemma SessionStepOwner(st: State, e: Event)
    requires OwnerInv(st) && Enabled(st, e) && (e.Start? || e.Stop? || e.CleanUp? || e.SocketClosed?)
    ensures OwnerInv(Apply(st, e))
  {
  }

  lemma CancelOwner(st: State, s: SessionId)
    requires OwnerInv(st) && s in st.sessions
    ensures OwnerInv(CancelSession(st, s))
  {
  }

  lemma AcquireOwner(st: State, h: SessionId)
    requires OwnerInv(st) && Enabled(st, AcquireLock(h))
    ensures OwnerInv(Apply(st, AcquireLock(h)))
  {
    var previous := st.panel.activeTask;
    var held := SetHandler(st, h, Joining(previous)).(lock := Some(h));
    assert OwnerInv(held);
    if previous.Some? {
      CancelOwner(held, previous.value);
    }
  }

  lemma CancelHandlerOwner(st: State, h: SessionId)
    requires OwnerInv(st) && Enabled(st, CancelHandler(h))
    ensures OwnerInv(Apply(st, CancelHandler(h)))
  {
    if st.handlers[h].Serving? && h in st.sessions {
      CancelOwner(st, h);
    }
  }

  lemma HandlerStepOwner(st: State, e: Event)
    requires OwnerInv(st) && Enabled(st, e)
    requires e.Connect? || e.PreviousJoined? || e.TakeOver? || e.SessionJoined?
    ensures OwnerInv(Apply(st, e))
  {
  }

  lemma OwnerStep(st: State, e: Event)
    requires OwnerInv(st) && Enabled(st, e)
    ensures OwnerInv(Apply(st, e))
  {
    hide OwnerInv, Apply, SameOwnership, Enabled;
    if e.AcquireLock? {
      AcquireOwner(st, e.h);
    } else if e.CancelHandler? {
      CancelHandlerOwner(st, e.h);
    } else if e.Start? || e.Stop? || e.CleanUp? || e.SocketClosed? {
      SessionStepOwner(st, e);
    } else if MovesOwnership(e) {
      HandlerStepOwner(st, e);
    } else {
      if e.Post? || e.RefreshPut? {
        ProducerStepOwnership(st, e);
      } else if e.Hello? || e.OtaStart? || e.PauseSent? || e.OtaEnd? || e.Refreshed? {
        ReaderStepOwnership(st, e);
      } else {
        WriterStepOwnership(st, e);
      }
      OwnershipKept(st, Apply(st, e));
    }
  }

  // The session an event is a step of.
  function Actor(e: Event): Option<SessionId> {
    match e
    case Start(s) => Some(s)
    case Stop(s, _) => Some(s)
    case CleanUp(s) => Some(s)
    case SessionJoined(h) => Some(h)
    case Hello(s) => Some(s)
    case OtaStart(s) => Some(s)
    case PauseSent(s) => Some(s)
    case OtaEnd(s) => Some(s)
    case RefreshPut(s, _) => Some(s)
    case Refreshed(s) => Some(s)
    case WriterPass(s) => Some(s)
    case WriterSlept(s) => Some(s)
    case Delivered(s) => Some(s)
    case GetterTakes(s) => Some(s)
    case GetterReturns(s) => Some(s)
    case GetterCancelled(s) => Some(s)
    case GetTimedOut(s) => Some(s)
    case _ => None
  }

  // At most one session reads and writes.
  lemma OneLiveSession(st: State, s: SessionId, t: SessionId)
    requires OwnerInv(st) && In(st, s, Running) && In(st, t, Running)
    ensures s == t && st.panel.connected
  {
  }

  // A session that was replaced, or ends late, never changes the panel again.
  lemma OnlyOwnerMovesPanel(st: State, e: Event)
    requires OwnerInv(st) && Enabled(st, e) && Apply(st, e).panel != st.panel
    ensures e.Post? || e.TakeOver? || (Actor(e).Some? && Actor(e) == st.panel.activeSocket)
  {
    if Actor(e).Some? && Actor(e).value in st.sessions {
      assert Live(st.sessions[Actor(e).value].phase) || e.SessionJoined?;
    }
  }

  // -- Delivery ---------------------------------------------------------------

  // f was put on the panel, with this content.
  predicate Recorded(puts: seq<Body>, f: Frame) {
    f.put < |puts| && puts[f.put] == f.body
  }

  // Positions below which everything has been sent, dropped or discarded.
  function Floor(p: PanelView): nat {
    if p.sends == [] then 0 else p.sends[|p.sends| - 1].frame.put + 1
  }

  ghost predicate QueueOk(p: PanelView) {
    && |p.normals| <= QUEUE_MAX && |p.interrupts| <= QUEUE_MAX
    && (forall i :: 0 <= i < |p.normals| ==>
          Recorded(p.puts, p.normals[i]) && p.mark <= p.normals[i].put && Floor(p) <= p.normals[i].put)
    && (forall i, j :: 0 <= i < j < |p.normals| ==> p.normals[i].put < p.normals[j].put)
  }

  // f was put before everything still queued, and after everything sent.
  ghost predicate NextUp(p: PanelView, f: Frame) {
    && Recorded(p.puts, f) && Floor(p) <= f.put
    && (forall i :: 0 <= i < |p.normals| ==> f.put < p.normals[i].put)
  }

  ghost predicate PendingOk(p: PanelView) {
    p.pending.Some? ==> NextUp(p, p.pending.value) && p.mark <= p.pending.value.put
  }

  // What each started send shows.
  ghost predicate SendOk(puts: seq<Body>, r: Send) {
    Recorded(puts, r.frame) && r.interrupts == 0 && !r.paused && r.ready && r.helloMark <= r.mark <= r.frame.put
  }

  ghost predicate SendsOk(p: PanelView) {
    && (forall i :: 0 <= i < |p.sends| ==> SendOk(p.puts, p.sends[i]))
    && (forall i, j :: 0 <= i < j < |p.sends| ==> p.sends[i].frame.put < p.sends[j].frame.put)
  }

  ghost predicate PanelOk(p: PanelView)
    ensures PanelOk(p) ==> |p.normals| <= QUEUE_MAX && |p.interrupts| <= QUEUE_MAX
  {
    p.mark <= |p.puts| && QueueOk(p) && PendingOk(p) && SendsOk(p)
  }

  // A writer awaiting a get owns it, and what the get took is fresh unless a discard
  // has since moved the generation on.
  ghost predicate WriterOk(p: PanelView, w: Writer) {
    w.Getting? ==>
      && w.getter < |p.getters| && w.generation <= p.generation
      && p.normalGetter == Some(w.getter) && p.pending == None
      && (p.getters[w.getter].Took? ==>
            NextUp(p, p.getters[w.getter].frame) &&
            (w.generation == p.generation ==> p.mark <= p.getters[w.getter].frame.put))
  }

  ghost predicate SessionOk(p: PanelView, x: Session)
    ensures !x.phase.Running? ==> SessionOk(p, x)
  {
    x.phase.Running? ==> WriterOk(p, x.writer) && (x.ready ==> x.helloMark <= p.mark)
  }

  ghost predicate DeliveryInv(st: State) {
    && PanelOk(st.panel)
    && (st.panel.activeSocket.Some? && st.panel.activeSocket.value in st.sessions ==>
          SessionOk(st.panel, st.sessions[st.panel.activeSocket.value]))
  }

  lemma DiscardKeeps(p: PanelView, x: Session)
    requires PanelOk(p) && SessionOk(p, x)
    ensures PanelOk(Discard(p)) && SessionOk(Discard(p), x)
  {
  }

  lemma PutKeeps(p: PanelView, b: Body, x: Session)
    requires PanelOk(p) && SessionOk(p, x) && |p.normals| < QUEUE_MAX
    ensures PanelOk(Put(p, b)) && SessionOk(Put(p, b), x)
  {
  }

  lemma {:induction false} PutAllKeeps(p: PanelView, bs: seq<Body>, x: Session)
    requires PanelOk(p) && SessionOk(p, x) && |p.normals| + |bs| <= QUEUE_MAX
    ensures PanelOk(PutAll(p, bs)) && SessionOk(PutAll(p, bs), x)
  {
    hide PanelOk, SessionOk;
    if bs != [] {
      var front := bs[..|bs| - 1];
      PutAllKeeps(p, front, x);
      PutAllAppends(p, front);
      PutKeeps(PutAll(p, front), bs[|bs| - 1], x);
    }
  }

  // The frame a send takes from the panel's hands.
  lemma SendKeeps(p: PanelView, r: Send)
    requires PanelOk(p) && p.pending == Some(r.frame) && SendOk(p.puts, r)
    ensures PanelOk(p.(pending := None, sends := p.sends + [r]))
  {
  }

  lemma PassKeeps(p: PanelView, s: SessionId, x: Session)
    requires PanelOk(p) && SessionOk(p, x) && x.phase.Running?
    ensures var (q, w) := WriterRun(p, s, x.ready, x.helloMark);
      PanelOk(q) && SessionOk(q, x.(writer := w))
  {
    if p.interrupts == [] && !p.paused && x.ready && p.pending.Some? {
      hide QueueOk, SendsOk;
      SendKeeps(p, Send(s, p.pending.value, 0, false, true, p.mark, x.helloMark));
    }
  }

  lemma TakeKeeps(p: PanelView, x: Session)
    requires PanelOk(p) && SessionOk(p, x) && x.phase.Running? && x.writer.Getting? && p.normals != []
    ensures PanelOk(Take(p, x.writer.getter)) && SessionOk(Take(p, x.writer.getter), x)
  {
  }

  lemma ResumeKeeps(p: PanelView, x: Session)
    requires PanelOk(p) && SessionOk(p, x) && x.phase.Running? && x.writer.Getting? && p.getters[x.writer.getter].Took?
    ensures var q := Resume(p, x.writer.generation, x.writer.getter);
      PanelOk(q) && SessionOk(q, x.(writer := Top))
  {
  }

  // Steps that leave the normal frames alone.
  ghost predicate SameFrames(p: PanelView, q: PanelView) {
    q == p.(interrupts := q.interrupts, connected := q.connected, paused := q.paused, overloaded := q.overloaded,
            activeSocket := q.activeSocket, activeTask := q.activeTask, normalGetter := q.normalGetter)
    && |q.interrupts| <= QUEUE_MAX
  }

  lemma SameFramesKeeps(p: PanelView, q: PanelView)
    requires PanelOk(p) && SameFrames(p, q)
    ensures PanelOk(q)
  {
  }

  lemma PostKeeps(p: PanelView, urgent: bool, bs: seq<Body>, x: Session)
    requires PanelOk(p) && SessionOk(p, x)
    ensures PanelOk(PanelState.Post(p, urgent, bs)) && SessionOk(PanelState.Post(p, urgent, bs), x)
  {
    hide PanelOk;
    if !urgent && |p.normals| + |bs| <= QUEUE_MAX {
      PutAllKeeps(p, bs, x);
    } else {
      SameFramesKeeps(p, PanelState.Post(p, urgent, bs));
    }
  }

  // What the steps of a running session, the panel's owner, keep.
  ghost predicate OwnerStepOf(st: State, e: Event, s: SessionId) {
    Enabled(st, e) && In(st, s, Running) && st.panel.activeSocket == Some(s) && Actor(e) == Some(s)
  }

  lemma DiscardStepDelivery(st: State, e: Event, s: SessionId)
    requires DeliveryInv(st) && OwnerStepOf(st, e, s) && (e.Hello? || e.OtaEnd?)
    ensures DeliveryInv(Apply(st, e))
  {
    hide PanelOk, WriterOk, Discard;
    var x := st.sessions[s];
    if e.Hello? {
      DiscardKeeps(st.panel, x);
      DiscardedTo(st.panel);
    } else {
      var p := st.panel.(paused := false);
      SameFramesKeeps(st.panel, p);
      SameFramesSession(st.panel, p, x);
      DiscardKeeps(p, x);
      DiscardedTo(p);
    }
  }

  lemma DiscardedTo(p: PanelView)
    ensures Discard(p).mark == |p.puts| && Discard(p).activeSocket == p.activeSocket
  {
  }

  lemma SameFramesSession(p: PanelView, q: PanelView, x: Session)
    requires SessionOk(p, x) && SameFrames(p, q) && p.normalGetter == q.normalGetter
    ensures SessionOk(q, x)
  {
  }

  lemma ReaderStepDelivery(st: State, e: Event, s: SessionId)
    requires DeliveryInv(st) && OwnerStepOf(st, e, s)
    requires e.OtaStart? || e.PauseSent? || e.RefreshPut? || e.Refreshed?
    ensures DeliveryInv(Apply(st, e))
  {
    hide PanelOk, WriterOk;
    var x := st.sessions[s];
    if e.RefreshPut? {
      PutKeeps(st.panel, e.body, x);
    } else if e.OtaStart? {
      var p := st.panel.(paused := true);
      SameFramesKeeps(st.panel, p);
      SameFramesSession(st.panel, p, x);
    }
  }

  lemma WriterStepDelivery(st: State, e: Event, s: SessionId)
    requires DeliveryInv(st) && OwnerStepOf(st, e, s)
    requires e.WriterPass? || e.WriterSlept? || e.Delivered? || e.GetterTakes? || e.GetterReturns? ||
             e.GetterCancelled? || e.GetTimedOut?
    ensures DeliveryInv(Apply(st, e))
  {
    hide PanelOk;
    var x := st.sessions[s];
    match e
    case WriterPass(_) => PassKeeps(st.panel, s, x);
    case GetterTakes(_) => TakeKeeps(st.panel, x);
    case GetterReturns(_) => ResumeKeeps(st.panel, x);
    case GetterCancelled(_) => SameFramesKeeps(st.panel, Apply(st, e).panel);
    case GetTimedOut(_) => SameFramesKeeps(st.panel, Apply(st, e).panel);
    case _ =>
  }

  lemma HandlerStepDelivery(st: State, e: Event)
    requires OwnerInv(st) && DeliveryInv(st) && Enabled(st, e)
    requires e.Connect? || e.AcquireLock? || e.PreviousJoined? || e.CancelHandler? || e.SocketClosed?
    ensures DeliveryInv(Apply(st, e))
  {
  }

  lemma OwnerChangeDelivery(st: State, e: Event)
    requires OwnerInv(st) && DeliveryInv(st) && Enabled(st, e)
    requires e.SessionJoined? || e.Start? || e.Stop? || e.CleanUp?
    ensures DeliveryInv(Apply(st, e))
  {
    hide PanelOk;
    SameFramesKeeps(st.panel, Apply(st, e).panel);
  }

  lemma TakeOverDelivery(st: State, h: SessionId)
    requires DeliveryInv(st) && Enabled(st, PanelSessions.TakeOver(h))
    ensures DeliveryInv(Apply(st, PanelSessions.TakeOver(h)))
  {
  }

  lemma PostDelivery(st: State, urgent: bool, bs: seq<Body>)
    requires OwnerInv(st) && DeliveryInv(st)
    ensures DeliveryInv(Apply(st, PanelSessions.Post(urgent, bs)))
  {
    hide PanelOk, SessionOk;
    ProducerStepOwnership(st, PanelSessions.Post(urgent, bs));
    var owner := st.panel.activeSocket;
    PostKeeps(st.panel, urgent, bs,
              if owner.Some? then st.sessions[owner.value] else Session(Created, false, 0, Reading, Top));
  }

  lemma RunningStepDelivery(st: State, e: Event, s: SessionId)
    requires OwnerInv(st) && DeliveryInv(st) && Enabled(st, e) && Actor(e) == Some(s)
    requires !(e.Start? || e.Stop? || e.CleanUp? || e.SessionJoined?)
    ensures DeliveryInv(Apply(st, e))
  {
    hide DeliveryInv, Apply;
    assert Live(st.sessions[s].phase);
    if e.Hello? || e.OtaEnd? {
      DiscardStepDelivery(st, e, s);
    } else if e.OtaStart? || e.PauseSent? || e.RefreshPut? || e.Refreshed? {
      ReaderStepDelivery(st, e, s);
    } else {
      WriterStepDelivery(st, e, s);
    }
  }

  lemma DeliveryStep(st: State, e: Event)
    requires OwnerInv(st) && DeliveryInv(st) && Enabled(st, e)
    ensures DeliveryInv(Apply(st, e))
  {
    hide OwnerInv, DeliveryInv, Apply, Enabled;
    if e.Post? {
      PostDelivery(st, e.urgent, e.bodies);
    } else if e.TakeOver? {
      TakeOverDelivery(st, e.h);
    } else if e.Start? || e.Stop? || e.CleanUp? || e.SessionJoined? {
      OwnerChangeDelivery(st, e);
    } else if Actor(e).Some? {
      RunningStepDelivery(st, e, Actor(e).value);
    } else {
      HandlerStepDelivery(st, e);
    }
  }

  // -- Whole runs -------------------------------------------------------------

  ghost predicate Safe(st: State) {
    OwnerInv(st) && DeliveryInv(st)
  }

  lemma {:induction false} RunKeepsSafe(st: State, events: seq<Event>)
    requires Safe(st) && Possible(st, events)
    ensures Safe(Execute(st, events))
    decreases |events|
  {
    hide OwnerInv, DeliveryInv, Apply, Enabled;
    if events != [] {
      OwnerStep(st, events[0]);
      DeliveryStep(st, events[0]);
      RunKeepsSafe(Apply(st, events[0]), events[1..]);
    }
  }

  lemma EveryRunSafe(events: seq<Event>)
    requires Possible(INITIAL, events)
    ensures Safe(Execute(INITIAL, events))
  {
    RunKeepsSafe(INITIAL, events);
  }

  // Every normal send started in any run: interrupts drained, OTA not paused, HELLO received,
  // the frame put after the latest discard (so after the session's HELLO), and the frames in
  // the order they were put, none twice.
  lemma EverySendFresh(events: seq<Event>, i: nat)
    requires Possible(INITIAL, events) && i < |Execute(INITIAL, events).panel.sends|
    ensures var p := Execute(INITIAL, events).panel;
      var r := p.sends[i];
      && r.interrupts == 0 && !r.paused && r.ready
      && r.helloMark <= r.mark <= r.frame.put < |p.puts| && p.puts[r.frame.put] == r.frame.body
      && forall j :: 0 <= j < i ==> p.sends[j].frame.put < r.frame.put
  {
    EveryRunSafe(events);
    var p := Execute(INITIAL, events).panel;
    assert SendsOk(p) && SendOk(p.puts, p.sends[i]);
  }

  lemma OnlyPassSends(st: State, e: Event)
    requires Enabled(st, e) && !e.WriterPass?
    ensures Apply(st, e).panel.sends == st.panel.sends
  {
    if e.Post? {
      PutAllAppends(st.panel, e.bodies);
    }
  }

  // The same about the state in which a send starts, without its own record of it.
  lemma SendStarts(st: State, e: Event)
    requires Safe(st) && Enabled(st, e) && Apply(st, e).panel.sends != st.panel.sends
    ensures e.WriterPass? && st.panel.activeSocket == Some(e.s) && st.sessions[e.s].ready
    ensures st.panel.interrupts == [] && !st.panel.paused && st.panel.pending.Some?
    ensures var f := st.panel.pending.value;
      && st.panel.mark <= f.put && Recorded(st.panel.puts, f)
      && Apply(st, e).panel.sends[..|st.panel.sends|] == st.panel.sends
      && |Apply(st, e).panel.sends| == |st.panel.sends| + 1
      && Apply(st, e).panel.sends[|st.panel.sends|].frame == f
  {
    if !e.WriterPass? {
      OnlyPassSends(st, e);
    } else {
      hide QueueOk, SendsOk, WriterOk, LockOk, Known;
      assert Live(st.sessions[e.s].phase);
    }
  }

  // In any run: one live session, which is the owner, and connected exactly when owned.
  lemma EveryRunOwned(events: seq<Event>)
    requires Possible(INITIAL, events)
    ensures var st := Execute(INITIAL, events);
      && (st.panel.connected <==> st.panel.activeSocket.Some?)
      && (forall s, t :: In(st, s, Running) && In(st, t, Running) ==> s == t)
      && |st.panel.normals| <= QUEUE_MAX && |st.panel.interrupts| <= QUEUE_MAX
  {
    EveryRunSafe(events);
    var st := Execute(INITIAL, events);
    forall s, t | In(st, s, Running) && In(st, t, Running)
      ensures s == t
    {
      OneLiveSession(st, s, t);
    }
  }
}
