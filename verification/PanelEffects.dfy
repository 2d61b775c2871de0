/** What each event does to a panel and its sessions, in plain terms, and what a discard and
    an update mean for everything sent later. */
module PanelEffects {
  import opened Outcomes
  import opened PanelState
  import opened PanelSessions
  import opened PanelSafety

  // -- Events that discard ----------------------------------------------------------

  predicate Discards(e: Event) { e.Hello? || e.OtaEnd? || e.TakeOver? }

  // HELLO, the end of an update and a replacement empty the queue, forget the frame in hand,
  // cancel a waiting get and start a new generation; interrupts stay.
  lemma NothingOldIsLeft(st: State, e: Event)
    requires Enabled(st, e) && Discards(e)
    ensures var (p, q) := (st.panel, Apply(st, e).panel);
            && q.normals == [] && q.pending == None && q.generation > p.generation
            && q.mark == |p.puts| && q.puts == p.puts && q.sends == p.sends && q.interrupts == p.interrupts
            && |q.getters| == |p.getters|
            && forall g :: 0 <= g < |p.getters| ==>
                 q.getters[g] ==
                   if p.normalGetter == Some(g) && p.getters[g].Waiting? then Cancelled else p.getters[g]
    ensures Apply(st, e).panel.paused == (e.Hello? && st.panel.paused)
  {
  }

  // What was discarded stays behind: marks and sends only grow.
  lemma MarkStep(st: State, e: Event)
    requires PanelOk(st.panel) && Enabled(st, e)
    ensures var (p, q) := (st.panel, Apply(st, e).panel);
            && p.mark <= q.mark && |p.sends| <= |q.sends| && q.sends[..|p.sends|] == p.sends
            && forall i :: |p.sends| <= i < |q.sends| ==> q.sends[i].mark == p.mark
  {
    hide QueueOk, PendingOk, SendsOk;
    if e.Post? {
      PutAllAppends(st.panel, e.bodies);
    } else if !e.WriterPass? {
      OnlyPassSends(st, e);
      assert Apply(st, e).panel.sends[..|st.panel.sends|] == st.panel.sends;
    }
  }

  lemma {:induction false} MarksLater(st: State, events: seq<Event>, i: nat)
    requires Safe(st) && Possible(st, events) && |st.panel.sends| <= i < |Execute(st, events).panel.sends|
    ensures Execute(st, events).panel.sends[i].mark >= st.panel.mark
    decreases |events|
  {
    hide OwnerInv, PanelOk, SessionOk, Apply, Enabled;
    if events != [] {
      var next := Apply(st, events[0]);
      MarkStep(st, events[0]);
      SafeStep(st, events[0]);
      if i < |next.panel.sends| {
        SendsStay(next, events[1..], i);
      } else {
        MarksLater(next, events[1..], i);
      }
    }
  }

  lemma SafeStep(st: State, e: Event)
    requires Safe(st) && Enabled(st, e)
    ensures Safe(Apply(st, e))
  {
    hide OwnerInv, DeliveryInv, Apply, Enabled;
    OwnerStep(st, e);
    DeliveryStep(st, e);
  }

  // What has been sent stays on record.
  lemma {:induction false} SendsStay(st: State, events: seq<Event>, i: nat)
    requires Safe(st) && Possible(st, events) && i < |st.panel.sends|
    ensures i < |Execute(st, events).panel.sends| && Execute(st, events).panel.sends[i] == st.panel.sends[i]
    decreases |events|
  {
    hide OwnerInv, PanelOk, SessionOk, Apply, Enabled;
    if events != [] {
      MarkStep(st, events[0]);
      SafeStep(st, events[0]);
      SendsStay(Apply(st, events[0]), events[1..], i);
    }
  }

  // Whatever is sent after a HELLO, the end of an update or a replacement was put after it.
  lemma SentAfterDiscard(st: State, e: Event, events: seq<Event>, i: nat)
    requires Safe(st) && Enabled(st, e) && Discards(e) && Possible(Apply(st, e), events)
    requires |st.panel.sends| <= i < |Execute(Apply(st, e), events).panel.sends|
    ensures Execute(Apply(st, e), events).panel.sends[i].frame.put >= |st.panel.puts|
  {
    hide OwnerInv, SessionOk, QueueOk, PendingOk, Apply, Enabled;
    var next := Apply(st, e);
    NothingOldIsLeft(st, e);
    SafeStep(st, e);
    MarksLater(next, events, i);
    RunKeepsSafe(next, events);
    var end := Execute(next, events);
    assert SendsOk(end.panel) && SendOk(end.panel.puts, end.panel.sends[i]);
  }

  // -- Silence during an update -------------------------------------------------------

  // What can end an update, as the panel sees it.
  predicate EndsUpdate(e: Event) { e.OtaEnd? || e.TakeOver? || e.CleanUp? || e.SessionJoined? }

  lemma StaysPaused(st: State, e: Event)
    requires Enabled(st, e) && st.panel.paused && !EndsUpdate(e)
    ensures Apply(st, e).panel.paused && Apply(st, e).panel.sends == st.panel.sends
  {
    if e.Post? {
      PutAllAppends(st.panel, e.bodies);
    }
  }

  // From the start of an update until it ends or its session is cleaned up, no frame but
  // interrupts is sent.
  lemma {:induction false} SilentDuringUpdate(st: State, events: seq<Event>)
    requires Possible(st, events) && st.panel.paused && forall i :: 0 <= i < |events| ==> !EndsUpdate(events[i])
    ensures Execute(st, events).panel.paused && Execute(st, events).panel.sends == st.panel.sends
    decreases |events|
  {
    hide Apply, Enabled, EndsUpdate;
    if events != [] {
      StaysPaused(st, events[0]);
      SilentDuringUpdate(Apply(st, events[0]), events[1..]);
    }
  }

  lemma UpdateIsSilent(st: State, s: SessionId, events: seq<Event>)
    requires Enabled(st, OtaStart(s)) && Possible(Apply(st, OtaStart(s)), events)
    requires forall i :: 0 <= i < |events| ==> !EndsUpdate(events[i])
    ensures Execute(Apply(st, OtaStart(s)), events).panel.sends == st.panel.sends
  {
    SilentDuringUpdate(Apply(st, OtaStart(s)), events);
  }

  // -- Each event ---------------------------------------------------------------------

  // A batch is queued whole, or refused if more than 50 would wait; a refusal overloads a
  // connected panel that is not being updated.
  lemma PostIs(st: State, urgent: bool, bodies: seq<Body>)
    ensures var (p, q) := (st.panel, Apply(st, Post(urgent, bodies)).panel);
            if (if urgent then |p.interrupts| else |p.normals|) + |bodies| > 50
            then q == p.(overloaded := p.overloaded || (p.connected && !p.paused))
            else if urgent then q == p.(interrupts := p.interrupts + bodies)
            else
              && q == p.(normals := q.normals, puts := p.puts + bodies)
              && |q.normals| == |p.normals| + |bodies| && q.normals[..|p.normals|] == p.normals
              && forall i :: 0 <= i < |bodies| ==> q.normals[|p.normals| + i] == Frame(bodies[i], |p.puts| + i)
  {
    PutAllAppends(st.panel, bodies);
  }

  // A writer at the top of its loop: an interrupt goes first; an update or a missing HELLO
  // makes it sleep; without a frame in hand it waits for one; otherwise it sends that.
  lemma WriterPassIs(st: State, s: SessionId)
    requires Enabled(st, WriterPass(s))
    ensures var (p, q) := (st.panel, Apply(st, WriterPass(s)).panel);
            var x := st.sessions[s];
            var w := Apply(st, WriterPass(s)).sessions[s].writer;
            Apply(st, WriterPass(s)).sessions == st.sessions[s := x.(writer := w)] &&
            if p.interrupts != [] then w == SendingInterrupt && q == p.(interrupts := p.interrupts[1..])
            else if p.paused || !x.ready then w == Sleeping && q == p
            else if p.pending == None then
              && w == Getting(p.generation, |p.getters|)
              && q == p.(getters := p.getters + [Waiting], normalGetter := Some(|p.getters|))
            else
              && w == SendingNormal && |q.sends| == |p.sends| + 1 && q == p.(pending := None, sends := q.sends)
              && q.sends[|p.sends|].session == s && q.sends[|p.sends|].frame == p.pending.value
              && q.sends[..|p.sends|] == p.sends
  {
  }

  // What becomes of a get: it takes the head; its frame is kept unless a discard came in
  // between; cancelled or timed out it leaves nothing in hand.
  lemma GetIs(st: State, e: Event)
    requires Enabled(st, e) && (e.GetterTakes? || e.GetterReturns? || e.GetterCancelled? || e.GetTimedOut?)
    ensures var (p, q, w) := (st.panel, Apply(st, e).panel, st.sessions[e.s].writer);
            if e.GetterTakes? then
              && q == p.(getters := p.getters[w.getter := Took(p.normals[0])], normals := p.normals[1..])
              && Apply(st, e).sessions == st.sessions
            else
              && q.pending == (if e.GetterReturns? && w.generation == p.generation
                               then Some(p.getters[w.getter].frame) else p.pending)
              && q.normalGetter == (if p.normalGetter == Some(w.getter) then None else p.normalGetter)
              && q == p.(pending := q.pending, normalGetter := q.normalGetter)
              && Apply(st, e).sessions == st.sessions[e.s := st.sessions[e.s].(writer := Top)]
  {
  }

  // What a reader's messages do; HELLO and the end of an update also discard.
  lemma ReaderIs(st: State, e: Event)
    requires Enabled(st, e)
    ensures e.Hello? ==>
      Apply(st, e).sessions ==
        st.sessions[e.s := st.sessions[e.s].(ready := true, helloMark := |st.panel.puts|, reader := Refreshing)]
    ensures e.OtaStart? ==>
      && Apply(st, e).panel == st.panel.(paused := true)
      && Apply(st, e).sessions == st.sessions[e.s := st.sessions[e.s].(reader := Pausing)]
    ensures e.OtaEnd? ==> Apply(st, e).sessions == st.sessions[e.s := st.sessions[e.s].(reader := Refreshing)]
    ensures e.PauseSent? || e.Refreshed? ==>
      && Apply(st, e).panel == st.panel
      && Apply(st, e).sessions == st.sessions[e.s := st.sessions[e.s].(reader := Reading)]
    ensures e.RefreshPut? ==>
      && Apply(st, e).sessions == st.sessions
      && Apply(st, e).panel == st.panel.(normals := st.panel.normals + [Frame(e.body, |st.panel.puts|)],
                                         puts := st.panel.puts + [e.body])
  {
  }

  // A session's life. Only the owner's cleanup gives the panel up, and an overload only stops
  // a session of an overloaded panel.
  lemma SessionIs(st: State, e: Event)
    requires Enabled(st, e)
    ensures e.Start? ==>
      && Apply(st, e).sessions == st.sessions[e.s := Session(Running, false, 0, Reading, Top)]
      && Apply(st, e).panel == st.panel
    ensures e.Stop? ==>
      && (e.overload ==> st.panel.overloaded)
      && Apply(st, e).sessions == st.sessions[e.s := st.sessions[e.s].(phase := Stopping(e.overload))]
      && Apply(st, e).panel == st.panel.(normalGetter := Apply(st, e).panel.normalGetter)
      && (st.sessions[e.s].writer.Getting? ==> Apply(st, e).panel.normalGetter != Some(st.sessions[e.s].writer.getter))
    ensures e.CleanUp? ==>
      && Apply(st, e).sessions ==
           st.sessions[e.s := st.sessions[e.s].(phase := if st.sessions[e.s].phase.overload then Closing else Finished)]
      && Apply(st, e).panel ==
           if st.panel.activeSocket == Some(e.s)
           then st.panel.(paused := false, connected := false, activeSocket := None, activeTask := None)
           else st.panel
    ensures e.SocketClosed? ==>
      && Apply(st, e).sessions == st.sessions[e.s := st.sessions[e.s].(phase := Finished)]
      && Apply(st, e).panel == st.panel
  {
  }

  // A writer back from a send or a pause starts over; no one but a handler moves handlers.
  lemma OthersStay(st: State, e: Event)
    requires Enabled(st, e)
    ensures e.WriterSlept? || e.Delivered? ==>
      && Apply(st, e).panel == st.panel
      && Apply(st, e).sessions == st.sessions[e.s := st.sessions[e.s].(writer := Top)]
    ensures e.Post? ==> Apply(st, e).sessions == st.sessions
    ensures e.Start? || e.Stop? || e.CleanUp? || e.SocketClosed? || !MovesOwnership(e) ==>
      Apply(st, e).handlers == st.handlers && Apply(st, e).lock == st.lock
  {
  }

  // A handler takes the lock, cancels the previous session and awaits its end before it
  // becomes the owner with a session of its own.
  lemma HandlerIs(st: State, e: Event)
    requires Enabled(st, e)
    ensures e.Connect? ==> Apply(st, e) == st.(handlers := st.handlers[e.h := Queued])
    ensures e.AcquireLock? ==>
      && st.lock == None && Apply(st, e).lock == Some(e.h) && Apply(st, e).panel == st.panel
      && Apply(st, e).handlers == st.handlers[e.h := Joining(st.panel.activeTask)]
      && forall s :: s in st.sessions ==>
           s in Apply(st, e).sessions &&
           Apply(st, e).sessions[s].phase ==
             if st.panel.activeTask == Some(s) && st.sessions[s].phase.Created? then Finished else st.sessions[s].phase
    ensures e.PreviousJoined? ==>
      && Apply(st, e) == st.(handlers := st.handlers[e.h := Holding])
      && var previous := st.handlers[e.h].previous;
         previous.Some? ==> previous.value in st.sessions && st.sessions[previous.value].phase.Finished?
    ensures e.TakeOver? ==>
      && Apply(st, e).lock == None && Apply(st, e).handlers == st.handlers[e.h := Serving]
      && Apply(st, e).sessions == st.sessions[e.h := Session(Created, false, 0, Reading, Top)]
      && Apply(st, e).panel.activeSocket == Apply(st, e).panel.activeTask == Some(e.h)
      && Apply(st, e).panel.connected && !Apply(st, e).panel.paused && !Apply(st, e).panel.overloaded
    ensures e.SessionJoined? ==>
      && Apply(st, e).handlers == st.handlers[e.h := Left] && Apply(st, e).sessions == st.sessions
      && Apply(st, e).panel ==
           if st.panel.activeTask == Some(e.h)
           then st.panel.(paused := false, connected := false, activeSocket := None, activeTask := None)
           else st.panel
    ensures e.CancelHandler? && st.handlers[e.h].Serving? ==>
      && Apply(st, e).handlers == st.handlers && Apply(st, e).lock == st.lock && Apply(st, e).panel == st.panel
      && forall s :: s in st.sessions ==>
           s in Apply(st, e).sessions &&
           Apply(st, e).sessions[s].phase ==
             if s == e.h && st.sessions[s].phase.Created? then Finished else st.sessions[s].phase
    ensures e.CancelHandler? && !st.handlers[e.h].Serving? ==>
      && Apply(st, e).handlers == st.handlers[e.h := Left] && Apply(st, e).sessions == st.sessions
      && Apply(st, e).panel == st.panel && Apply(st, e).lock == if st.lock == Some(e.h) then None else st.lock
  {
  }

  // -- Progress -----------------------------------------------------------------------

  lemma FirstOf(st: State, e: Event, rest: seq<Event>)
    requires Enabled(st, e) && Possible(Apply(st, e), rest)
    ensures Possible(st, [e] + rest) && Execute(st, [e] + rest) == Execute(Apply(st, e), rest)
  {
    hide Apply, Enabled;
    assert ([e] + rest)[1..] == rest;
  }

  lemma {:induction false} RunAppend(st: State, a: seq<Event>, b: seq<Event>)
    requires Possible(st, a) && Possible(Execute(st, a), b)
    ensures Possible(st, a + b) && Execute(st, a + b) == Execute(Execute(st, a), b)
    decreases |a|
  {
    hide Apply, Enabled;
    if a == [] {
      assert a + b == b;
    } else {
      assert (a + b)[0] == a[0] && (a + b)[1..] == a[1..] + b;
      RunAppend(Apply(st, a[0]), a[1..], b);
    }
  }

  predicate Free(st: State) {
    st.lock == None && (st.panel.activeTask.Some? ==> In(st, st.panel.activeTask.value, Finished))
  }

  lemma Joins(st: State, h: SessionId)
    requires h !in st.handlers && Free(st)
    ensures var run := [Connect(h), AcquireLock(h), PreviousJoined(h)];
            && Possible(st, run)
            && Execute(st, run) == st.(handlers := st.handlers[h := Holding], lock := Some(h))
  {
    var s1 := Apply(st, Connect(h));
    var s2 := Apply(s1, AcquireLock(h));
    var s3 := Apply(s2, PreviousJoined(h));
    assert s2 == st.(handlers := st.handlers[h := Joining(st.panel.activeTask)], lock := Some(h));
    assert s3.handlers == st.handlers[h := Holding];
    hide Apply, Enabled;
    FirstOf(s2, PreviousJoined(h), []);
    FirstOf(s1, AcquireLock(h), [PreviousJoined(h)]);
    FirstOf(st, Connect(h), [AcquireLock(h), PreviousJoined(h)]);
  }

  lemma TakesOver(st: State, h: SessionId)
    requires HandlerAt(st, h, Holding)
    ensures var run := [TakeOver(h), Start(h)];
            && Possible(st, run)
            && var end := Execute(st, run);
               && In(end, h, Running) && end.sessions[h] == Session(Running, false, 0, Reading, Top)
               && end.panel == Install(st.panel, h)
  {
    var s1 := Apply(st, TakeOver(h));
    var s2 := Apply(s1, Start(h));
    assert s2.sessions[h] == Session(Running, false, 0, Reading, Top) && s2.panel == Install(st.panel, h);
    hide Apply, Enabled;
    FirstOf(s1, Start(h), []);
    FirstOf(st, TakeOver(h), [Start(h)]);
  }

  lemma SaysHello(st: State, s: SessionId)
    requires In(st, s, Running) && st.sessions[s].reader == Reading
    ensures var run := [Hello(s), Refreshed(s)];
            && Possible(st, run)
            && var end := Execute(st, run);
               && In(end, s, Running) && end.panel == Discard(st.panel)
               && end.sessions[s] == st.sessions[s].(ready := true, helloMark := |st.panel.puts|)
  {
    var s1 := Apply(st, Hello(s));
    var s2 := Apply(s1, Refreshed(s));
    assert s2.sessions[s] == st.sessions[s].(ready := true, helloMark := |st.panel.puts|);
    assert s2.panel == Discard(st.panel);
    hide Apply, Enabled;
    FirstOf(s1, Refreshed(s), []);
    FirstOf(st, Hello(s), [Refreshed(s)]);
  }

  // A panel whose last session has ended takes a new connection, which is soon ready.
  lemma Connects(st: State, h: SessionId)
    requires h !in st.handlers && Free(st)
    ensures var run :=
              [Connect(h), AcquireLock(h), PreviousJoined(h)] + [TakeOver(h), Start(h)] + [Hello(h), Refreshed(h)];
            && Possible(st, run)
            && var end := Execute(st, run);
               && ReaderAt(end, h, Reading) && WriterAt(end, h, Top) && end.sessions[h].ready
               && end.panel.activeSocket == Some(h) && !end.panel.paused && end.panel.normals == []
               && end.panel.pending == None && end.panel.interrupts == st.panel.interrupts
  {
    hide Possible, Execute;
    var a, b, c := [Connect(h), AcquireLock(h), PreviousJoined(h)], [TakeOver(h), Start(h)], [Hello(h), Refreshed(h)];
    Joins(st, h);
    TakesOver(Execute(st, a), h);
    RunAppend(st, a, b);
    SaysHello(Execute(st, a + b), h);
    RunAppend(st, a + b, c);
  }

  // A ready session with nothing more urgent to do sends the head of the queue.
  lemma Fetches(st: State, s: SessionId)
    requires WriterAt(st, s, Top) && st.sessions[s].ready && !st.panel.paused
    requires st.panel.interrupts == [] && st.panel.pending == None && st.panel.normals != []
    ensures var run := [WriterPass(s)] + [GetterTakes(s)] + [GetterReturns(s)];
            && Possible(st, run)
            && var end := Execute(st, run);
               && WriterAt(end, s, Top) && end.sessions[s].ready
               && end.panel == st.panel.(getters := end.panel.getters, normalGetter := end.panel.normalGetter,
                                         normals := st.panel.normals[1..], pending := Some(st.panel.normals[0]))
  {
    hide Apply, Possible, Execute;
    WriterPassIs(st, s);
    var s1 := Apply(st, WriterPass(s));
    GetIs(s1, GetterTakes(s));
    var s2 := Apply(s1, GetterTakes(s));
    GetIs(s2, GetterReturns(s));
    OneEvent(st, WriterPass(s));
    OneEvent(s1, GetterTakes(s));
    OneEvent(s2, GetterReturns(s));
    RunAppend(st, [WriterPass(s)], [GetterTakes(s)]);
    RunAppend(st, [WriterPass(s)] + [GetterTakes(s)], [GetterReturns(s)]);
  }

  lemma Delivers(st: State, s: SessionId)
    requires WriterAt(st, s, Top) && st.sessions[s].ready && !st.panel.paused
    requires st.panel.interrupts == [] && st.panel.pending == None && st.panel.normals != []
    ensures var run := [WriterPass(s)] + [GetterTakes(s)] + [GetterReturns(s)] + [WriterPass(s)];
            && Possible(st, run)
            && var end := Execute(st, run).panel;
               && |end.sends| == |st.panel.sends| + 1 && end.sends[|st.panel.sends|].frame == st.panel.normals[0]
               && end.normals == st.panel.normals[1..]
  {
    Fetches(st, s);
    var fetch := [WriterPass(s)] + [GetterTakes(s)] + [GetterReturns(s)];
    var mid := Execute(st, fetch);
    hide Possible, Execute;
    WriterPassIs(mid, s);
    OneEvent(mid, WriterPass(s));
    RunAppend(st, fetch, [WriterPass(s)]);
  }

  lemma OneEvent(st: State, e: Event)
    requires Enabled(st, e)
    ensures Possible(st, [e]) && Execute(st, [e]) == Apply(st, e)
  {
    hide Apply, Enabled;
    FirstOf(st, e, []);
  }
}
