/** The panel object driven by everything that can happen to it: the handlers, readers and
    writers of its connections, getters and producers, in any order. */
module PanelDriving {
  import opened Outcomes
  import opened PanelState
  import opened PanelSessions
  import opened PanelSafety

  class Adapter {
    const panel: Panel
    // Where the coroutines are, with their local variables.
    var sessions: map<SessionId, Session>
    var handlers: map<SessionId, Handler>
    var lock: Option<SessionId>

    ghost function View(): State
      reads this, panel
    {
      State(panel.View(), sessions, handlers, lock)
    }

    ghost predicate Valid()
      reads this, panel
    {
      Safe(View())
    }

    constructor ()
      ensures Valid() && View() == INITIAL && fresh(panel)
    {
      panel := new Panel();
      sessions, handlers, lock := map[], map[], None;
      new;
      RunKeepsSafe(INITIAL, []);
    }

    method SetReader(s: SessionId, r: Reader)
      requires s in sessions
      modifies this`sessions
      ensures View() == PanelSessions.SetReader(old(View()), s, r)
    {
      sessions := sessions[s := sessions[s].(reader := r)];
    }

    method SetWriter(s: SessionId, w: Writer)
      requires s in sessions
      modifies this`sessions
      ensures View() == PanelSessions.SetWriter(old(View()), s, w)
    {
      sessions := sessions[s := sessions[s].(writer := w)];
    }

    method SetPhase(s: SessionId, phase: Phase)
      requires s in sessions
      modifies this`sessions
      ensures View() == PanelSessions.SetPhase(old(View()), s, phase)
    {
      sessions := sessions[s := sessions[s].(phase := phase)];
    }

    method CancelSession(s: SessionId)
      requires s in sessions
      modifies this`sessions
      ensures View() == PanelSessions.CancelSession(old(View()), s)
    {
      if sessions[s].phase.Created? {
        SetPhase(s, Finished);
      }
    }

    // A handler's step: connecting, replacing the previous session, ending.
    method HandlerStep(e: Event)
      requires Enabled(View(), e)
      requires e.Connect? || e.AcquireLock? || e.PreviousJoined? || e.TakeOver? || e.CancelHandler? || e.SessionJoined?
      modifies this, panel
      ensures View() == Apply(old(View()), e)
    {
      match e {
        case Connect(h) =>
          handlers := handlers[h := Queued];
        case AcquireLock(h) =>
          var previous := panel.activeWebsocketTask;
          handlers, lock := handlers[h := Joining(previous)], Some(h);
          if previous.Some? && previous.value in sessions {
            CancelSession(previous.value);
          }
        case PreviousJoined(h) =>
          handlers := handlers[h := Holding];
        case TakeOver(h) =>
          panel.TakeOver(h);
          sessions := sessions[h := Session(Created, false, 0, Reading, Top)];
          handlers, lock := handlers[h := Serving], None;
        case CancelHandler(h) =>
          if handlers[h].Serving? {
            if h in sessions {
              CancelSession(h);
            }
          } else {
            handlers := handlers[h := Left];
            if lock == Some(h) {
              lock := None;
            }
          }
        case SessionJoined(h) =>
          handlers := handlers[h := Left];
          panel.CleanUp(h, false);
      }
    }

    // A session starts, stops or cleans up.
    method SessionStep(e: Event)
      requires Enabled(View(), e) && (e.Start? || e.Stop? || e.CleanUp? || e.SocketClosed?)
      modifies this, panel
      ensures View() == Apply(old(View()), e)
    {
      match e {
        case Start(s) =>
          sessions := sessions[s := Session(Running, false, 0, Reading, Top)];
        case Stop(s, overload) =>
          if sessions[s].writer.Getting? {
            panel.AbandonGetter(sessions[s].writer.getter);
          }
          SetPhase(s, Stopping(overload));
        case CleanUp(s) =>
          SetPhase(s, if sessions[s].phase.overload then Closing else Finished);
          panel.CleanUp(s, true);
        case SocketClosed(s) =>
          SetPhase(s, Finished);
      }
    }

    // The reader handles a message, or a producer's refresh reaches the queue.
    method ReaderStep(e: Event)
      requires Enabled(View(), e)
      requires e.Hello? || e.OtaStart? || e.PauseSent? || e.OtaEnd? || e.RefreshPut? || e.Refreshed?
      modifies this, panel
      ensures View() == Apply(old(View()), e)
    {
      match e {
        case Hello(s) =>
          sessions := sessions[s := sessions[s].(ready := true, helloMark := |panel.puts|, reader := Refreshing)];
          panel.DiscardStaleCommands();
        case OtaStart(s) =>
          panel.otaPaused := true;
          SetReader(s, Pausing);
        case PauseSent(s) =>
          SetReader(s, Reading);
        case OtaEnd(s) =>
          panel.otaPaused := false;
          panel.DiscardStaleCommands();
          SetReader(s, Refreshing);
        case RefreshPut(s, body) =>
          panel.PutNormal(body);
        case Refreshed(s) =>
          SetReader(s, Reading);
      }
    }

    // The writer or its getter task runs to its next await.
    method WriterStep(e: Event)
      requires Enabled(View(), e)
      requires e.WriterPass? || e.WriterSlept? || e.Delivered? || e.GetterTakes?
               || e.GetterReturns? || e.GetterCancelled? || e.GetTimedOut?
      modifies this, panel
      ensures View() == Apply(old(View()), e)
    {
      match e {
        case WriterPass(s) =>
          var next := panel.WriterPass(s, sessions[s].ready, sessions[s].helloMark);
          SetWriter(s, next);
        case WriterSlept(s) =>
          SetWriter(s, Top);
        case Delivered(s) =>
          SetWriter(s, Top);
        case GetterTakes(s) =>
          panel.TakeHead(sessions[s].writer.getter);
        case GetterReturns(s) =>
          panel.ResumeWriter(sessions[s].writer.generation, sessions[s].writer.getter);
          SetWriter(s, Top);
        case GetterCancelled(s) =>
          panel.AbandonGetter(sessions[s].writer.getter);
          SetWriter(s, Top);
        case GetTimedOut(s) =>
          panel.AbandonGetter(sessions[s].writer.getter);
          SetWriter(s, Top);
      }
    }

    method Step(e: Event)
      requires Enabled(View(), e)
      modifies this, panel
      ensures View() == Apply(old(View()), e)
    {
      hide Apply, Enabled;
      match e {
        case Post(urgent, bodies) => Produce(urgent, bodies);
        case Start(_) | Stop(_, _) | CleanUp(_) | SocketClosed(_) => SessionStep(e);
        case Hello(_) | OtaStart(_) | PauseSent(_) | OtaEnd(_) | RefreshPut(_, _) | Refreshed(_) => ReaderStep(e);
        case Connect(_) | AcquireLock(_) | PreviousJoined(_) | TakeOver(_) | CancelHandler(_) | SessionJoined(_) =>
          HandlerStep(e);
        case _ => WriterStep(e);
      }
    }

    method Produce(urgent: bool, bodies: seq<Body>)
      modifies panel
      ensures Enabled(old(View()), Post(urgent, bodies)) && View() == Apply(old(View()), Post(urgent, bodies))
    {
      var accepted := panel.PostCommand(urgent, bodies);
    }

    // Any run: the panel object ends where the transition system does, its invariant holds,
    // and every send it ever started was fresh.
    method Run(events: seq<Event>)
      requires Valid() && Possible(View(), events)
      modifies this, panel
      ensures Valid() && View() == Execute(old(View()), events)
      ensures SendsOk(panel.View())
    {
      hide Safe, Apply, Enabled;
      RunKeepsSafe(View(), events);
      var i := 0;
      assert events[0..] == events;
      while i < |events|
        invariant 0 <= i <= |events| && Possible(View(), events[i..])
        invariant Execute(old(View()), events) == Execute(View(), events[i..])
      {
        assert events[i..][0] == events[i] && events[i..][1..] == events[i + 1..];
        Step(events[i]);
        i := i + 1;
      }
      SafeSends(View());
    }
  }

  lemma SafeSends(st: State)
    requires Safe(st)
    ensures SendsOk(st.panel)
  {
  }
}
