/** Connections to one panel as a transition system. Handlers take the panel over
    under a lock; each session runs a reader and a writer; producers, timeouts and
    cancellations interleave at every await. */
module PanelSessions {
  import opened Outcomes
  import opened PanelState

  datatype Reader = Reading | Pausing | Refreshing

  // Stopping: the task group's children have ended, its cleanup has not run. Closing: the
  // cleanup awaits the socket's close.
  datatype Phase = Created | Running | Stopping(overload: bool) | Closing | Finished

  datatype Session = Session(phase: Phase, ready: bool, helloMark: nat, reader: Reader, writer: Writer)

  // Joining: awaits the previous session's end. Holding: free to install its own.
  datatype Handler = Queued | Joining(previous: Option<SessionId>) | Holding | Serving | Left

  datatype State = State(
    panel: PanelView,
    sessions: map<SessionId, Session>,
    handlers: map<SessionId, Handler>,
    lock: Option<SessionId>)

  const INITIAL := State(EMPTY_PANEL, map[], map[], None)

  datatype Event =
    // handlers
    | Connect(h: SessionId)
    | AcquireLock(h: SessionId)
    | PreviousJoined(h: SessionId)
    | TakeOver(h: SessionId)
    | CancelHandler(h: SessionId)
    | SessionJoined(h: SessionId)
    // sessions
    | Start(s: SessionId)
    | Stop(s: SessionId, overload: bool)
    | CleanUp(s: SessionId)
    | SocketClosed(s: SessionId)
    // reader
    | Hello(s: SessionId)
    | OtaStart(s: SessionId)
    | PauseSent(s: SessionId)
    | OtaEnd(s: SessionId)
    | RefreshPut(s: SessionId, body: Body)
    | Refreshed(s: SessionId)
    // writer
    | WriterPass(s: SessionId)
    | WriterSlept(s: SessionId)
    | Delivered(s: SessionId)
    | GetterTakes(s: SessionId)
    | GetterReturns(s: SessionId)
    | GetterCancelled(s: SessionId)
    | GetTimedOut(s: SessionId)
    // producers
    | Post(urgent: bool, bodies: seq<Body>)

  predicate In(st: State, s: SessionId, phase: Phase) {
    s in st.sessions && st.sessions[s].phase == phase
  }

  predicate ReaderAt(st: State, s: SessionId, r: Reader) {
    In(st, s, Running) && st.sessions[s].reader == r
  }

  predicate WriterAt(st: State, s: SessionId, w: Writer) {
    In(st, s, Running) && st.sessions[s].writer == w
  }

  // The writer of s awaits its getter, which is in some state.
  predicate Awaits(st: State, s: SessionId) {
    In(st, s, Running) && st.sessions[s].writer.Getting? && st.sessions[s].writer.getter < |st.panel.getters|
  }

  function GetterOf(st: State, s: SessionId): Getter
    requires Awaits(st, s)
  {
    st.panel.getters[st.sessions[s].writer.getter]
  }

  predicate HandlerAt(st: State, h: SessionId, at: Handler) {
    h in st.handlers && st.handlers[h] == at
  }

  predicate Enabled(st: State, e: Event) {
    match e
    case Connect(h) => h !in st.handlers
    case AcquireLock(h) => HandlerAt(st, h, Queued) && st.lock == None
    case PreviousJoined(h) =>
      && h in st.handlers && st.handlers[h].Joining?
      && var previous := st.handlers[h].previous; previous == None || In(st, previous.value, Finished)
    case TakeOver(h) => HandlerAt(st, h, Holding)
    case CancelHandler(h) => h in st.handlers && st.handlers[h] != Left
    case SessionJoined(h) => HandlerAt(st, h, Serving) && In(st, h, Finished)
    case Start(s) => In(st, s, Created)
    case Stop(s, overload) => In(st, s, Running) && (overload ==> st.panel.overloaded)
    case CleanUp(s) => s in st.sessions && st.sessions[s].phase.Stopping?
    case SocketClosed(s) => In(st, s, Closing)
    case Hello(s) => ReaderAt(st, s, Reading)
    case OtaStart(s) => ReaderAt(st, s, Reading)
    case PauseSent(s) => ReaderAt(st, s, Pausing)
    case OtaEnd(s) => ReaderAt(st, s, Reading)
    case RefreshPut(s, _) => ReaderAt(st, s, Refreshing) && |st.panel.normals| < QUEUE_MAX
    case Refreshed(s) => ReaderAt(st, s, Refreshing)
    case WriterPass(s) => WriterAt(st, s, Top)
    case WriterSlept(s) => WriterAt(st, s, Sleeping)
    case Delivered(s) => WriterAt(st, s, SendingInterrupt) || WriterAt(st, s, SendingNormal)
    case GetterTakes(s) => Awaits(st, s) && GetterOf(st, s).Waiting? && st.panel.normals != []
    case GetterReturns(s) => Awaits(st, s) && GetterOf(st, s).Took?
    case GetterCancelled(s) => Awaits(st, s) && GetterOf(st, s).Cancelled?
    case GetTimedOut(s) => Awaits(st, s)
    case Post(_, _) => true
  }

  function SetReader(st: State, s: SessionId, r: Reader): State
    requires s in st.sessions
  {
    st.(sessions := st.sessions[s := st.sessions[s].(reader := r)])
  }

  function SetWriter(st: State, s: SessionId, w: Writer): State
    requires s in st.sessions
  {
    st.(sessions := st.sessions[s := st.sessions[s].(writer := w)])
  }

  function SetPhase(st: State, s: SessionId, phase: Phase): State
    requires s in st.sessions
  {
    st.(sessions := st.sessions[s := st.sessions[s].(phase := phase)])
  }

  function SetHandler(st: State, h: SessionId, at: Handler): State {
    st.(handlers := st.handlers[h := at])
  }

  // The last of a running session's tasks has ended; a waiting get is abandoned.
  function StopSession(st: State, s: SessionId, overload: bool): State
    requires In(st, s, Running)
  {
    var w := st.sessions[s].writer;
    var p := if w.Getting? then ForgetGetter(st.panel, w.getter) else st.panel;
    SetPhase(st, s, Stopping(overload)).(panel := p)
  }

  // Cancelling a session task. One that never started does not clean up. The children of
  // one that runs may take further steps: its end comes later, as Stop and CleanUp.
  function CancelSession(st: State, s: SessionId): State
    requires s in st.sessions
  {
    if st.sessions[s].phase.Created? then SetPhase(st, s, Finished) else st
  }

  function Apply(st: State, e: Event): State
    requires Enabled(st, e)
  {
    match e
    case Connect(h) => SetHandler(st, h, Queued)
    case AcquireLock(h) =>
      var previous := st.panel.activeTask;
      var held := SetHandler(st, h, Joining(previous)).(lock := Some(h));
      if previous.Some? && previous.value in held.sessions then CancelSession(held, previous.value) else held
    case PreviousJoined(h) => SetHandler(st, h, Holding)
    case TakeOver(h) =>
      SetHandler(st, h, Serving).(
        panel := Install(st.panel, h),
        sessions := st.sessions[h := Session(Created, false, 0, Reading, Top)],
        lock := None)
    case CancelHandler(h) =>
      if st.handlers[h].Serving? then
        if h in st.sessions then CancelSession(st, h) else st
      else
        SetHandler(st, h, Left).(lock := if st.lock == Some(h) then None else st.lock)
    case SessionJoined(h) =>
      SetHandler(st, h, Left).(panel := if st.panel.activeTask == Some(h) then Release(st.panel) else st.panel)
    case Start(s) =>
      st.(sessions := st.sessions[s := Session(Running, false, 0, Reading, Top)])
    case Stop(s, overload) => StopSession(st, s, overload)
    case CleanUp(s) =>
      SetPhase(st, s, if st.sessions[s].phase.overload then Closing else Finished)
        .(panel := if st.panel.activeSocket == Some(s) then Release(st.panel) else st.panel)
    case SocketClosed(s) => SetPhase(st, s, Finished)
    case Hello(s) =>
      st.(panel := Discard(st.panel),
          sessions := st.sessions[s :=
            st.sessions[s].(ready := true, helloMark := |st.panel.puts|, reader := Refreshing)])
    case OtaStart(s) => SetReader(st, s, Pausing).(panel := st.panel.(paused := true))
    case PauseSent(s) => SetReader(st, s, Reading)
    case OtaEnd(s) => SetReader(st, s, Refreshing).(panel := Discard(st.panel.(paused := false)))
    case RefreshPut(s, body) => st.(panel := Put(st.panel, body))
    case Refreshed(s) => SetReader(st, s, Reading)
    case WriterPass(s) =>
      var (p, w) := WriterRun(st.panel, s, st.sessions[s].ready, st.sessions[s].helloMark);
      SetWriter(st, s, w).(panel := p)
    case WriterSlept(s) => SetWriter(st, s, Top)
    case Delivered(s) => SetWriter(st, s, Top)
    case GetterTakes(s) => st.(panel := Take(st.panel, st.sessions[s].writer.getter))
    case GetterReturns(s) =>
      var w := st.sessions[s].writer;
      SetWriter(st, s, Top).(panel := Resume(st.panel, w.generation, w.getter))
    case GetterCancelled(s) =>
      SetWriter(st, s, Top).(panel := ForgetGetter(st.panel, st.sessions[s].writer.getter))
    case GetTimedOut(s) =>
      // The get may have taken a frame already; then the frame is lost.
      SetWriter(st, s, Top).(panel := ForgetGetter(st.panel, st.sessions[s].writer.getter))
    case Post(urgent, bodies) => st.(panel := PanelState.Post(st.panel, urgent, bodies))
  }

  // A run: every event is enabled where it happens.
  predicate Possible(st: State, events: seq<Event>)
    decreases |events|
  {
    events == [] || (Enabled(st, events[0]) && Possible(Apply(st, events[0]), events[1..]))
  }

  function Execute(st: State, events: seq<Event>): State
    requires Possible(st, events)
    decreases |events|
  {
    if events == [] then st else Execute(Apply(st, events[0]), events[1..])
  }
}
