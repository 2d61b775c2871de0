/** One panel's shared delivery state: bounded queues, the generation that keeps
    stale frames out, and the steps the adapter takes on it between awaits. */
module PanelState {
  import opened Outcomes

  const QUEUE_MAX := 50

  // Frame contents play no role.
  type Body = nat
  // A connection's handler, its socket and its session task share one number.
  type SessionId = nat

  // A normal frame; put is its position among all frames put on the panel.
  datatype Frame = Frame(body: Body, put: nat)

  // A task running normal_queue.get().
  datatype Getter = Waiting | Took(frame: Frame) | Cancelled

  // The start of a normal send, with what was the case at that moment.
  datatype Send = Send(session: SessionId, frame: Frame, interrupts: nat, paused: bool, ready: bool,
                       mark: nat, helloMark: nat)

  datatype PanelView = PanelView(
    interrupts: seq<Body>,
    normals: seq<Frame>,
    pending: Option<Frame>,
    generation: nat,
    normalGetter: Option<nat>,      // an index into getters
    getters: seq<Getter>,           // every getter task ever created
    connected: bool,
    paused: bool,
    overloaded: bool,
    activeSocket: Option<SessionId>,
    activeTask: Option<SessionId>,
    puts: seq<Body>,                // history: every normal frame put
    mark: nat,                      // history: |puts| at the latest discard
    sends: seq<Send>)               // history: every normal send started

  const EMPTY_PANEL := PanelView([], [], None, 0, None, [], false, false, false, None, None, [], 0, [])

  // Where a writer is suspended.
  datatype Writer = Top | SendingInterrupt | Sleeping | Getting(generation: nat, getter: nat) | SendingNormal

  // -- Specification of the steps -----------------------------------------

  function Put(p: PanelView, b: Body): PanelView {
    p.(normals := p.normals + [Frame(b, |p.puts|)], puts := p.puts + [b])
  }

  function PutAll(p: PanelView, bs: seq<Body>): PanelView {
    if bs == [] then p else Put(PutAll(p, bs[..|bs| - 1]), bs[|bs| - 1])
  }

  function CancelGetter(p: PanelView): PanelView {
    if p.normalGetter.Some? && p.normalGetter.value < |p.getters| && p.getters[p.normalGetter.value].Waiting?
    then p.(getters := p.getters[p.normalGetter.value := Cancelled])
    else p
  }

  function Discard(p: PanelView): PanelView {
    CancelGetter(p).(generation := p.generation + 1, pending := None, normals := [], mark := |p.puts|)
  }

  // A command batch is queued whole or not at all.
  function Post(p: PanelView, urgent: bool, bs: seq<Body>): PanelView {
    var depth := if urgent then |p.interrupts| else |p.normals|;
    if depth + |bs| > QUEUE_MAX then
      if p.connected && !p.paused then p.(overloaded := true) else p
    else if urgent then p.(interrupts := p.interrupts + bs)
    else PutAll(p, bs)
  }

  // A writer's run from the top of its loop to its next await.
  function WriterRun(p: PanelView, s: SessionId, ready: bool, helloMark: nat): (PanelView, Writer) {
    if p.interrupts != [] then (p.(interrupts := p.interrupts[1..]), SendingInterrupt)
    else if p.paused || !ready then (p, Sleeping)
    else if p.pending == None then
      (p.(normalGetter := Some(|p.getters|), getters := p.getters + [Waiting]), Getting(p.generation, |p.getters|))
    else
      (p.(pending := None,
          sends := p.sends + [Send(s, p.pending.value, |p.interrupts|, p.paused, ready, p.mark, helloMark)]),
       SendingNormal)
  }

  // The getter task takes the head of the queue.
  function Take(p: PanelView, getter: nat): PanelView
    requires getter < |p.getters| && p.normals != []
  {
    p.(getters := p.getters[getter := Took(p.normals[0])], normals := p.normals[1..])
  }

  function ForgetGetter(p: PanelView, getter: nat): PanelView {
    if p.normalGetter == Some(getter) then p.(normalGetter := None) else p
  }

  // The writer resumes with the frame its getter took.
  function Resume(p: PanelView, generation: nat, getter: nat): PanelView
    requires getter < |p.getters| && p.getters[getter].Took?
  {
    var q := ForgetGetter(p, getter);
    if generation == p.generation then q.(pending := Some(p.getters[getter].frame)) else q
  }

  // A new session takes the panel over.
  function Install(p: PanelView, s: SessionId): PanelView {
    Discard(p).(overloaded := false, paused := false, connected := true, activeSocket := Some(s), activeTask := Some(s))
  }

  // An ending session gives up the panel, if it still owns it.
  function Release(p: PanelView): PanelView {
    p.(paused := false, connected := false, activeSocket := None, activeTask := None)
  }

  lemma {:induction false} PutAllAppends(p: PanelView, bs: seq<Body>)
    ensures PutAll(p, bs) == p.(normals := PutAll(p, bs).normals, puts := p.puts + bs)
    ensures |PutAll(p, bs).normals| == |p.normals| + |bs|
    ensures PutAll(p, bs).normals[..|p.normals|] == p.normals
    ensures forall i :: 0 <= i < |bs| ==> PutAll(p, bs).normals[|p.normals| + i] == Frame(bs[i], |p.puts| + i)
  {
    if bs != [] {
      PutAllAppends(p, bs[..|bs| - 1]);
      assert bs == bs[..|bs| - 1] + [bs[|bs| - 1]];
    } else {
      assert p.puts + bs == p.puts;
    }
  }

  // -- The panel object ----------------------------------------------------

  class Panel {
    var interruptQueue: seq<Body>
    var normalQueue: seq<Frame>
    var pendingNormal: Option<Frame>
    var normalGeneration: nat
    var normalGetter: Option<nat>
    var getters: seq<Getter>
    var gigaConnected: bool
    var otaPaused: bool
    var overloaded: bool
    var activeWebsocket: Option<SessionId>
    var activeWebsocketTask: Option<SessionId>
    var droppedBatches: nat
    var puts: seq<Body>             // history, to number the frames
    ghost var mark: nat
    ghost var sends: seq<Send>

    ghost function View(): PanelView
      reads this
    {
      PanelView(interruptQueue, normalQueue, pendingNormal, normalGeneration, normalGetter, getters,
                gigaConnected, otaPaused, overloaded, activeWebsocket, activeWebsocketTask, puts, mark, sends)
    }

    constructor ()
      ensures View() == EMPTY_PANEL
    {
      interruptQueue, normalQueue, pendingNormal := [], [], None;
      normalGeneration, normalGetter, getters := 0, None, [];
      gigaConnected, otaPaused, overloaded := false, false, false;
      activeWebsocket, activeWebsocketTask, droppedBatches := None, None, 0;
      puts, mark, sends := [], 0, [];
    }

    method DiscardStaleCommands()
      modifies this`normalGeneration, this`pendingNormal, this`getters, this`normalQueue, this`mark
      ensures View() == Discard(old(View()))
    {
      normalGeneration := normalGeneration + 1;
      pendingNormal := None;
      if normalGetter.Some? && normalGetter.value < |getters| && getters[normalGetter.value].Waiting? {
        getters := getters[normalGetter.value := Cancelled];
      }
      while normalQueue != []
        invariant normalGeneration == old(normalGeneration) + 1 && pendingNormal == None
        invariant getters == CancelGetter(old(View())).getters
        decreases |normalQueue|
      {
        normalQueue := normalQueue[1..];
      }
      mark := |puts|;
    }

    method PutNormal(b: Body)
      requires |normalQueue| < QUEUE_MAX
      modifies this`normalQueue, this`puts
      ensures View() == Put(old(View()), b)
    {
      normalQueue := normalQueue + [Frame(b, |puts|)];
      puts := puts + [b];
    }

    // This panel's share of one command request.
    method PostCommand(urgent: bool, items: seq<Body>) returns (accepted: bool)
      modifies this
      ensures View() == Post(old(View()), urgent, items)
      ensures accepted == (old(if urgent then |interruptQueue| else |normalQueue|) + |items| <= QUEUE_MAX)
      ensures droppedBatches == old(droppedBatches) + if accepted then 0 else 1
    {
      var depth := if urgent then |interruptQueue| else |normalQueue|;
      if depth + |items| > QUEUE_MAX {
        droppedBatches := droppedBatches + 1;
        if gigaConnected && !otaPaused {
          overloaded := true;
        }
        return false;
      }
      ghost var was := View();
      var i := 0;
      assert items[..0] == [];
      while i < |items|
        invariant 0 <= i <= |items|
        invariant urgent ==> View() == was.(interrupts := was.interrupts + items[..i])
        invariant !urgent ==> View() == PutAll(was, items[..i]) && |normalQueue| == depth + i
        invariant droppedBatches == old(droppedBatches)
      {
        assert items[..i + 1][..i] == items[..i];
        if urgent {
          interruptQueue := interruptQueue + [items[i]];
        } else {
          PutNormal(items[i]);
        }
        i := i + 1;
      }
      assert items[..i] == items;
      return true;
    }

    // One pass of the writer's loop, up to the await it suspends at.
    method WriterPass(ghost s: SessionId, ready: bool, ghost helloMark: nat) returns (next: Writer)
      modifies this
      ensures (View(), next) == WriterRun(old(View()), s, ready, helloMark)
      ensures droppedBatches == old(droppedBatches)
    {
      if interruptQueue != [] {
        interruptQueue := interruptQueue[1..];
        return SendingInterrupt;
      }
      if otaPaused || !ready {
        return Sleeping;
      }
      if pendingNormal == None {
        var generation, getter := normalGeneration, |getters|;
        getters := getters + [Waiting];
        normalGetter := Some(getter);
        return Getting(generation, getter);
      }
      sends := sends + [Send(s, pendingNormal.value, |interruptQueue|, otaPaused, ready, mark, helloMark)];
      pendingNormal := None;
      return SendingNormal;
    }

    method ResumeWriter(generation: nat, getter: nat)
      requires getter < |getters| && getters[getter].Took?
      modifies this`normalGetter, this`pendingNormal
      ensures View() == Resume(old(View()), generation, getter)
    {
      var command := getters[getter].frame;
      if normalGetter == Some(getter) {
        normalGetter := None;
      }
      if generation == normalGeneration {
        pendingNormal := Some(command);
      }
    }

    // The getter task is handed the head of the queue.
    method TakeHead(getter: nat)
      requires getter < |getters| && normalQueue != []
      modifies this`getters, this`normalQueue
      ensures View() == Take(old(View()), getter)
    {
      getters := getters[getter := Took(normalQueue[0])];
      normalQueue := normalQueue[1..];
    }

    // The writer gives a get up; what it took is lost.
    method AbandonGetter(getter: nat)
      modifies this`normalGetter
      ensures View() == ForgetGetter(old(View()), getter)
    {
      if normalGetter == Some(getter) {
        normalGetter := None;
      }
    }

    method TakeOver(s: SessionId)
      modifies this
      ensures View() == Install(old(View()), s) && droppedBatches == old(droppedBatches)
    {
      DiscardStaleCommands();
      overloaded, otaPaused := false, false;
      gigaConnected := true;
      activeWebsocket, activeWebsocketTask := Some(s), Some(s);
    }

    // The session's own cleanup compares the socket, the handler's compares the task.
    method CleanUp(s: SessionId, bySocket: bool)
      modifies this`otaPaused, this`gigaConnected, this`activeWebsocket, this`activeWebsocketTask
      ensures View() == if old(if bySocket then activeWebsocket else activeWebsocketTask) == Some(s)
                        then Release(old(View())) else old(View())
    {
      if (if bySocket then activeWebsocket else activeWebsocketTask) == Some(s) {
        otaPaused, gigaConnected := false, false;
        activeWebsocket, activeWebsocketTask := None, None;
      }
    }
  }
}
