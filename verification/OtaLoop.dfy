/** The update server: one non-blocking step per pass of the board's main loop.
    Sockets, clocks, entropy and the bootloader call are the step's environment. */
module OtaServing {
  import opened Outcomes
  import opened Bytes
  import opened CtrMode
  import opened OtaProtocol
  import opened OtaReceiving
  import opened StagedFile
  import opened OtaPasses
  import T = OtaTransfers

  class OtaServer {
    const receiver: OtaReceiver
    const sink: FileSink
    const buffer: array<byte>
    var ready: bool
    var listening: bool
    var peer: bool                  // the accepted socket is not null
    var link: Link
    var nonceValid: bool
    var challengeAt: Millis
    var listenAttemptAt: Millis
    var updates: nat                // calls of updater.update()
    ghost var past: Past
    ghost const start: nat          // the length of the receiver's log when the server was made

    ghost predicate Wired()
      reads this, receiver, receiver.cipher, receiver.cipher.counter, receiver.cipher.stream, sink
    {
      && receiver.sink == sink && receiver.Valid()
      && buffer.Length == CHUNK && buffer != receiver.cipher.counter && buffer != receiver.cipher.stream
      && Recorded(past.trace, receiver.log, start, receiver.cfg)
      && updates == Armings(past.trace)
      && (peer ==> listening)
    }

    // Between calls, but for a completed transfer that is not yet answered.
    ghost predicate Steady()
      reads this, receiver, receiver.cipher, receiver.cipher.counter, receiver.cipher.stream, sink
    {
      && Wired() && LinkOk(peer, link) && PastOk(past, peer) && InstallOk(past, link.reply, sink.bin)
      && (receiver.active ==> peer)
    }

    // A transfer stays complete just until its success reply is sent.
    ghost predicate Valid()
      reads this, receiver, receiver.cipher, receiver.cipher.counter, receiver.cipher.stream, sink
      ensures Valid() ==> link.reply.offset <= |link.reply.text|
    {
      Steady() && (receiver.complete ==> link.reply.text != [] && link.reply.after == Install)
    }

    ghost function OnBoard(): Board
      reads this, receiver
    {
      Board(receiver.crypto, receiver.cfg, receiver.configured, ready)
    }

    ghost function Now(): View
      reads this, receiver, sink
    {
      View(listening, listenAttemptAt, peer, link, past, nonceValid, challengeAt, receiver.nonce, receiver.issued,
           receiver.transfer, receiver.complete, sink.bin)
    }

    constructor (receiver: OtaReceiver, sink: FileSink, ready: bool)
      requires receiver.Valid() && receiver.sink == sink && !receiver.active && !receiver.complete
      ensures Valid() && this.receiver == receiver && this.sink == sink && past.trace == []
      ensures start == |receiver.log|
    {
      this.receiver, this.sink, this.ready := receiver, sink, ready;
      buffer := new byte[CHUNK];
      listening, peer, nonceValid := false, false, false;
      link := Link(false, false, [], NO_REPLY, 0, 0);
      challengeAt, listenAttemptAt, updates := 0, 0, 0;
      past, start := Past([], 0, 0), |receiver.log|;
    }

    method ClosePeer(removed: bool)
      requires Wired() && PastOk(past, peer)
      modifies this`peer, this`link, this`past, sink,
               receiver`active, receiver`progress, receiver`complete, receiver`transfer, receiver`log
      ensures Valid() && !peer && !receiver.active && !receiver.complete
      ensures link == old(link).(receiving := false, querying := false, header := [], reply := NO_REPLY)
      ensures receiver.log == old(receiver.log) + if old(receiver.active) then [OtaReceiving.Aborted] else []
      ensures past == if old(peer) then Append(old(past), Closed) else old(past)
      ensures sink.bin == old(sink.bin) && sink.bins == old(sink.bins)
      ensures old(peer) ==> Left(old(Now()), Now())
    {
      hide OtaReceiver.Valid, OtaReceiver.Base, TraceSafe, Armings, Recorded, PastOk, InstallOk;
      LogGrows(past.trace, receiver.log, [OtaReceiving.Aborted], start, receiver.cfg);
      receiver.Abort(removed);
      if peer {
        TraceGrows(past.trace, receiver.log, [Closed], start, receiver.cfg);
        AppendSafe(past, peer, Closed);
        past := Append(past, Closed);
      }
      peer := false;
      link := link.(receiving := false, querying := false, header := [], reply := NO_REPLY);
    }

    // Queues a reply on the connection state l.
    method SetReply(l: Link, text: seq<byte>, after: AfterReply, now: Millis, removed: bool)
      requires Steady() && peer && text != [] && |l.header| <= HEADER_SIZE && l.reply == link.reply
      requires after == Receive ==> l.receiving
      requires receiver.complete ==> after == Install || link.reply.text != []
      requires after == Install ==> InstallOk(past, Reply(text, 0, now, Install), sink.bin)
      modifies this`peer, this`link, this`past, sink,
               receiver`active, receiver`progress, receiver`complete, receiver`transfer, receiver`log
      ensures Valid() && sink.bins == old(sink.bins)
      ensures Replies(old(Now()).(link := l), text, after, now, Now())
      ensures old(receiver.log) <= receiver.log
    {
      hide OtaReceiver.Valid, OtaReceiver.Base, TraceSafe, Armings;
      if link.reply.text != [] || |text| > REPLY_BUFFER {
        ClosePeer(removed);
        return;
      }
      link := l.(reply := Reply(text, 0, now, after));
    }

    // One send of a pending reply.
    method FlushReply(e: Pass)
      requires Valid() && peer && link.reply.text != []
      modifies this`peer, this`link, this`past, this`updates, sink,
               receiver`active, receiver`progress, receiver`complete, receiver`transfer, receiver`log
      ensures Valid() && sink.bins == old(sink.bins) && old(receiver.log) <= receiver.log
      ensures Flushed(old(Now()), e, Now())
    {
      hide OtaReceiver.Valid, OtaReceiver.Base, TraceSafe, Armings, Recorded;
      hide PastOk, InstallOk, Left, Answered;
      var r := link.reply;
      if Since(e.flushNow, r.startedAt) >= REPLY_LIMIT {
        ClosePeer(e.removed);
        return;
      }
      if e.send == Blocked {
        return;
      }
      if e.send == SendFailed || e.send.n == 0 || e.send.n > |r.text| - r.offset {
        ClosePeer(e.removed);
        return;
      }
      var n := e.send.n;
      TookKeeps(past, peer, r, n, sink.bin);
      TraceGrows(past.trace, receiver.log, [Sent(r.text[r.offset..r.offset + n])], start, receiver.cfg);
      past := Append(past, Sent(r.text[r.offset..r.offset + n]));
      link := link.(reply := r.(offset := r.offset + n));
      if link.reply.offset == |r.text| {
        Replied(e);
      }
    }

    // The whole reply is sent.
    method Replied(e: Pass)
      requires Wired() && PastOk(past, peer) && peer
      requires link.reply.text != [] && link.reply.offset == |link.reply.text| && InstallOk(past, link.reply, sink.bin)
      requires link.reply.after == Receive ==> LinkOk(peer, link.(reply := NO_REPLY)) && !receiver.complete
      modifies this`peer, this`link, this`past, this`updates, sink,
               receiver`active, receiver`progress, receiver`complete, receiver`transfer, receiver`log
      ensures Valid() && sink.bins == old(sink.bins) && old(receiver.log) <= receiver.log
      ensures Answered(old(Now()), e, Now())
    {
      hide OtaReceiver.Valid, OtaReceiver.Base, TraceSafe, Armings, SentBytes, JustifiedBy, Justified, Recorded;
      var r := link.reply;
      link := link.(reply := NO_REPLY, progressAt := e.flushedNow);
      if r.after == Receive {
        return;
      }
      ArmingJustified(past, r, sink.bin);
      ClosePeer(e.removed);
      if r.after == Install {
        Update();
      }
    }

    // Tells the bootloader to install UPDATE.BIN at the next reset.
    method Update()
      requires Valid() && !peer && Justified(past.trace, sink.bin)
      modifies this`past, this`updates
      ensures Valid() && Now() == old(Now()).(past := Append(old(past), Armed(sink.bin)))
    {
      hide OtaReceiver.Valid, OtaReceiver.Base, TraceSafe, Armings, JustifiedBy, Justified, Recorded;
      AppendSafe(past, peer, Armed(sink.bin));
      TraceGrows(past.trace, receiver.log, [Armed(sink.bin)], start, receiver.cfg);
      past := Append(past, Armed(sink.bin));
      updates := updates + 1;
    }

    // Replaces the outstanding challenge, if there is entropy for a new one.
    method Reissue(e: Pass)
      requires Valid()
      modifies this`nonceValid, this`challengeAt, receiver`nonce, receiver`issued, receiver`log
      ensures Valid() && Now() == Renewed(OnBoard(), old(Now()), e)
      ensures old(receiver.log) <= receiver.log
    {
      hide OtaReceiver.Valid, OtaReceiver.Base, TraceSafe, Armings;
      nonceValid := ready && e.nonce.Some?;
      if nonceValid {
        receiver.Challenge(e.nonce.value);
        challengeAt := e.challengeNow;
      }
    }

    // Answers a status request with a fresh challenge.
    method Status(l: Link, e: Pass)
      requires Valid() && peer && |l.header| <= HEADER_SIZE && l.reply == link.reply && link.reply.text == []
      modifies this`peer, this`link, this`past, this`nonceValid, this`challengeAt, sink,
               receiver`nonce, receiver`issued, receiver`active, receiver`progress, receiver`complete,
               receiver`transfer, receiver`log
      ensures Valid() && sink.bins == old(sink.bins) && old(receiver.log) <= receiver.log
      ensures Queried(OnBoard(), old(Now()).(link := l), e, Now())
    {
      hide Valid, Signed;
      Reissue(e);
      SendStatus(l, e);
    }

    // The answer goes out only with its tag.
    method SendStatus(l: Link, e: Pass)
      requires Valid() && peer && |l.header| <= HEADER_SIZE && l.reply == link.reply && link.reply.text == []
      modifies this`peer, this`link, this`past, sink,
               receiver`active, receiver`progress, receiver`complete, receiver`transfer, receiver`log
      ensures Valid() && sink.bins == old(sink.bins) && old(receiver.log) <= receiver.log
      ensures Signed(OnBoard(), old(Now()).(link := l), e, Now())
    {
      hide Wired, LinkOk, PastOk, InstallOk, HexLine, Replies;
      var tag := receiver.Sign(e.status, e.signed);
      if tag.Some? {
        SetReply(l, e.status + HexLine(tag.value), Close, e.replyNow, e.removed);
      } else {
        ClosePeer(e.removed);
      }
    }

    // Begins a transfer if the header comes in time for the challenge.
    method TryBegin(h: Header, e: Pass) returns (ok: bool)
      requires Valid() && peer && link.reply.text == []
      modifies sink, receiver`issued, receiver`active, receiver`progress, receiver`complete, receiver`transfer,
               receiver`log, receiver.cipher, receiver.cipher.counter, receiver.cipher.stream
      ensures Valid() && sink.bins == old(sink.bins) && old(receiver.log) <= receiver.log
      ensures var spent := Answers(OnBoard(), old(Now()), h, e);
        && ok == (spent && e.begin.keyed && e.begin.hashing && e.begin.granted)
        && Now() == old(Now()).(issued := old(receiver.issued) && !spent,
                                transfer := if ok then Some(Transfer(h, [])) else old(receiver.transfer))
    {
      hide OtaReceiver.Valid, OtaReceiver.Base, Authentic, TraceSafe, Armings, PastOk, InstallOk, Recorded;
      if !nonceValid || Since(e.now, challengeAt) > CHALLENGE_LIMIT {
        return false;
      }
      ghost var begun := Begun(receiver.cfg, h);
      LogGrows(past.trace, receiver.log, [begun], start, receiver.cfg);
      LogGrows(past.trace, receiver.log, [begun, OtaReceiving.Aborted], start, receiver.cfg);
      ok := receiver.Begin(h, e.begin);
    }

    // A complete upload header: l holds it, used bytes of the received ones are consumed.
    method Authorize(l: Link, used: nat, e: Pass)
      requires Valid() && peer && |l.header| == HEADER_SIZE && l.reply == link.reply && link.reply.text == []
      requires e.recv.Bytes?
      modifies this`peer, this`link, this`past, this`nonceValid, sink, receiver`issued,
               receiver`active, receiver`progress, receiver`complete, receiver`transfer, receiver`log,
               receiver.cipher, receiver.cipher.counter, receiver.cipher.stream
      ensures Valid() && sink.bins == old(sink.bins) && old(receiver.log) <= receiver.log
      ensures Authorized(OnBoard(), old(Now()).(link := l), used == |e.recv.data|, e, Now())
    {
      hide OtaReceiver.Valid, OtaReceiver.Base, Authentic, TraceSafe, Armings, PastOk, InstallOk, Recorded;
      var ok := TryBegin(l.header, e);
      if !ok {
        SetReply(l, FAIL_REPLY, Close, e.replyNow, e.removed);
        return;
      }
      nonceValid := false;
      // Bytes of the body came before they were asked for.
      if used != |e.recv.data| {
        ClosePeer(e.removed);
        return;
      }
      SetReply(l.(receiving := true), ACCEPT_REPLY, Receive, e.replyNow, e.removed);
    }

    // The received bytes belong to the body of an open transfer.
    method FeedBody(size: nat, e: Pass)
      requires Valid() && peer && link.reply.text == [] && link.receiving && size <= CHUNK && link.progressAt == e.now
      modifies this`peer, this`link, this`past, sink, buffer,
               receiver`active, receiver`progress, receiver`complete, receiver`transfer, receiver`log,
               receiver.cipher, receiver.cipher.counter, receiver.cipher.stream
      ensures Valid() && peer
      ensures BodyTaken(OnBoard(), old(Now()), old(buffer[..size]), e, Now())
      ensures old(sink.bins) <= sink.bins && old(receiver.log) <= receiver.log
    {
      hide OtaReceiver.Valid, OtaReceiver.Base, VerifiedBy, TraceSafe, Armings, FeedVerdict;
      hide PlainOf, AllSucceed, PastOk, InstallOk;
      var f := Clamp(e.feed, size);
      ghost var t, chunk := receiver.transfer, buffer[..size];
      var ok := receiver.Feed(buffer, size, f);
      if !ok {
        SetReply(link, FAIL_REPLY, Close, e.replyNow, e.removed);
        return;
      }
      link := link.(progressAt := e.now);
      if receiver.complete {
        QueueSuccess(e, DeliveryOf(receiver.crypto, receiver.cfg, Extend(t.value, chunk)));
      }
    }

    // The image is staged: queue the reply that arms the bootloader once it is sent.
    method QueueSuccess(e: Pass, ghost d: Delivery)
      requires Steady() && peer && link.reply.text == [] && receiver.complete && !receiver.active
      requires d.cfg == receiver.cfg && Finished(d) in receiver.log && sink.bin == Some(d.image)
      modifies this`peer, this`link, this`past, sink,
               receiver`active, receiver`progress, receiver`complete, receiver`transfer, receiver`log
      ensures Valid() && sink.bins == old(sink.bins) && old(receiver.log) <= receiver.log
      ensures Now() == old(Now()).(
                link := old(link).(reply := Reply(OK_REPLY, 0, e.replyNow, Install)),
                past := Append(old(past), Completed(d)).(completedAt := |old(past.trace)|))
    {
      hide OtaReceiver.Valid, OtaReceiver.Base, TraceSafe, Armings;
      TraceGrows(past.trace, receiver.log, [Completed(d)], start, receiver.cfg);
      AppendSafe(past, peer, Completed(d));
      NothingSent(past.trace + [Completed(d)], |past.trace|);
      past := Append(past, Completed(d)).(completedAt := |past.trace|);
      SetReply(link, OK_REPLY, Install, e.replyNow, e.removed);
    }

    // One header byte, the used-th of the received piece; more tells whether to go on.
    method TakeHeaderByte(b: byte, used: nat, e: Pass) returns (more: bool)
      requires Valid() && peer && link.reply.text == [] && !link.receiving && e.recv.Bytes?
      modifies this`peer, this`link, this`past, this`nonceValid, this`challengeAt, sink,
               receiver`nonce, receiver`issued, receiver`active, receiver`progress, receiver`complete,
               receiver`transfer, receiver`log, receiver.cipher, receiver.cipher.counter, receiver.cipher.stream
      ensures Valid() && sink.bins == old(sink.bins) && old(receiver.log) <= receiver.log
      ensures var h := old(link.header) + [b];
        && more == (Asked(h) == Unfinished)
        && Decided(OnBoard(), Holding(old(Now()), h), used == |e.recv.data|, e, Now())
    {
      hide OtaReceiver.Valid, OtaReceiver.Base, TraceSafe, Armings, Queried, Authorized, PastOk;
      hide InstallOk, Recorded;
      var l := link.(header := link.header + [b]);
      assert |link.header| >= 8 ==> l.header[..8] == link.header[..8];
      if |l.header| == 8 {
        assert l.header[..8] == l.header;
        l := l.(querying := l.header == STATUS_MAGIC);
        if !l.querying && l.header != MAGIC {
          ClosePeer(e.removed);
          return false;
        }
      }
      if l.querying && |l.header| == STATUS_REQUEST {
        Status(l, e);
        return false;
      }
      if |l.header| == HEADER_SIZE {
        Authorize(l, used, e);
        return false;
      }
      link := l;
      return true;
    }

    // Header bytes are taken one by one until a request is complete.
    method TakeHeader(e: Pass)
      requires Valid() && peer && link.reply.text == [] && !link.receiving && link.progressAt == e.now
      requires e.recv.Bytes? && |e.recv.data| <= CHUNK && buffer[..|e.recv.data|] == e.recv.data
      modifies this`peer, this`link, this`past, this`nonceValid, this`challengeAt, sink,
               receiver`nonce, receiver`issued, receiver`active, receiver`progress, receiver`complete,
               receiver`transfer, receiver`log, receiver.cipher, receiver.cipher.counter, receiver.cipher.stream
      ensures Valid() && sink.bins == old(sink.bins) && old(receiver.log) <= receiver.log
      ensures HeaderTaken(OnBoard(), old(Now()), e.recv.data, e, Now())
    {
      hide OtaReceiver.Valid, OtaReceiver.Base, TraceSafe, Armings, PastOk, InstallOk, Recorded;
      hide Queried, Authorized;
      hide Asked, Queries;
      var data := e.recv.data;
      ghost var v, start := Now(), link.header;
      var used := 0;
      assert start + data[..0] == start;
      while !link.receiving && used < |data|
        invariant Valid() && used <= |data| && buffer[..|data|] == data
        invariant sink.bins == old(sink.bins) && old(receiver.log) <= receiver.log
        invariant Asked(start + data[..used]) == Unfinished
        invariant Now() == Holding(v, start + data[..used])
      {
        used := used + 1;
        assert start + data[..used] == start + data[..used - 1] + [buffer[used - 1]];
        var more := TakeHeaderByte(buffer[used - 1], used, e);
        if !more {
          assert (start + data)[..|start| + used] == start + data[..used];
          assert (start + data)[..|start| + used - 1] == start + data[..used - 1];
          DecidedEarly(OnBoard(), v, start + data, |start| + used, e, Now());
          return;
        }
      }
      assert data[..used] == data;
      assert (start + data)[..|start + data|] == start + data;
    }

    // One received piece: header bytes until a request is complete, or body bytes.
    method TakeBytes(e: Pass)
      requires Valid() && peer && link.reply.text == []
      requires e.recv.Bytes? && 0 < |e.recv.data| <= CHUNK
      modifies this`peer, this`link, this`past, this`nonceValid, this`challengeAt, sink, buffer,
               receiver`nonce, receiver`issued, receiver`active, receiver`progress, receiver`complete,
               receiver`transfer, receiver`log, receiver.cipher, receiver.cipher.counter, receiver.cipher.stream
      ensures Valid() && old(sink.bins) <= sink.bins && old(receiver.log) <= receiver.log
      ensures old(link.receiving) ==> BodyTaken(OnBoard(), Restarted(old(Now()), e), e.recv.data, e, Now())
      ensures !old(link.receiving) ==> HeaderTaken(OnBoard(), Restarted(old(Now()), e), e.recv.data, e, Now())
    {
      hide OtaReceiver.Valid, OtaReceiver.Base, TraceSafe, Armings, PastOk, InstallOk, Recorded;
      hide HeaderTaken, BodyTaken;
      var data := e.recv.data;
      forall i | 0 <= i < |data| {
        buffer[i] := data[i];
      }
      assert buffer[..|data|] == data;
      link := link.(progressAt := e.now);
      if link.receiving {
        FeedBody(|data|, e);
      } else {
        TakeHeader(e);
      }
    }

    // The part of a pass that has a connection.
    method Serve(e: Pass)
      requires Valid() && peer
      requires e.recv.Bytes? ==> 0 < |e.recv.data| <= CHUNK
      modifies this`peer, this`link, this`past, this`updates, this`nonceValid, this`challengeAt, sink, buffer,
               receiver`nonce, receiver`issued, receiver`active, receiver`progress, receiver`complete,
               receiver`transfer, receiver`log, receiver.cipher, receiver.cipher.counter, receiver.cipher.stream
      ensures Valid() && old(sink.bins) <= sink.bins && old(receiver.log) <= receiver.log
      ensures Served(OnBoard(), old(Now()), e, Now())
    {
      hide OtaReceiver.Valid, OtaReceiver.Base, TraceSafe, Armings, PastOk, InstallOk, Recorded;
      hide Left, Flushed, BodyTaken, HeaderTaken;
      if Expired(e, link) {
        ClosePeer(e.removed);
      } else if link.reply.text != [] {
        FlushReply(e);
      } else if e.recv == Ended {
        ClosePeer(e.removed);
      } else if e.recv.Bytes? {
        TakeBytes(e);
      }
    }

    // Opens the listening socket unless it is open; a failed attempt waits for the next.
    method Listen(e: Pass)
      requires Valid()
      modifies this`listening, this`listenAttemptAt
      ensures Valid() && Now() == Listened(old(Now()), e)
    {
      hide OtaReceiver.Valid, OtaReceiver.Base, TraceSafe, Armings, PastOk, InstallOk, LinkOk, Recorded;
      if !listening {
        if listenAttemptAt != 0 && Since(e.listenNow, listenAttemptAt) < LISTEN_RETRY {
          return;
        }
        listenAttemptAt := e.listenNow;
        if !e.socketOpened || !e.bound {
          return;
        }
        listening := true;
      }
    }

    // Takes a waiting connection when there is none.
    method Admit(e: Pass)
      requires Valid() && !peer && listening
      modifies this`peer, this`link, this`past, this`listening, sink,
               receiver`active, receiver`progress, receiver`complete, receiver`transfer, receiver`log
      ensures Valid() && sink.bins == old(sink.bins) && receiver.log == old(receiver.log)
      ensures Now() == match e.accept
                       case NewPeer => Connected(old(Now()), e)
                       case NoPeer => old(Now())
                       case AcceptFailed => old(Now()).(listening := false)
    {
      hide OtaReceiver.Valid, OtaReceiver.Base, TraceSafe, Armings;
      if e.accept != NewPeer {
        ClosePeer(e.removed);
        listening := e.accept == NoPeer;
        return;
      }
      peer := true;
      link := link.(connectedAt := e.acceptNow, progressAt := e.acceptNow);
      AppendSafe(past, false, Accepted);
      past := Append(past, Accepted).(acceptedAt := |past.trace|);
    }

    // WiFi is gone, and with it the connection and the listening socket.
    method Disconnect(e: Pass)
      requires Valid()
      modifies this`peer, this`link, this`past, this`listening, sink,
               receiver`active, receiver`progress, receiver`complete, receiver`transfer, receiver`log
      ensures Valid() && sink.bins == old(sink.bins) && old(receiver.log) <= receiver.log
      ensures var v := old(Now()).(listening := false); if old(peer) then Left(v, Now()) else Now() == v
    {
      hide OtaReceiver.Valid, OtaReceiver.Base, TraceSafe, Armings, PastOk, InstallOk, Recorded;
      if peer {
        ClosePeer(e.removed);
      }
      listening := false;
    }

    // One pass of the main loop.
    method Step(e: Pass)
      requires Valid()
      requires e.recv.Bytes? ==> 0 < |e.recv.data| <= CHUNK
      modifies this`peer, this`link, this`past, this`updates, this`nonceValid, this`challengeAt, this`listening,
               this`listenAttemptAt, sink, buffer,
               receiver`nonce, receiver`issued, receiver`active, receiver`progress, receiver`complete,
               receiver`transfer, receiver`log, receiver.cipher, receiver.cipher.counter, receiver.cipher.stream
      ensures Valid() && old(past.trace) <= past.trace
      ensures old(sink.bins) <= sink.bins && old(receiver.log) <= receiver.log
      ensures Passed(OnBoard(), old(Now()), e, Now())
    {
      hide Valid, Listened, Left, Served, Connected;
      if !ready {
        return;
      }
      if !e.wifi {
        Disconnect(e);
        return;
      }
      Listen(e);
      if !listening {
        return;
      }
      if !peer {
        Admit(e);
        if !peer {
          return;
        }
      }
      Serve(e);
    }

    // Without a connection there is nothing left of the last one.
    lemma IdleLink()
      requires Valid() && !peer
      ensures link == Link(false, false, [], NO_REPLY, link.connectedAt, link.progressAt) && receiver.transfer == None
    {
    }

    // A completed transfer is staged, vouched for and the one the pending reply will install.
    lemma CompleteIsStaged()
      requires Valid() && receiver.complete
      ensures peer && link.reply.text == OK_REPLY && link.reply.after == Install && sink.bin.Some?
      ensures past.completedAt < |past.trace| && past.trace[past.completedAt].Completed?
      ensures sink.bin == Some(past.trace[past.completedAt].delivery.image)
      ensures Warranted(receiver.crypto, receiver.cfg, receiver.log, past.trace[past.completedAt].delivery)
    {
      LogIsFit();
      FinishedIsVouched(receiver.crypto, receiver.cfg, receiver.log, past.trace[past.completedAt].delivery);
    }

    lemma UpdatesCounted()
      requires Valid()
      ensures updates == Armings(past.trace)
    {
    }

    lemma LogIsFit()
      requires Valid()
      ensures LogFits(receiver.crypto, receiver.log, receiver.Outstanding(), receiver.Opened())
      ensures receiver.Opened().Some? <==> receiver.active
      ensures Images(sink.bins) == receiver.boot + Deliveries(receiver.log)
      ensures Recorded(past.trace, receiver.log, start, receiver.cfg)
    {
    }

    // Any run: whatever the network, the clocks and the storage do, the bootloader is armed
    // only as TraceSafe allows, and UPDATE.BIN only ever holds what transfers finished with.
    method Run(passes: seq<Pass>)
      requires Valid()
      requires forall i :: 0 <= i < |passes| && passes[i].recv.Bytes? ==> 0 < |passes[i].recv.data| <= CHUNK
      modifies this, sink, buffer, receiver, receiver.cipher, receiver.cipher.counter, receiver.cipher.stream
      ensures Valid()
      ensures TraceSafe(past.trace) && updates == Armings(past.trace) && old(past.trace) <= past.trace
      ensures old(sink.bins) <= sink.bins && old(receiver.log) <= receiver.log && receiver.cfg == old(receiver.cfg)
      // The images in UPDATE.BIN are those at boot and then those of the finished transfers, in order.
      ensures Images(sink.bins) == receiver.boot + Deliveries(receiver.log)
      // Each begun transfer had an authentic header that answered a challenge of its own, and
      // each finished one an image that this header and the ciphertext received vouch for.
      ensures forall n :: 0 <= n < |receiver.log| ==>
        && (receiver.log[n].Begun? ==> T.Answered(receiver.crypto, receiver.log, n))
        && (receiver.log[n].Finished? ==> T.Vouched(receiver.crypto, receiver.log, n))
        && (start <= n && receiver.log[n].Begun? ==> receiver.log[n].cfg == receiver.cfg)
        && (start <= n && receiver.log[n].Finished? ==> receiver.log[n].delivery.cfg == receiver.cfg)
      ensures forall i :: 0 <= i < |past.trace| && past.trace[i].Armed? ==>
        Rightful(receiver.crypto, receiver.cfg, receiver.log, past.trace, i)
      // Of the transfers begun, each is finished or aborted once, or still open.
      ensures T.Count(receiver.log, T.Begin) ==
                T.Count(receiver.log, T.Finish) + T.Count(receiver.log, T.Abandon) + (if receiver.active then 1 else 0)
      ensures T.Count(receiver.log, T.Begin) <= T.Count(receiver.log, T.Challenge)
    {
      hide OtaReceiver.Valid, OtaReceiver.Base, TraceSafe, Armings;
      for i := 0 to |passes|
        invariant Valid() && old(past.trace) <= past.trace
        invariant old(sink.bins) <= sink.bins && old(receiver.log) <= receiver.log && receiver.cfg == old(receiver.cfg)
      {
        Step(passes[i]);
      }
      LogIsFit();
      RunIsVouched(receiver.crypto, receiver.cfg, receiver.log, start, past.trace);
      T.BeginsAndEnds(receiver.crypto, receiver.log);
    }
  }

  // A transfer under this configuration finished so, and is vouched for.
  ghost predicate Warranted(c: Crypto, cfg: Config, log: seq<OtaReceiving.Event>, d: Delivery) {
    d.cfg == cfg && exists n: nat :: T.Vouched(c, log, n) && log[n].delivery == d
  }

  // The arming at i is justified by what its connection completed, which is warranted.
  ghost predicate Rightful(c: Crypto, cfg: Config, log: seq<OtaReceiving.Event>, trace: seq<OtaPasses.Event>, i: nat) {
    && i < |trace| && trace[i].Armed?
    && exists a: nat, k: nat :: JustifiedBy(trace[..i], trace[i].bin, a, k) && Warranted(c, cfg, log, trace[k].delivery)
  }

  lemma FinishedIsVouched(c: Crypto, cfg: Config, log: seq<OtaReceiving.Event>, d: Delivery)
    requires Scan(c, log).Some? && Finished(d) in log && d.cfg == cfg
    ensures Warranted(c, cfg, log, d)
  {
    var n :| 0 <= n < |log| && log[n] == Finished(d);
    T.EveryFinishVouched(c, log, n);
  }

  lemma ArmedIsRightful(c: Crypto, cfg: Config, log: seq<OtaReceiving.Event>, start: nat,
                        trace: seq<OtaPasses.Event>, i: nat)
    requires Scan(c, log).Some? && TraceSafe(trace) && Recorded(trace, log, start, cfg)
    requires i < |trace| && trace[i].Armed?
    ensures Rightful(c, cfg, log, trace, i)
  {
    hide Warranted, Scan, TraceSafe, SentBytes;
    EveryArmingJustified(trace, i);
    var a: nat, k: nat :| JustifiedBy(trace[..i], trace[i].bin, a, k);
    FinishedIsVouched(c, cfg, log, trace[k].delivery);
  }

  lemma RunIsVouched(c: Crypto, cfg: Config, log: seq<OtaReceiving.Event>, start: nat, trace: seq<OtaPasses.Event>)
    requires Scan(c, log).Some? && TraceSafe(trace) && Recorded(trace, log, start, cfg)
    ensures forall n :: 0 <= n < |log| && log[n].Begun? ==> T.Answered(c, log, n)
    ensures forall n :: 0 <= n < |log| && log[n].Finished? ==> T.Vouched(c, log, n)
    ensures forall i :: 0 <= i < |trace| && trace[i].Armed? ==> Rightful(c, cfg, log, trace, i)
  {
    hide *;
    forall n | 0 <= n < |log| && log[n].Begun?
      ensures T.Answered(c, log, n)
    {
      T.EveryBeginAnswered(c, log, n);
    }
    forall n | 0 <= n < |log| && log[n].Finished?
      ensures T.Vouched(c, log, n)
    {
      T.EveryFinishVouched(c, log, n);
    }
    forall i | 0 <= i < |trace| && trace[i].Armed?
      ensures Rightful(c, cfg, log, trace, i)
    {
      ArmedIsRightful(c, cfg, log, start, trace, i);
    }
  }
}
