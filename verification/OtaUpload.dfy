/** A whole upload against the update server: a host that speaks the protocol, over a
    network that cuts every message as it likes, gets its image installed. */
module OtaUploads {
  import opened Outcomes
  import opened Bytes
  import opened CtrMode
  import opened OtaProtocol
  import opened OtaReceiving
  import opened OtaPasses
  import opened OtaServing
  import T = OtaTransfers

  // A board whose calls all succeed, and what it says of itself.
  datatype Calm = Calm(nonce: Digest, status: seq<byte>)

  // A pass at one moment, in which data may be received, or n bytes of a reply taken.
  function PassOf(m: Calm, at: Millis, data: seq<byte>, n: nat): (e: Pass)
    ensures e.recv == if data == [] then NoData else Bytes(data)
  {
    var recv, send := if data == [] then NoData else Bytes(data), if n == 0 then Blocked else Took(n);
    Pass(true, at, true, true, NewPeer, at, at, at, send, at, recv, Some(m.nonce), at, m.status, true,
         BeginCalls(true, true, true, true, true), T.ALL_OK.(accepted := CHUNK), at, true)
  }

  // What does not depend on the data received or the bytes taken.
  function AnyPass(m: Calm, at: Millis): Pass { PassOf(m, at, [], 0) }

  // A pass without anyone connecting.
  function QuietPass(m: Calm, at: Millis): (e: Pass)
    ensures e.wifi && e.recv == NoData && e.accept == NoPeer
  {
    AnyPass(m, at).(accept := NoPeer)
  }

  // -- How the network cuts a message -------------------------------------------

  // What one pass receives, and how much of a reply it sends; possibly nothing.
  datatype Arrival = Arrival(data: seq<byte>, at: Millis)

  datatype Portion = Portion(size: nat, at: Millis)

  // When the connection was last not idle.
  function Later(piece: Arrival, last: Millis): Millis { if piece.data == [] then last else piece.at }

  function Chunks(arrivals: seq<Arrival>): seq<seq<byte>> {
    if arrivals == [] then []
    else (if arrivals[0].data == [] then [] else [arrivals[0].data]) + Chunks(arrivals[1..])
  }

  function Text(arrivals: seq<Arrival>): seq<byte> { T.Flatten(Chunks(arrivals)) }

  function Sum(portions: seq<Portion>): nat {
    if portions == [] then 0 else portions[0].size + Sum(portions[1..])
  }

  // At that moment the connection has neither lasted nor been idle too long.
  predicate Alive(connectedAt: Millis, lastAt: Millis, at: Millis) {
    Since(at, connectedAt) <= CONNECTION_LIMIT && Since(at, lastAt) <= IDLE_LIMIT
  }

  // Pieces that fit the buffer and come soon enough after the connection and each other.
  predicate Timely(arrivals: seq<Arrival>, connectedAt: Millis, lastAt: Millis)
    decreases |arrivals|
  {
    arrivals != [] ==>
      && |arrivals[0].data| <= CHUNK && Alive(connectedAt, lastAt, arrivals[0].at)
      && (arrivals[1..] == [] ==> arrivals[0].data != [])
      && Timely(arrivals[1..], connectedAt, Later(arrivals[0], lastAt))
  }

  // Portions taken soon enough after the connection and the start of the reply.
  predicate Prompt(portions: seq<Portion>, connectedAt: Millis, startedAt: Millis) {
    && (portions != [] ==> portions[|portions| - 1].size > 0)
    && forall i :: 0 <= i < |portions| ==>
         Alive(connectedAt, startedAt, portions[i].at) && Since(portions[i].at, startedAt) < REPLY_LIMIT
  }

  function LastArrival(arrivals: seq<Arrival>): Millis
    requires arrivals != []
  {
    arrivals[|arrivals| - 1].at
  }

  function LastPortion(portions: seq<Portion>): Millis
    requires portions != []
  {
    portions[|portions| - 1].at
  }

  lemma FirstChunk(arrivals: seq<Arrival>)
    requires arrivals != []
    ensures var data, rest := arrivals[0].data, Chunks(arrivals[1..]);
            if data == [] then Chunks(arrivals) == rest
            else Chunks(arrivals) != [] && Chunks(arrivals)[0] == data && Chunks(arrivals)[1..] == rest
    ensures Text(arrivals) == arrivals[0].data + Text(arrivals[1..])
  {
  }

  lemma {:induction false} SomeText(arrivals: seq<Arrival>, connectedAt: Millis, lastAt: Millis)
    requires arrivals != [] && Timely(arrivals, connectedAt, lastAt)
    ensures Text(arrivals) != []
    decreases |arrivals|
  {
    FirstChunk(arrivals);
    if arrivals[1..] != [] {
      SomeText(arrivals[1..], connectedAt, Later(arrivals[0], lastAt));
    }
  }

  lemma FirstArrival(arrivals: seq<Arrival>, connectedAt: Millis, lastAt: Millis)
    requires arrivals != [] && Timely(arrivals, connectedAt, lastAt)
    ensures |arrivals[0].data| <= CHUNK && Alive(connectedAt, lastAt, arrivals[0].at)
    ensures Timely(arrivals[1..], connectedAt, Later(arrivals[0], lastAt))
    ensures Text(arrivals) == arrivals[0].data + Text(arrivals[1..])
    ensures Text(arrivals[1..]) == [] <==> arrivals[1..] == []
    ensures if arrivals[1..] == [] then arrivals[0].data != [] && LastArrival(arrivals) == arrivals[0].at
            else LastArrival(arrivals) == LastArrival(arrivals[1..])
  {
    FirstChunk(arrivals);
    if arrivals[1..] != [] {
      SomeText(arrivals[1..], connectedAt, Later(arrivals[0], lastAt));
    }
  }

  lemma FirstPortion(portions: seq<Portion>, connectedAt: Millis, startedAt: Millis)
    requires portions != [] && Prompt(portions, connectedAt, startedAt)
    ensures Alive(connectedAt, startedAt, portions[0].at) && Since(portions[0].at, startedAt) < REPLY_LIMIT
    ensures Prompt(portions[1..], connectedAt, startedAt)
    ensures Sum(portions) == portions[0].size + Sum(portions[1..])
    ensures if portions[1..] == [] then portions[0].size > 0 && LastPortion(portions) == portions[0].at
            else LastPortion(portions) == LastPortion(portions[1..])
  {
  }

  lemma {:induction false} SomeLeft(portions: seq<Portion>, connectedAt: Millis, startedAt: Millis)
    requires portions != [] && Prompt(portions, connectedAt, startedAt)
    ensures Sum(portions) > 0
  {
    FirstPortion(portions, connectedAt, startedAt);
    if portions[1..] != [] {
      SomeLeft(portions[1..], connectedAt, startedAt);
    }
  }

  lemma {:induction false} NoneEmpty(arrivals: seq<Arrival>)
    ensures [] !in Chunks(arrivals)
  {
    if arrivals != [] {
      NoneEmpty(arrivals[1..]);
    }
  }

  // -- Messages of the host -------------------------------------------------------

  // Connected, with no reply pending and no body awaited.
  predicate Asking(c: View) { c.listening && c.peer && c.link.reply == NO_REPLY && !c.link.receiving }

  // The connection c with the bytes sent of a request taken by the time at.
  function Reached(c: View, sent: seq<byte>, at: Millis): View {
    c.(link := c.link.(header := sent, querying := Queries(sent), progressAt := at))
  }

  // A complete request with nothing behind it.
  predicate Whole(r: seq<byte>) { (Asked(r) == Query || Asked(r) == Upload) && RequestSize(r) == |r| }

  lemma ProperPrefix(h: seq<byte>, rest: seq<byte>)
    requires Whole(h + rest) && rest != []
    ensures Asked(h) == Unfinished
  {
    if |h| >= 8 {
      assert (h + rest)[..8] == h[..8];
    }
  }

  // Of a pass, only what all passes at that time share decides on a request.
  lemma SameDecision(b: Board, m: Calm, v: View, at: Millis, data: seq<byte>, n: nat, v': View)
    requires Decided(b, v, true, PassOf(m, at, data, n), v')
    ensures Decided(b, v, true, AnyPass(m, at), v')
  {
    hide Asked, Authentic, FAIL_REPLY, ACCEPT_REPLY, HexLine;
  }

  // A piece that brings the request one step on, or a pass that receives none.
  lemma PieceServed(b: Board, m: Calm, c: View, sent: seq<byte>, last: Millis,
                    piece: Arrival, rest: seq<byte>, v': View)
    requires Asking(c) && Alive(c.link.connectedAt, last, piece.at) && Whole(sent + piece.data + rest)
    requires rest == [] ==> piece.data != []
    requires Served(b, Reached(c, sent, last), PassOf(m, piece.at, piece.data, 1), v')
    ensures var w := Reached(c, sent + piece.data, Later(piece, last));
            if rest != [] then v' == w else Decided(b, w, true, AnyPass(m, piece.at), v')
  {
    hide Asked, Queried, Authorized;
    var h := sent + piece.data;
    if rest != [] {
      ProperPrefix(h, rest);
    } else {
      assert h + rest == h;
    }
    assert h[..RequestSize(h)] == h;
    var w := Reached(c, h, Later(piece, last));
    if piece.data == [] {
      assert h == sent;
    } else {
      assert Holding(Restarted(Reached(c, sent, last), AnyPass(m, piece.at)), h) == w;
    }
    if rest == [] {
      SameDecision(b, m, w, piece.at, piece.data, 1, v');
    }
  }

  // Before the first piece, or with the bytes sent of a request taken.
  ghost predicate Awaiting(v: View, m: Calm, c: View, first: Millis, sent: seq<byte>, last: Millis) {
    && Asking(c) && c.link.connectedAt == first && v.listening && v.link.reply.offset <= |v.link.reply.text|
    && if v.peer then v == Reached(c, sent, last)
       else c == Connected(v, AnyPass(m, first)) == Reached(c, [], first) && sent == [] && last == first
  }

  // The first piece opens the connection.
  lemma PieceTaken(b: Board, m: Calm, v: View, c: View, first: Millis, sent: seq<byte>, last: Millis,
                   piece: Arrival, rest: seq<byte>, v': View)
    requires b.ready && Awaiting(v, m, c, first, sent, last) && (!v.peer ==> piece.at == first)
    requires Alive(first, last, piece.at) && Whole(sent + piece.data + rest) && (rest == [] ==> piece.data != [])
    requires Passed(b, v, PassOf(m, piece.at, piece.data, 1), v')
    ensures if rest != [] then v'.peer && Awaiting(v', m, c, first, sent + piece.data, Later(piece, last))
            else Decided(b, Reached(c, sent + piece.data, piece.at), true, AnyPass(m, piece.at), v')
  {
    hide Served, Whole, Decided;
    PieceServed(b, m, c, sent, last, piece, rest, v');
  }

  lemma NothingTaken(v: View, m: Calm, first: Millis)
    requires v.listening && !v.peer
    requires v.link == Link(false, false, [], NO_REPLY, v.link.connectedAt, v.link.progressAt)
    ensures Awaiting(v, m, Connected(v, AnyPass(m, first)), first, [], first)
  {
  }

  // The host connects and sends a request.
  method SendRequest(s: OtaServer, m: Calm, request: seq<Arrival>)
    requires s.Valid() && s.ready && s.listening && !s.peer
    requires request != [] && Timely(request, request[0].at, request[0].at) && Whole(Text(request))
    modifies s, s.sink, s.buffer, s.receiver, s.receiver.cipher, s.receiver.cipher.counter, s.receiver.cipher.stream
    ensures s.Valid() && s.OnBoard() == old(s.OnBoard())
    ensures var c, last := Connected(old(s.Now()), AnyPass(m, request[0].at)), LastArrival(request);
            Decided(s.OnBoard(), Reached(c, Text(request), last), true, AnyPass(m, last), s.Now())
  {
    hide OtaServer.Valid, Passed, Whole, Asked, Decided, Text, Timely, LastArrival;
    hide Awaiting, Connected, Reached, PassOf, Alive;
    ghost var b, first := s.OnBoard(), request[0].at;
    ghost var c := Connected(s.Now(), AnyPass(m, first));
    s.IdleLink();
    NothingTaken(s.Now(), m, first);
    var left := request;
    ghost var sent: seq<byte>, last := [], first;
    while left != []
      invariant s.Valid() && s.OnBoard() == b && Timely(left, first, last) && sent + Text(left) == Text(request)
      invariant left != [] ==> LastArrival(left) == LastArrival(request) && (!s.peer ==> left[0].at == first)
      invariant left == [] ==> last == LastArrival(request)
      invariant if left != [] then Awaiting(s.Now(), m, c, first, sent, last)
                else Decided(b, Reached(c, Text(request), last), true, AnyPass(m, last), s.Now())
      decreases |left|
    {
      ghost var v, piece, rest := s.Now(), left[0], Text(left[1..]);
      FirstArrival(left, first, last);
      s.Step(PassOf(m, left[0].at, left[0].data, 1));
      assert sent + piece.data + rest == Text(request);
      PieceTaken(b, m, v, c, first, sent, last, piece, rest, s.Now());
      sent, last, left := sent + piece.data, Later(piece, last), left[1..];
      assert left == [] ==> sent == Text(request);
    }
  }

  // -- Replies ----------------------------------------------------------------------

  // The view v once the socket has taken the first n bytes of its reply. Counted from an
  // earlier event, these follow what was sent before.
  ghost predicate Partly(v: View, n: nat, from: nat, w: View)
    ensures Partly(v, n, from, w) ==>
      w.link.reply.offset == n <= |v.link.reply.text| && w.link.reply.text == v.link.reply.text
  {
    var text := v.link.reply.text;
    && n <= |text| && from <= |v.past.trace| <= |w.past.trace|
    && w == v.(link := v.link.(reply := v.link.reply.(offset := n)), past := v.past.(trace := w.past.trace))
    && SentBytes(w.past.trace, from) == SentBytes(v.past.trace, from) + text[..n]
    && Armings(w.past.trace) == Armings(v.past.trace)
  }

  // A reply just queued.
  predicate Queued(v: View) {
    && v.listening && v.peer && v.link.reply.text != [] && v.link.reply.offset == 0
    && v.link.reply.startedAt == v.link.progressAt
  }

  lemma NoneTaken(v: View, from: nat)
    requires from <= |v.past.trace| && v.link.reply.offset == 0
    ensures Partly(v, 0, from, v)
  {
  }

  lemma LongerPrefix(before: seq<byte>, text: seq<byte>, i: nat, n: nat)
    requires i + n <= |text|
    ensures before + text[..i] + text[i..i + n] == before + text[..i + n]
  {
    assert text[..i] + text[i..i + n] == text[..i + n];
  }

  lemma PartlyAdvances(v: View, taken: nat, n: nat, from: nat, w: View)
    requires Partly(v, taken, from, w) && taken + n <= |v.link.reply.text|
    ensures Partly(v, taken + n, from, Advanced(w, n))
  {
    hide SentBytes, Armings;
    var text := v.link.reply.text;
    EventAppend(w.past.trace, Sent(text[taken..taken + n]), from);
    LongerPrefix(SentBytes(v.past.trace, from), text, taken, n);
  }

  // The view w after one send.
  function AfterSend(w: View, n: nat): View
    requires w.link.reply.offset + n <= |w.link.reply.text|
  {
    if n == 0 then w else Advanced(w, n)
  }

  lemma PieceSent(b: Board, m: Calm, v: View, w: View, taken: nat, piece: Portion, from: nat, v': View)
    requires b.ready && Queued(v) && Partly(v, taken, from, w) && taken < |v.link.reply.text|
    requires Alive(v.link.connectedAt, v.link.progressAt, piece.at)
    requires Since(piece.at, v.link.reply.startedAt) < REPLY_LIMIT
    requires taken + piece.size <= |v.link.reply.text|
    requires Passed(b, w, PassOf(m, piece.at, [], piece.size), v')
    ensures var next := AfterSend(w, piece.size);
            && Partly(v, taken + piece.size, from, next)
            && if taken + piece.size < |v.link.reply.text| then v' == next else Answered(next, AnyPass(m, piece.at), v')
  {
    if piece.size > 0 {
      PartlyAdvances(v, taken, piece.size, from, w);
    }
    hide BodyTaken, HeaderTaken, Left, SentBytes, Armings;
  }

  // Between v and v' the socket took text, and the bootloader was armed n times.
  ghost predicate Told(v: View, text: seq<byte>, n: nat, from: nat, v': View)
    ensures Told(v, text, n, from, v') ==> from <= |v'.past.trace|
  {
    && from <= |v.past.trace| <= |v'.past.trace|
    && SentBytes(v'.past.trace, from) == SentBytes(v.past.trace, from) + text
    && Armings(v'.past.trace) == Armings(v.past.trace) + n
  }

  // The reply of v has been read by the time last.
  ghost predicate ReplyRead(v: View, last: Millis, from: nat, v': View) {
    var r := v.link.reply;
    && Told(v, r.text, if r.after == Install then 1 else 0, from, v')
    && (r.after == Receive ==> v' == v.(link := v.link.(reply := NO_REPLY, progressAt := last), past := v'.past))
    && (r.after != Receive ==>
          v' == v.(peer := false, link := v'.link, past := v'.past, transfer := None, complete := false))
    && (r.after == Install ==> v'.past.trace != [] && v'.past.trace[|v'.past.trace| - 1] == Armed(v.bin))
  }

  lemma WholeReply(m: Calm, v: View, from: nat, w: View, last: Millis, v': View)
    requires Queued(v) && Partly(v, |v.link.reply.text|, from, w) && Answered(w, AnyPass(m, last), v')
    ensures ReplyRead(v, last, from, v')
  {
    hide SentBytes, Armings;
    var text := v.link.reply.text;
    assert text[..|text|] == text;
    if v.link.reply.after != Receive {
      EventAppend(w.past.trace, Closed, from);
      EventAppend(w.past.trace + [Closed], Armed(w.bin), from);
    }
  }

  // The host reads a reply to its end.
  method ReadReply(s: OtaServer, m: Calm, portions: seq<Portion>, ghost from: nat)
    requires s.Valid() && s.ready && Queued(s.Now()) && from <= |s.past.trace|
    requires portions != [] && Sum(portions) == |s.link.reply.text|
    requires Prompt(portions, s.link.connectedAt, s.link.reply.startedAt)
    modifies s, s.sink, s.buffer, s.receiver, s.receiver.cipher, s.receiver.cipher.counter, s.receiver.cipher.stream
    ensures s.Valid() && s.OnBoard() == old(s.OnBoard())
    ensures ReplyRead(old(s.Now()), LastPortion(portions), from, s.Now())
  {
    hide OtaServer.Valid, Passed, Answered, Advanced, PassOf, ReplyRead, Told, Partly, Prompt, LastPortion, Alive;
    hide AfterSend;
    ghost var b, v := s.OnBoard(), s.Now();
    ghost var w, size, last := v, |v.link.reply.text|, v.link.progressAt;
    NoneTaken(v, from);
    var left, taken: nat := portions, 0;
    while left != []
      invariant s.Valid() && s.OnBoard() == b && taken + Sum(left) == size && Partly(v, taken, from, w)
      invariant Prompt(left, v.link.connectedAt, v.link.reply.startedAt)
      invariant left != [] ==> LastPortion(left) == LastPortion(portions)
      invariant left == [] ==> last == LastPortion(portions)
      invariant if taken < size then s.Now() == w else Answered(w, AnyPass(m, last), s.Now())
      decreases |left|
    {
      FirstPortion(left, v.link.connectedAt, v.link.reply.startedAt);
      SomeLeft(left, v.link.connectedAt, v.link.reply.startedAt);
      s.Step(PassOf(m, left[0].at, [], left[0].size));
      PieceSent(b, m, v, w, taken, left[0], from, s.Now());
      w, last := AfterSend(w, left[0].size), left[0].at;
      taken, left := taken + left[0].size, left[1..];
    }
    WholeReply(m, v, from, w, last, s.Now());
  }

  // -- The body -------------------------------------------------------------------

  // Ready for the rest of a body.
  predicate Taking(v: View) {
    v.listening && v.peer && v.link.reply == NO_REPLY && v.link.receiving && !v.complete
  }

  // The connection v some pieces of the body later.
  function Fed(v: View, t: Transfer, at: Millis): View {
    v.(transfer := Some(t), link := v.link.(progressAt := at))
  }

  lemma ChunkTaken(b: Board, m: Calm, v: View, t: Transfer, last: Millis, piece: Arrival, v': View)
    requires b.ready && b.cfg.identity != [] && Taking(v) && Alive(v.link.connectedAt, last, piece.at)
    requires |piece.data| <= CHUNK && Passed(b, Fed(v, t, last), PassOf(m, piece.at, piece.data, 1), v')
    ensures piece.data == [] ==> v' == Fed(v, t, last)
    ensures var t' := Extend(t, piece.data);
            piece.data != [] ==>
            match FeedVerdict(b.crypto, b.cfg, t, piece.data)
            case Reject => true
            case Continue => v' == Fed(v, t', piece.at)
            case Complete => v' == Staged(Fed(v, t', piece.at), DeliveryOf(b.crypto, b.cfg, t'), AnyPass(m, piece.at))
  {
    hide FeedVerdict, PlainOf;
    assert Restarted(Fed(v, t, last), AnyPass(m, piece.at)) == Fed(v, t, piece.at);
  }

  // The run of chunks, pass by pass.
  lemma NextChunk(c: Crypto, cfg: Config, t: Transfer, left: seq<Arrival>, whole: Transfer,
                  connectedAt: Millis, lastAt: Millis)
    requires cfg.identity != [] && left != [] && Timely(left, connectedAt, lastAt)
    requires T.RunChunks(c, cfg, t, Chunks(left)) == T.Done(whole)
    ensures var data, rest := left[0].data, left[1..];
            if data == [] then rest != [] && T.RunChunks(c, cfg, t, Chunks(rest)) == T.Done(whole)
            else
              match FeedVerdict(c, cfg, t, data)
              case Reject => false
              case Continue => rest != [] && T.RunChunks(c, cfg, Extend(t, data), Chunks(rest)) == T.Done(whole)
              case Complete => rest == [] && Extend(t, data) == whole
  {
    hide FeedVerdict;
    FirstChunk(left);
    FirstArrival(left, connectedAt, lastAt);
  }

  // The host sends the body of an accepted transfer.
  method SendBody(s: OtaServer, m: Calm, body: seq<Arrival>, ghost t: Transfer, ghost whole: Transfer)
    requires s.Valid() && s.ready && Taking(s.Now()) && s.receiver.transfer == Some(t) && s.receiver.cfg.identity != []
    requires body != [] && Timely(body, s.link.connectedAt, s.link.progressAt)
    requires T.RunChunks(s.receiver.crypto, s.receiver.cfg, t, Chunks(body)) == T.Done(whole)
    modifies s, s.sink, s.buffer, s.receiver, s.receiver.cipher, s.receiver.cipher.counter, s.receiver.cipher.stream
    ensures s.Valid() && s.OnBoard() == old(s.OnBoard())
    ensures var last, d := LastArrival(body), DeliveryOf(s.receiver.crypto, s.receiver.cfg, whole);
            s.Now() == Staged(Fed(old(s.Now()), whole, last), d, AnyPass(m, last))
  {
    hide OtaServer.Valid, Passed, PassOf, PlainOf, FeedVerdict, Timely, Chunks, Alive, LastArrival;
    hide Text, T.RunChunks, Staged;
    ghost var b, v := s.OnBoard(), s.Now();
    ghost var cur, last := t, v.link.progressAt;
    var left := body;
    while left != []
      invariant s.Valid() && s.OnBoard() == b && Timely(left, v.link.connectedAt, last)
      invariant left != [] ==> LastArrival(left) == LastArrival(body)
      invariant left != [] ==> T.RunChunks(b.crypto, b.cfg, cur, Chunks(left)) == T.Done(whole)
      invariant left != [] ==> s.Now() == Fed(v, cur, last)
      invariant left == [] ==> last == LastArrival(body)
      invariant left == [] ==>
        s.Now() == Staged(Fed(v, whole, last), DeliveryOf(b.crypto, b.cfg, whole), AnyPass(m, last))
      decreases |left|
    {
      NextChunk(b.crypto, b.cfg, cur, left, whole, v.link.connectedAt, last);
      FirstArrival(left, v.link.connectedAt, last);
      s.Step(PassOf(m, left[0].at, left[0].data, 1));
      ChunkTaken(b, m, v, cur, last, left[0], s.Now());
      assert left[0].data == [] ==> Extend(cur, left[0].data) == cur;
      cur, last, left := Extend(cur, left[0].data), Later(left[0], last), left[1..];
    }
  }

  // -- A whole upload ---------------------------------------------------------------

  // The status text with its tag.
  function StatusReply(b: Board, m: Calm): seq<byte> {
    m.status + HexLine(b.crypto.hmac(AuthKey(b.crypto, b.cfg.key), m.status))
  }

  // No connection, and the challenge m.nonce outstanding since then.
  predicate Challenging(v: View, m: Calm, since: Millis) {
    && v.listening && !v.peer && v.transfer == None
    && v.nonceValid && v.challengeAt == since && v.nonce == m.nonce && v.issued
  }

  // A connection that sent a status request has the answer queued.
  lemma StatusQueued(b: Board, m: Calm, v: View, first: Millis, request: seq<byte>, last: Millis, from: nat, w: View)
    requires b.ready && b.configured && |m.status| < 512 && v.listening && v.transfer == None
    requires v.link.reply == NO_REPLY && from <= |v.past.trace| && Asked(request) == Query
    requires Decided(b, Reached(Connected(v, AnyPass(m, first)), request, last), true, AnyPass(m, last), w)
    ensures Queued(w) && w.link.connectedAt == first && w.link.reply.startedAt == last
    ensures w.link.reply.text == StatusReply(b, m) && w.link.reply.after == Close
    ensures Challenging(w.(peer := false), m, last) && Told(v, [], 0, from, w)
  {
    hide Asked, HexLine;
    EventAppend(v.past.trace, Accepted, from);
  }

  lemma StatusRead(m: Calm, v: View, w: View, since: Millis, last: Millis, from: nat, v': View)
    requires Told(v, [], 0, from, w) && Challenging(w.(peer := false), m, since)
    requires w.link.reply.after == Close && ReplyRead(w, last, from, v')
    ensures Challenging(v', m, since) && Told(v, w.link.reply.text, 0, from, v')
  {
    hide SentBytes, Armings;
  }

  // The host asks for the status and reads it.
  method AskStatus(s: OtaServer, m: Calm, request: seq<Arrival>, portions: seq<Portion>, ghost from: nat)
    requires s.Valid() && s.ready && s.listening && !s.peer && s.receiver.configured && from <= |s.past.trace|
    requires |m.status| < 512 && request != [] && Timely(request, request[0].at, request[0].at)
    requires Whole(Text(request)) && Asked(Text(request)) == Query
    requires portions != [] && Prompt(portions, request[0].at, LastArrival(request))
    requires Sum(portions) == |StatusReply(s.OnBoard(), m)|
    modifies s, s.sink, s.buffer, s.receiver, s.receiver.cipher, s.receiver.cipher.counter, s.receiver.cipher.stream
    ensures s.Valid() && s.OnBoard() == old(s.OnBoard()) && Challenging(s.Now(), m, LastArrival(request))
    ensures Told(old(s.Now()), StatusReply(s.OnBoard(), m), 0, from, s.Now())
  {
    hide OtaServer.Valid, Decided, Asked, Whole, StatusReply, Prompt, Timely, Connected, Reached;
    hide Told, ReplyRead, Queued, Challenging, Text, Sum, HexLine;
    ghost var v, first, last := s.Now(), request[0].at, LastArrival(request);
    s.IdleLink();
    SendRequest(s, m, request);
    StatusQueued(s.OnBoard(), m, v, first, Text(request), last, from, s.Now());
    ghost var w := s.Now();
    ReadReply(s, m, portions, from);
    StatusRead(m, v, w, last, LastPortion(portions), from, s.Now());
  }

  // Nobody connects for a while.
  method Pause(s: OtaServer, m: Calm, times: seq<Millis>)
    requires s.Valid() && s.ready && s.listening && !s.peer
    modifies s, s.sink, s.buffer, s.receiver, s.receiver.cipher, s.receiver.cipher.counter, s.receiver.cipher.stream
    ensures s.Valid() && s.OnBoard() == old(s.OnBoard()) && s.Now() == old(s.Now())
  {
    hide OtaServer.Valid, PassOf, Served;
    for i := 0 to |times|
      invariant s.Valid() && s.OnBoard() == old(s.OnBoard()) && s.Now() == old(s.Now())
    {
      s.Step(QuietPass(m, times[i]));
    }
  }

  // The connection is to take the body of the transfer that the header h announced.
  predicate Granted(v: View, h: Header, first: Millis, last: Millis) {
    && v.listening && v.peer && v.link.receiving && !v.complete && v.transfer == Some(Transfer(h, []))
    && v.link.connectedAt == first && v.link.progressAt == last
  }

  // An authentic header under the outstanding challenge has its acceptance queued.
  lemma GrantQueued(b: Board, m: Calm, v: View, since: Millis, first: Millis, h: Header, last: Millis,
                    from: nat, w: View)
    requires b.ready && Challenging(v, m, since) && v.link.reply == NO_REPLY && from <= |v.past.trace|
    requires Since(last, since) <= CHALLENGE_LIMIT && Authentic(b.crypto, b.cfg, h) && Nonce(h) == m.nonce
    requires Asked(h) == Upload
    requires Decided(b, Reached(Connected(v, AnyPass(m, first)), h, last), true, AnyPass(m, last), w)
    ensures Queued(w) && w.link.connectedAt == first && w.link.reply.startedAt == last
    ensures w.link.reply.text == ACCEPT_REPLY && w.link.reply.after == Receive
    ensures Granted(w, h, first, last) && Told(v, [], 0, from, w)
  {
    hide Asked, Authentic;
    EventAppend(v.past.trace, Accepted, from);
  }

  lemma GrantRead(v: View, w: View, h: Header, first: Millis, at: Millis, last: Millis, from: nat, v': View)
    requires Told(v, [], 0, from, w) && Granted(w, h, first, at)
    requires w.link.reply.after == Receive && ReplyRead(w, last, from, v')
    ensures Granted(v', h, first, last) && v'.link.reply == NO_REPLY && Told(v, w.link.reply.text, 0, from, v')
  {
    hide SentBytes, Armings;
  }

  lemma HeaderAsks(c: Crypto, cfg: Config, h: Header)
    requires Authentic(c, cfg, h)
    ensures Asked(h) == Upload && Whole(h)
  {
    assert MAGIC[6] != STATUS_MAGIC[6];
  }

  // The host sends a header and reads the acceptance.
  method SendHeader(s: OtaServer, m: Calm, h: Header, head: seq<Arrival>, portions: seq<Portion>,
                    ghost since: Millis, ghost from: nat)
    requires s.Valid() && s.ready && Challenging(s.Now(), m, since) && from <= |s.past.trace|
    requires Authentic(s.receiver.crypto, s.receiver.cfg, h) && Nonce(h) == m.nonce
    requires head != [] && Timely(head, head[0].at, head[0].at) && Text(head) == h
    requires Since(LastArrival(head), since) <= CHALLENGE_LIMIT
    requires portions != [] && Prompt(portions, head[0].at, LastArrival(head)) && Sum(portions) == |ACCEPT_REPLY|
    modifies s, s.sink, s.buffer, s.receiver, s.receiver.cipher, s.receiver.cipher.counter, s.receiver.cipher.stream
    ensures s.Valid() && s.OnBoard() == old(s.OnBoard()) && s.link.reply == NO_REPLY
    ensures Granted(s.Now(), h, head[0].at, LastPortion(portions))
    ensures Told(old(s.Now()), ACCEPT_REPLY, 0, from, s.Now())
  {
    hide OtaServer.Valid, Decided, Authentic, Asked, Whole, Prompt, Timely, Connected, Reached;
    hide Told, ReplyRead, Queued, Granted, Text, Sum;
    ghost var v, first, at, last := s.Now(), head[0].at, LastArrival(head), LastPortion(portions);
    HeaderAsks(s.receiver.crypto, s.receiver.cfg, h);
    s.IdleLink();
    SendRequest(s, m, head);
    GrantQueued(s.OnBoard(), m, v, since, first, h, at, from, s.Now());
    ghost var w := s.Now();
    ReadReply(s, m, portions, from);
    GrantRead(v, w, h, first, at, last, from, s.Now());
  }

  // The end of an upload: the image is complete, and the success reply is read.
  ghost predicate Installed(v: View, image: seq<byte>, from: nat, v': View) {
    && !v'.peer && v'.bin == Some(image) && Told(v, OK_REPLY, 1, from, v')
    && v'.past.trace != [] && v'.past.trace[|v'.past.trace| - 1] == Armed(Some(image))
  }

  lemma LastReply(m: Calm, v: View, d: Delivery, at: Millis, last: Millis, from: nat, v': View)
    requires from <= |v.past.trace| && ReplyRead(Staged(Fed(v, d.transfer, at), d, AnyPass(m, at)), last, from, v')
    ensures Installed(v, d.image, from, v')
  {
    hide OK_REPLY, Armings, SentBytes;
    EventAppend(v.past.trace, Completed(d), from);
  }

  // The host sends the body and reads the success reply.
  method SendImage(s: OtaServer, m: Calm, h: Header, body: seq<Arrival>, portions: seq<Portion>,
                   ghost first: Millis, ghost last: Millis, ghost whole: Transfer, ghost from: nat)
    requires s.Valid() && s.ready && Granted(s.Now(), h, first, last) && s.link.reply == NO_REPLY
    requires s.receiver.cfg.identity != [] && body != [] && Timely(body, first, last)
    requires T.RunChunks(s.receiver.crypto, s.receiver.cfg, Transfer(h, []), Chunks(body)) == T.Done(whole)
    requires portions != [] && Prompt(portions, first, LastArrival(body)) && Sum(portions) == |OK_REPLY|
    requires from <= |s.past.trace|
    modifies s, s.sink, s.buffer, s.receiver, s.receiver.cipher, s.receiver.cipher.counter, s.receiver.cipher.stream
    ensures s.Valid() && s.OnBoard() == old(s.OnBoard())
    ensures Installed(old(s.Now()), PlainOf(s.receiver.crypto, s.receiver.cfg, whole), from, s.Now())
  {
    hide OtaServer.Valid, PlainOf, T.RunChunks, ReplyRead, Installed, Told, Prompt, Timely;
    ghost var v, d := s.Now(), DeliveryOf(s.receiver.crypto, s.receiver.cfg, whole);
    SendBody(s, m, body, Transfer(h, []), whole);
    ReadReply(s, m, portions, from);
    LastReply(m, v, d, LastArrival(body), LastPortion(portions), from, s.Now());
  }

  // The stages of an upload in one.
  lemma FromChallengeToArming(v0: View, v1: View, v2: View, v3: View, status: seq<byte>, image: seq<byte>)
    requires Told(v0, status, 0, |v0.past.trace|, v1) && Told(v1, ACCEPT_REPLY, 0, |v0.past.trace|, v2)
    requires Installed(v2, image, |v0.past.trace|, v3)
    ensures Armings(v3.past.trace) == Armings(v0.past.trace) + 1
    ensures SentBytes(v3.past.trace, |v0.past.trace|) == status + ACCEPT_REPLY + OK_REPLY
  {
    hide ACCEPT_REPLY, OK_REPLY, Armings;
  }

  // The messages of an upload as the network cuts them: the host's into pieces, and the
  // replies into what one send takes. All meet their deadlines; passes in which nothing
  // happens may come anywhere.
  datatype Traffic = Traffic(
    ask: seq<Arrival>, told: seq<Portion>, gap: seq<Millis>,
    head: seq<Arrival>, granted: seq<Portion>,
    body: seq<Arrival>, done: seq<Portion>)

  ghost predicate Carries(n: Traffic, status: seq<byte>, e: Envelope) {
    && n.ask != [] && Whole(Text(n.ask)) && Asked(Text(n.ask)) == Query && Timely(n.ask, n.ask[0].at, n.ask[0].at)
    && n.told != [] && Sum(n.told) == |status| && Prompt(n.told, n.ask[0].at, LastArrival(n.ask))
    && n.head != [] && Text(n.head) == e.header && Timely(n.head, n.head[0].at, n.head[0].at)
    && Since(LastArrival(n.head), LastArrival(n.ask)) <= CHALLENGE_LIMIT
    && n.granted != [] && Sum(n.granted) == |ACCEPT_REPLY| && Prompt(n.granted, n.head[0].at, LastArrival(n.head))
    && n.body != [] && Text(n.body) == e.wire && Timely(n.body, n.head[0].at, LastPortion(n.granted))
    && n.done != [] && Sum(n.done) == |OK_REPLY| && Prompt(n.done, n.head[0].at, LastArrival(n.body))
  }

  // Some traffic carries any envelope: everything at once, in pieces that fill the buffer.
  function InPieces(data: seq<byte>): seq<Arrival>
    decreases |data|
  {
    if |data| <= CHUNK then [Arrival(data, 0)] else [Arrival(data[..CHUNK], 0)] + InPieces(data[CHUNK..])
  }

  lemma {:induction false} PiecesCarry(data: seq<byte>)
    requires data != []
    ensures var a := InPieces(data);
            a != [] && a[0].at == LastArrival(a) == 0 && Timely(a, 0, 0) && Text(a) == data
    decreases |data|
  {
    hide Text, Chunks;
    FirstChunk(InPieces(data));
    if |data| <= CHUNK {
      NoChunks();
      assert InPieces(data)[1..] == [];
    } else {
      PiecesCarry(data[CHUNK..]);
      assert InPieces(data)[1..] == InPieces(data[CHUNK..]);
      assert data == data[..CHUNK] + data[CHUNK..];
    }
  }

  lemma NoChunks()
    ensures Text([]) == []
  {
  }

  lemma AtOnce(text: seq<byte>)
    requires text != []
    ensures var p := [Portion(|text|, 0)]; Sum(p) == |text| && Prompt(p, 0, 0) && LastPortion(p) == 0
  {
    var p := [Portion(|text|, 0)];
    assert p[1..] == [];
  }

  lemma SomeTraffic(c: Crypto, cfg: Config, status: seq<byte>, e: Envelope)
    requires status != [] && e.wire != [] && Authentic(c, cfg, e.header)
    ensures exists n :: Carries(n, status, e)
  {
    var zeros: seq<byte> := seq(32, _ => 0);
    var request := STATUS_MAGIC + zeros;
    assert |STATUS_MAGIC| == 8 && request[..8] == STATUS_MAGIC;
    assert Whole(request) && Asked(request) == Query;
    hide Whole, Asked, Timely, Prompt, Text, InPieces, Sum, Authentic, LastArrival, LastPortion, STATUS_MAGIC;
    PiecesCarry(request);
    PiecesCarry(e.header);
    PiecesCarry(e.wire);
    AtOnce(status);
    AtOnce(ACCEPT_REPLY);
    AtOnce(OK_REPLY);
    var n := Traffic(InPieces(request), [Portion(|status|, 0)], [], InPieces(e.header), [Portion(|ACCEPT_REPLY|, 0)],
                     InPieces(e.wire), [Portion(|OK_REPLY|, 0)]);
    assert Carries(n, status, e);
  }

  // What the host packs for the challenge it was told is staged and armed, once, after
  // the three replies have been sent in full.
  method UploadImage(s: OtaServer, m: Calm, n: Traffic, e: Envelope,
                     ghost p: Panel, ghost image: seq<byte>, ghost secret: Digest)
    requires s.Valid() && s.ready && s.listening && !s.peer && s.receiver.configured && |m.status| < 512
    requires s.receiver.cfg == Config(secret, PanelNumber(p), Identity(p))
    requires Pack(s.receiver.crypto, p, ToHex(m.nonce), image, secret) == Ok(e)
    requires Carries(n, StatusReply(s.OnBoard(), m), e)
    modifies s, s.sink, s.buffer, s.receiver, s.receiver.cipher, s.receiver.cipher.counter, s.receiver.cipher.stream
    ensures s.Valid() && !s.peer && s.sink.bin == Some(image) && s.updates == old(s.updates) + 1
    ensures s.past.trace != [] && s.past.trace[|s.past.trace| - 1] == Armed(Some(image))
    ensures SentBytes(s.past.trace, |old(s.past.trace)|) == StatusReply(s.OnBoard(), m) + ACCEPT_REPLY + OK_REPLY
  {
    hide OtaServer.Valid, Pack, PlainOf, Authentic, T.RunChunks, Told, StatusReply, Whole, Asked, Identity;
    hide Prompt, Timely, Chunks;
    ghost var v0, from := s.Now(), |s.past.trace|;
    s.UpdatesCounted();
    HexRoundTrip(m.nonce);
    NoneEmpty(n.body);
    T.RoundTrip(s.receiver.crypto, p, ToHex(m.nonce), image, secret, Chunks(n.body));
    AskStatus(s, m, n.ask, n.told, from);
    Pause(s, m, n.gap);
    ghost var v1 := s.Now();
    SendHeader(s, m, e.header, n.head, n.granted, LastArrival(n.ask), from);
    ghost var v2 := s.Now();
    SendImage(s, m, e.header, n.body, n.done, n.head[0].at, LastPortion(n.granted), Transfer(e.header, e.wire), from);
    FromChallengeToArming(v0, v1, v2, s.Now(), StatusReply(s.OnBoard(), m), image);
    s.UpdatesCounted();
  }
}
