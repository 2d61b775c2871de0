/** What one pass of the update server may meet, what it may change, and what its
    history must look like, all on values. */
module OtaPasses {
  import opened Outcomes
  import opened Bytes
  import opened CtrMode
  import opened OtaProtocol
  import opened OtaReceiving

  const CHUNK := 1024
  const REPLY_BUFFER := 640
  const STATUS_REQUEST := 40
  const CONNECTION_LIMIT := 180000
  const IDLE_LIMIT := 5000
  const CHALLENGE_LIMIT := 60000
  const REPLY_LIMIT := 2000
  const LISTEN_RETRY := 5000

  const OK_REPLY: seq<byte> := Ascii("{\"ok\":true}\n")
  const FAIL_REPLY: seq<byte> := Ascii("{\"ok\":false}\n")
  const ACCEPT_REPLY: seq<byte> := Ascii("{\"accepted\":true}\n")

  // A millisecond clock that wraps at 2^32.
  type Millis = t: int | 0 <= t < 0x1_0000_0000

  function Since(now: Millis, start: Millis): Millis { (now - start) % 0x1_0000_0000 }

  datatype AfterReply = Close | Receive | Install

  // text == [] stands for reply_size == 0.
  datatype Reply = Reply(text: seq<byte>, offset: nat, startedAt: Millis, after: AfterReply)

  const NO_REPLY := Reply([], 0, 0, Close)

  // The variables that belong to one connection.
  datatype Link = Link(receiving: bool, querying: bool, header: seq<byte>, reply: Reply,
                       connectedAt: Millis, progressAt: Millis)

  datatype Accepting = NewPeer | NoPeer | AcceptFailed

  datatype Receiving = Bytes(data: seq<byte>) | NoData | Ended

  datatype Sending = Took(n: nat) | Blocked | SendFailed

  // What one pass of the loop may meet. millis() is read at several points.
  datatype Pass = Pass(
    wifi: bool, listenNow: Millis, socketOpened: bool, bound: bool,
    accept: Accepting, acceptNow: Millis, now: Millis,
    flushNow: Millis, send: Sending, flushedNow: Millis,
    recv: Receiving, nonce: Option<Digest>, challengeNow: Millis, status: seq<byte>, signed: bool,
    begin: BeginCalls, feed: FeedCalls, replyNow: Millis, removed: bool)

  datatype Event =
    | Accepted
    | Completed(delivery: Delivery)
    | Sent(bytes: seq<byte>)
    | Closed
    | Armed(bin: Option<seq<byte>>)

  // The bytes the socket has taken since event number from.
  function SentBytes(trace: seq<Event>, from: nat): seq<byte> {
    if |trace| <= from then []
    else
      var n := |trace| - 1;
      SentBytes(trace[..n], from) + if trace[n].Sent? then trace[n].bytes else []
  }

  // No connection begins or ends strictly between the two events.
  ghost predicate SameConnection(trace: seq<Event>, a: nat, b: nat) {
    b <= |trace| && forall k :: a < k < b ==> !trace[k].Accepted? && !trace[k].Closed?
  }

  // The bootloader may be armed with bin after trace: on the connection just closed,
  // that image completed and then exactly the success reply was taken by the socket.
  ghost predicate JustifiedBy(trace: seq<Event>, bin: Option<seq<byte>>, a: nat, c: nat) {
    && a < c < |trace| - 1
    && trace[a].Accepted? && trace[c].Completed? && trace[|trace| - 1].Closed?
    && bin == Some(trace[c].delivery.image)
    && SameConnection(trace, a, |trace| - 1)
    && SentBytes(trace, c) == OK_REPLY
  }

  ghost predicate Justified(trace: seq<Event>, bin: Option<seq<byte>>) {
    exists a, c :: JustifiedBy(trace, bin, a, c)
  }

  // Every arming in the trace is justified by what precedes it.
  ghost predicate TraceSafe(trace: seq<Event>) {
    trace == [] ||
    (TraceSafe(trace[..|trace| - 1]) &&
     (trace[|trace| - 1].Armed? ==> Justified(trace[..|trace| - 1], trace[|trace| - 1].bin)))
  }

  // How often the bootloader was armed.
  function Armings(trace: seq<Event>): nat {
    if trace == [] then 0 else Armings(trace[..|trace| - 1]) + if trace[|trace| - 1].Armed? then 1 else 0
  }

  datatype Past = Past(trace: seq<Event>, acceptedAt: nat, completedAt: nat)

  // What the bytes of a header ask for.
  datatype Request = Unfinished | Unknown | Query | Upload

  predicate Queries(h: seq<byte>) { |h| >= 8 && h[..8] == STATUS_MAGIC }

  function Asked(h: seq<byte>): Request {
    if |h| < 8 then Unfinished
    else if Queries(h) then (if |h| < STATUS_REQUEST then Unfinished else Query)
    else if h[..8] == MAGIC then (if |h| < HEADER_SIZE then Unfinished else Upload)
    else Unknown
  }

  ghost predicate LinkOk(peer: bool, l: Link)
    ensures LinkOk(peer, l) ==> l.reply.offset <= |l.reply.text|
  {
    && |l.header| <= HEADER_SIZE
    && (if l.reply.text == [] then l.reply == NO_REPLY else l.reply.offset < |l.reply.text|)
    && (!peer ==> l.reply.text == [] && !l.receiving && l.header == [])
    && (l.reply.text != [] && l.reply.after == Receive ==> l.receiving)
    && (l.reply.text == [] && !l.receiving ==> Asked(l.header) == Unfinished && l.querying == Queries(l.header))
  }

  ghost predicate PastOk(past: Past, peer: bool) {
    && TraceSafe(past.trace)
    && (peer ==>
      && past.acceptedAt < |past.trace| && past.trace[past.acceptedAt].Accepted?
      && SameConnection(past.trace, past.acceptedAt, |past.trace|))
  }

  // A success reply that will arm the bootloader is under way.
  ghost predicate InstallOk(past: Past, r: Reply, bin: Option<seq<byte>>)
    ensures r.text == [] || r.after != Install ==> InstallOk(past, r, bin)
  {
    r.text != [] && r.after == Install ==>
      && r.text == OK_REPLY && r.offset <= |r.text|
      && past.acceptedAt < past.completedAt < |past.trace|
      && past.trace[past.completedAt].Completed?
      && bin == Some(past.trace[past.completedAt].delivery.image)
      && SentBytes(past.trace, past.completedAt) == OK_REPLY[..r.offset]
  }

  predicate Under(e: OtaReceiving.Event, cfg: Config) {
    (e.Begun? ==> e.cfg == cfg) && (e.Finished? ==> e.delivery.cfg == cfg)
  }

  // Since start the receiver worked under one configuration, and what the server took for
  // completed is what the receiver finished.
  ghost predicate Recorded(trace: seq<Event>, log: seq<OtaReceiving.Event>, start: nat, cfg: Config) {
    && start <= |log| && (forall n :: start <= n < |log| ==> Under(log[n], cfg))
    && forall k :: 0 <= k < |trace| && trace[k].Completed? ==>
         trace[k].delivery.cfg == cfg && Finished(trace[k].delivery) in log
  }

  lemma LogGrows(trace: seq<Event>, log: seq<OtaReceiving.Event>, more: seq<OtaReceiving.Event>,
                 start: nat, cfg: Config)
    requires Recorded(trace, log, start, cfg) && forall n :: 0 <= n < |more| ==> Under(more[n], cfg)
    ensures Recorded(trace, log + more, start, cfg)
  {
  }

  lemma TraceGrows(trace: seq<Event>, log: seq<OtaReceiving.Event>, more: seq<Event>, start: nat, cfg: Config)
    requires Recorded(trace, log, start, cfg)
    requires forall k :: 0 <= k < |more| && more[k].Completed? ==>
      more[k].delivery.cfg == cfg && Finished(more[k].delivery) in log
    ensures Recorded(trace + more, log, start, cfg)
  {
  }

  function Append(p: Past, e: Event): Past { p.(trace := p.trace + [e]) }

  lemma AppendSafe(p: Past, peer: bool, e: Event)
    requires PastOk(p, peer) && (e.Armed? ==> Justified(p.trace, e.bin))
    ensures TraceSafe(Append(p, e).trace) && p.trace < Append(p, e).trace
    ensures Armings(Append(p, e).trace) == Armings(p.trace) + if e.Armed? then 1 else 0
    ensures !e.Accepted? && !e.Closed? ==> PastOk(Append(p, e), peer)
    ensures e.Closed? ==> PastOk(Append(p, e), false)
    ensures e.Accepted? ==> PastOk(Append(p, e).(acceptedAt := |p.trace|), true)
  {
  }

  lemma EventAppend(trace: seq<Event>, e: Event, from: nat)
    requires from <= |trace|
    ensures SentBytes(trace + [e], from) == SentBytes(trace, from) + if e.Sent? then e.bytes else []
    ensures Armings(trace + [e]) == Armings(trace) + if e.Armed? then 1 else 0
  {
  }

  lemma NothingSent(trace: seq<Event>, from: nat)
    requires from + 1 >= |trace| && (from < |trace| ==> !trace[from].Sent?)
    ensures SentBytes(trace, from) == []
  {
  }

  // How many bytes of a pending reply this pass sends.
  function Taken(r: Reply, e: Pass): nat {
    if Since(e.flushNow, r.startedAt) < REPLY_LIMIT && e.send.Took? && r.offset + e.send.n <= |r.text|
    then e.send.n
    else 0
  }

  // Sending a piece of a reply advances it in step with the bytes sent.
  lemma TookKeeps(p: Past, peer: bool, r: Reply, n: nat, bin: Option<seq<byte>>)
    requires PastOk(p, peer) && InstallOk(p, r, bin) && r.offset + n <= |r.text| && 0 < n
    ensures var took := Sent(r.text[r.offset..r.offset + n]);
      && PastOk(Append(p, took), peer) && Armings(Append(p, took).trace) == Armings(p.trace)
      && InstallOk(Append(p, took), r.(offset := r.offset + n), bin)
  {
  }

  // Once the success reply is sent and the connection closed, arming is justified.
  lemma ArmingJustified(p: Past, r: Reply, bin: Option<seq<byte>>)
    requires PastOk(p, true) && InstallOk(p, r, bin) && r.text != [] && r.offset == |r.text|
    ensures r.after == Install ==> Justified(Append(p, Closed).trace, bin)
  {
    hide TraceSafe;
    if r.after == Install {
      EventAppend(p.trace, Closed, p.completedAt);
      assert r.text[..r.offset] == r.text;
      assert JustifiedBy(Append(p, Closed).trace, bin, p.acceptedAt, p.completedAt);
    }
  }

  // The connection has lasted, or been idle, too long.
  predicate Expired(e: Pass, l: Link) {
    Since(e.now, l.connectedAt) > CONNECTION_LIMIT || Since(e.now, l.progressAt) > IDLE_LIMIT
  }

  // Read forwards: each arming in a safe trace is justified by the events before it.
  lemma {:induction false} EveryArmingJustified(trace: seq<Event>, i: nat)
    requires TraceSafe(trace) && i < |trace| && trace[i].Armed?
    ensures Justified(trace[..i], trace[i].bin)
  {
    var front := trace[..|trace| - 1];
    if i < |front| {
      EveryArmingJustified(front, i);
      assert front[..i] == trace[..i];
    }
  }

  // A tag as it is sent: hexadecimal digits and a line feed.
  function HexLine(b: seq<byte>): (r: seq<byte>)
    ensures |r| == 2 * |b| + 1
  {
    HexIsAscii(b);
    Ascii(ToHex(b)) + [10]
  }

  lemma HexIsAscii(b: seq<byte>)
    ensures forall i :: 0 <= i < |ToHex(b)| ==> ToHex(b)[i] < 128 as char
  {
    ToHexIsHex(b);
    forall i | 0 <= i < |ToHex(b)|
      ensures ToHex(b)[i] < 128 as char
    {
      assert HexValue(ToHex(b)[i]).Some?;
    }
  }

  // -- One pass as a relation ----------------------------------------------

  // What a pass does not change.
  datatype Board = Board(crypto: Crypto, cfg: Config, configured: bool, ready: bool)

  // What it may change, but for the histories of UPDATE.BIN and of the receiver.
  datatype View = View(
    listening: bool, listenAttemptAt: Millis, peer: bool, link: Link, past: Past,
    nonceValid: bool, challengeAt: Millis, nonce: Digest, issued: bool,
    transfer: Option<Transfer>, complete: bool, bin: Option<seq<byte>>)

  // The connection is over, and with it the transfer.
  ghost predicate Left(v: View, v': View)
    ensures Left(v, v') ==> v.past.trace <= v'.past.trace
  {
    v' == v.(peer := false, link := v'.link, past := Append(v.past, Closed), transfer := None, complete := false)
  }

  // A reply is queued, if it fits.
  ghost predicate Replies(v: View, text: seq<byte>, after: AfterReply, now: Millis, v': View)
    ensures Replies(v, text, after, now, v') ==> v.past.trace <= v'.past.trace
  {
    if v.link.reply.text != [] || |text| > REPLY_BUFFER then Left(v, v')
    else v' == v.(link := v.link.(reply := Reply(text, 0, now, after)))
  }

  // A new challenge, if there is entropy for one.
  function Renewed(b: Board, v: View, e: Pass): View {
    if b.ready && e.nonce.Some?
    then v.(nonceValid := true, challengeAt := e.challengeNow, nonce := e.nonce.value, issued := b.configured)
    else v.(nonceValid := false)
  }

  // The status is sent with its tag, or not at all.
  ghost predicate Signed(b: Board, v: View, e: Pass, v': View)
    ensures Signed(b, v, e, v') ==> v.past.trace <= v'.past.trace
  {
    if b.configured && e.signed
    then Replies(v, e.status + HexLine(b.crypto.hmac(AuthKey(b.crypto, b.cfg.key), e.status)), Close, e.replyNow, v')
    else Left(v, v')
  }

  // A status request is answered under a new challenge.
  ghost predicate Queried(b: Board, v: View, e: Pass, v': View)
    ensures Queried(b, v, e, v') ==> v.past.trace <= v'.past.trace
  {
    Signed(b, Renewed(b, v, e), e, v')
  }

  // The header answers a challenge that is still good, and is authentic.
  predicate Answers(b: Board, v: View, h: Header, e: Pass) {
    && v.nonceValid && Since(e.now, v.challengeAt) <= CHALLENGE_LIMIT
    && v.transfer == None && v.issued && Nonce(h) == v.nonce && Authentic(b.crypto, b.cfg, h) && e.begin.authenticated
  }

  // An upload header is refused, cut off for not waiting, or accepted.
  ghost predicate Authorized(b: Board, v: View, exact: bool, e: Pass, v': View)
    requires |v.link.header| == HEADER_SIZE
    ensures Authorized(b, v, exact, e, v') ==> v.past.trace <= v'.past.trace
  {
    var spent := Answers(b, v, v.link.header, e);
    var begun := v.(nonceValid := false, issued := false, transfer := Some(Transfer(v.link.header, [])),
      complete := false);
    if !(spent && e.begin.keyed && e.begin.hashing && e.begin.granted)
    then Replies(v.(issued := v.issued && !spent), FAIL_REPLY, Close, e.replyNow, v')
    else if !exact then Left(begun, v')
    else Replies(begun.(link := v.link.(receiving := true)), ACCEPT_REPLY, Receive, e.replyNow, v')
  }

  // What the header received so far leads to. More bytes may lie behind it.
  ghost predicate Decided(b: Board, v: View, exact: bool, e: Pass, v': View)
    ensures Decided(b, v, exact, e, v') ==> v.past.trace <= v'.past.trace
  {
    match Asked(v.link.header)
    case Unfinished => v' == v
    case Unknown => Left(v, v')
    case Query => Queried(b, v, e, v')
    case Upload => |v.link.header| == HEADER_SIZE && Authorized(b, v, exact, e, v')
  }

  function RequestSize(h: seq<byte>): (n: nat)
    ensures n <= |h|
  {
    match Asked(h)
    case Query => STATUS_REQUEST
    case Upload => HEADER_SIZE
    case _ => |h|
  }

  // The connection once it has taken the bytes h of a header.
  function Holding(v: View, h: seq<byte>): View {
    v.(link := v.link.(header := h, querying := Queries(h)))
  }

  // A piece received while no body is awaited counts up to the end of the request.
  ghost predicate HeaderTaken(b: Board, v: View, data: seq<byte>, e: Pass, v': View)
    ensures HeaderTaken(b, v, data, e, v') ==> v.past.trace <= v'.past.trace
  {
    var h := v.link.header + data;
    var n := RequestSize(h);
    Decided(b, Holding(v, h[..n]), n == |h|, e, v')
  }

  // The byte that ends a request decides what the whole piece asks for.
  lemma RequestEnds(h: seq<byte>, n: nat)
    requires 0 < n <= |h| && Asked(h[..n - 1]) == Unfinished && Asked(h[..n]) != Unfinished
    ensures Asked(h) == Asked(h[..n]) && Queries(h) == Queries(h[..n])
    ensures Asked(h) != Unknown ==> RequestSize(h) == n
  {
    if n > 8 {
      assert h[..n][..8] == h[..n - 1][..8] == h[..8];
    } else if n == 8 {
      assert h[..n][..8] == h[..8];
    }
  }

  // So the bytes behind it do not matter.
  lemma DecidedEarly(b: Board, v: View, h: seq<byte>, n: nat, e: Pass, v': View)
    requires 0 < n <= |h| && Asked(h[..n - 1]) == Unfinished && Asked(h[..n]) != Unfinished
    requires Decided(b, Holding(v, h[..n]), n == |h|, e, v')
    ensures Decided(b, Holding(v, h[..RequestSize(h)]), RequestSize(h) == |h|, e, v')
  {
    hide Asked, Queries, Queried, Authorized;
    RequestEnds(h, n);
    if Asked(h) == Unknown {
      assert h[..RequestSize(h)] == h;
    }
  }

  function Clamp(f: FeedCalls, size: nat): FeedCalls {
    f.(accepted := if f.accepted < size then f.accepted else size)
  }

  // A piece of the body continues the transfer, completes it or ends it.
  ghost predicate BodyTaken(b: Board, v: View, data: seq<byte>, e: Pass, v': View)
    ensures BodyTaken(b, v, data, e, v') ==> v.past.trace <= v'.past.trace
  {
    match BodyVerdict(b, v.transfer, data)
    case Reject => Refused(v, e, v')
    case Continue =>
      || v' == v.(transfer := Some(Extend(v.transfer.value, data)))
      || (!AllSucceed(Clamp(e.feed, |data|), |data|) && Refused(v, e, v'))
    case Complete =>
      || v' == Staged(v, DeliveryOf(b.crypto, b.cfg, Extend(v.transfer.value, data)), e)
      || (!AllSucceed(Clamp(e.feed, |data|), |data|) && Refused(v, e, v'))
  }

  function BodyVerdict(b: Board, transfer: Option<Transfer>, data: seq<byte>): (r: Verdict)
    ensures r != Reject ==> transfer.Some?
  {
    if transfer == None || b.cfg.identity == [] then Reject
    else FeedVerdict(b.crypto, b.cfg, transfer.value, data)
  }

  // The transfer has failed; a staged image is as before or, at worst, removed.
  ghost predicate Refused(v: View, e: Pass, v': View) {
    && v' == v.(link := v.link.(reply := Reply(FAIL_REPLY, 0, e.replyNow, Close)),
                transfer := None, complete := false, bin := v'.bin)
    && (v'.bin == v.bin || v'.bin == None)
  }

  // The image is complete and staged.
  function Staged(v: View, d: Delivery, e: Pass): View {
    v.(link := v.link.(reply := Reply(OK_REPLY, 0, e.replyNow, Install)),
       past := Append(v.past, Completed(d)).(completedAt := |v.past.trace|),
       transfer := None, complete := true, bin := Some(d.image))
  }

  // The socket has taken n more bytes of the reply.
  function Advanced(v: View, n: nat): View
    requires v.link.reply.offset + n <= |v.link.reply.text|
  {
    var r := v.link.reply;
    v.(link := v.link.(reply := r.(offset := r.offset + n)),
       past := Append(v.past, Sent(r.text[r.offset..r.offset + n])))
  }

  // After its last byte a body is awaited, or the connection ends, with the arming if that was agreed.
  ghost predicate Answered(v: View, e: Pass, v': View)
    ensures Answered(v, e, v') ==> v.past.trace <= v'.past.trace
  {
    match v.link.reply.after
    case Receive => v' == v.(link := v.link.(reply := NO_REPLY, progressAt := e.flushedNow))
    case Close => Left(v, v')
    case Install =>
      && Left(v, v'.(past := Append(v.past, Closed)))
      && v'.past == Append(Append(v.past, Closed), Armed(v.bin))
  }

  // One send of a pending reply; a late or failing one ends the connection.
  ghost predicate Flushed(v: View, e: Pass, v': View)
    requires v.link.reply.offset <= |v.link.reply.text|
    ensures Flushed(v, e, v') ==> v.past.trace <= v'.past.trace
  {
    var r, n := v.link.reply, Taken(v.link.reply, e);
    if n == 0 then (if Since(e.flushNow, r.startedAt) < REPLY_LIMIT && e.send == Blocked then v' == v else Left(v, v'))
    else if r.offset + n < |r.text| then v' == Advanced(v, n)
    else Answered(Advanced(v, n), e, v')
  }

  // A connection is expired, sent to or read from.
  ghost predicate Served(b: Board, v: View, e: Pass, v': View)
    requires v.link.reply.offset <= |v.link.reply.text|
    ensures Served(b, v, e, v') ==> v.past.trace <= v'.past.trace
  {
    if Expired(e, v.link) then Left(v, v')
    else if v.link.reply.text != [] then Flushed(v, e, v')
    else
      match e.recv
      case NoData => v' == v
      case Ended => Left(v, v')
      case Bytes(data) =>
        var w := Restarted(v, e);
        if v.link.receiving then BodyTaken(b, w, data, e, v') else HeaderTaken(b, w, data, e, v')
  }

  // The idle timer starts again.
  function Restarted(v: View, e: Pass): View { v.(link := v.link.(progressAt := e.now)) }

  // Whether the server listens after trying to, and when it last tried.
  function Listened(v: View, e: Pass): View {
    if v.listening || (v.listenAttemptAt != 0 && Since(e.listenNow, v.listenAttemptAt) < LISTEN_RETRY) then v
    else v.(listenAttemptAt := e.listenNow, listening := e.socketOpened && e.bound)
  }

  function Connected(v: View, e: Pass): (w: View)
    ensures w.peer && v.past.trace <= w.past.trace && w.link.reply == v.link.reply
  {
    v.(peer := true, link := v.link.(connectedAt := e.acceptNow, progressAt := e.acceptNow),
       past := Append(v.past, Accepted).(acceptedAt := |v.past.trace|))
  }

  ghost predicate Passed(b: Board, v: View, e: Pass, v': View)
    requires v.link.reply.offset <= |v.link.reply.text|
    ensures Passed(b, v, e, v') ==> v.past.trace <= v'.past.trace
  {
    if !b.ready then v' == v
    else if !e.wifi then (if v.peer then Left(v.(listening := false), v') else v' == v.(listening := false))
    else
      var w := Listened(v, e);
      if !w.listening then v' == w
      else if v.peer then Served(b, w, e, v')
      else
        match e.accept
        case NewPeer => Served(b, Connected(w, e), e, v')
        case NoPeer => v' == w
        case AcceptFailed => v' == w.(listening := false)
  }
}
