/** One pass of the update server in plain terms: deadlines as elapsed time, requests and
    replies as bytes, with every constant written out. */
module OtaMeaning {
  import opened Outcomes
  import opened Bytes
  import opened OtaProtocol
  import opened OtaReceiving
  import opened OtaPasses

  // -- Elapsed time ---------------------------------------------------------------

  // A clock that started at start and has counted d since.
  lemma SinceIsElapsed(start: Millis, d: nat)
    requires d < 0x1_0000_0000
    ensures Since((start + d) % 0x1_0000_0000, start) == d
  {
    var m := 0x1_0000_0000;
    if start + d < m {
      assert (start + d) % m == start + d;
    } else {
      assert (start + d) % m == start + d - m;
      assert (start + d - m - start) % m == d;
    }
  }

  // now is d after start.
  predicate Passes(start: Millis, d: nat, now: Millis) { d < 0x1_0000_0000 && now == (start + d) % 0x1_0000_0000 }

  lemma Elapsed(start: Millis, d: nat, now: Millis)
    requires Passes(start, d, now)
    ensures Since(now, start) == d
  {
    hide Since;
    SinceIsElapsed(start, d);
  }

  // The pass serves the connection, c after it was accepted and p after it last progressed.
  predicate Serving(b: Board, v: View, e: Pass, c: nat, p: nat) {
    && b.ready && e.wifi && v.listening && v.peer && v.link.reply.offset <= |v.link.reply.text|
    && Passes(v.link.connectedAt, c, e.now) && Passes(v.link.progressAt, p, e.now)
  }

  lemma ExpiresWhen(b: Board, v: View, e: Pass, c: nat, p: nat)
    requires Serving(b, v, e, c, p)
    ensures Expired(e, v.link) <==> c > 180000 || p > 5000
  {
    hide Since, Passes;
    Elapsed(v.link.connectedAt, c, e.now);
    Elapsed(v.link.progressAt, p, e.now);
  }

  // The connection is gone and nothing else happened.
  predicate Hung(v: View, v': View) {
    && !v'.peer && v'.transfer == None && !v'.complete
    && v'.past.trace == v.past.trace + [Closed] && v'.bin == v.bin
    && v'.listening == v.listening && v'.nonceValid == v.nonceValid && v'.challengeAt == v.challengeAt
    && v'.nonce == v.nonce && v'.issued == v.issued
  }

  // A connection older than 180 s, or idle for more than 5 s, ends in this pass.
  lemma TimesOut(b: Board, v: View, e: Pass, v': View, c: nat, p: nat)
    requires Serving(b, v, e, c, p) && Passed(b, v, e, v') && (c > 180000 || p > 5000)
    ensures Hung(v, v')
  {
    ExpiresWhen(b, v, e, c, p);
  }

  // Within these limits it does not: without a reply to send, a pass that receives nothing
  // changes nothing, and only the client's end closes the connection.
  lemma Waits(b: Board, v: View, e: Pass, v': View, c: nat, p: nat)
    requires Serving(b, v, e, c, p) && Passed(b, v, e, v') && c <= 180000 && p <= 5000 && v.link.reply.text == []
    ensures e.recv.NoData? ==> v' == v
    ensures e.recv.Ended? ==> Hung(v, v')
  {
    ExpiresWhen(b, v, e, c, p);
  }

  // -- Sending --------------------------------------------------------------------

  // A reply begun d ago: too late or failed, blocked, partly or wholly sent.
  lemma Sends(b: Board, v: View, e: Pass, v': View, c: nat, p: nat, d: nat)
    requires Serving(b, v, e, c, p) && Passed(b, v, e, v') && c <= 180000 && p <= 5000
    requires v.link.reply.text != [] && Passes(v.link.reply.startedAt, d, e.flushNow)
    ensures var r := v.link.reply;
            var left := |r.text| - r.offset;
            if d >= 2000 || e.send.SendFailed? || (e.send.Took? && !(1 <= e.send.n <= left)) then Hung(v, v')
            else if e.send.Blocked? then v' == v
            else
              var sent := v.past.trace + [Sent(r.text[r.offset..r.offset + e.send.n])];
              if e.send.n < left then
                v' == v.(past := v.past.(trace := sent), link := v.link.(reply := r.(offset := r.offset + e.send.n)))
              else
                match r.after
                case Receive =>
                  v' == v.(past := v.past.(trace := sent),
                           link := v.link.(reply := NO_REPLY, progressAt := e.flushedNow))
                case Close => !v'.peer && v'.transfer == None && v'.past.trace == sent + [Closed] && v'.bin == v.bin
                case Install =>
                  !v'.peer && v'.transfer == None && v'.past.trace == sent + [Closed, Armed(v.bin)] && v'.bin == v.bin
  {
    hide Since, Passes, Expired, HeaderTaken, BodyTaken;
    ExpiresWhen(b, v, e, c, p);
    Elapsed(v.link.reply.startedAt, d, e.flushNow);
  }

  // -- Receiving a header -----------------------------------------------------------

  // Bytes arrive while no body is awaited; h is the header with them.
  predicate Reading(b: Board, v: View, e: Pass, c: nat, p: nat, h: seq<byte>) {
    && Serving(b, v, e, c, p) && c <= 180000 && p <= 5000
    && v.link.reply.text == [] && !v.link.receiving && e.recv.Bytes? && h == v.link.header + e.recv.data
  }

  predicate Starts(h: seq<byte>, magic: seq<byte>) { |h| >= 8 && h[..8] == magic }

  lemma MagicsDiffer()
    ensures |STATUS_MAGIC| == |MAGIC| == 8 && STATUS_MAGIC != MAGIC
  {
    assert STATUS_MAGIC[6] != MAGIC[6];
  }

  // Fewer than 8 bytes, 40 of a status request or 141 of an upload are kept for the next pass.
  lemma Accumulates(b: Board, v: View, e: Pass, v': View, c: nat, p: nat, h: seq<byte>)
    requires Reading(b, v, e, c, p, h) && Passed(b, v, e, v')
    requires |h| < 8 || (Starts(h, STATUS_MAGIC) && |h| < 40) || (Starts(h, MAGIC) && |h| < 141)
    ensures v' == v.(link := v.link.(header := h, querying := Starts(h, STATUS_MAGIC), progressAt := e.now))
  {
    hide STATUS_MAGIC, MAGIC, Since, Passes, Expired;
    ExpiresWhen(b, v, e, c, p);
    MagicsDiffer();
    assert h[..|h|] == h;
  }

  // Eight bytes that name no request end the connection.
  lemma HangsUp(b: Board, v: View, e: Pass, v': View, c: nat, p: nat, h: seq<byte>)
    requires Reading(b, v, e, c, p, h) && Passed(b, v, e, v')
    requires |h| >= 8 && !Starts(h, STATUS_MAGIC) && !Starts(h, MAGIC)
    ensures Hung(v, v')
  {
    hide STATUS_MAGIC, MAGIC, Since, Passes, Expired;
    ExpiresWhen(b, v, e, c, p);
    assert h[..|h|] == h;
  }

  // A status request makes a new challenge, or leaves none valid, and is answered with the
  // status, its tag in hexadecimal and a line feed; without a tag the connection ends.
  lemma AnswersStatus(b: Board, v: View, e: Pass, v': View, c: nat, p: nat, h: seq<byte>)
    requires Reading(b, v, e, c, p, h) && Passed(b, v, e, v') && Starts(h, STATUS_MAGIC) && |h| >= 40
    ensures v'.nonceValid == e.nonce.Some?
    ensures if e.nonce.Some?
            then v'.nonce == e.nonce.value && v'.challengeAt == e.challengeNow && v'.issued == b.configured
            else v'.nonce == v.nonce && v'.challengeAt == v.challengeAt && v'.issued == v.issued
    ensures v'.bin == v.bin
    ensures if b.configured && e.signed && |e.status| + 65 <= 640
            then
              && v'.peer && v'.past == v.past && v'.transfer == v.transfer && v'.complete == v.complete
              && var tag := b.crypto.hmac(b.crypto.hmac(b.cfg.key, AUTH_LABEL), e.status);
                 v'.link.reply == Reply(e.status + HexLine(tag), 0, e.replyNow, Close)
            else !v'.peer && v'.transfer == None && v'.past.trace == v.past.trace + [Closed]
  {
    hide STATUS_MAGIC, MAGIC, AUTH_LABEL, Since, Passes, Expired, HexLine, BodyTaken, Flushed, Authorized;
    ExpiresWhen(b, v, e, c, p);
    MagicsDiffer();
    assert h[..40][..8] == h[..8];
  }

  // Two lower-case digits for each byte, and a line feed.
  lemma HexLineIs(b: seq<byte>)
    ensures |HexLine(b)| == 2 * |b| + 1 && HexLine(b)[2 * |b|] == 10
    ensures forall i :: 0 <= i < |b| ==>
      && HexLine(b)[2 * i] == "0123456789abcdef"[b[i] / 16] as nat
      && HexLine(b)[2 * i + 1] == "0123456789abcdef"[b[i] % 16] as nat
  {
    hide ToHex;
    HexIsAscii(b);
    forall i | 0 <= i < |b|
      ensures ToHex(b)[2 * i] == "0123456789abcdef"[b[i] / 16] && ToHex(b)[2 * i + 1] == "0123456789abcdef"[b[i] % 16]
    {
      ToHexAt(b, i);
      HexValueIs(ToHex(b)[2 * i], b[i] / 16);
      HexValueIs(ToHex(b)[2 * i + 1], b[i] % 16);
    }
  }

  // An upload header d after the challenge: refused, cut off for not waiting, or accepted.
  lemma AnswersUpload(b: Board, v: View, e: Pass, v': View, c: nat, p: nat, h: seq<byte>, d: nat)
    requires Reading(b, v, e, c, p, h) && Passed(b, v, e, v') && Starts(h, MAGIC) && |h| >= 141
    requires Passes(v.challengeAt, d, e.now)
    ensures var head: Header := h[..141];
            var good :=
              && v.nonceValid && d <= 60000 && v.transfer == None && v.issued && head[13..45] == v.nonce
              && Authentic(b.crypto, b.cfg, head) && e.begin.authenticated;
            if !(good && e.begin.keyed && e.begin.hashing && e.begin.granted) then
              && v'.peer && v'.past == v.past && v'.transfer == v.transfer && v'.bin == v.bin
              && v'.nonceValid == v.nonceValid && v'.issued == (v.issued && !good)
              && v'.link.reply == Reply(FAIL_REPLY, 0, e.replyNow, Close) && !v'.link.receiving
            else if |h| > 141 then
              && !v'.peer && v'.transfer == None && v'.past.trace == v.past.trace + [Closed] && v'.bin == v.bin
              && !v'.nonceValid && !v'.issued
            else
              && v'.peer && v'.past == v.past && v'.transfer == Some(Transfer(head, [])) && v'.bin == v.bin
              && !v'.nonceValid && !v'.issued
              && v'.link.reply == Reply(ACCEPT_REPLY, 0, e.replyNow, Receive) && v'.link.receiving
  {
    hide STATUS_MAGIC, MAGIC, Since, Passes, Expired, Authentic;
    ExpiresWhen(b, v, e, c, p);
    Elapsed(v.challengeAt, d, e.now);
    MagicsDiffer();
    assert h[..141][..8] == h[..8];
    assert |h| == 141 ==> h[..141] == h;
  }

  // -- Receiving the body -----------------------------------------------------------

  predicate NoCallFails(f: FeedCalls, size: nat) {
    && f.wireHashed && f.aesFailsAt == None && f.plainHashed && f.accepted >= size && f.hashesFinished
    && f.finish.flushed && f.finish.closed && f.finish.removed && f.finish.renamed
  }

  // A piece of the body goes on with the transfer, completes it, or ends it with a failure
  // reply; the verdict decides if no call fails.
  lemma TakesBody(b: Board, v: View, e: Pass, v': View, c: nat, p: nat)
    requires Serving(b, v, e, c, p) && Passed(b, v, e, v') && c <= 180000 && p <= 5000
    requires v.link.reply.text == [] && v.link.receiving && e.recv.Bytes? && v.transfer.Some? && b.cfg.identity != []
    ensures v'.peer && v'.link.progressAt == e.now
    ensures var t, data := v.transfer.value, e.recv.data;
            var verdict := FeedVerdict(b.crypto, b.cfg, t, data);
            var fails :=
              && v'.transfer == None && !v'.complete && v'.past == v.past && (v'.bin == v.bin || v'.bin == None)
              && v'.link.reply == Reply(FAIL_REPLY, 0, e.replyNow, Close);
            var goesOn :=
              && v'.transfer == Some(Transfer(t.header, t.wire + data)) && v'.past == v.past && v'.bin == v.bin
              && v'.link.reply.text == [];
            var completes :=
              && v'.transfer == None && v'.complete && v'.link.reply == Reply(OK_REPLY, 0, e.replyNow, Install)
              && v'.bin == Some(Plain(b.crypto, b.cfg, t.header, t.wire + data))
              && |v'.past.trace| == |v.past.trace| + 1
              && v'.past.trace[..|v.past.trace|] == v.past.trace && v'.past.trace[|v.past.trace|].Completed?
              && v'.past.trace[|v.past.trace|].delivery ==
                   Delivery(b.cfg, Transfer(t.header, t.wire + data), Plain(b.crypto, b.cfg, t.header, t.wire + data));
            && (fails || (verdict == Continue && goesOn) || (verdict == Complete && completes))
            && (NoCallFails(e.feed, |data|) && verdict != Reject ==> !fails)
  {
    hide FeedVerdict, Plain, Since, Passes, Expired;
    ExpiresWhen(b, v, e, c, p);
  }

  // -- Without a connection ---------------------------------------------------------

  // A server that is not ready does nothing; without WiFi nothing stays open.
  lemma NotReadyOrOffline(b: Board, v: View, e: Pass, v': View)
    requires v.link.reply.offset <= |v.link.reply.text| && Passed(b, v, e, v')
    ensures !b.ready ==> v' == v
    ensures b.ready && !e.wifi ==> !v'.peer && !v'.listening && v'.bin == v.bin
    ensures b.ready && !e.wifi && v.peer ==> v'.transfer == None && v'.past.trace == v.past.trace + [Closed]
    ensures b.ready && !e.wifi && !v.peer ==> v'.past == v.past
  {
  }

  // Listening is tried at once, and again when the last attempt lies d back: 5 s or more. A
  // pass that succeeds goes on as that of a listening server.
  lemma ListensAgain(b: Board, v: View, e: Pass, v': View, d: nat)
    requires b.ready && e.wifi && !v.listening && v.link.reply.offset <= |v.link.reply.text| && Passed(b, v, e, v')
    requires Passes(v.listenAttemptAt, d, e.listenNow)
    ensures if v.listenAttemptAt != 0 && d < 5000 then v' == v
            else if !e.socketOpened || !e.bound then v' == v.(listenAttemptAt := e.listenNow)
            else Passed(b, v.(listenAttemptAt := e.listenNow, listening := true), e, v')
  {
    hide Since, Passes, Served;
    Elapsed(v.listenAttemptAt, d, e.listenNow);
  }

  // A listening server with nobody connected takes who is waiting, and the pass goes on with
  // the connection; a failure to accept ends the listening.
  lemma Accepts(b: Board, v: View, e: Pass, v': View)
    requires b.ready && e.wifi && v.listening && !v.peer && v.link.reply.offset <= |v.link.reply.text|
    requires Passed(b, v, e, v')
    ensures match e.accept
            case NoPeer => v' == v
            case AcceptFailed => v' == v.(listening := false)
            case NewPeer =>
              var past := Past(v.past.trace + [Accepted], |v.past.trace|, v.past.completedAt);
              var link := v.link.(connectedAt := e.acceptNow, progressAt := e.acceptNow);
              Passed(b, v.(peer := true, past := past, link := link), e, v')
  {
    hide Served;
  }
}
