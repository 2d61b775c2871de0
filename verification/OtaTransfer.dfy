/** Whole transfers: what the receiver accepts does not depend on the chunking, and
    it accepts exactly what the host packs for it. */
module OtaTransfers {
  import opened Outcomes
  import opened Bytes
  import opened CtrMode
  import opened OtaProtocol
  import opened OtaReceiving
  import opened StagedFile
  import M = IdentityMatcher

  datatype TransferResult = Open(t: Transfer) | Done(t: Transfer) | Failed

  function Flatten(chunks: seq<seq<byte>>): seq<byte> {
    if chunks == [] then [] else chunks[0] + Flatten(chunks[1..])
  }

  // Feeding the chunks one after the other, no call failing.
  function RunChunks(c: Crypto, cfg: Config, t: Transfer, chunks: seq<seq<byte>>): TransferResult
    requires cfg.identity != []
    decreases |chunks|
  {
    if chunks == [] then Open(t)
    else
      match FeedVerdict(c, cfg, t, chunks[0])
      case Reject => Failed
      case Continue => RunChunks(c, cfg, Extend(t, chunks[0]), chunks[1..])
      case Complete => if |chunks| == 1 then Done(Extend(t, chunks[0])) else Failed
  }

  // The whole-body condition, which knows nothing of chunks.
  ghost predicate Acceptable(c: Crypto, cfg: Config, t: Transfer)
    requires cfg.identity != []
  {
    var plain := PlainOf(c, cfg, t);
    && |t.wire| == ImageSize(t.header)
    && c.sha256(plain) == PlainDigest(t.header) && c.sha256(t.wire) == WireDigest(t.header)
    && VectorsAccepted(plain, ImageSize(t.header))
    && M.Run(cfg.identity, plain).found
  }

  // A prefix of an acceptable stream passes the vector check.
  lemma PrefixVectors(c: Crypto, cfg: Config, t: Transfer, rest: seq<byte>)
    requires VectorsAccepted(PlainOf(c, cfg, Extend(t, rest)), ImageSize(t.header))
    ensures VectorsAccepted(PlainOf(c, cfg, t), ImageSize(t.header))
  {
    hide VectorsOk, Ctr;
    PlainExtend(c, cfg, t, rest);
    var p, q := PlainOf(c, cfg, t), PlainOf(c, cfg, Extend(t, rest));
    if |p| >= 8 {
      assert First8(q) == First8(p);
    }
  }

  // A nonempty split of the rest of a body completes exactly when the whole body is acceptable.
  lemma {:induction false} CompletesIff(c: Crypto, cfg: Config, t: Transfer, chunks: seq<seq<byte>>)
    requires cfg.identity != [] && chunks != [] && [] !in chunks
    ensures RunChunks(c, cfg, t, chunks) == Done(Extend(t, Flatten(chunks)))
            <==> Acceptable(c, cfg, Extend(t, Flatten(chunks)))
    ensures RunChunks(c, cfg, t, chunks).Done? ==> RunChunks(c, cfg, t, chunks) == Done(Extend(t, Flatten(chunks)))
    decreases |chunks|
  {
    hide VectorsAccepted, PlainOf, M.Run;
    var t', rest := Extend(t, chunks[0]), Flatten(chunks[1..]);
    if |chunks| == 1 {
      assert Flatten(chunks) == chunks[0];
    } else {
      assert [] !in chunks[1..];
      assert Extend(t', rest) == Extend(t, Flatten(chunks));
      NonEmpty(chunks[1..]);
      CompletesIff(c, cfg, t', chunks[1..]);
      if Acceptable(c, cfg, Extend(t', rest)) {
        PrefixVectors(c, cfg, t', rest);
      }
    }
  }

  lemma NonEmpty(chunks: seq<seq<byte>>)
    requires chunks != [] && [] !in chunks
    ensures Flatten(chunks) != []
  {
  }

  // Two ways to cut one ciphertext have the same outcome.
  lemma ChunkingIrrelevant(c: Crypto, cfg: Config, t: Transfer, a: seq<seq<byte>>, b: seq<seq<byte>>)
    requires cfg.identity != [] && a != [] && b != [] && [] !in a && [] !in b && Flatten(a) == Flatten(b)
    ensures RunChunks(c, cfg, t, a).Done? <==> RunChunks(c, cfg, t, b).Done?
  {
    CompletesIff(c, cfg, t, a);
    CompletesIff(c, cfg, t, b);
  }

  lemma PackedIsAcceptable(c: Crypto, p: Panel, challenge: string, image: seq<byte>, secret: Digest)
    requires Pack(c, p, challenge, image, secret).Ok?
    ensures var e := Pack(c, p, challenge, image, secret).value;
            var cfg := Config(secret, PanelNumber(p), Identity(p));
            && cfg.identity != [] && Acceptable(c, cfg, Transfer(e.header, e.wire))
            && PlainOf(c, cfg, Transfer(e.header, e.wire)) == image
  {
    hide VectorsOk, Identity, UnsignedHeader, Authentic, NistCtr, Ctr;
    PackedFields(c, p, challenge, image, secret);
    ShippedIdentities(p);
    M.ExactIffNoStrongBorder(Identity(p));
    assert First8(image) == image[..8];
  }

  // Everything the host packs for a panel is accepted by that panel while the
  // challenge is outstanding, and whatever the chunking the sink is given the image.
  lemma RoundTrip(c: Crypto, p: Panel, challenge: string, image: seq<byte>, secret: Digest, chunks: seq<seq<byte>>)
    requires Pack(c, p, challenge, image, secret).Ok?
    requires [] !in chunks && Flatten(chunks) == Pack(c, p, challenge, image, secret).value.wire
    ensures var e := Pack(c, p, challenge, image, secret).value;
            var cfg := Config(secret, PanelNumber(p), Identity(p));
            && cfg.identity != []
            && Authentic(c, cfg, e.header) && Nonce(e.header) == FromHex(challenge)
            && RunChunks(c, cfg, Transfer(e.header, []), chunks) == Done(Transfer(e.header, e.wire))
            && PlainOf(c, cfg, Transfer(e.header, e.wire)) == image
  {
    hide VectorsOk, Identity, UnsignedHeader, Authentic, NistCtr, Ctr, PlainOf, RunChunks, Acceptable;
    var e := Pack(c, p, challenge, image, secret).value;
    var cfg := Config(secret, PanelNumber(p), Identity(p));
    PackedFields(c, p, challenge, image, secret);
    PackedIsAcceptable(c, p, challenge, image, secret);
    CompletesIff(c, cfg, Transfer(e.header, []), chunks);
    assert Extend(Transfer(e.header, []), Flatten(chunks)) == Transfer(e.header, e.wire);
  }

  // No call fails.
  const ALL_OK := FeedCalls(true, None, true, 0, true, FinishCalls(true, true, true, true), true)

  // Feeds the rest of an open transfer to a receiver on a board whose calls all succeed.
  method FeedAll(r: OtaReceiver, chunks: seq<seq<byte>>, ghost t: Transfer) returns (done: bool)
    requires r.Valid() && r.active && r.transfer == Some(t) && r.cfg.identity != []
    modifies r`complete, r`log, r`active, r`transfer, r`progress, r.cipher, r.cipher.counter, r.cipher.stream, r.sink
    ensures r.Valid() && r.cfg == old(r.cfg)
    ensures done == RunChunks(r.crypto, r.cfg, t, chunks).Done?
    ensures done ==> r.sink.bin == Some(PlainOf(r.crypto, r.cfg, Extend(t, Flatten(chunks))))
    decreases |chunks|
  {
    hide OtaReceiver.Valid, OtaReceiver.Base, PlainOf, FeedVerdict, VerifiedBy;
    if chunks == [] {
      return false;
    }
    var chunk := chunks[0];
    var data := new byte[|chunk|](k requires 0 <= k < |chunk| => chunk[k]);
    assert data[..data.Length] == chunk;
    var ok := r.Feed(data, data.Length, ALL_OK.(accepted := data.Length));
    if !ok {
      return false;
    }
    if r.complete {
      if |chunks| == 1 {
        assert Flatten(chunks) == chunk;
      }
      return |chunks| == 1;
    }
    assert Extend(Extend(t, chunk), Flatten(chunks[1..])) == Extend(t, Flatten(chunks));
    done := FeedAll(r, chunks[1..], Extend(t, chunk));
  }

  // A panel holding the packager's key and an outstanding challenge ends up with
  // exactly the packed image staged, whatever the chunking.
  method Upload(r: OtaReceiver, e: Envelope, chunks: seq<seq<byte>>,
                ghost p: Panel, ghost challenge: string, ghost image: seq<byte>, ghost secret: Digest)
    returns (done: bool)
    requires Pack(r.crypto, p, challenge, image, secret) == Ok(e)
    requires r.Valid() && !r.active && r.issued
    requires r.cfg == Config(secret, PanelNumber(p), Identity(p)) && r.nonce == FromHex(challenge)
    requires [] !in chunks && Flatten(chunks) == e.wire
    modifies r`issued, r`complete, r`log, r`active, r`transfer, r`progress, r.cipher, r.cipher.counter,
             r.cipher.stream, r.sink
    ensures r.Valid() && done && r.sink.bin == Some(image)
  {
    hide Authentic, Plain, PlainOf, Provisioned, CtrStream.Valid, Pack, Identity, RunChunks, Tracks;
    RoundTrip(r.crypto, p, challenge, image, secret, chunks);
    var ok := r.Begin(e.header, BeginCalls(true, true, true, true, true));
    done := FeedAll(r, chunks, Transfer(e.header, []));
    assert Extend(Transfer(e.header, []), Flatten(chunks)) == Transfer(e.header, e.wire);
  }

  // -- Event logs ---------------------------------------------------------

  datatype Kind = Challenge | Begin | Finish | Abandon

  function KindOf(e: Event): Kind {
    match e
    case Challenged(_) => Challenge
    case Begun(_, _) => Begin
    case Finished(_) => Finish
    case Aborted => Abandon
  }

  function Count(log: seq<Event>, k: Kind): nat {
    if log == [] then 0 else Count(log[..|log| - 1], k) + if KindOf(log[|log| - 1]) == k then 1 else 0
  }

  // Where in the log these events are.
  function Places(log: seq<Event>, k: Kind): set<nat> {
    set n: nat | n < |log| && KindOf(log[n]) == k
  }

  lemma LastPlace(log: seq<Event>, k: Kind)
    requires log != []
    ensures var n := |log| - 1;
            Places(log, k) == Places(log[..n], k) + if KindOf(log[n]) == k then {n} else {}
  {
    hide KindOf;
  }

  lemma {:induction false} CountIs(log: seq<Event>, k: Kind)
    ensures Count(log, k) == |Places(log, k)|
  {
    hide KindOf;
    if log == [] {
      assert Places(log, k) == {};
    } else {
      var n := |log| - 1;
      CountIs(log[..n], k);
      LastPlace(log, k);
      assert n !in Places(log[..n], k);
      hide Places;
    }
  }

  // A begun transfer has exactly one end unless it is still open, and there are no
  // more begins than challenges.
  lemma {:induction false} BeginsAndEnds(c: Crypto, log: seq<Event>)
    requires Scan(c, log).Some?
    ensures Count(log, Begin) ==
              Count(log, Finish) + Count(log, Abandon) + (if Scan(c, log).value.open.Some? then 1 else 0)
    ensures Count(log, Begin) + (if Scan(c, log).value.issued.Some? then 1 else 0) <= Count(log, Challenge)
  {
    hide Authentic, Genuine;
    if log != [] {
      BeginsAndEnds(c, log[..|log| - 1]);
    }
  }

  lemma {:induction false} ScanPrefix(c: Crypto, log: seq<Event>, n: nat)
    requires Scan(c, log).Some? && n <= |log|
    ensures Scan(c, log[..n]).Some?
    ensures n < |log| ==> Scan(c, log[..n + 1]) == Next(c, Scan(c, log[..n]).value, log[n])
    decreases |log| - n
  {
    hide Next;
    if n < |log| {
      ScanPrefix(c, log, n + 1);
      assert log[..n + 1][..n] == log[..n];
    } else {
      assert log[..n] == log;
    }
  }

  // At a is the challenge in force at n: nothing was begun on it and none came after it.
  ghost predicate InForce(log: seq<Event>, a: nat, n: nat, nonce: Digest) {
    && a < n <= |log| && log[a] == Challenged(nonce)
    && forall k :: a < k < n ==> !log[k].Challenged? && !log[k].Begun?
  }

  // At b began the transfer under way at n.
  ghost predicate UnderWay(log: seq<Event>, b: nat, n: nat, o: Opening) {
    && b < n <= |log| && log[b] == Begun(o.cfg, o.header)
    && forall k :: b < k < n ==> log[k].Challenged?
  }

  lemma {:induction false} IssuedBy(c: Crypto, log: seq<Event>, n: nat)
    requires Scan(c, log).Some? && n <= |log|
    ensures Scan(c, log[..n]).Some?
    ensures var issued := Scan(c, log[..n]).value.issued;
            issued.Some? ==> exists a :: InForce(log, a, n, issued.value)
  {
    hide Authentic, Genuine;
    ScanPrefix(c, log, n);
    if n > 0 {
      ScanPrefix(c, log, n - 1);
      IssuedBy(c, log, n - 1);
      var issued := Scan(c, log[..n]).value.issued;
      if issued.Some? {
        if log[n - 1].Challenged? {
          assert InForce(log, n - 1, n, issued.value);
        } else {
          var a :| InForce(log, a, n - 1, issued.value);
          assert InForce(log, a, n, issued.value);
        }
      }
    }
  }

  lemma {:induction false} OpenedBy(c: Crypto, log: seq<Event>, n: nat)
    requires Scan(c, log).Some? && n <= |log|
    ensures Scan(c, log[..n]).Some?
    ensures var open := Scan(c, log[..n]).value.open;
            open.Some? ==> exists b :: UnderWay(log, b, n, open.value)
  {
    hide Authentic, Genuine;
    ScanPrefix(c, log, n);
    if n > 0 {
      ScanPrefix(c, log, n - 1);
      OpenedBy(c, log, n - 1);
      var open := Scan(c, log[..n]).value.open;
      if open.Some? {
        if log[n - 1].Begun? {
          assert UnderWay(log, n - 1, n, open.value);
        } else {
          var b :| UnderWay(log, b, n - 1, open.value);
          assert UnderWay(log, b, n, open.value);
        }
      }
    }
  }

  // A begin is by an authentic header that answers the challenge in force.
  ghost predicate Answered(c: Crypto, log: seq<Event>, b: nat) {
    && b < |log| && log[b].Begun? && Authentic(c, log[b].cfg, log[b].header)
    && exists a :: InForce(log, a, b, Nonce(log[b].header))
  }

  lemma EveryBeginAnswered(c: Crypto, log: seq<Event>, b: nat)
    requires Scan(c, log).Some? && b < |log| && log[b].Begun?
    ensures Answered(c, log, b)
  {
    hide Authentic, Genuine;
    ScanPrefix(c, log, b);
    ScanPrefix(c, log, b + 1);
    IssuedBy(c, log, b);
  }

  // A finish stages the image that the header of its own begin announced: sizes, decryption,
  // both digests, vectors and identity are those of that header and the ciphertext received.
  ghost predicate Vouched(c: Crypto, log: seq<Event>, n: nat) {
    && n < |log| && log[n].Finished? && Genuine(c, log[n].delivery)
    && var d := log[n].delivery;
       exists b :: UnderWay(log, b, n, Opening(d.cfg, d.transfer.header)) && Answered(c, log, b)
  }

  lemma EveryFinishVouched(c: Crypto, log: seq<Event>, n: nat)
    requires Scan(c, log).Some? && n < |log| && log[n].Finished?
    ensures Vouched(c, log, n)
  {
    hide Authentic, Genuine, Answered;
    ScanPrefix(c, log, n);
    ScanPrefix(c, log, n + 1);
    OpenedBy(c, log, n);
    var d := log[n].delivery;
    var b :| UnderWay(log, b, n, Opening(d.cfg, d.transfer.header));
    EveryBeginAnswered(c, log, b);
  }

  // Between a begin and a later one lies a fresh challenge.
  lemma FreshChallenge(c: Crypto, log: seq<Event>, i: nat, n: nat)
    requires Scan(c, log).Some? && i < n <= |log| && log[i].Begun?
    requires forall k :: i < k < n ==> !log[k].Challenged?
    ensures Scan(c, log[..n]).Some? && Scan(c, log[..n]).value.issued == None
    ensures n < |log| ==> !log[n].Begun?
  {
    hide Authentic, Genuine;
    IssuedBy(c, log, n);
    if n < |log| {
      ScanPrefix(c, log, n);
      ScanPrefix(c, log, n + 1);
    }
  }
}
