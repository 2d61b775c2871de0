/** The streaming receiver: authenticates an envelope, decrypts its body in place
    chunk by chunk, and hands the plaintext to the staging file. */
module OtaReceiving {
  import opened Outcomes
  import opened Bytes
  import opened CtrMode
  import opened OtaProtocol
  import opened StagedFile
  import M = IdentityMatcher

  // Which library and file-system calls of begin succeed.
  datatype BeginCalls = BeginCalls(authenticated: bool, keyed: bool, hashing: bool, granted: bool, removed: bool)

  // Which library and file-system calls of feed succeed. aesFailsAt is the index of
  // the byte whose keystream block cannot be computed.
  datatype FeedCalls = FeedCalls(
    wireHashed: bool, aesFailsAt: Option<nat>, plainHashed: bool, accepted: nat,
    hashesFinished: bool, finish: FinishCalls, removed: bool)

  predicate AllSucceed(f: FeedCalls, size: nat) {
    && f.wireHashed && f.aesFailsAt == None && f.plainHashed && f.accepted == size
    && f.hashesFinished && f.finish == FinishCalls(true, true, true, true)
  }

  // An open transfer: its header and the ciphertext fed so far.
  datatype Transfer = Transfer(header: Header, wire: seq<byte>)

  // A transfer that was completed: under which configuration, what came and what was staged.
  datatype Delivery = Delivery(cfg: Config, transfer: Transfer, image: seq<byte>)

  // The board's record of its receiver.
  datatype Event =
    | Challenged(nonce: Digest)
    | Begun(cfg: Config, header: Header)
    | Finished(delivery: Delivery)
    | Aborted

  datatype Verdict = Reject | Continue | Complete

  // The header and ciphertext received make the image an authentic and complete one.
  ghost predicate Genuine(c: Crypto, d: Delivery) {
    VerifiedBy(c, d.cfg, d.transfer.header, d.transfer.wire, d.image)
  }

  // A transfer that has begun: under which configuration, with which header.
  datatype Opening = Opening(cfg: Config, header: Header)

  datatype LogState = LogState(issued: Option<Digest>, open: Option<Opening>)

  ghost function Next(c: Crypto, st: LogState, e: Event): Option<LogState> {
    match e
    case Challenged(nonce) => Some(st.(issued := Some(nonce)))
    case Begun(cfg, h) =>
      if st.issued == Some(Nonce(h)) && st.open == None && Authentic(c, cfg, h)
      then Some(LogState(None, Some(Opening(cfg, h)))) else None
    case Finished(d) =>
      if st.open == Some(Opening(d.cfg, d.transfer.header)) && Genuine(c, d) then Some(st.(open := None)) else None
    case Aborted => if st.open.Some? then Some(st.(open := None)) else None
  }

  // Runs of receiver events that keep the protocol: a challenge admits at most one begin, by
  // an authentic header that answers it, and a begin is closed by exactly one abort or one
  // finish with a genuine image of that header.
  ghost function Scan(c: Crypto, log: seq<Event>): Option<LogState> {
    if log == [] then Some(LogState(None, None))
    else
      match Scan(c, log[..|log| - 1])
      case None => None
      case Some(st) => Next(c, st, log[|log| - 1])
  }

  // The images of the finished transfers, in order.
  function Deliveries(log: seq<Event>): seq<seq<byte>> {
    if log == [] then []
    else
      var last := log[|log| - 1];
      Deliveries(log[..|log| - 1]) + if last.Finished? then [last.delivery.image] else []
  }

  // The images a file held, in order.
  function Images(states: seq<Option<seq<byte>>>): seq<seq<byte>> {
    if states == [] then []
    else
      var last := states[|states| - 1];
      Images(states[..|states| - 1]) + if last.Some? then [last.value] else []
  }

  function PlainOf(c: Crypto, cfg: Config, t: Transfer): (p: seq<byte>)
    ensures |p| == |t.wire|
  {
    Plain(c, cfg, t.header, t.wire)
  }

  function DeliveryOf(c: Crypto, cfg: Config, t: Transfer): Delivery {
    Delivery(cfg, t, PlainOf(c, cfg, t))
  }

  function Extend(t: Transfer, chunk: seq<byte>): Transfer {
    t.(wire := t.wire + chunk)
  }

  lemma PlainExtend(c: Crypto, cfg: Config, t: Transfer, chunk: seq<byte>)
    ensures PlainOf(c, cfg, Extend(t, chunk)) ==
              PlainOf(c, cfg, t) + Ctr(c, EncKey(c, cfg.key), InitialCounter(t.header), |t.wire|, chunk)
  {
    CtrSplit(c, EncKey(c, cfg.key), InitialCounter(t.header), 0, t.wire, chunk);
  }

  predicate VectorsAccepted(plain: seq<byte>, size: nat) {
    |First8(plain)| == 8 ==> VectorsOk(First8(plain), size)
  }

  // What a chunk leads to when no call fails.
  function FeedVerdict(c: Crypto, cfg: Config, t: Transfer, chunk: seq<byte>): Verdict
    requires cfg.identity != []
  {
    var t' := Extend(t, chunk);
    var plain := PlainOf(c, cfg, t');
    var size := ImageSize(t.header);
    if chunk == [] || |t'.wire| > size || !VectorsAccepted(plain, size) then Reject
    else if |t'.wire| < size then Continue
    else if c.sha256(plain) == PlainDigest(t.header) && c.sha256(t'.wire) == WireDigest(t.header)
            && M.Run(cfg.identity, plain).found then Complete
    else Reject
  }

  // The receiver's per-transfer fields.
  datatype Progress = Progress(
    plainDigest: Digest, wireDigest: Digest,
    imageSize: nat, remaining: nat,
    vectors: seq<byte>,             // the first eight plaintext bytes, as they arrive
    identityMatch: M.Match,
    plainHashed: seq<byte>,         // what the running digests have absorbed
    wireHashed: seq<byte>)

  // The header's part of the fields.
  ghost predicate Announced(p: Progress, h: Header) {
    && p.plainDigest == PlainDigest(h) && p.wireDigest == WireDigest(h)
    && p.imageSize == ImageSize(h)
  }

  // The fields that follow the stream, after the ciphertext of t.
  ghost predicate Inspected(c: Crypto, cfg: Config, t: Transfer, p: Progress) {
    var plain := PlainOf(c, cfg, t);
    && cfg.identity != []
    && p.vectors == First8(plain) && VectorsAccepted(plain, p.imageSize)
    && p.identityMatch == M.Run(cfg.identity, plain)
    && p.plainHashed == plain && p.wireHashed == t.wire
  }

  // All fields during a transfer.
  ghost predicate Tracks(c: Crypto, cfg: Config, t: Transfer, p: Progress) {
    && Authentic(c, cfg, t.header) && Announced(p, t.header)
    && |t.wire| < p.imageSize && p.remaining == p.imageSize - |t.wire|
    && Inspected(c, cfg, t, p)
  }

  // The receiver's state against its event log.
  ghost predicate LogFits(c: Crypto, log: seq<Event>, nonce: Option<Digest>, open: Option<Opening>) {
    Scan(c, log).Some? && (nonce.Some? ==> Scan(c, log).value.issued == nonce) && Scan(c, log).value.open == open
  }

  // What each event does to a log that fits.
  lemma LogAppend(c: Crypto, log: seq<Event>, nonce: Option<Digest>, open: Option<Opening>, e: Event)
    requires LogFits(c, log, nonce, open)
    ensures match e
            case Challenged(n) => LogFits(c, log + [e], Some(n), open)
            case Begun(cfg, h) =>
              nonce == Some(Nonce(h)) && open == None && Authentic(c, cfg, h) ==>
                LogFits(c, log + [e], None, Some(Opening(cfg, h)))
            case Finished(d) =>
              open == Some(Opening(d.cfg, d.transfer.header)) && Genuine(c, d) ==> LogFits(c, log + [e], nonce, None)
            case Aborted => open.Some? ==> LogFits(c, log + [e], nonce, None)
    ensures Deliveries(log + [e]) == Deliveries(log) + if e.Finished? then [e.delivery.image] else []
  {
    hide Authentic, Genuine;
    assert (log + [e])[..|log|] == log;
  }

  lemma LogSpent(c: Crypto, log: seq<Event>, nonce: Option<Digest>, open: Option<Opening>)
    requires LogFits(c, log, nonce, open)
    ensures LogFits(c, log, None, open)
  {
  }

  lemma ImagesAppend(states: seq<Option<seq<byte>>>, image: seq<byte>)
    ensures Images(states + [None]) == Images(states)
    ensures Images(states + [None, Some(image)]) == Images(states) + [image]
  {
    assert (states + [None])[..|states|] == states;
    assert (states + [None, Some(image)])[..|states| + 1] == states + [None];
  }

  function First8(s: seq<byte>): seq<byte> { if |s| <= 8 then s else s[..8] }

  ghost predicate NonZero(s: seq<byte>) {
    exists i :: 0 <= i < |s| && s[i] != 0
  }

  lemma NonZeroAppend(s: seq<byte>, b: byte)
    ensures NonZero(s + [b]) <==> NonZero(s) || b != 0
  {
    var t := s + [b];
    if b != 0 {
      assert t[|s|] != 0;
    } else if NonZero(s) {
      var i :| 0 <= i < |s| && s[i] != 0;
      assert t[i] != 0;
    }
  }

  // Once configured, if only in the past.
  predicate Identified(cfg: Config) {
    (cfg.panel == 1 || cfg.panel == 2) && cfg.identity != [] && 0 !in cfg.identity
  }

  ghost predicate Provisioned(cfg: Config)
    ensures Provisioned(cfg) ==> Identified(cfg)
  {
    Identified(cfg) && NonZero(cfg.key)
  }

  class OtaReceiver {
    const crypto: Crypto
    var cfg: Config
    var configured: bool
    var nonce: Digest
    var issued: bool
    var complete: bool
    const sink: FileSink            // the board has one sink
    var active: bool                // _sink != nullptr
    const cipher: CtrStream
    var progress: Progress
    ghost var transfer: Option<Transfer>
    ghost var log: seq<Event>
    ghost const boot: seq<seq<byte>>  // the images UPDATE.BIN held before the receiver was made

    ghost predicate CipherAt(t: Transfer)
      reads this, cipher
    {
      cipher.key == EncKey(crypto, cfg.key) && cipher.iv == InitialCounter(t.header) && cipher.position == |t.wire|
    }

    // What holds even in the middle of a call.
    ghost predicate Base()
      reads this, cipher, cipher.counter, cipher.stream, sink
    {
      && cipher.Valid() && cipher.crypto == crypto
      && (configured ==> Provisioned(cfg))
      && (issued ==> Identified(cfg))
      && (complete ==> !active && sink.bin.Some?)
      && (transfer == None <==> !active)
      && LogFits(crypto, log, Outstanding(), Opened())
      && sink.Valid() && Images(sink.bins) == boot + Deliveries(log)
    }

    function Outstanding(): Option<Digest>
      reads this
    {
      if issued then Some(nonce) else None
    }

    ghost function Opened(): Option<Opening>
      reads this
    {
      if active && transfer.Some? then Some(Opening(cfg, transfer.value.header)) else None
    }

    ghost predicate Valid()
      reads this, cipher, cipher.counter, cipher.stream, sink
      ensures Valid() ==> Base() && (transfer.Some? <==> active) && (active ==> cfg.identity != [])
    {
      && Base()
      && (active ==>
        && CipherAt(transfer.value) && Tracks(crypto, cfg, transfer.value, progress)
        && sink.open && sink.part == Some(PlainOf(crypto, cfg, transfer.value)))
    }

    constructor (crypto: Crypto, sink: FileSink)
      requires sink.Valid()
      ensures Valid() && !configured && !active && !complete && log == []
      ensures fresh(cipher) && fresh(cipher.counter) && fresh(cipher.stream)
      ensures this.crypto == crypto && this.sink == sink && boot == Images(sink.bins)
    {
      this.crypto, this.sink := crypto, sink;
      cipher := new CtrStream(crypto);
      var zero: Digest := seq(32, _ => 0);
      cfg, nonce := Config(zero, 0, []), zero;
      configured, issued, complete, active := false, false, false, false;
      progress := Progress(zero, zero, 0, 0, [], M.START, [], []);
      transfer, log, boot := None, [], Images(sink.bins);
    }

    // Overwrites the key with the bytes spelled by 64 hexadecimal digits, up to the first
    // that is none; a key of zeros is refused once it is written.
    static method DecodeKey(text: string, key: Digest) returns (written: Digest, ok: bool)
      requires |text| == 64
      ensures ok <==> IsHex(text) && NonZero(FromHex(text))
      ensures ok ==> written == FromHex(text)
    {
      written := key;
      var any := false;
      var i := 0;
      while i < 32
        invariant 0 <= i <= 32
        invariant forall k :: 0 <= k < 2 * i ==> HexValue(text[k]).Some?
        invariant forall k :: 0 <= k < i ==>
          written[k] == HexValue(text[2 * k]).value * 16 + HexValue(text[2 * k + 1]).value
        invariant any <==> NonZero(written[..i])
      {
        var hi, lo := HexValue(text[2 * i]), HexValue(text[2 * i + 1]);
        if hi == None || lo == None {
          return written, false;
        }
        var b: byte := hi.value * 16 + lo.value;
        NonZeroAppend(written[..i], b);
        ghost var front := written[..i];
        written := written[i := b];
        assert written[..i + 1] == front + [b];
        any := any || b != 0;
        i := i + 1;
      }
      assert written[..i] == written == FromHex(text);
      ok := any;
    }

    // Null strings are None. A transfer under way would go on with the new identity from
    // the middle of the old one, so there must be none. A failure leaves the panel, the
    // identity and any outstanding challenge as they were, but not always the key.
    method Configure(keyHex: Option<string>, panel: byte, identity: Option<seq<byte>>) returns (ok: bool)
      requires Valid() && !active
      requires identity.Some? ==> 0 !in identity.value
      modifies this`configured, this`cfg
      ensures Valid() && ok == configured
      ensures ok <==>
        && keyHex.Some? && |keyHex.value| == 64 && IsHex(keyHex.value) && NonZero(FromHex(keyHex.value))
        && panel in {1, 2} && identity.Some? && identity.value != []
      ensures ok ==> cfg == Config(FromHex(keyHex.value), panel, identity.value)
      ensures !ok ==> cfg == old(cfg).(key := cfg.key)
    {
      hide LogFits, Images, Deliveries;
      configured := false;
      if keyHex == None || |keyHex.value| != 64 || (panel != 1 && panel != 2)
         || identity == None || identity.value == [] {
        return false;
      }
      var key, decoded := DecodeKey(keyHex.value, cfg.key);
      cfg := cfg.(key := key);
      if !decoded {
        return false;
      }
      cfg := Config(key, panel, identity.value);
      configured := true;
      return true;
    }

    method Challenge(nonce: Digest)
      requires Valid()
      modifies this`nonce, this`issued, this`log
      ensures Valid() && this.nonce == nonce && issued == configured
      ensures log == if configured then old(log) + [Challenged(nonce)] else old(log)
    {
      hide LogFits, Images, Deliveries, Tracks, PlainOf, Provisioned, EncKey, InitialCounter, CtrStream.Valid;
      LogSpent(crypto, log, Outstanding(), Opened());
      this.nonce := nonce;
      issued := configured;
      if configured {
        LogAppend(crypto, log, old(Outstanding()), Opened(), Challenged(nonce));
        log := log + [Challenged(nonce)];
      }
    }

    // A tag on a status response, from a configured receiver only.
    method Sign(data: seq<byte>, hmacOk: bool) returns (tag: Option<Digest>)
      ensures tag.Some? <==> configured && hmacOk
      ensures tag.Some? ==> tag.value == crypto.hmac(AuthKey(crypto, cfg.key), data)
    {
      if !configured || !hmacOk {
        return None;
      }
      var authKey := AuthKey(crypto, cfg.key);
      return Some(crypto.hmac(authKey, data));
    }

    method Abort(removed: bool)
      requires Base()
      modifies this`active, this`progress, this`complete, this`transfer, this`log, sink
      ensures Valid() && !active && !complete && progress == old(progress).(remaining := 0)
      ensures log == if old(active) then old(log) + [Aborted] else old(log)
      ensures sink.bin == old(sink.bin) && sink.bins == old(sink.bins)
    {
      hide Provisioned, CtrStream.Valid, LogFits, Images, Deliveries;
      if active {
        sink.Abort(removed);
        LogAppend(crypto, log, Outstanding(), Opened(), Aborted);
        log := log + [Aborted];
      }
      active, transfer := false, None;
      progress := progress.(remaining := 0);
      complete := false;
    }

    // The header answers the outstanding challenge and authenticates.
    predicate Admissible(header: Header)
      reads this
    {
      !active && issued && Nonce(header) == nonce && Authentic(crypto, cfg, header)
    }

    static method ReadSize(header: Header) returns (size: nat)
      ensures size == ImageSize(header)
    {
      size := 0;
      var i := 9;
      while i < 13
        invariant 9 <= i <= 13 && size == BigEndian(header[9..i])
      {
        assert header[9..i + 1][..i - 9] == header[9..i];
        size := size * 256 + header[i];
        i := i + 1;
      }
    }

    // The checks made before the challenge is consumed, in the code's order.
    method Check(header: Header, authenticated: bool) returns (ok: bool)
      ensures ok == (Admissible(header) && authenticated)
    {
      if active || !issued || header[..8] != MAGIC || header[8] != cfg.panel || Nonce(header) != nonce {
        return false;
      }
      var size := ReadSize(header);
      if size < MIN_IMAGE || size > MAX_IMAGE {
        return false;
      }
      return authenticated && crypto.hmac(AuthKey(crypto, cfg.key), header[..109]) == Tag(header);
    }

    // Opens the staging file for an announced transfer.
    method Open(header: Header, calls: BeginCalls) returns (ok: bool)
      requires Base() && !active && transfer == None && !complete
      requires !issued && LogFits(crypto, log, Some(Nonce(header)), None) && Authentic(crypto, cfg, header)
      requires CipherAt(Transfer(header, [])) && Tracks(crypto, cfg, Transfer(header, []), progress)
      modifies this`log, this`active, this`transfer, this`progress, sink
      ensures Valid()
      ensures ok == calls.granted
      ensures ok ==> active && transfer == Some(Transfer(header, [])) && log == old(log) + [Begun(cfg, header)]
      ensures !ok ==> !active && log == old(log) + [Begun(cfg, header), Aborted]
      ensures sink.bin == old(sink.bin) && sink.bins == old(sink.bins)
    {
      hide Tracks, PlainOf, Provisioned, Authentic, EncKey, InitialCounter, CtrStream.Valid;
      hide LogFits, Images, Deliveries;
      assert PlainOf(crypto, cfg, Transfer(header, [])) == [];
      LogAppend(crypto, log, Some(Nonce(header)), None, Begun(cfg, header));
      ok := sink.Begin(calls.granted);
      if ok {
        log := log + [Begun(cfg, header)];
        active, transfer := true, Some(Transfer(header, []));
      } else {
        sink.Abort(calls.removed);
        LogAppend(crypto, log + [Begun(cfg, header)], None, Some(Opening(cfg, header)), Aborted);
        assert log + [Begun(cfg, header)] + [Aborted] == log + [Begun(cfg, header), Aborted];
        log := log + [Begun(cfg, header), Aborted];
        progress := progress.(remaining := 0);
      }
    }

    method Begin(header: Header, calls: BeginCalls) returns (ok: bool)
      requires Valid()
      modifies this`issued, this`complete, this`log, this`active, this`transfer, this`progress,
               cipher, cipher.counter, cipher.stream, sink
      ensures Valid()
      ensures ok == (old(Admissible(header)) && calls.authenticated && calls.keyed && calls.hashing && calls.granted)
      ensures ok ==> active && transfer == Some(Transfer(header, [])) && !complete
      ensures ok ==> log == old(log) + [Begun(cfg, header)]
      ensures !ok ==> active == old(active) && transfer == old(transfer)
      ensures !ok ==> (log == old(log) || log == old(log) + [Begun(cfg, header), Aborted])
      ensures old(Admissible(header)) && calls.authenticated ==> !issued
      ensures !(old(Admissible(header)) && calls.authenticated) ==>
        issued == old(issued) && log == old(log)
      ensures complete == (old(complete) && !(old(Admissible(header)) && calls.authenticated && calls.keyed))
      ensures sink.bin == old(sink.bin) && sink.bins == old(sink.bins)
    {
      hide VectorsOk, M.Run, PlainOf, EncKey, InitialCounter, CtrStream.Valid, LogFits, Images, Deliveries;
      ok := Check(header, calls.authenticated);
      if !ok {
        return;
      }
      LogSpent(crypto, log, Outstanding(), Opened());
      // From here on the challenge is spent.
      issued := false;
      if !calls.keyed {
        return false;
      }
      cipher.Start(EncKey(crypto, cfg.key), InitialCounter(header));
      var size := ReadSize(header);
      Fresh(crypto, cfg, header);
      progress := Progress(PlainDigest(header), WireDigest(header), size, size, [], M.START, [], []);
      complete := false;
      if !calls.hashing {
        return false;
      }
      ok := Open(header, calls);
    }

    // Keeps the first eight bytes of the stream.
    static method Latch(latched: seq<byte>, data: seq<byte>, ghost plain: seq<byte>) returns (vectors: seq<byte>)
      requires latched == First8(plain)
      ensures vectors == First8(plain + data)
    {
      vectors := latched;
      var i := 0;
      assert plain + data[..0] == plain;
      while i < |data| && |vectors| < 8
        invariant 0 <= i <= |data| && vectors == First8(plain + data[..i])
        invariant |vectors| < 8 ==> |plain| + i < 8
      {
        assert plain + data[..i + 1] == plain + data[..i] + [data[i]];
        vectors := vectors + [data[i]];
        i := i + 1;
      }
      if i < |data| {
        assert (plain + data)[..8] == (plain + data[..i])[..8];
      } else {
        assert data[..i] == data;
      }
    }

    // The two little-endian words of the vector table.
    static method ReadVectors(vectors: seq<byte>) returns (stack: nat, reset: nat)
      requires |vectors| == 8
      ensures stack == LittleEndian(vectors, 0, 4) && reset == LittleEndian(vectors, 4, 4)
    {
      stack, reset := 0, 0;
      var i := 3;
      while i >= 0
        invariant -1 <= i <= 3
        invariant stack == LittleEndian(vectors, i + 1, 3 - i) && reset == LittleEndian(vectors, i + 5, 3 - i)
      {
        stack := stack * 256 + vectors[i];
        reset := reset * 256 + vectors[i + 4];
        i := i - 1;
      }
    }

    static method CheckVectors(vectors: seq<byte>, size: nat) returns (ok: bool)
      requires |vectors| == 8
      ensures ok == VectorsOk(vectors, size)
    {
      var stack, reset := ReadVectors(vectors);
      ok := !(stack <= STACK_LOW || stack > STACK_HIGH || stack % 8 != 0 || reset % 2 == 0
              || reset < APP_START || reset >= APP_START + size);
    }

    // Runs the identity matcher over data until it has found the identity.
    static method Match(identity: seq<byte>, start: M.Match, data: seq<byte>, ghost plain: seq<byte>)
      returns (m: M.Match)
      requires identity != [] && start == M.Run(identity, plain)
      ensures m == M.Run(identity, plain + data)
    {
      hide M.Run;
      m := start;
      var i := 0;
      assert plain + data[..0] == plain;
      while i < |data| && !m.found
        invariant 0 <= i <= |data| && m == M.Run(identity, plain + data[..i])
      {
        M.RunOneMore(identity, plain + data[..i], data[i]);
        assert plain + data[..i] + [data[i]] == plain + data[..i + 1];
        var matched :=
          if data[i] == identity[m.matched] then m.matched + 1 else if data[i] == identity[0] then 1 else 0;
        m := M.Match(matched, matched == |identity|);
        i := i + 1;
      }
      if m.found {
        M.FoundStays(identity, plain + data[..i], data[i..]);
        assert plain + data[..i] + data[i..] == plain + data;
      } else {
        assert data[..i] == data;
      }
    }

    // Hashes, decrypts and inspects one chunk of the open transfer t.
    method Absorb(data: array<byte>, size: nat, f: FeedCalls, ghost t: Transfer) returns (ok: bool)
      requires cipher.Valid() && cipher.crypto == crypto && CipherAt(t)
      requires Inspected(crypto, cfg, t, progress)
      requires size <= data.Length && data != cipher.counter && data != cipher.stream
      modifies this`progress, cipher, cipher.counter, cipher.stream, data
      ensures cipher.Valid() && data[size..] == old(data[size..])
      ensures var t' := Extend(t, old(data[..size]));
              && (ok ==> CipherAt(t') && Inspected(crypto, cfg, t', progress))
              && (ok ==> PlainOf(crypto, cfg, t') == PlainOf(crypto, cfg, t) + data[..size])
              && (AllSucceed(f, size) && VectorsAccepted(PlainOf(crypto, cfg, t'), progress.imageSize) ==> ok)
      ensures progress == old(progress).(vectors := progress.vectors, identityMatch := progress.identityMatch,
                plainHashed := progress.plainHashed, wireHashed := progress.wireHashed)
    {
      hide Ctr, Plain, PlainOf, M.Run, VectorsOk, CtrStream.Valid;
      if !f.wireHashed {
        return false;
      }
      ghost var before := PlainOf(crypto, cfg, t);
      PlainExtend(crypto, cfg, t, data[..size]);
      var wireHashed := progress.wireHashed + data[..size];
      ok := cipher.Apply(data, size, f.aesFailsAt);
      if !ok || !f.plainHashed {
        return false;
      }
      var vectors := Latch(progress.vectors, data[..size], before);
      if |vectors| == 8 {
        ok := CheckVectors(vectors, progress.imageSize);
        if !ok {
          return;
        }
      }
      var m := Match(cfg.identity, progress.identityMatch, data[..size], before);
      progress := progress.(vectors := vectors, identityMatch := m,
        plainHashed := progress.plainHashed + data[..size], wireHashed := wireHashed);
    }

    // The digest and identity checks on a completely received body.
    method Confirm(hashesFinished: bool) returns (ok: bool)
      ensures ok == (hashesFinished && Confirmed(crypto, progress))
    {
      return hashesFinished && crypto.sha256(progress.plainHashed) == progress.plainDigest
             && crypto.sha256(progress.wireHashed) == progress.wireDigest && progress.identityMatch.found;
    }

    // The end of a transfer whose whole body is written.
    method Conclude(f: FeedCalls, ghost d: Delivery) returns (ok: bool)
      requires Base() && active && sink.open && sink.part == Some(d.image)
      requires d.cfg == cfg && d.transfer.header == transfer.value.header
      requires Confirmed(crypto, progress) ==> Genuine(crypto, d)
      modifies this`progress, this`complete, this`active, this`transfer, this`log, sink
      ensures Valid() && !active && ok == complete
      ensures progress.imageSize == old(progress.imageSize)
      ensures ok ==
        (f.hashesFinished && Confirmed(crypto, old(progress)) && f.finish == FinishCalls(true, true, true, true))
      ensures ok ==> log == old(log) + [Finished(d)]
      ensures ok ==> sink.bin == Some(d.image) && sink.bins == old(sink.bins) + [None, sink.bin]
      ensures !ok ==> log == old(log) + [Aborted] && NoNewImage(old(sink.bin), old(sink.bins), sink.bin, sink.bins)
    {
      hide Provisioned, CtrStream.Valid, CipherAt, Tracks, PlainOf, Confirmed, LogFits, Images, Deliveries, Genuine;
      ImagesAppend(sink.bins, d.image);
      ok := Confirm(f.hashesFinished);
      if ok {
        ok := sink.Finish(f.finish);
      }
      if !ok {
        Abort(f.removed);
        return;
      }
      LogAppend(crypto, log, Outstanding(), Opened(), Finished(d));
      log := log + [Finished(d)];
      active, transfer := false, None;
      complete := true;
    }

    // Writes an absorbed chunk; t is the transfer up to and including it.
    method Deliver(data: seq<byte>, f: FeedCalls, ghost t: Transfer) returns (ok: bool)
      requires Base() && active && CipherAt(t) && transfer.value.header == t.header
      requires Authentic(crypto, cfg, t.header) && Announced(progress, t.header) && Inspected(crypto, cfg, t, progress)
      requires |data| <= progress.remaining && progress.remaining == progress.imageSize - (|t.wire| - |data|)
      requires f.accepted <= |data|
      requires sink.open && sink.part.Some? && PlainOf(crypto, cfg, t) == sink.part.value + data
      modifies this`progress, this`complete, this`active, this`transfer, this`log, sink
      ensures Valid()
      ensures |t.wire| < old(progress).imageSize ==>
        && ok == (f.accepted == |data|)
        && (ok ==> active && transfer == Some(t) && log == old(log))
        && (ok ==> sink.bin == old(sink.bin) && sink.bins == old(sink.bins))
      ensures |t.wire| == old(progress).imageSize ==>
        && ok == complete
        && ok == (f.accepted == |data| && f.hashesFinished && Confirmed(crypto, old(progress))
                  && f.finish == FinishCalls(true, true, true, true))
        && (ok ==> !active && log == old(log) + [Finished(DeliveryOf(crypto, cfg, t))])
        && (ok ==> sink.bin == Some(PlainOf(crypto, cfg, t)) && sink.bins == old(sink.bins) + [None, sink.bin])
        && (ok ==> VerifiedBy(crypto, cfg, t.header, t.wire, PlainOf(crypto, cfg, t)))
      ensures !ok ==> !active && !complete && log == old(log) + [Aborted]
      ensures !ok ==> NoNewImage(old(sink.bin), old(sink.bins), sink.bin, sink.bins)
    {
      hide Authentic, PlainOf, Provisioned, EncKey, InitialCounter, CtrStream.Valid, VectorsAccepted, First8, M.Run;
      hide LogFits, Images, Deliveries;
      ok := sink.Write(data, f.accepted);
      if !ok {
        Abort(f.removed);
        return;
      }
      assert data[..|data|] == data;
      progress := progress.(remaining := progress.remaining - |data|);
      if progress.remaining == 0 {
        ghost var d := DeliveryOf(crypto, cfg, t);
        if Confirmed(crypto, progress) {
          ConfirmedIsVerified(crypto, cfg, t, progress);
        }
        ok := Conclude(f, d);
      } else {
        transfer := Some(t);
      }
    }

    method Feed(data: array<byte>, size: nat, f: FeedCalls) returns (ok: bool)
      requires Valid() && size <= data.Length && f.accepted <= size
      requires data != cipher.counter && data != cipher.stream
      modifies this`progress, this`complete, this`active, this`transfer, this`log,
               cipher, cipher.counter, cipher.stream, data, sink
      ensures Valid() && data[size..] == old(data[size..])
      ensures old(log) <= log && old(sink.bins) <= sink.bins
      ensures !old(active) ==>
        !ok && !active && !complete && log == old(log) && sink.bin == old(sink.bin) && sink.bins == old(sink.bins)
      ensures old(active) ==>
        var t := old(transfer).value;
        var t' := Extend(t, old(data[..size]));
        var v := FeedVerdict(crypto, cfg, t, old(data[..size]));
        && (ok ==> v != Reject && PlainOf(crypto, cfg, t') == PlainOf(crypto, cfg, t) + data[..size])
        && (AllSucceed(f, size) && v != Reject ==> ok)
        && (ok && v == Continue ==>
              && active && !complete && transfer == Some(t') && log == old(log)
              && sink.bin == old(sink.bin) && sink.bins == old(sink.bins))
        && (ok && v == Complete ==>
              && !active && complete && log == old(log) + [Finished(DeliveryOf(crypto, cfg, t'))]
              && sink.bin == Some(PlainOf(crypto, cfg, t')) && sink.bins == old(sink.bins) + [None, sink.bin]
              && VerifiedBy(crypto, cfg, t.header, t'.wire, PlainOf(crypto, cfg, t')))
        && (!ok ==>
              && !active && !complete && log == old(log) + [Aborted]
              && NoNewImage(old(sink.bin), old(sink.bins), sink.bin, sink.bins))
    {
      hide Authentic, Plain, PlainOf, Provisioned, EncKey, InitialCounter, CtrStream.Valid, VectorsAccepted;
      hide First8, M.Run;
      if !active || size == 0 || size > progress.remaining {
        Abort(f.removed);
        return false;
      }
      ghost var t := transfer.value;
      ghost var t' := Extend(t, data[..size]);
      ok := Absorb(data, size, f, t);
      if !ok {
        Abort(f.removed);
        return;
      }
      ghost var seen := progress;
      VerdictOf(crypto, cfg, t, old(data[..size]), seen);
      ok := Deliver(data[..size], f, t');
    }
  }

  // UPDATE.BIN is as before, or only removed.
  ghost predicate NoNewImage(bin: Option<seq<byte>>, bins: seq<Option<seq<byte>>>,
                             bin': Option<seq<byte>>, bins': seq<Option<seq<byte>>>)
    ensures NoNewImage(bin, bins, bin', bins') ==> bins <= bins' && (bin' == bin || bin' == None)
  {
    (bins' == bins && bin' == bin) || (bins' == bins + [None] && bin' == None)
  }

  predicate Confirmed(c: Crypto, p: Progress) {
    c.sha256(p.plainHashed) == p.plainDigest && c.sha256(p.wireHashed) == p.wireDigest && p.identityMatch.found
  }

  // The verdict on a chunk, read off the fields after inspecting it.
  lemma VerdictOf(c: Crypto, cfg: Config, t: Transfer, chunk: seq<byte>, p: Progress)
    requires chunk != [] && |t.wire| + |chunk| <= p.imageSize
    requires Announced(p, t.header) && Inspected(c, cfg, Extend(t, chunk), p)
    ensures FeedVerdict(c, cfg, t, chunk) ==
              if |t.wire| + |chunk| < p.imageSize then Continue
              else if Confirmed(c, p) then Complete else Reject
  {
  }

  lemma ConfirmedIsVerified(c: Crypto, cfg: Config, t: Transfer, p: Progress)
    requires Authentic(c, cfg, t.header) && Announced(p, t.header) && Inspected(c, cfg, t, p)
    requires |t.wire| == p.imageSize && Confirmed(c, p)
    ensures VerifiedBy(c, cfg, t.header, t.wire, PlainOf(c, cfg, t))
  {
    M.FoundIsReal(cfg.identity, PlainOf(c, cfg, t));
  }

  // The fields before the first byte.
  lemma Fresh(c: Crypto, cfg: Config, h: Header)
    requires Authentic(c, cfg, h) && cfg.identity != []
    ensures Tracks(c, cfg, Transfer(h, []),
              Progress(PlainDigest(h), WireDigest(h), ImageSize(h), ImageSize(h), [], M.START, [], []))
  {
  }
}
