/** The authenticated update envelope: its layout, what the receiver requires of
    it, and the host-side packager that produces it. */
module OtaProtocol {
  import opened Outcomes
  import opened Bytes
  import opened CtrMode
  import IdentityMatcher

  const HEADER_SIZE := 141
  const MIN_IMAGE := 256
  // Where the larger core's program may lie; the rest of the flash is the smaller core's.
  const APP_START := 0x08040000
  const MAX_IMAGE := 0x08180000 - 0x08040000
  const STACK_LOW := 0x24000000
  const STACK_HIGH := 0x24080000

  const MAGIC: seq<byte> := Ascii("HPOTA1U\n")
  const STATUS_MAGIC: seq<byte> := Ascii("HPOTA1S\n")
  const AUTH_LABEL: seq<byte> := Ascii("housepanel-ota-authentication-v1")
  const ENC_LABEL: seq<byte> := Ascii("housepanel-ota-encryption-v1")

  // What a configured receiver knows about itself.
  datatype Config = Config(key: Digest, panel: byte, identity: seq<byte>)

  function AuthKey(c: Crypto, key: Digest): Digest { c.hmac(key, AUTH_LABEL) }

  function EncKey(c: Crypto, key: Digest): Digest { c.hmac(key, ENC_LABEL) }

  // Envelope fields.
  type Header = h: seq<byte> | |h| == HEADER_SIZE witness seq(HEADER_SIZE, _ => 0)

  function ImageSize(h: Header): nat { BigEndian(h[9..13]) }

  function Nonce(h: Header): Digest { h[13..45] }

  function InitialCounter(h: Header): Block { h[13..29] }

  function PlainDigest(h: Header): Digest { h[45..77] }

  function WireDigest(h: Header): Digest { h[77..109] }

  function Tag(h: Header): Digest { h[109..141] }

  // Bounds on the initial stack pointer and the reset handler.
  predicate VectorsOk(vectors: seq<byte>, size: nat)
    requires |vectors| == 8
  {
    var stack, reset := LittleEndian(vectors, 0, 4), LittleEndian(vectors, 4, 4);
    && STACK_LOW < stack <= STACK_HIGH && stack % 8 == 0
    && reset % 2 == 1 && APP_START <= reset < APP_START + size
  }

  // The header carries this panel's number, an admissible size and a valid tag.
  predicate Authentic(c: Crypto, cfg: Config, h: Header) {
    && h[..8] == MAGIC
    && h[8] == cfg.panel
    && MIN_IMAGE <= ImageSize(h) <= MAX_IMAGE
    && Tag(h) == c.hmac(AuthKey(c, cfg.key), h[..109])
  }

  // The bytes that the sink is given for the ciphertext received so far.
  function Plain(c: Crypto, cfg: Config, h: Header, wire: seq<byte>): (p: seq<byte>)
    ensures |p| == |wire|
  {
    Ctr(c, EncKey(c, cfg.key), InitialCounter(h), 0, wire)
  }

  // Everything the firmware promises about an image it installs.
  ghost predicate VerifiedBy(c: Crypto, cfg: Config, h: Header, wire: seq<byte>, image: seq<byte>) {
    && Authentic(c, cfg, h)
    && image == Plain(c, cfg, h, wire)
    && |image| == ImageSize(h)
    && c.sha256(image) == PlainDigest(h)
    && c.sha256(wire) == WireDigest(h)
    && VectorsOk(image[..8], |image|)
    && Contains(image, cfg.identity)
  }

  // What the eight bytes mean, and what they must.
  lemma VectorsAre(v: seq<byte>, size: nat)
    requires |v| == 8
    ensures var stack := v[0] + v[1] as int * 0x100 + v[2] as int * 0x1_0000 + v[3] as int * 0x100_0000;
            var reset := v[4] + v[5] as int * 0x100 + v[6] as int * 0x1_0000 + v[7] as int * 0x100_0000;
            VectorsOk(v, size) <==>
              && 0x24000000 < stack <= 0x24080000 && stack % 8 == 0
              && reset % 2 == 1 && 0x08040000 <= reset < 0x08040000 + size
  {
    FourBytes(v[..4]);
    FourBytes(v[4..]);
    LittlePart(v, v[..4], 0, 0, 4);
    LittlePart(v, v[4..], 4, 0, 4);
  }

  lemma {:induction false} LittlePart(v: seq<byte>, part: seq<byte>, at: nat, i: nat, n: nat)
    requires at + |part| <= |v| && part == v[at..at + |part|] && i + n <= |part|
    ensures LittleEndian(v, at + i, n) == LittleEndian(part, i, n)
    decreases n
  {
    if n > 0 {
      LittlePart(v, part, at, i + 1, n - 1);
    }
  }

  // Written out: where each field lies in the header and what it must be, how the image comes
  // from the ciphertext, and what must be in it.
  lemma VerifiedIs(c: Crypto, cfg: Config, h: Header, wire: seq<byte>, image: seq<byte>)
    ensures VerifiedBy(c, cfg, h, wire, image) <==>
      && h[..8] == Ascii("HPOTA1U\n") && h[8] == cfg.panel
      && |image| == h[9] as int * 0x100_0000 + h[10] as int * 0x1_0000 + h[11] as int * 0x100 + h[12]
      && 256 <= |image| <= 0x14_0000
      && h[109..] == c.hmac(c.hmac(cfg.key, AUTH_LABEL), h[..109])
      && c.sha256(image) == h[45..77] && c.sha256(wire) == h[77..109]
      && Deciphered(c, c.hmac(cfg.key, ENC_LABEL), h[13..29], wire, image)
      && VectorsOk(image[..8], |image|)
      && exists at :: OccursAt(image, cfg.identity, at)
  {
    hide VectorsOk, Deciphered, Ctr, BigEndian, AUTH_LABEL, ENC_LABEL, OccursAt;
    var size := h[9..13];
    FourBytes(size);
    assert h[109..] == h[109..141];
    DecipheredIsCtr(c, EncKey(c, cfg.key), InitialCounter(h), wire, image);
  }

  // -- Host side ----------------------------------------------------------

  datatype Panel = Primary | Panel2

  function PanelNumber(p: Panel): byte { if p.Primary? then 1 else 2 }

  const PRIMARY_IDENTITY := "HousePanel identity:primary:housepanel:end"
  const PANEL2_IDENTITY := "HousePanel identity:panel-2:housepanel-2:end"

  function Identity(p: Panel): seq<byte> {
    Ascii(if p.Primary? then PRIMARY_IDENTITY else PANEL2_IDENTITY)
  }

  datatype EnvelopeError = InvalidChallenge | InvalidImage | UnsupportedImage

  datatype Envelope = Envelope(header: Header, wire: seq<byte>)

  function UnsignedHeader(p: Panel, size: nat, nonce: Digest, plain: Digest, wire: Digest): (h: seq<byte>)
    ensures |h| == 109
  {
    assert |MAGIC| == 8;
    MAGIC + [PanelNumber(p)] + ToBigEndian(size, 4) + nonce + plain + wire
  }

  // The packager: refuses what the panel would refuse, encrypts and signs the rest.
  ghost function Pack(c: Crypto, p: Panel, challenge: string, image: seq<byte>, secret: Digest)
    : Result<Envelope, EnvelopeError>
  {
    if !(|challenge| == 64 && IsHex(challenge)) then Err(InvalidChallenge)
    else if !(MIN_IMAGE <= |image| <= MAX_IMAGE && Contains(image, Identity(p))) then Err(InvalidImage)
    else if !VectorsOk(image[..8], |image|) then Err(UnsupportedImage)
    else
      var nonce: Digest := FromHex(challenge);
      var wire := NistCtr(c, EncKey(c, secret), nonce[..16], image);
      var unsigned := UnsignedHeader(p, |image|, nonce, c.sha256(image), c.sha256(wire));
      Ok(Envelope(unsigned + c.hmac(AuthKey(c, secret), unsigned), wire))
  }

  // The first letter occurs nowhere else, nor does a NUL.
  predicate UniqueStart(text: string) {
    text != "" && text[0] != 0 as char && forall i :: 0 < i < |text| ==> text[i] != text[0] && text[i] != 0 as char
  }

  lemma PrimaryStart()
    ensures UniqueStart(PRIMARY_IDENTITY)
  {
  }

  lemma Panel2Start()
    ensures UniqueStart(PANEL2_IDENTITY)
  {
  }

  lemma ShippedIdentities(p: Panel)
    ensures Identity(p) != [] && 0 !in Identity(p)
    ensures !IdentityMatcher.HasStrongBorder(Identity(p))
  {
    PrimaryStart();
    Panel2Start();
    hide IdentityMatcher.HasStrongBorder;
    IdentityMatcher.UniqueFirstByte(Identity(p));
  }

  // Not so for a host name HoX: "HousePanel identity:primary:HoX:end" is contained in
  // "HousePanel identity:primary:HousePanel identity:primary:HoX:end", and not seen.
  lemma UnluckyIdentity()
    ensures var start, middle, rest := Ascii("Ho"), Ascii("usePanel identity:primary:"), Ascii("X:end");
      var id, image := start + middle + start + rest, start + middle + start + middle + start + rest;
      IdentityMatcher.HasStrongBorder(id) && Contains(image, id) && !IdentityMatcher.Run(id, image).found
  {
    var start, middle, rest := Ascii("Ho"), Ascii("usePanel identity:primary:"), Ascii("X:end");
    assert middle[0] == 'u' as int && rest[0] == 'X' as int;
    IdentityMatcher.RepeatedStartIsMissed(start, middle, rest);
  }

  // Every field of a packed header is found where the receiver looks for it.
  lemma PackedFields(c: Crypto, p: Panel, challenge: string, image: seq<byte>, secret: Digest)
    requires Pack(c, p, challenge, image, secret).Ok?
    ensures var e := Pack(c, p, challenge, image, secret).value;
            && ImageSize(e.header) == |image| == |e.wire|
            && Nonce(e.header) == FromHex(challenge)
            && PlainDigest(e.header) == c.sha256(image)
            && WireDigest(e.header) == c.sha256(e.wire)
            && Authentic(c, Config(secret, PanelNumber(p), Identity(p)), e.header)
            && Plain(c, Config(secret, PanelNumber(p), Identity(p)), e.header, e.wire) == image
  {
    var e := Pack(c, p, challenge, image, secret).value;
    var nonce: Digest := FromHex(challenge);
    var unsigned := UnsignedHeader(p, |image|, nonce, c.sha256(image), c.sha256(e.wire));
    HeaderFields(p, |image|, nonce, c.sha256(image), c.sha256(e.wire), c.hmac(AuthKey(c, secret), unsigned));
    var key, iv := EncKey(c, secret), nonce[..16];
    CtrIsNist(c, key, iv, 0, iv, image);
    CtrInvolution(c, key, iv, 0, image);
  }

  // What the packager refuses, in its order, and that it refuses nothing else.
  lemma PackRefuses(c: Crypto, p: Panel, challenge: string, image: seq<byte>, secret: Digest)
    ensures var spelled := |challenge| == 64 && forall i :: 0 <= i < 64 ==> challenge[i] in "0123456789abcdef";
            var admissible := 256 <= |image| <= 0x14_0000 && exists at :: OccursAt(image, Identity(p), at);
            match Pack(c, p, challenge, image, secret)
            case Err(InvalidChallenge) => !spelled
            case Err(InvalidImage) => spelled && !admissible
            case Err(UnsupportedImage) => spelled && admissible && !VectorsOk(image[..8], |image|)
            case Ok(_) => spelled && admissible && VectorsOk(image[..8], |image|)
  {
    hide VectorsOk, Identity, NistCtr, UnsignedHeader, HexValue;
    SpelledIsHex(challenge);
  }

  lemma SpelledIsHex(s: string)
    ensures IsHex(s) <==> |s| % 2 == 0 && forall i :: 0 <= i < |s| ==> s[i] in "0123456789abcdef"
  {
    forall i | 0 <= i < |s|
      ensures HexValue(s[i]).Some? <==> s[i] in "0123456789abcdef"
    {
      if HexValue(s[i]).Some? {
        HexValueIs(s[i], HexValue(s[i]).value);
      } else if s[i] in "0123456789abcdef" {
        var v :| 0 <= v < 16 && "0123456789abcdef"[v] == s[i];
        HexValueIs(s[i], v);
      }
    }
  }

  // A packed envelope announces, signs and encrypts its image as the panel verifies it, under
  // the challenge's bytes.
  lemma PackedIsVerified(c: Crypto, p: Panel, challenge: string, image: seq<byte>, secret: Digest)
    requires Pack(c, p, challenge, image, secret).Ok?
    ensures var e := Pack(c, p, challenge, image, secret).value;
            && VerifiedBy(c, Config(secret, PanelNumber(p), Identity(p)), e.header, e.wire, image)
            && IsHex(challenge) && e.header[13..45] == FromHex(challenge)
            && e.header[8] == if p.Primary? then 1 else 2
  {
    hide VectorsOk, Identity, NistCtr, UnsignedHeader;
    PackedFields(c, p, challenge, image, secret);
  }

  lemma HeaderFields(p: Panel, size: nat, nonce: Digest, plain: Digest, wire: Digest, tag: Digest)
    requires size <= MAX_IMAGE
    ensures var h: Header := UnsignedHeader(p, size, nonce, plain, wire) + tag;
            && h[..8] == MAGIC && h[8] == PanelNumber(p) && ImageSize(h) == size
            && Nonce(h) == nonce && InitialCounter(h) == nonce[..16]
            && PlainDigest(h) == plain && WireDigest(h) == wire && Tag(h) == tag
            && h[..109] == UnsignedHeader(p, size, nonce, plain, wire)
  {
    var u := UnsignedHeader(p, size, nonce, plain, wire);
    var h := u + tag;
    assert h[..109] == u && h[109..141] == tag;
    assert |MAGIC| == 8;
    assert h[9..13] == ToBigEndian(size, 4);
    Pow256Add(2, 2);
    assert Pow256(2) == 65536;
    BigEndianOfDigits(size, 4);
    assert h[13..45] == nonce && h[13..29] == nonce[..16];
    assert h[45..77] == plain && h[77..109] == wire;
  }
}
