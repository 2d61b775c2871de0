/** Frames as the transport adapter serializes them: compact JSON without ASCII escaping
    (section 7 of RFC 8259 for the escapes). */
module JsonFrames {
  import opened Utf8

  // A value other than a string comes with the JSON text it prints as.
  datatype Value = Str(text: Text) | Other(json: Text)

  datatype Entry = Entry(key: Text, value: Value)

  // A dictionary in insertion order; its keys differ.
  type Frame = seq<Entry>

  // Text from an ASCII literal.
  function TextFrom(s: string): (t: Text)
    requires forall i :: 0 <= i < |s| ==> s[i] < 128 as char
    ensures |t| == |s|
  {
    if s == "" then [] else [s[0] as int] + TextFrom(s[1..])
  }

  // -- The encoding -----------------------------------------------------------

  function EscapePoint(p: Point): (t: Text)
    ensures t != []
  {
    if p == 0x22 || p == 0x5C then [0x5C, p]
    else if p == 0x08 then TextFrom("\\b")
    else if p == 0x09 then TextFrom("\\t")
    else if p == 0x0A then TextFrom("\\n")
    else if p == 0x0C then TextFrom("\\f")
    else if p == 0x0D then TextFrom("\\r")
    else if p < 0x20 then TextFrom("\\u00") + [Bytes.HexDigit(p / 16) as int, Bytes.HexDigit(p % 16) as int]
    else [p]
  }

  function Escape(t: Text): Text {
    if t == [] then [] else EscapePoint(t[0]) + Escape(t[1..])
  }

  function Quoted(t: Text): Text {
    [0x22] + Escape(t) + [0x22]
  }

  function ValueText(v: Value): Text {
    match v
    case Str(text) => Quoted(text)
    case Other(json) => json
  }

  function EntryText(e: Entry): Text {
    Quoted(e.key) + [0x3A] + ValueText(e.value)
  }

  function Members(f: Frame): Text {
    if f == [] then []
    else if |f| == 1 then EntryText(f[0])
    else EntryText(f[0]) + [0x2C] + Members(f[1..])
  }

  function EncodeFrame(f: Frame): Text {
    [0x7B] + Members(f) + [0x7D]
  }

  // len(encode_frame(f).encode())
  function FrameSize(f: Frame): nat {
    Utf8Size(EncodeFrame(f))
  }

  // -- How the size depends on the strings ----------------------------------------

  function EntrySize(e: Entry): nat {
    Utf8Size(EntryText(e))
  }

  // Each member with its comma.
  function Total(f: Frame): nat {
    if f == [] then 0 else EntrySize(f[0]) + 1 + Total(f[1..])
  }

  lemma SizeAppend(t: Text, u: Text)
    ensures Utf8Size(t + u) == Utf8Size(t) + Utf8Size(u)
  {
    EncodeAppend(t, u);
  }

  lemma OnePoint(p: Point)
    requires p < 0x80
    ensures Utf8Size([p]) == 1
  {
    assert Encode([p]) == EncodePoint(p) + [];
  }

  lemma {:induction false} MembersSize(f: Frame)
    requires f != []
    ensures Utf8Size(Members(f)) + 1 == Total(f)
  {
    if |f| == 1 {
      assert Total(f[1..]) == 0;
    } else {
      MembersSize(f[1..]);
      OnePoint(0x2C);
      SizeAppend(EntryText(f[0]) + [0x2C], Members(f[1..]));
      SizeAppend(EntryText(f[0]), [0x2C]);
    }
  }

  lemma FrameSizeIs(f: Frame)
    ensures FrameSize(f) == if f == [] then 2 else Total(f) + 1
  {
    OnePoint(0x7B);
    OnePoint(0x7D);
    SizeAppend([0x7B] + Members(f), [0x7D]);
    SizeAppend([0x7B], Members(f));
    if f != [] {
      MembersSize(f);
    }
  }

  lemma {:induction false} TotalUpdate(f: Frame, i: nat, e: Entry)
    requires i < |f|
    ensures Total(f[i := e]) == Total(f) - EntrySize(f[i]) + EntrySize(e)
  {
    if i == 0 {
      assert f[0 := e][1..] == f[1..];
    } else {
      assert f[i := e][1..] == f[1..][i - 1 := e];
      TotalUpdate(f[1..], i - 1, e);
    }
  }

  // Replacing one entry changes the size by the difference of the entries' sizes.
  lemma SizeUpdate(f: Frame, i: nat, e: Entry)
    requires i < |f|
    ensures FrameSize(f[i := e]) == FrameSize(f) - EntrySize(f[i]) + EntrySize(e)
  {
    FrameSizeIs(f);
    FrameSizeIs(f[i := e]);
    TotalUpdate(f, i, e);
  }

  function EscapedSize(t: Text): nat {
    Utf8Size(Escape(t))
  }

  lemma StringEntrySize(key: Text, t: Text)
    ensures EntrySize(Entry(key, Str(t))) == EscapedSize(key) + 5 + EscapedSize(t)
  {
    OnePoint(0x22);
    OnePoint(0x3A);
    QuotedSize(key);
    QuotedSize(t);
    SizeAppend(Quoted(key) + [0x3A], Quoted(t));
    SizeAppend(Quoted(key), [0x3A]);
  }

  lemma QuotedSize(t: Text)
    ensures Utf8Size(Quoted(t)) == EscapedSize(t) + 2
  {
    OnePoint(0x22);
    SizeAppend([0x22] + Escape(t), [0x22]);
    SizeAppend([0x22], Escape(t));
  }

  lemma {:induction false} EscapeAppend(t: Text, u: Text)
    ensures Escape(t + u) == Escape(t) + Escape(u)
  {
    if t == [] {
      assert t + u == u;
    } else {
      assert (t + u)[1..] == t[1..] + u;
      EscapeAppend(t[1..], u);
    }
  }

  // A longer prefix of a string takes more of the frame.
  lemma EscapedPrefixSize(t: Text, j: nat, k: nat)
    requires j < k <= |t|
    ensures EscapedSize(t[..j]) < EscapedSize(t[..k])
  {
    assert t[..k] == t[..j] + t[j..k];
    EscapeAppend(t[..j], t[j..k]);
    SizeAppend(Escape(t[..j]), Escape(t[j..k]));
    SizePositive(Escape(t[j..k]));
  }

  lemma SizePositive(t: Text)
    requires t != []
    ensures Utf8Size(t) > 0
  {
  }
}
