/** Reading frames: a JSON reader of its own (sections 4 to 7 of RFC 8259), which gives every
    frame back from its encoding. */
module JsonReading {
  import Bytes
  import opened Outcomes
  import opened Utf8
  import opened JsonFrames

  // -- The reader -------------------------------------------------------------------

  function HexOf(p: Point): Option<nat> {
    if p < 128 then Bytes.HexValue(p as char) else None
  }

  // What a backslash and this letter stand for.
  function Simple(p: Point): Option<Point> {
    if p == 0x22 || p == 0x5C || p == 0x2F then Some(p)
    else if p == 0x62 then Some(0x08)
    else if p == 0x66 then Some(0x0C)
    else if p == 0x6E then Some(0x0A)
    else if p == 0x72 then Some(0x0D)
    else if p == 0x74 then Some(0x09)
    else None
  }

  // One character of a string, and how many code points spell it. A quotation mark ends the
  // string; a control character must be escaped.
  function ReadChar(s: Text): (r: Option<(Point, nat)>)
    requires s != [] && s[0] != 0x22
    ensures r.Some? ==> 1 <= r.value.1 <= |s|
  {
    if s[0] < 0x20 then None
    else if s[0] != 0x5C then Some((s[0], 1))
    else if |s| < 2 then None
    else if s[1] != 0x75 then (match Simple(s[1]) case None => None case Some(p) => Some((p, 2)))
    else if |s| < 6 || s[2] != 0x30 || s[3] != 0x30 then None
    else
      match (HexOf(s[4]), HexOf(s[5]))
      case (Some(hi), Some(lo)) => Some((16 * hi + lo, 6))
      case _ => None
  }

  // A string after its opening quotation mark, and what follows its closing one.
  function ReadString(s: Text): (r: Option<(Text, Text)>)
    ensures r.Some? ==> |r.value.1| < |s|
    decreases |s|
  {
    if s == [] then None
    else if s[0] == 0x22 then Some(([], s[1..]))
    else
      match ReadChar(s)
      case None => None
      case Some((p, n)) =>
        match ReadString(s[n..])
        case None => None
        case Some((t, rest)) => Some(([p] + t, rest))
  }

  // What lies before a comma or a closing brace.
  function ReadToken(s: Text): (r: (Text, Text))
    ensures |r.1| <= |s|
  {
    if s == [] || s[0] == 0x2C || s[0] == 0x7D then ([], s)
    else var (t, rest) := ReadToken(s[1..]); ([s[0]] + t, rest)
  }

  function ReadValue(s: Text): (r: Option<(Value, Text)>)
    ensures r.Some? ==> |r.value.1| <= |s|
  {
    if s != [] && s[0] == 0x22 then
      match ReadString(s[1..])
      case None => None
      case Some((t, rest)) => Some((Str(t), rest))
    else
      var (t, rest) := ReadToken(s); Some((Other(t), rest))
  }

  // Members up to the closing brace, which ends the text.
  function ReadMembers(s: Text): Option<Frame>
    decreases |s|
  {
    if s == [] || s[0] != 0x22 then None
    else
      match ReadString(s[1..])
      case None => None
      case Some((key, s1)) =>
        if s1 == [] || s1[0] != 0x3A then None
        else
          match ReadValue(s1[1..])
          case None => None
          case Some((v, s2)) =>
            if s2 == [0x7D] then Some([Entry(key, v)])
            else if s2 == [] || s2[0] != 0x2C then None
            else
              match ReadMembers(s2[1..])
              case None => None
              case Some(f) => Some([Entry(key, v)] + f)
  }

  function ReadFrame(s: Text): Option<Frame> {
    if s == [0x7B, 0x7D] then Some([])
    else if s == [] || s[0] != 0x7B then None
    else ReadMembers(s[1..])
  }

  // -- It reads what was written ------------------------------------------------------

  lemma Literals()
    ensures TextFrom("\\u00") == [0x5C, 0x75, 0x30, 0x30]
    ensures TextFrom("\\b") == [0x5C, 0x62] && TextFrom("\\t") == [0x5C, 0x74] && TextFrom("\\n") == [0x5C, 0x6E]
    ensures TextFrom("\\f") == [0x5C, 0x66] && TextFrom("\\r") == [0x5C, 0x72]
  {
  }

  lemma CharReadsBack(p: Point, rest: Text)
    ensures var s := EscapePoint(p) + rest;
            && s[0] != 0x22 && ReadChar(s) == Some((p, |EscapePoint(p)|)) && s[|EscapePoint(p)|..] == rest
  {
    var e := EscapePoint(p);
    assert (e + rest)[|e|..] == rest;
    if p < 0x20 {
      Literals();
      hide TextFrom;
      Bytes.HexDigitValue(p / 16);
      Bytes.HexDigitValue(p % 16);
      assert p == 16 * (p / 16) + p % 16;
    }
  }

  lemma {:induction false} StringReadsBack(t: Text, rest: Text)
    ensures ReadString(Escape(t) + [0x22] + rest) == Some((t, rest))
  {
    hide EscapePoint, ReadChar;
    var s := Escape(t) + [0x22] + rest;
    if t == [] {
      assert s == [0x22] + rest && s[1..] == rest;
    } else {
      var tail := Escape(t[1..]) + [0x22] + rest;
      assert s == EscapePoint(t[0]) + tail;
      CharReadsBack(t[0], tail);
      StringReadsBack(t[1..], rest);
      assert [t[0]] + t[1..] == t;
    }
  }

  // A number, true, false or null is a token.
  predicate Token(t: Text) {
    0x22 !in t && 0x2C !in t && 0x7D !in t
  }

  lemma {:induction false} TokenReadsBack(t: Text, rest: Text)
    requires Token(t) && rest != [] && (rest[0] == 0x2C || rest[0] == 0x7D)
    ensures ReadToken(t + rest) == (t, rest)
  {
    if t == [] {
      assert t + rest == rest;
    } else {
      assert t[0] in t && (t + rest)[1..] == t[1..] + rest;
      TokenReadsBack(t[1..], rest);
      assert (t + rest)[0] == t[0] && [t[0]] + t[1..] == t;
    }
  }

  lemma ValueReadsBack(v: Value, rest: Text)
    requires v.Other? ==> Token(v.json)
    requires rest != [] && (rest[0] == 0x2C || rest[0] == 0x7D)
    ensures ReadValue(ValueText(v) + rest) == Some((v, rest))
  {
    match v
    case Str(t) =>
      assert (Quoted(t) + rest)[1..] == Escape(t) + [0x22] + rest;
      StringReadsBack(t, rest);
    case Other(json) =>
      assert json != [] ==> json[0] in json;
      TokenReadsBack(json, rest);
  }

  predicate Readable(f: Frame) {
    forall i :: 0 <= i < |f| && f[i].value.Other? ==> Token(f[i].value.json)
  }

  lemma EntryReadsBack(e: Entry, more: Text)
    requires e.value.Other? ==> Token(e.value.json)
    requires more != [] && (more[0] == 0x2C || more[0] == 0x7D)
    ensures var (s, tail) := (EntryText(e) + more, [0x3A] + ValueText(e.value) + more);
            && s != [] && s[0] == 0x22 && ReadString(s[1..]) == Some((e.key, tail))
            && ReadValue(tail[1..]) == Some((e.value, more))
  {
    hide ReadString, ReadValue, ValueText, Escape, Token;
    var s, tail := EntryText(e) + more, [0x3A] + ValueText(e.value) + more;
    assert s[1..] == Escape(e.key) + [0x22] + tail;
    StringReadsBack(e.key, tail);
    assert tail[1..] == ValueText(e.value) + more;
    ValueReadsBack(e.value, more);
  }

  lemma LastReadsBack(e: Entry)
    requires e.value.Other? ==> Token(e.value.json)
    ensures ReadMembers(EntryText(e) + [0x7D]) == Some([e])
  {
    hide ReadString, ReadValue, ValueText, EntryText, Token;
    EntryReadsBack(e, [0x7D]);
  }

  lemma NextReadsBack(e: Entry, tail: Text, f: Frame)
    requires (e.value.Other? ==> Token(e.value.json)) && ReadMembers(tail) == Some(f)
    ensures ReadMembers(EntryText(e) + ([0x2C] + tail)) == Some([e] + f)
  {
    hide ReadString, ReadValue, ValueText, EntryText, Token;
    EntryReadsBack(e, [0x2C] + tail);
    assert ([0x2C] + tail)[1..] == tail;
  }

  lemma {:induction false} MembersReadBack(f: Frame)
    requires f != [] && Readable(f)
    ensures ReadMembers(Members(f) + [0x7D]) == Some(f)
  {
    hide ReadMembers, EntryText, Token;
    if |f| == 1 {
      LastReadsBack(f[0]);
      assert f == [f[0]];
    } else {
      var tail := Members(f[1..]) + [0x7D];
      MembersReadBack(f[1..]);
      NextReadsBack(f[0], tail, f[1..]);
      assert Members(f) + [0x7D] == EntryText(f[0]) + ([0x2C] + tail);
      assert f == [f[0]] + f[1..];
    }
  }

  lemma SomeReadBack(f: Frame)
    requires f != [] && Readable(f)
    ensures ReadFrame(EncodeFrame(f)) == Some(f)
  {
    hide Members, ReadMembers;
    var s := EncodeFrame(f);
    assert s[1..] == Members(f) + [0x7D];
    MembersReadBack(f);
    NotEmptyFrame(f);
  }

  lemma NotEmptyFrame(f: Frame)
    requires f != []
    ensures |EncodeFrame(f)| > 2
  {
    assert |EntryText(f[0])| > 0;
  }

  // A frame is read back from its encoding, whatever its strings hold.
  lemma FrameReadsBack(f: Frame)
    requires Readable(f)
    ensures ReadFrame(EncodeFrame(f)) == Some(f)
  {
    if f == [] {
      assert EncodeFrame(f) == [0x7B, 0x7D];
    } else {
      SomeReadBack(f);
    }
  }

  // -- Sizes written out ---------------------------------------------------------------

  // What one code point takes within a string: two bytes for a quotation mark, a backslash
  // and five controls, six for the other controls, and its form in UTF-8 otherwise.
  lemma EscapedPointSize(p: Point)
    ensures EscapedSize([p]) ==
              if p == 0x22 || p == 0x5C || (0x08 <= p <= 0x0D && p != 0x0B) then 2
              else if p < 0x20 then 6
              else if p < 0x80 then 1
              else if p < 0x800 then 2
              else if p < 0x10000 then 3
              else 4
  {
    var e := EscapePoint(p);
    assert Escape([p]) == e + [] == e;
    if p < 0x80 {
      EscapesAreAscii(p);
      AsciiSize(e);
    } else {
      assert Encode([p]) == EncodePoint(p) + [];
    }
  }

  lemma EscapesAreAscii(p: Point)
    requires p < 0x80
    ensures forall i :: 0 <= i < |EscapePoint(p)| ==> EscapePoint(p)[i] < 0x80
    ensures |EscapePoint(p)| ==
              if p == 0x22 || p == 0x5C || (0x08 <= p <= 0x0D && p != 0x0B) then 2 else if p < 0x20 then 6 else 1
  {
    Literals();
    hide TextFrom;
  }

  lemma {:induction false} AsciiSize(t: Text)
    requires forall i :: 0 <= i < |t| ==> t[i] < 0x80
    ensures Utf8Size(t) == |t|
  {
    if t != [] {
      AsciiSize(t[1..]);
    }
  }

  lemma EscapedSizeAppend(t: Text, u: Text)
    ensures EscapedSize(t + u) == EscapedSize(t) + EscapedSize(u)
  {
    EscapeAppend(t, u);
    SizeAppend(Escape(t), Escape(u));
  }

  // The bytes of a value, quotation marks included.
  function ValueSize(v: Value): nat {
    match v case Str(t) => EscapedSize(t) + 2 case Other(json) => Utf8Size(json)
  }

  // The bytes of all keys and values.
  function Contents(f: Frame): nat {
    if f == [] then 0 else EscapedSize(f[0].key) + 2 + ValueSize(f[0].value) + Contents(f[1..])
  }

  lemma {:induction false} TotalIs(f: Frame)
    ensures Total(f) == Contents(f) + 2 * |f|
  {
    if f != [] {
      var e := f[0];
      TotalIs(f[1..]);
      OnePoint(0x3A);
      QuotedSize(e.key);
      SizeAppend(Quoted(e.key) + [0x3A], ValueText(e.value));
      SizeAppend(Quoted(e.key), [0x3A]);
      if e.value.Str? {
        QuotedSize(e.value.text);
      }
    }
  }

  // A frame takes its keys and values, a colon each, commas between them, and two braces.
  lemma FrameSizeInFull(f: Frame)
    ensures FrameSize(f) == Contents(f) + |f| + (if f == [] then 0 else |f| - 1) + 2
  {
    FrameSizeIs(f);
    TotalIs(f);
  }

  // A few characters in UTF-8: one, two, three and four bytes.
  lemma Utf8Samples()
    ensures Encode([0x24]) == [0x24] && Encode([0xA2]) == [0xC2, 0xA2]
    ensures Encode([0x20AC]) == [0xE2, 0x82, 0xAC] && Encode([0x10348]) == [0xF0, 0x90, 0x8D, 0x88]
  {
    assert Encode([0x24]) == EncodePoint(0x24) + [] && Encode([0xA2]) == EncodePoint(0xA2) + [];
    assert Encode([0x20AC]) == EncodePoint(0x20AC) + [] && Encode([0x10348]) == EncodePoint(0x10348) + [];
  }
}
