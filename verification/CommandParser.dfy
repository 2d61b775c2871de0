/** The firmware's side of a stream frame: strings copied into fixed buffers. */
module CommandParser {
  import opened Bytes
  import opened Utf8
  import opened JsonFrames
  import opened FrameFit
  import opened FrameStreams

  datatype CommandType =
    | Doorbell | TickerAppend | WeatherNow | WeatherDay | CalEvent | TimeSync | SysmonTemp
    | OtaPause | OtaResume | Unknown

  function KindOf(cmd: seq<byte>): CommandType {
    if cmd == Bytes.Ascii("DOORBELL") then Doorbell
    else if cmd == Bytes.Ascii("TICKER-APPEND") then TickerAppend
    else if cmd == Bytes.Ascii("WEATHER") then WeatherNow
    else if cmd == Bytes.Ascii("WEATHER_DAY") then WeatherDay
    else if cmd == Bytes.Ascii("CAL_EVENT") then CalEvent
    else if cmd == Bytes.Ascii("TIME") then TimeSync
    else if cmd == Bytes.Ascii("SYSMON_TEMP") then SysmonTemp
    else if cmd == Bytes.Ascii("OTA-PAUSE") then OtaPause
    else if cmd == Bytes.Ascii("OTA-RESUME") then OtaResume
    else Unknown
  }

  // The bytes of a C string: what comes before the first NUL.
  function CString(bs: seq<byte>): (r: seq<byte>)
    ensures |r| <= |bs| && 0 !in r
  {
    if bs == [] || bs[0] == 0 then [] else [bs[0]] + CString(bs[1..])
  }

  lemma {:induction false} CStringAt(bs: seq<byte>, n: nat)
    requires n <= |bs| && 0 !in bs[..n] && (n < |bs| ==> bs[n] == 0)
    ensures CString(bs) == bs[..n]
  {
    if n > 0 {
      assert bs[..n][0] == bs[0] && bs[..n][1..] == bs[1..][..n - 1];
      CStringAt(bs[1..], n - 1);
    }
  }

  // What a buffer of this size ends up holding of a string.
  function Stored(t: Text, size: nat): seq<byte>
    requires size > 0
  {
    Cut(CString(Encode(t)), size - 1)
  }

  // doc[key] | "": the string under that key, or the empty string.
  function TextUnder(f: Frame, key: Text): Text {
    if f == [] then []
    else if f[0].key == key then (if f[0].value.Str? then f[0].value.text else [])
    else TextUnder(f[1..], key)
  }

  // strncpy(dst, src, sizeof(dst) - 1), then a NUL in the last place.
  method CopyString(dst: array<byte>, src: Text)
    requires dst.Length > 0
    modifies dst
    ensures CString(dst[..]) == Stored(src, dst.Length)
  {
    var s := CString(Encode(src));
    var i := 0;
    while i < dst.Length - 1
      invariant 0 <= i <= dst.Length - 1
      invariant forall j :: 0 <= j < i ==> dst[j] == if j < |s| then s[j] else 0
    {
      dst[i] := if i < |s| then s[i] else 0;
      i := i + 1;
    }
    dst[dst.Length - 1] := 0;
    var n := if |s| < dst.Length - 1 then |s| else dst.Length - 1;
    assert dst[..n] == s[..n];
    CStringAt(dst[..], n);
  }

  // -- The command object -----------------------------------------------------

  class CommandFrame {
    var kind: CommandType
    const ticker: array<byte>
    const conditions: array<byte>
    const dayLabel: array<byte>
    const dayConditions: array<byte>
    const summary: array<byte>
    const timeText: array<byte>

    ghost predicate Valid() {
      && ticker.Length == 128 && conditions.Length == 32 && dayLabel.Length == 4
      && dayConditions.Length == 26 && summary.Length == 52 && timeText.Length == 18
    }

    constructor ()
      ensures Valid()
      ensures fresh(ticker) && fresh(conditions) && fresh(dayLabel)
      ensures fresh(dayConditions) && fresh(summary) && fresh(timeText)
    {
      kind := Unknown;
      ticker := new byte[128];
      conditions := new byte[32];
      dayLabel := new byte[4];
      dayConditions := new byte[26];
      summary := new byte[52];
      timeText := new byte[18];
    }

    // The kind of a frame, and the string fields of those kinds that have them.
    method Parse(f: Frame) returns (ok: bool)
      requires Valid()
      modifies this`kind, ticker, conditions, dayLabel, dayConditions, summary, timeText
      ensures var cmd := CString(Encode(TextUnder(f, CMD)));
        kind == (if cmd == [] then old(kind) else KindOf(cmd)) && (ok <==> cmd != [] && !kind.Unknown?)
      ensures ok && kind.TickerAppend? ==> CString(ticker[..]) == Stored(TextUnder(f, TEXT), 128)
      ensures ok && kind.WeatherNow? ==> CString(conditions[..]) == Stored(TextUnder(f, TextFrom("co")), 32)
      ensures ok && kind.WeatherDay? ==> CString(dayLabel[..]) == Stored(TextUnder(f, TextFrom("l")), 4)
      ensures ok && kind.WeatherDay? ==> CString(dayConditions[..]) == Stored(TextUnder(f, TextFrom("c")), 26)
      ensures ok && kind.CalEvent? ==> CString(summary[..]) == Stored(TextUnder(f, TextFrom("s")), 52)
      ensures ok && kind.CalEvent? ==> CString(timeText[..]) == Stored(TextUnder(f, TextFrom("t")), 18)
    {
      hide Stored, TextUnder, Encode, TextFrom, KindOf;
      var cmd := CString(Encode(TextUnder(f, CMD)));
      if cmd == [] {
        return false;
      }
      kind := KindOf(cmd);
      if kind.TickerAppend? {
        CopyString(ticker, TextUnder(f, TEXT));
      } else if kind.WeatherNow? {
        CopyString(conditions, TextUnder(f, TextFrom("co")));
      } else if kind.WeatherDay? {
        CopyString(dayLabel, TextUnder(f, TextFrom("l")));
        CopyString(dayConditions, TextUnder(f, TextFrom("c")));
      } else if kind.CalEvent? {
        CopyString(summary, TextUnder(f, TextFrom("s")));
        CopyString(timeText, TextUnder(f, TextFrom("t")));
      }
      ok := !kind.Unknown?;
    }
  }

  // -- Nothing is lost on the way -------------------------------------------------

  lemma {:induction false} NoNulNoCut(t: Text)
    requires 0 !in t
    ensures CString(Encode(t)) == Encode(t)
  {
    if t != [] {
      assert t[0] in t;
      NoNulNoCut(t[1..]);
      NoNulInPoint(EncodePoint(t[0]), Encode(t[1..]));
    }
  }

  lemma {:induction false} NoNulInPoint(a: seq<byte>, b: seq<byte>)
    requires 0 !in a && CString(b) == b
    ensures CString(a + b) == a + b
  {
    if a == [] {
      assert a + b == b;
    } else {
      assert (a + b)[1..] == a[1..] + b;
      NoNulInPoint(a[1..], b);
    }
  }

  // A text shorter than its buffer and without a NUL arrives whole.
  lemma StoredWhole(t: Text, size: nat)
    requires Utf8Size(t) < size && 0 !in t
    ensures Stored(t, size) == Encode(t)
  {
    NoNulNoCut(t);
  }

  // Fitting shortens what is under a key, if anything, and never the command.
  lemma {:induction false} ShapeUnder(g: Frame, r: Frame, key: Text)
    requires Shape(g, r)
    ensures TextUnder(r, key) <= TextUnder(g, key)
    ensures key == CMD ==> TextUnder(r, key) == TextUnder(g, key)
  {
    if g != [] {
      ShapeUnder(g[1..], r[1..], key);
    }
  }

  lemma PrefixSmaller(t: Text, u: Text)
    requires t <= u
    ensures Utf8Size(t) <= Utf8Size(u) && (0 !in u ==> 0 !in t)
  {
    assert t == u[..|t|] && u == u[..|u|];
    if |t| < |u| {
      PrefixSize(u, |t|, |u|);
    }
  }

  // A string capped below its buffer arrives whole, however the frame was fitted.
  lemma Arrives(g: Frame, r: Frame, key: Text, size: nat)
    requires Shape(g, r) && Utf8Size(TextUnder(g, key)) < size && 0 !in TextUnder(g, key)
    ensures Stored(TextUnder(r, key), size) == Encode(TextUnder(r, key))
    ensures TextUnder(r, key) <= TextUnder(g, key)
  {
    ShapeUnder(g, r, key);
    PrefixSmaller(TextUnder(r, key), TextUnder(g, key));
    StoredWhole(TextUnder(r, key), size);
  }

  // The firmware stores r's string under this key unshortened, and it is what t began with.
  predicate ArrivesWhole(r: Frame, key: Text, size: nat, t: Text) {
    size > 0 && Stored(TextUnder(r, key), size) == Encode(TextUnder(r, key)) && TextUnder(r, key) <= t
  }

  // The same for a string the stream has cut to fewer bytes than the buffer holds.
  lemma CappedArrives(g: Frame, r: Frame, key: Text, t: Text, cap: nat, size: nat)
    requires Shape(g, r) && TextUnder(g, key) == Utf8Prefix(t, cap) && cap < size && 0 !in t
    ensures ArrivesWhole(r, key, size, t)
  {
    PrefixIsLongest(t, cap);
    Arrives(g, r, key, size);
  }

  lemma NotATicker(f: Frame)
    requires f != [] && f[0].key == CMD && f[0].value.Str? && |f[0].value.text| < |TICKER_APPEND|
    requires forall i :: 1 <= i < |f| ==> f[i].key != CMD
    ensures PreCut(f) == f
  {
  }

  lemma {:induction false} UnderAt(f: Frame, i: nat)
    requires i < |f| && f[i].value.Str? && forall j :: 0 <= j < i ==> f[j].key != f[i].key
    ensures TextUnder(f, f[i].key) == f[i].value.text
  {
    if i > 0 {
      UnderAt(f[1..], i - 1);
    }
  }

  // The string at place i of a frame whose command is no ticker's.
  lemma StreamArrives(f: Frame, r: Frame, i: nat, t: Text, cap: nat, size: nat)
    requires 0 < i < |f| && f[i].value == Str(Utf8Prefix(t, cap)) && forall j :: 0 <= j < i ==> f[j].key != f[i].key
    requires f[0].key == CMD && f[0].value.Str? && |f[0].value.text| < |TICKER_APPEND|
    requires forall j :: 1 <= j < |f| ==> f[j].key != CMD
    requires Shape(PreCut(f), r) && cap < size && 0 !in t
    ensures ArrivesWhole(r, f[i].key, size, t)
  {
    hide *;
    NotATicker(f);
    UnderAt(f, i);
    CappedArrives(f, r, f[i].key, t, cap, size);
  }

  lemma WeatherArrives(p: Weather, r: Frame)
    requires Shape(PreCut(WeatherFrame(p)), r) && 0 !in TextOf(p.conditions)
    ensures ArrivesWhole(r, TextFrom("co"), 32, TextOf(p.conditions))
  {
    KeysDiffer();
    hide PreCut, Utf8Prefix, Or, ArrivesWhole, TextFrom;
    StreamArrives(WeatherFrame(p), r, 2, TextOf(p.conditions), 30, 32);
  }

  lemma DayLabelArrives(i: nat, d: Day, r: Frame)
    requires i < 10 && Shape(PreCut(DayFrame(i, d)), r) && 0 !in TextOf(d.dayLabel)
    ensures ArrivesWhole(r, TextFrom("l"), 4, TextOf(d.dayLabel))
  {
    KeysDiffer();
    hide PreCut, Utf8Prefix, Or, ArrivesWhole, TextFrom;
    StreamArrives(DayFrame(i, d), r, 2, TextOf(d.dayLabel), 3, 4);
  }

  lemma DayConditionsArrive(i: nat, d: Day, r: Frame)
    requires i < 10 && Shape(PreCut(DayFrame(i, d)), r) && 0 !in TextOf(d.conditions)
    ensures ArrivesWhole(r, TextFrom("c"), 26, TextOf(d.conditions))
  {
    KeysDiffer();
    hide PreCut, Utf8Prefix, Or, ArrivesWhole, TextFrom;
    StreamArrives(DayFrame(i, d), r, 5, TextOf(d.conditions), 24, 26);
  }

  lemma SummaryArrives(i: nat, e: CalendarEvent, r: Frame)
    requires i < 10 && Shape(PreCut(EventFrame(i, e)), r) && 0 !in TextOf(e.summary)
    ensures ArrivesWhole(r, TextFrom("s"), 52, TextOf(e.summary))
  {
    KeysDiffer();
    hide PreCut, Utf8Prefix, TimeText, ArrivesWhole, TextFrom;
    StreamArrives(EventFrame(i, e), r, 2, TextOf(e.summary), 50, 52);
  }

  lemma TimeArrives(i: nat, e: CalendarEvent, r: Frame)
    requires i < 10 && Shape(PreCut(EventFrame(i, e)), r) && 0 !in TimeText(TextOf(e.start), e.allDay)
    ensures ArrivesWhole(r, TextFrom("t"), 18, TimeText(TextOf(e.start), e.allDay))
  {
    KeysDiffer();
    hide PreCut, Utf8Prefix, TimeText, ArrivesWhole, TextFrom;
    StreamArrives(EventFrame(i, e), r, 3, TimeText(TextOf(e.start), e.allDay), 16, 18);
  }

  lemma {:induction false} CutUnder(f: Frame)
    ensures TextUnder(CutTexts(f), TEXT) == Utf8Prefix(TextUnder(f, TEXT), TICKER_BYTES)
  {
    if f != [] {
      CutUnder(f[1..]);
    }
  }

  // A ticker's text arrives whole as cut, whatever else the frame holds.
  lemma TickerArrives(f: Frame, r: Frame)
    requires IsTicker(f) && Shape(PreCut(f), r) && 0 !in TextUnder(f, TEXT)
    ensures ArrivesWhole(r, TEXT, 128, TextUnder(f, TEXT))
  {
    CutUnder(f);
    hide Utf8Prefix;
    CappedArrives(PreCut(f), r, TEXT, TextUnder(f, TEXT), TICKER_BYTES, 128);
  }

  lemma KeysDiffer()
    ensures CMD == [0x63, 0x6D, 0x64] && TEXT == [0x74, 0x65, 0x78, 0x74]
    ensures TextFrom("i") == [0x69] && TextFrom("t") == [0x74] && TextFrom("h") == [0x68]
    ensures TextFrom("co") == [0x63, 0x6F] && TextFrom("l") == [0x6C] && TextFrom("lo") == [0x6C, 0x6F]
    ensures TextFrom("c") == [0x63] && TextFrom("s") == [0x73] && TextFrom("a") == [0x61]
  {
  }
}
