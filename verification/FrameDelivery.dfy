/** Payloads end to end: streamed, fitted, sent, parsed, and stored whole by the panel. */
module FrameDelivery {
  import opened Outcomes
  import Bytes
  import opened Utf8
  import opened JsonFrames
  import opened FrameFit
  import opened FrameStreams
  import opened CommandParser
  import opened FrameMeaning

  // The strings a panel has stored after parsing a frame.
  datatype Shown =
    | Ticker(text: seq<Bytes.byte>)
    | Now(conditions: seq<Bytes.byte>)
    | Forecast(dayLabel: seq<Bytes.byte>, conditions: seq<Bytes.byte>)
    | Event(summary: seq<Bytes.byte>, time: seq<Bytes.byte>)
    | NoStrings

  const CO := TextFrom("co")
  const L := TextFrom("l")
  const C := TextFrom("c")
  const S := TextFrom("s")
  const T := TextFrom("t")

  function Received(f: Frame): Shown {
    match KindOf(CString(Encode(TextUnder(f, CMD))))
    case TickerAppend => Ticker(Stored(TextUnder(f, TEXT), 128))
    case WeatherNow => Now(Stored(TextUnder(f, CO), 32))
    case WeatherDay => Forecast(Stored(TextUnder(f, L), 4), Stored(TextUnder(f, C), 26))
    case CalEvent => Event(Stored(TextUnder(f, S), 52), Stored(TextUnder(f, T), 18))
    case _ => NoStrings
  }

  // A panel parses one frame into a command of its own.
  method Show(f: Frame) returns (s: Shown)
    ensures s == Received(f)
  {
    hide TextUnder, Encode, Stored;
    var command := new CommandFrame();
    var ok := command.Parse(f);
    if !ok {
      return NoStrings;
    }
    match command.kind
    case TickerAppend => s := Ticker(CString(command.ticker[..]));
    case WeatherNow => s := Now(CString(command.conditions[..]));
    case WeatherDay => s := Forecast(CString(command.dayLabel[..]), CString(command.dayConditions[..]));
    case CalEvent => s := Event(CString(command.summary[..]), CString(command.timeText[..]));
    case _ => s := NoStrings;
  }

  // Every frame fitted and shown, or nothing sent.
  method ShowAll(frames: seq<Frame>) returns (sent: Option<seq<Frame>>, shown: seq<Shown>)
    ensures sent.None? <==> exists f :: f in frames && !Fits(Emptied(f))
    ensures sent.Some? ==> |sent.value| == |shown| == |frames|
    ensures sent.Some? ==> forall i :: 0 <= i < |frames| ==>
      Fitted(PreCut(frames[i]), sent.value[i]) && shown[i] == Received(sent.value[i])
  {
    hide Fits, Emptied, Fitted, PreCut, Received;
    shown := [];
    sent := FitAll(frames);
    if sent.Some? {
      var i := 0;
      while i < |sent.value|
        invariant 0 <= i <= |sent.value| && |shown| == i
        invariant forall j :: 0 <= j < i ==> shown[j] == Received(sent.value[j])
      {
        var s := Show(sent.value[i]);
        shown := shown + [s];
        i := i + 1;
      }
    }
  }

  // -- Commands survive the encoding ------------------------------------------------

  lemma {:induction false} AsciiEncodes(s: string)
    requires forall i :: 0 <= i < |s| ==> 0 as char < s[i] < 128 as char
    ensures Encode(TextFrom(s)) == Bytes.Ascii(s) && 0 !in TextFrom(s)
  {
    if s != "" {
      AsciiEncodes(s[1..]);
    }
  }

  // A fitted frame is of the kind its command says.
  lemma KindSurvives(g: Frame, r: Frame, name: string)
    requires Shape(g, r) && forall i :: 0 <= i < |name| ==> 0 as char < name[i] < 128 as char
    requires TextUnder(g, CMD) == TextFrom(name)
    ensures CString(Encode(TextUnder(r, CMD))) == Bytes.Ascii(name)
  {
    hide *;
    ShapeUnder(g, r, CMD);
    AsciiEncodes(name);
    NoNulNoCut(TextFrom(name));
  }

  // The command is the first entry of a stream's frame.
  lemma CommandUnder(f: Frame, t: Text)
    requires f != [] && f[0] == Entry(CMD, Str(t))
    ensures TextUnder(f, CMD) == t
  {
  }

  lemma TickerLength()
    ensures |TICKER_APPEND| == 13
  {
    var s := "TICKER-APPEND";
    assert |s| == 13;
  }

  lemma StreamKind(f: Frame, r: Frame, name: string)
    requires forall i :: 0 <= i < |name| ==> 0 as char < name[i] < 128 as char
    requires f != [] && f[0] == Entry(CMD, Str(TextFrom(name))) && |name| < 13
    requires forall j :: 1 <= j < |f| ==> f[j].key != CMD
    requires Shape(PreCut(f), r)
    ensures CString(Encode(TextUnder(r, CMD))) == Bytes.Ascii(name)
  {
    hide *;
    TickerLength();
    NotATicker(f);
    CommandUnder(f, TextFrom(name));
    KindSurvives(f, r, name);
  }

  lemma Kinds()
    ensures KindOf(Bytes.Ascii("TICKER-APPEND")).TickerAppend?
    ensures KindOf(Bytes.Ascii("WEATHER")).WeatherNow?
    ensures KindOf(Bytes.Ascii("WEATHER_DAY")).WeatherDay?
    ensures KindOf(Bytes.Ascii("CAL_EVENT")).CalEvent?
  {
  }

  // The commands without strings.
  lemma OtherKinds()
    ensures KindOf(Bytes.Ascii("DOORBELL")).Doorbell? && KindOf(Bytes.Ascii("TIME")).TimeSync?
    ensures KindOf(Bytes.Ascii("SYSMON_TEMP")).SysmonTemp?
    ensures KindOf(Bytes.Ascii("OTA-PAUSE")).OtaPause? && KindOf(Bytes.Ascii("OTA-RESUME")).OtaResume?
  {
    assert Bytes.Ascii("SYSMON_TEMP")[0] != Bytes.Ascii("WEATHER_DAY")[0];
    assert Bytes.Ascii("OTA-PAUSE")[0] != Bytes.Ascii("CAL_EVENT")[0];
  }

  // -- What arrives ---------------------------------------------------------------

  // The panel shows the whole of what was sent, which is how the payload's text begins.
  predicate Whole(r: Frame, key: Text, bytes: seq<Bytes.byte>, original: Text) {
    bytes == Encode(TextUnder(r, key)) && TextUnder(r, key) <= original
  }

  predicate NowWhole(p: Weather, r: Frame, s: Shown) {
    s.Now? && Whole(r, CO, s.conditions, TextOf(p.conditions))
  }

  predicate ForecastWhole(d: Day, r: Frame, s: Shown) {
    s.Forecast? && Whole(r, L, s.dayLabel, TextOf(d.dayLabel)) && Whole(r, C, s.conditions, TextOf(d.conditions))
  }

  predicate EventWhole(e: CalendarEvent, r: Frame, s: Shown) {
    s.Event? && Whole(r, S, s.summary, TextOf(e.summary)) && Whole(r, T, s.time, TimeText(TextOf(e.start), e.allDay))
  }

  lemma NowArrives(p: Weather, r: Frame)
    requires Shape(PreCut(WeatherFrame(p)), r) && 0 !in TextOf(p.conditions)
    ensures NowWhole(p, r, Received(r))
  {
    hide KindOf, Encode, Stored, TextUnder, CString, PreCut, Shape, Utf8Prefix, Or, TextFrom;
    KeysDiffer();
    StreamKind(WeatherFrame(p), r, "WEATHER");
    WeatherArrives(p, r);
    Kinds();
  }

  lemma ForecastArrives(i: nat, d: Day, r: Frame)
    requires i < 10 && Shape(PreCut(DayFrame(i, d)), r) && 0 !in TextOf(d.dayLabel) && 0 !in TextOf(d.conditions)
    ensures ForecastWhole(d, r, Received(r))
  {
    hide KindOf, Encode, Stored, TextUnder, CString, PreCut, Shape, Utf8Prefix, Or, TextFrom;
    KeysDiffer();
    StreamKind(DayFrame(i, d), r, "WEATHER_DAY");
    DayLabelArrives(i, d, r);
    DayConditionsArrive(i, d, r);
    Kinds();
  }

  lemma EventArrives(i: nat, e: CalendarEvent, r: Frame)
    requires i < 10 && Shape(PreCut(EventFrame(i, e)), r)
    requires 0 !in TextOf(e.summary) && 0 !in TimeText(TextOf(e.start), e.allDay)
    ensures EventWhole(e, r, Received(r))
  {
    hide KindOf, Encode, Stored, TextUnder, CString, PreCut, Shape, Utf8Prefix, TimeText, TextFrom;
    KeysDiffer();
    StreamKind(EventFrame(i, e), r, "CAL_EVENT");
    SummaryArrives(i, e, r);
    TimeArrives(i, e, r);
    Kinds();
  }

  lemma {:induction false} FindEntry(f: Frame, key: Text)
    requires TextUnder(f, key) != []
    ensures Entry(key, Str(TextUnder(f, key))) in f
  {
    if f[0].key != key {
      FindEntry(f[1..], key);
    }
  }

  lemma {:induction false} CommandUncut(f: Frame)
    ensures TextUnder(CutTexts(f), CMD) == TextUnder(f, CMD)
  {
    if f != [] {
      assert |CMD| == 3 && |TEXT| == 4;
      CommandUncut(f[1..]);
    }
  }

  lemma TickerCommand(f: Frame)
    requires TextUnder(f, CMD) == TICKER_APPEND
    ensures IsTicker(f) && TextUnder(PreCut(f), CMD) == TICKER_APPEND
  {
    TickerLength();
    FindEntry(f, CMD);
    CommandUncut(f);
  }

  lemma TickerKind()
    ensures KindOf(CString(Encode(TICKER_APPEND))).TickerAppend?
  {
    AsciiEncodes("TICKER-APPEND");
    NoNulNoCut(TextFrom("TICKER-APPEND"));
    hide TextFrom, Encode, CString;
    Kinds();
  }

  lemma TickerShown(f: Frame, r: Frame)
    requires Shape(PreCut(f), r) && TextUnder(f, CMD) == TICKER_APPEND && 0 !in TextUnder(f, TEXT)
    ensures Received(r).Ticker? && Whole(r, TEXT, Received(r).text, TextUnder(f, TEXT))
  {
    hide KindOf, Encode, Stored, TextUnder, CString, PreCut, Shape, TextFrom, IsTicker;
    TickerCommand(f);
    ShapeUnder(PreCut(f), r, CMD);
    TickerArrives(f, r);
    TickerKind();
  }

  // -- Whole payloads ---------------------------------------------------------------

  predicate AllPrinted(p: Weather) {
    && (forall x :: x in [p.temperature, p.high, p.low] && x.Some? ==> Printed(x.value))
    && forall i :: 0 <= i < |p.forecast| ==>
         forall x :: x in [p.forecast[i].high, p.forecast[i].low] && x.Some? ==> Printed(x.value)
  }

  predicate NulFree(p: Weather) {
    && 0 !in TextOf(p.conditions)
    && forall i :: 0 <= i < |p.forecast| ==>
      0 !in TextOf(p.forecast[i].dayLabel) && 0 !in TextOf(p.forecast[i].conditions)
  }

  // The frames of a weather payload, as WeatherStream makes them.
  ghost predicate WeatherFrames(p: Weather, frames: seq<Frame>) {
    && |frames| == 1 + (if |p.forecast| < FORECAST_DAYS then |p.forecast| else FORECAST_DAYS)
    && frames[0] == WeatherFrame(p)
    && forall i :: 1 <= i < |frames| ==> frames[i] == DayFrame(i - 1, p.forecast[i - 1])
  }

  lemma WeatherStreamFits(p: Weather, frames: seq<Frame>)
    requires WeatherFrames(p, frames) && AllPrinted(p)
    ensures forall f :: f in frames ==> Fits(Emptied(f))
  {
    hide Fits, Emptied, WeatherFrame, DayFrame, Printed;
    forall i | 0 <= i < |frames|
      ensures Fits(Emptied(frames[i]))
    {
      if i == 0 {
        WeatherFits(p);
      } else {
        DayFits(i - 1, p.forecast[i - 1]);
      }
    }
  }

  lemma WeatherStreamArrives(p: Weather, frames: seq<Frame>, sent: seq<Frame>)
    requires WeatherFrames(p, frames) && NulFree(p) && |sent| == |frames|
    requires forall i :: 0 <= i < |frames| ==> Fitted(PreCut(frames[i]), sent[i])
    ensures NowWhole(p, sent[0], Received(sent[0]))
    ensures forall i :: 1 <= i < |sent| ==> ForecastWhole(p.forecast[i - 1], sent[i], Received(sent[i]))
  {
    hide Fitted, PreCut, WeatherFrame, DayFrame, NowWhole, ForecastWhole, Received;
    ShapeOfFitted(PreCut(frames[0]), sent[0]);
    NowArrives(p, sent[0]);
    forall i | 1 <= i < |sent|
      ensures ForecastWhole(p.forecast[i - 1], sent[i], Received(sent[i]))
    {
      ShapeOfFitted(PreCut(frames[i]), sent[i]);
      ForecastArrives(i - 1, p.forecast[i - 1], sent[i]);
    }
  }

  lemma ShapeOfFitted(g: Frame, r: Frame)
    requires Fitted(g, r)
    ensures Shape(g, r)
  {
  }

  lemma WeatherNumbersSurvive(p: Weather, frames: seq<Frame>, sent: seq<Frame>)
    requires WeatherFrames(p, frames) && |sent| == |frames|
    requires forall i :: 0 <= i < |frames| ==> Fitted(PreCut(frames[i]), sent[i])
    ensures WeatherNumbers(p, sent[0])
    ensures forall i :: 1 <= i < |sent| ==> DayNumbers(i - 1, p.forecast[i - 1], sent[i])
  {
    hide Fitted, PreCut, WeatherFrame, DayFrame, WeatherNumbers, DayNumbers;
    WeatherFrameIs(p);
    NumbersSurvive(frames[0], sent[0]);
    WeatherNumbersIn(p, frames[0], sent[0]);
    forall i | 1 <= i < |sent|
      ensures DayNumbers(i - 1, p.forecast[i - 1], sent[i])
    {
      DayFrameIs(i - 1, p.forecast[i - 1]);
      NumbersSurvive(frames[i], sent[i]);
      DayNumbersIn(i - 1, p.forecast[i - 1], frames[i], sent[i]);
    }
  }

  // Whatever is no string is sent as it was.
  lemma NumbersSurvive(f: Frame, r: Frame)
    requires Fitted(PreCut(f), r)
    ensures forall e :: e in f && e.value.Other? ==> e in r
  {
    hide Maximal, LongestFirst, Fits;
    PreCutIs(f);
    hide PreCut;
    forall e | e in f && e.value.Other?
      ensures e in r
    {
      var i :| 0 <= i < |f| && f[i] == e;
      assert r[i] == PreCut(f)[i] == f[i];
    }
  }

  lemma WeatherNumbersIn(p: Weather, f: Frame, r: Frame)
    requires WeatherNumbers(p, f) && forall e :: e in f && e.value.Other? ==> e in r
    ensures WeatherNumbers(p, r)
  {
    hide TextFrom;
  }

  lemma DayNumbersIn(i: nat, d: Day, f: Frame, r: Frame)
    requires i < 10 && DayNumbers(i, d, f) && forall e :: e in f && e.value.Other? ==> e in r
    ensures DayNumbers(i, d, r)
  {
    hide TextFrom;
  }

  // A weather payload whose floats print as usual is always sent, as one frame for the
  // present and one for each of the first four days; each arrives whole.
  method ShowWeather(p: Weather) returns (frames: seq<Frame>, sent: Option<seq<Frame>>, shown: seq<Shown>)
    ensures WeatherFrames(p, frames) && |frames| == if |p.forecast| <= 4 then 1 + |p.forecast| else 5
    ensures AllPrinted(p) ==> sent.Some?
    ensures sent.Some? ==> |sent.value| == |shown| == |frames|
    ensures sent.Some? ==> forall i :: 0 <= i < |frames| ==> Fitted(PreCut(frames[i]), sent.value[i])
    ensures sent.Some? ==> WeatherNumbers(p, sent.value[0])
    ensures sent.Some? ==> forall i :: 1 <= i < |shown| ==> DayNumbers(i - 1, p.forecast[i - 1], sent.value[i])
    ensures sent.Some? && NulFree(p) ==> NowWhole(p, sent.value[0], shown[0])
    ensures sent.Some? && NulFree(p) ==> forall i :: 1 <= i < |shown| ==>
      ForecastWhole(p.forecast[i - 1], sent.value[i], shown[i])
  {
    hide Fitted, PreCut, Fits, Emptied, WeatherFrame, DayFrame, AllPrinted, NulFree, NowWhole, ForecastWhole, Received;
    hide WeatherNumbers, DayNumbers;
    frames := WeatherStream(p);
    sent, shown := ShowAll(frames);
    if AllPrinted(p) {
      WeatherStreamFits(p, frames);
    }
    if sent.Some? {
      WeatherNumbersSurvive(p, frames, sent.value);
    }
    if sent.Some? && NulFree(p) {
      WeatherStreamArrives(p, frames, sent.value);
    }
  }

  ghost predicate EventFrames(kept: seq<CalendarEvent>, frames: seq<Frame>) {
    && |frames| == (if |kept| < MAX_EVENTS then |kept| else MAX_EVENTS)
    && forall i :: 0 <= i < |frames| ==> frames[i] == EventFrame(i, kept[i])
  }

  lemma EventsFit(kept: seq<CalendarEvent>, frames: seq<Frame>)
    requires EventFrames(kept, frames)
    ensures forall f :: f in frames ==> Fits(Emptied(f))
  {
    hide Fits, Emptied, EventFrame;
    forall i | 0 <= i < |frames|
      ensures Fits(Emptied(frames[i]))
    {
      EventFits(i, kept[i]);
    }
  }

  predicate EventNulFree(e: CalendarEvent) {
    0 !in TextOf(e.summary) && 0 !in TimeText(TextOf(e.start), e.allDay)
  }

  // A calendar payload is always sent: the first eight of its events, of each summary at
  // most five; each event without a NUL arrives whole.
  method ShowCalendar(events: seq<CalendarEvent>)
    returns (frames: seq<Frame>, sent: Option<seq<Frame>>, shown: seq<Shown>)
    ensures |frames| == if |NotRepeated(events)| <= 8 then |NotRepeated(events)| else 8
    ensures EventFrames(NotRepeated(events), frames) && sent.Some? && |sent.value| == |shown| == |frames|
    ensures forall i :: 0 <= i < |frames| ==> EventEntries(i, NotRepeated(events)[i], frames[i])
    ensures forall i :: 0 <= i < |frames| ==>
      NumberEntry([0x69], [0x30 + i]) in sent.value[i] &&
      NumberEntry([0x61], Flag(NotRepeated(events)[i].allDay)) in sent.value[i]
    ensures forall i :: 0 <= i < |frames| ==> Fitted(PreCut(frames[i]), sent.value[i])
    ensures forall i :: 0 <= i < |shown| ==>
      var e := NotRepeated(events)[i];
      EventNulFree(e) ==> EventWhole(e, sent.value[i], shown[i])
  {
    hide Fitted, PreCut, Fits, Emptied, EventFrame, NotRepeated, EventNulFree, EventWhole, Received;
    hide EventEntries, NumberEntry, Flag;
    frames := CalendarStream(events);
    var kept := NotRepeated(events);
    sent, shown := ShowAll(frames);
    EventsFit(kept, frames);
    forall i | 0 <= i < |shown|
      ensures EventNulFree(kept[i]) ==> EventWhole(kept[i], sent.value[i], shown[i])
    {
      EventShown(kept[i], i, sent.value[i]);
    }
    forall i | 0 <= i < |frames|
      ensures EventEntries(i, kept[i], frames[i])
      ensures NumberEntry([0x69], [0x30 + i]) in sent.value[i]
      ensures NumberEntry([0x61], Flag(kept[i].allDay)) in sent.value[i]
    {
      EventFrameIs(i, kept[i]);
      NumbersSurvive(frames[i], sent.value[i]);
      EventNumbersIn(i, kept[i], frames[i], sent.value[i]);
    }
  }

  lemma EventNumbersIn(i: nat, e: CalendarEvent, f: Frame, r: Frame)
    requires i < 10 && EventEntries(i, e, f) && forall x :: x in f && x.value.Other? ==> x in r
    ensures NumberEntry([0x69], [0x30 + i]) in r && NumberEntry([0x61], Flag(e.allDay)) in r
  {
    hide TextFrom, LongestPrefix, TimeText, Flag;
    assert f[1] in f && f[4] in f;
  }

  lemma EventShown(e: CalendarEvent, i: nat, r: Frame)
    requires i < 10 && Fitted(PreCut(EventFrame(i, e)), r)
    ensures EventNulFree(e) ==> EventWhole(e, r, Received(r))
  {
    hide Fitted, PreCut, EventFrame, EventWhole, Received, TimeText;
    ShapeOfFitted(PreCut(EventFrame(i, e)), r);
    if EventNulFree(e) {
      EventArrives(i, e, r);
    }
  }

  // A ticker's frame, whatever else it holds, is sent unless its other contents are too
  // large; its text, cut to 127 bytes at most, arrives whole.
  method ShowTicker(f: Frame) returns (sent: Option<Frame>, shown: Shown)
    requires TextUnder(f, CMD) == TICKER_APPEND
    ensures sent.None? <==> !Fits(Emptied(f))
    ensures sent.Some? ==> Fitted(PreCut(f), sent.value)
    ensures sent.Some? && 0 !in TextUnder(f, TEXT) ==>
      shown.Ticker? && Whole(sent.value, TEXT, shown.text, TextUnder(f, TEXT))
  {
    hide Fitted, PreCut, Fits, Emptied, Received, Whole, TextUnder;
    sent := FitFrame(f);
    shown := NoStrings;
    if sent.Some? {
      shown := Show(sent.value);
      ShapeOfFitted(PreCut(f), sent.value);
      if 0 !in TextUnder(f, TEXT) {
        TickerShown(f, sent.value);
      }
    }
  }
}
