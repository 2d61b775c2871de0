/** Weather and calendar payloads as streams of small frames. */
module FrameStreams {
  import opened Outcomes
  import opened Utf8
  import opened JsonFrames
  import opened FrameFit

  // A float with the text it prints as.
  datatype Number = Number(value: real, digits: Text)

  const ZERO := Number(0.0, TextFrom("0.0"))

  datatype Day = Day(dayLabel: Option<Text>, high: Option<Number>, low: Option<Number>, conditions: Option<Text>)

  datatype Weather = Weather(temperature: Option<Number>, conditions: Option<Text>,
                             high: Option<Number>, low: Option<Number>, forecast: seq<Day>)

  datatype CalendarEvent = CalendarEvent(summary: Option<Text>, start: Option<Text>, allDay: bool)

  // x or fallback: a zero counts as missing.
  function Or(x: Option<Number>, fallback: Number): Number {
    if x.Some? && x.value.value != 0.0 then x.value else fallback
  }

  function TextOf(x: Option<Text>): Text {
    if x.Some? then x.value else []
  }

  function Digit(i: nat): (v: Value)
    requires i < 10
    ensures v.Other?
  {
    Other([0x30 + i])
  }

  function Bool(b: bool): (v: Value)
    ensures v.Other?
  {
    Other(if b then TextFrom("true") else TextFrom("false"))
  }

  // Python's s[i:j]: positions past the end are clamped.
  function Slice(s: Text, i: nat, j: nat): Text {
    var hi := if j < |s| then j else |s|;
    if i < hi then s[i..hi] else []
  }

  // -- Weather ------------------------------------------------------------------

  const FORECAST_DAYS := 4

  function WeatherFrame(p: Weather): Frame {
    var temp := Or(p.temperature, ZERO);
    [ Entry(CMD, Str(TextFrom("WEATHER"))),
      Entry(TextFrom("t"), Other(temp.digits)),
      Entry(TextFrom("co"), Str(Utf8Prefix(TextOf(p.conditions), 30))),
      Entry(TextFrom("h"), Other(Or(p.high, temp).digits)),
      Entry(TextFrom("l"), Other(Or(p.low, temp).digits)) ]
  }

  function DayFrame(i: nat, d: Day): Frame
    requires i < 10
  {
    [ Entry(CMD, Str(TextFrom("WEATHER_DAY"))),
      Entry(TextFrom("i"), Digit(i)),
      Entry(TextFrom("l"), Str(Utf8Prefix(TextOf(d.dayLabel), 3))),
      Entry(TextFrom("h"), Other(Or(d.high, ZERO).digits)),
      Entry(TextFrom("lo"), Other(Or(d.low, ZERO).digits)),
      Entry(TextFrom("c"), Str(Utf8Prefix(TextOf(d.conditions), 24))) ]
  }

  // One frame for the present, then one for each of the first four days, in order.
  method WeatherStream(p: Weather) returns (msgs: seq<Frame>)
    ensures |msgs| == 1 + (if |p.forecast| < FORECAST_DAYS then |p.forecast| else FORECAST_DAYS)
    ensures msgs[0] == WeatherFrame(p)
    ensures forall i :: 1 <= i < |msgs| ==> msgs[i] == DayFrame(i - 1, p.forecast[i - 1])
  {
    hide WeatherFrame, DayFrame;
    msgs := [WeatherFrame(p)];
    var days := if |p.forecast| < FORECAST_DAYS then p.forecast else p.forecast[..FORECAST_DAYS];
    var i := 0;
    while i < |days|
      invariant 0 <= i <= |days| && |msgs| == i + 1
      invariant msgs[0] == WeatherFrame(p)
      invariant forall j :: 1 <= j < |msgs| ==> msgs[j] == DayFrame(j - 1, p.forecast[j - 1])
    {
      msgs := msgs + [DayFrame(i, days[i])];
      i := i + 1;
    }
  }

  // -- Calendar -------------------------------------------------------------------

  const MAX_SAME := 5
  const MAX_EVENTS := 8

  function Occurrences(evs: seq<CalendarEvent>, s: Text): nat {
    if evs == [] then 0
    else Occurrences(evs[..|evs| - 1], s) + if TextOf(evs[|evs| - 1].summary) == s then 1 else 0
  }

  // The events with fewer than five before them of the same summary.
  function NotRepeated(evs: seq<CalendarEvent>): seq<CalendarEvent> {
    if evs == [] then []
    else
      var (front, last) := (evs[..|evs| - 1], evs[|evs| - 1]);
      NotRepeated(front) + if Occurrences(front, TextOf(last.summary)) < MAX_SAME then [last] else []
  }

  // Of each summary, the first five stay.
  lemma {:induction false} AtMostFiveStay(evs: seq<CalendarEvent>, s: Text)
    ensures Occurrences(NotRepeated(evs), s) ==
              if Occurrences(evs, s) < MAX_SAME then Occurrences(evs, s) else MAX_SAME
  {
    if evs != [] {
      var (front, last) := (evs[..|evs| - 1], evs[|evs| - 1]);
      AtMostFiveStay(front, s);
      var kept := NotRepeated(front);
      assert (kept + [last])[..|kept|] == kept;
      assert kept + [] == kept;
    }
  }

  function FindT(s: Text): Option<nat> {
    if s == [] then None
    else if s[0] == 0x54 then Some(0)
    else var r := FindT(s[1..]); if r.Some? then Some(r.value + 1) else None
  }

  // The date of an all-day event, the hour and minute of any other that has them.
  function TimeText(start: Text, allDay: bool): Text {
    var t := FindT(start);
    if allDay || t.None? then Slice(start, 0, 10) else Slice(start, t.value + 1, t.value + 6)
  }

  function EventFrame(i: nat, e: CalendarEvent): Frame
    requires i < 10
  {
    [ Entry(CMD, Str(TextFrom("CAL_EVENT"))),
      Entry(TextFrom("i"), Digit(i)),
      Entry(TextFrom("s"), Str(Utf8Prefix(TextOf(e.summary), 50))),
      Entry(TextFrom("t"), Str(Utf8Prefix(TimeText(TextOf(e.start), e.allDay), 16))),
      Entry(TextFrom("a"), Bool(e.allDay)) ]
  }

  method FilterEvents(events: seq<CalendarEvent>) returns (filtered: seq<CalendarEvent>)
    ensures filtered == NotRepeated(events)
  {
    var counts: map<Text, nat> := map[];
    filtered := [];
    var i := 0;
    assert events[..0] == [];
    while i < |events|
      invariant 0 <= i <= |events| && filtered == NotRepeated(events[..i])
      invariant forall s :: (if s in counts then counts[s] else 0) == Occurrences(filtered, s)
    {
      var ev := events[i];
      var s := TextOf(ev.summary);
      assert events[..i + 1][..i] == events[..i];
      AtMostFiveStay(events[..i], s);
      var seen := if s in counts then counts[s] else 0;
      if seen < MAX_SAME {
        assert (filtered + [ev])[..|filtered|] == filtered;
        filtered := filtered + [ev];
        counts := counts[s := seen + 1];
      }
      i := i + 1;
    }
    assert events[..i] == events;
  }

  method CalendarStream(events: seq<CalendarEvent>) returns (msgs: seq<Frame>)
    ensures var kept := NotRepeated(events);
      && |msgs| == (if |kept| < MAX_EVENTS then |kept| else MAX_EVENTS)
      && forall i :: 0 <= i < |msgs| ==> msgs[i] == EventFrame(i, kept[i])
  {
    hide EventFrame, NotRepeated;
    var filtered := FilterEvents(events);
    var shown := if |filtered| < MAX_EVENTS then filtered else filtered[..MAX_EVENTS];
    msgs := [];
    var i := 0;
    while i < |shown|
      invariant 0 <= i <= |shown| && |msgs| == i
      invariant forall j :: 0 <= j < i ==> msgs[j] == EventFrame(j, filtered[j])
    {
      msgs := msgs + [EventFrame(i, shown[i])];
      i := i + 1;
    }
  }

  // -- Fitting a stream -----------------------------------------------------------

  // Every frame fitted, or nothing.
  method FitAll(frames: seq<Frame>) returns (r: Option<seq<Frame>>)
    ensures r.None? <==> exists f :: f in frames && !Fits(Emptied(f))
    ensures r.Some? ==> |r.value| == |frames| &&
                        forall i :: 0 <= i < |frames| ==> Fitted(PreCut(frames[i]), r.value[i])
  {
    hide Fits, Emptied, Fitted, PreCut;
    var fitted: seq<Frame> := [];
    var i := 0;
    while i < |frames|
      invariant 0 <= i <= |frames| && |fitted| == i
      invariant forall j :: 0 <= j < i ==> Fits(Emptied(frames[j])) && Fitted(PreCut(frames[j]), fitted[j])
    {
      var one := FitFrame(frames[i]);
      if one.None? {
        assert frames[i] in frames;
        return None;
      }
      fitted := fitted + [one.value];
      i := i + 1;
    }
    r := Some(fitted);
  }

  // -- No stream frame is too large to fit --------------------------------------------

  predicate PlainPoint(c: Point) {
    0x20 <= c < 0x7F && c != 0x22 && c != 0x5C
  }

  predicate PlainText(t: Text) {
    forall c :: c in t ==> PlainPoint(c)
  }

  lemma {:induction false} PlainSize(t: Text)
    requires PlainText(t)
    ensures EscapedSize(t) == Utf8Size(t) == |t|
  {
    if t != [] {
      assert t[0] in t && t == [t[0]] + t[1..];
      PlainSize(t[1..]);
      assert EscapePoint(t[0]) == [t[0]];
      OnePoint(t[0]);
      SizeAppend([t[0]], Escape(t[1..]));
      SizeAppend([t[0]], t[1..]);
    }
  }

  // What a float prints as: at most 24 characters, none that needs escaping.
  predicate Printed(n: Number) {
    |n.digits| <= 24 && PlainText(n.digits)
  }

  // An entry whose key and value are at most so long.
  predicate Short(e: Entry, n: nat) {
    PlainText(e.key) &&
    match e.value
    case Str(t) => PlainText(t) && |e.key| + |t| + 6 <= n
    case Other(t) => PlainText(t) && |e.key| + |t| + 4 <= n
  }

  lemma ShortSize(e: Entry, n: nat)
    requires Short(e, n)
    ensures EntrySize(e) + 1 <= n
  {
    PlainSize(e.key);
    match e.value
    case Str(t) =>
      PlainSize(t);
      StringEntrySize(e.key, t);
    case Other(t) =>
      PlainSize(t);
      QuotedSize(e.key);
      OnePoint(0x3A);
      SizeAppend(Quoted(e.key) + [0x3A], t);
      SizeAppend(Quoted(e.key), [0x3A]);
  }

  lemma {:induction false} TotalBound(f: Frame, n: nat)
    requires forall i :: 0 <= i < |f| ==> Short(f[i], n)
    ensures Total(f) <= |f| * n
  {
    hide Short, EntrySize;
    if f != [] {
      ShortSize(f[0], n);
      TotalBound(f[1..], n);
      assert |f| * n == |f[1..]| * n + n;
    }
  }

  lemma FewShortFit(f: Frame, n: nat)
    requires (forall i :: 0 <= i < |f| ==> Short(EmptiedEntry(f[i]), n)) && |f| * n + 1 < MAX_FRAME_BYTES
    ensures Fits(Emptied(f))
  {
    hide Short, FrameSize, Total, EmptiedEntry;
    FrameSizeIs(Emptied(f));
    TotalBound(Emptied(f), n);
  }

  lemma {:induction false} LiteralPlain(s: string)
    requires forall i :: 0 <= i < |s| ==> ' ' <= s[i] <= '~' && s[i] != '"' && s[i] != '\\'
    ensures PlainText(TextFrom(s))
  {
    if s != "" {
      LiteralPlain(s[1..]);
    }
  }

  // The command's own entry, and entries with a short key and a string, digits or nothing.
  lemma CommandShort(name: string, n: nat)
    requires forall i :: 0 <= i < |name| ==> ' ' <= name[i] <= '~' && name[i] != '"' && name[i] != '\\'
    requires |name| + 9 <= n
    ensures Short(EmptiedEntry(Entry(CMD, Str(TextFrom(name)))), n)
  {
    LiteralPlain("cmd");
    LiteralPlain(name);
  }

  lemma StringShort(key: string, t: Text, n: nat)
    requires |key| < 3 && |key| + 6 <= n
    requires forall i :: 0 <= i < |key| ==> ' ' <= key[i] <= '~' && key[i] != '"' && key[i] != '\\'
    ensures Short(EmptiedEntry(Entry(TextFrom(key), Str(t))), n)
  {
    LiteralPlain(key);
    assert |TextFrom(key)| != |CMD|;
  }

  lemma OtherShort(key: string, json: Text, n: nat)
    requires PlainText(json) && |key| + |json| + 4 <= n
    requires forall i :: 0 <= i < |key| ==> ' ' <= key[i] <= '~' && key[i] != '"' && key[i] != '\\'
    ensures Short(EmptiedEntry(Entry(TextFrom(key), Other(json))), n)
  {
    LiteralPlain(key);
  }

  // An index or a flag prints short and plain.
  lemma OtherPlain(i: nat, b: bool)
    requires i < 10
    ensures PlainText(Digit(i).json) && |Digit(i).json| == 1
    ensures PlainText(Bool(b).json) && |Bool(b).json| <= 5
  {
    LiteralPlain("true");
    LiteralPlain("false");
  }

  // So does a float, and the zero that stands for a missing one.
  lemma OrPlain(x: Option<Number>, fallback: Number)
    requires (x.Some? ==> Printed(x.value)) && (fallback == ZERO || Printed(fallback))
    ensures Printed(Or(x, fallback))
  {
  }

  lemma WeatherFits(p: Weather)
    requires forall x :: x in [p.temperature, p.high, p.low] && x.Some? ==> Printed(x.value)
    ensures Fits(Emptied(WeatherFrame(p)))
  {
    hide Utf8Prefix, Short, EmptiedEntry, Fits, TextFrom, PlainText, Or;
    var temp := Or(p.temperature, ZERO);
    OrPlain(p.temperature, ZERO);
    OrPlain(p.high, temp);
    OrPlain(p.low, temp);
    CommandShort("WEATHER", 29);
    OtherShort("t", temp.digits, 29);
    StringShort("co", Utf8Prefix(TextOf(p.conditions), 30), 29);
    OtherShort("h", Or(p.high, temp).digits, 29);
    OtherShort("l", Or(p.low, temp).digits, 29);
    FewShortFit(WeatherFrame(p), 29);
  }

  lemma DayFits(i: nat, d: Day)
    requires i < 10 && forall x :: x in [d.high, d.low] && x.Some? ==> Printed(x.value)
    ensures Fits(Emptied(DayFrame(i, d)))
  {
    hide Utf8Prefix, Short, EmptiedEntry, Fits, TextFrom, PlainText, Or;
    OrPlain(d.high, ZERO);
    OrPlain(d.low, ZERO);
    OtherPlain(i, true);
    CommandShort("WEATHER_DAY", 30);
    OtherShort("i", Digit(i).json, 30);
    StringShort("l", Utf8Prefix(TextOf(d.dayLabel), 3), 30);
    OtherShort("h", Or(d.high, ZERO).digits, 30);
    OtherShort("lo", Or(d.low, ZERO).digits, 30);
    StringShort("c", Utf8Prefix(TextOf(d.conditions), 24), 30);
    FewShortFit(DayFrame(i, d), 30);
  }

  lemma EventFits(i: nat, e: CalendarEvent)
    requires i < 10
    ensures Fits(Emptied(EventFrame(i, e)))
  {
    hide Utf8Prefix, Short, EmptiedEntry, Fits, TextFrom, PlainText;
    OtherPlain(i, e.allDay);
    CommandShort("CAL_EVENT", 20);
    OtherShort("i", Digit(i).json, 20);
    StringShort("s", Utf8Prefix(TextOf(e.summary), 50), 20);
    StringShort("t", Utf8Prefix(TimeText(TextOf(e.start), e.allDay), 16), 20);
    OtherShort("a", Bool(e.allDay).json, 20);
    FewShortFit(EventFrame(i, e), 20);
  }
}
