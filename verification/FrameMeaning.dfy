/** What frames hold and what fitting does to them, in plain terms. */
module FrameMeaning {
  import opened Outcomes
  import opened Utf8
  import opened JsonFrames
  import opened FrameFit
  import opened FrameStreams
  import CommandParser

  // -- Fitting ----------------------------------------------------------------------

  predicate Ticker(f: Frame) {
    exists i :: 0 <= i < |f| && f[i].key == CMD && f[i].value == Str(TICKER_APPEND)
  }

  // Everything but the strings outside "cmd".
  lemma EmptiedIs(f: Frame)
    ensures |Emptied(f)| == |f|
    ensures forall i :: 0 <= i < |f| ==>
      Emptied(f)[i] == if f[i].key != CMD && f[i].value.Str? then Entry(f[i].key, Str([])) else f[i]
  {
  }

  // Only a ticker's text is cut beforehand, to the longest prefix of at most 127 bytes.
  lemma PreCutIs(f: Frame)
    ensures |PreCut(f)| == |f|
    ensures forall i :: 0 <= i < |f| ==>
      if Ticker(f) && f[i].key == TEXT && f[i].value.Str?
      then PreCut(f)[i].key == f[i].key && PreCut(f)[i].value.Str?
           && LongestPrefix(f[i].value.text, 127, PreCut(f)[i].value.text)
      else PreCut(f)[i] == f[i]
  {
    hide Utf8Prefix, LongestPrefix;
    assert Ticker(f) <==> IsTicker(f) by {
      hide CMD, TICKER_APPEND;
      if Ticker(f) {
        var i :| 0 <= i < |f| && f[i].key == CMD && f[i].value == Str(TICKER_APPEND);
        assert f[i] == Entry(CMD, Str(TICKER_APPEND)) && f[i] in f;
      }
    }
    forall i | 0 <= i < |f| && f[i].value.Str?
      ensures LongestPrefix(f[i].value.text, 127, Utf8Prefix(f[i].value.text, 127))
    {
      PrefixIsLongest(f[i].value.text, 127);
    }
  }

  // Both may be shortened, and the one at i takes more bytes, or as many and comes earlier.
  predicate Precedes(g: Frame, i: nat, j: nat) {
    && i < |g| && g[i].key != CMD && g[i].value.Str?
    && j < |g| && g[j].key != CMD && g[j].value.Str?
    && var (a, b) := (|Encode(g[i].value.text)|, |Encode(g[j].value.text)|);
       a > b || (a == b && i < j)
  }

  // A fitted frame takes fewer than 200 bytes; only strings outside "cmd" are shortened, each
  // to a prefix; and one is only touched when every longer one, or as long and earlier, is empty.
  lemma FittedIs(g: Frame, r: Frame)
    requires Fitted(g, r)
    ensures |Encode(EncodeFrame(r))| < 200 && |r| == |g|
    ensures forall i :: 0 <= i < |g| ==>
      && r[i].key == g[i].key
      && if g[i].key != CMD && g[i].value.Str?
         then r[i].value.Str? && r[i].value.text <= g[i].value.text else r[i] == g[i]
    ensures forall i: nat, j: nat :: Precedes(g, i, j) && r[j] != g[j] ==> r[i].value == Str([])
  {
    hide Maximal, EncodeFrame, Encode;
    forall i: nat, j: nat | Precedes(g, i, j) && r[j] != g[j]
      ensures r[i].value == Str([])
    {
      assert IsCut(g, r, j) && Ahead(g, i, j);
    }
  }

  // -- Weather ----------------------------------------------------------------------

  // What a number shows as: itself, unless it is missing or zero.
  function Shown(x: Option<Number>, otherwise: Text): Text {
    if x.Some? && x.value.value != 0.0 then x.value.digits else otherwise
  }

  // Keys are written in ASCII: 0x74 is t, 0x68 is h, 0x6C is l and so on.
  function NumberEntry(key: Text, digits: Text): Entry {
    Entry(key, Other(digits))
  }

  // The temperature under "t", the high under "h" and the low under "l"; both of these
  // default to the temperature, and that to 0.0.
  ghost predicate WeatherNumbers(p: Weather, f: Frame) {
    var t := Shown(p.temperature, TextFrom("0.0"));
    && NumberEntry([0x74], t) in f
    && NumberEntry([0x68], Shown(p.high, t)) in f && NumberEntry([0x6C], Shown(p.low, t)) in f
  }

  // The day's place under "i", its high under "h" and its low under "lo".
  ghost predicate DayNumbers(i: nat, d: Day, f: Frame)
    requires i < 10
  {
    && NumberEntry([0x69], [0x30 + i]) in f
    && NumberEntry([0x68], Shown(d.high, TextFrom("0.0"))) in f
    && NumberEntry([0x6C, 0x6F], Shown(d.low, TextFrom("0.0"))) in f
  }

  lemma OrShows(x: Option<Number>, fallback: Number)
    ensures Or(x, fallback).digits == Shown(x, fallback.digits)
  {
  }

  // A string under this key, cut to the longest prefix of at most cap bytes.
  ghost predicate Capped(e: Entry, key: Text, t: Text, cap: nat) {
    e.key == key && e.value.Str? && LongestPrefix(t, cap, e.value.text)
  }

  predicate Commands(e: Entry, name: string)
    requires forall i :: 0 <= i < |name| ==> name[i] < 128 as char
  {
    e == Entry(CMD, Str(TextFrom(name)))
  }

  ghost predicate WeatherEntries(p: Weather, f: Frame) {
    && |f| == 5 && Commands(f[0], "WEATHER") && WeatherNumbers(p, f)
    && Capped(f[2], [0x63, 0x6F], TextOf(p.conditions), 30)
  }

  ghost predicate DayEntries(i: nat, d: Day, f: Frame)
    requires i < 10
  {
    && |f| == 6 && Commands(f[0], "WEATHER_DAY") && DayNumbers(i, d, f)
    && Capped(f[2], [0x6C], TextOf(d.dayLabel), 3) && Capped(f[5], [0x63], TextOf(d.conditions), 24)
  }

  lemma WeatherFrameIs(p: Weather)
    ensures WeatherEntries(p, WeatherFrame(p))
  {
    CommandParser.KeysDiffer();
    hide TextFrom, Utf8Prefix, LongestPrefix, Or, Shown;
    var temp := Or(p.temperature, ZERO);
    OrShows(p.temperature, ZERO);
    OrShows(p.high, temp);
    OrShows(p.low, temp);
    PrefixIsLongest(TextOf(p.conditions), 30);
    var f := WeatherFrame(p);
    assert f[1] in f && f[3] in f && f[4] in f;
  }

  lemma DayFrameIs(i: nat, d: Day)
    requires i < 10
    ensures DayEntries(i, d, DayFrame(i, d))
  {
    CommandParser.KeysDiffer();
    hide TextFrom, Utf8Prefix, LongestPrefix, Or, Shown;
    OrShows(d.high, ZERO);
    OrShows(d.low, ZERO);
    PrefixIsLongest(TextOf(d.dayLabel), 3);
    PrefixIsLongest(TextOf(d.conditions), 24);
    var f := DayFrame(i, d);
    assert f[1] in f && f[3] in f && f[4] in f;
  }

  // -- Calendar ---------------------------------------------------------------------

  // k is the place of the first T.
  predicate FirstT(s: Text, k: nat) {
    k < |s| && s[k] == 0x54 && forall j :: 0 <= j < k ==> s[j] != 0x54
  }

  lemma {:induction false} FindTIs(s: Text)
    ensures match FindT(s)
            case Some(k) => FirstT(s, k)
            case None => 0x54 !in s
  {
    if s != [] && s[0] != 0x54 {
      FindTIs(s[1..]);
    }
  }

  // A timed event shows the five characters behind the T, as far as there are any; an
  // all-day event, or one without a T, the first ten.
  lemma TimeTextIs(start: Text, allDay: bool)
    ensures allDay || 0x54 !in start ==>
      TimeText(start, allDay) == if |start| <= 10 then start else start[..10]
    ensures forall k: nat :: !allDay && FirstT(start, k) ==>
      TimeText(start, allDay) == if |start| <= k + 6 then start[k + 1..] else start[k + 1..k + 6]
  {
    FindTIs(start);
  }

  // true or false
  function Flag(b: bool): Text {
    if b then [0x74, 0x72, 0x75, 0x65] else [0x66, 0x61, 0x6C, 0x73, 0x65]
  }

  lemma FlagIs(b: bool)
    ensures Bool(b) == Other(Flag(b))
  {
    assert TextFrom("true") == Flag(true);
    assert TextFrom("false") == Flag(false);
  }

  // The event's place, its summary, its time and whether it lasts all day.
  ghost predicate EventEntries(i: nat, e: CalendarEvent, f: Frame)
    requires i < 10
  {
    && |f| == 5 && Commands(f[0], "CAL_EVENT")
    && f[1] == NumberEntry([0x69], [0x30 + i])
    && Capped(f[2], [0x73], TextOf(e.summary), 50)
    && Capped(f[3], [0x74], TimeText(TextOf(e.start), e.allDay), 16)
    && f[4] == NumberEntry([0x61], Flag(e.allDay))
  }

  lemma EventFrameIs(i: nat, e: CalendarEvent)
    requires i < 10
    ensures EventEntries(i, e, EventFrame(i, e))
  {
    CommandParser.KeysDiffer();
    FlagIs(e.allDay);
    hide TextFrom, Utf8Prefix, LongestPrefix, TimeText, Bool, Flag;
    PrefixIsLongest(TextOf(e.summary), 50);
    PrefixIsLongest(TimeText(TextOf(e.start), e.allDay), 16);
  }

  // How many of the events before i have the summary of the one at i.
  function SameBefore(evs: seq<CalendarEvent>, i: nat): nat
    requires i < |evs|
  {
    |set j | 0 <= j < i && TextOf(evs[j].summary) == TextOf(evs[i].summary)|
  }

  lemma {:induction false} OccurrencesAre(evs: seq<CalendarEvent>, s: Text)
    ensures Occurrences(evs, s) == |set j | 0 <= j < |evs| && TextOf(evs[j].summary) == s|
  {
    if evs != [] {
      var n := |evs| - 1;
      OccurrencesAre(evs[..n], s);
      var before := set j | 0 <= j < n && TextOf(evs[..n][j].summary) == s;
      var all := set j | 0 <= j < |evs| && TextOf(evs[j].summary) == s;
      assert all == before + if TextOf(evs[n].summary) == s then {n} else {};
    }
  }

  // Event by event: one stays exactly if fewer than five before it have its summary.
  lemma KeptOneByOne(evs: seq<CalendarEvent>, i: nat)
    requires i < |evs|
    ensures NotRepeated([]) == []
    ensures NotRepeated(evs[..i + 1]) == NotRepeated(evs[..i]) + if SameBefore(evs, i) < 5 then [evs[i]] else []
  {
    var s := TextOf(evs[i].summary);
    assert evs[..i + 1][..i] == evs[..i];
    OccurrencesAre(evs[..i], s);
    assert (set j | 0 <= j < i && TextOf(evs[..i][j].summary) == s)
        == (set j | 0 <= j < i && TextOf(evs[j].summary) == s);
  }
}
