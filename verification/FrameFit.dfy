/** Shortening a frame's strings until its encoding fits the firmware's budget. */
module FrameFit {
  import opened Outcomes
  import opened Utf8
  import opened JsonFrames

  const MAX_FRAME_BYTES := 200
  const TICKER_BYTES := 127

  const CMD := TextFrom("cmd")
  const TEXT := TextFrom("text")
  const TICKER_APPEND := TextFrom("TICKER-APPEND")

  predicate Fits(f: Frame) {
    FrameSize(f) < MAX_FRAME_BYTES
  }

  // A string that may be shortened.
  predicate Cuttable(e: Entry) {
    e.key != CMD && e.value.Str?
  }

  function WithText(f: Frame, i: nat, t: Text): Frame
    requires i < |f|
  {
    f[i := Entry(f[i].key, Str(t))]
  }

  // -- What shortening promises -------------------------------------------------

  // A ticker's text is cut to what the firmware's buffer holds before anything else.
  predicate IsTicker(f: Frame) {
    exists e :: e in f && e == Entry(CMD, Str(TICKER_APPEND))
  }

  function PreCutEntry(e: Entry): Entry {
    if e.key == TEXT && e.value.Str? then Entry(e.key, Str(Utf8Prefix(e.value.text, TICKER_BYTES))) else e
  }

  function CutTexts(f: Frame): (g: Frame)
    ensures |g| == |f| && forall i :: 0 <= i < |f| ==> g[i] == PreCutEntry(f[i])
  {
    if f == [] then [] else [PreCutEntry(f[0])] + CutTexts(f[1..])
  }

  function PreCut(f: Frame): (g: Frame)
    ensures |g| == |f|
  {
    if IsTicker(f) then CutTexts(f) else f
  }

  function EmptiedEntry(e: Entry): Entry {
    if Cuttable(e) then Entry(e.key, Str([])) else e
  }

  function Emptied(f: Frame): (g: Frame)
    ensures |g| == |f| && forall i :: 0 <= i < |f| ==> g[i] == EmptiedEntry(f[i])
  {
    if f == [] then [] else [EmptiedEntry(f[0])] + Emptied(f[1..])
  }

  // Only strings differ, and each is a prefix of what it was.
  predicate Shape(g: Frame, r: Frame) {
    && |g| == |r|
    && forall i :: 0 <= i < |g| ==>
         r[i].key == g[i].key &&
         if Cuttable(g[i]) then r[i].value.Str? && r[i].value.text <= g[i].value.text else r[i] == g[i]
  }

  // Among strings to shorten, i comes before j: it is longer, or as long and earlier.
  predicate Ahead(g: Frame, i: nat, j: nat)
    requires i < |g| && j < |g|
  {
    Cuttable(g[i]) && Cuttable(g[j]) &&
    var a, b := Utf8Size(g[i].value.text), Utf8Size(g[j].value.text);
    a > b || (a == b && i < j)
  }

  predicate IsCut(g: Frame, r: Frame, i: nat)
    requires i < |g| && i < |r|
  {
    r[i] != g[i]
  }

  // Whatever comes before a shortened string was emptied.
  ghost predicate LongestFirst(g: Frame, r: Frame)
    requires Shape(g, r)
  {
    forall i, j :: 0 <= i < |g| && 0 <= j < |g| && IsCut(g, r, j) && Ahead(g, i, j) ==> r[i].value.text == []
  }

  predicate LastCut(g: Frame, r: Frame, i: nat)
    requires Shape(g, r)
  {
    i < |g| && IsCut(g, r, i) && forall j :: 0 <= j < |g| && IsCut(g, r, j) ==> !Ahead(g, i, j)
  }

  // One code point more of the last string shortened, and the frame no longer fits.
  ghost predicate Maximal(g: Frame, r: Frame)
    requires Shape(g, r)
  {
    forall i: nat :: LastCut(g, r, i) ==>
      |r[i].value.text| < |g[i].value.text| && !Fits(WithText(r, i, g[i].value.text[..|r[i].value.text| + 1]))
  }

  ghost predicate Fitted(g: Frame, r: Frame) {
    Fits(r) && Shape(g, r) && LongestFirst(g, r) && Maximal(g, r)
  }

  // -- The search for the longest prefix that fits ----------------------------------

  lemma LongerIsLarger(f: Frame, i: nat, t: Text, j: nat, k: nat)
    requires i < |f| && j < k <= |t|
    ensures FrameSize(WithText(f, i, t[..j])) < FrameSize(WithText(f, i, t[..k]))
  {
    SizeUpdate(f, i, Entry(f[i].key, Str(t[..j])));
    SizeUpdate(f, i, Entry(f[i].key, Str(t[..k])));
    StringEntrySize(f[i].key, t[..j]);
    StringEntrySize(f[i].key, t[..k]);
    EscapedPrefixSize(t, j, k);
  }

  lemma Rewrite(f: Frame, i: nat, t: Text, u: Text)
    requires i < |f|
    ensures WithText(WithText(f, i, t), i, u) == WithText(f, i, u)
  {
  }

  // Halves the range as the source does; the frame is left with the prefix found.
  method CutString(f: Frame, i: nat) returns (r: Frame, kept: nat)
    requires i < |f| && Cuttable(f[i]) && f[i].value.text != [] && !Fits(f)
    ensures kept < |f[i].value.text| && r == WithText(f, i, f[i].value.text[..kept])
    ensures kept > 0 ==> Fits(r)
    ensures !Fits(WithText(f, i, f[i].value.text[..kept + 1]))
  {
    hide FrameSize;
    var value := f[i].value.text;
    assert value[..|value|] == value && f == WithText(f, i, value);
    var low, high := 0, |value|;
    r := f;
    while low < high
      invariant 0 <= low <= high <= |value|
      invariant |r| == |f| && forall t :: WithText(r, i, t) == WithText(f, i, t)
      invariant low > 0 ==> Fits(WithText(f, i, value[..low]))
      invariant high < |value| ==> !Fits(WithText(f, i, value[..high + 1]))
    {
      var mid := (low + high + 1) / 2;
      r := WithText(r, i, value[..mid]);
      if Fits(r) {
        low := mid;
      } else {
        high := mid - 1;
      }
    }
    r := WithText(r, i, value[..low]);
    kept := low;
  }

  // -- Fitting --------------------------------------------------------------------

  predicate Shrinkable(e: Entry) {
    Cuttable(e) && e.value.text != []
  }

  // The first of the longest strings that are not empty yet, if any.
  method PickLongest(f: Frame) returns (k: Option<nat>)
    ensures k.None? ==> forall i :: 0 <= i < |f| ==> !Shrinkable(f[i])
    ensures k.Some? ==>
      && k.value < |f| && Shrinkable(f[k.value])
      && forall i :: 0 <= i < |f| && i != k.value && Shrinkable(f[i]) ==> Ahead(f, k.value, i)
  {
    k := None;
    var i := 0;
    while i < |f|
      invariant 0 <= i <= |f|
      invariant k.None? ==> forall j :: 0 <= j < i ==> !Shrinkable(f[j])
      invariant k.Some? ==>
        && k.value < i && Shrinkable(f[k.value])
        && forall j :: 0 <= j < i && j != k.value && Shrinkable(f[j]) ==> Ahead(f, k.value, j)
    {
      if Shrinkable(f[i]) && (k.None? || Utf8Size(f[i].value.text) > Utf8Size(f[k.value].value.text)) {
        k := Some(i);
      }
      i := i + 1;
    }
  }

  // While the frame is too large, every string shortened so far is empty.
  ghost predicate AllEmptied(g: Frame, r: Frame)
    requires Shape(g, r)
  {
    forall i :: 0 <= i < |g| && IsCut(g, r, i) ==> r[i].value.text == []
  }

  // One round: the longest string of r is cut to kept code points.
  lemma RoundKeeps(g: Frame, r: Frame, k: nat, kept: nat)
    requires Shape(g, r) && LongestFirst(g, r) && AllEmptied(g, r)
    requires k < |g| && Shrinkable(r[k]) && kept < |r[k].value.text|
    requires forall i :: 0 <= i < |r| && i != k && Shrinkable(r[i]) ==> Ahead(r, k, i)
    requires !Fits(WithText(r, k, r[k].value.text[..kept + 1]))
    ensures var s := WithText(r, k, r[k].value.text[..kept]);
      Shape(g, s) && LongestFirst(g, s) && Maximal(g, s) && (kept == 0 ==> AllEmptied(g, s))
  {
    hide FrameSize, Utf8Size;
    var s := WithText(r, k, r[k].value.text[..kept]);
    assert r[k] == g[k];
    assert IsCut(g, s, k);
    forall i | 0 <= i < |g| && Cuttable(g[i]) && i != k && r[i].value.text != []
      ensures Ahead(g, k, i)
    {
      assert !IsCut(g, r, i) && Shrinkable(r[i]);
    }
    forall j | 0 <= j < |g| && j != k && IsCut(g, s, j)
      ensures Ahead(g, j, k)
    {
      assert IsCut(g, r, j) && r[j].value.text == [];
      assert !Ahead(g, k, j);
    }
    forall i: nat | LastCut(g, s, i)
      ensures i == k
    {
      assert !Ahead(g, i, k);
    }
    Rewrite(r, k, r[k].value.text[..kept], g[k].value.text[..kept + 1]);
  }

  // a is b with some strings cut further.
  predicate Within(a: Frame, b: Frame) {
    && |a| == |b|
    && forall i :: 0 <= i < |a| ==>
         a[i] == b[i] ||
         (a[i].key == b[i].key && a[i].value.Str? && b[i].value.Str? && a[i].value.text <= b[i].value.text)
  }

  lemma EntryWithin(key: Text, t: Text, u: Text)
    requires t <= u
    ensures EntrySize(Entry(key, Str(t))) <= EntrySize(Entry(key, Str(u)))
  {
    StringEntrySize(key, t);
    StringEntrySize(key, u);
    assert t == u[..|t|] && u == u[..|u|];
    if |t| < |u| {
      EscapedPrefixSize(u, |t|, |u|);
    }
  }

  lemma {:induction false} TotalWithin(a: Frame, b: Frame)
    requires Within(a, b)
    ensures Total(a) <= Total(b)
  {
    hide EntrySize;
    if a != [] {
      if a[0] != b[0] {
        EntryWithin(a[0].key, a[0].value.text, b[0].value.text);
      }
      TotalWithin(a[1..], b[1..]);
    }
  }

  lemma FitsWithin(a: Frame, b: Frame)
    requires Within(a, b) && Fits(b)
    ensures Fits(a)
  {
    FrameSizeIs(a);
    FrameSizeIs(b);
    TotalWithin(a, b);
  }

  lemma PreCutKeeps(f: Frame)
    ensures forall i :: 0 <= i < |f| ==> EmptiedEntry(PreCut(f)[i]) == EmptiedEntry(f[i])
  {
  }

  lemma EmptiedWithin(f: Frame, r: Frame)
    requires Shape(PreCut(f), r)
    ensures Within(Emptied(f), r)
    ensures (forall i :: 0 <= i < |r| ==> !Shrinkable(r[i])) ==> r == Emptied(f)
  {
    PreCutKeeps(f);
    hide PreCut, Emptied;
    var g := PreCut(f);
    assert forall i :: 0 <= i < |f| ==> Emptied(f)[i] == EmptiedEntry(g[i]);
  }

  method FitFrame(f: Frame) returns (r: Option<Frame>)
    ensures r.None? <==> !Fits(Emptied(f))
    ensures r.Some? ==> Fitted(PreCut(f), r.value)
  {
    hide Fits, AllEmptied, LongestFirst, Maximal, PreCut, Emptied, CutTexts;
    var g := PreCut(f);
    var result := g;
    StartsWhole(g);
    while !Fits(result)
      invariant Shape(g, result) && LongestFirst(g, result) && Maximal(g, result)
      invariant !Fits(result) ==> AllEmptied(g, result)
      decreases FrameSize(result)
    {
      EmptiedWithin(f, result);
      var key := PickLongest(result);
      if key.None? {
        return None;
      }
      var kept: nat;
      ghost var was := result;
      result, kept := CutString(result, key.value);
      RoundKeeps(g, was, key.value, kept);
      CutIsSmaller(was, key.value, kept);
    }
    EmptiedWithin(f, result);
    FitsWithin(Emptied(f), result);
    r := Some(result);
  }

  lemma StartsWhole(g: Frame)
    ensures Shape(g, g) && LongestFirst(g, g) && Maximal(g, g) && AllEmptied(g, g)
  {
  }

  lemma CutIsSmaller(f: Frame, i: nat, kept: nat)
    requires i < |f| && f[i].value.Str? && kept < |f[i].value.text|
    ensures FrameSize(WithText(f, i, f[i].value.text[..kept])) < FrameSize(f)
  {
    var t := f[i].value.text;
    assert t[..|t|] == t && WithText(f, i, t) == f;
    LongerIsLarger(f, i, t, kept, |t|);
  }

  // -- The promise leaves no choice --------------------------------------------------

  // The last shortened string, if any was.
  lemma {:induction false} FindLastCut(g: Frame, r: Frame, n: nat) returns (k: Option<nat>)
    requires Shape(g, r) && n <= |g|
    ensures k.None? ==> forall i :: 0 <= i < n ==> !IsCut(g, r, i)
    ensures k.Some? ==> k.value < n && IsCut(g, r, k.value)
    ensures k.Some? ==> forall j :: 0 <= j < n && IsCut(g, r, j) ==> !Ahead(g, k.value, j)
  {
    hide Utf8Size;
    if n == 0 {
      k := None;
    } else {
      k := FindLastCut(g, r, n - 1);
      if IsCut(g, r, n - 1) && (k.None? || Ahead(g, k.value, n - 1)) {
        k := Some(n - 1);
      }
    }
  }

  // Of all strings that were shortened, at most one keeps anything.
  lemma AtMostOnePartial(g: Frame, r: Frame, i: nat, j: nat)
    requires Fitted(g, r) && i < |g| && j < |g| && i != j && IsCut(g, r, i) && IsCut(g, r, j)
    ensures r[i].value.text == [] || r[j].value.text == []
  {
    assert Ahead(g, i, j) || Ahead(g, j, i);
  }

  // A frame no shorter elsewhere is no longer where r was last cut.
  lemma CutNoEarlier(g: Frame, r: Frame, s: Frame, m: nat)
    requires Fitted(g, r) && Fitted(g, s) && LastCut(g, r, m)
    requires forall i :: 0 <= i < |g| && i != m && Cuttable(g[i]) ==> r[i].value.text <= s[i].value.text
    ensures |s[m].value.text| <= |r[m].value.text|
  {
    var t := g[m].value.text;
    var k := |r[m].value.text|;
    if k < |s[m].value.text| {
      var x := WithText(r, m, t[..k + 1]);
      assert s[m].value.text[..k + 1] == t[..k + 1];
      assert Within(x, s);
      FitsWithin(x, s);
    }
  }

  lemma LastCutNotLater(g: Frame, r: Frame, s: Frame, m: nat, n: nat)
    requires Fitted(g, r) && Fitted(g, s) && LastCut(g, r, m) && LastCut(g, s, n)
    ensures !Ahead(g, m, n)
  {
    hide FrameSize, Utf8Size, Maximal;
    if Ahead(g, m, n) {
      assert !IsCut(g, r, n) && s[m].value.text == [];
      forall i | 0 <= i < |g| && i != n && Cuttable(g[i])
        ensures s[i].value.text <= r[i].value.text
      {
        assert i == m || Ahead(g, i, m) || Ahead(g, m, i);
      }
      CutNoEarlier(g, s, r, n);
    }
  }

  lemma Uncut(g: Frame, r: Frame)
    requires Shape(g, r) && forall i :: 0 <= i < |g| ==> !IsCut(g, r, i)
    ensures r == g
  {
    forall i | 0 <= i < |g|
      ensures r[i] == g[i]
    {
      assert !IsCut(g, r, i);
    }
  }

  lemma UncutIsUnique(g: Frame, s: Frame)
    requires Fitted(g, g) && Fitted(g, s)
    ensures s == g
  {
    hide FrameSize, Utf8Size, Maximal;
    var k := FindLastCut(g, s, |g|);
    if k.Some? {
      assert LastCut(g, s, k.value);
      CutNoEarlier(g, s, g, k.value);
    } else {
      Uncut(g, s);
    }
  }

  lemma SameLastCut(g: Frame, r: Frame, s: Frame, m: nat)
    requires Fitted(g, r) && Fitted(g, s) && LastCut(g, r, m) && LastCut(g, s, m)
    ensures r == s
  {
    hide FrameSize, Utf8Size, Maximal;
    forall i | 0 <= i < |g| && i != m
      ensures r[i] == s[i]
    {
      if Cuttable(g[i]) {
        assert Ahead(g, i, m) || Ahead(g, m, i);
      }
    }
    CutNoEarlier(g, r, s, m);
    CutNoEarlier(g, s, r, m);
  }

  // The order of cutting, the prefixes and maximality determine the frame.
  lemma FittedIsUnique(g: Frame, r: Frame, s: Frame)
    requires Fitted(g, r) && Fitted(g, s)
    ensures r == s
  {
    hide FrameSize, Utf8Size, Maximal, LongestFirst;
    var m := FindLastCut(g, r, |g|);
    var n := FindLastCut(g, s, |g|);
    if m.None? {
      Uncut(g, r);
      UncutIsUnique(g, s);
    } else if n.None? {
      Uncut(g, s);
      UncutIsUnique(g, r);
    } else {
      LastCutNotLater(g, r, s, m.value, n.value);
      LastCutNotLater(g, s, r, n.value, m.value);
      assert m.value == n.value;
      SameLastCut(g, r, s, m.value);
    }
  }
}
