/** The one-counter matcher with which the receiver looks for its identity in a
    stream of plaintext, and the exact condition under which it misses nothing. */
module IdentityMatcher {
  import opened Bytes

  // matched: the receiver's _matched; found: its _identity_found.
  datatype Match = Match(matched: nat, found: bool)

  const START := Match(0, false)

  predicate Consistent(id: seq<byte>, m: Match) {
    m.matched <= |id| && (m.found <==> m.matched == |id|)
  }

  // One iteration of the matching loop: a mismatch falls back to 0 or 1 only.
  function Step(id: seq<byte>, m: Match, b: byte): (r: Match)
    requires id != [] && Consistent(id, m)
    ensures Consistent(id, r)
  {
    if m.found then m
    else
      var k := if b == id[m.matched] then m.matched + 1 else if b == id[0] then 1 else 0;
      Match(k, k == |id|)
  }

  function Run(id: seq<byte>, text: seq<byte>): (r: Match)
    requires id != []
    ensures Consistent(id, r)
  {
    if text == [] then START else Step(id, Run(id, text[..|text| - 1]), text[|text| - 1])
  }

  lemma RunOneMore(id: seq<byte>, text: seq<byte>, b: byte)
    requires id != []
    ensures Run(id, text + [b]) == Step(id, Run(id, text), b)
  {
    assert (text + [b])[..|text|] == text;
  }

  // The last n bytes of text are the first n bytes of id.
  ghost predicate EndsWith(text: seq<byte>, id: seq<byte>, n: nat) {
    n <= |id| && n <= |text| && text[|text| - n..] == id[..n]
  }

  // A proper border of id[..m] whose next byte differs from id[m]: after such a
  // mismatch the matcher forgets a partial match that is still alive.
  ghost predicate StrongBorderAt(id: seq<byte>, j: nat, m: nat) {
    1 <= j < m < |id| && id[..j] == id[m - j..m] && id[j] != id[m]
  }

  ghost predicate HasStrongBorder(id: seq<byte>) {
    exists j, m :: StrongBorderAt(id, j, m)
  }

  // Carried across two pieces of text, the matcher behaves as on their concatenation.
  function Resume(id: seq<byte>, m: Match, text: seq<byte>): (r: Match)
    requires id != [] && Consistent(id, m)
    ensures Consistent(id, r)
  {
    if text == [] then m else Step(id, Resume(id, m, text[..|text| - 1]), text[|text| - 1])
  }

  lemma {:induction false} ResumeRun(id: seq<byte>, a: seq<byte>, b: seq<byte>)
    requires id != []
    ensures Resume(id, Run(id, a), b) == Run(id, a + b)
  {
    if b == [] {
      assert a + b == a;
    } else {
      var front := b[..|b| - 1];
      ResumeRun(id, a, front);
      assert (a + b)[..|a + b| - 1] == a + front;
    }
  }

  lemma {:induction false} FoundStays(id: seq<byte>, a: seq<byte>, b: seq<byte>)
    requires id != [] && Run(id, a).found
    ensures Run(id, a + b) == Run(id, a)
  {
    if b == [] {
      assert a + b == a;
    } else {
      FoundStays(id, a, b[..|b| - 1]);
      assert (a + b)[..|a + b| - 1] == a + b[..|b| - 1];
    }
  }

  // Whatever the identity, the counter is the length of a live partial match
  // and a reported match is a real one.
  lemma {:induction false} FoundIsReal(id: seq<byte>, text: seq<byte>)
    requires id != []
    ensures !Run(id, text).found ==> EndsWith(text, id, Run(id, text).matched)
    ensures Run(id, text).found ==> Contains(text, id)
  {
    if text != [] {
      var front, b := text[..|text| - 1], text[|text| - 1];
      FoundIsReal(id, front);
      var m := Run(id, front);
      if m.found {
        var i :| OccursAt(front, id, i);
        assert OccursAt(text, id, i);
      } else {
        ExtendEnds(front, id, m.matched, b);
        var k := Run(id, text).matched;
        assert EndsWith(text, id, k);
        if k == |id| {
          assert OccursAt(text, id, |text| - k);
        }
      }
    }
  }

  lemma ExtendEnds(front: seq<byte>, id: seq<byte>, n: nat, b: byte)
    requires EndsWith(front, id, n) && n < |id|
    ensures b == id[n] ==> EndsWith(front + [b], id, n + 1)
    ensures b == id[0] ==> EndsWith(front + [b], id, 1)
    ensures EndsWith(front + [b], id, 0)
  {
  }

  // Shortening a partial match by its last byte leaves a partial match.
  lemma ShortenEnds(text: seq<byte>, id: seq<byte>, n: nat)
    requires n > 0 && EndsWith(text, id, n)
    ensures EndsWith(text[..|text| - 1], id, n - 1) && text[|text| - 1] == id[n - 1]
  {
  }

  // A match that outlives a mismatch at m is a strong border.
  lemma LongerEndIsBorder(front: seq<byte>, b: byte, id: seq<byte>, m: nat, k: nat)
    requires EndsWith(front, id, m) && EndsWith(front + [b], id, k)
    requires 1 < k <= m < |id| && b != id[m]
    ensures StrongBorderAt(id, k - 1, m)
  {
  }

  lemma OccurrenceEndsOrIsOld(front: seq<byte>, b: byte, id: seq<byte>, i: nat)
    requires OccursAt(front + [b], id, i)
    ensures EndsWith(front + [b], id, |id|) || OccursAt(front, id, i)
  {
    if i + |id| <= |front| {
      assert front[i..i + |id|] == (front + [b])[i..i + |id|];
    }
  }

  // Without a strong border the counter is the longest live partial match, so
  // no occurrence is missed.
  lemma {:induction false} NothingMissed(id: seq<byte>, text: seq<byte>)
    requires id != [] && !HasStrongBorder(id)
    ensures !Run(id, text).found ==>
              forall k :: Run(id, text).matched < k <= |id| ==> !EndsWith(text, id, k)
    ensures !Run(id, text).found ==> !Contains(text, id)
  {
    if text != [] {
      var front, b := text[..|text| - 1], text[|text| - 1];
      assert text == front + [b];
      NothingMissed(id, front);
      FoundIsReal(id, front);
      var m, r := Run(id, front), Run(id, text);
      if !r.found {
        forall k | r.matched < k <= |id|
          ensures !EndsWith(text, id, k)
        {
          if EndsWith(text, id, k) {
            ShortenEnds(text, id, k);
            if 1 <= k - 1 < m.matched {
              LongerEndIsBorder(front, b, id, m.matched, k);
            }
          }
        }
        forall i
          ensures !OccursAt(text, id, i)
        {
          if OccursAt(text, id, i) {
            OccurrenceEndsOrIsOld(front, b, id, i);
          }
        }
      }
    }
  }

  lemma {:induction false} PrefixMatches(id: seq<byte>, m: nat)
    requires id != [] && m <= |id|
    ensures Run(id, id[..m]) == Match(m, m == |id|)
  {
    if m > 0 {
      PrefixMatches(id, m - 1);
      assert id[..m][..m - 1] == id[..m - 1];
    }
  }

  // The counter grows by at most one per byte.
  lemma {:induction false} SlowGrowth(id: seq<byte>, m: Match, text: seq<byte>)
    requires id != [] && Consistent(id, m)
    ensures Resume(id, m, text).matched <= m.matched + |text|
  {
    if text != [] {
      SlowGrowth(id, m, text[..|text| - 1]);
    }
  }

  // A strong border yields a text that contains the identity and is not recognised.
  lemma {:induction false} StrongBorderIsMissed(id: seq<byte>, j: nat, m: nat)
    requires StrongBorderAt(id, j, m)
    ensures var text := id[..m] + id[j..];
            Contains(text, id) && !Run(id, text).found
  {
    var text := id[..m] + id[j..];
    assert id == id[..j] + id[j..];
    assert id[..m] == id[..m - j] + id[m - j..m];
    assert text == id[..m - j] + (id[m - j..m] + id[j..]);
    assert text[m - j..m - j + |id|] == id;
    assert OccursAt(text, id, m - j);
    PrefixMatches(id, m);
    var past := id[..m] + [id[j]];
    assert past[..|past| - 1] == id[..m];
    assert Run(id, past).matched <= 1;
    assert text == past + id[j + 1..];
    ResumeRun(id, past, id[j + 1..]);
    SlowGrowth(id, Run(id, past), id[j + 1..]);
  }

  // Such as an identity whose start a recurs before it goes on differently: repeated up to
  // there, it is not recognised.
  lemma RepeatedStartIsMissed(a: seq<byte>, b: seq<byte>, c: seq<byte>)
    requires a != [] && b != [] && c != [] && b[0] != c[0]
    ensures var id := a + b + a + c;
      var text := a + b + a + b + a + c;
      StrongBorderAt(id, |a|, |a + b + a|) && Contains(text, id) && !Run(id, text).found
  {
    var id := a + b + a + c;
    var m := |a + b + a|;
    assert id[..|a|] == a == id[m - |a|..m];
    assert id[..m] == a + b + a && id[|a|..] == b + a + c;
    StrongBorderIsMissed(id, |a|, m);
    assert id[..m] + id[|a|..] == a + b + a + b + a + c;
  }

  // The matcher is exact on every text if and only if the identity has no strong border.
  lemma ExactIffNoStrongBorder(id: seq<byte>)
    requires id != []
    ensures (forall text :: Run(id, text).found <==> Contains(text, id)) <==> !HasStrongBorder(id)
  {
    if HasStrongBorder(id) {
      var j, m :| StrongBorderAt(id, j, m);
      StrongBorderIsMissed(id, j, m);
    } else {
      forall text
        ensures Run(id, text).found <==> Contains(text, id)
      {
        FoundIsReal(id, text);
        NothingMissed(id, text);
      }
    }
  }

  // A first byte that occurs nowhere else rules strong borders out.
  lemma UniqueFirstByte(id: seq<byte>)
    requires forall i :: 0 < i < |id| ==> id[i] != id[0]
    ensures !HasStrongBorder(id)
  {
  }
}
