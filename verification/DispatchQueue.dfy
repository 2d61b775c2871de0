/** The worker's priority queue: commands in the order a priority queue gives them out. */
module DispatchQueue {
  datatype Command = Command(negPriority: int, number: nat, notBefore: real, expiresAt: real, attempts: nat)

  predicate Before(a: Command, b: Command) {
    a.negPriority < b.negPriority || (a.negPriority == b.negPriority && a.number < b.number)
  }

  predicate Sorted(q: seq<Command>) {
    forall i, j :: 0 <= i < j < |q| ==> Before(q[i], q[j])
  }

  predicate Holds(q: seq<Command>, number: nat) {
    exists c :: c in q && c.number == number
  }

  function Insert(q: seq<Command>, c: Command): (r: seq<Command>)
    ensures |r| == |q| + 1
  {
    if q == [] then [c]
    else if Before(c, q[0]) then [c] + q
    else [q[0]] + Insert(q[1..], c)
  }

  // The new queue holds the old commands and c, nothing else.
  lemma {:induction false} InsertHolds(q: seq<Command>, c: Command)
    ensures forall x :: x in Insert(q, c) <==> x in q || x == c
    ensures multiset(Insert(q, c)) == multiset(q) + multiset{c}
  {
    if q == [] {
    } else if Before(c, q[0]) {
    } else {
      InsertHolds(q[1..], c);
      assert q == [q[0]] + q[1..];
    }
  }

  lemma {:induction false} InsertSorted(q: seq<Command>, c: Command)
    requires Sorted(q) && forall x :: x in q ==> x.number != c.number
    ensures Sorted(Insert(q, c))
  {
    if q != [] && !Before(c, q[0]) {
      InsertSorted(q[1..], c);
      InsertHolds(q[1..], c);
      var r := Insert(q[1..], c);
      forall x | x in r
        ensures Before(q[0], x)
      {
        if x != c {
          var i :| 0 <= i < |q[1..]| && q[1..][i] == x;
          assert q[i + 1] == x;
        } else {
          assert q[0] in q;
        }
      }
    }
  }

  // What was taken from the head goes back to the head.
  lemma InsertHead(q: seq<Command>)
    requires Sorted(q) && q != []
    ensures Insert(q[1..], q[0]) == q
  {
  }

  lemma {:induction false} InsertLast(q: seq<Command>, c: Command)
    requires forall x :: x in q ==> Before(x, c)
    ensures Insert(q, c) == q + [c]
  {
    if q != [] {
      assert q[0] in q;
      InsertLast(q[1..], c);
    }
  }

  // -- Expiry -------------------------------------------------------------

  function Unexpired(q: seq<Command>, now: real): (r: seq<Command>)
    ensures |r| <= |q|
  {
    if q == [] then []
    else
      var last := q[|q| - 1];
      Unexpired(q[..|q| - 1], now) + if now > last.expiresAt then [] else [last]
  }

  lemma {:induction false} UnexpiredIsExact(q: seq<Command>, now: real)
    ensures forall c :: c in Unexpired(q, now) <==> c in q && now <= c.expiresAt
  {
    if q != [] {
      UnexpiredIsExact(q[..|q| - 1], now);
    }
  }

  lemma {:induction false} UnexpiredSorted(q: seq<Command>, now: real)
    requires Sorted(q)
    ensures Sorted(Unexpired(q, now))
  {
    if q != [] {
      UnexpiredSorted(q[..|q| - 1], now);
      UnexpiredIsExact(q[..|q| - 1], now);
    }
  }
}
