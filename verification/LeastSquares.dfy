/** The least-squares slope through a series of points, over the reals. */
module LeastSquares {
  function Sum(s: seq<real>): real {
    if s == [] then 0.0 else Sum(s[..|s| - 1]) + s[|s| - 1]
  }

  function Mean(s: seq<real>): real
    requires s != []
  {
    Sum(s) / |s| as real
  }

  // Named so that proofs by induction need no nonlinear arithmetic.
  function Times(a: real, b: real): real {
    a * b
  }

  // The sum of (xs[i] - a) * (ys[i] - b).
  function Products(xs: seq<real>, ys: seq<real>, a: real, b: real): real
    requires |xs| == |ys|
  {
    if xs == [] then 0.0
    else Products(xs[..|xs| - 1], ys[..|ys| - 1], a, b) + Times(xs[|xs| - 1] - a, ys[|ys| - 1] - b)
  }

  predicate Increasing(s: seq<real>) {
    forall i, j :: 0 <= i < j < |s| ==> s[i] < s[j]
  }

  function Spread(xs: seq<real>): real
    requires xs != []
  {
    Products(xs, xs, Mean(xs), Mean(xs))
  }

  // Points that lie apart have a slope.
  lemma SpreadPositive(xs: seq<real>)
    requires Increasing(xs) && |xs| >= 2
    ensures Spread(xs) > 0.0
  {
    SquaresPositive(xs, Mean(xs));
  }

  lemma {:induction false} SquaresPositive(xs: seq<real>, a: real)
    requires Increasing(xs)
    ensures Products(xs, xs, a, a) >= 0.0
    ensures |xs| >= 2 ==> Products(xs, xs, a, a) > 0.0
  {
    hide Times;
    if xs != [] {
      var front, x := xs[..|xs| - 1], xs[|xs| - 1];
      SquaresPositive(front, a);
      Square(x - a);
      if |xs| == 2 {
        assert xs[0] < xs[1];
        Square(xs[0] - a);
        assert Products(front[..0], front[..0], a, a) == 0.0;
        assert Products(front, front, a, a) == Times(xs[0] - a, xs[0] - a);
      }
    }
  }

  lemma Positive(a: real, b: real)
    requires a > 0.0 && b > 0.0
    ensures Times(a, b) > 0.0
  {
  }

  lemma Square(d: real)
    ensures Times(d, d) >= 0.0 && (d != 0.0 ==> Times(d, d) > 0.0)
  {
    if d < 0.0 {
      Positive(-d, -d);
      assert Times(-d, -d) == Times(d, d);
    } else if d > 0.0 {
      Positive(d, d);
    }
  }

  function Slope(xs: seq<real>, ys: seq<real>): real
    requires |xs| == |ys| && |xs| >= 2 && Increasing(xs)
  {
    SpreadPositive(xs);
    Products(xs, ys, Mean(xs), Mean(ys)) / Spread(xs)
  }

  // -- The slope lies between the rates of neighbouring points -------------------

  // From each point to the next, y grows at most c times as much as x.
  predicate RatesAtMost(xs: seq<real>, ys: seq<real>, c: real)
    requires |xs| == |ys|
  {
    forall i :: 0 < i < |xs| ==> ys[i] - ys[i - 1] <= Times(c, xs[i] - xs[i - 1])
  }

  predicate RatesAtLeast(xs: seq<real>, ys: seq<real>, c: real)
    requires |xs| == |ys|
  {
    forall i :: 0 < i < |xs| ==> ys[i] - ys[i - 1] >= Times(c, xs[i] - xs[i - 1])
  }

  lemma Distribute(k: real, u: real, v: real)
    ensures Times(k, u + v) == Times(k, u) + Times(k, v)
  {
  }

  lemma Shift(x: real, y: real, a: real, b: real, w: real)
    ensures Times(x - a, y - b) == Times(x - a, y - w) + Times(w - b, x - a)
  {
  }

  // How far the values lie from a, in sum.
  function Deviation(xs: seq<real>, a: real): real {
    if xs == [] then 0.0 else Deviation(xs[..|xs| - 1], a) + (xs[|xs| - 1] - a)
  }

  lemma {:induction false} DeviationIs(xs: seq<real>, a: real)
    ensures Deviation(xs, a) == Sum(xs) - |xs| as real * a
  {
    if xs != [] {
      DeviationIs(xs[..|xs| - 1], a);
      assert |xs| as real * a == (|xs| - 1) as real * a + a;
    }
  }

  lemma {:induction false} ProductsShift(xs: seq<real>, ys: seq<real>, a: real, b: real, w: real)
    requires |xs| == |ys|
    ensures Products(xs, ys, a, b) == Products(xs, ys, a, w) + Times(w - b, Deviation(xs, a))
  {
    if xs == [] {
      assert Times(w - b, 0.0) == 0.0;
    } else {
      hide Times;
      var n := |xs| - 1;
      ProductsShift(xs[..n], ys[..n], a, b, w);
      Shift(xs[n], ys[n], a, b, w);
      Distribute(w - b, Deviation(xs[..n], a), xs[n] - a);
    }
  }

  // Deviations from the mean cancel, so the ys may be taken from any origin.
  lemma MeanCancels(xs: seq<real>, ys: seq<real>, w: real)
    requires |xs| == |ys| && xs != []
    ensures Products(xs, ys, Mean(xs), Mean(ys)) == Products(xs, ys, Mean(xs), w)
  {
    ProductsShift(xs, ys, Mean(xs), Mean(ys), w);
    DeviationIs(xs, Mean(xs));
    assert Deviation(xs, Mean(xs)) == 0.0;
    assert Times(w - Mean(ys), 0.0) == 0.0;
  }

  lemma {:induction false} RatesAcross(xs: seq<real>, ys: seq<real>, c: real, i: nat, j: nat)
    requires |xs| == |ys| && RatesAtMost(xs, ys, c) && i <= j < |xs|
    ensures ys[j] - ys[i] <= Times(c, xs[j] - xs[i])
  {
    if i < j {
      hide Times;
      RatesAcross(xs, ys, c, i, j - 1);
      Distribute(c, xs[j] - xs[j - 1], xs[j - 1] - xs[i]);
    } else {
      assert Times(c, 0.0) == 0.0;
    }
  }

  // The last point at or before a, or the first point if none is.
  lemma {:induction false} FindPivot(xs: seq<real>, a: real) returns (p: nat)
    requires Increasing(xs) && xs != []
    ensures p < |xs|
    ensures forall i :: 0 <= i < p ==> xs[i] < a
    ensures forall i :: p < i < |xs| ==> xs[i] > a
  {
    var n := |xs| - 1;
    if n == 0 || xs[n] <= a {
      p := n;
    } else {
      p := FindPivot(xs[..n], a);
    }
  }

  // Seen from (px, py), the point lies on the side of the line of slope c that lowers the
  // sum of products.
  predicate Pulls(x: real, y: real, a: real, c: real, px: real, py: real) {
    if x >= a then y - py <= Times(c, x - px) else y - py >= Times(c, x - px)
  }

  lemma Term(u: real, dy: real, dx: real, c: real)
    requires if u >= 0.0 then dy <= c * dx else dy >= c * dx
    ensures Times(u, dy) <= Times(c, Times(u, dx))
  {
  }

  lemma {:induction false} ProductsAtMost(xs: seq<real>, ys: seq<real>, c: real, a: real, px: real, py: real)
    requires |xs| == |ys|
    requires forall i :: 0 <= i < |xs| ==> Pulls(xs[i], ys[i], a, c, px, py)
    ensures Products(xs, ys, a, py) <= Times(c, Products(xs, xs, a, px))
  {
    if xs == [] {
      assert Times(c, 0.0) == 0.0;
    } else {
      var n := |xs| - 1;
      assert Pulls(xs[n], ys[n], a, c, px, py);
      Term(xs[n] - a, ys[n] - py, xs[n] - px, c);
      hide Times, Pulls;
      ProductsAtMost(xs[..n], ys[..n], c, a, px, py);
      Distribute(c, Products(xs[..n], xs[..n], a, px), Times(xs[n] - a, xs[n] - px));
    }
  }

  lemma Flip(c: real, u: real)
    ensures Times(c, -u) == -Times(c, u)
  {
  }

  lemma AgainstPivot(xs: seq<real>, ys: seq<real>, c: real, a: real, p: nat, i: nat)
    requires |xs| == |ys| && RatesAtMost(xs, ys, c) && p < |xs| && i < |xs|
    requires (i < p ==> xs[i] < a) && (i > p ==> xs[i] > a)
    ensures Pulls(xs[i], ys[i], a, c, xs[p], ys[p])
  {
    hide Times;
    if i < p {
      RatesAcross(xs, ys, c, i, p);
      Flip(c, xs[p] - xs[i]);
    } else {
      RatesAcross(xs, ys, c, p, i);
      Flip(c, xs[p] - xs[i]);
    }
  }

  // The slope's numerator against its denominator.
  lemma NumeratorAtMost(xs: seq<real>, ys: seq<real>, c: real)
    requires |xs| == |ys| && xs != [] && Increasing(xs) && RatesAtMost(xs, ys, c)
    ensures Products(xs, ys, Mean(xs), Mean(ys)) <= Times(c, Spread(xs))
  {
    hide Times, Products, Sum, Mean;
    var a := Mean(xs);
    var p := FindPivot(xs, a);
    forall i | 0 <= i < |xs|
      ensures Pulls(xs[i], ys[i], a, c, xs[p], ys[p])
    {
      AgainstPivot(xs, ys, c, a, p, i);
    }
    ProductsAtMost(xs, ys, c, a, xs[p], ys[p]);
    MeanCancels(xs, ys, ys[p]);
    MeanCancels(xs, xs, xs[p]);
  }

  lemma SlopeAtMost(xs: seq<real>, ys: seq<real>, c: real)
    requires |xs| == |ys| && |xs| >= 2 && Increasing(xs) && RatesAtMost(xs, ys, c)
    ensures Slope(xs, ys) <= c
  {
    hide Times, Products, Sum, Mean;
    NumeratorAtMost(xs, ys, c);
    SpreadPositive(xs);
    QuotientAtMost(Products(xs, ys, Mean(xs), Mean(ys)), Spread(xs), c);
  }

  lemma QuotientAtMost(n: real, d: real, c: real)
    requires d > 0.0 && n <= Times(c, d)
    ensures n / d <= c
  {
  }

  // -- The other direction -----------------------------------------------------

  function Negated(ys: seq<real>): (r: seq<real>)
    ensures |r| == |ys| && forall i :: 0 <= i < |ys| ==> r[i] == -ys[i]
  {
    if ys == [] then [] else Negated(ys[..|ys| - 1]) + [-ys[|ys| - 1]]
  }

  lemma {:induction false} NegatedProducts(xs: seq<real>, ys: seq<real>, a: real, b: real)
    requires |xs| == |ys|
    ensures Products(xs, Negated(ys), a, -b) == -Products(xs, ys, a, b)
  {
    hide Times;
    if xs != [] {
      var n := |xs| - 1;
      NegatedProducts(xs[..n], ys[..n], a, b);
      assert Negated(ys)[..n] == Negated(ys[..n]);
      Flip(xs[n] - a, ys[n] - b);
    }
  }

  lemma FlipLeft(c: real, u: real)
    ensures Times(-c, u) == -Times(c, u)
  {
  }

  lemma NegatedRates(xs: seq<real>, ys: seq<real>, c: real)
    requires |xs| == |ys| && RatesAtLeast(xs, ys, c)
    ensures RatesAtMost(xs, Negated(ys), -c)
  {
    hide Times, Negated;
    forall i | 0 < i < |xs|
      ensures Negated(ys)[i] - Negated(ys)[i - 1] <= Times(-c, xs[i] - xs[i - 1])
    {
      FlipLeft(c, xs[i] - xs[i - 1]);
    }
  }

  lemma SlopeAtLeast(xs: seq<real>, ys: seq<real>, c: real)
    requires |xs| == |ys| && |xs| >= 2 && Increasing(xs) && RatesAtLeast(xs, ys, c)
    ensures Slope(xs, ys) >= c
  {
    hide Times, Products, Sum, Mean, Negated;
    NegatedRates(xs, ys, c);
    NumeratorAtMost(xs, Negated(ys), -c);
    MeanCancels(xs, Negated(ys), -Mean(ys));
    NegatedProducts(xs, ys, Mean(xs), Mean(ys));
    FlipLeft(c, Spread(xs));
    SpreadPositive(xs);
    QuotientAtLeast(Products(xs, ys, Mean(xs), Mean(ys)), Spread(xs), c);
  }

  lemma QuotientAtLeast(n: real, d: real, c: real)
    requires d > 0.0 && n >= Times(c, d)
    ensures n / d >= c
  {
  }

  // -- It is the least-squares slope -----------------------------------------------

  // The sum of the squared distances of the points from the line a * x + b.
  function SquaredError(xs: seq<real>, ys: seq<real>, a: real, b: real): real
    requires |xs| == |ys|
  {
    if xs == [] then 0.0
    else
      var n := |xs| - 1;
      var r := ys[n] - (Times(a, xs[n]) + b);
      SquaredError(xs[..n], ys[..n], a, b) + Times(r, r)
  }

  // The sum of (v - a * u + c)^2, from the sums of v * v, u * v, u * u, v, u and 1.
  function Expansion(vv: real, uv: real, uu: real, v: real, u: real, n: real, a: real, c: real): real {
    vv - 2.0 * Times(a, uv) + Times(Times(a, a), uu) + 2.0 * Times(c, v) - 2.0 * Times(Times(a, c), u)
    + Times(Times(c, c), n)
  }

  lemma ExpansionAdds(vv: real, uv: real, uu: real, v: real, u: real, n: real,
                      vv': real, uv': real, uu': real, v': real, u': real, n': real, a: real, c: real)
    ensures Expansion(vv + vv', uv + uv', uu + uu', v + v', u + u', n + n', a, c) ==
              Expansion(vv, uv, uu, v, u, n, a, c) + Expansion(vv', uv', uu', v', u', n', a, c)
  {
    hide Times;
    Distribute(a, uv, uv');
    Distribute(Times(a, a), uu, uu');
    Distribute(c, v, v');
    Distribute(Times(a, c), u, u');
    Distribute(Times(c, c), n, n');
  }

  lemma NothingExpands(a: real, c: real)
    ensures Expansion(0.0, 0.0, 0.0, 0.0, 0.0, 0.0, a, c) == 0.0
  {
  }

  lemma SquareOfThree(v: real, w: real, c: real)
    ensures (v - w + c) * (v - w + c) == v * v - 2.0 * (v * w) + w * w + 2.0 * (c * v) - 2.0 * (c * w) + c * c
  {
  }

  // One distance, seen from the point (p, q).
  lemma ErrorTerm(x: real, y: real, a: real, b: real, p: real, q: real)
    ensures var u, v, c := x - p, y - q, q - Times(a, p) - b;
            Times(y - (Times(a, x) + b), y - (Times(a, x) + b)) ==
              Expansion(Times(v, v), Times(u, v), Times(u, u), v, u, 1.0, a, c)
  {
    var u, v, c := x - p, y - q, q - Times(a, p) - b;
    assert a * x == a * u + a * p;
    assert y - (Times(a, x) + b) == v - a * u + c;
    SquareOfThree(v, a * u, c);
    assert v * (a * u) == a * (u * v);
    assert (a * u) * (a * u) == (a * a) * (u * u);
    assert c * (a * u) == (a * c) * u;
  }

  // What the distances sum to, whatever that point.
  lemma {:induction false} ErrorExpands(xs: seq<real>, ys: seq<real>, a: real, b: real, p: real, q: real)
    requires |xs| == |ys|
    ensures SquaredError(xs, ys, a, b) ==
              Expansion(Products(ys, ys, q, q), Products(xs, ys, p, q), Products(xs, xs, p, p),
                        Deviation(ys, q), Deviation(xs, p), |xs| as real, a, q - Times(a, p) - b)
  {
    if xs == [] {
      NothingExpands(a, q - Times(a, p) - b);
    } else {
      hide Times, Expansion;
      var n := |xs| - 1;
      var u, v, c := xs[n] - p, ys[n] - q, q - Times(a, p) - b;
      ErrorExpands(xs[..n], ys[..n], a, b, p, q);
      ErrorTerm(xs[n], ys[n], a, b, p, q);
      ExpansionAdds(Products(ys[..n], ys[..n], q, q), Products(xs[..n], ys[..n], p, q),
                    Products(xs[..n], xs[..n], p, p),
                    Deviation(ys[..n], q), Deviation(xs[..n], p), n as real,
                    Times(v, v), Times(u, v), Times(u, u), v, u, 1.0, a, c);
      assert |xs| as real == n as real + 1.0;
    }
  }

  lemma Centred(xs: seq<real>)
    requires xs != []
    ensures Deviation(xs, Mean(xs)) == 0.0
  {
    DeviationIs(xs, Mean(xs));
  }

  lemma Quotient(n: real, d: real)
    requires d > 0.0
    ensures n == Times(n / d, d)
  {
  }

  // With the sums of u and v zero and that of u * v equal to m times that of u * u.
  lemma CompleteSquare(vv: real, s: real, n: real, a: real, m: real, c: real)
    ensures Expansion(vv, Times(m, s), s, 0.0, 0.0, n, a, c) ==
              Expansion(vv, Times(m, s), s, 0.0, 0.0, n, m, 0.0) + Times(s, Times(a - m, a - m)) + Times(n, Times(c, c))
  {
    assert a * (m * s) == (a * m) * s && m * (m * s) == (m * m) * s;
    assert s * ((a - m) * (a - m)) == (a * a) * s - 2.0 * ((a * m) * s) + (m * m) * s;
  }

  // A line's error exceeds the least by what its slope and its offset cost.
  lemma ErrorOf(xs: seq<real>, ys: seq<real>, a: real, b: real)
    requires |xs| == |ys| && |xs| >= 2 && Increasing(xs)
    ensures var m, c := Slope(xs, ys), Mean(ys) - Times(a, Mean(xs)) - b;
            SquaredError(xs, ys, a, b) ==
              SquaredError(xs, ys, m, Mean(ys) - Times(m, Mean(xs)))
              + Times(Spread(xs), Times(a - m, a - m)) + Times(|xs| as real, Times(c, c))
  {
    hide Products, Deviation, SquaredError, Sum, Mean, Times, Expansion;
    var m, p, q := Slope(xs, ys), Mean(xs), Mean(ys);
    SpreadPositive(xs);
    Centred(xs);
    Centred(ys);
    ErrorExpands(xs, ys, a, b, p, q);
    ErrorExpands(xs, ys, m, q - Times(m, p), p, q);
    Quotient(Products(xs, ys, p, q), Spread(xs));
    var vv, s, n, c := Products(ys, ys, q, q), Spread(xs), |xs| as real, q - Times(a, p) - b;
    CompleteSquare(vv, s, n, a, m, c);
    assert Products(xs, ys, p, q) == Times(m, s) && Products(xs, xs, p, p) == s;
    assert SquaredError(xs, ys, a, b) == Expansion(vv, Times(m, s), s, 0.0, 0.0, n, a, c);
    assert q - Times(m, p) - (q - Times(m, p)) == 0.0;
    assert SquaredError(xs, ys, m, q - Times(m, p)) == Expansion(vv, Times(m, s), s, 0.0, 0.0, n, m, 0.0);
  }

  lemma NotNegative(a: real, b: real)
    requires a >= 0.0 && b >= 0.0
    ensures Times(a, b) >= 0.0
  {
  }

  // No line has a smaller squared error than the one of this slope through the means, and a
  // line of any other slope has a larger one.
  lemma SlopeIsLeastSquares(xs: seq<real>, ys: seq<real>, a: real, b: real)
    requires |xs| == |ys| && |xs| >= 2 && Increasing(xs)
    ensures var m := Slope(xs, ys);
            var least := SquaredError(xs, ys, m, Mean(ys) - Times(m, Mean(xs)));
            SquaredError(xs, ys, a, b) >= least && (a != m ==> SquaredError(xs, ys, a, b) > least)
  {
    hide Products, Slope, SquaredError, Sum, Mean, Times, Spread;
    ErrorOf(xs, ys, a, b);
    SpreadPositive(xs);
    var m, c := Slope(xs, ys), Mean(ys) - Times(a, Mean(xs)) - b;
    Square(a - m);
    Square(c);
    if a != m {
      Positive(Spread(xs), Times(a - m, a - m));
    }
    NotNegative(Spread(xs), Times(a - m, a - m));
    NotNegative(|xs| as real, Times(c, c));
  }
}
