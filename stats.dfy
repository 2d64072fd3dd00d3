/** Exact-arithmetic versions of the summary statistics the analyzers
    compute with `sum`, `len`, `min` and `max`. */
module Stats {

  function Sum(xs: seq<real>): real {
    if xs == [] then 0.0 else xs[0] + Sum(xs[1..])
  }

  /** `sum(xs) / len(xs)` */
  function Mean(xs: seq<real>): real
    requires |xs| > 0
  {
    Sum(xs) / (|xs| as real)
  }

  /** `sum((x - m) ** 2 for x in xs)` */
  function SquaredDeviations(xs: seq<real>, m: real): real {
    if xs == [] then 0.0 else Square(xs[0] - m) + SquaredDeviations(xs[1..], m)
  }

  /** Population variance, as the analyzers compute it. */
  function Variance(xs: seq<real>): real
    requires |xs| > 0
  {
    SquaredDeviations(xs, Mean(xs)) / (|xs| as real)
  }

  /** `min(xs)` on a non-empty list */
  function Min(xs: seq<real>): (r: real)
    requires |xs| > 0
    ensures r in xs && forall i :: 0 <= i < |xs| ==> r <= xs[i]
  {
    if |xs| == 1 then xs[0]
    else var m := Min(xs[1..]); if xs[0] <= m then xs[0] else m
  }

  /** `max(xs)` on a non-empty list */
  function Max(xs: seq<real>): (r: real)
    requires |xs| > 0
    ensures r in xs && forall i :: 0 <= i < |xs| ==> xs[i] <= r
  {
    if |xs| == 1 then xs[0]
    else var m := Max(xs[1..]); if xs[0] >= m then xs[0] else m
  }

  /** `min(xs)` on a non-empty list of integers */
  function IntMin(xs: seq<int>): (r: int)
    requires |xs| > 0
    ensures r in xs && forall i :: 0 <= i < |xs| ==> r <= xs[i]
  {
    if |xs| == 1 then xs[0]
    else var m := IntMin(xs[1..]); if xs[0] <= m then xs[0] else m
  }

  /** `max(xs)` on a non-empty list of integers */
  function IntMax(xs: seq<int>): (r: int)
    requires |xs| > 0
    ensures r in xs && forall i :: 0 <= i < |xs| ==> xs[i] <= r
  {
    if |xs| == 1 then xs[0]
    else var m := IntMax(xs[1..]); if xs[0] >= m then xs[0] else m
  }

  function Reals(xs: seq<int>): (r: seq<real>)
    ensures |r| == |xs| && forall i :: 0 <= i < |xs| ==> r[i] == xs[i] as real
  {
    if xs == [] then [] else [xs[0] as real] + Reals(xs[1..])
  }

  /** Bitrates are integers in the source and `min`/`max` of them stay
      integers (`bitrate_range` is an integer difference), so `IntMin` and
      `IntMax` are kept apart from `Min` and `Max`; on the same values they
      agree. */
  lemma IntMinMaxAreMinMax(xs: seq<int>)
    requires |xs| > 0
    ensures Min(Reals(xs)) == IntMin(xs) as real
    ensures Max(Reals(xs)) == IntMax(xs) as real
  {
    var ys := Reals(xs);
    var lo, hi := Min(ys), Max(ys);
    var i :| 0 <= i < |ys| && ys[i] == lo;
    var j :| 0 <= j < |ys| && ys[j] == hi;
    var k :| 0 <= k < |xs| && xs[k] == IntMin(xs);
    var l :| 0 <= l < |xs| && xs[l] == IntMax(xs);
    assert lo <= ys[k] && IntMin(xs) <= xs[i];
    assert ys[l] <= hi && xs[j] <= IntMax(xs);
  }

  function Product(x: real, y: real): real {
    x * y
  }

  function Square(d: real): real {
    Product(d, d)
  }

  lemma PositiveProduct(x: real, y: real)
    requires x > 0.0 && y > 0.0
    ensures Product(x, y) > 0.0
  {
  }

  lemma NonZeroSquare(d: real)
    requires d != 0.0
    ensures Square(d) > 0.0
  {
    if d > 0.0 {
      PositiveProduct(d, d);
    } else {
      PositiveProduct(-d, -d);
      assert Product(-d, -d) == Product(d, d);
    }
  }

  /** A square is never negative, and is zero only for zero. */
  lemma SquareSign(d: real)
    ensures Square(d) >= 0.0
    ensures Square(d) == 0.0 <==> d == 0.0
  {
    if d != 0.0 {
      NonZeroSquare(d);
    }
  }

  /** Dividing bounds on a total by a positive count bounds the quotient. */
  lemma DivideBounds(s: real, n: real, lo: real, hi: real)
    requires n > 0.0 && n * lo <= s <= n * hi
    ensures lo <= s / n <= hi
  {
    var q := s / n;
    assert q * n == s;
  }

  lemma {:induction false} SumBounds(xs: seq<real>, lo: real, hi: real)
    requires forall i :: 0 <= i < |xs| ==> lo <= xs[i] <= hi
    ensures (|xs| as real) * lo <= Sum(xs) <= (|xs| as real) * hi
  {
    if xs != [] {
      SumBounds(xs[1..], lo, hi);
    }
  }

  /** Bounds on every element bound the mean. */
  lemma MeanBetween(xs: seq<real>, lo: real, hi: real)
    requires |xs| > 0
    requires forall i :: 0 <= i < |xs| ==> lo <= xs[i] <= hi
    ensures lo <= Mean(xs) <= hi
  {
    SumBounds(xs, lo, hi);
    DivideBounds(Sum(xs), |xs| as real, lo, hi);
  }

  /** `min(xs) <= sum(xs) / len(xs) <= max(xs)` */
  lemma MeanBetweenMinMax(xs: seq<real>)
    requires |xs| > 0
    ensures Min(xs) <= Mean(xs) <= Max(xs)
  {
    MeanBetween(xs, Min(xs), Max(xs));
  }

  lemma {:induction false} SquaredDeviationsNonNegative(xs: seq<real>, m: real)
    ensures SquaredDeviations(xs, m) >= 0.0
  {
    if xs != [] {
      SquaredDeviationsNonNegative(xs[1..], m);
      SquareSign(xs[0] - m);
    }
  }

  lemma {:induction false} VarianceNonNegative(xs: seq<real>)
    requires |xs| > 0
    ensures Variance(xs) >= 0.0
  {
    SquaredDeviationsNonNegative(xs, Mean(xs));
  }

  lemma {:induction false} SquaredDeviationsZero(xs: seq<real>, m: real)
    ensures SquaredDeviations(xs, m) == 0.0 <==> forall i :: 0 <= i < |xs| ==> xs[i] == m
  {
    if xs != [] {
      var rest := xs[1..];
      SquaredDeviationsZero(rest, m);
      SquaredDeviationsNonNegative(rest, m);
      SquareSign(xs[0] - m);
      assert SquaredDeviations(xs, m) == Square(xs[0] - m) + SquaredDeviations(rest, m);
      assert forall i :: 1 <= i < |xs| ==> xs[i] == rest[i - 1];
      if forall i :: 0 <= i < |xs| ==> xs[i] == m {
        assert forall i :: 0 <= i < |rest| ==> rest[i] == xs[i + 1];
      }
    }
  }

  lemma {:induction false} SumConstant(xs: seq<real>, c: real)
    requires forall i :: 0 <= i < |xs| ==> xs[i] == c
    ensures Sum(xs) == (|xs| as real) * c
  {
    if xs != [] {
      SumConstant(xs[1..], c);
    }
  }

  /** The variance is zero exactly when every value is the same. */
  lemma {:induction false} VarianceZeroIffConstant(xs: seq<real>)
    requires |xs| > 0
    ensures Variance(xs) == 0.0 <==> forall i, j :: 0 <= i < |xs| && 0 <= j < |xs| ==> xs[i] == xs[j]
  {
    var m := Mean(xs);
    SquaredDeviationsZero(xs, m);
    ZeroQuotient(SquaredDeviations(xs, m), |xs| as real);
    if forall i, j :: 0 <= i < |xs| && 0 <= j < |xs| ==> xs[i] == xs[j] {
      ConstantMean(xs);
    }
  }

  lemma ConstantMean(xs: seq<real>)
    requires |xs| > 0
    requires forall i, j :: 0 <= i < |xs| && 0 <= j < |xs| ==> xs[i] == xs[j]
    ensures forall i :: 0 <= i < |xs| ==> xs[i] == Mean(xs)
  {
    var n := |xs| as real;
    SumConstant(xs, xs[0]);
    assert (n * xs[0]) / n == xs[0];
  }

  lemma ZeroQuotient(s: real, n: real)
    requires n > 0.0
    ensures s / n == 0.0 <==> s == 0.0
  {
    assert (s / n) * n == s;
  }
}
