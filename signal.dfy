/** Reductions over channel buffers.

    The library computes sums and dot products with the helpers Signal<T>::sum and
    Signal<T>::dot, whose code is not part of this model. They are given here as
    specification functions over sequences of reals, defined by peeling off the LAST
    element, which is the shape of the accumulation loops that the kernels run
    themselves. */
module Signal {

  /** Sum of the samples of `s`. */
  function Sum(s: seq<real>): real
  {
    if |s| == 0 then 0.0 else Sum(s[..|s| - 1]) + s[|s| - 1]
  }

  /** Dot product of two buffers of the same length. */
  function Dot(a: seq<real>, b: seq<real>): real
    requires |a| == |b|
  {
    if |a| == 0 then 0.0 else Dot(a[..|a| - 1], b[..|b| - 1]) + a[|a| - 1] * b[|b| - 1]
  }

  /** The buffer of squared samples, sample by sample: a buffer of non-negative weights. */
  function Squares(s: seq<real>): (r: seq<real>)
    ensures |r| == |s|
    ensures forall i :: 0 <= i < |s| ==> r[i] >= 0.0
  {
    seq(|s|, i requires 0 <= i < |s| => s[i] * s[i])
  }

  /** Every sample multiplied by the gain `k`. */
  function Scale(s: seq<real>, k: real): (r: seq<real>)
    ensures |r| == |s|
  {
    seq(|s|, i requires 0 <= i < |s| => k * s[i])
  }

  /** Adding one more sample to a prefix adds it to the sum: the step of an accumulation loop. */
  lemma SumExtend(s: seq<real>, i: nat)
    requires i < |s|
    ensures Sum(s[..i + 1]) == Sum(s[..i]) + s[i]
  {
    assert s[..i + 1][..i] == s[..i];
  }

  /** Adding one more pair of samples to prefixes adds their product to the dot product. */
  lemma DotExtend(a: seq<real>, b: seq<real>, i: nat)
    requires |a| == |b| && i < |a|
    ensures Dot(a[..i + 1], b[..i + 1]) == Dot(a[..i], b[..i]) + a[i] * b[i]
  {
    assert a[..i + 1][..i] == a[..i] && b[..i + 1][..i] == b[..i];
  }

  /** Scaling commutes with taking a prefix. */
  lemma ScalePrefix(s: seq<real>, k: real, n: nat)
    requires n <= |s|
    ensures Scale(s, k)[..n] == Scale(s[..n], k)
  {
    assert forall i :: 0 <= i < n ==> Scale(s, k)[..n][i] == Scale(s[..n], k)[i];
  }

  /** A gain applied to every sample scales the sum by the same gain. */
  lemma {:induction false} SumScale(s: seq<real>, k: real)
    ensures Sum(Scale(s, k)) == k * Sum(s)
  {
    if |s| > 0 {
      var n := |s| - 1;
      SumScaleLast(s, k);
      SumScale(s[..n], k);
      Distribute(k, Sum(s[..n]), s[n], Sum(Scale(s[..n], k)), k * s[n]);
    }
  }

  /** The last scaled sample, split off the scaled sum. */
  lemma SumScaleLast(s: seq<real>, k: real)
    requires |s| > 0
    ensures Sum(Scale(s, k)) == Sum(Scale(s[..|s| - 1], k)) + k * s[|s| - 1]
  {
    ScalePrefix(s, k, |s| - 1);
  }

  /** A gain applied to the first operand scales the dot product by the same gain. */
  lemma {:induction false} DotScale(a: seq<real>, b: seq<real>, k: real)
    requires |a| == |b|
    ensures Dot(Scale(a, k), b) == k * Dot(a, b)
  {
    if |a| > 0 {
      var n := |a| - 1;
      DotScaleLast(a, b, k);
      DotScale(a[..n], b[..n], k);
      Distribute(k, Dot(a[..n], b[..n]), a[n] * b[n], Dot(Scale(a[..n], k), b[..n]), k * (a[n] * b[n]));
    }
  }

  /** The last scaled product, split off the dot product with a scaled first operand. */
  lemma DotScaleLast(a: seq<real>, b: seq<real>, k: real)
    requires |a| == |b| && |a| > 0
    ensures Dot(Scale(a, k), b) == Dot(Scale(a[..|a| - 1], k), b[..|b| - 1]) + k * (a[|a| - 1] * b[|b| - 1])
  {
    var n := |a| - 1;
    ScalePrefix(a, k, n);
    assert (k * a[n]) * b[n] == k * (a[n] * b[n]);
  }

  /** The arithmetic step of the two lemmas above, kept apart from the sequences. */
  lemma Distribute(k: real, t: real, x: real, kt: real, kx: real)
    requires kt == k * t && kx == k * x
    ensures kt + kx == k * (t + x)
  {
  }

  /** Squaring a scaled buffer is scaling the squares twice by the gain. */
  lemma SquaresScale(s: seq<real>, k: real)
    ensures Squares(Scale(s, k)) == Scale(Scale(Squares(s), k), k)
  {
    forall i | 0 <= i < |s|
      ensures Squares(Scale(s, k))[i] == Scale(Scale(Squares(s), k), k)[i]
    {
      var x := s[i];
      assert (k * x) * (k * x) == k * (k * (x * x));
    }
  }

  /** A sum of non-negative samples is never negative, and it is zero exactly when every
      sample is zero. */
  lemma {:induction false} SumNonNegativeZeroIff(w: seq<real>)
    requires forall i :: 0 <= i < |w| ==> w[i] >= 0.0
    ensures Sum(w) >= 0.0
    ensures Sum(w) == 0.0 <==> forall i :: 0 <= i < |w| ==> w[i] == 0.0
  {
    if |w| > 0 {
      var n := |w| - 1;
      SumNonNegativeZeroIff(w[..n]);
      if Sum(w) == 0.0 {
        forall i | 0 <= i < |w| ensures w[i] == 0.0 {
          if i < n { assert w[..n][i] == w[i]; }
        }
      }
      if forall i :: 0 <= i < |w| ==> w[i] == 0.0 {
        assert forall i :: 0 <= i < n ==> w[..n][i] == 0.0;
      }
    }
  }

  /** A sum of squares is never negative, and it is zero exactly when every sample is zero. */
  lemma SumOfSquaresZeroIff(s: seq<real>)
    ensures Sum(Squares(s)) >= 0.0
    ensures Sum(Squares(s)) == 0.0 <==> forall i :: 0 <= i < |s| ==> s[i] == 0.0
  {
    var q := Squares(s);
    forall i | 0 <= i < |s| ensures q[i] == 0.0 <==> s[i] == 0.0 {
      if q[i] == 0.0 {
        ProductZero(s[i], s[i]);
      }
    }
    SumNonNegativeZeroIff(q);
  }

  /** A product of two reals is zero only when one of them is. */
  lemma ProductZero(a: real, b: real)
    requires a * b == 0.0
    ensures a == 0.0 || b == 0.0
  {
  }

  /** With non-negative weights and every component between `lo` and `hi`, the weighted
      sum of the components lies between `lo` and `hi` times the sum of the weights. */
  lemma {:induction false} DotBetween(w: seq<real>, a: seq<real>, lo: real, hi: real)
    requires |w| == |a|
    requires forall i :: 0 <= i < |w| ==> w[i] >= 0.0
    requires forall i :: 0 <= i < |a| ==> lo <= a[i] <= hi
    ensures lo * Sum(w) <= Dot(w, a) <= hi * Sum(w)
  {
    if |w| > 0 {
      var n := |w| - 1;
      DotBetween(w[..n], a[..n], lo, hi);
      BetweenStep(Sum(w[..n]), Dot(w[..n], a[..n]), w[n], a[n], lo, hi);
    }
  }

  /** One more non-negative weight `x` on a component `c` in [lo, hi] keeps the weighted
      sum `d` between `lo` and `hi` times the total weight `t`. */
  lemma BetweenStep(t: real, d: real, x: real, c: real, lo: real, hi: real)
    requires lo * t <= d <= hi * t && x >= 0.0 && lo <= c <= hi
    ensures lo * (t + x) <= d + x * c <= hi * (t + x)
  {
    assert x * (c - lo) >= 0.0 && x * (hi - c) >= 0.0;
    assert lo * (t + x) == lo * t + lo * x && hi * (t + x) == hi * t + hi * x;
  }
}
