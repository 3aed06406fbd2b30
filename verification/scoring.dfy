/** The similarity scorer: dot products between query and document
    embeddings. Weights are exact reals; see README for float32. */
module Scoring {

  /** The sum of a[k] * b[k] over the positions of `a`, accumulated from the
      first position to the last. Positions of `b` beyond |a| are not read. */
  function Dot(a: seq<real>, b: seq<real>): real
    requires |a| <= |b|
  {
    if |a| == 0 then 0.0 else Dot(a[..|a| - 1], b) + a[|a| - 1] * b[|a| - 1]
  }

  /** `dotProduct`'s accumulation loop computes Dot. */
  method DotProduct(a: seq<real>, b: seq<real>) returns (sum: real)
    requires |a| <= |b|
    ensures sum == Dot(a, b)
  {
    sum := 0.0;
    for k := 0 to |a|
      invariant sum == Dot(a[..k], b)
    {
      assert a[..k + 1][..k] == a[..k];
      sum := sum + a[k] * b[k];
    }
    assert a[..|a|] == a;
  }

  /** An all-zero first vector scores 0 against anything. */
  lemma {:induction false} DotZero(a: seq<real>, b: seq<real>)
    requires |a| <= |b|
    requires forall k :: 0 <= k < |a| ==> a[k] == 0.0
    ensures Dot(a, b) == 0.0
  {
    if |a| > 0 {
      DotZero(a[..|a| - 1], b);
    }
  }

  /** Non-negative weights give a non-negative score. */
  lemma {:induction false} DotNonNegative(a: seq<real>, b: seq<real>)
    requires |a| <= |b|
    requires forall k :: 0 <= k < |a| ==> a[k] >= 0.0 && b[k] >= 0.0
    ensures Dot(a, b) >= 0.0
  {
    if |a| > 0 {
      DotNonNegative(a[..|a| - 1], b);
    }
  }

  /** Only the first |a| entries of the second vector matter. */
  lemma {:induction false} DotReadsPrefix(a: seq<real>, b: seq<real>, c: seq<real>)
    requires |a| <= |b| && |a| <= |c|
    requires b[..|a|] == c[..|a|]
    ensures Dot(a, b) == Dot(a, c)
  {
    if |a| > 0 {
      var n := |a| - 1;
      assert b[n] == b[..|a|][n] == c[..|a|][n] == c[n];
      assert b[..n] == b[..|a|][..n];
      assert c[..n] == c[..|a|][..n];
      DotReadsPrefix(a[..n], b, c);
    }
  }

  /** For vectors of equal length the score does not depend on the order of
      the arguments. */
  lemma {:induction false} DotSymmetric(a: seq<real>, b: seq<real>)
    requires |a| == |b|
    ensures Dot(a, b) == Dot(b, a)
  {
    if |a| > 0 {
      var n := |a| - 1;
      calc {
        Dot(a, b);
        Dot(a[..n], b) + a[n] * b[n];
        { DotReadsPrefix(a[..n], b, b[..n]); }
        Dot(a[..n], b[..n]) + a[n] * b[n];
        { DotSymmetric(a[..n], b[..n]); }
        Dot(b[..n], a[..n]) + b[n] * a[n];
        { DotReadsPrefix(b[..n], a, a[..n]); }
        Dot(b, a);
      }
    }
  }

  /** The vector x + s * y, entry by entry. */
  function Combine(x: seq<real>, y: seq<real>, s: real): seq<real>
    requires |x| == |y|
  {
    seq(|x|, k requires 0 <= k < |x| => x[k] + s * y[k])
  }

  /** Dot is linear in its first argument: scoring x + s * y is the score of x
      plus s times the score of y. */
  lemma {:induction false} DotLinear(x: seq<real>, y: seq<real>, s: real, b: seq<real>)
    requires |x| == |y| <= |b|
    ensures Dot(Combine(x, y, s), b) == Dot(x, b) + s * Dot(y, b)
  {
    if |x| > 0 {
      var n := |x| - 1;
      var z := Combine(x, y, s);
      DotLinear(x[..n], y[..n], s, b);
      forall k | 0 <= k < n
        ensures z[..n][k] == Combine(x[..n], y[..n], s)[k]
      {
        assert x[..n][k] == x[k] && y[..n][k] == y[k];
      }
      assert z[..n] == Combine(x[..n], y[..n], s);
      assert Dot(z, b) == Dot(z[..n], b) + (x[n] + s * y[n]) * b[n];
    }
  }

  /** Every query is at most as long as every document, so every dot product
      the scorer takes reads inside the document. */
  predicate Comparable(queries: seq<seq<real>>, docs: seq<seq<real>>) {
    forall i, j :: 0 <= i < |queries| && 0 <= j < |docs| ==> |queries[i]| <= |docs[j]|
  }

  /** The [numQueries, numDocs] matrix of pairwise scores: entry (i, j) is the
      dot product of query i with document j. */
  method Similarity(queries: seq<seq<real>>, docs: seq<seq<real>>) returns (m: seq<seq<real>>)
    requires Comparable(queries, docs)
    ensures |m| == |queries|
    ensures forall i :: 0 <= i < |m| ==> |m[i]| == |docs|
    ensures forall i, j :: 0 <= i < |queries| && 0 <= j < |docs| ==> m[i][j] == Dot(queries[i], docs[j])
  {
    m := [];
    for i := 0 to |queries|
      invariant |m| == i
      invariant forall r :: 0 <= r < i ==> |m[r]| == |docs|
      invariant forall r, j :: 0 <= r < i && 0 <= j < |docs| ==> m[r][j] == Dot(queries[r], docs[j])
    {
      var row: seq<real> := [];
      for j := 0 to |docs|
        invariant |row| == j
        invariant forall c :: 0 <= c < j ==> row[c] == Dot(queries[i], docs[c])
      {
        var score := DotProduct(queries[i], docs[j]);
        row := row + [score];
      }
      m := m + [row];
    }
  }
}
