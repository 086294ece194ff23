/**
 The arithmetic mean that pandas' `Series.mean()` computes, over exact reals.
 */
module Statistics {

  /** Sum of a column, first element first. */
  function Sum(xs: seq<real>): real
  {
    if xs == [] then 0.0 else xs[0] + Sum(xs[1..])
  }

  /** The column mean: its sum over its number of entries; undefined on an empty column. */
  function Mean(xs: seq<real>): real
    requires |xs| > 0
  {
    Sum(xs) / (|xs| as real)
  }

  /** Summing distributes over concatenation. */
  lemma {:induction false} SumAppend(a: seq<real>, b: seq<real>)
    ensures Sum(a + b) == Sum(a) + Sum(b)
  {
    if a == [] {
      assert a + b == b;
    } else {
      assert (a + b)[1..] == a[1..] + b;
      SumAppend(a[1..], b);
    }
  }

  /**
   Two orderings of the same rows: the first row of `a` sits at some position `j` of `b`,
   and the remaining rows of both are again the same rows.
   */
  lemma MatchHead<T>(a: seq<T>, b: seq<T>) returns (j: nat)
    requires a != [] && multiset(a) == multiset(b)
    ensures j < |b| && b[j] == a[0]
    ensures multiset(a[1..]) == multiset(b[..j] + b[j + 1..])
  {
    assert a[0] in multiset(b);
    j :| 0 <= j < |b| && b[j] == a[0];
    assert a == [a[0]] + a[1..];
    assert b == b[..j] + [b[j]] + b[j + 1..];
    assert multiset(a) == multiset{a[0]} + multiset(a[1..]);
    assert multiset(b) == multiset(b[..j]) + multiset{b[j]} + multiset(b[j + 1..]);
    assert multiset(b[..j] + b[j + 1..]) == multiset(b[..j]) + multiset(b[j + 1..]);
    assert multiset(a[1..]) == multiset(a) - multiset{a[0]};
  }

  /** Taking entry `j` out of a column takes its value out of the sum. */
  lemma SumRemove(xs: seq<real>, j: nat)
    requires j < |xs|
    ensures Sum(xs) == xs[j] + Sum(xs[..j] + xs[j + 1..])
  {
    var left, x, right := xs[..j], xs[j], xs[j + 1..];
    assert xs == (left + [x]) + right;
    assert Sum(xs) == Sum(left + [x]) + Sum(right) by { SumAppend(left + [x], right); }
    assert Sum(left + [x]) == Sum(left) + x by { SumAppend(left, [x]); SumSingleton(x); }
    assert Sum(left + right) == Sum(left) + Sum(right) by { SumAppend(left, right); }
  }

  lemma SumSingleton(x: real)
    ensures Sum([x]) == x
  {
    assert [x][1..] == [];
  }

  /** The sum does not depend on the order of the rows. */
  lemma {:induction false} SumPermutation(a: seq<real>, b: seq<real>)
    requires multiset(a) == multiset(b)
    ensures Sum(a) == Sum(b)
    decreases |a|
  {
    if a == [] {
      assert |b| == |multiset(b)| == 0;
    } else {
      var j := MatchHead(a, b);
      SumPermutation(a[1..], b[..j] + b[j + 1..]);
      SumRemove(b, j);
    }
  }

  /** Entries at most `hi` give a sum at most `n * hi`. */
  lemma {:induction false} SumAtMost(xs: seq<real>, hi: real)
    requires forall i :: 0 <= i < |xs| ==> xs[i] <= hi
    ensures Sum(xs) <= (|xs| as real) * hi
  {
    if xs != [] {
      SumAtMost(xs[1..], hi);
    }
  }

  /** Entries at least `lo` give a sum at least `n * lo`. */
  lemma {:induction false} SumAtLeast(xs: seq<real>, lo: real)
    requires forall i :: 0 <= i < |xs| ==> lo <= xs[i]
    ensures (|xs| as real) * lo <= Sum(xs)
  {
    if xs != [] {
      SumAtLeast(xs[1..], lo);
    }
  }

  /** Entries bounded by `lo` and `hi` give a sum between `n * lo` and `n * hi`. */
  lemma SumBounds(xs: seq<real>, lo: real, hi: real)
    requires forall i :: 0 <= i < |xs| ==> lo <= xs[i] <= hi
    ensures (|xs| as real) * lo <= Sum(xs) <= (|xs| as real) * hi
  {
    SumAtLeast(xs, lo);
    SumAtMost(xs, hi);
  }

  /** A column of one repeated value sums to that value times the length. */
  lemma {:induction false} SumConstant(xs: seq<real>, v: real)
    requires forall i :: 0 <= i < |xs| ==> xs[i] == v
    ensures Sum(xs) == (|xs| as real) * v
  {
    if xs != [] {
      SumConstant(xs[1..], v);
    }
  }

  /** The mean times the number of entries gives back the column sum. */
  lemma MeanTimesCount(xs: seq<real>)
    requires |xs| > 0
    ensures Mean(xs) * (|xs| as real) == Sum(xs)
  {
    var n := |xs| as real;
    var s := Sum(xs);
    assert (s / n) * n == s;
  }

  /** Every entry at most `hi` keeps the mean at most `hi`. */
  lemma MeanAtMost(xs: seq<real>, hi: real)
    requires |xs| > 0
    requires forall i :: 0 <= i < |xs| ==> xs[i] <= hi
    ensures Mean(xs) <= hi
  {
    SumAtMost(xs, hi);
    var n := |xs| as real;
    assert Sum(xs) <= n * hi;
    assert Sum(xs) / n <= hi by { DivideAtMost(Sum(xs), n, hi); }
  }

  /** Every entry at least `lo` keeps the mean at least `lo`. */
  lemma MeanAtLeast(xs: seq<real>, lo: real)
    requires |xs| > 0
    requires forall i :: 0 <= i < |xs| ==> lo <= xs[i]
    ensures lo <= Mean(xs)
  {
    SumAtLeast(xs, lo);
    var n := |xs| as real;
    assert n * lo <= Sum(xs);
    assert Sum(xs) / n >= lo by { DivideAtLeast(Sum(xs), n, lo); }
  }

  /** The mean lies between any lower and any upper bound of the column's entries. */
  lemma MeanBounds(xs: seq<real>, lo: real, hi: real)
    requires |xs| > 0
    requires forall i :: 0 <= i < |xs| ==> lo <= xs[i] <= hi
    ensures lo <= Mean(xs) <= hi
  {
    MeanAtLeast(xs, lo);
    MeanAtMost(xs, hi);
  }

  /** Smallest entry of a non-empty column. */
  function Min(xs: seq<real>): (m: real)
    requires |xs| > 0
    ensures forall i :: 0 <= i < |xs| ==> m <= xs[i]
    ensures exists i :: 0 <= i < |xs| && xs[i] == m
  {
    if |xs| == 1 then xs[0]
    else
      var m' := Min(xs[1..]);
      assert forall i :: 1 <= i < |xs| ==> xs[1..][i - 1] == xs[i];
      if xs[0] <= m' then xs[0] else m'
  }

  /** Largest entry of a non-empty column. */
  function Max(xs: seq<real>): (m: real)
    requires |xs| > 0
    ensures forall i :: 0 <= i < |xs| ==> xs[i] <= m
    ensures exists i :: 0 <= i < |xs| && xs[i] == m
  {
    if |xs| == 1 then xs[0]
    else
      var m' := Max(xs[1..]);
      assert forall i :: 1 <= i < |xs| ==> xs[1..][i - 1] == xs[i];
      if xs[0] >= m' then xs[0] else m'
  }

  lemma DivideAtLeast(s: real, n: real, lo: real)
    requires n > 0.0 && n * lo <= s
    ensures s / n >= lo
  {
  }

  lemma DivideAtMost(s: real, n: real, hi: real)
    requires n > 0.0 && s <= n * hi
    ensures s / n <= hi
  {
  }

  /** A column of one repeated value has that value as its mean. */
  lemma MeanConstant(xs: seq<real>, v: real)
    requires |xs| > 0
    requires forall i :: 0 <= i < |xs| ==> xs[i] == v
    ensures Mean(xs) == v
  {
    SumConstant(xs, v);
  }

  /** Reordering the rows leaves the mean unchanged. */
  lemma MeanPermutation(a: seq<real>, b: seq<real>)
    requires |a| > 0
    requires multiset(a) == multiset(b)
    ensures |b| == |a| && Mean(b) == Mean(a)
  {
    assert |a| == |multiset(a)| == |multiset(b)| == |b|;
    SumPermutation(a, b);
  }

  /** The mean lies between the smallest and the largest entry. */
  lemma MeanBetweenExtremes(xs: seq<real>)
    requires |xs| > 0
    ensures Min(xs) <= Mean(xs) <= Max(xs)
  {
    MeanBounds(xs, Min(xs), Max(xs));
  }
}
