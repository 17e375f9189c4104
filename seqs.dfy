/** Concatenation of blocks and the counting arithmetic the trace proofs share. */
module Seqs {

  /** The blocks of ss, one after the other. */
  function Concat<T>(ss: seq<seq<T>>): seq<T> {
    if ss == [] then [] else Concat(ss[..|ss| - 1]) + ss[|ss| - 1]
  }

  lemma ConcatSnoc<T>(ss: seq<seq<T>>, s: seq<T>)
    ensures Concat(ss + [s]) == Concat(ss) + s
  {
    assert (ss + [s])[..|ss|] == ss;
  }

  lemma AppendAssoc<T>(a: seq<T>, b: seq<T>, c: seq<T>)
    ensures a + (b + c) == a + b + c
  {
  }

  lemma MulStep(n: nat, m: nat)
    requires n > 0
    ensures n * m == (n - 1) * m + m
  {
  }

  lemma MulBelow(r: nat, j: nat, n: nat, k: nat)
    requires r < n && j < k
    ensures r * k + j < n * k
  {
    assert (r + 1) * k <= n * k;
  }

  lemma {:induction false} ConcatLength<T>(ss: seq<seq<T>>, k: nat)
    requires forall q :: 0 <= q < |ss| ==> |ss[q]| == k
    ensures |Concat(ss)| == |ss| * k
  {
    if ss != [] {
      ConcatLength(ss[..|ss| - 1], k);
      MulStep(|ss|, k);
    }
  }

  /** In a concatenation of blocks of k items, item j of block r sits at r x k + j. */
  lemma {:induction false} ConcatUniform<T>(ss: seq<seq<T>>, k: nat, r: nat, j: nat)
    requires forall q :: 0 <= q < |ss| ==> |ss[q]| == k
    requires r < |ss| && j < k
    ensures |Concat(ss)| == |ss| * k
    ensures r * k + j < |Concat(ss)|
    ensures Concat(ss)[r * k + j] == ss[r][j]
  {
    var p: nat := |ss| - 1;
    ConcatLength(ss, k);
    ConcatLength(ss[..p], k);
    MulBelow(r, j, |ss|, k);
    if r < p {
      ConcatUniform(ss[..p], k, r, j);
    } else {
      assert r * k == p * k;
    }
  }

  /** n copies of m added up; kept apart from `*` so the counting proofs stay
      linear. */
  function Times(n: nat, m: nat): nat {
    if n == 0 then 0 else Times(n - 1, m) + m
  }

  lemma {:induction false} TimesIsProduct(n: nat, m: nat)
    ensures Times(n, m) == n * m
  {
    if n > 0 {
      TimesIsProduct(n - 1, m);
      MulStep(n, m);
    }
  }

  lemma {:induction false} TimesOneZero(n: nat)
    ensures Times(n, 1) == n && Times(n, 0) == 0
  {
    if n > 0 {
      TimesOneZero(n - 1);
    }
  }

  /** Times grows by at least m from t to any later n. */
  lemma {:induction false} TimesBelow(t: nat, n: nat, m: nat)
    requires t < n
    ensures Times(t, m) + m <= Times(n, m)
  {
    if t < n - 1 {
      TimesBelow(t, n - 1, m);
    }
  }

  /** Concatenation distributes over appending the block lists. */
  lemma {:induction false} ConcatAppend<T>(xs: seq<seq<T>>, ys: seq<seq<T>>)
    ensures Concat(xs + ys) == Concat(xs) + Concat(ys)
  {
    if ys != [] {
      var p := |ys| - 1;
      ConcatAppend(xs, ys[..p]);
      assert xs + ys == (xs + ys[..p]) + [ys[p]];
      ConcatSnoc(xs + ys[..p], ys[p]);
      ConcatSnoc(ys[..p], ys[p]);
      assert ys[..p] + [ys[p]] == ys;
    } else {
      assert xs + ys == xs;
    }
  }
}
