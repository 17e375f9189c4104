/** The GOLEM backend's bookkeeping around the network: the run list cut into
    strided bundles, one pickle file name per bundle, and the provider timeout. */
module Golem {
  import opened Values
  import opened Seqs

  // ---------------------------------------------------------------------------
  // Strided bundles
  // ---------------------------------------------------------------------------

  /** `xs[b::n]`: the items at b, b + n, b + 2n, ... in order. */
  function Stride<T>(xs: seq<T>, b: nat, n: nat): seq<T>
    requires n >= 1
    decreases |xs| - b
  {
    if b >= |xs| then [] else [xs[b]] + Stride(xs, b + n, n)
  }

  /** The bundles of `execute_runs`: bundle b for every b in `range(n)`, none at
      all when n is not positive. */
  function Bundles<T>(xs: seq<T>, n: int): (r: seq<seq<T>>)
    ensures n <= 0 ==> r == []
    ensures n >= 1 ==> |r| == n
    ensures n >= 1 ==> forall b :: 0 <= b < n ==> r[b] == Stride(xs, b, n)
  {
    if n <= 0 then [] else seq(n, b requires 0 <= b < n => Stride(xs, b, n))
  }

  /** Item k of bundle b is item b + k x n of the list. */
  lemma {:induction false} StrideAt<T>(xs: seq<T>, b: nat, n: nat, k: nat)
    requires n >= 1 && k < |Stride(xs, b, n)|
    ensures b + k * n < |xs|
    ensures Stride(xs, b, n)[k] == xs[b + k * n]
    decreases |xs| - b
  {
    if k > 0 {
      StrideAt(xs, b + n, n, k - 1);
      MulStep(k, n);
    }
  }

  /** Every item b + k x n of the list is item k of bundle b. */
  lemma {:induction false} StrideHas<T>(xs: seq<T>, b: nat, n: nat, k: nat)
    requires n >= 1 && b + k * n < |xs|
    ensures k < |Stride(xs, b, n)|
    ensures Stride(xs, b, n)[k] == xs[b + k * n]
    decreases k
  {
    if k > 0 {
      MulStep(k, n);
      StrideHas(xs, b + n, n, k - 1);
    }
  }

  /** An index of the list belongs to one bundle at one position only. */
  lemma SlotUnique(n: nat, b1: nat, k1: nat, b2: nat, k2: nat)
    requires b1 < n && b2 < n
    requires b1 + k1 * n == b2 + k2 * n
    ensures b1 == b2 && k1 == k2
  {
    if k1 < k2 {
      MulMono(k1 + 1, k2, n);
    } else if k2 < k1 {
      MulMono(k2 + 1, k1, n);
    }
  }

  lemma MulMono(a: nat, b: nat, n: nat)
    requires a <= b
    ensures a * n <= b * n
  {
  }

  /** Bundle b of the list from n on is bundle b + n of the whole list. */
  lemma {:induction false} StrideShift<T>(xs: seq<T>, b: nat, n: nat)
    requires n >= 1 && n <= |xs|
    ensures Stride(xs, b + n, n) == Stride(xs[n..], b, n)
    decreases |xs| - b
  {
    if b + n < |xs| {
      StrideShift(xs, b + n, n);
      StrideShiftNext(xs, b, n);
    }
  }

  lemma StrideCons<T>(xs: seq<T>, b: nat, n: nat)
    requires n >= 1 && b < |xs|
    ensures Stride(xs, b, n) == [xs[b]] + Stride(xs, b + n, n)
  {
  }

  lemma StrideShiftNext<T>(xs: seq<T>, b: nat, n: nat)
    requires n >= 1 && b + n < |xs|
    requires Stride(xs, b + n + n, n) == Stride(xs[n..], b + n, n)
    ensures Stride(xs, b + n, n) == Stride(xs[n..], b, n)
  {
    StrideCons(xs, b + n, n);
    StrideCons(xs[n..], b, n);
  }

  /** With at least n items, bundle b < n starts with item b and goes on with
      bundle b of the rest after the first n items. */
  lemma StrideFront<T>(xs: seq<T>, b: nat, n: nat)
    requires n >= 1 && b < n <= |xs|
    ensures Stride(xs, b, n) == [xs[b]] + Stride(xs[n..], b, n)
  {
    StrideShift(xs, b, n);
  }

  /** With fewer than n items, bundle b holds item b if there is one. */
  lemma StrideShort<T>(xs: seq<T>, b: nat, n: nat)
    requires n >= 1 && |xs| < n
    ensures Stride(xs, b, n) == if b < |xs| then [xs[b]] else []
  {
  }

  /** The runs of bundles 0 .. m - 1 together, counted with multiplicity. */
  function StridesMultiset<T>(xs: seq<T>, n: nat, m: nat): multiset<T>
    requires n >= 1
  {
    if m == 0 then multiset{} else StridesMultiset(xs, n, m - 1) + multiset(Stride(xs, m - 1, n))
  }

  /** Joining the first m bundles gives the runs counted by `StridesMultiset`. */
  lemma {:induction false} ConcatBundles<T>(xs: seq<T>, n: nat, m: nat)
    requires n >= 1 && m <= n
    ensures multiset(Concat(Bundles(xs, n)[..m])) == StridesMultiset(xs, n, m)
  {
    var bs := Bundles(xs, n);
    if m > 0 {
      ConcatBundles(xs, n, m - 1);
      assert bs[..m] == bs[..m - 1] + [bs[m - 1]];
      ConcatSnoc(bs[..m - 1], bs[m - 1]);
    } else {
      assert bs[..0] == [];
    }
  }

  /** The first m bundles of a list of at least n items hold its first m items
      and the first m bundles of the rest. */
  ghost predicate ChunkHolds<T>(xs: seq<T>, n: nat, m: nat)
    requires n >= 1 && m <= n <= |xs|
  {
    StridesMultiset(xs, n, m) == multiset(xs[..m]) + StridesMultiset(xs[n..], n, m)
  }

  lemma ChunkStep<T>(xs: seq<T>, n: nat, m: nat)
    requires n >= 1 && m <= n <= |xs|
    ensures ChunkHolds(xs, n, m)
  {
    var k := 0;
    ChunkBase(xs, n);
    while k < m
      invariant k <= m && ChunkHolds(xs, n, k)
    {
      ChunkNext(xs, n, k + 1);
      k := k + 1;
    }
  }

  lemma ChunkBase<T>(xs: seq<T>, n: nat)
    requires 1 <= n <= |xs|
    ensures ChunkHolds(xs, n, 0)
  {
    assert xs[..0] == [];
  }

  lemma ChunkNext<T>(xs: seq<T>, n: nat, m: nat)
    requires n >= 1 && 0 < m <= n <= |xs|
    requires ChunkHolds(xs, n, m - 1)
    ensures ChunkHolds(xs, n, m)
  {
    StrideFront(xs, m - 1, n);
    PrefixSnoc(xs, m);
    var rest := Stride(xs[n..], m - 1, n);
    StridesCons(xs, n, m, xs[m - 1], rest);
    StridesStep(xs[n..], n, m, multiset(rest));
  }

  lemma PrefixSnoc<T>(xs: seq<T>, m: nat)
    requires 0 < m <= |xs|
    ensures multiset(xs[..m]) == multiset(xs[..m - 1]) + multiset{xs[m - 1]}
  {
    assert xs[..m] == xs[..m - 1] + [xs[m - 1]];
  }

  /** One bundle more adds its runs. */
  lemma StridesStep<T>(xs: seq<T>, n: nat, m: nat, added: multiset<T>)
    requires n >= 1 && m >= 1
    requires multiset(Stride(xs, m - 1, n)) == added
    ensures StridesMultiset(xs, n, m) == StridesMultiset(xs, n, m - 1) + added
  {
  }

  lemma StridesCons<T>(xs: seq<T>, n: nat, m: nat, x: T, rest: seq<T>)
    requires n >= 1 && m >= 1
    requires Stride(xs, m - 1, n) == [x] + rest
    ensures StridesMultiset(xs, n, m) == StridesMultiset(xs, n, m - 1) + multiset{x} + multiset(rest)
  {
    assert multiset([x] + rest) == multiset{x} + multiset(rest);
  }

  /** The first m bundles of a list of fewer than n items, m at most its
      length, hold its first m items. */
  lemma ChunkShort<T>(xs: seq<T>, n: nat, m: nat)
    requires n >= 1 && m <= |xs| < n
    ensures StridesMultiset(xs, n, m) == multiset(xs[..m])
  {
    var k := 0;
    assert xs[..0] == [];
    while k < m
      invariant k <= m && StridesMultiset(xs, n, k) == multiset(xs[..k])
    {
      ChunkShortNext(xs, n, k + 1);
      k := k + 1;
    }
  }

  lemma ChunkShortNext<T>(xs: seq<T>, n: nat, m: nat)
    requires n >= 1 && 0 < m <= |xs| < n
    requires StridesMultiset(xs, n, m - 1) == multiset(xs[..m - 1])
    ensures StridesMultiset(xs, n, m) == multiset(xs[..m])
  {
    StrideShort(xs, m - 1, n);
    PrefixSnoc(xs, m);
    StridesStep(xs, n, m, multiset{xs[m - 1]});
  }

  /** Bundles past the end of a short list are empty. */
  lemma {:induction false} ChunkEmpty<T>(xs: seq<T>, n: nat, m: nat)
    requires n >= 1 && |xs| <= m <= n
    ensures StridesMultiset(xs, n, m) == StridesMultiset(xs, n, |xs|)
  {
    if m > |xs| {
      ChunkEmpty(xs, n, m - 1);
      assert Stride(xs, m - 1, n) == [];
    }
  }

  lemma SplitMultiset<T>(xs: seq<T>, k: nat)
    requires k <= |xs|
    ensures multiset(xs[..k]) + multiset(xs[k..]) == multiset(xs)
  {
    assert xs[..k] + xs[k..] == xs;
  }

  /** All n bundles together hold every run exactly as often as the list does. */
  lemma {:induction false} StridesPartition<T>(xs: seq<T>, n: nat)
    requires n >= 1
    ensures StridesMultiset(xs, n, n) == multiset(xs)
    decreases |xs|
  {
    if |xs| < n {
      ChunkEmpty(xs, n, n);
      ChunkShort(xs, n, |xs|);
      assert xs[..|xs|] == xs;
    } else {
      ChunkStep(xs, n, n);
      StridesPartition(xs[n..], n);
      SplitMultiset(xs, n);
    }
  }

  /** The bundles partition the run list: together they hold every run exactly as
      often as the list does, so their sizes add up to its length. */
  lemma BundlesPartition<T>(xs: seq<T>, n: nat)
    requires n >= 1
    ensures multiset(Concat(Bundles(xs, n))) == multiset(xs)
    ensures |Concat(Bundles(xs, n))| == |xs|
  {
    ConcatBundles(xs, n, n);
    assert Bundles(xs, n)[..n] == Bundles(xs, n);
    StridesPartition(xs, n);
    assert |Concat(Bundles(xs, n))| == |multiset(Concat(Bundles(xs, n)))|;
  }

  /** Bundle sizes never grow with the bundle number and differ by at most one:
      the first |xs| mod n bundles get one run more. */
  lemma {:induction false} BundlesBalanced<T>(xs: seq<T>, n: nat, b1: nat, b2: nat)
    requires n >= 1 && b1 <= b2 < n
    ensures |Stride(xs, b2, n)| <= |Stride(xs, b1, n)| <= |Stride(xs, b2, n)| + 1
    decreases |xs|
  {
    if |xs| < n {
      StrideShort(xs, b1, n);
      StrideShort(xs, b2, n);
    } else {
      StrideFront(xs, b1, n);
      StrideFront(xs, b2, n);
      BundlesBalanced(xs[n..], n, b1, b2);
    }
  }

  // ---------------------------------------------------------------------------
  // Pickle names
  // ---------------------------------------------------------------------------

  function DigitChar(d: nat): char
    requires d < 10
  {
    "0123456789"[d]
  }

  function DigitValue(c: char): nat {
    if '0' <= c <= '9' then (c - '0') as nat else 0
  }

  /** `str(n)` for a natural number. */
  function DecimalString(n: nat): (r: seq<char>)
    ensures |r| >= 1
  {
    if n < 10 then [DigitChar(n)] else DecimalString(n / 10) + [DigitChar(n % 10)]
  }

  function ParseDecimal(s: seq<char>): nat {
    if s == [] then 0 else ParseDecimal(s[..|s| - 1]) * 10 + DigitValue(s[|s| - 1])
  }

  /** Reading `str(n)` back gives n, so distinct numbers have distinct strings. */
  lemma {:induction false} DecimalRoundTrip(n: nat)
    ensures ParseDecimal(DecimalString(n)) == n
  {
    if n >= 10 {
      DecimalRoundTrip(n / 10);
      var s := DecimalString(n);
      assert s[..|s| - 1] == DecimalString(n / 10);
    }
  }

  /** The file name of bundle b. */
  function PickleName(b: nat): string {
    "bundle_" + DecimalString(b) + ".pickle"
  }

  /** No two bundles share a pickle file. */
  lemma PickleNamesDistinct(a: nat, b: nat)
    requires a != b
    ensures PickleName(a) != PickleName(b)
  {
    if PickleName(a) == PickleName(b) {
      var na := PickleName(a);
      var nb := PickleName(b);
      assert na[7..|na| - 7] == DecimalString(a);
      assert nb[7..|nb| - 7] == DecimalString(b);
      DecimalRoundTrip(a);
      DecimalRoundTrip(b);
    }
  }

  // ---------------------------------------------------------------------------
  // Provider timeout
  // ---------------------------------------------------------------------------

  /** Worst-case minutes of negotiation and transfer before a task runs. */
  const InitOverhead: int := 3
  /** The window providers accept, its lower end raised from 5 to 6 minutes. */
  const MinTimeout: int := 6
  const MaxTimeout: int := 30

  /** The timeout, in minutes, of the requestor's executor. */
  function ProviderTimeout(golemTimeout: int): (r: int)
    ensures MinTimeout <= r <= MaxTimeout
    ensures MinTimeout <= InitOverhead + golemTimeout <= MaxTimeout ==> r == InitOverhead + golemTimeout
    ensures InitOverhead + golemTimeout > MaxTimeout ==> r == MaxTimeout
    ensures InitOverhead + golemTimeout < MinTimeout ==> r == MinTimeout
  {
    var wanted := InitOverhead + golemTimeout;
    var capped := if wanted < MaxTimeout then wanted else MaxTimeout;
    if capped > MinTimeout then capped else MinTimeout
  }

  /** A longer configured timeout never gives a shorter provider timeout. */
  lemma ProviderTimeoutMonotone(t1: int, t2: int)
    requires t1 <= t2
    ensures ProviderTimeout(t1) <= ProviderTimeout(t2)
  {
  }

  // ---------------------------------------------------------------------------
  // The executor
  // ---------------------------------------------------------------------------

  /** The GOLEM executor, with the engine settings it reads. */
  class ExecutorGolem {
    const golemBundles: int
    const golemTimeout: int
    /** The pickle files written by the last `execute_runs`, in bundle order. */
    var pickles: seq<string>

    constructor(golemBundles: int, golemTimeout: int)
      ensures this.golemBundles == golemBundles && this.golemTimeout == golemTimeout
      ensures pickles == []
    {
      this.golemBundles := golemBundles;
      this.golemTimeout := golemTimeout;
      pickles := [];
    }

    /** `execute_runs` up to the network: the drained run list is cut into
        bundles, and bundle b is written to its own pickle. The result is the
        files written, name and contents, in bundle order. */
    method ExecuteRuns(runGenerator: seq<RunArgs>) returns (written: seq<(string, seq<RunArgs>)>)
      modifies this
      ensures |pickles| == |written| == |Bundles(runGenerator, golemBundles)|
      ensures forall b :: 0 <= b < |written| ==>
                pickles[b] == PickleName(b) && written[b] == (PickleName(b), Bundles(runGenerator, golemBundles)[b])
    {
      var configList := runGenerator;
      var count: nat := if golemBundles > 0 then golemBundles else 0;
      var bundles := BundleRuns(configList, count);
      pickles := [];
      written := [];
      for bundle := 0 to count
        invariant |pickles| == |written| == bundle
        invariant forall b :: 0 <= b < bundle ==>
                    pickles[b] == PickleName(b) && written[b] == (PickleName(b), bundles[b])
      {
        var filename := PickleName(bundle);
        pickles := pickles + [filename];
        written := written + [(filename, bundles[bundle])];
      }
    }

    /** The `bundles` dictionary: key b holds `config_list[b::count]`, for every b
        in `range(count)`. */
    method BundleRuns(configList: seq<RunArgs>, count: nat) returns (bundles: map<nat, seq<RunArgs>>)
      ensures forall b :: b in bundles <==> 0 <= b < count
      ensures forall b :: 0 <= b < count ==> bundles[b] == Stride(configList, b, count)
    {
      bundles := map[];
      for bundle := 0 to count
        invariant forall b :: b in bundles <==> 0 <= b < bundle
        invariant forall b :: 0 <= b < bundle ==> bundles[b] == Stride(configList, b, count)
      {
        bundles := bundles[bundle := Stride(configList, bundle, count)];
      }
    }

    /** The timeout `main` hands to the requestor, in minutes. */
    function Timeout(): (r: int)
      reads this
      ensures MinTimeout <= r <= MaxTimeout
    {
      ProviderTimeout(golemTimeout)
    }
  }
}
