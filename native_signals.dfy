/** The policy merge of the native run loop: every policy of a partial state
    update block returns a dictionary of signals, and `reduce_signals` adds them
    up key by key. Signals are integer-valued. */
module NativeSignals {
  import opened Values

  /** A state dictionary of the native loop, integer-valued. */
  type State = map<string, int>

  /** What a policy returns. */
  type Signals = map<string, int>

  /** A user policy: (params, substep index, history, substate) to signals. */
  type Policy = (Dict, nat, seq<State>, State) -> Signals

  /** The value of key k in s, or 0 where s lacks k. */
  function At(s: Signals, k: string): int {
    if k in s then s[k] else 0
  }

  /** One step of the fold: every key of a is added to the accumulator, summed
      where the accumulator already has it and inserted where it does not. */
  function AddSignals(acc: Signals, a: Signals): (r: Signals)
    ensures r.Keys == acc.Keys + a.Keys
  {
    map k | k in acc.Keys + a.Keys :: At(acc, k) + At(a, k)
  }

  /** The fold over the policy outputs, left to right from the empty dictionary. */
  function Fold(outputs: seq<Signals>): Signals {
    if outputs == [] then map[] else AddSignals(Fold(outputs[..|outputs| - 1]), outputs[|outputs| - 1])
  }

  /** `reduce_signals` after the policies ran: no policy gives an empty dictionary,
      one policy gives its own dictionary, several give the fold. */
  function MergeSignals(outputs: seq<Signals>): Signals {
    match |outputs|
    case 0 => map[]
    case 1 => outputs[0]
    case _ => Fold(outputs)
  }

  /** The sum over all outputs of the value each gives key k (0 where absent). */
  function Total(outputs: seq<Signals>, k: string): int {
    if outputs == [] then 0 else Total(outputs[..|outputs| - 1], k) + At(outputs[|outputs| - 1], k)
  }

  /** The fold is key-wise: a key is present exactly when some output has it, and
      its value is the total over all outputs. */
  lemma {:induction false} FoldKeywise(outputs: seq<Signals>, k: string)
    ensures k in Fold(outputs) <==> exists i :: 0 <= i < |outputs| && k in outputs[i]
    ensures At(Fold(outputs), k) == Total(outputs, k)
  {
    if outputs != [] {
      var p := |outputs| - 1;
      FoldKeywise(outputs[..p], k);
      if exists i :: 0 <= i < p && k in outputs[..p][i] {
        var i :| 0 <= i < p && k in outputs[..p][i];
        assert k in outputs[i];
      }
      if exists i :: 0 <= i < |outputs| && k in outputs[i] {
        var i :| 0 <= i < |outputs| && k in outputs[i];
        if i < p {
          assert k in outputs[..p][i];
        }
      }
    }
  }

  /** The shortcut for a single policy agrees with the general fold. */
  lemma SingleOutputIsFold(a: Signals)
    ensures Fold([a]) == a
  {
    assert [a][..0] == [];
    assert Fold([a]) == AddSignals(map[], a);
  }

  /** Whatever the number of policies, `reduce_signals` is the key-wise sum: a key
      is in the result iff some policy returned it, with the total as its value. */
  lemma MergeKeywise(outputs: seq<Signals>, k: string)
    ensures k in MergeSignals(outputs) <==> exists i :: 0 <= i < |outputs| && k in outputs[i]
    ensures At(MergeSignals(outputs), k) == Total(outputs, k)
  {
    FoldKeywise(outputs, k);
    if |outputs| == 1 {
      SingleOutputIsFold(outputs[0]);
    }
  }

  /** The total over a concatenation is the sum of the totals. */
  lemma {:induction false} TotalConcat(u: seq<Signals>, v: seq<Signals>, k: string)
    ensures Total(u + v, k) == Total(u, k) + Total(v, k)
    decreases |v|
  {
    if v == [] {
      assert u + v == u;
    } else {
      var p := |v| - 1;
      assert (u + v)[..|u + v| - 1] == u + v[..p];
      TotalConcat(u, v[..p], k);
    }
  }

  /** Taking output j out of the list takes its value out of the total. */
  lemma TotalRemove(outputs: seq<Signals>, j: nat, k: string)
    requires j < |outputs|
    ensures Total(outputs, k) == Total(outputs[..j] + outputs[j + 1..], k) + At(outputs[j], k)
  {
    var x := outputs[j];
    assert outputs == outputs[..j] + ([x] + outputs[j + 1..]);
    assert [x][..0] == [];
    TotalConcat(outputs[..j], [x] + outputs[j + 1..], k);
    TotalConcat([x], outputs[j + 1..], k);
    TotalConcat(outputs[..j], outputs[j + 1..], k);
  }

  /** The total does not depend on the order of the outputs. */
  lemma {:induction false} TotalPermutation(a: seq<Signals>, b: seq<Signals>, k: string)
    requires multiset(a) == multiset(b)
    ensures Total(a, k) == Total(b, k)
    decreases |a|
  {
    if a == [] {
      assert |b| == |multiset(b)| == 0;
    } else {
      var p := |a| - 1;
      var x := a[p];
      assert x in multiset(b);
      var j :| 0 <= j < |b| && b[j] == x;
      var rest := b[..j] + b[j + 1..];
      assert a == a[..p] + [x];
      assert b == b[..j] + [x] + b[j + 1..];
      calc {
        multiset(a[..p]) + multiset{x};
        multiset(a);
        multiset(b);
        multiset(b[..j]) + multiset{x} + multiset(b[j + 1..]);
        multiset(rest) + multiset{x};
      }
      assert multiset(a[..p]) == multiset(a[..p]) + multiset{x} - multiset{x};
      assert multiset(rest) == multiset(rest) + multiset{x} - multiset{x};
      TotalPermutation(a[..p], rest, k);
      TotalRemove(b, j, k);
    }
  }

  /** The outputs of b include every output of a when they are a permutation. */
  lemma PresentIn(a: seq<Signals>, b: seq<Signals>, k: string)
    requires multiset(a) == multiset(b)
    ensures (exists i :: 0 <= i < |a| && k in a[i]) ==> exists j :: 0 <= j < |b| && k in b[j]
  {
    if exists i :: 0 <= i < |a| && k in a[i] {
      var i :| 0 <= i < |a| && k in a[i];
      assert a[i] in multiset(b);
      var j :| 0 <= j < |b| && b[j] == a[i];
    }
  }

  /** Reordering the policies does not change the merge: any permutation of the
      outputs merges to the same signals. */
  lemma MergeIgnoresOrder(a: seq<Signals>, b: seq<Signals>)
    requires multiset(a) == multiset(b)
    ensures MergeSignals(a) == MergeSignals(b)
  {
    var ma, mb := MergeSignals(a), MergeSignals(b);
    forall k
      ensures k in ma <==> k in mb
      ensures At(ma, k) == At(mb, k)
    {
      MergeKeywise(a, k);
      MergeKeywise(b, k);
      PresentIn(a, b, k);
      PresentIn(b, a, k);
      TotalPermutation(a, b, k);
    }
    assert ma.Keys == mb.Keys;
    assert forall k :: k in ma ==> ma[k] == At(ma, k) == At(mb, k) == mb[k];
  }

  /** The outputs of the policies, called in order on a copy of the substate. */
  function PolicyOutputs(policies: seq<Policy>, params: Dict, substep: nat, history: seq<State>,
                         substate: State): (r: seq<Signals>)
    ensures |r| == |policies|
    ensures forall i :: 0 <= i < |policies| ==> r[i] == policies[i](params, substep, history, substate)
  {
    seq(|policies|, i requires 0 <= i < |policies| => policies[i](params, substep, history, substate))
  }

  /** `reduce_signals(py, params, substep, result, substate, psub)`. */
  method ReduceSignals(policies: seq<Policy>, params: Dict, substep: nat, history: seq<State>,
                       substate: State) returns (signals: Signals)
    ensures signals == MergeSignals(PolicyOutputs(policies, params, substep, history, substate))
  {
    var policyResults: seq<Signals> := [];
    for i := 0 to |policies|
      invariant policyResults == PolicyOutputs(policies[..i], params, substep, history, substate)
    {
      assert policies[..i + 1] == policies[..i] + [policies[i]];
      policyResults := policyResults + [policies[i](params, substep, history, substate)];
    }
    assert policies[..|policies|] == policies;
    if |policyResults| == 0 {
      return map[];
    } else if |policyResults| == 1 {
      return policyResults[|policyResults| - 1];
    }
    signals := map[];
    for i := 0 to |policyResults|
      invariant signals == Fold(policyResults[..i])
    {
      assert policyResults[..i + 1][..i] == policyResults[..i];
      signals := AddInto(signals, policyResults[i]);
    }
    assert policyResults[..|policyResults|] == policyResults;
  }

  /** The closure passed to `fold`: every key of a is summed into acc. */
  method AddInto(acc: Signals, a: Signals) returns (r: Signals)
    ensures r == AddSignals(acc, a)
  {
    r := acc;
    var remaining := a.Keys;
    while remaining != {}
      invariant remaining <= a.Keys
      invariant r == AddSignals(acc, a - remaining)
      decreases remaining
    {
      var key :| key in remaining;
      if key in r {
        r := r[key := r[key] + a[key]];
      } else {
        r := r[key := a[key]];
      }
      remaining := remaining - {key};
    }
    assert a - remaining == a;
  }
}
