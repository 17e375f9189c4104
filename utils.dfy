/** Result reassembly: the one-level `flatten` and the split of (result, exception)
    pairs done by `extract_exceptions`. */
module Utils {
  import opened Values

  /** What one element contributes to `flatten`: a list gives its items, anything
      else (a tuple included) gives itself. */
  function Expand(v: Value): seq<Value> {
    if v.VList? then v.items else [v]
  }

  /** The number of items `Expand(v)` yields. */
  function Width(v: Value): nat {
    if v.VList? then |v.items| else 1
  }

  /** The sum of the widths of the elements of xs. */
  function TotalWidth(xs: seq<Value>): nat {
    if xs == [] then 0 else Width(xs[0]) + TotalWidth(xs[1..])
  }

  /** `flatten(xs)`: every list element is replaced by its items, every other element
      is kept; exactly one level is expanded. */
  function Flatten(xs: seq<Value>): (r: seq<Value>)
    ensures |r| == TotalWidth(xs)
  {
    if xs == [] then [] else Expand(xs[0]) + Flatten(xs[1..])
  }

  /** Flattening distributes over concatenation. */
  lemma {:induction false} FlattenConcat(a: seq<Value>, b: seq<Value>)
    ensures Flatten(a + b) == Flatten(a) + Flatten(b)
  {
    if a == [] {
      assert a + b == b;
    } else {
      assert (a + b)[0] == a[0];
      assert (a + b)[1..] == a[1..] + b;
      FlattenConcat(a[1..], b);
    }
  }

  /** Order: the items of element i come after those of every earlier element and
      before those of every later one. */
  lemma {:induction false} FlattenAt(xs: seq<Value>, i: nat)
    requires i < |xs|
    ensures Flatten(xs) == Flatten(xs[..i]) + Expand(xs[i]) + Flatten(xs[i + 1..])
  {
    var front, back := xs[..i] + [xs[i]], xs[i + 1..];
    assert xs == front + back;
    FlattenConcat(front, back);
    FlattenConcat(xs[..i], [xs[i]]);
    assert [xs[i]][1..] == [];
    assert Flatten([xs[i]]) == Expand(xs[i]);
  }

  /** A sequence without list elements is left unchanged; tuples in particular are
      not expanded. */
  lemma {:induction false} FlattenWithoutLists(xs: seq<Value>)
    requires forall i :: 0 <= i < |xs| ==> !xs[i].VList?
    ensures Flatten(xs) == xs
  {
    if xs != [] {
      FlattenWithoutLists(xs[1..]);
      assert xs == [xs[0]] + xs[1..];
    }
  }

  /** Membership: an item of the result is an item of a list element or a non-list
      element itself, and every such value appears in the result. */
  lemma {:induction false} FlattenMembership(xs: seq<Value>, v: Value)
    ensures v in Flatten(xs) <==> exists i :: 0 <= i < |xs| && v in Expand(xs[i])
  {
    if xs != [] {
      FlattenMembership(xs[1..], v);
      if v in Flatten(xs[1..]) {
        var i :| 0 <= i < |xs[1..]| && v in Expand(xs[1..][i]);
        assert v in Expand(xs[i + 1]);
      }
      if exists i :: 0 <= i < |xs| && v in Expand(xs[i]) {
        var i :| 0 <= i < |xs| && v in Expand(xs[i]);
        if i > 0 {
          assert v in Expand(xs[1..][i - 1]);
        }
      }
    }
  }

  /** Only one level goes: `flatten([[1, 2], 3, [4]])` is `[1, 2, 3, 4]`, while
      `flatten([[[1]]])` is `[[1]]` and a tuple stays whole. */
  lemma FlattenExamples()
    ensures Flatten([VList([VInt(1), VInt(2)]), VInt(3), VList([VInt(4)])])
         == [VInt(1), VInt(2), VInt(3), VInt(4)]
    ensures Flatten([VList([VList([VInt(1)])])]) == [VList([VInt(1)])]
    ensures Flatten([VTuple([VInt(1), VInt(2)])]) == [VTuple([VInt(1), VInt(2)])]
  {
    assert Flatten([VList([VInt(4)])]) == [VInt(4)];
    assert Flatten([VInt(3), VList([VInt(4)])]) == [VInt(3), VInt(4)];
  }

  /** One executor outcome: the run's result and the exception it raised (`VNone`
      when it succeeded). */
  datatype Outcome = Outcome(result: Value, exception: Value)

  datatype Extracted = Extracted(results: seq<Value>, exceptions: seq<Value>)

  /** Unpacking `zip(*[])` into two names raises `ValueError`. */
  datatype UnpackError = NotEnoughValuesToUnpack

  /** The first components, in input order. */
  function Results(xs: seq<Outcome>): (r: seq<Value>)
    ensures |r| == |xs|
    ensures forall i :: 0 <= i < |xs| ==> r[i] == xs[i].result
  {
    seq(|xs|, i requires 0 <= i < |xs| => xs[i].result)
  }

  /** The second components, in input order. */
  function Exceptions(xs: seq<Outcome>): (r: seq<Value>)
    ensures |r| == |xs|
    ensures forall i :: 0 <= i < |xs| ==> r[i] == xs[i].exception
  {
    seq(|xs|, i requires 0 <= i < |xs| => xs[i].exception)
  }

  lemma ResultsConcat(xs: seq<Outcome>, ys: seq<Outcome>)
    ensures Results(xs + ys) == Results(xs) + Results(ys)
  {
    assert Results(xs + ys) == Results(xs) + Results(ys) by {
      forall q | 0 <= q < |xs + ys|
        ensures Results(xs + ys)[q] == (Results(xs) + Results(ys))[q]
      {
        if q >= |xs| {
          assert (xs + ys)[q] == ys[q - |xs|];
        }
      }
    }
  }

  lemma ExceptionsConcat(xs: seq<Outcome>, ys: seq<Outcome>)
    ensures Exceptions(xs + ys) == Exceptions(xs) + Exceptions(ys)
  {
    assert Exceptions(xs + ys) == Exceptions(xs) + Exceptions(ys) by {
      forall q | 0 <= q < |xs + ys|
        ensures Exceptions(xs + ys)[q] == (Exceptions(xs) + Exceptions(ys))[q]
      {
        if q >= |xs| {
          assert (xs + ys)[q] == ys[q - |xs|];
        }
      }
    }
  }

  /** `extract_exceptions`: unzip the pairs, flatten the results twice and keep the
      exceptions positionally. */
  function ExtractExceptions(xs: seq<Outcome>): (r: Result<Extracted, UnpackError>)
    ensures r.Err? <==> xs == []
    ensures r.Ok? ==> |r.value.exceptions| == |xs|
    ensures r.Ok? ==> forall i :: 0 <= i < |xs| ==> r.value.exceptions[i] == xs[i].exception
  {
    if xs == [] then Err(NotEnoughValuesToUnpack)
    else Ok(Extracted(Flatten(Flatten(Results(xs))), Exceptions(xs)))
  }

  /** The results of a longer dispatch are the results of its two halves, in order. */
  lemma ExtractConcat(xs: seq<Outcome>, ys: seq<Outcome>)
    requires xs != [] && ys != []
    ensures ExtractExceptions(xs + ys).Ok?
    ensures ExtractExceptions(xs + ys).value.results
         == ExtractExceptions(xs).value.results + ExtractExceptions(ys).value.results
    ensures ExtractExceptions(xs + ys).value.exceptions
         == ExtractExceptions(xs).value.exceptions + ExtractExceptions(ys).value.exceptions
  {
    var rx, ry := Results(xs), Results(ys);
    ResultsConcat(xs, ys);
    ExceptionsConcat(xs, ys);
    FlattenConcat(rx, ry);
    FlattenConcat(Flatten(rx), Flatten(ry));
  }

  /** A failed run keeps its `None` result in the results channel: for the pairs
      `[([[s1]], None), (None, e), ([[s2]], None)]` the results are `[s1, None, s2]`
      and the exceptions `[None, e, None]`. */
  lemma FailedRunKeepsNoneResult(s1: Value, s2: Value, e: Value)
    requires !s1.VList? && !s2.VList?
    ensures var xs := [Outcome(VList([VList([s1])]), VNone), Outcome(VNone, e),
                       Outcome(VList([VList([s2])]), VNone)];
            ExtractExceptions(xs) == Ok(Extracted([s1, VNone, s2], [VNone, e, VNone]))
  {
    var xs := [Outcome(VList([VList([s1])]), VNone), Outcome(VNone, e),
               Outcome(VList([VList([s2])]), VNone)];
    assert Results(xs) == [VList([VList([s1])]), VNone, VList([VList([s2])])];
    assert Flatten([VList([VList([s2])])]) == [VList([s2])];
    assert Flatten([VNone, VList([VList([s2])])]) == [VNone, VList([s2])];
    assert Flatten(Results(xs)) == [VList([s1]), VNone, VList([s2])];
    assert Flatten([VList([s2])]) == [s2];
    assert Flatten([VNone, VList([s2])]) == [VNone, s2];
    assert Flatten(Flatten(Results(xs))) == [s1, VNone, s2];
    assert Exceptions(xs) == [VNone, e, VNone];
  }
}
