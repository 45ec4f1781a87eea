/**
 * `Flux.fromIterable(ids).flatMap(fetch).collectList()`: the fetches run
 * concurrently and their values are collected in the order they complete;
 * the first failure to complete ends the whole collection with that failure.
 * Completion order is an input here (a permutation of the request indices),
 * which makes both the order of the list and the failure that wins a choice
 * of the environment.
 */
module Collect {
  import opened Results

  /** 0, 1, ..., n-1. */
  function Indices(n: nat): (r: seq<nat>)
    ensures |r| == n
    ensures forall i :: 0 <= i < n ==> r[i] == i
  {
    seq(n, i requires 0 <= i < n => i)
  }

  /** `order` lists every index below `n` exactly once. */
  ghost predicate IsPermutation(order: seq<nat>, n: nat) {
    && |order| == n
    && (forall j :: 0 <= j < |order| ==> order[j] < n)
    && multiset(order) == multiset(Indices(n))
  }

  predicate InBounds(order: seq<nat>, n: nat) {
    forall j :: 0 <= j < |order| ==> order[j] < n
  }

  /** The elements of `xs` picked out in the order `order` names them. */
  function Pick<T>(xs: seq<T>, order: seq<nat>): (r: seq<T>)
    requires InBounds(order, |xs|)
    ensures |r| == |order|
    ensures forall j :: 0 <= j < |order| ==> r[j] == xs[order[j]]
    decreases |order|
  {
    if |order| == 0 then [] else [xs[order[0]]] + Pick(xs, order[1..])
  }

  lemma PickConcat<T>(xs: seq<T>, a: seq<nat>, b: seq<nat>)
    requires InBounds(a, |xs|) && InBounds(b, |xs|)
    ensures InBounds(a + b, |xs|)
    ensures Pick(xs, a + b) == Pick(xs, a) + Pick(xs, b)
  {
    assert InBounds(a + b, |xs|) by {
      forall j | 0 <= j < |a + b|
        ensures (a + b)[j] < |xs|
      {
        if j >= |a| {
          assert (a + b)[j] == b[j - |a|];
        }
      }
    }
  }

  /** Taking out one occurrence of `b[k]` takes out the same element from both sides. */
  lemma RemoveMatching(a: seq<nat>, b: seq<nat>, k: nat)
    requires |a| > 0 && k < |b| && b[k] == a[0]
    requires multiset(a) == multiset(b)
    ensures multiset(a[1..]) == multiset(b[..k] + b[k + 1..])
  {
    assert a == [a[0]] + a[1..];
    assert b == b[..k] + [b[k]] + b[k + 1..];
    assert multiset(a[1..]) == multiset(a) - multiset{a[0]};
    assert multiset(b[..k] + b[k + 1..]) == multiset(b) - multiset{b[k]};
  }

  /** Picking through `before + [x] + after` is picking through `before + after` plus `xs[x]`. */
  lemma PickAround<T>(xs: seq<T>, before: seq<nat>, x: nat, after: seq<nat>)
    requires InBounds(before, |xs|) && x < |xs| && InBounds(after, |xs|)
    ensures InBounds(before + after, |xs|) && InBounds(before + [x] + after, |xs|)
    ensures multiset(Pick(xs, before + [x] + after)) == multiset(Pick(xs, before + after)) + multiset{xs[x]}
  {
    assert InBounds([x], |xs|);
    PickConcat(xs, before, after);
    PickConcat(xs, before, [x]);
    PickConcat(xs, before + [x], after);
  }

  /** An index that occurs in `b` (counted as a multiset) sits at some position of `b`. */
  lemma Locate(b: seq<nat>, x: nat) returns (k: nat)
    requires x in multiset(b)
    ensures k < |b| && b[k] == x
  {
    assert x in b;
    k :| 0 <= k < |b| && b[k] == x;
  }

  /** Picking by a non-empty list is its head's element plus the pick by its tail. */
  lemma PickHead<T>(xs: seq<T>, a: seq<nat>)
    requires InBounds(a, |xs|) && |a| > 0
    ensures InBounds(a[1..], |xs|)
    ensures multiset(Pick(xs, a)) == multiset{xs[a[0]]} + multiset(Pick(xs, a[1..]))
  {
    assert InBounds(a[1..], |xs|) by {
      forall j | 0 <= j < |a[1..]|
        ensures a[1..][j] < |xs|
      {
        assert a[1..][j] == a[j + 1];
      }
    }
    var rest := Pick(xs, a[1..]);
    assert Pick(xs, a) == [xs[a[0]]] + rest;
    assert multiset([xs[a[0]]] + rest) == multiset([xs[a[0]]]) + multiset(rest);
  }

  /** Cutting an in-bounds index list around position `k` keeps both pieces in bounds. */
  lemma CutAt(b: seq<nat>, k: nat, n: nat)
    requires InBounds(b, n) && k < |b|
    ensures b == b[..k] + [b[k]] + b[k + 1..]
    ensures InBounds(b[..k], n) && InBounds(b[k + 1..], n)
  {
    assert b == b[..k] + [b[k]] + b[k + 1..];
  }

  /**
   * Cutting position `k` out of `b`: the pick by `b` is that position's
   * element plus the pick by what remains, which is still in bounds.
   */
  lemma PickCut<T>(xs: seq<T>, b: seq<nat>, k: nat)
    requires InBounds(b, |xs|) && k < |b|
    ensures InBounds(b[..k] + b[k + 1..], |xs|)
    ensures multiset(Pick(xs, b)) == multiset{xs[b[k]]} + multiset(Pick(xs, b[..k] + b[k + 1..]))
  {
    CutAt(b, k, |xs|);
    PickAround(xs, b[..k], b[k], b[k + 1..]);
  }

  /** Picking by two index lists that are permutations of each other gives permutations of each other. */
  lemma {:induction false} PickRespectsMultiset<T>(xs: seq<T>, a: seq<nat>, b: seq<nat>)
    requires InBounds(a, |xs|) && InBounds(b, |xs|)
    requires multiset(a) == multiset(b)
    ensures multiset(Pick(xs, a)) == multiset(Pick(xs, b))
    decreases |a|
  {
    if |a| == 0 {
      assert |multiset(b)| == 0;
      assert b == [];
    } else {
      var k := Locate(b, a[0]);
      PickHead(xs, a);
      PickCut(xs, b, k);
      RemoveMatching(a, b, k);
      PickRespectsMultiset(xs, a[1..], b[..k] + b[k + 1..]);
    }
  }

  /** Collecting in any completion order yields a permutation of the values in request order. */
  lemma PermutedCollection<T>(xs: seq<T>, order: seq<nat>)
    requires IsPermutation(order, |xs|)
    ensures multiset(Pick(xs, order)) == multiset(xs)
  {
    PickIndices(xs);
    PickRespectsMultiset(xs, order, Indices(|xs|));
  }

  /** Picking in request order gives the values back as they are. */
  lemma PickIndices<T>(xs: seq<T>)
    ensures InBounds(Indices(|xs|), |xs|)
    ensures Pick(xs, Indices(|xs|)) == xs
  {
    assert Pick(xs, Indices(|xs|)) == xs;
  }

  /**
   * The joined result: every value, in completion order, when every fetch
   * succeeded; otherwise the failure of the first fetch, in completion order,
   * that failed.
   */
  function Join<T, E>(results: seq<Result<T, E>>, order: seq<nat>): (r: Result<seq<T>, E>)
    requires InBounds(order, |results|)
    ensures r.Success? <==> forall j :: 0 <= j < |order| ==> results[order[j]].Success?
    ensures r.Success? ==>
              |r.value| == |order| && forall j :: 0 <= j < |order| ==> Success(r.value[j]) == results[order[j]]
    ensures r.Failure? ==>
              exists j :: 0 <= j < |order| && results[order[j]] == Failure(r.error)
                && forall i :: 0 <= i < j ==> results[order[i]].Success?
    decreases |order|
  {
    if |order| == 0 then Success([])
    else
      match results[order[0]]
      case Failure(e) => Failure(e)
      case Success(v) =>
        match Join(results, order[1..])
        case Failure(e) =>
          ghost var j :| 0 <= j < |order[1..]| && results[order[1..][j]] == Failure(e)
                          && forall i :: 0 <= i < j ==> results[order[1..][i]].Success?;
          assert results[order[j + 1]] == Failure(e);
          Failure(e)
        case Success(vs) => Success([v] + vs)
  }

  /** The values of a list of results that all succeeded. */
  function Values<T, E>(results: seq<Result<T, E>>): (vs: seq<T>)
    requires forall i :: 0 <= i < |results| ==> results[i].Success?
    ensures |vs| == |results|
    ensures forall i :: 0 <= i < |results| ==> results[i] == Success(vs[i])
  {
    seq(|results|, i requires 0 <= i < |results| => results[i].value)
  }

  /** Every request index appears somewhere in a completion order. */
  lemma PermutationCovers(order: seq<nat>, n: nat, i: nat)
    requires IsPermutation(order, n) && i < n
    ensures i in order
  {
    assert Indices(n)[i] == i;
    assert i in multiset(Indices(n));
  }

  /** The collection succeeds exactly when every fetch does, whatever the completion order. */
  lemma JoinSucceedsIffAll<T, E>(results: seq<Result<T, E>>, order: seq<nat>)
    requires IsPermutation(order, |results|)
    ensures Join(results, order).Success? <==> forall i :: 0 <= i < |results| ==> results[i].Success?
  {
    if Join(results, order).Success? {
      forall i | 0 <= i < |results|
        ensures results[i].Success?
      {
        PermutationCovers(order, |results|, i);
        var j :| 0 <= j < |order| && order[j] == i;
      }
    }
  }

  /** When every result is a success, joining them picks their values in completion order. */
  lemma JoinIsPick<T, E>(results: seq<Result<T, E>>, order: seq<nat>)
    requires InBounds(order, |results|)
    requires forall i :: 0 <= i < |results| ==> results[i].Success?
    ensures Join(results, order) == Success(Pick(Values(results), order))
  {
  }

  /** When every fetch succeeds, the collected list is a permutation of the values in request order. */
  lemma JoinSuccessPermutes<T, E>(results: seq<Result<T, E>>, order: seq<nat>)
    requires IsPermutation(order, |results|)
    requires forall i :: 0 <= i < |results| ==> results[i].Success?
    ensures Join(results, order).Success?
    ensures multiset(Join(results, order).value) == multiset(Values(results))
  {
    JoinIsPick(results, order);
    PermutedCollection(Values(results), order);
  }

  /** The index list that puts request `i` first and the rest in request order. */
  function Front(i: nat, n: nat): (order: seq<nat>)
    requires i < n
    ensures |order| == n && order[0] == i
    ensures InBounds(order, n)
  {
    [i] + Indices(i) + seq(n - i - 1, k requires 0 <= k < n - i - 1 => i + 1 + k)
  }

  lemma FrontIsPermutation(i: nat, n: nat)
    requires i < n
    ensures IsPermutation(Front(i, n), n)
  {
    var tail := seq(n - i - 1, k requires 0 <= k < n - i - 1 => i + 1 + k);
    assert Indices(n) == Indices(i) + [i] + tail;
    assert Front(i, n) == [i] + Indices(i) + tail;
  }

  /**
   * Which failure surfaces is not fixed: any fetch that fails can be the one
   * reported, for some completion order.
   */
  lemma AnyFailureCanWin<T, E>(results: seq<Result<T, E>>, i: nat)
    requires i < |results| && results[i].Failure?
    ensures IsPermutation(Front(i, |results|), |results|)
    ensures Join(results, Front(i, |results|)) == Failure(results[i].error)
  {
    FrontIsPermutation(i, |results|);
  }
}
