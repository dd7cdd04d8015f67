/**
 * Order-preserving de-duplication by a key, first occurrence winning: detik's `seen`
 * loop, antara's membership test on the collected links, and pandas'
 * `drop_duplicates(subset=["link"])` in the aggregator.
 */
module Dedup {

  /** The keys of the elements of `xs`. */
  ghost function Keys<T, K>(xs: seq<T>, key: T -> K): set<K>
  {
    set i | 0 <= i < |xs| :: key(xs[i])
  }

  /** `xs` with every element whose key already occurred earlier removed. */
  function DedupBy<T, K(==)>(xs: seq<T>, key: T -> K): seq<T>
  {
    if xs == [] then []
    else
      var init := xs[..|xs| - 1];
      var x := xs[|xs| - 1];
      DedupBy(init, key) + (if exists j :: 0 <= j < |init| && key(init[j]) == key(x) then [] else [x])
  }

  /** `a` is `b` with some elements left out, the rest in the same order. */
  ghost predicate IsSubsequence<T>(a: seq<T>, b: seq<T>)
    decreases |b|
  {
    a == [] ||
    (b != [] &&
     ((a[|a| - 1] == b[|b| - 1] && IsSubsequence(a[..|a| - 1], b[..|b| - 1]))
      || IsSubsequence(a, b[..|b| - 1])))
  }

  /** No two elements share a key. */
  ghost predicate UniqueKeys<T, K>(xs: seq<T>, key: T -> K)
  {
    forall i, j :: 0 <= i < j < |xs| ==> key(xs[i]) != key(xs[j])
  }

  /** `xs[i]` is the first element of `xs` with its key. */
  ghost predicate FirstOfKey<T, K>(xs: seq<T>, key: T -> K, i: int)
    requires 0 <= i < |xs|
  {
    forall j :: 0 <= j < i ==> key(xs[j]) != key(xs[i])
  }

  /** Appending one element keeps it exactly when its key is new. */
  lemma DedupByStep<T, K>(xs: seq<T>, x: T, key: T -> K)
    ensures DedupBy(xs + [x], key) == DedupBy(xs, key) + (if key(x) in Keys(xs, key) then [] else [x])
  {
    var ys := xs + [x];
    assert ys[..|ys| - 1] == xs && ys[|ys| - 1] == x;
    if key(x) in Keys(xs, key) {
      var j :| 0 <= j < |xs| && key(xs[j]) == key(x);
    }
  }

  /** De-duplication loses no key. */
  lemma {:induction false} DedupByKeys<T, K>(xs: seq<T>, key: T -> K)
    ensures Keys(DedupBy(xs, key), key) == Keys(xs, key)
    decreases |xs|
  {
    if xs != [] {
      var init, x := xs[..|xs| - 1], xs[|xs| - 1];
      assert xs == init + [x];
      DedupByKeys(init, key);
      DedupByStep(init, x, key);
      KeysAppend(init, [x], key);
      KeysAppend(DedupBy(init, key), [x], key);
      KeysSingleton(x, key);
      assert Keys(xs, key) == Keys(init, key) + {key(x)};
      if key(x) in Keys(init, key) {
        assert DedupBy(xs, key) == DedupBy(init, key);
      } else {
        assert DedupBy(xs, key) == DedupBy(init, key) + [x];
      }
    }
  }

  /** No two kept elements share a key. */
  lemma {:induction false} DedupByUnique<T, K>(xs: seq<T>, key: T -> K)
    ensures UniqueKeys(DedupBy(xs, key), key)
    decreases |xs|
  {
    if xs != [] {
      var init, x := xs[..|xs| - 1], xs[|xs| - 1];
      assert xs == init + [x];
      DedupByUnique(init, key);
      DedupByKeys(init, key);
      DedupByStep(init, x, key);
      var d := DedupBy(init, key);
      if key(x) !in Keys(init, key) {
        forall i, j | 0 <= i < j < |d + [x]| ensures key((d + [x])[i]) != key((d + [x])[j]) {
          if j == |d| {
            assert key(d[i]) in Keys(d, key);
          }
        }
      }
    }
  }

  /** The kept elements are a subsequence of the input. */
  lemma {:induction false} DedupBySubsequence<T, K>(xs: seq<T>, key: T -> K)
    ensures IsSubsequence(DedupBy(xs, key), xs)
    decreases |xs|
  {
    if xs != [] {
      var init, x := xs[..|xs| - 1], xs[|xs| - 1];
      assert xs == init + [x];
      DedupBySubsequence(init, key);
      DedupByStep(init, x, key);
      var d := DedupBy(init, key);
      if key(x) in Keys(init, key) {
        assert DedupBy(xs, key) == d;
        SubsequenceExtend(d, init, x);
      } else {
        var r := d + [x];
        assert DedupBy(xs, key) == r;
        assert r[..|r| - 1] == d && r[|r| - 1] == x;
        assert xs[..|xs| - 1] == init && xs[|xs| - 1] == x;
      }
    }
  }

  /** Every element of `d` is an element of `xs` that is the first there with its key. */
  ghost predicate FirstsOf<T, K>(d: seq<T>, xs: seq<T>, key: T -> K)
  {
    forall k :: 0 <= k < |d| ==> exists i :: 0 <= i < |xs| && xs[i] == d[k] && FirstOfKey(xs, key, i)
  }

  /** Each kept element is the first of the input with its key. */
  lemma {:induction false} DedupByFirst<T, K>(xs: seq<T>, key: T -> K)
    ensures FirstsOf(DedupBy(xs, key), xs, key)
    decreases |xs|
  {
    if xs != [] {
      var init, x := xs[..|xs| - 1], xs[|xs| - 1];
      assert xs == init + [x];
      DedupByFirst(init, key);
      DedupByStep(init, x, key);
      var d := DedupBy(init, key);
      var r := DedupBy(xs, key);
      assert r == d + (if key(x) in Keys(init, key) then [] else [x]);
      assert forall j :: 0 <= j < |init| ==> xs[j] == init[j];
      forall k | 0 <= k < |DedupBy(xs, key)|
        ensures exists i :: 0 <= i < |xs| && xs[i] == DedupBy(xs, key)[k] && FirstOfKey(xs, key, i)
      {
        if k < |d| {
          var i :| 0 <= i < |init| && init[i] == d[k] && FirstOfKey(init, key, i);
          assert xs[i] == r[k] && FirstOfKey(xs, key, i);
        } else {
          assert r[k] == x && key(x) !in Keys(init, key);
          forall j | 0 <= j < |xs| - 1 ensures key(xs[j]) != key(xs[|xs| - 1]) {
            assert key(init[j]) in Keys(init, key);
          }
          assert xs[|xs| - 1] == r[k] && FirstOfKey(xs, key, |xs| - 1);
        }
      }
    } else {
      assert DedupBy(xs, key) == [];
    }
  }

  /**
   * De-duplication keeps exactly the first element of each key: the keys are unique, the
   * same keys remain, each kept element is the first with its key, and the order is kept.
   */
  lemma DedupByCorrect<T, K>(xs: seq<T>, key: T -> K)
    ensures UniqueKeys(DedupBy(xs, key), key)
    ensures Keys(DedupBy(xs, key), key) == Keys(xs, key)
    ensures IsSubsequence(DedupBy(xs, key), xs)
    ensures forall k :: 0 <= k < |DedupBy(xs, key)| ==>
              exists i :: 0 <= i < |xs| && xs[i] == DedupBy(xs, key)[k] && FirstOfKey(xs, key, i)
  {
    DedupByUnique(xs, key);
    DedupByKeys(xs, key);
    DedupBySubsequence(xs, key);
    DedupByFirst(xs, key);
    assert FirstsOf(DedupBy(xs, key), xs, key);
  }

  /** A subsequence stays one when the longer sequence grows at the end. */
  lemma {:induction false} SubsequenceExtend<T>(a: seq<T>, b: seq<T>, x: T)
    requires IsSubsequence(a, b)
    ensures IsSubsequence(a, b + [x])
  {
    assert (b + [x])[..|b + [x]| - 1] == b;
  }

  lemma KeysSingleton<T, K>(x: T, key: T -> K)
    ensures Keys([x], key) == {key(x)}
  {
    assert [x][0] == x;
  }

  lemma KeysAppend<T, K>(a: seq<T>, b: seq<T>, key: T -> K)
    ensures Keys(a + b, key) == Keys(a, key) + Keys(b, key)
  {
    var ab := a + b;
    forall y | y in Keys(ab, key) ensures y in Keys(a, key) + Keys(b, key) {
      var i :| 0 <= i < |ab| && key(ab[i]) == y;
      if i >= |a| {
        assert key(b[i - |a|]) == y;
      }
    }
    forall y | y in Keys(a, key) + Keys(b, key) ensures y in Keys(ab, key) {
      if y in Keys(a, key) {
        var i :| 0 <= i < |a| && key(a[i]) == y;
        assert ab[i] == a[i];
      } else {
        var i :| 0 <= i < |b| && key(b[i]) == y;
        assert ab[|a| + i] == b[i];
      }
    }
  }
}
