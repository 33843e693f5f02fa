/** An optional value: JavaScript's `undefined`/`null` against a present value. */
module Wrappers {

  datatype Option<+T> = None | Some(value: T)
}

/** The collection operations the source takes from JavaScript's `Array` and `Map`. */
module Collections {
  import opened Wrappers

  /** `Array.prototype.filter`: the elements of `s` satisfying `p`, in their original order. */
  function Filter<T>(s: seq<T>, p: T -> bool): (r: seq<T>)
    ensures |r| <= |s|
  {
    if s == [] then []
    else
      var last := s[|s| - 1];
      Filter(s[..|s| - 1], p) + (if p(last) then [last] else [])
  }

  /** Every element of `s` that satisfies `p` survives the filter. */
  lemma {:induction false} FilterMembership<T>(s: seq<T>, p: T -> bool, x: T)
    ensures x in Filter(s, p) <==> x in s && p(x)
  {
    if s != [] {
      var init, last := s[..|s| - 1], s[|s| - 1];
      assert s == init + [last];
      FilterMembership(init, p, x);
    }
  }

  /** Filtering a sequence extended by one element extends the filtered sequence when the element passes. */
  lemma FilterSnoc<T>(s: seq<T>, x: T, p: T -> bool)
    ensures Filter(s + [x], p) == Filter(s, p) + (if p(x) then [x] else [])
  {
    assert (s + [x])[..|s|] == s;
  }

  /** Filtering keeps the order: it distributes over concatenation. */
  lemma {:induction false} FilterConcat<T>(a: seq<T>, b: seq<T>, p: T -> bool)
    ensures Filter(a + b, p) == Filter(a, p) + Filter(b, p)
  {
    if b == [] {
      assert a + b == a;
    } else {
      var init, last := b[..|b| - 1], b[|b| - 1];
      assert (a + b)[..|a + b| - 1] == a + init;
      FilterConcat(a, init, p);
    }
  }

  /** The first element the filter keeps is the first element of `s` that satisfies `p`. */
  lemma {:induction false} FilterFirst<T>(s: seq<T>, p: T -> bool)
    requires Filter(s, p) != []
    ensures exists i :: 0 <= i < |s| && s[i] == Filter(s, p)[0] && p(s[i]) &&
                        forall j :: 0 <= j < i ==> !p(s[j])
  {
    var init, last := s[..|s| - 1], s[|s| - 1];
    var fi := Filter(init, p);
    assert Filter(s, p) == fi + (if p(last) then [last] else []);
    if fi != [] {
      FilterFirst(init, p);
      var i :| 0 <= i < |init| && init[i] == fi[0] && p(init[i]) &&
               forall j :: 0 <= j < i ==> !p(init[j]);
      assert Filter(s, p)[0] == fi[0];
      assert s[i] == init[i];
      forall j | 0 <= j < i ensures !p(s[j]) {
        assert s[j] == init[j];
      }
    } else {
      assert p(last) && Filter(s, p)[0] == last;
      forall j | 0 <= j < |init| ensures !p(s[j]) {
        assert s[j] == init[j];
        FilterMembership(init, p, init[j]);
      }
      assert s[|s| - 1] == Filter(s, p)[0];
    }
  }

  /** A sequence without repetitions. */
  predicate Distinct<T(==)>(s: seq<T>) {
    forall i, j :: 0 <= i < j < |s| ==> s[i] != s[j]
  }

  /** Filtering a sequence without repetitions leaves one without repetitions. */
  lemma {:induction false} FilterDistinct<T>(s: seq<T>, p: T -> bool)
    requires Distinct(s)
    ensures Distinct(Filter(s, p))
  {
    if s != [] {
      var init, last := s[..|s| - 1], s[|s| - 1];
      assert Distinct(init);
      FilterDistinct(init, p);
      forall k | 0 <= k < |init| ensures init[k] != last {
        assert init[k] == s[k];
      }
      FilterMembership(init, p, last);
    }
  }

  /** `Map.prototype.get`: the value under `k`, or undefined. */
  function Get<K, V>(m: map<K, V>, k: K): (r: Option<V>)
    ensures r.Some? <==> k in m
    ensures r.Some? ==> r.value == m[k]
  {
    if k in m then Some(m[k]) else None
  }
}
