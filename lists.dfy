/** Order-preserving sequence operations: de-duplication by a key and filtering. */
module Lists {

  /** `s[i]` is the first element of `s` carrying its key. */
  predicate IsFirst<T, K(==)>(s: seq<T>, key: T -> K, i: int)
    requires 0 <= i < |s|
  {
    forall j :: 0 <= j < i ==> key(s[j]) != key(s[i])
  }

  /**
   * Walks `s` from left to right and keeps an element only when no earlier kept element
   * has its key (a loop over `s` with a set of seen keys, or Python's `dict.fromkeys`).
   */
  function DedupBy<T, K(==)>(s: seq<T>, key: T -> K): (r: seq<T>)
    ensures |r| <= |s|
    ensures forall i, j :: 0 <= i < j < |r| ==> key(r[i]) != key(r[j])
    ensures forall x :: x in r ==> x in s
    ensures forall i :: 0 <= i < |s| ==> key(s[i]) in Map(r, key)
  {
    if s == [] then []
    else
      var init := s[..|s| - 1];
      var p := DedupBy(init, key);
      var last := s[|s| - 1];
      assert forall i :: 0 <= i < |init| ==> init[i] == s[i];
      if key(last) in Map(p, key) then p
      else
        assert Map(p + [last], key) == Map(p, key) + [key(last)];
        p + [last]
  }

  /** The reference definition: the elements of `s[..n]` that are the first with their key. */
  function Firsts<T, K(==)>(s: seq<T>, key: T -> K, n: nat): seq<T>
    requires n <= |s|
  {
    if n == 0 then []
    else Firsts(s, key, n - 1) + (if IsFirst(s, key, n - 1) then [s[n - 1]] else [])
  }

  lemma {:induction false} FirstsOfPrefix<T, K>(s: seq<T>, key: T -> K, m: nat, n: nat)
    requires n <= m <= |s|
    ensures Firsts(s[..m], key, n) == Firsts(s, key, n)
  {
    if n > 0 {
      FirstsOfPrefix(s, key, m, n - 1);
      assert IsFirst(s[..m], key, n - 1) == IsFirst(s, key, n - 1);
    }
  }

  /** De-duplication keeps exactly the first occurrence of every key, in input order. */
  lemma {:induction false} DedupByIsFirsts<T, K>(s: seq<T>, key: T -> K)
    ensures DedupBy(s, key) == Firsts(s, key, |s|)
  {
    if s != [] {
      var n := |s|;
      var init := s[..n - 1];
      var p := DedupBy(init, key);
      DedupByIsFirsts(init, key);
      FirstsOfPrefix(s, key, n - 1, n - 1);
      assert p == Firsts(s, key, n - 1);
      var last := s[n - 1];
      if key(last) in Map(p, key) {
        var k :| 0 <= k < |p| && Map(p, key)[k] == key(last);
        assert p[k] in init;
        var j :| 0 <= j < n - 1 && init[j] == p[k];
        assert key(s[j]) == key(s[n - 1]);
        assert !IsFirst(s, key, n - 1);
      } else {
        forall j | 0 <= j < n - 1 ensures key(s[j]) != key(s[n - 1]) {
          assert init[j] == s[j];
        }
        assert IsFirst(s, key, n - 1);
      }
    }
  }

  /** De-duplicating a prefix gives a prefix of the de-duplicated whole. */
  lemma {:induction false} DedupByPrefix<T, K>(s: seq<T>, key: T -> K, i: nat)
    requires i <= |s|
    ensures |DedupBy(s[..i], key)| <= |DedupBy(s, key)|
    ensures DedupBy(s[..i], key) == DedupBy(s, key)[..|DedupBy(s[..i], key)|]
    decreases |s|
  {
    if i < |s| {
      var init := s[..|s| - 1];
      assert init[..i] == s[..i];
      DedupByPrefix(init, key, i);
    } else {
      assert s[..i] == s;
    }
  }

  /** One more element adds at most one element to the de-duplicated prefix. */
  lemma DedupByStep<T, K>(s: seq<T>, key: T -> K, i: nat)
    requires i < |s|
    ensures DedupBy(s[..i + 1], key) ==
            if key(s[i]) in Map(DedupBy(s[..i], key), key) then DedupBy(s[..i], key)
            else DedupBy(s[..i], key) + [s[i]]
  {
    assert s[..i + 1][..i] == s[..i];
  }

  /** The elements of `s` that satisfy `p`, in order. */
  function Filter<T>(s: seq<T>, p: T -> bool): (r: seq<T>)
    ensures |r| <= |s|
    ensures forall x :: x in r ==> x in s && p(x)
  {
    if s == [] then []
    else Filter(s[..|s| - 1], p) + (if p(s[|s| - 1]) then [s[|s| - 1]] else [])
  }

  /** Filtering keeps every occurrence of an accepted element and none of a rejected one. */
  lemma {:induction false} FilterCount<T>(s: seq<T>, p: T -> bool, x: T)
    ensures multiset(Filter(s, p))[x] == if p(x) then multiset(s)[x] else 0
  {
    if s != [] {
      var init := s[..|s| - 1];
      assert s == init + [s[|s| - 1]];
      FilterCount(init, p, x);
    }
  }

  lemma FilterStep<T>(s: seq<T>, p: T -> bool, i: nat)
    requires i < |s|
    ensures Filter(s[..i + 1], p) == Filter(s[..i], p) + (if p(s[i]) then [s[i]] else [])
  {
    assert s[..i + 1][..i] == s[..i];
  }

  /** Python's `s[::-1]`. */
  function Reverse<T>(s: seq<T>): (r: seq<T>)
    ensures |r| == |s| && forall k :: 0 <= k < |s| ==> r[k] == s[|s| - 1 - k]
  {
    if s == [] then [] else Reverse(s[1..]) + [s[0]]
  }

  lemma ReverseReverse<T>(s: seq<T>)
    ensures Reverse(Reverse(s)) == s
  {
    assert forall k :: 0 <= k < |s| ==> Reverse(Reverse(s))[k] == s[k];
  }

  /** Applies `f` to every element, keeping the order. */
  function Map<T, U>(s: seq<T>, f: T -> U): (r: seq<U>)
    ensures |r| == |s| && forall k :: 0 <= k < |s| ==> r[k] == f(s[k])
  {
    seq(|s|, k requires 0 <= k < |s| => f(s[k]))
  }

  /** The results of `f` for every element, concatenated in order. */
  function FlatMap<T, U>(s: seq<T>, f: T -> seq<U>): seq<U>
  {
    if s == [] then [] else FlatMap(s[..|s| - 1], f) + f(s[|s| - 1])
  }

  /** One more element appends its results. */
  lemma FlatMapStep<T, U>(s: seq<T>, f: T -> seq<U>, i: nat)
    requires i < |s|
    ensures FlatMap(s[..i + 1], f) == FlatMap(s[..i], f) + f(s[i])
  {
    assert s[..i + 1][..i] == s[..i];
  }

  /** The concatenation is empty exactly when every element's results are. */
  lemma {:induction false} FlatMapEmpty<T, U>(s: seq<T>, f: T -> seq<U>)
    ensures FlatMap(s, f) == [] <==> forall k :: 0 <= k < |s| ==> f(s[k]) == []
  {
    if s != [] {
      var init := s[..|s| - 1];
      FlatMapEmpty(init, f);
      assert forall k :: 0 <= k < |init| ==> init[k] == s[k];
    }
  }

  /** Every element of the concatenation comes from the results of some element. */
  lemma {:induction false} FlatMapFrom<T, U>(s: seq<T>, f: T -> seq<U>, u: U) returns (j: nat)
    requires u in FlatMap(s, f)
    ensures j < |s| && u in f(s[j])
  {
    var init := s[..|s| - 1];
    if u in FlatMap(init, f) {
      j := FlatMapFrom(init, f, u);
      assert init[j] == s[j];
    } else {
      j := |s| - 1;
    }
  }
}
