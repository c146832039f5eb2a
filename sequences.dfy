/** Sequence utilities that the analysed program gets from Rust's standard
    library: `Iterator::map` and the stable `slice::sort_by` on a key. */
module Sequences {

  /** `iter().map(f).collect()` */
  function Map<A, B>(f: A -> B, s: seq<A>): (r: seq<B>)
    ensures |r| == |s|
    ensures forall i :: 0 <= i < |s| ==> r[i] == f(s[i])
  {
    if s == [] then [] else [f(s[0])] + Map(f, s[1..])
  }

  lemma {:induction false} MapAppend<A, B>(f: A -> B, a: seq<A>, b: seq<A>)
    ensures Map(f, a + b) == Map(f, a) + Map(f, b)
  {
    if a != [] {
      assert (a + b)[1..] == a[1..] + b;
      MapAppend(f, a[1..], b);
    }
  }

  /** The concatenation of `f` applied to each element, in order. */
  function FlatMap<A, B>(f: A -> seq<B>, s: seq<A>): seq<B> {
    if s == [] then [] else FlatMap(f, s[..|s| - 1]) + f(s[|s| - 1])
  }

  lemma {:induction false} FlatMapAppend<A, B>(f: A -> seq<B>, a: seq<A>, b: seq<A>)
    ensures FlatMap(f, a + b) == FlatMap(f, a) + FlatMap(f, b)
  {
    if b == [] {
      assert a + b == a;
    } else {
      var ab := a + b;
      assert ab[..|ab| - 1] == a + b[..|b| - 1] && ab[|ab| - 1] == b[|b| - 1];
      FlatMapAppend(f, a, b[..|b| - 1]);
    }
  }

  ghost predicate SortedBy<T>(s: seq<T>, key: T -> nat) {
    forall i, j :: 0 <= i < j < |s| ==> key(s[i]) <= key(s[j])
  }

  /** The elements of `s` whose key is `k`, in their order in `s`. */
  function WithKey<T>(s: seq<T>, key: T -> nat, k: nat): seq<T> {
    if s == [] then []
    else (if key(s[0]) == k then [s[0]] else []) + WithKey(s[1..], key, k)
  }

  /** Puts `x` in front of the first element whose key is at least `key(x)`,
      so that `x` precedes the elements of `s` that share its key. */
  function Insert<T>(x: T, s: seq<T>, key: T -> nat): (r: seq<T>)
    requires SortedBy(s, key)
    ensures SortedBy(r, key)
    ensures multiset(r) == multiset(s) + multiset{x}
    ensures |r| == |s| + 1
  {
    if s == [] || key(x) <= key(s[0]) then
      SortedCons(x, s, key);
      [x] + s
    else
      assert s == [s[0]] + s[1..];
      var rest := Insert(x, s[1..], key);
      InsertBound(x, s, key, rest);
      SortedCons(s[0], rest, key);
      [s[0]] + rest
  }

  lemma SortedCons<T>(h: T, s: seq<T>, key: T -> nat)
    requires SortedBy(s, key)
    requires s == [] || key(h) <= key(s[0])
    ensures SortedBy([h] + s, key)
  {
  }

  /** What `Insert` puts after the head of `s` has keys no smaller than it. */
  lemma InsertBound<T>(x: T, s: seq<T>, key: T -> nat, rest: seq<T>)
    requires SortedBy(s, key) && s != [] && key(s[0]) < key(x)
    requires multiset(rest) == multiset(s[1..]) + multiset{x}
    requires SortedBy(rest, key)
    ensures rest == [] || key(s[0]) <= key(rest[0])
  {
    if rest != [] {
      assert rest[0] in multiset(rest);
      assert rest[0] == x || rest[0] in s[1..];
    }
  }

  /** `sort_by(|a, b| key(a).cmp(&key(b)))`: a stable sort on a key. */
  function Sort<T>(s: seq<T>, key: T -> nat): (r: seq<T>)
    ensures SortedBy(r, key)
    ensures multiset(r) == multiset(s)
    ensures |r| == |s|
  {
    if s == [] then []
    else
      assert s == [s[0]] + s[1..];
      Insert(s[0], Sort(s[1..], key), key)
  }

  lemma {:induction false} InsertWithKey<T>(x: T, s: seq<T>, key: T -> nat, k: nat)
    requires SortedBy(s, key)
    ensures WithKey(Insert(x, s, key), key, k)
            == (if key(x) == k then [x] else []) + WithKey(s, key, k)
  {
    if s == [] || key(x) <= key(s[0]) {
      assert ([x] + s)[1..] == s;
    } else {
      InsertWithKey(x, s[1..], key, k);
      var r := Insert(x, s, key);
      assert r[0] == s[0] && r[1..] == Insert(x, s[1..], key);
      assert WithKey(r, key, k) == (if key(s[0]) == k then [s[0]] else []) + WithKey(r[1..], key, k);
      assert WithKey(s, key, k) == (if key(s[0]) == k then [s[0]] else []) + WithKey(s[1..], key, k);
      if key(x) == k {
        assert key(s[0]) != k;
      }
    }
  }

  /** Stability: the elements sharing a key keep their relative order. */
  lemma {:induction false} SortIsStable<T>(s: seq<T>, key: T -> nat, k: nat)
    ensures WithKey(Sort(s, key), key, k) == WithKey(s, key, k)
  {
    if s != [] {
      SortIsStable(s[1..], key, k);
      InsertWithKey(s[0], Sort(s[1..], key), key, k);
    }
  }

  lemma MapSorted<A, B>(f: A -> B, s: seq<A>, ka: A -> nat, kb: B -> nat)
    requires forall a :: kb(f(a)) == ka(a)
    requires SortedBy(s, ka)
    ensures SortedBy(Map(f, s), kb)
  {
    var fs := Map(f, s);
    forall i, j | 0 <= i < j < |fs| ensures kb(fs[i]) <= kb(fs[j]) {
      assert kb(fs[i]) == ka(s[i]) && kb(fs[j]) == ka(s[j]);
    }
  }

  lemma {:induction false} InsertMap<A, B>(f: A -> B, x: A, s: seq<A>, ka: A -> nat, kb: B -> nat)
    requires forall a :: kb(f(a)) == ka(a)
    requires SortedBy(s, ka)
    ensures SortedBy(Map(f, s), kb)
    ensures Insert(f(x), Map(f, s), kb) == Map(f, Insert(x, s, ka))
  {
    MapSorted(f, s, ka, kb);
    if s == [] || ka(x) <= ka(s[0]) {
      InsertMapFront(f, x, s, ka, kb);
    } else {
      assert SortedBy(s[1..], ka);
      InsertMap(f, x, s[1..], ka, kb);
      InsertMapSkip(f, x, s, ka, kb);
    }
  }

  /** `InsertMap` when `x` goes first. */
  lemma InsertMapFront<A, B>(f: A -> B, x: A, s: seq<A>, ka: A -> nat, kb: B -> nat)
    requires forall a :: kb(f(a)) == ka(a)
    requires SortedBy(s, ka) && SortedBy(Map(f, s), kb)
    requires s == [] || ka(x) <= ka(s[0])
    ensures Insert(f(x), Map(f, s), kb) == Map(f, Insert(x, s, ka))
  {
    var fs := Map(f, s);
    assert fs == [] || kb(f(x)) <= kb(fs[0]);
    assert Insert(f(x), fs, kb) == [f(x)] + fs;
    assert Insert(x, s, ka) == [x] + s;
    assert Map(f, [x]) == [f(x)];
    MapAppend(f, [x], s);
  }

  /** `InsertMap` when `x` goes after the head, given the result for the tail. */
  lemma InsertMapSkip<A, B>(f: A -> B, x: A, s: seq<A>, ka: A -> nat, kb: B -> nat)
    requires forall a :: kb(f(a)) == ka(a)
    requires SortedBy(s, ka) && SortedBy(Map(f, s), kb) && s != [] && ka(s[0]) < ka(x)
    requires SortedBy(s[1..], ka) && SortedBy(Map(f, s[1..]), kb)
    requires Insert(f(x), Map(f, s[1..]), kb) == Map(f, Insert(x, s[1..], ka))
    ensures Insert(f(x), Map(f, s), kb) == Map(f, Insert(x, s, ka))
  {
    var fs := Map(f, s);
    var rest := Insert(x, s[1..], ka);
    assert fs[0] == f(s[0]) && kb(fs[0]) < kb(f(x));
    assert fs[1..] == Map(f, s[1..]);
    assert Insert(f(x), fs, kb) == [fs[0]] + Insert(f(x), fs[1..], kb);
    assert Insert(x, s, ka) == [s[0]] + rest;
    assert Map(f, [s[0]]) == [f(s[0])];
    MapAppend(f, [s[0]], rest);
  }

  /** Sorting on a key commutes with any map that preserves the key: two
      lists built element by element from one source and sorted separately
      stay parallel. */
  lemma {:induction false} SortMap<A, B>(f: A -> B, s: seq<A>, ka: A -> nat, kb: B -> nat)
    requires forall a :: kb(f(a)) == ka(a)
    ensures Sort(Map(f, s), kb) == Map(f, Sort(s, ka))
  {
    if s != [] {
      SortMap(f, s[1..], ka, kb);
      assert Map(f, s)[1..] == Map(f, s[1..]);
      InsertMap(f, s[0], Sort(s[1..], ka), ka, kb);
    }
  }
}
