/**
 * Sequence facts shared by the modules: duplicate-free sequences and
 * first-occurrence deduplication (what a loop guarded by a `seen` set
 * builds), and Python's stable `sort` on an integer key.
 */
module Collections {
  predicate NoDup<T(==)>(s: seq<T>)
  {
    forall i, j :: 0 <= i < j < |s| ==> s[i] != s[j]
  }

  /** The first occurrences of the elements of `xs`, in order. */
  function Dedup<T(==,!new)>(xs: seq<T>): (r: seq<T>)
    ensures NoDup(r)
    ensures forall x :: x in r <==> x in xs
    ensures |r| <= |xs|
  {
    if xs == [] then []
    else
      var p := Dedup(xs[..|xs| - 1]);
      assert forall x :: x in xs <==> x in xs[..|xs| - 1] || x == xs[|xs| - 1];
      if xs[|xs| - 1] in p then p else p + [xs[|xs| - 1]]
  }

  /** The index of the first occurrence of `x` in `xs`. */
  function FirstIndex<T(==)>(xs: seq<T>, x: T): (k: nat)
    requires x in xs
    ensures k < |xs| && xs[k] == x && x !in xs[..k]
  {
    if xs[0] == x then 0
    else
      var k := 1 + FirstIndex(xs[1..], x);
      assert xs[..k] == [xs[0]] + xs[1..][..k - 1];
      k
  }

  lemma FirstIndexUnique<T>(xs: seq<T>, x: T, k: nat)
    requires k < |xs| && xs[k] == x && x !in xs[..k]
    ensures FirstIndex(xs, x) == k
  {
    var f := FirstIndex(xs, x);
    forall i | 0 <= i < k ensures xs[i] != x {
      assert xs[i] in xs[..k];
    }
    forall i | 0 <= i < f ensures xs[i] != x {
      assert xs[i] in xs[..f];
    }
  }

  /** Deduplication keeps the order of first occurrences. */
  lemma {:induction false} DedupFirstOccurrenceOrder<T(!new)>(xs: seq<T>, i: nat, j: nat)
    requires i < j < |Dedup(xs)|
    ensures FirstIndex(xs, Dedup(xs)[i]) < FirstIndex(xs, Dedup(xs)[j])
    decreases |xs|
  {
    var init := xs[..|xs| - 1];
    var last := xs[|xs| - 1];
    var p := Dedup(init);
    var r := Dedup(xs);
    assert xs == init + [last];
    assert r[i] in p;
    var fi := FirstIndex(init, r[i]);
    assert xs[..fi] == init[..fi];
    FirstIndexUnique(xs, r[i], fi);
    if j < |p| {
      DedupFirstOccurrenceOrder(init, i, j);
      var fj := FirstIndex(init, r[j]);
      assert xs[..fj] == init[..fj];
      FirstIndexUnique(xs, r[j], fj);
    } else {
      assert r[j] == last && last !in init;
      assert xs[..|init|] == init;
      FirstIndexUnique(xs, last, |init|);
    }
  }

  /** `Dedup` grows one element at a time, as a loop guarded by a `seen` set does. */
  lemma DedupSnoc<T(!new)>(xs: seq<T>, x: T)
    ensures Dedup(xs + [x]) == if x in xs then Dedup(xs) else Dedup(xs) + [x]
  {
    assert (xs + [x])[..|xs + [x]| - 1] == xs;
  }

  lemma AppendAssoc<T>(a: seq<T>, b: seq<T>, c: seq<T>)
    ensures a + b + c == a + (b + c)
  {
  }


  /** A sort key; Python compares `(major, minor)` tuples lexicographically. A one-part key has minor 0. */
  datatype SortKey = SortKey(major: int, minor: int)

  predicate KeyLe(a: SortKey, b: SortKey)
  {
    a.major < b.major || (a.major == b.major && a.minor <= b.minor)
  }

  predicate SortedBy<T>(s: seq<T>, key: T -> SortKey)
  {
    forall i, j :: 0 <= i < j < |s| ==> KeyLe(key(s[i]), key(s[j]))
  }

  /** Places `x` after every element whose key is not greater, so equal keys keep their arrival order. */
  function InsertBy<T(==)>(s: seq<T>, x: T, key: T -> SortKey): (r: seq<T>)
    requires SortedBy(s, key)
    ensures SortedBy(r, key)
    ensures multiset(r) == multiset(s) + multiset{x}
    ensures |r| == |s| + 1 && (r[0] == x || (s != [] && r[0] == s[0]))
  {
    if s == [] then [x]
    else if KeyLe(key(s[0]), key(x)) then
      var rest := InsertBy(s[1..], x, key);
      assert multiset(s) == multiset{s[0]} + multiset(s[1..]) by {
        assert s == [s[0]] + s[1..];
      }
      [s[0]] + rest
    else
      [x] + s
  }

  /** Python's stable `sort(key=...)`, as insertion of each element in turn. */
  function SortBy<T(==)>(s: seq<T>, key: T -> SortKey): (r: seq<T>)
    ensures SortedBy(r, key)
    ensures multiset(r) == multiset(s)
    ensures |r| == |s|
  {
    if s == [] then []
    else
      assert s == s[..|s| - 1] + [s[|s| - 1]];
      InsertBy(SortBy(s[..|s| - 1], key), s[|s| - 1], key)
  }

  /** Sorting keeps exactly the elements it was given. */
  lemma SortBySameMembers<T>(s: seq<T>, key: T -> SortKey)
    ensures forall x :: x in SortBy(s, key) <==> x in s
  {
    var r := SortBy(s, key);
    assert forall x :: x in r <==> x in multiset(r);
    assert forall x :: x in s <==> x in multiset(s);
  }

  /** The elements of `s` whose key is `k`, in their order in `s`. */
  function WithKey<T>(s: seq<T>, key: T -> SortKey, k: SortKey): seq<T>
  {
    if s == [] then []
    else (if key(s[0]) == k then [s[0]] else []) + WithKey(s[1..], key, k)
  }

  lemma {:induction false} WithKeyConcat<T>(a: seq<T>, b: seq<T>, key: T -> SortKey, k: SortKey)
    ensures WithKey(a + b, key, k) == WithKey(a, key, k) + WithKey(b, key, k)
  {
    if a != [] {
      assert (a + b)[0] == a[0] && (a + b)[1..] == a[1..] + b;
      WithKeyConcat(a[1..], b, key, k);
      var h := if key(a[0]) == k then [a[0]] else [];
      assert WithKey(a + b, key, k) == h + (WithKey(a[1..], key, k) + WithKey(b, key, k));
    } else {
      assert a + b == b;
    }
  }

  lemma {:induction false} WithKeyNone<T>(s: seq<T>, key: T -> SortKey, k: SortKey)
    requires forall i :: 0 <= i < |s| ==> key(s[i]) != k
    ensures WithKey(s, key, k) == []
  {
    if s != [] {
      WithKeyNone(s[1..], key, k);
    }
  }

  /** Inserting `x` adds it after every element of its key, so the elements of each key keep their order. */
  lemma {:induction false} InsertByWithKey<T>(s: seq<T>, x: T, key: T -> SortKey, k: SortKey)
    requires SortedBy(s, key)
    ensures WithKey(InsertBy(s, x, key), key, k) == WithKey(s, key, k) + (if key(x) == k then [x] else [])
    decreases |s|, 1
  {
    if s == [] {
    } else if KeyLe(key(s[0]), key(x)) {
      InsertAfterHead(s, x, key, k);
    } else if key(x) == k {
      InsertBeforeAll(s, x, key, k);
    } else {
      assert InsertBy(s, x, key) == [x] + s;
      assert ([x] + s)[1..] == s;
    }
  }

  lemma {:induction false} InsertAfterHead<T>(s: seq<T>, x: T, key: T -> SortKey, k: SortKey)
    requires SortedBy(s, key) && s != [] && KeyLe(key(s[0]), key(x))
    ensures WithKey(InsertBy(s, x, key), key, k) == WithKey(s, key, k) + (if key(x) == k then [x] else [])
    decreases |s|, 0
  {
    var tail := s[1..];
    assert SortedBy(tail, key) by {
      forall i, j | 0 <= i < j < |tail| ensures KeyLe(key(tail[i]), key(tail[j])) {
        assert tail[i] == s[i + 1] && tail[j] == s[j + 1];
      }
    }
    var rest := InsertBy(tail, x, key);
    assert InsertBy(s, x, key) == [s[0]] + rest;
    InsertByWithKey(tail, x, key, k);
    assert ([s[0]] + rest)[1..] == rest;
  }

  lemma InsertBeforeAll<T>(s: seq<T>, x: T, key: T -> SortKey, k: SortKey)
    requires SortedBy(s, key) && s != [] && !KeyLe(key(s[0]), key(x)) && key(x) == k
    ensures WithKey(InsertBy(s, x, key), key, k) == WithKey(s, key, k) + [x]
  {
    forall i | 0 <= i < |s| ensures key(s[i]) != k {
      assert i == 0 || KeyLe(key(s[0]), key(s[i]));
    }
    WithKeyNone(s, key, k);
    assert InsertBy(s, x, key) == [x] + s;
    assert ([x] + s)[1..] == s;
  }

  /** `SortBy` is stable: the elements of any one key come out in the order they went in. */
  lemma {:induction false} SortByStable<T>(s: seq<T>, key: T -> SortKey, k: SortKey)
    ensures WithKey(SortBy(s, key), key, k) == WithKey(s, key, k)
  {
    if s != [] {
      var init, last := s[..|s| - 1], s[|s| - 1];
      assert s == init + [last];
      SortByStable(init, key, k);
      InsertByWithKey(SortBy(init, key), last, key, k);
      WithKeyConcat(init, [last], key, k);
    }
  }

  /** The total weight of a sequence. */
  function SumOf<T>(s: seq<T>, w: T -> int): int
  {
    if s == [] then 0 else w(s[0]) + SumOf(s[1..], w)
  }

  lemma {:induction false} SumOfConcat<T>(a: seq<T>, b: seq<T>, w: T -> int)
    ensures SumOf(a + b, w) == SumOf(a, w) + SumOf(b, w)
  {
    if a == [] {
      assert a + b == b;
    } else {
      assert (a + b)[1..] == a[1..] + b;
      SumOfConcat(a[1..], b, w);
    }
  }

  /** Taking one element out of a sequence takes its weight out of the total. */
  lemma SumOfRemove<T>(b: seq<T>, k: nat, w: T -> int)
    requires k < |b|
    ensures SumOf(b, w) == w(b[k]) + SumOf(b[..k] + b[k + 1..], w)
  {
    assert b == b[..k] + ([b[k]] + b[k + 1..]);
    SumOfConcat(b[..k], [b[k]] + b[k + 1..], w);
    SumOfConcat(b[..k], b[k + 1..], w);
    assert ([b[k]] + b[k + 1..])[1..] == b[k + 1..];
  }

  /** Taking one element out of a sequence takes it out of the multiset. */
  lemma MultisetRemove<T>(b: seq<T>, k: nat)
    requires k < |b|
    ensures multiset(b[..k] + b[k + 1..]) == multiset(b) - multiset{b[k]}
  {
    assert b == b[..k] + [b[k]] + b[k + 1..];
  }

  /** Reordering does not change the total weight. */
  lemma {:induction false} SumOfPermutation<T>(a: seq<T>, b: seq<T>, w: T -> int)
    requires multiset(a) == multiset(b)
    ensures SumOf(a, w) == SumOf(b, w)
    decreases |a|
  {
    if a != [] {
      assert a[0] in multiset(a);
      var k :| 0 <= k < |b| && b[k] == a[0];
      var rest := b[..k] + b[k + 1..];
      MultisetRemove(b, k);
      assert a == [a[0]] + a[1..];
      assert multiset(a[1..]) == multiset(rest);
      SumOfPermutation(a[1..], rest, w);
      SumOfRemove(b, k, w);
    } else {
      assert |b| == |multiset(b)|;
    }
  }

  /**
   * `for k, v in pairs: m[k] = v`: every key of `pairs` is bound, and a key
   * given more than once keeps the value of its last pair; keys `pairs`
   * does not mention keep their old value.
   */
  function Updated<K(!new), V>(m: map<K, V>, pairs: seq<(K, V)>): (r: map<K, V>)
    ensures forall k :: k in r <==> k in m || exists i :: 0 <= i < |pairs| && pairs[i].0 == k
    ensures forall k :: k in m && (forall i :: 0 <= i < |pairs| ==> pairs[i].0 != k) ==> r[k] == m[k]
    ensures forall i :: 0 <= i < |pairs| && (forall j :: i < j < |pairs| ==> pairs[j].0 != pairs[i].0) ==>
      r[pairs[i].0] == pairs[i].1
  {
    if pairs == [] then m
    else
      var n := |pairs| - 1;
      var prev := Updated(m, pairs[..n]);
      assert forall i :: 0 <= i < n ==> pairs[..n][i] == pairs[i];
      prev[pairs[n].0 := pairs[n].1]
  }

  lemma UpdatedSnoc<K(!new), V>(m: map<K, V>, pairs: seq<(K, V)>, i: nat)
    requires i < |pairs|
    ensures Updated(m, pairs[..i + 1]) == Updated(m, pairs[..i])[pairs[i].0 := pairs[i].1]
  {
    assert pairs[..i + 1][..i] == pairs[..i];
  }
}
