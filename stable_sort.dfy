/** `Array.prototype.sort` with a numeric comparator of the form
    `(a, b) => key(a) - key(b)`. Since ECMAScript 2019 the sort is stable, so the
    result is the unique ordering by key in which equal keys keep their input
    order; it is written here as an insertion sort that places each element after
    every earlier element whose key is not larger. */
module StableSort {
  import opened Common

  predicate SortedByKey<T>(s: seq<T>, key: T -> real)
  {
    forall i, j :: 0 <= i < j < |s| ==> key(s[i]) <= key(s[j])
  }

  /** Inserts `x` into `s` after every trailing element whose key is larger than
      `key(x)`; on a sorted `s` that is after every element whose key is at most `key(x)`. */
  function Insert<T>(s: seq<T>, x: T, key: T -> real): (r: seq<T>)
    ensures multiset(r) == multiset(s) + multiset{x}
    ensures |r| == |s| + 1
  {
    if s == [] then [x]
    else
      assert s[..|s| - 1] + [s[|s| - 1]] == s;
      if key(s[|s| - 1]) > key(x) then Insert(s[..|s| - 1], x, key) + [s[|s| - 1]]
      else s + [x]
  }

  lemma {:induction false} InsertKeepsSorted<T>(s: seq<T>, x: T, key: T -> real)
    requires SortedByKey(s, key)
    ensures SortedByKey(Insert(s, x, key), key)
  {
    if s != [] {
      var prefix, last := s[..|s| - 1], s[|s| - 1];
      if key(last) > key(x) {
        InsertKeepsSorted(prefix, x, key);
        var front := Insert(prefix, x, key);
        forall i | 0 <= i < |front| ensures key(front[i]) <= key(last) {
          var y := front[i];
          assert y in multiset(front);
          if y != x {
            assert y in multiset(prefix);
            var k :| 0 <= k < |prefix| && prefix[k] == y;
            assert s[k] == y;
          }
        }
        SortedSnoc(front, last, key);
        assert Insert(s, x, key) == front + [last];
      } else {
        forall i | 0 <= i < |s| ensures key(s[i]) <= key(x) {
          if i < |s| - 1 {
            assert key(s[i]) <= key(last);
          }
        }
        SortedSnoc(s, x, key);
      }
    }
  }

  /** Appending an element whose key is at least every key keeps a sequence sorted. */
  lemma SortedSnoc<T>(s: seq<T>, y: T, key: T -> real)
    requires SortedByKey(s, key)
    requires forall i :: 0 <= i < |s| ==> key(s[i]) <= key(y)
    ensures SortedByKey(s + [y], key)
  {
    var r := s + [y];
    forall i, j | 0 <= i < j < |r| ensures key(r[i]) <= key(r[j]) {
      assert r[i] == s[i];
      if j < |s| {
        assert r[j] == s[j];
      }
    }
  }

  function SortByKey<T>(s: seq<T>, key: T -> real): (r: seq<T>)
    ensures SortedByKey(r, key)
    ensures multiset(r) == multiset(s)
    ensures |r| == |s|
  {
    if s == [] then []
    else
      assert s[..|s| - 1] + [s[|s| - 1]] == s;
      InsertKeepsSorted(SortByKey(s[..|s| - 1], key), s[|s| - 1], key);
      Insert(SortByKey(s[..|s| - 1], key), s[|s| - 1], key)
  }

  /** The elements whose key is `k`. */
  function KeyIs<T>(key: T -> real, k: real): T -> bool
  {
    (x: T) => key(x) == k
  }

  /** Stability: the elements of any one key come out of the sort in the order
      they went in. */
  lemma {:induction false} SortIsStable<T>(s: seq<T>, key: T -> real, k: real)
    ensures Filter(SortByKey(s, key), KeyIs(key, k)) == Filter(s, KeyIs(key, k))
  {
    if s != [] {
      var front, last := s[..|s| - 1], s[|s| - 1];
      var f, sorted := KeyIs(key, k), SortByKey(front, key);
      assert s == front + [last];
      assert SortByKey(s, key) == Insert(sorted, last, key);
      calc {
        Filter(Insert(sorted, last, key), f);
        { InsertIsStable(sorted, last, key, k); }
        Filter(sorted + [last], f);
        { FilterAppend(sorted, [last], f); }
        Filter(sorted, f) + Filter([last], f);
        { SortIsStable(front, key, k); }
        Filter(front, f) + Filter([last], f);
        { FilterAppend(front, [last], f); }
        Filter(s, f);
      }
    }
  }

  /** Inserting into a sorted sequence passes over only elements of larger key,
      so among the elements of one key the inserted one comes last. */
  lemma {:induction false} InsertIsStable<T>(s: seq<T>, x: T, key: T -> real, k: real)
    requires SortedByKey(s, key)
    ensures Filter(Insert(s, x, key), KeyIs(key, k)) == Filter(s + [x], KeyIs(key, k))
  {
    if s != [] {
      var prefix, last := s[..|s| - 1], s[|s| - 1];
      assert s == prefix + [last];
      if key(last) > key(x) {
        assert Insert(s, x, key) == Insert(prefix, x, key) + [last];
        assert SortedByKey(prefix, key) by {
          forall i, j | 0 <= i < j < |prefix| ensures key(prefix[i]) <= key(prefix[j]) {
            assert prefix[i] == s[i] && prefix[j] == s[j];
          }
        }
        InsertIsStable(prefix, x, key, k);
        PassLarger(prefix, last, x, Insert(prefix, x, key), key, k);
        assert prefix + [last] + [x] == s + [x];
      } else {
        assert Insert(s, x, key) == s + [x];
      }
    }
  }

  /** One step of an insertion: `x` moves before `last`, whose key is larger, and
      two elements of different keys never both pass a filter on one key. */
  lemma PassLarger<T>(prefix: seq<T>, last: T, x: T, inserted: seq<T>, key: T -> real, k: real)
    requires key(last) > key(x)
    requires Filter(inserted, KeyIs(key, k)) == Filter(prefix + [x], KeyIs(key, k))
    ensures Filter(inserted + [last], KeyIs(key, k)) == Filter(prefix + [last] + [x], KeyIs(key, k))
  {
    var f := KeyIs(key, k);
    var fp, fx, fl := Filter(prefix, f), Filter([x], f), Filter([last], f);
    SingletonFilter(x, f);
    SingletonFilter(last, f);
    FilterAppend(inserted, [last], f);
    FilterAppend(prefix, [x], f);
    FilterAppend(prefix, [last], f);
    FilterAppend(prefix + [last], [x], f);
    if fx == [] {
      assert fp + fx + fl == fp + fl + fx;
    } else {
      assert fl == [];
      assert fp + fx + fl == fp + fl + fx;
    }
  }

  lemma SingletonFilter<T>(x: T, f: T -> bool)
    ensures Filter([x], f) == if f(x) then [x] else []
  {
    assert [x][..0] == [];
  }

  /** Sorting an already sorted sequence changes nothing: ties are never reordered. */
  lemma {:induction false} SortSortedIsIdentity<T>(s: seq<T>, key: T -> real)
    requires SortedByKey(s, key)
    ensures SortByKey(s, key) == s
  {
    if s != [] {
      var front, last := s[..|s| - 1], s[|s| - 1];
      forall i, j | 0 <= i < j < |front| ensures key(front[i]) <= key(front[j]) {
        assert front[i] == s[i] && front[j] == s[j];
      }
      SortSortedIsIdentity(front, key);
      assert s == front + [last];
      if front != [] {
        assert key(front[|front| - 1]) <= key(last) by {
          assert front[|front| - 1] == s[|s| - 2];
        }
      }
      assert Insert(front, last, key) == s;
    }
  }

  /** When no two elements share a key, the sorted order is determined by the
      multiset alone: two sorted sequences with the same elements are equal. */
  lemma {:induction false} SortedPermutationsAreEqual<T>(a: seq<T>, b: seq<T>, key: T -> real)
    requires SortedByKey(a, key) && SortedByKey(b, key)
    requires multiset(a) == multiset(b)
    requires forall i, j :: 0 <= i < j < |a| ==> key(a[i]) != key(a[j])
    ensures a == b
  {
    assert |a| == |multiset(a)| == |b|;
    if a != [] {
      SameFirst(a, b, key);
      SameTailMultiset(a, b);
      SortedTail(a, key);
      SortedTail(b, key);
      DistinctTail(a, key);
      SortedPermutationsAreEqual(a[1..], b[1..], key);
      assert a == [a[0]] + a[1..] && b == [b[0]] + b[1..];
    }
  }

  /** Two sorted, non-empty permutations of a key-distinct sequence start with the
      same element: the one with the least key. */
  lemma SameFirst<T>(a: seq<T>, b: seq<T>, key: T -> real)
    requires |a| > 0 && |b| > 0
    requires SortedByKey(a, key) && SortedByKey(b, key)
    requires multiset(a) == multiset(b)
    requires forall i, j :: 0 <= i < j < |a| ==> key(a[i]) != key(a[j])
    ensures a[0] == b[0]
  {
    var a0, b0 := a[0], b[0];
    assert a0 in multiset(b) && b0 in multiset(a);
    var i :| 0 <= i < |b| && b[i] == a0;
    var j :| 0 <= j < |a| && a[j] == b0;
    FirstIsLeast(b, key, i);
    FirstIsLeast(a, key, j);
    assert key(a[j]) == key(a[0]);
    assert j == 0;
  }

  /** The first element of a sorted sequence has the least key. */
  lemma FirstIsLeast<T>(s: seq<T>, key: T -> real, k: int)
    requires SortedByKey(s, key) && 0 <= k < |s|
    ensures key(s[0]) <= key(s[k])
  {
    if k > 0 {
      assert key(s[0]) <= key(s[k]);
    }
  }

  lemma SameTailMultiset<T>(a: seq<T>, b: seq<T>)
    requires |a| > 0 && |b| > 0 && a[0] == b[0]
    requires multiset(a) == multiset(b)
    ensures multiset(a[1..]) == multiset(b[1..])
  {
    assert a == [a[0]] + a[1..] && b == [b[0]] + b[1..];
    assert multiset(a[1..]) == multiset(a) - multiset{a[0]};
    assert multiset(b[1..]) == multiset(b) - multiset{b[0]};
  }

  lemma DistinctTail<T>(s: seq<T>, key: T -> real)
    requires |s| > 0
    requires forall i, j :: 0 <= i < j < |s| ==> key(s[i]) != key(s[j])
    ensures forall i, j :: 0 <= i < j < |s[1..]| ==> key(s[1..][i]) != key(s[1..][j])
  {
    var t := s[1..];
    forall p, q | 0 <= p < q < |t| ensures key(t[p]) != key(t[q]) {
      assert t[p] == s[p + 1] && t[q] == s[q + 1];
    }
  }

  lemma SortedTail<T>(s: seq<T>, key: T -> real)
    requires |s| > 0 && SortedByKey(s, key)
    ensures SortedByKey(s[1..], key)
  {
    var t := s[1..];
    forall p, q | 0 <= p < q < |t| ensures key(t[p]) <= key(t[q]) {
      assert t[p] == s[p + 1] && t[q] == s[q + 1];
    }
  }

  /** Consequently, sorting two permutations of a key-distinct sequence gives
      the same result. */
  lemma SortIgnoresInputOrder<T>(a: seq<T>, b: seq<T>, key: T -> real)
    requires multiset(a) == multiset(b)
    requires forall i, j :: 0 <= i < j < |a| ==> key(a[i]) != key(a[j])
    ensures SortByKey(a, key) == SortByKey(b, key)
  {
    var sa, sb := SortByKey(a, key), SortByKey(b, key);
    forall i, j | 0 <= i < j < |sa| ensures key(sa[i]) != key(sa[j]) {
      DistinctKeysCarry(a, sa, key, i, j);
    }
    SortedPermutationsAreEqual(sa, sb, key);
  }

  /** Distinct keys are a property of the multiset, so they carry over to any
      permutation. */
  lemma DistinctKeysCarry<T>(a: seq<T>, p: seq<T>, key: T -> real, i: int, j: int)
    requires multiset(a) == multiset(p)
    requires forall i, j :: 0 <= i < j < |a| ==> key(a[i]) != key(a[j])
    requires 0 <= i < j < |p|
    ensures key(p[i]) != key(p[j])
  {
    assert p[i] in multiset(a) && p[j] in multiset(a);
    var x :| 0 <= x < |a| && a[x] == p[i];
    var y :| 0 <= y < |a| && a[y] == p[j];
    if x == y {
      // p[i] == p[j] occurs twice in p, so twice in a, at positions with equal keys
      TwiceCounted(p, i, j);
      assert multiset(a)[a[x]] >= 2;
      var z := OtherOccurrence(a, x);
      assert false;
    } else if x < y {
      assert key(a[x]) != key(a[y]);
    } else {
      assert key(a[y]) != key(a[x]);
    }
  }

  /** An element at two positions is counted at least twice. */
  lemma TwiceCounted<T>(p: seq<T>, i: int, j: int)
    requires 0 <= i < j < |p| && p[i] == p[j]
    ensures multiset(p)[p[i]] >= 2
  {
    assert p == p[..i] + [p[i]] + p[i + 1..j] + [p[j]] + p[j + 1..];
  }

  /** An element that occurs at least twice has a second position. */
  lemma OtherOccurrence<T>(a: seq<T>, x: int) returns (z: int)
    requires 0 <= x < |a|
    requires multiset(a)[a[x]] >= 2
    ensures 0 <= z < |a| && z != x && a[z] == a[x]
  {
    var rest := a[..x] + a[x + 1..];
    assert a == a[..x] + [a[x]] + a[x + 1..];
    assert multiset(rest)[a[x]] >= 1;
    assert a[x] in rest;
    var k :| 0 <= k < |rest| && rest[k] == a[x];
    z := if k < x then k else k + 1;
  }
}
