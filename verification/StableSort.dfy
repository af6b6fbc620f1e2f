/** Stable sorting by a string key, as both engines' sort does it. */
module StableSort {
  import opened Lexicographic

  function Insert<T>(x: T, sorted: seq<T>, key: T -> string): seq<T> {
    if sorted == [] || !Less(key(sorted[0]), key(x)) then [x] + sorted
    else [sorted[0]] + Insert(x, sorted[1..], key)
  }

  function Sort<T>(s: seq<T>, key: T -> string): seq<T> {
    if s == [] then [] else Insert(s[0], Sort(s[1..], key), key)
  }

  predicate Sorted<T>(s: seq<T>, key: T -> string) {
    forall i, j :: 0 <= i < j < |s| ==> !Less(key(s[j]), key(s[i]))
  }

  /** The elements with key `k`, in order. */
  function WithKey<T>(s: seq<T>, key: T -> string, k: string): seq<T> {
    if s == [] then [] else (if key(s[0]) == k then [s[0]] else []) + WithKey(s[1..], key, k)
  }

  /** What is left for a key after the first element. */
  lemma WithKeyTail<T>(s: seq<T>, key: T -> string, k: string)
    requires s != []
    ensures WithKey(s[1..], key, k) == if key(s[0]) == k then WithKey(s, key, k)[1..] else WithKey(s, key, k)
    ensures key(s[0]) == k ==> WithKey(s, key, k) != [] && WithKey(s, key, k)[0] == s[0]
  {
    var rest := WithKey(s[1..], key, k);
    assert ([s[0]] + rest)[1..] == rest && [] + rest == rest;
  }

  lemma {:induction false} InsertWithKey<T>(x: T, sorted: seq<T>, key: T -> string, k: string)
    ensures WithKey(Insert(x, sorted, key), key, k) == WithKey([x] + sorted, key, k)
  {
    assert ([x] + sorted)[1..] == sorted;
    if sorted != [] && Less(key(sorted[0]), key(x)) {
      InsertWithKey(x, sorted[1..], key, k);
      assert ([x] + sorted[1..])[1..] == sorted[1..];
      var rest := Insert(x, sorted[1..], key);
      assert ([sorted[0]] + rest)[1..] == rest;
      LessIrreflexive(key(x));
    }
  }

  /** Elements with equal keys keep their order. */
  lemma {:induction false} SortIsStable<T>(s: seq<T>, key: T -> string, k: string)
    ensures WithKey(Sort(s, key), key, k) == WithKey(s, key, k)
  {
    if s != [] {
      var rest := Sort(s[1..], key);
      InsertWithKey(s[0], rest, key, k);
      SortIsStable(s[1..], key, k);
      assert ([s[0]] + rest)[1..] == rest;
    }
  }

  /** Not-greater is transitive. */
  lemma NotLessTransitive(a: string, b: string, c: string)
    requires !Less(b, a) && !Less(c, b)
    ensures !Less(c, a)
  {
    LessTotal(a, b);
    LessTotal(b, c);
    if Less(c, a) && a != b && b != c {
      LessTransitive(a, b, c);
      LessTotal(a, c);
    }
  }

  lemma {:induction false} InsertMembers<T>(x: T, sorted: seq<T>, key: T -> string)
    ensures |Insert(x, sorted, key)| == |sorted| + 1
    ensures forall i :: 0 <= i <= |sorted| ==> Insert(x, sorted, key)[i] == x || Insert(x, sorted, key)[i] in sorted
  {
    if sorted != [] && Less(key(sorted[0]), key(x)) {
      InsertMembers(x, sorted[1..], key);
    }
  }

  lemma {:induction false} InsertSorted<T>(x: T, sorted: seq<T>, key: T -> string)
    requires Sorted(sorted, key)
    ensures Sorted(Insert(x, sorted, key), key)
  {
    if sorted == [] {
    } else if !Less(key(sorted[0]), key(x)) {
      forall j | 0 <= j < |sorted| ensures !Less(key(sorted[j]), key(x)) {
        if j > 0 { NotLessTransitive(key(x), key(sorted[0]), key(sorted[j])); }
      }
    } else {
      InsertSorted(x, sorted[1..], key);
      InsertMembers(x, sorted[1..], key);
      LessTotal(key(sorted[0]), key(x));
      var rest := Insert(x, sorted[1..], key);
      forall j | 0 <= j < |rest| ensures !Less(key(rest[j]), key(sorted[0])) {
        if rest[j] in sorted[1..] {
          var i :| 0 <= i < |sorted| - 1 && sorted[1..][i] == rest[j];
          assert sorted[i + 1] == rest[j];
        }
      }
    }
  }

  lemma {:induction false} SortSorts<T>(s: seq<T>, key: T -> string)
    ensures Sorted(Sort(s, key), key)
  {
    if s != [] {
      SortSorts(s[1..], key);
      InsertSorted(s[0], Sort(s[1..], key), key);
    }
  }

  lemma {:induction false} WithKeyAbsent<T>(s: seq<T>, key: T -> string, k: string)
    requires forall i :: 0 <= i < |s| ==> key(s[i]) != k
    ensures WithKey(s, key, k) == []
  {
    if s != [] { WithKeyAbsent(s[1..], key, k); }
  }

  ghost predicate SameGroups<T>(a: seq<T>, b: seq<T>, key: T -> string) {
    forall k :: WithKey(a, key, k) == WithKey(b, key, k)
  }

  /** A sorted list starts with the least key of any list it agrees with. */
  lemma HeadIsLeast<T>(a: seq<T>, b: seq<T>, key: T -> string)
    requires Sorted(a, key) && SameGroups(a, b, key) && a != [] && b != []
    ensures !Less(key(b[0]), key(a[0]))
  {
    var k := key(b[0]);
    WithKeyTail(b, key, k);
    assert WithKey(a, key, k) == WithKey(b, key, k);
    if Less(k, key(a[0])) {
      forall i | 0 <= i < |a| ensures key(a[i]) != k {
        if i > 0 { assert !Less(key(a[i]), key(a[0])); }
        LessIrreflexive(k);
      }
      WithKeyAbsent(a, key, k);
    }
  }

  lemma HeadsAgree<T>(a: seq<T>, b: seq<T>, key: T -> string)
    requires Sorted(a, key) && Sorted(b, key) && SameGroups(a, b, key) && a != []
    ensures b != [] && a[0] == b[0]
  {
    var k := key(a[0]);
    WithKeyTail(a, key, k);
    assert WithKey(a, key, k) == WithKey(b, key, k);
    if b != [] {
      HeadIsLeast(a, b, key);
      HeadIsLeast(b, a, key);
      LessTotal(key(a[0]), key(b[0]));
      WithKeyTail(b, key, k);
    }
  }

  /** A sorted list is determined by its groups: the stable sort is the only stable sorted order. */
  lemma {:induction false} SortedUnique<T>(a: seq<T>, b: seq<T>, key: T -> string)
    requires Sorted(a, key) && Sorted(b, key) && SameGroups(a, b, key)
    ensures a == b
  {
    if a == [] {
      if b != [] { HeadsAgree(b, a, key); }
    } else {
      HeadsAgree(a, b, key);
      forall k ensures WithKey(a[1..], key, k) == WithKey(b[1..], key, k) {
        assert WithKey(a, key, k) == WithKey(b, key, k);
        WithKeyTail(a, key, k);
        WithKeyTail(b, key, k);
      }
      SortedUnique(a[1..], b[1..], key);
    }
  }
}
