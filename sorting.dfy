/** A stable sort by key: JavaScript's `Array.prototype.sort` with a key
    comparator (stable since ECMAScript 2019) and the `orderBy` of a query,
    both read as insertion sort on the order the rows arrive in. */
module Sorting {
  import opened Text

  /** `lt` is a strict total order on keys. */
  ghost predicate StrictTotal<K(!new)>(lt: (K, K) -> bool) {
    && (forall a :: !lt(a, a))
    && (forall a, b, c :: lt(a, b) && lt(b, c) ==> lt(a, c))
    && (forall a, b :: a != b ==> lt(a, b) || lt(b, a))
  }

  ghost predicate SortedBy<T, K>(s: seq<T>, key: T -> K, lt: (K, K) -> bool) {
    forall i, j :: 0 <= i < j < |s| ==> !lt(key(s[j]), key(s[i]))
  }

  /** The elements of `s` whose key is `k`, in the order of `s`. */
  function WithKey<T, K(==)>(s: seq<T>, key: T -> K, k: K): (r: seq<T>)
    ensures |r| <= |s|
    decreases |s|
  {
    if s == [] then []
    else (if key(s[0]) == k then [s[0]] else []) + WithKey(s[1..], key, k)
  }

  /** Places `x` before the first element whose key is not smaller. */
  function Insert<T, K>(x: T, s: seq<T>, key: T -> K, lt: (K, K) -> bool): (r: seq<T>)
    ensures multiset(r) == multiset(s) + multiset{x}
    ensures |r| == |s| + 1
    decreases |s|
  {
    if s == [] then [x]
    else if lt(key(s[0]), key(x)) then
      assert s == [s[0]] + s[1..];
      [s[0]] + Insert(x, s[1..], key, lt)
    else [x] + s
  }

  function SortBy<T, K>(s: seq<T>, key: T -> K, lt: (K, K) -> bool): (r: seq<T>)
    ensures multiset(r) == multiset(s)
    ensures |r| == |s|
    decreases |s|
  {
    if s == [] then []
    else
      assert s == [s[0]] + s[1..];
      Insert(s[0], SortBy(s[1..], key, lt), key, lt)
  }

  lemma {:induction false} InsertSorted<T, K(!new)>(x: T, s: seq<T>, key: T -> K, lt: (K, K) -> bool)
    requires StrictTotal(lt) && SortedBy(s, key, lt)
    ensures SortedBy(Insert(x, s, key, lt), key, lt)
    decreases |s|
  {
    if s != [] && lt(key(s[0]), key(x)) {
      InsertSorted(x, s[1..], key, lt);
      InsertPastHead(x, s, key, lt);
    } else if s != [] {
      InsertAtHead(x, s, key, lt);
    }
  }

  /** "Not smaller" is transitive under a strict total order. */
  lemma NotBelowTransitive<K(!new)>(lt: (K, K) -> bool, a: K, b: K, c: K)
    requires StrictTotal(lt) && !lt(b, a) && !lt(c, b)
    ensures !lt(c, a)
  {
  }

  lemma Asymmetric<K(!new)>(lt: (K, K) -> bool, a: K, b: K)
    requires StrictTotal(lt) && lt(a, b)
    ensures !lt(b, a)
  {
  }

  /** `x` goes first when the head's key is not smaller. */
  lemma InsertAtHead<T, K(!new)>(x: T, s: seq<T>, key: T -> K, lt: (K, K) -> bool)
    requires StrictTotal(lt) && SortedBy(s, key, lt)
    requires s != [] && !lt(key(s[0]), key(x))
    ensures SortedBy(Insert(x, s, key, lt), key, lt)
  {
    var r := Insert(x, s, key, lt);
    assert r == [x] + s;
    forall i, j | 0 <= i < j < |r| ensures !lt(key(r[j]), key(r[i])) {
      if i == 0 {
        if j > 1 {
          NotBelowTransitive(lt, key(x), key(s[0]), key(s[j - 1]));
        }
      } else {
        assert r[i] == s[i - 1] && r[j] == s[j - 1];
      }
    }
  }

  /** The head stays first when its key is smaller, given that inserting
      into the tail keeps it sorted. */
  lemma InsertPastHead<T, K(!new)>(x: T, s: seq<T>, key: T -> K, lt: (K, K) -> bool)
    requires StrictTotal(lt) && SortedBy(s, key, lt)
    requires s != [] && lt(key(s[0]), key(x))
    requires SortedBy(Insert(x, s[1..], key, lt), key, lt)
    ensures SortedBy(Insert(x, s, key, lt), key, lt)
  {
    var r := Insert(x, s, key, lt);
    var rest := Insert(x, s[1..], key, lt);
    assert r == [s[0]] + rest;
    forall j | 1 <= j < |r| ensures !lt(key(r[j]), key(r[0])) {
      assert r[j] == rest[j - 1];
      InInsert(x, s[1..], key, lt, j - 1);
      if r[j] == x {
        Asymmetric(lt, key(s[0]), key(x));
      } else {
        HeadFirst(s, key, lt, r[j]);
      }
    }
  }

  /** What an insertion holds: `x` and the elements it was given. */
  lemma InInsert<T, K>(x: T, s: seq<T>, key: T -> K, lt: (K, K) -> bool, i: nat)
    requires i < |Insert(x, s, key, lt)|
    ensures Insert(x, s, key, lt)[i] == x || Insert(x, s, key, lt)[i] in s
  {
    var r := Insert(x, s, key, lt);
    assert r[i] in multiset(r);
  }

  /** Nothing after the head of a sorted sequence has a smaller key. */
  lemma HeadFirst<T, K>(s: seq<T>, key: T -> K, lt: (K, K) -> bool, y: T)
    requires SortedBy(s, key, lt) && s != [] && y in s[1..]
    ensures !lt(key(y), key(s[0]))
  {
    var m :| 0 <= m < |s[1..]| && s[1..][m] == y;
    assert s[m + 1] == y;
  }

  lemma {:induction false} InsertWithKey<T, K(!new)>(x: T, s: seq<T>, key: T -> K, lt: (K, K) -> bool, k: K)
    requires StrictTotal(lt) && SortedBy(s, key, lt)
    ensures WithKey(Insert(x, s, key, lt), key, k) == (if key(x) == k then [x] else []) + WithKey(s, key, k)
    decreases |s|
  {
    if s == [] {
      assert WithKey([x], key, k) == (if key(x) == k then [x] else []) + WithKey([x][1..], key, k);
    } else if lt(key(s[0]), key(x)) {
      var r := Insert(x, s, key, lt);
      var rest := Insert(x, s[1..], key, lt);
      var head := if key(s[0]) == k then [s[0]] else [];
      var own := if key(x) == k then [x] else [];
      assert r == [s[0]] + rest && r[0] == s[0] && r[1..] == rest;
      assert SortedBy(s[1..], key, lt);
      InsertWithKey(x, s[1..], key, lt, k);
      assert WithKey(r, key, k) == head + (own + WithKey(s[1..], key, k));
      assert WithKey(s, key, k) == head + WithKey(s[1..], key, k);
      if key(x) == k {
        assert key(s[0]) != k;
        assert head == [];
      } else {
        assert own == [];
      }
    } else {
      var r := Insert(x, s, key, lt);
      assert r == [x] + s && r[1..] == s;
    }
  }

  /** Sorting keeps exactly the elements it was given. */
  lemma SortByMembers<T, K>(s: seq<T>, key: T -> K, lt: (K, K) -> bool)
    ensures forall v :: v in SortBy(s, key, lt) <==> v in s
  {
    var r := SortBy(s, key, lt);
    forall v
      ensures v in r <==> v in s
    {
      assert v in r <==> v in multiset(r);
      assert v in s <==> v in multiset(s);
    }
  }

  /** The sort is ordered by key, a permutation, and stable: for every key,
      the elements with that key keep their input order. */
  lemma {:induction false} SortByCorrect<T, K(!new)>(s: seq<T>, key: T -> K, lt: (K, K) -> bool)
    requires StrictTotal(lt)
    ensures SortedBy(SortBy(s, key, lt), key, lt)
    ensures multiset(SortBy(s, key, lt)) == multiset(s)
    ensures forall k :: WithKey(SortBy(s, key, lt), key, k) == WithKey(s, key, k)
    decreases |s|
  {
    if s != [] {
      SortByCorrect(s[1..], key, lt);
      var rest := SortBy(s[1..], key, lt);
      InsertSorted(s[0], rest, key, lt);
      forall k ensures WithKey(SortBy(s, key, lt), key, k) == WithKey(s, key, k) {
        InsertWithKey(s[0], rest, key, lt, k);
      }
    }
  }

  /** Code-point order on names is a strict total order. */
  lemma LexLessStrictTotal()
    ensures StrictTotal(LexLess)
  {
    forall a: string ensures !LexLess(a, a) {
      LexLessIrreflexive(a);
    }
    forall a: string, b: string, c: string | LexLess(a, b) && LexLess(b, c) ensures LexLess(a, c) {
      LexLessTransitive(a, b, c);
    }
    forall a: string, b: string | a != b ensures LexLess(a, b) || LexLess(b, a) {
      LexLessTotal(a, b);
    }
  }

  /** Numeric order, the comparator `a.order - b.order`. */
  predicate IntLess(a: int, b: int) {
    a < b
  }

  lemma IntLessStrictTotal()
    ensures StrictTotal(IntLess)
  {
  }
}
