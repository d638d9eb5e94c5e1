/**
 * `Array.prototype.sort(comparefn)` as ECMA-262 (ECMAScript 2019, section
 * 22.1.3.27) requires it: stable, so elements the comparator does not
 * separate keep their relative order.
 *
 * The reference implementation is insertion from the right: the head of the
 * input is inserted into the sorted tail in front of the first element it
 * does not compare greater than.  Its properties are proved for a
 * "consistent comparator", one whose sign agrees with some real-valued key,
 * and `SortIsUnique` shows that any stable sort returns the same list.
 */
module StableSort {

  /** Inserts `x`, which came before every element of `s`, into `s`. */
  function Insert<T>(x: T, s: seq<T>, cmp: (T, T) -> real): seq<T>
  {
    if s == [] || cmp(x, s[0]) <= 0.0 then [x] + s
    else [s[0]] + Insert(x, s[1..], cmp)
  }

  /** The array sorted with comparator `cmp`. */
  function Sort<T>(s: seq<T>, cmp: (T, T) -> real): seq<T>
  {
    if s == [] then [] else Insert(s[0], Sort(s[1..], cmp), cmp)
  }

  /**
   * The comparator orders like `key`: `a` may stay in front of `b` exactly
   * when `key(a) <= key(b)`.  This is what ECMA-262 calls a consistent
   * comparator, with the total preorder given by the key.
   */
  ghost predicate Consistent<T(!new)>(cmp: (T, T) -> real, key: T -> real) {
    forall a, b :: cmp(a, b) <= 0.0 <==> key(a) <= key(b)
  }

  /** Keys never decrease along `s`. */
  ghost predicate SortedBy<T>(s: seq<T>, key: T -> real) {
    forall i, j :: 0 <= i < j < |s| ==> key(s[i]) <= key(s[j])
  }

  /** The elements of `s` whose key is `v`, in their order in `s`. */
  function KeyClass<T>(s: seq<T>, key: T -> real, v: real): seq<T>
  {
    if s == [] then []
    else (if key(s[0]) == v then [s[0]] else []) + KeyClass(s[1..], key, v)
  }

  /** A key class is drawn from `s` and holds only elements with key `v`. */
  lemma {:induction false} KeyClassWithin<T>(s: seq<T>, key: T -> real, v: real)
    ensures |KeyClass(s, key, v)| <= |s|
    ensures forall x :: x in KeyClass(s, key, v) ==> x in s && key(x) == v
  {
    if s != [] {
      KeyClassWithin(s[1..], key, v);
    }
  }

  // ---------------------------------------------------------------------------
  // Permutation
  // ---------------------------------------------------------------------------

  lemma {:induction false} InsertPermutes<T>(x: T, s: seq<T>, cmp: (T, T) -> real)
    ensures multiset(Insert(x, s, cmp)) == multiset([x] + s)
  {
    if s != [] && cmp(x, s[0]) > 0.0 {
      InsertPermutes(x, s[1..], cmp);
      assert s == [s[0]] + s[1..];
    }
  }

  /** The sorted array holds the same elements, with the same multiplicities. */
  lemma {:induction false} SortPermutes<T>(s: seq<T>, cmp: (T, T) -> real)
    ensures multiset(Sort(s, cmp)) == multiset(s)
    ensures |Sort(s, cmp)| == |s|
  {
    if s != [] {
      SortPermutes(s[1..], cmp);
      InsertPermutes(s[0], Sort(s[1..], cmp), cmp);
      assert s == [s[0]] + s[1..];
    }
    assert |multiset(Sort(s, cmp))| == |Sort(s, cmp)|;
  }

  // ---------------------------------------------------------------------------
  // Ordering
  // ---------------------------------------------------------------------------

  /** Inserting keeps a lower bound on the keys. */
  lemma {:induction false} InsertLowerBound<T>(x: T, s: seq<T>, cmp: (T, T) -> real, key: T -> real, lo: real)
    requires lo <= key(x)
    requires forall i :: 0 <= i < |s| ==> lo <= key(s[i])
    ensures forall i :: 0 <= i < |Insert(x, s, cmp)| ==> lo <= key(Insert(x, s, cmp)[i])
  {
    if s != [] && cmp(x, s[0]) > 0.0 {
      forall i | 0 <= i < |s[1..]| ensures lo <= key(s[1..][i]) {
        assert s[1..][i] == s[i + 1];
      }
      InsertLowerBound(x, s[1..], cmp, key, lo);
      var t := Insert(x, s[1..], cmp);
      var r := [s[0]] + t;
      forall i | 0 <= i < |r| ensures lo <= key(r[i]) {
        if i > 0 { assert r[i] == t[i - 1]; }
      }
    }
  }

  lemma {:induction false} InsertSorted<T(!new)>(x: T, s: seq<T>, cmp: (T, T) -> real, key: T -> real)
    requires Consistent(cmp, key)
    requires SortedBy(s, key)
    ensures SortedBy(Insert(x, s, cmp), key)
  {
    if s != [] && cmp(x, s[0]) > 0.0 {
      var t := Insert(x, s[1..], cmp);
      assert SortedBy(s[1..], key) by {
        forall i, j | 0 <= i < j < |s[1..]| ensures key(s[1..][i]) <= key(s[1..][j]) {
          assert s[1..][i] == s[i + 1] && s[1..][j] == s[j + 1];
        }
      }
      InsertSorted(x, s[1..], cmp, key);
      assert key(s[0]) <= key(x);
      forall i | 0 <= i < |s[1..]| ensures key(s[0]) <= key(s[1..][i]) {
        assert s[1..][i] == s[i + 1];
      }
      InsertLowerBound(x, s[1..], cmp, key, key(s[0]));
      var r := [s[0]] + t;
      forall i, j | 0 <= i < j < |r| ensures key(r[i]) <= key(r[j]) {
        assert r[j] == t[j - 1];
        if i > 0 {
          assert r[i] == t[i - 1];
        }
      }
    } else if s != [] {
      var r := [x] + s;
      forall i, j | 0 <= i < j < |r| ensures key(r[i]) <= key(r[j]) {
        if i == 0 {
          assert key(x) <= key(s[0]);
          assert r[j] == s[j - 1];
        } else {
          assert r[i] == s[i - 1] && r[j] == s[j - 1];
        }
      }
    }
  }

  /** With a consistent comparator, keys are non-decreasing along the result. */
  lemma {:induction false} SortSorted<T(!new)>(s: seq<T>, cmp: (T, T) -> real, key: T -> real)
    requires Consistent(cmp, key)
    ensures SortedBy(Sort(s, cmp), key)
  {
    if s != [] {
      SortSorted(s[1..], cmp, key);
      InsertSorted(s[0], Sort(s[1..], cmp), cmp, key);
    }
  }

  // ---------------------------------------------------------------------------
  // Stability
  // ---------------------------------------------------------------------------

  lemma {:induction false} KeyClassConcat<T>(a: seq<T>, b: seq<T>, key: T -> real, v: real)
    ensures KeyClass(a + b, key, v) == KeyClass(a, key, v) + KeyClass(b, key, v)
  {
    if a == [] {
      assert a + b == b;
    } else {
      var h := if key(a[0]) == v then [a[0]] else [];
      KeyClassConcat(a[1..], b, key, v);
      assert (a + b)[0] == a[0];
      assert (a + b)[1..] == a[1..] + b;
      assert KeyClass(a + b, key, v) == h + KeyClass(a[1..] + b, key, v);
      assert KeyClass(a, key, v) == h + KeyClass(a[1..], key, v);
    }
  }

  /** Moving an element past one of a different key does not change any key class. */
  lemma {:induction false} InsertStep<T>(x: T, s: seq<T>, t: seq<T>, key: T -> real, v: real)
    requires s != [] && key(s[0]) != key(x)
    requires KeyClass(t, key, v) == KeyClass([x] + s[1..], key, v)
    ensures KeyClass([s[0]] + t, key, v) == KeyClass([x] + s, key, v)
  {
    var cx, c0, rest := KeyClass([x], key, v), KeyClass([s[0]], key, v), KeyClass(s[1..], key, v);
    assert KeyClass([s[0]] + t, key, v) == c0 + (cx + rest) by {
      KeyClassConcat([s[0]], t, key, v);
      KeyClassConcat([x], s[1..], key, v);
    }
    assert KeyClass([x] + s, key, v) == cx + (c0 + rest) by {
      KeyClassConcat([x], s, key, v);
      KeyClassConcat([s[0]], s[1..], key, v);
      assert s == [s[0]] + s[1..];
    }
    assert cx == [] || c0 == [] by {
      assert [x][1..] == [] && [s[0]][1..] == [];
    }
    SwapAroundEmpty(c0, cx, rest);
  }

  lemma SwapAroundEmpty<T>(a: seq<T>, b: seq<T>, c: seq<T>)
    requires a == [] || b == []
    ensures a + (b + c) == b + (a + c)
  {
    if a == [] {
      assert a + (b + c) == b + c == b + (a + c);
    } else {
      assert a + (b + c) == a + c == b + (a + c);
    }
  }


  lemma {:induction false} InsertStable<T(!new)>(x: T, s: seq<T>, cmp: (T, T) -> real, key: T -> real, v: real)
    requires Consistent(cmp, key)
    ensures KeyClass(Insert(x, s, cmp), key, v) == KeyClass([x] + s, key, v)
  {
    if s != [] && cmp(x, s[0]) > 0.0 {
      InsertStable(x, s[1..], cmp, key, v);
      // x sorts after s[0], so their keys differ
      assert key(s[0]) < key(x);
      InsertStep(x, s, Insert(x, s[1..], cmp), key, v);
    }
  }



  /**
   * Stability: for every key value, the elements carrying it appear in the
   * result in the same order as in the input.
   */
  lemma {:induction false} SortStable<T(!new)>(s: seq<T>, cmp: (T, T) -> real, key: T -> real, v: real)
    requires Consistent(cmp, key)
    ensures KeyClass(Sort(s, cmp), key, v) == KeyClass(s, key, v)
  {
    if s != [] {
      SortStable(s[1..], cmp, key, v);
      InsertStable(s[0], Sort(s[1..], cmp), cmp, key, v);
      KeyClassConcat([s[0]], Sort(s[1..], cmp), key, v);
      KeyClassConcat([s[0]], s[1..], key, v);
      assert s == [s[0]] + s[1..];
    }
  }

  /** A comparator that never separates two elements of `s` leaves `s` as it is. */
  lemma {:induction false} SortKeepsUnseparated<T>(s: seq<T>, cmp: (T, T) -> real)
    requires forall i, j :: 0 <= i < |s| && 0 <= j < |s| ==> cmp(s[i], s[j]) <= 0.0
    ensures Sort(s, cmp) == s
  {
    if s != [] {
      forall i, j | 0 <= i < |s[1..]| && 0 <= j < |s[1..]|
        ensures cmp(s[1..][i], s[1..][j]) <= 0.0
      {
        assert s[1..][i] == s[i + 1] && s[1..][j] == s[j + 1];
      }
      SortKeepsUnseparated(s[1..], cmp);
      assert s[1..] != [] ==> cmp(s[0], s[1..][0]) <= 0.0;
    }
  }

  // ---------------------------------------------------------------------------
  // Uniqueness: sorted + stable pins the result down
  // ---------------------------------------------------------------------------

  lemma {:induction false} KeyClassHead<T>(s: seq<T>, key: T -> real)
    requires s != []
    ensures KeyClass(s, key, key(s[0])) != [] && KeyClass(s, key, key(s[0]))[0] == s[0]
  {
  }

  lemma {:induction false} KeyClassMember<T>(s: seq<T>, key: T -> real, i: int)
    requires 0 <= i < |s|
    ensures s[i] in KeyClass(s, key, key(s[i]))
  {
    if i > 0 {
      KeyClassMember(s[1..], key, i - 1);
      assert s[1..][i - 1] == s[i];
    }
  }

  /** The first element of a sorted list has the least key of any element with a class in it. */
  lemma {:induction false} SortedHeadLeast<T>(b: seq<T>, key: T -> real, v: real)
    requires SortedBy(b, key) && KeyClass(b, key, v) != []
    ensures key(b[0]) <= v
  {
    KeyClassWithin(b, key, v);
    var y := KeyClass(b, key, v)[0];
    assert y in KeyClass(b, key, v);
    var k :| 0 <= k < |b| && b[k] == y;
    assert k == 0 || key(b[0]) <= key(b[k]);
  }

  /** Dropping a common first element keeps the key classes equal. */
  lemma {:induction false} TailClasses<T>(a: seq<T>, b: seq<T>, key: T -> real)
    requires a != [] && b != [] && a[0] == b[0]
    requires forall v :: KeyClass(a, key, v) == KeyClass(b, key, v)
    ensures forall v :: KeyClass(a[1..], key, v) == KeyClass(b[1..], key, v)
  {
    forall v ensures KeyClass(a[1..], key, v) == KeyClass(b[1..], key, v) {
      var h := if key(a[0]) == v then [a[0]] else [];
      assert KeyClass(a, key, v) == h + KeyClass(a[1..], key, v);
      assert KeyClass(b, key, v) == h + KeyClass(b[1..], key, v);
      assert KeyClass(a[1..], key, v) == KeyClass(a, key, v)[|h|..];
      assert KeyClass(b[1..], key, v) == KeyClass(b, key, v)[|h|..];
    }
  }

  lemma {:induction false} SameClassesSameSeq<T>(a: seq<T>, b: seq<T>, key: T -> real)
    requires SortedBy(a, key) && SortedBy(b, key)
    requires forall v :: KeyClass(a, key, v) == KeyClass(b, key, v)
    ensures a == b
  {
    if a == [] && b != [] {
      KeyClassHead(b, key);
      assert false;
    } else if a != [] && b == [] {
      KeyClassHead(a, key);
      assert false;
    } else if a != [] {
      KeyClassHead(a, key);
      KeyClassHead(b, key);
      // the smallest keys agree, so both lists start with the first of that class
      SortedHeadLeast(b, key, key(a[0]));
      SortedHeadLeast(a, key, key(b[0]));
      assert KeyClass(a, key, key(a[0]))[0] == KeyClass(b, key, key(b[0]))[0];
      TailClasses(a, b, key);
      SameClassesSameSeq(a[1..], b[1..], key);
      assert a == [a[0]] + a[1..] && b == [b[0]] + b[1..];
    }
  }

  /**
   * Any list that is sorted by the key and keeps every key class in input
   * order is the result of `Sort`: a stable sort's output is unique.
   */
  lemma {:induction false} SortIsUnique<T(!new)>(s: seq<T>, t: seq<T>, cmp: (T, T) -> real, key: T -> real)
    requires Consistent(cmp, key)
    requires SortedBy(t, key)
    requires forall v :: KeyClass(t, key, v) == KeyClass(s, key, v)
    ensures t == Sort(s, cmp)
  {
    SortSorted(s, cmp, key);
    forall v ensures KeyClass(t, key, v) == KeyClass(Sort(s, cmp), key, v) {
      SortStable(s, cmp, key, v);
    }
    SameClassesSameSeq(t, Sort(s, cmp), key);
  }
}
