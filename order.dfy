/**
 * Orders and Python's stable `sorted` / `list.sort`.  Python sorts with a
 * stable merge sort; the model uses a stable insertion sort, which produces
 * the same list because a sorted, stable permutation of the input is unique
 * (lemmas `SortByStable` and `StableSortUnique`).
 */
module Order {

  ghost predicate Total<T(!new)>(le: (T, T) -> bool) {
    forall a, b :: le(a, b) || le(b, a)
  }

  ghost predicate Transitive<T(!new)>(le: (T, T) -> bool) {
    forall a, b, c :: le(a, b) && le(b, c) ==> le(a, c)
  }

  ghost predicate Antisymmetric<T(!new)>(le: (T, T) -> bool) {
    forall a, b :: le(a, b) && le(b, a) ==> a == b
  }

  ghost predicate TotalPreorder<T(!new)>(le: (T, T) -> bool) {
    Total(le) && Transitive(le)
  }

  ghost predicate TotalOrder<T(!new)>(le: (T, T) -> bool) {
    Total(le) && Transitive(le) && Antisymmetric(le)
  }

  ghost predicate Sorted<T>(s: seq<T>, le: (T, T) -> bool) {
    forall i, j :: 0 <= i < j < |s| ==> le(s[i], s[j])
  }

  /**
   * Inserts `x` in front of the first element it is `le` to.  When `x` ties
   * with elements of `s`, it lands before them: `SortBy` inserts from the back
   * of the input, so earlier input elements end up before equal later ones.
   */
  function Insert<T>(x: T, s: seq<T>, le: (T, T) -> bool): (r: seq<T>)
    ensures multiset(r) == multiset(s) + multiset{x}
    ensures |r| == |s| + 1
  {
    if s == [] || le(x, s[0]) then [x] + s
    else
      assert s == [s[0]] + s[1..];
      [s[0]] + Insert(x, s[1..], le)
  }

  /** An element that precedes none of `s` goes last. */
  lemma {:induction false} InsertLast<T>(x: T, s: seq<T>, le: (T, T) -> bool)
    requires forall k :: 0 <= k < |s| ==> !le(x, s[k])
    ensures Insert(x, s, le) == s + [x]
  {
    if s != [] {
      assert !le(x, s[0]);
      InsertLast(x, s[1..], le);
      assert [s[0]] + (s[1..] + [x]) == s + [x];
    }
  }

  /** Stable sort of `s` by `le`. */
  function SortBy<T>(s: seq<T>, le: (T, T) -> bool): (r: seq<T>)
    ensures multiset(r) == multiset(s)
    ensures |r| == |s|
  {
    if s == [] then []
    else
      assert s == [s[0]] + s[1..];
      Insert(s[0], SortBy(s[1..], le), le)
  }

  /** Sorting only rearranges: everything in the result was in the input. */
  lemma SortByMembers<T>(s: seq<T>, le: (T, T) -> bool, x: T)
    requires x in SortBy(s, le)
    ensures x in s
  {
    assert x in multiset(SortBy(s, le));
  }

  lemma {:induction false} InsertSorted<T(!new)>(x: T, s: seq<T>, le: (T, T) -> bool)
    requires TotalPreorder(le) && Sorted(s, le)
    ensures Sorted(Insert(x, s, le), le)
  {
    if s == [] || le(x, s[0]) {
    } else {
      InsertSorted(x, s[1..], le);
      var r := Insert(x, s[1..], le);
      assert le(s[0], x);
      forall k | 0 <= k < |r| ensures le(s[0], r[k]) {
        assert r[k] in multiset(r);
        assert r[k] in multiset(s[1..]) + multiset{x};
        if r[k] in multiset(s[1..]) {
          var j :| 0 <= j < |s[1..]| && s[1..][j] == r[k];
          assert s[j + 1] == r[k];
        }
      }
    }
  }

  /** The result of `SortBy` is sorted and a permutation of the input. */
  lemma {:induction false} SortBySorted<T(!new)>(s: seq<T>, le: (T, T) -> bool)
    requires TotalPreorder(le)
    ensures Sorted(SortBy(s, le), le)
    ensures multiset(SortBy(s, le)) == multiset(s)
  {
    if s != [] {
      SortBySorted(s[1..], le);
      InsertSorted(s[0], SortBy(s[1..], le), le);
    }
  }

  /** The head of a sorted sequence is `le` every element of it. */
  lemma SortedHead<T>(a: seq<T>, x: T, le: (T, T) -> bool)
    requires Sorted(a, le) && x in a && a[0] != x
    ensures le(a[0], x)
  {
    var j :| 0 <= j < |a| && a[j] == x;
  }

  /** Under an antisymmetric order, there is only one sorted arrangement of a multiset. */
  lemma {:induction false} SortedPermutationUnique<T(!new)>(a: seq<T>, b: seq<T>, le: (T, T) -> bool)
    requires Antisymmetric(le)
    requires Sorted(a, le) && Sorted(b, le) && multiset(a) == multiset(b)
    ensures a == b
  {
    if a == [] {
      assert |b| == |multiset(b)| == 0;
    } else {
      assert |b| == |multiset(b)| == |multiset(a)| == |a| > 0;
      assert a[0] in multiset(b) && b[0] in multiset(a);
      var x, y := a[0], b[0];
      if x != y {
        SortedHead(a, y, le);
        SortedHead(b, x, le);
        assert false;
      }
      var a', b' := a[1..], b[1..];
      assert a == [a[0]] + a' && b == [b[0]] + b';
      calc {
        multiset(a');
        multiset(a) - multiset{a[0]};
        multiset(b) - multiset{b[0]};
        multiset(b');
      }
      SortedPermutationUnique(a', b', le);
    }
  }

  /** Sorting by a total order forgets the input's arrangement. */
  lemma SortByPermutationInvariant<T(!new)>(s: seq<T>, t: seq<T>, le: (T, T) -> bool)
    requires TotalOrder(le) && multiset(s) == multiset(t)
    ensures SortBy(s, le) == SortBy(t, le)
  {
    SortBySorted(s, le);
    SortBySorted(t, le);
    SortedPermutationUnique(SortBy(s, le), SortBy(t, le), le);
  }

  // ---------------------------------------------------------------------------
  // Stability: elements tied under the order keep their input order.

  /** The elements of `s` that satisfy `P`, in order. */
  function Filter<T>(s: seq<T>, P: T -> bool): (r: seq<T>)
    ensures |r| <= |s|
  {
    if s == [] then [] else (if P(s[0]) then [s[0]] else []) + Filter(s[1..], P)
  }

  /** The elements tied with `x`: each is `le` it and it is `le` each. */
  function Ties<T>(le: (T, T) -> bool, x: T): T -> bool {
    (y: T) => le(x, y) && le(y, x)
  }

  /** Inserting an element adds it to its own tie class and changes no other's order. */
  lemma {:induction false} InsertFilter<T(!new)>(a: T, r: seq<T>, le: (T, T) -> bool, x: T)
    requires Transitive(le)
    ensures Filter(Insert(a, r, le), Ties(le, x))
         == (if Ties(le, x)(a) then [a] + Filter(r, Ties(le, x)) else Filter(r, Ties(le, x)))
  {
    var P := Ties(le, x);
    if r == [] || le(a, r[0]) {
      assert ([a] + r)[1..] == r;
    } else {
      InsertFilter(a, r[1..], le, x);
      assert ([r[0]] + Insert(a, r[1..], le))[1..] == Insert(a, r[1..], le);
    }
  }

  /** `SortBy` is stable: the elements tied with any `x` appear in their input order. */
  lemma {:induction false} SortByStable<T(!new)>(s: seq<T>, le: (T, T) -> bool, x: T)
    requires Transitive(le)
    ensures Filter(SortBy(s, le), Ties(le, x)) == Filter(s, Ties(le, x))
  {
    if s != [] {
      SortByStable(s[1..], le, x);
      InsertFilter(s[0], SortBy(s[1..], le), le, x);
    }
  }

  /**
   * Two sorted arrangements of one multiset that list every tie class in
   * the same order are equal: every stable sort gives the same list.
   */
  lemma {:induction false} StableSortUnique<T(!new)>(a: seq<T>, b: seq<T>, le: (T, T) -> bool)
    requires TotalPreorder(le)
    requires Sorted(a, le) && Sorted(b, le) && multiset(a) == multiset(b)
    requires forall x :: Filter(a, Ties(le, x)) == Filter(b, Ties(le, x))
    ensures a == b
  {
    if a == [] {
      assert |b| == |multiset(b)| == 0;
    } else {
      assert |b| == |multiset(b)| == |multiset(a)| == |a| > 0;
      StableHeads(a, b, le);
      StableTails(a, b, le);
      CommonHeadTails(a, b, le);
      StableSortUnique(a[1..], b[1..], le);
      assert a == [a[0]] + a[1..] && b == [b[0]] + b[1..];
    }
  }

  /** Dropping a common head keeps both lists sorted and one multiset. */
  lemma CommonHeadTails<T>(a: seq<T>, b: seq<T>, le: (T, T) -> bool)
    requires a != [] && b != [] && a[0] == b[0]
    requires Sorted(a, le) && Sorted(b, le) && multiset(a) == multiset(b)
    ensures Sorted(a[1..], le) && Sorted(b[1..], le)
    ensures multiset(a[1..]) == multiset(b[1..])
  {
    assert a == [a[0]] + a[1..] && b == [b[0]] + b[1..];
    assert multiset(a[1..]) == multiset(a) - multiset{a[0]} == multiset(b) - multiset{b[0]} == multiset(b[1..]);
  }

  /** Two sorted arrangements of one multiset with the same tie classes start alike. */
  lemma StableHeads<T(!new)>(a: seq<T>, b: seq<T>, le: (T, T) -> bool)
    requires TotalPreorder(le) && a != [] && b != []
    requires Sorted(a, le) && Sorted(b, le) && multiset(a) == multiset(b)
    requires forall x :: Filter(a, Ties(le, x)) == Filter(b, Ties(le, x))
    ensures a[0] == b[0]
  {
    var x, y := a[0], b[0];
    assert x in multiset(b) && y in multiset(a);
    if x != y {
      SortedHead(a, y, le);
      SortedHead(b, x, le);
    }
    assert le(x, x) && le(x, y) && le(y, x);
    var fa, fb := Filter(a, Ties(le, x)), Filter(b, Ties(le, x));
    assert fa == [x] + Filter(a[1..], Ties(le, x));
    assert fb == [y] + Filter(b[1..], Ties(le, x));
    assert fa == fb;
    assert fa[0] == x && fb[0] == y;
  }

  /** Dropping a common head keeps every tie class in the same order. */
  lemma StableTails<T>(a: seq<T>, b: seq<T>, le: (T, T) -> bool)
    requires a != [] && b != [] && a[0] == b[0]
    requires forall x :: Filter(a, Ties(le, x)) == Filter(b, Ties(le, x))
    ensures forall z :: Filter(a[1..], Ties(le, z)) == Filter(b[1..], Ties(le, z))
  {
    forall z ensures Filter(a[1..], Ties(le, z)) == Filter(b[1..], Ties(le, z)) {
      var head := if Ties(le, z)(a[0]) then [a[0]] else [];
      assert Filter(a, Ties(le, z)) == head + Filter(a[1..], Ties(le, z));
      assert Filter(b, Ties(le, z)) == head + Filter(b[1..], Ties(le, z));
      assert (head + Filter(a[1..], Ties(le, z)))[|head|..] == Filter(a[1..], Ties(le, z));
      assert (head + Filter(b[1..], Ties(le, z)))[|head|..] == Filter(b[1..], Ties(le, z));
    }
  }

  // ---------------------------------------------------------------------------
  // Counting, distinct keys and prefixes, and what sorting keeps of them.

  /** How many elements of `s` satisfy `P`. */
  function Count<T>(s: seq<T>, P: T -> bool): (n: nat)
    ensures n <= |s|
  {
    if s == [] then 0 else (if P(s[0]) then 1 else 0) + Count(s[1..], P)
  }

  lemma {:induction false} CountAppend<T>(a: seq<T>, b: seq<T>, P: T -> bool)
    ensures Count(a + b, P) == Count(a, P) + Count(b, P)
  {
    if a == [] {
      assert a + b == b;
    } else {
      assert (a + b)[1..] == a[1..] + b;
      CountAppend(a[1..], b, P);
    }
  }

  /** Nothing counted when no element satisfies the predicate. */
  lemma {:induction false} CountNone<T>(s: seq<T>, P: T -> bool)
    requires forall k :: 0 <= k < |s| ==> !P(s[k])
    ensures Count(s, P) == 0
  {
    if s != [] {
      CountNone(s[1..], P);
    }
  }

  lemma {:induction false} InsertCount<T>(x: T, s: seq<T>, le: (T, T) -> bool, P: T -> bool)
    ensures Count(Insert(x, s, le), P) == Count(s, P) + (if P(x) then 1 else 0)
  {
    if s == [] || le(x, s[0]) {
      assert ([x] + s)[1..] == s;
    } else {
      InsertCount(x, s[1..], le, P);
      assert ([s[0]] + Insert(x, s[1..], le))[1..] == Insert(x, s[1..], le);
    }
  }

  /** Sorting keeps how many elements satisfy any predicate. */
  lemma {:induction false} SortByCount<T>(s: seq<T>, le: (T, T) -> bool, P: T -> bool)
    ensures Count(SortBy(s, le), P) == Count(s, P)
  {
    if s != [] {
      SortByCount(s[1..], le, P);
      InsertCount(s[0], SortBy(s[1..], le), le, P);
    }
  }

  /** No two positions of `s` share a key. */
  ghost predicate DistinctBy<T, K>(s: seq<T>, key: T -> K) {
    forall i, j :: 0 <= i < j < |s| ==> key(s[i]) != key(s[j])
  }

  lemma {:induction false} InsertDistinct<T, K>(x: T, s: seq<T>, le: (T, T) -> bool, key: T -> K)
    requires DistinctBy(s, key)
    requires forall k :: 0 <= k < |s| ==> key(s[k]) != key(x)
    ensures DistinctBy(Insert(x, s, le), key)
  {
    if s != [] && !le(x, s[0]) {
      var r := Insert(x, s[1..], le);
      InsertDistinct(x, s[1..], le, key);
      forall k | 0 <= k < |r| ensures key(s[0]) != key(r[k]) {
        assert r[k] in multiset(s[1..]) + multiset{x};
        if r[k] != x {
          var j :| 0 <= j < |s[1..]| && s[1..][j] == r[k];
          assert s[j + 1] == r[k];
        }
      }
      assert forall i :: 0 < i < |r| + 1 ==> ([s[0]] + r)[i] == r[i - 1];
    }
  }

  /** Sorting keeps keys distinct. */
  lemma {:induction false} SortByDistinct<T, K>(s: seq<T>, le: (T, T) -> bool, key: T -> K)
    requires DistinctBy(s, key)
    ensures DistinctBy(SortBy(s, le), key)
  {
    if s != [] {
      var rest := SortBy(s[1..], le);
      SortByDistinct(s[1..], le, key);
      forall k | 0 <= k < |rest| ensures key(rest[k]) != key(s[0]) {
        assert rest[k] in multiset(s[1..]);
        var j :| 0 <= j < |s[1..]| && s[1..][j] == rest[k];
        assert s[j + 1] == rest[k];
      }
      InsertDistinct(s[0], rest, le, key);
    }
  }

  /** `[f(x) for x in s]`, built back to front as a loop appending to a list. */
  function Map<A, B>(f: A -> B, s: seq<A>): (r: seq<B>)
    ensures |r| == |s|
  {
    if s == [] then [] else Map(f, s[..|s| - 1]) + [f(s[|s| - 1])]
  }

  /** The `i`-th output comes from the `i`-th input alone. */
  lemma {:induction false} MapAt<A, B>(f: A -> B, s: seq<A>, i: int)
    requires 0 <= i < |s|
    ensures Map(f, s)[i] == f(s[i])
  {
    if i < |s| - 1 {
      MapAt(f, s[..|s| - 1], i);
    }
  }

  /** Python's `s[:n]`: a negative `n` counts from the end. */
  function Take<T>(s: seq<T>, n: int): (r: seq<T>)
    ensures n >= 0 ==> |r| == if n < |s| then n else |s|
    ensures n < 0 ==> |r| == if -n < |s| then |s| + n else 0
    ensures r == s[..|r|]
    ensures forall x :: x in r ==> x in s
  {
    if n >= 0 then (if n < |s| then s[..n] else s)
    else if -n < |s| then s[..|s| + n] else []
  }

  /** A prefix keeps distinct keys and counts no more than the whole. */
  lemma {:induction false} PrefixCount<T>(s: seq<T>, n: nat, P: T -> bool)
    requires n <= |s|
    ensures Count(s[..n], P) <= Count(s, P)
  {
    assert s == s[..n] + s[n..];
    CountAppend(s[..n], s[n..], P);
  }

  // ---------------------------------------------------------------------------
  // Python's string comparison: lexicographic by code point.

  predicate StrLe(a: string, b: string)
    decreases |a|
  {
    a == [] || (b != [] && (a[0] < b[0] || (a[0] == b[0] && StrLe(a[1..], b[1..]))))
  }

  lemma {:induction false} StrLeTotalAt(a: string, b: string)
    ensures StrLe(a, b) || StrLe(b, a)
    decreases |a|
  {
    if a != [] && b != [] && a[0] == b[0] { StrLeTotalAt(a[1..], b[1..]); }
  }

  lemma {:induction false} StrLeAntisymmetricAt(a: string, b: string)
    requires StrLe(a, b) && StrLe(b, a)
    ensures a == b
    decreases |a|
  {
    if a != [] {
      StrLeAntisymmetricAt(a[1..], b[1..]);
      assert a == [a[0]] + a[1..] && b == [b[0]] + b[1..];
    }
  }

  lemma {:induction false} StrLeTransitiveAt(a: string, b: string, c: string)
    requires StrLe(a, b) && StrLe(b, c)
    ensures StrLe(a, c)
    decreases |a|
  {
    if a != [] && a[0] == b[0] && b[0] == c[0] {
      StrLeTransitiveAt(a[1..], b[1..], c[1..]);
    }
  }

  /** Python's string `<=` is a total order. */
  lemma StrLeTotalOrder()
    ensures TotalOrder(StrLe)
  {
    forall a, b ensures StrLe(a, b) || StrLe(b, a) { StrLeTotalAt(a, b); }
    forall a, b, c | StrLe(a, b) && StrLe(b, c) ensures StrLe(a, c) { StrLeTransitiveAt(a, b, c); }
    forall a, b | StrLe(a, b) && StrLe(b, a) ensures a == b { StrLeAntisymmetricAt(a, b); }
  }

  /** Python's tuple order on string pairs: by first component, then second. */
  predicate PairLe(p: (string, string), q: (string, string)) {
    (StrLe(p.0, q.0) && p.0 != q.0) || (p.0 == q.0 && StrLe(p.1, q.1))
  }

  lemma PairLeTotalOrder()
    ensures TotalOrder(PairLe)
  {
    StrLeTotalOrder();
  }
}
