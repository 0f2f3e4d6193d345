/** The array primitives the services are built from: `findIndex`, `find`,
    `filter` and the laws of chained and conditional filters, `sort` by a
    comparator or a numeric key, `includes`/`push` and
    `filter(y => y !== x)` on id lists, `splice(k, 1)`, and the
    de-duplication of `[...new Set(s)]`. */
module Seqs {
  import opened Outcomes

  /** `a` can be obtained from `b` by deleting elements: order is preserved. */
  predicate IsSubsequence<T(==)>(a: seq<T>, b: seq<T>)
    decreases |b|
  {
    if |a| == 0 then true
    else if |b| == 0 then false
    else (a[0] == b[0] && IsSubsequence(a[1..], b[1..])) || IsSubsequence(a, b[1..])
  }

  /** `Array.prototype.findIndex`: the index of the first element satisfying
      `p`, or -1 when there is none. */
  function FindIndex<T>(s: seq<T>, p: T -> bool): (i: int)
    ensures -1 <= i < |s|
    ensures 0 <= i ==> p(s[i]) && forall j :: 0 <= j < i ==> !p(s[j])
    ensures i == -1 <==> forall j :: 0 <= j < |s| ==> !p(s[j])
  {
    if |s| == 0 then -1
    else if p(s[0]) then 0
    else
      var k := FindIndex(s[1..], p);
      if k == -1 then -1 else k + 1
  }

  /** `findIndex` gives the same answer on two sequences whose elements
      agree, position by position, on `p`. */
  lemma FindIndexAgrees<T>(s: seq<T>, t: seq<T>, p: T -> bool)
    requires |s| == |t|
    requires forall i :: 0 <= i < |s| ==> p(s[i]) == p(t[i])
    ensures FindIndex(s, p) == FindIndex(t, p)
  {
  }

  /** `Array.prototype.find`: the first element satisfying `p`, if any. */
  function Find<T>(s: seq<T>, p: T -> bool): (r: Option<T>)
    ensures r.None? <==> forall j :: 0 <= j < |s| ==> !p(s[j])
    ensures r.Some? ==> exists i :: 0 <= i < |s| && s[i] == r.value && p(s[i]) &&
                                    forall j :: 0 <= j < i ==> !p(s[j])
  {
    var i := FindIndex(s, p);
    if i < 0 then None else Some(s[i])
  }

  /** `Array.prototype.filter`: the elements satisfying `p`, in order, each
      with its multiplicity. */
  function Filter<T(!new)>(s: seq<T>, p: T -> bool): (r: seq<T>)
    ensures IsSubsequence(r, s)
    ensures forall x :: x in r <==> x in s && p(x)
    ensures forall x | p(x) :: multiset(r)[x] == multiset(s)[x]
    ensures forall x | !p(x) :: multiset(r)[x] == 0
  {
    if |s| == 0 then []
    else
      var rest := Filter(s[1..], p);
      assert s == [s[0]] + s[1..];
      if p(s[0]) then [s[0]] + rest else rest
  }

  /** Filtering by `p` and then by `q` is filtering once by their
      conjunction `pq`. */
  lemma {:induction false} FilterFilter<T(!new)>(s: seq<T>, p: T -> bool, q: T -> bool, pq: T -> bool)
    requires forall x :: pq(x) == (p(x) && q(x))
    ensures Filter(Filter(s, p), q) == Filter(s, pq)
    decreases |s|
  {
    if |s| > 0 {
      FilterFilter(s[1..], p, q, pq);
      if p(s[0]) {
        assert Filter(s, p) == [s[0]] + Filter(s[1..], p);
        assert ([s[0]] + Filter(s[1..], p))[1..] == Filter(s[1..], p);
      }
    }
  }

  /** Two predicates that agree on the elements filter alike. */
  lemma {:induction false} FilterAgrees<T(!new)>(s: seq<T>, p: T -> bool, q: T -> bool)
    requires forall x :: x in s ==> p(x) == q(x)
    ensures Filter(s, p) == Filter(s, q)
    decreases |s|
  {
    if |s| > 0 {
      FilterAgrees(s[1..], p, q);
    }
  }

  /** A filter applied only when `applied` holds is the filter by "not
      applied, or `p`". */
  lemma ConditionalFilter<T(!new)>(s: seq<T>, applied: bool, p: T -> bool, q: T -> bool)
    requires forall x :: q(x) == (!applied || p(x))
    ensures (if applied then Filter(s, p) else s) == Filter(s, q)
  {
    if applied {
      FilterAgrees(s, p, q);
    } else {
      FilterAll(s, q);
    }
  }

  /** The number of elements of `s` satisfying `p`. */
  function CountWhere<T>(s: seq<T>, p: T -> bool): nat
  {
    if |s| == 0 then 0 else (if p(s[0]) then 1 else 0) + CountWhere(s[1..], p)
  }

  lemma {:induction false} FilterLength<T(!new)>(s: seq<T>, p: T -> bool)
    ensures |Filter(s, p)| == CountWhere(s, p)
    decreases |s|
  {
    if |s| > 0 {
      FilterLength(s[1..], p);
    }
  }

  /** Overwriting one element by one with the same verdict keeps the number of
      elements satisfying `p`. */
  lemma {:induction false} CountAfterUpdate<T>(s: seq<T>, k: int, v: T, p: T -> bool)
    requires 0 <= k < |s| && p(s[k]) == p(v)
    ensures CountWhere(s[k := v], p) == CountWhere(s, p)
    decreases |s|
  {
    var t := s[k := v];
    if k == 0 {
      assert t[1..] == s[1..];
    } else {
      assert t[1..] == s[1..][k - 1 := v];
      CountAfterUpdate(s[1..], k - 1, v, p);
    }
  }

  /** A filter that keeps every element is the identity. */
  lemma {:induction false} FilterAll<T(!new)>(s: seq<T>, p: T -> bool)
    requires forall x :: x in s ==> p(x)
    ensures Filter(s, p) == s
    decreases |s|
  {
    if |s| > 0 {
      var rest := s[1..];
      assert s == [s[0]] + rest;
      assert p(s[0]);
      FilterAll(rest, p);
    }
  }

  /** `le` relates every two values one way or the other, a value and itself
      included (strong connectedness): together with `Transitive`, a total
      preorder. */
  ghost predicate Connected<T(!new)>(le: (T, T) -> bool)
  {
    forall a, b :: le(a, b) || le(b, a)
  }

  ghost predicate Transitive<T(!new)>(le: (T, T) -> bool)
  {
    forall a, b, c :: le(a, b) && le(b, c) ==> le(a, c)
  }

  /** `le` holds between every element and each later one. */
  predicate SortedWith<T>(s: seq<T>, le: (T, T) -> bool)
  {
    forall i, j :: 0 <= i < j < |s| ==> le(s[i], s[j])
  }

  /** Puts `x` in front of the first element `e` with `le(x, e)`, so that `x`
      stays ahead of the elements it ties with. */
  function InsertWith<T>(x: T, s: seq<T>, le: (T, T) -> bool): seq<T>
  {
    if |s| == 0 then [x]
    else if le(x, s[0]) then [x] + s
    else [s[0]] + InsertWith(x, s[1..], le)
  }

  lemma {:induction false} InsertPermutes<T>(x: T, s: seq<T>, le: (T, T) -> bool)
    ensures multiset(InsertWith(x, s, le)) == multiset(s) + multiset{x}
    decreases |s|
  {
    if |s| > 0 && !le(x, s[0]) {
      InsertPermutes(x, s[1..], le);
      assert s == [s[0]] + s[1..];
    }
  }

  lemma {:induction false} InsertDrawsFrom<T>(x: T, s: seq<T>, le: (T, T) -> bool)
    ensures forall i :: 0 <= i < |InsertWith(x, s, le)| ==>
              InsertWith(x, s, le)[i] == x || InsertWith(x, s, le)[i] in s
    decreases |s|
  {
    if |s| > 0 && !le(x, s[0]) {
      InsertDrawsFrom(x, s[1..], le);
    }
  }

  /** Inserting into a sorted sequence keeps it sorted. */
  lemma {:induction false} InsertSorted<T(!new)>(x: T, s: seq<T>, le: (T, T) -> bool)
    requires Connected(le) && Transitive(le) && SortedWith(s, le)
    ensures SortedWith(InsertWith(x, s, le), le)
    decreases |s|
  {
    if |s| == 0 {
    } else if le(x, s[0]) {
      var r := [x] + s;
      forall i, j | 0 <= i < j < |r|
        ensures le(r[i], r[j])
      {
        if i == 0 {
          assert r[j] == s[j - 1];
          if j > 1 {
            assert le(s[0], s[j - 1]);
          }
        } else {
          assert r[i] == s[i - 1] && r[j] == s[j - 1];
        }
      }
      assert InsertWith(x, s, le) == r;
    } else {
      assert le(s[0], x);
      var rest := InsertWith(x, s[1..], le);
      InsertSorted(x, s[1..], le);
      InsertDrawsFrom(x, s[1..], le);
      forall i | 0 <= i < |rest|
        ensures le(s[0], rest[i])
      {
        if rest[i] != x {
          var j :| 0 <= j < |s[1..]| && rest[i] == s[1..][j];
          assert s[1..][j] == s[j + 1];
        }
      }
      var r := [s[0]] + rest;
      forall i, j | 0 <= i < j < |r|
        ensures le(r[i], r[j])
      {
        if i == 0 {
          assert r[j] == rest[j - 1];
        } else {
          assert r[i] == rest[i - 1] && r[j] == rest[j - 1];
        }
      }
      assert InsertWith(x, s, le) == r;
    }
  }

  /** `Array.prototype.sort` with the comparator `le`: stable (of two tied
      elements, the earlier stays first), sorted and a permutation of the
      input. */
  function SortWith<T(!new)>(s: seq<T>, le: (T, T) -> bool): (r: seq<T>)
    requires Connected(le) && Transitive(le)
    ensures multiset(r) == multiset(s)
    ensures SortedWith(r, le)
  {
    if |s| == 0 then []
    else
      var rest := SortWith(s[1..], le);
      InsertSorted(s[0], rest, le);
      InsertPermutes(s[0], rest, le);
      assert s == [s[0]] + s[1..];
      InsertWith(s[0], rest, le)
  }

  /** Keys are non-decreasing along `s`. */
  predicate SortedBy<T>(s: seq<T>, key: T -> int)
  {
    forall i, j :: 0 <= i < j < |s| ==> key(s[i]) <= key(s[j])
  }

  /** `Array.prototype.sort` with the numeric comparator
      `(a, b) => key(a) - key(b)`. */
  function SortBy<T(!new)>(s: seq<T>, key: T -> int): (r: seq<T>)
    ensures multiset(r) == multiset(s)
    ensures SortedBy(r, key)
  {
    var le := (a: T, b: T) => key(a) <= key(b);
    assert Connected(le) && Transitive(le);
    SortWith(s, le)
  }

  // ---------------------------------------------------------------------------
  // Id lists

  /** No value occurs twice. */
  predicate Distinct<T(==)>(s: seq<T>)
  {
    forall i, j :: 0 <= i < j < |s| ==> s[i] != s[j]
  }

  /** `if (!s.includes(x)) s.push(x)`: `s` is kept as a prefix, and `x` is
      appended exactly when it is missing. */
  function AppendIfAbsent<T(==,!new)>(s: seq<T>, x: T): (r: seq<T>)
    ensures |s| <= |r| <= |s| + 1 && r[..|s|] == s
    ensures |r| == |s| <==> x in s
    ensures forall y :: y in r <==> y in s || y == x
    ensures Distinct(s) ==> Distinct(r)
  {
    if x in s then s else s + [x]
  }

  /** Inserting twice is inserting once. */
  lemma AppendIfAbsentIdempotent<T(!new)>(s: seq<T>, x: T)
    ensures AppendIfAbsent(AppendIfAbsent(s, x), x) == AppendIfAbsent(s, x)
  {
  }

  /** `s.filter(y => y !== x)`: every occurrence of `x` removed, the other
      elements kept in order with their multiplicity. */
  function Without<T(==,!new)>(s: seq<T>, x: T): (r: seq<T>)
    ensures x !in r
    ensures IsSubsequence(r, s)
    ensures forall y | y != x :: multiset(r)[y] == multiset(s)[y]
  {
    Filter(s, y => y != x)
  }

  /** Removing twice is removing once. */
  lemma WithoutIdempotent<T(!new)>(s: seq<T>, x: T)
    ensures Without(Without(s, x), x) == Without(s, x)
  {
    FilterAll(Without(s, x), y => y != x);
  }

  /** `s.splice(k, 1)`. */
  function RemoveAt<T>(s: seq<T>, k: int): (r: seq<T>)
    requires 0 <= k < |s|
    ensures |r| == |s| - 1
    ensures forall i :: 0 <= i < k ==> r[i] == s[i]
    ensures forall i :: k <= i < |r| ==> r[i] == s[i + 1]
  {
    s[..k] + s[k + 1..]
  }

  /** Two equal elements at different places count twice. */
  lemma TwiceCounted<T>(s: seq<T>, i: int, j: int)
    requires 0 <= i < j < |s| && s[i] == s[j]
    ensures multiset(s)[s[i]] >= 2
  {
    assert s == s[..i] + [s[i]] + s[i + 1..j] + [s[j]] + s[j + 1..];
  }

  lemma {:induction false} DistinctCountedOnce<T>(s: seq<T>)
    requires Distinct(s)
    ensures forall x :: multiset(s)[x] <= 1
    decreases |s|
  {
    if |s| > 0 {
      var t := s[..|s| - 1];
      assert Distinct(t);
      DistinctCountedOnce(t);
      assert s == t + [s[|s| - 1]];
      assert s[|s| - 1] !in t;
    }
  }

  lemma CountedOnceDistinct<T>(s: seq<T>)
    requires forall x :: multiset(s)[x] <= 1
    ensures Distinct(s)
  {
    forall i, j | 0 <= i < j < |s|
      ensures s[i] != s[j]
    {
      if s[i] == s[j] {
        TwiceCounted(s, i, j);
      }
    }
  }

  /** A permutation of a duplicate-free sequence is duplicate-free. */
  lemma PermutationKeepsDistinct<T>(a: seq<T>, b: seq<T>)
    requires Distinct(a) && multiset(a) == multiset(b)
    ensures Distinct(b)
  {
    DistinctCountedOnce(a);
    CountedOnceDistinct(b);
  }

  /** Removing a value from a duplicate-free sequence leaves it
      duplicate-free. */
  lemma WithoutKeepsDistinct<T(!new)>(s: seq<T>, x: T)
    ensures Distinct(s) ==> Distinct(Without(s, x))
  {
    if Distinct(s) {
      DistinctCountedOnce(s);
      var r := Without(s, x);
      forall y
        ensures multiset(r)[y] <= 1
      {
        if y != x {
          assert multiset(r)[y] == multiset(s)[y];
        } else {
          assert y !in r;
        }
      }
      CountedOnceDistinct(r);
    }
  }

  /** `[...new Set(s)]`: each value once, in order of first occurrence. */
  function Dedup<T(==,!new)>(s: seq<T>): (r: seq<T>)
    ensures Distinct(r)
    ensures forall x :: x in r <==> x in s
  {
    if |s| == 0 then []
    else
      var init := Dedup(s[..|s| - 1]);
      assert s == s[..|s| - 1] + [s[|s| - 1]];
      AppendIfAbsent(init, s[|s| - 1])
  }
}
