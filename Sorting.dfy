/** The stable comparison sort both the task store and the search store rely
    on (`Array.prototype.sort` is stable). Elements are compared by a rank,
    smaller first, and on equal rank by a tie-breaker, larger first. The
    model is an insertion sort; a stable sort's output is determined by the
    comparator, so any stable algorithm yields the same list. */
module Sorting {
  import opened Common

  /** `a` goes strictly before `b`. */
  predicate Precedes<T>(rank: T -> int, tie: T -> int, a: T, b: T) {
    rank(a) < rank(b) || (rank(a) == rank(b) && tie(a) > tie(b))
  }

  /** No element is preceded by a later one. */
  predicate Ordered<T>(s: seq<T>, rank: T -> int, tie: T -> int) {
    forall i, j :: 0 <= i < j < |s| ==> !Precedes(rank, tie, s[j], s[i])
  }

  /** Puts `x` before the first element it does not follow, so `x` stays
      ahead of the elements that compare equal to it. */
  function Insert<T>(x: T, s: seq<T>, rank: T -> int, tie: T -> int): (r: seq<T>)
    ensures multiset(r) == multiset(s) + multiset{x}
    ensures |r| == |s| + 1
  {
    if s == [] then [x]
    else
      assert s == [s[0]] + s[1..];
      if Precedes(rank, tie, s[0], x) then [s[0]] + Insert(x, s[1..], rank, tie)
      else [x] + s
  }

  function SortBy<T>(s: seq<T>, rank: T -> int, tie: T -> int): (r: seq<T>)
    ensures multiset(r) == multiset(s)
    ensures |r| == |s|
  {
    if s == [] then []
    else
      assert s == [s[0]] + s[1..];
      Insert(s[0], SortBy(s[1..], rank, tie), rank, tie)
  }

  lemma {:induction false} InsertOrdered<T>(x: T, s: seq<T>, rank: T -> int, tie: T -> int)
    requires Ordered(s, rank, tie)
    ensures Ordered(Insert(x, s, rank, tie), rank, tie)
  {
    if s != [] {
      if Precedes(rank, tie, s[0], x) {
        var t := Insert(x, s[1..], rank, tie);
        assert Ordered(s[1..], rank, tie);
        InsertOrdered(x, s[1..], rank, tie);
        forall j | 0 <= j < |t| ensures !Precedes(rank, tie, t[j], s[0]) {
          var e := t[j];
          assert e in multiset(s[1..]) + multiset{x} by {
            assert e in multiset(t);
          }
          if e != x {
            assert e in s[1..];
            var k :| 0 <= k < |s[1..]| && s[1..][k] == e;
            assert s[k + 1] == e;
          }
        }
      }
    }
  }

  /** The sort yields an ordered permutation of its input. */
  lemma {:induction false} SortByOrdered<T>(s: seq<T>, rank: T -> int, tie: T -> int)
    ensures Ordered(SortBy(s, rank, tie), rank, tie)
    ensures multiset(SortBy(s, rank, tie)) == multiset(s)
  {
    if s != [] {
      SortByOrdered(s[1..], rank, tie);
      InsertOrdered(s[0], SortBy(s[1..], rank, tie), rank, tie);
    }
  }

  /** The elements of `s` whose rank and tie-breaker are `r0` and `t0`, in order. */
  function SameKey<T>(s: seq<T>, rank: T -> int, tie: T -> int, r0: int, t0: int): (r: seq<T>)
    ensures |r| <= |s|
  {
    if s == [] then []
    else (if rank(s[0]) == r0 && tie(s[0]) == t0 then [s[0]] else [])
         + SameKey(s[1..], rank, tie, r0, t0)
  }

  lemma SameKeyCons<T>(a: T, t: seq<T>, rank: T -> int, tie: T -> int, r0: int, t0: int)
    ensures SameKey([a] + t, rank, tie, r0, t0)
         == (if rank(a) == r0 && tie(a) == t0 then [a] else []) + SameKey(t, rank, tie, r0, t0)
  {
    assert ([a] + t)[0] == a && ([a] + t)[1..] == t;
  }

  lemma {:induction false} InsertSameKey<T>(x: T, s: seq<T>, rank: T -> int, tie: T -> int, r0: int, t0: int)
    ensures SameKey(Insert(x, s, rank, tie), rank, tie, r0, t0)
         == (if rank(x) == r0 && tie(x) == t0 then [x] else []) + SameKey(s, rank, tie, r0, t0)
  {
    var hx: seq<T> := if rank(x) == r0 && tie(x) == t0 then [x] else [];
    if s == [] {
      SameKeyCons(x, [], rank, tie, r0, t0);
    } else if Precedes(rank, tie, s[0], x) {
      var t := Insert(x, s[1..], rank, tie);
      var h0: seq<T> := if rank(s[0]) == r0 && tie(s[0]) == t0 then [s[0]] else [];
      assert Insert(x, s, rank, tie) == [s[0]] + t;
      SameKeyCons(s[0], t, rank, tie, r0, t0);
      InsertSameKey(x, s[1..], rank, tie, r0, t0);
      assert SameKey(s, rank, tie, r0, t0) == h0 + SameKey(s[1..], rank, tie, r0, t0);
      if h0 == [] {
        assert SameKey([s[0]] + t, rank, tie, r0, t0) == SameKey(t, rank, tie, r0, t0);
        assert SameKey(s, rank, tie, r0, t0) == SameKey(s[1..], rank, tie, r0, t0);
      } else {
        assert hx == [];
        assert SameKey(t, rank, tie, r0, t0) == SameKey(s[1..], rank, tie, r0, t0);
      }
    } else {
      assert Insert(x, s, rank, tie) == [x] + s;
      SameKeyCons(x, s, rank, tie, r0, t0);
    }
  }

  /** Stability: elements that compare equal keep their relative input order. */
  lemma {:induction false} SortByStable<T>(s: seq<T>, rank: T -> int, tie: T -> int, r0: int, t0: int)
    ensures SameKey(SortBy(s, rank, tie), rank, tie, r0, t0) == SameKey(s, rank, tie, r0, t0)
  {
    if s != [] {
      SortByStable(s[1..], rank, tie, r0, t0);
      InsertSameKey(s[0], SortBy(s[1..], rank, tie), rank, tie, r0, t0);
    }
  }

  /** Sorting an ordered list leaves it as it is; in particular sorting is idempotent. */
  lemma {:induction false} SortByOrderedIdentity<T>(s: seq<T>, rank: T -> int, tie: T -> int)
    requires Ordered(s, rank, tie)
    ensures SortBy(s, rank, tie) == s
  {
    if s != [] {
      assert Ordered(s[1..], rank, tie);
      SortByOrderedIdentity(s[1..], rank, tie);
      if |s| > 1 {
        assert !Precedes(rank, tie, s[1..][0], s[0]);
      }
      assert [s[0]] + s[1..] == s;
    }
  }

  lemma SortByIdempotent<T>(s: seq<T>, rank: T -> int, tie: T -> int)
    ensures SortBy(SortBy(s, rank, tie), rank, tie) == SortBy(s, rank, tie)
  {
    SortByOrdered(s, rank, tie);
    SortByOrderedIdentity(SortBy(s, rank, tie), rank, tie);
  }

  /** Every prefix of an ordered list is ordered. */
  lemma TakeOrdered<T>(s: seq<T>, n: nat, rank: T -> int, tie: T -> int)
    requires Ordered(s, rank, tie) && n <= |s|
    ensures Ordered(s[..n], rank, tie)
  {
  }

  /** Removing elements keeps a list ordered. */
  lemma {:induction false} FilterOutOrdered<T>(s: seq<T>, key: T -> string, k: string, rank: T -> int, tie: T -> int)
    requires Ordered(s, rank, tie)
    ensures Ordered(FilterOut(s, key, k), rank, tie)
  {
    if s != [] {
      assert Ordered(s[1..], rank, tie);
      FilterOutOrdered(s[1..], key, k, rank, tie);
      var t := FilterOut(s[1..], key, k);
      forall j | 0 <= j < |t| ensures !Precedes(rank, tie, t[j], s[0]) {
        var m :| 0 <= m < |s[1..]| && s[1..][m] == t[j];
        assert s[m + 1] == t[j];
      }
    }
  }
}
