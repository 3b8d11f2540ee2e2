/** Rust's `slice::sort_by`, which is a stable sort: the model is an insertion
    sort that places each element after every element that does not compare
    strictly greater. For a total preorder every stable sort gives this same
    result. */
module Sorting {

  ghost predicate Transitive<T(!new)>(le: (T, T) -> bool)
  {
    forall x, y, z :: le(x, y) && le(y, z) ==> le(x, z)
  }

  ghost predicate Total<T(!new)>(le: (T, T) -> bool)
  {
    forall x, y :: le(x, y) || le(y, x)
  }

  /** The comparator orders elements as a total preorder (ties allowed). */
  ghost predicate TotalPreorder<T(!new)>(le: (T, T) -> bool)
  {
    Transitive(le) && Total(le)
  }

  predicate SortedBy<T>(s: seq<T>, le: (T, T) -> bool)
  {
    forall i, j :: 0 <= i < j < |s| ==> le(s[i], s[j])
  }

  /** `a` and `b` compare `Equal`. */
  predicate Tied<T>(le: (T, T) -> bool, a: T, b: T)
  {
    le(a, b) && le(b, a)
  }

  /** The subsequence of `s` tied with `y`, in order. */
  function TiedWith<T>(s: seq<T>, y: T, le: (T, T) -> bool): seq<T>
  {
    if s == [] then [] else (if Tied(le, s[0], y) then [s[0]] else []) + TiedWith(s[1..], y, le)
  }

  /** Inserts `x` into `r` after every element not strictly greater than it. */
  function Insert<T>(r: seq<T>, x: T, le: (T, T) -> bool): (q: seq<T>)
    ensures |q| == |r| + 1
  {
    if r == [] then [x]
    else if le(r[0], x) then [r[0]] + Insert(r[1..], x, le)
    else [x] + r
  }

  function Sort<T>(s: seq<T>, le: (T, T) -> bool): (r: seq<T>)
    ensures |r| == |s|
  {
    if s == [] then []
    else Insert(Sort(s[..|s| - 1], le), s[|s| - 1], le)
  }

  /** Inserting adds `x` and keeps everything else. */
  lemma {:induction false} InsertPermutation<T>(r: seq<T>, x: T, le: (T, T) -> bool)
    ensures multiset(Insert(r, x, le)) == multiset(r) + multiset{x}
  {
    if r != [] && le(r[0], x) {
      InsertPermutation(r[1..], x, le);
      assert r == [r[0]] + r[1..];
    }
  }

  /** The sorted output is a permutation of the input. */
  lemma {:induction false} SortPermutation<T>(s: seq<T>, le: (T, T) -> bool)
    ensures multiset(Sort(s, le)) == multiset(s)
  {
    if s != [] {
      SortPermutation(s[..|s| - 1], le);
      InsertPermutation(Sort(s[..|s| - 1], le), s[|s| - 1], le);
      assert s == s[..|s| - 1] + [s[|s| - 1]];
    }
  }

  lemma {:induction false} InsertSorted<T(!new)>(r: seq<T>, x: T, le: (T, T) -> bool)
    requires TotalPreorder(le)
    requires SortedBy(r, le)
    ensures SortedBy(Insert(r, x, le), le)
  {
    if r != [] {
      if le(r[0], x) {
        var tail := Insert(r[1..], x, le);
        InsertSorted(r[1..], x, le);
        InsertPermutation(r[1..], x, le);
        forall k | 0 <= k < |tail| ensures le(r[0], tail[k]) {
          assert tail[k] in multiset(tail);
          assert tail[k] in multiset(r[1..]) || tail[k] == x;
          if tail[k] != x {
            var m :| 0 <= m < |r[1..]| && r[1..][m] == tail[k];
            assert r[m + 1] == tail[k];
          }
        }
        assert Insert(r, x, le) == [r[0]] + tail;
      } else {
        assert le(x, r[0]);
      }
    }
  }

  /** The sorted output is ordered by the comparator. */
  lemma {:induction false} SortSorted<T(!new)>(s: seq<T>, le: (T, T) -> bool)
    requires TotalPreorder(le)
    ensures SortedBy(Sort(s, le), le)
  {
    if s != [] {
      SortSorted(s[..|s| - 1], le);
      InsertSorted(Sort(s[..|s| - 1], le), s[|s| - 1], le);
    }
  }

  lemma TiedWithCons<T>(h: T, t: seq<T>, y: T, le: (T, T) -> bool)
    ensures TiedWith([h] + t, y, le) == (if Tied(le, h, y) then [h] else []) + TiedWith(t, y, le)
  {
    assert ([h] + t)[0] == h && ([h] + t)[1..] == t;
  }

  lemma {:induction false} TiedWithAppend<T>(a: seq<T>, b: seq<T>, y: T, le: (T, T) -> bool)
    ensures TiedWith(a + b, y, le) == TiedWith(a, y, le) + TiedWith(b, y, le)
  {
    if a == [] {
      assert a + b == b;
    } else {
      var h, t := a[0], a[1..];
      assert a == [h] + t;
      assert a + b == [h] + (t + b);
      TiedWithAppend(t, b, y, le);
      TiedWithCons(h, t + b, y, le);
      TiedWithCons(h, t, y, le);
    }
  }

  lemma {:induction false} TiedWithNone<T>(s: seq<T>, y: T, le: (T, T) -> bool)
    requires forall k :: 0 <= k < |s| ==> !Tied(le, s[k], y)
    ensures TiedWith(s, y, le) == []
  {
    if s != [] {
      TiedWithNone(s[1..], y, le);
    }
  }

  /** When `x` is tied with `y`, every element of `r` up to any element
      tied with `y` sorts no later than `x`. This is all that inserting `x`
      into `r` needs to know about the order. */
  ghost predicate TiesBelow<T>(r: seq<T>, x: T, y: T, le: (T, T) -> bool)
  {
    Tied(le, x, y) ==> forall j, k :: 0 <= j <= k < |r| && Tied(le, r[k], y) ==> le(r[j], x)
  }

  lemma TiesBelowOfSorted<T(!new)>(r: seq<T>, x: T, y: T, le: (T, T) -> bool)
    requires TotalPreorder(le) && SortedBy(r, le)
    ensures TiesBelow(r, x, y, le)
  {
    if Tied(le, x, y) {
      forall j, k | 0 <= j <= k < |r| && Tied(le, r[k], y) ensures le(r[j], x) {
        var a, b := r[j], r[k];
        assert le(b, x);
        if j < k {
          assert le(a, b);
        }
      }
    }
  }

  lemma {:induction false} InsertTiedWith<T>(r: seq<T>, x: T, y: T, le: (T, T) -> bool)
    requires TiesBelow(r, x, y, le)
    ensures TiedWith(Insert(r, x, le), y, le)
         == TiedWith(r, y, le) + (if Tied(le, x, y) then [x] else [])
  {
    if r == [] {
      assert [x][1..] == [];
    } else if le(r[0], x) {
      var q := Insert(r[1..], x, le);
      var own := if Tied(le, r[0], y) then [r[0]] else [];
      assert TiesBelow(r[1..], x, y, le) by {
        if Tied(le, x, y) {
          forall j, k | 0 <= j <= k < |r| - 1 && Tied(le, r[1..][k], y) ensures le(r[1..][j], x) {
            assert r[1..][j] == r[j + 1] && r[1..][k] == r[k + 1];
          }
        }
      }
      InsertTiedWith(r[1..], x, y, le);
      assert Insert(r, x, le) == [r[0]] + q;
      assert ([r[0]] + q)[1..] == q;
      assert TiedWith([r[0]] + q, y, le) == own + TiedWith(q, y, le);
    } else {
      assert Insert(r, x, le) == [x] + r;
      assert ([x] + r)[1..] == r;
      if Tied(le, x, y) {
        var head := r[0];
        forall k | 0 <= k < |r| ensures !Tied(le, r[k], y) {
          assert Tied(le, r[k], y) ==> le(head, x);
        }
        TiedWithNone(r, y, le);
      }
    }
  }

  /** Stability: for every tie class, its members appear in the output in
      their input order. */
  lemma {:induction false} SortStable<T(!new)>(s: seq<T>, y: T, le: (T, T) -> bool)
    requires TotalPreorder(le)
    ensures TiedWith(Sort(s, le), y, le) == TiedWith(s, y, le)
  {
    if s != [] {
      var init := s[..|s| - 1];
      SortStable(init, y, le);
      SortSorted(init, le);
      TiesBelowOfSorted(Sort(init, le), s[|s| - 1], y, le);
      InsertTiedWith(Sort(init, le), s[|s| - 1], y, le);
      assert s == init + [s[|s| - 1]];
      TiedWithSnoc(init, s[|s| - 1], y, le);
    }
  }

  lemma TiedWithSnoc<T>(init: seq<T>, last: T, y: T, le: (T, T) -> bool)
    ensures TiedWith(init + [last], y, le) == TiedWith(init, y, le) + (if Tied(le, last, y) then [last] else [])
  {
    assert TiedWith([last], y, le) == (if Tied(le, last, y) then [last] else []) by {
      assert [last][1..] == [];
    }
    TiedWithAppend(init, [last], y, le);
  }

  /** A suffix of a sorted sequence is sorted. */
  lemma SortedSuffix<T>(s: seq<T>, k: nat, le: (T, T) -> bool)
    requires SortedBy(s, le) && k <= |s|
    ensures SortedBy(s[k..], le)
  {
    forall i, j | 0 <= i < j < |s| - k ensures le(s[k..][i], s[k..][j]) {
      assert s[k..][i] == s[k + i] && s[k..][j] == s[k + j];
    }
  }
}
