/**
 * Python's `sorted` / `list.sort` with a key: a stable sort. It is modelled
 * as insertion sort under a comparison `le` ("the key of a is at most the key
 * of b"); sorting with `reverse=True` is sorting under the converse
 * comparison, which Python also keeps stable.
 */
module Sorting {

  /** any two elements compare, and comparison chains */
  ghost predicate TotalPreorder<T(!new)>(le: (T, T) -> bool) {
    && (forall a, b :: le(a, b) || le(b, a))
    && (forall a, b, c :: le(a, b) && le(b, c) ==> le(a, c))
  }

  predicate SortedBy<T>(s: seq<T>, le: (T, T) -> bool) {
    forall i, j :: 0 <= i < j < |s| ==> le(s[i], s[j])
  }

  /** x goes in front of the first element it is at most */
  function Insert<T>(x: T, s: seq<T>, le: (T, T) -> bool): seq<T> {
    if s == [] then [x]
    else if le(x, s[0]) then [x] + s
    else [s[0]] + Insert(x, s[1..], le)
  }

  function SortBy<T>(s: seq<T>, le: (T, T) -> bool): seq<T> {
    if s == [] then [] else Insert(s[0], SortBy(s[1..], le), le)
  }

  /** the elements of s tied with x (each at most the other), in order */
  function Ties<T>(s: seq<T>, le: (T, T) -> bool, x: T): seq<T> {
    if s == [] then []
    else (if le(x, s[0]) && le(s[0], x) then [s[0]] else []) + Ties(s[1..], le, x)
  }

  lemma {:induction false} InsertPermutation<T>(x: T, s: seq<T>, le: (T, T) -> bool)
    ensures multiset(Insert(x, s, le)) == multiset{x} + multiset(s)
    decreases |s|
  {
    if s != [] && !le(x, s[0]) {
      InsertPermutation(x, s[1..], le);
      assert s == [s[0]] + s[1..];
    }
  }

  /** Sequences with the same multiset have the same length and the same members. */
  lemma SameElements<T>(a: seq<T>, b: seq<T>)
    requires multiset(a) == multiset(b)
    ensures |a| == |b| && forall x :: x in a <==> x in b
  {
    assert |a| == |multiset(a)|;
    forall x
      ensures x in a <==> x in b
    {
      assert x in a <==> x in multiset(a);
      assert x in b <==> x in multiset(b);
    }
  }

  /** Sorting only rearranges: the result is a permutation of the input. */
  lemma {:induction false} SortByPermutation<T>(s: seq<T>, le: (T, T) -> bool)
    ensures multiset(SortBy(s, le)) == multiset(s)
    decreases |s|
  {
    if s != [] {
      SortByPermutation(s[1..], le);
      InsertPermutation(s[0], SortBy(s[1..], le), le);
      assert s == [s[0]] + s[1..];
    }
  }

  lemma {:induction false} InsertSorted<T(!new)>(x: T, s: seq<T>, le: (T, T) -> bool)
    requires TotalPreorder(le)
    requires SortedBy(s, le)
    ensures SortedBy(Insert(x, s, le), le)
    decreases |s|
  {
    if s != [] {
      if le(x, s[0]) {
        var r := [x] + s;
        forall i, j | 0 <= i < j < |r| ensures le(r[i], r[j]) {
          if i == 0 && j > 1 {
            assert le(s[0], s[j - 1]);
          }
        }
      } else {
        var t := Insert(x, s[1..], le);
        InsertSorted(x, s[1..], le);
        InsertPermutation(x, s[1..], le);
        var r := [s[0]] + t;
        forall j | 0 <= j < |t| ensures le(s[0], t[j]) {
          assert t[j] in multiset(t);
          if t[j] != x {
            assert t[j] in multiset(s[1..]);
            var k :| 0 <= k < |s[1..]| && s[1..][k] == t[j];
            assert s[k + 1] == t[j];
          }
        }
        forall i, j | 0 <= i < j < |r| ensures le(r[i], r[j]) {
          if i == 0 {
            assert r[j] == t[j - 1];
          } else {
            assert r[i] == t[i - 1] && r[j] == t[j - 1];
          }
        }
      }
    }
  }

  /** Under a total preorder the result is in ascending order. */
  lemma {:induction false} SortBySorted<T(!new)>(s: seq<T>, le: (T, T) -> bool)
    requires TotalPreorder(le)
    ensures SortedBy(SortBy(s, le), le)
    decreases |s|
  {
    if s != [] {
      SortBySorted(s[1..], le);
      InsertSorted(s[0], SortBy(s[1..], le), le);
    }
  }

  lemma {:induction false} InsertTies<T(!new)>(h: T, t: seq<T>, le: (T, T) -> bool, x: T)
    requires TotalPreorder(le)
    ensures Ties(Insert(h, t, le), le, x) == (if le(x, h) && le(h, x) then [h] else []) + Ties(t, le, x)
    decreases |t|
  {
    var th: seq<T> := if le(x, h) && le(h, x) then [h] else [];
    if t == [] {
      assert Ties([h], le, x) == th + Ties([h][1..], le, x);
    } else if le(h, t[0]) {
      assert ([h] + t)[0] == h && ([h] + t)[1..] == t;
    } else {
      var r := [t[0]] + Insert(h, t[1..], le);
      InsertTies(h, t[1..], le, x);
      assert r[0] == t[0] && r[1..] == Insert(h, t[1..], le);
      var t0: seq<T> := if le(x, t[0]) && le(t[0], x) then [t[0]] else [];
      assert th == [] || t0 == [];
      calc {
        Ties(r, le, x);
        t0 + Ties(Insert(h, t[1..], le), le, x);
        t0 + (th + Ties(t[1..], le, x));
        th + (t0 + Ties(t[1..], le, x));
        th + Ties(t, le, x);
      }
    }
  }

  /** Stability: the elements tied with any x keep their original order. */
  lemma {:induction false} SortByStable<T(!new)>(s: seq<T>, le: (T, T) -> bool, x: T)
    requires TotalPreorder(le)
    ensures Ties(SortBy(s, le), le, x) == Ties(s, le, x)
    decreases |s|
  {
    if s != [] {
      SortByStable(s[1..], le, x);
      InsertTies(s[0], SortBy(s[1..], le), le, x);
    }
  }
}
