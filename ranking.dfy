/** `Array.prototype.sort` with a comparator `(a, b) => score(b) - score(a)`: largest first. */
module Ranking {
  import Grouping

  /** Largest score first. */
  predicate SortedDesc<T>(s: seq<T>, score: T -> int)
  {
    forall i, j :: 0 <= i < j < |s| ==> score(s[i]) >= score(s[j])
  }

  lemma TotalCons<T>(x: T, s: seq<T>, score: T -> int)
    ensures Grouping.Total([x] + s, score) == score(x) + Grouping.Total(s, score)
  {
    Grouping.TotalAppend([x], s, score);
    assert [x][..0] == [];
  }

  /** Put `x` after every element scoring at least as much, so equal scores keep their order. */
  function Insert<T>(x: T, s: seq<T>, score: T -> int): (r: seq<T>)
    ensures multiset(r) == multiset(s) + multiset{x}
    ensures |r| == |s| + 1
    ensures Grouping.Total(r, score) == Grouping.Total(s, score) + score(x)
  {
    if s == [] then [x]
    else if score(s[0]) < score(x) then
      TotalCons(x, s, score);
      [x] + s
    else
      var rest := Insert(x, s[1..], score);
      assert s == [s[0]] + s[1..];
      TotalCons(s[0], s[1..], score);
      TotalCons(s[0], rest, score);
      [s[0]] + rest
  }

  /** Inserting adds no score above a bound that `x` and everything in `s` already respect. */
  lemma InsertBounded<T>(x: T, s: seq<T>, score: T -> int, top: int)
    requires score(x) <= top
    requires forall i :: 0 <= i < |s| ==> score(s[i]) <= top
    ensures forall i :: 0 <= i < |Insert(x, s, score)| ==> score(Insert(x, s, score)[i]) <= top
  {
    var r := Insert(x, s, score);
    forall i | 0 <= i < |r| ensures score(r[i]) <= top {
      assert r[i] in multiset(r);
      if r[i] != x {
        assert r[i] in multiset(s);
        var k :| 0 <= k < |s| && s[k] == r[i];
      }
    }
  }

  /** Inserting into a sorted list keeps it sorted. */
  lemma {:induction false} InsertSorted<T>(x: T, s: seq<T>, score: T -> int)
    requires SortedDesc(s, score)
    ensures SortedDesc(Insert(x, s, score), score)
  {
    var r := Insert(x, s, score);
    if s == [] {
    } else if score(s[0]) < score(x) {
      assert r == [x] + s;
      forall i, j | 0 <= i < j < |r| ensures score(r[i]) >= score(r[j]) {
        if i > 0 {
          assert r[i] == s[i - 1] && r[j] == s[j - 1];
        } else {
          assert r[j] == s[j - 1];
        }
      }
    } else {
      var tail := s[1..];
      assert SortedDesc(tail, score);
      InsertSorted(x, tail, score);
      var rest := Insert(x, tail, score);
      assert r == [s[0]] + rest;
      assert forall i :: 0 <= i < |tail| ==> score(tail[i]) <= score(s[0]) by {
        forall i | 0 <= i < |tail| ensures score(tail[i]) <= score(s[0]) {
          assert tail[i] == s[i + 1];
        }
      }
      InsertBounded(x, tail, score, score(s[0]));
      forall i, j | 0 <= i < j < |r| ensures score(r[i]) >= score(r[j]) {
        assert r[j] == rest[j - 1];
        if i > 0 {
          assert r[i] == rest[i - 1];
        }
      }
    }
  }

  /** The sorted list: the same elements, largest score first, with the same total. */
  function SortDesc<T>(s: seq<T>, score: T -> int): (r: seq<T>)
    ensures multiset(r) == multiset(s)
    ensures |r| == |s|
    ensures SortedDesc(r, score)
    ensures Grouping.Total(r, score) == Grouping.Total(s, score)
  {
    if s == [] then []
    else
      assert s == s[..|s| - 1] + [s[|s| - 1]];
      var sorted := SortDesc(s[..|s| - 1], score);
      InsertSorted(s[|s| - 1], sorted, score);
      Insert(s[|s| - 1], sorted, score)
  }
}
