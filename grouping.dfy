/**
 * The `grouped[key] = (grouped[key] || 0) + amount` dictionaries of the history pages, and
 * `Object.entries`/`Object.values` over them: one group per distinct key, in the order keys
 * first appear, each holding the sum of its members' amounts.
 */
module Grouping {

  /** No key twice. */
  predicate Distinct<K(==)>(ks: seq<K>)
  {
    forall i, j :: 0 <= i < j < |ks| ==> ks[i] != ks[j]
  }

  /** Some member of `s` has key `k`. */
  predicate HasKey<T, K(==)>(s: seq<T>, key: T -> K, k: K)
  {
    exists i :: 0 <= i < |s| && key(s[i]) == k
  }

  lemma HasKeyAppend<T, K>(s: seq<T>, x: T, key: T -> K, k: K)
    ensures HasKey(s + [x], key, k) <==> HasKey(s, key, k) || key(x) == k
  {
    if HasKey(s + [x], key, k) && key(x) != k {
      var i :| 0 <= i < |s + [x]| && key((s + [x])[i]) == k;
      assert key(s[i]) == k;
    }
    if HasKey(s, key, k) {
      var i :| 0 <= i < |s| && key(s[i]) == k;
      assert (s + [x])[i] == s[i];
    }
    assert (s + [x])[|s|] == x;
  }

  lemma HasKeyAllAppend<T, K>(s: seq<T>, x: T, key: T -> K)
    ensures forall k :: HasKey(s + [x], key, k) <==> HasKey(s, key, k) || key(x) == k
  {
    forall k ensures HasKey(s + [x], key, k) <==> HasKey(s, key, k) || key(x) == k {
      HasKeyAppend(s, x, key, k);
    }
  }

  /** The groups of a list: its distinct keys in first-occurrence order (a dictionary's insertion order). */
  function Groups<T, K(==,!new)>(s: seq<T>, key: T -> K): (r: seq<K>)
    ensures Distinct(r)
    ensures forall k :: k in r <==> HasKey(s, key, k)
  {
    if s == [] then []
    else
      var init, x := s[..|s| - 1], s[|s| - 1];
      assert s == init + [x];
      HasKeyAllAppend(init, x, key);
      var g := Groups(init, key);
      if key(x) in g then g else g + [key(x)]
  }

  /** Sum of all amounts. */
  function Total<T>(s: seq<T>, amount: T -> int): int
  {
    if s == [] then 0 else Total(s[..|s| - 1], amount) + amount(s[|s| - 1])
  }

  /** The value a group's entry ends with: the sum of the amounts of the members with that key. */
  function SumFor<T, K(==)>(s: seq<T>, key: T -> K, amount: T -> int, k: K): int
  {
    if s == [] then 0
    else SumFor(s[..|s| - 1], key, amount, k) + (if key(s[|s| - 1]) == k then amount(s[|s| - 1]) else 0)
  }

  /** Sum of the group sums of the given keys. */
  function SumOver<T, K(==)>(ks: seq<K>, s: seq<T>, key: T -> K, amount: T -> int): int
  {
    if ks == [] then 0 else SumOver(ks[..|ks| - 1], s, key, amount) + SumFor(s, key, amount, ks[|ks| - 1])
  }

  lemma {:induction false} TotalAppend<T>(s: seq<T>, t: seq<T>, amount: T -> int)
    ensures Total(s + t, amount) == Total(s, amount) + Total(t, amount)
    decreases |t|
  {
    if t == [] {
      assert s + t == s;
    } else {
      var u := t[..|t| - 1];
      assert (s + t)[..|s + t| - 1] == s + u;
      assert (s + t)[|s + t| - 1] == t[|t| - 1];
      TotalAppend(s, u, amount);
    }
  }

  /** The first member with a given key: the one that created the group's entry. */
  function FirstWith<T, K(==)>(s: seq<T>, key: T -> K, k: K): (x: T)
    requires HasKey(s, key, k)
    ensures x in s && key(x) == k
  {
    var init, last := s[..|s| - 1], s[|s| - 1];
    assert s == init + [last];
    HasKeyAppend(init, last, key, k);
    if HasKey(init, key, k) then FirstWith(init, key, k) else last
  }

  lemma {:induction false} SumForAbsent<T, K>(s: seq<T>, key: T -> K, amount: T -> int, k: K)
    requires !HasKey(s, key, k)
    ensures SumFor(s, key, amount, k) == 0
  {
    if s != [] {
      var init, x := s[..|s| - 1], s[|s| - 1];
      assert s == init + [x];
      HasKeyAppend(init, x, key, k);
      SumForAbsent(init, key, amount, k);
    }
  }

  /** Adding one member to the list adds its amount to the one listed key that is its own. */
  lemma {:induction false} SumOverAppend<T, K>(ks: seq<K>, s: seq<T>, x: T, key: T -> K, amount: T -> int)
    requires Distinct(ks)
    ensures SumOver(ks, s + [x], key, amount)
         == SumOver(ks, s, key, amount) + (if key(x) in ks then amount(x) else 0)
  {
    assert (s + [x])[..|s + [x]| - 1] == s;
    if ks != [] {
      var init := ks[..|ks| - 1];
      assert ks == init + [ks[|ks| - 1]];
      SumOverAppend(init, s, x, key, amount);
    }
  }

  /** Conservation: the group sums add up to the total of the list. */
  lemma {:induction false} GroupSumsConserveTotal<T, K(!new)>(s: seq<T>, key: T -> K, amount: T -> int)
    ensures SumOver(Groups(s, key), s, key, amount) == Total(s, amount)
  {
    if s != [] {
      var init, x := s[..|s| - 1], s[|s| - 1];
      assert s == init + [x];
      GroupSumsConserveTotal(init, key, amount);
      var g := Groups(init, key);
      SumOverAppend(g, init, x, key, amount);
      if key(x) !in g {
        SumForAbsent(init, key, amount, key(x));
      }
    }
  }

  /** How the groups, sums and first members change when one member is added at the end. */
  lemma ExtendOne<T, K(!new)>(s: seq<T>, x: T, key: T -> K, amount: T -> int)
    ensures Groups(s + [x], key) == Groups(s, key) + (if HasKey(s, key, key(x)) then [] else [key(x)])
    ensures forall k :: SumFor(s + [x], key, amount, k)
                     == SumFor(s, key, amount, k) + (if key(x) == k then amount(x) else 0)
    ensures forall k :: HasKey(s, key, k) ==> FirstWith(s + [x], key, k) == FirstWith(s, key, k)
    ensures !HasKey(s, key, key(x)) ==> FirstWith(s + [x], key, key(x)) == x
  {
    assert (s + [x])[..|s + [x]| - 1] == s;
    HasKeyAllAppend(s, x, key);
  }

  /** The dictionary after the `forEach` has consumed `s`, with its insertion order. */
  ghost predicate Summarises<T, K(!new), L>(s: seq<T>, key: T -> K, tag: T -> L, amount: T -> int,
                                      order: seq<K>, tags: map<K, L>, sums: map<K, int>)
  {
    && order == Groups(s, key)
    && (forall k :: k in sums <==> k in order)
    && (forall k :: k in tags <==> k in order)
    && (forall k :: k in order ==>
          sums[k] == SumFor(s, key, amount, k) && tags[k] == tag(FirstWith(s, key, k)))
  }

  /** One member through the `forEach`: open its key's entry if needed, then add its amount. */
  method GroupOne<T, K(==,!new), L>(ghost done: seq<T>, x: T, key: T -> K, tag: T -> L, amount: T -> int,
                                    order0: seq<K>, tags0: map<K, L>, sums0: map<K, int>)
    returns (order: seq<K>, tags: map<K, L>, sums: map<K, int>)
    requires Summarises(done, key, tag, amount, order0, tags0, sums0)
    ensures Summarises(done + [x], key, tag, amount, order, tags, sums)
  {
    var k := key(x);
    ExtendOne(done, x, key, amount);
    if k !in sums0 {
      SumForAbsent(done, key, amount, k);
      order := order0 + [k];
      tags := tags0[k := tag(x)];
      sums := sums0[k := amount(x)];
    } else {
      order, tags := order0, tags0;
      sums := sums0[k := sums0[k] + amount(x)];
    }
  }

  /**
   * The `forEach` that fills the dictionary: creates an entry tagged by the first member of
   * each key, then adds each member's amount to its entry.
   */
  method GroupBy<T, K(==,!new), L>(s: seq<T>, key: T -> K, tag: T -> L, amount: T -> int)
    returns (order: seq<K>, tags: map<K, L>, sums: map<K, int>)
    ensures order == Groups(s, key)
    ensures forall k :: k in sums <==> k in order
    ensures forall k :: k in tags <==> k in order
    ensures forall k :: k in order ==>
              sums[k] == SumFor(s, key, amount, k) && tags[k] == tag(FirstWith(s, key, k))
  {
    order, tags, sums := [], map[], map[];
    var i := 0;
    while i < |s|
      invariant 0 <= i <= |s|
      invariant Summarises(s[..i], key, tag, amount, order, tags, sums)
    {
      order, tags, sums := GroupOne(s[..i], s[i], key, tag, amount, order, tags, sums);
      assert s[..i + 1] == s[..i] + [s[i]];
      i := i + 1;
    }
    assert s[..|s|] == s;
  }

  /** A list of entries, one per listed key carrying that key's group sum, totals the sum over the keys. */
  lemma {:induction false} TotalOfEntries<E, T, K>(es: seq<E>, value: E -> int, ks: seq<K>, s: seq<T>, key: T -> K, amount: T -> int)
    requires |es| == |ks|
    requires forall i :: 0 <= i < |es| ==> value(es[i]) == SumFor(s, key, amount, ks[i])
    ensures Total(es, value) == SumOver(ks, s, key, amount)
  {
    if es != [] {
      TotalOfEntries(es[..|es| - 1], value, ks[..|ks| - 1], s, key, amount);
    }
  }

  /** The members of one group, in list order: the `payments` array a dictionary entry collects. */
  function Members<T, K(==)>(s: seq<T>, key: T -> K, k: K): (r: seq<T>)
    ensures forall i :: 0 <= i < |r| ==> key(r[i]) == k && r[i] in s
    ensures |r| == 0 <==> !HasKey(s, key, k)
  {
    if s == [] then []
    else
      var init, last := s[..|s| - 1], s[|s| - 1];
      assert s == init + [last];
      HasKeyAppend(init, last, key, k);
      Members(init, key, k) + (if key(last) == k then [last] else [])
  }

  /** A group's members add up to the group's sum. */
  lemma {:induction false} TotalOfMembers<T, K>(s: seq<T>, key: T -> K, amount: T -> int, k: K)
    ensures Total(Members(s, key, k), amount) == SumFor(s, key, amount, k)
  {
    if s != [] {
      var init, last := s[..|s| - 1], s[|s| - 1];
      TotalOfMembers(init, key, amount, k);
      TotalAppend(Members(init, key, k), if key(last) == k then [last] else [], amount);
      assert [last][..0] == [];
    }
  }

  lemma GroupsAppend<T, K(!new)>(s: seq<T>, x: T, key: T -> K)
    ensures Groups(s + [x], key) == Groups(s, key) + (if HasKey(s, key, key(x)) then [] else [key(x)])
  {
    assert (s + [x])[..|s + [x]| - 1] == s;
  }

  lemma FirstWithAppend<T, K>(s: seq<T>, x: T, key: T -> K, k: K)
    requires HasKey(s, key, k) || key(x) == k
    ensures HasKey(s + [x], key, k)
    ensures FirstWith(s + [x], key, k) == if HasKey(s, key, k) then FirstWith(s, key, k) else x
  {
    HasKeyAppend(s, x, key, k);
    assert (s + [x])[..|s + [x]| - 1] == s;
  }

  lemma MembersAppend<T, K>(s: seq<T>, x: T, key: T -> K, k: K)
    ensures Members(s + [x], key, k) == Members(s, key, k) + (if key(x) == k then [x] else [])
  {
    assert (s + [x])[..|s + [x]| - 1] == s;
  }

  /** Sum, over the given keys, of the total of each key's members. */
  function MembersTotal<T, K(==)>(ks: seq<K>, s: seq<T>, key: T -> K, amount: T -> int): int
  {
    if ks == [] then 0
    else MembersTotal(ks[..|ks| - 1], s, key, amount) + Total(Members(s, key, ks[|ks| - 1]), amount)
  }

  /** Sum, over the given keys, of the number of each key's members. */
  function MembersCount<T, K(==)>(ks: seq<K>, s: seq<T>, key: T -> K): int
  {
    if ks == [] then 0 else MembersCount(ks[..|ks| - 1], s, key) + |Members(s, key, ks[|ks| - 1])|
  }

  function One<T>(x: T): int { 1 }

  lemma {:induction false} TotalOne<T>(s: seq<T>)
    ensures Total(s, One) == |s|
  {
    if s != [] {
      TotalOne(s[..|s| - 1]);
    }
  }

  lemma {:induction false} MembersTotalIsSumOver<T, K>(ks: seq<K>, s: seq<T>, key: T -> K, amount: T -> int)
    ensures MembersTotal(ks, s, key, amount) == SumOver(ks, s, key, amount)
  {
    if ks != [] {
      MembersTotalIsSumOver(ks[..|ks| - 1], s, key, amount);
      TotalOfMembers(s, key, amount, ks[|ks| - 1]);
    }
  }

  lemma {:induction false} MembersCountIsSumOver<T, K>(ks: seq<K>, s: seq<T>, key: T -> K)
    ensures MembersCount(ks, s, key) == SumOver(ks, s, key, One)
  {
    if ks != [] {
      MembersCountIsSumOver(ks[..|ks| - 1], s, key);
      TotalOfMembers(s, key, One, ks[|ks| - 1]);
      TotalOne(Members(s, key, ks[|ks| - 1]));
    }
  }

  lemma {:induction false} SumOverNothing<T, K>(ks: seq<K>, key: T -> K, amount: T -> int)
    ensures SumOver(ks, [], key, amount) == 0
  {
    if ks != [] {
      SumOverNothing(ks[..|ks| - 1], key, amount);
    }
  }

  /** Over distinct keys that cover every member's key, the group sums add up to the list's total. */
  lemma {:induction false} SumOverCovering<T, K>(ks: seq<K>, s: seq<T>, key: T -> K, amount: T -> int)
    requires Distinct(ks)
    requires forall i :: 0 <= i < |s| ==> key(s[i]) in ks
    ensures SumOver(ks, s, key, amount) == Total(s, amount)
  {
    if s == [] {
      SumOverNothing(ks, key, amount);
    } else {
      var init, x := s[..|s| - 1], s[|s| - 1];
      assert s == init + [x];
      assert forall i :: 0 <= i < |init| ==> init[i] == s[i];
      SumOverCovering(ks, init, key, amount);
      SumOverAppend(ks, init, x, key, amount);
    }
  }

  /**
   * Partition: over distinct keys covering every member's key, each member falls in exactly one
   * group, so the groups' members add up to the list, in total and in number.
   */
  lemma MembersPartition<T, K>(ks: seq<K>, s: seq<T>, key: T -> K, amount: T -> int)
    requires Distinct(ks)
    requires forall i :: 0 <= i < |s| ==> key(s[i]) in ks
    ensures MembersTotal(ks, s, key, amount) == Total(s, amount)
    ensures MembersCount(ks, s, key) == |s|
  {
    MembersTotalIsSumOver(ks, s, key, amount);
    SumOverCovering(ks, s, key, amount);
    MembersCountIsSumOver(ks, s, key);
    SumOverCovering(ks, s, key, One);
    TotalOne(s);
  }
}
