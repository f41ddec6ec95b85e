/** Grouping a list by key in a keyed map, and summing optional numbers over the groups. */
module Grouping {
  import opened Prelude

  datatype Group<K, T> = Group(key: K, items: seq<T>)

  function IndexOfKey<K(==), T>(gs: seq<Group<K, T>>, k: K): (i: nat)
    ensures i <= |gs|
    ensures i < |gs| ==> gs[i].key == k
    ensures forall j :: 0 <= j < i ==> gs[j].key != k
  {
    if gs == [] then 0 else if gs[0].key == k then 0 else 1 + IndexOfKey(gs[1..], k)
  }

  /** `map.set(key, [...(map.get(key) ?? []), item])`. */
  function AddTo<K(==), T>(gs: seq<Group<K, T>>, k: K, x: T): seq<Group<K, T>> {
    var i := IndexOfKey(gs, k);
    if i < |gs| then gs[i := Group(k, gs[i].items + [x])] else gs + [Group(k, [x])]
  }

  function GroupBy<K(==), T>(key: T -> K, s: seq<T>): seq<Group<K, T>> {
    if s == [] then [] else AddTo(GroupBy(key, s[..|s| - 1]), key(s[|s| - 1]), s[|s| - 1])
  }

  /** Sum of the reported values; unreported when none is. */
  function Total<T>(f: T -> Option<int>, s: seq<T>): Option<int> {
    if s == [] then None else AddOptional(Total(f, s[..|s| - 1]), f(s[|s| - 1]))
  }

  /** Sum of the group sums. */
  function GrandTotal<K, T>(f: T -> Option<int>, gs: seq<Group<K, T>>): Option<int> {
    if gs == [] then None else AddOptional(GrandTotal(f, gs[..|gs| - 1]), Total(f, gs[|gs| - 1].items))
  }

  lemma {:induction false} GrandTotalUpdate<K, T>(f: T -> Option<int>, gs: seq<Group<K, T>>, i: nat, x: T)
    requires i < |gs|
    ensures GrandTotal(f, gs[i := Group(gs[i].key, gs[i].items + [x])]) == AddOptional(GrandTotal(f, gs), f(x))
  {
    var n := |gs| - 1;
    var hs := gs[i := Group(gs[i].key, gs[i].items + [x])];
    if i == n {
      assert hs[..n] == gs[..n];
      assert (gs[i].items + [x])[..|gs[i].items|] == gs[i].items;
    } else {
      GrandTotalUpdate(f, gs[..n], i, x);
      assert hs[..n] == gs[..n][i := Group(gs[i].key, gs[i].items + [x])];
    }
  }

  /** Regrouping conserves the total exactly, reported or not. */
  lemma {:induction false} GroupingConserves<K, T>(f: T -> Option<int>, key: T -> K, s: seq<T>)
    ensures GrandTotal(f, GroupBy(key, s)) == Total(f, s)
  {
    if s != [] {
      var n := |s| - 1;
      GroupingConserves(f, key, s[..n]);
      var gs := GroupBy(key, s[..n]);
      var k, x := key(s[n]), s[n];
      var i := IndexOfKey(gs, k);
      if i < |gs| {
        GrandTotalUpdate(f, gs, i, x);
      } else {
        assert (gs + [Group(k, [x])])[..|gs|] == gs;
        assert Total(f, [x]) == f(x) by { assert [x][..0] == []; }
      }
    }
  }

  ghost predicate GroupedOk<K, T>(key: T -> K, s: seq<T>, gs: seq<Group<K, T>>) {
    && (forall i, j :: 0 <= i < j < |gs| ==> gs[i].key != gs[j].key)
    && (forall i :: 0 <= i < |gs| ==> gs[i].items != [])
    && (forall i, x :: 0 <= i < |gs| && x in gs[i].items ==> key(x) == gs[i].key && x in s)
    && (forall x :: x in s ==> exists i :: 0 <= i < |gs| && x in gs[i].items)
  }

  /** Groups have distinct keys, none is empty, and together they hold exactly the items. */
  lemma {:induction false} GroupByMeaning<K, T>(key: T -> K, s: seq<T>)
    ensures GroupedOk(key, s, GroupBy(key, s))
  {
    if s != [] {
      var n := |s| - 1;
      GroupByMeaning(key, s[..n]);
      var gs, x := GroupBy(key, s[..n]), s[n];
      var hs := GroupBy(key, s);
      assert s == s[..n] + [x];
      var k := IndexOfKey(gs, key(x));
      forall y | y in s ensures exists i :: 0 <= i < |hs| && y in hs[i].items {
        if y in s[..n] {
          var i :| 0 <= i < |gs| && y in gs[i].items;
          assert y in hs[i].items;
        } else {
          assert y in hs[k].items;
        }
      }
    }
  }
}
