/** Grouping a list by a key through a map of slices, for every order in which the map
    yields its entries. */
module Batching {
  // ----- Sequences -----

  function Keep<T>(items: seq<T>, p: T -> bool): seq<T> {
    if items == [] then [] else
    var kept := Keep(items[..|items| - 1], p);
    if p(items[|items| - 1]) then kept + [items[|items| - 1]] else kept
  }

  /** The items with one key, in the order they came. */
  function With<T, K(==)>(items: seq<T>, key: T -> K, k: K): seq<T> {
    Keep(items, x => key(x) == k)
  }

  /** The items with one of these keys. */
  function Among<T, K(==)>(items: seq<T>, key: T -> K, ks: set<K>): seq<T> {
    Keep(items, x => key(x) in ks)
  }

  function Keys<T, K(==)>(items: seq<T>, key: T -> K): set<K> {
    set i | 0 <= i < |items| :: key(items[i])
  }

  function Sum<T>(items: seq<T>, f: T -> int): int {
    if items == [] then 0 else Sum(items[..|items| - 1], f) + f(items[|items| - 1])
  }

  function Flat<T>(batches: seq<seq<T>>): seq<T> {
    if batches == [] then [] else Flat(batches[..|batches| - 1]) + batches[|batches| - 1]
  }

  lemma {:induction false} KeepIn<T>(items: seq<T>, p: T -> bool, x: T)
    ensures x in Keep(items, p) <==> x in items && p(x)
  {
    if items != [] {
      KeepIn(items[..|items| - 1], p, x);
      assert items == items[..|items| - 1] + [items[|items| - 1]];
    }
  }

  lemma {:induction false} KeepAppend<T>(a: seq<T>, b: seq<T>, p: T -> bool)
    ensures Keep(a + b, p) == Keep(a, p) + Keep(b, p)
  {
    if b == [] {
      assert a + b == a;
    } else {
      KeepAppend(a, b[..|b| - 1], p);
      assert (a + b)[..|a + b| - 1] == a + b[..|b| - 1];
    }
  }

  // ----- Grouping -----

  /** What the map from key to slice holds once all items are in it. */
  ghost predicate Groups<T(!new), K(!new)>(groups: map<K, seq<T>>, items: seq<T>, key: T -> K) {
    && groups.Keys == Keys(items, key)
    && forall k :: k in groups ==> groups[k] == With(items, key, k)
  }

  /** The append loop over one list of rows, into a map that may already hold others. */
  method GroupInto<T(!new), K(!new, ==)>(
    groups: map<K, seq<T>>, ghost earlier: seq<T>, items: seq<T>, wanted: T -> bool, key: T -> K)
    returns (all: map<K, seq<T>>)
    requires Groups(groups, earlier, key)
    ensures Groups(all, earlier + Keep(items, wanted), key)
  {
    all := groups;
    assert earlier + Keep(items[..0], wanted) == earlier;
    for i := 0 to |items|
      invariant Groups(all, earlier + Keep(items[..i], wanted), key)
    {
      var x := items[i];
      assert items[..i + 1][..i] == items[..i];
      if wanted(x) {
        ghost var before := earlier + Keep(items[..i], wanted);
        GroupsAppend(all, before, key, x);
        all := all[key(x) := (if key(x) in all then all[key(x)] else []) + [x]];
        assert before + [x] == earlier + Keep(items[..i + 1], wanted);
      }
    }
    assert items[..|items|] == items;
  }

  lemma GroupsAppend<T(!new), K(!new)>(groups: map<K, seq<T>>, items: seq<T>, key: T -> K, x: T)
    requires Groups(groups, items, key)
    ensures Groups(groups[key(x) := (if key(x) in groups then groups[key(x)] else []) + [x]], items + [x], key)
  {
    var groups' := groups[key(x) := (if key(x) in groups then groups[key(x)] else []) + [x]];
    assert (items + [x])[..|items|] == items;
    assert Keys(items + [x], key) == Keys(items, key) + {key(x)} by {
      forall k | k in Keys(items, key) + {key(x)} ensures k in Keys(items + [x], key) {
        if k == key(x) {
          assert key((items + [x])[|items|]) == k;
        } else {
          var i :| 0 <= i < |items| && key(items[i]) == k;
          assert key((items + [x])[i]) == k;
        }
      }
    }
    if key(x) !in groups {
      NoneWith(items, key, key(x));
    }
  }

  lemma {:induction false} NoneWith<T, K>(items: seq<T>, key: T -> K, k: K)
    requires k !in Keys(items, key)
    ensures With(items, key, k) == []
  {
    if items != [] {
      assert key(items[|items| - 1]) in Keys(items, key);
      forall k' | k' in Keys(items[..|items| - 1], key) ensures k' in Keys(items, key) {
        var i :| 0 <= i < |items| - 1 && key(items[..|items| - 1][i]) == k';
        assert key(items[i]) == k';
      }
      NoneWith(items[..|items| - 1], key, k);
    }
  }

  ghost predicate HasBatch<T(!new), K(!new)>(batches: seq<seq<T>>, key: T -> K, k: K)
    requires forall b :: 0 <= b < |batches| ==> batches[b] != []
  {
    exists b :: 0 <= b < |batches| && key(batches[b][0]) == k
  }

  /** Batches with pairwise distinct keys, each holding, in their order, all the items with
      its key, and none of them empty; no item is left out. */
  ghost predicate IsGrouping<T(!new), K(!new)>(batches: seq<seq<T>>, items: seq<T>, key: T -> K) {
    && WholeBatches(batches, items, key)
    && (forall b, c :: 0 <= b < c < |batches| ==> key(batches[b][0]) != key(batches[c][0]))
    && (forall i :: 0 <= i < |items| ==> HasBatch(batches, key, key(items[i])))
  }

  ghost predicate WholeBatches<T(!new), K(!new)>(batches: seq<seq<T>>, items: seq<T>, key: T -> K) {
    forall b :: 0 <= b < |batches| ==> batches[b] != [] && batches[b] == With(items, key, key(batches[b][0]))
  }

  /** An order in which a map may yield its keys: each of them once. */
  ghost predicate IsOrder<K(!new)>(order: seq<K>, keys: set<K>) {
    && (forall i, j :: 0 <= i < j < |order| ==> order[i] != order[j])
    && (forall k :: k in keys <==> k in order)
  }

  /** Any such order. */
  method AnyOrder<K(!new, ==)>(keys: set<K>) returns (order: seq<K>)
    ensures IsOrder(order, keys)
  {
    order := [];
    var left := keys;
    while left != {}
      invariant left <= keys && IsOrder(order, keys - left)
      decreases left
    {
      var k :| k in left;
      order, left := order + [k], left - {k};
    }
  }

  /** The second loop: the slices of the map, in whatever order it yields them. */
  method Collect<T(!new), K(!new, ==)>(groups: map<K, seq<T>>, ghost items: seq<T>, ghost key: T -> K)
    returns (batches: seq<seq<T>>)
    requires Groups(groups, items, key)
    ensures IsGrouping(batches, items, key)
  {
    var order := AnyOrder(groups.Keys);
    batches := [];
    for i := 0 to |order|
      invariant |batches| == i && forall b :: 0 <= b < i ==> batches[b] == With(items, key, order[b])
    {
      assert order[i] in order;
      batches := batches + [groups[order[i]]];
    }
    OrderedIsGrouping(batches, order, items, key);
  }

  lemma OrderedIsGrouping<T(!new), K(!new)>(batches: seq<seq<T>>, order: seq<K>, items: seq<T>, key: T -> K)
    requires IsOrder(order, Keys(items, key)) && |batches| == |order|
    requires forall b :: 0 <= b < |order| ==> batches[b] == With(items, key, order[b])
    ensures IsGrouping(batches, items, key)
  {
    forall b | 0 <= b < |batches| ensures batches[b] != [] && key(batches[b][0]) == order[b] {
      assert order[b] in order;
      SomeWith(items, key, order[b]);
    }
    forall i | 0 <= i < |items| ensures HasBatch(batches, key, key(items[i])) {
      assert key(items[i]) in Keys(items, key);
      var b :| 0 <= b < |order| && order[b] == key(items[i]);
      assert key(batches[b][0]) == key(items[i]);
    }
  }

  lemma {:induction false} SomeWith<T, K>(items: seq<T>, key: T -> K, k: K)
    requires k in Keys(items, key)
    ensures With(items, key, k) != []
    ensures forall i :: 0 <= i < |With(items, key, k)| ==> key(With(items, key, k)[i]) == k
  {
    var i :| 0 <= i < |items| && key(items[i]) == k;
    KeepIn(items, x => key(x) == k, items[i]);
    forall j | 0 <= j < |With(items, key, k)| ensures key(With(items, key, k)[j]) == k {
      KeepIn(items, x => key(x) == k, With(items, key, k)[j]);
    }
  }

  /** A batch holds items of the list with its key only. */
  lemma Grouped<T(!new), K(!new)>(batches: seq<seq<T>>, items: seq<T>, key: T -> K, b: nat, i: nat)
    requires IsGrouping(batches, items, key) && b < |batches| && i < |batches[b]|
    ensures batches[b][i] in items && key(batches[b][i]) == key(batches[b][0])
  {
    var k := key(batches[b][0]);
    assert batches[b] == With(items, key, k);
    KeepIn(items, x => key(x) == k, batches[b][i]);
  }

  // ----- Conservation -----

  ghost function BatchKeysOf<T(!new), K(!new)>(batches: seq<seq<T>>, key: T -> K): set<K>
    requires forall b :: 0 <= b < |batches| ==> batches[b] != []
  {
    set b | 0 <= b < |batches| :: key(batches[b][0])
  }

  lemma BatchKeysAppend<T(!new), K(!new)>(batches: seq<seq<T>>, batch: seq<T>, key: T -> K)
    requires batch != [] && forall b :: 0 <= b < |batches| ==> batches[b] != []
    ensures BatchKeysOf(batches + [batch], key) == BatchKeysOf(batches, key) + {key(batch[0])}
  {
    var more := batches + [batch];
    assert key(more[|batches|][0]) == key(batch[0]);
    forall k | k in BatchKeysOf(batches, key) ensures k in BatchKeysOf(more, key) {
      var b :| 0 <= b < |batches| && key(batches[b][0]) == k;
      assert key(more[b][0]) == k;
    }
  }

  lemma {:induction false} SumAppend<T>(a: seq<T>, b: seq<T>, f: T -> int)
    ensures Sum(a + b, f) == Sum(a, f) + Sum(b, f)
  {
    if b == [] {
      assert a + b == a;
    } else {
      SumAppend(a, b[..|b| - 1], f);
      assert (a + b)[..|a + b| - 1] == a + b[..|b| - 1];
    }
  }

  lemma {:induction false} SumSplits<T(!new)>(items: seq<T>, p: T -> bool, q: T -> bool, either: T -> bool, f: T -> int)
    requires forall x :: either(x) <==> p(x) || q(x)
    requires forall x :: !(p(x) && q(x))
    ensures Sum(Keep(items, either), f) == Sum(Keep(items, p), f) + Sum(Keep(items, q), f)
  {
    if items != [] {
      var x := items[|items| - 1];
      SumSplits(items[..|items| - 1], p, q, either, f);
      SumAppend(Keep(items[..|items| - 1], either), [x], f);
      SumAppend(Keep(items[..|items| - 1], p), [x], f);
      SumAppend(Keep(items[..|items| - 1], q), [x], f);
    }
  }

  lemma {:induction false} KeepAll<T>(items: seq<T>, p: T -> bool)
    requires forall i :: 0 <= i < |items| ==> p(items[i])
    ensures Keep(items, p) == items
  {
    if items != [] {
      KeepAll(items[..|items| - 1], p);
    }
  }

  lemma {:induction false} KeepNone<T>(items: seq<T>, p: T -> bool)
    requires forall i :: 0 <= i < |items| ==> !p(items[i])
    ensures Keep(items, p) == []
  {
    if items != [] {
      KeepNone(items[..|items| - 1], p);
    }
  }

  lemma AmongNone<T(!new), K(!new)>(items: seq<T>, key: T -> K)
    ensures Among(items, key, {}) == []
  {
    var ks: set<K> := {};
    KeepNone(items, x => key(x) in ks);
  }

  lemma AmongAll<T(!new), K(!new)>(items: seq<T>, key: T -> K, ks: set<K>)
    requires forall i :: 0 <= i < |items| ==> key(items[i]) in ks
    ensures Among(items, key, ks) == items
  {
    KeepAll(items, x => key(x) in ks);
  }

  lemma SumAmong<T(!new), K(!new)>(items: seq<T>, key: T -> K, ks: set<K>, k: K, f: T -> int)
    requires k !in ks
    ensures Sum(Among(items, key, ks + {k}), f) == Sum(Among(items, key, ks), f) + Sum(With(items, key, k), f)
  {
    var more := ks + {k};
    SumSplits(items, x => key(x) in ks, x => key(x) == k, x => key(x) in more, f);
  }

  lemma {:induction false} PrefixConserves<T(!new), K(!new)>(
    batches: seq<seq<T>>, items: seq<T>, key: T -> K, f: T -> int, n: nat)
    requires IsGrouping(batches, items, key) && n <= |batches|
    ensures Sum(Flat(batches[..n]), f) == Sum(Among(items, key, BatchKeysOf(batches[..n], key)), f)
  {
    if n == 0 {
      AmongNone(items, key);
      assert BatchKeysOf(batches[..0], key) == {};
    } else {
      var k := key(batches[n - 1][0]);
      var ks := BatchKeysOf(batches[..n - 1], key);
      PrefixConserves(batches, items, key, f, n - 1);
      SumAppend(Flat(batches[..n - 1]), batches[n - 1], f);
      assert batches[..n][..n - 1] == batches[..n - 1];
      BatchKeysAppend(batches[..n - 1], batches[n - 1], key);
      assert batches[..n] == batches[..n - 1] + [batches[n - 1]];
      assert BatchKeysOf(batches[..n], key) == ks + {k};
      SumAmong(items, key, ks, k, f);
    }
  }

  /** Grouping conserves any total taken over the items. */
  lemma GroupingConserves<T(!new), K(!new)>(batches: seq<seq<T>>, items: seq<T>, key: T -> K, f: T -> int)
    requires IsGrouping(batches, items, key)
    ensures Sum(Flat(batches), f) == Sum(items, f)
  {
    PrefixConserves(batches, items, key, f, |batches|);
    assert batches[..|batches|] == batches;
    forall i | 0 <= i < |items| ensures key(items[i]) in BatchKeysOf(batches, key) {
      assert HasBatch(batches, key, key(items[i]));
    }
    AmongAll(items, key, BatchKeysOf(batches, key));
  }

  lemma {:induction false} CountIsSum<T>(items: seq<T>, x: T)
    ensures multiset(items)[x] == Sum(items, y => if y == x then 1 else 0)
  {
    if items != [] {
      CountIsSum(items[..|items| - 1], x);
      assert items == items[..|items| - 1] + [items[|items| - 1]];
    }
  }

  /** The batches together are the items, each as often as it came. */
  lemma GroupingIsAPermutation<T(!new), K(!new)>(batches: seq<seq<T>>, items: seq<T>, key: T -> K)
    requires IsGrouping(batches, items, key)
    ensures multiset(Flat(batches)) == multiset(items)
  {
    forall x ensures multiset(Flat(batches))[x] == multiset(items)[x] {
      GroupingConserves(batches, items, key, y => if y == x then 1 else 0);
      CountIsSum(Flat(batches), x);
      CountIsSum(items, x);
    }
  }

  lemma CountAmong<T(!new), K(!new)>(items: seq<T>, key: T -> K, ks: set<K>, k: K)
    requires k !in ks
    ensures multiset(Among(items, key, ks + {k})) == multiset(Among(items, key, ks)) + multiset(With(items, key, k))
  {
    forall x ensures multiset(Among(items, key, ks + {k}))[x] ==
        (multiset(Among(items, key, ks)) + multiset(With(items, key, k)))[x] {
      SumAmong(items, key, ks, k, y => if y == x then 1 else 0);
      CountIsSum(Among(items, key, ks + {k}), x);
      CountIsSum(Among(items, key, ks), x);
      CountIsSum(With(items, key, k), x);
    }
  }

  lemma {:induction false} KeepCount<T(!new)>(items: seq<T>, p: T -> bool, x: T)
    ensures multiset(Keep(items, p))[x] == if p(x) then multiset(items)[x] else 0
  {
    if items != [] {
      KeepCount(items[..|items| - 1], p, x);
      assert items == items[..|items| - 1] + [items[|items| - 1]];
    }
  }

  lemma AmongCount<T(!new), K(!new)>(items: seq<T>, key: T -> K, ks: set<K>, x: T)
    ensures multiset(Among(items, key, ks))[x] == if key(x) in ks then multiset(items)[x] else 0
  {
    KeepCount(items, y => key(y) in ks, x);
  }
}
