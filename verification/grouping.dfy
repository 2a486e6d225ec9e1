/** Grouping of amounts by key with Python dict semantics: keys appear in the
    order of their first occurrence, and each key collects its amounts in
    input order (`d.setdefault(k, []).append(x)` and the `defaultdict`
    accumulators of the source). An ordered dict is an association list
    `seq<(K, V)>` whose keys have no duplicates. */
module Grouping {
  import opened Sequences
  import opened Sums
  import opened Wrappers

  /** The keys of an association list, in order. */
  function Keys<K, V>(m: seq<(K, V)>): (ks: seq<K>)
    ensures |ks| == |m|
    ensures forall i :: 0 <= i < |m| ==> ks[i] == m[i].0
  {
    seq(|m|, i requires 0 <= i < |m| => m[i].0)
  }

  /** The amounts of the (key, amount) pairs, in order. */
  function Values<K>(pairs: seq<(K, real)>): (vs: seq<real>)
    ensures |vs| == |pairs|
    ensures forall i :: 0 <= i < |pairs| ==> vs[i] == pairs[i].1
  {
    seq(|pairs|, i requires 0 <= i < |pairs| => pairs[i].1)
  }

  /** The amounts whose key is `k`, in input order: what the source's loop
      collects under key `k`. */
  function AmountsOf<K(==)>(pairs: seq<(K, real)>, k: K): seq<real>
    decreases |pairs|
  {
    if pairs == [] then []
    else
      var last := pairs[|pairs| - 1];
      AmountsOf(pairs[..|pairs| - 1], k) + (if last.0 == k then [last.1] else [])
  }

  /** The amounts whose key is not `k`, in input order. */
  function AmountsOutside<K(==)>(pairs: seq<(K, real)>, k: K): seq<real>
    decreases |pairs|
  {
    if pairs == [] then []
    else
      var last := pairs[|pairs| - 1];
      AmountsOutside(pairs[..|pairs| - 1], k) + (if last.0 != k then [last.1] else [])
  }

  /** Index of key `k` in an association list that contains it. */
  function IndexOf<K(==), V>(m: seq<(K, V)>, k: K): (i: nat)
    requires k in Keys(m)
    ensures i < |m| && m[i].0 == k
    ensures forall j :: 0 <= j < i ==> m[j].0 != k
  {
    if m[0].0 == k then 0
    else
      assert k in Keys(m[1..]) by {
        var j :| 0 <= j < |m| && Keys(m)[j] == k;
        assert Keys(m[1..])[j - 1] == k;
      }
      1 + IndexOf(m[1..], k)
  }

  /** The value stored under `k`, if any: `d.get(k)`. */
  function Lookup<K(==), V>(m: seq<(K, V)>, k: K): (r: Option<V>)
    ensures r.Some? <==> k in Keys(m)
    ensures r.Some? ==> exists i :: 0 <= i < |m| && m[i] == (k, r.value)
  {
    if k in Keys(m) then Some(m[IndexOf(m, k)].1) else None
  }

  /** One loop step: append amount `a` to the list under key `k`, creating
      the key at the end when it is new. Every other group is unchanged. */
  function Insert<K(==)>(g: seq<(K, seq<real>)>, k: K, a: real): (g': seq<(K, seq<real>)>)
    requires NoDups(Keys(g))
    ensures k in Keys(g) ==> Keys(g') == Keys(g)
    ensures k !in Keys(g) ==> Keys(g') == Keys(g) + [k]
    ensures forall i :: 0 <= i < |g| && g[i].0 != k ==> g'[i] == g[i]
    ensures forall i :: 0 <= i < |g'| && g'[i].0 == k ==> g'[i].1 == (if k in Keys(g) then g[i].1 else []) + [a]
  {
    if k in Keys(g) then
      var i := IndexOf(g, k);
      var g' := g[i := (k, g[i].1 + [a])];
      assert Keys(g') == Keys(g);
      g'
    else
      var g' := g + [(k, [a])];
      assert Keys(g') == Keys(g) + [k];
      g'
  }

  /** Inserting one amount adds its part to the group total and one to the
      group size. */
  lemma InsertTotals<K>(f: real -> real, g: seq<(K, seq<real>)>, k: K, a: real)
    requires NoDups(Keys(g))
    ensures GroupTotal(f, Insert(g, k, a)) == GroupTotal(f, g) + f(a)
    ensures GroupSize(Insert(g, k, a)) == GroupSize(g) + 1
  {
    if k in Keys(g) {
      ExtendGroupTotals(f, g, IndexOf(g, k), k, a);
    } else {
      assert (g + [(k, [a])])[..|g|] == g;
      assert SumOf(f, [a]) == f(a) by {
        assert [a][..0] == [];
      }
    }
  }

  /** Groups the amounts by key. The keys come out in first-occurrence order
      and without duplicates, every key holds exactly the amounts of its
      pairs in input order, and no group is empty. */
  function Group<K(==,!new)>(pairs: seq<(K, real)>): (g: seq<(K, seq<real>)>)
    ensures Keys(g) == Dedup(Keys(pairs))
    ensures forall i :: 0 <= i < |g| ==> g[i].1 == AmountsOf(pairs, g[i].0)
    ensures forall i :: 0 <= i < |g| ==> |g[i].1| >= 1
    decreases |pairs|
  {
    if pairs == [] then []
    else
      var init := pairs[..|pairs| - 1];
      var last := pairs[|pairs| - 1];
      assert Keys(pairs) == Keys(init) + [last.0];
      if last.0 !in Keys(init) then
        AbsentKeyHasNoAmounts(init, last.0);
        Insert(Group(init), last.0, last.1)
      else
        Insert(Group(init), last.0, last.1)
  }

  /** A key that never occurs collects no amounts. */
  lemma {:induction false} AbsentKeyHasNoAmounts<K>(pairs: seq<(K, real)>, k: K)
    requires k !in Keys(pairs)
    ensures AmountsOf(pairs, k) == []
    decreases |pairs|
  {
    if pairs != [] {
      var init := pairs[..|pairs| - 1];
      assert Keys(init) == Keys(pairs)[..|pairs| - 1];
      AbsentKeyHasNoAmounts(init, k);
    }
  }

  /** Splitting by one key loses nothing: every part-sum over all amounts is
      the part-sum over the key's amounts plus that over the others. */
  lemma {:induction false} AmountsPartition<K>(f: real -> real, pairs: seq<(K, real)>, k: K)
    ensures SumOf(f, Values(pairs)) == SumOf(f, AmountsOf(pairs, k)) + SumOf(f, AmountsOutside(pairs, k))
    decreases |pairs|
  {
    if pairs != [] {
      var init := pairs[..|pairs| - 1];
      var last := pairs[|pairs| - 1];
      assert Values(pairs)[..|pairs| - 1] == Values(init);
      AmountsPartition(f, init, k);
      SumOfAppend(f, AmountsOf(init, k), if last.0 == k then [last.1] else []);
      SumOfAppend(f, AmountsOutside(init, k), if last.0 != k then [last.1] else []);
    }
  }

  /** Sum of `f` over every group's amounts, group by group. */
  function GroupTotal<K>(f: real -> real, g: seq<(K, seq<real>)>): real
    decreases |g|
  {
    if g == [] then 0.0 else GroupTotal(f, g[..|g| - 1]) + SumOf(f, g[|g| - 1].1)
  }

  /** Number of amounts held by all groups together. */
  function GroupSize<K>(g: seq<(K, seq<real>)>): nat
    decreases |g|
  {
    if g == [] then 0 else GroupSize(g[..|g| - 1]) + |g[|g| - 1].1|
  }

  /** Appending one amount to group `i` adds its part to the group total and
      one to the group size. */
  lemma {:induction false} ExtendGroupTotals<K>(f: real -> real, g: seq<(K, seq<real>)>, i: nat, k: K, a: real)
    requires i < |g|
    ensures GroupTotal(f, g[i := (k, g[i].1 + [a])]) == GroupTotal(f, g) + f(a)
    ensures GroupSize(g[i := (k, g[i].1 + [a])]) == GroupSize(g) + 1
    decreases |g|
  {
    var g' := g[i := (k, g[i].1 + [a])];
    assert SumOf(f, g[i].1 + [a]) == SumOf(f, g[i].1) + f(a) by {
      assert (g[i].1 + [a])[..|g[i].1|] == g[i].1;
    }
    if i < |g| - 1 {
      assert g'[..|g| - 1] == g[..|g| - 1][i := (k, g[i].1 + [a])];
      ExtendGroupTotals(f, g[..|g| - 1], i, k, a);
    } else {
      assert g'[..|g| - 1] == g[..|g| - 1];
    }
  }

  /** The groups together hold every amount exactly once: for every part
      function, the sum over the groups equals the sum over the input, and
      the group sizes add up to the number of pairs. */
  lemma {:induction false} GroupsPartition<K(!new)>(f: real -> real, pairs: seq<(K, real)>)
    ensures GroupTotal(f, Group(pairs)) == SumOf(f, Values(pairs))
    ensures GroupSize(Group(pairs)) == |pairs|
    decreases |pairs|
  {
    if pairs != [] {
      var init := pairs[..|pairs| - 1];
      var last := pairs[|pairs| - 1];
      assert Values(pairs)[..|pairs| - 1] == Values(init);
      GroupsPartition(f, init);
      InsertTotals(f, Group(init), last.0, last.1);
    }
  }

  /** `d[k] = v` on an ordered dict: an existing key keeps its place and
      gets the new value, a new key is appended. */
  function Put<K(==), V>(m: seq<(K, V)>, k: K, v: V): (r: seq<(K, V)>)
    requires NoDups(Keys(m))
    ensures NoDups(Keys(r))
    ensures k in Keys(m) ==> Keys(r) == Keys(m)
    ensures k !in Keys(m) ==> Keys(r) == Keys(m) + [k]
    ensures forall i :: 0 <= i < |m| && m[i].0 != k ==> r[i] == m[i]
    ensures forall i :: 0 <= i < |r| && r[i].0 == k ==> r[i].1 == v
  {
    if k in Keys(m) then
      var i := IndexOf(m, k);
      var r := m[i := (k, v)];
      assert Keys(r) == Keys(m) by {
        assert forall j :: 0 <= j < |r| ==> Keys(r)[j] == Keys(m)[j];
      }
      r
    else
      var r := m + [(k, v)];
      assert Keys(r) == Keys(m) + [k];
      r
  }

  /** Deleting entries from an association list deletes their keys. */
  lemma {:induction false} SubsequenceKeys<K, V>(a: seq<(K, V)>, b: seq<(K, V)>)
    requires IsSubsequence(a, b)
    ensures IsSubsequence(Keys(a), Keys(b))
    decreases |b|
  {
    if a != [] {
      assert Keys(a)[1..] == Keys(a[1..]);
      assert Keys(b)[1..] == Keys(b[1..]);
      if a[0] == b[0] && IsSubsequence(a[1..], b[1..]) {
        SubsequenceKeys(a[1..], b[1..]);
      } else {
        SubsequenceKeys(a, b[1..]);
      }
    }
  }

  /** Sum of `f` over the amounts of each key of `ks` in turn. */
  function KeyedTotal<K(==)>(f: real -> real, ks: seq<K>, pairs: seq<(K, real)>): real
    decreases |ks|
  {
    if ks == [] then 0.0
    else KeyedTotal(f, ks[..|ks| - 1], pairs) + SumOf(f, AmountsOf(pairs, ks[|ks| - 1]))
  }

  lemma {:induction false} KeyedTotalEmpty<K>(f: real -> real, ks: seq<K>)
    ensures KeyedTotal(f, ks, []) == 0.0
    decreases |ks|
  {
    if ks != [] {
      KeyedTotalEmpty(f, ks[..|ks| - 1]);
    }
  }

  /** One more pair adds its part to the total of its own key only. */
  lemma {:induction false} KeyedTotalStep<K>(f: real -> real, ks: seq<K>, pairs: seq<(K, real)>, k: K, a: real)
    requires NoDups(ks)
    ensures KeyedTotal(f, ks, pairs + [(k, a)]) == KeyedTotal(f, ks, pairs) + (if k in ks then f(a) else 0.0)
    decreases |ks|
  {
    if ks != [] {
      var init := ks[..|ks| - 1];
      var last := ks[|ks| - 1];
      assert NoDups(init);
      KeyedTotalStep(f, init, pairs, k, a);
      assert (pairs + [(k, a)])[..|pairs|] == pairs;
      SumOfAppend(f, AmountsOf(pairs, last), if last == k then [a] else []);
      assert SumOf(f, [a]) == f(a) by {
        assert [a][..0] == [];
      }
      assert k in ks <==> k in init || k == last by {
        assert ks == init + [last];
      }
      assert last !in init;
    }
  }

  /** When `ks` lists every key once (and maybe more keys), the totals of
      its keys add up to the total of all pairs. */
  lemma {:induction false} KeyedTotalCovers<K>(f: real -> real, ks: seq<K>, pairs: seq<(K, real)>)
    requires NoDups(ks)
    requires forall i :: 0 <= i < |pairs| ==> pairs[i].0 in ks
    ensures KeyedTotal(f, ks, pairs) == SumOf(f, Values(pairs))
    decreases |pairs|
  {
    if pairs == [] {
      KeyedTotalEmpty(f, ks);
    } else {
      var init := pairs[..|pairs| - 1];
      var last := pairs[|pairs| - 1];
      KeyedTotalCovers(f, ks, init);
      assert pairs == init + [last];
      KeyedTotalStep(f, ks, init, last.0, last.1);
      assert Values(pairs)[..|pairs| - 1] == Values(init);
    }
  }
}
