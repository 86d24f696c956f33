/** `groupby(key)['amount'].sum()`: keyed amounts summed per distinct key.
    Used for categories, months and satisfaction scores. */
module Grouping {
  import opened Sorting

  /** One keyed amount: a row reduced to its grouping key and its amount. */
  datatype Entry<K> = Entry(key: K, amount: int)

  function Total<K>(es: seq<Entry<K>>): int {
    if es == [] then 0 else Total(es[..|es| - 1]) + es[|es| - 1].amount
  }

  /** The sum of the amounts carrying key `k`. */
  function SumFor<K(==)>(es: seq<Entry<K>>, k: K): int {
    if es == [] then 0
    else SumFor(es[..|es| - 1], k) + (if es[|es| - 1].key == k then es[|es| - 1].amount else 0)
  }

  ghost predicate HasKey<K>(es: seq<Entry<K>>, k: K) {
    exists i :: 0 <= i < |es| && es[i].key == k
  }

  /** The distinct keys, in the order they are first seen. */
  function KeysOf<K(==)>(es: seq<Entry<K>>): (ks: seq<K>)
    ensures Distinct(ks)
    ensures forall i :: 0 <= i < |es| ==> es[i].key in ks
    ensures forall j :: 0 <= j < |ks| ==> HasKey(es, ks[j])
  {
    if es == [] then []
    else
      var init := es[..|es| - 1];
      var ks := KeysOf(init);
      var k := es[|es| - 1].key;
      assert forall j :: 0 <= j < |ks| ==> HasKey(es, ks[j]) by {
        forall j | 0 <= j < |ks| ensures HasKey(es, ks[j]) {
          var i :| 0 <= i < |init| && init[i].key == ks[j];
          assert es[i].key == ks[j];
        }
      }
      if k in ks then ks else ks + [k]
  }

  function GroupsOf<K(==)>(ks: seq<K>, es: seq<Entry<K>>): (gs: seq<Entry<K>>)
    ensures |gs| == |ks|
    ensures forall j :: 0 <= j < |ks| ==> gs[j] == Entry(ks[j], SumFor(es, ks[j]))
  {
    if ks == [] then []
    else GroupsOf(ks[..|ks| - 1], es) + [Entry(ks[|ks| - 1], SumFor(es, ks[|ks| - 1]))]
  }

  /** What pandas' grouped sum promises: one entry per distinct key present, carrying
      that key's total, and the totals adding up to the grand total. */
  ghost predicate IsGrouping<K>(gs: seq<Entry<K>>, es: seq<Entry<K>>) {
    && (forall i, j :: 0 <= i < j < |gs| ==> gs[i].key != gs[j].key)
    && (forall j :: 0 <= j < |gs| ==> HasKey(es, gs[j].key) && gs[j].amount == SumFor(es, gs[j].key))
    && (forall i :: 0 <= i < |es| ==> HasKey(gs, es[i].key))
    && Total(gs) == Total(es)
  }

  /** The grouped sums in first-seen key order. */
  function Grouped<K(==)>(es: seq<Entry<K>>): (gs: seq<Entry<K>>)
    ensures IsGrouping(gs, es)
  {
    var ks := KeysOf(es);
    var gs := GroupsOf(ks, es);
    GroupedTotal(es);
    assert forall i :: 0 <= i < |es| ==> HasKey(gs, es[i].key) by {
      forall i | 0 <= i < |es| ensures HasKey(gs, es[i].key) {
        var j :| 0 <= j < |ks| && ks[j] == es[i].key;
        assert gs[j].key == es[i].key;
      }
    }
    gs
  }

  lemma {:induction false} SumForAbsent<K>(es: seq<Entry<K>>, k: K)
    requires !HasKey(es, k)
    ensures SumFor(es, k) == 0
  {
    if es != [] {
      var init := es[..|es| - 1];
      SumForAbsent(init, k);
    }
  }

  lemma {:induction false} GroupsStep<K>(ks: seq<K>, es: seq<Entry<K>>, e: Entry<K>)
    requires Distinct(ks)
    ensures Total(GroupsOf(ks, es + [e])) == Total(GroupsOf(ks, es)) + (if e.key in ks then e.amount else 0)
  {
    if ks != [] {
      var init := ks[..|ks| - 1];
      var k := ks[|ks| - 1];
      GroupsStep(init, es, e);
      assert (es + [e])[..|es|] == es;
      assert GroupsOf(ks, es + [e])[..|init|] == GroupsOf(init, es + [e]);
      assert GroupsOf(ks, es)[..|init|] == GroupsOf(init, es);
      assert e.key in ks <==> e.key in init || e.key == k;
      assert k !in init;
    }
  }

  /** Summing the per-key totals gives the total of all entries. */
  lemma {:induction false} GroupedTotal<K>(es: seq<Entry<K>>)
    ensures Total(GroupsOf(KeysOf(es), es)) == Total(es)
  {
    if es != [] {
      var init := es[..|es| - 1];
      var e := es[|es| - 1];
      assert es == init + [e];
      GroupedTotal(init);
      var ks := KeysOf(init);
      GroupsStep(ks, init, e);
      assert Total(GroupsOf(ks, es)) == Total(init) + (if e.key in ks then e.amount else 0);
      if e.key !in ks {
        assert KeysOf(es) == ks + [e.key];
        assert !HasKey(init, e.key);
        SumForAbsent(init, e.key);
        assert SumFor(es, e.key) == e.amount;
        GroupsAppendKey(ks, e.key, es);
      } else {
        assert KeysOf(es) == ks;
      }
    }
  }

  lemma {:induction false} GroupsAppendKey<K>(ks: seq<K>, k: K, es: seq<Entry<K>>)
    ensures Total(GroupsOf(ks + [k], es)) == Total(GroupsOf(ks, es)) + SumFor(es, k)
  {
    assert (ks + [k])[..|ks|] == ks;
    var gs := GroupsOf(ks + [k], es);
    assert gs == GroupsOf(ks, es) + [Entry(k, SumFor(es, k))];
    assert gs[..|gs| - 1] == GroupsOf(ks, es);
  }

  lemma {:induction false} TotalConcat<K>(a: seq<Entry<K>>, b: seq<Entry<K>>)
    ensures Total(a + b) == Total(a) + Total(b)
  {
    if b != [] {
      TotalConcat(a, b[..|b| - 1]);
      assert (a + b)[..|a + b| - 1] == a + b[..|b| - 1];
    } else {
      assert a + b == a;
    }
  }

  /** Reordering entries does not change their total. */
  lemma {:induction false} TotalPermutation<K>(a: seq<Entry<K>>, b: seq<Entry<K>>)
    requires multiset(a) == multiset(b)
    ensures Total(a) == Total(b)
  {
    if a != [] {
      var x := a[|a| - 1];
      var init := a[..|a| - 1];
      assert a == init + [x];
      assert x in multiset(b);
      var i :| 0 <= i < |b| && b[i] == x;
      var rest := b[..i] + b[i + 1..];
      assert b == b[..i] + [x] + b[i + 1..];
      assert multiset(a) == multiset(init) + multiset{x};
      assert multiset(b) == multiset(b[..i]) + multiset{x} + multiset(b[i + 1..]);
      assert multiset(rest) == multiset(b[..i]) + multiset(b[i + 1..]);
      assert multiset(init) == multiset(a) - multiset{x};
      assert multiset(rest) == multiset(b) - multiset{x};
      TotalPermutation(init, rest);
      TotalConcat(b[..i] + [x], b[i + 1..]);
      TotalConcat(b[..i], [x]);
      TotalConcat(b[..i], b[i + 1..]);
      assert Total([x]) == x.amount by {
        assert [x][..0] == [];
      }
    }
  }

  /** A grouping listed in another order (as `sort_values` does) is still a grouping. */
  lemma {:induction false} GroupingPermutation<K>(gs: seq<Entry<K>>, hs: seq<Entry<K>>, es: seq<Entry<K>>)
    requires IsGrouping(gs, es) && multiset(gs) == multiset(hs)
    ensures IsGrouping(hs, es)
  {
    KeysCoveredPermutation(gs, hs, es);
    TotalPermutation(gs, hs);
    SumsPermutation(gs, hs, es);
    assert Distinct(gs);
    DistinctPermutation(gs, hs);
    forall i, j | 0 <= i < j < |hs| ensures hs[i].key != hs[j].key {
      assert hs[i] in multiset(gs) && hs[j] in multiset(gs);
    }
  }

  lemma {:induction false} SumsPermutation<K>(gs: seq<Entry<K>>, hs: seq<Entry<K>>, es: seq<Entry<K>>)
    requires forall j :: 0 <= j < |gs| ==> HasKey(es, gs[j].key) && gs[j].amount == SumFor(es, gs[j].key)
    requires multiset(gs) == multiset(hs)
    ensures forall j :: 0 <= j < |hs| ==> HasKey(es, hs[j].key) && hs[j].amount == SumFor(es, hs[j].key)
  {
    forall j | 0 <= j < |hs| ensures HasKey(es, hs[j].key) && hs[j].amount == SumFor(es, hs[j].key) {
      assert hs[j] in multiset(hs);
      assert hs[j] in multiset(gs);
      var i :| 0 <= i < |gs| && gs[i] == hs[j];
    }
  }

  lemma {:induction false} KeysCoveredPermutation<K>(gs: seq<Entry<K>>, hs: seq<Entry<K>>, es: seq<Entry<K>>)
    requires forall i :: 0 <= i < |es| ==> HasKey(gs, es[i].key)
    requires multiset(gs) == multiset(hs)
    ensures forall i :: 0 <= i < |es| ==> HasKey(hs, es[i].key)
  {
    forall i | 0 <= i < |es| ensures HasKey(hs, es[i].key) {
      var j :| 0 <= j < |gs| && gs[j].key == es[i].key;
      assert gs[j] in multiset(gs);
      assert gs[j] in multiset(hs);
      var k :| 0 <= k < |hs| && hs[k] == gs[j];
      assert hs[k].key == es[i].key;
    }
  }

  /** Two entries with different keys need two groups. */
  lemma {:induction false} TwoKeysTwoGroups<K>(gs: seq<Entry<K>>, es: seq<Entry<K>>, x: nat, y: nat)
    requires forall i :: 0 <= i < |es| ==> HasKey(gs, es[i].key)
    requires x < |es| && y < |es| && es[x].key != es[y].key
    ensures |gs| >= 2
  {
    assert HasKey(gs, es[x].key) && HasKey(gs, es[y].key);
    var a :| 0 <= a < |gs| && gs[a].key == es[x].key;
    var b :| 0 <= b < |gs| && gs[b].key == es[y].key;
    assert a != b;
  }

  /** An entry with the largest amount (`idxmax`). */
  function MaxEntry<K>(gs: seq<Entry<K>>): (m: Entry<K>)
    requires |gs| > 0
    ensures m in gs
    ensures forall j :: 0 <= j < |gs| ==> gs[j].amount <= m.amount
  {
    if |gs| == 1 then gs[0]
    else
      var m := MaxEntry(gs[..|gs| - 1]);
      assert forall j :: 0 <= j < |gs| - 1 ==> gs[..|gs| - 1][j] == gs[j];
      if gs[|gs| - 1].amount > m.amount then gs[|gs| - 1] else m
  }
}
