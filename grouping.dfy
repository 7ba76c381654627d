/** Group-and-sum over (key, amount) entries: the reference meaning of
    both dashboard charts. Keys come out distinct, in the order in which
    they are first seen, and each key's total is the sum of the amounts
    of the entries that carry it. Sequences are folded from the left, as
    `reduce` and `forEach` do. */
module Grouping {

  ghost predicate NoDup<K>(xs: seq<K>)
  {
    forall i, j :: 0 <= i < j < |xs| ==> xs[i] != xs[j]
  }

  /** `[...new Set(xs)]`: the distinct elements of `xs`, each kept at the
      position of its first occurrence. */
  function Distinct<K(==)>(xs: seq<K>): (ds: seq<K>)
    ensures NoDup(ds)
    ensures forall i :: 0 <= i < |ds| ==> ds[i] in xs
    ensures forall i :: 0 <= i < |xs| ==> xs[i] in ds
    ensures |ds| <= |xs|
    decreases |xs|
  {
    if xs == [] then []
    else
      var d := Distinct(xs[..|xs| - 1]);
      var x := xs[|xs| - 1];
      assert forall i :: 0 <= i < |xs| - 1 ==> xs[i] == xs[..|xs| - 1][i];
      if x in d then d else d + [x]
  }

  /** One more element is appended to the distinct list exactly when it
      is new. */
  lemma DistinctSnoc<K>(xs: seq<K>, x: K)
    ensures Distinct(xs + [x]) == if x in Distinct(xs) then Distinct(xs) else Distinct(xs) + [x]
  {
    assert (xs + [x])[..|xs|] == xs;
  }

  lemma DistinctAt<K>(xs: seq<K>, i: nat, j: nat)
    requires i < |Distinct(xs)| && j < |Distinct(xs)| && i != j
    ensures Distinct(xs)[i] != Distinct(xs)[j]
  {
  }

  /** The index of the first occurrence of `x` in `xs`. */
  function FirstIndex<K(==)>(xs: seq<K>, x: K): (k: nat)
    requires x in xs
    ensures k < |xs| && xs[k] == x
    ensures forall j :: 0 <= j < k ==> xs[j] != x
  {
    if xs[0] == x then 0 else 1 + FirstIndex(xs[1..], x)
  }

  lemma {:induction false} FirstIndexSnoc<K>(xs: seq<K>, x: K, y: K)
    requires y in xs
    ensures FirstIndex(xs + [x], y) == FirstIndex(xs, y)
  {
    var k := FirstIndex(xs, y);
    var ys := xs + [x];
    assert ys[k] == y;
    assert forall j :: 0 <= j < k ==> ys[j] != y;
    FirstIndexUnique(ys, y, k);
  }

  lemma {:induction false} FirstIndexUnique<K>(xs: seq<K>, x: K, k: nat)
    requires k < |xs| && xs[k] == x
    requires forall j :: 0 <= j < k ==> xs[j] != x
    ensures FirstIndex(xs, x) == k
  {
    if k > 0 {
      assert xs[0] != x;
      FirstIndexUnique(xs[1..], x, k - 1);
    }
  }

  /** The keys of `Distinct(xs)` are listed in the order of their first
      occurrence in `xs`. */
  lemma {:induction false} DistinctFirstSeen<K>(xs: seq<K>)
    ensures forall i, j :: 0 <= i < j < |Distinct(xs)| ==>
              FirstIndex(xs, Distinct(xs)[i]) < FirstIndex(xs, Distinct(xs)[j])
  {
    if xs != [] {
      var p, x := xs[..|xs| - 1], xs[|xs| - 1];
      assert xs == p + [x];
      DistinctFirstSeen(p);
      var d := Distinct(p);
      forall y | y in p ensures FirstIndex(xs, y) == FirstIndex(p, y) {
        FirstIndexSnoc(p, x, y);
      }
      if x !in d {
        FirstIndexUnique(xs, x, |p|);
      }
    }
  }

  /** The keys of the entries, in entry order. */
  function Keys<K>(es: seq<(K, int)>): (ks: seq<K>)
    ensures |ks| == |es|
    ensures forall i :: 0 <= i < |es| ==> ks[i] == es[i].0
  {
    seq(|es|, i requires 0 <= i < |es| => es[i].0)
  }

  /** The sum of the amounts of the entries whose key is `k`. */
  function SumFor<K(==)>(es: seq<(K, int)>, k: K): int
    decreases |es|
  {
    if es == [] then 0
    else
      var e := es[|es| - 1];
      SumFor(es[..|es| - 1], k) + (if e.0 == k then e.1 else 0)
  }

  /** One more entry adds its amount to its own key's total only. */
  lemma SumForSnoc<K>(es: seq<(K, int)>, e: (K, int), k: K)
    ensures SumFor(es + [e], k) == SumFor(es, k) + (if e.0 == k then e.1 else 0)
  {
    assert (es + [e])[..|es|] == es;
  }

  /** A key that no entry carries has total zero. */
  lemma {:induction false} SumForAbsent<K>(es: seq<(K, int)>, k: K)
    requires forall i :: 0 <= i < |es| ==> es[i].0 != k
    ensures SumFor(es, k) == 0
  {
    if es != [] {
      SumForAbsent(es[..|es| - 1], k);
    }
  }

  lemma KeysSnoc<K>(es: seq<(K, int)>, e: (K, int))
    ensures Keys(es + [e]) == Keys(es) + [e.0]
  {
  }

  /** The sum of all the amounts. */
  function Total<K>(es: seq<(K, int)>): int
    decreases |es|
  {
    if es == [] then 0 else Total(es[..|es| - 1]) + es[|es| - 1].1
  }

  function Sum(xs: seq<int>): int
  {
    if xs == [] then 0 else xs[0] + Sum(xs[1..])
  }

  /** Adding from the right gives the same sum as adding from the left. */
  lemma {:induction false} SumSnoc(xs: seq<int>, x: int)
    ensures Sum(xs + [x]) == Sum(xs) + x
  {
    if xs != [] {
      assert (xs + [x])[1..] == xs[1..] + [x];
      SumSnoc(xs[1..], x);
    }
  }

  /** The per-key totals for the keys `ks`, in their order. */
  function Sums<K(==)>(es: seq<(K, int)>, ks: seq<K>): (r: seq<int>)
    ensures |r| == |ks|
    ensures forall i :: 0 <= i < |ks| ==> r[i] == SumFor(es, ks[i])
  {
    seq(|ks|, i requires 0 <= i < |ks| => SumFor(es, ks[i]))
  }

  lemma {:induction false} SumsOfNothing<K>(ks: seq<K>)
    ensures Sum(Sums([], ks)) == 0
  {
    if ks != [] {
      assert Sums([], ks)[1..] == Sums([], ks[1..]);
      SumsOfNothing(ks[1..]);
    }
  }

  /** Appending one entry adds its amount to the bucket of its key, if that
      key is among `ks`, and to no other bucket. */
  lemma {:induction false} SumsSnoc<K>(es: seq<(K, int)>, e: (K, int), ks: seq<K>)
    requires NoDup(ks)
    ensures Sum(Sums(es + [e], ks)) == Sum(Sums(es, ks)) + (if e.0 in ks then e.1 else 0)
  {
    if ks != [] {
      var es' := es + [e];
      assert es'[..|es'| - 1] == es;
      assert Sums(es', ks)[1..] == Sums(es', ks[1..]);
      assert Sums(es, ks)[1..] == Sums(es, ks[1..]);
      assert NoDup(ks[1..]) by {
        forall i, j | 0 <= i < j < |ks[1..]| ensures ks[1..][i] != ks[1..][j] {
          assert ks[1..][i] == ks[i + 1] && ks[1..][j] == ks[j + 1];
        }
      }
      SumsSnoc(es, e, ks[1..]);
      assert e.0 in ks <==> e.0 == ks[0] || e.0 in ks[1..];
      assert ks[0] !in ks[1..];
    }
  }

  /** Bucketing by any duplicate-free list of keys that covers every entry
      loses and invents nothing: the bucket totals add up to the total. */
  lemma {:induction false} CoveringSumsConserve<K>(es: seq<(K, int)>, ks: seq<K>)
    requires NoDup(ks)
    requires forall i :: 0 <= i < |es| ==> es[i].0 in ks
    ensures Sum(Sums(es, ks)) == Total(es)
  {
    if es == [] {
      SumsOfNothing(ks);
    } else {
      var p, e := es[..|es| - 1], es[|es| - 1];
      assert es == p + [e];
      CoveringSumsConserve(p, ks);
      SumsSnoc(p, e, ks);
    }
  }

  /** Conservation: grouping by the distinct keys, the totals of the
      buckets add up to the sum of all the amounts. */
  lemma Conservation<K>(es: seq<(K, int)>)
    ensures Sum(Sums(es, Distinct(Keys(es)))) == Total(es)
  {
    var ks := Distinct(Keys(es));
    forall i | 0 <= i < |es| ensures es[i].0 in ks {
      assert Keys(es)[i] == es[i].0;
    }
    CoveringSumsConserve(es, ks);
  }
}
