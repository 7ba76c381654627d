/** `renderExpenseChart`: expenses are folded into a `categories` object
    keyed by field 1, adding field 2 to the category's running total.
    The object's keys are listed in insertion order, so it is modelled as
    an association list of (key, total) pairs in that order; the chart
    receives `Object.keys` and `Object.values` of it. */
module ExpenseChart {
  import opened Values
  import opened Grouping

  /** An expense record as the source reads it: field 2 is present and is
      a number. A missing category reads as `undefined`. */
  predicate IsExpense(r: Row)
  {
    |r| > 2 && r[2].Num?
  }

  predicate AllExpenses(expenses: seq<Row>)
  {
    forall i :: 0 <= i < |expenses| ==> IsExpense(expenses[i])
  }

  /** The property key `categories[exp[1]]` uses: `String(exp[1])`. */
  function Category(exp: Row): string
  {
    StringForm(Field(exp, 1))
  }

  /** The entries the group-and-sum works on: (category, amount) per record. */
  function Entries(expenses: seq<Row>): (es: seq<(string, int)>)
    requires AllExpenses(expenses)
    ensures |es| == |expenses|
    ensures forall i :: 0 <= i < |expenses| ==> es[i] == (Category(expenses[i]), expenses[i][2].n)
  {
    seq(|expenses|, i requires 0 <= i < |expenses| => (Category(expenses[i]), expenses[i][2].n))
  }

  /** The position of key `k` in the association list, or `|cats|` when
      the key is absent: the property lookup `categories[k]`. */
  function Find<K(==), V>(cats: seq<(K, V)>, k: K): (j: nat)
    ensures j <= |cats|
    ensures j < |cats| ==> cats[j].0 == k
    ensures j == |cats| ==> forall i :: 0 <= i < |cats| ==> cats[i].0 != k
  {
    if cats == [] then 0
    else if cats[0].0 == k then 0
    else 1 + Find(cats[1..], k)
  }

  /** The entry at position `j` gains `a`; its key and every other entry
      stay as they are. */
  function Bump<K>(cats: seq<(K, int)>, j: nat, a: int): (r: seq<(K, int)>)
    requires j < |cats|
    ensures |r| == |cats|
    ensures r[j] == (cats[j].0, cats[j].1 + a)
    ensures forall i :: 0 <= i < |cats| && i != j ==> r[i] == cats[i]
  {
    cats[j := (cats[j].0, cats[j].1 + a)]
  }

  /** `categories[k] = (categories[k] || 0) + a` on an insertion-ordered
      association list. */
  function Add<K(==)>(cats: seq<(K, int)>, e: (K, int)): seq<(K, int)>
  {
    var j := Find(cats, e.0);
    if j < |cats| then Bump(cats, j, e.1) else cats + [e]
  }

  /** The slot of the key holds its old total, or 0 when it had none, plus
      the amount; an existing key keeps its place, a new key is appended,
      and every other entry is left as it is. */
  lemma AddSlot<K>(cats: seq<(K, int)>, e: (K, int))
    ensures |Add(cats, e)| == if Find(cats, e.0) < |cats| then |cats| else |cats| + 1
    ensures Find(cats, e.0) < |Add(cats, e)|
    ensures Add(cats, e)[Find(cats, e.0)]
         == (e.0, (if Find(cats, e.0) < |cats| then cats[Find(cats, e.0)].1 else 0) + e.1)
    ensures forall i :: 0 <= i < |cats| && i != Find(cats, e.0) ==> Add(cats, e)[i] == cats[i]
  {
  }

  /** Adding to one entry adds to the sum of all the totals. */
  lemma {:induction false} TotalBump<K>(cats: seq<(K, int)>, j: nat, a: int)
    requires j < |cats|
    ensures Total(Bump(cats, j, a)) == Total(cats) + a
    decreases |cats|
  {
    var r, n := Bump(cats, j, a), |cats|;
    if j < n - 1 {
      TotalBump(cats[..n - 1], j, a);
      assert r[..n - 1] == Bump(cats[..n - 1], j, a);
    } else {
      assert r[..n - 1] == cats[..n - 1];
    }
  }

  /** Every amount folded in reaches exactly one total. */
  lemma AddTotal<K>(cats: seq<(K, int)>, e: (K, int))
    ensures Total(Add(cats, e)) == Total(cats) + e.1
  {
    var j := Find(cats, e.0);
    if j < |cats| {
      TotalBump(cats, j, e.1);
      assert Add(cats, e) == Bump(cats, j, e.1);
    } else {
      assert Add(cats, e) == cats + [e];
      assert (cats + [e])[..|cats|] == cats;
    }
  }

  /** `cats` is what folding the entries `es` into the `categories` object
      gives: its keys in insertion order and each key's running total. */
  ghost predicate Folded<K>(es: seq<(K, int)>, cats: seq<(K, int)>)
  {
    && Keys(cats) == Distinct(Keys(es))
    && forall j :: 0 <= j < |cats| ==> cats[j].1 == SumFor(es, cats[j].0)
  }

  /** Folding one more entry keeps the fold in step with the entries. */
  lemma FoldStep<K>(es: seq<(K, int)>, e: (K, int), cats: seq<(K, int)>)
    requires Folded(es, cats)
    ensures Folded(es + [e], Add(cats, e))
  {
    if Find(cats, e.0) < |cats| {
      FoldStepKnownKey(es, e, cats);
    } else {
      FoldStepNewKey(es, e, cats);
    }
  }

  /** A key already present keeps its place and its total grows. */
  lemma FoldStepKnownKey<K>(es: seq<(K, int)>, e: (K, int), cats: seq<(K, int)>)
    requires Folded(es, cats)
    requires Find(cats, e.0) < |cats|
    ensures Folded(es + [e], Add(cats, e))
  {
    var j := Find(cats, e.0);
    var r := Bump(cats, j, e.1);
    assert Add(cats, e) == r;
    BumpKeys(cats, j, e.1);
    assert e.0 in Distinct(Keys(es)) by {
      assert Keys(cats)[j] == e.0;
    }
    KeysSnoc(es, e);
    DistinctSnoc(Keys(es), e.0);
    forall i | 0 <= i < |r| ensures r[i].1 == SumFor(es + [e], r[i].0) {
      BumpSum(es, e, cats, j, i);
    }
  }

  lemma BumpKeys<K>(cats: seq<(K, int)>, j: nat, a: int)
    requires j < |cats|
    ensures Keys(Bump(cats, j, a)) == Keys(cats)
  {
    var r := Bump(cats, j, a);
    assert forall i :: 0 <= i < |r| ==> Keys(r)[i] == Keys(cats)[i];
  }

  /** The bumped entry's total and every other entry's total agree with the
      sums over the entries extended by `e`. */
  lemma BumpSum<K>(es: seq<(K, int)>, e: (K, int), cats: seq<(K, int)>, j: nat, i: nat)
    requires Folded(es, cats)
    requires j < |cats| && cats[j].0 == e.0 && i < |cats|
    ensures Bump(cats, j, e.1)[i].1 == SumFor(es + [e], Bump(cats, j, e.1)[i].0)
  {
    SumForSnoc(es, e, cats[i].0);
    if i != j {
      DistinctAt(Keys(es), i, j);
      assert Keys(cats)[i] == cats[i].0 && Keys(cats)[j] == cats[j].0;
    }
  }

  /** A key not yet present is appended with the entry's amount. */
  lemma FoldStepNewKey<K>(es: seq<(K, int)>, e: (K, int), cats: seq<(K, int)>)
    requires Folded(es, cats)
    requires Find(cats, e.0) == |cats|
    ensures Folded(es + [e], Add(cats, e))
  {
    var r := cats + [e];
    assert Add(cats, e) == r;
    NewKeyKeys(es, e, cats);
    forall i | 0 <= i < |r| ensures r[i].1 == SumFor(es + [e], r[i].0) {
      NewKeySum(es, e, cats, i);
    }
  }

  /** A key absent from the fold is absent from the entries folded so far. */
  lemma NewKeyAbsent<K>(es: seq<(K, int)>, e: (K, int), cats: seq<(K, int)>)
    requires Keys(cats) == Distinct(Keys(es))
    requires Find(cats, e.0) == |cats|
    ensures e.0 !in Distinct(Keys(es))
    ensures forall i :: 0 <= i < |es| ==> es[i].0 != e.0
  {
    assert e.0 !in Keys(cats) by {
      forall i | 0 <= i < |cats| ensures Keys(cats)[i] != e.0 {
      }
    }
    assert forall i :: 0 <= i < |es| ==> Keys(es)[i] == es[i].0;
  }

  lemma NewKeyKeys<K>(es: seq<(K, int)>, e: (K, int), cats: seq<(K, int)>)
    requires Keys(cats) == Distinct(Keys(es))
    requires Find(cats, e.0) == |cats|
    ensures Keys(cats + [e]) == Distinct(Keys(es + [e]))
  {
    NewKeyAbsent(es, e, cats);
    KeysSnoc(cats, e);
    KeysSnoc(es, e);
    DistinctSnoc(Keys(es), e.0);
  }

  lemma NewKeySum<K>(es: seq<(K, int)>, e: (K, int), cats: seq<(K, int)>, i: nat)
    requires Folded(es, cats)
    requires Find(cats, e.0) == |cats| && i <= |cats|
    ensures (cats + [e])[i].1 == SumFor(es + [e], (cats + [e])[i].0)
  {
    SumForSnoc(es, e, (cats + [e])[i].0);
    if i == |cats| {
      NewKeyAbsent(es, e, cats);
      SumForAbsent(es, e.0);
    }
  }

  /** The `categories` object after the `forEach` over the entries `es`:
      each entry folded in, left to right, starting from `{}`. It has at
      most one entry per entry folded in, and its totals add up to the
      total of all the amounts. */
  function Fold<K(==)>(es: seq<(K, int)>): (cats: seq<(K, int)>)
    ensures |cats| <= |es|
    ensures Total(cats) == Total(es)
    decreases |es|
  {
    if es == [] then []
    else
      var p := es[..|es| - 1];
      AddTotal(Fold(p), es[|es| - 1]);
      Add(Fold(p), es[|es| - 1])
  }

  /** The fold lists each key once, in order of first occurrence, with the
      total of its amounts. */
  lemma {:induction false} FoldIsGrouping<K>(es: seq<(K, int)>)
    ensures Folded(es, Fold(es))
  {
    if es != [] {
      var p, e := es[..|es| - 1], es[|es| - 1];
      assert es == p + [e];
      FoldIsGrouping(p);
      FoldStep(p, e, Fold(p));
    }
  }

  lemma FoldPrefix<K>(es: seq<(K, int)>, i: nat)
    requires i < |es|
    ensures Fold(es[..i + 1]) == Add(Fold(es[..i]), es[i])
  {
    assert es[..i + 1][..i] == es[..i];
  }

  /** The chart's `labels` and `data` for `expensesData`: the categories
      without duplicates in order of first occurrence, and for each the sum
      of the amounts of all its expenses, so repeated categories add up.
      Every expense's category is a label, every label is some expense's
      category, no input gives no labels, and the totals add up to the sum
      of all the amounts. */
  method CategoryTotals(expenses: seq<Row>) returns (labels: seq<string>, data: seq<int>)
    requires AllExpenses(expenses)
    ensures labels == Distinct(Keys(Entries(expenses)))
    ensures |data| == |labels|
    ensures forall j :: 0 <= j < |labels| ==> data[j] == SumFor(Entries(expenses), labels[j])
    ensures NoDup(labels)
    ensures forall i :: 0 <= i < |expenses| ==> Category(expenses[i]) in labels
    ensures forall j :: 0 <= j < |labels| ==>
              exists i :: 0 <= i < |expenses| && Category(expenses[i]) == labels[j]
    ensures expenses == [] ==> labels == [] && data == []
    ensures Sum(data) == Total(Entries(expenses))
  {
    var categories := Accumulate(expenses);
    FoldIsGrouping(Entries(expenses));
    labels := seq(|categories|, j requires 0 <= j < |categories| => categories[j].0);
    data := seq(|categories|, j requires 0 <= j < |categories| => categories[j].1);
    assert labels == Keys(categories);
    FoldedCoverage(expenses, categories);
    FoldedTotal(Entries(expenses), categories, data);
  }

  /** The `forEach` of `renderExpenseChart`: folds every expense into the
      `categories` object, kept as an insertion-ordered association list. */
  method Accumulate(expenses: seq<Row>) returns (categories: seq<(string, int)>)
    requires AllExpenses(expenses)
    ensures categories == Fold(Entries(expenses))
  {
    categories := [];
    var i := 0;
    ghost var es := Entries(expenses);
    while i < |expenses|
      invariant 0 <= i <= |expenses|
      invariant categories == Fold(es[..i])
    {
      var exp := expenses[i];
      var key := Category(exp);
      assert es[i] == (key, exp[2].n);
      FoldPrefix(es, i);
      var j := Find(categories, key);
      if j < |categories| {
        categories := Bump(categories, j, exp[2].n);
      } else {
        categories := categories + [(key, exp[2].n)];
      }
      i := i + 1;
    }
    assert es[..i] == es;
  }

  /** The totals of a completed fold add up to the sum of all the amounts. */
  lemma FoldedTotal<K>(es: seq<(K, int)>, cats: seq<(K, int)>, data: seq<int>)
    requires Folded(es, cats)
    requires |data| == |cats| && forall j :: 0 <= j < |cats| ==> data[j] == cats[j].1
    ensures Sum(data) == Total(es)
  {
    assert data == Sums(es, Keys(cats));
    Conservation(es);
  }

  /** Every category is a label and every label is some expense's category. */
  lemma FoldedCoverage(expenses: seq<Row>, categories: seq<(string, int)>)
    requires AllExpenses(expenses)
    requires Keys(categories) == Distinct(Keys(Entries(expenses)))
    ensures forall i :: 0 <= i < |expenses| ==> Category(expenses[i]) in Keys(categories)
    ensures forall j :: 0 <= j < |categories| ==>
              exists i :: 0 <= i < |expenses| && Category(expenses[i]) == Keys(categories)[j]
  {
    var es := Entries(expenses);
    var labels := Keys(categories);
    forall i | 0 <= i < |expenses| ensures Category(expenses[i]) in labels {
      assert Keys(es)[i] == Category(expenses[i]);
    }
    forall j | 0 <= j < |labels|
      ensures exists i :: 0 <= i < |expenses| && Category(expenses[i]) == labels[j]
    {
      var k :| 0 <= k < |Keys(es)| && Keys(es)[k] == labels[j];
      assert Category(expenses[k]) == labels[j];
    }
  }

  /** Rent 1000, Food 200, Rent 500 make the buckets Rent 1500 and
      Food 200, in that order. */
  lemma RentFoodScenario()
    ensures Fold([("Rent", 1000), ("Food", 200), ("Rent", 500)]) == [("Rent", 1500), ("Food", 200)]
  {
    var es: seq<(string, int)> := [("Rent", 1000), ("Food", 200), ("Rent", 500)];
    assert es[..2] == [("Rent", 1000), ("Food", 200)];
    assert es[..2][..1] == [("Rent", 1000)] && [("Rent", 1000)][..0] == [];
    var c1 := Fold(es[..2][..1]);
    assert c1 == [("Rent", 1000)];
    assert Find(c1, "Food") == 1;
    var c2 := Fold(es[..2]);
    assert c2 == [("Rent", 1000), ("Food", 200)];
    assert Find(c2, "Rent") == 0;
    var c3 := Bump(c2, 0, 500);
    assert c3[0] == ("Rent", 1500) && c3[1] == ("Food", 200);
    assert c3 == [("Rent", 1500), ("Food", 200)];
  }
}
