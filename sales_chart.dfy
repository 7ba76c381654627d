/** `renderSalesChart`: the sales records are bucketed by the date label
    of their timestamp (field 7), and each bucket's amounts (field 5) are
    summed. The chart itself is not part of this model; what is modelled
    is the pair of index-aligned series handed to it. */
module SalesChart {
  import opened Values
  import opened Grouping

  /** A sale record as the source reads it: field 5 is present and is a
      number (the source adds it without a check). */
  predicate IsSale(r: Row)
  {
    |r| > 5 && r[5].Num?
  }

  predicate AllSales(sales: seq<Row>)
  {
    forall i :: 0 <= i < |sales| ==> IsSale(sales[i])
  }

  function Amount(sale: Row): int
    requires IsSale(sale)
  {
    sale[5].n
  }

  /** `new Date(sale[7]).toLocaleDateString()`: a sale without field 7
      gets the label the formatter gives `undefined`. */
  function Label(sale: Row, fmt: DateFormatter): (day: string)
    ensures 7 < |sale| ==> day == fmt(sale[7])
    ensures |sale| <= 7 ==> day == fmt(Undefined)
  {
    fmt(Field(sale, 7))
  }

  /** `salesData.map(sale => label of sale)`. */
  function LabelsOf(sales: seq<Row>, fmt: DateFormatter): (ls: seq<string>)
    ensures |ls| == |sales|
    ensures forall i :: 0 <= i < |sales| ==> ls[i] == Label(sales[i], fmt)
  {
    seq(|sales|, i requires 0 <= i < |sales| => Label(sales[i], fmt))
  }

  /** `salesData.filter(sale => label of sale === label)`. */
  function WithLabel(sales: seq<Row>, fmt: DateFormatter, day: string): (r: seq<Row>)
    ensures forall i :: 0 <= i < |r| ==> r[i] in sales && Label(r[i], fmt) == day
    decreases |sales|
  {
    if sales == [] then []
    else
      var p, s := sales[..|sales| - 1], sales[|sales| - 1];
      var r := WithLabel(p, fmt, day);
      assert forall i :: 0 <= i < |r| ==> r[i] in sales by {
        assert forall x :: x in p ==> x in sales;
      }
      if Label(s, fmt) == day then r + [s] else r
  }

  /** The filter keeps every sale that carries the label, as often as it
      occurs, and no other. */
  lemma {:induction false} WithLabelIsFilter(sales: seq<Row>, fmt: DateFormatter, day: string)
    ensures forall x :: multiset(WithLabel(sales, fmt, day))[x]
                     == if Label(x, fmt) == day then multiset(sales)[x] else 0
    decreases |sales|
  {
    if sales != [] {
      var p, s := sales[..|sales| - 1], sales[|sales| - 1];
      assert sales == p + [s];
      WithLabelIsFilter(p, fmt, day);
      var r := WithLabel(p, fmt, day);
      assert multiset(sales) == multiset(p) + multiset{s};
      if Label(s, fmt) == day {
        assert multiset(r + [s]) == multiset(r) + multiset{s};
      }
    }
  }

  /** The amounts of the sales, in order. */
  function Amounts(sales: seq<Row>): (as_: seq<int>)
    requires AllSales(sales)
    ensures |as_| == |sales|
    ensures forall i :: 0 <= i < |sales| ==> as_[i] == Amount(sales[i])
  {
    seq(|sales|, i requires 0 <= i < |sales| => Amount(sales[i]))
  }

  /** `.reduce((acc, sale) => acc + sale[5], 0)`: the sum of all the
      amounts. */
  function AddAmounts(sales: seq<Row>): (total: int)
    requires AllSales(sales)
    ensures total == Sum(Amounts(sales))
    decreases |sales|
  {
    if sales == [] then 0
    else
      var p := sales[..|sales| - 1];
      var total := AddAmounts(p) + Amount(sales[|sales| - 1]);
      assert Amounts(sales) == Amounts(p) + [Amount(sales[|sales| - 1])];
      SumSnoc(Amounts(p), Amount(sales[|sales| - 1]));
      total
  }

  /** The two series given to the chart: `labels` and `dataPoints`. */
  datatype Series = Series(labels: seq<string>, dataPoints: seq<int>)

  /** The series for `salesData`, computed as `renderSalesChart` does.
      The labels are the distinct date labels, each record's label is
      among them, each of them is some record's label, and every label
      has one data point. */
  function SalesSeries(sales: seq<Row>, fmt: DateFormatter): (r: Series)
    requires AllSales(sales)
    ensures |r.dataPoints| == |r.labels|
    ensures NoDup(r.labels)
    ensures forall i :: 0 <= i < |sales| ==> Label(sales[i], fmt) in r.labels
    ensures forall j :: 0 <= j < |r.labels| ==>
              exists i :: 0 <= i < |sales| && Label(sales[i], fmt) == r.labels[j]
    ensures sales == [] ==> r.labels == [] && r.dataPoints == []
  {
    var ls := LabelsOf(sales, fmt);
    var labels := Distinct(ls);
    assert forall j :: 0 <= j < |labels| ==>
             exists i :: 0 <= i < |sales| && Label(sales[i], fmt) == labels[j] by {
      forall j | 0 <= j < |labels|
        ensures exists i :: 0 <= i < |sales| && Label(sales[i], fmt) == labels[j]
      {
        var i :| 0 <= i < |ls| && ls[i] == labels[j];
        assert Label(sales[i], fmt) == labels[j];
      }
    }
    Series(labels,
           seq(|labels|, j requires 0 <= j < |labels| =>
                 AddAmounts(WithLabel(sales, fmt, labels[j]))))
  }

  /** The entries the group-and-sum works on: (label, amount) per record. */
  function Entries(sales: seq<Row>, fmt: DateFormatter): (es: seq<(string, int)>)
    requires AllSales(sales)
    ensures |es| == |sales|
    ensures forall i :: 0 <= i < |sales| ==> es[i] == (Label(sales[i], fmt), Amount(sales[i]))
  {
    seq(|sales|, i requires 0 <= i < |sales| => (Label(sales[i], fmt), Amount(sales[i])))
  }

  /** Filtering by a label and then adding the amounts is the total of the
      entries that carry that label. */
  lemma {:induction false} FilterReduceIsSumFor(sales: seq<Row>, fmt: DateFormatter, day: string)
    requires AllSales(sales)
    ensures AddAmounts(WithLabel(sales, fmt, day)) == SumFor(Entries(sales, fmt), day)
  {
    if sales != [] {
      var p, s := sales[..|sales| - 1], sales[|sales| - 1];
      FilterReduceIsSumFor(p, fmt, day);
      var es := Entries(sales, fmt);
      assert es[..|es| - 1] == Entries(p, fmt);
      var r := WithLabel(p, fmt, day);
      if Label(s, fmt) == day {
        assert (r + [s])[..|r + [s]| - 1] == r;
      }
    }
  }

  /** The chart's labels are the distinct keys of the entries and each data
      point is the total of its label's bucket. */
  lemma SeriesIsGrouping(sales: seq<Row>, fmt: DateFormatter)
    requires AllSales(sales)
    ensures SalesSeries(sales, fmt).labels == Distinct(Keys(Entries(sales, fmt)))
    ensures SalesSeries(sales, fmt).dataPoints
         == Sums(Entries(sales, fmt), SalesSeries(sales, fmt).labels)
  {
    var r := SalesSeries(sales, fmt);
    assert LabelsOf(sales, fmt) == Keys(Entries(sales, fmt));
    forall j | 0 <= j < |r.labels|
      ensures r.dataPoints[j] == SumFor(Entries(sales, fmt), r.labels[j])
    {
      FilterReduceIsSumFor(sales, fmt, r.labels[j]);
    }
  }

  /** `dataPoints[j]` is the total amount of the sales dated `labels[j]`. */
  lemma DataPointIsBucketTotal(sales: seq<Row>, fmt: DateFormatter, j: nat)
    requires AllSales(sales)
    requires j < |SalesSeries(sales, fmt).labels|
    ensures SalesSeries(sales, fmt).dataPoints[j]
         == SumFor(Entries(sales, fmt), SalesSeries(sales, fmt).labels[j])
  {
    SeriesIsGrouping(sales, fmt);
  }

  /** The labels appear in the order in which the records first show them. */
  lemma LabelsInFirstSeenOrder(sales: seq<Row>, fmt: DateFormatter, i: nat, j: nat)
    requires AllSales(sales)
    requires i < j < |SalesSeries(sales, fmt).labels|
    ensures FirstIndex(LabelsOf(sales, fmt), SalesSeries(sales, fmt).labels[i])
          < FirstIndex(LabelsOf(sales, fmt), SalesSeries(sales, fmt).labels[j])
  {
    DistinctFirstSeen(LabelsOf(sales, fmt));
  }

  /** Conservation: the data points add up to the sum of all sale amounts. */
  lemma SeriesConservesTotal(sales: seq<Row>, fmt: DateFormatter)
    requires AllSales(sales)
    ensures Sum(SalesSeries(sales, fmt).dataPoints) == AddAmounts(sales)
  {
    var es := Entries(sales, fmt);
    SeriesIsGrouping(sales, fmt);
    Conservation(es);
    TotalIsAddAmounts(sales, fmt);
  }

  lemma {:induction false} TotalIsAddAmounts(sales: seq<Row>, fmt: DateFormatter)
    requires AllSales(sales)
    ensures Total(Entries(sales, fmt)) == AddAmounts(sales)
  {
    if sales != [] {
      var p := sales[..|sales| - 1];
      var es := Entries(sales, fmt);
      assert es[..|es| - 1] == Entries(p, fmt);
      TotalIsAddAmounts(p, fmt);
    }
  }

  /** Two sales on the same day make one bucket holding both amounts. */
  lemma SameDayScenario(a: Row, b: Row, fmt: DateFormatter)
    requires IsSale(a) && IsSale(b) && a[5] == Num(100) && b[5] == Num(50)
    requires Label(a, fmt) == Label(b, fmt)
    ensures SalesSeries([a, b], fmt) == Series([Label(a, fmt)], [150])
  {
    var sales, l := [a, b], Label(a, fmt);
    assert sales[..1] == [a] && [a][..0] == [];
    var ls := LabelsOf(sales, fmt);
    assert ls == [l, l];
    assert ls[..1] == [l] && [l][..0] == [];
    assert Distinct([l]) == [l];
    assert Distinct(ls) == [l];
    var es := Entries(sales, fmt);
    assert es == [(l, 100), (l, 50)];
    assert es[..1] == [(l, 100)] && [(l, 100)][..0] == [];
    assert SumFor([(l, 100)], l) == 100;
    assert SumFor(es, l) == SumFor([(l, 100)], l) + 50;
    SeriesIsGrouping(sales, fmt);
  }
}
