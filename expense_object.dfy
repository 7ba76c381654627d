/** The `categories` object of `renderExpenseChart` as the code creates it:
    a plain `{}`, which inherits the properties of `Object.prototype`. A
    category that is the name of one of them does not start from an empty
    slot. Reading it yields the inherited method (or, for `__proto__`, the
    prototype object itself), and `(categories[k] || 0) + amount` then
    concatenates that value's string form with the amount. Assigning that
    string creates an own property holding text, except under `__proto__`,
    whose setter ignores a value that is not an object; that category is
    lost. `ExpenseChart.Fold` is the object without inherited properties
    that the chart evidently means (`Object.create(null)`, or a `Map`). */
module ExpenseObject {
  import opened Grouping
  import opened ExpenseChart

  /** The property names every plain object inherits. */
  const InheritedNames: set<string> :=
    {"constructor", "hasOwnProperty", "isPrototypeOf", "propertyIsEnumerable",
     "toLocaleString", "toString", "valueOf", "__defineGetter__",
     "__defineSetter__", "__lookupGetter__", "__lookupSetter__", "__proto__"}

  /** The value of one own property of `categories`: a running total, or
      the text produced by adding an amount to an inherited value. Adding
      a further amount to text appends its digits, so it stays text. */
  datatype Slot = Number(n: int) | Garbled

  function Plus(s: Slot, a: int): (r: Slot)
    ensures s.Number? ==> r == Number(s.n + a)
    ensures s.Garbled? ==> r.Garbled?
  {
    match s
    case Number(n) => Number(n + a)
    case Garbled => Garbled
  }

  /** The own property at position `j` takes the value `v`. */
  function Put(cats: seq<(string, Slot)>, j: nat, v: Slot): (r: seq<(string, Slot)>)
    requires j < |cats|
    ensures |r| == |cats|
    ensures r[j] == (cats[j].0, v)
    ensures forall i :: 0 <= i < |cats| && i != j ==> r[i] == cats[i]
  {
    cats[j := (cats[j].0, v)]
  }

  /** `categories[k] = (categories[k] || 0) + a` on a plain `{}`: an own
      property gains the amount; an inherited name other than `__proto__`
      becomes an own property holding text; `__proto__` changes nothing;
      any other name is appended with the amount. */
  function AddAsWritten(cats: seq<(string, Slot)>, e: (string, int)): (r: seq<(string, Slot)>)
    ensures |cats| <= |r| <= |cats| + 1
    ensures forall i :: 0 <= i < |cats| ==> r[i].0 == cats[i].0
  {
    var j := Find(cats, e.0);
    if j < |cats| then Put(cats, j, Plus(cats[j].1, e.1))
    else if e.0 == "__proto__" then cats
    else if e.0 in InheritedNames then cats + [(e.0, Garbled)]
    else cats + [(e.0, Number(e.1))]
  }

  /** The `forEach` over the entries `es`, as written. */
  function FoldAsWritten(es: seq<(string, int)>): (cats: seq<(string, Slot)>)
    ensures |cats| <= |es|
    decreases |es|
  {
    if es == [] then []
    else AddAsWritten(FoldAsWritten(es[..|es| - 1]), es[|es| - 1])
  }

  /** The totals of the corrected fold, seen as property values. */
  function Lift(cats: seq<(string, int)>): (r: seq<(string, Slot)>)
    ensures |r| == |cats|
    ensures forall i :: 0 <= i < |cats| ==> r[i] == (cats[i].0, Number(cats[i].1))
  {
    seq(|cats|, i requires 0 <= i < |cats| => (cats[i].0, Number(cats[i].1)))
  }

  /** A single expense filed under `__proto__` disappears from the chart;
      the corrected fold keeps it. */
  lemma ProtoCategoryLost()
    ensures FoldAsWritten([("__proto__", 100)]) == []
    ensures Fold([("__proto__", 100)]) == [("__proto__", 100)]
  {
    assert [("__proto__", 100)][..0] == [];
  }

  /** Two expenses filed under `toString` chart text instead of 150; the
      corrected fold totals them. */
  lemma InheritedCategoryGarbled()
    ensures FoldAsWritten([("toString", 100), ("toString", 50)]) == [("toString", Garbled)]
    ensures Fold([("toString", 100), ("toString", 50)]) == [("toString", 150)]
  {
    var es: seq<(string, int)> := [("toString", 100), ("toString", 50)];
    var one: seq<(string, int)> := [("toString", 100)];
    assert es[..1] == one && one[..0] == [];
    assert "toString" in InheritedNames && "toString" != "__proto__";
    assert Find<string, Slot>([], "toString") == 0;
    assert AddAsWritten([], one[0]) == [("toString", Garbled)];
    var w := FoldAsWritten(one);
    assert w == [("toString", Garbled)];
    assert Find(w, "toString") == 0;
    var c := Fold(one);
    assert c == [("toString", 100)];
    assert Find(c, "toString") == 0;
  }

  /** `__proto__` never becomes a category of the object as written. */
  lemma {:induction false} ProtoNeverKey(es: seq<(string, int)>)
    ensures forall i :: 0 <= i < |FoldAsWritten(es)| ==> FoldAsWritten(es)[i].0 != "__proto__"
    decreases |es|
  {
    if es != [] {
      ProtoNeverKey(es[..|es| - 1]);
    }
  }

  /** The lookup sees the same keys in the corrected totals and in their
      property values. */
  lemma {:induction false} FindLift(cats: seq<(string, int)>, k: string)
    ensures Find(Lift(cats), k) == Find(cats, k)
    decreases |cats|
  {
    if cats != [] && cats[0].0 != k {
      FindLift(cats[1..], k);
      assert Lift(cats)[1..] == Lift(cats[1..]);
    }
  }

  /** One step of the two folds agrees on a category that is not an
      inherited name. */
  lemma AddAgrees(cats: seq<(string, int)>, e: (string, int))
    requires e.0 !in InheritedNames
    ensures AddAsWritten(Lift(cats), e) == Lift(Add(cats, e))
  {
    FindLift(cats, e.0);
    var j := Find(cats, e.0);
    if j < |cats| {
      assert Add(cats, e) == Bump(cats, j, e.1);
      var u, v := AddAsWritten(Lift(cats), e), Lift(Bump(cats, j, e.1));
      assert u == Put(Lift(cats), j, Number(cats[j].1 + e.1));
      assert forall i :: 0 <= i < |u| ==> u[i] == v[i];
    } else {
      assert Add(cats, e) == cats + [e];
      var u, v := AddAsWritten(Lift(cats), e), Lift(cats + [e]);
      assert u == Lift(cats) + [(e.0, Number(e.1))];
      assert forall i :: 0 <= i < |u| ==> u[i] == v[i];
    }
  }

  /** As long as no category is an inherited name, the object as written
      holds exactly the corrected totals, in the same order. */
  lemma {:induction false} AgreesOffInheritedNames(es: seq<(string, int)>)
    requires forall i :: 0 <= i < |es| ==> es[i].0 !in InheritedNames
    ensures FoldAsWritten(es) == Lift(Fold(es))
    decreases |es|
  {
    if es != [] {
      var p := es[..|es| - 1];
      AgreesOffInheritedNames(p);
      AddAgrees(Fold(p), es[|es| - 1]);
    }
  }
}
