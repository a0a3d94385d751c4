/**
  The expense chart's data: the negative-amount records grouped by label,
  each label mapped to the total of the absolute amounts spent on it. The
  chart receives the labels and the totals as two parallel lists.
 */
module Breakdown {
  import opened Records
  import opened Totals

  /** The labels of the expense records. */
  function ExpenseLabels(ts: seq<Transaction>): set<string> {
    set t | t in ts && t.amount < 0 :: t.text
  }

  /** Reference definition: what was spent on the label `text`, the total
      of the absolute amounts of the expense records carrying it. */
  function SpentOn(ts: seq<Transaction>, text: string): int {
    if ts == [] then 0
    else
      var t := ts[|ts| - 1];
      SpentOn(ts[..|ts| - 1], text) + if t.amount < 0 && t.text == text then -t.amount else 0
  }

  lemma SpentOnSnoc(ts: seq<Transaction>, t: Transaction, text: string)
    ensures SpentOn(ts + [t], text) == SpentOn(ts, text) + if t.amount < 0 && t.text == text then -t.amount else 0
  {
  }

  lemma ExpenseLabelsSnoc(ts: seq<Transaction>, t: Transaction)
    ensures ExpenseLabels(ts + [t]) == ExpenseLabels(ts) + if t.amount < 0 then {t.text} else {}
  {
  }

  /** What was spent on a label is never negative, and it is positive
      exactly for the labels of expense records. */
  lemma {:induction false} SpentOnPositiveIff(ts: seq<Transaction>, text: string)
    ensures SpentOn(ts, text) >= 0
    ensures SpentOn(ts, text) > 0 <==> text in ExpenseLabels(ts)
  {
    if ts != [] {
      var init, t := ts[..|ts| - 1], ts[|ts| - 1];
      assert ts == init + [t];
      SpentOnPositiveIff(init, text);
      ExpenseLabelsSnoc(init, t);
    }
  }

  /** Distinct keys, as `Object.keys` returns them. */
  predicate Distinct(keys: seq<string>) {
    forall i, j :: 0 <= i < j < |keys| ==> keys[i] != keys[j]
  }

  /** `Object.values`: the value of each key, in the order of the keys. */
  function ValuesOf(keys: seq<string>, m: map<string, int>): (r: seq<int>)
    requires forall k :: k in keys ==> k in m
    ensures |r| == |keys| && forall i :: 0 <= i < |keys| ==> r[i] == m[keys[i]]
  {
    seq(|keys|, i requires 0 <= i < |keys| => m[keys[i]])
  }

  /** Raising one element raises the sum by as much. */
  lemma {:induction false} SumBump(s: seq<int>, j: nat, d: int)
    requires j < |s|
    ensures Sum(s[j := s[j] + d]) == Sum(s) + d
  {
    var s' := s[j := s[j] + d];
    var n := |s|;
    assert s'[..n - 1] == if j == n - 1 then s[..n - 1] else s[..n - 1][j := s[j] + d];
    if j < n - 1 {
      SumBump(s[..n - 1], j, d);
    }
  }

  lemma ValuesAfterRaise(keys: seq<string>, m: map<string, int>, k: string, d: int)
    requires Distinct(keys) && k in keys
    requires forall x :: x in keys ==> x in m
    ensures Sum(ValuesOf(keys, m[k := m[k] + d])) == Sum(ValuesOf(keys, m)) + d
  {
    var j :| 0 <= j < |keys| && keys[j] == k;
    var v := ValuesOf(keys, m);
    assert ValuesOf(keys, m[k := m[k] + d]) == v[j := v[j] + d];
    SumBump(v, j, d);
  }

  lemma ValuesAfterInsert(keys: seq<string>, m: map<string, int>, k: string, x: int)
    requires k !in keys
    requires forall y :: y in keys ==> y in m
    ensures Sum(ValuesOf(keys + [k], m[k := x])) == Sum(ValuesOf(keys, m)) + x
  {
    assert ValuesOf(keys + [k], m[k := x]) == ValuesOf(keys, m) + [x];
    SumSnoc(ValuesOf(keys, m), x);
  }

  /** The state of the grouping after the records `ps`: `m` maps each
      expense label seen so far to what was spent on it, `keys` lists those
      labels once each, and the values add up to the expense of `ps`. */
  ghost predicate Grouped(ps: seq<Transaction>, keys: seq<string>, m: map<string, int>) {
    && m.Keys == ExpenseLabels(ps)
    && (forall l :: l in m ==> m[l] == SpentOn(ps, l))
    && Distinct(keys)
    && (forall l :: l in keys <==> l in m)
    && Sum(ValuesOf(keys, m)) == Expense(ps)
  }

  lemma SpentOnAfter(ps: seq<Transaction>, t: Transaction)
    ensures forall l :: SpentOn(ps + [t], l) == SpentOn(ps, l) + if t.amount < 0 && t.text == l then -t.amount else 0
  {
  }

  /** An income or zero record leaves the grouping as it is. */
  lemma GroupedSkip(ps: seq<Transaction>, keys: seq<string>, m: map<string, int>, t: Transaction)
    requires Grouped(ps, keys, m) && t.amount >= 0
    ensures Grouped(ps + [t], keys, m)
  {
    ExpenseLabelsSnoc(ps, t);
    FiguresAfterAppend(ps, t);
    SpentOnAfter(ps, t);
  }

  /** The totals per label after one more expense record. */
  lemma TotalsAfterExpense(ps: seq<Transaction>, m: map<string, int>, t: Transaction)
    requires m.Keys == ExpenseLabels(ps) && forall l :: l in m ==> m[l] == SpentOn(ps, l)
    requires t.amount < 0
    ensures var m' := m[t.text := if t.text in m then m[t.text] + -t.amount else -t.amount];
      m'.Keys == ExpenseLabels(ps + [t]) && forall l :: l in m' ==> m'[l] == SpentOn(ps + [t], l)
  {
    ExpenseLabelsSnoc(ps, t);
    SpentOnAfter(ps, t);
    SpentOnPositiveIff(ps, t.text);
  }

  /** An expense with a label already present raises that label's total. */
  lemma GroupedRaise(ps: seq<Transaction>, keys: seq<string>, m: map<string, int>, t: Transaction)
    requires Grouped(ps, keys, m) && t.amount < 0 && t.text in m
    ensures Grouped(ps + [t], keys, m[t.text := m[t.text] + -t.amount])
  {
    TotalsAfterExpense(ps, m, t);
    FiguresAfterAppend(ps, t);
    ValuesAfterRaise(keys, m, t.text, -t.amount);
  }

  /** An expense with a new label adds that label at the end. */
  lemma GroupedInsert(ps: seq<Transaction>, keys: seq<string>, m: map<string, int>, t: Transaction)
    requires Grouped(ps, keys, m) && t.amount < 0 && t.text !in m
    ensures Grouped(ps + [t], keys + [t.text], m[t.text := -t.amount])
  {
    TotalsAfterExpense(ps, m, t);
    FiguresAfterAppend(ps, t);
    ValuesAfterInsert(keys, m, t.text, -t.amount);
    DistinctSnoc(keys, t.text);
  }

  lemma DistinctSnoc(keys: seq<string>, k: string)
    requires Distinct(keys) && k !in keys
    ensures Distinct(keys + [k])
  {
  }

  /** The grouping loop of the chart refresh. The filter on negative amounts
      and the `forEach` over its result are one pass here. `expenseData` is
      only ever asked for its own keys (a map lookup), which is what the
      truthiness test means for every label outside ObjectPrototypeNames.
      The labels come out distinct and are exactly the expense labels; each
      value is what was spent on its label; the values add up to the expense
      figure of the dashboard. */
  method ExpenseBreakdown(ts: seq<Transaction>) returns (expenseData: map<string, int>, labels: seq<string>, data: seq<int>)
    ensures expenseData.Keys == ExpenseLabels(ts)
    ensures forall l :: l in expenseData ==> expenseData[l] == SpentOn(ts, l)
    ensures Distinct(labels) && forall l :: l in labels <==> l in expenseData
    ensures |data| == |labels| && forall i :: 0 <= i < |labels| ==> data[i] == expenseData[labels[i]]
    ensures Sum(data) == Expense(ts)
  {
    expenseData := map[];
    var keys: seq<string> := [];
    var i := 0;
    while i < |ts|
      invariant 0 <= i <= |ts|
      invariant Grouped(ts[..i], keys, expenseData)
    {
      var t := ts[i];
      assert ts[..i + 1] == ts[..i] + [t];
      if t.amount < 0 {
        if t.text in expenseData {
          GroupedRaise(ts[..i], keys, expenseData, t);
          expenseData := expenseData[t.text := expenseData[t.text] + -t.amount];
        } else {
          GroupedInsert(ts[..i], keys, expenseData, t);
          expenseData := expenseData[t.text := -t.amount];
          keys := keys + [t.text];
        }
      } else {
        GroupedSkip(ts[..i], keys, expenseData, t);
      }
      i := i + 1;
    }
    assert ts[..i] == ts;
    labels := keys;
    data := ValuesOf(keys, expenseData);
  }

  // ---------------------------------------------------------------------
  // The grouping as written, on a plain `{}` object
  // ---------------------------------------------------------------------

  /** The properties every plain object inherits from Object.prototype. Reading
      one of them from `expenseData` gives a truthy value (a function, or the
      prototype object itself for "__proto__") before any text was stored. */
  const ObjectPrototypeNames: set<string> := {
    "constructor", "hasOwnProperty", "isPrototypeOf", "propertyIsEnumerable",
    "toLocaleString", "toString", "valueOf", "__defineGetter__",
    "__defineSetter__", "__lookupGetter__", "__lookupSetter__", "__proto__"
  }

  /** A property value of `expenseData`: a number, or the string that `+=`
      produces from an inherited function and a number. */
  datatype Slot = Number(value: int) | Garbled

  function AddTo(s: Slot, d: int): Slot {
    match s
    case Number(v) => Number(v + d)
    case Garbled => Garbled
  }

  /** The own properties of `expenseData` in insertion order, with values. */
  datatype ObjectState = ObjectState(keys: seq<string>, own: map<string, Slot>)

  /** One `forEach` step as the code is written: `expenseData[t.text]` is
      truthy for an own key and for every inherited name, so an inherited
      name takes the `+=` branch; assigning a string to "__proto__" is
      ignored and creates no key. */
  function StepAsWritten(o: ObjectState, t: Transaction): ObjectState {
    if t.amount >= 0 then o
    else if t.text in o.own then ObjectState(o.keys, o.own[t.text := AddTo(o.own[t.text], -t.amount)])
    else if t.text == "__proto__" then o
    else if t.text in ObjectPrototypeNames then ObjectState(o.keys + [t.text], o.own[t.text := Garbled])
    else ObjectState(o.keys + [t.text], o.own[t.text := Number(-t.amount)])
  }

  /** The `forEach` of the chart refresh as written, on an empty `{}`: its
      own keys, listed once each in insertion order, are expense labels, but
      what it stores for them is stated by InheritedLabelsMischarted and
      AsWrittenAgreesOffPrototype. */
  function ExpenseDataAsWritten(ts: seq<Transaction>): (r: ObjectState)
    ensures forall l :: l in r.keys <==> l in r.own
    ensures Distinct(r.keys)
    ensures r.own.Keys <= ExpenseLabels(ts)
  {
    if ts == [] then ObjectState([], map[])
    else
      var o := ExpenseDataAsWritten(ts[..|ts| - 1]);
      var t := ts[|ts| - 1];
      assert t.text !in o.own ==> Distinct(o.keys + [t.text]) by {
        if t.text !in o.own { DistinctSnoc(o.keys, t.text); }
      }
      ExpenseLabelsSnoc(ts[..|ts| - 1], ts[|ts| - 1]);
      assert ts == ts[..|ts| - 1] + [ts[|ts| - 1]];
      StepAsWritten(o, ts[|ts| - 1])
  }

  /** A single expense labelled "toString" is charted as a non-number instead
      of its amount, and one labelled "__proto__" is not charted at all. */
  lemma InheritedLabelsMischarted()
    ensures var ts := [Transaction(1, "toString", -500, "")];
      ExpenseDataAsWritten(ts).own["toString"] == Garbled && SpentOn(ts, "toString") == 500
    ensures var ts := [Transaction(2, "__proto__", -300, "")];
      "__proto__" !in ExpenseDataAsWritten(ts).keys && "__proto__" in ExpenseLabels(ts)
  {
  }

  /** The object after the records `ps` holds, for each expense label and
      nothing else, the number that was spent on it. */
  ghost predicate AgreesWith(ps: seq<Transaction>, o: ObjectState) {
    && o.own.Keys == ExpenseLabels(ps)
    && (forall l :: l in o.own ==> o.own[l] == Number(SpentOn(ps, l)))
    && (forall l :: l in o.keys <==> l in o.own)
  }

  lemma AgreesAfterStep(ps: seq<Transaction>, o: ObjectState, t: Transaction)
    requires AgreesWith(ps, o)
    requires t.amount < 0 ==> t.text !in ObjectPrototypeNames
    ensures AgreesWith(ps + [t], StepAsWritten(o, t))
  {
    ExpenseLabelsSnoc(ps, t);
    SpentOnAfter(ps, t);
    SpentOnPositiveIff(ps, t.text);
  }

  /** Labels outside ObjectPrototypeNames are the only cause: when no expense
      carries such a name, the code as written charts exactly what
      ExpenseBreakdown computes. */
  lemma {:induction false} AsWrittenAgreesOffPrototype(ts: seq<Transaction>)
    requires forall t :: t in ts && t.amount < 0 ==> t.text !in ObjectPrototypeNames
    ensures ExpenseDataAsWritten(ts).own.Keys == ExpenseLabels(ts)
    ensures forall l :: l in ExpenseDataAsWritten(ts).own ==> ExpenseDataAsWritten(ts).own[l] == Number(SpentOn(ts, l))
    ensures forall l :: l in ExpenseDataAsWritten(ts).keys <==> l in ExpenseDataAsWritten(ts).own
  {
    if ts != [] {
      var init, t := ts[..|ts| - 1], ts[|ts| - 1];
      assert ts == init + [t];
      assert forall u :: u in init ==> u in ts;
      AsWrittenAgreesOffPrototype(init);
      assert t in ts;
      AgreesAfterStep(init, ExpenseDataAsWritten(init), t);
    }
  }
}
