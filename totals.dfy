/**
  The dashboard's summary figures: the balance (sum of all amounts), the
  income (sum of the positive amounts) and the expense (the negated sum of
  the negative amounts). Sums are left folds, as `reduce` computes them.
 */
module Totals {
  import opened Records

  datatype Figures = Figures(total: int, income: int, expense: int)

  /** `reduce((acc, item) => acc + item, 0)`. */
  function Sum(s: seq<int>): int {
    if s == [] then 0 else Sum(s[..|s| - 1]) + s[|s| - 1]
  }

  /** `transactions.map(t => t.amount)`. */
  function Amounts(ts: seq<Transaction>): (r: seq<int>)
    ensures |r| == |ts| && forall i :: 0 <= i < |ts| ==> r[i] == ts[i].amount
  {
    seq(|ts|, i requires 0 <= i < |ts| => ts[i].amount)
  }

  /** `filter(item => item > 0)`. */
  function Positives(s: seq<int>): (r: seq<int>)
    ensures forall x :: x in r <==> x in s && x > 0
  {
    if s == [] then []
    else
      var init := Positives(s[..|s| - 1]);
      assert s == s[..|s| - 1] + [s[|s| - 1]];
      if s[|s| - 1] > 0 then init + [s[|s| - 1]] else init
  }

  /** `filter(item => item < 0)`. */
  function Negatives(s: seq<int>): (r: seq<int>)
    ensures forall x :: x in r <==> x in s && x < 0
  {
    if s == [] then []
    else
      var init := Negatives(s[..|s| - 1]);
      assert s == s[..|s| - 1] + [s[|s| - 1]];
      if s[|s| - 1] < 0 then init + [s[|s| - 1]] else init
  }

  /** `filter` keeps each positive amount as often as it occurs. */
  lemma {:induction false} PositivesKeepCounts(s: seq<int>)
    ensures forall x :: multiset(Positives(s))[x] == if x > 0 then multiset(s)[x] else 0
  {
    if s != [] {
      var init := s[..|s| - 1];
      assert s == init + [s[|s| - 1]];
      PositivesKeepCounts(init);
    }
  }

  /** `filter` keeps each negative amount as often as it occurs. */
  lemma {:induction false} NegativesKeepCounts(s: seq<int>)
    ensures forall x :: multiset(Negatives(s))[x] == if x < 0 then multiset(s)[x] else 0
  {
    if s != [] {
      var init := s[..|s| - 1];
      assert s == init + [s[|s| - 1]];
      NegativesKeepCounts(init);
    }
  }

  function Balance(ts: seq<Transaction>): int {
    Sum(Amounts(ts))
  }

  function Income(ts: seq<Transaction>): int {
    Sum(Positives(Amounts(ts)))
  }

  function Expense(ts: seq<Transaction>): int {
    -Sum(Negatives(Amounts(ts)))
  }

  /** The three figures the dashboard shows, before rounding for display. */
  function ComputeFigures(ts: seq<Transaction>): (f: Figures)
    ensures f.total == f.income - f.expense
    ensures f.income >= 0 && f.expense >= 0
  {
    BalanceIsIncomeMinusExpense(ts);
    IncomeNonNegative(ts);
    ExpenseNonNegative(ts);
    Figures(Balance(ts), Income(ts), Expense(ts))
  }

  // ---------------------------------------------------------------------
  // Facts about sums and filters
  // ---------------------------------------------------------------------

  lemma SumSnoc(s: seq<int>, x: int)
    ensures Sum(s + [x]) == Sum(s) + x
  {
  }

  lemma PositivesSnoc(s: seq<int>, x: int)
    ensures Positives(s + [x]) == Positives(s) + if x > 0 then [x] else []
  {
  }

  lemma NegativesSnoc(s: seq<int>, x: int)
    ensures Negatives(s + [x]) == Negatives(s) + if x < 0 then [x] else []
  {
  }

  lemma AmountsSnoc(ts: seq<Transaction>, t: Transaction)
    ensures Amounts(ts + [t]) == Amounts(ts) + [t.amount]
  {
  }

  /** Every amount falls in exactly one of: positive, negative, zero; zeros
      add nothing, so the sum splits into the two filtered sums. */
  lemma {:induction false} SumSplitsBySign(s: seq<int>)
    ensures Sum(s) == Sum(Positives(s)) + Sum(Negatives(s))
  {
    if s != [] {
      var init, x := s[..|s| - 1], s[|s| - 1];
      assert s == init + [x];
      SumSplitsBySign(init);
      PositivesSnoc(init, x);
      NegativesSnoc(init, x);
      SumSnoc(Positives(init), x);
      SumSnoc(Negatives(init), x);
    }
  }

  lemma AllPositive(s: seq<int>)
    ensures forall i :: 0 <= i < |Positives(s)| ==> Positives(s)[i] > 0
  {
  }

  lemma AllNegative(s: seq<int>)
    ensures forall i :: 0 <= i < |Negatives(s)| ==> Negatives(s)[i] < 0
  {
  }

  lemma {:induction false} SumOfPositives(s: seq<int>)
    requires forall i :: 0 <= i < |s| ==> s[i] > 0
    ensures Sum(s) >= 0
    ensures s != [] ==> Sum(s) > 0
  {
    if s != [] {
      SumOfPositives(s[..|s| - 1]);
    }
  }

  lemma {:induction false} SumOfNegatives(s: seq<int>)
    requires forall i :: 0 <= i < |s| ==> s[i] < 0
    ensures Sum(s) <= 0
    ensures s != [] ==> Sum(s) < 0
  {
    if s != [] {
      SumOfNegatives(s[..|s| - 1]);
    }
  }

  // ---------------------------------------------------------------------
  // What the figures mean
  // ---------------------------------------------------------------------

  /** The balance shown is the income less the expense. */
  lemma BalanceIsIncomeMinusExpense(ts: seq<Transaction>)
    ensures Balance(ts) == Income(ts) - Expense(ts)
  {
    SumSplitsBySign(Amounts(ts));
  }

  lemma IncomeNonNegative(ts: seq<Transaction>)
    ensures Income(ts) >= 0
  {
    AllPositive(Amounts(ts));
    SumOfPositives(Positives(Amounts(ts)));
  }

  lemma ExpenseNonNegative(ts: seq<Transaction>)
    ensures Expense(ts) >= 0
  {
    AllNegative(Amounts(ts));
    SumOfNegatives(Negatives(Amounts(ts)));
  }

  /** The income is positive exactly when some record has a positive amount. */
  lemma IncomePositiveIff(ts: seq<Transaction>)
    ensures Income(ts) > 0 <==> exists i :: 0 <= i < |ts| && ts[i].amount > 0
  {
    var p := Positives(Amounts(ts));
    AllPositive(Amounts(ts));
    SumOfPositives(p);
    if exists i :: 0 <= i < |ts| && ts[i].amount > 0 {
      var i :| 0 <= i < |ts| && ts[i].amount > 0;
      assert Amounts(ts)[i] in p;
    } else {
      assert p == [] || p[0] in Amounts(ts);
    }
  }

  /** The expense is positive exactly when some record has a negative amount. */
  lemma ExpensePositiveIff(ts: seq<Transaction>)
    ensures Expense(ts) > 0 <==> exists i :: 0 <= i < |ts| && ts[i].amount < 0
  {
    var n := Negatives(Amounts(ts));
    AllNegative(Amounts(ts));
    SumOfNegatives(n);
    if exists i :: 0 <= i < |ts| && ts[i].amount < 0 {
      var i :| 0 <= i < |ts| && ts[i].amount < 0;
      assert Amounts(ts)[i] in n;
    } else {
      assert n == [] || n[0] in Amounts(ts);
    }
  }

  /** Appending a record moves each figure by that record's share: the
      balance by its amount, the income by its positive part and the expense
      by its negative part. A zero amount moves neither income nor expense. */
  lemma FiguresAfterAppend(ts: seq<Transaction>, t: Transaction)
    ensures Balance(ts + [t]) == Balance(ts) + t.amount
    ensures Income(ts + [t]) == Income(ts) + (if t.amount > 0 then t.amount else 0)
    ensures Expense(ts + [t]) == Expense(ts) + (if t.amount < 0 then -t.amount else 0)
  {
    var a := Amounts(ts);
    AmountsSnoc(ts, t);
    SumSnoc(a, t.amount);
    PositivesSnoc(a, t.amount);
    NegativesSnoc(a, t.amount);
    SumSnoc(Positives(a), t.amount);
    SumSnoc(Negatives(a), t.amount);
  }
}
