/**
  The transaction record of the expense tracker and the views of a list of
  records that do not aggregate: removal by id, the dashboard's "recent"
  list and the way one amount is shown.
 */
module Records {

  /** One income (amount > 0) or expense (amount < 0) entry. Amounts are in
      cents; `date` is the host's formatted date string, kept opaque. */
  datatype Transaction = Transaction(id: int, text: string, amount: int, date: string)

  // ---------------------------------------------------------------------
  // Removal by id: `transactions.filter(t => t.id !== id)`
  // ---------------------------------------------------------------------

  /** `a` is `b` with some elements left out, the rest in their order. */
  predicate IsSubsequence<T(==)>(a: seq<T>, b: seq<T>) {
    if a == [] then true
    else if b == [] then false
    else if a[0] == b[0] then IsSubsequence(a[1..], b[1..])
    else IsSubsequence(a, b[1..])
  }

  /** The records whose id differs from `id`: none of them carries `id`,
      duplicates included. */
  function RemoveId(ts: seq<Transaction>, id: int): (r: seq<Transaction>)
    ensures forall t :: t in r ==> t.id != id
    ensures |r| <= |ts|
  {
    if ts == [] then []
    else if ts[0].id != id then [ts[0]] + RemoveId(ts[1..], id)
    else RemoveId(ts[1..], id)
  }

  /** Every record with another id survives removal, as often as it was
      there, and the survivors keep their relative order. */
  lemma {:induction false} RemoveIdKeepsOthers(ts: seq<Transaction>, id: int)
    ensures forall t :: multiset(RemoveId(ts, id))[t] == if t.id == id then 0 else multiset(ts)[t]
    ensures IsSubsequence(RemoveId(ts, id), ts)
  {
    if ts != [] {
      var r := RemoveId(ts, id);
      var rest := RemoveId(ts[1..], id);
      RemoveIdKeepsOthers(ts[1..], id);
      assert ts == [ts[0]] + ts[1..];
      if ts[0].id != id {
        assert r == [ts[0]] + rest;
        assert r[1..] == rest;
      } else {
        assert r == rest;
        assert rest == [] || rest[0] != ts[0];
      }
    }
  }

  /** Removing an id that no record carries changes nothing. */
  lemma {:induction false} RemoveAbsentId(ts: seq<Transaction>, id: int)
    requires forall t :: t in ts ==> t.id != id
    ensures RemoveId(ts, id) == ts
  {
    if ts != [] {
      RemoveAbsentId(ts[1..], id);
    }
  }

  /** A second removal of the same id changes nothing. */
  lemma {:induction false} RemoveIdempotent(ts: seq<Transaction>, id: int)
    ensures RemoveId(RemoveId(ts, id), id) == RemoveId(ts, id)
  {
    RemoveAbsentId(RemoveId(ts, id), id);
  }

  /** Removal works piecewise over a concatenation. */
  lemma {:induction false} RemoveIdAppend(a: seq<Transaction>, b: seq<Transaction>, id: int)
    ensures RemoveId(a + b, id) == RemoveId(a, id) + RemoveId(b, id)
  {
    if a == [] {
      assert a + b == b;
    } else {
      var ab := a + b;
      assert ab[0] == a[0] && ab[1..] == a[1..] + b;
      RemoveIdAppend(a[1..], b, id);
      if a[0].id != id {
        calc {
          RemoveId(ab, id);
          [a[0]] + RemoveId(a[1..] + b, id);
          [a[0]] + (RemoveId(a[1..], id) + RemoveId(b, id));
          ([a[0]] + RemoveId(a[1..], id)) + RemoveId(b, id);
        }
      }
    }
  }

  /** Adding a record with an id not yet in use and then removing that id
      gives back the ledger as it was. */
  lemma RemoveUndoesAppend(ts: seq<Transaction>, t: Transaction)
    requires forall u :: u in ts ==> u.id != t.id
    ensures RemoveId(ts + [t], t.id) == ts
  {
    RemoveIdAppend(ts, [t], t.id);
    RemoveAbsentId(ts, t.id);
  }

  /** Removals of two ids can be done in either order. */
  lemma {:induction false} RemoveCommutes(ts: seq<Transaction>, i: int, j: int)
    ensures RemoveId(RemoveId(ts, i), j) == RemoveId(RemoveId(ts, j), i)
  {
    if ts != [] {
      RemoveCommutes(ts[1..], i, j);
    }
  }

  // ---------------------------------------------------------------------
  // The dashboard list: `transactions.slice(-5).reverse()`
  // ---------------------------------------------------------------------

  /** How many records the dashboard shows. */
  const RecentCount: nat := 5

  /** `s.reverse()` on a fresh copy. */
  function Reversed<T>(s: seq<T>): (r: seq<T>)
    ensures |r| == |s|
    ensures forall i :: 0 <= i < |s| ==> r[i] == s[|s| - 1 - i]
  {
    if s == [] then [] else [s[|s| - 1]] + Reversed(s[..|s| - 1])
  }

  /** `s.slice(-k)` for `k >= 1`: the last `k` elements, or all of them if
      there are fewer. (`slice(-0)` would be the whole array.) */
  function LastN<T>(s: seq<T>, k: nat): (r: seq<T>)
    requires k > 0
    ensures |r| == if |s| < k then |s| else k
    ensures r == s[|s| - |r|..]
  {
    if |s| <= k then s else s[|s| - k..]
  }

  /** The last five records, newest first. */
  function Recent(ts: seq<Transaction>): (r: seq<Transaction>)
    ensures |r| == if |ts| < RecentCount then |ts| else RecentCount
    ensures forall i :: 0 <= i < |r| ==> r[i] == ts[|ts| - 1 - i]
  {
    Reversed(LastN(ts, RecentCount))
  }

  /** With at most five records the dashboard shows all of them, each as
      often as it occurs. */
  lemma RecentShowsAllOfShortLedger(ts: seq<Transaction>)
    requires |ts| <= RecentCount
    ensures multiset(Recent(ts)) == multiset(ts)
  {
    var r := Recent(ts);
    TailFirstPermutation(r, ts);
  }

  /** A sequence read backwards holds the same elements. */
  lemma {:induction false} TailFirstPermutation<T>(r: seq<T>, s: seq<T>)
    requires |r| == |s|
    requires forall i :: 0 <= i < |r| ==> r[i] == s[|s| - 1 - i]
    ensures multiset(r) == multiset(s)
  {
    if s != [] {
      var n := |s|;
      assert r == [r[0]] + r[1..];
      assert s == s[..n - 1] + [s[n - 1]];
      TailFirstPermutation(r[1..], s[..n - 1]);
    }
  }

  /** After a record is appended it heads the dashboard list, followed by
      the four (or fewer) that were newest before. */
  lemma {:induction false} RecentAfterAppend(ts: seq<Transaction>, t: Transaction)
    ensures Recent(ts + [t]) == [t] + Recent(ts)[..if |ts| < RecentCount - 1 then |ts| else RecentCount - 1]
  {
    var a := Recent(ts + [t]);
    var b := [t] + Recent(ts)[..if |ts| < RecentCount - 1 then |ts| else RecentCount - 1];
    assert |a| == |b|;
    forall i | 0 <= i < |a| ensures a[i] == b[i] {
      if i > 0 { assert b[i] == Recent(ts)[i - 1]; }
    }
  }

  // ---------------------------------------------------------------------
  // Showing one amount: sign, colour class and magnitude
  // ---------------------------------------------------------------------

  /** The CSS class ('minus'/'plus') and its colour ('--danger'/'--success'). */
  datatype Style = Minus | Plus

  datatype Shown = Shown(sign: char, style: Style, magnitude: nat)

  /** How an amount is put on screen: '-' and the 'minus' style exactly for
      negative amounts, and the absolute value; sign and magnitude together
      give back the amount. */
  function Display(amount: int): (v: Shown)
    ensures v.sign == '-' <==> amount < 0
    ensures v.sign == '+' <==> amount >= 0
    ensures v.style == Minus <==> v.sign == '-'
    ensures (if v.sign == '-' then -(v.magnitude as int) else v.magnitude) == amount
  {
    if amount < 0 then Shown('-', Minus, -amount) else Shown('+', Plus, amount)
  }
}
