/**
  The page's transaction list: the module-level `transactions` array that the
  add form appends to and the delete buttons filter, and the validation the
  add form applies first.
 */
module Ledger {
  import opened Wrappers
  import opened JsString
  import opened Records

  /** The two alerts of the add form: "Please add a text and amount" and
      "Please enter a valid number". */
  datatype ValidationError = MissingTextOrAmount | NotANumber

  /** The checks of the add form, in their order. `amountText` is the raw
      field; `parsed` is `+amountText` in cents, None where `isNaN` holds.
      A blank field (nothing but whitespace) is reported before a bad number. */
  function Validate(text: string, amountText: string, parsed: Option<int>): (r: Outcome<ValidationError>)
    ensures r == Fail(MissingTextOrAmount) <==> AllWhitespace(text) || AllWhitespace(amountText)
    ensures r == Fail(NotANumber) <==> !AllWhitespace(text) && !AllWhitespace(amountText) && parsed.None?
    ensures r == Pass <==> !AllWhitespace(text) && !AllWhitespace(amountText) && parsed.Some?
  {
    if Trim(text) == "" || Trim(amountText) == "" then Fail(MissingTextOrAmount)
    else if parsed.None? then Fail(NotANumber)
    else Pass
  }

  class Ledger {
    /** All records, oldest first. */
    var transactions: seq<Transaction>

    /** Start-up: the stored list if the storage key is present, else none. */
    constructor Load(stored: Option<seq<Transaction>>)
      ensures transactions == if stored.Some? then stored.value else []
    {
      transactions := if stored.Some? then stored.value else [];
    }

    /** `addTransaction`: a record passing Validate is appended with the text
        as typed (untrimmed); a refused one leaves the list as it was. The id
        and the date come from outside (random id, host-formatted date). */
    method Add(text: string, amountText: string, parsed: Option<int>, id: int, date: string)
      returns (outcome: Outcome<ValidationError>)
      modifies this
      ensures outcome == Validate(text, amountText, parsed)
      ensures outcome.Fail? ==> transactions == old(transactions)
      ensures outcome.Pass? ==> parsed.Some?
      ensures outcome.Pass? ==> transactions == old(transactions) + [Transaction(id, text, parsed.value, date)]
    {
      outcome := Validate(text, amountText, parsed);
      if outcome.Pass? {
        var transaction := Transaction(id, text, parsed.value, date);
        transactions := transactions + [transaction];
      }
    }

    /** `removeTransaction`: every record carrying `id` goes. */
    method Remove(id: int)
      modifies this
      ensures transactions == RemoveId(old(transactions), id)
    {
      transactions := RemoveId(transactions, id);
    }
  }

  /** A client of the class: a valid add grows the list by exactly one record
      at the end, leaving the earlier ones in place, and removing its id
      afterwards (when the id was unused) restores the list. */
  method AddThenRemove(l: Ledger, text: string, amountText: string, parsed: Option<int>, id: int, date: string)
    requires forall t :: t in l.transactions ==> t.id != id
    modifies l
    ensures l.transactions == old(l.transactions)
  {
    var outcome := l.Add(text, amountText, parsed, id, date);
    if outcome.Pass? {
      assert |l.transactions| == |old(l.transactions)| + 1;
      assert l.transactions[..|l.transactions| - 1] == old(l.transactions);
      RemoveUndoesAppend(old(l.transactions), l.transactions[|l.transactions| - 1]);
      l.Remove(id);
    }
  }
}
