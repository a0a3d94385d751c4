# Expense tracker ledger, modelled in Dafny

The expense tracker is a browser page. It keeps a list of transactions: an id, a label (`text`), a signed amount and a date string. The user adds records through a form and deletes them with a button on each row. The dashboard shows three things:
- the five newest records, newest first;
- the balance, income and expense figures;
- a doughnut chart of expenses grouped by label.

This project models that ledger logic from `script.js` and proves what it computes.

Modules, one per concern of the script:

- `Wrappers`: `Option` (an already-parsed amount) and `Outcome` (accepted, or refused with an alert).
- `JsString`: the whitespace set and `String.prototype.trim`, which the add form uses to detect blank fields.
- `Records`: the `Transaction` record, removal by id, the recent list (`slice(-5).reverse()`) and how one amount is shown.
- `Totals`: balance, income and expense as left folds (`reduce`) over `map`/`filter`.
- `Breakdown`: the chart's grouping loop, proved against a reference sum. It also holds the grouping as written on a plain object (see Findings).
- `Ledger`: the class holding `transactions`. It has `Add` (validate, then append) and `Remove` (filter out an id).

Amounts are integers (cents).
- `removeTransaction` returns nothing, so `Remove` returns nothing.
- Ids are not unique: the id is a parameter of `Add`, and `Remove` drops every record carrying it.
- The label checked for blankness is the trimmed one, but the label stored is the text as typed.

## Model

| member | source | states |
|---|---|---|
| `JsString.TrimStart` | script.js:55 | the result is the suffix of the input left after its leading whitespace, and starts with a non-whitespace character or is empty |
| `JsString.TrimEnd` | script.js:55 | the result is the prefix of the input left before its trailing whitespace, and ends with a non-whitespace character or is empty |
| `JsString.Trim` | script.js:55 | `trim()` is empty exactly when the string is all whitespace; otherwise it starts and ends on a non-whitespace character |
| `JsString.TrimCutsOnlyWhitespace` | script.js:55 | `trim()` is a contiguous piece of the string with only whitespace cut off at each end |
| `Ledger.Validate` | script.js:55-61 | refused as blank exactly when the text or the amount field is all whitespace; refused as not a number exactly when both are filled and the parse failed; accepted exactly when both are filled and the amount parsed |
| `Ledger.Ledger.Load` | script.js:20-25 | the list starts as the stored list when the storage key exists, and empty otherwise |
| `Ledger.Ledger.Add` | script.js:52-80 | the outcome is Validate's verdict; a refused add leaves the list unchanged; an accepted add appends one record with the given id, the untrimmed text, the parsed amount and the date, and keeps all earlier records in order |
| `Ledger.Ledger.Remove` | script.js:216-220 | the new list is the old list with every record carrying the id filtered out |
| `Ledger.AddThenRemove` | script.js:63-70 | adding a record with an unused id and then deleting it restores the list |
| `Records.RemoveId` | script.js:217 | no remaining record carries the id, duplicates included, and the list never grows |
| `Records.RemoveIdKeepsOthers` | script.js:217 | every record with another id survives as many times as it occurred, and the survivors keep their relative order |
| `Records.RemoveAbsentId` | script.js:217 | removing an id no record carries changes nothing |
| `Records.RemoveIdempotent` | script.js:217 | removing the same id twice is the same as removing it once |
| `Records.RemoveIdAppend` | script.js:217 | removal distributes over concatenation |
| `Records.RemoveUndoesAppend` | script.js:70 | removing the id of a record just appended with an unused id gives back the earlier list |
| `Records.RemoveCommutes` | script.js:217 | removing two ids gives the same list in either order |
| `Records.Reversed` | script.js:229 | `reverse()` keeps the length and puts element `n-1-i` at position `i` |
| `Records.LastN` | script.js:229 | for k >= 1, `slice(-k)` is the suffix of length min(k, n); the code uses k = 5 |
| `Records.Recent` | script.js:229 | the dashboard list has min(5, n) records, and its record `i` is `transactions[n-1-i]` (newest first) |
| `Records.RecentShowsAllOfShortLedger` | script.js:229 | with at most five records, the dashboard list holds every record exactly as often as the ledger does |
| `Records.RecentAfterAppend` | script.js:70 | after an append, the new record heads the dashboard list, followed by the up to four records that were newest before |
| `Records.Display` | script.js:96-107 | the sign is '-' and the style 'minus' exactly for a negative amount, '+' and 'plus' otherwise; applying the sign to the magnitude shown gives back the amount |
| `Totals.Amounts` | script.js:142 | one amount per record, in order |
| `Totals.Positives` | script.js:145 | holds exactly the strictly positive amounts |
| `Totals.Negatives` | script.js:149 | holds exactly the strictly negative amounts |
| `Totals.PositivesKeepCounts` | script.js:145 | the positive filter keeps each positive amount as often as it occurs and drops every other amount |
| `Totals.NegativesKeepCounts` | script.js:149 | the negative filter keeps each negative amount as often as it occurs and drops every other amount |
| `Totals.ComputeFigures` | script.js:142-151 | total = income - expense, income >= 0 and expense >= 0 |
| `Totals.SumSplitsBySign` | script.js:143-151 | the sum of all amounts is the sum of the positive ones plus the sum of the negative ones; zeros count in neither |
| `Totals.BalanceIsIncomeMinusExpense` | script.js:143-151 | the balance equals the income minus the expense |
| `Totals.IncomeNonNegative` | script.js:144-147 | the income is never negative |
| `Totals.ExpenseNonNegative` | script.js:148-151 | the expense (the negated sum of the negative amounts) is never negative |
| `Totals.IncomePositiveIff` | script.js:144-147 | the income is positive exactly when some record has a positive amount |
| `Totals.ExpensePositiveIff` | script.js:148-151 | the expense is positive exactly when some record has a negative amount |
| `Totals.FiguresAfterAppend` | script.js:142-151 | appending a record moves the balance by its amount, the income by its positive part and the expense by its negative part; a zero amount moves neither income nor expense |
| `Breakdown.SpentOnPositiveIff` | script.js:162-171 | the amount spent on a label is never negative, and is positive exactly for labels of expense records |
| `Breakdown.ValuesOf` | script.js:174 | `Object.values` lists the value of each key in key order |
| `Breakdown.ExpenseBreakdown` | script.js:162-174 | the keys of `expenseData` are exactly the labels of the negative-amount records; each value is the sum of the absolute amounts of the expense records with that label; the chart labels are those keys, each once; the chart data are their values in label order and add up to the dashboard's expense figure |
| `Breakdown.ExpenseDataAsWritten` | script.js:163-171 | the grouping on a plain `{}` as written: its listed keys are its own keys, once each, and all are expense labels; what it stores is stated by `Breakdown.InheritedLabelsMischarted` and `Breakdown.AsWrittenAgreesOffPrototype` |
| `Breakdown.InheritedLabelsMischarted` | script.js:163-171 | as written, an expense labelled "toString" is charted as a non-number instead of its amount, and one labelled "__proto__" is not charted at all |
| `Breakdown.AsWrittenAgreesOffPrototype` | script.js:163-171 | as written, when no expense label names an Object.prototype property, the object holds exactly the expense labels, each with the amount spent on it |

## Left out

- DOM lookups, the sidebar and the modal, and event wiring (script.js:1-17, 29-50, 240-244): UI plumbing with nothing to compute.
- Building the list items with `innerHTML`/`appendChild` (script.js:93-136). Only the sign, style and magnitude rule is modelled, as `Records.Display`. The `date || 'Today'` fallback is left out too.
- The Chart.js calls, including destroy before re-create and the colour list (script.js:176-212): a foreign library.
- `localStorage` and `JSON.parse`/`JSON.stringify` (script.js:20-25, 86-88): browser I/O. `Ledger.Ledger.Load` takes the already-decoded stored list as an `Option`. Nothing writes a snapshot back after a mutation, and a stored literal `null` is not modelled.
- `generateID` (script.js:82-84) uses `Math.random`. The id is a parameter of `Add`, and nothing assumes ids are unique.
- `new Date().toLocaleDateString()` (script.js:67) is host-locale I/O. The date is an opaque string parameter.
- Number parsing. `isNaN(amount.value)` and `+amount.value` on strings are taken together as the `parsed` parameter: `None` means NaN, `Some(c)` means an amount of `c` cents. Infinity, fractions of a cent and other float results are not modelled.
- Floating-point sums and `toFixed(2)` rounding (script.js:143-151, 107). Amounts are exact integers, and the figures are modelled before rounding.
- `init` and `updateFullList` (script.js:116-136, 224-238) only re-render. Their data inputs are modelled as `Records.Recent`, `Totals.ComputeFigures` and `Breakdown.ExpenseBreakdown`. Clearing the form fields and closing the modal (script.js:76-78) is UI state.
- `Breakdown.ExpenseBreakdown`: does not state the order of its labels. It returns them in first-occurrence order, but `Object.keys` would list integer-like labels first, in numeric order.
- `Breakdown.ExpenseBreakdown` fuses the `filter` (script.js:162) with the `forEach` (script.js:165-171) into one loop. The result is the same.

## Findings

| source | as written | input that shows it | evidently intended | confidence | as-written member | corrected member |
|---|---|---|---|---|---|---|
| script.js:163-171 | `expenseData` is a plain `{}`, and `if (expenseData[t.text])` is also truthy for names inherited from Object.prototype. For such a label, `+=` string-concatenates the inherited function with the amount. For "__proto__", the assignment is silently dropped. | one transaction `{text: "toString", amount: -5}` charts "toString" with a non-numeric value; `{text: "__proto__", amount: -3}` is missing from the chart | each expense label maps to its total; only keys already stored by the loop count as present (an own-property or `Map` lookup) | not executed | `Breakdown.ExpenseDataAsWritten` (exhibited by `Breakdown.InheritedLabelsMischarted`) | `Breakdown.ExpenseBreakdown` |
