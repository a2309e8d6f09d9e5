# Bookstore cart and login gate: a Dafny model

This project models the logic of a small browser bookstore simulator (`script.js`).
A login form gates access. After a successful login, the user sees the catalogue
of one branch (CSE, ECE, EEE or CIVIL) and fills a shopping cart. The cart is
persisted in one storage slot, and the subtotal, 5% tax and grand total are
recomputed from it.

Modules, one per component of the script:

- `Catalogue` (catalogue.dfy): the constant `BOOKS` map, `BooksFor` (an unknown
  branch gives the empty list) and `FindBook` (the first book with an id).
- `CartLines` (cart_lines.dfy): line items keyed by (id, branch), and the storage
  slot (`Absent | Malformed | Lines`) with its "unreadable reads as empty" rule.
  It also holds the specification functions of the four cart operations
  (`Added`, `QtyChanged`, `Removed`, and the empty cart). The lemmas prove what
  each operation changes and leaves alone, and that each keeps the invariant
  `WellFormed`: keys are unique and every quantity is at least 1.
- `CartStore` (cart_store.dfy): the class `Store`, whose one field is the storage
  slot. Its methods load the cart, search it with a `findIndex` loop (`FindLine`),
  change it and write it back. Each method's postcondition ties the new slot to
  the specification function of the old cart.
- `TotalsCalculator` (totals.dfy): the subtotal loop of the cart view as a method
  (`ComputeTotals`), proved against the recursive `Subtotal`. The lemmas prove
  that the totals do not depend on line order, that the bounds hold, and how add
  and remove move the subtotal. They also prove the worked example: adding book
  "ai" twice gives 126.00 / 6.30 / 132.30.
- `SessionGate` (session_gate.dfy): JavaScript's `trim` and the three independent
  login checks (`ValidateLogin`, which keeps the source's `ok` flag). The class
  `Session` holds a `Gate` (`Unauthenticated | Active(branch)`): a passing login
  opens the gate for the chosen branch, and a failing one leaves the state
  unchanged.

The model follows these details of the code:

- The subtotal reads a missing or zero quantity as 1 (`item.qty || 1`).
- The branch check only tests for a non-empty value, not membership of the four
  branches.
- `changeQty` on a missing key does not write the slot back, while `removeItem`
  always does.

Prices are exact `real`s. Quantities are unbounded integers. A quantity of 0
stands for a missing `qty` field.

## Model

| member | source | states |
|---|---|---|
| Catalogue.BooksFor | script.js:87 | a branch outside {CSE, ECE, EEE, CIVIL} yields the empty list; a known branch yields its (non-empty) list from `BOOKS` |
| Catalogue.FindBook | script.js:107 | the result is the first book of the list whose id matches; it is absent exactly when no book has that id |
| Catalogue.FindBookUnique | script.js:107 | in a list with unique ids, looking up any book's id returns that very book |
| Catalogue.CatalogueWellFormed | script.js:5-24 | every branch list of the demo data has unique ids and non-negative prices |
| CartLines.Load | script.js:29-31 | a slot holding lines reads as exactly those lines; a missing or unreadable slot reads as the empty cart |
| CartLines.Save | script.js:32 | the written slot reads back as the very cart that was written |
| CartLines.EffectiveQty | script.js:122 | the quantity, or 1 when it is missing (the same reading at script.js lines 134 and 165): a missing quantity (0) gives exactly 1, a present one is kept, so the result is never 0 and is at least 1 for a non-negative quantity |
| CartLines.NewLine | script.js:124 | the pushed line holds the book's (id, branch) key, has quantity 1 and the book's price |
| CartLines.Added | script.js:118-126 | the cart keeps its length when the key was present and grows by one line otherwise; either way the key is in the result |
| CartLines.QtyChanged | script.js:130-137 | the length and the key of every position are kept; a line that changes is one holding the key, and its new quantity is at least 1 |
| CartLines.Removed | script.js:141 | removal never lengthens the cart; the filter's content is stated by the Removed* lemmas below |
| CartLines.LoadSaveRoundTrip | script.js:29-32 | both round trips: writing a cart and reading it back gives the same ordered lines, and reading a readable slot and writing it back gives the same slot |
| CartLines.LoadUnreadableIsEmpty | script.js:30 | a missing, falsy or unparseable stored cart reads as the empty cart; the cart read is empty exactly in those cases or when an empty list is stored |
| CartLines.IndexOf | script.js:120 | the index of the first line holding (id, branch), or -1 exactly when no line holds it |
| CartLines.IndexOfUnique | script.js:120 | in a cart with unique keys, the search finds the one line holding the key |
| CartLines.AddExistingIncrements | script.js:120-122 | adding a present key raises the quantity of the first line holding it (in a well-keyed cart, the only one) by exactly one (a missing quantity counting as 1); every other line and the order are unchanged |
| CartLines.AddNewAppends | script.js:123-124 | adding a new key appends one line at the end with quantity 1 and id, title, price, author, publisher, img and branch copied from the book; the existing lines are unchanged |
| CartLines.AddPreservesWellFormed | script.js:118-126 | adding keeps keys unique and quantities at least 1, and the key is in the cart afterwards |
| CartLines.RepeatedAddsOneLine | script.js:118-126 | n adds of one key to a cart without it leave exactly one new line whose quantity is n and whose price and display fields are those of the first add |
| CartLines.ChangeQtyPresent | script.js:130-137 | on a present key the quantity of the first line holding it becomes max(1, quantity + delta), which is at least 1 for any delta; no other line changes |
| CartLines.ChangeQtyAbsent | script.js:132-133 | on an absent key the cart is unchanged |
| CartLines.ChangeQtyPreservesWellFormed | script.js:130-137 | a quantity change keeps keys unique and quantities at least 1 |
| CartLines.QtyChangesKeepWellFormed | script.js:130-137 | any run of quantity changes, however negative the deltas, keeps every quantity at least 1 |
| CartLines.RemovedConcat | script.js:141 | removal distributes over concatenation (it is a filter, order kept) |
| CartLines.RemovedSingle | script.js:141 | on one line, removal drops it exactly when it holds the key |
| CartLines.RemovedOnlyOthers | script.js:141 | every remaining line comes from the cart and does not hold the key |
| CartLines.RemovedKeepsOthers | script.js:141 | every line whose key differs survives removal |
| CartLines.RemoveAbsentIsIdentity | script.js:140-144 | removing a key no line holds, in particular from the empty cart, leaves the cart as it was |
| CartLines.RemovePresentCutsLine | script.js:141 | in a cart with unique keys, removing a present key yields the lines before it followed by the lines after it |
| CartLines.RemovedKeepsUniqueKeys | script.js:141 | filtering a cart with unique keys leaves a cart with unique keys |
| CartLines.RemovedKeepsQuantities | script.js:141 | filtering keeps every remaining quantity at least 1 when every quantity was |
| CartLines.RemovePreservesWellFormed | script.js:140-144 | removal keeps the invariant and leaves no line with the key |
| CartLines.ClearedIsEmptyWellFormed | script.js:146-149 | the cleared cart reads back as empty and satisfies the invariant |
| CartStore.FindLine | script.js:120 | the `findIndex` loop returns the first index whose line holds (id, branch), or -1 |
| CartStore.Store.constructor | script.js:29-31 | the store opens on the persisted slot; a missing or unreadable slot gives a cart that satisfies the invariant |
| CartStore.Store.Snapshot | script.js:29-31 | the cart the page sees: the stored lines, or the empty cart when nothing readable is stored |
| CartStore.Store.GetCart | script.js:29-31 | reading the slot gives the stored lines, or the empty cart when nothing readable is stored |
| CartStore.Store.AddToCart | script.js:118-126 | the slot afterwards holds `Added` of the old cart, and the cart invariant is kept |
| CartStore.Store.AddFromCatalogue | script.js:104-111 | an id not found in the branch's list leaves the slot untouched; otherwise the found book is added for that branch |
| CartStore.Store.ChangeQty | script.js:130-138 | with the key present the slot holds `QtyChanged` of the old cart; with it absent the slot is untouched; the invariant is kept |
| CartStore.Store.RemoveItem | script.js:140-144 | the slot always receives the filtered cart, and the invariant is kept |
| CartStore.Store.ClearCart | script.js:146-149 | the slot holds the empty cart |
| TotalsCalculator.LineTotal | script.js:165 | a line with a missing quantity contributes its price once; with non-negative quantity and price a line contributes at least its price |
| TotalsCalculator.Subtotal | script.js:163-166 | the sum of the line totals; it is non-negative when no quantity or price is negative |
| TotalsCalculator.TotalsOf | script.js:163-194 | the subtotal is the sum of the lines, the tax is 5% of it and the grand total is subtotal plus tax, i.e. 1.05 times the subtotal |
| TotalsCalculator.ComputeTotals | script.js:163-194 | the loop's subtotal is the sum over lines of (quantity, or 1 if missing) times price; tax is 5% of it and the grand total is subtotal plus tax |
| TotalsCalculator.SubtotalAppend | script.js:163-166 | the subtotal of two carts in sequence is the sum of their subtotals |
| TotalsCalculator.SubtotalPermutation | script.js:163-166 | the subtotal does not depend on the order of the lines |
| TotalsCalculator.TotalsPermutation | script.js:163-194 | permuting the lines gives the same subtotal, tax and grand total |
| TotalsCalculator.TotalsBounds | script.js:163-194 | with no negative price or quantity, 0 <= subtotal <= grand total and tax >= 0 |
| TotalsCalculator.AddRaisesSubtotal | script.js:118-126 | in a well-formed cart, one add raises the subtotal by one unit price: the price captured on the existing line, or the book's price for a new line |
| TotalsCalculator.RemoveLowersSubtotal | script.js:140-144 | in a cart with unique keys, removing a present key lowers the subtotal by exactly that line's total |
| TotalsCalculator.TwoAddsScenario | script.js:118-194 | adding the CSE book "ai" (63.0) twice to an empty cart gives one line with quantity 2, subtotal 126, tax 6.3 and grand total 132.3 |
| SessionGate.LeadingSpaces | script.js:46 | the count of leading white-space characters: all of them are white space and the next is not |
| SessionGate.TrailingSpaces | script.js:46 | the count of trailing white-space characters: all of them are white space and the one before is not |
| SessionGate.Trim | script.js:46 | trimming never lengthens the string, and the result neither starts nor ends with white space |
| SessionGate.TrimStripsEnds | script.js:46 | the trimmed user name is a slice of the input with only white space cut off, and it neither starts nor ends with white space |
| SessionGate.LoginErrors | script.js:51-53 | at most the three field errors are reported, and none exactly when the trimmed user name and the password have at least 3 characters and a branch is chosen |
| SessionGate.ValidateLogin | script.js:50-54 | the error list is exactly the failing checks, in form order, and `ok` holds iff trimmed username length >= 3, password length >= 3 and branch non-empty |
| SessionGate.LoginErrorsIndependent | script.js:51-53 | each check reports its own error exactly when its own condition fails, whatever the other two fields hold |
| SessionGate.LoginPassesIff | script.js:50-54 | no error is reported iff all three conditions hold; one error is reported per failing check, and no error twice |
| SessionGate.PaddedShortNameFails | script.js:46-51 | a user name shorter than 3 characters fails whatever white space pads it on the left and on the right |
| SessionGate.TrimUntouched | script.js:46 | a string that neither starts nor ends with white space is unchanged by trimming |
| SessionGate.LoginErrorsUntrimmed | script.js:46-53 | for a user name with no white space at either end, the errors are exactly the failing checks on its own length, the password length and the branch, in form order |
| SessionGate.LoginScenarios | script.js:46-54 | ("ab", "xyz", "CSE") reports only the user-name error; ("alice", "secret", "CSE") reports none |
| SessionGate.Session.constructor | script.js:259-263 | a session starts unauthenticated |
| SessionGate.Session.SubmitLogin | script.js:42-70 | the reported errors are the failing checks; with none the gate becomes `Active(branch)`, otherwise the gate is unchanged |
| SessionGate.Session.SelectBranch | script.js:234 | while active, choosing a branch re-selects it; before login the gate stays closed |

## Left out

- Rendering is left out: the DOM helpers (`$`, `$all`, `show`, `hide`), the markup templates of `renderCatalogue` and `renderCart`, `enableNavLinks` and `clearLoginErrors`. They are presentation only.
- `localStorage` and `JSON.parse`/`JSON.stringify` are modelled as one abstract slot. A stored value that parses to a truthy non-array (which the script would then fail on) is not modelled.
- `money()` and `toFixed(2)` are left out. The model computes exactly with reals, so the float rounding of the script (126 × 0.05 is 6.300000000000001 in binary floating point) and two-decimal formatting are not modelled.
- `Number(item.price) || 0` is not modelled for non-numeric prices: a price is always a number in the model. A `qty` that is a string, fractional or `NaN` is not modelled either: a quantity is an integer, with 0 standing for missing.
- Looking up `BOOKS` with an inherited property name (such as `constructor`) is not modelled. Every name outside the four branches reads as the empty list.
- SessionGate.Session.SelectBranch: the branch selector is hidden before login, so the model leaves the gate closed there. The script's change handler would still re-render the hidden catalogue.
- SessionGate.ValidateLogin: `.length` in the script counts UTF-16 code units, while a Dafny `char` is a Unicode scalar value. A name made of characters outside the Basic Multilingual Plane is counted differently.
- The greeting and the branch label written on login are left out, since they are display only. `Active` records only the branch.
- The checkout handler is left out: it reads the displayed total, shows an alert and then clears the cart, which `ClearCart` covers. The alert, the forgot-password modal and the footer year (the clock) are also left out as I/O.
- No logout transition is modelled, because the script has none.
