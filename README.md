# Business dashboard client: verified model of its data rules

The dashboard is a browser client for a small business. It logs a user in,
shows KPI figures, a sales chart and an expense chart, lists four
collections (products, purchases, sales and expenses) in tables, and submits
forms that add records. All of it lives in `script.js`. This project models
the parts of that script that transform data or follow a state rule, and
proves what they guarantee:

- **Sales chart** (`SalesChart`). Sales are bucketed by the date label of
  field 7, and each bucket's field-5 amounts are added.
  - The labels are distinct and in first-seen order.
  - Every sale's label is among them, and every label belongs to some sale.
  - Each data point is its bucket's total, and the data points add up to
    the sum of all the amounts.
- **Expense chart** (`ExpenseChart`, `ExpenseObject`). A loop folds the expenses into an
  insertion-ordered association list of category totals, which models the
  `categories` object.
  - The loop is proved equal to a fold function.
  - The fold is proved to be the group-and-sum of the entries.
  - `ExpenseObject` models the plain `{}` the code uses, including the
    properties it inherits from `Object.prototype`. A category with one of
    those names is lost or charted as text; see "## Findings".
  - Both charts share the reference definition of group-and-sum in
    `Grouping`: distinct keys in first-seen order, and per-key totals that
    add up to the total of all the amounts.
- **Tables** (`Table`). There are fixed column counts per collection, and
  the sheet name is capitalised.
  - A cell containing "GMT" is rendered as a date. Any other cell shows as
    its `textContent`, so `null` and missing fields are empty.
  - The row loop emits exactly `columns` cells.
  - A `TableBody` class is cleared and refilled with one row per record.
- **Navigation** (`Navigation`). `switchPage` is a `Dashboard` class with
  its active pages, active links and header. The model includes the
  partial effect when the page or the link is missing.
- **Session** (`Session`). It models three rules:
  - the page-load gate;
  - the login outcome (the flag, the location and the inline error text);
  - logout.
- **Add handlers** (`AddHandlers`). The outcome of each of the four add
  forms: an alert, whether the form is reset, and the list of views
  reloaded.

`Text` and `Values` hold the JavaScript behaviour the rules depend on:
- `String(v)`;
- `textContent` assignment;
- `includes`;
- `charAt(0).toUpperCase() + slice(1)`;
- reading a field past the end of a record.

The model follows the code in these places, where it may be read
otherwise:
- A failed add alerts `"Error: " + message`, not the bare message.
- An add whose request failed (`apiCall` resolved to `undefined`) throws
  when it reads `status`. The handler then stops: it shows no alert of its
  own, does not reset the form and reloads nothing.
- A table cell for a missing field is empty, because assigning `undefined`
  to `textContent` clears it.

## Model

| member | source | states |
|---|---|---|
| Text.UpperChar | script.js:89 | an ASCII lower-case letter becomes its upper-case letter, 32 code points lower; every other character is kept; the result is never a lower-case letter |
| Text.Capitalize | script.js:89 | first character upper-cased when it is an ASCII lower-case letter, the rest unchanged, same length; the string is unchanged exactly when it is empty or does not start with an ASCII lower-case letter |
| Text.CapitalizeIdempotent | script.js:171 | capitalising twice is capitalising once |
| Text.Contains | script.js:180 | `s.includes(p)` holds exactly when `p` occurs in `s` at some index |
| Text.NatToString | script.js:180 | the decimal form of a non-negative number is a non-empty digit string without a leading zero whose digits denote the number |
| Text.IntToString | script.js:180 | the decimal form of a number is a minus sign exactly when the number is negative, followed by the canonical numeral (digits only, no leading zero) of its magnitude |
| Text.DecimalUnique | script.js:180 | two canonical numerals that denote the same number are the same string |
| Text.IntToStringUnique | script.js:180 | any string that is a minus sign exactly for a negative number followed by the canonical numeral of its magnitude is the decimal form, so "07" and "1-" are not forms of 7 |
| Values.Field | script.js:179 | `rowData[i]` is field `i` of the record, or `undefined` past its end |
| Values.StringForm | script.js:180 | `String(v)`: a string is itself, a number a minus sign exactly when negative followed by the canonical numeral of its magnitude, a boolean "true" or "false", `null` "null", `undefined` "undefined" |
| Values.TextContent | script.js:183 | `null` and `undefined` give empty text, every other value its `String()` form |
| Values.NoMarkerInNumbersOrMissing | script.js:180 | the string form of a number, a boolean, `null` or `undefined` never contains "GMT" |
| Grouping.Distinct | script.js:126 | `[...new Set(xs)]` has no duplicates, keeps only elements of `xs`, loses none of them, and is no longer than `xs` |
| Grouping.DistinctSnoc | script.js:126 | a further element is appended exactly when it was not yet seen |
| Grouping.DistinctFirstSeen | script.js:126 | the distinct elements are ordered by their first occurrence |
| Grouping.SumForSnoc | script.js:127-131 | one more entry adds its amount to its own key's total and leaves every other key's total as it was |
| Grouping.SumsSnoc | script.js:127-131 | over a duplicate-free key list, the sum of the per-key totals grows by the entry's amount exactly when its key is listed, and is unchanged otherwise |
| Grouping.Conservation | script.js:127-131 | the bucket totals over the distinct keys add up to the total of all the amounts |
| SalesChart.Label | script.js:126-129 | the label of a sale is the formatted date of its field 7, or of `undefined` when it has none |
| SalesChart.LabelsOf | script.js:126 | one date label per sale, the label of its field 7 |
| SalesChart.WithLabel | script.js:129 | the filter keeps only sales of the input that carry the label |
| SalesChart.WithLabelIsFilter | script.js:129 | every sale carrying the label is kept as often as it occurs, and no other sale is kept |
| SalesChart.AddAmounts | script.js:130 | the `reduce` is the sum of the field-5 amounts of the sales it is given |
| SalesChart.SalesSeries | script.js:126-131 | labels and data points are index-aligned, labels are distinct, every sale's label is a label, every label is some sale's, no sales give empty series |
| SalesChart.FilterReduceIsSumFor | script.js:128-130 | filtering by a label and reducing adds exactly the amounts of the sales with that label |
| SalesChart.SeriesIsGrouping | script.js:126-131 | the labels are the distinct keys of the (label, amount) entries and the data points their per-key sums |
| SalesChart.DataPointIsBucketTotal | script.js:127-131 | `dataPoints[j]` is the total of the sales dated `labels[j]` |
| SalesChart.LabelsInFirstSeenOrder | script.js:126 | label `i` is first seen before label `j` whenever `i < j` |
| SalesChart.SeriesConservesTotal | script.js:127-131 | the data points add up to the sum of every sale's amount |
| SalesChart.TotalIsAddAmounts | script.js:130 | the total of the entries equals the `reduce` over all sales |
| SalesChart.SameDayScenario | script.js:126-131 | two sales of 100 and 50 on the same day give one label with data point 150 |
| ExpenseChart.Entries | script.js:146 | one (category, amount) entry per expense, the category being `String(exp[1])` |
| ExpenseChart.Find | script.js:146 | the property lookup finds the position of the key, or reports it absent from every position |
| ExpenseChart.Bump | script.js:146 | adding to an existing category changes only that entry's total, by the amount |
| ExpenseChart.AddSlot | script.js:146 | one assignment puts the key's old total, or 0 when it had none, plus the amount in the key's slot; an existing key keeps its place, a new key is appended, all other entries are kept |
| ExpenseChart.AddTotal | script.js:146 | one assignment adds the amount to the sum of all the totals |
| ExpenseChart.Fold | script.js:144-147 | the fold has at most one entry per expense and its totals add up to the total of the amounts |
| ExpenseChart.FoldStep | script.js:146 | folding one more expense keeps the keys the distinct categories in first-seen order and each total the sum of its category's amounts |
| ExpenseChart.FoldStepKnownKey | script.js:146 | an existing category keeps its place and gains the amount |
| ExpenseChart.FoldStepNewKey | script.js:146 | a new category is appended with the amount as its total |
| ExpenseChart.FoldIsGrouping | script.js:144-147 | the `forEach` fold produces exactly the group-and-sum of the entries |
| ExpenseChart.Accumulate | script.js:144-147 | the loop over the expenses leaves `categories` equal to the fold of the entries |
| ExpenseChart.CategoryTotals | script.js:144-155 | keys are distinct categories in first-seen order, each value is the sum of its category's amounts (duplicates accumulate), every category is a key and every key a category, no expenses give no keys, the values add up to the total |
| ExpenseChart.FoldedCoverage | script.js:153 | every expense's category is a key and every key is some expense's category |
| ExpenseChart.FoldedTotal | script.js:155 | the values of the fold add up to the total of all the amounts |
| ExpenseChart.RentFoodScenario | script.js:144-147 | Rent 1000, Food 200, Rent 500 fold into Rent 1500, Food 200 in that order |
| ExpenseObject.AddAsWritten | script.js:146 | one assignment on a plain `{}` keeps every category name in its place and adds at most one |
| ExpenseObject.FoldAsWritten | script.js:144-147 | the plain `{}` ends with at most one category per expense |
| ExpenseObject.ProtoCategoryLost | script.js:144-147 | on a plain `{}` an expense filed under `__proto__` leaves no category, where the corrected fold keeps it with its amount |
| ExpenseObject.InheritedCategoryGarbled | script.js:144-147 | on a plain `{}` two expenses filed under `toString` leave text in place of their total 150, which the corrected fold computes |
| ExpenseObject.ProtoNeverKey | script.js:144-147 | on a plain `{}` no number of expenses ever makes `__proto__` a category |
| ExpenseObject.AddAgrees | script.js:146 | for a category that is not an inherited name, one assignment on a plain `{}` acts as the corrected one |
| ExpenseObject.AgreesOffInheritedNames | script.js:144-147 | when no category is an inherited name, the plain `{}` holds exactly the corrected totals in the same order |
| Table.SheetName | script.js:171 | the requested sheet name is the key with its first letter upper-cased |
| Table.SheetsAndColumns | script.js:164-171 | the four loads request "Products", "Purchases", "Sales", "Expenses" into tables of 6, 7, 8 and 4 columns |
| Table.RenderCell | script.js:180-184 | a string containing "GMT" is shown as its formatted date and any other string as itself; a number or boolean as its `String()` form; `null` and `undefined` as empty text |
| Table.NumberCellVerbatim | script.js:180-184 | a number renders as its decimal form, never as a date |
| Table.MissingCellEmpty | script.js:179-183 | a missing or null field renders as an empty cell |
| Table.StringCell | script.js:180-184 | a string containing "GMT" renders as its formatted date, any other string as itself |
| Table.TimestampCell | script.js:180-181 | a serialised timestamp renders as its date label |
| Table.RowCells | script.js:177-186 | a row has exactly `columns` cells and cell `i` renders field `i` |
| Table.ExtraFieldsIgnored | script.js:177-179 | fields past the column count do not change the row |
| Table.MissingFieldsEmpty | script.js:177-183 | cells past the end of the record are empty |
| Table.RenderRow | script.js:177-186 | the `for` loop produces exactly `columns` cells, cell `i` rendered from field `i` |
| Table.Rendered | script.js:175-188 | one row per record, in record order |
| Table.Shown | script.js:173-188 | no rows for a missing reply, otherwise one row of `columns` cells per record |
| Table.TableBody.Load | script.js:172-189 | after a load the body holds exactly the rows for the reply, whatever it held before |
| Navigation.Dashboard.SwitchPage | script.js:85-93 | on success exactly the target page and link are active and the header is the capitalised target; a missing page or link throws after the steps already taken |
| Navigation.SwitchTwice | script.js:85-93 | switching to the same target twice leaves the state of switching once |
| Session.Gate | script.js:5-20 | the dashboard redirects to login exactly without the flag and initialises exactly with it; other pages attach the login handler exactly when the form exists |
| Session.LoginLandsOnDashboard | script.js:8-13 | the dashboard path is gated as the dashboard: initialised with the flag, redirected without |
| Session.LoginPageNeverRedirects | script.js:14-19 | the login page is never redirected |
| Session.Session.HandleLogin | script.js:37-48 | "success" sets the flag and goes to the dashboard; another status keeps flag and location and shows the message; a failed request shows the fixed error text |
| Session.Session.Logout | script.js:67-70 | the flag is cleared and the login page opened |
| Session.LogoutThenDashboard | script.js:67-70 | after logout the dashboard redirects to login |
| AddHandlers.Handle | script.js:213-221 | an undefined reply throws; the form is reset exactly on "success", with the success alert and the reload list; otherwise "Error: " + message and nothing reloaded |
| AddHandlers.Reloads | script.js:214-271 | each add reloads its own table; drop-downs exactly after a product, dashboard figures exactly after every other add, the products table exactly after all but an expense, no other table, no view twice |
| AddHandlers.OwnTableReloaded | script.js:214-271 | the own table is reloaded first, except that a product refreshes the drop-downs before its table |
| AddHandlers.ErrorWithoutMessage | script.js:220 | any status other than "success" with no message alerts "Error: undefined", keeps the form and reloads nothing |
| AddHandlers.DuplicateProductScenario | script.js:213-221 | a rejected product alerts "Error: Duplicate name" and keeps the form |

## Left out

- `fetch`, `apiCall`, JSON parsing, `alert` and `console` are network and user I/O (script.js:32-49, 95-109). Replies are parameters: `LoginReply`, `ApiReply`, `Option<seq<Row>>`.
- The loader is not modelled. Its show/hide toggling is presentation only.
- Chart.js construction and destruction and the XLSX export are foreign libraries. The model stops at the series handed to the chart.
- `new Date(v).toLocaleDateString()` is locale-dependent. It is the uninterpreted parameter `fmt`.
- The KPI figures of `loadDashboardData` are not modelled. Their `toFixed(2)` formatting is floating point.
- `populateProductDropdowns` builds option HTML in the DOM.
- `initDashboard` and `setupEventListeners` only wire handlers and order loads. Their orchestration is not modelled.
- The order and races of the un-awaited `loadTableData` and `loadDashboardData` calls are not modelled. This is concurrency.
- Every number a record holds is an integer (`Values.Value`'s `Num`): sale and expense amounts, and every numeric table cell such as a price or a quantity. Fractional numbers, their decimal form and floating-point addition are not modelled.
- String concatenation of amounts that arrive as strings is not modelled. The amount fields are required to be numbers.
- The ordering of integer-like keys first in `Object.keys` is not modelled. Keys appear in insertion order.
- Text.UpperChar: only ASCII letters are upper-cased. JavaScript's `toUpperCase` also maps other scripts.
- Text.IntToString: gives the plain decimal form. It does not model JavaScript's exponent form for very large numbers.
- Navigation.Dashboard.SwitchPage: assumes an element with the target id is a page. Any other element with that id is not tracked.
- Navigation.Dashboard.SwitchPage: models the `forEach` class removals as one assignment of the empty set.
- Table.TableBody.Load: a reply that is not a list is treated like a missing one (`data.length` is falsy).
- Session.Session.HandleLogin: a `null` JSON reply makes `data.status` throw, which lands in `catch`. It is therefore modelled as `Failed`.
- ExpenseChart.Find: models the lookup on an object without inherited properties. The plain `{}` of the code also inherits the `Object.prototype` names (`constructor`, `toString`, `__proto__` and the rest of `ExpenseObject.InheritedNames`). `ExpenseObject` models that case separately.
- ExpenseObject.AddAsWritten: the text an inherited value and an amount concatenate to is one `Garbled` value. Its characters are not modelled.
- A missing `status` is not distinguished from any other non-"success" status. Both take the error branch.

## Findings

| source | as written | input that shows it | evidently intended | confidence | as-written member | corrected member |
|---|---|---|---|---|---|---|
| script.js:144-147 | `categories` is a plain `{}`, so `categories[exp[1]]` also finds the properties inherited from `Object.prototype` | an expense with category `"__proto__"` and amount 100 gives no chart category; two expenses of 100 and 50 under `"toString"` chart the text `"function toString() { [native code] }10050"` (`ExpenseObject.ProtoCategoryLost`, `ExpenseObject.InheritedCategoryGarbled`); `ExpenseChart.FoldIsGrouping` proves the corrected fold is the group-and-sum | every category starts from an empty total: `Object.create(null)` or a `Map` | not executed | ExpenseObject.FoldAsWritten | ExpenseChart.Fold |
