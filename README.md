# Finance dashboard core, modelled in Dafny

The dashboard is a browser front end for a spreadsheet-backed ledger. The model covers three of its scripts.

- **The gateway** (`js/api.js`).
  - It builds the query parameters of the `getSummary`, `getTransactions` and `getCategories` requests with successive `URLSearchParams.set` calls.
  - It merges the `addTransaction` POST body with `Object.assign`.
  - It turns a reply text into a value without throwing: a text that is not JSON becomes a failure object.
- **The expense chart** (`js/charts.js`).
  - `renderExpenseChart` folds the transactions into an object from category to summed amount.
  - An empty result is drawn as a single "No expenses" slice.
  - The module-level `CHARTS` registry is keyed by canvas id. The old chart of a canvas is destroyed before the new one is constructed and stored; a ghost log of constructions and destructions records that order.
- **The dashboard logic** (`js/app.js`).
  - `formatCurrency`.
  - The submission payload, its defaults and the validation guard.
  - The submit button, which is disabled while a transaction is being saved.
  - The derived credit balance and the filter to expense entries.
  - The two refresh flows:
    - `refreshMainDashboard` fills the index page;
    - `fetchData(type)` fills the Personal and Business pages, whose element ids come from a two-entry id map.
  - The transaction table, sorted newest first.

Files:

- `Js.dfy` holds the JavaScript semantics the scripts rely on:
  - `Number(x) || 0` (`Number` is `NaN` or a real);
  - string truthiness and the `<` order on strings;
  - plain objects as insertion-ordered field lists, with lookup, assignment and `Object.assign`;
  - parsed JSON values.
- `Records.dfy` holds the fetched transaction and summary records.
- `Api.dfy`, `Charts.dfy` and `App.dfy` follow the three scripts.

What the model changes:

- **Inputs as parameters.** Server replies are parameters of the flows. `JSON.parse` is a parameter `string -> Option<Json>`, and the digit grouping of `toLocaleString('en-IN')` is a parameter `real -> string`.
- **The DOM.** It is represented by:
  - the set of element ids that exist;
  - the text written to each element;
  - the rows of each table body;
  - the chart registry.
- **Mutable state becomes classes.** `URLSearchParams`, the registry, the page and the submit button are classes whose methods update their fields. The aggregation, the sort and the table fill are loops with invariants.
- **The `await` in the submit handler.** It splits the handler into two methods:
  - `Submit`: everything up to the request;
  - `Settle`: the `try`/`catch`/`finally` that follows.

## Model

| member | source | states |
|---|---|---|
| Js.StrLessIrreflexive | js/app.js:168 | no date string is less than itself |
| Js.StrLessAsymmetric | js/app.js:168 | `a < b` excludes `b < a` for strings |
| Js.StrLessTotal | js/app.js:168 | any two distinct strings are ordered one way or the other |
| Js.StrLessTransitive | js/app.js:168 | string `<` is transitive |
| Js.StrLess | js/app.js:168 | the `<` of the sort comparator on two date strings; its order properties are the four lemmas above and `NotLessTransitive` |
| Js.NotLessTransitive | js/app.js:168 | "not earlier than" chains, which is what makes the newest-first order well defined |
| Js.OrZero | js/charts.js:19 | `Number(x) \|\| 0`; what it means for display is stated by `App.FormatCoercesToZero` and for validation by `App.ValidationRejectsOnlyZeroAmount` |
| Js.OrDefault | js/app.js:27-32 | `s \|\| d` on strings; its effect on the payload is stated by `App.BuildPayload` |
| Js.Truthy | js/api.js:20 | truthiness of an optional string in `if (type)`, `if (filters.…)` (js/api.js:35-38) and `t.category \|\|` (js/charts.js:18): missing and empty are falsy; what it decides is stated by `Api.IfTruthy`, `Api.SummaryQueryLookups`, `Api.TransactionsQueryGet` and `Charts.CategoryOf` |
| Js.JsonTruthy | js/app.js:52 | truthiness of a parsed JSON value, behind `res && res.success`; what it decides is stated through `Api.Succeeded` by `Api.ParseTextResponse` and `App.ReplyOf` |
| Js.Names | js/charts.js:24 | `Object.keys(o)`: the keys in insertion order; stated by `NamesAppend`, `PutNames` and `AssignNames`, and the chart labels it yields by `Charts.AggregateByCategory` |
| Js.Get | js/charts.js:20 | a property lookup finds a value exactly when the name is among the object's keys |
| Js.Put | js/charts.js:20-21 | property assignment `o[name] = v`; stated by `PutGet` and `PutNames` |
| Js.Assign | js/api.js:50 | `Object.assign(target, source)`; stated by `AssignGet` and `AssignNames` |
| Js.PutGet | js/charts.js:20-21 | after `o[name] = v`, `name` reads `v` and every other property reads as before |
| Js.PutNames | js/charts.js:20-21 | assigning an existing key keeps the key order; a new key goes last |
| Js.AssignGet | js/api.js:50 | after `Object.assign(target, source)`, every source field wins and every other target field survives |
| Js.AssignNames | js/api.js:50 | the merged object's keys are the target's, then the source's new keys in order |
| Js.GetDistinctAt | js/api.js:50 | in an object with distinct keys, each field is found under its own name |
| Js.GetAppend | js/api.js:50 | looking up a name in two concatenated field lists finds the first list's field when it has one, otherwise the second's |
| Js.NamesAppend | js/api.js:50 | the keys of two concatenated field lists are the first list's keys followed by the second's |
| Api.WithoutName | js/api.js:19 | removing the entries of a name leaves no entry under that name |
| Api.SetParam | js/api.js:19-21 | `URLSearchParams.set`; stated by `SetParamGet`, `SetParamAppends` and the query lemmas below |
| Api.SetParamGet | js/api.js:19 | after `params.set(name, value)`, the name reads the new value and other names read as before |
| Api.WithoutNameGet | js/api.js:19 | removing the entries of one name leaves every other name's lookup unchanged |
| Api.SetParamAppends | js/api.js:19 | setting a name not yet present appends the pair at the end |
| Api.SearchParams.constructor | js/api.js:18 | `new URLSearchParams()` (also js/api.js:32 and 63) starts with no entries, which `SummaryParams`, `TransactionsParams` and `CategoriesParams` build on |
| Api.SearchParams.Set | js/api.js:18-21 | the object's entries become the URL Standard's `set` applied to the old entries |
| Api.IfTruthy | js/api.js:20 | a conditional `set` adds its name exactly when the value is truthy |
| Api.SetIfTruthy | js/api.js:20 | `if (value) params.set(name, value)`; stated by `SetIfTruthyAppends`, `SetIfTruthyStep` and `TransactionsSets` |
| Api.SummaryQuery | js/api.js:18-21 | the closed-form `getSummary` parameter list that `SummaryParams` is proved to build; its lookups are stated by `SummaryQueryLookups` |
| Api.TransactionsQuery | js/api.js:32-38 | the closed-form `getTransactions` parameter list that `TransactionsParams` and `TransactionsSets` are proved to build; its lookups are stated by `TransactionsQueryLookups`, `TransactionsQueryDistinct` and `TransactionsQueryGet` |
| Api.CategoriesQuery | js/api.js:63-65 | the closed-form `getCategories` parameter list that `CategoriesParams` is proved to build; its lookups are stated by `CategoriesQueryLookups` |
| Api.SetIfTruthyAppends | js/api.js:20 | `if (value) params.set(name, value)` on a fresh name appends the pair exactly when the value is truthy |
| Api.SetIfTruthyStep | js/api.js:35-38 | each conditional `set` of a new filter name appends to the query, and the names present stay within those set so far |
| Api.TransactionsSets | js/api.js:32-38 | the successive `set` calls of `getTransactions` build exactly the query of `action`, `key` and the truthy filters in order |
| Api.AppendOptionalNames | js/api.js:35-38 | appending an optional parameter with a fresh name keeps the names distinct and within those set so far |
| Api.AppendOptionalGet | js/api.js:35-38 | after appending an optional parameter, its name reads the value when truthy and absent otherwise; other names read as before |
| Api.SummaryParams | js/api.js:17-21 | the `set` calls of `getSummary` produce `action=getSummary`, then `type` only when truthy, then `key` |
| Api.SummaryQueryLookups | js/api.js:18-21 | the summary request carries the key and the action; `type` appears only when truthy; no name repeats |
| Api.TransactionsParams | js/api.js:31-38 | the `set` calls of `getTransactions` produce `action`, `key`, then each truthy filter of `type`, `date`, `from`, `to`, in that order |
| Api.TransactionsQueryLookups | js/api.js:32-38 | the transactions request carries the key, the action and exactly the truthy filters, with no repeated name |
| Api.TransactionsQueryDistinct | js/api.js:32-38 | no parameter name of the transactions request repeats |
| Api.TransactionsQueryGet | js/api.js:32-38 | each parameter name of the transactions request reads the action, the key, or its filter when truthy |
| Api.NoFiltersQuery | js/api.js:31-34 | `getTransactions()` with the default `filters = {}` sends only `action` and `key` |
| Api.CategoriesParams | js/api.js:62-65 | the `set` calls of `getCategories` produce exactly `action=getCategories` and `key` |
| Api.CategoriesQueryLookups | js/api.js:63-65 | the categories request carries the key and the action under distinct names |
| Api.AddTransactionBody | js/api.js:49-50 | the `Object.assign` merge of the POST body; stated by `AddTransactionBodyGet` and `AddTransactionBodyNames` |
| Api.AddTransactionBodyGet | js/api.js:49-50 | the POST body holds every payload field unchanged, except that `action` and `key` are forced to "addTransaction" and the API key |
| Api.AddTransactionBodyNames | js/api.js:50 | the POST body's keys are the payload's in order, then `action` and `key` unless the payload already had them |
| Api.InvalidJsonFailureFields | js/api.js:10 | the failure object has `success` false, the message "Invalid JSON response" and the raw text |
| Api.InvalidJsonFailure | js/api.js:10 | the failure object literal; stated by `InvalidJsonFailureFields` and `ParseTextResponse` |
| Api.ParseTextResponse | js/api.js:5-11 | parsed text is returned as parsed; unparsable text becomes exactly the failure object `{success: false, message: "Invalid JSON response", raw}`; a successful result always came from the parser |
| Api.Succeeded | js/app.js:52 | the test `res && res.success`; `App.SubmitButton.Settle` and `ParseTextResponse` state what depends on it |
| Charts.Categories | js/charts.js:24 | the chart labels are distinct, and there are no more labels than transactions |
| Charts.CategoryOf | js/charts.js:18 | the label of a transaction is its category or "Uncategorized", never empty |
| Charts.AmountOf | js/charts.js:19 | `Number(t.amount) \|\| 0`; stated through `CategoryTotal`, `TotalsSnoc` and `TotalsSumToTotalAmount` |
| Charts.Totals | js/charts.js:25 | `data` has one entry per label, and each entry is that label's total |
| Charts.NotACategoryTotal | js/charts.js:17-21 | a category no transaction has totals zero |
| Charts.FirstIndex | js/charts.js:17-18 | locates the first transaction in a category, or reports that there is none |
| Charts.FirstIndexSnoc | js/charts.js:17-18 | one more transaction changes the first position of a category only when the category was absent and the new one has it |
| Charts.CategoriesFirstIndex | js/charts.js:18-20 | a label exists exactly when some transaction has that category |
| Charts.CategoriesAreKeys | js/charts.js:18-24 | every label is some transaction's category (or "Uncategorized"), and every such category is a label |
| Charts.CategoriesEmpty | js/charts.js:24 | there are no labels exactly when there are no transactions |
| Charts.CategoriesInFirstOccurrenceOrder | js/charts.js:24 | labels appear in the order in which their categories first occur |
| Charts.SumAppend | js/charts.js:17-25 | sums distribute over concatenation |
| Charts.TotalsSnocAt | js/charts.js:21 | one more transaction adds its coerced amount to its own label's total and leaves every other label's total unchanged |
| Charts.TotalsSnoc | js/charts.js:21 | over distinct labels, the sum of the totals grows by the coerced amount when the transaction's category is among them, and is unchanged otherwise |
| Charts.CategoriesSnoc | js/charts.js:18-21 | one more transaction adds a label, at the end, exactly when its category is new |
| Charts.CategoryTotalSnoc | js/charts.js:21 | one more transaction adds its coerced amount to its own category's total and to no other |
| Charts.TotalsSumToTotalAmount | js/charts.js:17-25 | the chart's data add up to the sum of all coerced amounts |
| Charts.DrawnPlaceholder | js/charts.js:28-29 | no transactions draw exactly `["No expenses"]`/`[1]`; otherwise labels and data are drawn unchanged, so the placeholder label only appears as a real category |
| Charts.ChartData | js/charts.js:28-29 | the chart never draws an empty label or data list, and equal lengths stay equal |
| Charts.Drawn | js/charts.js:16-29 | what the chart of a transaction list draws; stated by `DrawnPlaceholder` and `AggregateByCategory` |
| Charts.ResetSlot | js/charts.js:20 | resetting a falsy slot to 0 keeps the running totals correct |
| Charts.KeepSlot | js/charts.js:20 | a truthy slot is left alone |
| Charts.AddToSlot | js/charts.js:21 | `agg[cat] += amt` extends the running totals by one transaction |
| Charts.AddedTotals | js/charts.js:21 | after `agg[cat] += amt`, every key of the object holds its category's total including the new transaction |
| Charts.AddedTotalAt | js/charts.js:21 | the updated slot holds its old total plus the amount, and every other slot keeps its total |
| Charts.Tally | js/charts.js:17-21 | the `forEach` callback turns an object holding the totals of the transactions seen into one holding the totals including the next transaction, with its category added last when new |
| Charts.AggregateByCategory | js/charts.js:16-25 | the `forEach` fold yields the labels in first-occurrence order and, for each, the sum of its transactions' coerced amounts |
| Charts.Replacement | js/charts.js:32-38 | the events of one replacement: the old chart's `destroy()` when the canvas has one, then the new chart's construction |
| Charts.OneLivePerCanvas | js/charts.js:4 | in a history where every chart is constructed on a canvas without a live chart, two live charts on one canvas are the same chart |
| Charts.DisciplinedPrefix | js/charts.js:32-38 | every prefix of such a history is such a history |
| Charts.OneLivePerCanvasAlways | js/charts.js:4 | at every moment of such a history, a canvas has at most one live chart |
| Charts.CreatedOnFreeCanvas | js/charts.js:32-38 | each construction happens when no live chart is on its canvas, so the previous chart was destroyed first |
| Charts.CreateBeforeDestroyRejected | js/charts.js:32-38 | constructing a chart while the registered chart of its canvas is still live breaks that discipline |
| Charts.DestroyStep | js/charts.js:32-35 | `destroy()` then `CHARTS[canvasId] = null` leaves the canvas without a live chart, and the rest of the registry still holds exactly the live charts |
| Charts.CreateStep | js/charts.js:38 | `CHARTS[canvasId] = new Chart(...)` on a free canvas keeps the discipline and registers exactly the live charts |
| Charts.ReplaceKeepsInvariant | js/charts.js:32-38 | destroying the old chart, then constructing and storing a fresh one, keeps the registry invariant: every construction on a free canvas, fresh serials, and the registry holding exactly the live charts |
| Charts.ChartRegistry.constructor | js/charts.js:4 | the registry starts empty, with nothing constructed |
| Charts.ChartRegistry.OneLiveChartPerCanvas | js/charts.js:4 | at most one live chart is bound to a canvas id |
| Charts.ChartRegistry.Render | js/charts.js:11-38 | without the canvas nothing changes; otherwise the old chart of that canvas, if any, is destroyed, and only then a fresh chart that draws the aggregate or the placeholder is constructed and stored under the canvas id; the other entries are unchanged |
| Charts.ChartRegistry.Replace | js/charts.js:32-38 | the canvas's old chart, if any, is destroyed and its entry cleared, then a fresh chart with the next serial is constructed and stored under the canvas id; the event log grows by exactly those steps, in that order, and the registry stays valid |
| App.FormatCurrency | js/app.js:7-10 | the text always starts with the currency symbol |
| App.FormatCoercesToZero | js/app.js:8 | NaN formats exactly as 0, and only the coerced number is formatted |
| App.Credit | js/app.js:89 | credit, cash and bank together equal income minus expense |
| App.Expenses | js/app.js:102 | the chart input contains only "Expense" entries, and each of them exactly as often as in the fetched list |
| App.ExpensesAppend | js/app.js:161 | the filter keeps the original order (it distributes over concatenation) |
| App.BuildPayload | js/app.js:26-37 | the defaults "Personal", "Expense", "Uncategorized" and "Cash", amount coerced to 0, `status` "Paid", `relatedParty` "", `addedBy` "Admin", and the date part of the current ISO time stamp |
| App.DatePart | js/app.js:33 | `slice(0, 10)` keeps the first ten characters of the time stamp, or all of a shorter one |
| App.PassesValidation | js/app.js:40 | the handler's guard; stated by `ValidationRejectsOnlyZeroAmount` |
| App.ValidationRejectsOnlyZeroAmount | js/app.js:40-43 | given the defaults, the guard rejects exactly a zero or non-numeric amount |
| App.PayloadFieldNames | js/app.js:26-37 | the payload object has ten distinct keys in literal order |
| App.PayloadFields | js/app.js:26-37 | the payload as the plain object handed to `addTransaction` at js/app.js:51; stated by `PayloadFieldNames` and `PostedBody` |
| App.PostedBody | js/app.js:51 | the submitted body holds all ten payload fields with their values, then `action` "addTransaction" and `key` |
| App.SubmitButton.constructor | js/app.js:45-47 | the button starts enabled as "Add Transaction", with nothing sent; the initial caption comes from the page markup, which is not part of this model, and is assumed to be the one the handler restores at js/app.js:66 |
| App.SubmitButton.Submit | js/app.js:26-51 | a rejected payload changes nothing and is not sent; an accepted one disables the button as "Saving..." and is the only payload sent; the button stays idle or sending, and every payload sent passed the guard |
| App.SubmitButton.Settle | js/app.js:50-67 | success, a reported failure and a thrown error all re-enable the button as "Add Transaction"; a refresh follows only on `res && res.success`; the button stays idle or sending, and every payload sent passed the guard |
| App.RowsOf | js/app.js:169-179 | one row per transaction, in order, each showing that transaction |
| App.RowOf | js/app.js:170-177 | the five cells of one table row; `RowsOf` states one row per transaction in order |
| App.Display | js/app.js:173 | `${r.category}` shows a present category as itself and a missing one as "undefined" |
| App.RowsOfAppend | js/app.js:169-179 | appending transactions appends their rows |
| App.SwapDown | js/app.js:168 | exchanging two neighbours permutes the array |
| App.InsertingStart | js/app.js:168 | a sorted prefix with one more element is where an insertion pass starts |
| App.InsertingStep | js/app.js:168 | moving an element that is newer than its left neighbour one place left keeps the pass's invariant |
| App.InsertingDone | js/app.js:168 | once the element sits below one that is not older, the prefix it ends is newest first |
| App.InsertNewest | js/app.js:168 | one pass makes the prefix newest first, keeps the array's elements and leaves the rest alone |
| App.SortNewestFirst | js/app.js:168 | the sorted array has non-increasing dates and is a permutation of the original |
| App.PageIdsFor | js/app.js:124-146 | the id map has an entry exactly for "Personal" and "Business" |
| App.SetTextsAt | js/app.js:12-15 | after a series of `setText` calls with distinct ids, each existing element shows its text and all other elements keep theirs |
| App.SetTexts | js/app.js:12-15 | the texts after a series of `setText` calls; stated by `SetTextsAt` |
| App.SummaryLines | js/app.js:86-92 | the five `setText` calls of a flow; stated by `SummaryLinesNames`, `SummaryTexts` and `SummaryTextsElsewhere` |
| App.KnownIdsDistinct | js/app.js:86-92 | neither flow writes an element twice |
| App.SummaryLinesNames | js/app.js:148-154 | the five writes go to cash, bank, credit, total expense and total income, in that order |
| App.SummaryTexts | js/app.js:86-92 | each existing balance element shows its label and formatted amount; the credit element shows the derived credit |
| App.SummaryTextsElsewhere | js/app.js:148-154 | elements outside the five ids keep their text |
| App.ReplyOf | js/app.js:84-85 | a parsed reply is `Failed` exactly when `res && res.success` (`Api.Succeeded`) is false, and otherwise carries its `data` field |
| App.UnparsableReplyFails | js/app.js:84 | a reply whose text does not parse is always treated as failed |
| App.Page.constructor | js/charts.js:4 | a page starts with nothing written and an empty chart registry |
| App.Page.SetText | js/app.js:12-15 | writes the text only when the element exists |
| App.Page.WriteSummary | js/app.js:148-154 | the five `setText` calls leave the texts of the series of five balance lines |
| App.Page.FillTable | js/app.js:167-179 | the table body is cleared, then holds one row per array element, in array order |
| App.Page.RefreshMainDashboard | js/app.js:81-107 | missing summary data throws before any write; a summary success writes the five main balances; a transactions success renders exactly the expense entries at "expenseChart", destroying the canvas's old chart before the new one is constructed; the registry changes only then |
| App.Page.FetchData | js/app.js:113-184 | a failed summary or an unknown type writes nothing; missing data throws; otherwise the page's balances are written, the chart shows exactly the expense entries (the old chart destroyed before the new one is constructed), and the table holds a newest-first permutation of the fetched list |
| App.Page.ShowTransactions | js/app.js:160-180 | the chart at the page's canvas shows exactly the expense entries, its old chart destroyed before the new one is constructed; when the page has its table, it holds the rows of a newest-first permutation of the fetched list; no text changes |

## Left out

- `fetch`, HTTP and the `await` sequencing: the replies are parameters of the flows and of `Settle`. A network error is `None` in `Settle`.
- URL encoding (`URLSearchParams.toString()`), `JSON.parse` and `JSON.stringify`.
  - The parser is a parameter.
  - The posted body is modelled as the object before it is stringified.
  - Decoding a parsed reply into `Summary` and `Transaction` records is not part of this model; the flows receive the decoded `Reply`.
- App.FormatCurrency: the digit grouping of `toLocaleString('en-IN')` is a parameter, so the contract states only the symbol prefix and the coercion to zero.
- Floating point. Amounts are reals, and rounding, Infinity and `-0` are not modelled. The summary fields are taken to be numbers; a non-numeric summary field would be shown as 0 by `formatCurrency` but is not modelled.
- Chart.js construction and options, the tooltip callback and the 2D context. A chart is a handle recording its serial, canvas id, labels and data.
- The destroy step:
  - `destroy()` and `new Chart(...)` are recorded, in call order, in the registry's event log;
  - the errors of `destroy()` are ignored, as in the source;
  - `CHARTS[canvasId] = null` is modelled as removing the entry; both are falsy for the `if (CHARTS[canvasId])` test, and the fresh chart is stored under the id in the same call.
- `alert`, `console.error`, `evt.preventDefault()` and `txForm.reset()`.
- The refresh that follows a successful save: `Settle` reports that a refresh is due and `RefreshMainDashboard` models it; the model does not connect the two calls.
- A refresh that throws inside the `try` block: it is caught by the handler's `catch`, and `Settle` covers that case as well.
- The dark-mode toggle and `localStorage`.
- Prototype behaviour of plain objects:
  - JavaScript lists integer-like keys first in `Object.keys`;
  - names inherited from `Object.prototype` (such as `__proto__` or `toString`) misbehave as `agg` keys and as `map[type]` keys.
  - The model treats objects as plain ordered field lists, so category names are taken to be neither integer-like nor inherited names.
- Strings compare as sequences of characters. JavaScript compares UTF-16 code units, which differs only for characters outside the Basic Multilingual Plane.
- Display: a missing category is shown as "undefined" (the model does not separate `null` from `undefined`), and a non-string category is not modelled.
- The engine's sort algorithm:
  - The comparator `(a, b) => (a.date < b.date ? 1 : -1)` never returns 0. For two equal dates it answers -1 both ways, so it is not a consistent comparator. ECMAScript (ECMA-262, `Array.prototype.sort`, section 23.1.3.30 of the 2023 edition) then leaves the whole resulting order implementation-defined, not only the order of ties.
  - App.SortNewestFirst uses an insertion sort with the source's comparator. Its contract, non-increasing dates and a permutation, assumes that the engine's result still respects the comparator on distinct dates, as the major engines' sorts do; the language does not promise it.
- On a thrown summary the transactions request is never made: `RefreshMainDashboard` and `FetchData` receive both replies as parameters and then ignore the transactions reply.
- A table element without a `tbody` is treated as a missing table.
