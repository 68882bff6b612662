# Bookkeeping screens: voucher editor, voucher list, chart-of-accounts filter

A Dafny model of the logic in a browser bookkeeping UI. The model covers three screens:

- **Voucher editor** (`VoucherForm.dfy`). A double-entry voucher is a header (date, voucher number, description) plus an ordered list of ledger rows. The `Editor` class holds the header, the rows (`seq<Item>`) and the error text. Its methods add a blank row, remove rows by id (refused when one row or fewer is left), change one field of one row, and handle typing into an amount cell. `CalculateTotals` sums the debit and credit columns in one loop. `HandleSubmit` runs the three checks in the source's order: header fields, then each row, then the balance within 0.001. It reports whether the voucher is saved (`onSave` called). The pure `Validate` gives the same verdict, and the lemmas are stated about it.
- **Voucher list** (`VoucherList.dfy`). This covers the stored sample vouchers and each voucher's debit and credit totals, computed as a `reduce` from 0. It also covers the detail cells (an amount only when it is above 0, otherwise '-') and the map of expanded vouchers with its toggle. The `VoucherListView` class holds the list state. The date fields are part of that state but do not affect the rows.
- **Chart-of-accounts filter** (`AccountList.dfy`). A case-insensitive substring search on code or name, combined with an exact type selector in which "全部" (all) matches every type.

`Amounts.dfy` models the JavaScript coercions the voucher screens apply to an amount cell: `Number(x)`, `Number(x)` with NaN read as 0, truthiness and `Number(x) > 0`. It works on cells that hold either typed text or a stored number. Amounts are exact `real`s, so the 0.001 tolerance is kept as written. `Seqs.dfy` defines order-preserving subsequences, which are what a `filter` returns.

Two behaviours of the submit checks are worth noting:
- On the amounts, the row check rejects a row only when both cells are falsy or both read as positive. The text "0" is truthy, so a row whose debit is "0" passes and a voucher of zero amounts is saved (`ZeroTextRowIsSaved`).
- Rows are checked before the balance. An unbalanced draft with an invalid row is rejected for the row, not for the balance (`RowsCheckedBeforeBalance`).

## Model

| member | source | states |
|---|---|---|
| Amounts.ToNumber | src/components/vouchers/VoucherForm.tsx:83-84 | `Number(x)`: empty text is 0, a stored number reads as itself, text starting with a digit is read as an unsigned decimal numeral |
| Amounts.NumberOrZero | src/components/vouchers/VoucherForm.tsx:83-84 | `Number(x)` with NaN read as 0: the value `Number` reads, or 0 when it reads NaN |
| Amounts.Truthy | src/components/vouchers/VoucherForm.tsx:103 | JavaScript truthiness of a cell: the empty text and the number 0 are falsy, every other text (including "0") is truthy |
| Amounts.Positive | src/components/vouchers/VoucherForm.tsx:103 | `Number(x) > 0`: the cell reads as a number and that number is above 0; NaN is never positive |
| Amounts.ParseUnsigned | src/components/vouchers/VoucherForm.tsx:83-84 | a decimal numeral without a sign never reads as a negative amount |
| Amounts.PositiveIsTruthyAndCounted | src/components/vouchers/VoucherForm.tsx:103 | a positive cell is also truthy, and `Number(x) > 0` holds exactly when `Number(x)`, with NaN read as 0, is above 0 |
| Amounts.ZeroTextIsTruthyButNotPositive | src/components/vouchers/VoucherForm.tsx:103 | the text "0" counts as filled in, yet it is not positive and adds 0 to a total |
| Amounts.NonNumericTextCountsAsZero | src/components/vouchers/VoucherForm.tsx:83-84 | any text `Number()` reads as NaN is non-empty, adds 0 to the totals, is not positive, and is still truthy |
| Amounts.NatRoundTrip | src/components/vouchers/VoucherForm.tsx:83-84 | the decimal text of a whole number converts back to that number |
| Amounts.CentsRoundTrip | src/components/vouchers/VoucherForm.tsx:83-84 | an amount in cents written with two decimals (optional sign, units, two decimal digits) converts back to that amount under `Number()` |
| VoucherList.Reduce | src/components/vouchers/VoucherList.tsx:145-146 | the `reduce` callback applied left to right: each item's amount on the side added to the running sum |
| VoucherList.VoucherTotal | src/components/vouchers/VoucherList.tsx:145-146 | a voucher's shown debit or credit total: the `reduce` started at 0 |
| VoucherList.ReduceIsSum | src/components/vouchers/VoucherList.tsx:145-146 | the `reduce` from any start value equals that start value plus the sum of the column |
| VoucherList.VoucherTotalIsSum | src/components/vouchers/VoucherList.tsx:145-146 | a voucher's shown debit or credit total is the sum of its items' amounts on that side |
| VoucherList.SumNonNegative | src/components/vouchers/VoucherList.tsx:145-146 | when no amount in a column is negative, its total is not negative |
| VoucherList.SampleVouchersBalance | src/components/vouchers/VoucherList.tsx:26-61 | each sample voucher balances: 10000/10000, 8000/8000, 25000/(2500 + 22500) |
| VoucherList.DetailCell | src/components/vouchers/VoucherList.tsx:236-237 | a detail cell shows the amount exactly when it is above 0, and '-' otherwise |
| VoucherList.ShownCellsAddUpToTotal | src/components/vouchers/VoucherList.tsx:236-243 | with no negative amount, the footer total equals the sum of what the detail cells show |
| VoucherList.NegativeAmountHiddenButCounted | src/components/vouchers/VoucherList.tsx:236-242 | a negative amount is shown as '-' but still counts in the footer total |
| VoucherList.IsExpanded | src/components/vouchers/VoucherList.tsx:147 | a voucher with no entry in the map is collapsed |
| VoucherList.Toggled | src/components/vouchers/VoucherList.tsx:74-79 | the toggled key ends up present with its reading flipped; every other key keeps its presence and value |
| VoucherList.ToggleLeavesOthers | src/components/vouchers/VoucherList.tsx:74-79 | toggling one voucher does not change whether another voucher reads as expanded |
| VoucherList.ToggleTwiceRestoresReading | src/components/vouchers/VoucherList.tsx:74-79 | toggling the same id twice restores every voucher's expanded reading |
| VoucherList.ToggleTwiceMayChangeMap | src/components/vouchers/VoucherList.tsx:74-79 | toggling twice does not restore the map itself: an absent key comes back as `false` |
| VoucherList.VoucherListView.constructor | src/components/vouchers/VoucherList.tsx:68-71 | the list starts with the sample vouchers, empty date fields and nothing expanded |
| VoucherList.VoucherListView.Rows | src/components/vouchers/VoucherList.tsx:143-147 | the table has one row per voucher, in the array's order |
| VoucherList.VoucherListView.ToggleVoucherExpand | src/components/vouchers/VoucherList.tsx:74-79 | only the rows of the toggled voucher flip their expanded flag; the totals do not change |
| VoucherList.VoucherListView.SetStartDate | src/components/vouchers/VoucherList.tsx:104-107 | setting the start date leaves the listed rows exactly as they were |
| VoucherList.VoucherListView.SetEndDate | src/components/vouchers/VoucherList.tsx:115-118 | setting the end date leaves the listed rows exactly as they were |
| VoucherForm.BlankItem | src/components/vouchers/VoucherForm.tsx:45-51 | a new row has the given id, no account or description, and two falsy amount cells worth 0 |
| VoucherForm.SetField | src/components/vouchers/VoucherForm.tsx:71 | `{ ...item, [field]: value }` changes only the named field and keeps the id |
| VoucherForm.UpdateRows | src/components/vouchers/VoucherForm.tsx:67-76 | only the named field of rows with that id changes; length, order, ids, other rows and other fields stay the same |
| VoucherForm.Without | src/components/vouchers/VoucherForm.tsx:64 | exactly the rows with that id are dropped: the length shrinks by their count and the rest keep their order |
| VoucherForm.RemoveKeepsARow | src/components/vouchers/VoucherForm.tsx:55-64 | with distinct ids, removing from two or more rows leaves at least one |
| VoucherForm.RemoveWithSharedIdEmptiesList | src/components/vouchers/VoucherForm.tsx:55-64 | two rows that share an id are both removed, which empties the list despite the length guard |
| VoucherForm.Total | src/components/vouchers/VoucherForm.tsx:78-88 | a column total of the editor: the sum over the rows of `Number(x)` with NaN read as 0 |
| VoucherForm.FromStoredItems | src/components/vouchers/VoucherForm.tsx:36 | an opened voucher's stored lines become editor rows one for one, in order, amounts as stored numbers |
| VoucherForm.TotalAppend | src/components/vouchers/VoucherForm.tsx:78-88 | the total of two row lists put together is the sum of their totals |
| VoucherForm.AddBlankKeepsTotals | src/components/vouchers/VoucherForm.tsx:42-53 | appending a blank row leaves both totals unchanged |
| VoucherForm.TextEditKeepsTotals | src/components/vouchers/VoucherForm.tsx:67-88 | editing an account or a description leaves both totals unchanged |
| VoucherForm.ClearsOpposite | src/components/vouchers/VoucherForm.tsx:234 | the guard of the amount handler: the typed text is non-empty and reads as a number above 0 |
| VoucherForm.AmountChange | src/components/vouchers/VoucherForm.tsx:232-251 | typing into one amount cell stores the text there; when the text is positive, the other side of the same row becomes empty; other rows and fields stay the same |
| VoucherForm.PositiveEntryExcludesBothPositive | src/components/vouchers/VoucherForm.tsx:232-236 | after a positive amount is typed, that row has exactly its typed side positive |
| VoucherForm.AmountChangeAsWritten | src/components/vouchers/VoucherForm.tsx:232-236 | the handler as written, both updates taken from one snapshot, keeps the row count |
| VoucherForm.AsWrittenDropsPositiveAmount | src/components/vouchers/VoucherForm.tsx:232-236 | as written, a positive amount is lost: the typed cell keeps its old content and only the other side is emptied |
| VoucherForm.TypedDebitExample | src/components/vouchers/VoucherForm.tsx:232-236 | typing "100" as a blank row's debit stores it under the corrected handler and leaves it empty under the handler as written |
| VoucherForm.RowValid | src/components/vouchers/VoucherForm.tsx:103 | a row passes unless its account is empty, both amount cells are falsy, or both read as positive |
| VoucherForm.HeaderFilled | src/components/vouchers/VoucherForm.tsx:96 | date, voucher number and description are all non-empty |
| VoucherForm.ExactlyOnePositiveIsValid | src/components/vouchers/VoucherForm.tsx:103 | a row with an account and exactly one positive side passes the row check |
| VoucherForm.OutOfBalance | src/components/vouchers/VoucherForm.tsx:110 | submit's balance test: the totals differ by more than 0.001 |
| VoucherForm.IndicatorBalanced | src/components/vouchers/VoucherForm.tsx:284 | the balance indicator's test: the totals differ by less than 0.001 |
| VoucherForm.IndicatorAgreesWithSubmit | src/components/vouchers/VoucherForm.tsx:284 | the balance indicator and the submit check agree, except at a difference of exactly 0.001, where the voucher saves while showing "unbalanced" |
| VoucherForm.Validate | src/components/vouchers/VoucherForm.tsx:92-120 | the header, then each row, then the balance (more than 0.001 apart); the verdict is the first failing check's error, otherwise saved |
| VoucherForm.Message | src/components/vouchers/VoucherForm.tsx:96-116 | the error text is empty exactly when the submit succeeds |
| VoucherForm.WellFormedDraftIsSaved | src/components/vouchers/VoucherForm.tsx:92-120 | a filled header, rows with an account and exactly one positive side, and totals within 0.001 mean the voucher is saved |
| VoucherForm.RowsCheckedBeforeBalance | src/components/vouchers/VoucherForm.tsx:101-113 | with a filled header, any invalid row gives the row error, even if the voucher is also unbalanced |
| VoucherForm.BothPositiveRejected | src/components/vouchers/VoucherForm.tsx:103-106 | with a filled header, a row with both sides positive gives the row error |
| VoucherForm.ZeroTextRowIsSaved | src/components/vouchers/VoucherForm.tsx:103 | a row whose debit is the text "0" passes, so a zero-amount voucher is saved |
| VoucherForm.TwoLineDraftIsSaved | src/components/vouchers/VoucherForm.tsx:92-120 | 10000 debit against 10000 credit is saved |
| VoucherForm.SplitCreditDraftIsSaved | src/components/vouchers/VoucherForm.tsx:92-120 | 25000 debit against 2500 + 22500 credit is saved |
| VoucherForm.UnbalancedDraftIsRejected | src/components/vouchers/VoucherForm.tsx:109-113 | typed "100" against typed "50" is rejected as unbalanced |
| VoucherForm.MissingAccountIsRejected | src/components/vouchers/VoucherForm.tsx:101-106 | a single row without an account gives the row error |
| VoucherForm.EditTotalsMatchList | src/components/vouchers/VoucherForm.tsx:78-88 | a stored voucher opened in the editor has the same totals the list shows for it |
| VoucherForm.SampleVouchersAreSaved | src/components/vouchers/VoucherForm.tsx:92-120 | every sample voucher, opened and submitted unchanged, is saved |
| VoucherForm.Editor.constructor | src/components/vouchers/VoucherForm.tsx:30-39 | a new form has an empty header and one blank row; an edit form has the voucher's own header and rows; no error is shown |
| VoucherForm.Editor.SetDate | src/components/vouchers/VoucherForm.tsx:150 | the date field takes the typed value |
| VoucherForm.Editor.SetVoucherNumber | src/components/vouchers/VoucherForm.tsx:164 | the voucher number field takes the typed value |
| VoucherForm.Editor.SetDescription | src/components/vouchers/VoucherForm.tsx:179 | the description field takes the typed value |
| VoucherForm.Editor.AddItem | src/components/vouchers/VoucherForm.tsx:42-53 | one blank row is appended; earlier rows are unchanged and in order; the totals do not move |
| VoucherForm.Editor.RemoveItem | src/components/vouchers/VoucherForm.tsx:55-64 | refused, with rows unchanged, when one row or fewer is left; otherwise the rows with that id are dropped; with distinct ids at least one row remains |
| VoucherForm.Editor.UpdateItem | src/components/vouchers/VoucherForm.tsx:67-76 | the rows become the single-field update of the old rows |
| VoucherForm.Editor.OnAmountChange | src/components/vouchers/VoucherForm.tsx:232-251 | the rows become the corrected amount-cell update of the old rows |
| VoucherForm.Editor.CalculateTotals | src/components/vouchers/VoucherForm.tsx:78-88 | the two results are the debit and credit column totals, each cell counted as `Number(x)` with NaN read as 0 |
| VoucherForm.Editor.HandleSubmit | src/components/vouchers/VoucherForm.tsx:92-120 | saves exactly when the header is filled, every row passes and the totals differ by at most 0.001; the first failing check's message is set, and the error is cleared on success |
| AccountList.SampleTypesSelectable | src/components/accounts/AccountList.tsx:26-49 | every sample account's type is one of the selector's options other than "全部" |
| AccountList.LowerChar | src/components/accounts/AccountList.tsx:53-54 | a lower-cased character is never an upper-case Latin letter, and other characters are kept |
| AccountList.Lower | src/components/accounts/AccountList.tsx:53-54 | lower-casing keeps the length and leaves no upper-case Latin letter |
| AccountList.LowerIdempotent | src/components/accounts/AccountList.tsx:53-54 | lower-casing twice is lower-casing once |
| AccountList.IncludesEmpty | src/components/accounts/AccountList.tsx:52-54 | every string includes the empty string |
| AccountList.Includes | src/components/accounts/AccountList.tsx:53-54 | `s.includes(t)`: `t` occurs in `s` at some position |
| AccountList.MatchesSearch | src/components/accounts/AccountList.tsx:52-54 | the lower-cased search term occurs in the lower-cased code or in the lower-cased name |
| AccountList.MatchesType | src/components/accounts/AccountList.tsx:55 | the selected type is "全部" or equals the account's type |
| AccountList.Keep | src/components/accounts/AccountList.tsx:51-57 | the filter callback: the account matches the search and the type |
| AccountList.Filter | src/components/accounts/AccountList.tsx:51-58 | an account is in the result exactly when it is in the list and matches both the search and the type; the result is a subsequence of the list, in the same order |
| AccountList.FilterKeepsEveryCopy | src/components/accounts/AccountList.tsx:51-58 | every copy of a matching account is kept and no copy of another: each account occurs in the result as often as in the list if it matches, otherwise not at all |
| AccountList.FilterIdempotent | src/components/accounts/AccountList.tsx:51-58 | filtering the filtered list with the same criteria returns it unchanged |
| AccountList.FilterKeepsAll | src/components/accounts/AccountList.tsx:51-58 | when every account matches, the whole list is returned in order |
| AccountList.EmptySearchMatchesTypeOnly | src/components/accounts/AccountList.tsx:52-55 | with an empty search, an account is kept exactly when its type matches the selection |
| AccountList.InitialFilterShowsAll | src/components/accounts/AccountList.tsx:45-58 | the initial criteria (empty search, "全部") list every account in order |
| AccountList.TypeSelection | src/components/accounts/AccountList.tsx:55 | "全部" turns the type test off; any other selection keeps only accounts of exactly that type |
| AccountList.FilterIgnoresCase | src/components/accounts/AccountList.tsx:53-54 | search terms that differ only in letter case give the same result |
| AccountList.UpperCaseSearchExample | src/components/accounts/AccountList.tsx:53-54 | searching for "ABC" gives the same result as searching for "abc" |

## Findings

| source | as written | input that shows it | evidently intended | confidence | as-written member | corrected member |
|---|---|---|---|---|---|---|
| src/components/vouchers/VoucherForm.tsx:232-236 | the debit (and likewise the credit, lines 247-251) onChange calls `updateItem` twice. Each call maps the same `items` of the current render and calls `setItems` with a whole new list, so the second list replaces the first. | typing "100" into the debit of a blank row: the row ends with debit "" and credit "" | the typed debit is stored and the credit is emptied | medium, not executed; rests on React keeping the last `setItems` value | VoucherForm.AsWrittenDropsPositiveAmount | VoucherForm.AmountChange |

`VoucherForm.AmountChangeAsWritten` models the handler as written, and `VoucherForm.TypedDebitExample` shows both versions on the input above. The `Editor` class uses the corrected `AmountChange`.

## Left out

- Rendering, CSS, toasts, `alert`, the delete confirmation dialogs and the receipt viewer are left out. `handleDelete` only shows a toast and removes nothing.
- Row ids are passed in as parameters. The source takes them from `Date.now()`, a clock, so nothing ensures they are distinct. `RemoveWithSharedIdEmptiesList` shows what happens when two ids are equal.
- Amounts are exact reals, not IEEE doubles, so rounding error and `toFixed(2)` display formatting are not modelled. The difference shown under the table (`toFixed(2)`) is left out for the same reason.
- Amounts.ToNumber: only plain decimal text is modelled (optional sign, digits, optional '.' and fraction). JavaScript's surrounding-whitespace trimming, exponent notation, hex/binary/octal prefixes and "Infinity" are not.
- VoucherForm.Editor.HandleSubmit: the browser's own form validation is not modelled. The three header inputs are marked `required` (VoucherForm.tsx:152, :166, :181), so in a browser an empty header field stops the submit before `handleSubmit` runs and "请填写所有必填字段" is not set; `HandleSubmit` models `handleSubmit` as if it were called directly. Whether the voucher is saved is the same either way.
- AccountList.LowerChar and AccountList.Lower: only A-Z are lower-cased. Full Unicode case mapping is not modelled; the sample codes and names are digits and Chinese text, which lower-casing does not change.
- React's state scheduling is not modelled. Each `Editor` method applies its update at once. The one place where scheduling changes the outcome is the amount-cell handler, covered under Findings.
- The `voucher` prop is untyped in the source. The model takes a stored voucher whose fields are all present. The source's fallbacks for an absent field (`voucher?.date || ""`, `voucher?.items || [blank row]`) are only partly modelled: an edit form with an empty `items` array keeps it empty, as in the source.
- File uploads (`handleFileChange`, the `receipts` state) are I/O and are left out.
- The settings forms, the sidebar, the header, the page wiring, the transaction screens and the account form are not part of this model. They bind form fields or lay out tabs and hold no logic beyond a required-field check like the voucher header check.
