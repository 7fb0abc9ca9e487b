# Crypto investment dashboard: a Dafny model of its two Lightning web components

This project models the logic inside two Salesforce Lightning web components:

- **`CryptoInvestor`**: the portfolio dashboard. It turns the server's per-asset aggregates (quantity, cost, price) into display rows with an average buy price and a profit/loss. It sums the rows into a portfolio figure and shows an up/down arrow for its sign. It pages the rows ten at a time. It also keeps the portfolio list, the selected portfolio and the highlighted sidebar entry, guards deletes, and builds transaction drafts and Buy/Sell details from row actions.
- **`CreateTransactionModal`**: the "New Transaction" form. It validates symbol, quantity and amount in that order, upper-cases the symbol for the symbol verification service, and closes with the verified symbol.

Modules:

- `Js` (`js.dfy`): the JavaScript value semantics the code relies on:
  - numbers that may be NaN, and truthiness;
  - `Array.prototype.slice`;
  - `replace(/\$/g, '')`;
  - `toUpperCase`.
- `Paging` (`paging.dfy`): page count, clamping, the page slice, when the controls show, and the prev/next steps.
- `Valuation` (`valuation.dfy`): `createdPriceListToDataTable`, `calculateProfitAndLoss`, the sum in `calculateAverageProfitAndLoss`, and the sign test of `updateProfitLossStyle`.
  - `parseFloat` and `toFixed` are the two fields of a `NumberFormat` value, left uninterpreted.
  - `ReadsBack(fmt, x)` says that `x.toFixed(4)` parses back to x. The lemmas that tie displayed figures to exact real arithmetic assume it only for the figures they are about: each row's profit/loss, its average, and the total. A rounding formatter can meet that, as `Scenarios.OneLotInProfit` shows.
- `Portfolios` (`portfolios.dfy`):
  - `find` by Id;
  - reading `selectedPortfolio.Id` (a TypeError on `undefined`);
  - the delete guard;
  - the sidebar highlight, modelled as a set of highlighted ids changed by `classList.toggle`.
- `RowActions` (`row_actions.dfy`): `handleRowAction`, `createTransactionDetails` and the draft built by `handleCreateTransaction`.
- `Investor` (`investor.dfy`): the class `CryptoInvestor`. Its fields are the component's fields, and its methods are the handlers that change them. A remote call's result is passed in as an `Option` (`None` = the call failed) to the method that models the continuation.
- `TransactionModal` (`transaction_modal.dfy`): the class `CreateTransactionModal` with its three fields and handlers. The symbol verification service is a function parameter.
- `Scenarios` (`scenarios.dfy`): client methods that use the classes only through their contracts.

Where the code behaves differently from what one might expect, the model follows the code:

- After a delete, the list is reloaded and `updateUI` selects `portfolios[0]`. One might expect the last entry to be selected.
- `numberOfPages` is `Math.ceil(n / 10)`, which is 0 for an empty list, not a minimum of 1. The page number still clamps to 1.
- Validation rejects only 0 and NaN, so negative quantities and amounts pass. The profit/loss guard also tests truthiness, not positivity.
- A failed `createPortfolio` still re-selects the last portfolio in `finally`. With an empty list that read throws.
- The total re-parses the formatted four-digit row strings instead of summing the unrounded values. The model keeps the re-parse and proves exactness whenever those four-digit strings read back.
- Showing the controls only above 10 rows might look like an off-by-one. `Paging.ControlsIffSeveralPages` shows it is exactly "more than one page".

## Model

| member | source | states |
|---|---|---|
| `Js.Slice` | force-app/main/default/lwc/cryptoInvestor/cryptoInvestor.js:242 | `slice` with in-range bounds is the subsequence between them; an inverted range gives the empty list; never longer than the input |
| `Js.RemoveDollars` | force-app/main/default/lwc/cryptoInvestor/cryptoInvestor.js:380 | the result holds no `$`, is no longer than the input and holds only characters of the input |
| `Js.RemoveDollarsAppend` | force-app/main/default/lwc/cryptoInvestor/cryptoInvestor.js:380 | removing `$` distributes over concatenation |
| `Js.RemoveDollarsFixpoint` | force-app/main/default/lwc/cryptoInvestor/cryptoInvestor.js:380 | a string is left unchanged iff it holds no `$`; removing twice equals removing once |
| `Js.StripCurrencyPrefix` | force-app/main/default/lwc/cryptoInvestor/cryptoInvestor.js:200 | stripping a formatted `"$" + digits` gives back the digits, as the re-parse of the `$`-prefixed profit/loss cells needs |
| `Js.UpperChar` | force-app/main/default/lwc/createTransactionModal/createTransactionModal.js:30 | the result is never a lower-case letter; non-letters are kept; letters move by 32 code points |
| `Js.ToUpperCase` | force-app/main/default/lwc/createTransactionModal/createTransactionModal.js:30 | same length, each character upper-cased in place |
| `Js.UpperCaseIdempotent` | force-app/main/default/lwc/createTransactionModal/createTransactionModal.js:30 | upper-casing twice equals once and leaves no lower-case letter |
| `Paging.PageCount` | force-app/main/default/lwc/cryptoInvestor/cryptoInvestor.js:153 | the ceiling of n/10: the fewest pages that hold n rows, 0 only for an empty list |
| `Paging.ClampPage` | force-app/main/default/lwc/cryptoInvestor/cryptoInvestor.js:235 | result in [1, max(1, pages)]; an in-range page is kept; above range gives the last page, below gives 1 |
| `Paging.PageShape` | force-app/main/default/lwc/cryptoInvestor/cryptoInvestor.js:239-242 | for a page in range the slice is `rows[(p-1)*10 .. min(p*10, n)]`, at most 10 rows, and empty only for an empty list |
| `Paging.PagesCoverList` | force-app/main/default/lwc/cryptoInvestor/cryptoInvestor.js:239-242 | pages 1..pageCount laid end to end are exactly the list |
| `Paging.ControlsIffSeveralPages` | force-app/main/default/lwc/cryptoInvestor/cryptoInvestor.js:244 | controls show (n ≥ 11) iff there are at least two pages, so 10 rows show none |
| `Paging.NextPage` | force-app/main/default/lwc/cryptoInvestor/cryptoInvestor.js:257-262 | one forward below the last page, otherwise unchanged; stays within [1, max(1, pages)] |
| `Paging.PrevPage` | force-app/main/default/lwc/cryptoInvestor/cryptoInvestor.js:250-255 | one back above page 1, otherwise unchanged; never below 1 |
| `Paging.NextTimesSaturates` | force-app/main/default/lwc/cryptoInvestor/cryptoInvestor.js:257-262 | k presses of "next" reach min(page + k, pages): no wraparound |
| `Paging.PrevNextInverse` | force-app/main/default/lwc/cryptoInvestor/cryptoInvestor.js:250-262 | prev undoes next below the last page; next undoes prev above the first |
| `Valuation.AverageCost` | force-app/main/default/lwc/cryptoInvestor/cryptoInvestor.js:167-169 | an average exists iff the quantity is positive, and then average × quantity = cost |
| `Valuation.ProfitAndLoss` | force-app/main/default/lwc/cryptoInvestor/cryptoInvestor.js:184-196 | a figure exists iff quantity, cost and price are all non-zero and non-NaN; then it equals price × qty − cost |
| `Valuation.ToRows` | force-app/main/default/lwc/cryptoInvestor/cryptoInvestor.js:166 | one row per aggregate |
| `Valuation.ToRowsAt` | force-app/main/default/lwc/cryptoInvestor/cryptoInvestor.js:164-179 | row k is built from aggregate k, in order, with its `portfolioCurrencyId` as Id and its symbol as name |
| `Valuation.SumNaN` | force-app/main/default/lwc/cryptoInvestor/cryptoInvestor.js:200-201 | the reduce gives NaN iff some term is NaN |
| `Valuation.Indicate` | force-app/main/default/lwc/cryptoInvestor/cryptoInvestor.js:218-228 | "up" iff the value is > 0, "down" iff < 0, neither for 0 or NaN |
| `Valuation.RowReadsBack` | force-app/main/default/lwc/cryptoInvestor/cryptoInvestor.js:184-200 | when "0.00" and that row's four-digit figure read back, its P/L cell re-parses to the exact profit/loss (0 behind the guard) |
| `Valuation.AverageReadsBack` | force-app/main/default/lwc/cryptoInvestor/cryptoInvestor.js:167-176 | when "0.00" and that row's four-digit average read back, its average cell re-parses to cost / quantity (0 for quantity ≤ 0) |
| `Valuation.ZeroQuantityRow` | force-app/main/default/lwc/cryptoInvestor/cryptoInvestor.js:167-190 | quantity 0 shows `$0.00` average, `$0.00` profit/loss and zero holdings |
| `Valuation.NegativeQuantityRow` | force-app/main/default/lwc/cryptoInvestor/cryptoInvestor.js:169-193 | a negative quantity passes the P/L guard while its average shows `$0.00` |
| `Valuation.SumOfExact` | force-app/main/default/lwc/cryptoInvestor/cryptoInvestor.js:201 | summing values equal pointwise to the exact figures gives the exact total |
| `Valuation.RowValuesOfRows` | force-app/main/default/lwc/cryptoInvestor/cryptoInvestor.js:199-201 | when every row's P/L cell reads back, the re-parsed total of the rows is the exact sum of the aggregates' profit/loss |
| `Valuation.TotalIsExactSum` | force-app/main/default/lwc/cryptoInvestor/cryptoInvestor.js:199-228 | when the rows' cells and the four-digit total read back, the portfolio figure is that exact sum, and the arrow is up / down / neither iff the sum is > 0 / < 0 / = 0 |
| `Valuation.NaNRowPoisonsTotal` | force-app/main/default/lwc/cryptoInvestor/cryptoInvestor.js:200-204 | one row whose P/L does not parse makes the total NaN, which shows neither arrow |
| `Portfolios.Find` | force-app/main/default/lwc/cryptoInvestor/cryptoInvestor.js:139 | some portfolio is chosen iff one has the Id, and then it is the first such; otherwise `undefined`, never `{}` |
| `Portfolios.FindHead` | force-app/main/default/lwc/cryptoInvestor/cryptoInvestor.js:82-84 | selecting the first portfolio's Id selects the first portfolio |
| `Portfolios.FindUnique` | force-app/main/default/lwc/cryptoInvestor/cryptoInvestor.js:130-131 | selecting an Id that is unique in the list selects that portfolio |
| `Portfolios.ReadId` | force-app/main/default/lwc/cryptoInvestor/cryptoInvestor.js:339 | reading `.Id` throws exactly when the selection is `undefined` |
| `Portfolios.DeleteRequest` | force-app/main/default/lwc/cryptoInvestor/cryptoInvestor.js:337-354 | a delete is requested iff a portfolio with a non-empty Id is selected, and for that Id; `{}` or an empty Id reports an invalid selection; `undefined` throws |
| `Portfolios.RenderedIds` | force-app/main/default/lwc/cryptoInvestor/cryptoInvestor.js:267 | exactly the Ids of the listed portfolios |
| `Portfolios.Toggle` | force-app/main/default/lwc/cryptoInvestor/cryptoInvestor.js:273-283 | flips membership of the id and of nothing else |
| `Portfolios.ToggleTwice` | force-app/main/default/lwc/cryptoInvestor/cryptoInvestor.js:276-277 | toggling twice restores the highlight |
| `Portfolios.Highlight` | force-app/main/default/lwc/cryptoInvestor/cryptoInvestor.js:264-271 | the two toggles leave exactly the selected entry highlighted when the sidebar shows it, and none otherwise |
| `Portfolios.HighlightReselect` | force-app/main/default/lwc/cryptoInvestor/cryptoInvestor.js:264-271 | re-selecting the highlighted entry keeps it highlighted; selecting twice equals once |
| `TransactionModal.FirstInvalidField` | force-app/main/default/lwc/createTransactionModal/createTransactionModal.js:39-47 | empty symbol first, then a quantity that is 0/NaN, then an amount that is 0/NaN; valid iff none applies, so negatives pass |
| `TransactionModal.CreateTransactionModal.constructor` | force-app/main/default/lwc/createTransactionModal/createTransactionModal.js:8-10 | the untouched form (`''`, 0, 0) fails on the symbol first |
| `TransactionModal.CreateTransactionModal.HandleTokenSymbolChange` | force-app/main/default/lwc/createTransactionModal/createTransactionModal.js:12-14 | stores the entered symbol, nothing else changes |
| `TransactionModal.CreateTransactionModal.HandleQuantityChange` | force-app/main/default/lwc/createTransactionModal/createTransactionModal.js:16-18 | stores `parseFloat` of the input's text, nothing else changes; a text that parses to NaN (an empty input) leaves the form invalid |
| `TransactionModal.CreateTransactionModal.HandleAmountChange` | force-app/main/default/lwc/createTransactionModal/createTransactionModal.js:19-21 | stores `parseFloat` of the input's text, nothing else changes; a text that parses to NaN leaves the form invalid |
| `TransactionModal.CreateTransactionModal.ValidateFields` | force-app/main/default/lwc/createTransactionModal/createTransactionModal.js:39-47 | invalid iff the symbol is empty or the quantity or amount is 0/NaN, reporting the first failure |
| `TransactionModal.CreateTransactionModal.HandleTransactionSuccess` | force-app/main/default/lwc/createTransactionModal/createTransactionModal.js:49-55 | closes with the service's symbol and the quantity and amount as entered |
| `TransactionModal.CreateTransactionModal.HandleAddTransaction` | force-app/main/default/lwc/createTransactionModal/createTransactionModal.js:24-37 | no verification call iff validation fails; otherwise the upper-cased symbol is sent; closes iff the service accepts, with its symbol |
| `RowActions.CreateTransactionDetails` | force-app/main/default/lwc/cryptoInvestor/cryptoInvestor.js:379-393 | keeps Id, name and holdings; price, average and profit/loss are the row's strings with every `$` removed, so none holds a `$`, and a `$`-free price is kept as it is |
| `RowActions.HandleRowAction` | force-app/main/default/lwc/cryptoInvestor/cryptoInvestor.js:362-377 | details iff the action is `buy_token` (the row's Buy details, "success") or `sell_token` (the row's Sell details, "destructive"); any other name yields nothing; the details keep the row's Id, name and holdings |
| `RowActions.DetailsOfTableRow` | force-app/main/default/lwc/cryptoInvestor/cryptoInvestor.js:379-393 | for a table row the details carry the two-digit price without `$`; when the row's P/L cell reads back, their P/L re-parses to the exact figure |
| `RowActions.DraftFor` | force-app/main/default/lwc/cryptoInvestor/cryptoInvestor.js:286-308 | no draft iff the modal gave no result; throws iff the selection is `undefined`; otherwise a Buy for the selected Id with the modal's symbol, quantity and amount |
| `Investor.CryptoInvestor.constructor` | force-app/main/default/lwc/cryptoInvestor/cryptoInvestor.js:35-55 | initial state: empty lists, page 1, starting index 1 and ending index 0, no controls, selection `{}`, nothing highlighted |
| `Investor.CryptoInvestor.DisplayRecordPerPage` | force-app/main/default/lwc/cryptoInvestor/cryptoInvestor.js:233-246 | page = max(1, min(p, pages)) ≥ 1; the table is `priceList[(p-1)*10 .. min(p*10, n)]`, at most 10 rows, empty iff the list is; controls iff n ≥ 11 |
| `Investor.CryptoInvestor.PrevHandler` | force-app/main/default/lwc/cryptoInvestor/cryptoInvestor.js:250-255 | above page 1, shows the previous page, with both index fields set for it; on page 1 the whole state is unchanged |
| `Investor.CryptoInvestor.NextHandler` | force-app/main/default/lwc/cryptoInvestor/cryptoInvestor.js:257-262 | below the last page, shows the next page, with both index fields set for it; on the last page the whole state is unchanged |
| `Investor.CryptoInvestor.CalculateAverageProfitAndLoss` | force-app/main/default/lwc/cryptoInvestor/cryptoInvestor.js:199-205 | the figure is the four-digit total; the arrow is the sign of that figure read back |
| `Investor.CryptoInvestor.LoadPortfolioDetails` | force-app/main/default/lwc/cryptoInvestor/cryptoInvestor.js:145-162 | rows rebuilt from the aggregates; the page the user was on is kept, clamped to the new count, with both index fields set for it; total recomputed; a failed load changes nothing |
| `Investor.CryptoInvestor.UpdatePortfolioHighlight` | force-app/main/default/lwc/cryptoInvestor/cryptoInvestor.js:264-283 | the highlight becomes the selected entry alone (if shown); at most one entry is ever highlighted |
| `Investor.CryptoInvestor.HandleSelectPortfolio` | force-app/main/default/lwc/cryptoInvestor/cryptoInvestor.js:137-143 | the selection is the first portfolio with the id, `undefined` if none; the highlight moves |
| `Investor.CryptoInvestor.UpdateUI` | force-app/main/default/lwc/cryptoInvestor/cryptoInvestor.js:81-88 | with portfolios, the first one is selected and highlighted; with none, nothing changes |
| `Investor.CryptoInvestor.LoadDetails` | force-app/main/default/lwc/cryptoInvestor/cryptoInvestor.js:62-79 | the list is the server's (the old one if the call failed), then the first portfolio is selected |
| `Investor.CryptoInvestor.HandleCreatePortfolio` | force-app/main/default/lwc/cryptoInvestor/cryptoInvestor.js:112-134 | appends exactly the created portfolio (nothing on failure), then selects the last; throws iff the list is empty; a new Id ends up selected and highlighted |
| `Investor.CryptoInvestor.HandleDelete` | force-app/main/default/lwc/cryptoInvestor/cryptoInvestor.js:337-354 | the delete is requested only for a truthy selected Id; `undefined` throws |
| `Investor.CryptoInvestor.HandleCreateTransaction` | force-app/main/default/lwc/cryptoInvestor/cryptoInvestor.js:286-308 | the draft carries the selected portfolio's Id as read from the selection |
| `Scenarios.CreateFirstPortfolio` | force-app/main/default/lwc/cryptoInvestor/cryptoInvestor.js:112-134 | on a fresh dashboard, creating "Main" leaves exactly `[Main]`, selected and highlighted |
| `Scenarios.PageFiveOfTwentyFive` | force-app/main/default/lwc/cryptoInvestor/cryptoInvestor.js:233-246 | 25 rows, page 5 requested: page 3 showing rows 20..25, with controls |
| `Scenarios.ZeroQuantityRejected` | force-app/main/default/lwc/createTransactionModal/createTransactionModal.js:24-47 | "btc" with quantity "0" never reaches the symbol service and does not close |
| `Scenarios.EmptyQuantityRejected` | force-app/main/default/lwc/createTransactionModal/createTransactionModal.js:16-47 | an empty quantity input parses to NaN and is rejected: no call to the symbol service, the modal stays open |
| `Scenarios.FilledFormCloses` | force-app/main/default/lwc/createTransactionModal/createTransactionModal.js:24-55 | "btc" is sent as "BTC"; the modal closes with the service's symbol and the negative quantity as entered |
| `Scenarios.OneLotInProfit` | force-app/main/default/lwc/cryptoInvestor/cryptoInvestor.js:184-228 | with a formatter that prints most reals as "0", one lot bought for 1.5 and priced at 2 still gives the exact total 0.5 and the up arrow |

## Left out

- Remote Apex calls are not modelled as calls: `getInvestmentDetails`, `getDataTableDetails`, `createPortfolio`, `deletePortfolio`, `createTransaction` and `verifyTokenSymbol` are remote I/O. Their results are method parameters.
- Promise ordering and async interleaving are not modelled. Whichever response lands last wins in the component, which is event-loop behaviour.
- `handleTransactionCreation` and `openTransactionModal` are not modelled separately. After success they reload by calling `HandleSelectPortfolio` and then `LoadPortfolioDetails`, both of which are modelled.
- Opening the modals (`CreatePortfolioModal`, `CreateTransactionModal`, `BuyOrSellModal`) is UI. c/createPortfolioModal is not part of this model, so a dismissed create dialog, where `result.label` would throw, is not covered.
- Toasts (`showToast`) and `console.log` are UI side effects.
- DOM work is not modelled: `toggleButtonNewPortfolio`, `toggleDataTable`, and the class and colour changes of `updateProfitLossStyle` and `togglePortfolioSelection` (including the three-dots button). Only the arrow (`Indicator`) and the highlighted-id set are kept.
- The neutral branch of `updateProfitLossStyle` uses the undeclared `profitIndicator` (cryptoInvestor.js:225) and would throw a ReferenceError. It is a DOM-side path and is not modelled.
- `Portfolios.RenderedIds` is the set of Ids of the current list. When LWC re-renders the sidebar relative to the highlight toggles is not modelled.
- `Portfolios.Highlight`: assumes at most one entry is highlighted beforehand, an invariant the class keeps. With several highlighted entries, `querySelector` would pick the first in document order.
- Floating point is not modelled: `parseFloat` and `toFixed` are uninterpreted, arithmetic is exact over `real`, and there is no Infinity. The total re-parses four-digit strings, so its exactness is proved only where those strings read back (`ReadsBack`). What rounding does to a figure that needs more than four digits is not modelled.
- `holdings` is kept as the number. Its conversion to a string is left to the view.
- `totalProfitAndLoss` in `createTransactionDetails` is left out. It reads a field the rows never have, so it is always `undefined`.
- `amountInvestments`, `currencyBalance` and `todayPnl` are summary strings that only format server values.
- `isLoading`, `isMenuOpen`, `handleThreedots`, `closeMenu` and `handleRename` hold no logic.
- `Js.ToUpperCase`: covers ASCII letters only. Unicode case mapping, including changes of length, is not modelled.
- `Portfolios.Find`: compares Ids as strings. JavaScript's loose `==` differs only for non-string Ids.
- `Investor.CryptoInvestor.constructor`: `numberOfPages` starts `undefined` in the component and is modelled as 0. It is compared only in `nextHandler` before the first load, where both give "no step".
