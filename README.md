# Binana buy-order pipeline in Dafny

Binana is a script for Binance.US. Each run it:

- reads the account's balances, predicted prices and the exchange's trading rules for each market;
- values the holdings in cents;
- lets a portfolio balancer decide how many cents to invest in each asset;
- submits one limit buy order per asset that passes the exchange's bounds;
- prints what was rejected, what was submitted and the total cash spent.

This project models the deterministic steps of that pipeline in `binana/async_main.py` and proves what each step promises.

| file | module | models |
|---|---|---|
| `results.dfy` | `Results` | The `Option`/`Result` types. Python's `KeyError` and the failing decimal remainder become `Err` values. |
| `constants.dfy` | `Constants` | The account id and the `USD` symbol. |
| `allocation.dfy` | `Allocation` | The declared `ALLOCATION`: categories, symbols and weights. |
| `arith.dfy` | `Arith` | Monotonicity of multiplication by a non-negative real, used by the rounding and budget proofs. |
| `step_size.dfy` | `StepSize` | The assumed meaning of `round_step_size`: truncation toward zero onto the step grid. |
| `balances.dfy` | `Balances` | The cash cap, and `get_account_balances` (totals, the capped USD total, keeping positive entries). |
| `prices.dfy` | `Prices` | `get_avg_price` (the USD short-circuit and the bid mean), `get_predicted_price`, and the price dictionary. |
| `symbol_info.dfy` | `SymbolInfo` | `get_all_symbol_info`: from tagged filters to one trading-rule record per base asset. |
| `portfolio_assets.dfy` | `PortfolioAssets` | `get_portfolio_assets`. |
| `buy_orders.dfy` | `BuyOrders` | `submit_buy_orders`: its per-asset pass, five-bound validator, task list, `order` results and cash-spent total. |

Modelling choices:

- Money and quantities are exact rationals (`real`).
- Each imperative loop of the source is a `method` with a `while` loop. The method is proved equal to a specification function that folds over a prefix of the input. The lemmas state the source's promises about that function.
- An exception in the source is an `Err`, raised in the same order as the source's lookups and divisions:
  - a missing dictionary key;
  - a zero step or tick (a decimal remainder by zero);
  - a zero price. The prices are numpy floats, so `dollar_investment / price` gives an infinite quantity rather than raising. The error comes when that quantity is rounded, after the step size has been read.
- The exchange is an input: a function from the submission index and the call made to a `RemoteOutcome`, which is either a response or a raised exception.

## Model

| member | source | states |
|---|---|---|
| `Balances.CashInvestmentAmount` | binana/async_main.py:64-74 | The usable cash never exceeds the investment amount or the USD balance minus the 10-dollar reserve, and it equals one of the two. |
| `Balances.KeptBalancesArePositiveEntries` | binana/async_main.py:83-90 | Entries are kept exactly when their total is positive, and in input order. Each kept entry is the raw entry with `total = free + locked`, except USD, whose total is the capped cash amount. |
| `Balances.KeptBalances` | binana/async_main.py:83-90 | The kept list is no longer than the input, and every kept entry has a positive total. |
| `Balances.GetAccountBalances` | binana/async_main.py:83-90 | The loop returns exactly `KeptBalances`. |
| `Prices.Mean` | binana/async_main.py:110 | The mean exists exactly for a non-empty list, and times the list's length it gives the sum. |
| `Prices.AvgPrice` | binana/async_main.py:92-111 | The symbol is returned unchanged. USD is priced at 1.0 without looking at bids. Any other symbol has a price exactly when it has at least one bid, and that price is the mean of the bids: times their number it gives their sum. |
| `Prices.AvgPriceWithinBids` | binana/async_main.py:108-111 | The average bid lies between the lowest and highest bid. |
| `Prices.PredictedPrice` | binana/async_main.py:122-126 | USD is priced at 1.0. Any other symbol gets the forecast for its dollar market (`symbol + "USD"`). |
| `Prices.PriceTable` | binana/async_main.py:128-129 | The dictionary built from one price task per symbol has exactly those symbols as keys, each mapped to its predicted price. |
| `Prices.PredictedPrices` | binana/async_main.py:128-129 | The price dictionary covers the portfolio symbols plus USD. USD maps to 1.0, and every other symbol maps to its forecast. |
| `SymbolInfo.ApplyFilter` | binana/async_main.py:145-156 | A complete `PRICE_FILTER` sets exactly the tick size and the price bounds. A complete `LOT_SIZE` sets exactly the step size and the quantity bounds. A complete `MIN_NOTIONAL` sets the minimum notional. Other types leave the record unchanged. A filter missing one of its keys fails, naming its type and a missing key. |
| `SymbolInfo.BuildRule` | binana/async_main.py:144-156 | A built record has a price filter, a lot size or a minimum notional exactly when some filter of that type occurs. |
| `SymbolInfo.LastIndex` | binana/async_main.py:145-156 | Returns the last position of a filter type, or none when the type does not occur. |
| `SymbolInfo.BuildRuleOkIffComplete` | binana/async_main.py:144-156 | A market's filters translate without error exactly when every filter has its keys. Otherwise the error names the first incomplete filter. |
| `SymbolInfo.BuildRuleTakesLastOfEachType` | binana/async_main.py:144-156 | Each field of the trading rule comes from the last filter of its type. It is absent when no filter of that type occurs. |
| `SymbolInfo.BuildRuleErrorIsFinal` | binana/async_main.py:145-156 | Once a filter fails, the later filters do not change the outcome. |
| `SymbolInfo.SymbolInfoTable` | binana/async_main.py:143-158 | Every entry of a built table is the record built from the filters of some market with that base asset. |
| `SymbolInfo.SymbolInfoTableOkIffRulesOk` | binana/async_main.py:143-158 | The table is built exactly when every market's filters translate. Otherwise the error is that of the first market that fails. |
| `SymbolInfo.SymbolInfoTableKeys` | binana/async_main.py:157 | The table's keys are exactly the base assets of the markets. |
| `SymbolInfo.SymbolInfoTableLastMarketWins` | binana/async_main.py:157 | A base asset maps to the rule of the last market with that base asset. |
| `SymbolInfo.SymbolInfoTableErrorIsFinal` | binana/async_main.py:143-158 | Once a market fails, the later markets do not change the outcome. |
| `SymbolInfo.GetAllSymbolInfo` | binana/async_main.py:143-158 | The nested loops return exactly `SymbolInfoTable`, including its first error. |
| `PortfolioAssets.AssetsFor` | binana/async_main.py:170-180 | Assets are built exactly when every balance's asset has a price. Then there is one asset per balance, in order, with the account id, the symbol, `quantity = total` and `initial_balance = price * total * 100`. Otherwise the error names the first unpriced asset. |
| `PortfolioAssets.GetPortfolioAssets` | binana/async_main.py:170-180 | The loop returns exactly `AssetsFor`. |
| `PortfolioAssets.AssetsForStep` | binana/async_main.py:171-179 | One more priced balance appends exactly one asset. |
| `PortfolioAssets.AssetsForErrorIsFinal` | binana/async_main.py:171-178 | An unpriced asset aborts the whole list with that asset's error. |
| `PortfolioAssets.CashValuedAtFaceValue` | binana/async_main.py:123-129 | With the predicted-price dictionary, every balance of a portfolio symbol or of USD is priced. USD is worth `total * 100` cents, and any other asset is worth forecast times total times 100. |
| `Allocation.SymbolsListsEveryHolding` | binana/async_main.py:48 | The symbol list names every holding of every category, and nothing else. |
| `Allocation.AllocationSymbols` | binana/async_main.py:30-47 | The allocation's symbols are ETH, BTC, ADA, SOL, LINK, MATIC, UNI, DOT and BNB, in category order. |
| `Allocation.AllocationSymbolsDistinct` | binana/async_main.py:30-47 | No symbol appears twice in the allocation. |
| `Allocation.AllocationWeights` | binana/async_main.py:30-47 | Every weight is non-negative and the weights add up to 1.0. |
| `StepSize.RoundedTruncates` | binana/async_main.py:239-240 | Truncation onto the grid moves toward zero by less than one step and never crosses zero. |
| `StepSize.RoundedSymmetric` | binana/async_main.py:239-240 | Rounding ignores the sign of the step and commutes with negation. |
| `StepSize.RoundedOnGrid` | binana/async_main.py:239-240 | The rounded value is a whole number of steps: the quotient truncated toward zero, times the step. |
| `StepSize.GridValueFixed` | binana/async_main.py:239-240 | A value already on the grid, a whole number of steps, is unchanged. |
| `StepSize.RoundedIdempotent` | binana/async_main.py:239-240 | Rounding a rounded value changes nothing. |
| `BuyOrders.Validate` | binana/async_main.py:243-253 | A rejection names a bound that is violated, with the observed value and the bound. A pass means the rule has a minimum notional and the notional reaches it. The missing-key outcome means the rule has no minimum notional. |
| `BuyOrders.ValidateReportsFirstViolation` | binana/async_main.py:243-253 | The validator rejects exactly when some bound fails. A rejection names the first failing check in the order min price, max price, min quantity, max quantity, min notional, with the value and bound that failed. When the price and quantity bounds hold and the rule has no minimum notional, the result is the source's `KeyError`. |
| `BuyOrders.NotionalBelowMinimumIsRejected` | binana/async_main.py:241-253 | A 2.00 price and 4.0 quantity against a 10.0 minimum notional is rejected for its notional of 8.0. |
| `BuyOrders.Assess` | binana/async_main.py:234-235 | An asset is skipped, with no order, no rejection and no error, exactly when its invested amount is not positive. |
| `BuyOrders.AssessRaisesInLookupOrder` | binana/async_main.py:237-240 | An asset with cash to invest raises, with an error naming that asset, at the first failing step in source order. A missing symbol info comes first, then a missing price, a missing step size, a zero step, a zero price (its infinite quantity cannot be rounded), a missing tick size and a zero tick. |
| `BuyOrders.AcceptedOrderMeetsRule` | binana/async_main.py:237-259 | An accepted asset had cash to invest. Its order is the quantity rounded onto the step grid, at the average price rounded onto the tick grid. It lies within all five bounds of the asset's rule. |
| `BuyOrders.AssessFirstFailureWins` | binana/async_main.py:237-259 | When every lookup succeeds and the step, tick and price are non-zero, an asset with cash to invest is accepted exactly when its rule has a minimum notional and its rounded order violates no bound, and the order is then that rounded order. It is rejected exactly when some bound fails, for the first failing check in priority order, with that check's value and bound. Otherwise it raises the missing `minNotional` key. |
| `BuyOrders.AcceptedOrderWithinBudget` | binana/async_main.py:238-241 | At a positive price, an accepted order's price and quantity are non-negative, and its notional does not exceed the dollars assigned to the asset. |
| `BuyOrders.PlanOrders` | binana/async_main.py:233-259 | The loop collects at most one task or rejection per asset. |
| `BuyOrders.PlanOrdersAppend` | binana/async_main.py:233-259 | Assets are processed independently and in order. The loop over `a + b` is the loop over `a` followed by the loop over `b`, with the first error winning. A rejected asset therefore never stops the later ones. |
| `BuyOrders.PlanOrdersSingle` | binana/async_main.py:233-259 | One asset contributes nothing when skipped, one rejection when rejected, one task when accepted, or its error. |
| `BuyOrders.PlanOrdersAccountsForEveryInvestedAsset` | binana/async_main.py:233-259 | Every asset with cash to invest yields exactly one task or one rejection. |
| `BuyOrders.PlanOrdersFailsOnFirstError` | binana/async_main.py:233-259 | The loop raises exactly when some asset's pass raises, and with the error of the first such asset. |
| `BuyOrders.PlanOrdersOrigins` | binana/async_main.py:255-259 | Every task is the order of an accepted asset, and every rejection belongs to a rejected asset under its own symbol. Every accepted asset's order is among the tasks. |
| `BuyOrders.PlanOrdersErrorIsFinal` | binana/async_main.py:233-259 | An error among the first assets is the error of the whole loop. |
| `BuyOrders.OrderCallFor` | binana/async_main.py:195-214 | The test-order endpoint is used exactly when testing. The call is a good-till-cancelled limit buy of the given quantity and price on `symbol + "USD"`. |
| `BuyOrders.Order` | binana/async_main.py:199-222 | The result always carries the symbol, quantity, price and `notional = price * quantity`. It is a success carrying the response exactly when the remote call returned, and otherwise a failure carrying the exception's type and message. |
| `BuyOrders.Calls` | binana/async_main.py:259-261 | One remote call per task, in task order. |
| `BuyOrders.Gather` | binana/async_main.py:261 | One result per submitted order, in submission order, each being `order`'s result for that task's outcome. |
| `BuyOrders.SuccessesAndFailuresPartition` | binana/async_main.py:263 | Every result is a success or a failure, and the two counts add up to the number of results. |
| `BuyOrders.SuccessesAppend` | binana/async_main.py:263 | The successes of two batches are the successes of each, in order. |
| `BuyOrders.FailuresAppend` | binana/async_main.py:263 | The failures of two batches are the failures of each, in order. |
| `BuyOrders.TotalNotionalAppend` | binana/async_main.py:263 | The notional total is additive over concatenation. |
| `BuyOrders.SingleResult` | binana/async_main.py:263 | A single result is a success or a failure, and its notional is the batch's total. |
| `BuyOrders.CashSpent` | binana/async_main.py:263 | An empty batch spends nothing. Each further result adds its notional when it succeeded and nothing when it failed. |
| `BuyOrders.CashSpentAppend` | binana/async_main.py:263 | Cash spent is additive over batches. |
| `BuyOrders.CashSpentBounds` | binana/async_main.py:263 | With non-negative notionals, the cash spent is between zero and the whole batch's notional. A batch in which every order failed spends nothing. |
| `BuyOrders.ThreeOrderBatchWithSecondFailing` | binana/async_main.py:261-263 | Three orders with the second failing give two successes and one failure. The cash spent is the first and third notionals. |
| `BuyOrders.BuyOrders` | binana/async_main.py:224-264 | A report is produced exactly when the submission loop raises nothing, and otherwise the loop's error is returned with no order sent. A report has one call and one result per collected task. |
| `BuyOrders.BuyOrdersReport` | binana/async_main.py:232-264 | The report carries the plan's rejections. There is one call and one result per task, in order, all sent to the endpoint the testing flag selects. Each result is a success exactly when its call returned. The cash spent is the notional summed over the successes. |
| `BuyOrders.SubmitBuyOrders` | binana/async_main.py:224-267 | The loop, with its early exit on an error, followed by the gather, returns exactly `BuyOrders`. |

## Left out

- `StepSize.Rounded`: `round_step_size` comes from `binance.helpers` (binana/async_main.py:18), and its code is not part of this model. The model assumes `x - x % step` with a decimal remainder that takes the sign of `x`, i.e. truncation toward zero onto the grid. A zero step is modelled as an error. These are assumptions, not facts proved about the helper.
- Floating point: `float(...)` parsing, binary rounding and decimal conversion are exact rationals here.
- Message texts: the rejection strings, the success message and the printed JSON and totals are left out. A rejection is modelled as its check, its value and its bound.
- Exchange I/O (`configure_client`, `get_account`, `get_order_book`, `get_symbol_info`, `create_order`/`create_test_order`, `close_connection`, `get_open_orders`): the fetched data are inputs, and an order's remote outcome comes from an input function.
- `asyncio.gather` concurrency: it is modelled as sequential, since gather keeps task order and the order tasks are independent.
- The `sum(...)` inside `try/except` around the gather (binana/async_main.py:260-267): the model's results cannot make `json.dumps` or the sum fail, so that handler is not modelled.
- `portfolio_manager` (`Allocation.verify`, `get_list_of_symbols`, `Portfolio`, `invest_balanced`): its code is not part of this model. `Allocation.Symbols` assumes the symbol list comes in category order, then asset order. Each asset's `amount_invested` is an input.
- `PricePredictor` and its polynomial forecast: the forecast is an input function from market symbol to price.
- `get_avg_prices` (binana/async_main.py:114-120): `main` does not call it, so only the per-symbol `get_avg_price` is modelled. The mean of an empty bid list is `None`, where numpy returns NaN with a warning.
- `GetAccountBalances`: the source writes `total` into each balance dictionary in place. The model returns new records and does not capture that mutation or aliasing.
- Interactive input (`get_test_intentions_from_user`, `get_investment_amount_from_user`), environment loading, timing and `main`'s printing: `is_testing` and the investment amount are inputs.
- `binana/main.py`, `binana/test.py` and `binana/price_predictor.py` are not part of this model.

The model follows the code in these places:

- A rejected order is only printed (binana/async_main.py:255-257). It produces no result record.
- The balancing computation belongs to the external library and is not in this repository.
- A missing `MIN_NOTIONAL` filter raises only after the four price and quantity checks pass, because `symbol_info['minNotional']` is only read then.
