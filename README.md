# Equity valuation core in Dafny

This project models the two cooperating parts of a stock-screening service.

- **The financial data aggregator** fetches company statements (cash flow, income statement, balance sheet), the company overview, the latest price and the treasury yield. It shapes each statement's `annualReports` into per-field series, one value per year, and stores them in a per-company aggregate. Companies whose data cannot be shaped go on a rejection list.
- **The signal calculator** takes that aggregate and values each company with a discounted-cash-flow (DCF) model:
  - the FCFE / net-income ratio;
  - the net-income margin;
  - a growth heuristic and projected free cash flows;
  - the weighted average cost of capital (WACC);
  - a Gordon-growth terminal value;
  - the DCF and its difference from the market capitalisation.

  A company whose DCF premium is not above the safety margin is dropped. The survivors are enriched with MACD, the latest price and news sentiment. After every company, a view ordered by market capitalisation is rebuilt.

The model also covers two older variants of the aggregator and the page-link builder:

- the aggregator at the repository root, which keeps raw values, has no error catching and has an error list;
- the cash-flow prototype in `app.py`.

Modules:

- `PyCore`: the Python exceptions the code raises, `Result`/`Option`, dict-key dedup, ASCII `lower()`.
- `Json`: parsed payloads and HTTP responses. It covers `j[key]`, `j[i]`, `len`, `int()`, `float()` and the `str`/`int` round trip.
- `Columns`: a dict of lists as an ordered sequence of named series.
- `Aggregator`: `functions/financial_data_aggregator.py`. Its class `FinancialDataTypeSwitch` has the fields of the source.
- `LegacyAggregator`: the root `financial_data_aggregator.py`.
- `AppAggregator`: the `FinancialDataTypeSwitch` of `app.py`.
- `StaticLinks`: `functions/get_links_from_static.py`.
- `Valuation`: the pure arithmetic of `functions/signal_calculator.py`.
- `SignalTable`: the `signals` dictionary as an insertion-ordered table. It has the key pass of the sort and a stable sort by `MARKET_CAP`.
- `SignalCalculator`: class `CalculateSignal`. Its methods mutate `signals` and `sortedSignals` and are proved against specification functions. One stage function covers each step of `do_calculations`.
- `SignalProperties`: what one `do_calculations` call does to the whole table. It also holds the finding below.

Modelling choices:

- **Numbers.** Money is `real`: the same formulas in exact arithmetic. `round(x, 2)` is exact round-half-even to hundredths.
- **Exceptions.** Python exceptions are `Raised(e)` results. A method's `Outcome` says whether it returned or propagated an exception.
- **Ordering.** Dictionary order matters in two places: stable-sort ties, and the key order of shaped statements. So both dictionaries are ordered sequences.
- **Where the code behaves differently from what its names and comments suggest, the model follows the code:**
  - A step that raises inside `do_calculations` leaves the fields already written. The record is not removed.
  - `DCF_PRICE_PER_SHARE` and the other display figures are written before the safety filter. A dropped symbol's figures are deleted with it.
  - A 200 MACD response without the `Technical Analysis: MACD` key raises. It does not store `{}`.
- **Growth.** The growth heuristic runs over the series in stored order, which is most recent year first. The source does not reverse it.

## Model

| member | source | states |
|---|---|---|
| PyCore.Dedup | functions/financial_data_aggregator.py:23-24 | the keys of a dict comprehension: each key once, exactly the keys given, first key first |
| PyCore.Lower | functions/financial_data_aggregator.py:146-151 | `lower()` keeps the length of the name |
| PyCore.LowerIdempotent | functions/financial_data_aggregator.py:146-151 | lowering a lowered name changes nothing, so every spelling of a category dispatches alike |
| PyCore.Repeat | functions/financial_data_aggregator.py:57-58 | n appends of one company give exactly n copies of it |
| Columns.Names | functions/financial_data_aggregator.py:23-24 | the key list of a dict of lists, one name per series in order |
| Columns.Get | functions/financial_data_aggregator.py:27-32 | `d[key]` is absent exactly when the key is not a series name, otherwise it is that series' values |
| Columns.GetAt | functions/financial_data_aggregator.py:27-32 | looking up a series by its own name returns its values |
| Columns.CreateEmptyDict | functions/financial_data_aggregator.py:23-24 | exactly the requested keys, each once and in first-occurrence order, all with empty lists |
| Json.Binding | functions/financial_data_aggregator.py:49 | a key is bound exactly when some member carries it |
| Json.Lookup | functions/financial_data_aggregator.py:29 | `j[key]` fails only with KeyError or TypeError |
| Json.Index | functions/financial_data_aggregator.py:49 | `j[idx]` succeeds exactly for an index inside a list or string, a list giving its element; otherwise it raises IndexError, KeyError or TypeError |
| Json.LenZeroIffNoMembers | functions/financial_data_aggregator.py:89 | an object has length 0 exactly when it has no members |
| Json.DotAt | functions/signal_calculator.py:147-149 | the first '.' of a numeral, or its end when there is none |
| Json.ShowNat | functions/financial_data_aggregator.py:29-32 | `str(n)` is a non-empty run of digits |
| Json.ParseShowInt | functions/financial_data_aggregator.py:32 | `int(str(n)) == n`: printed integers read back unchanged |
| Json.DecimalExtendsInt | functions/signal_calculator.py:198 | `float()` of a string accepts every numeral `int()` accepts, with the same value, so a share count or BETA sent as a printed integer reads as that integer |
| Aggregator.CellReadsPrintedNumbers | functions/financial_data_aggregator.py:29-32 | a field holding a printed integer shapes to that integer, and 'None' shapes to 0 |
| Aggregator.FirstFailure | functions/financial_data_aggregator.py:28-32 | the first key whose value cannot be read: every earlier key reads |
| Aggregator.AppendYear | functions/financial_data_aggregator.py:27-32 | the dict after one call keeps its keys and their order |
| Aggregator.AddYearsData | functions/financial_data_aggregator.py:27-32 | succeeds exactly when every key reads. Each series gains one value, 0 for 'None' or `int()` of the field. On failure exactly the keys before the failing one have been extended |
| Aggregator.ShapeYearsKeepsNames | functions/financial_data_aggregator.py:45-55 | the year loop never adds or drops a key |
| Aggregator.ShapeNames | functions/financial_data_aggregator.py:45-55 | the shaped dict has exactly the requested keys, deduplicated, in order |
| Aggregator.ShapeYearsBounded | functions/financial_data_aggregator.py:45-55 | each year adds at most one value per key and at most one failure |
| Aggregator.ShapeBounded | functions/financial_data_aggregator.py:45-55 | every list ends with at most `len(year_range)` entries, and there are at most that many failures |
| Aggregator.Missing | functions/financial_data_aggregator.py:49 | the number of years whose report is absent is at most the window size |
| Aggregator.CompleteYearAppends | functions/financial_data_aggregator.py:27-32 | a report holding every key extends every series by exactly that year's value |
| Aggregator.ShapeYearsSkipsMissing | functions/financial_data_aggregator.py:47-54 | in a window of missing or complete years, each present year adds one value per key and each missing year one failure |
| Aggregator.ShapeYearsAllPresent | functions/financial_data_aggregator.py:47-54 | with every year present and complete, series i holds the years' own values in window order |
| Aggregator.ShapeSkipsMissing | functions/financial_data_aggregator.py:45-55 | the symbol is flagged once per missing year, the other years give one value each, and with none missing the series are the reports' values in order |
| Aggregator.MissingZeroAllPresent | functions/financial_data_aggregator.py:49 | no missing year means every year of the window has a report |
| Aggregator.StoreGuardAlwaysHolds | functions/financial_data_aggregator.py:67-72 | the guard `value != 'None' or value != ''` holds for every value, so the rejection branch is dead |
| Aggregator.OverviewWrites | functions/financial_data_aggregator.py:108-112 | the overview writes stop at the first missing response field and never exceed the fields listed |
| Aggregator.DispatchStoresUnderOwnName | functions/financial_data_aggregator.py:146-171 | dispatch ignores case, and a category is stored under the upper-case form of its own name |
| Aggregator.FinancialDataTypeSwitch.constructor | functions/financial_data_aggregator.py:36-43 | empty aggregate, rejection list and global data; year range 0..3; no current company |
| Aggregator.FinancialDataTypeSwitch.GetSubCategoryData | functions/financial_data_aggregator.py:45-55 | returns the shaped series and appends the current company once per failing year, nothing else |
| Aggregator.FinancialDataTypeSwitch.AddSymbolsToRemove | functions/financial_data_aggregator.py:57-58 | appends one entry, keeping order and duplicates |
| Aggregator.FinancialDataTypeSwitch.SetCurrentCompany | functions/financial_data_aggregator.py:60-61 | sets the current company |
| Aggregator.FinancialDataTypeSwitch.AddToFinancialDataAggregate | functions/financial_data_aggregator.py:63-74 | creates the company's record when absent and stores the value under the key; the rejection list is unchanged |
| Aggregator.FinancialDataTypeSwitch.StoreCategory | functions/financial_data_aggregator.py:153-171 | stores the shaped series under the category and flags the company once per failing year |
| Aggregator.FinancialDataTypeSwitch.CashFlow | functions/financial_data_aggregator.py:153-158 | stores operatingCashflow and capitalExpenditures under CASH_FLOW |
| Aggregator.FinancialDataTypeSwitch.IncomeStatement | functions/financial_data_aggregator.py:160-165 | stores the six income-statement series under INCOME_STATEMENT |
| Aggregator.FinancialDataTypeSwitch.BalanceSheet | functions/financial_data_aggregator.py:167-171 | stores the three balance-sheet series under BALANCE_SHEET |
| Aggregator.FinancialDataTypeSwitch.ProcessData | functions/financial_data_aggregator.py:146-151 | a known category is stored under its own name; any other name raises Exception with the state unchanged |
| Aggregator.FinancialDataTypeSwitch.GetData | functions/financial_data_aggregator.py:82-98 | a non-200 or empty payload flags the symbol and leaves the aggregate alone; a payload without a length raises TypeError; otherwise the payload is processed by category |
| Aggregator.FinancialDataTypeSwitch.GetOverviewData | functions/financial_data_aggregator.py:100-115 | non-200 flags the symbol. Otherwise the twelve fields are copied in order, and a missing one raises with the earlier ones stored |
| Aggregator.FinancialDataTypeSwitch.GetPriceData | functions/financial_data_aggregator.py:117-133 | the first daily entry's close and date are stored; any failure flags the symbol instead and nothing escapes |
| Aggregator.FinancialDataTypeSwitch.GetTreasuryData | functions/financial_data_aggregator.py:135-144 | sets TREASURY_YIELD in global data from `data['data'][0]['value']`; non-200 raises; the aggregate is untouched |
| Aggregator.OverviewCopiesFields | functions/financial_data_aggregator.py:108-112 | with every field present the record holds all twelve keys with the response values unchanged, and other companies are untouched |
| Aggregator.OverviewWritesAll | functions/financial_data_aggregator.py:108-112 | with every field present, the first n writes are the first n fields with their response values |
| Aggregator.OverviewWritesStop | functions/financial_data_aggregator.py:108-112 | once a field raises, no later field is written |
| Aggregator.UpsertAllLastWrite | functions/financial_data_aggregator.py:63-68 | after a run of writes a key holds the value of its last write |
| Aggregator.UpsertAllOthers | functions/financial_data_aggregator.py:63-68 | writes for one company leave every other company's record as it was |
| LegacyAggregator.FirstMissing | financial_data_aggregator.py:13-15 | the first key the year lacks: every earlier key is present |
| LegacyAggregator.AppendRawYear | financial_data_aggregator.py:13-15 | succeeds exactly when every key is present, and then appends each raw value uncoerced; a failure names a missing key |
| LegacyAggregator.AddYearsData | financial_data_aggregator.py:13-15 | the loop computes the same result as AppendRawYear |
| LegacyAggregator.AppendRawYearKeys | financial_data_aggregator.py:13-15 | over a dict built from `keys`, appending succeeds exactly when the year holds every key |
| LegacyAggregator.RawShapeSpec | financial_data_aggregator.py:18-23 | succeeds exactly when every year and key exists; then there is one list per key with one raw value per year, in window order |
| LegacyAggregator.RawShapeSucceedsIff | financial_data_aggregator.py:18-23 | shaping succeeds exactly when every year of the window exists and holds every key, and then the keys are the deduplicated requested keys |
| LegacyAggregator.RawShapeValues | financial_data_aggregator.py:18-23 | on success, series k holds year j's raw value of key k at position j, for every year of the window |
| LegacyAggregator.RawShapePrefixFails | financial_data_aggregator.py:18-23 | an error in an earlier year is the error of the whole call |
| LegacyAggregator.GetSubCategoryData | financial_data_aggregator.py:18-23 | the loop computes RawShape |
| LegacyAggregator.FinancialDataTypeSwitch.constructor | financial_data_aggregator.py:27-33 | empty aggregate and error state, year range 0..3, no company |
| LegacyAggregator.FinancialDataTypeSwitch.AddErrorToErrorState | financial_data_aggregator.py:35-36 | appends one error |
| LegacyAggregator.FinancialDataTypeSwitch.SetCurrentCompany | financial_data_aggregator.py:38-39 | sets the current company |
| LegacyAggregator.FinancialDataTypeSwitch.AddToFinancialDataAggregate | financial_data_aggregator.py:41-44 | creates the record lazily and overwrites the key, nothing else |
| LegacyAggregator.FinancialDataTypeSwitch.StoreCategory | financial_data_aggregator.py:98-115 | the duplicated shaping call stores the single call's result, and an error propagates with nothing stored |
| LegacyAggregator.FinancialDataTypeSwitch.CashFlow | financial_data_aggregator.py:98-103 | stores the raw cash-flow series under CASH_FLOW or raises |
| LegacyAggregator.FinancialDataTypeSwitch.IncomeStatement | financial_data_aggregator.py:105-109 | stores the six raw income series under INCOME_STATEMENT or raises |
| LegacyAggregator.FinancialDataTypeSwitch.BalanceSheet | financial_data_aggregator.py:111-115 | stores only commonStockSharesOutstanding and shortLongTermDebtTotal under BALANCE_SHEET or raises |
| LegacyAggregator.FinancialDataTypeSwitch.ProcessData | financial_data_aggregator.py:93-96 | a category is stored, or its shaping error propagates with nothing stored; any other name reaches a zero-argument lambda and raises TypeError |
| LegacyAggregator.FinancialDataTypeSwitch.GetData | financial_data_aggregator.py:49-58 | non-200 appends exactly one error and leaves the aggregate unchanged; otherwise processes by category |
| AppAggregator.FinancialDataTypeSwitch.constructor | app.py:20-23 | empty flat aggregate, year range 0..3 |
| AppAggregator.FinancialDataTypeSwitch.AddToFinancialDataAggregate | app.py:25-26 | a flat overwrite of one key |
| AppAggregator.FinancialDataTypeSwitch.CashFlow | app.py:36-44 | stores the shaped cash flow under `operating_cash_flows` when shaping succeeds, and otherwise raises with the aggregate unchanged |
| AppAggregator.FinancialDataTypeSwitch.ProcessData | app.py:31-34 | `cash_flow` in any case dispatches; any other name raises TypeError with nothing changed |
| AppAggregator.CashFlowShape | app.py:36-42 | on success exactly the keys operatingCashflow and capitalExpenditures, each with four values from reports 0..3 in order |
| AppAggregator.CashFlowSucceedsIff | app.py:36-42 | `cash_flow` succeeds exactly when the four reports exist and hold both keys |
| AppAggregator.CashFlowNeedsFourReports | app.py:40-42 | fewer than four annual reports raise |
| StaticLinks.Links | functions/get_links_from_static.py:9-15 | at most one link per name; every link is a qualifying HTML name with its stem |
| StaticLinks.GetLinksFromStatic | functions/get_links_from_static.py:4-15 | the loop with `continue` computes Links over the listing |
| StaticLinks.LinksExactly | functions/get_links_from_static.py:10-14 | a link appears exactly when some name qualifies and the link is (name, name minus '.html') |
| StaticLinks.LinksConcat | functions/get_links_from_static.py:9-15 | listing order is kept |
| StaticLinks.IndexPagesSkipped | functions/get_links_from_static.py:10-11 | a name starting with 'index' never yields a link, even an HTML one |
| StaticLinks.SingleName | functions/get_links_from_static.py:12-14 | one name gives its link exactly when it ends in '.html' and is not an index page |
| Valuation.SafeDivision | functions/signal_calculator.py:18-23 | the default for a zero divisor, otherwise the true quotient |
| Valuation.Min | functions/signal_calculator.py:116 | `min` raises ValueError exactly on [], and otherwise is a member no greater than any |
| Valuation.Max | functions/signal_calculator.py:38 | `max` raises ValueError exactly on [], and otherwise is a member no less than any |
| Valuation.Mean | functions/signal_calculator.py:107 | `sum/len` raises ZeroDivisionError exactly on []; otherwise mean times length is the sum |
| Valuation.SumBounds | functions/signal_calculator.py:107 | values between two bounds sum to between n times each bound |
| Valuation.MeanBounds | functions/signal_calculator.py:107 | the mean of values between two bounds lies between them |
| Valuation.MeanBetweenMinMax | functions/signal_calculator.py:107-116 | the mean lies between the minimum and the maximum |
| Valuation.PeriodChanges | functions/signal_calculator.py:29-33 | one change per adjacent pair |
| Valuation.GrowthRateSpec | functions/signal_calculator.py:27-44 | raises ValueError exactly for fewer than two values. Otherwise the result is the mean change when positive, else the best change floored at 0, so it is never negative |
| Valuation.GrowthOfRisingRevenue | functions/signal_calculator.py:27-44 | revenue that rose every year, stored newest first (a positive stored series that falls at every step), gives growth 0: every change is negative, so the mean is not positive and the best change is floored at 0 |
| Valuation.FallingChangesNegative | functions/signal_calculator.py:29-33 | a positive series that falls at every step has only negative changes |
| Valuation.CalculatePercentageDifference | functions/signal_calculator.py:27-44 | the loop computes GrowthRate |
| Valuation.Pow | functions/signal_calculator.py:48 | a power of a non-zero base is non-zero, of a positive base positive |
| Valuation.CalculateGrowth | functions/signal_calculator.py:47-48 | exactly `periods` values |
| Valuation.GrowthCompounds | functions/signal_calculator.py:47-48 | the first value is v(1+r), and each next is the previous times (1+r) |
| Valuation.InterestRates | functions/signal_calculator.py:51-58 | max(t,1)+1 factors |
| Valuation.GenerateInterestRates | functions/signal_calculator.py:51-58 | the loop computes InterestRates |
| Valuation.InterestRatesShape | functions/signal_calculator.py:51-58 | for t ≥ 1: t+1 factors, rates[k] = m^(k+1) for k < t, and the last duplicated |
| Valuation.InterestRatesPositive | functions/signal_calculator.py:51-58 | a positive multiplier gives positive factors |
| Valuation.FcfeRatiosSpec | functions/signal_calculator.py:103-105 | one safe ratio per year of the zipped, shortest series |
| Valuation.MarginsSpec | functions/signal_calculator.py:112-114 | one safe margin per year of the zipped series |
| Valuation.ProjectedFreeCashFlows | functions/signal_calculator.py:121-132 | one flow per projected period |
| Valuation.ProjectedFlowIsScaledRevenue | functions/signal_calculator.py:121-132 | each flow is revenue0 (1+g)^(n+1) × margin × ratio |
| Valuation.EffectiveTaxRate | functions/signal_calculator.py:134-140 | 0 for a non-positive tax expense. Otherwise ZeroDivisionError for zero income before tax, else the absolute ratio |
| Valuation.EquityCostAnchors | functions/signal_calculator.py:146-154 | beta 1 costs the market return, beta 0 the treasury rate |
| Valuation.Weights | functions/signal_calculator.py:156-160 | raises ZeroDivisionError exactly when debt + cap is 0; otherwise the weights sum to 1 and are the two shares |
| Valuation.WaccBetweenCosts | functions/signal_calculator.py:169 | with non-negative weights summing to 1, the WACC lies between the after-tax debt cost and the equity cost |
| Valuation.TerminalValueSpec | functions/signal_calculator.py:173-180 | raises exactly when WACC equals the growth estimate; otherwise the Gordon value clamped at 0, never negative |
| Valuation.TerminalValueSigns | functions/signal_calculator.py:175-180 | a grown flow and a spread of the same sign keep the Gordon value; opposite signs give 0 |
| Valuation.Discounted | functions/signal_calculator.py:188 | raises exactly when a zipped factor is 0; otherwise each entry is flow over factor, as many as the shorter list |
| Valuation.DcfOverFullWindow | functions/signal_calculator.py:183-190 | four years of history discount the four flows and the terminal value |
| Valuation.ShortHistoryDropsTerminal | functions/signal_calculator.py:184-188 | with fewer than four periods the zip truncates, and the terminal value is not counted |
| Valuation.DiscountedPrefix | functions/signal_calculator.py:188 | values past the factors' length do not matter |
| Valuation.Round2 | functions/signal_calculator.py:197-201 | within half a hundredth of the exact value |
| Valuation.Round2Hundredths | functions/signal_calculator.py:197-201 | a whole number of hundredths is kept |
| SignalTable.Symbols | functions/signal_calculator.py:64 | the symbols in insertion order |
| SignalTable.Find | functions/signal_calculator.py:64 | the position of a symbol, absent exactly when the symbol is not listed |
| SignalTable.Put | functions/signal_calculator.py:64 | the record is created at the end if absent, the field set, and every other record unchanged |
| SignalTable.PutAllConcat | functions/signal_calculator.py:84-91 | consecutive writes compose |
| SignalTable.PutAllSpec | functions/signal_calculator.py:84-91 | writes to one record keep a dictionary and other records, and the last write of a field wins |
| SignalTable.EntryIsRecord | functions/signal_calculator.py:64 | in a dictionary each listed entry is the record of its symbol |
| SignalTable.PutAllSymbols | functions/signal_calculator.py:84-91 | writes add the written symbol if any write happens, and no other |
| SignalTable.PutAllOtherField | functions/signal_calculator.py:84-91 | a field no write names keeps its presence and value in the record |
| SignalTable.Remove | functions/signal_calculator.py:204 | the symbol is gone, every other symbol stays, and no entry is invented |
| SignalTable.Delete | functions/signal_calculator.py:204 | `del` raises KeyError exactly for an absent symbol, otherwise removes it |
| SignalTable.RemoveAt | functions/signal_calculator.py:204 | deleting the entry at position i leaves the others in order |
| SignalTable.RemoveAbsent | functions/signal_calculator.py:204 | removing an absent symbol changes nothing |
| SignalTable.RemoveKeepsOthers | functions/signal_calculator.py:204 | every other symbol keeps its record |
| SignalTable.FillCap | functions/signal_calculator.py:75 | the key pass keeps the symbols |
| SignalTable.FillCapRecord | functions/signal_calculator.py:75 | each listed record gains `{}` as MARKET_CAP if it had none, and unlisted symbols stay absent |
| SignalTable.FillCapSpec | functions/signal_calculator.py:75 | afterwards every record has MARKET_CAP, other fields unchanged; records already capped are untouched; the pass is idempotent |
| SignalTable.Insert | functions/signal_calculator.py:74-75 | the result holds the table's entries plus the new one, each as often as before |
| SignalTable.InsertSorted | functions/signal_calculator.py:74-75 | inserting into a table sorted by MARKET_CAP keeps it sorted |
| SignalTable.InsertionSort | functions/signal_calculator.py:74-75 | sorted by MARKET_CAP and a permutation |
| SignalTable.SortByCap | functions/signal_calculator.py:74-75 | raises TypeError exactly when two or more records are present and one cap is not a number; otherwise the result is sorted and a permutation |
| SignalTable.PermutationKeepsSymbols | functions/signal_calculator.py:74-75 | a sorted view holds exactly the table's symbols with the same records |
| SignalTable.InsertStable | functions/signal_calculator.py:74-75 | inserting keeps the order among equal keys |
| SignalTable.SortStable | functions/signal_calculator.py:74-75 | the sort is stable: records with equal MARKET_CAP stay in insertion order |
| SignalCalculator.Field | functions/signal_calculator.py:135 | `data[symbol][key]` raises KeyError exactly when either key is absent |
| SignalCalculator.Series | functions/signal_calculator.py:78-79 | `list(map(int, ...))` succeeds exactly when the statement and key exist, and is the stored series |
| SignalCalculator.Latest | functions/signal_calculator.py:81-82 | `xs[0]` raises IndexError exactly on [] |
| SignalCalculator.Reals | functions/signal_calculator.py:78-79 | the series as exact numbers, element by element |
| SignalCalculator.ReadInputs | functions/signal_calculator.py:78-82 | succeeds exactly when both income series and both latest debts read; then period_number is the net-income count and total debt is their sum |
| SignalCalculator.MacdOf | functions/signal_calculator.py:213-221 | a non-200 response stores `{}`; a 200 one fails only on a missing key or a non-object |
| SignalCalculator.NewsOf | functions/signal_calculator.py:226-255 | a non-200 response stores `{}` for both NEWS and SENTIMENT_AVG |
| SignalCalculator.Appraise | functions/signal_calculator.py:183-196 | on success the cap is non-zero, the DCF is the discounted sum at WACC + 1, and the premium is dcf/cap − 1 |
| SignalCalculator.SharesOf | functions/signal_calculator.py:198 | a usable share count is non-zero |
| SignalCalculator.Enrichment | functions/signal_calculator.py:206-208 | never drops. It is kept exactly when MACD, LATEST_PRICE and news all succeed, and then writes MACD, the copied price, NEWS and SENTIMENT_AVG |
| SignalCalculator.ScreeningShape | functions/signal_calculator.py:197-208 | dropped exactly when the share count reads and the premium is not above the margin; any run that did not fail wrote MARKET_CAP as the rounded cap in billions; a kept run wrote eight fields ending MACD, LATEST_PRICE, NEWS, SENTIMENT_AVG |
| SignalCalculator.SafetyFilter | functions/signal_calculator.py:202-208 | the record is dropped exactly when the unrounded premium is not strictly above the safety margin |
| SignalCalculator.CalculateSignal.constructor | functions/signal_calculator.py:62-65 | empty signals and sorted views |
| SignalCalculator.CalculateSignal.GetSignal | functions/signal_calculator.py:67-68 | returns the table |
| SignalCalculator.CalculateSignal.GetSortedDict | functions/signal_calculator.py:70-71 | KeyError before any sort, otherwise the stored view, which is sorted by MARKET_CAP |
| SignalCalculator.CalculateSignal.AddSortedDictByCategory | functions/signal_calculator.py:73-75 | every record gains MARKET_CAP `{}` if absent. The view is replaced by the sorted table, or kept with TypeError raised |
| SignalCalculator.CalculateSignal.CalcFcfeNetIncomeRatio | functions/signal_calculator.py:98-107 | stores the mean safe ratio, or raises with nothing written |
| SignalCalculator.CalculateSignal.CalcNetIncomeMargin | functions/signal_calculator.py:110-116 | stores the minimum safe margin, or raises ValueError with nothing written |
| SignalCalculator.CalculateSignal.CalcEarningsGrowth | functions/signal_calculator.py:118-119 | stores the growth heuristic of the revenue series |
| SignalCalculator.CalculateSignal.CalcProjectedFreeCashFlow | functions/signal_calculator.py:121-132 | stores, per period, revenue0 grown × margin × ratio, read from the record; IndexError on empty revenue |
| SignalCalculator.CalculateSignal.CalcWacc | functions/signal_calculator.py:162-171 | stores the WACC of the tax rate, weights and costs, failing at the first failing part |
| SignalCalculator.CalculateSignal.CalcTerminalValue | functions/signal_calculator.py:173-180 | stores the clamped Gordon value from the last projected flow and the stored WACC |
| SignalCalculator.CalculateSignal.GetMacd | functions/signal_calculator.py:210-221 | stores MacdOf of the response |
| SignalCalculator.CalculateSignal.GetNews | functions/signal_calculator.py:223-255 | stores NEWS then SENTIMENT_AVG, or propagates with nothing written |
| SignalCalculator.CalculateSignal.Enrich | functions/signal_calculator.py:206-208 | the table gets the writes of Enrichment, stopping at the first failure |
| SignalCalculator.CalculateSignal.CalcDfc | functions/signal_calculator.py:182-208 | the display figures are written; a premium not above the margin deletes the record; otherwise the record is enriched |
| SignalCalculator.CalculateSignal.ValueAndScreen | functions/signal_calculator.py:183-208 | the table is settled with the DCF write followed by the screening writes, and the outcome is the run's stop |
| SignalCalculator.CalculateSignal.Screen | functions/signal_calculator.py:197-208 | a failing share count writes nothing; the display figures are written; a premium not above the margin deletes the record; otherwise the record is enriched |
| SignalCalculator.CalculateSignal.RunAssessment | functions/signal_calculator.py:86-91 | from the margin onwards, the table is settled with the writes of the remaining steps and the outcome is their stop |
| SignalCalculator.CalculateSignal.RunForecast | functions/signal_calculator.py:87-91 | from the growth rate onwards, reading the stored ratio and margin, the table is settled with the remaining steps' writes |
| SignalCalculator.CalculateSignal.RunProjection | functions/signal_calculator.py:88-91 | from the projected flows onwards, reading the stored ratio, margin and growth, the table is settled with the remaining steps' writes |
| SignalCalculator.CalculateSignal.RunDiscounting | functions/signal_calculator.py:89-91 | from WACC onwards, reading the stored flows, the table is settled with the remaining steps' writes |
| SignalCalculator.CalculateSignal.RunValuing | functions/signal_calculator.py:90-91 | the terminal value from the stored flows and WACC, then `calc_dfc`, settled on the table |
| SignalCalculator.CalculateSignal.RunSteps | functions/signal_calculator.py:84-91 | the table is settled with the pipeline's writes, and the outcome is its failure |
| SignalCalculator.CalculateSignal.DoCalculations | functions/signal_calculator.py:77-95 | input errors propagate with nothing changed. Otherwise: a failing step keeps its partial record and no resort happens; a finished run gets the key pass and a resort |
| SignalCalculator.CalculateSignal.WriteAll | functions/signal_calculator.py:197-201 | the writes land in order on the symbol's record |
| SignalProperties.PipelineReached | functions/signal_calculator.py:84-91 | a run that did not fail wrote MARKET_CAP as a number; a kept run also copied LATEST_PRICE unchanged |
| SignalProperties.SettleKeepsOthers | functions/signal_calculator.py:84-95 | one symbol's run keeps a dictionary, leaves every other symbol's presence and record unchanged, and a dropped symbol is absent |
| SignalProperties.KeptRecord | functions/signal_calculator.py:200-207 | a kept record holds a numeric MARKET_CAP and LATEST_PRICE copied from the aggregate |
| SignalProperties.CappedSorts | functions/signal_calculator.py:73-75 | when every record has a numeric cap, the key pass changes nothing and the sort succeeds |
| SignalProperties.UncappedRecordBlocksSort | functions/signal_calculator.py:73-75 | a record without a numeric cap beside any other makes the sort raise TypeError |
| SignalProperties.UncappedRecordPersists | functions/signal_calculator.py:84-95 | such a record survives every later symbol's run and the key pass |
| SignalProperties.SingleYearRun | functions/signal_calculator.py:84-87 | with one year of revenue the run writes the ratio and the margin, then fails with ValueError |
| SignalProperties.NewSymbolWithoutCap | functions/signal_calculator.py:64 | two writes to a new symbol, neither of MARKET_CAP, leave it present with no numeric cap |
| SignalProperties.WaccFailureRun | functions/signal_calculator.py:84-89 | when `calc_wacc` raises after the first three steps succeed, the run wrote exactly the ratio, the margin, the growth rate and the projected flows, and fails with WACC's error |
| SignalProperties.WaccFailureAssessment | functions/signal_calculator.py:86-89 | when the margin and growth rate read and `calc_wacc` raises, the steps from the margin on write exactly the margin, the growth rate and the projected flows, and fail with WACC's error |
| SignalProperties.NoneBetaFailsWacc | functions/signal_calculator.py:146-149 | a BETA stored as the string 'None' makes `calc_wacc` raise ValueError once the tax rate, the weights and the treasury yield read |
| SignalProperties.NoneBetaFailsEquityCost | functions/signal_calculator.py:146-149 | with the treasury yield read, a BETA of 'None' makes the cost of equity raise ValueError |
| SignalProperties.NoneIsNotAFloat | functions/signal_calculator.py:148 | `float('None')` raises ValueError |
| SignalProperties.NewSymbolUncapped | functions/signal_calculator.py:64 | writes to a new symbol that never name MARKET_CAP create its record without one |
| SignalProperties.NoneBetaLeavesPartialRecord | functions/signal_calculator.py:84-95 | a BETA of 'None' stops the run with ValueError after four writes and leaves a new symbol's record without a numeric MARKET_CAP |
| SignalProperties.SingleYearLeavesPartialRecord | functions/signal_calculator.py:84-95 | one year of revenue: the ratio and margin are written, growth raises ValueError, and the symbol stays without a numeric cap |
| SignalProperties.IsolatedSettleKeepsSortable | functions/signal_calculator.py:84-95 | when a failing run is discarded, a capped dictionary stays capped and sortable after every call |

## Specification functions

These functions model source lines but carry no contract of their own. Each is stated by the rows listed beside it.

- `Valuation.GrowthRate` (functions/signal_calculator.py:27-44): GrowthRateSpec, GrowthOfRisingRevenue, CalculatePercentageDifference.
- `Valuation.FcfeRatios` (functions/signal_calculator.py:103-105): FcfeRatiosSpec.
- `Valuation.Margins` (functions/signal_calculator.py:112-114): MarginsSpec.
- `Valuation.DebtCost` (functions/signal_calculator.py:142-144): SafeDivision, so no total debt gives 0.
- `Valuation.EquityCost` (functions/signal_calculator.py:146-154): EquityCostAnchors.
- `Valuation.Wacc` (functions/signal_calculator.py:169): WaccBetweenCosts.
- `Valuation.TerminalValue` (functions/signal_calculator.py:173-180): TerminalValueSpec, TerminalValueSigns.
- `Valuation.DiscountedSum` (functions/signal_calculator.py:183-190): Discounted, DcfOverFullWindow, ShortHistoryDropsTerminal, DiscountedPrefix.
- `Json.PyInt` (functions/financial_data_aggregator.py:32): ParseShowInt, Aggregator.CellReadsPrintedNumbers.
- `Json.PyFloat` (functions/signal_calculator.py:147-149): DecimalExtendsInt, SignalProperties.NoneIsNotAFloat.
- `Json.Len` (functions/financial_data_aggregator.py:89): LenZeroIffNoMembers.
- `Aggregator.Cell` (functions/financial_data_aggregator.py:29-32): CellReadsPrintedNumbers, AddYearsData.
- `Aggregator.ShapeYears` (functions/financial_data_aggregator.py:47-54): ShapeYearsKeepsNames, ShapeYearsBounded, ShapeYearsSkipsMissing, ShapeYearsAllPresent, FinancialDataTypeSwitch.GetSubCategoryData.
- `Aggregator.Shape` (functions/financial_data_aggregator.py:45-55): ShapeNames, ShapeBounded, ShapeSkipsMissing.
- `Aggregator.Upsert` (functions/financial_data_aggregator.py:63-68): UpsertAllLastWrite, UpsertAllOthers, FinancialDataTypeSwitch.AddToFinancialDataAggregate.
- `Aggregator.LatestClose` (functions/financial_data_aggregator.py:125-127): FinancialDataTypeSwitch.GetPriceData.
- `Aggregator.TreasuryValue` (functions/financial_data_aggregator.py:141): FinancialDataTypeSwitch.GetTreasuryData.
- `Aggregator.CategoryOf` (functions/financial_data_aggregator.py:146-171): DispatchStoresUnderOwnName, FinancialDataTypeSwitch.ProcessData.
- `LegacyAggregator.RawShape` (financial_data_aggregator.py:18-23): RawShapeSpec, RawShapeSucceedsIff, RawShapeValues, RawShapePrefixFails, GetSubCategoryData.
- `LegacyAggregator.CategoryOf` (financial_data_aggregator.py:93-115): FinancialDataTypeSwitch.ProcessData.
- `SignalTable.PutAll` (functions/signal_calculator.py:84-91): PutAllSpec, PutAllConcat, PutAllSymbols, PutAllOtherField, CalculateSignal.WriteAll.
- `SignalTable.WithCap` (functions/signal_calculator.py:75): FillCapRecord, FillCapSpec.
- `SignalCalculator.FcfeRatioOf` (functions/signal_calculator.py:98-107): Valuation.FcfeRatiosSpec, Valuation.Mean, CalculateSignal.CalcFcfeNetIncomeRatio.
- `SignalCalculator.MarginOf` (functions/signal_calculator.py:110-116): Valuation.MarginsSpec, Valuation.Min, CalculateSignal.CalcNetIncomeMargin.
- `SignalCalculator.TaxRateOf` (functions/signal_calculator.py:134-140): Valuation.EffectiveTaxRate.
- `SignalCalculator.DebtCostOf` (functions/signal_calculator.py:142-144): Valuation.SafeDivision.
- `SignalCalculator.EquityCostOf` (functions/signal_calculator.py:146-154): Valuation.EquityCostAnchors, SignalProperties.NoneBetaFailsEquityCost.
- `SignalCalculator.WeightsOf` (functions/signal_calculator.py:156-160): Valuation.Weights.
- `SignalCalculator.WaccOf` (functions/signal_calculator.py:162-171): Valuation.WaccBetweenCosts, CalculateSignal.CalcWacc, SignalProperties.WaccFailureRun.
- `SignalCalculator.TerminalOf` (functions/signal_calculator.py:173-180): Valuation.TerminalValueSpec, CalculateSignal.CalcTerminalValue.
- `SignalCalculator.DcfWrite` (functions/signal_calculator.py:197) and `SignalCalculator.DisplayWrites` (functions/signal_calculator.py:198-201): ScreeningShape, Valuation.Round2, CalculateSignal.WriteAll.
- The stage functions `SignalCalculator.Pipeline` (lines 84-91), `Assessment` (86-91), `Forecast` (87-91), `Projection` (88-91), `Discounting` (89-91) and `Valuing` (90-91) of functions/signal_calculator.py: CalculateSignal.RunSteps and the Run methods of each stage, SignalProperties.PipelineReached, SingleYearRun, WaccFailureRun.
- `SignalCalculator.Appraisal` (functions/signal_calculator.py:182-208): SafetyFilter, CalculateSignal.CalcDfc, CalculateSignal.ValueAndScreen.
- `SignalCalculator.Screening` (functions/signal_calculator.py:197-208): ScreeningShape, CalculateSignal.Screen.
- `SignalCalculator.Settle` (functions/signal_calculator.py:84-95): SignalProperties.SettleKeepsOthers, UncappedRecordPersists, CalculateSignal.DoCalculations.

## Left out

- HTTP fetches (`requests.get`), `response.json()` failures, the `check_limit` rate limiter and `jsonify`: responses are inputs (status and parsed body).
- The news feed filtering and sentiment averaging of `get_news` (functions/signal_calculator.py:233-251): the already-filtered outcome is an input to GetNews.
- MARKET_RETURN_RATE, PERPETUAL_GROWTH_ESTIMATE and SAFETY_MARGIN come from the database; they are constructor parameters. `get_safety_margin` is not defined in the database helper, which is not part of this model.
- The API key read from the environment, and the Flask route of `app.py`.
- Floating point: all money is exact `real`, so the float error of `/`, `**` and `round` is not modelled.
- async/await and the shared `current_company` field: calls are sequential; concurrent fetches racing on it are not modelled.
- Aliasing: the sorted view shares record objects with `signals` in Python; the model copies values, so a later write to a record is not visible in an old view.
- Aggregator.FinancialDataTypeSwitch.ProcessData: requires the lower-cased name not to be another method or a special (`__`) name, because `getattr` would then run that method instead of raising.
- LegacyAggregator.FinancialDataTypeSwitch.ProcessData: the same requirement as above.
- AppAggregator.FinancialDataTypeSwitch.ProcessData: requires the name not to start with `__`, for the same reason.
- PyCore.Lower: ASCII only; Unicode case mapping is not modelled.
- Json.ParseDecimal: plain decimals only; exponents, `inf`/`nan`, underscores and surrounding whitespace accepted by Python's `int()`/`float()` are not modelled. JSON numbers are integers.
- A statement value read where a number is expected raises TypeError in the model as in Python; other non-numeric JSON shapes are folded into that case.
- The root file's `get_overview_data`, `get_price_data` and `get_treasury_data` (financial_data_aggregator.py:60-91), which are not part of this model; its `get_treasury_data` calls the aggregate writer with a missing argument.
- The steps of `do_calculations` are modelled as one stage function per step (Pipeline, Assessment, Forecast, Projection, Discounting, Valuing, Appraisal, Screening) so each proof stays small; they compose to the source's single sequence.

## Findings

| source | as written | input that shows it | evidently intended | confidence | as-written member | corrected member |
|---|---|---|---|---|---|---|
| functions/signal_calculator.py:84-95 | a step that raises inside the `try` returns early and leaves the record written so far, which has no MARKET_CAP; the next sort gives it `{}` as key, and comparing `{}` with a number raises TypeError on every later call, so `sortedSignals` stops updating | a symbol whose overview has BETA 'None', which the aggregator always stores (functions/financial_data_aggregator.py:67-72): the ratio, margin, growth and projected flows are written, then `float('None')` in `calc_wacc` raises ValueError (NoneBetaLeavesPartialRecord); or a symbol with one annual report, which the aggregator does flag for removal (functions/financial_data_aggregator.py:53) but which reaches `do_calculations` if the caller does not skip it: growth raises ValueError (`max([])`) after two writes. In both cases any later symbol's sort then raises | a symbol whose calculation fails does not affect the others, and the sorted view keeps following the table | medium, not executed | SignalProperties.SingleYearLeavesPartialRecord | SignalProperties.IsolatedSettleKeepsSortable |
