/** The record shaper and aggregate store of the ingestion side
    (functions/financial_data_aggregator.py): statement payloads are
    shaped into per-field integer series, overview and price fields are
    copied, and each company's data is collected in one aggregate, next to
    a global bucket (treasury yield) and the list of symbols to reject.
    The HTTP fetch itself is not modelled: every fetching method takes the
    response it would have received. */
module Aggregator {
  import opened PyCore
  import opened Json
  import opened Columns

  /** The `current_company` field: `None` until a fetch sets it. */
  type Company = Option<string>

  /** What the aggregate holds under a key: a field copied from a response,
      or a statement shaped into series. */
  datatype Value = Raw(j: Json) | Statement(cols: seq<Column<int>>)

  /** (aggregate key, response key) in the order `get_overview_data` writes them:
      the three valuation inputs, then the nine display fields of
      ADDITIONAL_OVERVIEW_DATA (lines 10-20). */
  const OverviewFields: seq<(string, string)> :=
    [("BETA", "Beta"), ("MARKET_CAPITALIZATION", "MarketCapitalization"), ("SHARES_OUTSTANDING", "SharesOutstanding"),
     ("Description", "Description"), ("52WeekHigh", "52WeekHigh"), ("52WeekLow", "52WeekLow"),
     ("AnalystTargetPrice", "AnalystTargetPrice"), ("PERatio", "PERatio"), ("ForwardPE", "ForwardPE"),
     ("ProfitMargin", "ProfitMargin"), ("PriceToSalesRatioTTM", "PriceToSalesRatioTTM"), ("PriceToBookRatio", "PriceToBookRatio")]

  const CashFlowKeys: seq<string> := ["operatingCashflow", "capitalExpenditures"]
  const IncomeStatementKeys: seq<string> :=
    ["totalRevenue", "netIncome", "incomeBeforeTax", "interestAndDebtExpense", "incomeTaxExpense", "interestExpense"]
  const BalanceSheetKeys: seq<string> := ["commonStockSharesOutstanding", "shortTermDebt", "longTermDebt"]

  /** The value `add_years_data` appends for `key`: 0 for the literal
      string 'None', otherwise `int()` of the field. */
  function Cell(year: Json, key: string): Result<int> {
    var v :- Lookup(year, key);
    if v == JStr("None") then Ok(0) else PyInt(v)
  }

  /** A field holding the printed form of a number shapes to that number,
      and a field holding 'None' shapes to 0. */
  lemma CellReadsPrintedNumbers(year: Json, key: string, n: int)
    ensures Lookup(year, key) == Ok(JStr(ShowInt(n))) ==> Cell(year, key) == Ok(n)
    ensures Lookup(year, key) == Ok(JStr("None")) ==> Cell(year, key) == Ok(0)
  {
    if Lookup(year, key) == Ok(JStr(ShowInt(n))) {
      ParseShowInt(n);
      var s := ShowInt(n);
      assert s[0] != 'N' by {
        if n < 0 { assert s[0] == '-'; } else { assert IsDigit(ShowNat(n)[0]); }
      }
      assert JStr(s) != JStr("None");
    }
  }

  /** The first column, from `from` on, whose field cannot be read from `year`. */
  function FirstFailure(cols: seq<Column<int>>, year: Json, from: nat): (k: nat)
    requires from <= |cols|
    ensures from <= k <= |cols|
    ensures forall i :: from <= i < k ==> Cell(year, cols[i].name).Ok?
    ensures k < |cols| ==> Cell(year, cols[k].name).Raised?
    decreases |cols| - from
  {
    if from == |cols| then from
    else if Cell(year, cols[from].name).Raised? then from
    else FirstFailure(cols, year, from + 1)
  }

  /** Every requested field of `year` can be read. */
  predicate YearOk(cols: seq<Column<int>>, year: Json) {
    FirstFailure(cols, year, 0) == |cols|
  }

  /** The dict after `add_years_data(cols, year)`, whether it finished or
      raised: the columns before the first failing one are extended. */
  function AppendYear(cols: seq<Column<int>>, year: Json): (r: seq<Column<int>>)
    ensures |r| == |cols| && Names(r) == Names(cols)
  {
    var k := FirstFailure(cols, year, 0);
    seq(|cols|, i requires 0 <= i < |cols| =>
      if i < k then Column(cols[i].name, cols[i].values + [Cell(year, cols[i].name).value]) else cols[i])
  }

  /** `add_years_data` (lines 27-32): appends one value per key, in key
      order; `ok` is false when a key raised, and then exactly the keys
      before it have been extended. */
  method AddYearsData(cols: seq<Column<int>>, year: Json) returns (r: seq<Column<int>>, ok: bool)
    ensures ok <==> forall i :: 0 <= i < |cols| ==> Cell(year, cols[i].name).Ok?
    ensures |r| == |cols|
    ensures forall i :: 0 <= i < |cols| ==> r[i].name == cols[i].name
    ensures forall i :: 0 <= i < |cols| ==>
      ((forall j :: 0 <= j <= i ==> Cell(year, cols[j].name).Ok?)
        && r[i].values == cols[i].values + [Cell(year, cols[i].name).value])
      || (r[i].values == cols[i].values && exists j :: 0 <= j <= i && Cell(year, cols[j].name).Raised?)
    ensures r == AppendYear(cols, year) && ok == YearOk(cols, year)
  {
    var k := FirstFailure(cols, year, 0);
    r := cols;
    var i := 0;
    while i < |cols|
      invariant i <= k
      invariant |r| == |cols|
      invariant forall j :: 0 <= j < |cols| ==>
        r[j] == if j < i then Column(cols[j].name, cols[j].values + [Cell(year, cols[j].name).value]) else cols[j]
    {
      var c := Cell(year, cols[i].name);
      if c.Raised? {
        ok := false;
        return;
      }
      r := r[i := Column(r[i].name, r[i].values + [c.value])];
      i := i + 1;
    }
    ok := true;
  }

  /** `data['annualReports'][idx]`. */
  function YearRecord(data: Json, idx: nat): Result<Json> {
    var reports :- Lookup(data, "annualReports");
    Index(reports, idx)
  }

  /** Shaped series and the number of years that failed. */
  datatype Shaped = Shaped(cols: seq<Column<int>>, failures: nat)

  /** The loop of `get_sub_category_data` over `years`, starting from `cols`:
      a year that fails adds one failure and the loop goes on. */
  function ShapeYears(cols: seq<Column<int>>, data: Json, years: seq<nat>): Shaped
    decreases |years|
  {
    if years == [] then Shaped(cols, 0)
    else
      var before := ShapeYears(cols, data, years[..|years| - 1]);
      match YearRecord(data, years[|years| - 1])
      case Raised(_) => Shaped(before.cols, before.failures + 1)
      case Ok(year) =>
        Shaped(AppendYear(before.cols, year), before.failures + if YearOk(before.cols, year) then 0 else 1)
  }

  /** One more year on top of the years shaped so far. */
  lemma ShapeYearsStep(cols: seq<Column<int>>, data: Json, years: seq<nat>, i: nat)
    requires i < |years|
    ensures var before, after, year := ShapeYears(cols, data, years[..i]), ShapeYears(cols, data, years[..i + 1]),
                                       YearRecord(data, years[i]);
      (year.Raised? ==> after == Shaped(before.cols, before.failures + 1))
      && (year.Ok? ==> after.cols == AppendYear(before.cols, year.value)
                       && after.failures == before.failures + if YearOk(before.cols, year.value) then 0 else 1)
  {
    assert years[..i + 1][..i] == years[..i];
  }

  function Shape(data: Json, years: seq<nat>, keys: seq<string>): Shaped {
    ShapeYears(CreateEmptyDict(keys), data, years)
  }

  /** The shaped dict has exactly the requested keys, in order. */
  lemma {:induction false} ShapeYearsKeepsNames(cols: seq<Column<int>>, data: Json, years: seq<nat>)
    ensures Names(ShapeYears(cols, data, years).cols) == Names(cols)
    decreases |years|
  {
    if years != [] {
      ShapeYearsKeepsNames(cols, data, years[..|years| - 1]);
    }
  }

  lemma ShapeNames(data: Json, years: seq<nat>, keys: seq<string>)
    ensures Names(Shape(data, years, keys).cols) == Dedup(keys)
  {
    ShapeYearsKeepsNames(CreateEmptyDict(keys), data, years);
  }

  /** No series grows by more than one value per year, and at most every
      year fails. */
  lemma {:induction false} ShapeYearsBounded(cols: seq<Column<int>>, data: Json, years: seq<nat>)
    ensures var s := ShapeYears(cols, data, years);
      |s.cols| == |cols| && s.failures <= |years|
      && forall i :: 0 <= i < |cols| ==> |cols[i].values| <= |s.cols[i].values| <= |cols[i].values| + |years|
    decreases |years|
  {
    if years != [] {
      ShapeYearsBounded(cols, data, years[..|years| - 1]);
    }
  }

  /** Every list of `get_sub_category_data` ends with at most `len(year_range)` entries. */
  lemma ShapeBounded(data: Json, years: seq<nat>, keys: seq<string>)
    ensures var s := Shape(data, years, keys);
      s.failures <= |years| && forall i :: 0 <= i < |s.cols| ==> |s.cols[i].values| <= |years|
  {
    ShapeYearsBounded(CreateEmptyDict(keys), data, years);
  }

  /** Every requested field of a year record reads. */
  predicate RecordComplete(year: Json, keys: seq<string>) {
    forall k :: k in keys ==> Cell(year, k).Ok?
  }

  /** The value shaped for `key` from year `idx` of a statement payload. */
  function YearCell(data: Json, idx: nat, key: string): Result<int> {
    var year :- YearRecord(data, idx);
    Cell(year, key)
  }

  /** Year `idx` is absent altogether, or every requested field of it reads. */
  predicate MissingOrComplete(data: Json, idx: nat, keys: seq<string>) {
    YearRecord(data, idx).Raised? || RecordComplete(YearRecord(data, idx).value, keys)
  }

  /** The years whose record is missing altogether. */
  function Missing(data: Json, years: seq<nat>): (n: nat)
    ensures n <= |years|
  {
    if years == [] then 0
    else Missing(data, years[..|years| - 1]) + if YearRecord(data, years[|years| - 1]).Raised? then 1 else 0
  }

  /** A complete year record extends every series by its own value. */
  lemma CompleteYearAppends(cols: seq<Column<int>>, year: Json)
    requires RecordComplete(year, Names(cols))
    ensures YearOk(cols, year)
    ensures forall i :: 0 <= i < |cols| ==>
      Cell(year, cols[i].name).Ok?
      && AppendYear(cols, year)[i] == Column(cols[i].name, cols[i].values + [Cell(year, cols[i].name).value])
  {
    forall i | 0 <= i < |cols|
      ensures Cell(year, cols[i].name).Ok?
    {
      assert cols[i].name == Names(cols)[i];
    }
  }

  /** A window where each year is either missing or complete: every series
      gains one value per present year, and one failure is counted per
      missing year. */
  lemma {:induction false} ShapeYearsSkipsMissing(cols: seq<Column<int>>, data: Json, years: seq<nat>)
    requires forall j :: 0 <= j < |years| ==> MissingOrComplete(data, years[j], Names(cols))
    ensures var s := ShapeYears(cols, data, years);
      s.failures == Missing(data, years) && |s.cols| == |cols|
      && forall i :: 0 <= i < |cols| ==>
        s.cols[i].name == cols[i].name
        && |s.cols[i].values| == |cols[i].values| + |years| - s.failures
        && s.cols[i].values[..|cols[i].values|] == cols[i].values
    decreases |years|
  {
    if years != [] {
      var pre := years[..|years| - 1];
      assert forall j :: 0 <= j < |pre| ==> pre[j] == years[j];
      ShapeYearsSkipsMissing(cols, data, pre);
      ShapeYearsKeepsNames(cols, data, pre);
      var before := ShapeYears(cols, data, pre);
      var last := YearRecord(data, years[|years| - 1]);
      if last.Ok? {
        assert MissingOrComplete(data, years[|years| - 1], Names(cols));
        CompleteYearAppends(before.cols, last.value);
        var s := ShapeYears(cols, data, years);
        forall i | 0 <= i < |cols|
          ensures s.cols[i].values[..|cols[i].values|] == cols[i].values
        {
          assert s.cols[i].values == before.cols[i].values + [Cell(last.value, before.cols[i].name).value];
          assert s.cols[i].values[..|cols[i].values|] == before.cols[i].values[..|cols[i].values|];
        }
      }
    }
  }

  /** When no year is missing and every record is complete, series `i`
      holds the years' own values, in the order of `years`. */
  lemma {:induction false} ShapeYearsAllPresent(cols: seq<Column<int>>, data: Json, years: seq<nat>)
    requires forall j :: 0 <= j < |years| ==>
      YearRecord(data, years[j]).Ok? && MissingOrComplete(data, years[j], Names(cols))
    ensures var s := ShapeYears(cols, data, years);
      |s.cols| == |cols|
      && forall i :: 0 <= i < |cols| ==>
        |s.cols[i].values| == |cols[i].values| + |years|
        && forall j :: 0 <= j < |years| ==>
          YearCell(data, years[j], cols[i].name) == Ok(s.cols[i].values[|cols[i].values| + j])
    decreases |years|
  {
    if years != [] {
      var pre := years[..|years| - 1];
      assert forall j :: 0 <= j < |pre| ==> pre[j] == years[j];
      ShapeYearsAllPresent(cols, data, pre);
      ShapeYearsKeepsNames(cols, data, pre);
      var before := ShapeYears(cols, data, pre);
      var last := YearRecord(data, years[|years| - 1]).value;
      assert MissingOrComplete(data, years[|years| - 1], Names(cols));
      CompleteYearAppends(before.cols, last);
      var s := ShapeYears(cols, data, years);
      assert s.cols == AppendYear(before.cols, last);
      forall i, j | 0 <= i < |cols| && 0 <= j < |years|
        ensures YearCell(data, years[j], cols[i].name) == Ok(s.cols[i].values[|cols[i].values| + j])
      {
        assert before.cols[i].name == cols[i].name;
        assert s.cols[i].values == before.cols[i].values + [Cell(last, cols[i].name).value];
        if j < |pre| {
          assert s.cols[i].values[|cols[i].values| + j] == before.cols[i].values[|cols[i].values| + j];
        }
      }
    }
  }

  /** `get_sub_category_data` over a window where each year is missing or
      complete: every series holds one value per present year, and the
      symbol is flagged once per missing year; with no year missing the
      series hold the years' values in order. */
  lemma ShapeSkipsMissing(data: Json, years: seq<nat>, keys: seq<string>)
    requires forall j :: 0 <= j < |years| ==> MissingOrComplete(data, years[j], keys)
    ensures var s := Shape(data, years, keys);
      s.failures == Missing(data, years)
      && Names(s.cols) == Dedup(keys)
      && forall i :: 0 <= i < |s.cols| ==>
        |s.cols[i].values| == |years| - s.failures
        && (s.failures == 0 ==> forall j :: 0 <= j < |years| ==>
              YearCell(data, years[j], s.cols[i].name) == Ok(s.cols[i].values[j]))
  {
    var cols: seq<Column<int>> := CreateEmptyDict(keys);
    forall j | 0 <= j < |years|
      ensures MissingOrComplete(data, years[j], Names(cols))
    {
      assert MissingOrComplete(data, years[j], keys);
    }
    ShapeYearsSkipsMissing(cols, data, years);
    ShapeNames(data, years, keys);
    if Missing(data, years) == 0 {
      MissingZeroAllPresent(data, years);
      ShapeYearsAllPresent(cols, data, years);
    }
  }

  lemma {:induction false} MissingZeroAllPresent(data: Json, years: seq<nat>)
    requires Missing(data, years) == 0
    ensures forall j :: 0 <= j < |years| ==> YearRecord(data, years[j]).Ok?
  {
    if years != [] {
      var pre := years[..|years| - 1];
      MissingZeroAllPresent(data, pre);
      assert forall j :: 0 <= j < |pre| ==> pre[j] == years[j];
    }
  }

  /** The dict of a company after `add_to_financial_data_aggregate(key, value)`. */
  function Upsert<V>(agg: map<Company, map<string, V>>, company: Company, key: string, value: V): map<Company, map<string, V>> {
    agg[company := (if company in agg then agg[company] else map[])[key := value]]
  }

  function UpsertAll(agg: map<Company, map<string, Value>>, company: Company, writes: seq<(string, Value)>): map<Company, map<string, Value>>
    decreases |writes|
  {
    if writes == [] then agg
    else Upsert(UpsertAll(agg, company, writes[..|writes| - 1]), company, writes[|writes| - 1].0, writes[|writes| - 1].1)
  }

  /** The guard of line 67, as written. */
  predicate StoreGuard(value: Value) {
    value != Raw(JStr("None")) || value != Raw(JStr(""))
  }

  /** No value fails the guard: its rejection branch is dead code. */
  lemma StoreGuardAlwaysHolds(value: Value)
    ensures StoreGuard(value)
  {
  }

  /** The fields written by `get_overview_data` before the first missing
      response field, and the exception that field raised, if any. */
  function OverviewWrites(body: Json, n: nat): (r: (seq<(string, Value)>, Option<PyError>))
    requires n <= |OverviewFields|
    ensures |r.0| <= n
  {
    if n == 0 then ([], None)
    else
      var prev := OverviewWrites(body, n - 1);
      if prev.1.Some? then prev
      else match Lookup(body, OverviewFields[n - 1].1)
        case Raised(e) => (prev.0, Some(e))
        case Ok(v) => (prev.0 + [(OverviewFields[n - 1].0, Raw(v))], None)
  }

  /** `next(iter(data["Time Series (Daily)"].items()))` and its closing
      price: the (price, date) pair `get_price_data` stores. */
  function LatestClose(body: Json): Result<(Json, string)> {
    var series :- Lookup(body, "Time Series (Daily)");
    var first :- FirstItem(series);
    var close :- Lookup(first.1, "4. close");
    Ok((close, first.0))
  }

  /** `data['data'][0]['value']` of the treasury-yield response. */
  function TreasuryValue(body: Json): Result<Json> {
    var rows :- Lookup(body, "data");
    var row :- Index(rows, 0);
    Lookup(row, "value")
  }

  /** The category a lower-cased function type dispatches to: the key it
      is stored under and the fields it extracts. */
  function CategoryOf(name: string): Option<(string, seq<string>)> {
    if name == "cash_flow" then Some(("CASH_FLOW", CashFlowKeys))
    else if name == "income_statement" then Some(("INCOME_STATEMENT", IncomeStatementKeys))
    else if name == "balance_sheet" then Some(("BALANCE_SHEET", BalanceSheetKeys))
    else None
  }

  /** Lower-cased names that `getattr` resolves to another method of the
      class taking one argument, or special-method names: calling those with
      the payload runs that method instead of raising. Not modelled. */
  predicate OtherMethodName(name: string) {
    StartsWith(name, "__")
    || name in ["add_symbols_to_remove", "set_current_company", "get_overview_data", "get_price_data"]
  }

  /** Dispatch ignores case, and a category is stored under its own name. */
  lemma DispatchStoresUnderOwnName(functionType: string)
    ensures CategoryOf(Lower(Lower(functionType))) == CategoryOf(Lower(functionType))
    ensures CategoryOf(Lower(functionType)).Some? ==>
      Lower(CategoryOf(Lower(functionType)).value.0) == Lower(functionType)
  {
    LowerIdempotent(functionType);
    LowerCashFlow();
    LowerIncomeStatement();
    LowerBalanceSheet();
  }

  lemma LowerCashFlow()
    ensures Lower("CASH_FLOW") == "cash_flow"
  {
  }

  lemma LowerIncomeStatement()
    ensures Lower("INCOME_STATEMENT") == "income_statement"
  {
  }

  lemma LowerBalanceSheet()
    ensures Lower("BALANCE_SHEET") == "balance_sheet"
  {
  }

  /** What `process_data(function_type, data)` does to the aggregate and the
      rejection list, as a relation between the states before and after. */
  ghost predicate Processed(agg0: map<Company, map<string, Value>>, rem0: seq<Company>,
                            agg1: map<Company, map<string, Value>>, rem1: seq<Company>,
                            company: Company, years: seq<nat>, functionType: string, data: Json, outcome: Outcome)
  {
    match CategoryOf(Lower(functionType))
    case None => outcome == Propagated(Exception) && agg1 == agg0 && rem1 == rem0
    case Some((category, keys)) =>
      var s := Shape(data, years, keys);
      outcome == Returned
      && agg1 == Upsert(agg0, company, category, Statement(s.cols))
      && rem1 == rem0 + Repeat(company, s.failures)
  }

  class FinancialDataTypeSwitch {
    var financialDataAggregate: map<Company, map<string, Value>>
    var symbolsToRemove: seq<Company>
    var globalData: map<string, Json>
    /** `range(4)`: the four most recent annual reports. */
    const yearRange: seq<nat>
    var currentCompany: Company

    constructor ()
      ensures financialDataAggregate == map[] && symbolsToRemove == [] && globalData == map[]
      ensures yearRange == [0, 1, 2, 3] && currentCompany == None
    {
      financialDataAggregate := map[];
      symbolsToRemove := [];
      globalData := map[];
      yearRange := [0, 1, 2, 3];
      currentCompany := None;
    }

    /** `get_sub_category_data` (lines 45-55): shapes the years of `years`
      into series for `keys`; each failing year appends the current company
      to the rejection list once and the loop continues. */
    method GetSubCategoryData(data: Json, years: seq<nat>, keys: seq<string>) returns (cols: seq<Column<int>>)
      modifies this`symbolsToRemove
      ensures cols == Shape(data, years, keys).cols
      ensures symbolsToRemove == old(symbolsToRemove) + Repeat(currentCompany, Shape(data, years, keys).failures)
    {
      ghost var start := CreateEmptyDict(keys);
      ghost var rem0 := symbolsToRemove;
      cols := CreateEmptyDict(keys);
      var i := 0;
      while i < |years|
        invariant 0 <= i <= |years|
        invariant cols == ShapeYears(start, data, years[..i]).cols
        invariant symbolsToRemove == rem0 + Repeat(currentCompany, ShapeYears(start, data, years[..i]).failures)
      {
        ghost var before := ShapeYears(start, data, years[..i]);
        ghost var after := ShapeYears(start, data, years[..i + 1]);
        ShapeYearsStep(start, data, years, i);
        RepeatSnoc(currentCompany, before.failures);
        assert rem0 + Repeat(currentCompany, before.failures + 1) == (rem0 + Repeat(currentCompany, before.failures)) + [currentCompany];
        var year := YearRecord(data, years[i]);
        if year.Raised? {
          AddSymbolsToRemove(currentCompany);
        } else {
          var ok;
          cols, ok := AddYearsData(cols, year.value);
          if !ok {
            AddSymbolsToRemove(currentCompany);
          }
        }
        assert cols == after.cols && symbolsToRemove == rem0 + Repeat(currentCompany, after.failures);
        i := i + 1;
      }
      assert years[..|years|] == years;
    }

    /** `add_symbols_to_remove` (lines 57-58): appends, keeping order and duplicates. */
    method AddSymbolsToRemove(company: Company)
      modifies this`symbolsToRemove
      ensures symbolsToRemove == old(symbolsToRemove) + [company]
    {
      symbolsToRemove := symbolsToRemove + [company];
    }

    method SetCurrentCompany(company: Company)
      modifies this`currentCompany
      ensures currentCompany == company
    {
      currentCompany := company;
    }

    /** `add_to_financial_data_aggregate` (lines 63-74): creates the current
      company's record if absent and stores `value` under `key`; the guard
      never fails, so nothing is ever rejected here. */
    method AddToFinancialDataAggregate(key: string, value: Value)
      modifies this`financialDataAggregate, this`symbolsToRemove
      ensures financialDataAggregate == Upsert(old(financialDataAggregate), currentCompany, key, value)
      ensures symbolsToRemove == old(symbolsToRemove)
    {
      if currentCompany !in financialDataAggregate {
        financialDataAggregate := financialDataAggregate[currentCompany := map[]];
      }
      if StoreGuard(value) {
        financialDataAggregate := financialDataAggregate[currentCompany := financialDataAggregate[currentCompany][key := value]];
      } else {
        // The source rejects the current company here; StoreGuardAlwaysHolds
        // shows that no value reaches this branch.
        assert false;
      }
    }

    /** `cash_flow`, `income_statement`, `balance_sheet` (lines 153-171):
      shape the statement and store it under the category name. */
    method StoreCategory(category: string, keys: seq<string>, data: Json)
      modifies this`financialDataAggregate, this`symbolsToRemove
      ensures financialDataAggregate
        == Upsert(old(financialDataAggregate), currentCompany, category, Statement(Shape(data, yearRange, keys).cols))
      ensures symbolsToRemove == old(symbolsToRemove) + Repeat(currentCompany, Shape(data, yearRange, keys).failures)
    {
      var cols := GetSubCategoryData(data, yearRange, keys);
      AddToFinancialDataAggregate(category, Statement(cols));
    }

    method CashFlow(data: Json)
      modifies this`financialDataAggregate, this`symbolsToRemove
      ensures financialDataAggregate
        == Upsert(old(financialDataAggregate), currentCompany, "CASH_FLOW", Statement(Shape(data, yearRange, CashFlowKeys).cols))
      ensures symbolsToRemove == old(symbolsToRemove) + Repeat(currentCompany, Shape(data, yearRange, CashFlowKeys).failures)
    {
      StoreCategory("CASH_FLOW", CashFlowKeys, data);
    }

    method IncomeStatement(data: Json)
      modifies this`financialDataAggregate, this`symbolsToRemove
      ensures financialDataAggregate
        == Upsert(old(financialDataAggregate), currentCompany, "INCOME_STATEMENT", Statement(Shape(data, yearRange, IncomeStatementKeys).cols))
      ensures symbolsToRemove == old(symbolsToRemove) + Repeat(currentCompany, Shape(data, yearRange, IncomeStatementKeys).failures)
    {
      StoreCategory("INCOME_STATEMENT", IncomeStatementKeys, data);
    }

    method BalanceSheet(data: Json)
      modifies this`financialDataAggregate, this`symbolsToRemove
      ensures financialDataAggregate
        == Upsert(old(financialDataAggregate), currentCompany, "BALANCE_SHEET", Statement(Shape(data, yearRange, BalanceSheetKeys).cols))
      ensures symbolsToRemove == old(symbolsToRemove) + Repeat(currentCompany, Shape(data, yearRange, BalanceSheetKeys).failures)
    {
      StoreCategory("BALANCE_SHEET", BalanceSheetKeys, data);
    }

    /** `process_data` (lines 146-151): dispatch on the lower-cased type name;
      any other name (an attribute that is not callable with `data`, or the
      zero-argument fallback) raises TypeError, re-raised as a plain Exception. */
    method ProcessData(functionType: string, data: Json) returns (outcome: Outcome)
      requires !OtherMethodName(Lower(functionType))
      modifies this`financialDataAggregate, this`symbolsToRemove
      ensures Processed(old(financialDataAggregate), old(symbolsToRemove), financialDataAggregate, symbolsToRemove,
                        currentCompany, yearRange, functionType, data, outcome)
    {
      var name := Lower(functionType);
      if name == "cash_flow" {
        CashFlow(data);
      } else if name == "income_statement" {
        IncomeStatement(data);
      } else if name == "balance_sheet" {
        BalanceSheet(data);
      } else {
        return Propagated(Exception);
      }
      outcome := Returned;
    }

    /** The part of `get_data` (lines 86-98) after the response arrives. */
    method GetData(functionType: string, symbol: string, response: Response) returns (outcome: Outcome)
      requires !OtherMethodName(Lower(functionType))
      modifies this`financialDataAggregate, this`symbolsToRemove, this`currentCompany
      ensures currentCompany == Some(symbol) && globalData == old(globalData)
      ensures response.status != 200 || Len(response.body) == Ok(0) ==>
        outcome == Returned && financialDataAggregate == old(financialDataAggregate)
        && symbolsToRemove == old(symbolsToRemove) + [Some(symbol)]
      ensures response.status == 200 && Len(response.body).Raised? ==>
        outcome == Propagated(TypeError) && financialDataAggregate == old(financialDataAggregate)
        && symbolsToRemove == old(symbolsToRemove)
      ensures response.status == 200 && Len(response.body).Ok? && Len(response.body).value != 0 ==>
        Processed(old(financialDataAggregate), old(symbolsToRemove), financialDataAggregate, symbolsToRemove,
                  Some(symbol), yearRange, functionType, response.body, outcome)
    {
      SetCurrentCompany(Some(symbol));
      if response.status == 200 {
        var n := Len(response.body);
        if n.Raised? {
          return Propagated(n.error);
        }
        if n.value == 0 {
          AddSymbolsToRemove(Some(symbol));
          outcome := Returned;
        } else {
          outcome := ProcessData(functionType, response.body);
        }
      } else {
        AddSymbolsToRemove(Some(symbol));
        outcome := Returned;
      }
    }

    /** The part of `get_overview_data` (lines 104-115) after the response
      arrives: BETA, MARKET_CAPITALIZATION, SHARES_OUTSTANDING and the nine
      display fields, copied in that order; a missing field raises out of
      the method with the earlier ones already stored. */
    method GetOverviewData(symbol: string, response: Response) returns (outcome: Outcome)
      modifies this`financialDataAggregate, this`symbolsToRemove, this`currentCompany
      ensures currentCompany == Some(symbol) && globalData == old(globalData)
      ensures response.status != 200 ==>
        outcome == Returned && financialDataAggregate == old(financialDataAggregate)
        && symbolsToRemove == old(symbolsToRemove) + [Some(symbol)]
      ensures response.status == 200 ==>
        var w := OverviewWrites(response.body, |OverviewFields|);
        financialDataAggregate == UpsertAll(old(financialDataAggregate), Some(symbol), w.0)
        && symbolsToRemove == old(symbolsToRemove)
        && outcome == (if w.1.Some? then Propagated(w.1.value) else Returned)
    {
      currentCompany := Some(symbol);
      if response.status == 200 {
        var i := 0;
        while i < |OverviewFields|
          invariant 0 <= i <= |OverviewFields|
          invariant OverviewWrites(response.body, i).1.None?
          invariant financialDataAggregate
            == UpsertAll(old(financialDataAggregate), Some(symbol), OverviewWrites(response.body, i).0)
          invariant symbolsToRemove == old(symbolsToRemove)
          invariant currentCompany == Some(symbol)
        {
          var v := Lookup(response.body, OverviewFields[i].1);
          OverviewWritesNext(response.body, i);
          if v.Raised? {
            OverviewWritesStop(response.body, i + 1, |OverviewFields|);
            return Propagated(v.error);
          }
          UpsertAllSnoc(old(financialDataAggregate), Some(symbol), OverviewWrites(response.body, i).0, (OverviewFields[i].0, Raw(v.value)));
          AddToFinancialDataAggregate(OverviewFields[i].0, Raw(v.value));
          i := i + 1;
        }
        outcome := Returned;
      } else {
        AddSymbolsToRemove(Some(symbol));
        outcome := Returned;
      }
    }

    /** The part of `get_price_data` (lines 122-133) after the response
      arrives: the first (most recent) daily entry's close and date are
      stored; any failure rejects the symbol instead. Nothing escapes. */
    method GetPriceData(symbol: string, response: Response)
      modifies this`financialDataAggregate, this`symbolsToRemove, this`currentCompany
      ensures currentCompany == Some(symbol) && globalData == old(globalData)
      ensures var p := LatestClose(response.body);
        if response.status == 200 && p.Ok? then
          financialDataAggregate == Upsert(Upsert(old(financialDataAggregate), Some(symbol), "LATEST_PRICE", Raw(p.value.0)),
                                           Some(symbol), "LATEST_PRICE_DATE", Raw(JStr(p.value.1)))
          && symbolsToRemove == old(symbolsToRemove)
        else
          financialDataAggregate == old(financialDataAggregate) && symbolsToRemove == old(symbolsToRemove) + [Some(symbol)]
    {
      currentCompany := Some(symbol);
      if response.status == 200 {
        var p := LatestClose(response.body);
        if p.Raised? {
          AddSymbolsToRemove(Some(symbol));
          return;
        }
        AddToFinancialDataAggregate("LATEST_PRICE", Raw(p.value.0));
        AddToFinancialDataAggregate("LATEST_PRICE_DATE", Raw(JStr(p.value.1)));
      } else {
        AddSymbolsToRemove(Some(symbol));
      }
    }

    /** The part of `get_treasury_data` (lines 138-144) after the response
      arrives: only the global bucket changes; a non-200 status raises. */
    method GetTreasuryData(response: Response) returns (outcome: Outcome)
      modifies this`globalData
      ensures var v := TreasuryValue(response.body);
        if response.status != 200 then outcome == Propagated(Exception) && globalData == old(globalData)
        else if v.Raised? then outcome == Propagated(v.error) && globalData == old(globalData)
        else outcome == Returned && globalData == old(globalData)["TREASURY_YIELD" := v.value]
    {
      if response.status == 200 {
        var v := TreasuryValue(response.body);
        if v.Raised? {
          return Propagated(v.error);
        }
        globalData := globalData["TREASURY_YIELD" := v.value];
        outcome := Returned;
      } else {
        outcome := Propagated(Exception);
      }
    }
  }

  /** When every overview field is present, the company's record holds all
      twelve keys with the response's values copied unchanged, and no other
      company's record changes. */
  lemma OverviewCopiesFields(agg: map<Company, map<string, Value>>, symbol: string, body: Json)
    requires forall i :: 0 <= i < |OverviewFields| ==> Lookup(body, OverviewFields[i].1).Ok?
    ensures var r := UpsertAll(agg, Some(symbol), OverviewWrites(body, |OverviewFields|).0);
      OverviewWrites(body, |OverviewFields|).1 == None
      && Some(symbol) in r
      && (forall i :: 0 <= i < |OverviewFields| ==>
            OverviewFields[i].0 in r[Some(symbol)] && r[Some(symbol)][OverviewFields[i].0] == Raw(Lookup(body, OverviewFields[i].1).value))
      && (forall c :: c != Some(symbol) ==> (c in r <==> c in agg) && (c in agg ==> r[c] == agg[c]))
  {
    OverviewWritesAll(body, |OverviewFields|);
    var ws := OverviewWrites(body, |OverviewFields|).0;
    UpsertAllLastWrite(agg, Some(symbol), ws, 0);
    forall i | 0 <= i < |OverviewFields|
      ensures OverviewFields[i].0 in UpsertAll(agg, Some(symbol), ws)[Some(symbol)]
      ensures UpsertAll(agg, Some(symbol), ws)[Some(symbol)][OverviewFields[i].0] == Raw(Lookup(body, OverviewFields[i].1).value)
    {
      OverviewKeysDistinct(i);
      UpsertAllLastWrite(agg, Some(symbol), ws, i);
    }
    forall c | c != Some(symbol)
      ensures var r := UpsertAll(agg, Some(symbol), ws); (c in r <==> c in agg) && (c in agg ==> r[c] == agg[c])
    {
      UpsertAllOthers(agg, Some(symbol), ws, c);
    }
  }

  lemma {:induction false} OverviewWritesAll(body: Json, n: nat)
    requires n <= |OverviewFields|
    requires forall i :: 0 <= i < |OverviewFields| ==> Lookup(body, OverviewFields[i].1).Ok?
    ensures OverviewWrites(body, n).1 == None
    ensures |OverviewWrites(body, n).0| == n
    ensures forall i :: 0 <= i < n ==>
      OverviewWrites(body, n).0[i] == (OverviewFields[i].0, Raw(Lookup(body, OverviewFields[i].1).value))
  {
    if n > 0 {
      OverviewWritesAll(body, n - 1);
    }
  }

  lemma OverviewKeysDistinct(i: nat)
    requires i < |OverviewFields|
    ensures forall j :: 0 <= j < |OverviewFields| && j != i ==> OverviewFields[j].0 != OverviewFields[i].0
  {
  }

  lemma OverviewWritesNext(body: Json, i: nat)
    requires i < |OverviewFields| && OverviewWrites(body, i).1.None?
    ensures var v := Lookup(body, OverviewFields[i].1);
      OverviewWrites(body, i + 1)
        == if v.Raised? then (OverviewWrites(body, i).0, Some(v.error))
           else (OverviewWrites(body, i).0 + [(OverviewFields[i].0, Raw(v.value))], None)
  {
  }

  /** Once a field has raised, no later field is written. */
  lemma {:induction false} OverviewWritesStop(body: Json, i: nat, n: nat)
    requires i <= n <= |OverviewFields| && OverviewWrites(body, i).1.Some?
    ensures OverviewWrites(body, n) == OverviewWrites(body, i)
    decreases n
  {
    if n > i {
      OverviewWritesStop(body, i, n - 1);
    }
  }

  lemma UpsertAllSnoc(agg: map<Company, map<string, Value>>, company: Company, ws: seq<(string, Value)>, w: (string, Value))
    ensures UpsertAll(agg, company, ws + [w]) == Upsert(UpsertAll(agg, company, ws), company, w.0, w.1)
  {
    assert (ws + [w])[..|ws|] == ws;
  }

  /** After a run of writes for one company, a key holds its last write. */
  lemma {:induction false} UpsertAllLastWrite(agg: map<Company, map<string, Value>>, company: Company,
                                              ws: seq<(string, Value)>, i: nat)
    requires i < |ws| && forall j :: i < j < |ws| ==> ws[j].0 != ws[i].0
    ensures var r := UpsertAll(agg, company, ws);
      company in r && ws[i].0 in r[company] && r[company][ws[i].0] == ws[i].1
    decreases |ws|
  {
    if i < |ws| - 1 {
      UpsertAllLastWrite(agg, company, ws[..|ws| - 1], i);
    }
  }

  /** Writes for one company leave every other company's record as it was. */
  lemma {:induction false} UpsertAllOthers(agg: map<Company, map<string, Value>>, company: Company,
                                           ws: seq<(string, Value)>, c: Company)
    requires c != company
    ensures var r := UpsertAll(agg, company, ws);
      (c in r <==> c in agg) && (c in agg ==> r[c] == agg[c])
    decreases |ws|
  {
    if ws != [] {
      UpsertAllOthers(agg, company, ws[..|ws| - 1], c);
    }
  }
}
