/** The older shaper and aggregate at the repository root
    (financial_data_aggregator.py): statement fields are copied raw, with
    no coercion; nothing is caught, so a missing year or key raises out of
    the category method; failed fetches are recorded in an `errorState`
    list instead of rejecting the symbol. */
module LegacyAggregator {
  import opened PyCore
  import opened Json
  import opened Columns
  import Aggregator

  type Company = Aggregator.Company

  const CashFlowKeys: seq<string> := ["operatingCashflow", "capitalExpenditures"]
  const IncomeStatementKeys: seq<string> :=
    ["totalRevenue", "netIncome", "incomeBeforeTax", "interestAndDebtExpense", "incomeTaxExpense", "interestExpense"]
  const BalanceSheetKeys: seq<string> := ["commonStockSharesOutstanding", "shortLongTermDebtTotal"]

  /** The first column, from `from` on, whose field `year` lacks. */
  function FirstMissing(cols: seq<Column<Json>>, year: Json, from: nat): (k: nat)
    requires from <= |cols|
    ensures from <= k <= |cols|
    ensures forall i :: from <= i < k ==> Lookup(year, cols[i].name).Ok?
    ensures k < |cols| ==> Lookup(year, cols[k].name).Raised?
    decreases |cols| - from
  {
    if from == |cols| then from
    else if Lookup(year, cols[from].name).Raised? then from
    else FirstMissing(cols, year, from + 1)
  }

  /** The dict after `add_years_data(d, year)` (lines 13-15), or the
      exception of the first key `year` lacks. */
  function AppendRawYear(cols: seq<Column<Json>>, year: Json): (r: Result<seq<Column<Json>>>)
    ensures r.Ok? <==> forall i :: 0 <= i < |cols| ==> Lookup(year, cols[i].name).Ok?
    ensures r.Raised? ==> exists i :: 0 <= i < |cols| && Lookup(year, cols[i].name) == Raised(r.error)
    ensures r.Ok? ==> |r.value| == |cols| && forall i :: 0 <= i < |cols| ==>
      r.value[i].name == cols[i].name && r.value[i].values == cols[i].values + [Lookup(year, cols[i].name).value]
  {
    var k := FirstMissing(cols, year, 0);
    if k < |cols| then Raised(Lookup(year, cols[k].name).error)
    else Ok(seq(|cols|, i requires 0 <= i < |cols| => Column(cols[i].name, cols[i].values + [Lookup(year, cols[i].name).value])))
  }

  /** `add_years_data` of the root file and of app.py (lines 14-16 there),
      which are the same code: each key's list gains the raw field. */
  method AddYearsData(cols: seq<Column<Json>>, year: Json) returns (r: Result<seq<Column<Json>>>)
    ensures r == AppendRawYear(cols, year)
  {
    var k := FirstMissing(cols, year, 0);
    var out := cols;
    var i := 0;
    while i < |cols|
      invariant i <= k
      invariant |out| == |cols|
      invariant forall j :: 0 <= j < |cols| ==>
        out[j] == if j < i then Column(cols[j].name, cols[j].values + [Lookup(year, cols[j].name).value]) else cols[j]
    {
      var v := Lookup(year, cols[i].name);
      if v.Raised? {
        return Raised(v.error);
      }
      out := out[i := Column(out[i].name, out[i].values + [v.value])];
      i := i + 1;
    }
    assert AppendRawYear(cols, year).Ok?;
    assert forall j :: 0 <= j < |cols| ==> out[j] == AppendRawYear(cols, year).value[j];
    assert out == AppendRawYear(cols, year).value;
    return Ok(out);
  }

  /** `data['annualReports'][idx][key]`. */
  function YearField(data: Json, idx: nat, key: string): Result<Json> {
    var year :- Aggregator.YearRecord(data, idx);
    Lookup(year, key)
  }

  /** `get_sub_category_data` of the root file: the first failure of any
      year ends the whole call. */
  function RawShape(data: Json, years: seq<nat>, keys: seq<string>): Result<seq<Column<Json>>>
    decreases |years|
  {
    if years == [] then Ok(CreateEmptyDict(keys))
    else
      var before :- RawShape(data, years[..|years| - 1], keys);
      var year :- Aggregator.YearRecord(data, years[|years| - 1]);
      AppendRawYear(before, year)
  }

  lemma AppendRawYearKeys(cols: seq<Column<Json>>, year: Json, keys: seq<string>)
    requires Names(cols) == Dedup(keys)
    ensures AppendRawYear(cols, year).Ok? <==> forall k :: k in keys ==> Lookup(year, k).Ok?
  {
    if AppendRawYear(cols, year).Ok? {
      forall k | k in keys
        ensures Lookup(year, k).Ok?
      {
        assert k in Names(cols);
        var i :| 0 <= i < |cols| && Names(cols)[i] == k;
      }
    } else {
      var i :| 0 <= i < |cols| && Lookup(year, cols[i].name).Raised?;
      assert cols[i].name == Names(cols)[i];
      assert cols[i].name in keys;
    }
  }

  /** Shaping succeeds exactly when every year of the window exists and
      holds every key; then the dict has exactly the requested keys, and
      each list holds the years' raw values in window order. */
  lemma RawShapeSpec(data: Json, years: seq<nat>, keys: seq<string>)
    ensures var r := RawShape(data, years, keys);
      (r.Ok? <==> forall j :: 0 <= j < |years| ==>
         Aggregator.YearRecord(data, years[j]).Ok? && forall k :: k in keys ==> YearField(data, years[j], k).Ok?)
      && (r.Ok? ==>
         Names(r.value) == Dedup(keys)
         && forall i :: 0 <= i < |r.value| ==>
              |r.value[i].values| == |years|
              && forall j :: 0 <= j < |years| ==> YearField(data, years[j], r.value[i].name) == Ok(r.value[i].values[j]))
  {
    RawShapeSucceedsIff(data, years, keys);
    RawShapeValues(data, years, keys);
  }

  /** Every year of `years` exists and holds every key. */
  ghost predicate AllPresent(data: Json, years: seq<nat>, keys: seq<string>) {
    forall j :: 0 <= j < |years| ==>
      Aggregator.YearRecord(data, years[j]).Ok? && forall k :: k in keys ==> YearField(data, years[j], k).Ok?
  }

  lemma {:induction false} RawShapeSucceedsIff(data: Json, years: seq<nat>, keys: seq<string>)
    ensures RawShape(data, years, keys).Ok? ==> Names(RawShape(data, years, keys).value) == Dedup(keys)
    ensures RawShape(data, years, keys).Ok? <==> AllPresent(data, years, keys)
    decreases |years|
  {
    if years != [] {
      var pre, last := years[..|years| - 1], years[|years| - 1];
      RawShapeSucceedsIff(data, pre, keys);
      AllPresentSnoc(data, pre, last, keys);
      assert years == pre + [last];
      var before := RawShape(data, pre, keys);
      var y := Aggregator.YearRecord(data, last);
      if before.Ok? && y.Ok? {
        AppendRawYearKeys(before.value, y.value, keys);
        assert forall k :: k in keys ==> YearField(data, last, k) == Lookup(y.value, k);
      }
    }
  }

  /** The years of `pre + [last]` are all present exactly when those of
      `pre` are and `last` is. */
  lemma AllPresentSnoc(data: Json, pre: seq<nat>, last: nat, keys: seq<string>)
    ensures AllPresent(data, pre + [last], keys) <==>
      AllPresent(data, pre, keys)
      && Aggregator.YearRecord(data, last).Ok? && forall k :: k in keys ==> YearField(data, last, k).Ok?
  {
    var years := pre + [last];
    assert forall j :: 0 <= j < |pre| ==> years[j] == pre[j];
    assert years[|pre|] == last;
  }

  lemma {:induction false} RawShapeValues(data: Json, years: seq<nat>, keys: seq<string>)
    ensures var r := RawShape(data, years, keys);
      r.Ok? ==> Holds(r.value, data, years)
    decreases |years|
  {
    var r := RawShape(data, years, keys);
    if years != [] && r.Ok? {
      var pre, last := years[..|years| - 1], years[|years| - 1];
      RawShapeValues(data, pre, keys);
      var before := RawShape(data, pre, keys);
      var y := Aggregator.YearRecord(data, last);
      assert before.Ok? && y.Ok? && r == AppendRawYear(before.value, y.value);
      AppendRawYearHolds(before.value, y.value, data, pre, last);
      assert years == pre + [last];
    }
  }

  /** Every list of `cols` has one value per year of `years`, the raw
      field of that year. */
  ghost predicate Holds(cols: seq<Column<Json>>, data: Json, years: seq<nat>) {
    forall i :: 0 <= i < |cols| ==>
      |cols[i].values| == |years|
      && forall j :: 0 <= j < |years| ==> YearField(data, years[j], cols[i].name) == Ok(cols[i].values[j])
  }

  lemma AppendRawYearHolds(cols: seq<Column<Json>>, y: Json, data: Json, pre: seq<nat>, last: nat)
    requires Aggregator.YearRecord(data, last) == Ok(y) && AppendRawYear(cols, y).Ok? && Holds(cols, data, pre)
    ensures Holds(AppendRawYear(cols, y).value, data, pre + [last])
  {
    var r, years := AppendRawYear(cols, y).value, pre + [last];
    forall i | 0 <= i < |r|
      ensures |r[i].values| == |years|
      ensures forall j :: 0 <= j < |years| ==> YearField(data, years[j], r[i].name) == Ok(r[i].values[j])
    {
      var name, values := cols[i].name, cols[i].values;
      assert |values| == |pre|;
      assert r[i].name == name && r[i].values == values + [Lookup(y, name).value];
      forall j | 0 <= j < |years|
        ensures YearField(data, years[j], name) == Ok(r[i].values[j])
      {
        if j < |pre| {
          assert years[j] == pre[j];
          assert YearField(data, pre[j], name) == Ok(values[j]);
        } else {
          assert YearField(data, last, name) == Lookup(y, name);
        }
      }
    }
  }

  /** One more year on top of the years shaped so far; when it fails, the
      whole range fails with the same error. */
  lemma RawShapeStep(data: Json, years: seq<nat>, i: nat, keys: seq<string>, cols: seq<Column<Json>>)
    requires i < |years| && RawShape(data, years[..i], keys) == Ok(cols)
    ensures var year := Aggregator.YearRecord(data, years[i]);
      var next := if year.Raised? then Raised(year.error) else AppendRawYear(cols, year.value);
      RawShape(data, years[..i + 1], keys) == next
      && (next.Raised? ==> RawShape(data, years, keys) == next)
  {
    assert years[..i + 1][..i] == years[..i];
    if RawShape(data, years[..i + 1], keys).Raised? {
      RawShapePrefixFails(data, years, i + 1, keys);
    }
  }

  /** A failure in a prefix of the window is the failure of the whole call. */
  lemma {:induction false} RawShapePrefixFails(data: Json, years: seq<nat>, n: nat, keys: seq<string>)
    requires n <= |years| && RawShape(data, years[..n], keys).Raised?
    ensures RawShape(data, years, keys) == RawShape(data, years[..n], keys)
    decreases |years|
  {
    if n < |years| {
      assert years[..|years| - 1][..n] == years[..n];
      RawShapePrefixFails(data, years[..|years| - 1], n, keys);
    } else {
      assert years[..n] == years;
    }
  }

  /** `get_sub_category_data` (lines 18-23). */
  method GetSubCategoryData(data: Json, years: seq<nat>, keys: seq<string>) returns (r: Result<seq<Column<Json>>>)
    ensures r == RawShape(data, years, keys)
  {
    var cols := CreateEmptyDict(keys);
    var i := 0;
    while i < |years|
      invariant 0 <= i <= |years|
      invariant RawShape(data, years[..i], keys) == Ok(cols)
    {
      RawShapeStep(data, years, i, keys, cols);
      var year := Aggregator.YearRecord(data, years[i]);
      if year.Raised? {
        return Raised(year.error);
      }
      var next := AddYearsData(cols, year.value);
      if next.Raised? {
        return next;
      }
      cols := next.value;
      i := i + 1;
    }
    assert years[..|years|] == years;
    return Ok(cols);
  }

  /** The message `get_data` records for a failed fetch (line 57). */
  function FetchError(functionType: string, symbol: string): string {
    "Failed to fetch " + functionType + " data for " + symbol
  }

  /** The category a lower-cased function type dispatches to. */
  function CategoryOf(name: string): Option<(string, seq<string>)> {
    if name == "cash_flow" then Some(("CASH_FLOW", CashFlowKeys))
    else if name == "income_statement" then Some(("INCOME_STATEMENT", IncomeStatementKeys))
    else if name == "balance_sheet" then Some(("BALANCE_SHEET", BalanceSheetKeys))
    else None
  }

  /** Lower-cased names `getattr` resolves to another method of the class
      that accepts the payload as its one argument, or special-method
      names. Not modelled. */
  predicate OtherMethodName(name: string) {
    StartsWith(name, "__")
    || name in ["add_error_to_error_state", "set_current_company", "get_overview_data", "get_price_data", "get_treasury_data"]
  }

  /** What `process_data(function_type, data)` does to the aggregate. */
  ghost predicate Processed(agg0: map<Company, map<string, seq<Column<Json>>>>, agg1: map<Company, map<string, seq<Column<Json>>>>,
                            company: Company, years: seq<nat>, functionType: string, data: Json, outcome: Outcome)
  {
    match CategoryOf(Lower(functionType))
    case None => outcome == Propagated(TypeError) && agg1 == agg0
    case Some((category, keys)) =>
      var r := RawShape(data, years, keys);
      if r.Ok? then outcome == Returned && agg1 == Aggregator.Upsert(agg0, company, category, r.value)
      else outcome == Propagated(r.error) && agg1 == agg0
  }

  class FinancialDataTypeSwitch {
    var financialDataAggregate: map<Company, map<string, seq<Column<Json>>>>
    /** `range(4)`. */
    const yearRange: seq<nat>
    var errorState: seq<string>
    var currentCompany: Company

    constructor ()
      ensures financialDataAggregate == map[] && yearRange == [0, 1, 2, 3]
      ensures errorState == [] && currentCompany == None
    {
      financialDataAggregate := map[];
      yearRange := [0, 1, 2, 3];
      errorState := [];
      currentCompany := None;
    }

    method AddErrorToErrorState(error: string)
      modifies this`errorState
      ensures errorState == old(errorState) + [error]
    {
      errorState := errorState + [error];
    }

    method SetCurrentCompany(company: Company)
      modifies this`currentCompany
      ensures currentCompany == company
    {
      currentCompany := company;
    }

    /** `add_to_financial_data_aggregate` (lines 41-44): creates the current
      company's record if absent and overwrites `key` unconditionally. */
    method AddToFinancialDataAggregate(key: string, value: seq<Column<Json>>)
      modifies this`financialDataAggregate
      ensures financialDataAggregate == Aggregator.Upsert(old(financialDataAggregate), currentCompany, key, value)
    {
      if currentCompany !in financialDataAggregate {
        financialDataAggregate := financialDataAggregate[currentCompany := map[]];
      }
      financialDataAggregate := financialDataAggregate[currentCompany := financialDataAggregate[currentCompany][key := value]];
    }

    /** The body shared by `cash_flow`, `income_statement` and
      `balance_sheet` (lines 98-115): the series are shaped once and thrown
      away, then shaped again and stored; the first call's failure escapes. */
    method StoreCategory(category: string, keys: seq<string>, data: Json) returns (outcome: Outcome)
      modifies this`financialDataAggregate
      ensures var r := RawShape(data, yearRange, keys);
        if r.Ok? then outcome == Returned && financialDataAggregate == Aggregator.Upsert(old(financialDataAggregate), currentCompany, category, r.value)
        else outcome == Propagated(r.error) && financialDataAggregate == old(financialDataAggregate)
    {
      var first := GetSubCategoryData(data, yearRange, keys);
      if first.Raised? {
        return Propagated(first.error);
      }
      var second := GetSubCategoryData(data, yearRange, keys);
      AddToFinancialDataAggregate(category, second.value);
      outcome := Returned;
    }

    method CashFlow(data: Json) returns (outcome: Outcome)
      modifies this`financialDataAggregate
      ensures var r := RawShape(data, yearRange, CashFlowKeys);
        if r.Ok? then outcome == Returned && financialDataAggregate == Aggregator.Upsert(old(financialDataAggregate), currentCompany, "CASH_FLOW", r.value)
        else outcome == Propagated(r.error) && financialDataAggregate == old(financialDataAggregate)
    {
      outcome := StoreCategory("CASH_FLOW", CashFlowKeys, data);
    }

    method IncomeStatement(data: Json) returns (outcome: Outcome)
      modifies this`financialDataAggregate
      ensures var r := RawShape(data, yearRange, IncomeStatementKeys);
        if r.Ok? then outcome == Returned && financialDataAggregate == Aggregator.Upsert(old(financialDataAggregate), currentCompany, "INCOME_STATEMENT", r.value)
        else outcome == Propagated(r.error) && financialDataAggregate == old(financialDataAggregate)
    {
      outcome := StoreCategory("INCOME_STATEMENT", IncomeStatementKeys, data);
    }

    method BalanceSheet(data: Json) returns (outcome: Outcome)
      modifies this`financialDataAggregate
      ensures var r := RawShape(data, yearRange, BalanceSheetKeys);
        if r.Ok? then outcome == Returned && financialDataAggregate == Aggregator.Upsert(old(financialDataAggregate), currentCompany, "BALANCE_SHEET", r.value)
        else outcome == Propagated(r.error) && financialDataAggregate == old(financialDataAggregate)
    {
      outcome := StoreCategory("BALANCE_SHEET", BalanceSheetKeys, data);
    }

    /** `process_data` (lines 93-96): any other name reaches a value that is
      not callable with `data`, or the zero-argument fallback, and raises
      TypeError uncaught. */
    method ProcessData(functionType: string, data: Json) returns (outcome: Outcome)
      requires !OtherMethodName(Lower(functionType))
      modifies this`financialDataAggregate
      ensures Processed(old(financialDataAggregate), financialDataAggregate, currentCompany, yearRange, functionType, data, outcome)
    {
      var name := Lower(functionType);
      if name == "cash_flow" {
        outcome := CashFlow(data);
      } else if name == "income_statement" {
        outcome := IncomeStatement(data);
      } else if name == "balance_sheet" {
        outcome := BalanceSheet(data);
      } else {
        outcome := Propagated(TypeError);
      }
    }

    /** The part of `get_data` (lines 52-58) after the response arrives:
      a non-200 status records one error and leaves the aggregate alone. */
    method GetData(functionType: string, symbol: string, response: Response) returns (outcome: Outcome)
      requires !OtherMethodName(Lower(functionType))
      modifies this`financialDataAggregate, this`errorState, this`currentCompany
      ensures currentCompany == Some(symbol)
      ensures response.status != 200 ==>
        outcome == Returned && financialDataAggregate == old(financialDataAggregate)
        && errorState == old(errorState) + [FetchError(functionType, symbol)]
      ensures response.status == 200 ==>
        errorState == old(errorState)
        && Processed(old(financialDataAggregate), financialDataAggregate, Some(symbol), yearRange, functionType, response.body, outcome)
    {
      SetCurrentCompany(Some(symbol));
      if response.status == 200 {
        outcome := ProcessData(functionType, response.body);
      } else {
        AddErrorToErrorState(FetchError(functionType, symbol));
        outcome := Returned;
      }
    }
  }
}
