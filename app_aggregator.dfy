/** The first prototype of the shaper (app.py): one category, cash flow,
    shaped with raw values over the four most recent annual reports and
    written under a single key of a flat aggregate. */
module AppAggregator {
  import opened PyCore
  import opened Json
  import opened Columns
  import Aggregator
  import LegacyAggregator

  const CashFlowKeys: seq<string> := ["operatingCashflow", "capitalExpenditures"]

  /** The aggregate key `cash_flow` writes. */
  const CashFlowSlot: string := "operating_cash_flows"

  class FinancialDataTypeSwitch {
    var financialDataAggregate: map<string, seq<Column<Json>>>
    /** `range(4)`. */
    const yearRange: seq<nat>

    constructor ()
      ensures financialDataAggregate == map[] && yearRange == [0, 1, 2, 3]
    {
      financialDataAggregate := map[];
      yearRange := [0, 1, 2, 3];
    }

    /** `add_to_financial_data_aggregate` (lines 25-26): a flat overwrite. */
    method AddToFinancialDataAggregate(key: string, value: seq<Column<Json>>)
      modifies this`financialDataAggregate
      ensures financialDataAggregate == old(financialDataAggregate)[key := value]
    {
      financialDataAggregate := financialDataAggregate[key := value];
    }

    /** `cash_flow` (lines 36-44): the loop over the year range, raising at
      the first missing report or key; on success only
      'operating_cash_flows' changes. */
    method CashFlow(data: Json) returns (outcome: Outcome)
      modifies this`financialDataAggregate
      ensures var r := LegacyAggregator.RawShape(data, yearRange, CashFlowKeys);
        if r.Ok? then outcome == Returned && financialDataAggregate == old(financialDataAggregate)[CashFlowSlot := r.value]
        else outcome == Propagated(r.error) && financialDataAggregate == old(financialDataAggregate)
    {
      var operatingCashFlows := CreateEmptyDict(CashFlowKeys);
      var i := 0;
      while i < |yearRange|
        invariant 0 <= i <= |yearRange|
        invariant LegacyAggregator.RawShape(data, yearRange[..i], CashFlowKeys) == Ok(operatingCashFlows)
        invariant financialDataAggregate == old(financialDataAggregate)
      {
        LegacyAggregator.RawShapeStep(data, yearRange, i, CashFlowKeys, operatingCashFlows);
        var year := Aggregator.YearRecord(data, yearRange[i]);
        if year.Raised? {
          return Propagated(year.error);
        }
        var next := LegacyAggregator.AddYearsData(operatingCashFlows, year.value);
        if next.Raised? {
          return Propagated(next.error);
        }
        operatingCashFlows := next.value;
        i := i + 1;
      }
      assert yearRange[..|yearRange|] == yearRange;
      AddToFinancialDataAggregate(CashFlowSlot, operatingCashFlows);
      outcome := Returned;
    }

    /** `process_data` (lines 31-34): every other attribute of this class is
      either not callable or needs a different number of arguments, as
      does the zero-argument fallback, so any other name raises TypeError. */
    method ProcessData(dataType: string, data: Json) returns (outcome: Outcome)
      requires !StartsWith(Lower(dataType), "__")
      modifies this`financialDataAggregate
      ensures Lower(dataType) == "cash_flow" ==>
        var r := LegacyAggregator.RawShape(data, yearRange, CashFlowKeys);
        if r.Ok? then outcome == Returned && financialDataAggregate == old(financialDataAggregate)[CashFlowSlot := r.value]
        else outcome == Propagated(r.error) && financialDataAggregate == old(financialDataAggregate)
      ensures Lower(dataType) != "cash_flow" ==>
        outcome == Propagated(TypeError) && financialDataAggregate == old(financialDataAggregate)
    {
      if Lower(dataType) == "cash_flow" {
        outcome := CashFlow(data);
      } else {
        outcome := Propagated(TypeError);
      }
    }
  }

  lemma CashFlowKeysDistinct()
    ensures Dedup(CashFlowKeys) == CashFlowKeys
  {
    assert CashFlowKeys[..1] == ["operatingCashflow"];
    assert Dedup(CashFlowKeys[..1]) == ["operatingCashflow"];
  }

  /** The shaped cash flow has exactly the two keys, in order, each with
      four values read from `annualReports[0..3]` in order. */
  lemma CashFlowShape(data: Json)
    ensures var r := LegacyAggregator.RawShape(data, [0, 1, 2, 3], CashFlowKeys);
      r.Ok? ==>
        Names(r.value) == CashFlowKeys
        && forall i :: 0 <= i < |r.value| ==>
             |r.value[i].values| == 4
             && forall j: nat :: j < 4 ==> LegacyAggregator.YearField(data, j, r.value[i].name) == Ok(r.value[i].values[j])
  {
    var years: seq<nat> := [0, 1, 2, 3];
    LegacyAggregator.RawShapeSpec(data, years, CashFlowKeys);
    CashFlowKeysDistinct();
    assert forall j :: 0 <= j < 4 ==> years[j] == j;
  }

  /** `cash_flow` succeeds exactly when the four reports exist and hold both keys. */
  lemma CashFlowSucceedsIff(data: Json)
    ensures LegacyAggregator.RawShape(data, [0, 1, 2, 3], CashFlowKeys).Ok?
      <==> forall j: nat :: j < 4 ==>
             LegacyAggregator.YearField(data, j, "operatingCashflow").Ok?
             && LegacyAggregator.YearField(data, j, "capitalExpenditures").Ok?
  {
    var years: seq<nat> := [0, 1, 2, 3];
    LegacyAggregator.RawShapeSpec(data, years, CashFlowKeys);
    assert forall j :: 0 <= j < 4 ==> years[j] == j;
    assert "operatingCashflow" in CashFlowKeys && "capitalExpenditures" in CashFlowKeys;
    assert forall k :: k in CashFlowKeys <==> k == "operatingCashflow" || k == "capitalExpenditures";
    if forall j: nat :: j < 4 ==>
         LegacyAggregator.YearField(data, j, "operatingCashflow").Ok?
         && LegacyAggregator.YearField(data, j, "capitalExpenditures").Ok?
    {
      forall j | 0 <= j < |years|
        ensures Aggregator.YearRecord(data, years[j]).Ok?
        ensures forall k :: k in CashFlowKeys ==> LegacyAggregator.YearField(data, years[j], k).Ok?
      {
        assert LegacyAggregator.YearField(data, years[j], "operatingCashflow").Ok?;
      }
    } else {
      var j: nat :| j < 4 && !(LegacyAggregator.YearField(data, j, "operatingCashflow").Ok?
                               && LegacyAggregator.YearField(data, j, "capitalExpenditures").Ok?);
      assert years[j] == j;
    }
  }

  /** With fewer than four annual reports, `cash_flow` raises. */
  lemma CashFlowNeedsFourReports(data: Json, reports: seq<Json>)
    requires Lookup(data, "annualReports") == Ok(JList(reports)) && |reports| < 4
    ensures LegacyAggregator.RawShape(data, [0, 1, 2, 3], CashFlowKeys).Raised?
  {
    CashFlowSucceedsIff(data);
    assert LegacyAggregator.YearField(data, 3, "operatingCashflow") == Raised(IndexError);
  }
}
