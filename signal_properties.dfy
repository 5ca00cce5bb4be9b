/** What one `do_calculations` call does to the whole signal table
    (functions/signal_calculator.py, lines 77-95 and 196-208): the other
    symbols' records are untouched, a dropped symbol is gone, a kept one
    holds a numeric MARKET_CAP and the aggregate's LATEST_PRICE, and a run
    that fails after its first write leaves a record without MARKET_CAP
    that makes every later sort by MARKET_CAP raise. */
module SignalProperties {
  import opened PyCore
  import opened Json
  import opened Valuation
  import opened SignalTable
  import opened SignalCalculator

  /** The shape of the writes of a run that reached `calc_dfc` and did not
      fail, its `calc_dfc` writes starting at position `k`: MARKET_CAP is
      written as a number at `k + 3`, and a kept run ends with
      PERCENTAGE_DIFF, MACD, LATEST_PRICE copied from the aggregate, NEWS
      and SENTIMENT_AVG. */
  ghost predicate Reached(ws: seq<(string, SValue)>, k: nat, data: Aggregate, symbol: string, kept: bool) {
    |ws| >= k + 5 && ws[k + 3].0 == MarketCap && ws[k + 3].1.Num?
    && (kept ==>
          |ws| == k + 9 && Field(data, symbol, "LATEST_PRICE").Ok?
          && ws[k + 4].0 == "PERCENTAGE_DIFF" && ws[k + 5].0 == "MACD"
          && ws[k + 6] == ("LATEST_PRICE", Copied(Field(data, symbol, "LATEST_PRICE").value))
          && ws[k + 7].0 == "NEWS" && ws[k + 8].0 == "SENTIMENT_AVG")
  }

  lemma ReachedPrefix(ws: seq<(string, SValue)>, pre: seq<(string, SValue)>, k: nat, data: Aggregate, symbol: string, kept: bool)
    requires Reached(ws, k, data, symbol, kept)
    ensures Reached(pre + ws, |pre| + k, data, symbol, kept)
  {
    assert forall i :: 0 <= i < |ws| ==> (pre + ws)[|pre| + i] == ws[i];
  }

  /** A run made of one write followed by a run that reached `calc_dfc`
      reached it one position later. */
  lemma ReachedStep(r: Run, w: (string, SValue), rest: Run, k: nat, data: Aggregate, symbol: string)
    requires r == Run([w] + rest.writes, rest.stop)
    requires !rest.stop.Failed? ==> Reached(rest.writes, k, data, symbol, rest.stop.Kept?)
    ensures !r.stop.Failed? ==> Reached(r.writes, k + 1, data, symbol, r.stop.Kept?)
  {
    if !rest.stop.Failed? {
      ReachedPrefix(rest.writes, [w], k, data, symbol, rest.stop.Kept?);
    }
  }

  lemma AppraisalReached(c: Config, symbol: string, data: Aggregate, periodNumber: nat, wacc: real, flows: seq<real>,
                         terminal: real, macd: Response, news: Result<(SValue, SValue)>)
    ensures var r := Appraisal(c, symbol, data, periodNumber, wacc, flows, terminal, macd, news);
      !r.stop.Failed? ==> Reached(r.writes, 0, data, symbol, r.stop.Kept?)
  {
    SafetyFilter(c, symbol, data, periodNumber, wacc, flows, terminal, macd, news);
  }

  lemma ValuingReached(c: Config, symbol: string, data: Aggregate, periodNumber: nat, flows: seq<real>, wacc: real,
                       macd: Response, news: Result<(SValue, SValue)>)
    ensures var r := Valuing(c, symbol, data, periodNumber, flows, wacc, macd, news);
      !r.stop.Failed? ==> Reached(r.writes, 1, data, symbol, r.stop.Kept?)
  {
    var r := Valuing(c, symbol, data, periodNumber, flows, wacc, macd, news);
    var terminal := TerminalOf(flows, c.perpetualGrowth, wacc);
    if terminal.Ok? {
      var a := Appraisal(c, symbol, data, periodNumber, wacc, flows, terminal.value, macd, news);
      AppraisalReached(c, symbol, data, periodNumber, wacc, flows, terminal.value, macd, news);
      ReachedStep(r, ("TERMINAL_VALUE", Num(terminal.value)), a, 0, data, symbol);
    }
  }

  lemma DiscountingReached(c: Config, symbol: string, data: Aggregate, globalData: map<string, Json>, inputs: Inputs,
                           flows: seq<real>, macd: Response, news: Result<(SValue, SValue)>)
    ensures var r := Discounting(c, symbol, data, globalData, inputs, flows, macd, news);
      !r.stop.Failed? ==> Reached(r.writes, 2, data, symbol, r.stop.Kept?)
  {
    var r := Discounting(c, symbol, data, globalData, inputs, flows, macd, news);
    var wacc := WaccOf(data, symbol, globalData, inputs.totalDebt, c.marketReturnRate);
    if wacc.Ok? {
      var v := Valuing(c, symbol, data, inputs.periodNumber, flows, wacc.value, macd, news);
      ValuingReached(c, symbol, data, inputs.periodNumber, flows, wacc.value, macd, news);
      ReachedStep(r, ("WACC", Num(wacc.value)), v, 1, data, symbol);
    }
  }

  lemma ProjectionReached(c: Config, symbol: string, data: Aggregate, globalData: map<string, Json>, inputs: Inputs,
                          ratio: real, margin: real, growth: real, macd: Response, news: Result<(SValue, SValue)>)
    ensures var r := Projection(c, symbol, data, globalData, inputs, ratio, margin, growth, macd, news);
      !r.stop.Failed? ==> Reached(r.writes, 3, data, symbol, r.stop.Kept?)
  {
    var r := Projection(c, symbol, data, globalData, inputs, ratio, margin, growth, macd, news);
    if inputs.revenue != [] {
      var flows := ProjectedFreeCashFlows(inputs.revenue[0] as real, growth, margin, ratio, 4);
      var d := Discounting(c, symbol, data, globalData, inputs, flows, macd, news);
      DiscountingReached(c, symbol, data, globalData, inputs, flows, macd, news);
      ReachedStep(r, ("PROJECTED_FREE_CASH_FLOWS", Flows(flows)), d, 2, data, symbol);
    }
  }

  lemma ForecastReached(c: Config, symbol: string, data: Aggregate, globalData: map<string, Json>, inputs: Inputs,
                        ratio: real, margin: real, macd: Response, news: Result<(SValue, SValue)>)
    ensures var r := Forecast(c, symbol, data, globalData, inputs, ratio, margin, macd, news);
      !r.stop.Failed? ==> Reached(r.writes, 4, data, symbol, r.stop.Kept?)
  {
    var r := Forecast(c, symbol, data, globalData, inputs, ratio, margin, macd, news);
    var growth := GrowthRate(Reals(inputs.revenue));
    if growth.Ok? {
      var p := Projection(c, symbol, data, globalData, inputs, ratio, margin, growth.value, macd, news);
      ProjectionReached(c, symbol, data, globalData, inputs, ratio, margin, growth.value, macd, news);
      ReachedStep(r, ("EARNINGS_GROWTH_RATE", Num(growth.value)), p, 3, data, symbol);
    } else {
      assert r == Run([], Failed(growth.error));
    }
  }

  lemma AssessmentReached(c: Config, symbol: string, data: Aggregate, globalData: map<string, Json>, inputs: Inputs,
                          ratio: real, macd: Response, news: Result<(SValue, SValue)>)
    ensures var r := Assessment(c, symbol, data, globalData, inputs, ratio, macd, news);
      !r.stop.Failed? ==> Reached(r.writes, 5, data, symbol, r.stop.Kept?)
  {
    var r := Assessment(c, symbol, data, globalData, inputs, ratio, macd, news);
    var margin := MarginOf(inputs.netIncome, inputs.revenue);
    if margin.Ok? {
      var f := Forecast(c, symbol, data, globalData, inputs, ratio, margin.value, macd, news);
      ForecastReached(c, symbol, data, globalData, inputs, ratio, margin.value, macd, news);
      ReachedStep(r, ("NET_INCOME_MARGIN", Num(margin.value)), f, 4, data, symbol);
    } else {
      assert r == Run([], Failed(margin.error));
    }
  }

  /** A run that did not fail wrote the six step fields, then MARKET_CAP
      as a number at position 9; a kept run wrote fifteen fields, the
      aggregate's LATEST_PRICE unchanged at position 12 and no MARKET_CAP
      after position 9. */
  lemma PipelineReached(c: Config, symbol: string, data: Aggregate, globalData: map<string, Json>, inputs: Inputs,
                        macd: Response, news: Result<(SValue, SValue)>)
    ensures var r := Pipeline(c, symbol, data, globalData, inputs, macd, news);
      !r.stop.Failed? ==> Reached(r.writes, 6, data, symbol, r.stop.Kept?)
  {
    var r := Pipeline(c, symbol, data, globalData, inputs, macd, news);
    var ratio := FcfeRatioOf(data, symbol, inputs.netIncome);
    if ratio.Ok? {
      var a := Assessment(c, symbol, data, globalData, inputs, ratio.value, macd, news);
      AssessmentReached(c, symbol, data, globalData, inputs, ratio.value, macd, news);
      ReachedStep(r, ("FCFE_NET_INCOME_RATIO", Num(ratio.value)), a, 5, data, symbol);
    } else {
      assert r == Run([], Failed(ratio.error));
    }
  }

  /** Settling one symbol's run leaves the table a dictionary, leaves
      every other symbol present exactly when it was, with its record
      unchanged, and removes the symbol exactly when the run was dropped
      (a run that wrote something and was not dropped leaves it present). */
  lemma SettleKeepsOthers(t: Table, symbol: string, run: Run)
    requires Valid(t)
    ensures var r := Settle(t, symbol, run);
      Valid(r)
      && (forall s :: s != symbol ==> (s in Symbols(r) <==> s in Symbols(t)) && RecordOf(r, s) == RecordOf(t, s))
      && (run.stop.Dropped? ==> symbol !in Symbols(r))
      && (!run.stop.Dropped? && run.writes != [] ==> symbol in Symbols(r))
  {
    var written := PutAll(t, symbol, run.writes);
    PutAllSpec(t, symbol, run.writes);
    PutAllSymbols(t, symbol, run.writes);
    if run.stop.Dropped? {
      forall s | s != symbol
        ensures RecordOf(Remove(written, symbol), s) == RecordOf(written, s)
      {
        RemoveKeepsOthers(written, symbol, s);
      }
    }
  }

  /** A kept symbol's record holds MARKET_CAP as a number and the
      aggregate's LATEST_PRICE, copied unchanged. */
  lemma KeptRecord(t: Table, c: Config, symbol: string, data: Aggregate, globalData: map<string, Json>, inputs: Inputs,
                   macd: Response, news: Result<(SValue, SValue)>)
    requires Valid(t)
    requires Pipeline(c, symbol, data, globalData, inputs, macd, news).stop.Kept?
    ensures var rec := RecordOf(Settle(t, symbol, Pipeline(c, symbol, data, globalData, inputs, macd, news)), symbol);
      Field(data, symbol, "LATEST_PRICE").Ok?
      && "LATEST_PRICE" in rec && rec["LATEST_PRICE"] == Copied(Field(data, symbol, "LATEST_PRICE").value)
      && MarketCap in rec && rec[MarketCap].Num?
  {
    var run := Pipeline(c, symbol, data, globalData, inputs, macd, news);
    PipelineReached(c, symbol, data, globalData, inputs, macd, news);
    KeptRun(t, symbol, run, data);
  }

  lemma KeptRun(t: Table, symbol: string, run: Run, data: Aggregate)
    requires Valid(t) && run.stop.Kept? && Reached(run.writes, 6, data, symbol, true)
    ensures var rec := RecordOf(Settle(t, symbol, run), symbol);
      Field(data, symbol, "LATEST_PRICE").Ok?
      && "LATEST_PRICE" in rec && rec["LATEST_PRICE"] == Copied(Field(data, symbol, "LATEST_PRICE").value)
      && MarketCap in rec && rec[MarketCap].Num?
  {
    KeptWrites(t, symbol, run.writes, data);
  }

  lemma KeptWrites(t: Table, symbol: string, ws: seq<(string, SValue)>, data: Aggregate)
    requires Valid(t) && Reached(ws, 6, data, symbol, true)
    ensures var rec := RecordOf(PutAll(t, symbol, ws), symbol);
      "LATEST_PRICE" in rec && rec["LATEST_PRICE"] == Copied(Field(data, symbol, "LATEST_PRICE").value)
      && MarketCap in rec && rec[MarketCap].Num?
  {
    PutAllSpec(t, symbol, ws);
    assert forall j :: 12 < j < |ws| ==> ws[j].0 != ws[12].0;
    assert forall j :: 9 < j < |ws| ==> ws[j].0 != ws[9].0;
  }

  /** Every record has a numeric MARKET_CAP. */
  predicate Capped(t: Table) {
    forall i :: 0 <= i < |t| ==> HasNumCap(t[i])
  }

  /** A capped table is left alone by the key pass and can be sorted. */
  lemma CappedSorts(t: Table)
    requires Capped(t)
    ensures FillCap(t) == t && SortByCap(FillCap(t)).Ok?
  {
    FillCapSpec(t);
  }

  /** A record without a numeric MARKET_CAP beside any other record makes
      the sort by MARKET_CAP raise TypeError, whatever the other records
      hold: the key pass gives it `{}`, which compares with nothing. */
  lemma UncappedRecordBlocksSort(t: Table, s: string)
    requires Valid(t) && |t| >= 2 && s in Symbols(t)
    requires !HasNumCap((s, RecordOf(t, s)))
    ensures SortByCap(FillCap(t)) == Raised(TypeError)
  {
    var i := Find(Symbols(t), s).value;
    EntryIsRecord(t, i);
    FillCapSpec(t);
    assert !HasNumCap(FillCap(t)[i]);
  }

  /** Such a record stays through every later call for another symbol:
      it is still there, still without a numeric MARKET_CAP, after the
      run is settled and the key pass has run. */
  lemma UncappedRecordPersists(t: Table, s: string, symbol: string, run: Run)
    requires Valid(t) && s in Symbols(t) && s != symbol
    requires !HasNumCap((s, RecordOf(t, s)))
    ensures var r := Settle(t, symbol, run);
      s in Symbols(r) && !HasNumCap((s, RecordOf(r, s)))
      && s in Symbols(FillCap(r)) && !HasNumCap((s, RecordOf(FillCap(r), s)))
  {
    SettleKeepsOthers(t, symbol, run);
    FillCapRecord(Settle(t, symbol, run), s);
  }

  /** A symbol whose reports cover a single year: the ratio and the margin
      are written, then the growth heuristic raises ValueError, and the
      record of a new symbol is left without MARKET_CAP. */
  lemma SingleYearLeavesPartialRecord(t: Table, c: Config, symbol: string, data: Aggregate, globalData: map<string, Json>,
                                      inputs: Inputs, macd: Response, news: Result<(SValue, SValue)>)
    requires Valid(t) && symbol !in Symbols(t)
    requires FcfeRatioOf(data, symbol, inputs.netIncome).Ok? && MarginOf(inputs.netIncome, inputs.revenue).Ok?
    requires |inputs.revenue| < 2
    ensures var run := Pipeline(c, symbol, data, globalData, inputs, macd, news);
      run == Run([("FCFE_NET_INCOME_RATIO", Num(FcfeRatioOf(data, symbol, inputs.netIncome).value)),
                  ("NET_INCOME_MARGIN", Num(MarginOf(inputs.netIncome, inputs.revenue).value))], Failed(ValueError))
      && symbol in Symbols(Settle(t, symbol, run))
      && !HasNumCap((symbol, RecordOf(Settle(t, symbol, run), symbol)))
  {
    SingleYearRun(c, symbol, data, globalData, inputs, macd, news);
    var run := Pipeline(c, symbol, data, globalData, inputs, macd, news);
    NewSymbolWithoutCap(t, symbol, run.writes[0], run.writes[1]);
    assert run.writes == [run.writes[0], run.writes[1]];
  }

  lemma SingleYearRun(c: Config, symbol: string, data: Aggregate, globalData: map<string, Json>,
                      inputs: Inputs, macd: Response, news: Result<(SValue, SValue)>)
    requires FcfeRatioOf(data, symbol, inputs.netIncome).Ok? && MarginOf(inputs.netIncome, inputs.revenue).Ok?
    requires |inputs.revenue| < 2
    ensures Pipeline(c, symbol, data, globalData, inputs, macd, news)
      == Run([("FCFE_NET_INCOME_RATIO", Num(FcfeRatioOf(data, symbol, inputs.netIncome).value)),
              ("NET_INCOME_MARGIN", Num(MarginOf(inputs.netIncome, inputs.revenue).value))], Failed(ValueError))
  {
    var ratio, margin := FcfeRatioOf(data, symbol, inputs.netIncome), MarginOf(inputs.netIncome, inputs.revenue);
    GrowthRateSpec(Reals(inputs.revenue));
    var f := Forecast(c, symbol, data, globalData, inputs, ratio.value, margin.value, macd, news);
    assert f == Run([], Failed(ValueError));
    var a := Assessment(c, symbol, data, globalData, inputs, ratio.value, macd, news);
    assert a == Run([("NET_INCOME_MARGIN", Num(margin.value))], Failed(ValueError));
  }

  /** A symbol whose overview carries BETA as the string 'None', which the
      aggregator stores because its guard always holds: with the earlier
      reads of `calc_wacc` in order, `float('None')` raises ValueError after
      the ratio, the margin, the growth rate and the projected flows are
      written, and the record of a new symbol is left without MARKET_CAP. */
  lemma NoneBetaLeavesPartialRecord(t: Table, c: Config, symbol: string, data: Aggregate, globalData: map<string, Json>,
                                    inputs: Inputs, macd: Response, news: Result<(SValue, SValue)>)
    requires Valid(t) && symbol !in Symbols(t)
    requires FcfeRatioOf(data, symbol, inputs.netIncome).Ok? && MarginOf(inputs.netIncome, inputs.revenue).Ok?
    requires GrowthRate(Reals(inputs.revenue)).Ok? && inputs.revenue != []
    requires TaxRateOf(data, symbol).Ok? && WeightsOf(data, symbol, inputs.totalDebt).Ok?
    requires "TREASURY_YIELD" in globalData && PyFloat(globalData["TREASURY_YIELD"]).Ok?
    requires Field(data, symbol, "BETA") == Ok(Aggregator.Raw(JStr("None")))
    ensures var run := Pipeline(c, symbol, data, globalData, inputs, macd, news);
      run.stop == Failed(ValueError) && |run.writes| == 4
      && symbol in Symbols(Settle(t, symbol, run))
      && !HasNumCap((symbol, RecordOf(Settle(t, symbol, run), symbol)))
  {
    NoneBetaFailsWacc(data, symbol, globalData, inputs.totalDebt, c.marketReturnRate);
    WaccFailureRun(c, symbol, data, globalData, inputs, macd, news);
    var run := Pipeline(c, symbol, data, globalData, inputs, macd, news);
    StepFieldsNotCap(run.writes);
    NewSymbolUncapped(t, symbol, run.writes);
  }

  /** The fields of the first four steps are not MARKET_CAP. */
  lemma StepFieldsNotCap(ws: seq<(string, SValue)>)
    requires |ws| == 4
    requires ws[0].0 == "FCFE_NET_INCOME_RATIO" && ws[1].0 == "NET_INCOME_MARGIN"
    requires ws[2].0 == "EARNINGS_GROWTH_RATE" && ws[3].0 == "PROJECTED_FREE_CASH_FLOWS"
    ensures forall i :: 0 <= i < |ws| ==> ws[i].0 != MarketCap
  {
    assert ws[0].0[0] != MarketCap[0] && ws[2].0[0] != MarketCap[0] && ws[3].0[0] != MarketCap[0];
    assert ws[1].0[0] != MarketCap[0];
  }

  /** Writes to a new symbol that never name MARKET_CAP create its record
      without one. */
  lemma NewSymbolUncapped(t: Table, symbol: string, ws: seq<(string, SValue)>)
    requires symbol !in Symbols(t) && ws != [] && forall i :: 0 <= i < |ws| ==> ws[i].0 != MarketCap
    ensures symbol in Symbols(PutAll(t, symbol, ws)) && !HasNumCap((symbol, RecordOf(PutAll(t, symbol, ws), symbol)))
  {
    PutAllSymbols(t, symbol, ws);
    PutAllOtherField(t, symbol, ws, MarketCap);
    assert Find(Symbols(t), symbol) == None;
  }

  /** `float('None')` raises ValueError, so a BETA of 'None' makes `calc_wacc`
      raise once the tax rate, the weights and the treasury yield read. */
  lemma NoneBetaFailsWacc(data: Aggregate, symbol: string, globalData: map<string, Json>, totalDebt: int,
                          marketReturnRate: real)
    requires TaxRateOf(data, symbol).Ok? && WeightsOf(data, symbol, totalDebt).Ok?
    requires "TREASURY_YIELD" in globalData && PyFloat(globalData["TREASURY_YIELD"]).Ok?
    requires Field(data, symbol, "BETA") == Ok(Aggregator.Raw(JStr("None")))
    ensures WaccOf(data, symbol, globalData, totalDebt, marketReturnRate) == Raised(ValueError)
  {
    NoneBetaFailsEquityCost(data, symbol, globalData, marketReturnRate);
  }

  lemma NoneBetaFailsEquityCost(data: Aggregate, symbol: string, globalData: map<string, Json>, marketReturnRate: real)
    requires "TREASURY_YIELD" in globalData && PyFloat(globalData["TREASURY_YIELD"]).Ok?
    requires Field(data, symbol, "BETA") == Ok(Aggregator.Raw(JStr("None")))
    ensures EquityCostOf(data, symbol, globalData, marketReturnRate) == Raised(ValueError)
  {
    NoneIsNotAFloat();
  }

  /** `float('None')` raises ValueError. */
  lemma NoneIsNotAFloat()
    ensures PyFloat(JStr("None")) == Raised(ValueError)
  {
    assert ParseDecimal("None") == None by {
      assert DotAt("None") == 4;
      assert !IsDigit("None"[0]);
    }
  }

  /** A run whose `calc_wacc` raises: the first four steps write their
      fields, none of them MARKET_CAP, and the run fails with WACC's error. */
  lemma WaccFailureRun(c: Config, symbol: string, data: Aggregate, globalData: map<string, Json>,
                       inputs: Inputs, macd: Response, news: Result<(SValue, SValue)>)
    requires FcfeRatioOf(data, symbol, inputs.netIncome).Ok? && MarginOf(inputs.netIncome, inputs.revenue).Ok?
    requires GrowthRate(Reals(inputs.revenue)).Ok? && inputs.revenue != []
    requires WaccOf(data, symbol, globalData, inputs.totalDebt, c.marketReturnRate).Raised?
    ensures var run := Pipeline(c, symbol, data, globalData, inputs, macd, news);
      run.stop == Failed(WaccOf(data, symbol, globalData, inputs.totalDebt, c.marketReturnRate).error)
      && |run.writes| == 4
      && run.writes[0].0 == "FCFE_NET_INCOME_RATIO" && run.writes[1].0 == "NET_INCOME_MARGIN"
      && run.writes[2].0 == "EARNINGS_GROWTH_RATE" && run.writes[3].0 == "PROJECTED_FREE_CASH_FLOWS"
  {
    var ratio := FcfeRatioOf(data, symbol, inputs.netIncome).value;
    WaccFailureAssessment(c, symbol, data, globalData, inputs, ratio, macd, news);
  }

  /** The same run from the margin on: three writes, then WACC's error. */
  lemma WaccFailureAssessment(c: Config, symbol: string, data: Aggregate, globalData: map<string, Json>,
                              inputs: Inputs, ratio: real, macd: Response, news: Result<(SValue, SValue)>)
    requires MarginOf(inputs.netIncome, inputs.revenue).Ok?
    requires GrowthRate(Reals(inputs.revenue)).Ok? && inputs.revenue != []
    requires WaccOf(data, symbol, globalData, inputs.totalDebt, c.marketReturnRate).Raised?
    ensures var a := Assessment(c, symbol, data, globalData, inputs, ratio, macd, news);
      a.stop == Failed(WaccOf(data, symbol, globalData, inputs.totalDebt, c.marketReturnRate).error)
      && |a.writes| == 3
      && a.writes[0].0 == "NET_INCOME_MARGIN" && a.writes[1].0 == "EARNINGS_GROWTH_RATE"
      && a.writes[2].0 == "PROJECTED_FREE_CASH_FLOWS"
  {
    var margin := MarginOf(inputs.netIncome, inputs.revenue).value;
    var growth := GrowthRate(Reals(inputs.revenue)).value;
    var wacc := WaccOf(data, symbol, globalData, inputs.totalDebt, c.marketReturnRate);
    var flows := ProjectedFreeCashFlows(inputs.revenue[0] as real, growth, margin, ratio, 4);
    var d := Discounting(c, symbol, data, globalData, inputs, flows, macd, news);
    assert d == Run([], Failed(wacc.error));
    var p := Projection(c, symbol, data, globalData, inputs, ratio, margin, growth, macd, news);
    assert p == Run([("PROJECTED_FREE_CASH_FLOWS", Flows(flows))], Failed(wacc.error));
    var f := Forecast(c, symbol, data, globalData, inputs, ratio, margin, macd, news);
    assert f.writes == [("EARNINGS_GROWTH_RATE", Num(growth)), ("PROJECTED_FREE_CASH_FLOWS", Flows(flows))];
  }

  /** Two writes of other fields to a new symbol create a record without
      MARKET_CAP. */
  lemma NewSymbolWithoutCap(t: Table, symbol: string, a: (string, SValue), b: (string, SValue))
    requires Valid(t) && symbol !in Symbols(t) && a.0 != MarketCap && b.0 != MarketCap
    ensures var r := Settle(t, symbol, Run([a, b], Failed(ValueError)));
      symbol in Symbols(r) && !HasNumCap((symbol, RecordOf(r, symbol)))
  {
    PutAllPair(t, symbol, a, b);
    var t2 := Put(Put(t, symbol, a.0, a.1), symbol, b.0, b.1);
    assert Find(Symbols(t), symbol) == None;
    assert RecordOf(t2, symbol) == map[a.0 := a.1][b.0 := b.1];
  }

  lemma PutAllPair(t: Table, symbol: string, a: (string, SValue), b: (string, SValue))
    ensures PutAll(t, symbol, [a, b]) == Put(Put(t, symbol, a.0, a.1), symbol, b.0, b.1)
  {
    var ws := [a, b];
    PutAllPrefix(t, symbol, ws, 0);
    PutAllPrefix(t, symbol, ws, 1);
    assert ws[..0] == [] && ws[..2] == ws;
  }

  /** The settlement that the per-symbol `try` in `do_calculations`
      suggests: a run that fails leaves the table as it was, so that one
      symbol's failure does not reach the others. */
  function IsolatedSettle(t: Table, symbol: string, run: Run): Table {
    if run.stop.Failed? then t else Settle(t, symbol, run)
  }

  /** With isolated settlement a table whose records all hold a numeric
      MARKET_CAP keeps that property through any run, so the sort by
      MARKET_CAP always succeeds. */
  lemma IsolatedSettleKeepsSortable(t: Table, c: Config, symbol: string, data: Aggregate, globalData: map<string, Json>,
                                    inputs: Inputs, macd: Response, news: Result<(SValue, SValue)>)
    requires Valid(t) && Capped(t)
    ensures var r := IsolatedSettle(t, symbol, Pipeline(c, symbol, data, globalData, inputs, macd, news));
      Valid(r) && Capped(r) && SortByCap(FillCap(r)).Ok?
  {
    var run := Pipeline(c, symbol, data, globalData, inputs, macd, news);
    if run.stop.Kept? {
      KeptRecord(t, c, symbol, data, globalData, inputs, macd, news);
    }
    IsolatedSettleCapped(t, symbol, run);
    CappedSorts(IsolatedSettle(t, symbol, run));
  }

  /** Isolated settlement keeps a table capped whenever a kept run leaves
      a numeric MARKET_CAP in its record. */
  lemma IsolatedSettleCapped(t: Table, symbol: string, run: Run)
    requires Valid(t) && Capped(t)
    requires run.stop.Kept? ==> var rec := RecordOf(Settle(t, symbol, run), symbol); MarketCap in rec && rec[MarketCap].Num?
    ensures Valid(IsolatedSettle(t, symbol, run)) && Capped(IsolatedSettle(t, symbol, run))
  {
    var r := IsolatedSettle(t, symbol, run);
    if !run.stop.Failed? {
      SettleKeepsOthers(t, symbol, run);
      forall i | 0 <= i < |r|
        ensures HasNumCap(r[i])
      {
        EntryIsRecord(r, i);
        if r[i].0 != symbol {
          var j := Find(Symbols(t), r[i].0).value;
          EntryIsRecord(t, j);
          assert HasNumCap(t[j]);
        }
      }
    }
  }
}
