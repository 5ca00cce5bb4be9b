/** The valuation signal engine, class `CalculateSignal` of
    functions/signal_calculator.py: for one symbol it reads the shaped
    statements of the aggregate, derives the DCF figures step by step into
    the symbol's signal record, drops the record unless the DCF clears the
    safety margin, enriches a kept record, and rebuilds the view of all
    records ordered by market capitalisation. The three settings the source
    reads from its database at import are constructor parameters; the MACD
    response and the outcome of the news-feed filter are inputs. */
module SignalCalculator {
  import opened PyCore
  import opened Json
  import opened Columns
  import Aggregator
  import opened Valuation
  import opened SignalTable

  /** The per-symbol aggregate the engine reads: symbol to field to value. */
  type Aggregate = map<Aggregator.Company, map<string, Aggregator.Value>>

  /** MARKET_RETURN_RATE, PERPETUAL_GROWTH_ESTIMATE and SAFETY_MARGIN. */
  datatype Config = Config(marketReturnRate: real, perpetualGrowth: real, safetyMargin: real)

  /** `data[symbol][key]`. */
  function Field(data: Aggregate, symbol: string, key: string): (r: Result<Aggregator.Value>)
    ensures r.Ok? <==> Some(symbol) in data && key in data[Some(symbol)]
    ensures r.Raised? ==> r.error == KeyError
  {
    if Some(symbol) !in data then Raised(KeyError)
    else if key !in data[Some(symbol)] then Raised(KeyError)
    else Ok(data[Some(symbol)][key])
  }

  /** `int(v)` of an aggregate value: a statement is a dictionary. */
  function IntOf(v: Aggregator.Value): Result<int> {
    match v
    case Raw(j) => PyInt(j)
    case Statement(_) => Raised(TypeError)
  }

  /** `float(v)` of an aggregate value. */
  function FloatOf(v: Aggregator.Value): Result<real> {
    match v
    case Raw(j) => PyFloat(j)
    case Statement(_) => Raised(TypeError)
  }

  /** `list(map(int, data[symbol][statement][key]))`: the shaped series,
      already integers. */
  function Series(data: Aggregate, symbol: string, statement: string, key: string): (r: Result<seq<int>>)
    ensures r.Ok? <==>
      Field(data, symbol, statement).Ok? && Field(data, symbol, statement).value.Statement?
      && Get(Field(data, symbol, statement).value.cols, key).Some?
    ensures r.Ok? ==> Get(Field(data, symbol, statement).value.cols, key) == Some(r.value)
  {
    var v :- Field(data, symbol, statement);
    match v
    case Raw(_) => Raised(TypeError)
    case Statement(cols) =>
      match Get(cols, key)
      case Some(xs) => Ok(xs)
      case None => Raised(KeyError)
  }

  /** `xs[0]`: the latest year, reports being most recent first. */
  function Latest(xs: seq<int>): (r: Result<int>)
    ensures r.Raised? <==> xs == []
    ensures r.Raised? ==> r.error == IndexError
    ensures r.Ok? ==> r.value == xs[0]
  {
    if xs == [] then Raised(IndexError) else Ok(xs[0])
  }

  function Reals(xs: seq<int>): (r: seq<real>)
    ensures |r| == |xs|
    ensures forall i :: 0 <= i < |xs| ==> r[i] == xs[i] as real
  {
    seq(|xs|, i requires 0 <= i < |xs| => xs[i] as real)
  }

  /** What lines 78-82 read before the guarded part. */
  datatype Inputs = Inputs(netIncome: seq<int>, revenue: seq<int>, periodNumber: nat, totalDebt: int)

  /** Lines 78-82: the net income and revenue series, their period count,
      and total debt as the latest short-term plus long-term debt. */
  function ReadInputs(data: Aggregate, symbol: string): (r: Result<Inputs>)
    ensures r.Ok? <==>
      Series(data, symbol, "INCOME_STATEMENT", "netIncome").Ok?
      && Series(data, symbol, "INCOME_STATEMENT", "totalRevenue").Ok?
      && Series(data, symbol, "BALANCE_SHEET", "shortTermDebt").Ok?
      && Series(data, symbol, "BALANCE_SHEET", "shortTermDebt").value != []
      && Series(data, symbol, "BALANCE_SHEET", "longTermDebt").Ok?
      && Series(data, symbol, "BALANCE_SHEET", "longTermDebt").value != []
    ensures r.Ok? ==>
      r.value.netIncome == Series(data, symbol, "INCOME_STATEMENT", "netIncome").value
      && r.value.revenue == Series(data, symbol, "INCOME_STATEMENT", "totalRevenue").value
      && r.value.periodNumber == |r.value.netIncome|
      && r.value.totalDebt == Series(data, symbol, "BALANCE_SHEET", "shortTermDebt").value[0]
                              + Series(data, symbol, "BALANCE_SHEET", "longTermDebt").value[0]
  {
    var netIncome :- Series(data, symbol, "INCOME_STATEMENT", "netIncome");
    var revenue :- Series(data, symbol, "INCOME_STATEMENT", "totalRevenue");
    var shortTerm :- Series(data, symbol, "BALANCE_SHEET", "shortTermDebt");
    var shortLatest :- Latest(shortTerm);
    var longTerm :- Series(data, symbol, "BALANCE_SHEET", "longTermDebt");
    var longLatest :- Latest(longTerm);
    Ok(Inputs(netIncome, revenue, |netIncome|, shortLatest + longLatest))
  }

  /** The value `calc_fcfe_net_income_ratio` stores (lines 98-107). */
  function FcfeRatioOf(data: Aggregate, symbol: string, netIncome: seq<int>): Result<real> {
    var cashFlow :- Series(data, symbol, "CASH_FLOW", "operatingCashflow");
    var capex :- Series(data, symbol, "CASH_FLOW", "capitalExpenditures");
    Mean(FcfeRatios(Reals(cashFlow), Reals(capex), Reals(netIncome)))
  }

  /** The value `calc_net_income_margin` stores (lines 110-116). */
  function MarginOf(netIncome: seq<int>, revenue: seq<int>): Result<real> {
    Min(Margins(Reals(netIncome), Reals(revenue)))
  }

  /** `calc_effective_tax_rate` (lines 134-140), reading the latest year. */
  function TaxRateOf(data: Aggregate, symbol: string): Result<real> {
    var beforeTax :- Series(data, symbol, "INCOME_STATEMENT", "incomeBeforeTax");
    var beforeTaxLatest :- Latest(beforeTax);
    var tax :- Series(data, symbol, "INCOME_STATEMENT", "incomeTaxExpense");
    var taxLatest :- Latest(tax);
    EffectiveTaxRate(beforeTaxLatest, taxLatest)
  }

  /** `calc_debt_and_equity_weights` (lines 156-160). */
  function WeightsOf(data: Aggregate, symbol: string, totalDebt: int): Result<(real, real)> {
    var cap :- Field(data, symbol, "MARKET_CAPITALIZATION");
    var marketCap :- IntOf(cap);
    Weights(totalDebt, marketCap)
  }

  /** `calc_equity_cost` (lines 146-154). */
  function EquityCostOf(data: Aggregate, symbol: string, globalData: map<string, Json>, marketReturnRate: real): Result<real> {
    var yieldJson :- if "TREASURY_YIELD" in globalData then Ok(globalData["TREASURY_YIELD"]) else Raised(KeyError);
    var treasuryYield :- PyFloat(yieldJson);
    var betaValue :- Field(data, symbol, "BETA");
    var beta :- FloatOf(betaValue);
    Ok(EquityCost(treasuryYield, beta, marketReturnRate))
  }

  /** `calc_debt_cost_wacc` (lines 142-144). */
  function DebtCostOf(data: Aggregate, symbol: string, totalDebt: int): Result<real> {
    var interest :- Series(data, symbol, "INCOME_STATEMENT", "interestExpense");
    var interestLatest :- Latest(interest);
    Ok(DebtCost(interestLatest as real, totalDebt as real))
  }

  /** The value `calc_wacc` stores (lines 162-171), its parts read in the
      source's order. */
  function WaccOf(data: Aggregate, symbol: string, globalData: map<string, Json>, totalDebt: int, marketReturnRate: real): Result<real> {
    var taxRate :- TaxRateOf(data, symbol);
    var weights :- WeightsOf(data, symbol, totalDebt);
    var equityCost :- EquityCostOf(data, symbol, globalData, marketReturnRate);
    var debtCost :- DebtCostOf(data, symbol, totalDebt);
    Ok(Wacc(weights.0, debtCost, taxRate, weights.1, equityCost))
  }

  /** `self.signals[symbol]['PROJECTED_FREE_CASH_FLOWS'][-1]` used by
      `calc_terminal_value` (lines 173-180). */
  function TerminalOf(flows: seq<real>, perpetualGrowth: real, wacc: real): Result<real> {
    if flows == [] then Raised(IndexError)
    else TerminalValue(flows[|flows| - 1], perpetualGrowth, wacc)
  }

  /** `get_MACD` once the response is in (lines 213-221): `{}` for a failed
      or empty response, else its "Technical Analysis: MACD" part. */
  function MacdOf(response: Response): (r: Result<Json>)
    ensures response.status != 200 ==> r == Ok(JObj([]))
    ensures response.status == 200 && r.Raised? ==> r.error == TypeError || r.error == KeyError
  {
    if response.status != 200 then Ok(JObj([]))
    else
      var n :- Len(response.body);
      if n == 0 then Ok(JObj([])) else Lookup(response.body, "Technical Analysis: MACD")
  }

  /** `get_news` once the response is in (lines 226-255). `filtered` stands
      for lines 233-245: the feed lookup, the relevance filter and the
      rounded mean of the matching sentiment scores, as the feed list and
      the average or the exception they raise. */
  function NewsOf(response: Response, filtered: Result<(Json, real)>): (r: Result<(SValue, SValue)>)
    ensures response.status != 200 ==> r == Ok((EmptyDict, EmptyDict))
  {
    if response.status != 200 then Ok((EmptyDict, EmptyDict))
    else
      var n :- Len(response.body);
      if n == 0 then Ok((EmptyDict, EmptyDict))
      else
        var feed :- filtered;
        Ok((Data(feed.0), Num(feed.1)))
  }

  /** The unrounded figures `calc_dfc` compares with the safety margin. */
  datatype Appraised = Appraised(dcf: real, marketCap: int, pct: real)

  /** Lines 183-196: the DCF over the discount factors of `WACC + 1`, the
      market capitalisation, and the relative difference between them. */
  function Appraise(data: Aggregate, symbol: string, periodNumber: nat, wacc: real, flows: seq<real>, terminal: real): (r: Result<Appraised>)
    ensures r.Ok? ==>
      r.value.marketCap != 0
      && DiscountedSum(wacc + 1.0, periodNumber, flows, terminal) == Ok(r.value.dcf)
      && r.value.pct == r.value.dcf / r.value.marketCap as real - 1.0
  {
    var dcf :- DiscountedSum(wacc + 1.0, periodNumber, flows, terminal);
    var cap :- Field(data, symbol, "MARKET_CAPITALIZATION");
    var marketCap :- IntOf(cap);
    if marketCap == 0 then Raised(ZeroDivisionError)
    else Ok(Appraised(dcf, marketCap, dcf / marketCap as real - 1.0))
  }

  /** `float(data[symbol]['SHARES_OUTSTANDING'])` as a divisor (line 198). */
  function SharesOf(data: Aggregate, symbol: string): (r: Result<real>)
    ensures r.Ok? ==> r.value != 0.0
  {
    var v :- Field(data, symbol, "SHARES_OUTSTANDING");
    var shares :- FloatOf(v);
    if shares == 0.0 then Raised(ZeroDivisionError) else Ok(shares)
  }

  /** How a run for one symbol ended. */
  datatype Stop = Failed(error: PyError) | Dropped | Kept

  /** The fields a run wrote into the symbol's record, in order, and how
      it ended. */
  datatype Run = Run(writes: seq<(string, SValue)>, stop: Stop)

  /** The DCF write of line 197: in billions, rounded. */
  function DcfWrite(a: Appraised): (string, SValue) {
    ("DCF", Num(Round2(a.dcf / 1000000000.0)))
  }

  /** The display figures of lines 198-201 after DCF: per share, the
      difference, the market capitalisation and the percentage difference,
      in billions or percent and rounded. */
  function DisplayWrites(a: Appraised, shares: real): seq<(string, SValue)>
    requires shares != 0.0
  {
    [("DCF_PRICE_PER_SHARE", Num(Round2(a.dcf / shares))),
     ("DIFF", Num(Round2((a.dcf - a.marketCap as real) / 1000000000.0))),
     (MarketCap, Num(Round2(a.marketCap as real / 1000000000.0))),
     ("PERCENTAGE_DIFF", Num(Round2(a.pct * 100.0)))]
  }

  /** The enrichment of a kept record (lines 206-208): MACD, the
      aggregate's LATEST_PRICE copied unchanged, then the news. */
  function Enrichment(symbol: string, data: Aggregate, macd: Response, news: Result<(SValue, SValue)>): (r: Run)
    ensures !r.stop.Dropped?
    ensures r.stop.Kept? <==> MacdOf(macd).Ok? && Field(data, symbol, "LATEST_PRICE").Ok? && news.Ok?
    ensures r.stop.Kept? ==> r.writes == [("MACD", Data(MacdOf(macd).value)),
                                          ("LATEST_PRICE", Copied(Field(data, symbol, "LATEST_PRICE").value)),
                                          ("NEWS", news.value.0), ("SENTIMENT_AVG", news.value.1)]
  {
    var m := MacdOf(macd);
    if m.Raised? then Run([], Failed(m.error)) else
    var w1 := [("MACD", Data(m.value))];
    var price := Field(data, symbol, "LATEST_PRICE");
    if price.Raised? then Run(w1, Failed(price.error)) else
    var w2 := w1 + [("LATEST_PRICE", Copied(price.value))];
    if news.Raised? then Run(w2, Failed(news.error)) else
    Run(w2 + [("NEWS", news.value.0), ("SENTIMENT_AVG", news.value.1)], Kept)
  }

  /** `calc_dfc` (lines 182-208): the display figures are written, then
      the record is dropped unless the unrounded difference is strictly
      above the safety margin, and a kept record is enriched. */
  function Appraisal(c: Config, symbol: string, data: Aggregate, periodNumber: nat, wacc: real, flows: seq<real>,
                     terminal: real, macd: Response, news: Result<(SValue, SValue)>): Run
  {
    var a := Appraise(data, symbol, periodNumber, wacc, flows, terminal);
    if a.Raised? then Run([], Failed(a.error)) else
    var rest := Screening(c, symbol, data, a.value, macd, news);
    Run([DcfWrite(a.value)] + rest.writes, rest.stop)
  }

  /** Lines 197-208, once DCF is in: the share count, the display figures,
      then the safety filter and, for a kept record, the enrichment. */
  function Screening(c: Config, symbol: string, data: Aggregate, av: Appraised, macd: Response,
                     news: Result<(SValue, SValue)>): Run
  {
    var shares := SharesOf(data, symbol);
    if shares.Raised? then Run([], Failed(shares.error)) else
    var w := DisplayWrites(av, shares.value);
    if !(av.pct > c.safetyMargin) then Run(w, Dropped) else
    var e := Enrichment(symbol, data, macd, news);
    Run(w + e.writes, e.stop)
  }

  /** The safety filter: a run is dropped exactly when the DCF figures and
      the share count are there and the unrounded difference is not
      strictly above the margin; a kept run cleared the margin and ends
      with MARKET_CAP written as a number, LATEST_PRICE copied unchanged
      from the aggregate, and the news. */
  lemma SafetyFilter(c: Config, symbol: string, data: Aggregate, periodNumber: nat, wacc: real, flows: seq<real>,
                     terminal: real, macd: Response, news: Result<(SValue, SValue)>)
    ensures var r := Appraisal(c, symbol, data, periodNumber, wacc, flows, terminal, macd, news);
      var a, s := Appraise(data, symbol, periodNumber, wacc, flows, terminal), SharesOf(data, symbol);
      (r.stop.Dropped? <==> a.Ok? && s.Ok? && !(a.value.pct > c.safetyMargin))
      && (r.stop.Kept? ==> a.Ok? && s.Ok? && a.value.pct > c.safetyMargin)
      && (!r.stop.Failed? ==> |r.writes| >= 5 && r.writes[3] == (MarketCap, Num(Round2(a.value.marketCap as real / 1000000000.0))))
      && (r.stop.Kept? ==>
            |r.writes| == 9 && Field(data, symbol, "LATEST_PRICE").Ok?
            && r.writes[6] == ("LATEST_PRICE", Copied(Field(data, symbol, "LATEST_PRICE").value))
            && r.writes[7].0 == "NEWS" && r.writes[8].0 == "SENTIMENT_AVG" && r.writes[5].0 == "MACD")
  {
    var a := Appraise(data, symbol, periodNumber, wacc, flows, terminal);
    if a.Ok? {
      ScreeningShape(c, symbol, data, a.value, macd, news);
      var rest := Screening(c, symbol, data, a.value, macd, news);
      var r := Run([DcfWrite(a.value)] + rest.writes, rest.stop);
      assert Appraisal(c, symbol, data, periodNumber, wacc, flows, terminal, macd, news) == r;
      assert forall i :: 0 <= i < |rest.writes| ==> r.writes[i + 1] == rest.writes[i];
    }
  }

  /** What follows the DCF write: the share count decides failure, the
      margin decides dropping, and the display figures come first. */
  lemma ScreeningShape(c: Config, symbol: string, data: Aggregate, av: Appraised, macd: Response,
                       news: Result<(SValue, SValue)>)
    ensures var r, s := Screening(c, symbol, data, av, macd, news), SharesOf(data, symbol);
      (r.stop.Dropped? <==> s.Ok? && !(av.pct > c.safetyMargin))
      && (r.stop.Kept? ==> s.Ok? && av.pct > c.safetyMargin)
      && (!r.stop.Failed? ==> |r.writes| >= 4 && r.writes[2] == (MarketCap, Num(Round2(av.marketCap as real / 1000000000.0))))
      && (r.stop.Kept? ==>
            |r.writes| == 8 && Field(data, symbol, "LATEST_PRICE").Ok?
            && r.writes[5] == ("LATEST_PRICE", Copied(Field(data, symbol, "LATEST_PRICE").value))
            && r.writes[6].0 == "NEWS" && r.writes[7].0 == "SENTIMENT_AVG" && r.writes[4].0 == "MACD")
  {
    var s := SharesOf(data, symbol);
    if s.Ok? {
      var w := DisplayWrites(av, s.value);
      assert w[2] == (MarketCap, Num(Round2(av.marketCap as real / 1000000000.0)));
    }
  }

  /** The guarded part of `do_calculations` (lines 84-91) up to the sort:
      each step's field is written once its value is computed, and the
      first exception ends the run with the earlier fields in place. */
  function Pipeline(c: Config, symbol: string, data: Aggregate, globalData: map<string, Json>, inputs: Inputs,
                    macd: Response, news: Result<(SValue, SValue)>): Run
  {
    var ratio := FcfeRatioOf(data, symbol, inputs.netIncome);
    if ratio.Raised? then Run([], Failed(ratio.error)) else
    var rest := Assessment(c, symbol, data, globalData, inputs, ratio.value, macd, news);
    Run([("FCFE_NET_INCOME_RATIO", Num(ratio.value))] + rest.writes, rest.stop)
  }

  /** Lines 86-91, once the ratio is in: the margin, then the forecast. */
  function Assessment(c: Config, symbol: string, data: Aggregate, globalData: map<string, Json>, inputs: Inputs,
                      ratio: real, macd: Response, news: Result<(SValue, SValue)>): Run
  {
    var margin := MarginOf(inputs.netIncome, inputs.revenue);
    if margin.Raised? then Run([], Failed(margin.error)) else
    var rest := Forecast(c, symbol, data, globalData, inputs, ratio, margin.value, macd, news);
    Run([("NET_INCOME_MARGIN", Num(margin.value))] + rest.writes, rest.stop)
  }

  /** Lines 87-91, once the ratio and the margin are in: the growth rate,
      then the projection. */
  function Forecast(c: Config, symbol: string, data: Aggregate, globalData: map<string, Json>, inputs: Inputs,
                    ratio: real, margin: real, macd: Response, news: Result<(SValue, SValue)>): Run
  {
    var growth := GrowthRate(Reals(inputs.revenue));
    if growth.Raised? then Run([], Failed(growth.error)) else
    var rest := Projection(c, symbol, data, globalData, inputs, ratio, margin, growth.value, macd, news);
    Run([("EARNINGS_GROWTH_RATE", Num(growth.value))] + rest.writes, rest.stop)
  }

  /** Lines 88-91, once the ratio, the margin and the growth rate are in:
      the four projected flows, then the discounting. */
  function Projection(c: Config, symbol: string, data: Aggregate, globalData: map<string, Json>, inputs: Inputs,
                      ratio: real, margin: real, growth: real, macd: Response, news: Result<(SValue, SValue)>): Run
  {
    if inputs.revenue == [] then Run([], Failed(IndexError)) else
    var flows := ProjectedFreeCashFlows(inputs.revenue[0] as real, growth, margin, ratio, 4);
    var rest := Discounting(c, symbol, data, globalData, inputs, flows, macd, news);
    Run([("PROJECTED_FREE_CASH_FLOWS", Flows(flows))] + rest.writes, rest.stop)
  }

  /** Lines 89-91, once the projected flows are in: WACC, then the
      terminal value and `calc_dfc`. */
  function Discounting(c: Config, symbol: string, data: Aggregate, globalData: map<string, Json>, inputs: Inputs,
                       flows: seq<real>, macd: Response, news: Result<(SValue, SValue)>): Run
  {
    var wacc := WaccOf(data, symbol, globalData, inputs.totalDebt, c.marketReturnRate);
    if wacc.Raised? then Run([], Failed(wacc.error)) else
    var rest := Valuing(c, symbol, data, inputs.periodNumber, flows, wacc.value, macd, news);
    Run([("WACC", Num(wacc.value))] + rest.writes, rest.stop)
  }

  /** Lines 90-91, once WACC is in: the terminal value, then `calc_dfc`. */
  function Valuing(c: Config, symbol: string, data: Aggregate, periodNumber: nat, flows: seq<real>, wacc: real,
                   macd: Response, news: Result<(SValue, SValue)>): Run
  {
    var terminal := TerminalOf(flows, c.perpetualGrowth, wacc);
    if terminal.Raised? then Run([], Failed(terminal.error)) else
    var rest := Appraisal(c, symbol, data, periodNumber, wacc, flows, terminal.value, macd, news);
    Run([("TERMINAL_VALUE", Num(terminal.value))] + rest.writes, rest.stop)
  }

  /** The table once a run's writes are in and a dropped record deleted. */
  function Settle(t: Table, symbol: string, run: Run): Table {
    var written := PutAll(t, symbol, run.writes);
    if run.stop.Dropped? then Remove(written, symbol) else written
  }

  /** Settling a run that begins with the writes `w` is settling the rest
      of it once `w` is in. */
  lemma SettleAfter(t: Table, symbol: string, w: seq<(string, SValue)>, rest: Run)
    ensures Settle(t, symbol, Run(w + rest.writes, rest.stop)) == Settle(PutAll(t, symbol, w), symbol, rest)
  {
    PutAllConcat(t, symbol, w, rest.writes);
  }

  /** `self.signals[symbol][field] = value` where computing the value may
      raise: the outcome, and the table afterwards. */
  function Assign(t: Table, symbol: string, field: string, value: Result<SValue>): (Outcome, Table) {
    match value
    case Ok(v) => (Returned, Put(t, symbol, field, v))
    case Raised(e) => (Propagated(e), t)
  }

  function AsNum(r: Result<real>): Result<SValue> {
    match r
    case Ok(x) => Ok(Num(x))
    case Raised(e) => Raised(e)
  }

  /** The field holds a number. */
  predicate NumField(t: Table, symbol: string, field: string) {
    field in RecordOf(t, symbol) && RecordOf(t, symbol)[field].Num?
  }

  /** `sortedSignals` after a sort: replaced on success, kept on TypeError. */
  function Resorted(view: map<string, Table>, category: string, sorted: Result<Table>): map<string, Table> {
    if sorted.Ok? then view[category := sorted.value] else view
  }

  class CalculateSignal {
    var signals: Table
    var sortedSignals: map<string, Table>
    const config: Config

    /** `signals` is a dictionary, and every view in `sortedSignals` is
        ordered by MARKET_CAP. */
    ghost predicate Valid()
      reads this
    {
      SignalTable.Valid(signals) && forall c :: c in sortedSignals ==> SortedByCap(sortedSignals[c])
    }

    /** `__init__` (lines 62-65); the API key is not modelled. */
    constructor (config: Config)
      ensures Valid()
      ensures signals == [] && sortedSignals == map[] && this.config == config
    {
      signals := [];
      sortedSignals := map[];
      this.config := config;
    }

    /** `get_signal` (lines 67-68). */
    method GetSignal() returns (t: Table)
      ensures t == signals
    {
      t := signals;
    }

    /** `get_sorted_dict` (lines 70-71): KeyError until a sort has
        succeeded; the view it returns is ordered by MARKET_CAP. */
    method GetSortedDict() returns (r: Result<Table>)
      requires Valid()
      ensures MarketCap !in sortedSignals ==> r == Raised(KeyError)
      ensures MarketCap in sortedSignals ==> r == Ok(sortedSignals[MarketCap]) && SortedByCap(r.value)
    {
      if MarketCap in sortedSignals {
        r := Ok(sortedSignals[MarketCap]);
      } else {
        r := Raised(KeyError);
      }
    }

    /** `add_sorted_dict_by_category` (lines 73-75): the key pass gives
        every record a MARKET_CAP, `{}` where it had none, and stays even
        when the comparison then raises TypeError. */
    method AddSortedDictByCategory(category: string) returns (outcome: Outcome)
      requires Valid()
      modifies this`signals, this`sortedSignals
      ensures Valid()
      ensures signals == FillCap(old(signals))
      ensures sortedSignals == Resorted(old(sortedSignals), category, SortByCap(signals))
      ensures outcome == if SortByCap(signals).Ok? then Returned else Propagated(TypeError)
    {
      signals := FillCap(signals);
      var sorted := SortByCap(signals);
      if sorted.Raised? {
        return Propagated(sorted.error);
      }
      sortedSignals := sortedSignals[category := sorted.value];
      outcome := Returned;
    }

    /** `calc_fcfe_net_income_ratio` (lines 98-107). */
    method CalcFcfeNetIncomeRatio(symbol: string, data: Aggregate, netIncome: seq<int>) returns (outcome: Outcome)
      modifies this`signals
      ensures (outcome, signals) == Assign(old(signals), symbol, "FCFE_NET_INCOME_RATIO", AsNum(FcfeRatioOf(data, symbol, netIncome)))
    {
      var ratio := FcfeRatioOf(data, symbol, netIncome);
      if ratio.Raised? {
        return Propagated(ratio.error);
      }
      signals := Put(signals, symbol, "FCFE_NET_INCOME_RATIO", Num(ratio.value));
      outcome := Returned;
    }

    /** `calc_net_income_margin` (lines 110-116). */
    method CalcNetIncomeMargin(symbol: string, netIncome: seq<int>, revenue: seq<int>) returns (outcome: Outcome)
      modifies this`signals
      ensures (outcome, signals) == Assign(old(signals), symbol, "NET_INCOME_MARGIN", AsNum(MarginOf(netIncome, revenue)))
    {
      var margin := MarginOf(netIncome, revenue);
      if margin.Raised? {
        return Propagated(margin.error);
      }
      signals := Put(signals, symbol, "NET_INCOME_MARGIN", Num(margin.value));
      outcome := Returned;
    }

    /** `calc_earnings_growth` (lines 118-119). */
    method CalcEarningsGrowth(symbol: string, revenue: seq<int>) returns (outcome: Outcome)
      modifies this`signals
      ensures (outcome, signals) == Assign(old(signals), symbol, "EARNINGS_GROWTH_RATE", AsNum(GrowthRate(Reals(revenue))))
    {
      var growth := CalculatePercentageDifference(Reals(revenue));
      if growth.Raised? {
        return Propagated(growth.error);
      }
      signals := Put(signals, symbol, "EARNINGS_GROWTH_RATE", Num(growth.value));
      outcome := Returned;
    }

    /** `calc_projected_free_cash_flow` (lines 121-132), reading the three
        figures the earlier steps stored. */
    method CalcProjectedFreeCashFlow(symbol: string, revenue: seq<int>, period: nat) returns (outcome: Outcome)
      requires NumField(signals, symbol, "EARNINGS_GROWTH_RATE") && NumField(signals, symbol, "NET_INCOME_MARGIN")
      requires NumField(signals, symbol, "FCFE_NET_INCOME_RATIO")
      modifies this`signals
      ensures var rec := RecordOf(old(signals), symbol);
        (outcome, signals) == Assign(old(signals), symbol, "PROJECTED_FREE_CASH_FLOWS",
          if revenue == [] then Raised(IndexError)
          else Ok(Flows(ProjectedFreeCashFlows(revenue[0] as real, rec["EARNINGS_GROWTH_RATE"].x,
                                               rec["NET_INCOME_MARGIN"].x, rec["FCFE_NET_INCOME_RATIO"].x, period))))
    {
      var rec := RecordOf(signals, symbol);
      if revenue == [] {
        return Propagated(IndexError);
      }
      var projectedRevenue := CalculateGrowth(revenue[0] as real, rec["EARNINGS_GROWTH_RATE"].x, period);
      var projectedNetIncome := seq(period, n requires 0 <= n < period => rec["NET_INCOME_MARGIN"].x * projectedRevenue[n]);
      var flows := seq(period, n requires 0 <= n < period => rec["FCFE_NET_INCOME_RATIO"].x * projectedNetIncome[n]);
      ghost var expected := ProjectedFreeCashFlows(revenue[0] as real, rec["EARNINGS_GROWTH_RATE"].x,
                                                   rec["NET_INCOME_MARGIN"].x, rec["FCFE_NET_INCOME_RATIO"].x, period);
      forall n | 0 <= n < period
        ensures flows[n] == expected[n]
      {
        assert projectedNetIncome[n] == rec["NET_INCOME_MARGIN"].x * projectedRevenue[n];
      }
      assert flows == expected;
      signals := Put(signals, symbol, "PROJECTED_FREE_CASH_FLOWS", Flows(flows));
      outcome := Returned;
    }

    /** `calc_wacc` (lines 162-171). */
    method CalcWacc(data: Aggregate, symbol: string, globalData: map<string, Json>, totalDebt: int) returns (outcome: Outcome)
      modifies this`signals
      ensures (outcome, signals) == Assign(old(signals), symbol, "WACC", AsNum(WaccOf(data, symbol, globalData, totalDebt, config.marketReturnRate)))
    {
      var wacc := WaccOf(data, symbol, globalData, totalDebt, config.marketReturnRate);
      if wacc.Raised? {
        return Propagated(wacc.error);
      }
      signals := Put(signals, symbol, "WACC", Num(wacc.value));
      outcome := Returned;
    }

    /** `calc_terminal_value` (lines 173-180). */
    method CalcTerminalValue(symbol: string) returns (outcome: Outcome)
      requires "PROJECTED_FREE_CASH_FLOWS" in RecordOf(signals, symbol) && RecordOf(signals, symbol)["PROJECTED_FREE_CASH_FLOWS"].Flows?
      requires NumField(signals, symbol, "WACC")
      modifies this`signals
      ensures var rec := RecordOf(old(signals), symbol);
        (outcome, signals) == Assign(old(signals), symbol, "TERMINAL_VALUE",
          AsNum(TerminalOf(rec["PROJECTED_FREE_CASH_FLOWS"].xs, config.perpetualGrowth, rec["WACC"].x)))
    {
      var rec := RecordOf(signals, symbol);
      var terminal := TerminalOf(rec["PROJECTED_FREE_CASH_FLOWS"].xs, config.perpetualGrowth, rec["WACC"].x);
      if terminal.Raised? {
        return Propagated(terminal.error);
      }
      signals := Put(signals, symbol, "TERMINAL_VALUE", Num(terminal.value));
      outcome := Returned;
    }

    /** `get_MACD` (lines 210-221) once the response is in. */
    method GetMacd(symbol: string, response: Response) returns (outcome: Outcome)
      modifies this`signals
      ensures (outcome, signals) == Assign(old(signals), symbol, "MACD",
        match MacdOf(response) case Ok(j) => Ok(Data(j)) case Raised(e) => Raised(e))
    {
      var macd := MacdOf(response);
      if macd.Raised? {
        return Propagated(macd.error);
      }
      signals := Put(signals, symbol, "MACD", Data(macd.value));
      outcome := Returned;
    }

    /** `get_news` (lines 223-255) once the response is in and the feed
        filtered: NEWS, then SENTIMENT_AVG. */
    method GetNews(symbol: string, news: Result<(SValue, SValue)>) returns (outcome: Outcome)
      modifies this`signals
      ensures news.Raised? ==> outcome == Propagated(news.error) && signals == old(signals)
      ensures news.Ok? ==>
        outcome == Returned
        && signals == PutAll(old(signals), symbol, [("NEWS", news.value.0), ("SENTIMENT_AVG", news.value.1)])
    {
      if news.Raised? {
        return Propagated(news.error);
      }
      ghost var t0 := signals;
      signals := Put(signals, symbol, "NEWS", news.value.0);
      signals := Put(signals, symbol, "SENTIMENT_AVG", news.value.1);
      outcome := Returned;
      PutAllSnoc(t0, symbol, [], "NEWS", news.value.0);
      PutAllSnoc(t0, symbol, [("NEWS", news.value.0)], "SENTIMENT_AVG", news.value.1);
    }

    /** Lines 206-208: MACD, LATEST_PRICE, news, stopping at the first
        exception. */
    method Enrich(symbol: string, data: Aggregate, macd: Response, news: Result<(SValue, SValue)>) returns (outcome: Outcome)
      modifies this`signals
      ensures var e := Enrichment(symbol, data, macd, news);
        signals == PutAll(old(signals), symbol, e.writes)
        && outcome == if e.stop.Failed? then Propagated(e.stop.error) else Returned
    {
      ghost var t0 := signals;
      outcome := GetMacd(symbol, macd);
      if outcome.Propagated? {
        return;
      }
      ghost var w := [("MACD", Data(MacdOf(macd).value))];
      PutAllSnoc(t0, symbol, [], "MACD", Data(MacdOf(macd).value));
      var price := Field(data, symbol, "LATEST_PRICE");
      if price.Raised? {
        return Propagated(price.error);
      }
      signals := Put(signals, symbol, "LATEST_PRICE", Copied(price.value));
      PutAllSnoc(t0, symbol, w, "LATEST_PRICE", Copied(price.value));
      w := w + [("LATEST_PRICE", Copied(price.value))];
      ghost var t1 := signals;
      outcome := GetNews(symbol, news);
      if news.Ok? {
        PutAllConcat(t0, symbol, w, [("NEWS", news.value.0), ("SENTIMENT_AVG", news.value.1)]);
      }
    }

    /** `calc_dfc` (lines 182-208), reading WACC, the projected flows and
        the terminal value from the record. */
    method CalcDfc(symbol: string, periodNumber: nat, data: Aggregate, macd: Response, news: Result<(SValue, SValue)>)
      returns (outcome: Outcome)
      requires NumField(signals, symbol, "WACC") && NumField(signals, symbol, "TERMINAL_VALUE")
      requires "PROJECTED_FREE_CASH_FLOWS" in RecordOf(signals, symbol) && RecordOf(signals, symbol)["PROJECTED_FREE_CASH_FLOWS"].Flows?
      modifies this`signals
      ensures var rec := RecordOf(old(signals), symbol);
        var run := Appraisal(config, symbol, data, periodNumber, rec["WACC"].x, rec["PROJECTED_FREE_CASH_FLOWS"].xs,
                             rec["TERMINAL_VALUE"].x, macd, news);
        signals == Settle(old(signals), symbol, run)
        && outcome == if run.stop.Failed? then Propagated(run.stop.error) else Returned
    {
      var rec := RecordOf(signals, symbol);
      outcome := ValueAndScreen(symbol, periodNumber, data, rec["WACC"].x, rec["PROJECTED_FREE_CASH_FLOWS"].xs,
                                rec["TERMINAL_VALUE"].x, macd, news);
    }

    /** The body of `calc_dfc` (lines 183-208) once WACC, the projected
        flows and the terminal value have been read from the record. */
    method ValueAndScreen(symbol: string, periodNumber: nat, data: Aggregate, wacc: real, flows: seq<real>, terminal: real,
                          macd: Response, news: Result<(SValue, SValue)>) returns (outcome: Outcome)
      modifies this`signals
      ensures var run := Appraisal(config, symbol, data, periodNumber, wacc, flows, terminal, macd, news);
        signals == Settle(old(signals), symbol, run)
        && outcome == if run.stop.Failed? then Propagated(run.stop.error) else Returned
    {
      var a := Appraise(data, symbol, periodNumber, wacc, flows, terminal);
      ghost var run := Appraisal(config, symbol, data, periodNumber, wacc, flows, terminal, macd, news);
      if a.Raised? {
        assert run == Run([], Failed(a.error));
        return Propagated(a.error);
      }
      ghost var t0 := signals;
      var w := DcfWrite(a.value);
      signals := Put(signals, symbol, w.0, w.1);
      PutAllSingle(t0, symbol, w.0, w.1);
      ghost var rest := Screening(config, symbol, data, a.value, macd, news);
      assert run == Run([w] + rest.writes, rest.stop);
      outcome := Screen(symbol, data, a.value, macd, news);
      SettleAfter(t0, symbol, [w], rest);
    }

    /** Lines 197-208: the share count, the display figures, the safety
        filter and the enrichment of a kept record. */
    method Screen(symbol: string, data: Aggregate, av: Appraised, macd: Response, news: Result<(SValue, SValue)>)
      returns (outcome: Outcome)
      modifies this`signals
      ensures var run := Screening(config, symbol, data, av, macd, news);
        signals == Settle(old(signals), symbol, run)
        && outcome == if run.stop.Failed? then Propagated(run.stop.error) else Returned
    {
      ghost var t0 := signals;
      ghost var run := Screening(config, symbol, data, av, macd, news);
      var shares := SharesOf(data, symbol);
      if shares.Raised? {
        assert run == Run([], Failed(shares.error));
        return Propagated(shares.error);
      }
      var display := DisplayWrites(av, shares.value);
      WriteAll(symbol, display);
      if !(av.pct > config.safetyMargin) {
        assert run == Run(display, Dropped);
        var deleted := Delete(signals, symbol);
        signals := deleted.value;
        return Returned;
      }
      ghost var e := Enrichment(symbol, data, macd, news);
      assert run == Run(display + e.writes, e.stop);
      outcome := Enrich(symbol, data, macd, news);
      SettleAfter(t0, symbol, display, e);
    }

    /** Lines 84-91: the steps, each writing its field once its value is
        computed, the first exception ending the run. */
    method RunSteps(symbol: string, data: Aggregate, globalData: map<string, Json>, inputs: Inputs,
                    macd: Response, news: Result<(SValue, SValue)>) returns (outcome: Outcome)
      modifies this`signals
      ensures var run := Pipeline(config, symbol, data, globalData, inputs, macd, news);
        signals == Settle(old(signals), symbol, run)
        && outcome == if run.stop.Failed? then Propagated(run.stop.error) else Returned
    {
      ghost var t0 := signals;
      ghost var run := Pipeline(config, symbol, data, globalData, inputs, macd, news);
      ghost var ratio := FcfeRatioOf(data, symbol, inputs.netIncome);
      outcome := CalcFcfeNetIncomeRatio(symbol, data, inputs.netIncome);
      if outcome.Propagated? {
        assert run == Run([], Failed(ratio.error));
        return;
      }
      ghost var w := ("FCFE_NET_INCOME_RATIO", Num(ratio.value));
      PutAllSingle(t0, symbol, w.0, w.1);
      ghost var rest := Assessment(config, symbol, data, globalData, inputs, ratio.value, macd, news);
      assert run == Run([w] + rest.writes, rest.stop);
      outcome := RunAssessment(symbol, data, globalData, inputs, macd, news);
      SettleAfter(t0, symbol, [w], rest);
    }

    /** Lines 86-91, reading the ratio stored before. */
    method RunAssessment(symbol: string, data: Aggregate, globalData: map<string, Json>, inputs: Inputs,
                         macd: Response, news: Result<(SValue, SValue)>) returns (outcome: Outcome)
      requires NumField(signals, symbol, "FCFE_NET_INCOME_RATIO")
      modifies this`signals
      ensures var run := Assessment(config, symbol, data, globalData, inputs,
                                    RecordOf(old(signals), symbol)["FCFE_NET_INCOME_RATIO"].x, macd, news);
        signals == Settle(old(signals), symbol, run)
        && outcome == if run.stop.Failed? then Propagated(run.stop.error) else Returned
    {
      ghost var t0 := signals;
      ghost var rec0 := RecordOf(signals, symbol);
      ghost var ratio := rec0["FCFE_NET_INCOME_RATIO"].x;
      ghost var run := Assessment(config, symbol, data, globalData, inputs, ratio, macd, news);
      ghost var margin := MarginOf(inputs.netIncome, inputs.revenue);
      outcome := CalcNetIncomeMargin(symbol, inputs.netIncome, inputs.revenue);
      if outcome.Propagated? {
        assert run == Run([], Failed(margin.error));
        return;
      }
      ghost var w := ("NET_INCOME_MARGIN", Num(margin.value));
      PutAllSingle(t0, symbol, w.0, w.1);
      assert RecordOf(signals, symbol) == rec0[w.0 := w.1];
      ghost var rest := Forecast(config, symbol, data, globalData, inputs, ratio, margin.value, macd, news);
      assert run == Run([w] + rest.writes, rest.stop);
      outcome := RunForecast(symbol, data, globalData, inputs, macd, news);
      SettleAfter(t0, symbol, [w], rest);
    }

    /** Lines 87-91, reading the ratio and the margin stored before. */
    method RunForecast(symbol: string, data: Aggregate, globalData: map<string, Json>, inputs: Inputs,
                       macd: Response, news: Result<(SValue, SValue)>) returns (outcome: Outcome)
      requires NumField(signals, symbol, "NET_INCOME_MARGIN") && NumField(signals, symbol, "FCFE_NET_INCOME_RATIO")
      modifies this`signals
      ensures var rec := RecordOf(old(signals), symbol);
        var run := Forecast(config, symbol, data, globalData, inputs, rec["FCFE_NET_INCOME_RATIO"].x,
                            rec["NET_INCOME_MARGIN"].x, macd, news);
        signals == Settle(old(signals), symbol, run)
        && outcome == if run.stop.Failed? then Propagated(run.stop.error) else Returned
    {
      ghost var t0 := signals;
      ghost var rec0 := RecordOf(signals, symbol);
      ghost var ratio, margin := rec0["FCFE_NET_INCOME_RATIO"].x, rec0["NET_INCOME_MARGIN"].x;
      ghost var run := Forecast(config, symbol, data, globalData, inputs, ratio, margin, macd, news);
      ghost var growth := GrowthRate(Reals(inputs.revenue));
      outcome := CalcEarningsGrowth(symbol, inputs.revenue);
      if outcome.Propagated? {
        assert run == Run([], Failed(growth.error));
        return;
      }
      ghost var w := ("EARNINGS_GROWTH_RATE", Num(growth.value));
      PutAllSingle(t0, symbol, w.0, w.1);
      assert RecordOf(signals, symbol) == rec0[w.0 := w.1];
      ghost var rest := Projection(config, symbol, data, globalData, inputs, ratio, margin, growth.value, macd, news);
      assert run == Run([w] + rest.writes, rest.stop);
      outcome := RunProjection(symbol, data, globalData, inputs, macd, news);
      SettleAfter(t0, symbol, [w], rest);
    }

    /** Lines 88-91, reading the ratio, the margin and the growth rate the
        earlier steps stored. */
    method RunProjection(symbol: string, data: Aggregate, globalData: map<string, Json>, inputs: Inputs,
                         macd: Response, news: Result<(SValue, SValue)>) returns (outcome: Outcome)
      requires NumField(signals, symbol, "EARNINGS_GROWTH_RATE") && NumField(signals, symbol, "NET_INCOME_MARGIN")
      requires NumField(signals, symbol, "FCFE_NET_INCOME_RATIO")
      modifies this`signals
      ensures var rec := RecordOf(old(signals), symbol);
        var run := Projection(config, symbol, data, globalData, inputs, rec["FCFE_NET_INCOME_RATIO"].x,
                              rec["NET_INCOME_MARGIN"].x, rec["EARNINGS_GROWTH_RATE"].x, macd, news);
        signals == Settle(old(signals), symbol, run)
        && outcome == if run.stop.Failed? then Propagated(run.stop.error) else Returned
    {
      ghost var t0 := signals;
      ghost var rec := RecordOf(signals, symbol);
      ghost var ratio, margin, growth := rec["FCFE_NET_INCOME_RATIO"].x, rec["NET_INCOME_MARGIN"].x, rec["EARNINGS_GROWTH_RATE"].x;
      ghost var run := Projection(config, symbol, data, globalData, inputs, ratio, margin, growth, macd, news);
      outcome := CalcProjectedFreeCashFlow(symbol, inputs.revenue, 4);
      if outcome.Propagated? {
        assert run == Run([], Failed(IndexError));
        return;
      }
      ghost var flows := ProjectedFreeCashFlows(inputs.revenue[0] as real, growth, margin, ratio, 4);
      ghost var w := ("PROJECTED_FREE_CASH_FLOWS", Flows(flows));
      PutAllSingle(t0, symbol, w.0, w.1);
      assert RecordOf(signals, symbol) == rec[w.0 := w.1];
      ghost var rest := Discounting(config, symbol, data, globalData, inputs, flows, macd, news);
      assert run == Run([w] + rest.writes, rest.stop);
      outcome := RunDiscounting(symbol, data, globalData, inputs, macd, news);
      SettleAfter(t0, symbol, [w], rest);
    }

    /** Lines 89-91, reading the projected flows stored before. */
    method RunDiscounting(symbol: string, data: Aggregate, globalData: map<string, Json>, inputs: Inputs,
                          macd: Response, news: Result<(SValue, SValue)>) returns (outcome: Outcome)
      requires "PROJECTED_FREE_CASH_FLOWS" in RecordOf(signals, symbol) && RecordOf(signals, symbol)["PROJECTED_FREE_CASH_FLOWS"].Flows?
      modifies this`signals
      ensures var run := Discounting(config, symbol, data, globalData, inputs,
                                     RecordOf(old(signals), symbol)["PROJECTED_FREE_CASH_FLOWS"].xs, macd, news);
        signals == Settle(old(signals), symbol, run)
        && outcome == if run.stop.Failed? then Propagated(run.stop.error) else Returned
    {
      ghost var t0 := signals;
      ghost var rec0 := RecordOf(signals, symbol);
      ghost var flows := rec0["PROJECTED_FREE_CASH_FLOWS"].xs;
      ghost var run := Discounting(config, symbol, data, globalData, inputs, flows, macd, news);
      ghost var wacc := WaccOf(data, symbol, globalData, inputs.totalDebt, config.marketReturnRate);
      outcome := CalcWacc(data, symbol, globalData, inputs.totalDebt);
      if outcome.Propagated? {
        assert run == Run([], Failed(wacc.error));
        return;
      }
      ghost var w := ("WACC", Num(wacc.value));
      PutAllSingle(t0, symbol, w.0, w.1);
      assert RecordOf(signals, symbol) == rec0[w.0 := w.1];
      ghost var rest := Valuing(config, symbol, data, inputs.periodNumber, flows, wacc.value, macd, news);
      assert run == Run([w] + rest.writes, rest.stop);
      outcome := RunValuing(symbol, data, inputs.periodNumber, macd, news);
      SettleAfter(t0, symbol, [w], rest);
    }

    /** Lines 90-91, reading the projected flows and WACC stored before. */
    method RunValuing(symbol: string, data: Aggregate, periodNumber: nat, macd: Response, news: Result<(SValue, SValue)>)
      returns (outcome: Outcome)
      requires "PROJECTED_FREE_CASH_FLOWS" in RecordOf(signals, symbol) && RecordOf(signals, symbol)["PROJECTED_FREE_CASH_FLOWS"].Flows?
      requires NumField(signals, symbol, "WACC")
      modifies this`signals
      ensures var rec := RecordOf(old(signals), symbol);
        var run := Valuing(config, symbol, data, periodNumber, rec["PROJECTED_FREE_CASH_FLOWS"].xs, rec["WACC"].x, macd, news);
        signals == Settle(old(signals), symbol, run)
        && outcome == if run.stop.Failed? then Propagated(run.stop.error) else Returned
    {
      ghost var t0 := signals;
      ghost var rec0 := RecordOf(signals, symbol);
      ghost var flows, wacc := rec0["PROJECTED_FREE_CASH_FLOWS"].xs, rec0["WACC"].x;
      ghost var run := Valuing(config, symbol, data, periodNumber, flows, wacc, macd, news);
      ghost var terminal := TerminalOf(flows, config.perpetualGrowth, wacc);
      outcome := CalcTerminalValue(symbol);
      if outcome.Propagated? {
        assert run == Run([], Failed(terminal.error));
        return;
      }
      ghost var w := ("TERMINAL_VALUE", Num(terminal.value));
      PutAllSingle(t0, symbol, w.0, w.1);
      assert RecordOf(signals, symbol) == rec0[w.0 := w.1];
      ghost var rest := Appraisal(config, symbol, data, periodNumber, wacc, flows, terminal.value, macd, news);
      assert run == Run([w] + rest.writes, rest.stop);
      outcome := CalcDfc(symbol, periodNumber, data, macd, news);
      SettleAfter(t0, symbol, [w], rest);
    }

    /** `do_calculations` (lines 77-95). Reading the inputs (lines 78-82)
        is outside the guard and propagates its exception with nothing
        changed. Inside it, an exception from any step ends the call
        normally, the fields written so far staying in place and the
        sorted view untouched; otherwise the record is settled (kept or
        deleted) and the table re-sorted by MARKET_CAP, whose TypeError
        the guard also swallows. */
    method DoCalculations(symbol: string, data: Aggregate, globalData: map<string, Json>,
                          macd: Response, news: Result<(SValue, SValue)>) returns (outcome: Outcome)
      requires Valid()
      modifies this`signals, this`sortedSignals
      ensures Valid()
      ensures ReadInputs(data, symbol).Raised? ==>
        outcome == Propagated(ReadInputs(data, symbol).error)
        && signals == old(signals) && sortedSignals == old(sortedSignals)
      ensures ReadInputs(data, symbol).Ok? ==>
        var run := Pipeline(config, symbol, data, globalData, ReadInputs(data, symbol).value, macd, news);
        outcome == Returned
        && (run.stop.Failed? ==>
              signals == Settle(old(signals), symbol, run) && sortedSignals == old(sortedSignals))
        && (!run.stop.Failed? ==>
              signals == FillCap(Settle(old(signals), symbol, run))
              && sortedSignals == Resorted(old(sortedSignals), MarketCap, SortByCap(signals)))
    {
      var inputs := ReadInputs(data, symbol);
      if inputs.Raised? {
        return Propagated(inputs.error);
      }
      ghost var t0 := signals;
      var steps := RunSteps(symbol, data, globalData, inputs.value, macd, news);
      ghost var run := Pipeline(config, symbol, data, globalData, inputs.value, macd, news);
      PutAllSpec(t0, symbol, run.writes);
      if steps.Propagated? {
        return Returned;
      }
      var sorted := AddSortedDictByCategory(MarketCap);
      outcome := Returned;
    }

    /** The assignments of `ws` to the symbol's record, one after another. */
    method WriteAll(symbol: string, ws: seq<(string, SValue)>)
      modifies this`signals
      ensures signals == PutAll(old(signals), symbol, ws)
    {
      for k := 0 to |ws|
        invariant signals == PutAll(old(signals), symbol, ws[..k])
      {
        PutAllPrefix(old(signals), symbol, ws, k);
        signals := Put(signals, symbol, ws[k].0, ws[k].1);
      }
      assert ws[..|ws|] == ws;
    }
  }
}
