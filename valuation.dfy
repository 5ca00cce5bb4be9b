/** The arithmetic of the discounted-cash-flow valuation
    (functions/signal_calculator.py): the module-level helpers and the
    formulas each `calc_*` step applies. Money and rates are exact reals;
    every Python `/` that can divide by zero, and every `min`, `max` or
    mean of a possibly empty list, is a Result. */
module Valuation {
  import opened PyCore

  /** `safe_division(x, y, default)` (lines 18-23). */
  function SafeDivision(x: real, y: real, default: real): (r: real)
    ensures y == 0.0 ==> r == default
    ensures y != 0.0 ==> r * y == x
  {
    if y == 0.0 then default else x / y
  }

  function Sum(s: seq<real>): real {
    if s == [] then 0.0 else Sum(s[..|s| - 1]) + s[|s| - 1]
  }

  /** `min(s)`. */
  function Min(s: seq<real>): (r: Result<real>)
    ensures r.Raised? <==> s == []
    ensures r.Raised? ==> r.error == ValueError
    ensures r.Ok? ==> r.value in s && forall i :: 0 <= i < |s| ==> r.value <= s[i]
  {
    if s == [] then Raised(ValueError)
    else if |s| == 1 then Ok(s[0])
    else
      var m := Min(s[..|s| - 1]).value;
      assert forall i :: 0 <= i < |s| - 1 ==> s[..|s| - 1][i] == s[i];
      Ok(if s[|s| - 1] < m then s[|s| - 1] else m)
  }

  /** `max(s)`. */
  function Max(s: seq<real>): (r: Result<real>)
    ensures r.Raised? <==> s == []
    ensures r.Raised? ==> r.error == ValueError
    ensures r.Ok? ==> r.value in s && forall i :: 0 <= i < |s| ==> s[i] <= r.value
  {
    if s == [] then Raised(ValueError)
    else if |s| == 1 then Ok(s[0])
    else
      var m := Max(s[..|s| - 1]).value;
      assert forall i :: 0 <= i < |s| - 1 ==> s[..|s| - 1][i] == s[i];
      Ok(if s[|s| - 1] > m then s[|s| - 1] else m)
  }

  /** `sum(s) / len(s)`. */
  function Mean(s: seq<real>): (r: Result<real>)
    ensures r.Raised? <==> s == []
    ensures r.Raised? ==> r.error == ZeroDivisionError
    ensures r.Ok? ==> r.value * |s| as real == Sum(s)
  {
    if s == [] then Raised(ZeroDivisionError) else Ok(Sum(s) / |s| as real)
  }

  lemma {:induction false} SumBounds(s: seq<real>, lo: real, hi: real)
    requires forall i :: 0 <= i < |s| ==> lo <= s[i] <= hi
    ensures |s| as real * lo <= Sum(s) <= |s| as real * hi
  {
    if s != [] {
      var pre := s[..|s| - 1];
      assert forall i :: 0 <= i < |pre| ==> pre[i] == s[i];
      SumBounds(pre, lo, hi);
      assert |s| as real * lo == |pre| as real * lo + lo;
      assert |s| as real * hi == |pre| as real * hi + hi;
    }
  }

  /** The mean of a list lies between its minimum and its maximum. */
  lemma MeanBetweenMinMax(s: seq<real>)
    requires s != []
    ensures Min(s).value <= Mean(s).value <= Max(s).value
  {
    MeanBounds(s, Min(s).value, Max(s).value);
  }

  /** The mean of values that all lie between two bounds lies between them. */
  lemma MeanBounds(s: seq<real>, lo: real, hi: real)
    requires s != [] && forall i :: 0 <= i < |s| ==> lo <= s[i] <= hi
    ensures lo <= Mean(s).value <= hi
  {
    SumBounds(s, lo, hi);
    ScaledBetween(Mean(s).value, |s| as real, lo, hi, Sum(s));
  }

  lemma ScaledBetween(m: real, n: real, lo: real, hi: real, total: real)
    requires n > 0.0 && m * n == total && n * lo <= total <= n * hi
    ensures lo <= m <= hi
  {
    assert (m - lo) * n >= 0.0;
    assert (hi - m) * n >= 0.0;
  }

  /** The change from each value to the next, relative to the first of the
      pair, in stored order. */
  function PeriodChanges(a: seq<real>): (r: seq<real>)
    ensures |r| == if a == [] then 0 else |a| - 1
  {
    if |a| < 2 then [] else seq(|a| - 1, i requires 0 <= i < |a| - 1 => SafeDivision(a[i + 1] - a[i], a[i], 0.0))
  }

  /** The growth heuristic of `calculate_percentage_difference`: the mean
      change (safely divided by the count), or when that is not positive
      the best single change floored at 0; `max` of no changes raises. */
  function GrowthRate(a: seq<real>): Result<real> {
    var changes := PeriodChanges(a);
    var average := SafeDivision(Sum(changes), |changes| as real, 0.0);
    if average <= 0.0 then
      var best :- Max(changes);
      Ok(if best < 0.0 then 0.0 else best)
    else Ok(average)
  }

  /** The heuristic raises exactly for fewer than two values; otherwise it
      is never negative, is the mean change when that is positive and the
      best change floored at 0 otherwise, and never exceeds the best change
      floored at 0. */
  lemma GrowthRateSpec(a: seq<real>)
    ensures GrowthRate(a).Raised? <==> |a| < 2
    ensures GrowthRate(a).Raised? ==> GrowthRate(a).error == ValueError
    ensures |a| >= 2 ==>
      var changes, r := PeriodChanges(a), GrowthRate(a).value;
      var best := Max(changes).value;
      r >= 0.0
      && (Mean(changes).value > 0.0 ==> r == Mean(changes).value)
      && (Mean(changes).value <= 0.0 ==> r == if best < 0.0 then 0.0 else best)
      && r <= (if best < 0.0 then 0.0 else best)
  {
    var changes := PeriodChanges(a);
    if |a| >= 2 {
      MeanBetweenMinMax(changes);
    }
  }

  /** Revenue that rose every year gives a rate of 0. The series is stored
      newest first, so rising revenue is a stored series that falls at
      every step: each change the heuristic sees is negative, so is their
      mean, and the best of them is floored at 0. */
  lemma GrowthOfRisingRevenue(a: seq<real>)
    requires |a| >= 2
    requires forall i :: 0 <= i < |a| ==> 0.0 < a[i]
    requires forall i, j :: 0 <= i < j < |a| ==> a[j] < a[i]
    ensures GrowthRate(a) == Ok(0.0)
  {
    var changes := PeriodChanges(a);
    FallingChangesNegative(a);
    MaxNegative(changes);
    MeanBetweenMinMax(changes);
    GrowthRateSpec(a);
  }

  /** Each change of a positive series that falls at every step is negative. */
  lemma FallingChangesNegative(a: seq<real>)
    requires |a| >= 2
    requires forall i :: 0 <= i < |a| ==> 0.0 < a[i]
    requires forall i, j :: 0 <= i < j < |a| ==> a[j] < a[i]
    ensures forall i :: 0 <= i < |PeriodChanges(a)| ==> PeriodChanges(a)[i] < 0.0
  {
    forall i | 0 <= i < |a| - 1
      ensures PeriodChanges(a)[i] < 0.0
    {
      assert a[i + 1] < a[i] && 0.0 < a[i];
      ChangeAt(a, i);
      NegativeRatio(a[i + 1] - a[i], a[i]);
    }
  }

  /** The change at index `i` compares the entries at `i` and `i + 1`. */
  lemma ChangeAt(a: seq<real>, i: nat)
    requires i + 1 < |a|
    ensures PeriodChanges(a)[i] == SafeDivision(a[i + 1] - a[i], a[i], 0.0)
  {
  }

  /** A negative amount over a positive one is negative. */
  lemma NegativeRatio(x: real, y: real)
    requires x < 0.0 < y
    ensures SafeDivision(x, y, 0.0) < 0.0
  {
    var m := SafeDivision(x, y, 0.0);
    assert m * y == x;
  }

  /** The best of changes that are all negative is negative. */
  lemma MaxNegative(changes: seq<real>)
    requires changes != [] && forall i :: 0 <= i < |changes| ==> changes[i] < 0.0
    ensures Max(changes).value < 0.0
  {
    var m := Max(changes).value;
    assert m in changes;
  }

  /** `calculate_percentage_difference` (lines 27-44): the loop collects the
      changes, then the heuristic is applied. */
  method CalculatePercentageDifference(a: seq<real>) returns (r: Result<real>)
    ensures r == GrowthRate(a)
  {
    var changes: seq<real> := [];
    var i := 0;
    while i < |a| - 1
      invariant 0 <= i <= (if a == [] then 0 else |a| - 1)
      invariant |changes| == i
      invariant forall k :: 0 <= k < i ==> changes[k] == SafeDivision(a[k + 1] - a[k], a[k], 0.0)
    {
      changes := changes + [SafeDivision(a[i + 1] - a[i], a[i], 0.0)];
      i := i + 1;
    }
    assert changes == PeriodChanges(a);
    var average := SafeDivision(Sum(changes), |changes| as real, 0.0);
    if average <= 0.0 {
      var best := Max(changes);
      if best.Raised? {
        return Raised(best.error);
      }
      if best.value < 0.0 {
        return Ok(0.0);
      }
      return Ok(best.value);
    }
    return Ok(average);
  }

  /** `x ** n`: a power of a non-zero base is non-zero, and of a positive
      base positive. */
  function Pow(x: real, n: nat): (r: real)
    ensures x != 0.0 ==> r != 0.0
    ensures x > 0.0 ==> r > 0.0
  {
    if n == 0 then 1.0 else x * Pow(x, n - 1)
  }

  /** `calculate_growth(v, rate, periods)` (lines 47-48): value n (from 1)
      is `v * (1 + rate) ** n`. */
  function CalculateGrowth(v: real, rate: real, periods: nat): (r: seq<real>)
    ensures |r| == periods
  {
    seq(periods, n requires 0 <= n < periods => v * Pow(1.0 + rate, n + 1))
  }

  /** Compound growth: the first value is one step from `v`, and each next
      value is the previous one grown once more. */
  lemma GrowthCompounds(v: real, rate: real, periods: nat)
    ensures periods > 0 ==> CalculateGrowth(v, rate, periods)[0] == v * (1.0 + rate)
    ensures forall n :: 0 <= n < periods - 1 ==>
      CalculateGrowth(v, rate, periods)[n + 1] == CalculateGrowth(v, rate, periods)[n] * (1.0 + rate)
  {
    var r := CalculateGrowth(v, rate, periods);
    assert Pow(1.0 + rate, 1) == 1.0 + rate;
    forall n | 0 <= n < periods - 1
      ensures r[n + 1] == r[n] * (1.0 + rate)
    {
      calc {
        r[n + 1];
        v * Pow(1.0 + rate, n + 2);
        v * ((1.0 + rate) * Pow(1.0 + rate, n + 1));
        (v * Pow(1.0 + rate, n + 1)) * (1.0 + rate);
      }
    }
  }

  /** The discount factors of `generate_interest_rates(m, t)`: `m ** (k+1)`
      for the first `max(t, 1)` periods, then the last one again for the
      terminal value. */
  function InterestRates(m: real, t: nat): (r: seq<real>)
    ensures |r| == (if t < 1 then 1 else t) + 1
  {
    var n := if t < 1 then 1 else t;
    seq(n + 1, k requires 0 <= k <= n => if k < n then Pow(m, k + 1) else Pow(m, n))
  }

  /** `generate_interest_rates` (lines 51-58). */
  method GenerateInterestRates(m: real, t: nat) returns (rates: seq<real>)
    ensures rates == InterestRates(m, t)
  {
    rates := [m];
    var i := 1;
    while i < t
      invariant 1 <= i <= (if t < 1 then 1 else t)
      invariant |rates| == i
      invariant forall k :: 0 <= k < i ==> rates[k] == Pow(m, k + 1)
    {
      rates := rates + [rates[|rates| - 1] * m];
      i := i + 1;
    }
    rates := rates + [rates[|rates| - 1]];
    assert forall k :: 0 <= k < |rates| ==> rates[k] == InterestRates(m, t)[k];
  }

  /** For at least one period: one factor per period, each the previous
      times `m`, and the terminal factor repeating the last one; for zero
      periods, `[m, m]`. */
  lemma InterestRatesShape(m: real, t: nat)
    ensures t == 0 ==> InterestRates(m, t) == [m, m]
    ensures t >= 1 ==>
      var r := InterestRates(m, t);
      |r| == t + 1 && r[0] == m && r[t] == r[t - 1]
      && forall k :: 0 <= k < t - 1 ==> r[k + 1] == r[k] * m
  {
    assert Pow(m, 1) == m;
    var r := InterestRates(m, t);
    forall k | 0 <= k < t - 1
      ensures r[k + 1] == r[k] * m
    {
      assert r[k + 1] == Pow(m, k + 2) == m * Pow(m, k + 1);
    }
    if t == 0 {
      var r := InterestRates(m, t);
      assert r[0] == m && r[1] == m;
    }
  }

  /** With a positive multiplier every factor is positive, so discounting
      never divides by zero. */
  lemma InterestRatesPositive(m: real, t: nat)
    requires m > 0.0
    ensures forall k :: 0 <= k < |InterestRates(m, t)| ==> InterestRates(m, t)[k] > 0.0
  {
    var r := InterestRates(m, t);
    forall k | 0 <= k < |r|
      ensures r[k] > 0.0
    {
      var n := if t < 1 then 1 else t;
    }
  }

  /** Per-year FCFE / net income ratios over the zip of the three series
      (line 103-105): as many as the shortest series. */
  function FcfeRatios(cashFlow: seq<real>, capex: seq<real>, netIncome: seq<real>): (r: seq<real>)
  {
    var n := if |cashFlow| <= |capex| && |cashFlow| <= |netIncome| then |cashFlow|
             else if |capex| <= |netIncome| then |capex| else |netIncome|;
    seq(n, i requires 0 <= i < n => SafeDivision(cashFlow[i] - capex[i], netIncome[i], 0.0))
  }

  /** The ratios are as many as the shortest series, and each times its
      year's net income gives back that year's free cash flow (0 for a
      year without net income). */
  lemma FcfeRatiosSpec(cashFlow: seq<real>, capex: seq<real>, netIncome: seq<real>)
    ensures var r := FcfeRatios(cashFlow, capex, netIncome);
      |r| <= |cashFlow| && |r| <= |capex| && |r| <= |netIncome|
      && (|r| == |cashFlow| || |r| == |capex| || |r| == |netIncome|)
      && forall i :: 0 <= i < |r| ==>
           (netIncome[i] != 0.0 ==> r[i] * netIncome[i] == cashFlow[i] - capex[i])
           && (netIncome[i] == 0.0 ==> r[i] == 0.0)
  {
  }

  /** Per-year net income margins over the zip of the two series (lines 112-114). */
  function Margins(netIncome: seq<real>, revenue: seq<real>): (r: seq<real>)
  {
    var n := if |netIncome| <= |revenue| then |netIncome| else |revenue|;
    seq(n, i requires 0 <= i < n => SafeDivision(netIncome[i], revenue[i], 0.0))
  }

  lemma MarginsSpec(netIncome: seq<real>, revenue: seq<real>)
    ensures var r := Margins(netIncome, revenue);
      |r| == (if |netIncome| <= |revenue| then |netIncome| else |revenue|)
      && forall i :: 0 <= i < |r| ==>
           (revenue[i] != 0.0 ==> r[i] * revenue[i] == netIncome[i])
           && (revenue[i] == 0.0 ==> r[i] == 0.0)
  {
  }

  /** The projected free cash flows of `calc_projected_free_cash_flow`
      (lines 124-132): projected revenue, times the margin, times the ratio. */
  function ProjectedFreeCashFlows(revenue0: real, growth: real, margin: real, ratio: real, periods: nat): (r: seq<real>)
    ensures |r| == periods
  {
    var revenue := CalculateGrowth(revenue0, growth, periods);
    seq(periods, n requires 0 <= n < periods => ratio * (margin * revenue[n]))
  }

  /** Each projected flow is the compounded revenue scaled by margin and ratio. */
  lemma ProjectedFlowIsScaledRevenue(revenue0: real, growth: real, margin: real, ratio: real, periods: nat, n: nat)
    requires n < periods
    ensures ProjectedFreeCashFlows(revenue0, growth, margin, ratio, periods)[n]
      == revenue0 * Pow(1.0 + growth, n + 1) * margin * ratio
  {
  }

  /** `calc_effective_tax_rate` (lines 134-140) on the latest year's figures. */
  function EffectiveTaxRate(incomeBeforeTax: int, incomeTaxExpense: int): (r: Result<real>)
    ensures incomeTaxExpense <= 0 ==> r == Ok(0.0)
    ensures incomeTaxExpense > 0 && incomeBeforeTax == 0 ==> r == Raised(ZeroDivisionError)
    ensures incomeTaxExpense > 0 && incomeBeforeTax != 0 ==>
      r.Ok? && r.value > 0.0
      && r.value * (if incomeBeforeTax < 0 then -incomeBeforeTax else incomeBeforeTax) as real == incomeTaxExpense as real
  {
    if incomeTaxExpense <= 0 then Ok(0.0)
    else if incomeBeforeTax == 0 then Raised(ZeroDivisionError)
    else
      var q := incomeTaxExpense as real / incomeBeforeTax as real;
      Ok(if q < 0.0 then -q else q)
  }

  /** `calc_debt_cost_wacc` (lines 142-144). */
  function DebtCost(interestExpense: real, totalDebt: real): real {
    SafeDivision(interestExpense, totalDebt, 0.0)
  }

  /** `calc_equity_cost` (lines 146-154): CAPM with the treasury yield
      given in percent. */
  function EquityCost(treasuryYield: real, beta: real, marketReturnRate: real): real {
    var riskFree := treasuryYield * 0.01;
    riskFree + beta * (marketReturnRate - riskFree)
  }

  /** A stock moving with the market costs the market return; one
      uncorrelated with it costs the risk-free rate. */
  lemma EquityCostAnchors(treasuryYield: real, marketReturnRate: real)
    ensures EquityCost(treasuryYield, 1.0, marketReturnRate) == marketReturnRate
    ensures EquityCost(treasuryYield, 0.0, marketReturnRate) == treasuryYield * 0.01
  {
  }

  /** `calc_debt_and_equity_weights` (lines 156-160). */
  function Weights(totalDebt: int, marketCap: int): (r: Result<(real, real)>)
    ensures r.Raised? <==> totalDebt + marketCap == 0
    ensures r.Raised? ==> r.error == ZeroDivisionError
    ensures r.Ok? ==>
      r.value.0 + r.value.1 == 1.0
      && r.value.0 * (totalDebt + marketCap) as real == totalDebt as real
      && r.value.1 * (totalDebt + marketCap) as real == marketCap as real
  {
    var total := totalDebt + marketCap;
    if total == 0 then Raised(ZeroDivisionError)
    else Ok((totalDebt as real / total as real, marketCap as real / total as real))
  }

  /** The WACC formula of `calc_wacc` (line 169). */
  function Wacc(debtWeight: real, debtCost: real, taxRate: real, equityWeight: real, equityCost: real): real {
    debtWeight * debtCost * (1.0 - taxRate) + equityWeight * equityCost
  }

  /** With weights that are shares of a whole, the WACC lies between the
      after-tax cost of debt and the cost of equity. */
  lemma WaccBetweenCosts(debtWeight: real, debtCost: real, taxRate: real, equityWeight: real, equityCost: real)
    requires 0.0 <= debtWeight && 0.0 <= equityWeight && debtWeight + equityWeight == 1.0
    ensures var afterTax := debtCost * (1.0 - taxRate);
      var w := Wacc(debtWeight, debtCost, taxRate, equityWeight, equityCost);
      (afterTax <= equityCost ==> afterTax <= w <= equityCost)
      && (equityCost <= afterTax ==> equityCost <= w <= afterTax)
  {
    var afterTax := debtCost * (1.0 - taxRate);
    var spread := equityCost - afterTax;
    var w := Wacc(debtWeight, debtCost, taxRate, equityWeight, equityCost);
    assert w == debtWeight * afterTax + equityWeight * equityCost;
    assert w == afterTax + equityWeight * spread;
    assert w == equityCost - debtWeight * spread;
    ScaledSign(equityWeight, spread);
    ScaledSign(debtWeight, spread);
  }

  lemma ScaledSign(a: real, b: real)
    requires a >= 0.0
    ensures b >= 0.0 ==> a * b >= 0.0
    ensures b <= 0.0 ==> a * b <= 0.0
  {
  }

  /** `calc_terminal_value` (lines 173-180): the Gordon-growth value of the
      last projected flow, set to 0 when negative. */
  function TerminalValue(lastFlow: real, growth: real, wacc: real): Result<real> {
    if wacc == growth then Raised(ZeroDivisionError)
    else
      var tv := lastFlow * (1.0 + growth) / (wacc - growth);
      Ok(if tv < 0.0 then 0.0 else tv)
  }

  /** The terminal value raises exactly when WACC equals the growth rate;
      otherwise it is never negative, keeps the Gordon value when that is
      not negative, and its Gordon value times the spread gives the grown
      last flow back. */
  lemma TerminalValueSpec(lastFlow: real, growth: real, wacc: real)
    ensures TerminalValue(lastFlow, growth, wacc).Raised? <==> wacc == growth
    ensures wacc != growth ==>
      var r := TerminalValue(lastFlow, growth, wacc).value;
      var gordon := lastFlow * (1.0 + growth) / (wacc - growth);
      r >= 0.0
      && (gordon >= 0.0 ==> r == gordon)
      && (gordon < 0.0 ==> r == 0.0)
      && gordon * (wacc - growth) == lastFlow * (1.0 + growth)
  {
  }

  /** Spread and grown flow of the same sign give a positive value kept as
      is; of opposite signs the value is 0. */
  lemma TerminalValueSigns(lastFlow: real, growth: real, wacc: real)
    requires wacc != growth
    ensures var grown := lastFlow * (1.0 + growth);
      (wacc > growth && grown >= 0.0 ==> TerminalValue(lastFlow, growth, wacc).value == grown / (wacc - growth))
      && (wacc < growth && grown > 0.0 ==> TerminalValue(lastFlow, growth, wacc).value == 0.0)
      && (wacc > growth && grown < 0.0 ==> TerminalValue(lastFlow, growth, wacc).value == 0.0)
  {
    var grown, spread := lastFlow * (1.0 + growth), wacc - growth;
    if wacc > growth && grown >= 0.0 {
      assert grown / spread >= 0.0;
    }
    if wacc < growth && grown > 0.0 {
      assert grown / spread < 0.0;
    }
    if wacc > growth && grown < 0.0 {
      assert grown / spread < 0.0;
    }
  }

  /** `[fcfe / dr for dr, fcfe in zip(rates, values)]` (line 188): plain
      division, so a zero factor among the zipped ones raises. */
  function Discounted(rates: seq<real>, values: seq<real>): (r: Result<seq<real>>)
    ensures r.Raised? <==> exists i :: 0 <= i < |rates| && i < |values| && rates[i] == 0.0
    ensures r.Ok? ==>
      |r.value| == (if |rates| <= |values| then |rates| else |values|)
      && forall i :: 0 <= i < |r.value| ==> rates[i] != 0.0 && r.value[i] == values[i] / rates[i]
    decreases |rates|
  {
    if rates == [] || values == [] then Ok([])
    else if rates[0] == 0.0 then Raised(ZeroDivisionError)
    else
      var rest :- Discounted(rates[1..], values[1..]);
      Ok([values[0] / rates[0]] + rest)
  }

  /** The DCF sum of `calc_dfc` (lines 183-190). */
  function DiscountedSum(multiplier: real, periodNumber: nat, flows: seq<real>, terminal: real): Result<real> {
    var parts :- Discounted(InterestRates(multiplier, periodNumber), flows + [terminal]);
    Ok(Sum(parts))
  }

  /** Over the full four-year window the DCF is the four flows discounted
      by the growing factors, plus the terminal value discounted by the
      last of them. */
  lemma DcfOverFullWindow(m: real, flows: seq<real>, terminal: real)
    requires |flows| == 4 && m != 0.0
    ensures DiscountedSum(m, 4, flows, terminal)
      == Ok(flows[0] / m + flows[1] / Pow(m, 2) + flows[2] / Pow(m, 3) + flows[3] / Pow(m, 4) + terminal / Pow(m, 4))
  {
    var rates := InterestRates(m, 4);
    var values := flows + [terminal];
    assert Pow(m, 1) == m;
    assert rates == [m, Pow(m, 2), Pow(m, 3), Pow(m, 4), Pow(m, 4)] by {
      assert rates[0] == m && rates[1] == Pow(m, 2) && rates[2] == Pow(m, 3);
      assert rates[3] == Pow(m, 4) && rates[4] == Pow(m, 4);
    }
    var parts := Discounted(rates, values).value;
    assert parts == [flows[0] / m, flows[1] / Pow(m, 2), flows[2] / Pow(m, 3), flows[3] / Pow(m, 4), terminal / Pow(m, 4)];
    SumOfFive(parts);
  }

  lemma SumOfFive(s: seq<real>)
    requires |s| == 5
    ensures Sum(s) == s[0] + s[1] + s[2] + s[3] + s[4]
  {
    assert s[..1][..0] == [];
    assert Sum(s[..1]) == s[0];
    assert s[..2][..1] == s[..1];
    assert Sum(s[..2]) == s[0] + s[1];
    assert s[..3][..2] == s[..2];
    assert Sum(s[..3]) == s[0] + s[1] + s[2];
    assert s[..4][..3] == s[..3];
    assert Sum(s[..4]) == s[0] + s[1] + s[2] + s[3];
  }

  /** With fewer than four periods of history the terminal value is not
      part of the DCF: the zip stops before it. */
  lemma ShortHistoryDropsTerminal(m: real, periodNumber: nat, flows: seq<real>, terminal: real)
    requires periodNumber < 4 && |flows| == 4
    ensures var rates := InterestRates(m, periodNumber);
      |rates| <= |flows|
      && Discounted(rates, flows + [terminal]) == Discounted(rates, flows)
  {
    var rates := InterestRates(m, periodNumber);
    DiscountedPrefix(rates, flows + [terminal], flows);
  }

  /** The zip only reads as many values as there are factors. */
  lemma {:induction false} DiscountedPrefix(rates: seq<real>, a: seq<real>, b: seq<real>)
    requires |rates| <= |a| && |rates| <= |b| && a[..|rates|] == b[..|rates|]
    ensures Discounted(rates, a) == Discounted(rates, b)
    decreases |rates|
  {
    if rates != [] {
      assert a[0] == a[..|rates|][0] == b[..|rates|][0] == b[0];
      assert a[1..][..|rates| - 1] == a[..|rates|][1..];
      assert b[1..][..|rates| - 1] == b[..|rates|][1..];
      DiscountedPrefix(rates[1..], a[1..], b[1..]);
    }
  }

  /** `round(x, 2)` on the exact value: to the nearest hundredth, halves to even. */
  function Round2(x: real): (r: real)
    ensures -0.005 <= r - x <= 0.005
  {
    var y := x * 100.0;
    var f := y.Floor;
    var frac := y - f as real;
    var n := if frac < 0.5 then f else if frac > 0.5 then f + 1 else if f % 2 == 0 then f else f + 1;
    n as real / 100.0
  }

  /** Rounding keeps a value already at a whole hundredth. */
  lemma Round2Hundredths(n: int)
    ensures Round2(n as real / 100.0) == n as real / 100.0
  {
    var x := n as real / 100.0;
    assert x * 100.0 == n as real;
    assert (x * 100.0).Floor == n;
  }
}
