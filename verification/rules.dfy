/**
 * The fundamental scoring rules, one function per rule: each gives the points
 * the rule awards. A ratio whose denominator is not positive is replaced by a
 * fixed fallback that awards nothing, so no rule ever divides by zero.
 */
module Rules {

  /** For a positive denominator, comparing a quotient is comparing a product. */
  lemma QuotientBounds(x: real, y: real, c: real)
    ensures y > 0.0 ==> (x / y <= c) == (x <= c * y)
    ensures y > 0.0 ==> (x / y < c) == (x < c * y)
  {
    if y <= 0.0 { return; }
    var q := x / y;
    assert q * y == x;
    assert q <= c ==> q * y <= c * y;
    assert q > c ==> q * y > c * y;
    assert q < c ==> q * y < c * y;
    assert q >= c ==> q * y >= c * y;
  }

  // SG&A: (gross profit - operating income) / gross profit; 1.0 when gross profit <= 0.
  const SgaExcellent: real := 0.30
  const SgaGood: real := 0.50

  function SgaRatio(grossProfit: real, operatingIncome: real): (r: real)
    ensures grossProfit <= 0.0 ==> r == 1.0
    ensures grossProfit > 0.0 ==> r * grossProfit == grossProfit - operatingIncome
  {
    if grossProfit > 0.0 then (grossProfit - operatingIncome) / grossProfit else 1.0
  }

  /** 2 points for SG&A at most 30% of gross profit, 1 point for at most 50%. */
  function SgaPoints(grossProfit: real, operatingIncome: real): (p: nat)
    ensures p <= 2
    ensures p == 2 <==> grossProfit > 0.0 && grossProfit - operatingIncome <= SgaExcellent * grossProfit
    ensures p >= 1 <==> grossProfit > 0.0 && grossProfit - operatingIncome <= SgaGood * grossProfit
  {
    QuotientBounds(grossProfit - operatingIncome, grossProfit, SgaExcellent);
    QuotientBounds(grossProfit - operatingIncome, grossProfit, SgaGood);
    var ratio := SgaRatio(grossProfit, operatingIncome);
    if ratio <= SgaExcellent then 2 else if ratio <= SgaGood then 1 else 0
  }

  // Interest burden: interest expense / operating income, judged only for a positive operating income.
  const InterestLimit: real := 0.15

  /** 1 point when interest expense is under 15% of a positive operating income. */
  function InterestPoints(interestExpense: real, operatingIncome: real): (p: nat)
    ensures p <= 1
    ensures p == 1 <==> operatingIncome > 0.0 && interestExpense < InterestLimit * operatingIncome
  {
    if operatingIncome > 0.0 then
      QuotientBounds(interestExpense, operatingIncome, InterestLimit);
      if interestExpense / operatingIncome < InterestLimit then 1 else 0
    else 0
  }

  // Debt and capital expenditure are both judged as multiples of net income,
  // with 99 standing in when net income is not positive.
  const NoIncomeRatio: real := 99.0

  /** `amount / netIncome`, or 99 when net income is not positive. */
  function IncomeMultiple(amount: real, netIncome: real): (r: real)
    ensures netIncome <= 0.0 ==> r == NoIncomeRatio
    ensures netIncome > 0.0 ==> r * netIncome == amount
  {
    if netIncome > 0.0 then amount / netIncome else NoIncomeRatio
  }

  // Debt: long-term debt in years of net income.
  const DebtYearsLimit: real := 3.0

  /** 1 point when long-term debt is under three years of a positive net income. */
  function DebtPoints(longTermDebt: real, netIncome: real): (p: nat)
    ensures p <= 1
    ensures p == 1 <==> netIncome > 0.0 && longTermDebt < DebtYearsLimit * netIncome
  {
    QuotientBounds(longTermDebt, netIncome, DebtYearsLimit);
    if IncomeMultiple(longTermDebt, netIncome) < DebtYearsLimit then 1 else 0
  }

  // Capital expenditure as a fraction of net income.
  const CapexLight: real := 0.25
  const CapexModerate: real := 0.50

  /** 2 points for capex under 25% of a positive net income, 1 point for under 50%. */
  function CapexPoints(capex: real, netIncome: real): (p: nat)
    ensures p <= 2
    ensures p == 2 <==> netIncome > 0.0 && capex < CapexLight * netIncome
    ensures p >= 1 <==> netIncome > 0.0 && capex < CapexModerate * netIncome
  {
    QuotientBounds(capex, netIncome, CapexLight);
    QuotientBounds(capex, netIncome, CapexModerate);
    var ratio := IncomeMultiple(capex, netIncome);
    if ratio < CapexLight then 2 else if ratio < CapexModerate then 1 else 0
  }

  /** 1 point when retained earnings grew over the previous period. */
  function RetainedPoints(retainedNow: real, retainedPrev: real): (p: nat)
    ensures p <= 1
    ensures p == 1 <==> retainedNow > retainedPrev
  {
    if retainedNow > retainedPrev then 1 else 0
  }

  const RoeLimit: real := 0.20

  /** 1 point for a return on equity above 20%. */
  function RoePoints(roe: real): (p: nat)
    ensures p <= 1
    ensures p == 1 <==> roe > RoeLimit
  {
    if roe > RoeLimit then 1 else 0
  }

  const InsiderLimit: real := 0.10

  /** 1 point when insiders hold more than 10% of the shares. */
  function InsiderPoints(insiderFraction: real): (p: nat)
    ensures p <= 1
    ensures p == 1 <==> insiderFraction > InsiderLimit
  {
    if insiderFraction > InsiderLimit then 1 else 0
  }

  /** 1 point when the company bought back its own shares. */
  function BuybackPoints(buyback: bool): (p: nat)
    ensures p <= 1
    ensures p == 1 <==> buyback
  {
    if buyback then 1 else 0
  }

  /** A non-positive gross profit makes the SG&A ratio 1.0, which earns nothing. */
  lemma SgaFallback(grossProfit: real, operatingIncome: real)
    requires grossProfit <= 0.0
    ensures SgaRatio(grossProfit, operatingIncome) == 1.0 && SgaPoints(grossProfit, operatingIncome) == 0
  {
  }

  /** A non-positive net income makes both income ratios 99, which earn nothing. */
  lemma NoIncomeFallback(longTermDebt: real, capex: real, netIncome: real)
    requires netIncome <= 0.0
    ensures IncomeMultiple(longTermDebt, netIncome) == NoIncomeRatio && DebtPoints(longTermDebt, netIncome) == 0
    ensures IncomeMultiple(capex, netIncome) == NoIncomeRatio && CapexPoints(capex, netIncome) == 0
  {
  }
}
