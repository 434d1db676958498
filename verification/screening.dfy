/**
 * The chart-and-mail screening script: a gross-margin/ROE gate, an
 * eight-point fundamental score over six rules, a top-15 cut by score, and a
 * final technical look (moving-average trend, RSI, share-count buyback) at the
 * survivors.
 */
module Screening {
  import opened Wrappers
  import opened Frames
  import opened Market
  import Gate
  import opened Rules
  import opened Indicators
  import opened Pipeline
  import opened Ranking

  // ---------------------------------------------------------------------
  // First pass: the gate
  // ---------------------------------------------------------------------

  /** A ticker that passed the gate, with the figures later steps read. */
  datatype Candidate = Candidate(ticker: string, name: string, price: Option<real>, grossMargin: real, roe: real)

  /**
   * None for a ticker without data, or one skipped or failed by the gate;
   * otherwise the ticker with its name (the symbol when no name is given),
   * price, gross margin and ROE.
   */
  function CheckBasicCriteria(symbol: string, market: MarketData): (r: Option<Candidate>)
    ensures r.Some? <==> symbol in market && Gate.Screen(market[symbol].info).Some?
    ensures r.Some? ==>
      && r.value.ticker == symbol
      && r.value.name == market[symbol].info.shortName.GetOr(symbol)
      && r.value.price == market[symbol].info.currentPrice
      && r.value.grossMargin >= Gate.MinGrossMargin
      && r.value.grossMargin * market[symbol].info.totalRevenue.value == market[symbol].info.grossProfits.value
      && r.value.roe == market[symbol].info.returnOnEquity.GetOr(0.0) >= Gate.MinRoe
  {
    if symbol !in market then None
    else
      var info := market[symbol].info;
      match Gate.Screen(info)
      case None => None
      case Some(p) => Some(Candidate(symbol, info.shortName.GetOr(symbol), info.currentPrice, p.grossMargin, p.roe))
  }

  // ---------------------------------------------------------------------
  // Second pass: the fundamental score
  // ---------------------------------------------------------------------

  const SgaTag: string := "◎SGA低"
  const CapexTag: string := "◎CapEx少"
  const RoeTag: string := "★ROE高"

  /** The order in which the score's tags can appear. */
  const TagOrder: seq<string> := [SgaTag, CapexTag, RoeTag]

  const MaxScore: nat := 8

  /** The figures the six rules read. */
  datatype Fundamentals = Fundamentals(
    grossProfit: real,
    operatingIncome: real,
    interestExpense: real,
    netIncome: real,
    longTermDebt: real,
    retainedNow: real,
    retainedPrev: real,
    capex: real,
    roe: real)

  /** The income statement, balance sheet and cash-flow statement are all non-empty. */
  predicate StatementsPresent(snap: Snapshot) {
    !snap.financials.Empty() && !snap.balanceSheet.Empty() && !snap.cashflow.Empty()
  }

  /**
   * The figures of a candidate: missing summary fields and line items read as
   * 0, interest expense and capex as magnitudes, and the ROE the gate saw.
   */
  function ExtractFundamentals(c: Candidate, snap: Snapshot): (f: Fundamentals)
    requires SnapshotWellFormed(snap) && StatementsPresent(snap)
    ensures f.roe == c.roe
    ensures f.grossProfit == snap.info.grossProfits.GetOr(0.0)
    ensures f.netIncome == snap.info.netIncomeToCommon.GetOr(0.0)
    ensures f.longTermDebt == snap.info.longTermDebt.GetOr(0.0)
    ensures f.interestExpense >= 0.0 && f.capex >= 0.0
    ensures "Operating Income" !in snap.financials.rows ==> f.operatingIncome == 0.0
    ensures "Operating Income" in snap.financials.rows ==>
      f.operatingIncome == snap.financials.rows["Operating Income"][0]
    ensures "Interest Expense" !in snap.financials.rows ==> f.interestExpense == 0.0
    ensures "Interest Expense" in snap.financials.rows ==>
      f.interestExpense == Abs(snap.financials.rows["Interest Expense"][0])
    ensures "Capital Expenditure" !in snap.cashflow.rows ==> f.capex == 0.0
    ensures "Capital Expenditure" in snap.cashflow.rows ==>
      f.capex == Abs(snap.cashflow.rows["Capital Expenditure"][0])
    ensures "Retained Earnings" in snap.balanceSheet.rows ==>
      f.retainedNow == snap.balanceSheet.rows["Retained Earnings"][0]
    ensures "Retained Earnings" !in snap.balanceSheet.rows || snap.balanceSheet.periods < 2 ==> f.retainedPrev == 0.0
    ensures "Retained Earnings" in snap.balanceSheet.rows && snap.balanceSheet.periods >= 2 ==>
      f.retainedPrev == snap.balanceSheet.rows["Retained Earnings"][1]
  {
    Fundamentals(
      grossProfit := snap.info.grossProfits.GetOr(0.0),
      operatingIncome := snap.financials.LatestOr0("Operating Income"),
      interestExpense := Abs(snap.financials.LatestOr0("Interest Expense")),
      netIncome := snap.info.netIncomeToCommon.GetOr(0.0),
      longTermDebt := snap.info.longTermDebt.GetOr(0.0),
      retainedNow := snap.balanceSheet.LatestOr0("Retained Earnings"),
      retainedPrev := snap.balanceSheet.PreviousOr0("Retained Earnings"),
      capex := Abs(snap.cashflow.LatestOr0("Capital Expenditure")),
      roe := c.roe)
  }

  /** The score: the sum of the six independent rule contributions. */
  function ExtendedScore(f: Fundamentals): (s: nat)
    ensures s <= MaxScore
  {
    SgaPoints(f.grossProfit, f.operatingIncome)
    + InterestPoints(f.interestExpense, f.operatingIncome)
    + DebtPoints(f.longTermDebt, f.netIncome)
    + CapexPoints(f.capex, f.netIncome)
    + RetainedPoints(f.retainedNow, f.retainedPrev)
    + RoePoints(f.roe)
  }

  /** The tags: one for each rule whose top tier fired, in rule order. */
  function ExtendedTags(f: Fundamentals): seq<string> {
    (if SgaPoints(f.grossProfit, f.operatingIncome) == 2 then [SgaTag] else [])
    + (if CapexPoints(f.capex, f.netIncome) == 2 then [CapexTag] else [])
    + (if RoePoints(f.roe) == 1 then [RoeTag] else [])
  }

  /**
   * Tags come only from the three top tiers, in the fixed order, each exactly
   * when its tier fires; the interest, debt and retained-earnings rules and
   * the middle tiers add points without a tag.
   */
  lemma ExtendedTagsMeaning(f: Fundamentals)
    ensures IsSubsequence(ExtendedTags(f), TagOrder)
    ensures SgaTag in ExtendedTags(f) <==> f.grossProfit > 0.0 && f.grossProfit - f.operatingIncome <= SgaExcellent * f.grossProfit
    ensures CapexTag in ExtendedTags(f) <==> f.netIncome > 0.0 && f.capex < CapexLight * f.netIncome
    ensures RoeTag in ExtendedTags(f) <==> f.roe > RoeLimit
  {
    var sga := SgaPoints(f.grossProfit, f.operatingIncome) == 2;
    var capex := CapexPoints(f.capex, f.netIncome) == 2;
    var roe := RoePoints(f.roe) == 1;
    assert IsSubsequence<string>([], []);
    SubsequencePick(roe, RoeTag, [], []);
    var last := (if roe then [RoeTag] else []) + [];
    SubsequencePick(capex, CapexTag, last, [RoeTag]);
    SubsequencePick(sga, SgaTag, (if capex then [CapexTag] else []) + last, [CapexTag, RoeTag]);
    assert ExtendedTags(f) == (if sga then [SgaTag] else []) + ((if capex then [CapexTag] else []) + last);
  }

  /**
   * Every point of the score is accounted for by a rule: a top score of 8
   * needs every rule at its top tier, in particular a positive gross profit
   * and a positive net income.
   */
  lemma FullScoreNeedsEveryRule(f: Fundamentals)
    requires ExtendedScore(f) == MaxScore
    ensures ExtendedTags(f) == TagOrder
    ensures f.grossProfit > 0.0 && f.netIncome > 0.0 && f.operatingIncome > 0.0
    ensures f.retainedNow > f.retainedPrev
  {
  }

  /** The scored record of the second pass. */
  datatype Scored = Scored(ticker: string, name: string, score: int, price: Option<real>, tags: seq<string>)

  /**
   * The second pass for one candidate: None when the provider has no data for
   * it or any of its three statements is empty; otherwise its score and tags.
   */
  function DeepAnalysis(c: Candidate, market: MarketData): (r: Option<Scored>)
    requires MarketWellFormed(market)
    ensures r.None? <==> c.ticker !in market || !StatementsPresent(market[c.ticker])
    ensures r.Some? ==>
      && r.value.ticker == c.ticker && r.value.name == c.name && r.value.price == c.price
      && 0 <= r.value.score <= MaxScore
      && IsSubsequence(r.value.tags, TagOrder)
  {
    if c.ticker !in market || !StatementsPresent(market[c.ticker]) then None
    else
      var f := ExtractFundamentals(c, market[c.ticker]);
      ExtendedTagsMeaning(f);
      Some(Scored(c.ticker, c.name, ExtendedScore(f), c.price, ExtendedTags(f)))
  }

  /**
   * The scoring block as the script runs it: six rules in order, each adding
   * its points to the running score and, at its top tier, its tag to the log.
   */
  method ScoreFundamentals(f: Fundamentals) returns (score: int, log: seq<string>)
    ensures score == ExtendedScore(f) && log == ExtendedTags(f)
    ensures 0 <= score <= MaxScore
  {
    score := 0;
    log := [];
    // 1. SG&A ratio
    var sgaRatio := if f.grossProfit > 0.0 then (f.grossProfit - f.operatingIncome) / f.grossProfit else 1.0;
    if sgaRatio <= SgaExcellent {
      score := score + 2;
      log := log + [SgaTag];
    } else if sgaRatio <= SgaGood {
      score := score + 1;
    }
    assert score == SgaPoints(f.grossProfit, f.operatingIncome);
    // 2. interest burden
    if f.operatingIncome > 0.0 && f.interestExpense / f.operatingIncome < InterestLimit {
      score := score + 1;
    }
    // 3. debt
    var debtYears := if f.netIncome > 0.0 then f.longTermDebt / f.netIncome else NoIncomeRatio;
    if debtYears < DebtYearsLimit {
      score := score + 1;
    }
    ghost var afterDebt := score;
    // 4. capital expenditure
    var capexRatio := if f.netIncome > 0.0 then f.capex / f.netIncome else NoIncomeRatio;
    if capexRatio < CapexLight {
      score := score + 2;
      log := log + [CapexTag];
    } else if capexRatio < CapexModerate {
      score := score + 1;
    }
    assert score == afterDebt + CapexPoints(f.capex, f.netIncome);
    // 5. retained earnings growth
    if f.retainedNow > f.retainedPrev {
      score := score + 1;
    }
    // 6. ROE above 20%
    if f.roe > RoeLimit {
      score := score + 1;
      log := log + [RoeTag];
    }
  }

  /** The second pass as the script runs it: skip on missing data, else read the figures and score them. */
  method GetDeepAnalysis(c: Candidate, market: MarketData) returns (r: Option<Scored>)
    requires MarketWellFormed(market)
    ensures r == DeepAnalysis(c, market)
  {
    if c.ticker !in market {
      return None;
    }
    var snap := market[c.ticker];
    if snap.financials.Empty() || snap.balanceSheet.Empty() || snap.cashflow.Empty() {
      return None;
    }
    var f := ExtractFundamentals(c, snap);
    var score, log := ScoreFundamentals(f);
    r := Some(Scored(c.ticker, c.name, score, c.price, log));
  }

  // ---------------------------------------------------------------------
  // Final pass: technicals and ownership
  // ---------------------------------------------------------------------

  const MinHistory: nat := 75

  /** The script's trend labels: 「★パーフェクト」, 「上昇」 and 「レンジ/下降」. */
  datatype Trend = Perfect | Rising | RangeOrFalling

  /**
   * The trend starts as range/falling, becomes rising when the price is above
   * the 25-day average and that is above the 75-day one, and is overridden to
   * perfect whenever the 5-, 25- and 75-day averages are in strictly
   * descending order.
   */
  function ClassifyTrend(price: real, ma5: real, ma25: real, ma75: real): (t: Trend)
    ensures t == Perfect <==> ma5 > ma25 > ma75
    ensures t == Rising <==> !(ma5 > ma25) && price > ma25 > ma75
    ensures t != RangeOrFalling ==> ma25 > ma75
  {
    var initial := RangeOrFalling;
    var afterPrice := if price > ma25 && ma25 > ma75 then Rising else initial;
    if ma5 > ma25 && ma25 > ma75 then Perfect else afterPrice
  }

  /** The perfect order does not depend on the price. */
  lemma PerfectIgnoresPrice(p: real, q: real, ma5: real, ma25: real, ma75: real)
    ensures (ClassifyTrend(p, ma5, ma25, ma75) == Perfect) == (ClassifyTrend(q, ma5, ma25, ma75) == Perfect)
  {
  }

  /**
   * RSI as the script computes it: the quotient is replaced by 0 when the
   * average loss is 0, whatever the average gain.
   */
  function RsiAsWritten(gain: real, loss: real): (r: real)
    requires gain >= 0.0 && loss >= 0.0
    ensures loss > 0.0 ==> r == Rsi(gain, loss)
    ensures loss == 0.0 ==> r == 0.0
  {
    var rs := if loss != 0.0 then gain / loss else 0.0;
    100.0 - 100.0 / (1.0 + rs)
  }

  /**
   * On closes that rose every session of the last 14, the script's RSI reads 0,
   * the most oversold value, while the share of gains is 100%.
   */
  lemma RsiAsWrittenInvertsSteadyRise(closes: seq<real>)
    requires RisingWindow(closes)
    ensures RsiAsWritten(AvgGain(closes), AvgLoss(closes)) == 0.0
    ensures RsiOf(closes) == 100.0
  {
    SteadyRise(closes);
  }

  const SharesItem: string := "Ordinary Shares Number"
  const ShareShrink: real := 0.99

  /**
   * Buyback by share count: with at least two periods reported, the share
   * count fell by more than 1%.
   */
  function SharesBuyback(balance: Statement): (b: bool)
    requires balance.WellFormed()
    ensures b ==> SharesItem in balance.rows && balance.periods >= 2
    ensures SharesItem in balance.rows && balance.periods >= 2 ==>
      (b <==> balance.rows[SharesItem][0] < ShareShrink * balance.rows[SharesItem][1])
  {
    if SharesItem in balance.rows && balance.periods > 1 then
      var sharesNow := balance.rows[SharesItem][0];
      var sharesPrev := balance.rows[SharesItem][1];
      sharesNow < sharesPrev * ShareShrink
    else false
  }

  /** The final report row. */
  datatype Ultimate = Ultimate(
    name: string,
    ticker: string,
    price: Option<real>,
    score: int,
    memo: seq<string>,
    insiderPercent: real,
    buyback: bool,
    trend: Trend,
    rsi: real)

  /**
   * The final pass for one scored record: None without data or with fewer than
   * 75 closes; otherwise the record, its score and memo unchanged, with the
   * insider share in percent, the buyback flag, the trend and RSI(14).
   */
  function GetUltimateData(base: Scored, market: MarketData): (r: Option<Ultimate>)
    requires MarketWellFormed(market)
    ensures r.None? <==> base.ticker !in market || |market[base.ticker].closesHalfYear| < MinHistory
    ensures r.Some? ==>
      && r.value.ticker == base.ticker && r.value.name == base.name && r.value.price == base.price
      && r.value.score == base.score && r.value.memo == base.tags
      && r.value.buyback == SharesBuyback(market[base.ticker].balanceSheet)
      && 0.0 <= r.value.rsi <= 100.0
    ensures r.Some? ==>
      var closes := market[base.ticker].closesHalfYear;
      && r.value.trend == ClassifyTrend(closes[|closes| - 1], Sma(closes, 5), Sma(closes, 25), Sma(closes, MinHistory))
      && (r.value.trend == Perfect <==> Sma(closes, 5) > Sma(closes, 25) > Sma(closes, MinHistory))
      && r.value.rsi == RsiOf(closes)
  {
    if base.ticker !in market then None
    else
      var snap := market[base.ticker];
      var insiderPercent := snap.info.heldPercentInsiders.GetOr(0.0) * 100.0;
      var buyback := SharesBuyback(snap.balanceSheet);
      var closes := snap.closesHalfYear;
      if |closes| < MinHistory then None
      else
        var ma5 := Sma(closes, 5);
        var ma25 := Sma(closes, 25);
        var ma75 := Sma(closes, MinHistory);
        var trend := ClassifyTrend(closes[|closes| - 1], ma5, ma25, ma75);
        var rsi := Rsi(AvgGain(closes), AvgLoss(closes));
        Some(Ultimate(base.name, base.ticker, base.price, base.score, base.tags, insiderPercent, buyback, trend, rsi))
  }

  // ---------------------------------------------------------------------
  // The run: three passes, the top-15 cut by score in between
  // ---------------------------------------------------------------------

  function GateStep(market: MarketData): string -> Option<Candidate> {
    t => CheckBasicCriteria(t, market)
  }

  function DeepStep(market: MarketData): Candidate -> Option<Scored>
    requires MarketWellFormed(market)
  {
    c => DeepAnalysis(c, market)
  }

  function UltimateStep(market: MarketData): Scored -> Option<Ultimate>
    requires MarketWellFormed(market)
  {
    s => GetUltimateData(s, market)
  }

  /** Records are ranked by score alone; the order among equal scores is left open. */
  function ScoreRank(s: Scored): Rank {
    Rank(s.score, 0.0)
  }

  /** The first pass: the tickers that pass the gate, in input order. */
  method FirstPass(tickers: seq<string>, market: MarketData) returns (firstPass: seq<Candidate>)
    ensures firstPass == Somes(MapSeq(GateStep(market), tickers))
  {
    firstPass := [];
    var i := 0;
    while i < |tickers|
      invariant 0 <= i <= |tickers|
      invariant firstPass == Somes(MapSeq(GateStep(market), tickers[..i]))
    {
      var res := CheckBasicCriteria(tickers[i], market);
      SomesMapSnoc(GateStep(market), tickers, i);
      if res.Some? {
        firstPass := firstPass + [res.value];
      }
      i := i + 1;
    }
    assert tickers[..i] == tickers;
  }

  /** The second pass: the candidates that can be scored, in first-pass order. */
  method SecondPass(firstPass: seq<Candidate>, market: MarketData) returns (secondPass: seq<Scored>)
    requires MarketWellFormed(market)
    ensures secondPass == Somes(MapSeq(DeepStep(market), firstPass))
  {
    secondPass := [];
    var i := 0;
    while i < |firstPass|
      invariant 0 <= i <= |firstPass|
      invariant secondPass == Somes(MapSeq(DeepStep(market), firstPass[..i]))
    {
      var res := GetDeepAnalysis(firstPass[i], market);
      SomesMapSnoc(DeepStep(market), firstPass, i);
      if res.Some? {
        secondPass := secondPass + [res.value];
      }
      i := i + 1;
    }
    assert firstPass[..i] == firstPass;
  }

  /** The final pass: the top records that have enough price history, in ranked order. */
  method FinalPass(top: seq<Scored>, market: MarketData) returns (finalResults: seq<Ultimate>)
    requires MarketWellFormed(market)
    ensures finalResults == Somes(MapSeq(UltimateStep(market), top))
  {
    finalResults := [];
    var i := 0;
    while i < |top|
      invariant 0 <= i <= |top|
      invariant finalResults == Somes(MapSeq(UltimateStep(market), top[..i]))
    {
      var res := GetUltimateData(top[i], market);
      SomesMapSnoc(UltimateStep(market), top, i);
      if res.Some? {
        finalResults := finalResults + [res.value];
      }
      i := i + 1;
    }
    assert top[..i] == top;
  }

  /** The 15 best-scoring records of the second pass, highest score first. */
  function TopCandidates(secondPass: seq<Scored>): (top: seq<Scored>)
    ensures |top| == if |secondPass| < TopCount then |secondPass| else TopCount
    ensures multiset(top) <= multiset(secondPass)
  {
    var sorted := SortDesc(secondPass, ScoreRank);
    assert |sorted| == |multiset(sorted)| == |secondPass|;
    var top := TopN(sorted, TopCount);
    assert sorted == top + sorted[|top|..];
    top
  }

  /** The candidates that pass the gate, in input order. */
  function FirstPassOf(tickers: seq<string>, market: MarketData): seq<Candidate> {
    Somes(MapSeq(GateStep(market), tickers))
  }

  /** The candidates that could be scored, in first-pass order. */
  function SecondPassOf(tickers: seq<string>, market: MarketData): seq<Scored>
    requires MarketWellFormed(market)
  {
    Somes(MapSeq(DeepStep(market), FirstPassOf(tickers, market)))
  }

  /**
   * The report of a run: the final check applied to the 15 best scores. When
   * nothing could be scored, the report is empty.
   */
  function FinalReport(tickers: seq<string>, market: MarketData): (r: seq<Ultimate>)
    requires MarketWellFormed(market)
    ensures |r| <= TopCount
    ensures SecondPassOf(tickers, market) == [] ==> r == []
  {
    var top := TopCandidates(SecondPassOf(tickers, market));
    Somes(MapSeq(UltimateStep(market), top))
  }

  /**
   * The outcome of the script as written: with no candidate it stops early
   * with an empty result; with candidates but no scored record the table it
   * sorts by score has no score column, and the run fails (None) before the
   * final pass; otherwise it yields the report.
   */
  function RunOutcome(tickers: seq<string>, market: MarketData): (r: Option<seq<Ultimate>>)
    requires MarketWellFormed(market)
    ensures r.None? <==> FirstPassOf(tickers, market) != [] && SecondPassOf(tickers, market) == []
    ensures r.Some? ==> r.value == FinalReport(tickers, market)
  {
    if FirstPassOf(tickers, market) == [] then Some([])
    else if SecondPassOf(tickers, market) == [] then None
    else Some(FinalReport(tickers, market))
  }

  /** The script's main flow: gate, score, keep the top 15 by score, final check. */
  method Run(tickers: seq<string>, market: MarketData) returns (outcome: Option<seq<Ultimate>>)
    requires MarketWellFormed(market)
    ensures outcome == RunOutcome(tickers, market)
    ensures outcome.Some? ==> |outcome.value| <= TopCount
  {
    var firstPass := FirstPass(tickers, market);
    if firstPass == [] {
      return Some([]);
    }
    var secondPass := SecondPass(firstPass, market);
    if secondPass == [] {
      return None;
    }
    var top := TopCandidates(secondPass);
    var finalResults := FinalPass(top, market);
    outcome := Some(finalResults);
  }

  /**
   * A ticker that passes the gate but whose statements are empty: the script
   * fails at the sort by score, where an empty report was evidently meant.
   */
  lemma EmptyScoreTableAborts()
    ensures var info := Info(None, Some(1000.0), Some(450.0), Some(0.22), None, None, None, None, None, None);
      var snap := Snapshot(info, Statement(0, map[]), Statement(0, map[]), Statement(0, map[]), [], []);
      var market := map["9999.T" := snap];
      && MarketWellFormed(market)
      && RunOutcome(["9999.T"], market).None?
      && FinalReport(["9999.T"], market) == []
  {
    var info := Info(None, Some(1000.0), Some(450.0), Some(0.22), None, None, None, None, None, None);
    var snap := Snapshot(info, Statement(0, map[]), Statement(0, map[]), Statement(0, map[]), [], []);
    var market := map["9999.T" := snap];
    assert Gate.Screen(info).Some?;
    var tickers := ["9999.T"];
    assert MapSeq(GateStep(market), tickers) == [CheckBasicCriteria("9999.T", market)];
    var c := CheckBasicCriteria("9999.T", market).value;
    assert FirstPassOf(tickers, market) == [c];
    assert MapSeq(DeepStep(market), [c]) == [DeepAnalysis(c, market)];
    assert SecondPassOf(tickers, market) == [];
  }

  function ScoredScore(s: Scored): int { s.score }
  function UltimateScore(u: Ultimate): int { u.score }
  predicate ScoreInRange(score: int) { 0 <= score <= MaxScore }
  predicate ScoredInRange(s: Scored) { ScoreInRange(s.score) }
  predicate UltimateInRange(u: Ultimate) { ScoreInRange(u.score) }

  /**
   * The report holds at most 15 records, ordered by score, highest first,
   * each with a score within [0, 8].
   */
  lemma ReportProperties(tickers: seq<string>, market: MarketData)
    requires MarketWellFormed(market)
    ensures |FinalReport(tickers, market)| <= TopCount
    ensures SortedByKey(FinalReport(tickers, market), UltimateScore)
    ensures forall u :: u in FinalReport(tickers, market) ==> 0 <= u.score <= MaxScore
  {
    var firstPass := FirstPassOf(tickers, market);
    var secondPass := SecondPassOf(tickers, market);
    SomesMapAll(DeepStep(market), firstPass, ScoredInRange);
    var top := TopCandidates(secondPass);
    TopCandidatesProperties(secondPass);
    FinalPassProperties(top, market);
  }

  /**
   * The cut keeps min(15, n) records of the second pass, highest score first,
   * and no record left out scores above a record kept.
   */
  lemma TopCandidatesProperties(secondPass: seq<Scored>)
    ensures |TopCandidates(secondPass)| == if |secondPass| < TopCount then |secondPass| else TopCount
    ensures multiset(TopCandidates(secondPass)) <= multiset(secondPass)
    ensures SortedByKey(TopCandidates(secondPass), ScoredScore)
    ensures forall k :: 0 <= k < |TopCandidates(secondPass)| ==> TopCandidates(secondPass)[k] in secondPass
    ensures forall x, k :: x in multiset(secondPass) - multiset(TopCandidates(secondPass)) && 0 <= k < |TopCandidates(secondPass)| ==>
      x.score <= TopCandidates(secondPass)[k].score
  {
    var sorted := SortDesc(secondPass, ScoreRank);
    var top := TopN(sorted, TopCount);
    assert top == TopCandidates(secondPass);
    TopNKeepsBest(sorted, TopCount, ScoreRank);
    TopNLeavesWorse(sorted, TopCount, ScoreRank);
    forall i, j | 0 <= i < j < |top| ensures ScoredScore(top[i]) >= ScoredScore(top[j]) {
      assert Outranks(ScoreRank(top[i]), ScoreRank(top[j]));
    }
    forall k | 0 <= k < |top| ensures top[k] in secondPass {
      assert top[k] in multiset(sorted);
    }
    forall x, k | x in multiset(secondPass) - multiset(top) && 0 <= k < |top| ensures x.score <= top[k].score {
      assert Outranks(ScoreRank(top[k]), ScoreRank(x));
    }
  }


  /** The final pass on a ranked list keeps the ranking and the scores. */
  lemma FinalPassProperties(top: seq<Scored>, market: MarketData)
    requires MarketWellFormed(market)
    requires SortedByKey(top, ScoredScore)
    requires forall k :: 0 <= k < |top| ==> ScoredInRange(top[k])
    ensures SortedByKey(Somes(MapSeq(UltimateStep(market), top)), UltimateScore)
    ensures forall u :: u in Somes(MapSeq(UltimateStep(market), top)) ==> UltimateInRange(u)
  {
    SomesMapAll(UltimateStep(market), top, UltimateInRange);
    SomesMapKeepsOrder(UltimateStep(market), ScoredScore, UltimateScore, top);
  }
}
