/**
 * The daily Buffett-style screening script: the same gross-margin/ROE gate,
 * then a six-point score over five rules with technical indicators alongside,
 * ranked by score and then by ROE, the first 15 shown.
 */
module Buffett {
  import opened Wrappers
  import opened Frames
  import opened Market
  import Gate
  import opened Rules
  import opened Indicators
  import opened Pipeline
  import opened Ranking
  import Screening

  // ---------------------------------------------------------------------
  // First pass: the gate
  // ---------------------------------------------------------------------

  datatype Candidate = Candidate(ticker: string)

  /** None for a ticker without data, or one skipped or failed by the gate; otherwise the ticker. */
  function CheckBuffettCriteria(symbol: string, market: MarketData): (r: Option<Candidate>)
    ensures r.Some? <==> symbol in market && Gate.Screen(market[symbol].info).Some?
    ensures r.Some? ==> r == Some(Candidate(symbol))
    ensures r.Some? ==>
      var info := market[symbol].info;
      && !Gate.Skipped(info)
      && Gate.MarginMet(info.grossProfits.value, info.totalRevenue.value)
      && info.returnOnEquity.GetOr(0.0) >= Gate.MinRoe
  {
    if symbol !in market then None
    else if Gate.Screen(market[symbol].info).Some? then Some(Candidate(symbol))
    else None
  }

  /** Both scripts let exactly the same tickers through their gate. */
  lemma SameGateAsScreening(symbol: string, market: MarketData)
    ensures CheckBuffettCriteria(symbol, market).Some? <==> Screening.CheckBasicCriteria(symbol, market).Some?
  {
  }

  // ---------------------------------------------------------------------
  // Technical indicators
  // ---------------------------------------------------------------------

  const FullHistory: nat := 200

  /** The script's labels: 「↑上昇」, 「↓下降」, 「→横ばい」 and 「データ不足」. */
  datatype Trend = Up | Down | Flat | InsufficientData

  datatype Technicals = Technicals(rsi: Option<real>, goldenCross: bool, trend: Trend, sma50: Option<real>, sma200: Option<real>)

  /**
   * With fewer than 200 closes: no RSI, no golden cross, "insufficient data",
   * and no averages. Otherwise RSI(14), the 50- and 200-day averages, the
   * golden cross (50-day above 200-day), and the trend of the latest close
   * against the 75-day average.
   */
  function CalculateTechnicals(closes: seq<real>): (t: Technicals)
    ensures |closes| < FullHistory <==> t.trend == InsufficientData
    ensures |closes| < FullHistory ==> t.rsi.None? && !t.goldenCross && t.sma50.None? && t.sma200.None?
    ensures |closes| >= FullHistory ==>
      && t.rsi == Some(RsiOf(closes)) && 0.0 <= t.rsi.value <= 100.0
      && t.sma50 == Some(Sma(closes, 50)) && t.sma200 == Some(Sma(closes, FullHistory))
      && (t.goldenCross <==> t.sma50.value > t.sma200.value)
    ensures |closes| >= FullHistory ==>
      var price := closes[|closes| - 1];
      var sma75 := Sma(closes, 75);
      && (t.trend == Up <==> price > sma75)
      && (t.trend == Down <==> price < sma75)
      && (t.trend == Flat <==> price == sma75)
  {
    if |closes| < FullHistory then Technicals(None, false, InsufficientData, None, None)
    else
      var currentRsi := Rsi(AvgGain(closes), AvgLoss(closes));
      var sma50 := Sma(closes, 50);
      var sma75 := Sma(closes, 75);
      var sma200 := Sma(closes, FullHistory);
      var currentPrice := closes[|closes| - 1];
      var isGc := sma50 > sma200;
      var trend := if currentPrice > sma75 then Up else if currentPrice < sma75 then Down else Flat;
      Technicals(Some(currentRsi), isGc, trend, Some(sma50), Some(sma200))
  }

  // ---------------------------------------------------------------------
  // Buyback from the cash-flow statement
  // ---------------------------------------------------------------------

  /** The line-item names under which the provider may report share repurchases, in lookup order. */
  const BuybackAliases: seq<string> := ["Repurchase Of Capital Stock", "Common Stock Repurchased", "Purchase Of Capital Stock"]

  /** The index of the first alias that the statement reports, if any. */
  function FirstAlias(rows: map<string, seq<real>>, aliases: seq<string>): (r: Option<nat>)
    ensures r.Some? ==> r.value < |aliases| && aliases[r.value] in rows
    ensures r.Some? ==> forall j :: 0 <= j < r.value ==> aliases[j] !in rows
    ensures r.None? ==> forall j :: 0 <= j < |aliases| ==> aliases[j] !in rows
  {
    if aliases == [] then None
    else if aliases[0] in rows then Some(0)
    else match FirstAlias(rows, aliases[1..])
      case None => None
      case Some(k) => Some(k + 1)
  }

  /**
   * Only the first alias present is inspected: a buyback when its latest value
   * is negative (cash paid out). No alias: no buyback. An alias row without any
   * period makes the lookup fail, and the whole analysis with it (None).
   */
  function BuybackSignal(cashflow: Statement): (r: Option<bool>)
    requires cashflow.WellFormed()
    ensures r.None? <==>
      cashflow.periods == 0 && exists k :: 0 <= k < |BuybackAliases| && BuybackAliases[k] in cashflow.rows
    ensures r == Some(true) <==>
      && cashflow.periods > 0
      && (exists k :: && 0 <= k < |BuybackAliases| && BuybackAliases[k] in cashflow.rows
                      && (forall j :: 0 <= j < k ==> BuybackAliases[j] !in cashflow.rows)
                      && cashflow.rows[BuybackAliases[k]][0] < 0.0)
  {
    match FirstAlias(cashflow.rows, BuybackAliases)
    case None => Some(false)
    case Some(k) =>
      if cashflow.periods == 0 then None
      else Some(cashflow.rows[BuybackAliases[k]][0] < 0.0)
  }

  /** The scan as the script runs it: try the aliases in order and stop at the first one present. */
  method ScanBuyback(cashflow: Statement) returns (r: Option<bool>)
    requires cashflow.WellFormed()
    ensures r == BuybackSignal(cashflow)
    ensures r == Some(true) ==> exists k :: 0 <= k < |BuybackAliases| && BuybackAliases[k] in cashflow.rows
    ensures cashflow.rows == map[] ==> r == Some(false)
  {
    var flag := false;
    var i := 0;
    while i < |BuybackAliases|
      invariant 0 <= i <= |BuybackAliases|
      invariant forall j :: 0 <= j < i ==> BuybackAliases[j] !in cashflow.rows
      invariant !flag
    {
      var item := BuybackAliases[i];
      if item in cashflow.rows {
        if cashflow.periods == 0 {
          return None;
        }
        var value := cashflow.rows[item][0];
        if value < 0.0 {
          flag := true;
        }
        assert FirstAlias(cashflow.rows, BuybackAliases) == Some(i);
        break;
      }
      i := i + 1;
    }
    r := Some(flag);
  }

  // ---------------------------------------------------------------------
  // Second pass: the score
  // ---------------------------------------------------------------------

  /** A tag of the score log; its label is the text the script prints. */
  datatype Tag = SgaTag | DebtTag | RoeTag | BuybackTag | InsiderTag {
    function Label(): string {
      match this
      case SgaTag => "SGA◎"
      case DebtTag => "借金少"
      case RoeTag => "ROE★"
      case BuybackTag => "自社株買"
      case InsiderTag => "役員保有"
    }
  }

  /** The order in which the score's tags can appear. */
  const TagOrder: seq<Tag> := [SgaTag, DebtTag, RoeTag, BuybackTag, InsiderTag]

  const MaxScore: nat := 6

  /** The figures the five rules read. */
  datatype Facts = Facts(
    grossProfit: real,
    operatingIncome: real,
    netIncome: real,
    longTermDebt: real,
    roe: real,
    insider: real,
    buyback: bool)

  /** The score: the sum of the five independent rule contributions. */
  function BuffettScore(f: Facts): (s: nat)
    ensures s <= MaxScore
  {
    SgaPoints(f.grossProfit, f.operatingIncome)
    + DebtPoints(f.longTermDebt, f.netIncome)
    + RoePoints(f.roe)
    + BuybackPoints(f.buyback)
    + InsiderPoints(f.insider)
  }

  /** Whether the rule behind `t` awards the points that carry the tag. */
  function TagFires(t: Tag, f: Facts): bool {
    match t
    case SgaTag => SgaPoints(f.grossProfit, f.operatingIncome) == 2
    case DebtTag => DebtPoints(f.longTermDebt, f.netIncome) == 1
    case RoeTag => RoePoints(f.roe) == 1
    case BuybackTag => BuybackPoints(f.buyback) == 1
    case InsiderTag => InsiderPoints(f.insider) == 1
  }

  function Fires(f: Facts): Tag -> bool {
    t => TagFires(t, f)
  }

  /** The tags: SG&A at its top tier, then one tag for each other rule that scored, in rule order. */
  function BuffettTags(f: Facts): seq<Tag> {
    Filter(TagOrder, Fires(f))
  }

  /**
   * Tags come in the fixed order, each exactly when its points are awarded;
   * the SG&A middle tier scores without a tag.
   */
  lemma BuffettTagsMeaning(f: Facts)
    ensures IsSubsequence(BuffettTags(f), TagOrder)
    ensures SgaTag in BuffettTags(f) <==> f.grossProfit > 0.0 && f.grossProfit - f.operatingIncome <= SgaExcellent * f.grossProfit
    ensures DebtTag in BuffettTags(f) <==> f.netIncome > 0.0 && f.longTermDebt < DebtYearsLimit * f.netIncome
    ensures RoeTag in BuffettTags(f) <==> f.roe > RoeLimit
    ensures BuybackTag in BuffettTags(f) <==> f.buyback
    ensures InsiderTag in BuffettTags(f) <==> f.insider > InsiderLimit
  {
    var p := Fires(f);
    FilterMembership(TagOrder, p, SgaTag);
    FilterMembership(TagOrder, p, DebtTag);
    FilterMembership(TagOrder, p, RoeTag);
    FilterMembership(TagOrder, p, BuybackTag);
    FilterMembership(TagOrder, p, InsiderTag);
  }

  /** The tag list built the way the script builds it: appending each tag as its rule fires. */
  lemma TagsByAppending(f: Facts)
    ensures BuffettTags(f)
         == (if TagFires(SgaTag, f) then [SgaTag] else [])
          + (if TagFires(DebtTag, f) then [DebtTag] else [])
          + (if TagFires(RoeTag, f) then [RoeTag] else [])
          + (if TagFires(BuybackTag, f) then [BuybackTag] else [])
          + (if TagFires(InsiderTag, f) then [InsiderTag] else [])
  {
    var p := Fires(f);
    assert [SgaTag][1..] == [];
    assert [SgaTag] == [] + [SgaTag];
    FilterSnoc([], SgaTag, p);
    FilterSnoc([SgaTag], DebtTag, p);
    assert [SgaTag] + [DebtTag] == [SgaTag, DebtTag];
    FilterSnoc([SgaTag, DebtTag], RoeTag, p);
    assert [SgaTag, DebtTag] + [RoeTag] == [SgaTag, DebtTag, RoeTag];
    FilterSnoc([SgaTag, DebtTag, RoeTag], BuybackTag, p);
    assert [SgaTag, DebtTag, RoeTag] + [BuybackTag] == [SgaTag, DebtTag, RoeTag, BuybackTag];
    FilterSnoc([SgaTag, DebtTag, RoeTag, BuybackTag], InsiderTag, p);
    assert [SgaTag, DebtTag, RoeTag, BuybackTag] + [InsiderTag] == TagOrder;
  }

  /**
   * A market with one example ticker whose figures clear every rule: gross
   * profit 450 on revenue 1000, operating income 350, net income 200,
   * long-term debt 100, ROE 22%, insiders 15% and a repurchase outflow of 50
   * in the cash-flow statement.
   */
  function ExampleMarket(): MarketData {
    var info := Info(Some("Example"), Some(1000.0), Some(450.0), Some(0.22), None,
                     Some(200.0), Some(100.0), Some(0.15), None, None);
    map["9999.T" := Snapshot(info,
      Statement(1, map["Operating Income" := [350.0]]),
      Statement(1, map["Retained Earnings" := [1.0]]),
      Statement(1, map["Repurchase Of Capital Stock" := [-50.0]]),
      [], [])]
  }

  /** The example ticker passes the gate: margin 45%, ROE 22%. */
  lemma WorkedExampleGate()
    ensures MarketWellFormed(ExampleMarket())
    ensures CheckBuffettCriteria("9999.T", ExampleMarket()) == Some(Candidate("9999.T"))
  {
    assert Gate.Screen(ExampleMarket()["9999.T"].info).Some?;
  }

  /**
   * The example ticker, end to end: the repurchase line reads as a buyback,
   * and the ticker scores the full 6 points with all five tags.
   */
  lemma WorkedExample()
    ensures MarketWellFormed(ExampleMarket())
    ensures var r := BuffettAnalysis(Candidate("9999.T"), ExampleMarket());
      r.Some? && r.value.buyback && r.value.score == 6 && r.value.tags == TagOrder
  {
    WorkedExampleGate();
    var snap := ExampleMarket()["9999.T"];
    assert FirstAlias(snap.cashflow.rows, BuybackAliases) == Some(0);
    assert BuybackSignal(snap.cashflow) == Some(true);
    assert ExtractFacts(snap, true) == Facts(450.0, 350.0, 200.0, 100.0, 0.22, 0.15, true);
    WorkedExampleFacts();
  }

  /** The example ticker's figures earn every rule's points and tag. */
  lemma WorkedExampleFacts()
    ensures var f := Facts(450.0, 350.0, 200.0, 100.0, 0.22, 0.15, true);
      BuffettScore(f) == 6 && BuffettTags(f) == TagOrder
  {
    var f := Facts(450.0, 350.0, 200.0, 100.0, 0.22, 0.15, true);
    assert SgaPoints(f.grossProfit, f.operatingIncome) == 2;
    assert DebtPoints(f.longTermDebt, f.netIncome) == 1;
  }

  /**
   * The scoring block as the script runs it: five rules in order, each adding
   * its points to the running score and its tag to the log.
   */
  method ScoreBuffett(f: Facts) returns (score: int, log: seq<Tag>)
    ensures score == BuffettScore(f) && log == BuffettTags(f)
    ensures 0 <= score <= MaxScore
  {
    score := 0;
    log := [];
    // 1. SG&A ratio, judged only for a positive gross profit
    var sgaRatio := 1.0;
    if f.grossProfit > 0.0 {
      sgaRatio := (f.grossProfit - f.operatingIncome) / f.grossProfit;
      if sgaRatio <= SgaExcellent {
        score := score + 2;
        log := log + [SgaTag];
      } else if sgaRatio <= SgaGood {
        score := score + 1;
      }
    }
    ghost var points := SgaPoints(f.grossProfit, f.operatingIncome);
    ghost var tags := if TagFires(SgaTag, f) then [SgaTag] else [];
    assert score == points && log == tags;
    // 2. debt, judged only for a positive net income
    var debtYears := 0.0;
    if f.netIncome > 0.0 {
      debtYears := f.longTermDebt / f.netIncome;
      if debtYears < DebtYearsLimit {
        score := score + 1;
        log := log + [DebtTag];
      }
    }
    points := points + DebtPoints(f.longTermDebt, f.netIncome);
    tags := tags + if TagFires(DebtTag, f) then [DebtTag] else [];
    assert score == points && log == tags;
    // 3. ROE above 20%
    if f.roe > RoeLimit {
      score := score + 1;
      log := log + [RoeTag];
    }
    points := points + RoePoints(f.roe);
    tags := tags + if TagFires(RoeTag, f) then [RoeTag] else [];
    assert score == points && log == tags;
    // 4. buyback
    if f.buyback {
      score := score + 1;
      log := log + [BuybackTag];
    }
    points := points + BuybackPoints(f.buyback);
    tags := tags + if TagFires(BuybackTag, f) then [BuybackTag] else [];
    assert score == points && log == tags;
    // 5. insider ownership above 10%
    if f.insider > InsiderLimit {
      score := score + 1;
      log := log + [InsiderTag];
    }
    points := points + InsiderPoints(f.insider);
    tags := tags + if TagFires(InsiderTag, f) then [InsiderTag] else [];
    assert score == points && log == tags;
    TagsByAppending(f);
  }

  /** The report row. */
  datatype Report = Report(
    ticker: string,
    name: string,
    score: int,
    price: Option<real>,
    per: Option<real>,
    pbr: Option<real>,
    roe: real,
    insider: real,
    buyback: bool,
    trend: Trend,
    goldenCross: bool,
    rsi: Option<real>,
    tags: seq<Tag>)

  /** The income statement and the balance sheet are non-empty (the cash-flow statement is not checked). */
  predicate StatementsPresent(snap: Snapshot) {
    !snap.financials.Empty() && !snap.balanceSheet.Empty()
  }

  /** The figures of a ticker whose buyback lookup succeeded; missing fields read as 0. */
  function ExtractFacts(snap: Snapshot, buyback: bool): (f: Facts)
    requires SnapshotWellFormed(snap) && StatementsPresent(snap)
    ensures f.buyback == buyback
    ensures f.grossProfit == snap.info.grossProfits.GetOr(0.0)
    ensures f.netIncome == snap.info.netIncomeToCommon.GetOr(0.0)
    ensures f.longTermDebt == snap.info.longTermDebt.GetOr(0.0)
    ensures f.roe == snap.info.returnOnEquity.GetOr(0.0)
    ensures f.insider == snap.info.heldPercentInsiders.GetOr(0.0)
    ensures "Operating Income" !in snap.financials.rows ==> f.operatingIncome == 0.0
    ensures "Operating Income" in snap.financials.rows ==>
      f.operatingIncome == snap.financials.rows["Operating Income"][0]
  {
    Facts(
      grossProfit := snap.info.grossProfits.GetOr(0.0),
      operatingIncome := snap.financials.LatestOr0("Operating Income"),
      netIncome := snap.info.netIncomeToCommon.GetOr(0.0),
      longTermDebt := snap.info.longTermDebt.GetOr(0.0),
      roe := snap.info.returnOnEquity.GetOr(0.0),
      insider := snap.info.heldPercentInsiders.GetOr(0.0),
      buyback := buyback)
  }

  /**
   * The second pass for one candidate: None without data, with an empty income
   * statement or balance sheet, or when the buyback lookup fails; otherwise
   * the scored row with the technical indicators of the one-year closes.
   */
  function BuffettAnalysis(c: Candidate, market: MarketData): (r: Option<Report>)
    requires MarketWellFormed(market)
    ensures r.None? <==>
      || c.ticker !in market
      || !StatementsPresent(market[c.ticker])
      || BuybackSignal(market[c.ticker].cashflow).None?
    ensures r.Some? ==>
      var snap := market[c.ticker];
      && r.value.ticker == c.ticker
      && r.value.name == snap.info.shortName.GetOr(c.ticker)
      && r.value.roe == snap.info.returnOnEquity.GetOr(0.0)
      && r.value.buyback == BuybackSignal(snap.cashflow).value
      && 0 <= r.value.score <= MaxScore
      && IsSubsequence(r.value.tags, TagOrder)
  {
    if c.ticker !in market then None
    else
      var snap := market[c.ticker];
      if !StatementsPresent(snap) then None
      else match BuybackSignal(snap.cashflow)
        case None => None
        case Some(buyback) =>
          var f := ExtractFacts(snap, buyback);
          var tech := CalculateTechnicals(snap.closesYear);
          BuffettTagsMeaning(f);
          Some(Report(c.ticker, snap.info.shortName.GetOr(c.ticker), BuffettScore(f), snap.info.currentPrice,
                      snap.info.trailingPE, snap.info.priceToBook, f.roe, f.insider, buyback,
                      tech.trend, tech.goldenCross, tech.rsi, BuffettTags(f)))
  }

  /** The second pass as the script runs it. */
  method GetDeepBuffettAnalysis(c: Candidate, market: MarketData) returns (r: Option<Report>)
    requires MarketWellFormed(market)
    ensures r == BuffettAnalysis(c, market)
  {
    if c.ticker !in market {
      return None;
    }
    var snap := market[c.ticker];
    if snap.financials.Empty() || snap.balanceSheet.Empty() {
      return None;
    }
    var scan := ScanBuyback(snap.cashflow);
    if scan.None? {
      return None;
    }
    var f := ExtractFacts(snap, scan.value);
    var tech := CalculateTechnicals(snap.closesYear);
    var score, log := ScoreBuffett(f);
    r := Some(Report(c.ticker, snap.info.shortName.GetOr(c.ticker), score, snap.info.currentPrice,
                     snap.info.trailingPE, snap.info.priceToBook, f.roe, f.insider, scan.value,
                     tech.trend, tech.goldenCross, tech.rsi, log));
  }

  // ---------------------------------------------------------------------
  // The run: gate, analyse, rank by (score, ROE), show the first 15
  // ---------------------------------------------------------------------

  function GateStep(market: MarketData): string -> Option<Candidate> {
    t => CheckBuffettCriteria(t, market)
  }

  function AnalysisStep(market: MarketData): Candidate -> Option<Report>
    requires MarketWellFormed(market)
  {
    c => BuffettAnalysis(c, market)
  }

  /** Rows are ranked by score, then by ROE. */
  function BuffettRank(r: Report): Rank {
    Rank(r.score, r.roe)
  }

  /** The first pass: the tickers that pass the gate, in input order. */
  method SelectCandidates(tickers: seq<string>, market: MarketData) returns (candidates: seq<Candidate>)
    ensures candidates == Somes(MapSeq(GateStep(market), tickers))
  {
    candidates := [];
    var i := 0;
    while i < |tickers|
      invariant 0 <= i <= |tickers|
      invariant candidates == Somes(MapSeq(GateStep(market), tickers[..i]))
    {
      var result := CheckBuffettCriteria(tickers[i], market);
      SomesMapSnoc(GateStep(market), tickers, i);
      if result.Some? {
        candidates := candidates + [result.value];
      }
      i := i + 1;
    }
    assert tickers[..i] == tickers;
  }

  /** The second pass: the candidates that could be analysed, in candidate order. */
  method AnalyseCandidates(candidates: seq<Candidate>, market: MarketData) returns (finalResults: seq<Report>)
    requires MarketWellFormed(market)
    ensures finalResults == Somes(MapSeq(AnalysisStep(market), candidates))
  {
    finalResults := [];
    var i := 0;
    while i < |candidates|
      invariant 0 <= i <= |candidates|
      invariant finalResults == Somes(MapSeq(AnalysisStep(market), candidates[..i]))
    {
      var detail := GetDeepBuffettAnalysis(candidates[i], market);
      SomesMapSnoc(AnalysisStep(market), candidates, i);
      if detail.Some? {
        finalResults := finalResults + [detail.value];
      }
      i := i + 1;
    }
    assert candidates[..i] == candidates;
  }

  /**
   * The script's main flow: all analysed rows ranked by score, then ROE,
   * highest first, and the first 15 of them for display.
   */
  method Run(tickers: seq<string>, market: MarketData) returns (ranked: seq<Report>, shown: seq<Report>)
    requires MarketWellFormed(market)
    ensures var analysed := Somes(MapSeq(AnalysisStep(market), Somes(MapSeq(GateStep(market), tickers))));
      && ranked == SortDesc(analysed, BuffettRank)
      && shown == TopN(ranked, TopCount)
  {
    var candidates := SelectCandidates(tickers, market);
    var finalResults := AnalyseCandidates(candidates, market);
    ranked := SortDesc(finalResults, BuffettRank);
    shown := TopN(ranked, TopCount);
  }

  /**
   * The ranking is a reordering of the analysed rows; of two rows, the one with
   * the strictly higher score comes first, and with equal scores the one with
   * the higher ROE; min(15, n) rows are shown, and each shown row ranks at
   * least as high as every row left out.
   */
  lemma RankingProperties(finalResults: seq<Report>)
    ensures multiset(SortDesc(finalResults, BuffettRank)) == multiset(finalResults)
    ensures var ranked := SortDesc(finalResults, BuffettRank);
      forall i, j :: 0 <= i < |ranked| && 0 <= j < |ranked| ==>
        && (ranked[i].score > ranked[j].score ==> i < j)
        && (ranked[i].score == ranked[j].score && ranked[i].roe > ranked[j].roe ==> i < j)
    ensures var shown := TopN(SortDesc(finalResults, BuffettRank), TopCount);
      |shown| == if |finalResults| < TopCount then |finalResults| else TopCount
    ensures var ranked := SortDesc(finalResults, BuffettRank);
      var shown := TopN(ranked, TopCount);
      forall i, j :: 0 <= i < |shown| <= j < |ranked| ==>
        ranked[j].score < shown[i].score || (ranked[j].score == shown[i].score && ranked[j].roe <= shown[i].roe)
  {
    var ranked := SortDesc(finalResults, BuffettRank);
    assert |ranked| == |multiset(ranked)| == |multiset(finalResults)| == |finalResults|;
    forall i, j | 0 <= i < |ranked| && 0 <= j < |ranked|
      ensures && (ranked[i].score > ranked[j].score ==> i < j)
              && (ranked[i].score == ranked[j].score && ranked[i].roe > ranked[j].roe ==> i < j)
    {
      SortedPrecedence(ranked, BuffettRank, i, j);
    }
    TopNKeepsBest(ranked, TopCount, BuffettRank);
  }
}
