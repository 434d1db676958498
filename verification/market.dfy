/**
 * What the market-data provider returns for one ticker. Every summary field
 * may be missing, and a missing field is distinct from a zero.
 */
module Market {
  import opened Wrappers
  import opened Frames

  datatype Info = Info(
    shortName: Option<string>,
    totalRevenue: Option<real>,
    grossProfits: Option<real>,
    returnOnEquity: Option<real>,
    currentPrice: Option<real>,
    netIncomeToCommon: Option<real>,
    longTermDebt: Option<real>,
    heldPercentInsiders: Option<real>,
    trailingPE: Option<real>,
    priceToBook: Option<real>)

  /**
   * One ticker's data: the summary, the three statements, and daily closes
   * (oldest first) over the two look-back windows the scripts request.
   */
  datatype Snapshot = Snapshot(
    info: Info,
    financials: Statement,
    balanceSheet: Statement,
    cashflow: Statement,
    closesHalfYear: seq<real>,
    closesYear: seq<real>)

  /** The provider, per ticker symbol; a symbol it has no data for stands for a failed fetch. */
  type MarketData = map<string, Snapshot>

  predicate SnapshotWellFormed(s: Snapshot) {
    s.financials.WellFormed() && s.balanceSheet.WellFormed() && s.cashflow.WellFormed()
  }

  predicate MarketWellFormed(m: MarketData) {
    forall t :: t in m ==> SnapshotWellFormed(m[t])
  }
}
