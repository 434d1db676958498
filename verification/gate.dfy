/**
 * The first-pass gate both scripts apply to a ticker's summary: gross margin
 * at least 40% and return on equity at least 15%.
 */
module Gate {
  import opened Wrappers
  import opened Market

  const MinGrossMargin: real := 0.40
  const MinRoe: real := 0.15

  /** The figures a passing ticker carries forward. */
  datatype Passed = Passed(grossMargin: real, roe: real)

  /**
   * Revenue or gross profit missing, or zero: the ticker is skipped without
   * being judged.
   */
  predicate Skipped(info: Info) {
    || info.totalRevenue.None? || info.totalRevenue.value == 0.0
    || info.grossProfits.None? || info.grossProfits.value == 0.0
  }

  /**
   * `grossProfit / revenue >= 40%` stated without division: for a negative
   * revenue the inequality flips.
   */
  predicate MarginMet(grossProfit: real, revenue: real) {
    if revenue > 0.0 then grossProfit >= MinGrossMargin * revenue else grossProfit <= MinGrossMargin * revenue
  }

  lemma MarginMetDivision(grossProfit: real, revenue: real)
    requires revenue != 0.0
    ensures (grossProfit / revenue >= MinGrossMargin) == MarginMet(grossProfit, revenue)
    ensures (grossProfit / revenue) * revenue == grossProfit
  {
    var m := grossProfit / revenue;
    assert m * revenue == grossProfit;
    if revenue > 0.0 {
      assert m >= MinGrossMargin ==> m * revenue >= MinGrossMargin * revenue;
      assert m < MinGrossMargin ==> m * revenue < MinGrossMargin * revenue;
    } else {
      assert m >= MinGrossMargin ==> m * revenue <= MinGrossMargin * revenue;
      assert m < MinGrossMargin ==> m * revenue > MinGrossMargin * revenue;
    }
  }

  /** None when skipped or failing; otherwise the margin and the ROE (0 when not reported). */
  function Screen(info: Info): (r: Option<Passed>)
    ensures Skipped(info) ==> r.None?
    ensures !Skipped(info) ==>
      (r.Some? <==> MarginMet(info.grossProfits.value, info.totalRevenue.value) && info.returnOnEquity.GetOr(0.0) >= MinRoe)
    ensures r.Some? ==>
      && r.value.grossMargin >= MinGrossMargin
      && r.value.grossMargin * info.totalRevenue.value == info.grossProfits.value
      && r.value.roe == info.returnOnEquity.GetOr(0.0) >= MinRoe
  {
    if Skipped(info) then None
    else
      var revenue := info.totalRevenue.value;
      var grossProfit := info.grossProfits.value;
      var grossMargin := grossProfit / revenue;
      MarginMetDivision(grossProfit, revenue);
      var roe := info.returnOnEquity.GetOr(0.0);
      if grossMargin >= MinGrossMargin && roe >= MinRoe then Some(Passed(grossMargin, roe)) else None
  }

  /**
   * With positive revenue and the ROE fixed, raising gross profit can turn a
   * failing ticker into a passing one but never the reverse.
   */
  lemma MonotoneInGrossProfit(info: Info, higher: real)
    requires info.totalRevenue.Some? && info.totalRevenue.value > 0.0
    requires info.grossProfits.Some? && info.grossProfits.value <= higher
    requires Screen(info).Some?
    ensures Screen(info.(grossProfits := Some(higher))).Some?
  {
    var revenue := info.totalRevenue.value;
    assert info.grossProfits.value / revenue <= higher / revenue;
  }
}
