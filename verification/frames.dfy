/**
 * Financial statements as the data provider delivers them: a table whose rows
 * are labelled line items and whose columns are reporting periods, latest first.
 */
module Frames {

  datatype Statement = Statement(periods: nat, rows: map<string, seq<real>>) {

    /** Every row has one cell per period (the table is rectangular). */
    predicate WellFormed() {
      forall item :: item in rows ==> |rows[item]| == periods
    }

    /** A table with no rows or no columns. */
    predicate Empty() {
      periods == 0 || |rows| == 0
    }

    /** The latest value of a line item, or 0 when the item is not reported. */
    function LatestOr0(item: string): real
      requires WellFormed() && !Empty()
    {
      if item in rows then rows[item][0] else 0.0
    }

    /** The previous period's value of a line item, or 0 when the item or the period is missing. */
    function PreviousOr0(item: string): real
      requires WellFormed()
    {
      if item in rows && periods > 1 then rows[item][1] else 0.0
    }
  }

  function Abs(x: real): real {
    if x < 0.0 then -x else x
  }
}
