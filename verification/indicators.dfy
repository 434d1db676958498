/**
 * Price indicators over a series of daily closes (oldest first): simple moving
 * averages and the 14-session Relative Strength Index.
 */
module Indicators {

  const RsiWindow: nat := 14

  function Sum(s: seq<real>): real {
    if s == [] then 0.0 else s[0] + Sum(s[1..])
  }

  /** Arithmetic mean of a non-empty window. */
  function Mean(s: seq<real>): real
    requires |s| > 0
  {
    Sum(s) / (|s| as real)
  }

  /** The last `w` elements of `s`. */
  function Last(s: seq<real>, w: nat): seq<real>
    requires w <= |s|
  {
    s[|s| - w..]
  }

  /**
   * Simple moving average of window `w` at the latest close: the mean of the
   * last `w` closes, so some close of that window is at most it and some
   * close is at least it.
   */
  function Sma(closes: seq<real>, w: nat): (r: real)
    requires 0 < w <= |closes|
    ensures exists i :: |closes| - w <= i < |closes| && closes[i] <= r
    ensures exists i :: |closes| - w <= i < |closes| && r <= closes[i]
  {
    var window := Last(closes, w);
    MeanAttained(window);
    var i :| 0 <= i < |window| && window[i] <= Mean(window);
    var j :| 0 <= j < |window| && Mean(window) <= window[j];
    assert closes[|closes| - w + i] == window[i];
    assert closes[|closes| - w + j] == window[j];
    Mean(window)
  }

  /** `Sum(s) > n * c` when every element of a non-empty `s` exceeds `c`. */
  lemma {:induction false} SumAbove(s: seq<real>, c: real)
    requires |s| > 0
    requires forall i :: 0 <= i < |s| ==> c < s[i]
    ensures (|s| as real) * c < Sum(s)
  {
    if |s| > 1 {
      SumAbove(s[1..], c);
    }
  }

  /** `Sum(s) < n * c` when every element of a non-empty `s` falls short of `c`. */
  lemma {:induction false} SumBelow(s: seq<real>, c: real)
    requires |s| > 0
    requires forall i :: 0 <= i < |s| ==> s[i] < c
    ensures Sum(s) < (|s| as real) * c
  {
    if |s| > 1 {
      SumBelow(s[1..], c);
    }
  }

  /** Some element of a non-empty window is at most its mean, and some is at least it. */
  lemma MeanAttained(s: seq<real>)
    requires |s| > 0
    ensures exists i :: 0 <= i < |s| && s[i] <= Mean(s)
    ensures exists i :: 0 <= i < |s| && Mean(s) <= s[i]
  {
    var n := |s| as real;
    var m := Mean(s);
    assert Sum(s) == m * n;
    if forall i :: 0 <= i < |s| ==> m < s[i] {
      SumAbove(s, m);
      assert false;
    }
    if forall i :: 0 <= i < |s| ==> s[i] < m {
      SumBelow(s, m);
      assert false;
    }
  }

  /** `n * lo <= Sum(s) <= n * hi` when every element lies in `[lo, hi]`. */
  lemma {:induction false} SumWithin(s: seq<real>, lo: real, hi: real)
    requires forall i :: 0 <= i < |s| ==> lo <= s[i] <= hi
    ensures (|s| as real) * lo <= Sum(s) <= (|s| as real) * hi
  {
    if s != [] {
      SumWithin(s[1..], lo, hi);
    }
  }

  /** A mean lies between the smallest and the largest bound of its window. */
  lemma MeanWithin(s: seq<real>, lo: real, hi: real)
    requires |s| > 0
    requires forall i :: 0 <= i < |s| ==> lo <= s[i] <= hi
    ensures lo <= Mean(s) <= hi
  {
    SumWithin(s, lo, hi);
    var n := |s| as real;
    assert Sum(s) / n >= lo by {
      assert Sum(s) >= n * lo;
    }
    assert Sum(s) / n <= hi by {
      assert Sum(s) <= n * hi;
    }
  }

  /** The moving average lies within the range of the closes it averages. */
  lemma SmaWithin(closes: seq<real>, w: nat, lo: real, hi: real)
    requires 0 < w <= |closes|
    requires forall i :: |closes| - w <= i < |closes| ==> lo <= closes[i] <= hi
    ensures lo <= Sma(closes, w) <= hi
  {
    var window := Last(closes, w);
    forall i | 0 <= i < |window| ensures lo <= window[i] <= hi {
      assert window[i] == closes[|closes| - w + i];
    }
    MeanWithin(window, lo, hi);
  }

  /** Positive part. */
  function Pos(x: real): real {
    if x > 0.0 then x else 0.0
  }

  /**
   * Per-session gains: the rise from the previous close, 0 on a fall; the
   * first session, which has no previous close, counts as 0.
   */
  function Gains(closes: seq<real>): (g: seq<real>)
    ensures |g| == |closes|
    ensures forall i :: 0 <= i < |g| ==> g[i] >= 0.0
  {
    seq(|closes|, i requires 0 <= i < |closes| => if i == 0 then 0.0 else Pos(closes[i] - closes[i - 1]))
  }

  /** Per-session losses: the drop from the previous close, 0 on a rise; 0 for the first session. */
  function Losses(closes: seq<real>): (l: seq<real>)
    ensures |l| == |closes|
    ensures forall i :: 0 <= i < |l| ==> l[i] >= 0.0
  {
    seq(|closes|, i requires 0 <= i < |closes| => if i == 0 then 0.0 else Pos(closes[i - 1] - closes[i]))
  }

  /** A sum of non-negative terms is non-negative. */
  lemma {:induction false} SumNonNegative(s: seq<real>)
    requires forall i :: 0 <= i < |s| ==> s[i] >= 0.0
    ensures Sum(s) >= 0.0
  {
    if s != [] {
      SumNonNegative(s[1..]);
    }
  }

  /** A sum of positive terms is positive. */
  lemma {:induction false} SumPositive(s: seq<real>)
    requires |s| > 0
    requires forall i :: 0 <= i < |s| ==> s[i] > 0.0
    ensures Sum(s) > 0.0
  {
    SumNonNegative(s[1..]);
  }

  /** A sum of zeros is zero. */
  lemma SumZero(s: seq<real>)
    requires forall i :: 0 <= i < |s| ==> s[i] == 0.0
    ensures Sum(s) == 0.0
  {
    SumWithin(s, 0.0, 0.0);
  }

  /** 14-session average gain at the latest close. */
  function AvgGain(closes: seq<real>): (g: real)
    requires |closes| >= RsiWindow
    ensures g >= 0.0
  {
    var w := Last(Gains(closes), RsiWindow);
    SumNonNegative(w);
    Mean(w)
  }

  /** 14-session average loss at the latest close. */
  function AvgLoss(closes: seq<real>): (l: real)
    requires |closes| >= RsiWindow
    ensures l >= 0.0
  {
    var w := Last(Losses(closes), RsiWindow);
    SumNonNegative(w);
    Mean(w)
  }

  /** Session `i` closed above the session before it. */
  predicate RoseAt(closes: seq<real>, i: int) {
    0 < i < |closes| && closes[i - 1] < closes[i]
  }

  /** Each of the last 14 sessions closed higher than the one before. */
  predicate RisingWindow(closes: seq<real>) {
    |closes| > RsiWindow && forall i :: |closes| - RsiWindow <= i < |closes| ==> RoseAt(closes, i)
  }

  /** Closes that rose in each of the last 14 sessions: some average gain, no average loss. */
  lemma SteadyRise(closes: seq<real>)
    requires RisingWindow(closes)
    ensures AvgLoss(closes) == 0.0 && AvgGain(closes) > 0.0
  {
    RisingGains(closes);
    RisingLosses(closes);
    MeanPositive(Last(Gains(closes), RsiWindow));
    MeanZero(Last(Losses(closes), RsiWindow));
  }

  /** Every session of a rising window gains. */
  lemma RisingGains(closes: seq<real>)
    requires RisingWindow(closes)
    ensures forall k :: 0 <= k < RsiWindow ==> Last(Gains(closes), RsiWindow)[k] > 0.0
  {
    var n := |closes|;
    var gains := Gains(closes);
    forall k | 0 <= k < RsiWindow
      ensures Last(gains, RsiWindow)[k] > 0.0
    {
      assert Last(gains, RsiWindow)[k] == gains[n - RsiWindow + k];
      assert RoseAt(closes, n - RsiWindow + k);
    }
  }

  /** No session of a rising window loses. */
  lemma RisingLosses(closes: seq<real>)
    requires RisingWindow(closes)
    ensures forall k :: 0 <= k < RsiWindow ==> Last(Losses(closes), RsiWindow)[k] == 0.0
  {
    var n := |closes|;
    var losses := Losses(closes);
    forall k | 0 <= k < RsiWindow
      ensures Last(losses, RsiWindow)[k] == 0.0
    {
      assert Last(losses, RsiWindow)[k] == losses[n - RsiWindow + k];
      assert RoseAt(closes, n - RsiWindow + k);
    }
  }

  lemma MeanPositive(s: seq<real>)
    requires |s| > 0
    requires forall i :: 0 <= i < |s| ==> s[i] > 0.0
    ensures Mean(s) > 0.0
  {
    SumPositive(s);
  }

  lemma MeanZero(s: seq<real>)
    requires |s| > 0
    requires forall i :: 0 <= i < |s| ==> s[i] == 0.0
    ensures Mean(s) == 0.0
  {
    SumZero(s);
  }

  /**
   * RSI from the average gain and average loss: `100 - 100 / (1 + gain / loss)`.
   * With no loss the quotient is undefined; a window with gains and no loss
   * reads 100 (the limit of the formula), a window with neither reads 50.
   * Equivalently, RSI is the gain's share of all movement, in percent.
   */
  function Rsi(gain: real, loss: real): (r: real)
    requires gain >= 0.0 && loss >= 0.0
    ensures 0.0 <= r <= 100.0
    ensures gain + loss > 0.0 ==> r * (gain + loss) == 100.0 * gain
    ensures gain + loss == 0.0 ==> r == 50.0
  {
    if loss > 0.0 then
      var rs := gain / loss;
      RsiShare(gain, loss, rs);
      100.0 - 100.0 / (1.0 + rs)
    else if gain > 0.0 then 100.0
    else 50.0
  }

  /** `100 - 100 / (1 + g/l)` is `100 g / (g + l)` and lies in `[0, 100)`. */
  lemma RsiShare(gain: real, loss: real, rs: real)
    requires gain >= 0.0 && loss > 0.0 && rs == gain / loss
    ensures (100.0 - 100.0 / (1.0 + rs)) * (gain + loss) == 100.0 * gain
    ensures 0.0 <= 100.0 - 100.0 / (1.0 + rs) < 100.0
  {
    assert rs * loss == gain;
    assert rs >= 0.0;
    var q := 100.0 / (1.0 + rs);
    assert q * (1.0 + rs) == 100.0;
    assert 0.0 < q <= 100.0;
    calc {
      (100.0 - q) * (gain + loss);
    ==
      (100.0 - q) * (rs * loss + loss);
    ==
      (100.0 - q) * (1.0 + rs) * loss;
    ==
      (100.0 * (1.0 + rs) - 100.0) * loss;
    ==
      100.0 * rs * loss;
    ==
      100.0 * gain;
    }
  }

  /** RSI(14) of a series of closes. */
  function RsiOf(closes: seq<real>): (r: real)
    requires |closes| >= RsiWindow
    ensures 0.0 <= r <= 100.0
  {
    Rsi(AvgGain(closes), AvgLoss(closes))
  }
}
