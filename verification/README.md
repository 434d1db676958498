# Stock screening: a verified model of the two screening scripts

The repository screens Tokyo Stock Exchange tickers for Buffett-style
quality. It has two scripts:

- `stock_screening.py`, the chart-and-mail run, works in three passes:
  1. A gate on gross margin and return on equity (ROE).
  2. An eight-point fundamental score over six rules.
  3. A cut to the 15 best scores, then a final technical look at them:
     moving-average trend, RSI(14) and a share-count buyback signal.
- `main.py`, the daily run, works in two passes:
  1. The same gate.
  2. A six-point score over five rules, with RSI, golden cross and a
     75-day trend alongside.

  It then ranks by score and then ROE, and shows the first 15.

This project models both scripts in Dafny and proves properties of the
model. Market data is an input: a map from ticker to a `Snapshot`. A
snapshot holds:

- the summary fields, each possibly missing;
- the three statements, as rectangular tables with latest period first;
- the two close series, oldest first.

A ticker missing from the map stands for a failed fetch.

Modules:

- `Wrappers`: `Option`.
- `Frames`: financial statements.
- `Market`: provider data.
- `Gate`: the shared first pass.
- `Rules`: the individual score rules with their thresholds.
- `Indicators`: SMA and RSI.
- `Pipeline`: the keep-the-survivors loops and tag filtering.
- `Ranking`: descending sort and top-N cut.
- `Screening`: `stock_screening.py`.
- `Buffett`: `main.py`.

Where a script computes with a loop or with statements that update
variables, the model has a method with the same steps. That covers the
stage loops, both scoring blocks, the buyback alias scan and the deep
analyses. Each such method is proved equal to a specification function,
and the properties are proved about that function.

## Model

| member | source | states |
|---|---|---|
| Gate.Screen | stock_screening.py:43-62 | A ticker missing revenue or gross profit, or reporting either as 0, is skipped. Otherwise it passes exactly when gross profit / revenue >= 0.40 and ROE (0 if absent) >= 0.15. A pass carries that margin and that ROE. |
| Gate.MarginMetDivision | stock_screening.py:50-54 | The margin test gp / rev >= 0.40 is equivalent to the division-free test gp >= 0.40·rev for positive revenue, and gp <= 0.40·rev for negative revenue. |
| Gate.MonotoneInGrossProfit | stock_screening.py:50-54 | With positive revenue and a fixed ROE, a passing ticker still passes with a higher gross profit. |
| Screening.CheckBasicCriteria | stock_screening.py:38-64 | The result is Some exactly when the ticker has data and passes the gate. It then carries the symbol, the short name (the symbol when absent), the price, the margin (>= 0.40, times revenue equals gross profit) and the ROE (>= 0.15). |
| Buffett.CheckBuffettCriteria | main.py:27-48 | The result is Some exactly when the ticker has data and passes the gate, and it then carries only the symbol. Passing means the margin test holds and ROE >= 0.15. |
| Buffett.SameGateAsScreening | main.py:32-46 | Both scripts' gates let through exactly the same tickers. |
| Rules.QuotientBounds | stock_screening.py:97-111 | For a positive denominator, x / y <= c iff x <= c·y, and x / y < c iff x < c·y. |
| Rules.SgaRatio | stock_screening.py:97 | The SG&A ratio is 1.0 when gross profit <= 0. Otherwise, times gross profit it gives gross profit minus operating income. |
| Rules.SgaPoints | stock_screening.py:97-99 | The rule gives at most 2 points. It gives 2 iff gross profit > 0 and SG&A <= 30% of gross profit, and at least 1 iff gross profit > 0 and SG&A <= 50%. |
| Rules.InterestPoints | stock_screening.py:102 | 1 point iff operating income > 0 and interest expense < 15% of it. |
| Rules.IncomeMultiple | stock_screening.py:105-109 | Debt years and the capex ratio are 99 when net income <= 0. Otherwise, times net income they give the amount (long-term debt or capex). |
| Rules.DebtPoints | stock_screening.py:105-106 | 1 point iff net income > 0 and long-term debt < 3 × net income. |
| Rules.CapexPoints | stock_screening.py:109-111 | The rule gives at most 2 points. It gives 2 iff net income > 0 and capex < 25% of it, and at least 1 iff net income > 0 and capex < 50%. |
| Rules.RetainedPoints | stock_screening.py:114 | 1 point iff retained earnings grew over the previous period. |
| Rules.RoePoints | stock_screening.py:117 | 1 point iff ROE > 20%. |
| Rules.InsiderPoints | main.py:155-156 | 1 point iff insiders hold more than 10%. |
| Rules.BuybackPoints | main.py:151-152 | 1 point iff a buyback was found. |
| Rules.SgaFallback | stock_screening.py:97-99 | A gross profit <= 0 gives the fallback ratio 1.0 and no SG&A points. |
| Rules.NoIncomeFallback | stock_screening.py:105-111 | A net income <= 0 gives the fallback 99 for both ratios and no debt or capex points. |
| Screening.ExtractFundamentals | stock_screening.py:80-91 | Gross profit, net income and debt default to 0 when absent. A present operating income line gives its latest value, a present interest expense or capex line the magnitude of its latest value (>= 0), and a missing line reads as 0. The previous retained earnings read 0 unless the row is present with at least two periods, in which case they are the second period's value. ROE is the one the gate saw. |
| Screening.ExtendedScore | stock_screening.py:93-117 | The score is the sum of the six rule contributions and never exceeds 8. |
| Screening.ExtendedTagsMeaning | stock_screening.py:96-117 | The tags appear in the order SGA, CapEx, ROE. Each appears exactly when its top tier fires, stated without division. |
| Screening.FullScoreNeedsEveryRule | stock_screening.py:93-117 | A score of 8 needs every rule: all three tags, positive gross profit, net income and operating income, and growing retained earnings. |
| Screening.DeepAnalysis | stock_screening.py:69-127 | The result is None exactly when the ticker has no data or one of its three statements is empty. Otherwise it carries the ticker, name and price. Its score is in [0, 8] and its tags are in the fixed order. |
| Screening.ScoreFundamentals | stock_screening.py:93-117 | The step-by-step scoring block computes exactly ExtendedScore and the tag log, with a score in [0, 8]. |
| Screening.GetDeepAnalysis | stock_screening.py:69-127 | The second-pass procedure returns exactly DeepAnalysis. |
| Screening.ClassifyTrend | stock_screening.py:156-158 | The trend is perfect iff MA5 > MA25 > MA75. It is rising iff not perfect and price > MA25 > MA75. Any trend other than range/falling implies MA25 > MA75. |
| Screening.PerfectIgnoresPrice | stock_screening.py:158 | Whether the trend is perfect does not depend on the price. |
| Screening.RsiAsWritten | stock_screening.py:160-164 | As written, RSI equals the standard formula when the average loss is positive, and is 0 whenever the average loss is 0. |
| Screening.RsiAsWrittenInvertsSteadyRise | stock_screening.py:160-164 | On closes that rose in each of the last 14 sessions, the as-written RSI is 0 while the corrected RSI is 100. |
| Screening.SharesBuyback | stock_screening.py:140-146 | A buyback needs the share-count row and at least two periods. With both present, it is flagged iff the latest count is below 99% of the previous one. |
| Screening.GetUltimateData | stock_screening.py:132-178 | The result is None exactly when the ticker has no data or fewer than 75 closes. Otherwise name, ticker, price, score and memo are carried over unchanged, and the buyback flag is SharesBuyback. The trend is ClassifyTrend of the last close and SMA5, SMA25 and SMA75, so perfect iff SMA5 > SMA25 > SMA75. RSI is RSI(14) of the closes, within [0, 100]. |
| Screening.FirstPass | stock_screening.py:291-295 | The loop keeps the gate's survivors, in input order. |
| Screening.SecondPass | stock_screening.py:305-309 | The loop keeps the candidates that could be scored, in first-pass order. |
| Screening.FinalPass | stock_screening.py:318-321 | The loop keeps the top records that have enough history, in ranked order. |
| Screening.TopCandidates | stock_screening.py:312-314 | The cut keeps min(15, n) records of the second pass, as a sub-multiset of it. |
| Screening.FinalReport | stock_screening.py:289-321 | The report of a run has at most 15 rows, and it is empty when no candidate could be scored. |
| Screening.RunOutcome | stock_screening.py:289-321 | The run fails (None) exactly when some ticker passes the gate but none can be scored, because the score sort then finds no score column. Otherwise it yields FinalReport. |
| Screening.Run | stock_screening.py:289-321 | The three passes with the top-15 cut between them compute exactly RunOutcome, and a completed run yields at most 15 rows. |
| Screening.EmptyScoreTableAborts | stock_screening.py:305-313 | A ticker that passes the gate (margin 45%, ROE 22%) but has empty statements makes the run fail, where the corrected report is empty. |
| Screening.ReportProperties | stock_screening.py:312-321 | The report has at most 15 rows, is ordered by score from highest, and every score is in [0, 8]. |
| Screening.TopCandidatesProperties | stock_screening.py:312-314 | The cut keeps min(15, n) records of the second pass, as a sub-multiset of it, ordered by score from highest. No record left out scores above a record kept. |
| Screening.FinalPassProperties | stock_screening.py:319-321 | The final pass over a score-ordered list keeps the order and the score range. |
| Indicators.Sma | stock_screening.py:152-154 | The moving average of the last w closes lies between them: some close of the window is at most it, and some close is at least it. |
| Indicators.MeanAttained | stock_screening.py:152-154 | Some element of a non-empty window is at most its mean, and some element is at least it. |
| Indicators.SumWithin | stock_screening.py:152-154 | If every element lies in [lo, hi], the sum of n of them lies in [n·lo, n·hi]. |
| Indicators.MeanWithin | stock_screening.py:152-154 | A mean lies within the bounds of its window. |
| Indicators.SmaWithin | stock_screening.py:152-154 | A moving average lies within the range of the closes it averages. |
| Indicators.Gains | stock_screening.py:160-161 | The series of per-session gains has one entry per close, each non-negative. |
| Indicators.Losses | stock_screening.py:162 | The series of per-session losses has one entry per close, each non-negative. |
| Indicators.AvgGain | stock_screening.py:161 | The 14-session average gain is non-negative. |
| Indicators.AvgLoss | stock_screening.py:162 | The 14-session average loss is non-negative. |
| Indicators.SteadyRise | stock_screening.py:160-162 | Closes that rose in each of the last 14 sessions have a positive average gain and a zero average loss. |
| Indicators.RisingGains | stock_screening.py:160-161 | In a window that rose every session, every session's gain is positive. |
| Indicators.RisingLosses | stock_screening.py:160-162 | In a window that rose every session, every session's loss is 0. |
| Indicators.Rsi | main.py:59-64 | RSI lies in [0, 100]. It is the gain's share of all movement in percent, r·(gain + loss) = 100·gain. It reads 50 when there is no movement. |
| Indicators.RsiShare | main.py:62-63 | With a positive loss, 100 − 100/(1 + gain/loss) equals 100·gain/(gain + loss) and lies in [0, 100). |
| Indicators.RsiOf | main.py:59-64 | RSI(14) of a close series lies in [0, 100]. |
| Buffett.CalculateTechnicals | main.py:51-84 | Fewer than 200 closes give no RSI, no golden cross, "insufficient data" and no averages, and only then is the trend "insufficient data". Otherwise the RSI is RSI(14) in [0, 100], SMA50 and SMA200 are reported, the golden cross holds iff SMA50 > SMA200, and the trend is up, down or flat exactly as the last close is above, below or equal to SMA75. |
| Buffett.FirstAlias | main.py:112-119 | The alias found is present and is the first present in lookup order. None means no alias is present. |
| Buffett.BuybackSignal | main.py:109-119 | The lookup fails (None) exactly when some alias row is present but the statement has no period. It reports a buyback exactly when the first alias present has a negative latest value. |
| Buffett.ScanBuyback | main.py:109-119 | The alias loop with its break returns exactly BuybackSignal: None when the row found has no period (the lookup fails), else whether that first alias's latest value is negative. A statement without rows gives no buyback. |
| Buffett.BuffettScore | main.py:130-156 | The score is the sum of the five rule contributions and never exceeds 6. |
| Buffett.BuffettTagsMeaning | main.py:133-156 | The tags appear in the order SGA◎, 借金少, ROE★, 自社株買, 役員保有. Each appears exactly when its rule fires, stated without division; the SG&A middle tier adds a point but no tag. |
| Buffett.TagsByAppending | main.py:130-156 | The filtered tag list equals the list built by appending each fired rule's tag in turn. |
| Buffett.WorkedExampleFacts | main.py:130-156 | An example whose figures clear every rule: gross profit 450, operating income 350, net income 200, debt 100, ROE 22%, insiders 15% and a buyback score 6 and carry all five tags in order. |
| Buffett.WorkedExampleGate | main.py:32-46 | The example ticker (gross profit 450 on revenue 1000, ROE 22%) passes the gate. |
| Buffett.WorkedExample | main.py:87-176 | End to end, the example ticker, with a repurchase line of −50 in its cash-flow statement, is analysed with a buyback, a score of 6 and all five tags in order. |
| Buffett.ScoreBuffett | main.py:130-156 | The step-by-step scoring block computes exactly BuffettScore and the tag log, with a score in [0, 6]. |
| Buffett.ExtractFacts | main.py:100-122 | Gross profit, net income, long-term debt, ROE and the insider fraction default to 0 when absent. Operating income is the latest period's value of its line, 0 when the line is missing. The buyback flag is carried unchanged. |
| Buffett.BuffettAnalysis | main.py:87-176 | The result is None exactly when the ticker has no data, its income statement or balance sheet is empty, or the buyback lookup fails. Otherwise it carries the ticker, the name (the symbol when absent), the ROE (0 when absent) and the buyback flag. Its score is in [0, 6] and its tags are in the fixed order. |
| Buffett.GetDeepBuffettAnalysis | main.py:87-176 | The analysis procedure returns exactly BuffettAnalysis. |
| Buffett.SelectCandidates | main.py:190-194 | The loop keeps the gate's survivors, in input order. |
| Buffett.AnalyseCandidates | main.py:202-206 | The loop keeps the candidates that could be analysed, in candidate order. |
| Buffett.Run | main.py:188-223 | Returns all analysed rows sorted by (score, ROE) from highest, and the first 15 of them for display. |
| Buffett.RankingProperties | main.py:211-223 | The ranking is a permutation of the analysed rows. A strictly higher score comes first, and at equal score a strictly higher ROE. min(15, n) rows are shown, each ranking at least as high as every row left out. |
| Pipeline.Filter | main.py:133-156 | The kept elements form a subsequence of the input. |
| Pipeline.FilterMembership | main.py:133-156 | An element is kept iff it occurs and satisfies the predicate. |
| Pipeline.FilterSnoc | main.py:133-156 | Filtering one more element appends it exactly when it satisfies the predicate. |
| Pipeline.SomesMembership | stock_screening.py:292-294 | A value survives a stage loop iff some step produced it. |
| Pipeline.SomesPosition | stock_screening.py:306-308 | Survivors keep their relative input order. |
| Pipeline.SomesMapAll | stock_screening.py:306-308 | A property every step result has holds of every survivor. |
| Pipeline.SomesMapKeepsOrder | stock_screening.py:319-321 | A step that preserves the score key maps a score-ordered list to a score-ordered list of survivors. |
| Ranking.SortDesc | stock_screening.py:313 | The result is a permutation of the input, ordered by (score, tie-break) from highest. |
| Ranking.TopN | stock_screening.py:313 | The result is the first min(n, length) elements. |
| Ranking.SortedPrecedence | main.py:212 | In a sorted list a strictly higher score comes first, and at equal score a strictly higher tie-break value. |
| Ranking.TopNKeepsBest | main.py:223 | The cut of a sorted list is sorted, and every kept record outranks every dropped one. |
| Ranking.TopNLeavesWorse | stock_screening.py:313 | The cut of a sorted list is a sub-multiset of it, and every record left out is outranked by every record kept. |

## Left out

- Fetching the ticker list from the exchange's spreadsheet, and its fallback list. Both are network I/O; the model takes the list of tickers as an input.
- The market-data provider. It is an input map, one snapshot per ticker. Both scripts fetch a ticker's data again in each pass, and the model assumes every fetch returns the same snapshot.
- Exceptions. An exception that the scripts catch becomes None. Two are modelled: a missing ticker, and in `main.py` an alias row with no period in the buyback scan.
- `main.py`'s test mode, which keeps the first 50 tickers. It is switched off in the source.
- The e-mail sent on an empty first pass before the script exits. In the model that run yields an empty report; in `main.py` an empty candidate list likewise yields empty results.
- Sleeps, progress bars, console output, the CSV file `main.py` writes, chart generation and e-mail (`generate_charts`, `send_email_with_image`, `test_email.py`). None of them decides which tickers are kept or how they rank.
- Formatting:
  - percentages, the "-" placeholders, RSI rounding;
  - the `main.py` display that shows an RSI of exactly 0 as "-";
  - the space-joined tag string. The model keeps the tag list; `Buffett.Tag.Label` gives the printed text of each tag.
- Buffett.BuffettAnalysis: the buyback result is a boolean rather than the strings 「あり」/「なし」. It reports the insider fraction and ROE as numbers, not as formatted percentages.
- Pandas NaN cells and IEEE infinities. Statement cells are real numbers.
- Summary fields reported as null. The model reads a null as missing, so the field's default applies. For most fields the outcome differs from the scripts:
  - A null field that the scripts use in arithmetic or a comparison raises, and the ticker is dropped. The model keeps such a ticker with the default. In `stock_screening.py` this covers `netIncomeToCommon` (line 105), `longTermDebt` when net income is positive (line 105), and `heldPercentInsiders` in the final pass (line 138). In `main.py` it covers `longTermDebt` when net income is positive (line 143) and `heldPercentInsiders` (line 155).
  - A null `returnOnEquity` drops the ticker at the gate in both scripts, and the model's default of 0 fails the gate too. A null `netIncomeToCommon` in `main.py` short-circuits at line 142, which gives the same outcome as the model's 0.
  - A null `shortName` is carried as the name (None) by both scripts. The model shows the symbol instead.
- Buffett.CalculateTechnicals: a 14-session window with neither gains nor losses gives NaN in `main.py`. The model reads 50, the value `Indicators.Rsi` gives when there is no movement. A window with gains and no losses reads 100, the same as the script's division by zero.
- Screening.GetUltimateData: the RSI is the corrected one, `Indicators.Rsi` (see Findings). The insider percentage is computed but no property is stated about it.
- Screening.TopCandidatesProperties: the order among equal scores is not stated. The script's sort is by score alone with pandas' default algorithm, which does not promise a tie order.
- Buffett.RankingProperties: the order of rows with equal score and equal ROE is likewise not stated.

## Findings

| source | as written | input that shows it | evidently intended | confidence | as-written member | corrected member |
|---|---|---|---|---|---|---|
| stock_screening.py:163 | `rs` becomes 0 when the average loss is 0, so RSI = 100 − 100/1 = 0 | closes that rose in each of the last 14 sessions (e.g. 75 strictly increasing closes): zero average loss, positive average gain | RSI 100 for a window with only gains (the limit of the formula, and what `main.py` computes through its division by zero) | medium, not executed | Screening.RsiAsWrittenInvertsSteadyRise | Indicators.Rsi |
| stock_screening.py:312-313 | a second pass with no record builds a table without a "Buffett_Score" column, and `sort_values` raises outside any handler, so the run dies before the final pass | one ticker that passes the gate (revenue 1000, gross profit 450, ROE 22%) with empty statements | an empty report, which the script already handles at lines 343-344 (no survivors after the detailed analysis) | medium, not executed | Screening.EmptyScoreTableAborts | Screening.FinalReport |
