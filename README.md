# tmf-monitor in Dafny

A verified model of the decision core of tmf-monitor. The system watches the
market conditions under which TMF (a 3x leveraged long-Treasury fund) tends to
jump. It reads five indicators:

- the 10- and 30-year Treasury yields;
- VIX;
- the S&P 500 deviation from its 200-day average;
- the two-week change of the 10-year yield.

It turns them into a 0–100 score, classifies the score into four tiers, and
notifies Slack.

The project has six files:

- `scoring.dfy` (`Scoring`): the scorer `TMFScorer` as pure functions.
  - Five clamped, piecewise-linear sub-scores, each rounded to one decimal.
  - The weighted category totals and the 0.40/0.60 composite.
  - The boost: the larger multiplier of the rules that fire, capped at 100.
  - The tier, decided on the unrounded score.
  - The ordered signal list.
- `data_fetch.dfy` (`DataFetch`): the response handling of `DataFetcher`. The
  three imperative operations are methods proved against specification functions:
  - `FetchFredData`, the backward scan of a FRED CSV for its latest value.
  - `CollectHistory` and `CalculateRateChange`, the newest-first history and
    the look-back change.
  - `FetchAllData`, the step-by-step assembly of the indicators with `None`
    for a failed step.

  The S&P 500 filter, mean and deviation are functions.
- `notify.dfy` (`Notify`): `SlackNotifier`.
  - A class whose `enabled` field comes from the webhook URL.
  - The skip rule, the trend, the two score baselines, the truncation of the
    signal list, and the boost line.
  - The POST itself is a parameter.
- `decimal.dfy` (`Decimal`): clamping and decimal rounding on reals.
- `text.dfy` (`Text`): `str.split`, `str.join` and `str.strip` for what the
  other files use.
- `wrappers.dfy` (`Wrappers`): `Option` and `Result`.

Numbers are `real`. Python's `round(x, n)` is modelled as half-up rounding to
`n` decimals, with the bounds `|round(x, n) - x| <= 5 * 10^-(n+1)` proved; the
`Decimal.Round` line under "## Left out" says how this differs from Python.
Python's `float()` on a CSV field is a parameter `parse: string -> Option<real>`.
Each HTTP response body is an input, with `None` for a failed request.

The rate-decline and S&P sub-scores are modelled as the code computes them,
not as its comments describe them:

- Rate decline: 100 at or below -1%, and otherwise `clamp(-change/1.5*100)`.
  So the score is already 0 from a change of 0 upward, and it jumps from below
  66.7 to 100 at -1%.
- S&P deviation: the same shape at -10%.

## Model

| member | source | states |
|---|---|---|
| `Decimal.Clamp` | src/scoring.py:105 | `max(0, min(100, x))` lies in [0,100], is `x` inside it, 0 below and 100 above |
| `Decimal.Round` | src/data_fetch.py:152-154 | rounding to a scale is within half a unit of the input |
| `Decimal.Round1` | src/scoring.py:108 | `round(x, 1)` is within 0.05 of `x` and maps [0,100] into [0,100] |
| `Text.SplitProperties` | src/data_fetch.py:100 | no piece of `s.split(c)` holds `c`, joining the pieces with `c` gives `s` back, and there are two or more pieces iff `c` occurs in `s` |
| `Text.SplitJoin` | src/notify.py:194 | splitting a join of separator-free parts gives the parts back |
| `Text.Strip` | src/data_fetch.py:100 | `strip()` is a slice of its input with only whitespace cut away, and it neither starts nor ends with whitespace |
| `Scoring.Treasury10yScore` | src/scoring.py:101-105 | in [0,100] for every yield; 100 at or below 2%, 0 at or above 6%, strictly between inside |
| `Scoring.Treasury30yScore` | src/scoring.py:113-117 | in [0,100]; 100 at or below 2.5%, 0 at or above 6.5%, strictly between inside |
| `Scoring.RateDeclineScore` | src/scoring.py:125-135 | in [0,100]; 100 at or below -1%, 0 from 0% up, and strictly between 0 and 200/3 for a change in (-1, 0) |
| `Scoring.VixScore` | src/scoring.py:158-164 | in [0,100]; 0 at or below 10, 100 at or above 30, strictly between inside |
| `Scoring.Sp500DeviationScore` | src/scoring.py:172-182 | in [0,100]; 100 at or below -10%, 0 from 0% up, strictly between 0 and 200/3 inside |
| `Scoring.Treasury10yDetail` | src/scoring.py:102-111 | the value is echoed; the score is 0 for an absent yield, else the rounded sub-score, always in [0,100] |
| `Scoring.Treasury30yDetail` | src/scoring.py:114-123 | the value is echoed; the score is 0 when absent, else the rounded sub-score, in [0,100] |
| `Scoring.RateDeclineDetail` | src/scoring.py:126-142 | `(None, 0)` when absent; else the change and its rounded sub-score, in [0,100] |
| `Scoring.VixDetail` | src/scoring.py:159-170 | the value is echoed; the score is 0 when absent, else the rounded sub-score, in [0,100] |
| `Scoring.Sp500DeviationDetail` | src/scoring.py:173-191 | all `None` and 0 when absent; else the deviation, price, average and rounded sub-score, in [0,100] |
| `Scoring.InterestRateScore` | src/scoring.py:97-154 | holds the three details, and its total lies in [0,100] and within 0.05 of the range of the three scores |
| `Scoring.RiskOffScore` | src/scoring.py:156-202 | holds the two details, and its total lies in [0,100] and within 0.05 of the range of the two scores |
| `Scoring.Composite` | src/scoring.py:66-70 | the 0.40/0.60 composite lies between the two category totals, so in [0,100] |
| `Scoring.BoostConditions` | src/scoring.py:204-231 | applied iff the condition list is non-empty iff a rule fires; each label is present iff its rule fires, in rule order; the multiplier is 1.20 if rule B fires, else 1.15 if rule A does, else 1.0 |
| `Scoring.ApplyBoost` | src/scoring.py:75-77 | no boost leaves the total alone; a boost multiplies the total, capped at 100: exactly `total * multiplier` up to 100 and exactly 100 beyond; a boost above 1 raises a positive total strictly below the cap |
| `Scoring.DetermineStatus` | src/scoring.py:233-262 | normal iff score <= 39, precursor iff 39 < score <= 64, alert iff 64 < score <= 79, imminent iff score > 79 |
| `Scoring.IdentifySignals` | src/scoring.py:264-285 | one to four signals; each indicator's signal is present iff its score exceeds 60; the placeholder appears iff none does, and then alone; the order is 10y, rate decline, VIX, S&P |
| `Scoring.FiredSignals` | src/scoring.py:266-280 | the signals that fire: each kind present iff its score exceeds 60, nothing else, in the fixed order, and none at all iff no score exceeds 60 |
| `Scoring.BoostedScore` | src/scoring.py:66-77 | the boosted score lies in [0,100], is never below the composite, and is the composite boosted by the rules that fire |
| `Scoring.BoostRaisesScore` | src/scoring.py:66-77 | when a rule fires on a positive composite and the cap is not reached, the boosted score is strictly above the composite |
| `Scoring.CalculateScore` | src/scoring.py:50-95 | the total is the rounded boosted score in [0,100]; the tier is decided on the unrounded boosted score; the categories, boost, signals and raw indicators are those of the parts |
| `Scoring.Treasury10yScoreDecreasing` | src/scoring.py:105 | the 10-year sub-score never rises with the yield, falls strictly across (2, 6), and its rounded score keeps the order |
| `Scoring.Treasury30yScoreDecreasing` | src/scoring.py:117 | the 30-year sub-score never rises with the yield, falls strictly across (2.5, 6.5), and its rounded score keeps the order |
| `Scoring.VixScoreIncreasing` | src/scoring.py:164 | the VIX sub-score never falls as VIX rises, rises strictly across (10, 30), and its rounded score keeps the order |
| `Scoring.RateDeclineScoreDecreasing` | src/scoring.py:130-135 | despite the threshold branches, the rate-decline sub-score never rises with the change |
| `Scoring.Sp500DeviationScoreDecreasing` | src/scoring.py:177-182 | the deviation sub-score never rises with the deviation |
| `Scoring.BothRulesGiveLargerMultiplier` | src/scoring.py:209-225 | both rules firing give 1.20, not the product 1.15 * 1.20, and list rule A before rule B |
| `Scoring.StatusMonotone` | src/scoring.py:233-262 | a higher score never gives a lower tier |
| `Scoring.StatusAgreesWithTableOnWholeScores` | src/scoring.py:32-37 | on the whole scores 0..100 the tier is exactly the one whose `THRESHOLDS` band holds the score |
| `Scoring.StatusBetweenTableBands` | src/scoring.py:233-262 | 39.5 lies in no band of the table and is still classified, as precursor |
| `Scoring.NoIndicatorsScoreZero` | src/scoring.py:110-111 | with every indicator absent, the score is 0, the tier is normal, there is no boost and only the placeholder signal |
| `Scoring.SignalsReportPresentIndicators` | src/scoring.py:264-285 | every signal in a result reports the value of an indicator that was present |
| `Scoring.SignalCarriesItsDetail` | src/scoring.py:269-280 | each signal in the list carries the value of the detail that fired it, and that detail scored above 60 |
| `Scoring.AllSignalsFire` | src/scoring.py:264-285 | with every sub-score above 60 the list is exactly the four signals, 10-year, rate decline, VIX, S&P 500, each with its value |
| `Scoring.Treasury30yNeverSignals` | src/scoring.py:264-285 | changing the 30-year yield never changes the signal list |
| `Scoring.SignalsIgnoreTreasury30y` | src/scoring.py:264-285 | two interest-rate scores with the same 10-year and rate-decline details give the same signal list |
| `Scoring.StatusDecidedOnUnroundedScore` | src/scoring.py:79-86 | a result can report 39.0 as its score while its tier is precursor, because the tier is decided before rounding |
| `Scoring.ExampleAllExtreme` | src/scoring.py:50-95 | all indicators at their extremes give category totals of 100, both boosts, a score capped at 100, tier imminent and all four signals in order |
| `Scoring.ExampleBaseline` | src/scoring.py:50-95 | the baseline indicators give 35.0 and 12.5 as category totals, a score of 21.5, tier normal and no boost |
| `Scoring.ExampleRatesOnly` | src/scoring.py:50-95 | strong rate indicators with no risk data trigger only the 1.15 boost and give tier precursor |
| `DataFetch.ResponseLines` | src/data_fetch.py:100 | the stripped text splits into at least one line, and into two or more iff it holds a newline; the lines hold no newline and joined with newlines give back the stripped text |
| `DataFetch.ValueField` | src/data_fetch.py:106-107 | a line without a comma has no value; a value is never "." or empty and holds no comma |
| `DataFetch.ValueFieldOfRow` | src/data_fetch.py:106-107 | the row `date,value` yields exactly `value` when it is a usable field |
| `DataFetch.LastDataLine` | src/data_fetch.py:105-109 | finds no line iff no line carries a value; otherwise it finds a line with a value after which no line has one |
| `DataFetch.FredLatest` | src/data_fetch.py:100-111 | fewer than two lines is the no-data error; no data line below the header is the no-valid-data error; otherwise the value parsed from the last data line below the header |
| `DataFetch.FredLatestIgnoresHeader` | src/data_fetch.py:105 | replacing the header line never changes the result |
| `DataFetch.FredLatestAt` | src/data_fetch.py:105-109 | a data line below the header with no data line after it decides the result: its parsed value, or the invalid-number error when `float` rejects it |
| `DataFetch.FetchFredData` | src/data_fetch.py:78-114 | the backward scan with an early return computes exactly the latest value, with `days_back` having no effect |
| `DataFetch.ValidHistory` | src/data_fetch.py:186-193 | the history is no longer than the rows, and its only error is a rejected number |
| `DataFetch.ValidHistoryNewestFirst` | src/data_fetch.py:187-193 | the history is empty iff no row is a data line, and otherwise starts with the value of the last data line |
| `DataFetch.ParseAll` | src/data_fetch.py:192 | `float` of every field, entry by entry, or nothing exactly when it rejects some field |
| `DataFetch.ValidHistoryIsReversedData` | src/data_fetch.py:186-193 | the history is the parsed values of all the data lines in reverse, newest first, and the invalid-number error exactly when `float` rejects one of them |
| `DataFetch.ValidHistoryEntries` | src/data_fetch.py:186-193 | a history has one entry per data line, entry `i` is the parsed value of the `(i + 1)`-th data line from the end, and it fails iff some data line is rejected |
| `DataFetch.CollectHistory` | src/data_fetch.py:183-193 | the loop collects exactly the newest-first history of the lines after the header |
| `DataFetch.RateChangeAsWritten` | src/data_fetch.py:195-199 | the guard as written: too short below `weeks * 5`, an index error at exactly `weeks * 5`, and success only beyond it |
| `DataFetch.RateChangeFrom` | src/data_fetch.py:195-207 | rejects a history iff it has at most `weeks * 5` entries; otherwise the change against entry `weeks * 5` |
| `DataFetch.ChangeAgainst` | src/data_fetch.py:199-207 | fails iff the past value is 0; `weeks` is echoed; the three values are within rounding of current, past and `(current - past) / past * 100`; a fall from a positive value gives a change <= 0 |
| `DataFetch.GuardAdmitsUnindexableHistory` | src/data_fetch.py:195-199 | a history of exactly `weeks * 5` entries passes the guard as written and then fails on the index |
| `DataFetch.GuardsAgreeUpToTheError` | src/data_fetch.py:195-210 | the guard as written and the corrected guard succeed on the same histories with the same result |
| `DataFetch.RateChangeOf` | src/data_fetch.py:171-207 | a rate change needs a current value, and it echoes `weeks` |
| `DataFetch.RateChangeOfLines` | src/data_fetch.py:171-207 | on the response lines, a rate change needs a current value, and it echoes `weeks` |
| `DataFetch.LookBackIsDataLine` | src/data_fetch.py:186-199 | the look-back entry `valid_data[weeks * 5]` is the parsed value of the data line `weeks * 5` places before the newest, and the change is taken against it |
| `DataFetch.RateChangeAgainstDataLine` | src/data_fetch.py:171-207 | a successful rate change compares the latest value of the current response with the data line `weeks * 5` places before the newest in the history response |
| `DataFetch.CalculateRateChange` | src/data_fetch.py:160-210 | the method computes exactly the change of the latest value against the newest-first history |
| `DataFetch.ValidCloses` | src/data_fetch.py:142 | filtering keeps exactly the present closes and never lengthens the list |
| `DataFetch.ValidClosesAppend` | src/data_fetch.py:142 | filtering keeps the order: the closes of a concatenation are those of each part in turn |
| `DataFetch.SumBounds` | src/data_fetch.py:148 | a sum of values in [lo, hi] lies between `n * lo` and `n * hi` |
| `DataFetch.Sp500FromCloses` | src/data_fetch.py:142-155 | fails as too short iff fewer than 200 closes remain, divides by zero iff the 200-close mean is 0, and otherwise gives the price, the mean and the deviation, each within rounding |
| `DataFetch.MovingAverageWithinRange` | src/data_fetch.py:147-149 | the average lies within the range of the closes, and positive closes always give a result |
| `DataFetch.WindowMeanWithinRange` | src/data_fetch.py:148 | when every value lies in [lo, hi], so does the mean of the last 200 |
| `DataFetch.FredSeries` | src/data_fetch.py:31-37 | a failed request is an error; otherwise the latest value of the body |
| `DataFetch.AllIndicators` | src/data_fetch.py:20-76 | each of the five indicators is its own step's value, or `None` where that step failed |
| `DataFetch.StepsAreIndependent` | src/data_fetch.py:39-45 | a change in the 30-year response changes only the 30-year indicator |
| `DataFetch.FetchAllData` | src/data_fetch.py:20-76 | the step-by-step assembly produces exactly those indicators |
| `Notify.ChosenUrl` | src/notify.py:19 | the argument URL when it is non-empty, else the environment's; the result is non-empty iff either is |
| `Notify.SlackNotifier.constructor` | src/notify.py:14-25 | enabled iff the chosen URL is non-empty |
| `Notify.TrendOf` | src/notify.py:91-99 | up iff the difference is positive, down iff negative, no change iff zero |
| `Notify.TrendReverses` | src/notify.py:88-99 | swapping the two scores swaps up and down and keeps no change |
| `Notify.PreviousScore` | src/notify.py:87 | the previous total when there is a previous result, else the given default |
| `Notify.FirstSignals` | src/notify.py:148 | `signals[:n]` is a prefix of the signals with `min(n, len)` entries |
| `Notify.PreviousLevel` | src/notify.py:41 | the previous tier's level, or on a first run a level no tier has |
| `Notify.LevelsDiffer` | src/scoring.py:233-262 | two tiers have the same level name iff they are the same tier |
| `Notify.SkippedExactlyOnSameStatus` | src/notify.py:40-46 | skipped iff there is a previous result with the same tier; a first run never skips |
| `Notify.BuildStatusChangeMessage` | src/notify.py:81-169 | diffs against the previous score or 0, with a trend of the same sign; the previous tier iff there is a previous result; the first three signals |
| `Notify.StatusChangePost` | src/notify.py:27-56 | a message goes out iff enabled and not (a previous result with the same tier), and it is the built message |
| `Notify.ConditionLabels` | src/notify.py:194 | one label per boost condition, in stored order |
| `Notify.BoostText` | src/notify.py:191-194 | the boost line is non-empty iff a boost was applied, and then joins the labels in stored order |
| `Notify.BoostTextListsConditions` | src/notify.py:192-194 | cutting the prefix and splitting the boost line on the separator gives the condition labels back |
| `Notify.BuildDailySummaryMessage` | src/notify.py:171-254 | diffs against the previous score or against itself on a first run (no change); both category totals; the boost line is the boost's text, non-empty iff boosted; the first four signals |
| `Notify.DailySummaryPost` | src/notify.py:58-79 | a summary goes out iff enabled, and it is the built message |
| `Notify.FirstRunBaselines` | src/notify.py:177-178 | on a first run the status change reports the whole score as a rise (none if 0) while the summary reports no change |
| `Notify.DailySummaryShowsAllSignals` | src/notify.py:242 | a scored result's signals all appear in the daily summary |
| `Notify.StatusChangeDropsOnlySp500` | src/notify.py:148 | the status change loses a signal only when all four fired, and then only the S&P 500 one |
| `Notify.SlackNotifier.SendStatusChangeNotification` | src/notify.py:27-56 | posts exactly the status-change post, and only to a non-empty URL; nothing when disabled; true iff posted and accepted |
| `Notify.SlackNotifier.SendDailySummary` | src/notify.py:58-79 | posts the summary whenever enabled, and only to a non-empty URL; true iff enabled and accepted |
| `Notify.SlackNotifier.SendToSlack` | src/notify.py:256-275 | posts nothing when disabled; otherwise the message goes to the non-empty webhook URL and the outcome is the webhook's |

## Left out

- HTTP: requests, `raise_for_status`, timeouts and Yahoo's JSON navigation are not modelled. Each response body is an input, with `None` for a failed request. A failed JSON lookup is folded into a `None` close list.
- The POST of `_send_to_slack` is a `delivered` parameter, and `os.environ` is a constructor parameter.
- `time.sleep`, `print`, `datetime.now()` and the `timestamp`/`date` fields of `fetch_all_data` are not modelled: they are side effects or clock reads.
- `Decimal.Round`: rounds half up on exact reals. Python's `round` rounds half to even on the binary value, so ties and floating-point representation error are not modelled; the rounding bounds are.
- `DataFetch.ValueField`: `float()` is the `parse` parameter, so which strings parse, and to what, is left abstract.
- `Text.Strip`: strips only the six characters of `string.whitespace` (space, `\t`, `\n`, `\r`, `\x0b`, `\x0c`); Python's `str.strip()` also strips `\x1c`–`\x1f` and Unicode whitespace.
- `DataFetch.ValidHistory`: keeps only the values; the `date` of each history entry is never read and is dropped.
- `DataFetch.Sp500FromCloses`: the deviation is computed from the unrounded price and average, so the three returned values agree with each other only up to rounding.
- `DataFetch.RateChangeOf`: the two DGS10 downloads of `_calculate_rate_change` are two separate inputs. Exceptions are kept as distinct `FetchError` values, although the source re-raises them all as one exception type.
- `DataFetch.RateChangeOf`: applies the corrected look-back guard (`RateChangeFrom`), so a history of exactly `weeks * 5` entries gives `NotEnoughHistory` where the code as written raises an index error; `GuardsAgreeUpToTheError` shows every successful result is the same, and both are re-raised as the same exception type.
- `DataFetch.RateChangeOfLines`: applies the same corrected look-back guard, so a history of exactly `weeks * 5` entries gives `NotEnoughHistory` where the code as written raises an index error; `GuardsAgreeUpToTheError` shows no successful result changes.
- `DataFetch.CalculateRateChange`: equals `RateChangeOf`, so it carries the same corrected guard and the same difference in the error for exactly `weeks * 5` entries.
- `Notify.PreviousScore`: the previous result is an `Option`. A previous result that is an empty dict (falsy but not `None`) is therefore modelled as no previous result. In the source it also acts as no previous result in the skip test and in both messages.
- The Japanese labels of tiers and signals, emoji, colours other than the tier table, Slack Block Kit layout, the `+.1f`/`.1f` display formats and the timestamp line are not reproduced. Messages keep their decision fields only, and signals carry their value rather than their formatted text.
- `TMFScorer.BASELINE` is never read by the source and is left out. The lower bounds of `THRESHOLDS` are not used by the classification, which is shown by `Scoring.StatusBetweenTableBands`.
- `_identify_signals` takes an `indicators` argument it never reads; `Scoring.IdentifySignals` omits it.
- `src/main.py` is left out: it only orchestrates file I/O, the dashboard URL and a rendering module, and that module is not part of this model.

## Findings

| source | as written | input that shows it | evidently intended | confidence | as-written member | corrected member |
|---|---|---|---|---|---|---|
| src/data_fetch.py:195-199 | the guard rejects `len(valid_data) < weeks * 5`, then reads `valid_data[weeks * 5]` | a history of exactly 10 valid entries with `weeks = 2`: the guard passes and the index is out of range | reject every history of at most `weeks * 5` entries (`<=`) | medium, not executed; both raise, so only the error message differs | `DataFetch.GuardAdmitsUnindexableHistory` | `DataFetch.RateChangeFrom` |
