# Trading-signal engine of a Telegram market bot

This project models the part of the bot that turns market bars into a
trading signal, and the conversation steps that lead up to it:

- **Indicators.** RSI (rolling means of gains and losses), MACD
  (exponential moving averages with `adjust=False`) and OBV
  (a cumulative signed volume). `indicators.dfy` holds the
  parameterised calculators, and `legacy_engine.dfy` the fixed
  RSI(14) / MACD(12, 26, 9) variants with their own column names.
- **The dynamic signal generator** (`signal_engine.dfy`). It:
  - runs the indicators in list order;
  - drops every row holding a NaN;
  - marks buy and sell rows with masks;
  - writes the Signal and a clipped Confidence;
  - returns the last surviving row.
- **The legacy RSI/MACD generator** (`legacy_engine.dfy`). It returns
  the latest row carrying a non-zero signal, or the last row when there
  is none.
- **The signal handler** (`analysis.dfy`). It:
  - checks the request held in the conversation state;
  - resolves the exchange symbol;
  - chooses the feed (the crypto exchange for crypto, the general market
    feed otherwise) and the exchange's start time (`providers.dfy`);
  - configures per-asset RSI thresholds;
  - builds the indicator list by conditional appends;
  - summarises the latest row as a direction, entry price and confidence.
- **The interval and period menus** (`session.dfy`). They validate a
  choice against the interval → allowed-periods table and update the
  chat's `user_data` dictionary. That dictionary is the `UserData` class,
  whose `fields` map the handlers reassign.

Numbers are exact reals. pandas' NaN is `None`, and a comparison with NaN
is false, as in pandas. Each loop of the source that updates state is a
Dafny method proved equal to a specification function:

- the indicator loop;
- the mask and confidence writes, done over arrays;
- the backward search for the latest signal;
- the indicator-list appends;
- the two menu handlers and the signal handler.

Properties are then proved about those functions.

Consequences of the code that the verified model makes explicit:

- **A constant closing price gives NaN RSI.** Average gain and average
  loss are then both 0, and 0/0 is NaN. One may expect 100 here, but the
  model follows the code.
- **Only the "combined" signal type can produce a report.** The dynamic
  generator always reads the MACD, MACD_Signal, OBV and RSI columns. Any
  other signal type therefore ends in a missing-column error
  (`Analysis.SingleIndicatorTypesFail`).
- **As written, no Buy or Sell is ever reported.** The handler reads an
  `Exit_Price` column the generator never produces. `Analysis.SignalCallback`
  models the handler as written (`Analysis.CombinedRequestAsWritten`); the
  outcome with the evidently intended summary is kept beside it
  (`Analysis.SignalOutcome` with `AsIntended`,
  `Analysis.IntendedCombinedRequestReports`). See "## Findings".
- **No period menu is ever shown.** The interval handler and the signal
  handler's back button call `get_period_keyboard` with the periods, but
  bot/keyboards.py:20 defines it without parameters. The call raises
  TypeError after the state writes, so the new state is kept and nothing
  is shown. `IntervalMenu.IntervalCallback` and `Analysis.SignalCallback`
  model this (`KeyboardTypeError`). The offered periods are kept beside it,
  under the `AsIntended` reading (`IntervalMenu.IntervalOffers`,
  `Analysis.BackButtonOutcome`).

## Model

| member | source | states |
|---|---|---|
| Frames.KeptFrom | core/signal_engine.py:117 | the rows `dropna` keeps are exactly the complete rows, in increasing order |
| Frames.DropNa | core/signal_engine.py:117 | `dropna` keeps the column set, every kept value is defined, and row k of the result is the k-th complete row of the input |
| Frames.LastKeptIsLatestComplete | core/signal_engine.py:117 | the last kept row is complete and no complete row comes after it |
| Frames.DropNaEmptyIff | core/signal_engine.py:117 | `dropna` yields no rows iff no row of the input is complete |
| Indicators.GainsAndLosses | core/signal_engine.py:76-78 | gains and losses are non-negative and never both non-zero; both are 0 on the first row (NaN diff replaced by 0); afterwards gain − loss is the price change |
| Indicators.RollingMean | core/signal_engine.py:79-80 | the rolling mean is defined exactly from row `window − 1` on |
| Indicators.RollingMeanNonnegative | core/signal_engine.py:79-80 | the rolling mean of non-negative gains or losses is non-negative wherever defined |
| Indicators.RsiOf | core/signal_engine.py:81-82 | defines one RSI value from the two averages under IEEE division: 0/0 is NaN, x/0 is 100, else 100 − 100/(1 + gain/loss); its four outcomes are stated by Indicators.RsiCases |
| Indicators.RsiColumn | core/signal_engine.py:76-82 | one RSI value per Close row, NaN until both rolling means are defined, then `RsiOf` of the two averages |
| Indicators.RsiWarmup | core/signal_engine.py:79-82 | RSI is NaN on the first `period − 1` rows |
| Indicators.RsiCases | core/signal_engine.py:79-82 | RSI is NaN iff average gain and loss are both 0; it is 100 iff only the loss average is 0, and 0 iff only the gain average is 0; otherwise it lies in [0, 100] |
| Indicators.RsiRange | core/signal_engine.py:81-82 | every defined RSI value lies in [0, 100] |
| Indicators.FlatCloseHasNoRsi | core/signal_engine.py:76-82 | a constant closing price gives NaN RSI on every row |
| Indicators.Alpha | core/signal_engine.py:94-95 | the EMA smoothing factor 2/(span+1) lies in (0, 1] |
| Indicators.Ema | core/signal_engine.py:94-97 | `ewm(span, adjust=False).mean()`: one value per input row, seeded with the first value; its recurrence, bounds and constants are stated by the lemmas below |
| Indicators.MacdLine | core/signal_engine.py:94-96 | one value per row, EMA(fast) − EMA(slow) of the Close |
| Indicators.MacdSignalLine | core/signal_engine.py:97 | one value per row, the EMA of the MACD line with the signal span |
| Indicators.EmaRecurrence | core/signal_engine.py:94-95 | the EMA starts at the first value, then each value is (1−α)·previous + α·current |
| Indicators.EmaBounded | core/signal_engine.py:94-97 | an EMA stays within any bounds its input stays within |
| Indicators.EmaOfConstant | core/signal_engine.py:94-97 | the EMA of a constant series is that constant |
| Indicators.FlatCloseHasZeroMacd | core/signal_engine.py:94-97 | a constant closing price gives MACD 0 and signal line 0 on every row |
| Indicators.ObvTerms | core/signal_engine.py:103-105 | one term per row, volume · sign(Δclose), NaN on row 0 where `diff` is NaN |
| Indicators.CumSumFrom | core/signal_engine.py:106 | `cumsum` skipping NaN: one value per term, NaN where the term is NaN, else the running sum of the defined terms |
| Indicators.ObvColumn | core/signal_engine.py:103-106 | the OBV column, one value per row; its closed form is Indicators.ObvClosedForm |
| Indicators.ObvClosedForm | core/signal_engine.py:103-106 | OBV is NaN on row 0; on row i it equals the sum of volume·sign(Δclose) over rows 1..i |
| Indicators.ObvFollowsTrend | core/signal_engine.py:103-106 | with non-negative volume, OBV never falls while prices never fall, and never rises while they never rise |
| Indicators.RsiCalculate | core/signal_engine.py:73-83 | adds the RSI column and leaves every other column and the row count unchanged |
| Indicators.MacdCalculate | core/signal_engine.py:91-98 | adds MACD = EMA(fast) − EMA(slow) and MACD_Signal = EMA(signal) of MACD, leaving every other column unchanged |
| Indicators.ObvCalculate | core/signal_engine.py:101-107 | adds the OBV column and leaves every other column unchanged |
| Indicators.Calculate | core/signal_engine.py:67-107 | each indicator adds its own columns and passes every other column through unchanged |
| Indicators.ApplyAll | core/signal_engine.py:115-116 | applying the list in order keeps the rows; the columns are the input's plus every indicator's own, and the others are unchanged |
| SignalEngine.BullishCross | core/signal_engine.py:125-126 | MACD above its signal line on a row whose predecessor had it at or below; false on the first row, where `shift` is NaN |
| SignalEngine.BearishCross | core/signal_engine.py:127-128 | MACD below its signal line on a row whose predecessor had it at or above; false on the first row |
| SignalEngine.ObvRose | core/signal_engine.py:129 | OBV strictly above the previous row; false on the first row, where `diff` is NaN |
| SignalEngine.BuyAt | core/signal_engine.py:131 | the buy mask: RSI below the buy threshold, a bullish cross and a rising OBV |
| SignalEngine.SellAt | core/signal_engine.py:132 | the sell mask: RSI above the sell threshold, a bearish cross and no OBV rise |
| SignalEngine.BuyConfidence | core/signal_engine.py:138-142 | the buy confidence before the clip: (depth below the buy threshold / threshold + MACD lead / (abs(MACD) + ε) + the OBV trend) / 3; bounded by SignalEngine.ConfidenceBounds |
| SignalEngine.SellConfidence | core/signal_engine.py:144-148 | the sell confidence before the clip: (excess over the sell threshold / (100 − threshold) + MACD lag / (abs(MACD) + ε) + no OBV rise) / 3; bounded by SignalEngine.ConfidenceBounds |
| SignalEngine.SignalAt | core/signal_engine.py:119-135 | a row's Signal: −1 on the sell mask, 1 on the buy mask, else 0; the masks are disjoint (SignalEngine.SignalFollowsMasks) |
| SignalEngine.ConfidenceAt | core/signal_engine.py:137-150 | a row's Confidence: the mean of the three masked terms, 0 off the masks, clipped to [0, 1] (SignalEngine.ConfidenceBounds) |
| SignalEngine.Generate | core/signal_engine.py:113-152 | the generator as a function: fold the indicators, drop incomplete rows, a KeyError for an unconfigured class or a missing column in read order, else the last surviving row; SignalEngine.GenerateSignals is proved equal to it |
| SignalEngine.FirstMissing | core/signal_engine.py:125-131 | the first column the generator reads that the table lacks, in read order MACD, MACD_Signal, OBV, RSI: the KeyError it raises; used by SignalEngine.GenerateNeedsAllIndicators |
| SignalEngine.SignalFollowsMasks | core/signal_engine.py:125-135 | buy and sell masks never overlap; Signal is 1 iff the buy mask holds, −1 iff the sell mask holds, else 0 |
| SignalEngine.ConfidenceBounds | core/signal_engine.py:137-150 | confidence lies in [0, 1]; it is 0 on rows without a signal and above 1/3 on signal rows, where the OBV term is 1 |
| SignalEngine.FirstRowHasNoSignal | core/signal_engine.py:125-132 | the first surviving row has no crossover and no OBV rise (shift and diff are NaN there), so it never signals |
| SignalEngine.RunIndicators | core/signal_engine.py:114-116 | the indicator loop produces the fold of the calculators over the list |
| SignalEngine.MarkSignals | core/signal_engine.py:119-150 | the masked writes and the clip give each row its specified Signal and Confidence |
| SignalEngine.GenerateSignals | core/signal_engine.py:113-152 | the generator returns the specified result: KeyError for an unconfigured asset class or missing column, else the last surviving row |
| SignalEngine.GenerateOk | core/signal_engine.py:113-152 | a successful run had a configured asset class and every column it reads, and returns the last surviving row or nothing |
| SignalEngine.GenerateRowCount | core/signal_engine.py:117-152 | a successful result has at most one row, and none iff no row of the indicator table is complete |
| SignalEngine.GenerateReturnsLastRow | core/signal_engine.py:150-152 | the returned row is the latest complete row; it carries the ticker, that row's Close, a Signal in {−1, 0, 1} and a matching bounded Confidence |
| SignalEngine.AddedColumnsIff | core/signal_engine.py:115-116 | a column is added by the list iff some indicator in it owns the column |
| SignalEngine.GenerateNeedsAllIndicators | core/signal_engine.py:122-131 | with RSI, MACD and OBV in the list the run never errs; without MACD (on a table lacking it) it fails reading MACD |
| LegacyEngine.LegacyCalculate | core/indicators.py:44-86 | RSI(14), MACD(12, 26, 9) under the MACD_12_26_9 / MACDs_12_26_9 names, and OBV, each written over the input's columns |
| LegacyEngine.LegacyRsiWarmup | core/indicators.py:52-57 | the fixed RSI is NaN on the first 13 rows |
| LegacyEngine.LegacyApplyAll | core/indicators.py:93-94 | the indicator loop keeps the row count and the priced columns; its columns are the input's plus every calculator's own, and the others pass through unchanged |
| LegacyEngine.LegacyAddedColumnsIff | core/indicators.py:93-94 | a column is written by the list iff some calculator in it writes that column |
| LegacyEngine.LegacyColumnsPresent | core/indicators.py:93-107 | on bars without the read columns, every read of the legacy generator succeeds iff the list holds both the fixed RSI and the fixed MACD |
| LegacyEngine.LegacyRunIndicators | core/indicators.py:91-94 | the loop produces the fold of the fixed calculators |
| LegacyEngine.LegacyBuyAt | core/indicators.py:101-106 | the legacy buy mask: RSI below 40 and a bullish MACD_12_26_9 cross; stated by LegacyEngine.LegacyRowProperties |
| LegacyEngine.LegacySellAt | core/indicators.py:103-107 | the legacy sell mask: RSI above 60 and a bearish cross; stated by LegacyEngine.LegacyRowProperties |
| LegacyEngine.LegacyBuyConfidence | core/indicators.py:112-116 | the legacy buy confidence before the clip: ((40 − RSI) / 40 + MACD lead / (abs(MACD) + ε)) / 2 |
| LegacyEngine.LegacySellConfidence | core/indicators.py:118-121 | the legacy sell confidence before the clip: ((RSI − 60) / 40 + MACD lag / (abs(MACD) + ε)) / 2 |
| LegacyEngine.LegacySignalAt | core/indicators.py:98-110 | a row's legacy Signal: −1 on the sell mask (written last), 1 on the buy mask, else 0; stated by LegacyEngine.LegacyRowProperties |
| LegacyEngine.LegacyConfidenceAt | core/indicators.py:112-123 | a row's legacy Confidence: the masked formula, 0 off the masks, clipped to [0, 1]; stated by LegacyEngine.LegacyRowProperties |
| LegacyEngine.LegacyFirstMissing | core/indicators.py:101-107 | the first column the legacy generator reads that the table lacks, in read order MACD_12_26_9, MACDs_12_26_9, RSI: the KeyError it raises; used by LegacyEngine.LegacyGenerate |
| LegacyEngine.LegacyGenerate | core/indicators.py:90-136 | the legacy generator as a function: the latest row with a signal, else the last row, else nothing, after the column reads; LegacyEngine.LegacyGenerateSignals is proved equal to it |
| LegacyEngine.LegacyRowProperties | core/indicators.py:101-123 | masks never overlap; Signal 1 iff RSI < 40 and a bullish cross, −1 iff RSI > 60 and a bearish cross; confidence in [0, 1], 0 without a signal and positive with one |
| LegacyEngine.LegacyMarkSignals | core/indicators.py:98-123 | the masked writes and the clip give each row its specified Signal and Confidence |
| LegacyEngine.LatestSignalRow | core/indicators.py:133-135 | picks the latest row with a non-zero signal, or none when every row is 0 |
| LegacyEngine.FindLatestSignal | core/indicators.py:133-135 | the backward search finds the latest non-zero signal, or reports that none exists |
| LegacyEngine.LatestSignalRowUnique | core/indicators.py:133-135 | any row index with the latest-signal property is the one the specification picks |
| LegacyEngine.LegacyGenerateSignals | core/indicators.py:90-136 | the legacy generator returns the specified result |
| LegacyEngine.LegacyResultRow | core/indicators.py:96-136 | at most one row, none iff no row survives; it is the latest signalling row when one exists, else the last row; it carries the ticker and a confidence in [0, 1], and its Signal is 0 iff no surviving row signals |
| Providers.ProviderFor | bot/handlers/analysis.py:63 | the exchange feed is used iff the asset class is crypto |
| Providers.LookbackMs | core/signal_engine.py:46-54 | the lookback is a positive whole number of days, at most a year, and 30 days for an unlisted period |
| Providers.Since | core/signal_engine.py:54 | the exchange start time lies before now |
| Providers.LookbackTable | core/signal_engine.py:46-53 | the table holds 7, 14, 30, 30, 180 and 365 days of 86,400,000 ms |
| IntervalMenu.RemoveAll | bot/handlers/interval_callback.py:34 | `str.replace(pat, "")`, scanning left to right; the result is never longer than the text |
| IntervalMenu.RemoveLeading | bot/handlers/interval_callback.py:34 | a leading occurrence is removed and the rest is processed on its own |
| IntervalMenu.RemoveAbsent | bot/handlers/interval_callback.py:34 | text in which the pattern occurs nowhere is returned unchanged |
| IntervalMenu.RemovePrefix | bot/handlers/interval_callback.py:33-34 | "interval_" + t starts with the prefix, and removing it gives back t when t is shorter than the prefix |
| IntervalMenu.IntervalStep | bot/handlers/interval_callback.py:33-50 | the handler as a function of the old `user_data`, the data and the reading: the new state, and the reply, which for an accepted interval is the TypeError as written and the period menu as intended |
| IntervalMenu.OfferedPeriods | bot/handlers/interval_callback.py:38 | the periods offered for an interval: its table row, or 30d/6mo/1y when absent; stated by IntervalMenu.IntervalOffers and IntervalMenu.PeriodTableShape |
| IntervalMenu.IntervalCallback | bot/handlers/interval_callback.py:33-50 | the handler's state update and reply are those of `IntervalStep` as written: an accepted interval is stored and the keyboard call then raises TypeError |
| IntervalMenu.IntervalAcceptance | bot/handlers/interval_callback.py:33-42 | accepted iff the stripped token is a valid interval; acceptance sets state and interval only; the reply is the TypeError as written and the token's table row as intended; rejection changes nothing and shows nothing |
| IntervalMenu.PeriodTableShape | bot/handlers/interval_callback.py:16-24 | every valid interval has a row of three periods drawn from 7d, 14d, 30d, 6mo, 1y |
| IntervalMenu.IntervalOffers | bot/handlers/interval_callback.py:17-38 | as intended, 1m, 5m, 15m and 30m offer 7d/14d/30d, 1h offers 14d/30d/6mo and 1d offers 30d/6mo/1y |
| IntervalMenu.DoubledPrefixAccepted | bot/handlers/interval_callback.py:33-37 | every "interval_" is removed, so "interval_interval_1d" is accepted as 1d |
| IntervalMenu.BackToTickers | bot/handlers/interval_callback.py:43-50 | going back sets state to select_ticker iff the stored asset class is one of the five; otherwise nothing changes |
| IntervalMenu.PeriodKeyboardCounterexample | bot/handlers/interval_callback.py:36-41 | choosing 1h stores the interval; as written the reply is the TypeError, as intended the menu 14d, 30d, 6mo |
| PeriodMenu.PeriodCallback | bot/handlers/period_callback.py:12-34 | the handler's state update and reply are those the step function specifies |
| PeriodMenu.PeriodStep | bot/handlers/period_callback.py:22-34 | the handler as a function of the old `user_data` and the data: the new state and the reply |
| PeriodMenu.AllowedPeriods | bot/handlers/period_callback.py:22 | the periods allowed for the stored interval: its table row, or 30d/6mo/1y when the interval is absent or unlisted; stated by PeriodMenu.UnknownIntervalDefault and PeriodMenu.TablesAgree |
| PeriodMenu.TablesAgree | bot/handlers/period_callback.py:13-22 | the period handler's table and default equal the interval handler's |
| PeriodMenu.PeriodAcceptance | bot/handlers/period_callback.py:22-34 | accepted iff the period is allowed for the stored interval, then state and period are set and nothing else; the back button sets state to select_interval only; other data changes nothing |
| PeriodMenu.YearOfMinutesRefused | bot/handlers/period_callback.py:14-23 | "1y" under the 1m interval is refused and changes nothing |
| PeriodMenu.UnknownIntervalDefault | bot/handlers/period_callback.py:22 | without a known interval the allowed periods are 30d, 6mo, 1y |
| Analysis.ReadRequest | bot/handlers/analysis.py:16-44 | a blank required entry is exactly the MissingRequestData error; a request passes iff no required entry is blank and the ticker is listed for the asset class; then ticker, asset class, period and interval are the stored entries and the symbol is the table's |
| Analysis.SignalTypeDefault | bot/handlers/analysis.py:20 | the signal type is "combined" when the key is absent, and the stored value (even a blank one) when present |
| Analysis.SymbolFor | bot/handlers/analysis.py:38-39 | the exchange symbol listed for the asset class and menu ticker, or none; its use is stated by Analysis.ReadRequest and Analysis.RequestChecks |
| Analysis.ThresholdsFor | bot/handlers/analysis.py:67-70 | the RSI thresholds satisfy 0 < buy < sell < 100 and buy + sell = 100 for every asset class |
| Analysis.ThresholdTable | bot/handlers/analysis.py:67-70 | 30/70 for crypto and forex, 40/60 for stocks and indices, 35/65 for every other class |
| Analysis.ConfigFor | bot/handlers/analysis.py:67-70 | the config holds exactly the request's asset class, with valid thresholds |
| Analysis.IndicatorList | bot/handlers/analysis.py:71-77 | every indicator built is valid for its calculator |
| Analysis.BuildIndicators | bot/handlers/analysis.py:71-77 | the three conditional appends build the selection of RSI, MACD, OBV the signal type makes |
| Analysis.IndicatorListUnfolded | bot/handlers/analysis.py:71-77 | the list is the RSI, MACD, OBV appends, each kept exactly when the type names it or is combined |
| Analysis.IndicatorSelection | bot/handlers/analysis.py:71-77 | combined gives RSI(14), MACD(12, 26, 9), OBV in order; each single name gives its own indicator; any other type gives none |
| Analysis.Percent | bot/handlers/analysis.py:85 | the displayed confidence is at most 100, equals 100·c for c ≤ 1, and is non-negative for non-negative c |
| Analysis.SummariseAsWritten | bot/handlers/analysis.py:81-85 | the summary the code performs: no rows is an IndexError, a Buy or Sell row the Exit_Price KeyError, a Hold row a Hold without prices; stated by Analysis.AsWrittenOnlyHolds |
| Analysis.Summarise | bot/handlers/analysis.py:81-85 | the evidently intended summary, the absent exit read as "N/A"; stated by Analysis.SummaryMeaning |
| Analysis.AsWrittenOnlyHolds | bot/handlers/analysis.py:81-85 | as written, a Buy or Sell row ends in the Exit_Price KeyError, and every successful summary is a Hold without prices |
| Analysis.SummaryMeaning | bot/handlers/analysis.py:81-85 | no rows is an error; otherwise Buy iff Signal 1, Sell iff −1, an entry (the Close) iff Signal ≠ 0, and confidence 100·c capped at 100 |
| Analysis.ExitPriceCounterexample | bot/handlers/analysis.py:84 | a Buy row errs as written, and is reported as a Buy at its Close as intended |
| Analysis.FetchFor | bot/handlers/analysis.py:63-64 | the exchange feed, with a start time one lookback before now, exactly for crypto |
| Analysis.Run | bot/handlers/analysis.py:67-79 | the generator run with the one-entry config and the built indicator list; stated by Analysis.CombinedRun, Analysis.MacdAloneLacksObv and Analysis.OthersLackMacd |
| Analysis.Analyse | bot/handlers/analysis.py:63-85 | the handler's `try` block: fetch (FetchFailed when the feed raises), generate with the built config and list, then summarise as written or as intended |
| Analysis.SignalOutcome | bot/handlers/analysis.py:30-127 | the handler's outcome: the request checks, then the `try` block's report or error message; the back button gives the keyboard TypeError as written and the five periods as intended; other data is ignored |
| Analysis.SignalCallback | bot/handlers/analysis.py:12-127 | the handler's outcome is `SignalOutcome` as written: a Buy or Sell ends in the Exit_Price error message, and the back button ends in the keyboard TypeError; only the back button changes state, setting it to select_period |
| Analysis.BackButtonOutcome | bot/handlers/analysis.py:122-127 | as written, the back button ends in the keyboard TypeError; as intended it offers 7d, 14d, 30d, 6mo, 1y |
| Analysis.RequestChecks | bot/handlers/analysis.py:30-44 | a blank required entry is refused first, then an unlisted ticker |
| Analysis.MacdAloneLacksObv | bot/handlers/analysis.py:71-79 | with "macd" alone the generator fails reading OBV |
| Analysis.OthersLackMacd | bot/handlers/analysis.py:71-79 | with any type but "macd" or "combined" the generator fails reading MACD |
| Analysis.SingleIndicatorTypesFail | bot/handlers/analysis.py:71-121 | every non-combined signal type ends in a missing-column error message |
| Analysis.FullListGenerates | bot/handlers/analysis.py:71-79 | with all three indicators the generator succeeds with at most one row, the latest complete bar, with bounded confidence |
| Analysis.CombinedRun | bot/handlers/analysis.py:71-79 | a combined request yields the latest complete bar or nothing, never an error |
| Analysis.CombinedRequestAsWritten | bot/handlers/analysis.py:30-121 | as written, a complete combined request on an answering feed ends in a Hold report with no prices and confidence 0, the empty-result error iff no bar survives, or the Exit_Price error iff the latest complete bar signals |
| Analysis.IntendedCombinedRequestReports | bot/handlers/analysis.py:30-85 | with the corrected summary, a complete combined request on an answering feed gives a report or the empty-result error; a report names the right feed and symbol, Hold iff confidence 0 iff no entry, and a Buy/Sell at the latest complete Close with confidence above 100/3 % |

## Left out

- Network and market-data I/O: the two feeds are a function parameter (`Analysis.Feed`) returning the bars or failing, and the clock reading is a parameter `now`.
- The provider's own checks (empty download, missing OHLCV columns) are folded into the feed's failure; the bars it returns are assumed to carry defined Close and Volume and no indicator columns.
- NaN inside the raw Close or Volume bars: pandas would propagate it through `diff`, `rolling` and `ewm`; the model assumes fully defined price and volume columns.
- Floating-point rounding: all arithmetic is over exact reals, and the confidence `epsilon` is the exact value 10⁻¹⁰.
- The `generate_rsi_signal` / `generate_macd_signal` / `generate_obv_signal` / `generate_combined_signal` calls and the `'error' in signal_data` check (bot/handlers/analysis.py:46-61): these functions are imported from core/data.py, which does not define them, and their results feed nothing else; they are not part of this model.
- Image rendering, text formatting, the photo reply and message deletion (bot/handlers/analysis.py:87-116) and every keyboard are not modelled. `Analysis.Outcome.Report` carries the fetch request (feed, symbol, period, interval) and the summary. The report also shows the menu ticker key and the asset class (bot/handlers/analysis.py:97-98), which are the stored entries `Analysis.ReadRequest` copies and are not repeated in `Report`.
- The debug prints of the legacy generator (core/indicators.py:125-129): output only.
- bot/handlers/signal_callback.py, a near-copy of the signal handler, is not part of this model.
- SignalEngine.GenerateSignals: requires 0 < buy and sell < 100 for every configured asset class, to keep the confidence divisors non-zero; the handler only ever builds such thresholds (`Analysis.ThresholdsFor`), and other configs are not modelled.
- Indicators.Calculate: requires window and span parameters of at least 1, because the handler only ever uses 14, 12, 26 and 9; smaller parameters are not modelled.
- The exception message text: errors are modelled by kind (`Base.Error`), not by their strings.
- Concurrency between chats: each handler call is one step on one chat's `user_data`.

## Findings

| source | as written | input that shows it | evidently intended | confidence | as-written member | corrected member |
|---|---|---|---|---|---|---|
| bot/handlers/analysis.py:84 | reads `latest_signal['Exit_Price']` whenever Signal ≠ 0, but the generator's result (core/signal_engine.py:152) has no Exit_Price column, so the KeyError is caught at line 117 and every Buy or Sell becomes an error message | a latest row with Signal 1, Confidence 0.5, Close 190 | report the Buy or Sell with the Close as entry and no exit price ("N/A"), as lines 83 and 94 are written to display | high, not executed | Analysis.SummariseAsWritten (shown by Analysis.ExitPriceCounterexample, Analysis.AsWrittenOnlyHolds, Analysis.CombinedRequestAsWritten; used by Analysis.SignalCallback) | Analysis.Summarise (proved by Analysis.SummaryMeaning and Analysis.IntendedCombinedRequestReports, used by Analysis.SignalOutcome with AsIntended) |
| bot/handlers/interval_callback.py:41 | calls `get_period_keyboard(valid_periods)`, but bot/keyboards.py:20 defines `get_period_keyboard()` without parameters, so an accepted interval is stored and the handler then raises TypeError without showing anything | the data "interval_1h" | show the period menu 14d, 30d, 6mo for the chosen interval | high, not executed | IntervalMenu.IntervalCallback (IntervalMenu.IntervalStep with AsWritten; shown by IntervalMenu.PeriodKeyboardCounterexample) | IntervalMenu.IntervalStep with AsIntended (proved by IntervalMenu.IntervalOffers and IntervalMenu.IntervalAcceptance) |
| bot/handlers/analysis.py:126 | calls `get_period_keyboard(valid_periods)` outside the `try`, so the back button sets the state to select_period and then raises TypeError without showing anything | the data "back_button" | show the period menu 7d, 14d, 30d, 6mo, 1y | high, not executed | Analysis.SignalCallback (Analysis.SignalOutcome with AsWritten; shown by Analysis.BackButtonOutcome) | Analysis.SignalOutcome with AsIntended (proved by Analysis.BackButtonOutcome) |
