# Stock-market technical analysis: a verified model of the analysis core

This project models in Dafny the pure analysis layers of a stock-market analysis backend for Indian markets (NSE). It covers five parts:

* **Oscillators** (`backend/core/technical_indicators.py`):
  * TradingView-style RSI with Wilder smoothing, and the nine RSI zones;
  * EMA and MACD (MACD line, signal line, histogram), and the MACD crossover/tick/zero-zone classifier;
  * the session-based aggregation of hourly candles into two 4-hour candles per trading day. The first covers hours 9 to 12, the second hour 13 onwards.
* **Dow theory scanner** (`backend/core/dow_theory.py`):
  * swing highs and lows over a look-back window;
  * the five-way trend classification (HH-HL, LL-LH, weak variants, sideways) with its confidence;
  * the vote of each multi-timeframe group (Super TIDE, TIDE, WAVE, RIPPLE);
  * the trading opportunity the four groups imply;
  * the scan of many symbols, and the opportunity filter.
* **Sector relative strength** (`backend/core/sector_scanner.py`):
  * percentage returns over 1 hour, 4 hours, one day, one week, one month and three months, each counted N periods back;
  * relative strength against the NIFTY 50 benchmark;
  * outperforming/neutral/underperforming categorisation and ranking, for sector indices and for the stocks of a sector.
* **Scanner service** (`backend/services/scanner.py`):
  * conversion of the period names to API keys;
  * the status of a row for a chosen timeframe;
  * the sorted, ranked sector and stock views with their three status lists.
* **Global sentiment** (`backend/services/global_markets.py` with the weights of `backend/core/global_markets.py`):
  * the 0 to 100 sentiment score, blended from market breadth, a weighted return and the VIX level;
  * its five-band label and colour.

Every operation is a pure function over immutable datatypes:
* prices, returns and scores are `real`;
* a missing value (`None`, NaN, a missing dictionary key) is `Option.None`;
* data the program fetches from the network arrives as parameters.

Files:
* `wrappers.dfy`, `seqs.dfy`: `Option`/`Result`, sums and means, stable sorting, filtering and substring search.
* `smoothing.dfy`: the exponential recurrence shared by the RSI averages and the EMA.
* `rsi.dfy`, `macd.dfy`, `candles.dfy`: the oscillators and the 4-hour aggregation.
* `dow.dfy`, `mtf.dfy`: swings, trend, group votes, opportunity and scanning.
* `returns.dfy`, `relative.dfy`: period returns, relative strength, categories and rankings.
* `scanner_service.dfy`: the service layer's sector and stock views.
* `sentiment.dfy`: the global sentiment score.

## Model

| member | source | states |
|---|---|---|
| Smoothing.SmoothWithin | backend/core/technical_indicators.py:85-88 | Wilder/EMA smoothing never leaves a band that holds its seed and every later input: a smoothed value is a convex combination of what it smooths |
| Smoothing.SmoothPositive | backend/core/technical_indicators.py:85-88 | smoothing a positive seed with positive inputs stays positive, so a series of gains keeps a positive average gain |
| Smoothing.SmoothLocal | backend/core/technical_indicators.py:85-88 | the smoothed value at index i depends only on the inputs up to i |
| Smoothing.SmoothDecays | backend/core/technical_indicators.py:85-88 | fed a constant c after the seed, the smoothed value's distance from c after n steps is the seed's distance shrunk n times by the factor 1 − alpha, (1 − alpha)^n times it |
| Rsi.Gains | backend/core/technical_indicators.py:66-71 | the gain series is as long as the closes and never negative |
| Rsi.Losses | backend/core/technical_indicators.py:66-71 | the loss series is as long as the closes and never negative |
| Rsi.GainsLossesSplitDelta | backend/core/technical_indicators.py:66-71 | gain minus loss is the bar-to-bar price change, and at most one of the two is non-zero |
| Rsi.RsiFromAverages | backend/core/technical_indicators.py:92-97 | RSI from the two averages: with a zero average loss it is 100 when something was gained and 50 when nothing was; otherwise it is the gain share 100·g/(g+l); always within 0..100 |
| Rsi.RatioForm | backend/core/technical_indicators.py:96-97 | the code's 100 − 100/(1+g/l) is the same number as the gain share 100·g/(g+l) |
| Rsi.Average | backend/core/technical_indicators.py:81-88 | an average of non-negative gains or losses is never negative |
| Rsi.WilderDecay | backend/core/technical_indicators.py:81-88 | once the gains (or losses) stay at a constant c, the average's distance from c after n bars is the seed's distance shrunk n times by the factor 1 − 1/period, so it stays between c and the seed and the seed is forgotten geometrically |
| Rsi.SeriesAsWritten | backend/core/technical_indicators.py:59-97 | the RSI series as written: empty when there are fewer than period+1 closes, otherwise as long as the closes, 0 before index period−1, within 0..100 from there on; at index period−1 it is the RSI of the mean gain and mean loss of the changes 1..period, and from index period on the RSI of the Wilder averages seeded at period−1, so the change at index period is fed twice |
| Rsi.RisingClosesGive100 | backend/core/technical_indicators.py:92-94 | strictly rising closes have no losses, so every RSI value from index period−1 on is 100 |
| Rsi.FlatClosesGive50 | backend/core/technical_indicators.py:92-94 | constant closes give neither gains nor losses, so every RSI value from index period−1 on is 50 |
| Rsi.AsWrittenReadsAhead | backend/core/technical_indicators.py:81-83 | two price histories that agree up to index 1 get different RSI values at index 1 (100 against 50): the seed reads a close that has not happened yet |
| Rsi.Series | backend/core/technical_indicators.py:59-97 | the corrected RSI series: same emptiness rule and length, 0 before index period, within 0..100 after; at index period it is the RSI of the mean gain and mean loss of the changes 1..period, and after it the RSI of the Wilder averages seeded at period |
| Rsi.SeriesIsCausal | backend/core/technical_indicators.py:81-97 | the corrected RSI at index i depends only on closes up to i |
| Rsi.ClassifyRsi | backend/core/technical_indicators.py:112-205 | each RSI zone holds exactly on its range: ≥78 unsustainable bulls, (60,78) bullish momentum, [55,60] near 60, [45,55) near 50, [40,45) near 40, ≤22 unsustainable bears, (22,40) bearish momentum; a missing value is "not clear"; the swing zone is never reached |
| Rsi.ZoneBoundaries | backend/core/technical_indicators.py:128-188 | the boundary values 60, 22, 78 and 40 fall into the zones the inclusive and exclusive comparisons give them |
| Macd.Multiplier | backend/core/technical_indicators.py:227 | the EMA multiplier 2/(period+1) lies in (0,1] for every period of at least 1 |
| Macd.Ema | backend/core/technical_indicators.py:211-231 | the EMA is as long as its input and all zeros when the input is shorter than the period; zero before index period−1; the simple mean of the first period values at period−1; one smoothing step per later value |
| Macd.EmaWithin | backend/core/technical_indicators.py:224-229 | the EMA stays within any band that holds all its inputs |
| Macd.EmaConstant | backend/core/technical_indicators.py:224-229 | the EMA of a constant series is that constant from index period−1 on |
| Macd.CalculateMacd | backend/core/technical_indicators.py:234-278 | no result exactly when there are fewer than slow+signal closes; otherwise the MACD line is the fast EMA minus the slow EMA from index slow−1 (0 before it), the signal line is the EMA of the MACD line from slow−1, and the histogram is MACD minus signal everywhere |
| Macd.FlatClosesGiveZeroMacd | backend/core/technical_indicators.py:256-270 | constant closes give an identically zero MACD line, signal line and histogram |
| Macd.ClassifyLastTwo | backend/core/technical_indicators.py:323-530 | positive and negative crossovers are detected exactly on their definitions; after a crossover the tick is up iff the MACD rose, otherwise down; without one the tick is up/down/flat iff the MACD rose/fell/stayed; the zero zone is above, below or near zero by the threshold; the signal is chosen from crossover, tick and zone |
| Macd.CrossoversExclusive | backend/core/technical_indicators.py:330-333 | a bar is never both a positive and a negative crossover |
| Macd.ClassifyMacd | backend/core/technical_indicators.py:281-312 | no reading ("No Data", gray) exactly when there is no MACD data or fewer than two points; otherwise the reading classifies the last two points |
| Macd.UnchangedMacdIsNeutral | backend/core/technical_indicators.py:514-530 | an unchanged MACD without a crossover ticks flat and gives the neutral signal |
| Macd.FlatCrossoverReportsDown | backend/core/technical_indicators.py:347-423 | an unchanged MACD that crosses its signal line reports a down tick, even for a positive crossover |
| Candles.SessionRowsMember | backend/core/technical_indicators.py:700-716 | a bar lands in a session's bucket iff it is on that date and in that session |
| Candles.OtherDatesMember | backend/core/technical_indicators.py:700 | removing one date keeps exactly the bars of the other dates |
| Candles.MinDate | backend/core/technical_indicators.py:700 | the first group's date is the earliest date among the bars |
| Candles.Summarize | backend/core/technical_indicators.py:704-725 | a 4-hour candle opens at its first bar's open, closes at its last bar's close, has the highest high and lowest low of its bars (both attained) and their total volume |
| Candles.SessionBar | backend/core/technical_indicators.py:700-725 | a date and session give one 4-hour candle exactly when some bar falls in that bucket; the candle is dated and placed in that session, summarises the bucket and carries its volume |
| Candles.DayBars | backend/core/technical_indicators.py:700-725 | a date gives at most two 4-hour candles, all dated that day and starting at hour 9 or later |
| Candles.Aggregate | backend/core/technical_indicators.py:700-725 | the aggregation gives at most two candles per input bar, each starting at hour 9 or later |
| Candles.AggregateSound | backend/core/technical_indicators.py:700-725 | every 4-hour candle summarises the bars of one date and one session, stamped with that bucket's first bar |
| Candles.AggregateOrdered | backend/core/technical_indicators.py:700-725 | the 4-hour candles come out in strictly increasing (date, session) order |
| Candles.AggregateComplete | backend/core/technical_indicators.py:700-725 | every bar from hour 9 on is covered by a 4-hour candle of its own date and session |
| Candles.AggregateConservesVolume | backend/core/technical_indicators.py:700-725 | the 4-hour candles hold exactly the volume of the bars from hour 9 on |
| Candles.AggregateTo4h | backend/core/technical_indicators.py:693-732 | no result exactly when no bar starts at hour 9 or later (including no bars at all); otherwise the session aggregation |
| Dow.EffectiveLookback | backend/core/dow_theory.py:62-66 | a missing (zero) look-back falls back to the analyser's default; any other value is kept |
| Dow.Window | backend/core/dow_theory.py:62-75 | the centred rolling window of width 2·lb+1 holds exactly the values around index i |
| Dow.WindowExtremeIsSwing | backend/core/dow_theory.py:62-90 | a value equal to its centred window's max (min) is exactly a swing high (low) |
| Dow.SwingsFrom | backend/core/dow_theory.py:62-90 | from index i on, the scan returns exactly the swing indices, in increasing order |
| Dow.DetectSwings | backend/core/dow_theory.py:62-90 | the detected swings are exactly the swing indices, in increasing order, each with a full window on both sides |
| Dow.PlateauIsSwing | backend/core/dow_theory.py:62-90 | a flat stretch is both a swing high and a swing low: ties count as swings |
| Dow.LastThree | backend/core/dow_theory.py:119-127 | the recent swings are the last three, or all of them when fewer |
| Dow.RisingNotFalling | backend/core/dow_theory.py:129-135 | with two or more swings, higher highs and lower highs exclude each other |
| Dow.Judge | backend/core/dow_theory.py:137-162 | uptrend iff highs and lows both rise; downtrend iff both fall; weak up iff highs rise but lows do not; weak down iff lows fall, highs neither rise nor fall; sideways otherwise; confidence 85/60/70 by kind |
| Dow.ClassifyTrend | backend/core/dow_theory.py:92-173 | confidence 0 exactly for missing data or fewer than 20 candles; 50 (sideways) exactly when fewer than two swing highs or lows; otherwise the judged trend of the last three swings of each kind |
| Mtf.TrendLabelBullish | backend/core/dow_theory.py:254 | a trend label contains "HH-HL" exactly for the strong and weak uptrends |
| Mtf.TrendLabelBearish | backend/core/dow_theory.py:255 | a trend label contains "LL-LH" exactly for the strong and weak downtrends |
| Mtf.CountWhereAll | backend/core/dow_theory.py:257-260 | counting a property over all trends reaches the total exactly when every trend has it |
| Mtf.CountByLabel | backend/core/dow_theory.py:254-255 | counting labels by substring is the same as counting bullish or bearish trends |
| Mtf.GroupVote | backend/core/dow_theory.py:246-271 | an empty group has no vote; BULLISH iff all its trends are bullish; BEARISH iff all are bearish; otherwise the mixed vote of the majority, or NEUTRAL on a tie |
| Mtf.GroupLabelBullish | backend/core/dow_theory.py:294 | a group label contains "BULLISH" exactly for the BULLISH and BULLISH (Mixed) votes |
| Mtf.GroupLabelBearish | backend/core/dow_theory.py:303 | a group label contains "BEARISH" exactly for the BEARISH and BEARISH (Mixed) votes |
| Mtf.DetermineOpportunity | backend/core/dow_theory.py:286-352 | STRONG BUY iff every present group is bullish; STRONG SELL iff not that but every present group is bearish; PULLBACK BUY iff Super TIDE bullish and TIDE bearish; BOUNCE SELL iff the reverse; INTRADAY BUY/SELL iff no earlier rule fires and WAVE and RIPPLE agree |
| Mtf.NoGroupsIsStrongBuy | backend/core/dow_theory.py:294 | with no group present, the empty "all bullish" check already gives STRONG BUY |
| Mtf.VoteOf | backend/core/dow_theory.py:246-253 | every group votes, since all six timeframes are always classified |
| Mtf.Frames | backend/core/dow_theory.py:223-243 | every timeframe is classified, each with its own look-back (3 for 15m and 1h, 5 otherwise) |
| Mtf.AnalyzeStock | backend/core/dow_theory.py:207-284 | a stock's analysis classifies all six timeframes, gives each group the vote over its two timeframes and derives the opportunity from those votes |
| Mtf.AllUptrendsAreStrongBuy | backend/core/dow_theory.py:246-299 | a stock in uptrend on every timeframe is a STRONG BUY |
| Mtf.PrimaryUpMediumDownIsPullback | backend/core/dow_theory.py:246-318 | monthly and weekly uptrends with daily and 4-hour downtrends make a PULLBACK BUY |
| Mtf.ScanStocks | backend/core/dow_theory.py:361-384 | one entry per symbol, in order: the error entry exactly when the analysis raises, the analysis of the symbol's candles otherwise |
| Mtf.KeepPassing | backend/core/dow_theory.py:410-415 | the filtered scan is the subsequence of the entries whose opportunity is allowed: the k-th kept entry is the entry at the k-th passing position, in input order and with repeats kept; nothing passing gives an empty list |
| Mtf.FilterResults | backend/core/dow_theory.py:399-415 | "all" keeps everything; any other filter keeps the subsequence of passing entries, in order; a known filter keeps exactly the allowed analyses; an unknown filter keeps nothing |
| Mtf.ScanWithFilter | backend/core/dow_theory.py:386-415 | the filtered scan never grows; under any filter but "all" it is the in-order subsequence of the scanned entries that pass, each an analysis of an allowed type, and empty for an unknown filter |
| Mtf.StrongBuyPassesBuyFilters | backend/core/dow_theory.py:402-405 | a STRONG BUY kept by the strong-buy filter is also kept by the pullback-buy and intraday-buy filters |
| Returns.PeriodNamed | backend/core/sector_scanner.py:330-440 | a period name read back names that period |
| Returns.PeriodNameRoundTrip | backend/core/sector_scanner.py:330-440 | naming a period and reading the name back gives the period |
| Returns.ReturnPct | backend/core/sector_scanner.py:330 | the percentage return is positive iff the price rose and negative iff it fell, and it grows the reference into the current price |
| Returns.OffsetReturn | backend/core/sector_scanner.py:327-332 | the return N bars back exists iff there are more than N bars and relates the close N bars back to the last close |
| Returns.ZeroOffsetIsFlat | backend/core/sector_scanner.py:327-330 | comparing the last close with itself gives 0 |
| Returns.IntradayReturns | backend/core/sector_scanner.py:407-442 | fewer than two bars give no returns; otherwise the 1-hour return exists iff there are more than N bars and the 4-hour return iff there are more than 4N, each relating the close that far back to the last |
| Returns.StockIntradayReturns | backend/core/sector_scanner.py:689-713 | fewer than two bars give an empty dict; the 1-hour key is present iff there are more than N bars and the 4-hour key iff there are more than 4N, each relating the close that far back to the last; no other key and no missing value |
| Returns.StockIntradayIsPresentPart | backend/core/sector_scanner.py:689-713 | the stock variant keeps exactly the intraday returns the sector variant computes, dropping the missing ones |
| Returns.DaysInMonth | backend/core/sector_scanner.py:395 | every month has 28 to 31 days |
| Returns.MonthsBack | backend/core/sector_scanner.py:394-395 | stepping k months back lands k months earlier, clamping the day to the month's last day |
| Returns.MaxBelow | backend/core/sector_scanner.py:341-348 | the largest key below the bound, missing iff there is none |
| Returns.NthBelowCounts | backend/core/sector_scanner.py:348-351 | the N-th distinct key back exists iff there are at least N distinct keys below the current one, and exactly N−1 keys lie between it and the current one |
| Returns.TargetKey | backend/core/sector_scanner.py:341-351 | `prev[-lookback]`: for N ≥ 1 it is missing iff fewer than N distinct keys lie below the current one, and otherwise exactly N−1 keys lie between it and the current one; for N = 0 Python's `prev[-0]` gives the smallest earlier key, missing iff there is none |
| Returns.LastWhere | backend/core/sector_scanner.py:352-354 | the last bar that satisfies a condition, missing iff none does |
| Returns.PeriodReference | backend/core/sector_scanner.py:334-361 | the reference bar is the last bar of the target period |
| Returns.PeriodReturn | backend/core/sector_scanner.py:334-390 | the weekly or monthly return exists iff a target period exists, and relates that period's last close to the current close |
| Returns.PeriodReturnPresent | backend/core/sector_scanner.py:348-359 | for a look-back N of at least 1, the return exists iff at least N distinct earlier periods occur in the data |
| Returns.QuarterReference | backend/core/sector_scanner.py:392-398 | the three-month reference is the last bar dated on or before the date 3N months back, missing iff there is no such bar |
| Returns.QuarterReturn | backend/core/sector_scanner.py:392-403 | the three-month return exists iff that reference exists and relates its close to the current one |
| Returns.DailyReturnsWith | backend/core/sector_scanner.py:304-405 | fewer than two bars give no returns; otherwise all four periods are keyed, the daily one present iff there are more than N bars, the others as the period rules say |
| Returns.DailyReturnsAsWritten | backend/core/sector_scanner.py:304-405 | the sector dict as written: all four periods keyed; the weekly value is the period return over calendar-year week keys; every other entry is the one of the ISO-keyed dict |
| Returns.DailyReturns | backend/core/sector_scanner.py:304-405 | the corrected sector dict: all four periods keyed, the weekly value over ISO-year week keys, the monthly one over calendar months |
| Returns.WeekKeyAcrossYearEnd | backend/core/sector_scanner.py:336-351 | with bars on Friday 27 Dec 2024 and Monday 30 Dec 2024, the as-written weekly return is missing, because the Monday's key is 202401; the ISO-year key finds the previous week and gives +10% |
| Returns.IsoWeekReturnFindsEarlierWeek | backend/core/sector_scanner.py:334-355 | keyed by ISO year and week, any bar in an earlier ISO week makes the one-week-back return present |
| Returns.StockWeekKeyAcrossYearEnd | backend/core/sector_scanner.py:646-663 | with bars on Friday 27 Dec 2024 and Monday 30 Dec 2024, the as-written stock dict has no Weekly key; the ISO-keyed one has Weekly +10% |
| Returns.StockIsoWeekFindsEarlierWeek | backend/core/sector_scanner.py:646-663 | keyed by ISO year and week, any bar in an earlier ISO week gives the stock dict a one-week-back Weekly entry |
| Returns.StockDailyReturnsWith | backend/core/sector_scanner.py:621-687 | the stock dict for a given week key: empty for fewer than two bars; only Daily, Weekly and Monthly, never a missing value; Daily present iff there are more than N bars, relating that close to the last; Weekly and Monthly present iff their period return exists, and equal to it |
| Returns.StockDailyReturnsAsWritten | backend/core/sector_scanner.py:621-687 | the stock dict as written: Weekly present iff the return over calendar-year week keys exists; every other entry is the one of the ISO-keyed stock dict |
| Returns.StockDailyReturns | backend/core/sector_scanner.py:621-687 | the corrected stock dict: Weekly present iff the ISO-keyed weekly return exists, and equal to it |
| Returns.StockDailyIsPresentPart | backend/core/sector_scanner.py:640-685 | for either week key, as long as both variants use the same one, the stock dict's daily, weekly and monthly returns are exactly the sector dict's present ones |
| Relative.RelativeStrength | backend/core/sector_scanner.py:444-455 | relative strength has the sector's periods; it is present iff the sector return and the benchmark return are both present; benchmark plus relative gives back the sector return |
| Relative.RelativeToItselfIsLevel | backend/core/sector_scanner.py:444-455 | `calculate_relative_strength` of a dict against itself is 0 on every present period, which agrees with the 0.0 that line 500 hard-codes for the benchmark there, and None on every missing period |
| Relative.RelativeSwapNegates | backend/core/sector_scanner.py:444-455 | swapping sector and benchmark negates the relative strength |
| Relative.StockRelative | backend/core/sector_scanner.py:779-783 | a stock's relative strength is keyed exactly where both returns are present, and adds back to the stock's return |
| Relative.StockRelativeIsPresentPart | backend/core/sector_scanner.py:779-783 | a stock's relative strength is the present part of the sector-style relative strength |
| Relative.StatusOf | backend/core/sector_scanner.py:567-572 | outperforming iff above +1%, underperforming iff below −1%, neutral in between (bounds included) |
| Relative.StatusPartition | backend/core/sector_scanner.py:562-573 | the three status lists together are a permutation of the classified rows |
| Relative.SplitByStatus | backend/core/sector_scanner.py:562-576 | each list holds only rows of its status, together they are a permutation of the classified rows; the neutral list is exactly the neutral rows in input order; the outperformers are sorted descending and the underperformers ascending, both stably: rows with equal keys keep their input order |
| Relative.SplitFinds | backend/core/sector_scanner.py:562-573 | every classified row lands in the list of its status |
| Relative.RelAt | backend/core/sector_scanner.py:564-566 | a timeframe's relative value is found only under a valid period name |
| Relative.CategorizeSectors | backend/core/sector_scanner.py:544-578 | outperforming, neutral and underperforming hold only non-benchmark sectors of that status; together they are a permutation of the categorised sectors; neutral keeps input order; the other two are sorted stably by relative strength (missing as 0), descending and ascending |
| Relative.CategoryOfSector | backend/core/sector_scanner.py:558-573 | a sector is outperforming/underperforming/neutral exactly when it is not the benchmark, has a value for the timeframe and that value is above 1/below −1/in between; all other sectors are in no list |
| Relative.RankKey | backend/core/sector_scanner.py:585 | the sort key is the value itself, except that a missing value and also a zero value sort as −999 |
| Relative.ZeroRanksBelowNegatives | backend/core/sector_scanner.py:585 | a relative strength of exactly 0 ranks below every negative one above −999 |
| Relative.RankBy | backend/core/sector_scanner.py:580-590 | the ranked list is a permutation of the input, sorted descending by key, with ranks 1, 2, 3, …; items with equal keys keep their input order |
| Relative.GetSectorRanking | backend/core/sector_scanner.py:580-590 | the sector ranking is a permutation of the non-benchmark sectors, sorted descending by key with ties in input order, with ranks 1, 2, 3, … |
| Relative.GetStockRanking | backend/core/sector_scanner.py:819-824 | the stock ranking is a permutation of all stocks, sorted descending by key with ties in input order, with ranks 1, 2, 3, … |
| Relative.StockRows | backend/core/sector_scanner.py:762-808 | the rows are exactly the fetched stocks in input order: the k-th row is the row of the stock at the k-th fetched position, with its returns and its relative strength against the benchmark; stocks whose data was empty or whose processing raised are skipped and leave no row |
| Relative.AnalyzeSectorStocks | backend/core/sector_scanner.py:715-817 | no benchmark returns give an empty result; otherwise the stocks are a permutation of the fetched rows and the status lists partition them by weekly relative strength (missing as 0); the neutral list is the neutral rows in input order; the stocks and outperformers are sorted descending and the underperformers ascending, each stably, so rows with equal keys keep their input order |
| Relative.MissingWeeklyIsNeutral | backend/core/sector_scanner.py:800-808 | a stock with no weekly relative strength is neutral |
| ScannerService.ApiPeriod | backend/services/scanner.py:15-24 | an API key read back names a period with that key |
| ScannerService.ApiKeyRoundTrip | backend/services/scanner.py:15-24 | every period's API key reads back as that period |
| ScannerService.ConvertReturns | backend/services/scanner.py:15-24 | the converted dictionary has exactly the six API keys, each holding the period's value or nothing when it is missing |
| ScannerService.ConvertKeepsLookups | backend/services/scanner.py:15-24 | two return maps convert to the same API dictionary iff they agree on every period |
| ScannerService.TimeframeTable | backend/services/scanner.py:132-133 | the table maps exactly the names "1h", "4h", "daily", "weekly", "monthly" to their periods, and "3m" to the three-month period only in the sector view's table (the stock view's table at lines 216-217 has no "3m") |
| ScannerService.SelectedPeriod | backend/services/scanner.py:132-133 | the lower-cased timeframe selects the period it names, and Weekly when it names none |
| ScannerService.SelectedPeriodIgnoresCase | backend/services/scanner.py:33 | timeframes that lower-case alike select the same period |
| ScannerService.TimeframeFallbacks | backend/services/scanner.py:29-33 | an unknown timeframe selects the weekly period; "3m" selects three months for the status but falls back to weekly in the stock view's table; case is ignored |
| ScannerService.GetStatus | backend/services/scanner.py:27-40 | outperforming iff the selected period's value is above 1, underperforming iff below −1, neutral otherwise, including when it is missing |
| ScannerService.SortKey | backend/services/scanner.py:135-137 | a row sorts by its relative strength for the period, and as −999 when the entry is missing, holds no value, or holds 0 |
| ScannerService.FilterIncreasing | backend/services/scanner.py:99-123 | keeping some rows preserves their original order |
| ScannerService.PermutationKeepsDistinct | backend/services/scanner.py:135 | sorting cannot make two rows the same row |
| ScannerService.RankOfIndex | backend/services/scanner.py:140-141 | the row at position j of the sorted list gets rank j+1 |
| ScannerService.SortRows | backend/services/scanner.py:135 | the sorted sectors are a permutation of the rows, sorted descending by the selected relative strength |
| ScannerService.RankList | backend/services/scanner.py:124-141 | a status list sees the ranks given to the sorted list, because it shares its rows; it keeps its own order and holds exactly the ranked rows of its status |
| ScannerService.SplitCovers | backend/services/scanner.py:124-129 | each status list holds only rows of its status, and every row is in its status's list |
| ScannerService.NumberedRows | backend/services/scanner.py:140-141 | numbering keeps the rows, up to their rank, and their sort order |
| ScannerService.StatusLists | backend/services/scanner.py:124-141 | each status list holds exactly the ranked rows of its status, is the split's list with ranks filled in, keeps its sort order, and the lists add up to all rows |
| ScannerService.RankBoard | backend/services/scanner.py:131-141 | the board lists the rows sorted descending by key with ranks 1, 2, 3, …, rows with equal keys in input order; each status list holds exactly the ranked rows of its status, outperformers descending and underperformers ascending, each stably, neutral rows in input order, and the lists add up to all rows |
| ScannerService.SectorRows | backend/services/scanner.py:99-112 | one row per result, at its position |
| ScannerService.LastBenchmarkAt | backend/services/scanner.py:114-121 | the position of the last benchmark result, missing iff there is none |
| ScannerService.LastBenchmark | backend/services/scanner.py:114-121 | the reported benchmark is the last benchmark result, and is missing iff there is none |
| ScannerService.SectorRowsRankable | backend/services/scanner.py:99-123 | the non-benchmark rows are distinct and not yet ranked |
| ScannerService.AnalyzeSectors | backend/services/scanner.py:67-152 | no view iff there are no results; otherwise the last benchmark, and the non-benchmark rows ranked 1, 2, 3, … in descending order of the selected period's relative strength, split into status lists; equal keys keep input order in the ranking and in both sorted status lists, and the neutral list keeps input order |
| ScannerService.EveryNonBenchmarkRanked | backend/services/scanner.py:99-141 | every non-benchmark result appears among the ranked sectors |
| ScannerService.EveryRankedIsNonBenchmark | backend/services/scanner.py:99-141 | every ranked sector comes from a non-benchmark result and carries that result's status and converted relative strength |
| ScannerService.StockViewRows | backend/services/scanner.py:192-213 | one unranked row per stock, at its position |
| ScannerService.AnalyzeSectorStocksView | backend/services/scanner.py:155-237 | no view iff there are no stocks; otherwise the NIFTY 50 benchmark with converted returns when present, the total stock count, and the stocks ranked 1, 2, 3, … by the selected period (no "3m" entry), split into status lists; equal keys keep input order in the ranking and in both sorted status lists, and the neutral list keeps input order |
| ScannerService.QuarterStocksSortWeekly | backend/services/scanner.py:195-219 | on "3m" the stock view classifies by the three-month value but sorts by the weekly one |
| Sentiment.CountedQuotes | backend/services/global_markets.py:120-124 | only quotes with a change and no error are counted, from the US, European, Asian and India ADR groups |
| Sentiment.Changes | backend/services/global_markets.py:146-148 | the changes are those of the counted quotes, index by index |
| Sentiment.VixValue | backend/services/global_markets.py:126-128 | the VIX reading is the price of the last counted VIX quote, and missing when there is none |
| Sentiment.CountIf | backend/services/global_markets.py:146-148 | a count reaches the total iff every quote qualifies and is 0 iff none does |
| Sentiment.BreadthPartition | backend/services/global_markets.py:146-149 | advancing, declining and unchanged quotes add up to the total |
| Sentiment.BreadthOf | backend/services/global_markets.py:146-151 | positive counts the changes above 0.5%, negative those below −0.5%, neutral those in between; they add up to the total; the percentage is positive/total·100, lies in 0..100, is 100 iff every quote advances more than 0.5% and 0 iff none does |
| Sentiment.Weight | backend/core/global_markets.py:71-94 | exactly the fifteen listed symbols have a weight, each non-zero and between −0.07 and 0.15; exactly the VIX and the dollar index weigh negatively; the S&P 500 weighs 0.15 |
| Sentiment.WeightedReturn | backend/services/global_markets.py:154-161 | the weighted return is the sum of the contributions, so it is non-negative when every contribution is and non-positive when every contribution is |
| Sentiment.UnweightedIgnored | backend/services/global_markets.py:156-161 | quotes without a weight contribute nothing to the weighted return |
| Sentiment.FlatWeightedReturn | backend/services/global_markets.py:156-161 | unchanged quotes give a weighted return of 0 |
| Sentiment.Normalize | backend/services/global_markets.py:166-167 | the weighted return maps to 0..100: 0 iff it is −3% or less, 100 iff it is +3% or more, 50 iff it is 0 |
| Sentiment.NormalizeMonotone | backend/services/global_markets.py:166-167 | a larger weighted return never scores lower |
| Sentiment.VixScore | backend/services/global_markets.py:170-188 | no VIX scores 50 "Unknown"; otherwise a VIX of 30 or more scores 10 "Extreme Fear", [20,30) 30 "Fear", [15,20) 50 "Neutral", [12,15) 70 "Greed", below 12 90 "Extreme Greed", each an iff |
| Sentiment.VixScoreFalls | backend/services/global_markets.py:170-185 | a higher VIX never scores higher |
| Sentiment.Band | backend/services/global_markets.py:195-209 | the band is 4 iff the score is 70 or more, 3 iff in [55,70), 2 iff in [45,55), 1 iff in [30,45), 0 iff below 30 |
| Sentiment.BandMonotone | backend/services/global_markets.py:195-209 | a higher score never gets a lower band |
| Sentiment.Blend | backend/services/global_markets.py:191 | the 40/40/20 blend of three 0..100 scores stays within 0..100, and equal scores blend to themselves |
| Sentiment.Scored | backend/services/global_markets.py:144-231 | with counted quotes the result carries their breadth, the VIX reading and status, and the three factor scores; it blends them into a 0..100 score and labels it by band |
| Sentiment.CalculateSentiment | backend/services/global_markets.py:110-231 | no counted quote gives the neutral no-data answer; otherwise the breadth of the counted changes, the VIX reading and status, the factors (breadth percentage, normalised weighted return, VIX score) and their 0..100 blend; the label and colour are Bullish/green iff the score is 70 or more, Slightly Bullish/lightgreen iff in [55,70), Neutral/yellow iff in [45,55), Slightly Bearish/orange iff in [30,45), Bearish/red iff below 30 |
| Sentiment.CommoditiesIgnored | backend/services/global_markets.py:121 | commodity quotes never change the sentiment |
| Sentiment.BroadRallyIsBullish | backend/services/global_markets.py:146-196 | every quote up more than 0.5% and a weighted return of at least +3% is Bullish, whatever the VIX says |
| Sentiment.BroadSellOffIsBearish | backend/services/global_markets.py:146-208 | every quote down more than 0.5% and a weighted return of at most −3% is Bearish, whatever the VIX says |
| Sentiment.FlatMarketWithoutVix | backend/services/global_markets.py:146-206 | a market where nothing moves and no VIX is quoted scores 30, "Slightly Bearish": breadth counts only advancers |
| Seqs.MeanWithin | backend/core/technical_indicators.py:82-83 | the mean of values within a band stays within it |
| Seqs.Mean | backend/core/technical_indicators.py:82-83 | the mean of non-negative values is non-negative |
| Seqs.SortDesc | backend/core/sector_scanner.py:575 | the descending sort is a permutation of its input, ordered by key, and stable: for every key value, the elements with that key appear in their input order |
| Seqs.SortAsc | backend/core/sector_scanner.py:576 | the ascending sort is a permutation of its input, ordered by key, and stable in the same sense |
| Seqs.Positions | backend/services/global_markets.py:121-124 | the positions of the elements that satisfy a condition, strictly increasing, each satisfying it, and every satisfying position among them |
| Seqs.Filter | backend/services/global_markets.py:121-124 | filtering picks, in order, the element at each satisfying position: the result is the subsequence of satisfying elements, repeats included |
| Seqs.TiesAreFiltered | backend/core/sector_scanner.py:575-576 | the elements with a given key, in order, are the filter of the list by that key |

## Left out

* Fetching data from Yahoo Finance and NSE, `datetime.now()` timestamps, and printing errors. The candles, the closes and the quotes are parameters. A download that fails is a missing timeframe (`fetch_data` returns `None`, which `classify_trend` turns into a confidence-0 trend); only an exception raised by the analysis itself is a `Failure`, the error entry of `scan_stocks`.
* `fetch_data`, `fetch_index_data`, `fetch_intraday_data`, `fetch_stock_data`, `fetch_market_group`, `get_global_overview`, and the index-group and sector-stock tables (`get_index_groups`, `get_available_sectors`, `get_sector_stocks`). These are I/O or constant tables, with no logic to prove.
* The orchestration loops of `analyze_all_sectors` (backend/core/sector_scanner.py:457-542) and of the fetch part of `analyze_sector_stocks`. The model starts from their outputs, `SectorResult` and `StockFetch`. The per-period rules those loops apply are `Returns.DailyReturnsWith`, `Returns.IntradayReturns` and `Relative.RelativeStrength`.
* The pandas `resample('4H')` in dow_theory.py:192-205. The 4-hour frame reaches `Mtf.AnalyzeStock` already aggregated, as the candles of its timeframe.
* Rounding to one or two decimals (`round(…, 1)` and `round(h, 2)`):
  * the classifiers take the values they are given;
  * the sentiment label is taken on the unrounded score;
  * the swing values in the trend result are not rounded.
* Descriptions, colours and purposes are modelled where a property mentions them. Otherwise they are constant text and left out.
* Passthrough fields that are never computed on are left out: `symbol`, `price`, company names from `.info`, and `timestamp`.
* NaN is `None`. pandas comparisons with NaN are not modelled separately.
* The ISO calendar week of each daily bar is given with the bar, as a fact about that date. The calendar rules that compute it are not modelled.
* Prices of zero or below: returns divide by the reference close, so closes are positive (`Returns.Price`).
* `Rsi.SeriesAsWritten` and `Rsi.Series` require a period of at least 1: with a period of 0, `1.0 / period` raises ZeroDivisionError.
* `Macd.Ema` requires a period of at least 1. With a period of 0 the code does not raise on non-empty data: the seed is the mean of an empty slice, which is NaN, and the recurrence runs with multiplier 2, so every value from index 0 on is NaN. Only empty data raises, at `ema[-1]`. The model does not give that NaN series.
* `Macd.CalculateMacd` requires the fast, slow and signal periods to be at least 1, while `calculate_macd` accepts any integers. A period of 0 reaches `calculate_ema` with period 0, which gives the NaN series described for `Macd.Ema`, so a zero slow or signal period gives NaN lines rather than an error. The model does not give those NaN lines.
* `Relative.RelativeToItselfIsLevel` is about `calculate_relative_strength`. The benchmark row of `analyze_all_sectors` (backend/core/sector_scanner.py:500) does not call it: it writes 0.0 for every period key of the benchmark, including one whose return is None, where `calculate_relative_strength` would give None. The model's `SectorResult` takes the benchmark's relative map as given.
* The DXY change (`dxy_change`) and `total_weight` in `calculate_sentiment` are computed but never used; they are not modelled.
* `Macd.ClassifyLastTwo`: the zone contract is stated only for a non-negative threshold, because with a negative threshold the near-zero band is empty and the zones overlap.
* `Sentiment.CalculateSentiment`: the label and colour are stated on the unrounded score. The code rounds to one decimal first, so a score such as 69.96 is labelled Bullish by the code.
* `ScannerService.AnalyzeSectors`: the first ranks each row gets (position + 1) are always overwritten, so rows start unranked.

## Findings

| source | as written | input that shows it | evidently intended | confidence | as-written member | corrected member |
|---|---|---|---|---|---|---|
| backend/core/technical_indicators.py:81-88 | the RSI averages are seeded at index period−1 with the mean of the changes 1..period, which includes the change at index period, and the recurrence then adds that change again | closes [0, 1, 2] and [0, 1, 0] with period 2 agree up to index 1 but get RSI 100 and 50 at index 1 | TradingView's RMA: seed at index period with the mean of changes 1..period, so each RSI value depends only on closes up to its own bar | not executed | Rsi.SeriesAsWritten, Rsi.AsWrittenReadsAhead | Rsi.Series, Rsi.SeriesIsCausal |
| backend/core/sector_scanner.py:336-345 | the weekly key is the calendar year × 100 + the ISO week, so 29–31 December in ISO week 1 get a key lower than the rest of December | bars on 27 Dec 2024 (key 202452) and 30 Dec 2024 (ISO week 1, key 202401): no earlier week is found and the weekly return is missing | key by ISO year × 100 + ISO week, so weeks order chronologically across the year end | not executed | Returns.DailyReturnsAsWritten, Returns.WeekKeyAcrossYearEnd | Returns.DailyReturns, Returns.IsoWeekReturnFindsEarlierWeek |
| backend/core/sector_scanner.py:646-663 | the stock variant's weekly key is also the calendar year × 100 + the ISO week, with the same year-end inversion | the same two bars, 27 Dec 2024 and 30 Dec 2024 with closes 100 and 110: the stock dict gets no Weekly key | key by ISO year × 100 + ISO week | not executed | Returns.StockDailyReturnsAsWritten, Returns.StockWeekKeyAcrossYearEnd | Returns.StockDailyReturns, Returns.StockIsoWeekFindsEarlierWeek |

Quirks of the code that are modelled as written, not as findings:
* a relative strength of exactly 0 sorts as −999 in every ranking (`Relative.ZeroRanksBelowNegatives`);
* with no group present, the opportunity is STRONG BUY (`Mtf.NoGroupsIsStrongBuy`);
* an unchanged MACD that crosses its signal line ticks down (`Macd.FlatCrossoverReportsDown`);
* the stock view sorts "3m" by the weekly value while classifying by the three-month one (`ScannerService.QuarterStocksSortWeekly`);
* swing detection accepts ties, so a plateau is both a swing high and a swing low (`Dow.PlateauIsSwing`).
