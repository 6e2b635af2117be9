# HelloStock fundamentals pipeline, modelled in Dafny

HelloStock collects financial fundamentals for Chinese A-share stocks from several
rate-limited providers (akshare, baostock, eastmoney, tushare and sina). It maps each provider's
field labels onto one set of indicators and computes a Piotroski-style F-Score per stock.
On top of that pipeline sit several screeners, a buy/sell recommendation and a strategy-selector demo.

This project models that core in Dafny 4.11 and proves properties of the model:

- the nine-test F-Scores of the four scorers;
- the resumable, checkpointed batch downloaders;
- the fixed-window rate limiter and the retry decorator;
- the multi-source resolver with its validation predicate;
- the fundamentals cache;
- the screeners over cached and fetched data;
- the recommendation rules and the baostock helpers;
- the simulated strategy demo.

Provider replies, file contents, the clock and random draws do not appear as actions. Each
enters as a value or an oracle function that the operation receives. An operation that
mutates an object is a method of a Dafny `class` with a `modifies` clause, proved against a
specification function. Pure Python code becomes functions and lemmas.

## Layout

One module per source file, plus shared vocabulary:

| file | module | models |
|---|---|---|
| py.dfy | Py | optional floats, NaN, truthiness, `float(...)`, pandas cells |
| strings.dfy | Strings | `zfill`, `split`, `lower`, prefixes and substrings over `seq<char>` |
| tables.dfy | Tables | stable sort, the `drop_duplicates` variants, `head`, sort-dedup-head |
| batching.dfy | Batching | `for i in range(0, n, size): s[i:i+size]` |
| scoring.dfy | Scoring | a score as a count of passed tests |
| retry.dfy | Retry, SkipLoop | `retry_on_exception`; the skip-processed loops of the akshare and eastmoney F-Score scripts |
| ratelimit.dfy | RateLimit | the `RateLimiter` class |
| resume.dfy | Resume, ResumeFacts, Downloaders | the `{last_index, completed_codes}` batch loop and its five configurations |
| fscore_akshare.dfy | GuardedFScore, AkshareFScore | stock_screeners/get_stock_fscore_akshare.py |
| fscore_eastmoney.dfy | EastmoneyFScore | stock_screeners/get_stock_fscore_eastmoney.py |
| fscore_fscore.dfy | StockFscore | stock_screeners/get_stock_Fscore.py |
| fscore_baostock.dfy | BaostockFScore | stock_screeners/get_stock_fscore_baostock.py |
| test_baostock.dfy | TestBaostock | demos/test_baostock.py |
| fundamentals_akshare.dfy | AkshareFundamentals | stock_screeners/get_stockA_fundamentals_akshare.py |
| fundamentals_baostock.dfy | BaostockFundamentals | stock_screeners/get_stockA_fundamentals_baostock.py |
| fundamentals_multi.dfy | MultiSourceFundamentals | stock_screeners/get_stockA_fundamentals.py |
| fundamentals_v2.dfy | SimpleFundamentals | stock_screeners/get_stockA_fundamentals_v2.py |
| fundamentals_cache.dfy | FundamentalsCache | stock_screeners/stock_fundamentals_cache.py |
| stock_list.dfy | StockUniverse | stock_screeners/get_stockA_list.py |
| finance_extract.dfy | FinanceExtract | the `_extract_finance_data` and `_validate_stock_data` copies |
| strategies.dfy | Strategies | the five strategies and `run_all_strategies` |
| stock_selector.dfy | StockSelector | stock_screeners/stock_selector.py |
| cached_screener.dfy | CachedScreener | stock_screeners/stock_screeners.py |
| quant_selector.dfy | QuantSelector | quantitative_trading/stock_selector.py |
| real_cache.dfy | RealCache | what the two real-data cache builders share |
| tushare_real_cache.dfy | TushareCache | stock_screeners/tushare_real_cache.py |
| free_real_cache.dfy | FreeCache | stock_screeners/free_real_cache.py |
| screen_eastmoney.dfy | ScreenEastmoney | stock_screeners/stock_screeners_eastmoney.py |
| baostock_screen.dfy, screen_baostock.dfy | BaostockScreen, ScreenBaostock | stock_screeners/stock_screeners_baostock.py (its table part and its `StockScreener` object) |
| recommendation.dfy | Recommendation | stock_recommendation/stock_recommendation.py |
| base_info.dfy | BaseInfo | stock_recommendation/base_info.py |
| stock_selector_demo.dfy | StockSelectorDemo | demos/stock_selector_demo.py |

## Where the code and its design description differ

The model follows the code in every case below.

- **Validation bounds.** `_validate_stock_data` accepts a record only when pe, pb and roe are
  present and positive. It then requires closed ranges: pe in [1, 200], pb in [0.1, 20] and
  roe in [0.1, 100]. The design describes open lower bounds. This is `FinanceExtract.ValidateStockData`.
- **Absent versus zero.** The design says an absent indicator is "unknown, never zero".
  - The scorer of get_stock_Fscore.py guards its tests with truthiness, so a value of 0
    also fails the tests that read it (`StockFscore.ZeroOperandFails`).
  - The cache builders read NaN as zero when they coerce numeric columns (`RealCache`).
- **The equity test.**
  - get_stock_Fscore.py sets `has_new_equity` to False, so test 7 always passes.
  - The akshare and eastmoney scorers pass test 7 only on an explicit False; a missing flag fails it.
  - The four improvement flags of get_stock_Fscore.py are never written, so the tests that
    read them never pass (`StockFscore.ScoreBounds`: every snapshot it builds scores 1 to 5).
- **Checkpoint position.** `last_index` is saved as `start_index + i + len(batch)`, where `i`
  is a position in the list of REMAINING codes, not in the universe. It is saved only after a
  batch that has records. The resume is still idempotent, because completed codes are
  filtered out on every load (`ResumeFacts.RunProgress`, `Resume.RemainingMembers`).
- **Fundamentals cache.** A resumed run of `update_fundamentals_cache` collects records only
  for the codes not already in the checkpoint (`FundamentalsCache.RunCollectsEachCodeOnce`).
  The table it then writes therefore holds none of the checkpointed codes' records.
- **Rate limiter.** When the window is full, it sleeps `61 - elapsed` seconds, one second past
  the window reset, then resets the window and counts the request (`RateLimit.RateLimiter.CheckRateLimit`).
- **Eastmoney score.** The score of the eastmoney screener is clipped to [0, 100], but a NaN
  score stays NaN and sorts last (`ScreenEastmoney.RankedProps`). Its quantiles follow pandas'
  linear interpolation.
- **Exchange prefixes.** The two exchange-prefix helpers of base_info.py disagree on Shanghai
  B-shares: 900901 becomes "SH.900901" in one and "sz.900901" in the other
  (`BaseInfo.BShareExchangeDisagrees`).
- **Shared definitions.** The three copies of `_extract_finance_data` and
  `_validate_stock_data` are one definition here, parameterised by an `ExtractRule`. So the
  three selectors provably extract and validate alike. The quantitative variant differs only
  in skipping non-positive values.

## Model

| member | source | states |
|---|---|---|
| StockFscore.CalculateFScore | stock_screeners/get_stock_Fscore.py:462-539 | None exactly when the dictionary is missing; otherwise nine test outcomes whose count is the score (at most 9), with test 7 passing iff `has_new_equity` is not set |
| StockFscore.ZeroOperandFails | stock_screeners/get_stock_Fscore.py:491-501 | for every snapshot, test 3 fails at a prior ROA of 0 and test 4 at a net profit of 0, because the guards test truthiness, although with a positive current operand the value did increase |
| StockFscore.GetStockFundamentalData | stock_screeners/get_stock_Fscore.py:320-460 | the year loop with its `break` before 2007 computes the effective snapshot function |
| StockFscore.ScoreBounds | stock_screeners/get_stock_Fscore.py:338-358 | every snapshot the builder returns scores between 1 and 5: flags 5, 6, 8 and 9 are never written and test 7 always passes |
| StockFscore.BeforeBaostockData | stock_screeners/get_stock_Fscore.py:375-378 | before 2007 the loop breaks at once, so the snapshot holds only the basic record and scores exactly 1 |
| StockFscore.FirstDataYear | stock_screeners/get_stock_Fscore.py:375-403 | in 2007 the prior year is skipped, no prior ROA is set and test 3 fails |
| StockFscore.AnalyzeStock | stock_screeners/get_stock_Fscore.py:541-574 | None iff the snapshot is missing; otherwise the scorer's result with the snapshot's industry, carrying each of the eleven raw figures of the snapshot |
| StockFscore.AnalysisOfSnapshot | stock_screeners/get_stock_Fscore.py:560-572 | for a snapshot the builder returns, the analysis scores in [1, 5] and both asset turnovers come back None, since the builder never writes them |
| GuardedFScore.CalculateFScore | stock_screeners/get_stock_fscore_akshare.py:354-443 | nine test outcomes, the score is their count and at most 9 |
| GuardedFScore.MissingOperandFails | stock_screeners/get_stock_fscore_akshare.py:374-441 | a missing operand fails every test that reads it: current ROA tests 1 and 3, prior ROA test 3, cash flow tests 2 and 4, net profit test 4, either leverage test 5, either current ratio test 6, either margin test 8, either turnover test 9; test 7 passes iff `is_equity_increased` is exactly False |
| AkshareFScore.RuleEffect | stock_screeners/get_stock_fscore_akshare.py:257-325 | a column rule writes nothing iff none of its alternative columns is in the row |
| AkshareFScore.ApplyBlockSets | stock_screeners/get_stock_fscore_akshare.py:257-325 | a block with no failed conversion sets each field whose column is present to that column's value and leaves every other field as it was |
| AkshareFScore.IndicatorOverrides | stock_screeners/get_stock_fscore_akshare.py:296-325 | every value the indicator frame provides is the final current value, whatever the abstract frame said |
| AkshareFScore.PercentColumnWins | stock_screeners/get_stock_fscore_akshare.py:269-283 | the "(%)" column wins when present; otherwise the bare leverage or margin column is used, multiplied by 100 |
| AkshareFScore.ScoreBounds | stock_screeners/get_stock_fscore_akshare.py:327-350 | every built snapshot scores between 1 and 5: tests 5, 6, 8 and 9 compare a value with itself and fail, test 7 passes, and test 3 passes exactly when test 1 does |
| AkshareFScore.CopiedScore | stock_screeners/get_stock_fscore_akshare.py:384-441 | the same score facts for any snapshot whose priors are the copies the builder writes |
| EastmoneyFScore.Secid | stock_screeners/get_stock_fscore_eastmoney.py:65-80 | "0." before Shenzhen codes (0 or 3), "1." before codes starting with 6, and the bare code otherwise |
| EastmoneyFScore.SecidAgreement | stock_screeners/get_stock_fscore_eastmoney.py:65-80 | the three secid rules of the file agree on six-character Shenzhen and Shanghai codes and disagree on other first characters; short codes are zero-padded into market 0 by `get_stock_info` |
| EastmoneyFScore.ParseKlines | stock_screeners/get_stock_fscore_eastmoney.py:300-306 | the loop over kline lines builds the dictionary function of the lines |
| EastmoneyFScore.KlineMapLastWins | stock_screeners/get_stock_fscore_eastmoney.py:300-306 | a date is a key iff some line with at least two parts starts with it, and its value comes from the last such line |
| EastmoneyFScore.SheetTruthyIffEntry | stock_screeners/get_stock_fscore_eastmoney.py:232-262 | a fetched sheet counts as present iff one of its lines has at least two parts |
| EastmoneyFScore.InfoPriorsCopied | stock_screeners/get_stock_fscore_eastmoney.py:214-229 | each prior ROA and gross margin is absent or equal to its current value |
| EastmoneyFScore.ScoreFollowsFetches | stock_screeners/get_stock_fscore_eastmoney.py:191-271 | tests 3 and 8 always fail and 7 and 9 always pass; test 2 follows the cash-flow fetch, tests 5 and 6 the balance fetch, test 4 the profit and cash-flow fetches; the score lies between 2 and 7 |
| EastmoneyFScore.ScoreFromTests | stock_screeners/get_stock_fscore_eastmoney.py:451-540 | the score of any snapshot whose tests come out as a built snapshot's |
| EastmoneyFScore.SnapshotTests | stock_screeners/get_stock_fscore_eastmoney.py:191-271 | the nine test outcomes of a built snapshot, each in terms of the fetches |
| EastmoneyFScore.AnalyzeStock | stock_screeners/get_stock_fscore_eastmoney.py:542-589 | None iff no snapshot exists; otherwise the score is the count of the tests, ROA growth is test 3, and the name comes from the info record or is the code |
| EastmoneyFScore.AnalysisNeverRoaIncreased | stock_screeners/get_stock_fscore_eastmoney.py:542-589 | an analysis of a built snapshot never reports ROA growth and scores between 2 and 7 |
| BaostockFScore.CalculateFScore | stock_screeners/get_stock_fscore_baostock.py:156-231 | nine details with `no_new_equity` always 1, the score one less than their count (so at most 8), and accruals exactly the conjunction of tests 1 and 2 |
| BaostockFScore.MissingKeys | stock_screeners/get_stock_fscore_baostock.py:171-223 | a missing current ROA or cash flow fails tests 1, 2 and 4; each comparison fails when an operand is missing; an empty dictionary scores 0 |
| BaostockFScore.MissingRoaCountsAsZero | stock_screeners/get_stock_fscore_baostock.py:172-187 | the default 0 for a missing current ROA takes part in test 3 and beats a negative prior ROA |
| BaostockFScore.LatestQuarter | stock_screeners/get_stock_fscore_baostock.py:98-111 | quarters 4, 3, 2, 1 are tried in turn and the first one with rows is used; no rows in any quarter gives None |
| BaostockFScore.FetchYear | stock_screeners/get_stock_fscore_baostock.py:95-152 | one year of the three walk-back loops and the annual operation query computes the year-update function |
| BaostockFScore.YearUpdateKeys | stock_screeners/get_stock_fscore_baostock.py:108-152 | a year writes only keys of its own period (`current_` for offset 0, `previous_` for offset 1); the ROA key is set from column 4 of the latest profit row |
| BaostockFScore.YearWritesKeys | stock_screeners/get_stock_fscore_baostock.py:108-152 | the same facts for the four statement rows of a year |
| BaostockFScore.SameOtherYearTrans | stock_screeners/get_stock_fscore_baostock.py:108-152 | leaving the other period's keys alone is transitive across the writes of a year |
| BaostockFScore.WriteRowKeys | stock_screeners/get_stock_fscore_baostock.py:107-110 | writing a row touches only its one or two keys, and a present row sets the first key from its column |
| BaostockFScore.Calculator.constructor | stock_screeners/get_stock_fscore_baostock.py:34-37 | a calculator starts logged out |
| BaostockFScore.Calculator.Login | stock_screeners/get_stock_fscore_baostock.py:39-54 | once logged in it returns True without calling `bs.login()` again; otherwise one login call whose outcome sets the flag |
| BaostockFScore.Calculator.Logout | stock_screeners/get_stock_fscore_baostock.py:56-64 | the flag is cleared |
| BaostockFScore.Calculator.GetFinancialData | stock_screeners/get_stock_fscore_baostock.py:86-154 | None without a session; otherwise the two years of statements, or an exception when a cell does not convert |
| BaostockFScore.SaveMerge | stock_screeners/get_stock_fscore_baostock.py:293-340 | the appended file is sorted by descending score, has unique codes and loses none, holds only input rows, and keeps for each code a row of minimal score |
| BaostockFScore.SaveOverwrite | stock_screeners/get_stock_fscore_baostock.py:326-345 | overwriting writes a permutation of the new rows, sorted by descending score |
| TestBaostock.GetValue | demos/test_baostock.py:122-136 | None for a missing or empty frame or an absent column; a string cell is parsed, None when it does not parse; any other value is returned |
| TestBaostock.FTests | demos/test_baostock.py:42-117 | nine details with test 7 always passing, the score their count, between 1 and 9 |
| TestBaostock.CalculateFScore | demos/test_baostock.py:28-120 | None whenever a required frame (current profit, balance or cash flow, prior profit or balance) is missing or empty; for complete frames a score exists iff no ratio raises, and it counts the details and lies in [1, 9] |
| TestBaostock.ZeroDivisorFailsTest | demos/test_baostock.py:46-111 | a zero divisor gives no ratio and every comparison with it fails |
| TestBaostock.MissingNumeratorDiscardsScore | demos/test_baostock.py:78 | a balance sheet with a non-zero total asset but no total liability makes the debt ratio raise, so the whole score is None |
| TestBaostock.CalculateFScoreCorrected | demos/test_baostock.py:28-120 | the corrected scorer returns a score exactly when the required frames are present, with the same count and bounds |
| TestBaostock.CorrectedAgrees | demos/test_baostock.py:28-120 | wherever the written scorer returns a score, the corrected scorer returns the same one |
| TestBaostock.RaisedFreeAgrees | demos/test_baostock.py:46-111 | where no ratio raises, each ratio equals the corrected ratio |
| TestBaostock.ValuationThreshold | demos/test_baostock.py:240-251 | the valuation test passes exactly when the current profit exceeds 5·10^8 |
| TestBaostock.FFTests | demos/test_baostock.py:154-253 | ten details whose count is the score (at most 10), with the valuation detail set iff profit > 5·10^8 |
| TestBaostock.CalculateFFScore | demos/test_baostock.py:138-256 | the same frame and raise rules as the F-Score, ten tests, a score in [0, 10] equal to the count of its details |
| RateLimit.RateLimiter.constructor | stock_screeners/get_stock_Fscore.py:65-74 | `reset()`: every counter 0 and every window starting at the current time, with the given per-source limits |
| RateLimit.RateLimiter.CheckRateLimit | stock_screeners/get_stock_Fscore.py:76-94 | a window at least 60 s old is reset without sleeping; a full window sleeps 61 − elapsed seconds, in (1, 61], and restarts; otherwise the counter grows by one; afterwards the source's count lies in [1, limit] and every other source is unchanged; lines 101-119 of stock_screeners/get_stockA_fundamentals_akshare.py are the same method with the akshare (60) and eastmoney (50) limits, and lines 74-93 of stock_screeners/get_stockA_fundamentals_baostock.py the same with the baostock limit of 100 |
| RateLimit.RateLimiter.FetchPermits | stock_screeners/get_stock_Fscore.py:327 | a fetch spends two units (one direct check and one inside `login_baostock`, line 111) and, within a window with room for two, never waits |
| Retry.FirstReturn | stock_screeners/get_stock_fscore_akshare.py:87-97 | the index of the first attempt that returns, with every earlier attempt raising, or the attempt limit |
| Retry.RetryOnException | stock_screeners/get_stock_fscore_akshare.py:83-98 | at most `max_retries` calls; the first non-raising result is returned unchanged; None only after every attempt raised; one sleep between attempts and none after the last |
| Retry.NeverRaisingCalledOnce | stock_screeners/get_stock_fscore_akshare.py:88-90 | a call that never raises is made exactly once and its result is returned |
| SkipLoop.SkipAllConcat | stock_screeners/get_stock_fscore_akshare.py:648-700 | running the codes of s and then of t is the same as running s + t |
| SkipLoop.SkipAllProps | stock_screeners/get_stock_fscore_akshare.py:658-673 | the processed set grows by exactly the codes that succeed, results are only appended, and each appended result is a successful analysis of a code not processed before |
| SkipLoop.SkipPropsStep | stock_screeners/get_stock_fscore_akshare.py:658-673 | the same facts carried over one more code |
| SkipLoop.SkipStepOnce | stock_screeners/get_stock_fscore_akshare.py:659-662 | a code already processed is skipped, so its result is appended at most once |
| SkipLoop.SkipRun.constructor | stock_screeners/get_stock_fscore_akshare.py:527-544 | `load_progress`: the stored `processed_stocks`, or the empty set when there is none |
| SkipLoop.SkipRun.Run | stock_screeners/get_stock_fscore_akshare.py:648-700 | batches of 20 give the skip-loop function of the codes; progress is saved once per batch; the pause between batches is skipped after the last one; lines 740-784 of stock_screeners/get_stock_fscore_eastmoney.py are the same loop |
| SkipLoop.SkipRun.SaveBatchAt | stock_screeners/get_stock_fscore_akshare.py:651-696 | one pass of the batch loop at i = 20k carries the loop state from k batches to k + 1: the first k + 1 batches processed, one more save, and one more pause unless the batch reached the end |
| SkipLoop.SkipRun.ProgressAtExit | stock_screeners/get_stock_fscore_akshare.py:649-650 | once `range(0, n, 20)` is exhausted, all codes are processed, ceil(n/20) saves were made and one pause fewer than batches, and the progress file holds the processed set whenever there was a batch |
| SkipLoop.SkipRun.SaveBatch | stock_screeners/get_stock_fscore_akshare.py:691-696 | one batch, then its progress save, then the pause only when more batches follow |
| SkipLoop.SkipRun.RunBatch | stock_screeners/get_stock_fscore_akshare.py:658-683 | one batch: processed codes are skipped, the others retried up to three times, and a code joins the processed set only with its result |
| Resume.LoadProgress | stock_screeners/get_stock_Fscore.py:587-596 | the stored record, or `{last_index: 0, completed_codes: []}` when the file is missing or does not parse |
| Resume.RemainingMembers | stock_screeners/get_stock_Fscore.py:693 | a code remains exactly when it sits at or after `last_index` and is not completed |
| Resume.FirstTruthy | stock_screeners/get_stock_Fscore.py:727-734 | the first attempt whose result is truthy, every earlier attempt falsy, or the attempt limit |
| Resume.FetchUntilTruthy | stock_screeners/get_stock_Fscore.py:724-734 | at most three calls; the first truthy result is returned; None only when every call was falsy; lines 465-476 of stock_screeners/get_stockA_fundamentals_baostock.py are the same retry loop |
| Resume.AcceptedCodesMembers | stock_screeners/get_stock_Fscore.py:736-740 | a code of a batch is completed exactly when it is in the batch and its record is accepted |
| Resume.AcceptedCodesSnoc | stock_screeners/get_stock_Fscore.py:736-740 | one more code adds itself to the completed codes exactly when accepted |
| Resume.AcceptedCodesConcat | stock_screeners/get_stock_Fscore.py:708-754 | the completed codes of two consecutive runs of codes are the union of each run's |
| Resume.ResumeRun.constructor | stock_screeners/get_stock_Fscore.py:680-702 | the run starts from the loaded progress record, with the success count equal to the number of completed codes |
| Resume.ResumeRun.Run | stock_screeners/get_stock_Fscore.py:687-754 | nothing happens when `last_index` is past the end or nothing remains; otherwise every batch runs and the state is the run specification; lines 511-563 of stock_screeners/get_stockA_fundamentals.py are the same loop, with the CSV write mode 'w' at index 0 and 'a' otherwise |
| Resume.ResumeRun.ProcessBatch | stock_screeners/get_stock_Fscore.py:708-754 | one batch: every code fetched, then the batch's bookkeeping |
| Resume.ResumeRun.RecordBatch | stock_screeners/get_stockA_fundamentals.py:555-563 | a batch with records that is written moves progress to its end and switches the mode to append; otherwise only the completed set and the counters change |
| Resume.FetchCode | stock_screeners/get_stockA_fundamentals.py:538-541 | a single call when one attempt is allowed, else the retry loop |
| Resume.CollectBatch | stock_screeners/get_stock_Fscore.py:723-746 | the accepted records of a batch in order, and the codes that succeeded |
| ResumeFacts.BatchRecordsConcat | stock_screeners/get_stock_Fscore.py:708-754 | the records of two consecutive runs of codes are the concatenation of each run's |
| ResumeFacts.BatchRecordsAccepted | stock_screeners/get_stockA_fundamentals.py:538-547 | a batch contributes at most one record per code, each with a non-empty name |
| ResumeFacts.AfterBatchFields | stock_screeners/get_stock_Fscore.py:736-754 | one batch adds its accepted codes to the completed set and its record count to the success count |
| ResumeFacts.RunBatchesStep | stock_screeners/get_stock_Fscore.py:708-709 | the state after k batches is batch k's effect on the state after k − 1 |
| ResumeFacts.RunCompleted | stock_screeners/get_stock_Fscore.py:736-740 | after k batches the completed set is the old set plus the accepted codes of those batches |
| ResumeFacts.CompletedStep | stock_screeners/get_stock_Fscore.py:736-740 | the same fact carried over one more batch |
| ResumeFacts.RunSuccessCount | stock_screeners/get_stock_Fscore.py:739 | after k batches the success count has grown by the number of records accepted |
| ResumeFacts.CountedStep | stock_screeners/get_stock_Fscore.py:739 | the same fact carried over one more batch |
| ResumeFacts.AfterBatchProgress | stock_screeners/get_stock_Fscore.py:749-751 | progress moves only after a saved batch, and then to `start_index + i + len(batch)` |
| ResumeFacts.RunProgress | stock_screeners/get_stock_Fscore.py:749-751 | after k batches the progress record is the initial one or ends some saved batch, and names only completed codes |
| ResumeFacts.RunCsv | stock_screeners/get_stockA_fundamentals.py:523-560 | with a CSV file the first saved batch replaces the file when starting at index 0 and every later batch appends |
| ResumeFacts.RunNoCsv | stock_screeners/get_stock_Fscore.py:737-738 | without a CSV file every accepted record is appended to the in-memory results |
| ResumeFacts.SavedAll | stock_screeners/get_stockA_fundamentals.py:555-558 | when every write succeeds the saved records are all the accepted records |
| ResumeFacts.RunDelays | stock_screeners/get_stock_Fscore.py:717-721 | with the pause before every batch but the first, k batches pause k − 1 times |
| ResumeFacts.RemainingLength | stock_screeners/get_stock_Fscore.py:693 | no more codes remain than sit after `last_index` |
| ResumeFacts.MainCompletion | stock_screeners/get_stock_Fscore.py:680-754 | a run adds exactly the accepted remaining codes to the completed set and their record count to the success count |
| ResumeFacts.MainProgress | stock_screeners/get_stock_Fscore.py:680-754 | the completed set only grows, progress names only completed codes, `last_index` never decreases and stays within the code list |
| ResumeFacts.MainCsv | stock_screeners/get_stockA_fundamentals.py:523-560 | a run from index 0 replaces the file with its saved records (or leaves it alone when nothing is saved); a resumed run appends them |
| ResumeFacts.MainNoCsv | stock_screeners/get_stock_Fscore.py:701-738 | the in-memory results are the old ones followed by every accepted record |
| ResumeFacts.MainDelays | stock_screeners/get_stock_Fscore.py:717-721 | a run over n batches pauses n − 1 times |
| Downloaders.MainSavedAll | stock_screeners/get_stockA_fundamentals.py:555-558 | when every write succeeds, the records saved over all batches are all the accepted records |
| Downloaders.CsvRun | stock_screeners/get_stockA_fundamentals.py:504-563 | what a CSV-writing run leaves behind: completed set, success count, consistent progress, nothing done when nothing remains, and the file contents |
| Downloaders.FscoreRun | stock_screeners/get_stock_Fscore.py:680-754 | batches of 20 with three attempts: accepted codes complete, every result is kept, progress names only completed codes, and pauses come between batches only |
| Downloaders.AkshareFundamentalsRun | stock_screeners/get_stockA_fundamentals_akshare.py:460-530 | the CSV-run outcome with batches of 20 and one attempt, and a pause before every batch but the first |
| Downloaders.BaostockFundamentalsRun | stock_screeners/get_stockA_fundamentals_baostock.py:424-494 | the CSV-run outcome with batches of 20, at most three attempts, and a pause before every batch but the first |
| Downloaders.MultiSourceFundamentalsRun | stock_screeners/get_stockA_fundamentals.py:504-563 | the CSV-run outcome with batches of 20 and one attempt |
| Downloaders.SimpleFundamentalsRun | stock_screeners/get_stockA_fundamentals_v2.py:183-240 | the CSV-run outcome with batches of 10 and one attempt |
| MultiSourceFundamentals.Location | stock_screeners/get_stockA_fundamentals.py:137 | '上海' iff the code starts with '6' or '5', else '深圳' |
| MultiSourceFundamentals.EmptyRecord | stock_screeners/get_stockA_fundamentals.py:383-397 | the thirteen keys of the short record: the code, its location, and every other column empty |
| MultiSourceFundamentals.ChoiceNamed | stock_screeners/get_stockA_fundamentals.py:350 | the choice is 'auto' exactly for the text "auto" |
| MultiSourceFundamentals.SourceOrder | stock_screeners/get_stockA_fundamentals.py:353-357 | [akshare, eastmoney, baostock] for 'auto'; otherwise the choice first, followed by the default list without it |
| MultiSourceFundamentals.SourceOrderChoice | stock_screeners/get_stockA_fundamentals.py:354-357 | choosing one of the three moves it to the front and keeps the other two in their default order |
| MultiSourceFundamentals.BaostockRecord | stock_screeners/get_stockA_fundamentals.py:182-236 | a record exists iff baostock is available, the login succeeds and the profit query has rows; its name is always empty |
| MultiSourceFundamentals.BaostockNeverAccepted | stock_screeners/get_stockA_fundamentals.py:211-213 | the baostock branch can never be the accepted source |
| MultiSourceFundamentals.GetFundamentalsRealData | stock_screeners/get_stockA_fundamentals.py:350-397 | the loop over sources with its early return computes the resolution function over the source order |
| MultiSourceFundamentals.ResolveFirst | stock_screeners/get_stockA_fundamentals.py:359-381 | the first accepted source's record is returned and later sources do not matter; with none accepted the empty record is returned |
| MultiSourceFundamentals.ResolveNamed | stock_screeners/get_stockA_fundamentals.py:359-397 | the result always has a name key, non-empty exactly when some source was accepted; the function never returns None |
| MultiSourceFundamentals.AutoResolution | stock_screeners/get_stockA_fundamentals.py:353-397 | in the default order the result is akshare's record if accepted, else eastmoney's, else the empty record |
| MultiSourceFundamentals.MergeAbsent | stock_screeners/get_stockA_fundamentals.py:293-295 | the merge loop computes the merge function of its items |
| MultiSourceFundamentals.MergedKeepsExisting | stock_screeners/get_stockA_fundamentals.py:293-295 | a key already in `latest_data` keeps its value |
| MultiSourceFundamentals.MergedKeys | stock_screeners/get_stockA_fundamentals.py:293-295 | the merged keys are the existing keys and the item keys |
| MultiSourceFundamentals.MergedFirstWins | stock_screeners/get_stockA_fundamentals.py:293-295 | an absent key takes the value of the first item that carries it |
| MultiSourceFundamentals.ReplaceRedundant | stock_screeners/get_stockA_fundamentals.py:416-417 | mapping '', 'None' and 'nan' to NaN before coercion changes nothing the coercion does not do already |
| MultiSourceFundamentals.EmptyTextIsNaN | stock_screeners/get_stockA_fundamentals.py:416-417 | the empty text coerces to NaN |
| MultiSourceFundamentals.NoneTextIsNaN | stock_screeners/get_stockA_fundamentals.py:416-417 | the text 'None' coerces to NaN |
| MultiSourceFundamentals.NanTextIsNaN | stock_screeners/get_stockA_fundamentals.py:416-417 | the text 'nan' coerces to NaN |
| MultiSourceFundamentals.CoerceRow | stock_screeners/get_stockA_fundamentals.py:414-417 | a saved row keeps its keys; numeric columns are coerced and the others kept as text |
| MultiSourceFundamentals.Frame | stock_screeners/get_stockA_fundamentals.py:402-417 | one coerced row per record, in order |
| MultiSourceFundamentals.Columns | stock_screeners/get_stockA_fundamentals.py:402 | the frame's columns are exactly the keys of the records |
| MultiSourceFundamentals.SaveBatch | stock_screeners/get_stockA_fundamentals.py:399-427 | a failed write reports False and leaves the file; mode 'w' or a missing file writes a fresh file with header; otherwise the rows are appended without a header |
| MultiSourceFundamentals.FrameCells | stock_screeners/get_stockA_fundamentals.py:414-417 | every numeric cell of a saved batch is a number or NaN, never text; other cells are kept verbatim |
| AkshareFundamentals.RealData | stock_screeners/get_stockA_fundamentals_akshare.py:332-349 | the akshare record when it carries a non-empty name; otherwise the five-column record with the code, its location and an empty name; the name is non-empty exactly when the akshare record was accepted |
| AkshareFundamentals.UpdateLogFile.constructor | stock_screeners/get_stockA_fundamentals_akshare.py:411 | the log file starts in the given state |
| AkshareFundamentals.UpdateLogFile.UpdateLog | stock_screeners/get_stockA_fundamentals_akshare.py:382-436 | returns True exactly when the write succeeds; then the file holds the logged document, otherwise it is left as it was |
| AkshareFundamentals.LoggedHistory | stock_screeners/get_stockA_fundamentals_akshare.py:413-424 | unless the old file could not be read, the new history starts with the entry, is at most 100 long, and continues with the old history's first entries |
| AkshareFundamentals.CurrentNeverRefreshed | stock_screeners/get_stockA_fundamentals_akshare.py:413-428 | an existing document keeps its 当前状态 and its other keys; only a new file gets the entry as 当前状态; an unreadable file is replaced by the flat entry |
| AkshareFundamentals.RecoveryAfterUnreadable | stock_screeners/get_stockA_fundamentals_akshare.py:417-426 | after a failed read, the next update finds no history and starts one with its own entry, keeping the first entry's flat keys |
| BaostockFundamentals.CurrentQuarter | stock_screeners/get_stockA_fundamentals_baostock.py:197 | a quarter in 1..4 whose three months contain the given month |
| BaostockFundamentals.PeriodInRange | stock_screeners/get_stockA_fundamentals_baostock.py:200-209 | every queried quarter lies in 1..4, and the period lies year offset * 4 + quarter offset quarters back from now |
| BaostockFundamentals.PeriodsDecrease | stock_screeners/get_stockA_fundamentals_baostock.py:200-209 | the walk-back visits strictly earlier periods as the offsets grow |
| BaostockFundamentals.FloorBeforeWrap | stock_screeners/get_stockA_fundamentals_baostock.py:202-209 | the 2007 floor is checked before the quarter wraps, so in the first quarter of 2007 the walk-back queries 2006 Q4 |
| BaostockFundamentals.Initial | stock_screeners/get_stockA_fundamentals_baostock.py:151-193 | the thirty-column record with every column but the code and location empty |
| BaostockFundamentals.Fetched | stock_screeners/get_stockA_fundamentals_baostock.py:304-319 | a record is returned only when it carries a non-empty name |
| BaostockFundamentals.DeriveKeepsName | stock_screeners/get_stockA_fundamentals_baostock.py:311-313 | filling 净利润增速 leaves the name in place |
| BaostockFundamentals.QuarterLoop | stock_screeners/get_stockA_fundamentals_baostock.py:205-303 | the inner loop over four quarter offsets equals the quarter walk-back specification, a raise giving None |
| BaostockFundamentals.GetFundamentalsFromBaostock | stock_screeners/get_stockA_fundamentals_baostock.py:128-328 | the year loop with its break on a found name equals the outcome specification |
| BaostockFundamentals.QuartersFirstHit | stock_screeners/get_stockA_fundamentals_baostock.py:212-303 | from 2007 on, only the first period with profit rows is read, and a year without any profit rows leaves the record unchanged |
| BaostockFundamentals.NoDataBefore2007 | stock_screeners/get_stockA_fundamentals_baostock.py:203-204 | before 2007 nothing is queried and the result is None |
| BaostockFundamentals.EmptyRatiosBecomeZero | stock_screeners/get_stockA_fundamentals_baostock.py:249-252 | empty current and quick ratio cells are recorded as '0' |
| BaostockFundamentals.FifteenColumnBalanceRaises | stock_screeners/get_stockA_fundamentals_baostock.py:246-250 | a balance row of exactly fifteen columns passes the length test but raises on the quick ratio, which discards the record |
| SimpleFundamentals.SimpleName | stock_screeners/get_stockA_fundamentals_v2.py:46-87 | the stripped spot name when it is non-empty; otherwise the stripped name of the info lookup, or empty when that lookup raises |
| SimpleFundamentals.GetFundamentalsSimple | stock_screeners/get_stockA_fundamentals_v2.py:42-124 | the thirteen short columns, the code, the name as above, and both PE columns equal to the spot PE (empty without a spot row) |
| SimpleFundamentals.SimpleRecordDefaults | stock_screeners/get_stockA_fundamentals_v2.py:63-79 | without the financial abstract every indicator column is empty; the location follows the code |
| SimpleFundamentals.NamedNeedsLookup | stock_screeners/get_stockA_fundamentals_v2.py:81-92 | a record is accepted only when the spot row or the fallback lookup supplied a non-empty name |
| FundamentalsCache.ShouldUpdateCacheCases | stock_screeners/stock_fundamentals_cache.py:79-100 | a malformed log counts as no log; a missing cache always needs an update; a cache younger than the period with a fresh or absent log never does |
| FundamentalsCache.ShouldUpdateCacheMonotone | stock_screeners/stock_fundamentals_cache.py:86-95 | the age tests are ≥ tests, so a shorter period can only ask for more updates |
| FundamentalsCache.CollectKeepsCode | stock_screeners/stock_fundamentals_cache.py:262-278 | the three lookups never overwrite the code, so every collected record keeps the zero-padded code |
| FundamentalsCache.Project | stock_screeners/stock_fundamentals_cache.py:305-313 | one cell per required column in declared order: the record's value, or None for an absent column |
| FundamentalsCache.ProcessBatch | stock_screeners/stock_fundamentals_cache.py:254-290 | the loop over one batch's rows equals the row-by-row specification from the state reached so far |
| FundamentalsCache.RunBatch | stock_screeners/stock_fundamentals_cache.py:247-297 | one pass of the batch loop: the batch's rows, then a checkpoint |
| FundamentalsCache.RunBatches | stock_screeners/stock_fundamentals_cache.py:243-297 | the batch loop over ⌈n/size⌉ batches equals the batch-by-batch specification |
| FundamentalsCache.CacheFiles.constructor | stock_screeners/stock_fundamentals_cache.py:231-241 | the cache directory starts with the given checkpoint, cache file and log, and no checkpoint written |
| FundamentalsCache.CacheFiles.UpdateFundamentalsCache | stock_screeners/stock_fundamentals_cache.py:213-332 | an empty list changes nothing; otherwise the first max_stocks rows are run from the loaded checkpoint, every checkpoint is recorded, the checkpoint file is deleted, and the projected records and a log of their count are written only when a record was collected |
| FundamentalsCache.RowsRunIgnoresSaves | stock_screeners/stock_fundamentals_cache.py:284-293 | the checkpoints written do not change what is processed or collected |
| FundamentalsCache.BatchesRunIsRowsRun | stock_screeners/stock_fundamentals_cache.py:245-297 | processing batch by batch collects exactly what one pass over the concatenated batches collects |
| FundamentalsCache.RowsRunProcessed | stock_screeners/stock_fundamentals_cache.py:255-281 | one pass adds exactly the rows' zero-padded codes to the processed set |
| FundamentalsCache.RowsRunData | stock_screeners/stock_fundamentals_cache.py:255-281 | the records appended by one pass carry distinct codes, exactly those of the rows not processed on entry |
| FundamentalsCache.RunCollectsEachCodeOnce | stock_screeners/stock_fundamentals_cache.py:224-297 | a whole run processes every code of the first max_stocks rows, and the collected records carry distinct codes: exactly the listed codes not already in the checkpoint |
| FundamentalsCache.BatchEndsWithCheckpoint | stock_screeners/stock_fundamentals_cache.py:292-293 | every batch ends with a checkpoint of the processed set at that point |
| StockSelector.StockListFirstAccepted | stock_screeners/stock_selector.py:98-126 | the stock list is the rows of the first spot source with more than fifty rows and at least three mapped columns |
| StockSelector.StockListNone | stock_screeners/stock_selector.py:128-131 | with no accepted spot source there is no stock list, and the run returns an empty frame |
| StockSelector.Blank | stock_screeners/stock_selector.py:183-199 | the eleven indicator fields, each NaN before any finance source is read |
| StockSelector.ProcessBatch | stock_screeners/stock_selector.py:175-230 | the loop over one batch's stocks equals the row-by-row specification, the batch's records gathered apart |
| StockSelector.RunBatch | stock_screeners/stock_selector.py:168-240 | one pass of the batch loop: the batch's records appended, then a checkpoint |
| StockSelector.RunBatches | stock_screeners/stock_selector.py:164-240 | the batch loop over ⌈n/size⌉ batches of the remaining rows equals the batch-by-batch specification |
| StockSelector.SelectorFiles.constructor | stock_screeners/stock_selector.py:152-162 | the cache directory starts with the given checkpoint and cache file, and no checkpoint written |
| StockSelector.SelectorFiles.GetStockFundamentals | stock_screeners/stock_selector.py:65-255 | a fresh cache with more than ten rows is returned unchanged; with no stock list nothing changes and the result is empty; otherwise the first max_stocks rows minus the checkpointed codes are run, every checkpoint is recorded, the checkpoint is deleted, and the cache is rewritten when a record was kept |
| StockSelector.RowsRunShift | stock_screeners/stock_selector.py:175-233 | neither the records kept before nor the checkpoints written change what a run processes or keeps |
| StockSelector.BatchesRunIsRowsRun | stock_screeners/stock_selector.py:166-233 | batch by batch, the run processes and keeps exactly what one pass over the concatenated batches does |
| StockSelector.RowsRunKeepsValid | stock_screeners/stock_selector.py:177-222 | a code becomes processed only together with its kept record; every kept record validates and has a code of six or more characters; at most one record per row |
| StockSelector.RowsRunSavesAtMultiples | stock_screeners/stock_selector.py:224-227 | inside a batch, a checkpoint is saved only when the processed count is a multiple of fifty, and it is a subset of the processed set |
| StockSelector.RunKeepsOnlyValid | stock_screeners/stock_selector.py:155-233 | a whole run from a checkpoint: the processed set is the checkpoint's codes plus those of the kept records, at most one record per remaining row, and each one validates |
| FinanceExtract.FirstMatch | stock_screeners/stock_selector.py:296-300 | the index of the first indicator, in table order, with a keyword matching the column name, or the table's length when none matches |
| FinanceExtract.ExtractFinanceData | stock_screeners/stock_selector.py:261-306 | the loop over the first row's columns equals the column-by-column extraction; an empty frame leaves the record unchanged; lines 189-234 of stock_screeners/stock_screeners.py are the same function with the same indicator table, and lines 165-206 of quantitative_trading/stock_selector.py the positive-only variant with its seven-field table |
| FinanceExtract.LastColumnWins | stock_screeners/stock_selector.py:271-300 | a field holds the value of the last column that writes it |
| FinanceExtract.UnwrittenUnchanged | stock_screeners/stock_selector.py:271-303 | a field no column writes keeps its old presence and value |
| FinanceExtract.WrittenValues | stock_screeners/stock_selector.py:278-300 | no field is removed; each field either keeps its old value or holds a number of the indicator table: positive under the positive-only rule, non-negative for the two growth fields stored as absolute values; for lines 181-200 of quantitative_trading/stock_selector.py, under the positive-only rule, every assigned field is strictly positive |
| FinanceExtract.PeTtmNeverMatched | stock_screeners/stock_selector.py:284-300 | every pe_ttm keyword contains a pe keyword once lower-cased, so a column is never assigned to pe_ttm first |
| FinanceExtract.PeTtmMatchesPe | stock_screeners/stock_selector.py:284-285 | a column name matching a pe_ttm keyword also matches a pe keyword |
| FinanceExtract.PeTtmNeverAssigned | stock_screeners/stock_selector.py:283-300 | extraction never writes pe_ttm: it keeps its old presence and value |
| FinanceExtract.ValidateStockData | stock_screeners/stock_selector.py:308-325 | true exactly when pe, pb and roe are present, not NaN, and 1 ≤ pe ≤ 200, 0.1 ≤ pb ≤ 20 and 0.1 ≤ roe ≤ 100; lines 236-253 of stock_screeners/stock_screeners.py and lines 208-225 of quantitative_trading/stock_selector.py are the same predicate |
| FinanceExtract.FetchFinance | stock_screeners/stock_selector.py:202-217 | the loop over finance sources equals the source-fallback specification, with the number of sources called |
| FinanceExtract.SourcesStopAtFirstValid | stock_screeners/stock_selector.py:202-217 | when sources are left uncalled the record validates; a record that does not validate means every source was called; the result depends only on the sources called |
| CachedScreener.Renamed | stock_screeners/stock_screeners.py:45-68 | pe_ttm becomes pe, current_price becomes price and net_margin becomes net_profit_margin; every other column keeps its name |
| CachedScreener.PeAfterRename | stock_screeners/stock_screeners.py:50-68 | pe is present after renaming exactly when pe_ttm or pe was present |
| CachedScreener.PriceAfterRename | stock_screeners/stock_screeners.py:48-68 | price is present after renaming exactly when current_price or price was present |
| CachedScreener.SameAfterRename | stock_screeners/stock_screeners.py:62-68 | a column outside the renaming keeps its presence |
| CachedScreener.FilledRows | stock_screeners/stock_screeners.py:79 | the rows kept by dropna are exactly the rows with pe, pb and roe present and not NaN, in order |
| CachedScreener.PositiveRows | stock_screeners/stock_screeners.py:80-89 | every row returned has pe, pb and roe above zero, and every row with positive pe, pb and roe is returned |
| CachedScreener.LoadProps | stock_screeners/stock_screeners.py:32-96 | a loaded table had every required column after renaming, holds at most the cache's rows, every row has positive pe, pb and roe, and every cache row with positive pe, pb and roe is loaded |
| CachedScreener.IntactCacheLoads | stock_screeners/stock_screeners.py:159-187 | a cache that passes the integrity check has every column the load requires after renaming |
| CachedScreener.KeptAfterRename | stock_screeners/stock_screeners.py:62-72 | code, name, market_cap, pb and roe keep their presence through the renaming |
| CachedScreener.GetStockFundamentals | stock_screeners/stock_screeners.py:147-157 | the loaded cache when it loads, otherwise an empty table; nothing is fetched |
| CachedScreener.FundamentalsPositive | stock_screeners/stock_screeners.py:79-80 | every row the screener works on has pe, pb and roe above zero |
| QuantSelector.QuantBlank | quantitative_trading/stock_selector.py:109-121 | the seven indicator fields, each NaN before any finance source is read |
| QuantSelector.GetStockFundamentals | quantitative_trading/stock_selector.py:34-159 | with no accepted spot source the result is empty; otherwise the loop over the first 25 stocks equals the records that validate, in order |
| QuantSelector.FetchedProps | quantitative_trading/stock_selector.py:100-151 | at most one record per row; each kept record has a code of six or more characters, validates, keeps the seven fields, and every number in it is above zero |
| QuantSelector.PositiveSources | quantitative_trading/stock_selector.py:123-139 | reading the finance sources with the positive-only rule keeps the seven fields and every number above zero |
| QuantSelector.PositiveExtract | quantitative_trading/stock_selector.py:165-206 | one positive-only extraction keeps the seven fields and every number above zero |
| QuantSelector.FetchBounded | quantitative_trading/stock_selector.py:96-159 | at most 25 stocks are examined, so at most 25 records are returned, all of which validate |
| QuantSelector.SaveToJsonProps | quantitative_trading/stock_selector.py:567-589 | a file is written exactly when some result has a non-empty code; it holds exactly the non-empty codes in result order, each zero-padded, and misses none |
| QuantSelector.PaddedCode | quantitative_trading/stock_selector.py:583 | a padded code has at least six characters and keeps a longer code's length |
| Strategies.ByScoreDescTotal | stock_screeners/stock_selector.py:356 | ordering by score descending is a total preorder, so the sort is well defined |
| Strategies.ScreenProps | stock_screeners/stock_selector.py:341-356 | a screen yields min(10, matching rows) picks sorted by score descending, each a matching input row carrying its own score, strategy and reason, and no matching row left out scores above a kept pick |
| Strategies.AllPicksJustified | stock_screeners/stock_selector.py:341-434 | every pick of the five strategies is an input row that meets the filter of the strategy it names and carries that strategy's score; each strategy yields at most ten; the quality screen of stock_screeners/stock_screeners.py (lines 303-326) has no current-ratio condition and scores profit growth with NaN as 0 |
| Strategies.RunAllStrategiesProps | stock_screeners/stock_selector.py:436-504 | the merged result has min(20, picked codes) picks with distinct codes, sorted by score descending; each is a cleaned row justified by its strategy, no pick with the same code scores higher than the one kept, and no pick whose code was left out scores higher than a kept one; an empty table gives None; lines 372-440 of stock_screeners/stock_screeners.py and lines 324-392 of quantitative_trading/stock_selector.py are the same merge |
| StockUniverse.ShenzhenMarketName | stock_screeners/get_stockA_list.py:67 | 深圳主板 exactly for codes starting with 00, 创业板 exactly for codes starting with 30, 中小板 otherwise |
| StockUniverse.FirstAcceptedIsFirst | stock_screeners/get_stockA_list.py:229-235 | the list comes from the first provider, in the order akshare, tushare, eastmoney, with more than a hundred records |
| StockUniverse.FirstAcceptedNone | stock_screeners/get_stockA_list.py:237-294 | no provider is accepted exactly when none has more than a hundred records, and then the preset list is used |
| StockUniverse.ChooseSource | stock_screeners/get_stockA_list.py:229-294 | the loop returns the first accepted provider's records and name, or the preset list and 预设列表 |
| StockUniverse.Dedup | stock_screeners/get_stockA_list.py:296-302 | the loop over the records equals the first-record-per-code de-duplication |
| StockUniverse.Count | stock_screeners/get_stockA_list.py:328-341 | the counting loop equals the count dictionary in first-seen key order |
| StockUniverse.GetStockList | stock_screeners/get_stockA_list.py:212-358 | the universe is the chosen list de-duplicated and sorted by code, with its source name, the market counts and the ten largest industry counts |
| StockUniverse.UniqueIsDedupFirst | stock_screeners/get_stockA_list.py:296-302 | the de-duplication loop agrees with keeping the first record of each code |
| StockUniverse.UniqueKeepsFirst | stock_screeners/get_stockA_list.py:296-302 | one record per code, no code lost, and the record kept is the first one with its code |
| StockUniverse.CodeLeTotal | stock_screeners/get_stockA_list.py:305 | ordering by code is a total preorder |
| StockUniverse.UniverseProps | stock_screeners/get_stockA_list.py:296-305 | the universe is sorted by code, has one record per code, every code of the chosen list and only its records |
| StockUniverse.CountByProps | stock_screeners/get_stockA_list.py:328-341 | the counts add up to the number of records, each key's count is its number of occurrences, and the keys are exactly the keys present |
| StockUniverse.CountEntries | stock_screeners/get_stockA_list.py:329-332 | every entry of a count dictionary holds its key's positive number of occurrences |
| StockUniverse.IndustryNamed | stock_screeners/get_stockA_list.py:340 | an empty industry is counted as 其他, so no counted industry is empty |
| StockUniverse.TopIndustriesProps | stock_screeners/get_stockA_list.py:343-344 | min(10, industries) industries in descending count order, each named and holding its number of records, and no industry left out has a larger count than one kept |
| TushareCache.StockListNonEmpty | stock_screeners/tushare_real_cache.py:59-112 | the stock list is never empty: it is the provider's answer when there is a connection and a non-empty answer, otherwise the ten-stock demo list |
| TushareCache.TsCode | stock_screeners/tushare_real_cache.py:127-130 | the code followed by .SH exactly when it starts with 6, otherwise by .SZ |
| TushareCache.Div | stock_screeners/tushare_real_cache.py:253-254 | a division by a non-zero divisor is the quotient |
| TushareCache.RatioIfPositive | stock_screeners/tushare_real_cache.py:256-257 | the price divided by the per-share figure when that is a positive number, otherwise 0 |
| TushareCache.DemoFiguresProps | stock_screeners/tushare_real_cache.py:242-257 | with draws in their ranges, pe is price over earnings per share and pb is price over book value per share, both positive; the debt ratio lies in [30, 80]; the market cap is price times shares; liabilities and equity add up to the assets |
| TushareCache.DemoDebtRatio | stock_screeners/tushare_real_cache.py:243-290 | the debt ratio is the drawn liability share as a percentage, so it lies in [30, 80] |
| TushareCache.FillFromProps | stock_screeners/tushare_real_cache.py:317-319 | the record keeps every key and value it had, gains exactly the listed keys the list row has and the record lacks, and takes those values from the row |
| TushareCache.FillInfo | stock_screeners/tushare_real_cache.py:317-319 | the fill loop equals fill-if-absent over the six listed keys |
| TushareCache.ProcessBatch | stock_screeners/tushare_real_cache.py:303-330 | one record per stock of the batch, in order, each fetched and completed from its list row |
| TushareCache.Finalize | stock_screeners/tushare_real_cache.py:380-389 | one row per record, each with the missing required columns added |
| TushareCache.MissingProps | stock_screeners/tushare_real_cache.py:387-389 | the added columns are exactly the required ones the frame lacks, numeric ones holding 0 and the others '' |
| TushareCache.UpdateCache | stock_screeners/tushare_real_cache.py:332-419 | the run always succeeds, and the saved frame is the coerced and completed records of the first max_stocks stocks, in order |
| TushareCache.BatchFrames | stock_screeners/tushare_real_cache.py:349-368 | the loop over ⌈n/size⌉ batches, batch k covering [(k−1)·size, min(k·size, n)), concatenates to one record per stock, in order |
| TushareCache.CompletedRow | stock_screeners/tushare_real_cache.py:370-389 | a saved row has every required column; its numeric columns hold numbers, never NaN; any other column keeps the record's value |
| TushareCache.FetchKeepsIdentity | stock_screeners/tushare_real_cache.py:114-123 | the fetched dict, from the provider or the demo data, carries the code and name it was given |
| TushareCache.SavedFrameProps | stock_screeners/tushare_real_cache.py:339-389 | the saved frame has one row per selected stock, in list order, with that stock's code and name; every row has every required column, and every numeric column holds a number |
| FreeCache.WithInfo | stock_screeners/free_real_cache.py:67-75 | the listed code and name, with exchange SH exactly when the code starts with 6 |
| FreeCache.GetStockList | stock_screeners/free_real_cache.py:39-77 | the loop adds the fixed listing fields to every entry of the twenty-stock table, in order |
| FreeCache.ListingExchanges | stock_screeners/free_real_cache.py:71 | every listed stock is on SH exactly when its code starts with 6, and on SZ otherwise |
| FreeCache.ParseQuote | stock_screeners/free_real_cache.py:79-101 | no answer, a non-200 status or a text without a double quote gives zero price and zero turnover |
| FreeCache.QuoteRoundTrip | stock_screeners/free_real_cache.py:91-97 | a quote line prefix"f0,...,fn"suffix with at least 30 fields gives back field 3 as the price and field 38, when there is one, as the turnover, an empty field reading as 0 |
| FreeCache.QuotedPieces | stock_screeners/free_real_cache.py:92 | splitting on the double quote gives back the three quote-free pieces |
| FreeCache.QuoteFields | stock_screeners/free_real_cache.py:92-97 | with at least 30 comma-separated fields after the first double quote, the quote is field 3 and field 38 |
| FreeCache.DefaultFundamentals | stock_screeners/free_real_cache.py:151-173 | the nineteen figure keys, every one 0 |
| FreeCache.Div | stock_screeners/free_real_cache.py:133-136 | a division by a non-zero divisor is the quotient |
| FreeCache.SinaFiguresProps | stock_screeners/free_real_cache.py:103-145 | with draws in their ranges, liabilities and a positive equity add up to the assets, the debt ratio lies in [30, 80], the net margin in [5, 25], roe and eps are positive, and the price and turnover are the quote's when non-zero and the draws otherwise |
| FreeCache.ProcessStockIdentity | stock_screeners/free_real_cache.py:175-206 | the record carries the listed code and name; the figures never overwrite them |
| FreeCache.FiguresNoIdentity | stock_screeners/free_real_cache.py:125-145 | the figures have no code and no name key |
| FreeCache.UpdateCache | stock_screeners/free_real_cache.py:208-262 | the run always succeeds, and the saved frame is the coerced records of the first max_stocks listed stocks, in order |
| FreeCache.UpdateCacheProps | stock_screeners/free_real_cache.py:239-255 | one row per selected stock, in list order, with its code and name, and a number, never NaN, in every numeric column |
| RealCache.Exchange | stock_screeners/free_real_cache.py:71 | SH exactly when the code starts with 6, otherwise SZ |
| RealCache.FillZero | stock_screeners/tushare_real_cache.py:378 | pd.to_numeric(errors='coerce').fillna(0): a number stays as it is, NaN becomes 0 |
| RealCache.CoerceRow | stock_screeners/tushare_real_cache.py:376-378 | a frame row has every frame column; numeric columns hold numbers, an existing number unchanged; other columns keep the record's value or None |
| RealCache.Coerce | stock_screeners/free_real_cache.py:245-255 | one coerced row per record, in order, over the union of the records' columns |
| RealCache.ProcessEach | stock_screeners/free_real_cache.py:239-241 | the loop over a batch's stocks gives one record per stock, in order |
| RealCache.RunBatches | stock_screeners/free_real_cache.py:225-241 | the loop over ⌈n/size⌉ one-based batches, batch k covering [(k−1)·size, min(k·size, n)), gives one record per stock, in order |
| ScreenEastmoney.CoerceCell | stock_screeners/stock_screeners_eastmoney.py:42-54 | a cell of one of the 23 numeric columns is coerced to a number (NaN where it is not one); any other column keeps its cell |
| ScreenEastmoney.CoerceRow | stock_screeners/stock_screeners_eastmoney.py:49-54 | a row keeps its length, and exactly the cells under numeric columns are coerced |
| ScreenEastmoney.CleanDataProps | stock_screeners/stock_screeners_eastmoney.py:33-59 | `clean_data` fails exactly when the stripped columns have no name column or a name is not text; otherwise the columns are the stripped names, a row is kept exactly when it is a coerced input row whose name does not contain "ST", and every numeric cell of a kept row is a number |
| ScreenEastmoney.NameCellsKept | stock_screeners/stock_screeners_eastmoney.py:49-57 | coercion never touches the name column, so the ST test reads the names as loaded |
| ScreenEastmoney.CleanDataRows | stock_screeners/stock_screeners_eastmoney.py:57 | the kept rows are exactly the coerced rows whose name does not contain "ST" |
| ScreenEastmoney.RealLeTotal | stock_screeners/stock_screeners_eastmoney.py:74-84 | the order used to sort a column before taking a quantile is a total preorder |
| ScreenEastmoney.Finite | stock_screeners/stock_screeners_eastmoney.py:74-84 | the values a quantile is taken over are exactly the column's non-NaN values, and no more of them than the column has |
| ScreenEastmoney.Position | stock_screeners/stock_screeners_eastmoney.py:74-84 | the interpolation position q * (n - 1) lies within [0, n - 1] and its integer part indexes the sorted values |
| ScreenEastmoney.InterpolateWithin | stock_screeners/stock_screeners_eastmoney.py:74-84 | on sorted values the linear interpolation lies between the first and the last value, is the first at q = 0 and the last at q = 1 |
| ScreenEastmoney.SortedFinite | stock_screeners/stock_screeners_eastmoney.py:74-84 | the sorted non-NaN values start at the smallest and end at the largest non-NaN value of the column |
| ScreenEastmoney.QuantileProps | stock_screeners/stock_screeners_eastmoney.py:74-84 | a quantile is NaN exactly when the column has no number; otherwise it lies between the column's smallest and largest number, q = 0 gives the smallest and q = 1 the largest |
| ScreenEastmoney.Fence | stock_screeners/stock_screeners_eastmoney.py:76-84 | the fences are numbers exactly when both quartiles are, and are then Q1 - 1.5 IQR and Q3 + 1.5 IQR |
| ScreenEastmoney.IqrFiltered | stock_screeners/stock_screeners_eastmoney.py:74-90 | a stock survives the outlier filter exactly when its TTM PE and its PB lie within their columns' fences (a NaN figure or fence drops it) |
| ScreenEastmoney.Selected | stock_screeners/stock_screeners_eastmoney.py:96-123 | every selected stock is a filtered one passing the strict or the relaxed conditions; with 20 or more strict passes the selection is exactly the strict set, with fewer it is exactly the relaxed set |
| ScreenEastmoney.Clip | stock_screeners/stock_screeners_eastmoney.py:152 | `clip(0, 100)` keeps NaN, sends +inf to 100 and -inf to 0, keeps a value within [0, 100] and gives nothing outside that range |
| ScreenEastmoney.ScoreAll | stock_screeners/stock_screeners_eastmoney.py:128-152 | every selected stock gets one score, in order, the clipped weighted sum of its figures over the whole frame's medians |
| ScreenEastmoney.ScoreBeforeTotal | stock_screeners/stock_screeners_eastmoney.py:155 | the descending score order with NaN last is a total preorder, so the stable sort yields a sorted list |
| ScreenEastmoney.RankedProps | stock_screeners/stock_screeners_eastmoney.py:152-159 | min(50, stocks) stocks come back, sorted by score with NaN last, each score NaN or within [0, 100], each one of the scored stocks, and no scored stock left out ranks before a kept one |
| ScreenEastmoney.ScreenProps | stock_screeners/stock_screeners_eastmoney.py:62-162 | a missing or empty frame gives None and a missing column a KeyError; otherwise min(50, selected) stocks sorted by score, each score NaN or within [0, 100], each one that passed the outlier filter and the strict or the relaxed conditions, only strict passes when there are 20 or more, and no selected stock left out ranks before a returned one |
| ScreenEastmoney.EntryCode | stock_screeners/stock_screeners_eastmoney.py:235 | a whole-number code is written as its decimals left-padded with zeros to at least six digits |
| ScreenEastmoney.SaveToJson | stock_screeners/stock_screeners_eastmoney.py:228-245 | the document holds one entry per row, in order, each the padded code and the name, and `total_stocks` is the number of rows |
| BaostockScreen.InsertYear | stock_screeners/stock_screeners_baostock.py:278 | inserting a year into an ascending list of distinct years keeps it ascending and adds exactly that year |
| BaostockScreen.SortedYears | stock_screeners/stock_screeners_baostock.py:274-278 | the pivot's year columns are ascending and are exactly the years of the finance rows |
| BaostockScreen.GrowthValue | stock_screeners/stock_screeners_baostock.py:289-298 | a growth cell is NaN exactly when the previous profit is NaN or the current one is NaN beside a non-zero previous one; a zero previous profit gives 5; otherwise the relative change in percent raised to at least 5 |
| BaostockScreen.GrowthRow | stock_screeners/stock_screeners_baostock.py:285-293 | a code gets one growth column per year but the earliest |
| BaostockScreen.GrowthRatesProps | stock_screeners/stock_screeners_baostock.py:265-300 | an empty frame gives an empty table and a (code, year) pair twice makes the pivot raise; otherwise the years are ascending and those of the rows, there is a row per code with a column per year but the first, every number is at least 5, and a code with a profit for every year has a number in every column |
| BaostockScreen.LatestYear | stock_screeners/stock_screeners_baostock.py:436 | the latest year is the year of some finance row and no row is later |
| BaostockScreen.MergeRow | stock_screeners/stock_screeners_baostock.py:440-442 | a left merge keeps every finance row at least once, and only with that finance row |
| BaostockScreen.MergeAll | stock_screeners/stock_screeners_baostock.py:437-442 | the merged frame is not empty when the finance frame is not, and every merged row comes from a finance row |
| BaostockScreen.RoeBeforeTotal | stock_screeners/stock_screeners_baostock.py:487-493 | the descending ROE order is a total preorder, so the stable sort yields a sorted frame |
| BaostockScreen.StrictImpliesUltra | stock_screeners/stock_screeners_baostock.py:455-483 | a row meeting the screening conditions meets the ultra-relaxed ones |
| BaostockScreen.StrictStageProps | stock_screeners/stock_screeners_baostock.py:455-471 | the first stage keeps only merged rows that meet the screening conditions; with two growth columns and more than five passes it also demands growth above 3 |
| BaostockScreen.CascadeProps | stock_screeners/stock_screeners_baostock.py:455-496 | the cascade returns merged rows only, never nothing for a non-empty frame; the first non-empty stage wins: the screened rows, else the ultra-relaxed rows sorted by ROE, else min(5, rows) rows sorted by ROE with no row left out ranking above a kept one |
| BaostockScreen.ScreenProps | stock_screeners/stock_screeners_baostock.py:430-496 | any empty input frame gives an empty result; otherwise a non-empty result of latest-year rows only |
| ScreenBaostock.LatestTradingDay | stock_screeners/stock_screeners_baostock.py:26-34 | the query date is before today; on a weekend it is the Friday before, on a weekday the day before |
| ScreenBaostock.Lookup | stock_screeners/stock_screeners_baostock.py:242 | `dict.get` on a literal finds a value stored under the key, and None only when no entry has the key |
| ScreenBaostock.TestCodesProps | stock_screeners/stock_screeners_baostock.py:125-142 | the fallback list holds ten distinct A-share codes |
| ScreenBaostock.CollectProps | stock_screeners/stock_screeners_baostock.py:97-109 | the collected codes are those of rows whose code starts with an A-share prefix, and the dictionary names exactly those codes |
| ScreenBaostock.AShareCodesProps | stock_screeners/stock_screeners_baostock.py:65-123 | the code list is never empty, holds only A-share codes, and the dictionary names exactly its codes; a failed or empty query gives the test list |
| ScreenBaostock.FetchedProps | stock_screeners/stock_screeners_baostock.py:144-212 | the fetched rows are the code's, at most one per target year, each with the code's name |
| ScreenBaostock.FinanceTemplate | stock_screeners/stock_screeners_baostock.py:225-242 | every finance template, the default included, has an ROE of at least 15 |
| ScreenBaostock.TestFinance | stock_screeners/stock_screeners_baostock.py:244-263 | the test data has one row per target year |
| ScreenBaostock.TestFinanceProps | stock_screeners/stock_screeners_baostock.py:244-263 | the test rows carry the code, the name and the target years in order, every net profit is positive and the ROE of the first three years stays at 14.4 or more |
| ScreenBaostock.StockFinanceProps | stock_screeners/stock_screeners_baostock.py:144-220 | the code's frame is never empty when there are target years and holds each year at most once; it is the test data exactly when no row with a non-zero ROE was fetched, and the fetched rows otherwise |
| ScreenBaostock.AllFinanceProps | stock_screeners/stock_screeners_baostock.py:587-601 | with distinct codes and years the concatenated frame has no (code, year) twice, so the pivot does not raise |
| ScreenBaostock.PeRange | stock_screeners/stock_screeners_baostock.py:380-391 | every predefined PE range lies within [15, 70] |
| ScreenBaostock.EstimateRowProps | stock_screeners/stock_screeners_baostock.py:407-426 | an estimated row carries its code and name, a dividend rate of at least 1.6, and a PE in [15, 70) when the draws are uniform |
| ScreenBaostock.EstimateProps | stock_screeners/stock_screeners_baostock.py:377-428 | one estimated row per code, in order, each with those bounds |
| ScreenBaostock.ApiRowsProps | stock_screeners/stock_screeners_baostock.py:343-359 | a batch frame gives at most one row per frame row, and one for each when every row converts |
| ScreenBaostock.SilentBatches | stock_screeners/stock_screeners_baostock.py:309-340 | when no batch answers, the batches yield the estimates of their codes |
| ScreenBaostock.ValuationProps | stock_screeners/stock_screeners_baostock.py:302-375 | the valuation frame is empty only for an empty code list; when no batch answers it is the estimate of every code, each with a dividend rate of at least 1.6 |
| ScreenBaostock.RunSucceeds | stock_screeners/stock_screeners_baostock.py:566-660 | after a successful login, with no code twice among the first ten, `run` reaches the screen and the screen is not empty |
| ScreenBaostock.Screener.constructor | stock_screeners/stock_screeners_baostock.py:13-24 | the query date is the latest trading day, the target years are the three before the current one, and the session is closed |
| ScreenBaostock.Screener.Login | stock_screeners/stock_screeners_baostock.py:36-52 | the login succeeds exactly when the error code is "0", and only success opens the session |
| ScreenBaostock.Screener.Logout | stock_screeners/stock_screeners_baostock.py:54-63 | the session is closed unless `bs.logout()` raises |
| ScreenBaostock.Screener.GetAShareCodes | stock_screeners/stock_screeners_baostock.py:65-123 | returns the codes and names `AShareCodesProps` describes |
| ScreenBaostock.FetchYears | stock_screeners/stock_screeners_baostock.py:146-214 | the loop over the target years gathers, in year order, the row of every year whose three statements answer, and stops at the first query that raises |
| ScreenBaostock.Screener.GetStockFinance | stock_screeners/stock_screeners_baostock.py:144-220 | returns the finance frame `StockFinanceProps` describes |
| ScreenBaostock.Screener.ProvideTestFinanceData | stock_screeners/stock_screeners_baostock.py:222-263 | returns the test rows of `TestFinanceProps`, built from the code's template |
| ScreenBaostock.Screener.EstimateValuationData | stock_screeners/stock_screeners_baostock.py:377-428 | returns the estimates `EstimateProps` describes |
| ScreenBaostock.Screener.ValuationBatch | stock_screeners/stock_screeners_baostock.py:310-366 | one batch appends its API rows, or its estimates when the query fails, comes back empty or raises |
| ScreenBaostock.Screener.ValuationLoop | stock_screeners/stock_screeners_baostock.py:307-366 | the batch loop over batches of 300 codes appends the batches' rows in order |
| ScreenBaostock.Screener.ValuationBatchAt | stock_screeners/stock_screeners_baostock.py:309-366 | the k-th batch extends the rows of the batches before it |
| ScreenBaostock.Screener.GetValuationData | stock_screeners/stock_screeners_baostock.py:302-375 | returns the valuation frame `ValuationProps` describes |
| ScreenBaostock.Screener.Run | stock_screeners/stock_screeners_baostock.py:566-674 | `run` gives the outcome `RunSucceeds` describes, and the session ends closed unless the logout raised |
| ScreenBaostock.Screener.FetchSample | stock_screeners/stock_screeners_baostock.py:580-601 | the loop over the first ten codes gathers, in order, the statement rows of every code that has any |
| ScreenBaostock.Screener.Screening | stock_screeners/stock_screeners_baostock.py:573-641 | the part after the login gives the same outcome as `Run` |
| Recommendation.NormalizeCodeProps | stock_recommendation/stock_recommendation.py:519-528 | a code is accepted exactly when it has six characters, or five starting with '6' or '0'; an accepted code has six characters and ends with the argument, and a six-character code is kept as given |
| Recommendation.NameByCodeProps | stock_recommendation/stock_recommendation.py:88-102 | a code of the table gets its name; any other code gets "股票" followed by the code, which is never one of the table's names |
| Recommendation.AssignedKeys | stock_recommendation/stock_recommendation.py:227-241 | after the first n labels, the dictionary has exactly those labels' keys |
| Recommendation.AssignedValues | stock_recommendation/stock_recommendation.py:227-241 | after the first n labels, each of their keys holds the value read for its label |
| Recommendation.FundamentalsProps | stock_recommendation/stock_recommendation.py:215-243 | the dictionary has exactly the six keys, each holding its label's value from the latest row |
| Recommendation.LabelValueProps | stock_recommendation/stock_recommendation.py:229-241 | a missing label, a missing or NA value and a text that does not parse all read as 0, and "n%" reads as n |
| Recommendation.FundamentalAnalysisProps | stock_recommendation/stock_recommendation.py:205-255 | the analysis is None exactly for an empty summary; otherwise it has the six keys, and when the summary raises each estimate lies within its range |
| Recommendation.EstimatesProps | stock_recommendation/stock_recommendation.py:247-255 | the estimates have the six keys and, for uniform draws, each lies within its range |
| Recommendation.GetFundamentalAnalysis | stock_recommendation/stock_recommendation.py:205-255 | the label loop gives the analysis `FundamentalAnalysisProps` describes |
| Recommendation.StepBounded | stock_recommendation/stock_recommendation.py:309-379 | one rule moves the score by at most its weight and adds at most one text, one of its own |
| Recommendation.TechnicalBounded | stock_recommendation/stock_recommendation.py:310-348 | the four technical rules move the score by at most 80 and add at most four texts |
| Recommendation.FirstThreeBounded | stock_recommendation/stock_recommendation.py:310-336 | the trend, RSI and MACD rules move the score by at most 65 and add at most three texts |
| Recommendation.FundamentalBounded | stock_recommendation/stock_recommendation.py:351-379 | the three fundamental rules move the score by at most 45 and add at most three texts |
| Recommendation.ScoreBounds | stock_recommendation/stock_recommendation.py:304-379 | the score lies in [-125, 125] with at most seven texts, each reason and risk one of the rules' own; without indicators or fundamentals the score is 0 and both lists are empty |
| Recommendation.BandProps | stock_recommendation/stock_recommendation.py:381-396 | each score falls in exactly one band (strong buy from 60, buy from 30, watch from -30, sell from -60, strong sell below); the confidence lies in [0, 95], is 95 in the strong bands, in [60, 80] for buy, in [61, 80] for sell, and the absolute score for watch |
| Recommendation.PositionProps | stock_recommendation/stock_recommendation.py:414-420 | only the strong bands get a 30% position, watch always gets 10%, and every position is 10%, 20% or 30% |
| Recommendation.LevelsProps | stock_recommendation/stock_recommendation.py:398-412 | for a positive price and a non-negative volatility, buying enters 2% below the price with the stop below and the target above it, selling mirrors this, and watching enters at the price with a 5% band either side |
| Recommendation.StockRecommendation.constructor | stock_recommendation/stock_recommendation.py:18-22 | a new recommender holds the code, an empty name, a price of 0 and no analysis |
| Recommendation.StockRecommendation.GetStockBasicInfo | stock_recommendation/stock_recommendation.py:24-86 | the first listing with a row whose price converts sets the name and the price; the history's last close comes next, with the name from the table; otherwise it fails and keeps the price |
| Recommendation.StockRecommendation.Apply | stock_recommendation/stock_recommendation.py:312-379 | one rule updates the score and the lists as one step of the tally |
| Recommendation.StockRecommendation.TechnicalRules | stock_recommendation/stock_recommendation.py:310-348 | the technical block gives the technical tally |
| Recommendation.StockRecommendation.FundamentalRules | stock_recommendation/stock_recommendation.py:351-379 | the fundamental block gives the fundamental tally |
| Recommendation.StockRecommendation.RuleScore | stock_recommendation/stock_recommendation.py:304-379 | both blocks, each when it applies, give the tally that `ScoreBounds` bounds |
| Recommendation.StockRecommendation.CreateStrategy | stock_recommendation/stock_recommendation.py:287-425 | the strategy is the band, the confidence, the levels and the position of the rules' score |
| Recommendation.StockRecommendation.GenerateRecommendation | stock_recommendation/stock_recommendation.py:257-285 | without basic information it gives up and keeps the analysis; otherwise it stores the analysis (no indicators become `{}`, no fundamentals an empty dictionary) and returns the strategy for it |
| Recommendation.StockRecommendation.AnalyzeAndAdvise | stock_recommendation/stock_recommendation.py:263-285 | after the basic information, the stored analysis holds the code, name and price unchanged, the indicators (or none) and the fundamentals (or an empty dictionary), and the advice is the strategy of exactly that analysis |
| BaseInfo.ConvertStockCodeProps | stock_recommendation/base_info.py:107-135 | a code is converted exactly when it is a six-digit string of a Shanghai (6, 900) or Shenzhen (0, 3, 200) board; the result has nine characters, ends with the input and starts with "SH." exactly for Shanghai codes, "SZ." otherwise |
| BaseInfo.BaostockCodeProps | stock_recommendation/base_info.py:81-86 | the baostock code is the input behind a three-character prefix, "sh." exactly when the code starts with '6' and "sz." otherwise |
| BaseInfo.BShareExchangeDisagrees | stock_recommendation/base_info.py:81-86 | the Shanghai B-share code 900901 gets "SH." from `convert_stock_code` but "sz." from the industry query's prefix rule |
| BaseInfo.IndustryInfo | stock_recommendation/base_info.py:52-105 | a failed login gives None; otherwise the reply to the prefixed code |
| BaseInfo.IntOfDigits | stock_recommendation/base_info.py:29-34 | a digit string converts to its value, so "1" marks a trading day and "0" does not |
| BaseInfo.DateAfterPreorder | stock_recommendation/base_info.py:38 | the descending calendar-date order is a total preorder, so the stable sort yields a sorted list |
| BaseInfo.ILoc | stock_recommendation/base_info.py:42 | `iloc[i]` succeeds exactly for -n <= i < n, counting negative positions from the end |
| BaseInfo.LatestTradeDate | stock_recommendation/base_info.py:5-49 | the date is the empty string whenever no trading day can be picked |
| BaseInfo.SortedTradingDays | stock_recommendation/base_info.py:37-38 | the trading days come sorted with the latest first, and are exactly the calendar's trading days |
| BaseInfo.LatestTradeDateNone | stock_recommendation/base_info.py:13-49 | no date exactly when the query fails, a flag does not convert or the offset lies outside the trading days |
| BaseInfo.LatestTradeDateSome | stock_recommendation/base_info.py:37-42 | otherwise the date is a trading day's, the latest for offset 0 and the earliest for offset -1 |
| BaseInfo.PePbProps | stock_recommendation/base_info.py:137-186 | an unconvertible code raises; None exactly when the query raises or has no rows; otherwise at most one entry, present exactly when the first row has four fields, holding that row's date, code, PE and PB |
| BaseInfo.GetStockPePb | stock_recommendation/base_info.py:146-184 | the row loop returns on its first row, giving the result `PePbProps` describes |
| BaseInfo.NormalizeCodeProps | stock_recommendation/base_info.py:232-239 | the normalised code has at least six characters; a stripped code of six or more is kept, and a shorter digit string is left-padded with zeros to six digits |
| BaseInfo.ListName | stock_recommendation/base_info.py:283-314 | the list search finds a name exactly when some listed entry's repeated basic query is accepted, and then it is that query's stripped name |
| BaseInfo.StockNameProps | stock_recommendation/base_info.py:218-352 | the name is never empty: a non-text argument gives "未知股票(…)", a failed login the unknown name, an accepted basic query its stripped name, else the list search, else "股票" and the code when the daily query has a row, else the unknown name |
| BaseInfo.GetStockNameByCode | stock_recommendation/base_info.py:218-352 | the method returns the name `StockNameProps` describes |
| StockSelectorDemo.Set | demos/stock_selector_demo.py:87 | writing one column of a row keeps its code |
| StockSelectorDemo.SetGet | demos/stock_selector_demo.py:84-87 | reading back a written column gives the value written; every other column keeps its value |
| StockSelectorDemo.Stocks | demos/stock_selector_demo.py:26-47 | the table starts from 50 stocks |
| StockSelectorDemo.StocksLayout | demos/stock_selector_demo.py:26-47 | the twelve listed stocks come first, in order; the 38 after them have codes `600101` … `600138` (`f'600{i:03d}'` for i from 101 to 138) and their own uniform draws for price and market cap |
| StockSelectorDemo.Clip | demos/stock_selector_demo.py:53-72 | `np.clip` always lands within [lo, hi] and keeps a value already inside |
| StockSelectorDemo.ClippedTableProps | demos/stock_selector_demo.py:20-72 | before the overrides the table has 50 rows in stock order, each metric inside its clip range |
| StockSelectorDemo.SetWhere | demos/stock_selector_demo.py:85-87 | the masked write changes exactly the rows with the code, in that one column |
| StockSelectorDemo.SetAll | demos/stock_selector_demo.py:86-87 | writing an entry's columns in order keeps the row's code |
| StockSelectorDemo.RowOverride | demos/stock_selector_demo.py:84-87 | applying every override entry keeps the row's code |
| StockSelectorDemo.ApplyMetricsAt | demos/stock_selector_demo.py:85-87 | the writes of one entry keep the table's length and change each row as if written alone |
| StockSelectorDemo.OverriddenAt | demos/stock_selector_demo.py:84-87 | the override loops keep the table's length and change each row as if written alone |
| StockSelectorDemo.RowOverrideNone | demos/stock_selector_demo.py:84-87 | a row whose code has no override entry is unchanged |
| StockSelectorDemo.RowOverrideMatch | demos/stock_selector_demo.py:84-87 | with distinct codes, a row named by entry k gets exactly that entry's columns written |
| StockSelectorDemo.SetAllOnce | demos/stock_selector_demo.py:86-87 | a column written once by an entry holds the entry's value |
| StockSelectorDemo.SetAllUntouched | demos/stock_selector_demo.py:86-87 | a column an entry does not name keeps its value |
| StockSelectorDemo.FamousDistinct | demos/stock_selector_demo.py:75-82 | the override table names each code once |
| StockSelectorDemo.DemoTableRanges | demos/stock_selector_demo.py:20-89 | the demo table has 50 rows, and the rows of stocks without an override keep their clip ranges |
| StockSelectorDemo.OverriddenEntry | demos/stock_selector_demo.py:84-87 | with distinct codes, a row named by entry k ends with exactly that entry's columns written |
| StockSelectorDemo.MoutaiLeavesRange | demos/stock_selector_demo.py:76 | the overrides give 600519 a PB of 12, outside the PB clip range [0.5, 10] |
| StockSelectorDemo.BankLeavesRange | demos/stock_selector_demo.py:80 | the overrides give 600036 a debt ratio of 92, outside the clip range [10, 85] |
| StockSelectorDemo.ByScoreTotal | demos/stock_selector_demo.py:106 | the descending score order is a total preorder, so the stable sort yields a sorted list |
| StockSelectorDemo.ScreenProps | demos/stock_selector_demo.py:91-187 | a strategy returns min(8, matching rows) picks, sorted by score, each a row that meets its conditions, with its own score and the strategy's labels, and no matching row left out scores above a kept pick |
| StockSelectorDemo.WithYields | demos/stock_selector_demo.py:145-146 | every row gets the clipped draw of its position as its dividend yield |
| StockSelectorDemo.DividendStocksDistinct | demos/stock_selector_demo.py:149-152 | the dividend table names each code once |
| StockSelectorDemo.SetAllYieldOnly | demos/stock_selector_demo.py:154-156 | writing only the yield column leaves every other column as it was |
| StockSelectorDemo.DividendWrittenAt | demos/stock_selector_demo.py:145-156 | a written row has its listed rate for a listed stock and the clipped draw otherwise |
| StockSelectorDemo.DividendWrittenProps | demos/stock_selector_demo.py:142-156 | `dividend_strategy` changes only the yield column of the shared table: every row gets a yield, within [0, 8] for an unlisted stock and the listed rate for a listed one |
| StockSelectorDemo.OutputProps | demos/stock_selector_demo.py:91-187 | each of the five strategies returns min(8, matching rows) picks of the table it screens, each justified by that strategy's conditions and score, and no matching row left out scores above a kept pick |
| StockSelectorDemo.CollectedProps | demos/stock_selector_demo.py:202-212 | the collected results of k strategies hold at most 8k picks, each justified |
| StockSelectorDemo.MergedProps | demos/stock_selector_demo.py:189-221 | the merge holds min(30, collected codes) picks with distinct codes, sorted by score, each a justified collected pick that no other pick with its code outscores, and none outscored by a pick whose code was left out |
| StockSelectorDemo.Selector.constructor | demos/stock_selector_demo.py:16-18 | the new selector holds the demo table |
| StockSelectorDemo.Selector.CreateDemoData | demos/stock_selector_demo.py:20-89 | the method stores the demo table `DemoTableRanges` describes |
| StockSelectorDemo.Selector.ApplyOverrides | demos/stock_selector_demo.py:84-87 | the override loops give each row the overrides `OverriddenAt` describes |
| StockSelectorDemo.Selector.DividendStrategy | demos/stock_selector_demo.py:142-170 | the yield column is written into the shared table, and the picks are the screen of the written table |
| StockSelectorDemo.Selector.RunStrategy | demos/stock_selector_demo.py:204-212 | the k-th strategy gives its picks and leaves the table as that strategy leaves it |
| StockSelectorDemo.Selector.RunAllStrategies | demos/stock_selector_demo.py:189-221 | the five strategies run in order on the shared table, their non-empty results are collected and merged, and the table ends as the dividend strategy left it |
| Py.FloatDiv | stock_screeners/stock_screeners_eastmoney.py:138-148 | float division gives NaN exactly for a NaN operand or 0/0, inf with the numerator's sign for division by zero, and otherwise the quotient |
| Py.ToNumeric | stock_screeners/stock_screeners_eastmoney.py:52 | `pd.to_numeric(errors='coerce')` gives the parsed value, or NaN when the text does not parse |
| Strings.ZFill | stock_screeners/stock_screeners_eastmoney.py:235 | `zfill(w)` gives a string of length max(len, w) |
| Strings.ZFillDigits | stock_screeners/stock_fundamentals_cache.py:255 | a digit string padded by `zfill` stays a digit string |
| Strings.Split | stock_screeners/free_real_cache.py:92 | `split` always gives at least one piece |
| Strings.SplitPiecesFree | stock_screeners/free_real_cache.py:92 | no piece of a split contains the separator |
| Strings.JoinSplit | stock_screeners/free_real_cache.py:92 | joining the pieces of a split with the separator gives the string back |
| Strings.SplitJoin | stock_screeners/free_real_cache.py:92 | splitting pieces joined by a separator they do not contain gives the pieces back |
| Strings.Lower | stock_screeners/stock_selector.py:298 | `lower()` keeps the length and lowers each character |
| Tables.SortByCorrect | stock_screeners/stock_selector.py:502 | the stable sort of `sort_values` gives an ordered permutation of its input |
| Tables.Take | demos/stock_selector_demo.py:106 | `head(n)` is the prefix of length min(n, len) |
| Tables.DedupFirstProps | stock_screeners/get_stockA_list.py:296-302 | de-duplication keeps only input rows, leaves each key once and loses no key |
| Tables.DedupLastProps | stock_screeners/get_stock_fscore_baostock.py:339 | `drop_duplicates(keep='last')` keeps only input rows, leaves each key once and loses no key |
| Tables.DedupLastKeepsLast | stock_screeners/get_stock_fscore_baostock.py:339 | on a sorted list the row kept for a key is ordered after every row with that key |
| Tables.TopUniqueProps | stock_screeners/stock_selector.py:502-503 | sort, keep the first row per code and take the head: min(n, number of codes) rows, unique codes, sorted, input rows only, each first among the rows with its code, and each ranking before every row whose code was left out |
| Batching.Head | stock_screeners/stock_fundamentals_cache.py:224-225 | a positive `max_stocks` keeps the first min(max_stocks, n) items, any other keeps all |
| Batching.NumBatchesIsCeiling | stock_screeners/stock_fundamentals_cache.py:245 | `(n + size - 1) // size` batches cover n items and none of them is empty |
| Batching.BatchesPartition | stock_screeners/stock_fundamentals_cache.py:245-250 | the batches taken in order give back every item exactly once; each holds between 1 and `size` items |
| Scoring.Count | stock_screeners/get_stock_Fscore.py:483-505 | a score counts passed tests, so it never exceeds the number of tests |

## Left out

- Provider calls: akshare, baostock, tushare and the HTTP requests to eastmoney and sina are foreign libraries over the network. Each reply is a parameter or an oracle function of the operation that receives it. Sessions, headers and timeouts are not modelled.
- Provider adapters whose whole content is a provider call: `get_fundamentals_from_akshare` of get_stockA_fundamentals_akshare.py, `get_fundamentals_from_eastmoney` and `get_fundamentals_from_akshare_full` (outside their merge loop) of get_stockA_fundamentals.py, the three `get_all_stocks_from_*` fetchers of get_stockA_list.py, and `get_all_a_stock_list` of the selectors. Their results enter as oracle values.
- File I/O: CSV and JSON reads and writes, `os.path.exists`, file ages and deletions. Progress, checkpoint, cache and log files are values of their record shape; encodings and on-disk formats are not modelled.
- `save_progress`, `_save_checkpoint`, `save_update_log`, `get_cache_info`, `load_fundamentals_cache` and `load_fundamental_data`: these are file reads and writes. Their effect on the run is modelled as the new file value, not as text.
- Clock, sleeps and random delays: `time.time` and `datetime.now` are parameters. `time.sleep` advances the limiter's clock; the other pauses are counted (`ResumeFacts.RunDelays`), and the random lengths drawn by `add_random_delay` are not modelled.
- Random data: the `np.random` and `random` draws are oracle functions (`StockSelectorDemo.Sampler` and the draws of the two cache builders). The only assumption is that each draw lies in its sampled range. The md5 seeding, the generator and the normal distribution are not modelled.
- Floating point: numbers are reals, with NaN and infinity kept apart where the code can produce them. Rounding to two decimals (`round`, `safe_round`), overflow and binary representation are not modelled.
- Quantiles: `ScreenEastmoney` uses exact linear interpolation over reals.
- Sorting: pandas' default quicksort is not stable; the model sorts stably. Rows with equal keys may come out of the code in a different order than the model's.
- Strings: `lower`, `strip` and `isdigit` follow ASCII. Python's Unicode case mapping, Unicode whitespace and Unicode digits are not modelled.
- `float(...)`: exponents, "inf", "infinity" and underscores between digits are not accepted by `Py.ParseFloat`. Such texts are treated as unparsable.
- ScreenEastmoney.CodeText: a code cell holding a number is assumed to be a whole, non-negative integer read from an integer column. A float column's text such as "600519.0" is not modelled.
- Technical indicators: `get_technical_indicators` and `get_simplified_indicators` compute rolling means, EWM and standard deviations over a price history. Their latest values are a parameter (`Recommendation.Tech`).
- Recommendation.StockRecommendation.CreateStrategy: requires the analysis to be stored. `create_strategy` reads `self.analysis_data['technical']`, which raises a KeyError when `generate_recommendation` has not stored the analysis first.
- `analysis_time`, `generation_time` and `update_time` stamps are parameters, not read from a clock.
- Presentation: `format_results`, `save_to_markdown`, `save_to_csv`, `save_results`, `display_stock_info`, `ensure_directory`, `setup_logging` and every print and log statement.
- Backtests and plots in demos/rsi_strategy.py and demos/moving_average_strategy.py: network fetches and matplotlib at module level.
- Demo and probe scripts: demos/test1.py, test2.py, test_font2.py, test_akshare.py, test_eastmoney.py, helloworld.py, chooseStake.py and tmp.py. demos/test_real_info.py is left out too: `get_stock_real_time_info` is a chain of provider calls and `display_stock_info` is presentation. The subprocess drivers stock_screeners/test_fscore_akshare.py and stock_recommendation/test_recommendation.py are also left out.
- stock_screeners/fundamentals_config.py: constants and environment reads only. Each downloader's own constants are in `Downloaders`.
- `save_f_score_results` of get_stock_Fscore.py (lines 623-631): it reads detail keys that `calculate_f_score` never writes, so it cannot work.
- The `KeyboardInterrupt` handlers of get_stock_Fscore.py (line 783) and get_stockA_fundamentals.py (line 601): they store `success_count` as `last_index`. Interruption is not modelled; every run goes to completion.
- get_stockA_fundamentals_akshare.py line 568: it may use `i` before assignment. The line is in the interrupt handler, which is not modelled.
- Concurrency: there is none. The singleton `RateLimiter` (`__new__`) is one shared instance, here one `RateLimit.RateLimiter` object.
- `retry_on_exception`'s `wrapper` is the retry loop `Retry.RetryOnException`. Exceptions are outcomes of the oracle, not raised.
- `init_baostock` of base_info.py logs in at import time. The model takes the login outcome as a parameter.
- CachedScreener.Renamed: a cache holding both `pe_ttm` and `pe` would, after pandas' `rename`, hold two columns named `pe`, so that `df['pe']` is a two-column frame and the dropna and comparisons of stock_screeners/stock_screeners.py:79-89 act on both. The model keeps both names in the column list and reads the first column named `pe` (`ColumnIndex` returns the first match). The same holds for `current_price` with `price` and `net_margin` with `net_profit_margin`.

## Findings

| source | as written | input that shows it | evidently intended | confidence | as-written member | corrected member |
|---|---|---|---|---|---|---|
| demos/test_baostock.py:78 | the debt ratio divides `_get_value(balance, 'totalLiability')`, None when the column is missing, by a non-zero total asset; the TypeError discards the whole score | a current balance frame without `totalLiability` and with `totalAsset` = 1 | a missing numerator fails only the test that reads it, as a zero or missing denominator already does | not executed | TestBaostock.MissingNumeratorDiscardsScore | TestBaostock.CalculateFScoreCorrected |
