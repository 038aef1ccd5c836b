# Ad-metrics engine and user service, modelled in Dafny

This project models the ad-metrics engine found twice in the repository, plus its small in-memory user service:

- `demos/archive/marketing_analysis.py` holds the `MarketingDataAnalyzer` class.
- `demos/archive/ad_analysis.py` holds the one-shot `analyze_ad_performance` report.
- `demo-data/slow-code.js` holds the `UserService` class.

Both scripts read one row per ad: `ad_id`, `campaign`, `impressions`, `clicks`, `conversions`, `cost`, `revenue`. From these rows they compute:

- per-ad ratios (CTR, conversion rate, ROI, ROAS, CPC, CPA);
- data-quality counts;
- threshold-based anomaly reports, sorted stably by severity;
- per-campaign roll-ups, with the ratios recomputed from the group totals;
- weighted percentile-rank scores, which pick the worst ads and order the campaigns;
- order-preserving flag lists.

The user service keeps a list of users and an unbounded cache. It offers a role search, a cache insert and a row-major pass over a table of numbers.

Files:

- `collections.dfy` (module `Collections`): shared sequence operations.
  - an order-preserving `Filter` and its index sequence `Positions`;
  - a stable insertion sort `SortBy` on a real key; descending sorts use the negated key;
  - `NSmallest`, the first n elements of that sort, which is how pandas `nsmallest(keep='first')` selects;
  - code-point order on strings and sorted name lists, used for the group keys of a `groupby`.
- `ranking.dfy` (module `Ranking`): the percentile rank with average ties, which is pandas `rank(pct=True)`.
- `ad_data.dfy` (module `AdData`): the shared row type, column sums and the group-by-campaign roll-up. Its campaign names come out sorted and distinct, and the groups partition the rows.
- `marketing_analysis.dfy` (module `MarketingAnalysis`): the analyzer.
  - It is a class with fields `data` and `metricsData`. `metricsData` is `None` until the metrics are computed; the Python attribute does not exist before then.
  - Each method is proved against specification functions. The lemmas beside them state what the script promises.
- `ad_analysis.dfy` (module `AdAnalysis`): the pure one-shot report.
- `user_service.dfy` (module `SlowCode`): the `UserService` class.
  - Its fields are `users` and `cache`.
  - Its loops are proved against `Filter` and a row-major `FlattenMap`.

Ratios are exact `real` numbers. A division that the source leaves unguarded becomes a precondition: a positive denominator.

## Model

| member | source | states |
|---|---|---|
| MarketingAnalysis.MarketingDataAnalyzer.constructor | demos/archive/marketing_analysis.py:16-19 | the analyzer holds the given rows and has no metrics table yet |
| MarketingAnalysis.MarketingDataAnalyzer.ValidateDataQuality | demos/archive/marketing_analysis.py:21-58 | the report counts all rows; for each of the five numeric columns it holds the number of negative and of zero entries; "clicks exceed impressions" is listed iff some row has clicks > impressions, "conversions exceed clicks" iff some row has conversions > clicks, in that order |
| MarketingAnalysis.CountRowsIsRowCount | demos/archive/marketing_analysis.py:38-39 | a column count equals the number of row positions whose value satisfies the test |
| MarketingAnalysis.NegativeAndZeroWithin | demos/archive/marketing_analysis.py:38-39 | a column's negative count plus its zero count never exceeds the number of rows |
| MarketingAnalysis.AnyRow | demos/archive/marketing_analysis.py:46-49 | true exactly when some row satisfies the test |
| MarketingAnalysis.KeyMetrics | demos/archive/marketing_analysis.py:68-87 | with no clicks, conversion rate and CPC are 0; with no conversions, CPA is 0; otherwise each ratio times its denominator gives back its numerator (CTR, conversion rate and ROI in percent); ROI = (ROAS − 1)·100 |
| MarketingAnalysis.RoiFromRoas | demos/archive/marketing_analysis.py:76-79 | ROI in percent equals (ROAS − 1)·100 for every positive cost |
| MarketingAnalysis.MarketingDataAnalyzer.CalculateKeyMetrics | demos/archive/marketing_analysis.py:60-89 | stores and returns one metric row per data row, the i-th being the key metrics of the i-th row; only `metricsData` changes |
| MarketingAnalysis.IssuesOfSpec | demos/archive/marketing_analysis.py:124-145 | each of the six checks contributes its issue iff its condition holds, nothing else is reported, issues come in the order CTR, conversion rate, ROI, ROAS, CPC, CPA, at most six |
| MarketingAnalysis.HighBoundsOfRatesUnused | demos/archive/marketing_analysis.py:113-131 | changing the declared high thresholds of CTR and conversion rate changes no ad's issues |
| MarketingAnalysis.NoConversionsNoCpaIssue | demos/archive/marketing_analysis.py:143-144 | an ad with no conversions never gets a CPA issue |
| MarketingAnalysis.FlaggedSelects | demos/archive/marketing_analysis.py:146-152 | before sorting, the records are exactly those of the rows with at least one issue, one per such row, in row order |
| MarketingAnalysis.AnomalyReportMembers | demos/archive/marketing_analysis.py:124-155 | a record is in the anomaly list iff it is the record of a row for which some check fires; the list has one record per such row |
| MarketingAnalysis.AnomalySeverities | demos/archive/marketing_analysis.py:146-152 | every listed ad's severity equals the length of its issue list and lies in 1..6 |
| MarketingAnalysis.AnomalyReportOrdered | demos/archive/marketing_analysis.py:155 | the anomaly list is in non-increasing severity order |
| MarketingAnalysis.AnomalyReportStable | demos/archive/marketing_analysis.py:155 | records of equal severity keep their row order |
| MarketingAnalysis.MarketingDataAnalyzer.DetectAnomalies | demos/archive/marketing_analysis.py:103-164 | returns the fixed threshold table and the anomaly list: the flagged records sorted stably by descending severity |
| MarketingAnalysis.CampaignRollUp | demos/archive/marketing_analysis.py:175-193 | a campaign's totals are the column sums over its rows, its ad count is its row count, and each ratio is taken of the totals |
| MarketingAnalysis.RollUps | demos/archive/marketing_analysis.py:175-193 | one roll-up per group key, in key order |
| MarketingAnalysis.CampaignScore | demos/archive/marketing_analysis.py:196-200 | a campaign's score (0.4·ROI rank + 0.3·ROAS rank + 0.3·conversion-rate rank) lies in (0, 1] |
| MarketingAnalysis.CampaignAnalysisEntries | demos/archive/marketing_analysis.py:175-202 | one entry per group key; each entry is the roll-up of its campaign, with at least one ad and a score in (0, 1] |
| MarketingAnalysis.CampaignAnalysisCoverage | demos/archive/marketing_analysis.py:175-181 | a campaign has an entry iff it is a group key, that is, iff some row belongs to it |
| MarketingAnalysis.CampaignAnalysisOrdered | demos/archive/marketing_analysis.py:202 | campaigns come out in non-increasing score order |
| MarketingAnalysis.RollUpIsNotMeanOfAds | demos/archive/marketing_analysis.py:184 | for two ads with CTRs 5% and 1%, the campaign CTR is 70/3000 = 2.33…%, not the 3% mean of the ads' CTRs |
| MarketingAnalysis.MarketingDataAnalyzer.AnalyzeCampaigns | demos/archive/marketing_analysis.py:166-214 | returns the campaign ranking of the rows behind the metrics table |
| MarketingAnalysis.AdPerformanceScore | demos/archive/marketing_analysis.py:226-231 | an ad's score (0.4·ROI + 0.3·ROAS + 0.2·conversion rate + 0.1·CTR ranks) lies in (0, 1] |
| MarketingAnalysis.WorstSelectionSpec | demos/archive/marketing_analysis.py:226-234 | the selection holds min(n, ads) scored ads of the table in ascending score order, and every selected ad scores at most every ad left out |
| MarketingAnalysis.WorstSelectionScores | demos/archive/marketing_analysis.py:226-234 | every selected record is an ad of the table paired with its own performance score, which lies in (0, 1] |
| MarketingAnalysis.WorstSelectionFirst | demos/archive/marketing_analysis.py:234 | `nsmallest` keeps the first rows among ties: for every score, the selected ads with that score are the earliest ads of the table with that score, in row order |
| MarketingAnalysis.PerformerOf | demos/archive/marketing_analysis.py:237-255 | CPA shows as N/A iff CPA is not positive, else the amount; loss = cost − revenue |
| MarketingAnalysis.MarketingDataAnalyzer.IdentifyWorstPerformers | demos/archive/marketing_analysis.py:216-256 | one performer record per selected ad, in selection order, min(n, ads) of them |
| MarketingAnalysis.FlagListSelects | demos/archive/marketing_analysis.py:377-381 | a flag list is the ids of the matching rows, once each, in row order; a row is listed iff it matches |
| MarketingAnalysis.FlagsSpec | demos/archive/marketing_analysis.py:377-381 | an id is in the negative-ROI, low-CTR or high-CPA list iff some row with that id has ROI < 0, CTR < 2 or CPA > 80 |
| MarketingAnalysis.MarketingDataAnalyzer.OptimizationFlags | demos/archive/marketing_analysis.py:377-381 | returns the three flag lists of the metrics table |
| Ranking.PercentileRankBounds | demos/archive/marketing_analysis.py:197-199 | the percentile rank of any value of a column lies in (0, 1] |
| Ranking.PercentileRankMonotone | demos/archive/marketing_analysis.py:227-230 | a strictly smaller value of a column has a strictly smaller percentile rank |
| Ranking.PercentileRankPermutation | demos/archive/marketing_analysis.py:227-230 | a percentile rank does not depend on the order of the rows |
| Ranking.CountsWithin | demos/archive/marketing_analysis.py:197-199 | smaller and equal entries are disjoint parts of the column, and a value of the column equals at least one entry |
| AdData.CampaignNamesSpec | demos/archive/marketing_analysis.py:175 | group keys are strictly sorted, distinct, and exactly the campaigns occurring in the rows |
| AdData.CampaignHasRows | demos/archive/marketing_analysis.py:192 | every group key has at least one row |
| AdData.RollUpPartition | demos/archive/marketing_analysis.py:175-181 | the group totals add up to the column sums over all rows, and the group row counts to the number of rows |
| AdData.CampaignTotalsPositive | demos/archive/ad_analysis.py:79-90 | if every row has positive impressions, clicks, conversions and cost, so does every campaign total |
| Collections.FilterSelects | demos/archive/marketing_analysis.py:378 | a boolean-mask selection keeps exactly the matching elements, each once, in their original order |
| Collections.FilterMembers | demos/archive/marketing_analysis.py:146 | an element is kept iff it occurs in the input and satisfies the test |
| Collections.SortBySorted | demos/archive/marketing_analysis.py:155 | the sort result is ordered by key |
| Collections.SortBy | demos/archive/marketing_analysis.py:155 | the sort result is a permutation of its input |
| Collections.SortByStable | demos/archive/marketing_analysis.py:155 | for each key value, the elements with that key appear in the sorted result as in the input |
| Collections.NSmallestSelects | demos/archive/marketing_analysis.py:234 | the n smallest: min(n, size) elements of the input, ascending, none smaller than an element left out |
| Collections.NSmallestFirst | demos/archive/marketing_analysis.py:234 | among elements with equal keys the selection holds the earliest ones of the input, in input order (keep='first') |
| Collections.InsertNameSpec | demos/archive/marketing_analysis.py:175 | adding a name to a sorted distinct key list keeps it sorted and distinct and adds exactly that name |
| AdAnalysis.AdRatios | demos/archive/ad_analysis.py:25-51 | each plain ratio times its denominator gives back its numerator; composite = 0.3·CTR + 0.3·conversion rate + 0.4·ROI |
| AdAnalysis.CompositeScoreRange | demos/archive/ad_analysis.py:47-51 | for consistent rows, CTR and conversion rate lie in (0, 1], ROI ≥ −1, and the composite lies in (−0.4, 0.6 + 0.4·ROI] |
| AdAnalysis.Metrics | demos/archive/ad_analysis.py:25-51 | one metric row per data row, the i-th being the ratios of the i-th row |
| AdAnalysis.WorstAdsSpec | demos/archive/ad_analysis.py:53 | the worst ads are min(3, ads) ads of the table, ascending by composite score, none scoring above an ad left out |
| AdAnalysis.WorstAdsFirst | demos/archive/ad_analysis.py:53 | among ads with equal composite score, `nsmallest(3)` selects the earliest rows, in row order |
| AdAnalysis.MeanWithin | demos/archive/ad_analysis.py:65-72 | a column mean lies between its smallest and its largest entry |
| AdAnalysis.DiagnoseSpec | demos/archive/ad_analysis.py:64-72 | below-average CTR and conversion rate are reported iff they hold; "ROI negative" iff ROI < 0; "ROI below average" iff 0 ≤ ROI < mean; the two ROI findings never co-occur |
| AdAnalysis.WorstAdReport | demos/archive/ad_analysis.py:53-72 | one entry per worst ad, in selection order, with its diagnosis against the whole table |
| AdAnalysis.CampaignStatOf | demos/archive/ad_analysis.py:79-90 | a campaign's totals are the sums over its rows; CTR, conversion rate and ROI are the ratios of those totals |
| AdAnalysis.CampaignStats | demos/archive/ad_analysis.py:79-90 | one roll-up per campaign, in name order |
| AdAnalysis.CampaignRankingSpec | demos/archive/ad_analysis.py:113 | the ranking is a permutation of the roll-ups in non-increasing ROI order |
| AdAnalysis.StatusOf | demos/archive/ad_analysis.py:116 | excellent iff ROI > 1, fair iff 0 < ROI ≤ 1, loss iff ROI ≤ 0 |
| AdAnalysis.StatusFollowsRanking | demos/archive/ad_analysis.py:113-116 | status never improves down the ranking |
| AdAnalysis.SevereLossSpec | demos/archive/ad_analysis.py:108-110 | the severe-loss list is the ids of the rows with ROI < −0.5, each once, in row order |
| AdAnalysis.AnalyzeAdPerformance | demos/archive/ad_analysis.py:10-119 | the report holds the metric rows of the data (`Metrics`), the diagnosed worst three (`WorstAdReport`), the campaign roll-ups in name order (`CampaignStats`), the severe-loss ids (`SevereLossAds`) and the ROI ranking of those same roll-ups (`CampaignRanking`), each ranked campaign carrying the status of its ROI, in non-increasing ROI order |
| SlowCode.UserService.constructor | demo-data/slow-code.js:3-6 | starts with no users and an empty cache |
| SlowCode.UserService.FindUsersByRole | demo-data/slow-code.js:9-20 | returns the users whose roles contain the target role, in list order; changes nothing |
| SlowCode.RoleSelection | demo-data/slow-code.js:11-17 | the result is the subsequence of the users at the increasing positions whose roles contain the role; a position is picked iff its user has the role |
| SlowCode.RoleSelectionOnce | demo-data/slow-code.js:13-16 | a matching user is returned as many times as it occurs in the list, however often it lists the role |
| SlowCode.UserService.AddUserToCache | demo-data/slow-code.js:36-43 | the cache maps the user's id to an entry with the user, the given time and 10000 copies of its data; nothing else changes |
| SlowCode.CacheSetSpec | demo-data/slow-code.js:38 | after the insert the key maps to the new entry, every other key keeps its value, no key is lost, and the key count grows by at most one |
| SlowCode.UserService.ProcessLargeDataset | demo-data/slow-code.js:46-55 | returns the per-item results row after row |
| SlowCode.FlattenMapLength | demo-data/slow-code.js:49-53 | one result per item: the length is the sum of the row lengths |
| SlowCode.FlattenMapAt | demo-data/slow-code.js:49-53 | the item in row i, column j lands at (items in earlier rows) + j and holds the calculation of that item |

## Left out

- Reading the CSV file, all console output, the JSON dump and the `main`/`__main__` blocks are not modelled. They are I/O only.
- Rounding: every `.round(k)` and every `%`/`:.2f` format is omitted, so all metrics and scores are exact. The anomaly checks of `detect_anomalies` compare rounded values in the source. An ad whose CTR rounds up to 2.00 from just below is therefore flagged by the model but not by the script.
- Issue and diagnosis messages are replaced by datatype constructors carrying the value the message quotes.
- The quality report's `missing_values` and `data_types` are not modelled. A row has no missing fields and fixed field types.
- The analyzer's `results` field, `run_complete_analysis` and `generate_insights_and_diagnosis` are not modelled. The last one reads a `performance_score` column that only exists on a copy of the table, so as written it cannot run.
- Of `generate_dashboard_data`, only `optimization_flags` is modelled. `overall_metrics`, `campaign_summary` (means of row ratios) and the other parts are float aggregations and copies of earlier results.
- The quantile-based high-CTR test of `ad_analysis.py` (line 104) is not modelled, because it depends on pandas quantile interpolation.
- KeyMetrics: requires positive impressions and cost. The script divides by them without a guard and would produce inf or NaN for zero, which the model does not represent. The requirement also excludes negative impressions and cost, for which the script computes finite ratios; such rows are exactly what the data-quality check reports, and the model does not cover the metrics computed for them.
- CampaignRollUp: requires positive campaign totals of impressions, clicks, conversions and cost, for the same reason.
- AdRatios: requires positive impressions, clicks, conversions and cost, because `ad_analysis.py` guards none of its divisions and zero would give inf or NaN. The requirement also excludes negative counts and cost, for which the script computes finite ratios; the model does not cover those rows.
- CampaignStatOf: requires the same of every row. Campaign totals are then positive.
- CampaignAnalysis: the ties of pandas `sort_values` (quicksort) are in an unspecified order. The model breaks ties by group-key order, and none of its lemmas depends on that choice.
- AdAnalysis.CampaignRanking: the same holds here. `CampaignRankingSpec` states only the permutation and the ROI order.
- Integer columns and JavaScript numbers are unbounded integers and exact reals. No overflow or floating-point behaviour is modelled.
- SlowCode.UserService.AddUserToCache: `Date.now()` is the parameter `now`. The entry keeps the user record whole rather than spreading its fields. The insertion order of the JavaScript `Map` is not modelled.
- SlowCode.UserService.ProcessLargeDataset: `expensiveCalculation` is the function parameter `compute`. Its `Math.sqrt` loop is floating point.
- `getUsersWithDetails` is not modelled. It makes asynchronous database calls to code outside the repository's core.
- `demo-project/src/user-service.js` and its tests are not part of this model.
