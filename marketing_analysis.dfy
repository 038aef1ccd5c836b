/** The MarketingDataAnalyzer of demos/archive/marketing_analysis.py: a data-quality
    check, per-ad key metrics on a percent scale (CTR, conversion rate and ROI in %),
    anomaly detection against a fixed threshold table, campaign roll-ups with a
    weighted percentile-rank score, the worst performers by a second weighted score,
    and the dashboard's optimisation flag lists.

    The analyzer keeps the loaded table in `data` and the table with the metric
    columns in `metricsData`, which exists only once the metrics have been computed. */
module MarketingAnalysis {
  import opened Collections
  import opened AdData
  import opened Ranking

  // ===========================================================================
  // Data quality
  // ===========================================================================

  /** The numeric columns the quality check inspects, in the order it visits them. */
  datatype NumericColumn = Impressions | Clicks | Conversions | Cost | Revenue

  const NUMERIC_COLUMNS: seq<NumericColumn> := [Impressions, Clicks, Conversions, Cost, Revenue]

  function ColumnValue(r: Row, col: NumericColumn): real
  {
    match col
    case Impressions => r.impressions as real
    case Clicks => r.clicks as real
    case Conversions => r.conversions as real
    case Cost => r.cost
    case Revenue => r.revenue
  }

  function NegativeIn(col: NumericColumn): Row -> bool
  {
    (r: Row) => ColumnValue(r, col) < 0.0
  }

  function ZeroIn(col: NumericColumn): Row -> bool
  {
    (r: Row) => ColumnValue(r, col) == 0.0
  }

  /** Number of rows satisfying `p` (a vectorised comparison followed by `sum`). */
  function CountRows(rows: seq<Row>, p: Row -> bool): nat
  {
    if rows == [] then 0
    else CountRows(rows[..|rows| - 1], p) + (if p(rows[|rows| - 1]) then 1 else 0)
  }

  /** The count is the number of row positions whose row satisfies `p`. */
  lemma {:induction false} CountRowsIsRowCount(rows: seq<Row>, p: Row -> bool)
    ensures CountRows(rows, p) == |set i | 0 <= i < |rows| && p(rows[i])|
  {
    if rows != [] {
      var n := |rows| - 1;
      var init := rows[..n];
      CountRowsIsRowCount(init, p);
      var before := set i | 0 <= i < n && p(init[i]);
      var after := set i | 0 <= i < |rows| && p(rows[i]);
      assert before == set i | 0 <= i < n && p(rows[i]);
      if p(rows[n]) {
        assert after == before + {n};
        assert n !in before;
      } else {
        assert after == before;
      }
    }
  }

  /** The negative and the zero count of a column never add up to more than the
      number of rows: no row is counted twice. */
  lemma {:induction false} NegativeAndZeroWithin(rows: seq<Row>, col: NumericColumn)
    ensures CountRows(rows, NegativeIn(col)) + CountRows(rows, ZeroIn(col)) <= |rows|
  {
    if rows != [] {
      NegativeAndZeroWithin(rows[..|rows| - 1], col);
    }
  }

  function ClicksOverImpressions(r: Row): bool
  {
    r.clicks > r.impressions
  }

  function ConversionsOverClicks(r: Row): bool
  {
    r.conversions > r.clicks
  }

  /** Whether some row satisfies `p` (pandas `any`). */
  function AnyRow(rows: seq<Row>, p: Row -> bool): (b: bool)
    ensures b <==> exists i :: 0 <= i < |rows| && p(rows[i])
  {
    if rows == [] then false
    else
      assert forall i :: 0 < i < |rows| ==> rows[i] == rows[1..][i - 1];
      p(rows[0]) || AnyRow(rows[1..], p)
  }

  datatype LogicalIssue = ClicksExceedImpressions | ConversionsExceedClicks

  /** The report of the quality check. Missing-value counts and column types are not
      modelled: a Row has no missing fields and fixed field types. */
  datatype QualityReport = QualityReport(
    totalRecords: nat,
    negativeValues: map<NumericColumn, nat>,
    zeroValues: map<NumericColumn, nat>,
    logicalIssues: seq<LogicalIssue>)

  // ===========================================================================
  // Key metrics
  // ===========================================================================

  /** A row together with its metric columns. CTR, conversion rate and ROI are in
      percent; ROAS is a plain ratio; CPC and CPA are amounts of money. */
  datatype MetricRow = MetricRow(
    row: Row,
    ctr: real,
    conversionRate: real,
    roi: real,
    roas: real,
    cpc: real,
    cpa: real)

  /** CTR, ROI and ROAS divide by impressions and cost without a guard. */
  predicate Measurable(r: Row)
  {
    r.impressions > 0 && r.cost > 0.0
  }

  /** The six ratios of one row. Conversion rate and CPC are 0 when the row has no
      (positive) clicks, CPA is 0 when it has no (positive) conversions; otherwise
      each ratio times its denominator gives back its numerator. ROI and ROAS are
      two views of the same quotient: ROI = (ROAS - 1) * 100. */
  function KeyMetrics(r: Row): (m: MetricRow)
    requires Measurable(r)
    ensures m.row == r
    ensures m.ctr * (r.impressions as real) == (r.clicks as real) * 100.0
    ensures m.roas * r.cost == r.revenue
    ensures m.roi == (m.roas - 1.0) * 100.0
    ensures r.clicks > 0 ==> m.conversionRate * (r.clicks as real) == (r.conversions as real) * 100.0
    ensures r.clicks > 0 ==> m.cpc * (r.clicks as real) == r.cost
    ensures r.clicks <= 0 ==> m.conversionRate == 0.0 && m.cpc == 0.0
    ensures r.conversions > 0 ==> m.cpa * (r.conversions as real) == r.cost
    ensures r.conversions <= 0 ==> m.cpa == 0.0
  {
    var impressions, clicks, conversions := r.impressions as real, r.clicks as real, r.conversions as real;
    RoiFromRoas(r.revenue, r.cost);
    MetricRow(
      r,
      clicks / impressions * 100.0,
      if r.clicks > 0 then conversions / clicks * 100.0 else 0.0,
      (r.revenue - r.cost) / r.cost * 100.0,
      r.revenue / r.cost,
      if r.clicks > 0 then r.cost / clicks else 0.0,
      if r.conversions > 0 then r.cost / conversions else 0.0)
  }

  /** ROI in percent is ROAS less one, times 100. */
  lemma RoiFromRoas(revenue: real, cost: real)
    requires cost > 0.0
    ensures (revenue - cost) / cost * 100.0 == (revenue / cost - 1.0) * 100.0
  {
    assert (revenue - cost) / cost == revenue / cost - cost / cost;
  }

  predicate AllMeasurable(rows: seq<Row>)
  {
    forall i :: 0 <= i < |rows| ==> Measurable(rows[i])
  }

  /** The input columns of a metrics table. */
  function BaseRows(ms: seq<MetricRow>): (rows: seq<Row>)
    ensures |rows| == |ms|
    ensures forall i :: 0 <= i < |ms| ==> rows[i] == ms[i].row
  {
    seq(|ms|, i requires 0 <= i < |ms| => ms[i].row)
  }

  // ===========================================================================
  // Anomaly detection
  // ===========================================================================

  /** One line of the threshold table; `None` stands for an infinite bound. */
  datatype Threshold = Threshold(low: real, high: Option<real>, name: string)

  datatype ThresholdTable = ThresholdTable(
    ctr: Threshold,
    conversionRate: Threshold,
    roi: Threshold,
    roas: Threshold,
    cpc: Threshold,
    cpa: Threshold)

  const METRICS_THRESHOLDS := ThresholdTable(
    Threshold(2.0, Some(15.0), "点击率"),
    Threshold(1.0, Some(10.0), "转化率"),
    Threshold(50.0, None, "ROI"),
    Threshold(2.0, None, "ROAS"),
    Threshold(0.0, Some(5.0), "每次点击成本"),
    Threshold(0.0, Some(100.0), "每次获客成本"))

  /** One finding about an ad, carrying the metric value the message quotes. */
  datatype Issue =
    | LowCtr(ctr: real)
    | LowConversionRate(rate: real)
    | LowRoi(roi: real)
    | LowRoas(roas: real)
    | HighCpc(cpc: real)
    | HighCpa(cpa: real)

  /** Position of each check in the order the detector runs them. */
  function CheckOrder(issue: Issue): nat
  {
    match issue
    case LowCtr(_) => 0
    case LowConversionRate(_) => 1
    case LowRoi(_) => 2
    case LowRoas(_) => 3
    case HighCpc(_) => 4
    case HighCpa(_) => 5
  }

  /** The six possible findings about an ad, in check order. */
  function Candidates(m: MetricRow): seq<Issue>
  {
    [LowCtr(m.ctr), LowConversionRate(m.conversionRate), LowRoi(m.roi),
     LowRoas(m.roas), HighCpc(m.cpc), HighCpa(m.cpa)]
  }

  /** Whether a finding's check fires under the threshold table. Only the low bounds
      of CTR, conversion rate, ROI and ROAS and the high bounds of CPC and CPA are
      consulted; the CPA check also demands a positive CPA. */
  predicate Fired(t: ThresholdTable, issue: Issue)
  {
    match issue
    case LowCtr(v) => v < t.ctr.low
    case LowConversionRate(v) => v < t.conversionRate.low
    case LowRoi(v) => v < t.roi.low
    case LowRoas(v) => v < t.roas.low
    case HighCpc(v) => t.cpc.high.Some? && v > t.cpc.high.value
    case HighCpa(v) => t.cpa.high.Some? && v > t.cpa.high.value && v > 0.0
  }

  function Fires(t: ThresholdTable): Issue -> bool
  {
    (issue: Issue) => Fired(t, issue)
  }

  /** The issues of one ad: the checks run in order, each appending its finding
      when it fires. */
  function IssuesOf(m: MetricRow, t: ThresholdTable): seq<Issue>
  {
    Filter(Candidates(m), Fires(t))
  }

  /** Each of the six checks contributes its issue exactly when its condition holds,
      nothing else is reported, and the issues come in check order, at most six. */
  lemma IssuesOfSpec(m: MetricRow, t: ThresholdTable)
    ensures |IssuesOf(m, t)| <= 6
    ensures LowCtr(m.ctr) in IssuesOf(m, t) <==> m.ctr < t.ctr.low
    ensures LowConversionRate(m.conversionRate) in IssuesOf(m, t) <==> m.conversionRate < t.conversionRate.low
    ensures LowRoi(m.roi) in IssuesOf(m, t) <==> m.roi < t.roi.low
    ensures LowRoas(m.roas) in IssuesOf(m, t) <==> m.roas < t.roas.low
    ensures HighCpc(m.cpc) in IssuesOf(m, t) <==> t.cpc.high.Some? && m.cpc > t.cpc.high.value
    ensures HighCpa(m.cpa) in IssuesOf(m, t) <==> t.cpa.high.Some? && m.cpa > t.cpa.high.value && m.cpa > 0.0
    ensures forall x :: x in IssuesOf(m, t) ==> x in Candidates(m)
    ensures forall i, j :: 0 <= i < j < |IssuesOf(m, t)| ==>
              CheckOrder(IssuesOf(m, t)[i]) < CheckOrder(IssuesOf(m, t)[j])
  {
    var c := Candidates(m);
    FilterMembers(c, Fires(t));
    FilterSelects(c, Fires(t));
    assert forall i :: 0 <= i < |c| ==> CheckOrder(c[i]) == i;
  }

  /** The high bounds declared for CTR and conversion rate are never tested:
      changing them changes no ad's issues. */
  lemma HighBoundsOfRatesUnused(m: MetricRow, t: ThresholdTable, ctrHigh: Option<real>, rateHigh: Option<real>)
    ensures IssuesOf(m, t) ==
            IssuesOf(m, t.(ctr := t.ctr.(high := ctrHigh), conversionRate := t.conversionRate.(high := rateHigh)))
  {
    var t' := t.(ctr := t.ctr.(high := ctrHigh), conversionRate := t.conversionRate.(high := rateHigh));
    FilterAgree(Candidates(m), Fires(t), Fires(t'));
  }

  /** An ad without conversions has CPA 0 and never gets a CPA issue. */
  lemma NoConversionsNoCpaIssue(r: Row, t: ThresholdTable)
    requires Measurable(r) && r.conversions <= 0
    ensures forall x :: x in IssuesOf(KeyMetrics(r), t) ==> !x.HighCpa?
  {
    FilterMembers(Candidates(KeyMetrics(r)), Fires(t));
  }

  datatype AnomalyRecord = AnomalyRecord(adId: string, campaign: string, issues: seq<Issue>, severityScore: nat)

  function RecordOf(m: MetricRow, t: ThresholdTable): AnomalyRecord
  {
    AnomalyRecord(m.row.adId, m.row.campaign, IssuesOf(m, t), |IssuesOf(m, t)|)
  }

  function HasIssues(t: ThresholdTable): MetricRow -> bool
  {
    (m: MetricRow) => IssuesOf(m, t) != []
  }

  /** The records of the ads with at least one issue, in input order, as the
      detection loop appends them. */
  function Flagged(ms: seq<MetricRow>, t: ThresholdTable): seq<AnomalyRecord>
  {
    if ms == [] then []
    else
      var m := ms[|ms| - 1];
      Flagged(ms[..|ms| - 1], t) + (if IssuesOf(m, t) != [] then [RecordOf(m, t)] else [])
  }

  /** Sorting key of the anomaly list: severity, descending. */
  function SeverityKey(a: AnomalyRecord): real
  {
    -(a.severityScore as real)
  }

  /** The anomaly list: flagged records stably sorted by descending severity. */
  function AnomalyReport(ms: seq<MetricRow>, t: ThresholdTable): seq<AnomalyRecord>
  {
    SortBy(Flagged(ms, t), SeverityKey)
  }

  /** The flagged records are exactly the records of the rows with an issue, one per
      such row, in the order of those rows. */
  lemma {:induction false} FlaggedSelects(ms: seq<MetricRow>, t: ThresholdTable)
    ensures |Flagged(ms, t)| == |Positions(ms, HasIssues(t))|
    ensures forall j :: 0 <= j < |Flagged(ms, t)| ==>
              Positions(ms, HasIssues(t))[j] < |ms| &&
              Flagged(ms, t)[j] == RecordOf(ms[Positions(ms, HasIssues(t))[j]], t)
  {
    FilterSelects(ms, HasIssues(t));
    if ms != [] {
      var init := ms[..|ms| - 1];
      FlaggedSelects(init, t);
      FilterSelects(init, HasIssues(t));
      assert forall i :: 0 <= i < |init| ==> init[i] == ms[i];
    }
  }

  /** An ad is in the anomaly list exactly when at least one check fires for it. */
  lemma AnomalyReportMembers(ms: seq<MetricRow>, t: ThresholdTable)
    ensures |AnomalyReport(ms, t)| == |Positions(ms, HasIssues(t))|
    ensures forall a :: a in AnomalyReport(ms, t) <==>
              exists i :: 0 <= i < |ms| && IssuesOf(ms[i], t) != [] && a == RecordOf(ms[i], t)
  {
    var f := Flagged(ms, t);
    var r := AnomalyReport(ms, t);
    FlaggedSelects(ms, t);
    FlaggedMembers(ms, t);
    forall a ensures a in r <==> a in f {
      assert a in r <==> a in multiset(r);
    }
  }

  /** Before sorting, a record is present exactly when it is that of a row with an issue. */
  lemma {:induction false} FlaggedMembers(ms: seq<MetricRow>, t: ThresholdTable)
    ensures forall a :: a in Flagged(ms, t) <==>
              exists i :: 0 <= i < |ms| && IssuesOf(ms[i], t) != [] && a == RecordOf(ms[i], t)
  {
    if ms != [] {
      var n := |ms| - 1;
      var init, last := ms[..n], ms[n];
      FlaggedMembers(init, t);
      var tail := if IssuesOf(last, t) != [] then [RecordOf(last, t)] else [];
      assert Flagged(ms, t) == Flagged(init, t) + tail;
      forall a | a in Flagged(ms, t)
        ensures exists i :: 0 <= i < |ms| && IssuesOf(ms[i], t) != [] && a == RecordOf(ms[i], t)
      {
        if a in Flagged(init, t) {
          var i :| 0 <= i < |init| && IssuesOf(init[i], t) != [] && a == RecordOf(init[i], t);
          assert ms[i] == init[i];
        } else {
          assert a in tail;
          assert IssuesOf(ms[n], t) != [] && a == RecordOf(ms[n], t);
        }
      }
      forall a | exists i :: 0 <= i < |ms| && IssuesOf(ms[i], t) != [] && a == RecordOf(ms[i], t)
        ensures a in Flagged(ms, t)
      {
        var i :| 0 <= i < |ms| && IssuesOf(ms[i], t) != [] && a == RecordOf(ms[i], t);
        if i < n {
          assert IssuesOf(init[i], t) != [] && a == RecordOf(init[i], t);
          assert a in Flagged(init, t);
        } else {
          assert a in tail;
        }
      }
    }
  }

  /** Every listed ad's severity is the number of its issues, between 1 and 6. */
  lemma AnomalySeverities(ms: seq<MetricRow>, t: ThresholdTable)
    ensures forall a :: a in AnomalyReport(ms, t) ==>
              a.severityScore == |a.issues| && 1 <= a.severityScore <= 6
  {
    AnomalyReportMembers(ms, t);
  }

  /** The anomaly list is ordered by non-increasing severity. */
  lemma AnomalyReportOrdered(ms: seq<MetricRow>, t: ThresholdTable)
    ensures forall i, j :: 0 <= i < j < |AnomalyReport(ms, t)| ==>
              AnomalyReport(ms, t)[i].severityScore >= AnomalyReport(ms, t)[j].severityScore
  {
    SortBySorted(Flagged(ms, t), SeverityKey);
  }

  /** Ads of equal severity keep their input order: for every severity, the records
      with that severity appear in the list as they appear among the flagged rows. */
  lemma AnomalyReportStable(ms: seq<MetricRow>, t: ThresholdTable, severity: nat)
    ensures KeyClass(AnomalyReport(ms, t), SeverityKey, -(severity as real))
         == KeyClass(Flagged(ms, t), SeverityKey, -(severity as real))
  {
    SortByStable(Flagged(ms, t), SeverityKey, -(severity as real));
  }

  // ===========================================================================
  // Campaign analysis
  // ===========================================================================

  /** One campaign's roll-up: column sums, ad count and ratios of the sums. */
  datatype CampaignMetrics = CampaignMetrics(
    campaign: string,
    totals: Totals,
    adCount: nat,
    ctr: real,
    conversionRate: real,
    roi: real,
    roas: real,
    cpc: real,
    cpa: real)

  datatype ScoredCampaign = ScoredCampaign(metrics: CampaignMetrics, performanceScore: real)

  /** None of the campaign ratios has a zero guard. */
  predicate CampaignMeasurable(t: Totals)
  {
    t.impressions > 0 && t.clicks > 0 && t.conversions > 0 && t.cost > 0.0
  }

  predicate CampaignsMeasurable(rows: seq<Row>)
  {
    forall c :: c in CampaignNames(rows) ==> CampaignMeasurable(CampaignTotals(rows, c))
  }

  /** The roll-up of campaign `c`: its totals are the sums over its rows, its ad count
      is its number of rows, and each ratio is taken of the totals (campaign CTR is
      total clicks over total impressions, not a mean of the ads' CTRs). */
  function CampaignRollUp(rows: seq<Row>, c: string): (cm: CampaignMetrics)
    requires CampaignMeasurable(CampaignTotals(rows, c))
    ensures cm.campaign == c
    ensures cm.totals == Sum(RowsOf(rows, c)) && cm.adCount == |RowsOf(rows, c)|
    ensures cm.ctr * (cm.totals.impressions as real) == (cm.totals.clicks as real) * 100.0
    ensures cm.conversionRate * (cm.totals.clicks as real) == (cm.totals.conversions as real) * 100.0
    ensures cm.roas * cm.totals.cost == cm.totals.revenue
    ensures cm.roi == (cm.roas - 1.0) * 100.0
    ensures cm.cpc * (cm.totals.clicks as real) == cm.totals.cost
    ensures cm.cpa * (cm.totals.conversions as real) == cm.totals.cost
  {
    var t := CampaignTotals(rows, c);
    var impressions, clicks, conversions := t.impressions as real, t.clicks as real, t.conversions as real;
    RoiFromRoas(t.revenue, t.cost);
    CampaignMetrics(
      c, t, |RowsOf(rows, c)|,
      clicks / impressions * 100.0,
      conversions / clicks * 100.0,
      (t.revenue - t.cost) / t.cost * 100.0,
      t.revenue / t.cost,
      t.cost / clicks,
      t.cost / conversions)
  }

  /** The roll-ups in group-key (campaign name) order. */
  function RollUps(rows: seq<Row>): (cs: seq<CampaignMetrics>)
    requires CampaignsMeasurable(rows)
    ensures |cs| == |CampaignNames(rows)|
    ensures forall i :: 0 <= i < |cs| ==> cs[i] == CampaignRollUp(rows, CampaignNames(rows)[i])
  {
    var names := CampaignNames(rows);
    seq(|names|, i requires 0 <= i < |names| => CampaignRollUp(rows, names[i]))
  }

  function CampaignRoi(c: CampaignMetrics): real { c.roi }
  function CampaignRoas(c: CampaignMetrics): real { c.roas }
  function CampaignConversionRate(c: CampaignMetrics): real { c.conversionRate }

  /** 40% ROI rank + 30% ROAS rank + 30% conversion-rate rank among the campaigns;
      the weights add up to 1, so the score lies in (0, 1]. */
  function CampaignScore(cs: seq<CampaignMetrics>, i: nat): (score: real)
    requires i < |cs|
    ensures 0.0 < score <= 1.0
  {
    ColumnRankBounds(cs, CampaignRoi, i);
    ColumnRankBounds(cs, CampaignRoas, i);
    ColumnRankBounds(cs, CampaignConversionRate, i);
    PercentileRank(Project(cs, CampaignRoi), cs[i].roi) * 0.4
    + PercentileRank(Project(cs, CampaignRoas), cs[i].roas) * 0.3
    + PercentileRank(Project(cs, CampaignConversionRate), cs[i].conversionRate) * 0.3
  }

  function ScoredCampaigns(cs: seq<CampaignMetrics>): (scored: seq<ScoredCampaign>)
    ensures |scored| == |cs|
    ensures forall i :: 0 <= i < |cs| ==> scored[i] == ScoredCampaign(cs[i], CampaignScore(cs, i))
  {
    seq(|cs|, i requires 0 <= i < |cs| => ScoredCampaign(cs[i], CampaignScore(cs, i)))
  }

  function CampaignScoreKey(s: ScoredCampaign): real
  {
    -s.performanceScore
  }

  /** The campaign ranking: scored roll-ups by descending score. */
  function CampaignAnalysis(rows: seq<Row>): seq<ScoredCampaign>
    requires CampaignsMeasurable(rows)
  {
    SortBy(ScoredCampaigns(RollUps(rows)), CampaignScoreKey)
  }

  /** Every entry of the ranking is the roll-up of a campaign present in the rows,
      with at least one ad, and carries a score in (0, 1]; there is one entry per
      group key. */
  lemma CampaignAnalysisEntries(rows: seq<Row>)
    requires CampaignsMeasurable(rows)
    ensures |CampaignAnalysis(rows)| == |CampaignNames(rows)|
    ensures forall k :: 0 <= k < |CampaignAnalysis(rows)| ==>
              var s := CampaignAnalysis(rows)[k];
              s.metrics.campaign in CampaignNames(rows) &&
              s.metrics == CampaignRollUp(rows, s.metrics.campaign) &&
              s.metrics.adCount >= 1 &&
              0.0 < s.performanceScore <= 1.0
  {
    var names := CampaignNames(rows);
    var scored := ScoredCampaigns(RollUps(rows));
    var r := CampaignAnalysis(rows);
    forall k | 0 <= k < |r|
      ensures r[k].metrics.campaign in names
      ensures r[k].metrics == CampaignRollUp(rows, r[k].metrics.campaign)
      ensures r[k].metrics.adCount >= 1 && 0.0 < r[k].performanceScore <= 1.0
    {
      assert r[k] in multiset(scored);
      var i :| 0 <= i < |scored| && scored[i] == r[k];
      CampaignHasRows(rows, names[i]);
    }
  }

  /** A campaign has an entry in the ranking exactly when it is a group key, that
      is, when some row belongs to it. */
  lemma CampaignAnalysisCoverage(rows: seq<Row>)
    requires CampaignsMeasurable(rows)
    ensures forall c :: c in CampaignNames(rows) <==>
              exists k :: 0 <= k < |CampaignAnalysis(rows)| && CampaignAnalysis(rows)[k].metrics.campaign == c
    ensures forall c :: c in CampaignNames(rows) <==> exists i :: 0 <= i < |rows| && rows[i].campaign == c
  {
    var names := CampaignNames(rows);
    var scored := ScoredCampaigns(RollUps(rows));
    var r := CampaignAnalysis(rows);
    CampaignNamesSpec(rows);
    CampaignAnalysisEntries(rows);
    forall c | c in names
      ensures exists k :: 0 <= k < |r| && r[k].metrics.campaign == c
    {
      var i :| 0 <= i < |names| && names[i] == c;
      assert scored[i] in multiset(r);
      var k :| 0 <= k < |r| && r[k] == scored[i];
    }
  }

  /** Performance scores do not increase down the ranking. */
  lemma CampaignAnalysisOrdered(rows: seq<Row>)
    requires CampaignsMeasurable(rows)
    ensures forall i, j :: 0 <= i < j < |CampaignAnalysis(rows)| ==>
              CampaignAnalysis(rows)[i].performanceScore >= CampaignAnalysis(rows)[j].performanceScore
  {
    SortBySorted(ScoredCampaigns(RollUps(rows)), CampaignScoreKey);
  }

  /** A worked case of the roll-up rule: two ads of one campaign with CTRs of 5% and
      1% give the campaign a CTR of 70 / 3000 = 2.33...%, not the 3% mean. */
  lemma RollUpIsNotMeanOfAds()
    ensures var rows := [Row("ad1", "campaignA", 1000, 50, 5, 100.0, 300.0),
                         Row("ad2", "campaignA", 2000, 20, 1, 150.0, 80.0)];
            CampaignMeasurable(CampaignTotals(rows, "campaignA")) &&
            CampaignRollUp(rows, "campaignA").ctr == 7.0 / 3.0 &&
            (KeyMetrics(rows[0]).ctr + KeyMetrics(rows[1]).ctr) / 2.0 == 3.0
  {
    var rows := [Row("ad1", "campaignA", 1000, 50, 5, 100.0, 300.0),
                 Row("ad2", "campaignA", 2000, 20, 1, 150.0, 80.0)];
    var p := InCampaign("campaignA");
    assert rows[..1] == [rows[0]] && rows[..1][..0] == [];
    assert Filter(rows[..1], p) == [rows[0]];
    assert RowsOf(rows, "campaignA") == rows;
    assert Sum(rows[..1]) == Totals(1000, 50, 5, 100.0, 300.0);
    assert Sum(rows) == Totals(3000, 70, 6, 250.0, 380.0);
  }

  // ===========================================================================
  // Worst performers
  // ===========================================================================

  function AdRoi(m: MetricRow): real { m.roi }
  function AdRoas(m: MetricRow): real { m.roas }
  function AdConversionRate(m: MetricRow): real { m.conversionRate }
  function AdCtr(m: MetricRow): real { m.ctr }

  /** 40% ROI rank + 30% ROAS rank + 20% conversion-rate rank + 10% CTR rank among
      all ads; the weights add up to 1, so the score lies in (0, 1]. */
  function AdPerformanceScore(ms: seq<MetricRow>, i: nat): (score: real)
    requires i < |ms|
    ensures 0.0 < score <= 1.0
  {
    ColumnRankBounds(ms, AdRoi, i);
    ColumnRankBounds(ms, AdRoas, i);
    ColumnRankBounds(ms, AdConversionRate, i);
    ColumnRankBounds(ms, AdCtr, i);
    PercentileRank(Project(ms, AdRoi), ms[i].roi) * 0.4
    + PercentileRank(Project(ms, AdRoas), ms[i].roas) * 0.3
    + PercentileRank(Project(ms, AdConversionRate), ms[i].conversionRate) * 0.2
    + PercentileRank(Project(ms, AdCtr), ms[i].ctr) * 0.1
  }

  datatype ScoredAd = ScoredAd(metrics: MetricRow, performanceScore: real)

  function ScoredAds(ms: seq<MetricRow>): (scored: seq<ScoredAd>)
    ensures |scored| == |ms|
    ensures forall i :: 0 <= i < |ms| ==> scored[i] == ScoredAd(ms[i], AdPerformanceScore(ms, i))
  {
    seq(|ms|, i requires 0 <= i < |ms| => ScoredAd(ms[i], AdPerformanceScore(ms, i)))
  }

  function AdScoreKey(a: ScoredAd): real
  {
    a.performanceScore
  }

  /** The `n` lowest-scoring ads, lowest first, earlier rows first among equals. */
  function WorstSelection(ms: seq<MetricRow>, n: nat): seq<ScoredAd>
  {
    NSmallest(ScoredAds(ms), n, AdScoreKey)
  }

  /** The selection holds min(n, number of ads) scored ads, each with a score in
      (0, 1], in ascending score order, and every ad left out scores at least as
      high as every ad selected. */
  lemma WorstSelectionSpec(ms: seq<MetricRow>, n: nat)
    ensures |WorstSelection(ms, n)| == Min(n, |ms|)
    ensures multiset(WorstSelection(ms, n)) <= multiset(ScoredAds(ms))
    ensures forall i, j :: 0 <= i < j < |WorstSelection(ms, n)| ==>
              WorstSelection(ms, n)[i].performanceScore <= WorstSelection(ms, n)[j].performanceScore
    ensures forall a, b :: a in WorstSelection(ms, n) && b in multiset(ScoredAds(ms)) - multiset(WorstSelection(ms, n))
              ==> a.performanceScore <= b.performanceScore
  {
    var scored := ScoredAds(ms);
    var sel := WorstSelection(ms, n);
    NSmallestSelects(scored, n, AdScoreKey);
    forall i, j | 0 <= i < j < |sel| ensures sel[i].performanceScore <= sel[j].performanceScore {
      assert AdScoreKey(sel[i]) <= AdScoreKey(sel[j]);
    }
    forall a, b | a in sel && b in multiset(scored) - multiset(sel) ensures a.performanceScore <= b.performanceScore {
      assert AdScoreKey(a) <= AdScoreKey(b);
    }
  }

  /** `nsmallest` keeps the first rows among equal scores: for every score `k`, the
      selected ads scoring `k` are the earliest ads of the table scoring `k`, in row
      order. */
  lemma WorstSelectionFirst(ms: seq<MetricRow>, n: nat, k: real)
    ensures KeyClass(WorstSelection(ms, n), AdScoreKey, k) <= KeyClass(ScoredAds(ms), AdScoreKey, k)
  {
    NSmallestFirst(ScoredAds(ms), n, AdScoreKey, k);
  }

  /** Every selected ad is an ad of the table with its own score, which lies in (0, 1]. */
  lemma WorstSelectionScores(ms: seq<MetricRow>, n: nat)
    ensures forall a :: a in WorstSelection(ms, n) ==>
              exists i :: 0 <= i < |ms| && a == ScoredAd(ms[i], AdPerformanceScore(ms, i))
    ensures forall a :: a in WorstSelection(ms, n) ==> 0.0 < a.performanceScore <= 1.0
  {
    var scored := ScoredAds(ms);
    var sel := WorstSelection(ms, n);
    NSmallestSplit(scored, n, AdScoreKey);
    forall a | a in sel
      ensures exists i :: 0 <= i < |ms| && a == ScoredAd(ms[i], AdPerformanceScore(ms, i))
    {
      assert a in multiset(scored);
      var i :| 0 <= i < |scored| && scored[i] == a;
    }
  }

  /** How the CPA column of a worst-performer record reads. */
  datatype CpaDisplay = NotApplicable | Amount(value: real)

  datatype FinancialImpact = FinancialImpact(cost: real, revenue: real, loss: real)

  datatype Performer = Performer(
    adId: string,
    campaign: string,
    performanceScore: real,
    ctr: real,
    conversionRate: real,
    roi: real,
    roas: real,
    cpc: real,
    cpa: CpaDisplay,
    impact: FinancialImpact)

  /** One worst-performer record: the ad's figures, its CPA shown as "N/A" exactly
      when CPA is not positive, and the loss that revenue leaves uncovered. */
  function PerformerOf(a: ScoredAd): (p: Performer)
    ensures p.adId == a.metrics.row.adId && p.campaign == a.metrics.row.campaign
    ensures p.performanceScore == a.performanceScore
    ensures p.cpa == NotApplicable <==> a.metrics.cpa <= 0.0
    ensures p.cpa.Amount? ==> p.cpa.value == a.metrics.cpa
    ensures p.impact.cost == a.metrics.row.cost && p.impact.revenue == a.metrics.row.revenue
    ensures p.impact.revenue + p.impact.loss == p.impact.cost
  {
    var m := a.metrics;
    Performer(
      m.row.adId, m.row.campaign, a.performanceScore,
      m.ctr, m.conversionRate, m.roi, m.roas, m.cpc,
      if m.cpa > 0.0 then Amount(m.cpa) else NotApplicable,
      FinancialImpact(m.row.cost, m.row.revenue, m.row.cost - m.row.revenue))
  }

  // ===========================================================================
  // Dashboard optimisation flags
  // ===========================================================================

  datatype Flags = Flags(negativeRoiAds: seq<string>, lowCtrAds: seq<string>, highCpaAds: seq<string>)

  function NegativeRoi(m: MetricRow): bool { m.roi < 0.0 }
  function LowCtrFlag(m: MetricRow): bool { m.ctr < 2.0 }
  function HighCpaFlag(m: MetricRow): bool { m.cpa > 80.0 }

  function AdIdOf(m: MetricRow): string { m.row.adId }

  function FlagsOf(ms: seq<MetricRow>): Flags
  {
    Flags(Project(Filter(ms, NegativeRoi), AdIdOf), Project(Filter(ms, LowCtrFlag), AdIdOf), Project(Filter(ms, HighCpaFlag), AdIdOf))
  }

  /** A flag list names exactly the ads whose row satisfies its condition, once per
      row, in row order: its j-th id is that of the j-th matching row. */
  lemma FlagListSelects(ms: seq<MetricRow>, p: MetricRow -> bool)
    ensures |Project(Filter(ms, p), AdIdOf)| == |Positions(ms, p)|
    ensures StrictlyIncreasing(Positions(ms, p))
    ensures forall j :: 0 <= j < |Positions(ms, p)| ==>
              Positions(ms, p)[j] < |ms| && Project(Filter(ms, p), AdIdOf)[j] == ms[Positions(ms, p)[j]].row.adId
    ensures forall i :: 0 <= i < |ms| ==> (p(ms[i]) <==> i in Positions(ms, p))
  {
    FilterSelects(ms, p);
  }

  /** The three dashboard lists: ROI below 0, CTR below 2% and CPA above 80. */
  lemma FlagsSpec(ms: seq<MetricRow>)
    ensures forall id :: id in FlagsOf(ms).negativeRoiAds <==> exists i :: 0 <= i < |ms| && ms[i].roi < 0.0 && ms[i].row.adId == id
    ensures forall id :: id in FlagsOf(ms).lowCtrAds <==> exists i :: 0 <= i < |ms| && ms[i].ctr < 2.0 && ms[i].row.adId == id
    ensures forall id :: id in FlagsOf(ms).highCpaAds <==> exists i :: 0 <= i < |ms| && ms[i].cpa > 80.0 && ms[i].row.adId == id
  {
    FlagListMembers(ms, NegativeRoi);
    FlagListMembers(ms, LowCtrFlag);
    FlagListMembers(ms, HighCpaFlag);
  }

  lemma FlagListMembers(ms: seq<MetricRow>, p: MetricRow -> bool)
    ensures forall id :: id in Project(Filter(ms, p), AdIdOf) <==> exists i :: 0 <= i < |ms| && p(ms[i]) && ms[i].row.adId == id
  {
    var ps := Positions(ms, p);
    var ids := Project(Filter(ms, p), AdIdOf);
    FlagListSelects(ms, p);
    forall id | id in ids ensures exists i :: 0 <= i < |ms| && p(ms[i]) && ms[i].row.adId == id {
      var j :| 0 <= j < |ids| && ids[j] == id;
      assert ps[j] in ps;
    }
    forall i | 0 <= i < |ms| && p(ms[i]) ensures ms[i].row.adId in ids {
      var j :| 0 <= j < |ps| && ps[j] == i;
      assert ids[j] == ms[i].row.adId;
    }
  }

  // ===========================================================================
  // The analyzer
  // ===========================================================================

  class MarketingDataAnalyzer {
    /** The loaded table. */
    var data: seq<Row>
    /** The table with its metric columns, once `CalculateKeyMetrics` has run. */
    var metricsData: Option<seq<MetricRow>>

    /** Reading the data file is outside the model: the rows are given. */
    constructor(rows: seq<Row>)
      ensures data == rows && metricsData == None
    {
      data := rows;
      metricsData := None;
    }

    /** Counts, column by column, the negative and the zero entries, and reports each
        of the two logical violations exactly when some row shows it. */
    method ValidateDataQuality() returns (report: QualityReport)
      ensures report.totalRecords == |data|
      ensures report.negativeValues.Keys == report.zeroValues.Keys == {Impressions, Clicks, Conversions, Cost, Revenue}
      ensures forall col :: col in report.negativeValues ==>
                report.negativeValues[col] == CountRows(data, NegativeIn(col))
      ensures forall col :: col in report.zeroValues ==>
                report.zeroValues[col] == CountRows(data, ZeroIn(col))
      ensures ClicksExceedImpressions in report.logicalIssues <==>
                exists i :: 0 <= i < |data| && data[i].clicks > data[i].impressions
      ensures ConversionsExceedClicks in report.logicalIssues <==>
                exists i :: 0 <= i < |data| && data[i].conversions > data[i].clicks
      ensures report.logicalIssues ==
                (if AnyRow(data, ClicksOverImpressions) then [ClicksExceedImpressions] else [])
                + (if AnyRow(data, ConversionsOverClicks) then [ConversionsExceedClicks] else [])
    {
      var negatives: map<NumericColumn, nat> := map[];
      var zeros: map<NumericColumn, nat> := map[];
      for k := 0 to |NUMERIC_COLUMNS|
        invariant negatives.Keys == zeros.Keys == set j | 0 <= j < k :: NUMERIC_COLUMNS[j]
        invariant forall col :: col in negatives ==> negatives[col] == CountRows(data, NegativeIn(col))
        invariant forall col :: col in zeros ==> zeros[col] == CountRows(data, ZeroIn(col))
      {
        var col := NUMERIC_COLUMNS[k];
        negatives := negatives[col := CountRows(data, NegativeIn(col))];
        zeros := zeros[col := CountRows(data, ZeroIn(col))];
      }
      var logicalIssues: seq<LogicalIssue> := [];
      if AnyRow(data, ClicksOverImpressions) {
        logicalIssues := logicalIssues + [ClicksExceedImpressions];
      }
      if AnyRow(data, ConversionsOverClicks) {
        logicalIssues := logicalIssues + [ConversionsExceedClicks];
      }
      assert (set j | 0 <= j < |NUMERIC_COLUMNS| :: NUMERIC_COLUMNS[j]) == {Impressions, Clicks, Conversions, Cost, Revenue} by {
        assert NUMERIC_COLUMNS[0] == Impressions && NUMERIC_COLUMNS[1] == Clicks && NUMERIC_COLUMNS[2] == Conversions;
        assert NUMERIC_COLUMNS[3] == Cost && NUMERIC_COLUMNS[4] == Revenue;
      }
      report := QualityReport(|data|, negatives, zeros, logicalIssues);
    }

    /** Stores the metrics table and returns it; the loaded table is unchanged. */
    method CalculateKeyMetrics() returns (table: seq<MetricRow>)
      requires AllMeasurable(data)
      modifies this`metricsData
      ensures metricsData == Some(table)
      ensures |table| == |data|
      ensures forall i :: 0 <= i < |data| ==> table[i] == KeyMetrics(data[i])
    {
      var rows := data;
      table := seq(|rows|, i requires 0 <= i < |rows| => KeyMetrics(rows[i]));
      metricsData := Some(table);
    }

    /** Walks the rows appending a record for every ad with an issue, then sorts the
        records stably by descending severity. */
    method DetectAnomalies() returns (anomalousAds: seq<AnomalyRecord>, thresholds: ThresholdTable)
      requires metricsData.Some?
      ensures thresholds == METRICS_THRESHOLDS
      ensures anomalousAds == AnomalyReport(metricsData.value, METRICS_THRESHOLDS)
    {
      var df := metricsData.value;
      thresholds := METRICS_THRESHOLDS;
      var found: seq<AnomalyRecord> := [];
      var i := 0;
      while i < |df|
        invariant 0 <= i <= |df|
        invariant found == Flagged(df[..i], thresholds)
      {
        var m := df[i];
        var adIssues := IssuesOf(m, thresholds);
        if adIssues != [] {
          found := found + [AnomalyRecord(m.row.adId, m.row.campaign, adIssues, |adIssues|)];
        }
        assert df[..i + 1][..i] == df[..i] && df[..i + 1][i] == m;
        i := i + 1;
      }
      assert df[..|df|] == df;
      anomalousAds := SortBy(found, SeverityKey);
    }

    /** The campaign ranking of the rows behind the metrics table. */
    method AnalyzeCampaigns() returns (campaigns: seq<ScoredCampaign>)
      requires metricsData.Some? && CampaignsMeasurable(BaseRows(metricsData.value))
      ensures campaigns == CampaignAnalysis(BaseRows(metricsData.value))
    {
      campaigns := CampaignAnalysis(BaseRows(metricsData.value));
    }

    /** One record per selected worst performer, in selection order. */
    method IdentifyWorstPerformers(n: nat) returns (worstPerformers: seq<Performer>)
      requires metricsData.Some?
      ensures |worstPerformers| == Min(n, |metricsData.value|)
      ensures forall k :: 0 <= k < |worstPerformers| ==>
                worstPerformers[k] == PerformerOf(WorstSelection(metricsData.value, n)[k])
    {
      var worstAds := WorstSelection(metricsData.value, n);
      worstPerformers := [];
      for k := 0 to |worstAds|
        invariant |worstPerformers| == k
        invariant forall j :: 0 <= j < k ==> worstPerformers[j] == PerformerOf(worstAds[j])
      {
        worstPerformers := worstPerformers + [PerformerOf(worstAds[k])];
      }
    }

    /** The `optimization_flags` part of the dashboard data. */
    method OptimizationFlags() returns (flags: Flags)
      requires metricsData.Some?
      ensures flags == FlagsOf(metricsData.value)
    {
      flags := FlagsOf(metricsData.value);
    }
  }
}
