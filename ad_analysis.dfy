/** The one-shot report of demos/archive/ad_analysis.py: plain per-ad ratios (as
    fractions, not percent), a composite score and the three lowest-scoring ads with a
    diagnosis each, campaign roll-ups, the list of ads losing more than half their
    cost, and the campaigns ranked by ROI with a status word. */
module AdAnalysis {
  import opened Collections
  import opened AdData

  // ---------------------------------------------------------------------------
  // Per-ad ratios and composite score
  // ---------------------------------------------------------------------------

  /** None of this script's ratios has a zero guard: every denominator must be positive. */
  predicate FullyMeasurable(r: Row)
  {
    r.impressions > 0 && r.clicks > 0 && r.conversions > 0 && r.cost > 0.0
  }

  predicate AllFullyMeasurable(rows: seq<Row>)
  {
    forall i :: 0 <= i < |rows| ==> FullyMeasurable(rows[i])
  }

  datatype AdMetrics = AdMetrics(
    row: Row,
    ctr: real,
    conversionRate: real,
    roi: real,
    cpc: real,
    cpa: real,
    compositeScore: real)

  /** The ratios of one ad: each times its denominator gives back its numerator, and
      the composite score weighs CTR and conversion rate 30% each and ROI 40%. */
  function AdRatios(r: Row): (m: AdMetrics)
    requires FullyMeasurable(r)
    ensures m.row == r
    ensures m.ctr * (r.impressions as real) == r.clicks as real
    ensures m.conversionRate * (r.clicks as real) == r.conversions as real
    ensures m.roi * r.cost == r.revenue - r.cost
    ensures m.cpc * (r.clicks as real) == r.cost
    ensures m.cpa * (r.conversions as real) == r.cost
    ensures m.compositeScore == m.ctr * 0.3 + m.conversionRate * 0.3 + m.roi * 0.4
  {
    var impressions, clicks, conversions := r.impressions as real, r.clicks as real, r.conversions as real;
    var ctr := clicks / impressions;
    var conversionRate := conversions / clicks;
    var roi := (r.revenue - r.cost) / r.cost;
    AdMetrics(r, ctr, conversionRate, roi, r.cost / clicks, r.cost / conversions,
              ctr * 0.3 + conversionRate * 0.3 + roi * 0.4)
  }

  /** For a consistent row (clicks at most impressions, conversions at most clicks,
      revenue not negative) CTR and conversion rate lie in (0, 1], ROI is at least
      -1, and so the composite score lies between -0.4 and 0.6 + 0.4 * ROI. */
  lemma CompositeScoreRange(r: Row)
    requires FullyMeasurable(r)
    requires r.clicks <= r.impressions && r.conversions <= r.clicks && r.revenue >= 0.0
    ensures 0.0 < AdRatios(r).ctr <= 1.0 && 0.0 < AdRatios(r).conversionRate <= 1.0
    ensures AdRatios(r).roi >= -1.0
    ensures -0.4 < AdRatios(r).compositeScore <= 0.6 + AdRatios(r).roi * 0.4
  {
    var m := AdRatios(r);
    RatioWithin(r.clicks as real, r.impressions as real, m.ctr);
    RatioWithin(r.conversions as real, r.clicks as real, m.conversionRate);
    assert (m.roi + 1.0) * r.cost == r.revenue;
  }

  /** q = a / b with 0 < a <= b lies in (0, 1]. */
  lemma RatioWithin(a: real, b: real, q: real)
    requires 0.0 < a <= b && q * b == a
    ensures 0.0 < q <= 1.0
  {
  }

  /** The metric columns of the whole table. */
  function Metrics(rows: seq<Row>): (ms: seq<AdMetrics>)
    requires AllFullyMeasurable(rows)
    ensures |ms| == |rows|
    ensures forall i :: 0 <= i < |rows| ==> ms[i] == AdRatios(rows[i])
  {
    seq(|rows|, i requires 0 <= i < |rows| => AdRatios(rows[i]))
  }

  // ---------------------------------------------------------------------------
  // The three worst ads and their diagnosis
  // ---------------------------------------------------------------------------

  function CompositeKey(m: AdMetrics): real
  {
    m.compositeScore
  }

  /** The three lowest composite scores, lowest first, earlier rows first among equals. */
  function WorstAds(ms: seq<AdMetrics>): seq<AdMetrics>
  {
    NSmallest(ms, 3, CompositeKey)
  }

  /** `nsmallest(3)` keeps the first rows among equal composite scores: for every
      score `k`, the selected ads scoring `k` are the earliest ads scoring `k`, in row
      order. */
  lemma WorstAdsFirst(ms: seq<AdMetrics>, k: real)
    ensures KeyClass(WorstAds(ms), CompositeKey, k) <= KeyClass(ms, CompositeKey, k)
  {
    NSmallestFirst(ms, 3, CompositeKey, k);
  }

  /** The selection holds min(3, number of ads) ads of the table, in ascending score
      order, and no ad left out scores lower than an ad selected. */
  lemma WorstAdsSpec(ms: seq<AdMetrics>)
    ensures |WorstAds(ms)| == Min(3, |ms|)
    ensures multiset(WorstAds(ms)) <= multiset(ms)
    ensures forall i, j :: 0 <= i < j < |WorstAds(ms)| ==>
              WorstAds(ms)[i].compositeScore <= WorstAds(ms)[j].compositeScore
    ensures forall a, b :: a in WorstAds(ms) && b in multiset(ms) - multiset(WorstAds(ms)) ==>
              a.compositeScore <= b.compositeScore
  {
    var r := WorstAds(ms);
    NSmallestSelects(ms, 3, CompositeKey);
    assert r == NSmallest(ms, 3, CompositeKey);
    forall i, j | 0 <= i < j < |r| ensures r[i].compositeScore <= r[j].compositeScore {
      assert CompositeKey(r[i]) <= CompositeKey(r[j]);
    }
    forall a, b | a in r && b in multiset(ms) - multiset(r) ensures a.compositeScore <= b.compositeScore {
      assert CompositeKey(a) <= CompositeKey(b);
    }
  }

  function SumReals(xs: seq<real>): real
  {
    if xs == [] then 0.0 else SumReals(xs[..|xs| - 1]) + xs[|xs| - 1]
  }

  /** The arithmetic mean of a non-empty column. */
  function Mean(xs: seq<real>): real
    requires |xs| > 0
  {
    SumReals(xs) / (|xs| as real)
  }

  /** The mean lies between the smallest and the largest entry: some entry is at
      most the mean and some entry is at least the mean. */
  lemma MeanWithin(xs: seq<real>)
    requires |xs| > 0
    ensures exists i :: 0 <= i < |xs| && xs[i] <= Mean(xs)
    ensures exists i :: 0 <= i < |xs| && xs[i] >= Mean(xs)
  {
    var n := |xs| as real;
    if forall i :: 0 <= i < |xs| ==> xs[i] > Mean(xs) {
      SumAbove(xs, Mean(xs));
      assert false;
    }
    if forall i :: 0 <= i < |xs| ==> xs[i] < Mean(xs) {
      SumBelow(xs, Mean(xs));
      assert false;
    }
  }

  lemma {:induction false} SumAbove(xs: seq<real>, v: real)
    requires |xs| > 0 && forall i :: 0 <= i < |xs| ==> xs[i] > v
    ensures SumReals(xs) > v * (|xs| as real)
  {
    if |xs| > 1 {
      SumAbove(xs[..|xs| - 1], v);
    }
  }

  lemma {:induction false} SumBelow(xs: seq<real>, v: real)
    requires |xs| > 0 && forall i :: 0 <= i < |xs| ==> xs[i] < v
    ensures SumReals(xs) < v * (|xs| as real)
  {
    if |xs| > 1 {
      SumBelow(xs[..|xs| - 1], v);
    }
  }

  function CtrOf(m: AdMetrics): real { m.ctr }
  function ConversionRateOf(m: AdMetrics): real { m.conversionRate }
  function RoiOf(m: AdMetrics): real { m.roi }

  /** One finding of the diagnosis, carrying the table mean it compares against. */
  datatype Problem =
    | CtrBelowAverage(meanCtr: real)
    | ConversionRateBelowAverage(meanRate: real)
    | RoiNegative
    | RoiBelowAverage(meanRoi: real)

  /** The findings for `ad` against the means of the whole table. */
  function Diagnose(ad: AdMetrics, ms: seq<AdMetrics>): seq<Problem>
    requires |ms| > 0
  {
    var meanCtr := Mean(Project(ms, CtrOf));
    var meanRate := Mean(Project(ms, ConversionRateOf));
    var meanRoi := Mean(Project(ms, RoiOf));
    (if ad.ctr < meanCtr then [CtrBelowAverage(meanCtr)] else [])
    + (if ad.conversionRate < meanRate then [ConversionRateBelowAverage(meanRate)] else [])
    + (if ad.roi < 0.0 then [RoiNegative]
       else if ad.roi < meanRoi then [RoiBelowAverage(meanRoi)]
       else [])
  }

  /** A below-average CTR or conversion rate is reported exactly when it holds; a
      negative ROI is reported exactly when ROI < 0; a below-average ROI exactly when
      0 <= ROI < mean ROI, so the two ROI findings never come together. */
  lemma DiagnoseSpec(ad: AdMetrics, ms: seq<AdMetrics>)
    requires |ms| > 0
    ensures var meanCtr := Mean(Project(ms, CtrOf));
            CtrBelowAverage(meanCtr) in Diagnose(ad, ms) <==> ad.ctr < meanCtr
    ensures var meanRate := Mean(Project(ms, ConversionRateOf));
            ConversionRateBelowAverage(meanRate) in Diagnose(ad, ms) <==> ad.conversionRate < meanRate
    ensures RoiNegative in Diagnose(ad, ms) <==> ad.roi < 0.0
    ensures var meanRoi := Mean(Project(ms, RoiOf));
            RoiBelowAverage(meanRoi) in Diagnose(ad, ms) <==> 0.0 <= ad.roi < meanRoi
    ensures forall p :: p in Diagnose(ad, ms) && p.RoiBelowAverage? ==> RoiNegative !in Diagnose(ad, ms)
    ensures |Diagnose(ad, ms)| <= 3
  {
  }

  datatype WorstAd = WorstAd(ad: AdMetrics, problems: seq<Problem>)

  /** The three worst ads, each with its diagnosis against the whole table. */
  function WorstAdReport(ms: seq<AdMetrics>): (report: seq<WorstAd>)
    ensures |report| == Min(3, |ms|)
    ensures forall k :: 0 <= k < |report| ==>
              |ms| > 0 && report[k] == WorstAd(WorstAds(ms)[k], Diagnose(WorstAds(ms)[k], ms))
  {
    WorstAdsSpec(ms);
    if ms == [] then []
    else
      var worst := WorstAds(ms);
      seq(|worst|, k requires 0 <= k < |worst| => WorstAd(worst[k], Diagnose(worst[k], ms)))
  }

  // ---------------------------------------------------------------------------
  // Campaign roll-ups, ranking and status
  // ---------------------------------------------------------------------------

  datatype CampaignStat = CampaignStat(campaign: string, totals: Totals, ctr: real, conversionRate: real, roi: real)

  /** The roll-up of campaign `c`: the column sums over its rows, and CTR, conversion
      rate and ROI taken of those sums. */
  function CampaignStatOf(rows: seq<Row>, c: string): (s: CampaignStat)
    requires AllFullyMeasurable(rows) && c in CampaignNames(rows)
    ensures s.campaign == c && s.totals == Sum(RowsOf(rows, c))
    ensures s.totals.impressions > 0 && s.totals.clicks > 0 && s.totals.cost > 0.0
    ensures s.ctr * (s.totals.impressions as real) == s.totals.clicks as real
    ensures s.conversionRate * (s.totals.clicks as real) == s.totals.conversions as real
    ensures s.roi * s.totals.cost == s.totals.revenue - s.totals.cost
  {
    CampaignTotalsPositive(rows, c);
    var t := CampaignTotals(rows, c);
    CampaignStat(c, t, (t.clicks as real) / (t.impressions as real),
                 (t.conversions as real) / (t.clicks as real), (t.revenue - t.cost) / t.cost)
  }

  /** The roll-ups in campaign name order. */
  function CampaignStats(rows: seq<Row>): (stats: seq<CampaignStat>)
    requires AllFullyMeasurable(rows)
    ensures |stats| == |CampaignNames(rows)|
    ensures forall i :: 0 <= i < |stats| ==> stats[i] == CampaignStatOf(rows, CampaignNames(rows)[i])
  {
    var names := CampaignNames(rows);
    seq(|names|, i requires 0 <= i < |names| => CampaignStatOf(rows, names[i]))
  }

  function NegatedRoi(s: CampaignStat): real
  {
    -s.roi
  }

  /** The campaigns by descending ROI. */
  function CampaignRanking(stats: seq<CampaignStat>): seq<CampaignStat>
  {
    SortBy(stats, NegatedRoi)
  }

  /** The ranking is a rearrangement of the roll-ups in non-increasing ROI order. It
      says nothing about the order of campaigns with equal ROI, which the sort used
      by the script leaves open. */
  lemma CampaignRankingSpec(stats: seq<CampaignStat>)
    ensures multiset(CampaignRanking(stats)) == multiset(stats)
    ensures forall i, j :: 0 <= i < j < |CampaignRanking(stats)| ==>
              CampaignRanking(stats)[i].roi >= CampaignRanking(stats)[j].roi
  {
    SortBySorted(stats, NegatedRoi);
  }

  datatype Status = Excellent | Fair | Loss

  /** The status word of a campaign: excellent above 100% ROI, fair above 0, loss
      otherwise. */
  function StatusOf(roi: real): (s: Status)
    ensures s == Excellent <==> roi > 1.0
    ensures s == Fair <==> 0.0 < roi <= 1.0
    ensures s == Loss <==> roi <= 0.0
  {
    if roi > 1.0 then Excellent else if roi > 0.0 then Fair else Loss
  }

  /** Status never improves down the ranking. */
  lemma StatusFollowsRanking(stats: seq<CampaignStat>, i: nat, j: nat)
    requires i < j < |CampaignRanking(stats)|
    ensures StatusOf(CampaignRanking(stats)[j].roi) == Excellent ==> StatusOf(CampaignRanking(stats)[i].roi) == Excellent
    ensures StatusOf(CampaignRanking(stats)[i].roi) == Loss ==> StatusOf(CampaignRanking(stats)[j].roi) == Loss
  {
    CampaignRankingSpec(stats);
  }

  // ---------------------------------------------------------------------------
  // Severe losses
  // ---------------------------------------------------------------------------

  function SevereLoss(m: AdMetrics): bool
  {
    m.roi < -0.5
  }

  function IdOf(m: AdMetrics): string { m.row.adId }

  /** The ids of the ads losing more than half their cost, in row order. */
  function SevereLossAds(ms: seq<AdMetrics>): seq<string>
  {
    Project(Filter(ms, SevereLoss), IdOf)
  }

  /** The list names the ads with ROI < -0.5, once per row, in row order: its j-th
      id is that of the j-th such row, and a row is named exactly when its ROI is
      below -0.5. */
  lemma SevereLossSpec(ms: seq<AdMetrics>)
    ensures |SevereLossAds(ms)| == |Positions(ms, SevereLoss)|
    ensures StrictlyIncreasing(Positions(ms, SevereLoss))
    ensures forall j :: 0 <= j < |Positions(ms, SevereLoss)| ==>
              Positions(ms, SevereLoss)[j] < |ms| &&
              SevereLossAds(ms)[j] == ms[Positions(ms, SevereLoss)[j]].row.adId
    ensures forall i :: 0 <= i < |ms| ==> (ms[i].roi < -0.5 <==> i in Positions(ms, SevereLoss))
  {
    FilterSelects(ms, SevereLoss);
  }

  // ---------------------------------------------------------------------------
  // The whole analysis
  // ---------------------------------------------------------------------------

  datatype RankedCampaign = RankedCampaign(stat: CampaignStat, status: Status)

  function RankedStat(r: RankedCampaign): CampaignStat { r.stat }

  datatype AdReport = AdReport(
    metrics: seq<AdMetrics>,
    worstAds: seq<WorstAd>,
    campaignStats: seq<CampaignStat>,
    severeLoss: seq<string>,
    ranking: seq<RankedCampaign>)

  /** Everything `analyze_ad_performance` computes from the rows. */
  function AnalyzeAdPerformance(rows: seq<Row>): (report: AdReport)
    requires AllFullyMeasurable(rows)
    ensures report.metrics == Metrics(rows)
    ensures report.worstAds == WorstAdReport(report.metrics)
    ensures report.campaignStats == CampaignStats(rows)
    ensures report.severeLoss == SevereLossAds(report.metrics)
    ensures Project(report.ranking, RankedStat) == CampaignRanking(report.campaignStats)
    ensures |report.metrics| == |rows| && |report.worstAds| == Min(3, |rows|)
    ensures |report.campaignStats| == |report.ranking| == |CampaignNames(rows)|
    ensures forall k :: 0 <= k < |report.ranking| ==>
              report.ranking[k].status == StatusOf(report.ranking[k].stat.roi)
    ensures forall i, j :: 0 <= i < j < |report.ranking| ==>
              report.ranking[i].stat.roi >= report.ranking[j].stat.roi
  {
    var ms := Metrics(rows);
    var stats := CampaignStats(rows);
    var ranked := CampaignRanking(stats);
    CampaignRankingSpec(stats);
    AdReport(ms, WorstAdReport(ms), stats, SevereLossAds(ms),
             seq(|ranked|, k requires 0 <= k < |ranked| => RankedCampaign(ranked[k], StatusOf(ranked[k].roi))))
  }
}
