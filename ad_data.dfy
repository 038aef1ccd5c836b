/** The input table shared by both analysis scripts (one row per ad) and the
    group-by-campaign roll-up they both perform: the groups are the distinct campaign
    names in name order, and each group's figures are column sums over its rows. */
module AdData {
  import opened Collections

  /** One ad, as loaded from the data file. Counts and amounts are not checked on
      load: negative values are possible and are reported by the quality check. */
  datatype Row = Row(
    adId: string,
    campaign: string,
    impressions: int,
    clicks: int,
    conversions: int,
    cost: real,
    revenue: real)

  /** Column sums over a group of rows. */
  datatype Totals = Totals(impressions: int, clicks: int, conversions: int, cost: real, revenue: real)

  const NO_TOTALS := Totals(0, 0, 0, 0.0, 0.0)

  function AddRow(t: Totals, r: Row): Totals
  {
    Totals(t.impressions + r.impressions, t.clicks + r.clicks, t.conversions + r.conversions,
           t.cost + r.cost, t.revenue + r.revenue)
  }

  function Plus(a: Totals, b: Totals): Totals
  {
    Totals(a.impressions + b.impressions, a.clicks + b.clicks, a.conversions + b.conversions,
           a.cost + b.cost, a.revenue + b.revenue)
  }

  /** Column sums over `rows`. */
  function Sum(rows: seq<Row>): Totals
  {
    if rows == [] then NO_TOTALS else AddRow(Sum(rows[..|rows| - 1]), rows[|rows| - 1])
  }

  function InCampaign(c: string): Row -> bool
  {
    (r: Row) => r.campaign == c
  }

  /** The rows of campaign `c`, in input order. */
  function RowsOf(rows: seq<Row>, c: string): seq<Row>
  {
    Filter(rows, InCampaign(c))
  }

  function CampaignTotals(rows: seq<Row>, c: string): Totals
  {
    Sum(RowsOf(rows, c))
  }

  /** The distinct campaign names of `rows`, in name order (the group keys). */
  function CampaignNames(rows: seq<Row>): seq<string>
  {
    if rows == [] then [] else InsertName(rows[0].campaign, CampaignNames(rows[1..]))
  }

  /** The group keys are sorted, hold no name twice, and are exactly the campaign
      names that occur in the rows. */
  lemma {:induction false} CampaignNamesSpec(rows: seq<Row>)
    ensures StrictlySortedNames(CampaignNames(rows))
    ensures forall i, j :: 0 <= i < j < |CampaignNames(rows)| ==> CampaignNames(rows)[i] != CampaignNames(rows)[j]
    ensures forall c :: c in CampaignNames(rows) <==> exists i :: 0 <= i < |rows| && rows[i].campaign == c
  {
    if rows != [] {
      CampaignNamesSpec(rows[1..]);
      InsertNameSpec(rows[0].campaign, CampaignNames(rows[1..]));
      forall c | c in CampaignNames(rows)
        ensures exists i :: 0 <= i < |rows| && rows[i].campaign == c
      {
        if c != rows[0].campaign {
          var i :| 0 <= i < |rows[1..]| && rows[1..][i].campaign == c;
          assert rows[i + 1].campaign == c;
        }
      }
      forall c | exists i :: 0 <= i < |rows| && rows[i].campaign == c
        ensures c in CampaignNames(rows)
      {
        var i :| 0 <= i < |rows| && rows[i].campaign == c;
        if i > 0 {
          assert rows[1..][i - 1].campaign == c;
        }
      }
    }
    StrictlySortedNamesDistinct(CampaignNames(rows));
  }

  /** Every group key has at least one row. */
  lemma CampaignHasRows(rows: seq<Row>, c: string)
    requires c in CampaignNames(rows)
    ensures |RowsOf(rows, c)| >= 1
  {
    CampaignNamesSpec(rows);
    var i :| 0 <= i < |rows| && rows[i].campaign == c;
    FilterSelects(rows, InCampaign(c));
    assert i in Positions(rows, InCampaign(c));
  }

  // ---------------------------------------------------------------------------
  // The roll-up partitions the rows
  // ---------------------------------------------------------------------------

  /** Sum of the group totals of the names `ns`. */
  function TotalsOver(rows: seq<Row>, ns: seq<string>): Totals
  {
    if ns == [] then NO_TOTALS else Plus(CampaignTotals(rows, ns[0]), TotalsOver(rows, ns[1..]))
  }

  /** Sum of the group row counts of the names `ns`. */
  function CountOver(rows: seq<Row>, ns: seq<string>): nat
  {
    if ns == [] then 0 else |RowsOf(rows, ns[0])| + CountOver(rows, ns[1..])
  }

  ghost predicate Distinct(ns: seq<string>)
  {
    forall i, j :: 0 <= i < j < |ns| ==> ns[i] != ns[j]
  }

  /** Appending a row adds it to its own campaign's rows only. */
  lemma RowsOfSnoc(rows: seq<Row>, r: Row, c: string)
    ensures RowsOf(rows + [r], c) == RowsOf(rows, c) + (if r.campaign == c then [r] else [])
  {
    assert (rows + [r])[..|rows + [r]| - 1] == rows;
  }

  lemma CampaignTotalsSnoc(rows: seq<Row>, r: Row, c: string)
    ensures CampaignTotals(rows + [r], c) ==
            (if r.campaign == c then AddRow(CampaignTotals(rows, c), r) else CampaignTotals(rows, c))
  {
    RowsOfSnoc(rows, r, c);
    var g := RowsOf(rows, c);
    if r.campaign == c {
      assert RowsOf(rows + [r], c) == g + [r];
      assert (g + [r])[..|g + [r]| - 1] == g;
      assert Sum(g + [r]) == AddRow(Sum(g), r);
    } else {
      assert RowsOf(rows + [r], c) == g;
    }
  }

  lemma {:induction false} OverAppend(rows: seq<Row>, r: Row, ns: seq<string>)
    requires Distinct(ns)
    ensures TotalsOver(rows + [r], ns) ==
            (if r.campaign in ns then AddRow(TotalsOver(rows, ns), r) else TotalsOver(rows, ns))
    ensures CountOver(rows + [r], ns) ==
            (if r.campaign in ns then CountOver(rows, ns) + 1 else CountOver(rows, ns))
  {
    if ns != [] {
      var c, rest := ns[0], ns[1..];
      assert Distinct(rest);
      OverAppend(rows, r, rest);
      RowsOfSnoc(rows, r, c);
      CampaignTotalsSnoc(rows, r, c);
      assert r.campaign in ns <==> r.campaign == c || r.campaign in rest;
      if r.campaign == c {
        assert forall k :: 0 <= k < |rest| ==> rest[k] == ns[k + 1];
        assert r.campaign !in rest;
      }
    }
  }

  lemma {:induction false} OverPartition(rows: seq<Row>, ns: seq<string>)
    requires Distinct(ns)
    requires forall i :: 0 <= i < |rows| ==> rows[i].campaign in ns
    ensures TotalsOver(rows, ns) == Sum(rows)
    ensures CountOver(rows, ns) == |rows|
  {
    if rows == [] {
      TotalsOverEmpty(rows, ns);
      CountOverEmpty(rows, ns);
    } else {
      var init := rows[..|rows| - 1];
      var r := rows[|rows| - 1];
      OverPartition(init, ns);
      OverAppend(init, r, ns);
      assert init + [r] == rows;
    }
  }

  lemma {:induction false} TotalsOverEmpty(rows: seq<Row>, ns: seq<string>)
    requires rows == []
    ensures TotalsOver(rows, ns) == NO_TOTALS
  {
    if ns != [] {
      TotalsOverEmpty(rows, ns[1..]);
    }
  }

  lemma {:induction false} CountOverEmpty(rows: seq<Row>, ns: seq<string>)
    requires rows == []
    ensures CountOver(rows, ns) == 0
  {
    if ns != [] {
      CountOverEmpty(rows, ns[1..]);
    }
  }

  /** Conservation: adding up the campaign roll-ups gives back the column sums over
      all rows, and the group row counts add up to the number of rows. Each row is
      counted in exactly one campaign. */
  lemma RollUpPartition(rows: seq<Row>)
    ensures TotalsOver(rows, CampaignNames(rows)) == Sum(rows)
    ensures CountOver(rows, CampaignNames(rows)) == |rows|
  {
    CampaignNamesSpec(rows);
    OverPartition(rows, CampaignNames(rows));
  }

  /** Rows with positive impressions, clicks, conversions and cost have positive sums. */
  lemma {:induction false} SumPositive(rows: seq<Row>)
    requires |rows| >= 1
    requires forall i :: 0 <= i < |rows| ==>
               rows[i].impressions > 0 && rows[i].clicks > 0 && rows[i].conversions > 0 && rows[i].cost > 0.0
    ensures Sum(rows).impressions > 0 && Sum(rows).clicks > 0
    ensures Sum(rows).conversions > 0 && Sum(rows).cost > 0.0
  {
    if |rows| > 1 {
      SumPositive(rows[..|rows| - 1]);
    }
  }

  /** When every row has positive impressions, clicks, conversions and cost, so has
      every campaign roll-up. */
  lemma CampaignTotalsPositive(rows: seq<Row>, c: string)
    requires c in CampaignNames(rows)
    requires forall i :: 0 <= i < |rows| ==>
               rows[i].impressions > 0 && rows[i].clicks > 0 && rows[i].conversions > 0 && rows[i].cost > 0.0
    ensures CampaignTotals(rows, c).impressions > 0 && CampaignTotals(rows, c).clicks > 0
    ensures CampaignTotals(rows, c).conversions > 0 && CampaignTotals(rows, c).cost > 0.0
  {
    CampaignHasRows(rows, c);
    var g := RowsOf(rows, c);
    forall k | 0 <= k < |g|
      ensures g[k].impressions > 0 && g[k].clicks > 0 && g[k].conversions > 0 && g[k].cost > 0.0
    {
      assert g[k] in g;
    }
    SumPositive(g);
  }
}
