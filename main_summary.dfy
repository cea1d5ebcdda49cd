/**
 * The uptake summary page: the share of users on version 57 or 56, with
 * and without add-ons, over the first month after release. Only the days
 * up to the cut-off date are drawn, and the version 56 legend entries are
 * rewritten as on the retention page.
 */
module MainSummary {
  import opened Wrappers
  import opened Text
  import opened Values
  import opened Charts
  import MainRetention

  /** `maxDate`: the last instant drawn, 2017-01-31 at 04:00 UTC. */
  const MaxDate: int := UtcMs(2017, 1, 31, 4)

  /** The x axis starts on 2017-01-01 at 04:00 UTC. */
  const MinDate: int := UtcMs(2017, 1, 1, 4)

  /**
   * `d.submission_date <= maxDate`: JavaScript compares a Date by its
   * numeric value, so the day's date converts to a number, and NaN
   * (a missing or unreadable date) compares false.
   */
  predicate OnOrBeforeMax(rec: Record) {
    var n := ToNumber(Get(rec, "submission_date"));
    n.Some? && n.value <= MaxDate as real
  }

  /** The `data.filter(...)` result: the days drawn. */
  function SummaryRows(rows: seq<Record>): seq<Record> {
    Filter(rows, OnOrBeforeMax)
  }

  /**
   * The days drawn are exactly the days up to the cut-off, in their
   * original order: the k-th one drawn is day `ix[k]`, the days increase,
   * and no day up to the cut-off is left out.
   */
  lemma SummaryRowsDays(rows: seq<Record>)
    ensures var p := OnOrBeforeMax;
      var r, ix := SummaryRows(rows), KeptIndices(rows, p);
      && |r| == |ix|
      && (forall k :: 0 <= k < |ix| ==> ix[k] < |rows| && r[k] == rows[ix[k]] && p(rows[ix[k]]))
      && (forall k, l :: 0 <= k < l < |ix| ==> ix[k] < ix[l])
      && (forall i :: 0 <= i < |rows| && p(rows[i]) ==> i in ix)
  {
    FilterExact(rows, OnOrBeforeMax);
  }

  /** A converted date is drawn exactly when it is not after the cut-off. */
  lemma OnOrBeforeMaxDate(rec: Record, ms: int)
    requires Get(rec, "submission_date") == Date(ms)
    ensures OnOrBeforeMax(rec) <==> ms <= MaxDate
  {
  }

  /** Nothing is dropped when every day is up to the cut-off, and something is otherwise. */
  lemma SummaryRowsKeepsAll(rows: seq<Record>)
    ensures SummaryRows(rows) == rows <==> forall i :: 0 <= i < |rows| ==> OnOrBeforeMax(rows[i])
  {
    FilterKeepsAll(rows, OnOrBeforeMax);
  }

  /** The four series: the share on a version among the users of that version, with or without add-ons. */
  const SummarySeries: seq<string> := ["57_57_addons", "57_57_no_addons", "56_56_addons", "56_56_no_addons"]

  /** The series and the shared legend agree: same version, and "without" exactly for `no_addons`. */
  lemma SummarySeriesVersion()
    ensures |SummarySeries| == |MainRetention.RetentionLegend| == |MainRetention.SeriesColors| == 4
    ensures forall i :: 0 <= i < 4 ==>
      SummarySeries[i][..2] == MainRetention.RetentionLegend[i][|MainRetention.RetentionLegend[i]| - 3..|MainRetention.RetentionLegend[i]| - 1]
  {
    forall i | 0 <= i < 4
      ensures SummarySeries[i][..2] == MainRetention.RetentionLegend[i][|MainRetention.RetentionLegend[i]| - 3..|MainRetention.RetentionLegend[i]| - 1]
    {
      var p, l := SummarySeries[i], MainRetention.RetentionLegend[i];
      assert p[..2] == [p[0], p[1]] && l[|l| - 3..|l| - 1] == [l[|l| - 3], l[|l| - 2]];
    }
  }

  /** A series counts users without add-ons exactly when its legend entry says so. */
  lemma SummarySeriesKind()
    ensures forall i :: 0 <= i < 4 ==>
      (SummarySeries[i][6..9] == "no_" <==> MainRetention.RetentionLegend[i][6..13] == "without")
  {
    MainRetention.RetentionSeriesCorrespond();
    forall i | 0 <= i < 4
      ensures SummarySeries[i][6..9] == "no_" <==> MainRetention.RetentionLegend[i][6..13] == "without"
    {
      var p := SummarySeries[i];
      if i % 2 == 0 {
        assert p[6] == 'a';
      } else {
        assert p[6..9] == [p[6], p[7], p[8]];
      }
    }
  }

  /**
   * `split_by_params`: the days up to the cut-off, drawn as the four
   * series from the start of the month, linked to the other charts.
   */
  function SummaryRequest(rows: seq<Record>): (r: Request)
    ensures Data in r && r[Data] == PRows(SummaryRows(rows))
    ensures YAccessor in r && r[YAccessor] == PStrs(SummarySeries)
    ensures Legend in r && r[Legend] == PStrs(MainRetention.RetentionLegend)
    ensures Color in r && r[Color] == PStrs(MainRetention.SeriesColors)
    ensures MinX in r && r[MinX] == PDate(MinDate)
    ensures Linked in r && r[Linked] == PBool(true)
  {
    map[
      Target := PStr(".summary"),
      YNudge := PNum(3.0),
      ChartType := PStr("line"),
      MinY := PNum(0.0),
      MaxY := PNum(1.0),
      XLabel := PStr("Days Since Release"),
      YLabel := PStr("Percent Users on Given Version"),
      XAccessor := PStr("submission_date"),
      LegendTarget := PStr(".legendUptake"),
      AggregateRollover := PBool(true),
      Format := PStr("percentage"),
      XAxis := PBool(true),
      ShowSecondaryXLabel := PBool(false),
      XaxFormat := PFn("d3.timeFormat(%d)"),
      PointSize := PNum(5.0),
      FullWidth := PBool(true),
      Left := PNum(90.0),
      Right := PNum(90.0),
      Height := PNum(450.0),
      XMouseover := PFn("Days Since Release: day of d.key"),
      Linked := PBool(true),
      MinX := PDate(MinDate),
      Color := PStrs(MainRetention.SeriesColors),
      Legend := PStrs(MainRetention.RetentionLegend),
      YAccessor := PStrs(SummarySeries),
      Data := PRows(SummaryRows(rows))
    ]
  }

  /** The x axis starts before the cut-off: the month drawn is not empty. */
  lemma SummaryRangeNonEmpty()
    ensures MinDate < MaxDate
    ensures MaxDate - MinDate == 30 * 24 * 3600000
  {
  }

  /**
   * The page's callback after the data has loaded: the request, then the
   * legend entries drawn under `.legendUptake` rewritten in place.
   */
  method DrawSummary(rows: seq<Record>, spans: array<string>) returns (r: Request)
    modifies spans
    ensures r == SummaryRequest(rows)
    ensures forall i :: 0 <= i < spans.Length ==> spans[i] == MainRetention.RelabelLegend(old(spans[i]))
  {
    r := SummaryRequest(rows);
    MainRetention.UpdateLegend(spans);
  }
}
