/**
 * The ESR topline chart: the days that have an ESR user count get the
 * self-installed add-on ratio of the requested channel, and the ESR total
 * and add-on user counts of those days are drawn as two series.
 */
module MainToplineEsr {
  import opened Wrappers
  import opened Values
  import opened Charts
  import Main

  /** The field the loop tests; it does not depend on the channel argument. */
  const EsrTotal: string := "esr_total"

  /** `if (data[i]['esr_total'])`: the day has an ESR total that is present and not 0. */
  predicate HasEsrTotal(rec: Record) {
    Truthy(Get(rec, EsrTotal))
  }

  /** The one ratio this page assigns: the channel's add-on users over its total users. */
  const EsrRatio: Main.Derivation := Main.Derivation(Main.AddonsTotal, Main.Addons, Main.Total)

  /** The record after `data[i][pct_channel + "_addons_total"] = ...`. */
  function EsrDerive(rec: Record, channel: string): Record {
    var a := Main.Assign(channel, EsrRatio);
    rec[a.key := Quot(Get(rec, a.num), Get(rec, a.den))]
  }

  /** The assignment adds the ratio's key, holding the quotient of the two counts, and changes nothing else. */
  lemma EsrDeriveSpec(rec: Record, channel: string)
    ensures var r, key := EsrDerive(rec, channel), Main.RatioKey(channel, EsrRatio);
      && r.Keys == rec.Keys + {key}
      && r[key] == Quot(Get(rec, channel + "_addons"), Get(rec, channel + "_total"))
      && forall k :: k in rec && k != key ==> r[k] == rec[k]
  {
    assert Main.NameText(Main.Addons) == "_addons" && Main.NameText(Main.Total) == "_total";
  }

  /**
   * The ratio's key starts with `pct_`, so it is never the tested field:
   * assigning it does not change whether a day has an ESR total.
   */
  lemma EsrDeriveKeepsTest(rec: Record, channel: string)
    ensures HasEsrTotal(EsrDerive(rec, channel)) == HasEsrTotal(rec)
  {
    var key := Main.RatioKey(channel, EsrRatio);
    assert key[0] == 'p' && EsrTotal[0] == 'e';
  }

  /** `new_data`: the days with an ESR total, in order, each with the ratio assigned. */
  function EsrData(rows: seq<Record>, channel: string): seq<Record> {
    if rows == [] then []
    else
      var last := rows[|rows| - 1];
      EsrData(rows[..|rows| - 1], channel) + (if HasEsrTotal(last) then [EsrDerive(last, channel)] else [])
  }

  /**
   * `new_data` is the order-preserving filter of the days on their ESR
   * total, each kept day with the ratio assigned.
   */
  lemma {:induction false} EsrDataIsFilter(rows: seq<Record>, channel: string)
    ensures var kept := Filter(rows, HasEsrTotal);
      |EsrData(rows, channel)| == |kept|
      && forall k :: 0 <= k < |kept| ==> EsrData(rows, channel)[k] == EsrDerive(kept[k], channel)
  {
    if rows != [] {
      var init := rows[..|rows| - 1];
      EsrDataIsFilter(init, channel);
      var kept0, kept := Filter(init, HasEsrTotal), Filter(rows, HasEsrTotal);
      forall k | 0 <= k < |kept| ensures EsrData(rows, channel)[k] == EsrDerive(kept[k], channel) {
        if k < |kept0| {
          assert kept[k] == kept0[k];
        }
      }
    }
  }

  /**
   * The days drawn are exactly the days with an ESR total, in their
   * original order: the i-th one drawn comes from day `ix[i]`, the days
   * increase, and no day with an ESR total is skipped.
   */
  lemma EsrDataDays(rows: seq<Record>, channel: string)
    ensures var r, ix := EsrData(rows, channel), KeptIndices(rows, HasEsrTotal);
      && |r| == |ix|
      && (forall k :: 0 <= k < |ix| ==> ix[k] < |rows| && HasEsrTotal(rows[ix[k]]) && r[k] == EsrDerive(rows[ix[k]], channel))
      && (forall k, l :: 0 <= k < l < |ix| ==> ix[k] < ix[l])
      && (forall i :: 0 <= i < |rows| && HasEsrTotal(rows[i]) ==> i in ix)
  {
    FilterExact(rows, HasEsrTotal);
    EsrDataIsFilter(rows, channel);
  }

  /** The two series drawn, and their legend entries in the same order. */
  const EsrSeries: seq<string> := [EsrTotal, "esr_addons"]
  const EsrLegend: seq<string> := ["Total", "Add-ons Users"]

  /** The Release 57 annotation, and the baseline ESR add-on user count. */
  const EsrMarkers: seq<Marker> := [Mark("submission_date", UtcMs(2017, 11, 14, 8), "Release 57")]
  const EsrBaselines: seq<Baseline> := [Baseline(3568949, "Baseline ESR Add-on User Count")]

  /** The request: the collected days, drawn as the two series, not linked to other charts. */
  function EsrChart(rows: seq<Record>): (r: Request)
    ensures Data in r && r[Data] == PRows(rows)
    ensures YAccessor in r && r[YAccessor] == PStrs(EsrSeries)
    ensures Legend in r && r[Legend] == PStrs(EsrLegend)
    ensures Markers in r && r[Markers] == PMarkers(EsrMarkers)
    ensures Baselines in r && r[Baselines] == PBaselines(EsrBaselines)
    ensures Linked in r && r[Linked] == PBool(false)
  {
    map[
      Target := PStr(".graphe12"),
      Title := PStr("ESR User Counts Since 57 Release"),
      AggregateRollover := PBool(true),
      ChartType := PStr("line"),
      XLabel := PStr("submission_date"),
      XAccessor := PStr("submission_date"),
      XAxis := PBool(true),
      FullWidth := PBool(true),
      PointSize := PNum(5.0),
      Height := PNum(400.0),
      Interpolate := PFn("d3.curveLinear"),
      Right := PNum(200.0),
      Linked := PBool(false),
      Markers := PMarkers(EsrMarkers),
      Baselines := PBaselines(EsrBaselines),
      Legend := PStrs(EsrLegend),
      YAccessor := PStrs(EsrSeries),
      Data := PRows(rows)
    ]
  }

  /** One step of the loop: the next day is collected, with its ratio, exactly when it has an ESR total. */
  lemma EsrDataNext(rows: seq<Record>, channel: string, i: nat)
    requires i < |rows|
    ensures EsrData(rows[..i + 1], channel)
      == EsrData(rows[..i], channel) + (if HasEsrTotal(rows[i]) then [EsrDerive(rows[i], channel)] else [])
  {
    assert rows[..i + 1][..i] == rows[..i];
  }

  /** What the loop leaves in a day's record: the ratio assigned when the day has an ESR total. */
  function EsrVisit(rec: Record, channel: string): Record {
    if HasEsrTotal(rec) then EsrDerive(rec, channel) else rec
  }

  /**
   * The `for (i in data)` loop: each day with an ESR total gets the ratio
   * in place and is collected, the others are left as they were.
   */
  method CollectEsrDays(data: array<Record>, channel: string) returns (newData: seq<Record>)
    modifies data
    ensures forall i :: 0 <= i < data.Length ==> data[i] == EsrVisit(old(data[i]), channel)
    ensures newData == EsrData(old(data[..]), channel)
  {
    ghost var before := data[..];
    newData := [];
    for i := 0 to data.Length
      invariant forall j :: 0 <= j < i ==> data[j] == EsrVisit(before[j], channel)
      invariant forall j :: i <= j < data.Length ==> data[j] == before[j]
      invariant newData == EsrData(before[..i], channel)
    {
      ghost var prev := data[..];
      EsrDataNext(before, channel, i);
      var rec := data[i];
      if HasEsrTotal(rec) {
        var derived := EsrDerive(rec, channel);
        data[i] := derived;
        newData := newData + [derived];
      }
      assert forall j :: 0 <= j < data.Length && j != i ==> data[j] == prev[j];
    }
    assert before[..data.Length] == before;
  }

  /**
   * `channelGraphESR(channel, target)` after the data has loaded: the
   * collected days are drawn. The target argument is not used: the chart
   * always goes to `.graphe12`.
   */
  method ChannelGraphEsr(data: array<Record>, channel: string, target: string) returns (newData: seq<Record>, r: Request)
    modifies data
    ensures forall i :: 0 <= i < data.Length ==> data[i] == EsrVisit(old(data[i]), channel)
    ensures newData == EsrData(old(data[..]), channel)
    ensures r == EsrChart(newData)
  {
    newData := CollectEsrDays(data, channel);
    r := EsrChart(newData);
  }
}
