/**
 * The active-users page: one chart per release channel of the selected
 * activity metric (daily, weekly or monthly active users), annotated with
 * the days since the release for the weekly and monthly metrics.
 */
module Facetainer {
  import opened Wrappers
  import opened Text
  import opened Values
  import opened Charts

  /** The loaded file: each channel's days, under the channel's name. */
  type ChannelData = map<string, seq<Record>>

  /** `markers[metric]`: the annotations of a metric; a metric not in the table gives `undefined`. */
  function FacetMarkers(metric: string): (r: Param)
    ensures r == PUndef <==> metric != "dau" && metric != "wau" && metric != "mau"
    ensures metric == "dau" ==> r == PMarkers([])
    ensures metric == "wau" || metric == "mau" ==> r.PMarkers? && |r.marks| == 1 && r.marks[0].Mark?
  {
    if metric == "dau" then PMarkers([])
    else if metric == "wau" then PMarkers([Mark("date", UtcMs(2018, 4, 3, 8), "7 Days since Release")])
    else if metric == "mau" then PMarkers([Mark("date", UtcMs(2018, 4, 24, 8), "28 Days since Release")])
    else PUndef
  }

  /**
   * The weekly and monthly annotations count days from the same release
   * day: 7 and 28 days after 2018-03-27 at 08:00 UTC.
   */
  lemma FacetMarkersSameRelease()
    ensures var w, m := FacetMarkers("wau").marks[0], FacetMarkers("mau").marks[0];
      && w.text == "7 Days since Release" && w.ms == UtcMs(2018, 3, 27, 8) + 7 * DayMs
      && m.text == "28 Days since Release" && m.ms == UtcMs(2018, 3, 27, 8) + 28 * DayMs
  {
  }

  /** `'.' + channel`: the chart's target. */
  function ChannelTarget(channel: string): string {
    "." + channel
  }

  /** Distinct channels draw into distinct targets. */
  lemma ChannelTargetInjective(a: string, b: string)
    ensures ChannelTarget(a) == ChannelTarget(b) <==> a == b
  {
    if ChannelTarget(a) == ChannelTarget(b) {
      assert a == ChannelTarget(a)[1..];
    }
  }

  /** `cap(channel) + ' ' + metric.toUpperCase()`. */
  function FacetTitle(channel: string, metric: string): string {
    Cap(channel) + " " + Upper(metric)
  }

  /**
   * The title is the capitalised channel, a space and the metric in
   * capitals: the channel is the title up to its first space when the
   * channel has none.
   */
  lemma FacetTitleParts(channel: string, metric: string)
    requires !Contains(channel, " ")
    ensures var t := FacetTitle(channel, metric);
      && IndexOf(t, " ") == |channel|
      && t[..|channel|] == Cap(channel)
      && t[|channel| + 1..] == Upper(metric)
  {
    var t := FacetTitle(channel, metric);
    var c := Cap(channel);
    assert t[..|channel|] == c;
    assert t[|channel| + 1..] == Upper(metric);
    assert OccursAt(t, " ", |channel|);
    forall i | 0 <= i < |channel| ensures t[i] != ' ' {
      assert !OccursAt(channel, " ", i);
      assert channel[i] != ' ';
      if i == 0 {
        assert t[0] == UpperChar(channel[0]);
      } else {
        assert t[i] == channel[i];
      }
    }
    IndexOfFirstChar(t, " ", |channel|);
  }

  /**
   * `channelGraphFacetainer(channel, metric)` after the data has loaded.
   * A channel missing from the file leaves `undefined` to the date
   * conversion, which throws.
   */
  function Graph(data: ChannelData, channel: string, metric: string): (r: Result<Request>)
    ensures r.Ok? <==> channel in data
    ensures r.Err? ==> r.fault.TypeError?
    ensures r.Ok? ==>
      && Data in r.value && r.value[Data] == PRows(data[channel])
      && YAccessor in r.value && r.value[YAccessor] == PStr(metric)
      && Markers in r.value && r.value[Markers] == FacetMarkers(metric)
      && Title in r.value && r.value[Title] == PStr(FacetTitle(channel, metric))
      && Target in r.value && r.value[Target] == PStr(ChannelTarget(channel))
  {
    if channel !in data then Err(TypeError("data[channel] is undefined"))
    else
      Ok(map[
        ChartType := PStr("line"),
        Linked := PBool(true),
        XLabel := PStr("date"),
        XAccessor := PStr("date"),
        XAxis := PBool(true),
        FullWidth := PBool(true),
        PointSize := PNum(5.0),
        Height := PNum(250.0),
        Interpolate := PFn("d3.curveLinear"),
        Right := PNum(200.0),
        Markers := FacetMarkers(metric),
        Title := PStr(FacetTitle(channel, metric)),
        Target := PStr(ChannelTarget(channel)),
        YAccessor := PStr(metric),
        Data := PRows(data[channel])
      ])
  }

  /** The channels `draw` requests, in order. */
  const FacetChannels: seq<string> := ["release", "beta", "nightly", "esr"]

  /**
   * `draw(metric)`: one chart per channel with the same metric. Each call
   * loads the file on its own, so one channel's failure does not stop the
   * others. A button click draws with the button's metric, and the page
   * starts with `draw('dau')`.
   */
  function Draw(data: ChannelData, metric: string): (r: seq<Result<Request>>)
    ensures |r| == |FacetChannels|
  {
    seq(|FacetChannels|, i requires 0 <= i < |FacetChannels| => Graph(data, FacetChannels[i], metric))
  }

  /**
   * Every channel in the file gets its chart, each in its own target,
   * all of the one metric; the channels missing from the file fail alone.
   */
  lemma DrawCharts(data: ChannelData, metric: string, i: nat)
    requires i < |FacetChannels|
    ensures var r := Draw(data, metric)[i];
      && (r.Ok? <==> FacetChannels[i] in data)
      && (r.Ok? ==> r.value[YAccessor] == PStr(metric) && r.value[Target] == PStr(ChannelTarget(FacetChannels[i])))
  {
  }

  /** The four charts go to four different targets. */
  lemma DrawTargetsDistinct(data: ChannelData, metric: string, i: nat, j: nat)
    requires i < j < |FacetChannels|
    requires Draw(data, metric)[i].Ok? && Draw(data, metric)[j].Ok?
    ensures Draw(data, metric)[i].value[Target] != Draw(data, metric)[j].value[Target]
  {
    var ci, cj := FacetChannels[i], FacetChannels[j];
    assert ci != cj by {
      assert ci[0] != cj[0] || |ci| != |cj|;
    }
    ChannelTargetInjective(ci, cj);
  }
}
