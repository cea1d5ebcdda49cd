/**
 * The topline adoption page: the same eleven ratios as the per-channel
 * page, but only three charts (self-installed add-ons, legacy add-ons,
 * WebExtensions only), ESR annotated like release and not linked to the
 * other charts.
 */
module MainTopline {
  import opened Wrappers
  import opened Text
  import opened Values
  import opened Charts
  import Main

  /** The release annotations of this page: ESR shares release's, at 08:00 UTC. */
  function ToplineMarkers(channel: string): (r: seq<Marker>)
    ensures r == [Blank] <==> channel != "beta" && channel != "release" && channel != "esr"
    ensures channel == "beta" ==>
      |r| == 1 && r[0].Mark? && r[0].text == "Beta 57 Released" && r[0].ms == UtcMs(2017, 9, 26, 0)
    ensures channel == "release" || channel == "esr" ==>
      |r| == 2 && r[0].Mark? && r[1].Mark? && r[0].text == "ABP Migrated to WE" && r[1].text == "Release 57"
      && r[0].ms == UtcMs(2017, 11, 6, 8)
      && r[1].ms == r[0].ms + 8 * DayMs
    ensures forall m :: m in r && m.Mark? ==> m.field == "submission_date"
  {
    if channel == "beta" then
      [Mark("submission_date", UtcMs(2017, 9, 26, 0), "Beta 57 Released")]
    else if channel == "release" || channel == "esr" then
      [Mark("submission_date", UtcMs(2017, 11, 6, 8), "ABP Migrated to WE"),
       Mark("submission_date", UtcMs(2017, 11, 14, 8), "Release 57")]
    else [Blank]
  }

  /** `graphic(data, channel, target, tSuff, title, pct, num, denom)` of this page. */
  function Graphic(rows: seq<Record>, channel: string, target: string, tSuff: nat, title: string,
                   pct: string, num: string, denom: string): (r: Result<Request>)
    ensures r.Ok? <==> channel != []
    ensures r.Ok? ==>
      && r.value == Main.LineChart(rows, channel, target, tSuff, Main.ChartTitle(channel, title).value,
                                   pct, num, denom, ToplineMarkers(channel), channel != "esr")
      && r.value[Linked] == PBool(channel != "esr")
      && r.value[Title] == PStr("% " + (if StartsWith(title, "Users") then "TOTAL " else "")
                                  + Cap(channel) + " " + title)
  {
    match Main.ChartTitle(channel, title)
    case Err(f) => Err(f)
    case Ok(t) => Ok(Main.LineChart(rows, channel, target, tSuff, t, pct, num, denom, ToplineMarkers(channel), channel != "esr"))
  }

  /** The page's three charts, in drawing order: the per-channel page's charts 11, 3 and 5. */
  const ToplineSlots: seq<Main.Slot> := [Main.Slots[10], Main.Slots[2], Main.Slots[4]]

  /** The charts are numbered 11, 3 and 5, and each plots the ratio of the same number. */
  lemma ToplineSlotsOrder()
    ensures |ToplineSlots| == 3
    ensures ToplineSlots[0].n == 11 && ToplineSlots[1].n == 3 && ToplineSlots[2].n == 5
    ensures forall i :: 0 <= i < 3 ==>
      1 <= ToplineSlots[i].n <= |Main.Derivations|
      && Main.Derivations[ToplineSlots[i].n - 1]
           == Main.Derivation(ToplineSlots[i].pct, ToplineSlots[i].num, ToplineSlots[i].den)
  {
    Main.SlotsMatchDerivations();
  }

  /** The `graphic` calls of `slots` in order; the first one that throws ends the callback. */
  function SlotCharts(rows: seq<Record>, channel: string, target: string, slots: seq<Main.Slot>): Result<seq<Request>> {
    DrawAll(slots, (s: Main.Slot) =>
      Graphic(rows, channel, target, s.n, s.title, Main.NameText(s.pct), Main.NameText(s.num), Main.NameText(s.den)))
  }

  /** With a channel every call succeeds; without one the first call throws. */
  lemma SlotChartsOk(rows: seq<Record>, channel: string, target: string, slots: seq<Main.Slot>)
    ensures SlotCharts(rows, channel, target, slots).Ok? <==> channel != [] || slots == []
  {
    if slots != [] {
      var s := slots[0];
      var g := Graphic(rows, channel, target, s.n, s.title, Main.NameText(s.pct), Main.NameText(s.num), Main.NameText(s.den));
      assert g.Ok? <==> channel != [];
    }
  }

  /** The i-th chart drawn plots the slot's ratio, and its tooltip reads the two counts that ratio divides. */
  lemma ChartPlotsRatio(rows: seq<Record>, channel: string, target: string, slots: seq<Main.Slot>, i: nat)
    requires SlotCharts(rows, channel, target, slots).Ok? && i < |slots|
    ensures var q, s := SlotCharts(rows, channel, target, slots).value[i], slots[i];
      var d := Main.Derivation(s.pct, s.num, s.den);
      && YAccessor in q && q[YAccessor] == PStr(Main.RatioKey(channel, d))
      && YMouseover in q && q[YMouseover] == PRatioTip(Main.NumKey(channel, d), Main.DenKey(channel, d), Main.RatioKey(channel, d))
  {
    var s := slots[i];
    var g := Graphic(rows, channel, target, s.n, s.title, Main.NameText(s.pct), Main.NameText(s.num), Main.NameText(s.den));
    assert g == Ok(SlotCharts(rows, channel, target, slots).value[i]);
  }

  /** The i-th chart drawn goes to the slot's numbered target, linked unless the channel is ESR. */
  lemma ChartTargetLinked(rows: seq<Record>, channel: string, target: string, slots: seq<Main.Slot>, i: nat)
    requires SlotCharts(rows, channel, target, slots).Ok? && i < |slots|
    ensures var q := SlotCharts(rows, channel, target, slots).value[i];
      && Target in q && q[Target] == PStr(".graph" + target + NatToString(slots[i].n))
      && Linked in q && q[Linked] == PBool(channel != "esr")
  {
    var s := slots[i];
    var g := Graphic(rows, channel, target, s.n, s.title, Main.NameText(s.pct), Main.NameText(s.num), Main.NameText(s.den));
    assert g == Ok(SlotCharts(rows, channel, target, slots).value[i]);
  }

  /**
   * `channelGraph(channel, target)` after the data has loaded: the records
   * get the eleven ratios in place, then the three charts are requested.
   */
  method ChannelGraph(data: array<Record>, channel: string, target: string) returns (r: Result<seq<Request>>)
    modifies data
    ensures forall i :: 0 <= i < data.Length ==> data[i] == Main.DeriveRecord(old(data[i]), channel)
    ensures r == SlotCharts(data[..], channel, target, ToplineSlots)
  {
    Main.DeriveRatios(data, channel);
    r := SlotCharts(data[..], channel, target, ToplineSlots);
  }
}
