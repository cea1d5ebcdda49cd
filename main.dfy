/**
 * The per-channel add-on adoption page: for every day's record it derives
 * eleven ratios of add-on user counts, then draws one line chart per ratio
 * the channel shows (nightly and the other channels show different sets).
 */
module Main {
  import opened Wrappers
  import opened Text
  import opened Values
  import opened Charts

  /** `channel[0].toUpperCase() + channel.substring(1)`; indexing an empty string gives `undefined`, which throws. */
  function ChannelTitle(channel: string): (r: Result<string>)
    ensures r.Ok? <==> channel != []
    ensures r.Ok? ==> r.value == Cap(channel)
  {
    if channel == [] then Err(TypeError("channel[0] is undefined"))
    else Ok([UpperChar(channel[0])] + Substring(channel, 1, |channel|))
  }

  /** `title.substr(0, 5) == "Users"`: the charts of all users (rather than of add-on users) get a TOTAL prefix. */
  predicate CountsAllUsers(title: string) {
    Substring(title, 0, 5) == "Users"
  }

  /** The chart title: "% ", TOTAL for all-user ratios, the capitalised channel, then the ratio's title. */
  function ChartTitle(channel: string, title: string): (r: Result<string>)
    ensures r.Ok? <==> channel != []
    ensures r.Ok? ==>
      r.value == "% " + (if StartsWith(title, "Users") then "TOTAL " else "") + Cap(channel) + " " + title
  {
    match ChannelTitle(channel)
    case Err(f) => Err(f)
    case Ok(ct) =>
      SubstringStart(title, "Users");
      var display := ct + " " + title;
      Ok("% " + (if CountsAllUsers(title) then "TOTAL " + display else display))
  }

  /** The x-axis label: nightly data is keyed by build date, the others by submission date. */
  function AxisLabel(channel: string): (r: string)
    ensures r == "Build Id Date" <==> channel == "nightly"
    ensures r != "Build Id Date" ==> r == "Submission Date"
  {
    if channel == "nightly" then "Build Id Date" else "Submission Date"
  }

  /**
   * The release annotations: beta gets the Beta 57 release of 2017-09-26,
   * release the add-on migration of 2017-11-06 and, eight days later,
   * Release 57; other channels get the empty object.
   */
  function ReleaseMarkers(channel: string): (r: seq<Marker>)
    ensures r == [Blank] <==> channel != "beta" && channel != "release"
    ensures channel == "beta" ==>
      |r| == 1 && r[0].Mark? && r[0].text == "Beta 57" && r[0].ms == UtcMs(2017, 9, 26, 0)
    ensures channel == "release" ==>
      && |r| == 2 && r[0].Mark? && r[1].Mark?
      && r[0].text == "ABP Migrated to WE" && r[0].ms == UtcMs(2017, 11, 6, 0)
      && r[1].text == "Release 57" && r[1].ms == r[0].ms + 8 * DayMs
    ensures forall m :: m in r && m.Mark? ==> m.field == "submission_date"
  {
    if channel == "beta" then
      [Mark("submission_date", UtcMs(2017, 9, 26, 0), "Beta 57")]
    else if channel == "release" then
      [Mark("submission_date", UtcMs(2017, 11, 6, 0), "ABP Migrated to WE"),
       Mark("submission_date", UtcMs(2017, 11, 14, 0), "Release 57")]
    else [Blank]
  }

  /** The name under which the ratio with suffix `suffix` is stored on a record. */
  function DerivedKey(channel: string, suffix: string): string {
    "pct_" + channel + suffix
  }

  /**
   * The options of one ratio chart, for a page's own title, markers and
   * link flag: the y accessor is the derived ratio, and the tooltip shows
   * the two counts it was derived from.
   */
  function LineChart(rows: seq<Record>, channel: string, target: string, tSuff: nat, title: string,
                     pct: string, num: string, denom: string, markers: seq<Marker>, linked: bool): (r: Request)
    ensures YAccessor in r && r[YAccessor] == PStr(DerivedKey(channel, pct))
    ensures YMouseover in r && r[YMouseover] == PRatioTip(channel + num, channel + denom, DerivedKey(channel, pct))
    ensures Target in r && r[Target] == PStr(".graph" + target + NatToString(tSuff))
    ensures Title in r && r[Title] == PStr(title)
    ensures XLabel in r && r[XLabel] == PStr(AxisLabel(channel))
    ensures Data in r && r[Data] == PRows(rows)
    ensures Markers in r && r[Markers] == PMarkers(markers)
    ensures Linked in r && r[Linked] == PBool(linked)
  {
    map[
      Target := PStr(".graph" + target + NatToString(tSuff)),
      Title := PStr(title),
      Data := PRows(rows),
      ChartType := PStr("line"),
      Linked := PBool(linked),
      XLabel := PStr(AxisLabel(channel)),
      XAccessor := PStr("submission_date"),
      YAccessor := PStr("pct_" + channel + pct),
      Format := PStr("percentage"),
      XAxis := PBool(true),
      FullWidth := PBool(true),
      PointSize := PNum(5.0),
      Interpolate := PFn("d3.curveLinear"),
      Right := PNum(100.0),
      Markers := PMarkers(markers),
      YMouseover := PRatioTip(channel + num, channel + denom, "pct_" + channel + pct)
    ]
  }

  /** `graphic(data, channel, target, tSuff, title, pct, num, denom)` of this page. */
  function Graphic(rows: seq<Record>, channel: string, target: string, tSuff: nat, title: string,
                   pct: string, num: string, denom: string): (r: Result<Request>)
    ensures r.Ok? <==> channel != []
    ensures r.Ok? ==>
      && r.value == LineChart(rows, channel, target, tSuff, ChartTitle(channel, title).value,
                              pct, num, denom, ReleaseMarkers(channel), true)
      && r.value[Title] == PStr("% " + (if StartsWith(title, "Users") then "TOTAL " else "")
                                  + Cap(channel) + " " + title)
  {
    match ChartTitle(channel, title)
    case Err(f) => Err(f)
    case Ok(t) => Ok(LineChart(rows, channel, target, tSuff, t, pct, num, denom, ReleaseMarkers(channel), true))
  }

  /** The names the ratios are built from: the suffix of a derived ratio, or of a count it divides. */
  datatype Name =
    | Webext | AddonsWebext | AnyLegacy | AddonsAnyLegacy | OnlyWebext | AddonsOnlyWebext
    | OnlyLevel1 | AddonsOnlyLevel1 | OnlyLevel12 | AddonsOnlyLevel12 | AddonsTotal
    | AnyWebext | Total | Addons

  /** The name as the page writes it, appended to the channel. */
  function NameText(n: Name): string {
    match n
    case Webext => "_webext"
    case AddonsWebext => "_addons_webext"
    case AnyLegacy => "_any_legacy"
    case AddonsAnyLegacy => "_addons_any_legacy"
    case OnlyWebext => "_only_webext"
    case AddonsOnlyWebext => "_addons_only_webext"
    case OnlyLevel1 => "_only_level1"
    case AddonsOnlyLevel1 => "_addons_only_level1"
    case OnlyLevel12 => "_only_level12"
    case AddonsOnlyLevel12 => "_addons_only_level12"
    case AddonsTotal => "_addons_total"
    case AnyWebext => "_any_webext"
    case Total => "_total"
    case Addons => "_addons"
  }

  /** No name has a `p`. */
  lemma NameTextNoP(n: Name)
    ensures 'p' !in NameText(n)
  {
  }

  /** Different names are written differently. */
  lemma NameTextInjective(a: Name, b: Name)
    ensures NameText(a) == NameText(b) ==> a == b
  {
  }

  /** One derived ratio: `pct_<channel><suffix> = <channel><num> / <channel><den>`. */
  datatype Derivation = Derivation(suffix: Name, num: Name, den: Name)

  /** The eleven ratios, in the order the page assigns them. */
  const Derivations: seq<Derivation> := [
    Derivation(Webext, AnyWebext, Total),
    Derivation(AddonsWebext, AnyWebext, Addons),
    Derivation(AnyLegacy, AnyLegacy, Total),
    Derivation(AddonsAnyLegacy, AnyLegacy, Addons),
    Derivation(OnlyWebext, OnlyWebext, Total),
    Derivation(AddonsOnlyWebext, OnlyWebext, Addons),
    Derivation(OnlyLevel1, OnlyLevel1, Total),
    Derivation(AddonsOnlyLevel1, OnlyLevel1, Addons),
    Derivation(OnlyLevel12, OnlyLevel12, Total),
    Derivation(AddonsOnlyLevel12, OnlyLevel12, Addons),
    Derivation(AddonsTotal, Addons, Total)
  ]

  /** The key a ratio is stored under, and the keys of the counts it divides. */
  function RatioKey(channel: string, d: Derivation): string {
    DerivedKey(channel, NameText(d.suffix))
  }

  function NumKey(channel: string, d: Derivation): string {
    channel + NameText(d.num)
  }

  function DenKey(channel: string, d: Derivation): string {
    channel + NameText(d.den)
  }

  /** No two entries of a table write the same key. */
  predicate WellFormed(ds: seq<Derivation>) {
    forall i, j :: 0 <= i < j < |ds| ==> ds[i].suffix != ds[j].suffix
  }

  /** The page's table is well formed. */
  lemma DerivationsWellFormed()
    ensures WellFormed(Derivations)
  {
  }

  /** One assignment `rec[key] = rec[num] / rec[den]`, its keys spelled out. */
  datatype Assignment = Assignment(key: string, num: string, den: string)

  function Assign(channel: string, d: Derivation): Assignment {
    Assignment(RatioKey(channel, d), NumKey(channel, d), DenKey(channel, d))
  }

  /** The page's eleven assignments for `channel`, in table order. */
  function Assignments(channel: string): seq<Assignment> {
    seq(|Derivations|, i requires 0 <= i < |Derivations| => Assign(channel, Derivations[i]))
  }

  /** The record after the first `n` assignments of `steps`, made one after another. */
  function DeriveN(rec: Record, steps: seq<Assignment>, n: nat): Record
    requires n <= |steps|
  {
    if n == 0 then rec
    else
      var prev := DeriveN(rec, steps, n - 1);
      var a := steps[n - 1];
      prev[a.key := Quot(Get(prev, a.num), Get(prev, a.den))]
  }

  /** The record after the page's eleven assignments. */
  function DeriveRecord(rec: Record, channel: string): Record {
    DeriveN(rec, Assignments(channel), |Derivations|)
  }

  /** The keys the assignments of `steps` write. */
  function Written(steps: seq<Assignment>): set<string> {
    set a | a in steps :: a.key
  }

  /** The keys the ratios of the page's table are stored under. */
  function DerivedKeys(channel: string): set<string> {
    set d | d in Derivations :: RatioKey(channel, d)
  }

  /** No assignment writes a key another one reads, and no two write the same key. */
  predicate Independent(steps: seq<Assignment>) {
    && (forall i, j :: 0 <= i < |steps| && 0 <= j < |steps| ==> steps[i].key != steps[j].num && steps[i].key != steps[j].den)
    && (forall i, j :: 0 <= i < j < |steps| ==> steps[i].key != steps[j].key)
  }

  /**
   * A derived key has one more `p` than any key a ratio reads, so an
   * assignment never overwrites a count that a later ratio divides.
   */
  lemma DerivedKeyFresh(channel: string, suffix: string, field: string)
    requires 'p' !in suffix && 'p' !in field
    ensures DerivedKey(channel, suffix) != channel + field
  {
    CountConcat("pct_", channel, 'p');
    CountConcat("pct_" + channel, suffix, 'p');
    CountConcat(channel, field, 'p');
    CountAbsent(suffix, 'p');
    CountAbsent(field, 'p');
    assert Count("pct_", 'p') == 1 by {
      assert "pct_" == ['p'] + "ct_";
      CountConcat(['p'], "ct_", 'p');
      CountAbsent("ct_", 'p');
      assert ['p'][..0] == [];
    }
  }

  /** No ratio is stored under the key of a count. */
  lemma RatioKeyFresh(channel: string, d: Derivation, field: Name)
    ensures RatioKey(channel, d) != channel + NameText(field)
  {
    NameTextNoP(d.suffix);
    NameTextNoP(field);
    DerivedKeyFresh(channel, NameText(d.suffix), NameText(field));
  }

  /** Ratios with different suffixes are stored under different keys. */
  lemma RatioKeyInjective(channel: string, d1: Derivation, d2: Derivation)
    ensures RatioKey(channel, d1) == RatioKey(channel, d2) ==> d1.suffix == d2.suffix
  {
    var n := |"pct_" + channel|;
    assert RatioKey(channel, d1)[n..] == NameText(d1.suffix);
    assert RatioKey(channel, d2)[n..] == NameText(d2.suffix);
    NameTextInjective(d1.suffix, d2.suffix);
  }

  /** For every channel, the page's assignments are independent of each other. */
  lemma AssignmentsIndependent(channel: string)
    ensures Independent(Assignments(channel))
  {
    var steps := Assignments(channel);
    DerivationsWellFormed();
    forall i, j | 0 <= i < |steps| && 0 <= j < |steps|
      ensures steps[i].key != steps[j].num && steps[i].key != steps[j].den
    {
      RatioKeyFresh(channel, Derivations[i], Derivations[j].num);
      RatioKeyFresh(channel, Derivations[i], Derivations[j].den);
    }
    forall i, j | 0 <= i < j < |steps| ensures steps[i].key != steps[j].key {
      RatioKeyInjective(channel, Derivations[i], Derivations[j]);
    }
  }

  lemma WrittenSnoc(steps: seq<Assignment>, n: nat)
    requires 0 < n <= |steps|
    ensures Written(steps[..n]) == Written(steps[..n - 1]) + {steps[n - 1].key}
  {
    assert steps[..n] == steps[..n - 1] + [steps[n - 1]];
    assert forall e :: e in steps[..n] <==> e in steps[..n - 1] || e == steps[n - 1];
  }

  /** The assignments add exactly the keys they write. */
  lemma {:induction false} DeriveNKeys(rec: Record, steps: seq<Assignment>, n: nat)
    requires n <= |steps|
    ensures DeriveN(rec, steps, n).Keys == rec.Keys + Written(steps[..n])
  {
    if n > 0 {
      DeriveNKeys(rec, steps, n - 1);
      WrittenSnoc(steps, n);
    } else {
      assert steps[..0] == [];
    }
  }

  /** A field that no assignment writes keeps its value. */
  lemma {:induction false} DeriveNKeeps(rec: Record, steps: seq<Assignment>, n: nat, k: string)
    requires n <= |steps|
    requires k in rec && k !in Written(steps[..n])
    ensures k in DeriveN(rec, steps, n) && DeriveN(rec, steps, n)[k] == rec[k]
  {
    if n > 0 {
      WrittenSnoc(steps, n);
      DeriveNKeeps(rec, steps, n - 1, k);
    }
  }

  /** A key no assignment writes reads the same before and after them. */
  lemma {:induction false} DeriveNReadsOriginal(rec: Record, steps: seq<Assignment>, n: nat, field: string)
    requires n <= |steps|
    requires forall k :: 0 <= k < n ==> steps[k].key != field
    ensures Get(DeriveN(rec, steps, n), field) == Get(rec, field)
  {
    if n > 0 {
      DeriveNReadsOriginal(rec, steps, n - 1, field);
    }
  }

  /**
   * With independent assignments every ratio is the quotient of the counts
   * the record held BEFORE any assignment: no assignment disturbs another's
   * inputs or result.
   */
  lemma {:induction false} DeriveNValue(rec: Record, steps: seq<Assignment>, n: nat, i: nat)
    requires Independent(steps) && i < n <= |steps|
    ensures steps[i].key in DeriveN(rec, steps, n)
    ensures DeriveN(rec, steps, n)[steps[i].key] == Quot(Get(rec, steps[i].num), Get(rec, steps[i].den))
  {
    if i == n - 1 {
      forall k | 0 <= k < n - 1 ensures steps[k].key != steps[i].num && steps[k].key != steps[i].den {
      }
      DeriveNReadsOriginal(rec, steps, n - 1, steps[i].num);
      DeriveNReadsOriginal(rec, steps, n - 1, steps[i].den);
    } else {
      DeriveNValue(rec, steps, n - 1, i);
      assert steps[i].key != steps[n - 1].key;
    }
  }

  /**
   * What the page's eleven assignments do to one record: the derived keys
   * are added, each holding the ratio of the record's original counts, and
   * every other field is unchanged.
   */
  lemma DeriveRecordSpec(rec: Record, channel: string)
    ensures DeriveRecord(rec, channel).Keys == rec.Keys + DerivedKeys(channel)
    ensures forall d :: d in Derivations ==>
      DeriveRecord(rec, channel)[RatioKey(channel, d)]
        == Quot(Get(rec, NumKey(channel, d)), Get(rec, DenKey(channel, d)))
    ensures forall k :: k in rec && k !in DerivedKeys(channel) ==> DeriveRecord(rec, channel)[k] == rec[k]
  {
    var steps, n := Assignments(channel), |Derivations|;
    assert steps[..n] == steps;
    assert Written(steps) == DerivedKeys(channel) by {
      forall k | k in DerivedKeys(channel) ensures k in Written(steps) {
        var d :| d in Derivations && k == RatioKey(channel, d);
        var i :| 0 <= i < n && Derivations[i] == d;
        assert steps[i].key == k;
      }
    }
    AssignmentsIndependent(channel);
    DeriveNKeys(rec, steps, n);
    forall d | d in Derivations
      ensures DeriveRecord(rec, channel)[RatioKey(channel, d)]
        == Quot(Get(rec, NumKey(channel, d)), Get(rec, DenKey(channel, d)))
    {
      var i :| 0 <= i < n && Derivations[i] == d;
      DeriveNValue(rec, steps, n, i);
    }
    forall k | k in rec && k !in DerivedKeys(channel) ensures DeriveRecord(rec, channel)[k] == rec[k] {
      DeriveNKeeps(rec, steps, n, k);
    }
  }

  /** The counts the ratios read are never among the derived keys, so the assignments keep them. */
  lemma DeriveKeepsCounts(rec: Record, channel: string, field: Name)
    ensures Get(DeriveRecord(rec, channel), channel + NameText(field)) == Get(rec, channel + NameText(field))
  {
    var steps := Assignments(channel);
    forall k | 0 <= k < |steps| ensures steps[k].key != channel + NameText(field) {
      RatioKeyFresh(channel, Derivations[k], field);
    }
    DeriveNReadsOriginal(rec, steps, |steps|, channel + NameText(field));
  }

  /** The eleven assignments to one record, in table order. */
  method DeriveInto(rec: Record, channel: string) returns (r: Record)
    ensures r == DeriveRecord(rec, channel)
  {
    var steps := Assignments(channel);
    r := rec;
    for k := 0 to |steps|
      invariant r == DeriveN(rec, steps, k)
    {
      var a := steps[k];
      r := r[a.key := Quot(Get(r, a.num), Get(r, a.den))];
    }
  }

  /** The loop over the day records, assigning the eleven ratios to each in place. */
  method DeriveRatios(data: array<Record>, channel: string)
    modifies data
    ensures forall i :: 0 <= i < data.Length ==> data[i] == DeriveRecord(old(data[i]), channel)
  {
    ghost var before := data[..];
    for i := 0 to data.Length
      invariant forall j :: 0 <= j < i ==> data[j] == DeriveRecord(before[j], channel)
      invariant forall j :: i <= j < data.Length ==> data[j] == before[j]
    {
      var r := DeriveInto(data[i], channel);
      data[i] := r;
    }
  }

  /** When each chart is drawn. */
  datatype When = Always | OnlyNightly | NotNightly

  /** One `graphic(...)` call of the page: chart number, title, ratio suffix and the fields it divides. */
  datatype Slot = Slot(n: nat, title: string, pct: Name, num: Name, den: Name, when: When)

  /** The page's charts in drawing order. */
  const Slots: seq<Slot> := [
    Slot(1, "Users with 1+ WebExtensions", Webext, AnyWebext, Total, OnlyNightly),
    Slot(2, "Add-on Users with 1+ WebExtensions", AddonsWebext, AnyWebext, Addons, NotNightly),
    Slot(3, "Users with 1+ Legacy Add-Ons", AnyLegacy, AnyLegacy, Total, Always),
    Slot(4, "Add-on Users with 1+ Legacy Add-Ons", AddonsAnyLegacy, AnyLegacy, Addons, NotNightly),
    Slot(5, "Users with ONLY WebExtensions", OnlyWebext, OnlyWebext, Total, Always),
    Slot(6, "Add-on Users with ONLY WebExtensions", AddonsOnlyWebext, OnlyWebext, Addons, NotNightly),
    Slot(7, "Users with ONLY Level 1 Add-ons", OnlyLevel1, OnlyLevel1, Total, OnlyNightly),
    Slot(8, "Add-on Users with ONLY Level 1 Add-ons", AddonsOnlyLevel1, OnlyLevel1, Addons, NotNightly),
    Slot(9, "Users with ONLY Level 1 or 2 Add-ons", OnlyLevel12, OnlyLevel12, Total, OnlyNightly),
    Slot(10, "Add-on Users with ONLY Level 1 or 2 Add-ons", AddonsOnlyLevel12, OnlyLevel12, Addons, NotNightly),
    Slot(11, "Users with Self-Installed Add-ons", AddonsTotal, Addons, Total, Always)
  ]

  /** Chart k + 1 plots the k-th derived ratio, with the same fields in its tooltip. */
  lemma SlotsMatchDerivations()
    ensures |Slots| == |Derivations|
    ensures forall k :: 0 <= k < |Slots| ==>
      Slots[k].n == k + 1 && Derivations[k] == Derivation(Slots[k].pct, Slots[k].num, Slots[k].den)
  {
  }

  predicate Drawn(s: Slot, channel: string) {
    match s.when
    case Always => true
    case OnlyNightly => channel == "nightly"
    case NotNightly => channel != "nightly"
  }

  /** The charts the page draws for `channel`, in order. */
  function SlotsFor(channel: string): seq<Slot> {
    Filter(Slots, s => Drawn(s, channel))
  }

  /** Nightly draws the odd-numbered charts, every other channel all but charts 1, 7 and 9. */
  lemma SlotsForChannel(channel: string)
    ensures forall k :: 0 <= k < |Slots| ==>
      (Drawn(Slots[k], channel) <==> if channel == "nightly" then Slots[k].n % 2 == 1 else Slots[k].n !in {1, 7, 9})
  {
  }

  /** The `graphic` calls of `slots` in order; the first one that throws ends the callback. */
  function SlotCharts(rows: seq<Record>, channel: string, target: string, slots: seq<Slot>): Result<seq<Request>> {
    DrawAll(slots, (s: Slot) => Graphic(rows, channel, target, s.n, s.title, NameText(s.pct), NameText(s.num), NameText(s.den)))
  }

  lemma SlotChartsOk(rows: seq<Record>, channel: string, target: string, slots: seq<Slot>)
    ensures SlotCharts(rows, channel, target, slots).Ok? <==> channel != [] || slots == []
  {
    if slots != [] {
      var g := Graphic(rows, channel, target, slots[0].n, slots[0].title, NameText(slots[0].pct), NameText(slots[0].num), NameText(slots[0].den));
      assert g.Ok? <==> channel != [];
    }
  }

  /**
   * `channelGraph(channel, target)` after the data has loaded: the records
   * get their ratios in place, then the channel's charts are requested.
   */
  method ChannelGraph(data: array<Record>, channel: string, target: string) returns (r: Result<seq<Request>>)
    modifies data
    ensures forall i :: 0 <= i < data.Length ==> data[i] == DeriveRecord(old(data[i]), channel)
    ensures r == SlotCharts(data[..], channel, target, SlotsFor(channel))
  {
    DeriveRatios(data, channel);
    r := SlotCharts(data[..], channel, target, SlotsFor(channel));
  }

  /**
   * The chart drawn for `Slots[k]` plots the k-th derived ratio, and its
   * tooltip reads the two counts that ratio was derived from.
   */
  lemma ChartPlotsRatio(rows: seq<Record>, channel: string, target: string, slots: seq<Slot>, i: nat, k: nat)
    requires SlotCharts(rows, channel, target, slots).Ok?
    requires i < |slots| && k < |Slots| && slots[i] == Slots[k]
    ensures var q := SlotCharts(rows, channel, target, slots).value[i];
      && YAccessor in q && q[YAccessor] == PStr(RatioKey(channel, Derivations[k]))
      && YMouseover in q
      && q[YMouseover] == PRatioTip(NumKey(channel, Derivations[k]), DenKey(channel, Derivations[k]), RatioKey(channel, Derivations[k]))
  {
    SlotsMatchDerivations();
    var s := slots[i];
    var g := Graphic(rows, channel, target, s.n, s.title, NameText(s.pct), NameText(s.num), NameText(s.den));
    assert g == Ok(SlotCharts(rows, channel, target, slots).value[i]);
  }
}
