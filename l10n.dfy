/**
 * The localization-campaign page: for each campaign locale, the share of
 * its users with add-ons and its add-on installs by day; for each
 * campaign add-on, the share of users in the qualifying locales with it
 * and its installs by day. Every chart marks the campaign's start.
 */
module L10n {
  import opened Wrappers
  import opened Text
  import opened Values
  import opened Charts

  /** A JavaScript object literal of string values: its entries in key order. */
  type Table = seq<(string, string)>

  /** `addon_lst`: add-on id to display name. */
  const AddonTable: Table := [
    ("jid1-NIfFY2CA8fy1tg@jetpack", "Adblock"),
    ("YoutubeDownloader@PeterOlayev.com", "1-Click Youtube Video Downloader"),
    ("{e4a8a97b-f2ed-450b-b12d-ee082ba24781}", "Greasemonkey"),
    ("{bee6eb20-01e0-ebd1-da83-080329fb9a3a}", "Flash and Video Download"),
    ("{73a6fe31-595d-460b-a920-fcc0f8843232}", "NoScript"),
    ("jid1-FkPKYIvh3ElkQO@jetpack", "signTextJS plus"),
    ("jid1-93WyvpgvxzGATw@jetpack", "To Google Translate"),
    ("{bc919484-f20e-48e2-a7c8-6642e111abce}", "Pinterest Save Button"),
    ("newtaboverride@agenedia.com", "New Tab Override"),
    ("https-everywhere@eff.org", "HTTPS Everywhere")
  ]

  /** `locales`: locale code to language name. */
  const LocaleTable: Table := [
    ("zh-CN", "Chinese"),
    ("nl", "Dutch"),
    ("fr", "French"),
    ("de", "German"),
    ("it", "Italian"),
    ("pt-BR", "Portuguese Brazil"),
    ("es-ES", "Spanish")
  ]

  /** `table[key]`: the value under the key, None standing for `undefined`. */
  function Lookup(t: Table, key: string): (r: Option<string>)
    ensures r.Some? <==> exists i :: 0 <= i < |t| && t[i].0 == key
    ensures r.Some? ==> exists i :: 0 <= i < |t| && t[i] == (key, r.value)
  {
    if t == [] then None
    else if t[0].0 == key then Some(t[0].1)
    else
      var r := Lookup(t[1..], key);
      assert forall i :: 0 <= i < |t| - 1 ==> t[1..][i] == t[i + 1];
      r
  }

  /** A string concatenation shows `undefined` for a missing value. */
  function Show(v: Option<string>): string {
    if v.Some? then v.value else "undefined"
  }

  /** `Object.keys(table)`. */
  function Keys(t: Table): seq<string> {
    seq(|t|, i requires 0 <= i < |t| => t[i].0)
  }

  /** Every key of a table finds a value. */
  lemma LookupKey(t: Table, i: nat)
    requires i < |t|
    ensures Lookup(t, Keys(t)[i]).Some?
  {
    assert t[i].0 == Keys(t)[i];
  }

  /** The campaign-start annotation every chart of the page carries. */
  const CampaignMarkers: seq<Marker> := [Mark("date", UtcMs(2018, 7, 16, 8), "Campaign Starts")]

  /** `x[field] == value`, JavaScript's loose equality. */
  predicate FieldIs(rec: Record, field: string, value: string) {
    LooseEqualsString(Get(rec, field), value)
  }

  /**
   * `data[group].filter(x => x[group] == key)`: the records of the group
   * whose field of the same name equals the key. A group missing from the
   * file leaves `undefined`, whose `filter` throws.
   */
  function GroupRows(data: map<string, seq<Record>>, group: string, key: string): (r: Result<seq<Record>>)
    ensures r.Ok? <==> group in data
    ensures r.Err? ==> r.fault.TypeError?
  {
    if group !in data then Err(TypeError("data[group] is undefined"))
    else Ok(Filter(data[group], (x: Record) => FieldIs(x, group, key)))
  }

  /**
   * The records plotted are exactly the group's records whose field
   * equals the key, in their original order.
   */
  lemma GroupRowsExact(data: map<string, seq<Record>>, group: string, key: string)
    requires group in data
    ensures var s, p := data[group], (x: Record) => FieldIs(x, group, key);
      var r, ix := GroupRows(data, group, key).value, KeptIndices(s, p);
      && |r| == |ix|
      && (forall k :: 0 <= k < |ix| ==> ix[k] < |s| && r[k] == s[ix[k]] && FieldIs(s[ix[k]], group, key))
      && (forall k, l :: 0 <= k < l < |ix| ==> ix[k] < ix[l])
      && (forall i :: 0 <= i < |s| && FieldIs(s[i], group, key) ==> i in ix)
  {
    FilterExact(data[group], (x: Record) => FieldIs(x, group, key));
  }

  /**
   * One chart of the page: the records, the target and title, and the
   * plotted field. The percentage charts are formatted as percentages
   * and their tooltip shows the two user counts and the share.
   */
  function CampaignChart(rows: seq<Record>, target: string, title: string, y: string, pct: bool): (r: Request)
    ensures Data in r && r[Data] == PRows(rows)
    ensures Target in r && r[Target] == PStr(target)
    ensures Title in r && r[Title] == PStr(title)
    ensures YAccessor in r && r[YAccessor] == PStr(y)
    ensures Markers in r && r[Markers] == PMarkers(CampaignMarkers)
    ensures (Format in r <==> pct) && (YMouseover in r <==> pct)
  {
    var base := map[
      ChartType := PStr("line"),
      Linked := PBool(true),
      XLabel := PStr("date"),
      XAccessor := PStr("date"),
      XAxis := PBool(true),
      FullWidth := PBool(true),
      PointSize := PNum(5.0),
      Height := PNum(250.0),
      Interpolate := PFn("d3.curveLinear"),
      Right := PNum(200.0),
      Markers := PMarkers(CampaignMarkers),
      Title := PStr(title),
      Target := PStr(target),
      YAccessor := PStr(y),
      Data := PRows(rows)
    ];
    if pct then
      base[Format := PStr("percentage")][YMouseover := PRatioTip("n_addon_users", "n_total_users", "pct_addon_users")]
    else base
  }

  /**
   * `localeGraph(locale)` after the data has loaded: the share chart into
   * `.locale` and the installs chart into `.locale-n`, both of the
   * locale's records and titled with its language.
   */
  function LocaleGraph(data: map<string, seq<Record>>, locale: string): (r: Result<seq<Request>>)
    ensures r.Ok? <==> "locale" in data
    ensures r.Ok? ==> |r.value| == 2
  {
    match GroupRows(data, "locale", locale)
    case Err(f) => Err(f)
    case Ok(rows) =>
      var name := Show(Lookup(LocaleTable, locale));
      Ok([CampaignChart(rows, "." + locale, "Percent of " + name + " Users with Add-ons By Day", "pct_addon_users", true),
          CampaignChart(rows, "." + locale + "-n", "Number of Total " + name + " Add-on Installs by Day", "n_installs", false)])
  }

  /**
   * The two locale charts plot the same records, the share and the
   * installs, into the locale's two targets.
   */
  lemma LocaleGraphCharts(data: map<string, seq<Record>>, locale: string)
    requires "locale" in data
    ensures var r, rows := LocaleGraph(data, locale).value, GroupRows(data, "locale", locale).value;
      && r[0][Data] == PRows(rows) && r[1][Data] == PRows(rows)
      && r[0][Target] == PStr("." + locale) && r[1][Target] == PStr("." + locale + "-n")
      && r[0][YAccessor] == PStr("pct_addon_users") && r[1][YAccessor] == PStr("n_installs")
      && r[0][Target] != r[1][Target]
  {
    assert |"." + locale| != |"." + locale + "-n"|;
  }

  /**
   * The add-on's target class: the display name without white space,
   * then without its first `-`, then without its first `1`.
   */
  function AddonClass(name: string): string {
    ReplaceFirst(ReplaceFirst(RemoveSpaces(name), "-", ""), "1", "")
  }

  /**
   * The class keeps every character of the name except white space, which
   * is all removed, and one `-` and one `1`, removed when present.
   */
  lemma AddonClassCount(name: string, c: char)
    ensures Count(AddonClass(name), c)
      == if IsJsSpace(c) then 0
         else if (c == '-' || c == '1') && Count(name, c) > 0 then Count(name, c) - 1
         else Count(name, c)
  {
    var n := RemoveSpaces(name);
    RemoveSpacesCount(name, c);
    RemoveSpacesCount(name, '-');
    RemoveSpacesCount(name, '1');
    ReplaceFirstCount(n, '-', c);
    ReplaceFirstCount(n, '-', '1');
    ReplaceFirstCount(ReplaceFirst(n, "-", ""), '1', c);
  }

  /**
   * `addonGraph(addon)` after the data has loaded: the share chart into
   * the add-on's class with `_pct` and the installs chart into its class.
   * An add-on missing from the table leaves `undefined`, whose `replace`
   * throws.
   */
  function AddonGraph(data: map<string, seq<Record>>, addon: string): (r: Result<seq<Request>>)
    ensures r.Ok? <==> "addon_id" in data && Lookup(AddonTable, addon).Some?
    ensures r.Ok? ==> |r.value| == 2
  {
    match GroupRows(data, "addon_id", addon)
    case Err(f) => Err(f)
    case Ok(rows) =>
      match Lookup(AddonTable, addon)
      case None => Err(TypeError("addon_lst[addon] is undefined"))
      case Some(name) =>
        var cls := "." + AddonClass(name);
        Ok([CampaignChart(rows, cls + "_pct", "Percent of Users in Qualifying Locale with " + name + " By Day",
                          "pct_addon_users", true),
            CampaignChart(rows, cls, "Number of Total " + name + " Installs by Day", "n_installs", false)])
  }

  /**
   * The two add-on charts plot the same records, the share and the
   * installs, into the add-on's class with and without `_pct`.
   */
  lemma AddonGraphCharts(data: map<string, seq<Record>>, addon: string)
    requires AddonGraph(data, addon).Ok?
    ensures var r, rows, cls := AddonGraph(data, addon).value, GroupRows(data, "addon_id", addon).value,
                                "." + AddonClass(Lookup(AddonTable, addon).value);
      && r[0][Data] == PRows(rows) && r[1][Data] == PRows(rows)
      && r[0][Target] == PStr(cls + "_pct") && r[1][Target] == PStr(cls)
      && r[0][YAccessor] == PStr("pct_addon_users") && r[1][YAccessor] == PStr("n_installs")
  {
  }

  /**
   * The two loops of `draw()`: a `localeGraph` call for every locale of
   * the list, then an `addonGraph` call for every add-on of the list, in
   * order. The two page functions are passed in, applied to the loaded data.
   */
  method DrawLists(localeList: seq<string>, addonList: seq<string>,
                   localeGraph: string -> Result<seq<Request>>, addonGraph: string -> Result<seq<Request>>)
    returns (r: seq<Result<seq<Request>>>)
    ensures |r| == |localeList| + |addonList|
    ensures forall i :: 0 <= i < |localeList| ==> r[i] == localeGraph(localeList[i])
    ensures forall j :: 0 <= j < |addonList| ==> r[|localeList| + j] == addonGraph(addonList[j])
  {
    r := [];
    for i := 0 to |localeList|
      invariant |r| == i
      invariant forall k :: 0 <= k < i ==> r[k] == localeGraph(localeList[k])
    {
      r := r + [localeGraph(localeList[i])];
    }
    for i := 0 to |addonList|
      invariant |r| == |localeList| + i
      invariant forall k :: 0 <= k < |localeList| ==> r[k] == localeGraph(localeList[k])
      invariant forall k :: 0 <= k < i ==> r[|localeList| + k] == addonGraph(addonList[k])
    {
      r := r + [addonGraph(addonList[i])];
    }
  }

  /** `draw()`: every locale, then every add-on, each in the key order of its table. */
  method Draw(data: map<string, seq<Record>>) returns (r: seq<Result<seq<Request>>>)
    ensures |r| == |LocaleTable| + |AddonTable|
    ensures forall i :: 0 <= i < |LocaleTable| ==> r[i] == LocaleGraph(data, Keys(LocaleTable)[i])
    ensures forall j :: 0 <= j < |AddonTable| ==> r[|LocaleTable| + j] == AddonGraph(data, Keys(AddonTable)[j])
  {
    r := DrawLists(Keys(LocaleTable), Keys(AddonTable), l => LocaleGraph(data, l), a => AddonGraph(data, a));
  }

  /**
   * With both groups in the file every chart of `draw` is requested:
   * every locale and every add-on it names is in its table.
   */
  lemma DrawOk(data: map<string, seq<Record>>, i: nat)
    requires i < |LocaleTable| + |AddonTable|
    ensures i < |LocaleTable| ==> (LocaleGraph(data, Keys(LocaleTable)[i]).Ok? <==> "locale" in data)
    ensures i >= |LocaleTable| ==>
      (AddonGraph(data, Keys(AddonTable)[i - |LocaleTable|]).Ok? <==> "addon_id" in data)
  {
    if i >= |LocaleTable| {
      LookupKey(AddonTable, i - |LocaleTable|);
    }
  }
}
