/**
 * The retention page: one chart of four retention curves (version 57 or
 * 56, with or without add-ons) for the selected user type and retention
 * period, the period's option overrides applied over the base options,
 * and the legend entries of version 56 rewritten. The legend rewrite, the
 * option overrides and the selection state are shared with the expanded
 * retention page.
 */
module MainRetention {
  import opened Wrappers
  import opened Text
  import opened Values
  import opened Charts

  /**
   * `updateLegend`'s rewrite of one legend entry: when the first "56" in
   * the text is past its first character, the entry becomes "  - - "
   * followed by `inner.substring(2, inner.length - 7)`.
   */
  function RelabelLegend(inner: string): string {
    if IndexOf(inner, "56") > 0 then "  - - " + Substring(inner, 2, |inner| - 7) else inner
  }

  /**
   * An entry without "56", or starting with it, is kept; any other entry
   * loses its first 2 and last 7 characters behind the "  - - " prefix.
   * On entries shorter than 9 characters `substring` swaps its clamped
   * bounds, so the kept text is taken from before index 2.
   */
  lemma RelabelLegendSpec(inner: string)
    ensures !Contains(inner, "56") || StartsWith(inner, "56") ==> RelabelLegend(inner) == inner
    ensures Contains(inner, "56") && !StartsWith(inner, "56") ==>
      |inner| >= 3
      && RelabelLegend(inner) == "  - - " + (if |inner| >= 9 then inner[2..|inner| - 7]
                                             else inner[(if |inner| < 7 then 0 else |inner| - 7)..2])
  {
    var i := IndexOf(inner, "56");
    if StartsWith(inner, "56") {
      assert OccursAt(inner, "56", 0);
    }
  }

  /**
   * `updateLegend(target)`: every legend entry drawn under the target is
   * rewritten in place, in order.
   */
  method UpdateLegend(spans: array<string>)
    modifies spans
    ensures forall i :: 0 <= i < spans.Length ==> spans[i] == RelabelLegend(old(spans[i]))
  {
    for i := 0 to spans.Length
      invariant forall j :: 0 <= j < i ==> spans[j] == RelabelLegend(old(spans[j]))
      invariant forall j :: i <= j < spans.Length ==> spans[j] == old(spans[j])
    {
      var inner := spans[i];
      if IndexOf(inner, "56") > 0 {
        spans[i] := "  - - " + Substring(inner, 2, |inner| - 7);
      }
    }
  }

  /** The legend's four entries, for the four series in the same order. */
  const RetentionLegend: seq<string> := [
    "Users with Add-ons (57)",
    "Users without Add-ons (57)",
    "Users with Add-ons (56)",
    "Users without Add-ons (56)"
  ]

  /** The series colours, in the same order. */
  const SeriesColors: seq<string> := ["#05b378", "#db4437", "#acabab", "#d7d7d7"]

  /** The column prefixes of the four series: version, then whether the users have add-ons. */
  const RetentionPrefixes: seq<string> := ["57_True", "57_False", "56_True", "56_False"]

  /** The series legends and column prefixes agree: same version, and "without" exactly for `False`. */
  lemma RetentionSeriesCorrespond()
    ensures |RetentionPrefixes| == |RetentionLegend| == |SeriesColors| == 4
    ensures forall i :: 0 <= i < 4 ==>
      && RetentionPrefixes[i][..2] == RetentionLegend[i][|RetentionLegend[i]| - 3..|RetentionLegend[i]| - 1]
      && (RetentionPrefixes[i][3..] == "False" <==> RetentionLegend[i][6..13] == "without")
  {
    forall i | 0 <= i < 4
      ensures RetentionPrefixes[i][..2] == RetentionLegend[i][|RetentionLegend[i]| - 3..|RetentionLegend[i]| - 1]
      ensures RetentionPrefixes[i][3..] == "False" <==> RetentionLegend[i][6..13] == "without"
    {
      var p, l := RetentionPrefixes[i], RetentionLegend[i];
      assert p[..2] == l[|l| - 3..|l| - 1];
      if i % 2 == 0 {
        assert p[3] == 'T' && l[10] == ' ';
      } else {
        assert p[3..] == "False" && l[6..13] == "without";
      }
    }
  }

  /**
   * `prefixes.map(i => i + '-' + userType + '-' + retentionType ...)`: each
   * prefix followed by the given fields, separated by '-'.
   */
  function Labels(prefixes: seq<string>, fields: seq<string>): (r: seq<string>)
    ensures |r| == |prefixes|
  {
    seq(|prefixes|, i requires 0 <= i < |prefixes| => Join([prefixes[i]] + fields, "-"))
  }

  /** `getNewLabels(userType, retentionType)`. */
  function NewLabels(userType: string, retentionType: string): seq<string> {
    Labels(RetentionPrefixes, [userType, retentionType])
  }

  /**
   * A label splits on '-' back into the fields of its prefix followed by
   * the given fields, when none of those contains '-'.
   */
  lemma LabelsParse(prefixes: seq<string>, fields: seq<string>, i: nat)
    requires i < |prefixes| && fields != []
    requires forall k :: 0 <= k < |fields| ==> !Contains(fields[k], "-")
    ensures Split(Labels(prefixes, fields)[i], "-") == Split(prefixes[i], "-") + fields
  {
    var ps := Split(prefixes[i], "-");
    JoinCons(prefixes[i], fields, "-");
    JoinConcat(ps, fields, "-");
    forall k | 0 <= k < |ps + fields| ensures !Contains((ps + fields)[k], "-") {
      if k < |ps| {
        assert (ps + fields)[k] == ps[k];
      } else {
        assert (ps + fields)[k] == fields[k - |ps|];
      }
    }
    SplitJoin(ps + fields, "-");
  }

  /**
   * The page's label for series i reads back as its prefix, the user type
   * and the retention period: distinct selections give distinct labels.
   */
  lemma NewLabelsParse(userType: string, retentionType: string, i: nat)
    requires i < 4 && !Contains(userType, "-") && !Contains(retentionType, "-")
    ensures Split(NewLabels(userType, retentionType)[i], "-") == [RetentionPrefixes[i], userType, retentionType]
  {
    var p := RetentionPrefixes[i];
    NoFirstChar(p, "-");
    SplitNone(p, "-");
    LabelsParse(RetentionPrefixes, [userType, retentionType], i);
  }

  /** `titleMap[userType]`, rendered into the title; a user type the table lacks renders as "undefined". */
  function UserTypeTitle(userType: string): string {
    if userType == "light" then "Infrequent"
    else if userType == "all" then "All"
    else if userType == "medium" then "Occasional"
    else if userType == "heavy" then "Frequent"
    else "undefined"
  }

  /** The four user types have four different titles, none of them "undefined". */
  lemma UserTypeTitleInjective(a: string, b: string)
    requires a in {"light", "all", "medium", "heavy"} && b in {"light", "all", "medium", "heavy"}
    ensures UserTypeTitle(a) != "undefined"
    ensures UserTypeTitle(a) == UserTypeTitle(b) ==> a == b
  {
  }

  /** `getTitle(userType, retentionType)`: the template text around the period and the user type. */
  const TitleMiddle: string := " Retention for \n\t<b>"
  const TitleEnd: string := "</b> Users with/without Add-ons for Version 56/57"

  function Title(userType: string, retentionType: string): string {
    "N " + Cap(retentionType) + TitleMiddle + UserTypeTitle(userType) + TitleEnd
  }

  /** The title names the retention period, capitalised, and then the user type's title. */
  lemma TitleShowsSelection(userType: string, retentionType: string)
    ensures var t, n, u := Title(userType, retentionType), |retentionType|, UserTypeTitle(userType);
      && |t| >= n + 22 + |u|
      && t[2..2 + n] == Cap(retentionType)
      && t[2 + n + 20..2 + n + 20 + |u|] == u
  {
    var c, u := Cap(retentionType), UserTypeTitle(userType);
    assert |TitleMiddle| == 20;
    var p1 := "N " + c;
    var p2 := p1 + TitleMiddle;
    var p3 := p2 + u;
    var t := Title(userType, retentionType);
    assert t == p3 + TitleEnd;
    assert t[..|p3|] == p3;
    assert p3[..|p2|] == p2 && p3[|p2|..] == u;
    assert p2[..|p1|] == p1 && p2[|p1|..] == TitleMiddle;
  }

  /**
   * The options a retention period overrides (`updates[retentionType]`);
   * for any other period the lookup is undefined and nothing is overridden.
   */
  function Overrides(retentionType: string): Request {
    if retentionType == "week" then
      map[
        XLabel := PStr("Weeks Since Release"),
        MinY := PNum(0.25),
        MaxX := PDate(UtcMs(2017, 1, 5, 8)),
        XaxCount := PNum(5.0),
        XMouseover := PFn("Weeks: day of d.key")
      ]
    else if retentionType == "day" then
      map[
        MinY := PNum(0.0),
        MaxX := PDate(UtcMs(2017, 1, 6, 8)),
        XLabel := PStr("Days Since Update"),
        XaxCount := PNum(6.0),
        XMouseover := PFn("Days: day of d.key")
      ]
    else map[]
  }

  /** The options a period may override; series, legend, data and target are never among them. */
  lemma OverridesKeys(retentionType: string)
    ensures Overrides(retentionType).Keys <= {XLabel, MinY, MaxX, XaxCount, XMouseover}
    ensures retentionType == "week" || retentionType == "day" ==>
      Overrides(retentionType).Keys == {XLabel, MinY, MaxX, XaxCount, XMouseover}
  {
  }

  /** The base options of the page's chart, before the overrides. */
  function BaseParams(rows: seq<Record>, target: string, labels: seq<string>, legend: seq<string>,
                      legendTarget: string): Request
  {
    map[
      MaxY := PNum(1.1),
      ChartType := PStr("line"),
      YLabel := PStr("Percent Users Active"),
      XAccessor := PStr("date"),
      AggregateRollover := PBool(true),
      Format := PStr("percentage"),
      XAxis := PBool(true),
      ShowSecondaryXLabel := PBool(false),
      XaxFormat := PFn("d3.timeFormat(%d)"),
      PointSize := PNum(5.0),
      FullWidth := PBool(true),
      Left := PNum(90.0),
      Right := PNum(90.0),
      Height := PNum(450.0),
      Linked := PBool(false),
      LegendTarget := PStr(legendTarget),
      Color := PStrs(SeriesColors),
      XMouseover := PFn("Week: day of d.key"),
      XaxCount := PNum(5.0),
      MinY := PNum(0.25),
      MaxX := PDate(UtcMs(2017, 1, 5, 8)),
      XLabel := PStr("Weeks Since Release"),
      Target := PStr(target),
      Legend := PStrs(legend),
      YAccessor := PStrs(labels),
      Data := PRows(rows)
    ]
  }

  /**
   * The `for (var i in updates[retentionType])` loop: every override
   * replaces the option of the same name.
   */
  method ApplyOverrides(params: Request, retentionType: string) returns (r: Request)
    ensures r == Overlay(params, Overrides(retentionType), {})
  {
    r := CopyFields(params, Overrides(retentionType), {});
  }

  /** The request `draw` hands to the charting library. */
  function RetentionRequest(rows: seq<Record>, target: string, labels: seq<string>, legend: seq<string>,
                            legendTarget: string, retentionType: string): Request
  {
    Overlay(BaseParams(rows, target, labels, legend, legendTarget), Overrides(retentionType), {})
  }

  /**
   * The overrides change only the five period options: every other option
   * of the drawn request, the data, target, series and legend among them,
   * is the base option.
   */
  lemma RetentionRequestKeeps(rows: seq<Record>, target: string, labels: seq<string>, legend: seq<string>,
                              legendTarget: string, retentionType: string)
    ensures var b, r := BaseParams(rows, target, labels, legend, legendTarget),
                        RetentionRequest(rows, target, labels, legend, legendTarget, retentionType);
      && r.Keys == b.Keys
      && forall k :: k in b && k !in {XLabel, MinY, MaxX, XaxCount, XMouseover} ==> r[k] == b[k]
  {
    OverridesKeys(retentionType);
  }

  /**
   * A day period gets its own x label, y minimum and tick count; a week
   * period, like any other, shows the week settings.
   */
  lemma RetentionRequestPeriod(rows: seq<Record>, target: string, labels: seq<string>, legend: seq<string>,
                               legendTarget: string, retentionType: string)
    ensures var r := RetentionRequest(rows, target, labels, legend, legendTarget, retentionType);
      && XLabel in r && MinY in r && XaxCount in r
      && (retentionType == "day" ==>
            r[XLabel] == PStr("Days Since Update") && r[MinY] == PNum(0.0) && r[XaxCount] == PNum(6.0))
      && (retentionType != "day" ==>
            r[XLabel] == PStr("Weeks Since Release") && r[MinY] == PNum(0.25) && r[XaxCount] == PNum(5.0))
  {
    var b := BaseParams(rows, target, labels, legend, legendTarget);
    assert b[XLabel] == PStr("Weeks Since Release") && b[MinY] == PNum(0.25) && b[XaxCount] == PNum(5.0);
    var o := Overrides(retentionType);
    if retentionType == "day" {
      assert o[XLabel] == PStr("Days Since Update") && o[MinY] == PNum(0.0) && o[XaxCount] == PNum(6.0);
    } else if retentionType == "week" {
      assert o[XLabel] == PStr("Weeks Since Release") && o[MinY] == PNum(0.25) && o[XaxCount] == PNum(5.0);
    } else {
      assert o == map[];
    }
  }

  /** An unknown period leaves the base options intact. */
  lemma RetentionRequestUnknown(rows: seq<Record>, target: string, labels: seq<string>, legend: seq<string>,
                                legendTarget: string, retentionType: string)
    requires retentionType != "week" && retentionType != "day"
    ensures RetentionRequest(rows, target, labels, legend, legendTarget, retentionType)
      == BaseParams(rows, target, labels, legend, legendTarget)
  {
  }

  /**
   * `draw(userType, retentionType)` after the data has loaded: the
   * request for the selection, the title shown above it, and the entries
   * of the drawn legend (`spans`) rewritten.
   */
  method Draw(rows: seq<Record>, userType: string, retentionType: string, spans: array<string>)
    returns (r: Request, title: string)
    modifies spans
    ensures r == RetentionRequest(rows, ".retention", NewLabels(userType, retentionType), RetentionLegend,
                                  ".legendMain", retentionType)
    ensures title == Title(userType, retentionType)
    ensures forall i :: 0 <= i < spans.Length ==> spans[i] == RelabelLegend(old(spans[i]))
  {
    var params := BaseParams(rows, ".retention", NewLabels(userType, retentionType), RetentionLegend, ".legendMain");
    r := ApplyOverrides(params, retentionType);
    title := Title(userType, retentionType);
    UpdateLegend(spans);
  }

  /** A `draw` call: the user type and the retention period drawn. */
  datatype DrawCall = DrawCall(userType: string, retentionType: string)

  /**
   * The page's selection: the user type (`parentDisplay`) and retention
   * period (`childDisplay`) of the chart last requested.
   */
  class Selection {
    var userType: string
    var retentionType: string

    /** The page starts on all users by week, the selection its first `draw` call is made with. */
    constructor ()
      ensures userType == "all" && retentionType == "week"
    {
      userType := "all";
      retentionType := "week";
    }

    /** A retention-period button: draw with the current user type and the new period, then store the period. */
    method ClickRetention(target: string) returns (drawn: DrawCall)
      modifies this
      ensures drawn == DrawCall(old(userType), target)
      ensures userType == old(userType) && retentionType == target
    {
      drawn := DrawCall(userType, target);
      retentionType := target;
    }

    /** A user-type button: draw with the new user type and the current period, then store the user type. */
    method ClickUserType(target: string) returns (drawn: DrawCall)
      modifies this
      ensures drawn == DrawCall(target, old(retentionType))
      ensures userType == target && retentionType == old(retentionType)
    {
      drawn := DrawCall(target, retentionType);
      userType := target;
    }
  }
}
