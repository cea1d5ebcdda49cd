/**
 * The expanded retention page: the retention chart of the retention page
 * for users with only WebExtensions or with legacy add-ons, with its own
 * series, legend and title. The user-type titles, the period overrides,
 * the legend rewrite and the selection state are the retention page's:
 * this page's tables have the same entries.
 */
module MainRetentionExpanded {
  import opened Wrappers
  import opened Text
  import opened Values
  import opened Charts
  import MainRetention

  /** The column prefixes of the four series: version, then the kind of add-ons. */
  const ExpandedPrefixes: seq<string> := ["57_addons-we", "57_addons-leg", "56_addons-we", "56_addons-leg"]

  /** The legend's four entries, for the four series in the same order. */
  const ExpandedLegend: seq<string> := [
    "Users with WebExtensions (57)",
    "Users with Legacy Add-ons(57)",
    "Users with WebExtensions(56)",
    "Users with Legacy Add-ons (56)"
  ]

  /** Each series' legend entry names the version of its column prefix. */
  lemma ExpandedSeriesVersion()
    ensures |ExpandedPrefixes| == |ExpandedLegend| == |MainRetention.SeriesColors| == 4
    ensures forall i :: 0 <= i < 4 ==>
      ExpandedPrefixes[i][..2] == ExpandedLegend[i][|ExpandedLegend[i]| - 3..|ExpandedLegend[i]| - 1]
  {
    forall i | 0 <= i < 4
      ensures ExpandedPrefixes[i][..2] == ExpandedLegend[i][|ExpandedLegend[i]| - 3..|ExpandedLegend[i]| - 1]
    {
      var p, l := ExpandedPrefixes[i], ExpandedLegend[i];
      assert p[..2] == [p[0], p[1]] && l[|l| - 3..|l| - 1] == [l[|l| - 3], l[|l| - 2]];
    }
  }

  /** A series' legend entry says WebExtensions exactly when its column prefix ends in `we`. */
  lemma ExpandedSeriesKind()
    ensures forall i :: 0 <= i < 4 ==>
      (ExpandedPrefixes[i][10..] == "we" <==> ExpandedLegend[i][11..24] == "WebExtensions")
  {
    forall i | 0 <= i < 4
      ensures ExpandedPrefixes[i][10..] == "we" <==> ExpandedLegend[i][11..24] == "WebExtensions"
    {
      var p, l := ExpandedPrefixes[i], ExpandedLegend[i];
      if i % 2 == 0 {
        assert p == p[..10] + "we";
        assert l == l[..11] + "WebExtensions" + l[24..];
      } else {
        assert p[10] == 'l' && l[11] == 'L';
      }
    }
  }

  /** `getNewLabelsExpanded(userType, retentionType)`. */
  function NewLabelsExpanded(userType: string, retentionType: string): seq<string> {
    MainRetention.Labels(ExpandedPrefixes, [userType, retentionType, "expanded"])
  }

  /**
   * The page's label for series i reads back as the fields of its prefix,
   * the user type, the retention period and "expanded".
   */
  lemma NewLabelsExpandedParse(userType: string, retentionType: string, i: nat)
    requires i < 4 && !Contains(userType, "-") && !Contains(retentionType, "-")
    ensures Split(NewLabelsExpanded(userType, retentionType)[i], "-")
      == Split(ExpandedPrefixes[i], "-") + [userType, retentionType, "expanded"]
  {
    NoFirstChar("expanded", "-");
    MainRetention.LabelsParse(ExpandedPrefixes, [userType, retentionType, "expanded"], i);
  }

  /** `getTitleExpanded(userType, retentionType)`: the template text around the period and the user type. */
  const TitleMiddle: string := " Retention for <b> "
  const TitleEnd: string := " </b> Users with \n\t only WebExtensions/Legacy Add-ons for Version 56/57"

  function TitleExpanded(userType: string, retentionType: string): string {
    "N " + Cap(retentionType) + TitleMiddle + MainRetention.UserTypeTitle(userType) + TitleEnd
  }

  /** The title names the retention period, capitalised, and then the user type's title. */
  lemma TitleExpandedShowsSelection(userType: string, retentionType: string)
    ensures var t, n, u := TitleExpanded(userType, retentionType), |retentionType|, MainRetention.UserTypeTitle(userType);
      && |t| >= n + 21 + |u|
      && t[2..2 + n] == Cap(retentionType)
      && t[2 + n + 19..2 + n + 19 + |u|] == u
  {
    var c, u := Cap(retentionType), MainRetention.UserTypeTitle(userType);
    assert |TitleMiddle| == 19;
    var p1 := "N " + c;
    var p2 := p1 + TitleMiddle;
    var p3 := p2 + u;
    var t := TitleExpanded(userType, retentionType);
    assert t == p3 + TitleEnd;
    assert t[..|p3|] == p3;
    assert p3[..|p2|] == p2 && p3[|p2|..] == u;
    assert p2[..|p1|] == p1 && p2[|p1|..] == TitleMiddle;
  }

  /**
   * `drawExpanded(userType, retentionType)` after the data has loaded: the
   * request for the selection, the title shown above it, and the entries
   * of the drawn legend (`spans`) rewritten by `updateLegendExpanded`,
   * which is the retention page's rewrite.
   */
  method DrawExpanded(rows: seq<Record>, userType: string, retentionType: string, spans: array<string>)
    returns (r: Request, title: string)
    modifies spans
    ensures r == MainRetention.RetentionRequest(rows, ".retention_expanded", NewLabelsExpanded(userType, retentionType),
                                                ExpandedLegend, ".legend_expanded", retentionType)
    ensures title == TitleExpanded(userType, retentionType)
    ensures forall i :: 0 <= i < spans.Length ==> spans[i] == MainRetention.RelabelLegend(old(spans[i]))
  {
    var params := MainRetention.BaseParams(rows, ".retention_expanded", NewLabelsExpanded(userType, retentionType),
                                           ExpandedLegend, ".legend_expanded");
    r := MainRetention.ApplyOverrides(params, retentionType);
    title := TitleExpanded(userType, retentionType);
    MainRetention.UpdateLegend(spans);
  }
}
