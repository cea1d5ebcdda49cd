# Firefox add-ons dashboard: a Dafny model of its data logic

The dashboard is a set of static pages that draw add-on adoption charts
with MetricsGraphics, plus three Python scripts that prepare the JSON files
behind them. This project models the deterministic logic of both parts.

**The scripts.**
- `rename_keys` renames the fields of the retention tables. Excluded fields become `date`. Every other field gets the file's identifier as a suffix. Fields with `std` in the new name are dropped. `_cumm` fields are collapsed to `<version>_<tag><suffix>`, and a field that does not unpack is an error.
- `merge_json` pops the tables of a list and joins them into the last one on a shared key.
- `combine_results` joins the nightly counts into the other channels' day records, matching `build_id` to `submission_date`.
- `assign_random` overwrites every field except the date with a bounded random integer.

**The pages.**
- **Adoption pages (main, topline, topline ESR).** Each day record gets eleven ratio fields, named `pct_<channel><suffix>`. One line chart is requested per ratio: its title, x label, release markers, target and tooltip depend on the channel.
- **Retention pages (retention, expanded retention).** These build series labels and titles from the selected user type and retention period. They merge the period's option overrides into the base options, rewrite the version-56 legend entries, and keep the selection in two variables.
- **Summary page.** It keeps the days up to a cut-off date and draws four series with their legend and colours.
- **Facetainer page.** It draws one chart per channel for the selected metric, with that metric's markers.
- **Localisation campaign page.** It draws two charts per locale and two per add-on. Each chart shows the records of one locale or add-on, and the add-on charts' CSS classes come from a chain of `replace` calls.
- **Survey page.** It tallies the non-empty answers to each question. It then draws each tally as a bar chart, sorted by descending count, with the total in the tooltip and the axes swapped on request. The same page filters and relabels the days-to-first-install table.

**How it is modelled.**
- Records are maps from field names to `Value`s. Numbers are reals and dates are milliseconds since the epoch.
- A ratio field holds the quotient of its two counts as a symbolic `Quot`, not an IEEE number.
- A chart request is a map from option keys to parameters. Functions such as the tooltip callbacks appear as named, parameterised values.
- Loading, the DOM and `MG.data_graphic` are outside the model. Each page function returns the request it would pass to `MG.data_graphic`.
- Python's in-place updates are methods on arrays, a class holding the list that is popped, or records reassigned in place.
- Exceptions the code would throw (`KeyError`, `IndexError`, unpacking errors, a JavaScript `TypeError` on `undefined`) are `Err` results.

## Model

| member | source | states |
|---|---|---|
| UnionRetention.RenameRecord | util/union_retention.py:14-27 | the inner loop over one record's fields yields the record `RenameObj` defines, or that record's first renaming error |
| UnionRetention.RenameKeys | util/union_retention.py:11-29 | `rename_keys` yields `RenameAll` of the input: every record renamed in order, or the first error |
| UnionRetention.RenameObjNext | util/union_retention.py:15-27 | one more field: an error stops the record, a dropped field leaves it unchanged, and a renamed field is stored under its new name |
| UnionRetention.RenameObjErrExtends | util/union_retention.py:15-27 | once a field fails, renaming the rest of the record returns that same error |
| UnionRetention.RenameAllErrExtends | util/union_retention.py:13-28 | once a record fails, renaming the rest of the list returns that same error |
| UnionRetention.RenameAllShape | util/union_retention.py:11-29 | the output has one record per input record, in the same order, each the renaming of its input |
| UnionRetention.RenameKeyPlain | util/union_retention.py:4-16 | a key in `exclude` becomes `date`; a key with no `std` and no `_cumm` becomes `k + suffix` |
| UnionRetention.RenameKeyCumm | util/union_retention.py:18-26 | a `_cumm` key is `tag + "_cumm" + v + "-" + rest`, where the tag has one `_cumm` and `v` has no `-`, and it renames to `v + "_" + tag + suffix` |
| UnionRetention.UnpackCummShape | util/union_retention.py:18-26 | a `_cumm` key that unpacks splits as tag, `_cumm`, first field and the remaining fields, and renames to `v_tag + suffix` |
| UnionRetention.RenameKeySecondCumm | util/union_retention.py:20-24 | a key with two `_cumm` occurrences is an unpacking error |
| UnionRetention.RenameKeyFieldCount | util/union_retention.py:19-25 | the `_cumm` tail must split on `-` into exactly 4 fields for an expanded key and exactly 3 otherwise; any other count is an error |
| UnionRetention.RenameKeyNoStd | util/union_retention.py:17-26 | with an empty or `-`-led suffix, no renamed key contains `std`, including the collapsed `_cumm` names |
| UnionRetention.NoStdJoined | util/union_retention.py:22 | `v + "_" + tag + suffix` contains no `std` when none of its parts does and the suffix starts with `-` |
| UnionRetention.NoStdParts | util/union_retention.py:17-20 | when the whole key has no `std`, neither does its tag nor its first tail field |
| UnionRetention.RenameObjCarries | util/union_retention.py:27 | each value is carried over unchanged under its new name, unless a later field takes the same name |
| UnionRetention.RenameObjKeys | util/union_retention.py:27 | every key of a renamed record is the new name of one of the record's fields |
| UnionRetention.RenameObjNoStd | util/union_retention.py:17-27 | no key of an output record contains `std` |
| UnionRetention.IdentifierShort | util/union_retention.py:33 | a file name with fewer than two `-` gives the identifier `-` |
| UnionRetention.IdentifierOfName | util/union_retention.py:33 | the identifier is `-` plus the text after the second `-`, stripped of the characters `.`, `j`, `s`, `o` and `n` at both ends |
| UnionRetention.StripJsonSuffix | util/union_retention.py:33 | `.strip('.json')` removes exactly the extension when the stem neither starts nor ends with one of those characters |
| UnionRetention.IdentifierOfFile | util/union_retention.py:33 | `<a>-<b>-<stem>.json` gives the identifier `-<stem>` |
| UnionRetention.TableList.constructor | util/union_retention.py:48 | the list `j` holds the given tables |
| UnionRetention.TableList.Pop | util/union_retention.py:49-51 | `pop()` removes and returns the last table; on an empty list it is an `IndexError` and nothing changes |
| UnionRetention.MergePass | util/union_retention.py:52-59 | the pass over `ret` gives every record the fields of its first match in `nxt`, or the pass's first error |
| UnionRetention.MergeJson | util/union_retention.py:48-60 | `merge_json` returns `Merge` of the original list and leaves the list empty on success |
| UnionRetention.MergeStepNext | util/union_retention.py:53-59 | one more record: a missing key or a missing match is an error; otherwise the record is overlaid with its match, without the key field |
| UnionRetention.MergeStepErrExtends | util/union_retention.py:52-59 | once a record fails, the rest of the pass returns that same error |
| UnionRetention.MergeStepAt | util/union_retention.py:52-59 | a pass keeps the length and order of `ret`, and each record takes every field but `xa` from its first match |
| UnionRetention.FirstMatchIsFirst | util/union_retention.py:55 | `filter(...)[0]` is the first record of `nxt` with the same `xa` value |
| UnionRetention.MergeStepMissing | util/union_retention.py:55 | a record whose `xa` value no record of `nxt` has makes the pass fail |
| UnionRetention.MergeFromShape | util/union_retention.py:50-59 | the passes keep the table's length and every record's `xa` value, and remove no field |
| UnionRetention.MergeShape | util/union_retention.py:48-60 | the result is as long as the last table of `j`, keeps its `xa` values, and every record keeps all its fields |
| UnionRetention.MergeEmpty | util/union_retention.py:49 | `merge_json([])` fails on the first `pop` |
| UnionRetention.MergeFromLastPass | util/union_retention.py:50-51 | the last pass merges the first table of `j`, since tables are popped from the back |
| UnionRetention.EarliestListWins | util/union_retention.py:49-58 | on a shared field, the value from the first table of `j` wins |
| CombineResults.JoinInto | util/combine_results.py:6-11 | the scan of `rn` for one record yields `JoinRecord` |
| CombineResults.CombineResults | util/combine_results.py:3-12 | returns the same array, updated in place to `Combined` of the original records; it fails exactly when `Combined` does |
| CombineResults.CombinedNext | util/combine_results.py:4-11 | one more record: a missing `submission_date` is a `KeyError`, a failing scan passes its error on, otherwise the joined record is appended |
| CombineResults.JoinErrExtends | util/combine_results.py:6-11 | once the scan fails, scanning the rest of `rn` returns that same error |
| CombineResults.CombinedErrExtends | util/combine_results.py:4-11 | once a record fails, the rest of the loop returns that same error |
| CombineResults.CombinedShape | util/combine_results.py:3-12 | the result has the same length and order, each record joined on its own date |
| CombineResults.JoinRecordFails | util/combine_results.py:6-7 | the scan fails, with a `KeyError` on `build_id`, exactly when some record of `rn` lacks `build_id` |
| CombineResults.CombinedFails | util/combine_results.py:4-7 | the call fails exactly when a record lacks `submission_date`, or when `rrb` is non-empty and a record of `rn` lacks `build_id` |
| CombineResults.JoinUnmatched | util/combine_results.py:7-8 | a record that no record of `rn` matches comes back unchanged |
| CombineResults.JoinKeepsFields | util/combine_results.py:9-11 | no field is removed, and `build_id` is never copied |
| CombineResults.JoinLastMatchWins | util/combine_results.py:6-11 | a copied field holds the value of the last matching record that has it |
| CombineResults.JoinKeepsUntouched | util/combine_results.py:9-11 | a field that no matching record has keeps its value |
| RandomizeData.RandInt | util/randomize_data.py:22 | `randint(lo, hi)` lies in the closed range `[lo, hi]` |
| RandomizeData.AssignRandom | util/randomize_data.py:13-22 | every record keeps its keys and its `submission_date`; each other field becomes an integer in `[10000, 20000]` if its name contains `_total`, and in `[0, 10000]` otherwise |
| RandomizeData.OutputPath | util/randomize_data.py:28 | the output name is the path's text before its first `.`, followed by `-randomized.json` |
| RandomizeData.OutputPathOfDefault | util/randomize_data.py:3-28 | the script's own path gives `data/addon-counts-new-randomized.json` |
| RandomizeData.OutputPathLeadingDot | util/randomize_data.py:28 | a path that starts with `.` gives the bare name `-randomized.json` |
| Main.ChannelTitle | js/main.js:2 | the channel capitalised; an empty channel throws |
| Main.ChartTitle | js/main.js:2-6 | the title is `% `, then `TOTAL ` when the title starts with `Users`, then the capitalised channel and the title |
| Main.AxisLabel | js/main.js:7-10 | the label is `Build Id Date` exactly for nightly, and `Submission Date` otherwise |
| Main.ReleaseMarkers | js/main.js:12-32 | beta gets the "Beta 57" marker of 2017-09-26; release gets "ABP Migrated to WE" on 2017-11-06 and "Release 57" eight days later; every other channel gets the empty marker; all markers are on `submission_date` |
| Main.LineChart | js/main.js:36-59 | the request plots the derived ratio and its tooltip reads the two counts; target, title, x label, data, markers and link flag are as given |
| Main.Graphic | js/main.js:1-61 | `graphic` throws exactly for an empty channel; otherwise it makes the line chart with the page's title, label and markers |
| Main.NameTextNoP | js/main.js:68-99 | no ratio or count name contains a `p` |
| Main.NameTextInjective | js/main.js:68-99 | different names are written differently |
| Main.DerivationsWellFormed | js/main.js:68-99 | no two of the eleven assignments write the same key |
| Main.DerivedKeyFresh | js/main.js:68-99 | a derived key is never the key of a count |
| Main.RatioKeyFresh | js/main.js:68-99 | no ratio is stored under the key of a count |
| Main.RatioKeyInjective | js/main.js:68-99 | ratios with different suffixes are stored under different keys |
| Main.AssignmentsIndependent | js/main.js:68-99 | no assignment writes a key another one reads or writes |
| Main.WrittenSnoc | js/main.js:67-104 | the keys written by the first n assignments are those of the first n-1 plus the n-th |
| Main.DeriveNKeys | js/main.js:67-104 | the assignments add exactly the keys they write |
| Main.DeriveNKeeps | js/main.js:67-104 | a field that no assignment writes keeps its value |
| Main.DeriveNReadsOriginal | js/main.js:67-104 | a field that no assignment writes reads the same before and after |
| Main.DeriveNValue | js/main.js:67-104 | each assigned ratio is the quotient of the record's original counts, even though the assignments run one after another |
| Main.DeriveRecordSpec | js/main.js:67-104 | the eleven ratio keys are added, each holding the quotient of the original counts, and every other field is unchanged |
| Main.DeriveKeepsCounts | js/main.js:67-104 | the counts the ratios read are unchanged |
| Main.DeriveInto | js/main.js:68-99 | the eleven assignments to one record yield `DeriveRecord` |
| Main.DeriveRatios | js/main.js:67-104 | the loop gives every day record its ratios in place |
| Main.SlotsMatchDerivations | js/main.js:106-171 | chart k+1 plots the k-th derived ratio and reads its two counts |
| Main.SlotsForChannel | js/main.js:106-171 | nightly draws the odd-numbered charts; every other channel draws all charts except 1, 7 and 9 |
| Main.SlotChartsOk | js/main.js:106-171 | the callback draws every chart exactly when the channel is non-empty (or no charts are drawn) |
| Main.ChannelGraph | js/main.js:63-173 | `channelGraph` derives the ratios in place, then requests the channel's charts in order |
| Main.ChartPlotsRatio | js/main.js:44-58 | each chart's y accessor is its ratio's key, and its tooltip reads that ratio's two counts |
| MainTopline.ToplineMarkers | js/main-topline.js:13-33 | beta gets "Beta 57 Released" on 2017-09-26; release and ESR get the same two markers, "ABP Migrated to WE" on 2017-11-06 at 08:00 UTC and "Release 57" eight days later; other channels get the empty marker |
| MainTopline.Graphic | js/main-topline.js:1-63 | throws exactly for an empty channel; the chart is linked unless the channel is ESR, and has the page's title |
| MainTopline.ToplineSlotsOrder | js/main-topline.js:108-122 | the three charts are numbered 11, 3 and 5, and each plots the ratio with the same number |
| MainTopline.SlotChartsOk | js/main-topline.js:108-122 | the charts are drawn exactly when the channel is non-empty |
| MainTopline.ChartPlotsRatio | js/main-topline.js:46-60 | each chart plots its slot's ratio, and its tooltip reads that ratio's two counts |
| MainTopline.ChartTargetLinked | js/main-topline.js:34-43 | each chart goes to `.graph<target><n>` and is linked unless the channel is ESR |
| MainTopline.ChannelGraph | js/main-topline.js:65-125 | derives the ratios in place, then requests the three charts |
| MainToplineEsr.EsrDeriveSpec | js/main-topline-esr.js:9-10 | the assignment adds the add-ons-over-total ratio key and changes nothing else |
| MainToplineEsr.EsrDeriveKeepsTest | js/main-topline-esr.js:8-10 | assigning the ratio does not change whether the day has an ESR total |
| MainToplineEsr.EsrDataIsFilter | js/main-topline-esr.js:6-13 | `new_data` is the order-preserving filter of the days on `esr_total`, each with the ratio assigned |
| MainToplineEsr.EsrDataDays | js/main-topline-esr.js:7-13 | the days collected are exactly the days with a truthy `esr_total`, in increasing order, none skipped |
| MainToplineEsr.EsrChart | js/main-topline-esr.js:15-37 | two series with their legend, the Release 57 marker, the ESR baseline, unlinked, over the collected days |
| MainToplineEsr.EsrDataNext | js/main-topline-esr.js:7-13 | one more day is collected exactly when it has an ESR total |
| MainToplineEsr.CollectEsrDays | js/main-topline-esr.js:6-13 | days with an ESR total get the ratio in place and are collected; other days are unchanged |
| MainToplineEsr.ChannelGraphEsr | js/main-topline-esr.js:1-40 | the collected days are drawn; the target argument is unused |
| MainRetention.RelabelLegendSpec | js/main-retention.js:7-10 | an entry without `56`, or starting with it, is kept; otherwise it becomes `  - - ` plus the text with its first 2 and last 7 characters cut |
| MainRetention.UpdateLegend | js/main-retention.js:3-12 | every legend entry is rewritten in place |
| MainRetention.RetentionSeriesCorrespond | js/main-retention.js:15 | the four series, legend entries and colours line up by version and by add-on use |
| MainRetention.Labels | js/main-retention.js:14-17 | one label per prefix |
| MainRetention.LabelsParse | js/main-retention.js:16 | a label splits on `-` into its prefix's fields followed by the selection's fields |
| MainRetention.NewLabelsParse | js/main-retention.js:14-17 | label i reads back as prefix i, the user type and the retention period |
| MainRetention.UserTypeTitleInjective | js/main-retention.js:29-34 | the four user types have four different titles, none of them `undefined` |
| MainRetention.TitleShowsSelection | js/main-retention.js:20-26 | the title contains the capitalised period and then the user type's title, at fixed offsets |
| MainRetention.OverridesKeys | js/main-retention.js:41-62 | a period overrides only the x label, y minimum, x maximum, tick count and x tooltip, and only day and week override anything |
| MainRetention.ApplyOverrides | js/main-retention.js:101-103 | the `for ... in` copy overlays the period's overrides on the base options |
| MainRetention.RetentionRequestKeeps | js/main-retention.js:64-103 | every option other than the five period options is the base option |
| MainRetention.RetentionRequestPeriod | js/main-retention.js:41-103 | a day period shows `Days Since Update`, y minimum 0 and 6 ticks; any other period shows the week settings |
| MainRetention.RetentionRequestUnknown | js/main-retention.js:101-103 | a period other than day and week leaves the base options unchanged |
| MainRetention.Draw | js/main-retention.js:64-111 | `draw` requests the merged options for the selection, sets the title, and rewrites the legend entries |
| MainRetention.Selection.constructor | js/main-retention.js:37-38 | the page starts on all users, by week |
| MainRetention.Selection.ClickRetention | js/main-retention.js:113-122 | draws with the current user type and the new period, then stores the period |
| MainRetention.Selection.ClickUserType | js/main-retention.js:124-133 | draws with the new user type and the current period, then stores the user type |
| MainRetentionExpanded.ExpandedSeriesVersion | js/main-retention-expanded.js:14-17 | each series' legend entry names the version in its column prefix |
| MainRetentionExpanded.ExpandedSeriesKind | js/main-retention-expanded.js:14-17 | a legend entry says WebExtensions exactly when its column prefix ends in `we` |
| MainRetentionExpanded.NewLabelsExpandedParse | js/main-retention-expanded.js:14-17 | label i reads back as prefix i's fields, the user type, the period and `expanded` |
| MainRetentionExpanded.TitleExpandedShowsSelection | js/main-retention-expanded.js:21-34 | the title contains the capitalised period and then the user type's title, at fixed offsets |
| MainRetentionExpanded.DrawExpanded | js/main-retention-expanded.js:64-111 | `drawExpanded` requests the merged options for the selection, sets the title, and rewrites the legend entries |
| MainSummary.SummaryRowsDays | js/main-summary.js:7-10 | the days kept are exactly those dated on or before the cut-off, in order |
| MainSummary.OnOrBeforeMaxDate | js/main-summary.js:9 | a dated record is kept exactly when its date is at most 2017-01-31T04:00Z |
| MainSummary.SummaryRowsKeepsAll | js/main-summary.js:8-10 | the filter keeps everything exactly when every day passes |
| MainSummary.SummarySeriesVersion | js/main-summary.js:24-33 | four series, legend entries and colours, with each series' version matching its legend entry |
| MainSummary.SummarySeriesKind | js/main-summary.js:24-28 | a series is `no_addons` exactly when its legend entry says `without` |
| MainSummary.SummaryRequest | js/main-summary.js:12-44 | the request draws the filtered days with the four series, legend and colours, starting at the minimum date, linked |
| MainSummary.SummaryRangeNonEmpty | js/main-summary.js:7-18 | the x range from 2017-01-01 to the cut-off spans 30 days |
| MainSummary.DrawSummary | js/main-summary.js:3-55 | draws the summary request and rewrites the legend entries |
| Facetainer.FacetMarkers | js/facetainer.js:5-21 | `markers[metric]` is undefined except for dau (no markers), wau and mau (one dated marker each) |
| Facetainer.FacetMarkersSameRelease | js/facetainer.js:10-18 | the wau and mau markers fall 7 and 28 days after the same release date |
| Facetainer.ChannelTargetInjective | js/facetainer.js:29 | different channels get different targets |
| Facetainer.FacetTitleParts | js/facetainer.js:30 | the title is the capitalised channel, a space, then the upper-cased metric |
| Facetainer.Graph | js/facetainer.js:24-47 | a channel missing from the data throws a TypeError; otherwise the chart shows that channel's records with the metric's markers |
| Facetainer.Draw | js/facetainer.js:49-54 | one call per channel: release, beta, nightly, esr |
| Facetainer.DrawCharts | js/facetainer.js:49-54 | the i-th call draws the i-th channel |
| Facetainer.DrawTargetsDistinct | js/facetainer.js:24-54 | the four charts go to four different targets |
| L10n.Lookup | js/l10n.js:5-25 | the lookup finds a value exactly when the key is in the table, and that value is paired with the key |
| L10n.LookupKey | js/l10n.js:143-144 | every key of a table's key list is found |
| L10n.GroupRows | js/l10n.js:37 | a missing group throws a TypeError; otherwise the rows are filtered by loose equality with the key |
| L10n.GroupRowsExact | js/l10n.js:90 | the rows kept are exactly those whose field loosely equals the key, in order |
| L10n.CampaignChart | js/l10n.js:41-85 | the chart shows the rows with the campaign marker; the percentage format and tooltip appear exactly on percentage charts |
| L10n.LocaleGraph | js/l10n.js:35-86 | throws exactly when the data has no locale group; otherwise it draws two charts |
| L10n.LocaleGraphCharts | js/l10n.js:41-85 | the two charts show the locale's rows, with targets and titles built from the locale and its name |
| L10n.AddonClassCount | js/l10n.js:94 | the class keeps no whitespace and loses one `-` and one `1` if it has them; every other character count is unchanged |
| L10n.AddonGraph | js/l10n.js:88-139 | throws exactly when the data has no add-on group or the add-on is not in the table; otherwise it draws two charts |
| L10n.AddonGraphCharts | js/l10n.js:93-136 | the two charts show the add-on's rows, with targets from its class and titles from its name |
| L10n.DrawLists | js/l10n.js:145-154 | draws every locale in order, then every add-on in order |
| L10n.Draw | js/l10n.js:142-157 | `draw` iterates over the locale table, then the add-on table |
| L10n.DrawOk | js/l10n.js:142-157 | each locale chart succeeds exactly when the locale group is present; each add-on chart exactly when the add-on group is present |
| AddonsSurvey.IncrementCount | js/addons-survey.js:35 | counting a value adds one to its count and leaves every other count unchanged |
| AddonsSurvey.IncrementTotal | js/addons-survey.js:35 | counting a value adds one to the total |
| AddonsSurvey.IncrementKeys | js/addons-survey.js:35 | counting adds the value to the keys, and keys stay distinct |
| AddonsSurvey.TalliedSnoc | js/addons-survey.js:35 | tallying one more value is one more increment |
| AddonsSurvey.TalliedSpec | js/addons-survey.js:33-37 | the tally has distinct keys, the values as its key set, each value's multiplicity as its count, and the list length as its total |
| AddonsSurvey.Counter | js/addons-survey.js:33-37 | `Counter` computes the tally of its input |
| AddonsSurvey.AnswersNext | js/addons-survey.js:105-113 | one more row adds its answer exactly when it is not `''` |
| AddonsSurvey.AnswersAreFilter | js/addons-survey.js:105-113 | a question's counted answers are the answers of the rows not answered `''`, in order |
| AddonsSurvey.TallyTotal | js/addons-survey.js:105-113 | a question's tally totals the number of rows that answered it |
| AddonsSurvey.TallyAll | js/addons-survey.js:105-113 | one tally per question |
| AddonsSurvey.TallyNext | js/addons-survey.js:106-112 | adding one row to a question's tally is that row's count step |
| AddonsSurvey.TallyRow | js/addons-survey.js:106-112 | the inner loop counts the row's answer into every question's tally |
| AddonsSurvey.TallyAnswers | js/addons-survey.js:105-113 | the nested loop yields every question's tally of its non-empty answers |
| AddonsSurvey.TallyItems | js/addons-survey.js:44-49 | one `{resp, n}` item per tally entry, the i-th item holding the i-th entry's key and count |
| AddonsSurvey.InsertDescPerm | js/addons-survey.js:51 | inserting adds exactly that item |
| AddonsSurvey.InsertDescSorted | js/addons-survey.js:51 | inserting into a descending list keeps it descending |
| AddonsSurvey.SortDescSpec | js/addons-survey.js:51 | the sort yields a permutation in descending order of `n` |
| AddonsSurvey.InsertDescStable | js/addons-survey.js:51 | inserting into a descending sequence places the item after every item with the same count |
| AddonsSurvey.SortDescStable | js/addons-survey.js:51 | the sort is stable: for every count, the items with that count keep their order from before the sort |
| AddonsSurvey.SumNInsert | js/addons-survey.js:52-53 | inserting an item adds its count to the sum |
| AddonsSurvey.SumNSnoc | js/addons-survey.js:52-53 | appending an item adds its count to the sum |
| AddonsSurvey.SumNSort | js/addons-survey.js:51-53 | sorting keeps the sum |
| AddonsSurvey.SumNItems | js/addons-survey.js:44-53 | the items' counts sum to the tally's total |
| AddonsSurvey.ReduceSum | js/addons-survey.js:52-53 | `reduce` without an initial value fails on an empty list, and otherwise sums the counts |
| AddonsSurvey.BarChartOk | js/addons-survey.js:39-76 | `draw` succeeds exactly when the tally is non-empty |
| AddonsSurvey.BarChartRows | js/addons-survey.js:44-66 | the chart's rows are the tally's items in descending order, a permutation in which items with equal counts keep the tally's order, and the tooltip total is the tally's total |
| AddonsSurvey.BarChartFlip | js/addons-survey.js:68-73 | the flipped chart swaps the accessors, sets the left margin and the axes flag, and keeps everything else |
| AddonsSurvey.Draw | js/addons-survey.js:39-76 | `draw` computes the bar chart of its tally |
| AddonsSurvey.QuestionCharts | js/addons-survey.js:116-141 | one chart call per question |
| AddonsSurvey.DrawQuestions | js/addons-survey.js:116-141 | the loop draws the questions in order, and the first failure ends it |
| AddonsSurvey.DrawAllStops | js/addons-survey.js:116-141 | once a question fails, the later questions are not drawn |
| AddonsSurvey.SurveyCharts | js/addons-survey.js:78-142 | the callback tallies the three questions, then draws them with horizontal bars |
| AddonsSurvey.SurveyChartsOk | js/addons-survey.js:105-141 | every question is drawn exactly when each one has at least one non-empty answer |
| AddonsSurvey.KeepDayRows | js/addons-survey.js:2 | the rows kept are exactly the release rows with at most 7 days, in order |
| AddonsSurvey.DaysLabelledSpec | js/addons-survey.js:5 | a kept row's day count gets ` Days` appended, and no other field changes |
| AddonsSurvey.LabelDays | js/addons-survey.js:3-6 | every kept row is relabelled in place |
| AddonsSurvey.DaysChart | js/addons-survey.js:10-24 | the chart draws the kept rows, days against `pct_addon_users`, at `.daysInstallChart` |
| AddonsSurvey.DaysPage | js/addons-survey.js:1-29 | a fresh array holds the kept rows, relabelled, and the chart draws them |
| Text.IndexOf | js/main-retention.js:8 | `indexOf` gives the first occurrence, or -1 when there is none |
| Text.Split | util/union_retention.py:20-25 | the parts join back to the string, and no part contains the separator |
| Text.SplitJoin | util/union_retention.py:21-25 | splitting a joined list of parts without the separator gives the parts back |
| Text.Strip | util/union_retention.py:33 | the result is the text with only stripped characters cut from its two ends, and it neither starts nor ends with a stripped character |
| Text.CapFixed | js/facetainer.js:1-3 | `cap` changes a string exactly when it starts with a lower-case letter, and capitalising twice is capitalising once |
| Text.ReplaceFirstCount | js/l10n.js:94 | replacing the first occurrence of a character removes one occurrence, if there is one |
| Text.RemoveSpacesCount | js/l10n.js:94 | `replace(/\s+/g, '')` removes every whitespace character and keeps all other characters |
| Text.SubstringStart | js/main.js:4 | `substr(0, 5) == "Users"` holds exactly when the title starts with `Users` |
| Values.FilterExact | js/main-summary.js:8-10 | `filter` keeps exactly the elements that pass, in order |
| Values.FilterKeepsAll | js/main-summary.js:8-10 | `filter` returns its input exactly when every element passes |
| Values.Overlay | util/combine_results.py:9-11 | copying fields keeps the target's other fields and takes every copied field from the source |
| Values.CopyFields | util/union_retention.py:56-58 | the copy loop computes the overlay |
| Charts.DrawAll | js/main.js:106-171 | the calls succeed exactly when each call does, giving one chart per element; on failure the error is that of a call all of whose predecessors succeeded |
| Charts.UtcMsEpoch | js/main.js:16 | date literals count milliseconds from 1970-01-01T00:00Z |
| Charts.DaysIn | js/main.js:16 | a Gregorian month has 28 to 31 days, 29 exactly for February of a leap year |
| Charts.Tomorrow | js/main.js:16 | the calendar day after a valid date is a valid date; it moves to the first of a month exactly at a month's last day, and to the next year exactly after 31 December |
| Charts.UtcMsNextHour | js/main.js:16 | the next hour of a day is one hour later |
| Charts.YearStartNext | js/main.js:16 | a year counted from March has 366 days when it ends on a leap day, 365 otherwise |
| Charts.MonthStartNext | js/main.js:16 | the first days of consecutive months differ by the earlier month's length |
| Charts.UtcMsMarchFirst | js/main.js:16 | 1 March is one day after the last day of February, in leap and common years |
| Charts.UtcMsMonthFirst | js/main.js:16 | the first of every other month, and 1 January, is one day after the last day of the month before |
| Charts.UtcMsTomorrow | js/main.js:16 | the calendar day after any valid date is exactly one day later: date literals count days without gaps or overlaps |

## Left out

- Loading (`d3.json`, `d3.csv`, `open`, `json.load`), writing (`json.dump`), `print` and `console.log`: the model takes the loaded data as input and returns the results.
- The glob loop over the retention files and their grouping into four lists, and the final two-level `merge_json` calls (util/union_retention.py:31-46, 64-65): they depend on the directory listing. The identifier and the functions they call are modelled.
- Rendering: `MG.data_graphic`, `MG.convert.date` and the DOM. A request is the options map handed to `MG.data_graphic`; dates are given as milliseconds, not parsed.
- Division is the symbolic `Quot(num, den)`, not IEEE division. Division by zero and `NaN` are not modelled.
- Tooltip text: `toLocaleString`, and the `Math.round` and `Math.ceil` in the tooltips, are represented by the fields they read, not by the text they produce.
- The `Math.ceil` rounding of `pct_addon_users` on the survey's days page (js/addons-survey.js:4) is not modelled; only the day label is.
- Text.Upper: only ASCII letters are upper-cased; the contract states only the length. Text.Cap states only the length; its meaning is in `Text.CapFixed`.
- Dates written `T8:00`: a one-digit hour is outside the ECMAScript date-time string format, so how such a string parses is left to the JavaScript engine. The model takes it as 08:00 UTC; engines may differ.
- The callbacks' asynchronous order: the charts of one page are taken in call order.
- Key order: JavaScript visits integer-like keys first in `for ... in` and `Object.keys`. The tables here have no such keys, and the survey's tally keeps insertion order.
- Prototype keys (`constructor`, `toString`) looked up in the pages' object tables are treated as missing.
- String-to-number conversion accepts decimal integer literals only.
- Aliasing between `new_data` and the loaded array on the ESR page: the model returns the collected records as values.
- The survey's unused `input3` to `input5` tallies.
- Python's `random` module: the random source is a parameter.
- UnionRetention.RenameObj: fields are visited in the order of the input sequence. Under Python 2 that is the dict's hash order, not the file's, so which field wins a name clash (`n_day` and `week` both becoming `date`, or two `_cumm` keys giving the same name) depends on that order, which the model takes as input.
- UnionRetention.Identifier: only file names of the data-file shape have their identifier stated exactly.
- Facetainer.Draw: the function's own contract states the count of calls; what each call draws is in `Facetainer.DrawCharts`.
