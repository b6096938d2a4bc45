# Cost report renderer, modelled in Dafny

This project models the report generator of an AWS ECS infrastructure
repository, the script `scripts/cost-report.py`. The script reads an
infracost breakdown document and renders a plain-text cost report. The
report has these parts, in order:

- a banner with the generation time;
- a summary of the monthly, hourly and annual cost;
- one block per project. Each block groups the project's resources by
  service, the part of the resource name before its first `.`. Groups come
  in non-increasing order of their monthly total, and each group lists its
  resources;
- a closing section with ten fixed cost recommendations.

Every amount is modelled as a whole number of cents (`nat`), so sums, the
annual figure (twelve months) and the two-decimal rendering are exact.

The model has five modules, one per file:

- `CostData` (`cost_data.dfy`): the input document with its optional
  fields, the service key of a resource, and a resource's cost.
- `FormatCost` (`format_cost.dfy`): `format_cost`, rendering as `$d,ddd.cc`.
  A parser `Parse` reads a rendered amount back. It is the reference used
  to state that the rendering loses nothing.
- `ServiceGroups` (`service_groups.dfy`): the grouping loop over an
  insertion-ordered dictionary, `GroupByService`. It is proved to build
  `Services`, a loop-free reference table: one group per distinct key, in
  order of first occurrence, holding exactly that key's resources and
  their total.
- `GroupOrder` (`group_order.dfy`): the display order. `SortByTotal` is a
  stable sort by non-increasing total. A stable non-increasing order is
  unique, so on the same totals this is exactly what Python's stable
  `sorted(..., reverse=True)` returns. The totals here are exact sums of
  cents, which can differ from the source's float sums (see "## Left out").
- `Report` (`report.dfy`): the layout of the report as a function of the
  document (`ReportLines`), and the line-appending loops of
  `generate_report` (`GenerateReport` and its helpers), proved to produce
  that layout.

The dictionary is modelled as two fields: `order` holds its keys in
insertion order and `entries` maps each key to its entry. The source
inserts an empty entry for a new key, then appends the resource and adds
its cost. The model reads the entry, or an empty one, and then stores the
grown entry in a single update. The resulting dictionary is the same.

## Model

| member | source | states |
|---|---|---|
| CostData.GetOr | scripts/cost-report.py:47-48 | An absent field takes the default; a present one keeps its value. |
| CostData.ResourcesOf | scripts/cost-report.py:64-65 | A project without a breakdown, or a breakdown without a resource list, has no resources; otherwise its resources are that list. |
| CostData.CostOf | scripts/cost-report.py:77 | A resource without a monthly cost counts as zero; otherwise its cost is the given one. |
| CostData.BeforeFirstDotIsFirstPiece | scripts/cost-report.py:70 | The service key is the longest dot-free prefix of the name. It is the whole name, or it is followed by a '.'. |
| CostData.ServiceKeyCharacterised | scripts/cost-report.py:70 | A resource without a name has key "". A name without a '.' is its own key. A dotted name's key is the part before its first '.'. |
| CostData.ServiceKeyOfDottedName | scripts/cost-report.py:70 | A name `k.rest` with `k` free of dots has service `k`, whatever `rest` holds. |
| FormatCost.FormatShape | scripts/cost-report.py:32-34 | The rendered amount starts with '$'. Its only '.' is followed by exactly two digits. The dollars are thousands-grouped with a comma every three digits from the right, and have no leading zero. |
| FormatCost.GroupedDigitsAreGrouped | scripts/cost-report.py:34 | Inserting commas into a digit string gives a thousands-grouped string with the same first digit. |
| FormatCost.UngroupGrouped | scripts/cost-report.py:34 | Removing the commas from grouped digits gives the digits back. |
| FormatCost.ValueOfDigits | scripts/cost-report.py:34 | The decimal digits of a number denote that number. |
| FormatCost.FormatRoundTrip | scripts/cost-report.py:32-34 | Parsing a rendered amount (drop '$', drop commas, read digits '.' two digits) gives back the amount. |
| FormatCost.FormatInjective | scripts/cost-report.py:32-34 | Two different amounts never render to the same text. |
| FormatCost.FormatSmallExamples | scripts/cost-report.py:34 | 0, 5 and 99999 cents render as "$0.00", "$0.05" and "$999.99". |
| ServiceGroups.GroupByService | scripts/cost-report.py:68-78 | The loop's dictionary has distinct keys, exactly the keys it lists. Its items in insertion order are the reference table `Services` of the resources. |
| ServiceGroups.DictionaryAt | scripts/cost-report.py:69-78 | After reading some resources, the dictionary holds a key exactly when that key has been seen. The key's entry is the resources of that key read so far, in order, with their cost sum. |
| ServiceGroups.DictionaryItems | scripts/cost-report.py:81 | Once every resource is read, the dictionary's items are the reference table. |
| ServiceGroups.ServicesPartition | scripts/cost-report.py:69-76 | Every resource lands in exactly one group: the groups' resources are, as a multiset, the input resources. |
| ServiceGroups.ServicesTotal | scripts/cost-report.py:77-78 | The group totals add up to the sum of the resources' monthly costs, with a missing cost counting as zero. |
| ServiceGroups.ServicesWellFormed | scripts/cost-report.py:69-78 | Group keys are distinct, and every resource's key has a group. Each group is non-empty, holds only resources of its key, and its total is the sum of their costs. |
| ServiceGroups.ServicesFirstSeenOrder | scripts/cost-report.py:71-75 | Groups are listed in the order in which their keys first occur among the resources. |
| ServiceGroups.FirstSeenOrder | scripts/cost-report.py:71-75 | The dictionary's insertion order lists keys in order of first occurrence. |
| ServiceGroups.DistinctOrder | scripts/cost-report.py:71-75 | A key is inserted at most once. |
| ServiceGroups.SeenKey | scripts/cost-report.py:71-75 | A key has been inserted exactly when some resource read so far has that key, and exactly when its group is non-empty. |
| ServiceGroups.GroupOfNewKey | scripts/cost-report.py:71-78 | A key met for the first time gets a group holding just that resource and its cost. |
| ServiceGroups.GroupsForSnocResources | scripts/cost-report.py:76 | Reading one more resource adds it to the groups of distinct keys exactly when its key is among them. |
| ServiceGroups.GroupsForSnocTotal | scripts/cost-report.py:77-78 | Reading one more resource adds its cost to the totals of distinct keys exactly when its key is among them. |
| ServiceGroups.InServiceKeys | scripts/cost-report.py:70-76 | A group holds only resources whose service key is the group's key. |
| GroupOrder.SortByTotalStable | scripts/cost-report.py:81 | The display order is non-increasing in total and is a permutation of the groups. Groups with equal totals keep their dictionary order. |
| GroupOrder.StableSortUnique | scripts/cost-report.py:81 | Two non-increasing orders that agree on the order within every total are equal. |
| GroupOrder.SortByTotalIsTheStableSort | scripts/cost-report.py:81 | Any stable non-increasing sort of the groups by their (exact) totals, Python's `sorted(..., reverse=True)` included, returns exactly `SortByTotal`. |
| GroupOrder.InsertStable | scripts/cost-report.py:81 | Inserting a group into a non-increasing order keeps it non-increasing, adds exactly that group, and places it ahead of every group with the same total. |
| GroupOrder.SortByTotalContents | scripts/cost-report.py:81 | Sorting keeps every resource of every group and the sum of the totals. |
| Report.Upper | scripts/cost-report.py:82 | Upper-casing keeps the length and upper-cases each ASCII letter. |
| Report.UpperIdempotent | scripts/cost-report.py:82 | Upper-casing twice equals upper-casing once. A key is unchanged exactly when it has no lower-case ASCII letter. |
| Report.ResourceLines | scripts/cost-report.py:85-88 | One line per resource, in order, with the name ("Unknown" when absent) and the monthly cost. |
| Report.GroupsLinesCount | scripts/cost-report.py:81-88 | Each group takes a heading line, a total line and one line per resource. |
| Report.DisplayedGroupsOfProject | scripts/cost-report.py:64-88 | A project shows one group per service, in non-increasing order of total, listing each resource exactly once. Each group is non-empty, of one service, and totals its resources' costs. The group totals add up to the sum of the project's resources' monthly costs. |
| Report.ProjectLinesCount | scripts/cost-report.py:60-90 | A project block has a heading, a divider, two lines per service, one line per resource and a closing blank line. |
| Report.SummaryFigures | scripts/cost-report.py:47-55 | The summary figures read back as the monthly and hourly totals, zero when absent. The annual figure reads back as twelve times the monthly total. |
| Report.MissingTotalsShowZero | scripts/cost-report.py:47-54 | An absent monthly total is shown as "$0.00", and so is the annual figure. An absent hourly total is shown as "$0.00". |
| Report.NoProjectsReport | scripts/cost-report.py:58-60 | A document without a project list, or with an empty one, gives a 27-line report: banner, summary and closing section only. |
| Report.UnnamedProjectHeading | scripts/cost-report.py:61 | A project without a name is headed "Unknown". |
| Report.ResourceLineDefaults | scripts/cost-report.py:86-88 | A resource without a monthly cost is listed at "$0.00". A resource without a name is listed as "Unknown". |
| Report.FigureLine | scripts/cost-report.py:52-54 | A caption followed by a rendered amount splits back into the caption and the amount. |
| Report.ReportSections | scripts/cost-report.py:39-117 | The report is 5 banner lines, 6 summary lines, the project blocks in input order (none when the list is absent), then 16 closing lines. |
| Report.RecommendationsFixed | scripts/cost-report.py:92-115 | Whatever the document, the report ends with the ten recommendations in their fixed order, then a blank line, a rule, the footer and a rule. |
| Report.AppendGroup | scripts/cost-report.py:82-88 | Appends a group's heading, its total line and one line per resource, in order. |
| Report.AppendGroups | scripts/cost-report.py:81-88 | Appends the lines of each group in display order. |
| Report.DisplayOrder | scripts/cost-report.py:67-81 | Grouping then sorting yields `SortByTotal(Services(resources))`. |
| Report.AppendProject | scripts/cost-report.py:60-90 | Appends a project's block: the name ("Unknown" when absent), a divider, its groups in display order and a blank line. |
| Report.AppendProjects | scripts/cost-report.py:58-90 | Appends the blocks of the projects in input order. An absent project list appends nothing. |
| Report.AppendClosing | scripts/cost-report.py:92-115 | Appends the recommendations heading, the ten recommendations indented by two spaces, and the footer. |
| Report.GenerateReport | scripts/cost-report.py:37-117 | The report's text is the lines of `ReportLines` joined by newlines. |

## Left out

- `run_infracost_breakdown`, `save_report` and `main`: running the infracost tool, parsing its JSON output, printing and writing the file are I/O, and are not part of this model.
- The generation time is a parameter of `GenerateReport`. The caller supplies it already formatted, because the clock is outside the model.
- Floating point: the model keeps costs as whole cents. Python converts each cost to a float and rounds when formatting; for example, the hourly total is usually a fraction of a cent. Rounding, the summing of floats and their error are not modelled.
- Negative costs are not modelled, because `Cents` is a `nat`. The source would render them with a leading '-' after the '$'.
- Report.Upper: only ASCII letters are upper-cased. Python's `str.upper()` also maps other letters, for example 'ß' to "SS", which can change the length.
- Malformed input is not modelled. This covers fields that are present but `null`, a non-numeric cost string, and a `projects` value that is not a list. The model's `Option` fields cover only absent keys. The source raises an exception on a `null` total, cost, resource name, breakdown or project list.
- A project `name` that is present but `null` does not raise: the source prints its heading as `PROJECT: None`. The model has no null value, so this heading is not modelled.
- Report.JoinLines is only the joining; the report text is not split back into lines. Joining n lines adds n - 1 line breaks, and each service group heading begins with a newline of its own, so the text has one extra line break per service group.
- GroupOrder.SortByTotal stands in for Python's `sorted`. `SortByTotalIsTheStableSort` shows that every stable non-increasing sort gives the same result. The library's algorithm (Timsort) is not modelled.
- GroupOrder.SortByTotal sorts exact totals, while the source sorts float sums, and float rounding can break or create a tie and so reorder groups. Take resources `a.x` costing 0.30, then `b.y` costing 0.10 and `b.z` costing 0.20. In Python, group `a` totals 0.3 and group `b` totals 0.30000000000000004, so `b` is shown first. The model sees a tie at 30 cents and shows `a` first. Both headings read "$0.30".
