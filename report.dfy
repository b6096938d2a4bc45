/**
 * `generate_report`: the text of the cost report as a list of lines joined
 * by newlines.  The report is a banner with the generation time, a summary
 * of the monthly, hourly and annual cost, one block per project listing its
 * service groups in display order, and a fixed closing section of ten
 * recommendations.
 *
 * `ReportLines` states the layout; `GenerateReport` is the source's loop
 * that appends the lines one by one and is proved to produce exactly that
 * layout.  The generation time is a parameter: the caller supplies the
 * already formatted `%Y-%m-%d %H:%M:%S` timestamp.
 */
module Report {
  import opened CostData
  import opened FormatCost
  import opened ServiceGroups
  import opened GroupOrder

  /** `"=" * 80` */
  const Rule: string := "================================================================================"
  /** `"-" * 80` */
  const Divider: string := "--------------------------------------------------------------------------------"

  const SummaryHeading: string := "\U{1F4B0} COST SUMMARY"
  const MonthlyLabel: string := "  Total Monthly Cost:  "
  const HourlyLabel: string := "  Total Hourly Cost:   "
  const AnnualLabel: string := "  Total Annual Cost:   "
  const ProjectLabel: string := "\U{1F4CA} PROJECT: "
  const ServiceLabel: string := "\n  \U{1F539} "
  const RecommendationsHeading: string := "\U{1F4A1} COST OPTIMIZATION RECOMMENDATIONS"
  const Footer: string := "For detailed breakdown, run: infracost breakdown --path ."

  /** The ten recommendations, always printed, whatever the input. */
  const Recommendations: seq<string> := [
    "1. Use Fargate Spot for non-critical workloads (up to 70% savings)",
    "2. Enable ECS Cluster Auto Scaling to match actual demand",
    "3. Use Reserved Instances or Savings Plans for predictable workloads",
    "4. Implement lifecycle policies for CloudWatch Logs retention",
    "5. Use S3 Intelligent-Tiering for terraform state storage",
    "6. Consider single NAT Gateway for dev environment",
    "7. Use CloudWatch Logs Insights to identify and remove verbose logging",
    "8. Implement tagging strategy for cost allocation",
    "9. Set up AWS Budgets for cost monitoring and alerts",
    "10. Regular review unused resources and rightsize instances"
  ]

  /** Upper case of an ASCII letter; every other character is kept. */
  function UpperChar(c: char): (u: char)
    ensures 'a' <= c <= 'z' ==> 'A' <= u <= 'Z' && u as int == c as int - 32
    ensures !('a' <= c <= 'z') ==> u == c
  {
    if 'a' <= c <= 'z' then (c as int - 32) as char else c
  }

  /** `str.upper()` restricted to ASCII letters. */
  function Upper(s: string): (u: string)
    ensures |u| == |s|
    ensures forall i :: 0 <= i < |s| ==> u[i] == UpperChar(s[i])
  {
    seq(|s|, i requires 0 <= i < |s| => UpperChar(s[i]))
  }

  /** Upper-casing twice is upper-casing once, and a string is unchanged exactly when it holds no lower-case ASCII letter. */
  lemma UpperIdempotent(s: string)
    ensures Upper(Upper(s)) == Upper(s)
    ensures Upper(s) == s <==> forall i :: 0 <= i < |s| ==> !('a' <= s[i] <= 'z')
  {
    if Upper(s) == s {
      forall i | 0 <= i < |s|
        ensures !('a' <= s[i] <= 'z')
      {
        assert Upper(s)[i] == UpperChar(s[i]);
      }
    }
  }

  /** Python's `"\n".join(lines)`. */
  function JoinLines(lines: seq<string>): string
  {
    if lines == [] then ""
    else if |lines| == 1 then lines[0]
    else JoinLines(lines[..|lines| - 1]) + "\n" + lines[|lines| - 1]
  }

  function BannerLines(generated: string): seq<string>
  {
    [Rule, "AWS ECS Infrastructure Cost Estimation Report", "Generated: " + generated, Rule, ""]
  }

  /** Absent totals count as zero; the annual cost is twelve months. */
  function SummaryLines(doc: CostDocument): seq<string>
  {
    var monthly, hourly := GetOr(doc.totalMonthlyCost, 0), GetOr(doc.totalHourlyCost, 0);
    [SummaryHeading, Divider,
     MonthlyLabel + Format(monthly),
     HourlyLabel + Format(hourly),
     AnnualLabel + Format(monthly * 12),
     ""]
  }

  /** A resource's line: its name ("Unknown" when absent) and monthly cost. */
  function ResourceLine(r: Resource): string
  {
    "     - " + GetOr(r.name, "Unknown") + ": " + Format(CostOf(r)) + "/month"
  }

  /** One line per resource, in order. */
  function ResourceLines(rs: seq<Resource>): (lines: seq<string>)
    ensures |lines| == |rs|
    ensures forall m :: 0 <= m < |rs| ==> lines[m] == ResourceLine(rs[m])
  {
    if rs == [] then [] else ResourceLines(rs[..|rs| - 1]) + [ResourceLine(rs[|rs| - 1])]
  }

  /** A group's heading and total line. */
  function GroupHeading(g: ServiceGroup): seq<string>
  {
    [ServiceLabel + Upper(g.key), "     Total: " + Format(g.total) + "/month"]
  }

  function GroupLines(g: ServiceGroup): seq<string>
  {
    GroupHeading(g) + ResourceLines(g.resources)
  }

  function GroupsLines(gs: seq<ServiceGroup>): seq<string>
  {
    if gs == [] then [] else GroupsLines(gs[..|gs| - 1]) + GroupLines(gs[|gs| - 1])
  }

  /** The service groups of a project, in display order. */
  function DisplayedGroups(p: Project): seq<ServiceGroup>
  {
    SortByTotal(Services(ResourcesOf(p)))
  }

  /** A project's block: its heading, its groups' lines and a blank line. */
  function ProjectBlock(name: string, groups: seq<ServiceGroup>): seq<string>
  {
    [ProjectLabel + name, Divider] + GroupsLines(groups) + [""]
  }

  /** A project without a name is shown as "Unknown". */
  function ProjectLines(p: Project): seq<string>
  {
    ProjectBlock(GetOr(p.name, "Unknown"), DisplayedGroups(p))
  }

  function ProjectsLines(ps: seq<Project>): seq<string>
  {
    if ps == [] then [] else ProjectsLines(ps[..|ps| - 1]) + ProjectLines(ps[|ps| - 1])
  }

  function RecommendationLines(recs: seq<string>): seq<string>
  {
    if recs == [] then [] else RecommendationLines(recs[..|recs| - 1]) + ["  " + recs[|recs| - 1]]
  }

  function ClosingLines(): seq<string>
  {
    [RecommendationsHeading, Divider] + RecommendationLines(Recommendations) + ["", Rule, Footer, Rule]
  }

  /** The lines of the report; the report's text is these joined by newlines. */
  function ReportLines(doc: CostDocument, generated: string): seq<string>
  {
    BannerLines(generated) + SummaryLines(doc) + ProjectsLines(GetOr(doc.projects, [])) + ClosingLines()
  }

  /** Each group takes two lines plus one per resource. */
  lemma {:induction false} GroupsLinesCount(gs: seq<ServiceGroup>)
    ensures |GroupsLines(gs)| == 2 * |gs| + |AllResources(gs)|
  {
    if gs != [] {
      GroupsLinesCount(gs[..|gs| - 1]);
    }
  }

  /**
   * The groups a project shows: one per service, in non-increasing order of
   * total, listing every resource of the project exactly once, each group
   * non-empty, of one service, and totalling its resources' costs; the
   * totals add up to the sum of the project's resources' monthly costs.
   */
  lemma DisplayedGroupsOfProject(p: Project)
    ensures var shown, rs := DisplayedGroups(p), ResourcesOf(p);
      && |shown| == |Services(rs)|
      && Descending(shown)
      && multiset(AllResources(shown)) == multiset(rs)
      && TotalOf(shown) == SumCosts(rs)
      && forall g :: g in shown ==>
           && g.resources != []
           && g.total == SumCosts(g.resources)
           && forall m :: 0 <= m < |g.resources| ==> ServiceKey(g.resources[m]) == g.key
  {
    var rs := ResourcesOf(p);
    var gs := Services(rs);
    var shown := SortByTotal(gs);
    SortByTotalStable(gs);
    SortByTotalContents(gs);
    ServicesPartition(rs);
    ServicesTotal(rs);
    ServicesWellFormed(rs);
    assert |multiset(shown)| == |multiset(gs)|;
    forall g | g in shown
      ensures g.resources != [] && g.total == SumCosts(g.resources)
      ensures forall m :: 0 <= m < |g.resources| ==> ServiceKey(g.resources[m]) == g.key
    {
      assert g in multiset(shown);
      var i :| 0 <= i < |gs| && gs[i] == g;
    }
  }

  /** A project's block has a heading, a divider and a blank line, two lines per service, and one line per resource. */
  lemma ProjectLinesCount(p: Project)
    ensures |ProjectLines(p)| == 3 + 2 * |Services(ResourcesOf(p))| + |ResourcesOf(p)|
  {
    var shown := DisplayedGroups(p);
    DisplayedGroupsOfProject(p);
    GroupsLinesCount(shown);
    assert |AllResources(shown)| == |multiset(AllResources(shown))| == |multiset(ResourcesOf(p))|;
  }

  /**
   * The report's sections in order: five banner lines, six summary lines,
   * the projects' blocks, and sixteen closing lines.
   */
  lemma ReportSections(doc: CostDocument, generated: string)
    ensures var lines := ReportLines(doc, generated);
      && |lines| == 27 + |ProjectsLines(GetOr(doc.projects, []))|
      && lines[..5] == BannerLines(generated)
      && lines[5..11] == SummaryLines(doc)
      && lines[11..|lines| - 16] == ProjectsLines(GetOr(doc.projects, []))
      && lines[|lines| - 16..] == ClosingLines()
  {
    SummaryLinesLength(doc);
    ClosingLinesLength();
    Sections(BannerLines(generated), SummaryLines(doc), ProjectsLines(GetOr(doc.projects, [])), ClosingLines());
  }

  lemma SummaryLinesLength(doc: CostDocument)
    ensures |SummaryLines(doc)| == 6
  {
  }

  lemma ClosingLinesLength()
    ensures |ClosingLines()| == 16
  {
    RecommendationLinesAt(Recommendations);
  }

  /** Slicing a concatenation of four parts of known lengths gives back each part. */
  lemma Sections(banner: seq<string>, summary: seq<string>, projects: seq<string>, closing: seq<string>)
    requires |banner| == 5 && |summary| == 6 && |closing| == 16
    ensures var lines := banner + summary + projects + closing;
      && |lines| == 27 + |projects|
      && lines[..5] == banner
      && lines[5..11] == summary
      && lines[11..|lines| - 16] == projects
      && lines[|lines| - 16..] == closing
  {
    var lines := banner + summary + projects + closing;
    assert lines[..5] == banner;
    assert lines[5..11] == summary;
    assert lines[11..|lines| - 16] == projects;
    assert lines[|lines| - 16..] == closing;
  }

  /** An absent total is shown as "$0.00", and then so is the annual figure. */
  lemma MissingTotalsShowZero(doc: CostDocument)
    ensures doc.totalMonthlyCost.None? ==>
              SummaryLines(doc)[2] == MonthlyLabel + "$0.00" && SummaryLines(doc)[4] == AnnualLabel + "$0.00"
    ensures doc.totalHourlyCost.None? ==> SummaryLines(doc)[3] == HourlyLabel + "$0.00"
  {
    FormatSmallExamples();
  }

  /** A document without projects gives the banner, the summary and the closing section only. */
  lemma NoProjectsReport(doc: CostDocument, generated: string)
    ensures doc.projects.None? || doc.projects == Some([]) ==> |ReportLines(doc, generated)| == 27
  {
    ReportSections(doc, generated);
  }

  /** A project without a name is headed "Unknown". */
  lemma UnnamedProjectHeading(p: Project)
    ensures p.name.None? ==> ProjectLines(p)[0] == ProjectLabel + "Unknown"
  {
  }

  /** A resource without a cost is listed at "$0.00"; one without a name is listed as "Unknown". */
  lemma ResourceLineDefaults(r: Resource)
    ensures r.monthlyCost.None? ==> ResourceLine(r) == "     - " + GetOr(r.name, "Unknown") + ": " + "$0.00" + "/month"
    ensures r.name.None? ==> ResourceLine(r) == "     - " + "Unknown" + ": " + Format(CostOf(r)) + "/month"
  {
    FormatSmallExamples();
  }

  /** `line` is `caption` followed by text that reads back as the amount `cents`. */
  predicate ShowsAmount(line: string, caption: string, cents: Cents)
  {
    |caption| <= |line| && line[..|caption|] == caption && Parse(line[|caption|..]) == Some(cents)
  }

  /**
   * The summary figures read back as amounts: the monthly and hourly totals
   * of the document (zero when absent) and, for the annual cost, twelve
   * times the monthly total.  `ReportSections` places these lines at
   * positions 5 to 10 of the report.
   */
  lemma SummaryFigures(doc: CostDocument)
    ensures var lines, monthly := SummaryLines(doc), GetOr(doc.totalMonthlyCost, 0);
      && |lines| == 6
      && lines[0] == SummaryHeading
      && ShowsAmount(lines[2], MonthlyLabel, monthly)
      && ShowsAmount(lines[3], HourlyLabel, GetOr(doc.totalHourlyCost, 0))
      && ShowsAmount(lines[4], AnnualLabel, 12 * monthly)
  {
    var monthly, hourly := GetOr(doc.totalMonthlyCost, 0), GetOr(doc.totalHourlyCost, 0);
    FigureLine(MonthlyLabel, monthly);
    FigureLine(HourlyLabel, hourly);
    FigureLine(AnnualLabel, monthly * 12);
  }

  /** A caption followed by a rendered amount splits back into the caption and the amount. */
  lemma FigureLine(caption: string, cents: Cents)
    ensures ShowsAmount(caption + Format(cents), caption, cents)
  {
    assert (caption + Format(cents))[..|caption|] == caption;
    assert (caption + Format(cents))[|caption|..] == Format(cents);
    FormatRoundTrip(cents);
  }

  /** One line per recommendation, indented by two spaces, in order. */
  lemma {:induction false} RecommendationLinesAt(recs: seq<string>)
    ensures |RecommendationLines(recs)| == |recs|
    ensures forall i :: 0 <= i < |recs| ==> RecommendationLines(recs)[i] == "  " + recs[i]
  {
    if recs != [] {
      RecommendationLinesAt(recs[..|recs| - 1]);
    }
  }

  /**
   * Whatever the document, the report ends with the ten recommendations,
   * in order, followed by a blank line, a rule, the footer and a rule.
   */
  lemma RecommendationsFixed(doc: CostDocument, generated: string)
    ensures var lines := ReportLines(doc, generated);
      && |lines| >= 27
      && lines[|lines| - 16] == RecommendationsHeading
      && (forall i :: 0 <= i < 10 ==> lines[|lines| - 14 + i] == "  " + Recommendations[i])
      && lines[|lines| - 4..] == ["", Rule, Footer, Rule]
  {
    var lines := ReportLines(doc, generated);
    ReportSections(doc, generated);
    RecommendationLinesAt(Recommendations);
    var closing := lines[|lines| - 16..];
    assert closing == [RecommendationsHeading, Divider] + RecommendationLines(Recommendations) + ["", Rule, Footer, Rule];
    assert lines[|lines| - 4..] == closing[12..];
    forall i | 0 <= i < 10
      ensures lines[|lines| - 14 + i] == "  " + Recommendations[i]
    {
      assert lines[|lines| - 14 + i] == closing[2 + i];
    }
  }

  lemma ResourceLinesSnoc(rs: seq<Resource>, r: Resource)
    ensures ResourceLines(rs + [r]) == ResourceLines(rs) + [ResourceLine(r)]
  {
    assert (rs + [r])[..|rs|] == rs;
  }

  lemma GroupsLinesSnoc(gs: seq<ServiceGroup>, g: ServiceGroup)
    ensures GroupsLines(gs + [g]) == GroupsLines(gs) + GroupLines(g)
  {
    assert (gs + [g])[..|gs|] == gs;
  }

  lemma ProjectsLinesSnoc(ps: seq<Project>, p: Project)
    ensures ProjectsLines(ps + [p]) == ProjectsLines(ps) + ProjectLines(p)
  {
    assert (ps + [p])[..|ps|] == ps;
  }

  lemma GroupsStep(report: seq<string>, out: seq<string>, next: seq<string>, gs: seq<ServiceGroup>, j: nat)
    requires j < |gs|
    requires out == report + GroupsLines(gs[..j])
    requires next == out + GroupLines(gs[j])
    ensures next == report + GroupsLines(gs[..j + 1])
  {
    assert gs[..j + 1] == gs[..j] + [gs[j]];
    GroupsLinesSnoc(gs[..j], gs[j]);
    AppendAssoc(report, GroupsLines(gs[..j]), GroupLines(gs[j]));
  }

  lemma ProjectBlockSteps(report: seq<string>, name: string, groups: seq<ServiceGroup>)
    ensures report + [ProjectLabel + name] + [Divider] + GroupsLines(groups) + [""] == report + ProjectBlock(name, groups)
  {
    var head := [ProjectLabel + name, Divider];
    assert report + [ProjectLabel + name] + [Divider] == report + head;
    AppendAssoc(report, head, GroupsLines(groups));
    AppendAssoc(report, head + GroupsLines(groups), [""]);
  }

  lemma ProjectsStep(report: seq<string>, out: seq<string>, next: seq<string>, ps: seq<Project>, i: nat)
    requires i < |ps|
    requires out == report + ProjectsLines(ps[..i])
    requires next == out + ProjectLines(ps[i])
    ensures next == report + ProjectsLines(ps[..i + 1])
  {
    assert ps[..i + 1] == ps[..i] + [ps[i]];
    ProjectsLinesSnoc(ps[..i], ps[i]);
    AppendAssoc(report, ProjectsLines(ps[..i]), ProjectLines(ps[i]));
  }

  lemma RecommendationLinesSnoc(recs: seq<string>, r: string)
    ensures RecommendationLines(recs + [r]) == RecommendationLines(recs) + ["  " + r]
  {
    assert (recs + [r])[..|recs|] == recs;
  }

  lemma RecommendationsStep(report: seq<string>, out: seq<string>, next: seq<string>, recs: seq<string>, i: nat)
    requires i < |recs|
    requires out == report + RecommendationLines(recs[..i])
    requires next == out + ["  " + recs[i]]
    ensures next == report + RecommendationLines(recs[..i + 1])
  {
    assert recs[..i + 1] == recs[..i] + [recs[i]];
    RecommendationLinesSnoc(recs[..i], recs[i]);
  }

  lemma AppendAssoc(a: seq<string>, b: seq<string>, c: seq<string>)
    ensures a + b + c == a + (b + c)
  {
  }

  /** Appends the lines of one service group: heading, total, one line per resource. */
  method AppendGroup(report: seq<string>, group: ServiceGroup) returns (out: seq<string>)
    ensures out == report + GroupLines(group)
  {
    out := report + [ServiceLabel + Upper(group.key)];
    out := out + ["     Total: " + Format(group.total) + "/month"];
    ghost var heading := out;
    assert heading == report + GroupHeading(group);
    var k := 0;
    while k < |group.resources|
      invariant 0 <= k <= |group.resources|
      invariant out == heading + ResourceLines(group.resources[..k])
    {
      var resource := group.resources[k];
      var name := GetOr(resource.name, "Unknown");
      var cost := CostOf(resource);
      out := out + ["     - " + name + ": " + Format(cost) + "/month"];
      assert group.resources[..k + 1] == group.resources[..k] + [resource];
      ResourceLinesSnoc(group.resources[..k], resource);
      AppendAssoc(heading, ResourceLines(group.resources[..k]), [ResourceLine(resource)]);
      k := k + 1;
    }
    assert group.resources[..k] == group.resources;
    AppendAssoc(report, GroupHeading(group), ResourceLines(group.resources));
  }

  /** Appends the lines of each group in turn. */
  method AppendGroups(report: seq<string>, groups: seq<ServiceGroup>) returns (out: seq<string>)
    ensures out == report + GroupsLines(groups)
  {
    out := report;
    var j := 0;
    while j < |groups|
      invariant 0 <= j <= |groups|
      invariant out == report + GroupsLines(groups[..j])
    {
      var next := AppendGroup(out, groups[j]);
      GroupsStep(report, out, next, groups, j);
      out := next;
      j := j + 1;
    }
    assert groups[..j] == groups;
  }

  /**
   * Appends the block of one project: its heading, then its resources
   * grouped by service with the groups in display order, then a blank line.
   */
  method AppendProject(report: seq<string>, project: Project) returns (out: seq<string>)
    ensures out == report + ProjectLines(project)
  {
    var name := GetOr(project.name, "Unknown");
    out := report + [ProjectLabel + name];
    out := out + [Divider];
    var groups := DisplayOrder(ResourcesOf(project));
    out := AppendGroups(out, groups);
    out := out + [""];
    ProjectBlockSteps(report, name, groups);
  }

  /** The service groups of a list of resources, grouped and sorted as the report shows them. */
  method DisplayOrder(resources: seq<Resource>) returns (groups: seq<ServiceGroup>)
    ensures groups == SortByTotal(Services(resources))
  {
    var order, entries := GroupByService(resources);
    groups := SortByTotal(Items(order, entries));
  }

  /** Appends the block of each project in turn. */
  method AppendProjects(report: seq<string>, projects: seq<Project>) returns (out: seq<string>)
    ensures out == report + ProjectsLines(projects)
  {
    out := report;
    var i := 0;
    while i < |projects|
      invariant 0 <= i <= |projects|
      invariant out == report + ProjectsLines(projects[..i])
    {
      var next := AppendProject(out, projects[i]);
      ProjectsStep(report, out, next, projects, i);
      out := next;
      i := i + 1;
    }
    assert projects[..i] == projects;
  }

  /** Appends the recommendations heading, the ten recommendations and the footer. */
  method AppendClosing(report: seq<string>) returns (out: seq<string>)
    ensures out == report + ClosingLines()
  {
    out := report + [RecommendationsHeading];
    out := out + [Divider];
    ghost var listed := out;
    var r := 0;
    while r < |Recommendations|
      invariant 0 <= r <= |Recommendations|
      invariant out == listed + RecommendationLines(Recommendations[..r])
    {
      ghost var prev := out;
      out := out + ["  " + Recommendations[r]];
      RecommendationsStep(listed, prev, out, Recommendations, r);
      r := r + 1;
    }
    assert Recommendations[..r] == Recommendations;
    out := out + [""];
    out := out + [Rule];
    out := out + [Footer];
    out := out + [Rule];
  }

  /** Builds the report line by line, as the source does, and joins the lines. */
  method GenerateReport(doc: CostDocument, generated: string) returns (text: string)
    ensures text == JoinLines(ReportLines(doc, generated))
  {
    var report: seq<string> := [];
    report := report + [Rule];
    report := report + ["AWS ECS Infrastructure Cost Estimation Report"];
    report := report + ["Generated: " + generated];
    report := report + [Rule];
    report := report + [""];

    var totalMonthly := GetOr(doc.totalMonthlyCost, 0);
    var totalHourly := GetOr(doc.totalHourlyCost, 0);
    report := report + [SummaryHeading];
    report := report + [Divider];
    report := report + [MonthlyLabel + Format(totalMonthly)];
    report := report + [HourlyLabel + Format(totalHourly)];
    report := report + [AnnualLabel + Format(totalMonthly * 12)];
    report := report + [""];
    assert report == BannerLines(generated) + SummaryLines(doc);

    report := AppendProjects(report, GetOr(doc.projects, []));
    report := AppendClosing(report);
    text := JoinLines(report);
  }
}
