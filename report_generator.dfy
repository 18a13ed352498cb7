/**
 * The report builder of the dashboard
 * (client/src/components/dashboard/ReportGenerator.tsx): twelve metrics with
 * check boxes, four templates that set the name, time range, format and
 * checked metrics, the count of checked metrics, the Generate button's
 * enablement and the time-range label.
 */
module ReportGenerator {
  import opened Core

  datatype Metric = Metric(id: string, name: string, category: string, description: string, checked: bool)

  datatype Template = Template(id: string, name: string, description: string, metrics: seq<string>,
                               timeFrame: string, format: string)

  /** The metrics as the component starts, eight of them checked. */
  const InitialMetrics: seq<Metric> := [
    Metric("leads-by-source", "Leads by Source", "leads", "Breakdown of lead sources and their quantities", true),
    Metric("lead-conversion", "Lead Conversion Rates", "leads", "Conversion percentages through each pipeline stage", true),
    Metric("high-value-leads", "High Value Leads", "leads", "List of highest-scoring leads and their details", false),
    Metric("property-types", "Property Types", "property", "Distribution of property types in your database", true),
    Metric("property-values", "Property Values", "property", "Value ranges of properties in your pipeline", false),
    Metric("monthly-revenue", "Monthly Revenue", "financial", "Revenue trends over the selected period", true),
    Metric("campaign-roi", "Campaign ROI", "financial", "Return on investment for marketing campaigns", true),
    Metric("profit-margins", "Profit Margins", "financial", "Gross and net margins on deals closed", false),
    Metric("deal-metrics", "Deal Metrics", "deals", "Statistics on deals including averages and totals", true),
    Metric("time-to-close", "Time to Close", "deals", "Average days from lead acquisition to closing", false),
    Metric("ai-accuracy", "AI Scoring Accuracy", "ai", "Effectiveness of AI-based lead scoring", true),
    Metric("scraping-success", "Scraping Success Rates", "ai", "Success rates of automated data collection", true)
  ]

  // What each template says about itself.
  const MonthlyPerformanceAbout := "Overview of monthly business metrics, leads, and deals"
  const LeadAnalysisAbout := "Detailed analysis of lead sources, quality, and conversion"
  const FinancialSummaryAbout := "Revenue, costs, ROI, and profit metrics"
  const AiPerformanceAbout := "Analysis of AI tools effectiveness and accuracy"

  const Templates: seq<Template> := [
    Template("monthly-performance", "Monthly Performance", MonthlyPerformanceAbout,
             ["leads-by-source", "lead-conversion", "monthly-revenue", "deal-metrics"], "lastMonth", "pdf"),
    Template("lead-analysis", "Lead Analysis", LeadAnalysisAbout,
             ["leads-by-source", "lead-conversion", "high-value-leads", "ai-accuracy"], "last3Months", "pdf"),
    Template("financial-summary", "Financial Summary", FinancialSummaryAbout,
             ["monthly-revenue", "campaign-roi", "profit-margins", "deal-metrics"], "lastQuarter", "excel"),
    Template("ai-performance", "AI Performance", AiPerformanceAbout,
             ["ai-accuracy", "scraping-success", "high-value-leads", "lead-conversion"], "last6Months", "pdf")
  ]

  /** The metric ids, in order. */
  function Ids(ms: seq<Metric>): (r: seq<string>)
    ensures |r| == |ms| && forall i :: 0 <= i < |ms| ==> r[i] == ms[i].id
  {
    seq(|ms|, i requires 0 <= i < |ms| => ms[i].id)
  }

  predicate DistinctStrings(xs: seq<string>) {
    forall i, j :: 0 <= i < j < |xs| ==> xs[i] != xs[j]
  }

  /** `reportTemplates.find(t => t.id === templateId)`. */
  function FindTemplate(ts: seq<Template>, id: string): (r: Option<Template>)
    ensures r.Some? ==> r.value in ts && r.value.id == id
    ensures r.None? ==> forall k :: 0 <= k < |ts| ==> ts[k].id != id
    decreases |ts|
  {
    if ts == [] then None else if ts[0].id == id then Some(ts[0]) else FindTemplate(ts[1..], id)
  }

  /** The check boxes after a template: exactly its metrics checked, everything else kept. */
  function CheckOnly(ms: seq<Metric>, ids: seq<string>): (r: seq<Metric>)
    ensures |r| == |ms| && Ids(r) == Ids(ms)
    ensures forall i :: 0 <= i < |ms| ==> r[i].checked == (ms[i].id in ids) && r[i].(checked := ms[i].checked) == ms[i]
  {
    seq(|ms|, i requires 0 <= i < |ms| => ms[i].(checked := ms[i].id in ids))
  }

  /** `toggleMetric`: the metric with the id gets the new state, the others stay. */
  function Toggle(ms: seq<Metric>, id: string, checked: bool): (r: seq<Metric>)
    ensures |r| == |ms| && Ids(r) == Ids(ms)
    ensures forall i :: 0 <= i < |ms| ==> r[i] == if ms[i].id == id then ms[i].(checked := checked) else ms[i]
  {
    seq(|ms|, i requires 0 <= i < |ms| => if ms[i].id == id then ms[i].(checked := checked) else ms[i])
  }

  /** `getSelectedMetricsCount`. */
  function SelectedCount(ms: seq<Metric>): (n: nat)
    ensures n <= |ms|
    decreases |ms|
  {
    if ms == [] then 0 else (if ms[0].checked then 1 else 0) + SelectedCount(ms[1..])
  }

  lemma InitialSelected()
    ensures |InitialMetrics| == 12 && SelectedCount(InitialMetrics) == 8
  {
    var ms := InitialMetrics;
    assert ms[4..][4..][4..] == [];
  }

  /** The ids of a list of metrics, as a set. */
  function IdSet(ms: seq<Metric>): set<string> {
    set i | 0 <= i < |ms| :: ms[i].id
  }

  lemma {:induction false} IdSetCons(ms: seq<Metric>)
    requires ms != []
    ensures IdSet(ms) == {ms[0].id} + IdSet(ms[1..])
  {
    var rest := ms[1..];
    forall x | x in IdSet(ms)
      ensures x in {ms[0].id} + IdSet(rest)
    {
      var i :| 0 <= i < |ms| && ms[i].id == x;
      if i > 0 {
        assert rest[i - 1].id == x;
      }
    }
    forall x | x in IdSet(rest)
      ensures x in IdSet(ms)
    {
      var i :| 0 <= i < |rest| && rest[i].id == x;
      assert ms[i + 1].id == x;
    }
  }

  lemma {:induction false} DistinctTail(ms: seq<Metric>)
    requires ms != [] && DistinctStrings(Ids(ms))
    ensures DistinctStrings(Ids(ms[1..])) && ms[0].id !in IdSet(ms[1..])
  {
    var rest := ms[1..];
    assert forall i :: 0 <= i < |rest| ==> Ids(rest)[i] == Ids(ms)[i + 1];
    forall i | 0 <= i < |rest|
      ensures rest[i].id != ms[0].id
    {
      assert Ids(ms)[0] != Ids(ms)[i + 1];
    }
  }

  /** With distinct ids, the metrics checked after a template are as many as its ids that name one. */
  lemma {:induction false} CheckOnlyCount(ms: seq<Metric>, ids: set<string>, list: seq<string>)
    requires DistinctStrings(Ids(ms)) && ids == set x | x in list
    ensures SelectedCount(CheckOnly(ms, list)) == |ids * IdSet(ms)|
    decreases |ms|
  {
    if ms != [] {
      var m, rest := ms[0], ms[1..];
      DistinctTail(ms);
      IdSetCons(ms);
      CheckOnlyCount(rest, ids, list);
      assert CheckOnly(ms, list)[1..] == CheckOnly(rest, list);
      AddOneCard(ids, m.id, IdSet(rest));
      assert CheckOnly(ms, list)[0].checked == (m.id in ids);
    }
  }

  lemma {:induction false} AddOneCard(ids: set<string>, x: string, rest: set<string>)
    requires x !in rest
    ensures |ids * ({x} + rest)| == |ids * rest| + if x in ids then 1 else 0
  {
    var a, b := ids * {x}, ids * rest;
    assert ids * ({x} + rest) == a + b && a !! b;
    if x in ids {
      assert a == {x};
    } else {
      assert a == {};
    }
  }

  /** A list of distinct strings has as many elements as its set. */
  lemma {:induction false} DistinctCard(list: seq<string>)
    requires DistinctStrings(list)
    ensures |set x | x in list| == |list|
    decreases |list|
  {
    if list != [] {
      var rest := list[1..];
      assert DistinctStrings(rest) by {
        assert forall i :: 0 <= i < |rest| ==> rest[i] == list[i + 1];
      }
      DistinctCard(rest);
      assert (set x | x in list) == {list[0]} + (set x | x in rest);
      assert list[0] !in rest by {
        forall i | 0 <= i < |rest|
          ensures rest[i] != list[0]
        {
          assert rest[i] == list[i + 1];
        }
      }
    }
  }

  /**
   * A template naming distinct metric ids that all exist leaves exactly that
   * many metrics checked.
   */
  lemma {:induction false} TemplateCount(ms: seq<Metric>, list: seq<string>)
    requires DistinctStrings(Ids(ms)) && DistinctStrings(list) && forall x :: x in list ==> x in Ids(ms)
    ensures SelectedCount(CheckOnly(ms, list)) == |list|
  {
    var ids := set x | x in list;
    CheckOnlyCount(ms, ids, list);
    DistinctCard(list);
    assert ids * IdSet(ms) == ids by {
      forall x | x in ids
        ensures x in IdSet(ms)
      {
        var i :| 0 <= i < |ms| && Ids(ms)[i] == x;
      }
    }
  }

  /** The twelve metric ids are distinct. */
  lemma InitialIdsDistinct()
    ensures DistinctStrings(Ids(InitialMetrics))
  {
    var ids := Ids(InitialMetrics);
    assert ids == ["leads-by-source", "lead-conversion", "high-value-leads", "property-types",
                   "property-values", "monthly-revenue", "campaign-roi", "profit-margins",
                   "deal-metrics", "time-to-close", "ai-accuracy", "scraping-success"];
    assert ids[0][4] != ids[1][4] && ids[3][3] != ids[7][3];
  }

  /** Every template names four distinct metrics among the twelve. */
  lemma TemplatesWellFormed()
    ensures forall t :: t in Templates ==>
      (|t.metrics| == 4 && DistinctStrings(t.metrics) && forall x :: x in t.metrics ==> x in Ids(InitialMetrics))
  {
    var ids := Ids(InitialMetrics);
    assert ids == ["leads-by-source", "lead-conversion", "high-value-leads", "property-types",
                   "property-values", "monthly-revenue", "campaign-roi", "profit-margins",
                   "deal-metrics", "time-to-close", "ai-accuracy", "scraping-success"];
  }

  /**
   * After a built-in template the ids are still the twelve, exactly its four
   * metrics are checked, and it has given the report a name.
   */
  lemma {:induction false} AppliedTemplate(ms: seq<Metric>, t: Template)
    requires Ids(ms) == Ids(InitialMetrics) && t in Templates
    ensures Ids(CheckOnly(ms, t.metrics)) == Ids(InitialMetrics)
    ensures SelectedCount(CheckOnly(ms, t.metrics)) == 4 && t.name != ""
  {
    TemplateChecksFour(ms, t);
  }

  /** Whatever was checked before, a built-in template leaves exactly its four metrics checked. */
  lemma {:induction false} TemplateChecksFour(ms: seq<Metric>, t: Template)
    requires Ids(ms) == Ids(InitialMetrics) && t in Templates
    ensures SelectedCount(CheckOnly(ms, t.metrics)) == 4
  {
    InitialIdsDistinct();
    TemplatesWellFormed();
    TemplateCount(ms, t.metrics);
  }

  /**
   * The labels of the time ranges: the five presets, "custom" with both dates
   * (formatted by `format`) or without, and anything else.
   */
  function TimeRangeLabel(timeRange: string, dateFrom: Option<int>, dateTo: Option<int>, format: int -> string): (r: string)
    ensures timeRange == "custom" ==>
      r == (if dateFrom.Some? && dateTo.Some? then format(dateFrom.value) + " - " + format(dateTo.value) else "Custom Range")
    ensures timeRange !in ["lastMonth", "last3Months", "lastQuarter", "last6Months", "lastYear", "custom"] ==> r == "Select Range"
    ensures timeRange in ["lastMonth", "last3Months", "lastQuarter", "last6Months", "lastYear"] ==>
      r in ["Last Month", "Last 3 Months", "Last Quarter", "Last 6 Months", "Last Year"]
  {
    match timeRange
    case "lastMonth" => "Last Month"
    case "last3Months" => "Last 3 Months"
    case "lastQuarter" => "Last Quarter"
    case "last6Months" => "Last 6 Months"
    case "lastYear" => "Last Year"
    case "custom" => if dateFrom.Some? && dateTo.Some? then format(dateFrom.value) + " - " + format(dateTo.value) else "Custom Range"
    case _ => "Select Range"
  }

  /** The component's state. */
  class Builder {
    var reportName: string
    var selectedFormat: string
    var timeRange: string
    var dateFrom: Option<int>
    var dateTo: Option<int>
    var isGenerating: bool
    var metrics: seq<Metric>

    /** The metric list keeps the twelve ids in their order; only the check marks change. */
    predicate Valid()
      reads this
    {
      Ids(metrics) == Ids(InitialMetrics)
    }

    constructor()
      ensures Valid()
      ensures reportName == "" && selectedFormat == "pdf" && timeRange == "lastMonth"
      ensures dateFrom.None? && dateTo.None? && !isGenerating && metrics == InitialMetrics
      ensures !CanGenerate()
    {
      reportName := "";
      selectedFormat := "pdf";
      timeRange := "lastMonth";
      dateFrom := None;
      dateTo := None;
      isGenerating := false;
      metrics := InitialMetrics;
    }

    function Count(): nat
      reads this
    {
      SelectedCount(metrics)
    }

    /** The Generate button is enabled: not generating, some metric checked, a name given. */
    predicate CanGenerate()
      reads this
    {
      !isGenerating && Count() != 0 && reportName != ""
    }

    /** `applyTemplate`: an unknown id changes nothing. */
    method ApplyTemplate(id: string)
      requires Valid()
      modifies this`reportName, this`timeRange, this`selectedFormat, this`metrics
      ensures Valid()
      ensures FindTemplate(Templates, id).None? ==>
        reportName == old(reportName) && timeRange == old(timeRange) && selectedFormat == old(selectedFormat) &&
        metrics == old(metrics)
      ensures FindTemplate(Templates, id).Some? ==>
        var t := FindTemplate(Templates, id).value;
        reportName == t.name && timeRange == t.timeFrame && selectedFormat == t.format &&
        metrics == CheckOnly(old(metrics), t.metrics) && Count() == 4 && reportName != ""
    {
      var t := FindTemplate(Templates, id);
      if t.None? {
        return;
      }
      reportName := t.value.name;
      timeRange := t.value.timeFrame;
      selectedFormat := t.value.format;
      AppliedTemplate(metrics, t.value);
      metrics := CheckOnly(metrics, t.value.metrics);
    }

    /**
     * `toggleMetric`: only the metric with that id changes, and the count
     * moves by at most one.
     */
    method ToggleMetric(id: string, checked: bool)
      requires Valid()
      modifies this`metrics
      ensures Valid()
      ensures metrics == Toggle(old(metrics), id, checked)
      ensures id !in Ids(old(metrics)) ==> metrics == old(metrics)
    {
      metrics := Toggle(metrics, id, checked);
    }

    method SetReportName(name: string)
      modifies this`reportName
      ensures reportName == name
    {
      reportName := name;
    }

    method SetTimeRange(range: string)
      modifies this`timeRange
      ensures timeRange == range
    {
      timeRange := range;
    }

    method SetDates(from: Option<int>, to: Option<int>)
      modifies this`dateFrom, this`dateTo
      ensures dateFrom == from && dateTo == to
    {
      dateFrom := from;
      dateTo := to;
    }

    method SetFormat(f: string)
      modifies this`selectedFormat
      ensures selectedFormat == f
    {
      selectedFormat := f;
    }

    /** `handleGenerateReport`, and the timer that ends it. */
    method Generate()
      modifies this`isGenerating
      ensures isGenerating
    {
      isGenerating := true;
    }

    method Finish()
      modifies this`isGenerating
      ensures !isGenerating
    {
      isGenerating := false;
    }
  }

  /** Toggling one metric moves the count by at most one, as the check mark goes. */
  lemma {:induction false} ToggleCount(ms: seq<Metric>, id: string, checked: bool)
    requires DistinctStrings(Ids(ms))
    ensures var n, m := SelectedCount(ms), SelectedCount(Toggle(ms, id, checked));
      (id !in Ids(ms) ==> m == n) && (id in Ids(ms) && checked ==> n <= m <= n + 1) &&
      (id in Ids(ms) && !checked ==> n - 1 <= m <= n)
    decreases |ms|
  {
    if ms != [] {
      var rest := ms[1..];
      assert DistinctStrings(Ids(rest)) by {
        assert forall i :: 0 <= i < |rest| ==> Ids(rest)[i] == Ids(ms)[i + 1];
      }
      assert Toggle(ms, id, checked)[1..] == Toggle(rest, id, checked);
      ToggleCount(rest, id, checked);
      if ms[0].id == id {
        assert id !in Ids(rest) by {
          forall i | 0 <= i < |rest|
            ensures Ids(rest)[i] != id
          {
            assert Ids(ms)[0] != Ids(ms)[i + 1];
          }
        }
      } else {
        assert id in Ids(ms) <==> id in Ids(rest) by {
          assert Ids(ms) == [ms[0].id] + Ids(rest);
        }
      }
    }
  }

  /** Every template's time range has one of the fixed labels. */
  lemma {:induction false} TemplateLabels(format: int -> string, from: Option<int>, to: Option<int>)
    ensures forall t :: t in Templates ==>
      TimeRangeLabel(t.timeFrame, from, to, format) in ["Last Month", "Last 3 Months", "Last Quarter", "Last 6 Months"]
  {
  }
}
