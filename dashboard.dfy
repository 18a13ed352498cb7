/**
 * The insight hub page (RezGuruAI/client/src/pages/Dashboard.tsx): the
 * expand/collapse flags of its sections and the CSV text behind the export
 * button, read back with the reader of the Csv module.
 */
module Dashboard {
  import opened Core
  import opened Text
  import opened Csv

  // ---------------------------------------------------------------------------
  // Section flags
  // ---------------------------------------------------------------------------

  const InitialSections: map<string, bool> := map[
    "metrics" := true, "analytics" := true, "advancedAnalytics" := false, "reports" := false,
    "propertyInsights" := false, "leads" := true, "automation" := true, "documents" := true]

  /** A section is shown when its flag is set; a missing flag reads as unset. */
  predicate Expanded(flags: map<string, bool>, section: string) {
    section in flags && flags[section]
  }

  /** `toggleSection`: the named flag becomes the negation of what it read as, the others stay. */
  function Toggled(flags: map<string, bool>, section: string): (r: map<string, bool>)
    ensures Expanded(r, section) == !Expanded(flags, section) && section in r
    ensures forall k :: k != section ==> (k in r <==> k in flags) && (k in r ==> r[k] == flags[k])
  {
    flags[section := !Expanded(flags, section)]
  }

  /** Toggling twice shows the same sections; on a section that has a flag it restores the map itself. */
  lemma {:induction false} ToggleTwice(flags: map<string, bool>, section: string)
    ensures forall k :: Expanded(Toggled(Toggled(flags, section), section), k) == Expanded(flags, k)
    ensures section in flags ==> Toggled(Toggled(flags, section), section) == flags
  {
    var twice := Toggled(Toggled(flags, section), section);
    if section in flags {
      assert twice[section] == flags[section];
      assert twice.Keys == flags.Keys;
    }
  }

  /** Initially the metrics, analytics, leads, automation and documents sections are expanded, the rest not. */
  lemma {:induction false} InitiallyExpanded(section: string)
    ensures Expanded(InitialSections, section) <==>
      section in {"metrics", "analytics", "leads", "automation", "documents"}
  {
  }

  /** The page's state. */
  class DashboardView {
    var expandedSections: map<string, bool>
    var activeTab: string

    constructor()
      ensures expandedSections == InitialSections && activeTab == "overview"
    {
      expandedSections := InitialSections;
      activeTab := "overview";
    }

    method ToggleSection(section: string)
      modifies this`expandedSections
      ensures expandedSections == Toggled(old(expandedSections), section)
    {
      expandedSections := Toggled(expandedSections, section);
    }

    method SetActiveTab(tab: string)
      modifies this`activeTab
      ensures activeTab == tab
    {
      activeTab := tab;
    }
  }

  // ---------------------------------------------------------------------------
  // The exported CSV
  // ---------------------------------------------------------------------------

  const Headers: seq<string> := ["Category", "Metric", "Value", "Change", "Period"]

  const MetricsData: seq<seq<string>> := [
    ["Leads", "Total Leads", "248", "+12%", "YTD"],
    ["Leads", "New Leads (This Month)", "37", "+8%", "MoM"],
    ["Leads", "Conversion Rate", "8.2%", "+1.5%", "YTD"],
    ["Deals", "Average Deal Size", "$158,000", "+5.3%", "YTD"],
    ["Deals", "Biggest Deal", "$425,000", "", "YTD"],
    ["Deals", "Close Rate", "22%", "+3%", "QoQ"],
    ["Revenue", "Total Revenue", "$2.4M", "+18%", "YTD"],
    ["Revenue", "Revenue Target", "$3.5M", "", "2025"],
    ["Performance", "ROI", "342%", "+28%", "YTD"],
    ["Performance", "Lead Response Time", "1.2 hours", "-15%", "QoQ"],
    ["Properties", "Properties Under Contract", "14", "+3", "MoM"],
    ["Properties", "Average Days on Market", "68", "-12", "QoQ"]
  ]

  /** The export as written: no cell is quoted. */
  function ExportAsWritten(): string {
    CsvText(Headers, MetricsData, AsIs)
  }

  /**
   * As written, the export has the header and twelve data lines, but the two
   * lines whose value holds a thousands separator read as six fields, though
   * every row has five cells.
   */
  lemma AsWrittenSplitsDealRows()
    ensures |ReadCsv(ExportAsWritten())| == 13
    ensures |ReadCsv(ExportAsWritten())[4]| == 6 && |ReadCsv(ExportAsWritten())[5]| == 6
    ensures |MetricsData[3]| == 5 && |MetricsData[4]| == 5
  {
    ExportClean();
    DealRows();
    AsWrittenTwoWide(Headers, MetricsData);
  }

  /** Any clean table of twelve rows whose fourth and fifth rows are wide reads that way. */
  lemma {:induction false} AsWrittenTwoWide(headers: seq<string>, rows: seq<seq<string>>)
    requires CleanCells([headers] + rows) && forall j :: 0 <= j < |rows| ==> |rows[j]| == 5
    requires |headers| >= 1 && |rows| == 12 && WideRow(rows[3], 4) && WideRow(rows[4], 4)
    ensures var read := ReadCsv(CsvText(headers, rows, AsIs)); |read| == 13 && |read[4]| == 6 && |read[5]| == 6
  {
    AsWrittenWideRow(headers, rows, 3, 4);
    AsWrittenWideRow(headers, rows, 4, 4);
  }

  /** The two rows whose value cell holds a comma, at index 4, and no other. */
  lemma DealRows()
    ensures WideRow(MetricsData[3], 4) && WideRow(MetricsData[4], 4)
  {
    var r, q := MetricsData[3], MetricsData[4];
    assert r[2][..4] == "$158" && r[2][5..] == "000";
    assert q[2][..4] == "$425" && q[2][5..] == "000";
  }

  /** Every cell of the export is free of quotes and line breaks, and every row has five cells. */
  lemma ExportClean()
    ensures CleanCells([Headers] + MetricsData)
    ensures forall i :: 0 <= i < |MetricsData| ==> |MetricsData[i]| == 5
  {
    var all := [Headers] + MetricsData;
    forall i | 0 <= i < |all|
      ensures CleanRow(all[i]) && (i > 0 ==> |MetricsData[i - 1]| == 5)
    {
      if i < 2 {
        RowsCleanA(i);
      } else if i < 4 {
        RowsCleanB(i);
      } else if i < 6 {
        RowsCleanC(i);
      } else if i < 8 {
        RowsCleanD(i);
      } else if i < 10 {
        RowsCleanE(i);
      } else if i < 12 {
        RowsCleanF(i);
      } else {
        RowsCleanG(i);
      }
    }
    forall i | 0 <= i < |MetricsData|
      ensures |MetricsData[i]| == 5
    {
      assert i + 1 > 0 && i + 1 < |all|;
    }
  }

  // The rows of the export checked two at a time, which keeps each proof small.

  lemma {:induction false} RowsCleanA(i: nat)
    requires i < 2
    ensures CleanRow(([Headers] + MetricsData)[i]) && (i > 0 ==> |MetricsData[i - 1]| == 5)
  {
  }

  lemma {:induction false} RowsCleanB(i: nat)
    requires 2 <= i < 4
    ensures CleanRow(([Headers] + MetricsData)[i]) && (i > 0 ==> |MetricsData[i - 1]| == 5)
  {
  }

  lemma {:induction false} RowsCleanC(i: nat)
    requires 4 <= i < 6
    ensures CleanRow(([Headers] + MetricsData)[i]) && (i > 0 ==> |MetricsData[i - 1]| == 5)
  {
  }

  lemma {:induction false} RowsCleanD(i: nat)
    requires 6 <= i < 8
    ensures CleanRow(([Headers] + MetricsData)[i]) && (i > 0 ==> |MetricsData[i - 1]| == 5)
  {
  }

  lemma {:induction false} RowsCleanE(i: nat)
    requires 8 <= i < 10
    ensures CleanRow(([Headers] + MetricsData)[i]) && (i > 0 ==> |MetricsData[i - 1]| == 5)
  {
  }

  lemma {:induction false} RowsCleanF(i: nat)
    requires 10 <= i < 12
    ensures CleanRow(([Headers] + MetricsData)[i]) && (i > 0 ==> |MetricsData[i - 1]| == 5)
  {
  }

  lemma {:induction false} RowsCleanG(i: nat)
    requires i == 12
    ensures CleanRow(([Headers] + MetricsData)[i]) && (i > 0 ==> |MetricsData[i - 1]| == 5)
  {
  }

  /** The export with the commas quoted. */
  function Export(): string {
    CsvText(Headers, MetricsData, Quoted)
  }

  /** The quoted export reads back as exactly the header and the twelve rows of five cells. */
  lemma ExportReadsBack()
    ensures ReadCsv(Export()) == [Headers] + MetricsData
  {
    ExportClean();
    QuotedReads(Headers, MetricsData);
  }
}
