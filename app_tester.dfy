/**
 * The testing script's side of the issue tracker (fix_scripts/test_app.py):
 * the issue registry that hands out ids, the application-type guess from the
 * manifest files, and the four tables `save_issues_to_markdown` writes, with
 * what the repair script reads back from them.
 */
module AppTester {
  import opened Core
  import opened Text
  import opened IssueTracker

  /** The priority of an issue added without one. */
  const DefaultPriority: string := "Medium"

  /** The status of every newly identified issue. */
  const Identified: string := "Identified"

  /** The placeholder written in the root-cause column. */
  const ToBeAnalyzed: string := "To be analyzed"

  /** The status written in every row of the fixes table. */
  const Pending: string := "Pending"

  /** Ids run 1, 2, 3, … in list order. */
  ghost predicate Sequential(xs: seq<Issue>) {
    forall i :: 0 <= i < |xs| ==> xs[i].id == i + 1
  }

  /** The global `issues` list and `issue_counter`, changed only by `add_issue`. */
  class IssueLog {
    var issues: seq<Issue>
    var counter: int

    /** The counter is the number of issues, ids are sequential, and every issue is still identified only. */
    ghost predicate Valid()
      reads this
    {
      counter == |issues| && Sequential(issues) &&
      forall i :: 0 <= i < |issues| ==> issues[i].status == Identified && issues[i].rootCause.None?
    }

    /** `issues = []` and `issue_counter = 0` at start-up. */
    constructor ()
      ensures Valid() && issues == [] && counter == 0
    {
      issues := [];
      counter := 0;
    }

    /**
     * `add_issue`: the counter goes up by one and the new issue, carrying the
     * new counter as its id, is appended. An omitted priority is "Medium";
     * omitted (or empty) files are the empty list.
     */
    method AddIssue(feature: string, description: string, priority: Option<string>, files: Option<seq<string>>)
      requires Valid()
      modifies this
      ensures Valid()
      ensures counter == old(counter) + 1
      ensures issues == old(issues) + [Issue(counter, feature, description,
        if priority.Some? then priority.value else DefaultPriority, Identified, None,
        if files.Some? then files.value else [])]
    {
      counter := counter + 1;
      var p := if priority.Some? then priority.value else DefaultPriority;
      var fs := if files.Some? then files.value else [];
      issues := issues + [Issue(counter, feature, description, p, Identified, None, fs)];
    }
  }

  /**
   * `detect_application_type`. Both manifests give "hybrid", one of them
   * names its ecosystem; without either, the counts of `.py` and `.js` files
   * decide (`None`: the counting command failed).
   */
  function AppType(hasPython: bool, hasNode: bool, pythonFiles: Option<nat>, jsFiles: Option<nat>): (r: string)
    ensures r in ["hybrid", "python", "node", "unknown"]
    ensures r == "hybrid" <==> hasPython && hasNode
    ensures hasPython && !hasNode ==> r == "python"
    ensures !hasPython && hasNode ==> r == "node"
    ensures r == "unknown" ==> !hasPython && !hasNode
    ensures !hasPython && !hasNode ==> (r == "python" <==> pythonFiles.Some? && pythonFiles.value > 0)
    ensures !hasPython && !hasNode && !(pythonFiles.Some? && pythonFiles.value > 0) ==>
      (r == "node" <==> jsFiles.Some? && jsFiles.value > 0)
  {
    if hasPython && hasNode then "hybrid"
    else if hasPython then "python"
    else if hasNode then "node"
    else if pythonFiles.Some? && pythonFiles.value > 0 then "python"
    else if jsFiles.Some? && jsFiles.value > 0 then "node"
    else "unknown"
  }

  // --------------------------------------------------------------- tables

  /** The issues table body: one row per issue, joined by newlines. */
  function IssuesTableText(xs: seq<Issue>): string {
    Join(IssueRows(xs), "\n")
  }

  /** `| {id} | To be analyzed | {", ".join(files)} |`. */
  function CauseRow(x: Issue): string {
    Line([Pad(IntToString(x.id)), Pad(ToBeAnalyzed), Pad(Join(x.files, ", "))])
  }

  /** Root-cause rows, only for the issues that name affected files. */
  function CauseRows(xs: seq<Issue>): seq<string>
    decreases |xs|
  {
    if xs == [] then []
    else
      var rest := CauseRows(xs[..|xs| - 1]);
      if xs[|xs| - 1].files != [] then rest + [CauseRow(xs[|xs| - 1])] else rest
  }

  function CausesTableText(xs: seq<Issue>): string {
    Join(CauseRows(xs), "\n")
  }

  /** `| {id} | | | | Pending |`. */
  function PendingRow(x: Issue): string {
    Line([Pad(IntToString(x.id)), " ", " ", " ", Pad(Pending)])
  }

  /** `| {id} | | | | |`. */
  function TestingRow(x: Issue): string {
    Line([Pad(IntToString(x.id)), " ", " ", " ", " "])
  }

  function PendingRows(xs: seq<Issue>): seq<string> {
    seq(|xs|, i requires 0 <= i < |xs| => PendingRow(xs[i]))
  }

  function TestingRows(xs: seq<Issue>): seq<string> {
    seq(|xs|, i requires 0 <= i < |xs| => TestingRow(xs[i]))
  }

  /** Every fixes row reads back as the issue's id, three blank cells and "Pending". */
  lemma {:induction false} PendingRowCells(x: Issue)
    requires x.id >= 0
    ensures Cells(PendingRow(x)) == [IntToString(x.id), "", "", "", Pending]
  {
    NumberCell(x.id);
    assert IntToString(x.id) == NatToString(x.id);
    BlankCells(IntToString(x.id), Pending);
  }

  /** Every testing row reads back as the issue's id and four blank cells. */
  lemma {:induction false} TestingRowCells(x: Issue)
    requires x.id >= 0
    ensures Cells(TestingRow(x)) == [IntToString(x.id), "", "", "", ""]
  {
    NumberCell(x.id);
    assert IntToString(x.id) == NatToString(x.id);
    var pieces := [Pad(IntToString(x.id)), " ", " ", " ", " "];
    LineCells(pieces);
    TrimPadded(IntToString(x.id));
    assert Trim(" ") == "" by {
      assert TrimStart(" ") == TrimStart(" "[1..]);
    }
  }

  // ------------------------------------------------- reading the tables back

  /** Rows joined by newlines, stripped and split, are the rows again. */
  lemma {:induction false} JoinedRowsBody(rows: seq<string>)
    requires |rows| >= 1 && forall i :: 0 <= i < |rows| ==> IsRowLine(rows[i])
    ensures BodyRows(Join(rows, "\n")) == rows
  {
    var j := Join(rows, "\n");
    JoinedRowsEdges(rows, "\n");
    TrimUnpadded(j);
    assert "\n" == ['\n'];
    SplitJoin(rows, '\n');
    assert BodyRows(j) == Split(j, '\n');
  }

  /** Rows joined by any separator open and close with a pipe. */
  lemma {:induction false} JoinedRowsEdges(rows: seq<string>, sep: string)
    requires |rows| >= 1 && forall i :: 0 <= i < |rows| ==> IsRowLine(rows[i])
    ensures NoEdgeSpace(Join(rows, sep))
  {
    var j, last := Join(rows, sep), rows[|rows| - 1];
    assert forall i :: 0 <= i < |rows| ==> rows[i] != [];
    JoinEdges(rows, sep);
    assert IsRowLine(rows[0]) && IsRowLine(last);
    assert j[0] == rows[0][0] == '|';
    assert j[|j| - 1] == last[|last| - 1] == '|';
  }

  /** A file name that survives the comma-separated list: non-empty, no comma, and a valid cell. */
  predicate FileOk(f: string) {
    f != [] && ',' !in f && IsCell(f)
  }

  /** An issue whose row and root-cause row read back unchanged. */
  predicate Writable(x: Issue) {
    WellFormed(x) && forall k :: 0 <= k < |x.files| ==> FileOk(x.files[k])
  }

  /** The joined file list of such an issue is a valid cell. */
  lemma {:induction false} FilesCell(files: seq<string>)
    requires |files| >= 1 && forall k :: 0 <= k < |files| ==> FileOk(files[k])
    ensures IsCell(Join(files, ", "))
  {
    JoinAvoids(files, ", ", '|');
    JoinAvoids(files, ", ", '\n');
    FilesEdges(files);
  }

  /** The joined file list starts with the first file and ends with the last, neither a space. */
  lemma {:induction false} FilesEdges(files: seq<string>)
    requires |files| >= 1 && forall k :: 0 <= k < |files| ==> FileOk(files[k])
    ensures NoEdgeSpace(Join(files, ", "))
  {
    JoinEdges(files, ", ");
    var first, last := files[0], files[|files| - 1];
    assert FileOk(first) && FileOk(last);
  }

  /** Round trip of a root-cause row: the repair script reads back the id, the placeholder and the files. */
  lemma {:induction false} CauseRowRoundTrip(x: Issue)
    requires Writable(x) && x.files != []
    ensures ParseCauseRow(CauseRow(x)) == Some((x.id, Cause(ToBeAnalyzed, x.files)))
  {
    var id, j := IntToString(x.id), Join(x.files, ", ");
    NumberCell(x.id);
    assert id == NatToString(x.id);
    FilesCell(x.files);
    assert IsCell(ToBeAnalyzed);
    var cells := [id, ToBeAnalyzed, j];
    PaddedLineCells(cells);
    assert seq(|cells|, i requires 0 <= i < |cells| => Pad(cells[i])) == [Pad(id), Pad(ToBeAnalyzed), Pad(j)];
    var row := CauseRow(x);
    assert row[0] == '|';
    if Trim(row) == "" {
      BlankHasNoPipe(row);
    }
    forall k | 0 <= k < |x.files|
      ensures ',' !in x.files[k] && NoEdgeSpace(x.files[k])
    {
      assert FileOk(x.files[k]);
    }
    FileListRoundTrip(x.files);
  }

  /** The root-cause dictionary the written rows should give: an entry per issue with files. */
  function CauseMap(xs: seq<Issue>): map<int, Cause>
    decreases |xs|
  {
    if xs == [] then map[]
    else
      var m := CauseMap(xs[..|xs| - 1]);
      var x := xs[|xs| - 1];
      if x.files != [] then m[x.id := Cause(ToBeAnalyzed, x.files)] else m
  }

  /** Reading the root-cause rows builds that dictionary. */
  lemma {:induction false} CauseRowsRead(xs: seq<Issue>)
    requires forall i :: 0 <= i < |xs| ==> Writable(xs[i])
    ensures Causes(CauseRows(xs)) == CauseMap(xs)
    decreases |xs|
  {
    if xs != [] {
      var n := |xs|;
      var prefix, x := xs[..n - 1], xs[n - 1];
      CauseRowsRead(prefix);
      if x.files != [] {
        var rows := CauseRows(prefix) + [CauseRow(x)];
        assert rows[..|rows| - 1] == CauseRows(prefix);
        CauseRowRoundTrip(x);
      }
    }
  }

  /** No two issues share an id. */
  predicate DistinctIds(xs: seq<Issue>) {
    forall a, b :: 0 <= a < b < |xs| ==> xs[a].id != xs[b].id
  }

  /** With distinct ids, an issue has an entry exactly when it names files, and the entry holds them. */
  lemma {:induction false} CauseMapEntry(xs: seq<Issue>, i: nat)
    requires i < |xs| && DistinctIds(xs)
    ensures xs[i].files != [] ==> xs[i].id in CauseMap(xs) && CauseMap(xs)[xs[i].id] == Cause(ToBeAnalyzed, xs[i].files)
    ensures xs[i].files == [] ==> xs[i].id !in CauseMap(xs)
    decreases |xs|
  {
    var n := |xs|;
    if i < n - 1 {
      var prefix := xs[..n - 1];
      assert prefix[i] == xs[i];
      CauseMapEntry(prefix, i);
      assert xs[n - 1].id != xs[i].id;
    } else if n > 1 {
      CauseMapAbsent(xs[..n - 1], xs[i].id);
    }
  }

  /** An id that no issue carries has no entry. */
  lemma {:induction false} CauseMapAbsent(xs: seq<Issue>, id: int)
    requires forall k :: 0 <= k < |xs| ==> xs[k].id != id
    ensures id !in CauseMap(xs)
    decreases |xs|
  {
    if xs != [] {
      CauseMapAbsent(xs[..|xs| - 1], id);
    }
  }

  /** What the repair script should read for one saved issue. */
  function Reread(x: Issue): Issue {
    if x.files != [] then x.(rootCause := Some(ToBeAnalyzed)) else x
  }

  /**
   * Round trip between the two scripts: given the issues and root-cause
   * table bodies `save_issues_to_markdown` writes for the log, the parsing
   * of `parse_issues_tracker` gives the log back, each issue with files now
   * carrying the placeholder root cause.
   */
  lemma {:induction false} TrackerRoundTrip(xs: seq<Issue>)
    requires Sequential(xs)
    requires forall i :: 0 <= i < |xs| ==> Writable(xs[i]) && xs[i].rootCause.None?
    ensures Tracker(Some(IssuesTableText(xs)), Some(CausesTableText(xs))) ==
      seq(|xs|, i requires 0 <= i < |xs| => Reread(xs[i]))
  {
    var ys := seq(|xs|, i requires 0 <= i < |xs| => Recorded(xs[i]));
    var a, b := IssuesTableText(xs), CausesTableText(xs);
    IssuesBodyRead(xs);
    CausesBodyRead(xs);
    TrackerOfBodies(a, b);
    MergedRereads(xs);
  }

  /** Merging the log's cause map into each recorded issue gives what the repair script reads. */
  lemma {:induction false} MergedRereads(xs: seq<Issue>)
    requires Sequential(xs)
    requires forall i :: 0 <= i < |xs| ==> Writable(xs[i]) && xs[i].rootCause.None?
    ensures seq(|xs|, i requires 0 <= i < |xs| => Merge(Recorded(xs[i]), CauseMap(xs))) ==
      seq(|xs|, i requires 0 <= i < |xs| => Reread(xs[i]))
  {
    assert DistinctIds(xs);
    forall i | 0 <= i < |xs|
      ensures Merge(Recorded(xs[i]), CauseMap(xs)) == Reread(xs[i])
    {
      CauseMapEntry(xs, i);
    }
  }

  /** With both bodies present, the tracker is the parsed issues with the parsed causes merged in. */
  lemma {:induction false} TrackerOfBodies(a: string, b: string)
    ensures var xs, causes := ParsedIssues(BodyRows(a)), Causes(BodyRows(b));
      Tracker(Some(a), Some(b)) == seq(|xs|, i requires 0 <= i < |xs| => Merge(xs[i], causes))
  {
  }

  /** The root-cause table body reads back as the log's cause map. */
  lemma {:induction false} CausesBodyRead(xs: seq<Issue>)
    requires Sequential(xs)
    requires forall i :: 0 <= i < |xs| ==> Writable(xs[i]) && xs[i].rootCause.None?
    ensures Causes(BodyRows(CausesTableText(xs))) == CauseMap(xs)
  {
    var causeRows := CauseRows(xs);
    CauseRowsRead(xs);
    if causeRows == [] {
      assert BodyRows("") == [""];
    } else {
      CauseRowsAreLines(xs);
      JoinedRowsBody(causeRows);
    }
  }

  /** The issues table body reads back as the issues' table fields. */
  lemma {:induction false} IssuesBodyRead(xs: seq<Issue>)
    requires forall i :: 0 <= i < |xs| ==> WellFormed(xs[i])
    ensures ParsedIssues(BodyRows(IssuesTableText(xs))) == seq(|xs|, i requires 0 <= i < |xs| => Recorded(xs[i]))
  {
    var rows, ys := IssueRows(xs), seq(|xs|, i requires 0 <= i < |xs| => Recorded(xs[i]));
    if xs == [] {
      assert BodyRows("") == [""];
    } else {
      forall i | 0 <= i < |xs|
        ensures IsRowLine(rows[i])
      {
        IssueRowShape(xs[i]);
      }
      JoinedRowsBody(rows);
    }
    forall i | 0 <= i < |xs|
      ensures ParseIssueRow(rows[i]) == Some(ys[i])
    {
      IssueRowRoundTrip(xs[i]);
    }
    ParsedIssueLines(rows, ys);
  }

  /** Root-cause rows are row lines. */
  lemma {:induction false} CauseRowsAreLines(xs: seq<Issue>)
    requires forall i :: 0 <= i < |xs| ==> Writable(xs[i])
    ensures forall k :: 0 <= k < |CauseRows(xs)| ==> IsRowLine(CauseRows(xs)[k])
    decreases |xs|
  {
    if xs != [] {
      var n := |xs|;
      CauseRowsAreLines(xs[..n - 1]);
      var x := xs[n - 1];
      if x.files != [] {
        NumberCell(x.id);
        assert IntToString(x.id) == NatToString(x.id);
        FilesCell(x.files);
        assert IsCell(ToBeAnalyzed);
        LineShape([Pad(IntToString(x.id)), Pad(ToBeAnalyzed), Pad(Join(x.files, ", "))]);
      }
    }
  }
}
