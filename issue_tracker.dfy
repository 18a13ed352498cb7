/**
 * The issue tracker that the repair script keeps in `issues_tracker.md`
 * (fix_scripts/implement_fixes.py): markdown table rows read back into issue
 * records, root causes merged in by id, the category fixers that mark issues
 * fixed in place, the issues and fixes tables written back, and the
 * fixed/remaining statistics.
 */
module IssueTracker {
  import opened Core
  import opened Text

  /**
   * One tracked issue. A row of the issues table gives the first five
   * fields; `rootCause` and `files` are filled only by a root-cause row
   * with the same id (`None` and `[]` stand for the absent keys).
   */
  datatype Issue = Issue(
    id: int,
    feature: string,
    description: string,
    priority: string,
    status: string,
    rootCause: Option<string>,
    files: seq<string>)

  /** What a row of the root-cause table contributes to its issue. */
  datatype Cause = Cause(rootCause: string, files: seq<string>)

  // ---------------------------------------------------------------- rows

  /** A single space on each side of a cell's text, as the f-strings write it. */
  function Pad(s: string): string { " " + s + " " }

  /** The raw pieces joined by pipes, with a pipe in front: `|a|b|…|`. */
  function Line(pieces: seq<string>): string {
    "|" + PipeEach(pieces)
  }

  function PipeEach(pieces: seq<string>): string
    decreases |pieces|
  {
    if pieces == [] then "" else pieces[0] + "|" + PipeEach(pieces[1..])
  }

  /** `[col.strip() for col in row.split("|")[1:-1]]`. */
  function Cells(row: string): seq<string> {
    var pieces := Split(row, '|');
    var n := Max(0, |pieces| - 2);
    seq(n, i requires 0 <= i < n => Trim(pieces[i + 1]))
  }

  /** A value that a table cell carries unchanged: no pipe, no newline, no edge whitespace. */
  predicate IsCell(s: string) {
    '|' !in s && '\n' !in s && NoEdgeSpace(s)
  }

  predicate NoPipes(pieces: seq<string>) {
    forall i :: 0 <= i < |pieces| ==> '|' !in pieces[i]
  }

  lemma {:induction false} SplitPipeEach(pieces: seq<string>)
    requires NoPipes(pieces)
    ensures Split(PipeEach(pieces), '|') == pieces + [""]
    decreases |pieces|
  {
    if pieces != [] {
      var rest := pieces[1..];
      SplitAround(pieces[0], '|', PipeEach(rest));
      SplitWithout(pieces[0], '|');
      SplitPipeEach(rest);
      assert [pieces[0]] + (rest + [""]) == pieces + [""];
    }
  }

  /** Reading the cells of a written line gives the trimmed pieces back. */
  lemma {:induction false} LineCells(pieces: seq<string>)
    requires NoPipes(pieces)
    ensures Cells(Line(pieces)) == seq(|pieces|, i requires 0 <= i < |pieces| => Trim(pieces[i]))
  {
    SplitAround("", '|', PipeEach(pieces));
    assert "" + ['|'] + PipeEach(pieces) == Line(pieces);
    SplitPipeEach(pieces);
    assert Split(Line(pieces), '|') == [""] + pieces + [""];
  }

  /** A line of padded cells reads back as exactly those cells. */
  lemma {:induction false} PaddedLineCells(cells: seq<string>)
    requires forall i :: 0 <= i < |cells| ==> IsCell(cells[i])
    ensures Cells(Line(seq(|cells|, i requires 0 <= i < |cells| => Pad(cells[i])))) == cells
  {
    var pieces := seq(|cells|, i requires 0 <= i < |cells| => Pad(cells[i]));
    LineCells(pieces);
    forall i | 0 <= i < |cells|
      ensures Trim(pieces[i]) == cells[i]
    {
      TrimPadded(cells[i]);
    }
  }

  /** A pipe is not whitespace, so a row holding one is never blank. */
  lemma {:induction false} BlankHasNoPipe(row: string)
    requires Trim(row) == ""
    ensures '|' !in row
  {
    TrimStartSuffix(row);
    TrimEndPrefix(TrimStart(row));
  }

  // ---------------------------------------------------------- issues table

  /** One row of the issues table, `| {id} | {feature} | {description} | {priority} | {status} |`. */
  function IssueRow(x: Issue): string {
    Line([Pad(IntToString(x.id)), Pad(x.feature), Pad(x.description), Pad(x.priority), Pad(x.status)])
  }

  /** What reading a row back can recover: the five table fields. */
  function Recorded(x: Issue): Issue {
    x.(rootCause := None, files := [])
  }

  /** A row of the issues table read into an issue; blank and malformed rows give `None`. */
  function ParseIssueRow(row: string): Option<Issue> {
    if Trim(row) == "" || '|' !in row then None
    else
      var cols := Cells(row);
      if |cols| < 5 || !IsDigits(cols[0]) then None
      else Some(Issue(DigitsValue(cols[0]), cols[1], cols[2], cols[3], cols[4], None, []))
  }

  /**
   * A row is taken exactly when it holds a pipe, has at least five cells
   * and its first cell is all digits (the blank-row test is implied), and
   * the issue is then the id's value and the next four cells.
   */
  lemma {:induction false} ParseIssueRowAccepts(row: string)
    ensures ParseIssueRow(row).Some? <==>
      '|' in row && |Cells(row)| >= 5 && IsDigits(Cells(row)[0])
    ensures ParseIssueRow(row).Some? ==>
      var cols, x := Cells(row), ParseIssueRow(row).value;
      x.id == DigitsValue(cols[0]) && x.id >= 0 && [x.feature, x.description, x.priority, x.status] == cols[1..5] &&
      x.rootCause.None? && x.files == []
  {
    if Trim(row) == "" {
      BlankHasNoPipe(row);
    }
  }

  /** Fields that survive being written into a row and read back. */
  predicate WellFormed(x: Issue) {
    x.id >= 0 && IsCell(x.feature) && IsCell(x.description) && IsCell(x.priority) && IsCell(x.status)
  }

  /** Numbers render as digits only, so they are valid cells. */
  lemma {:induction false} NumberCell(n: nat)
    ensures IsCell(NatToString(n)) && IsDigits(NatToString(n)) && DigitsValue(NatToString(n)) == n
  {
    NatToStringRoundTrip(n);
    var s := NatToString(n);
    assert forall k :: 0 <= k < |s| ==> s[k] != '|' && s[k] != '\n';
  }

  /** Round trip: an issue written as a row and parsed back keeps its five table fields. */
  lemma {:induction false} IssueRowRoundTrip(x: Issue)
    requires WellFormed(x)
    ensures ParseIssueRow(IssueRow(x)) == Some(Recorded(x))
  {
    var id := IntToString(x.id);
    assert id == NatToString(x.id);
    NumberCell(x.id);
    var cells := [id, x.feature, x.description, x.priority, x.status];
    PaddedLineCells(cells);
    assert seq(|cells|, i requires 0 <= i < |cells| => Pad(cells[i])) ==
      [Pad(id), Pad(x.feature), Pad(x.description), Pad(x.priority), Pad(x.status)];
    assert IssueRow(x)[0] == '|';
    ParseIssueRowAccepts(IssueRow(x));
  }

  /** No newline in any piece, so the written line has none either. */
  lemma {:induction false} PipeEachNoNewline(pieces: seq<string>)
    requires forall i :: 0 <= i < |pieces| ==> '\n' !in pieces[i]
    ensures '\n' !in PipeEach(pieces)
    decreases |pieces|
  {
    if pieces != [] {
      PipeEachNoNewline(pieces[1..]);
    }
  }

  /** A line of at least one piece ends with a pipe. */
  lemma {:induction false} PipeEachEnds(pieces: seq<string>)
    requires |pieces| >= 1
    ensures var t := PipeEach(pieces); |t| >= 1 && t[|t| - 1] == '|'
    decreases |pieces|
  {
    if |pieces| > 1 {
      PipeEachEnds(pieces[1..]);
    }
  }

  /** A row begins and ends with a pipe and holds no newline. */
  predicate IsRowLine(row: string) {
    |row| >= 2 && row[0] == '|' && row[|row| - 1] == '|' && '\n' !in row
  }

  /** The row of a well-formed issue is one such line. */
  lemma {:induction false} IssueRowShape(x: Issue)
    requires WellFormed(x)
    ensures IsRowLine(IssueRow(x))
  {
    NumberCell(x.id);
    assert IntToString(x.id) == NatToString(x.id);
    var pieces := [Pad(IntToString(x.id)), Pad(x.feature), Pad(x.description), Pad(x.priority), Pad(x.status)];
    PipeEachNoNewline(pieces);
    PipeEachEnds(pieces);
  }

  /** Lines, each followed by a newline, as the table loops append them. */
  function LinesText(rows: seq<string>): string
    decreases |rows|
  {
    if rows == [] then "" else LinesText(rows[..|rows| - 1]) + rows[|rows| - 1] + "\n"
  }

  function IssueRows(xs: seq<Issue>): seq<string> {
    seq(|xs|, i requires 0 <= i < |xs| => IssueRow(xs[i]))
  }

  /** Header and separator that open the rewritten issues table. */
  const IssuesHeader: string :=
    "| Issue ID | Feature | Description | Priority | Status |\n|----------|---------|-------------|----------|---------|\n"

  /** The issues table `update_issues_tracker` builds before stripping it. */
  function IssuesTable(xs: seq<Issue>): string {
    IssuesHeader + LinesText(IssueRows(xs))
  }

  /** The `table += row + "\n"` loop: appends each row and a newline, in order. */
  method AppendLines(header: string, rows: seq<string>) returns (table: string)
    ensures table == header + LinesText(rows)
  {
    table := header;
    for i := 0 to |rows|
      invariant table == header + LinesText(rows[..i])
    {
      assert rows[..i + 1][..i] == rows[..i];
      table := table + rows[i] + "\n";
    }
    assert rows[..|rows|] == rows;
  }

  /** Builds the issues table with one row per issue, in list order. */
  method RenderIssuesTable(xs: seq<Issue>) returns (table: string)
    ensures table == IssuesTable(xs)
  {
    table := AppendLines(IssuesHeader, IssueRows(xs));
  }

  /** `group(1).strip().split("\n")`: the lines of a table body. */
  function BodyRows(body: string): seq<string> {
    Split(Trim(body), '\n')
  }

  /** The issues read from a sequence of lines, in order; the other lines are skipped. */
  function ParsedIssues(rows: seq<string>): (r: seq<Issue>)
    ensures |r| <= |rows|
    ensures forall i :: 0 <= i < |r| ==> Recorded(r[i]) == r[i]
    decreases |rows|
  {
    if rows == [] then []
    else
      var last := ParseIssueRow(rows[|rows| - 1]);
      ParsedIssues(rows[..|rows| - 1]) + (if last.Some? then [last.value] else [])
  }

  /** What each line parses to. */
  function RowParses(rows: seq<string>): (r: seq<Option<Issue>>)
    ensures |r| == |rows| && forall i :: 0 <= i < |rows| ==> r[i] == ParseIssueRow(rows[i])
  {
    seq(|rows|, i requires 0 <= i < |rows| => ParseIssueRow(rows[i]))
  }

  /** Reading the lines keeps the issues among their parse outcomes. */
  lemma {:induction false} ParsedIsPresent(rows: seq<string>)
    ensures ParsedIssues(rows) == Present(RowParses(rows))
    decreases |rows|
  {
    if rows != [] {
      var n := |rows|;
      ParsedIsPresent(rows[..n - 1]);
      assert RowParses(rows)[..n - 1] == RowParses(rows[..n - 1]);
    }
  }

  /** The table-reading loop of `parse_issues_tracker`. */
  method ParseIssues(body: string) returns (issues: seq<Issue>)
    ensures issues == ParsedIssues(BodyRows(body))
  {
    var rows := BodyRows(body);
    issues := [];
    for i := 0 to |rows|
      invariant issues == ParsedIssues(rows[..i])
    {
      assert rows[..i + 1][..i] == rows[..i];
      var x := ParseIssueRow(rows[i]);
      if x.Some? {
        issues := issues + [x.value];
      }
    }
    assert rows[..|rows|] == rows;
  }

  /** `t` is lines of the table, each ended by a newline, that split back into `rows` once the final newline is dropped. */
  predicate WrittenLines(t: string, rows: seq<string>) {
    |t| >= 3 && t[0] == '|' && t[|t| - 2] == '|' && t[|t| - 1] == '\n' && Split(t[..|t| - 1], '\n') == rows
  }

  /** Written lines split back into exactly those lines once the final newline is dropped. */
  lemma {:induction false} SplitLinesText(rows: seq<string>)
    requires |rows| >= 1 && forall i :: 0 <= i < |rows| ==> IsRowLine(rows[i])
    ensures WrittenLines(LinesText(rows), rows)
    decreases |rows|
  {
    var n := |rows|;
    assert IsRowLine(rows[n - 1]);
    if n == 1 {
      assert rows[..0] == [];
      FirstLine(rows[0]);
      assert LinesText(rows) == "" + rows[0] + "\n";
    } else {
      var prefix := rows[..n - 1];
      assert forall i :: 0 <= i < |prefix| ==> IsRowLine(prefix[i]) by {
        forall i | 0 <= i < |prefix|
          ensures IsRowLine(prefix[i])
        {
          assert prefix[i] == rows[i];
        }
      }
      SplitLinesText(prefix);
      LinesStep(rows);
    }
  }

  /** One more line on top of written lines. */
  lemma {:induction false} LinesStep(rows: seq<string>)
    requires |rows| >= 2 && IsRowLine(rows[|rows| - 1])
    requires WrittenLines(LinesText(rows[..|rows| - 1]), rows[..|rows| - 1])
    ensures WrittenLines(LinesText(rows), rows)
  {
    var n := |rows|;
    var t0, prefix, row := LinesText(rows[..n - 1]), rows[..n - 1], rows[n - 1];
    AppendLine(t0, row, prefix);
    assert LinesText(rows) == t0 + row + "\n";
    assert prefix + [row] == rows;
  }

  /** One written line splits back into itself. */
  lemma {:induction false} FirstLine(row: string)
    requires IsRowLine(row)
    ensures WrittenLines("" + row + "\n", [row])
  {
    var t := "" + row + "\n";
    assert t[..|t| - 1] == row;
    SplitWithout(row, '\n');
  }

  /** Appending one more written line adds it to what the text splits into. */
  lemma {:induction false} AppendLine(t0: string, row: string, prefix: seq<string>)
    requires |t0| >= 3 && t0[0] == '|' && t0[|t0| - 1] == '\n' && Split(t0[..|t0| - 1], '\n') == prefix
    requires IsRowLine(row)
    ensures WrittenLines(t0 + row + "\n", prefix + [row])
  {
    var t := t0 + row + "\n";
    SplitWithout(row, '\n');
    assert t[..|t| - 1] == t0[..|t0| - 1] + ['\n'] + row;
    SplitAround(t0[..|t0| - 1], '\n', row);
  }

  /** Stripping a text that opens with a pipe and ends with a pipe and a newline drops just the newline. */
  lemma {:induction false} TrimFinalNewline(t: string)
    requires |t| >= 3 && t[0] == '|' && t[|t| - 2] == '|' && t[|t| - 1] == '\n'
    ensures Trim(t) == t[..|t| - 1]
  {
    assert TrimStart(t) == t;
    var u := t[..|t| - 1];
    assert u[..|u| - 1] == t[..|t| - 2];
    assert TrimEnd(u) == u;
  }

  /** Stripping written lines removes just the final newline, and splitting gives the lines back. */
  lemma {:induction false} LinesTextBody(rows: seq<string>)
    requires |rows| >= 1 && forall i :: 0 <= i < |rows| ==> IsRowLine(rows[i])
    ensures BodyRows(LinesText(rows)) == rows
  {
    SplitLinesText(rows);
    LinesBody(LinesText(rows), rows);
  }

  /** A text of written lines has those lines as its body. */
  lemma {:induction false} LinesBody(t: string, rows: seq<string>)
    requires WrittenLines(t, rows)
    ensures BodyRows(t) == rows
  {
    TrimFinalNewline(t);
  }

  /** Lines that each parse to an issue give back exactly those issues, in order. */
  lemma {:induction false} ParsedIssueLines(rows: seq<string>, ys: seq<Issue>)
    requires |rows| == |ys| && forall i :: 0 <= i < |rows| ==> ParseIssueRow(rows[i]) == Some(ys[i])
    ensures ParsedIssues(rows) == ys
  {
    ParsedIsPresent(rows);
    PresentAll(RowParses(rows), ys);
  }

  /**
   * Round trip of the whole table body: the rows written for well-formed
   * issues, stripped and split into lines, parse back to the issues' table
   * fields, one per issue and in order.
   */
  lemma {:induction false} IssueTableRoundTrip(xs: seq<Issue>)
    requires forall i :: 0 <= i < |xs| ==> WellFormed(xs[i])
    ensures ParsedIssues(BodyRows(LinesText(IssueRows(xs)))) == seq(|xs|, i requires 0 <= i < |xs| => Recorded(xs[i]))
  {
    var rows, ys := IssueRows(xs), seq(|xs|, i requires 0 <= i < |xs| => Recorded(xs[i]));
    if xs == [] {
      assert BodyRows("") == [""];
    } else {
      forall i | 0 <= i < |xs|
        ensures IsRowLine(rows[i])
      {
        IssueRowShape(xs[i]);
      }
      LinesTextBody(rows);
    }
    forall i | 0 <= i < |xs|
      ensures ParseIssueRow(rows[i]) == Some(ys[i])
    {
      IssueRowRoundTrip(xs[i]);
    }
    ParsedIssueLines(rows, ys);
  }

  // ------------------------------------------------------------ root causes

  /** `[file.strip() for file in cell.split(",")]`. */
  function FileList(cell: string): (r: seq<string>)
    ensures |r| >= 1
  {
    var parts := Split(cell, ',');
    seq(|parts|, i requires 0 <= i < |parts| => Trim(parts[i]))
  }

  /** Files written joined by ", " are read back by splitting on commas and trimming. */
  lemma {:induction false} FileListRoundTrip(files: seq<string>)
    requires |files| >= 1 && forall i :: 0 <= i < |files| ==> ',' !in files[i] && NoEdgeSpace(files[i])
    ensures FileList(Join(files, ", ")) == files
  {
    var j := Join(files, ", ");
    var parts := Split(j, ',');
    var spaced := Spaced(files);
    JoinCommaSpace(files);
    forall i | 0 <= i < |spaced|
      ensures ',' !in spaced[i]
    {
      assert spaced[i] == " " + files[i];
    }
    SplitJoin(spaced, ',');
    SplitCons(' ', j, ',');
    assert [' '] + j == " " + j;
    TrimmedParts(files, parts);
  }

  /** The comma pieces of joined files trim back to the files. */
  lemma {:induction false} TrimmedParts(files: seq<string>, parts: seq<string>)
    requires |files| >= 1 && forall i :: 0 <= i < |files| ==> NoEdgeSpace(files[i])
    requires |parts| >= 1 && [" " + parts[0]] + parts[1..] == Spaced(files)
    ensures seq(|parts|, i requires 0 <= i < |parts| => Trim(parts[i])) == files
  {
    forall i | 0 <= i < |files|
      ensures Trim(parts[i]) == files[i]
    {
      if i == 0 {
        assert Spaced(files)[0] == " " + files[0];
        assert ([" " + parts[0]] + parts[1..])[0] == " " + parts[0];
        assert (" " + parts[0])[1..] == parts[0] && (" " + files[0])[1..] == files[0];
        TrimUnpadded(files[0]);
      } else {
        assert parts[i] == ([" " + parts[0]] + parts[1..])[i];
        TrimLeadSpace(files[i]);
      }
    }
  }

  /** A row of the root-cause table: its id and what it contributes; blank and malformed rows give `None`. */
  function ParseCauseRow(row: string): Option<(int, Cause)> {
    if Trim(row) == "" || '|' !in row then None
    else
      var cols := Cells(row);
      if |cols| < 3 || !IsDigits(cols[0]) then None
      else Some((DigitsValue(cols[0]), Cause(cols[1], FileList(cols[2]))))
  }

  /** The id a root-cause row is for, if it is one. */
  predicate CauseRowFor(row: string, id: int) {
    ParseCauseRow(row).Some? && ParseCauseRow(row).value.0 == id
  }

  /** The `root_causes` dictionary: every row is stored under its id, so a later row for the same id wins. */
  function Causes(rows: seq<string>): (m: map<int, Cause>)
    decreases |rows|
  {
    if rows == [] then map[]
    else
      var m := Causes(rows[..|rows| - 1]);
      var c := ParseCauseRow(rows[|rows| - 1]);
      if c.Some? then m[c.value.0 := c.value.1] else m
  }

  /** The entry for an id is the one of the last row for that id. */
  lemma {:induction false} CausesLatest(rows: seq<string>, k: nat, id: int, c: Cause)
    requires k < |rows| && ParseCauseRow(rows[k]) == Some((id, c))
    requires forall j :: k < j < |rows| ==> !CauseRowFor(rows[j], id)
    ensures id in Causes(rows) && Causes(rows)[id] == c
    decreases |rows|
  {
    var n := |rows|;
    if k < n - 1 {
      var prefix := rows[..n - 1];
      assert prefix[k] == rows[k];
      assert !CauseRowFor(rows[n - 1], id);
      forall j | k < j < |prefix|
        ensures !CauseRowFor(prefix[j], id)
      {
        assert prefix[j] == rows[j];
      }
      CausesLatest(prefix, k, id, c);
    }
  }

  /** Every id in the dictionary comes from some row for it. */
  lemma {:induction false} CausesFromRows(rows: seq<string>, id: int)
    requires id in Causes(rows)
    ensures exists k :: 0 <= k < |rows| && CauseRowFor(rows[k], id)
    decreases |rows|
  {
    var n := |rows|;
    if !CauseRowFor(rows[n - 1], id) {
      CausesFromRows(rows[..n - 1], id);
      var k :| 0 <= k < n - 1 && CauseRowFor(rows[..n - 1][k], id);
      assert rows[k] == rows[..n - 1][k];
    }
  }

  /** The root-cause loop of `parse_issues_tracker`. */
  method ParseCauses(body: string) returns (causes: map<int, Cause>)
    ensures causes == Causes(BodyRows(body))
  {
    var rows := BodyRows(body);
    causes := map[];
    for i := 0 to |rows|
      invariant causes == Causes(rows[..i])
    {
      assert rows[..i + 1][..i] == rows[..i];
      var c := ParseCauseRow(rows[i]);
      if c.Some? {
        causes := causes[c.value.0 := c.value.1];
      }
    }
    assert rows[..|rows|] == rows;
  }

  /** `issue.update(root_causes[issue["id"]])` for an issue whose id has a root cause. */
  function Merge(x: Issue, causes: map<int, Cause>): (r: Issue)
    ensures Recorded(r) == Recorded(x)
    ensures x.id in causes ==> r.rootCause == Some(causes[x.id].rootCause) && r.files == causes[x.id].files
    ensures x.id !in causes ==> r == x
  {
    if x.id in causes then x.(rootCause := Some(causes[x.id].rootCause), files := causes[x.id].files) else x
  }

  /**
   * What `parse_issues_tracker` returns, given the bodies its two regular
   * expressions capture (`None`: the file or the table is missing).
   */
  function Tracker(issuesBody: Option<string>, causesBody: Option<string>): (r: seq<Issue>)
    ensures issuesBody.None? ==> r == []
    ensures issuesBody.Some? ==> |r| == |ParsedIssues(BodyRows(issuesBody.value))|
    ensures issuesBody.Some? ==> forall i :: 0 <= i < |r| ==> Recorded(r[i]) == ParsedIssues(BodyRows(issuesBody.value))[i]
  {
    if issuesBody.None? then []
    else
      var xs := ParsedIssues(BodyRows(issuesBody.value));
      if causesBody.None? then xs
      else
        var causes := Causes(BodyRows(causesBody.value));
        seq(|xs|, i requires 0 <= i < |xs| => Merge(xs[i], causes))
  }

  /** `parse_issues_tracker`: the issue rows, then the root causes merged in place. */
  method ParseTracker(issuesBody: Option<string>, causesBody: Option<string>) returns (issues: seq<Issue>)
    ensures issues == Tracker(issuesBody, causesBody)
  {
    if issuesBody.None? {
      return [];
    }
    issues := ParseIssues(issuesBody.value);
    if causesBody.Some? {
      var causes := ParseCauses(causesBody.value);
      ghost var parsed := issues;
      for i := 0 to |issues|
        invariant |issues| == |parsed|
        invariant forall k :: 0 <= k < i ==> issues[k] == Merge(parsed[k], causes)
        invariant forall k :: i <= k < |issues| ==> issues[k] == parsed[k]
      {
        if issues[i].id in causes {
          issues := issues[i := Merge(issues[i], causes)];
        }
      }
    }
  }

  // ------------------------------------------------------------ fixes table

  /** The description written for every fixed issue: no fixer records one of its own. */
  const DefaultFixDescription: string := "Automated fix"

  /**
   * One row of the fixes table: a fixed issue gets the default description,
   * its files joined by ", " and the date; any other issue gets three blank
   * cells. Both end with the status.
   */
  function FixRow(x: Issue, date: string): string {
    if x.status == "Fixed" then
      Line([Pad(IntToString(x.id)), Pad(DefaultFixDescription), Pad(Join(x.files, ", ")), Pad(date), Pad(x.status)])
    else
      Line([Pad(IntToString(x.id)), " ", " ", " ", Pad(x.status)])
  }

  /** The cells a fixes row reads back as. */
  function FixCells(x: Issue, date: string): seq<string> {
    if x.status == "Fixed" then [IntToString(x.id), DefaultFixDescription, Join(x.files, ", "), date, "Fixed"]
    else [IntToString(x.id), "", "", "", x.status]
  }

  /** A fixes row carries the id, the fix columns for a fixed issue (blank otherwise) and the status. */
  lemma {:induction false} FixRowCells(x: Issue, date: string)
    requires x.id >= 0 && IsCell(x.status) && IsCell(date) && IsCell(Join(x.files, ", "))
    ensures Cells(FixRow(x, date)) == FixCells(x, date)
  {
    NumberCell(x.id);
    assert IntToString(x.id) == NatToString(x.id);
    if x.status == "Fixed" {
      assert IsCell(DefaultFixDescription);
      FiveCells(IntToString(x.id), DefaultFixDescription, Join(x.files, ", "), date, x.status);
    } else {
      BlankCells(IntToString(x.id), x.status);
    }
  }

  lemma {:induction false} FiveCells(a: string, b: string, c: string, d: string, e: string)
    requires IsCell(a) && IsCell(b) && IsCell(c) && IsCell(d) && IsCell(e)
    ensures Cells(Line([Pad(a), Pad(b), Pad(c), Pad(d), Pad(e)])) == [a, b, c, d, e]
  {
    var cells := [a, b, c, d, e];
    PaddedLineCells(cells);
    assert seq(|cells|, i requires 0 <= i < |cells| => Pad(cells[i])) == [Pad(a), Pad(b), Pad(c), Pad(d), Pad(e)];
  }

  lemma {:induction false} BlankCells(a: string, e: string)
    requires IsCell(a) && IsCell(e)
    ensures Cells(Line([Pad(a), " ", " ", " ", Pad(e)])) == [a, "", "", "", e]
  {
    LineCells([Pad(a), " ", " ", " ", Pad(e)]);
    TrimPadded(a);
    TrimPadded(e);
    assert Trim(" ") == "" by {
      assert TrimStart(" ") == TrimStart(" "[1..]);
    }
  }

  function FixRows(xs: seq<Issue>, date: string): seq<string> {
    seq(|xs|, i requires 0 <= i < |xs| => FixRow(xs[i], date))
  }

  /** Header and separator that open the rewritten fixes table. */
  const FixesHeader: string :=
    "| Issue ID | Fix Description | Files Modified | Implementation Date | Status |\n|----------|----------------|----------------|---------------------|--------|\n"

  /** The fixes table `update_issues_tracker` builds before stripping it. */
  function FixesTable(xs: seq<Issue>, date: string): string {
    FixesHeader + LinesText(FixRows(xs, date))
  }

  /** Builds the fixes table with one row per issue, fixed or not, in list order. */
  method RenderFixesTable(xs: seq<Issue>, date: string) returns (table: string)
    ensures table == FixesTable(xs, date)
  {
    table := AppendLines(FixesHeader, FixRows(xs, date));
  }

  // ---------------------------------------------------------------- fixers

  /**
   * A category fixer: the feature keyword that selects its issues, a second
   * keyword the feature must also hold before any fix is tried, and whether
   * an issue without affected files is skipped.
   */
  datatype Fixer = Fixer(keyword: string, narrower: Option<string>, needsFiles: bool)

  /** The five fixers, in the order `main` runs them. */
  const Fixers: seq<Fixer> := [
    Fixer("Database", None, true),
    Fixer("API", None, true),
    Fixer("Error", None, false),
    Fixer("Frontend", Some("Broken Images"), false),
    Fixer("Application Startup", None, false)
  ]

  /** The fixer selects the issue by the substring of `feature`. */
  predicate Selects(f: Fixer, x: Issue) {
    Contains(x.feature, f.keyword)
  }

  /** The fixer selects the issue and does not skip it before trying a fix. */
  predicate Tries(f: Fixer, x: Issue) {
    Selects(f, x) && (f.narrower.None? || Contains(x.feature, f.narrower.value)) && (!f.needsFiles || x.files != [])
  }

  /**
   * One issue after a fixer: marked "Fixed" when the fixer tries it and its
   * file edit or command lands (`landed`, the part the model does not see).
   * Since `landed` sees only the fixer and the issue, two equal issues get the
   * same outcome wherever they sit in the list, and an edit made for one
   * issue cannot change the outcome for a later one.
   */
  function FixOne(f: Fixer, x: Issue, landed: (Fixer, Issue) -> bool): (r: Issue)
    ensures r.(status := x.status) == x
    ensures r.status == "Fixed" <==> x.status == "Fixed" || (Tries(f, x) && landed(f, x))
  {
    if Tries(f, x) && landed(f, x) then x.(status := "Fixed") else x
  }

  function FixedBy(f: Fixer, xs: seq<Issue>, landed: (Fixer, Issue) -> bool): seq<Issue> {
    seq(|xs|, i requires 0 <= i < |xs| => FixOne(f, xs[i], landed))
  }

  /** A fixer's loop over its issues, setting the status in place. */
  method ApplyFixer(issues: array<Issue>, f: Fixer, landed: (Fixer, Issue) -> bool)
    modifies issues
    ensures issues[..] == FixedBy(f, old(issues[..]), landed)
  {
    for i := 0 to issues.Length
      invariant forall k :: 0 <= k < i ==> issues[k] == FixOne(f, old(issues[k]), landed)
      invariant forall k :: i <= k < issues.Length ==> issues[k] == old(issues[k])
    {
      if Tries(f, issues[i]) && landed(f, issues[i]) {
        issues[i] := issues[i].(status := "Fixed");
      }
    }
  }

  /** The fixers run one after the other over the same list. */
  function RunFixers(fs: seq<Fixer>, xs: seq<Issue>, landed: (Fixer, Issue) -> bool): (r: seq<Issue>)
    ensures |r| == |xs|
    decreases |fs|
  {
    if fs == [] then xs
    else FixedBy(fs[|fs| - 1], RunFixers(fs[..|fs| - 1], xs, landed), landed)
  }

  /** The five fixer calls of `main`. */
  method FixAll(issues: array<Issue>, landed: (Fixer, Issue) -> bool)
    modifies issues
    ensures issues[..] == RunFixers(Fixers, old(issues[..]), landed)
  {
    for j := 0 to |Fixers|
      invariant issues[..] == RunFixers(Fixers[..j], old(issues[..]), landed)
    {
      assert Fixers[..j + 1][..j] == Fixers[..j];
      ApplyFixer(issues, Fixers[j], landed);
    }
    assert Fixers[..|Fixers|] == Fixers;
  }

  /**
   * Fixers change nothing but the status, only ever to "Fixed", only for an
   * issue some fixer tries, and never undo a fix.
   */
  lemma {:induction false} FixersOnlyMark(fs: seq<Fixer>, xs: seq<Issue>, landed: (Fixer, Issue) -> bool)
    ensures var r := RunFixers(fs, xs, landed);
      forall i :: 0 <= i < |xs| ==>
        r[i].(status := xs[i].status) == xs[i] &&
        (r[i].status == xs[i].status || (r[i].status == "Fixed" && exists k :: 0 <= k < |fs| && Tries(fs[k], xs[i])))
    decreases |fs|
  {
    if fs != [] {
      var n := |fs|;
      FixersOnlyMark(fs[..n - 1], xs, landed);
      var before := RunFixers(fs[..n - 1], xs, landed);
      forall i | 0 <= i < |xs|
        ensures var r := RunFixers(fs, xs, landed);
          r[i].(status := xs[i].status) == xs[i] &&
          (r[i].status == xs[i].status || (r[i].status == "Fixed" && exists k :: 0 <= k < |fs| && Tries(fs[k], xs[i])))
      {
        if before[i].status != xs[i].status {
          var k :| 0 <= k < n - 1 && Tries(fs[..n - 1][k], xs[i]);
          assert fs[k] == fs[..n - 1][k];
        } else if RunFixers(fs, xs, landed)[i].status != xs[i].status {
          assert Tries(fs[n - 1], before[i]);
          assert before[i] == xs[i];
        }
      }
    }
  }

  /**
   * After the five fixers an issue is fixed only if it already was, or its
   * feature names one of the five categories (with affected files for the
   * database and API fixers, and "Broken Images" for the frontend one).
   */
  lemma {:induction false} FixedOnlyInCategory(xs: seq<Issue>, landed: (Fixer, Issue) -> bool, i: nat)
    requires i < |xs|
    ensures var x := xs[i]; RunFixers(Fixers, xs, landed)[i].status == "Fixed" ==>
      x.status == "Fixed" ||
      (Contains(x.feature, "Database") && x.files != []) ||
      (Contains(x.feature, "API") && x.files != []) ||
      Contains(x.feature, "Error") ||
      (Contains(x.feature, "Frontend") && Contains(x.feature, "Broken Images")) ||
      Contains(x.feature, "Application Startup")
  {
    FixersOnlyMark(Fixers, xs, landed);
    var r := RunFixers(Fixers, xs, landed);
    if r[i].status == "Fixed" && xs[i].status != "Fixed" {
      var k :| 0 <= k < |Fixers| && Tries(Fixers[k], xs[i]);
      assert k == 0 || k == 1 || k == 2 || k == 3 || k == 4;
    }
  }

  // ------------------------------------------------------------ statistics

  function FixedIssues(xs: seq<Issue>): seq<Issue> {
    Filter(xs, (x: Issue) => x.status == "Fixed")
  }

  function RemainingIssues(xs: seq<Issue>): seq<Issue> {
    Filter(xs, (x: Issue) => x.status != "Fixed")
  }

  /** Fixed and remaining issues split the list: every issue is in exactly one, and the counts add up. */
  lemma {:induction false} FixedRemainingPartition(xs: seq<Issue>)
    ensures |FixedIssues(xs)| + |RemainingIssues(xs)| == |xs|
    ensures forall x :: x in xs ==> (x in FixedIssues(xs) <==> x !in RemainingIssues(xs))
    decreases |xs|
  {
    if xs != [] {
      FixedRemainingPartition(xs[1..]);
    }
  }

  /** What a fixes row needs for its cells to read back unchanged. */
  predicate FixWellFormed(x: Issue, date: string) {
    x.id >= 0 && IsCell(x.status) && IsCell(date) && IsCell(Join(x.files, ", "))
  }

  /** The fixes row of such an issue is one line between pipes. */
  lemma {:induction false} FixRowShape(x: Issue, date: string)
    requires FixWellFormed(x, date)
    ensures IsRowLine(FixRow(x, date))
  {
    NumberCell(x.id);
    assert IntToString(x.id) == NatToString(x.id);
    assert IsCell(DefaultFixDescription);
    LineShape(FixRowPieces(x, date));
  }

  /** The pieces `FixRow` joins. */
  function FixRowPieces(x: Issue, date: string): (r: seq<string>)
    ensures Line(r) == FixRow(x, date)
  {
    if x.status == "Fixed" then
      [Pad(IntToString(x.id)), Pad(DefaultFixDescription), Pad(Join(x.files, ", ")), Pad(date), Pad(x.status)]
    else
      [Pad(IntToString(x.id)), " ", " ", " ", Pad(x.status)]
  }

  /** A line of newline-free pieces is a row line. */
  lemma {:induction false} LineShape(pieces: seq<string>)
    requires |pieces| >= 1 && forall i :: 0 <= i < |pieces| ==> '\n' !in pieces[i]
    ensures IsRowLine(Line(pieces))
  {
    PipeEachNoNewline(pieces);
    PipeEachEnds(pieces);
  }

  /**
   * The written fixes table reads back one line per issue, in order, each
   * holding the issue's id and status and, for a fixed issue only, the fix
   * description, files and date.
   */
  lemma {:induction false} FixesTableCells(xs: seq<Issue>, date: string)
    requires |xs| >= 1 && forall i :: 0 <= i < |xs| ==> FixWellFormed(xs[i], date)
    ensures var rows := BodyRows(LinesText(FixRows(xs, date)));
      |rows| == |xs| && forall i :: 0 <= i < |xs| ==> Cells(rows[i]) == FixCells(xs[i], date)
  {
    var rows := FixRows(xs, date);
    forall i | 0 <= i < |xs|
      ensures IsRowLine(rows[i]) && Cells(rows[i]) == FixCells(xs[i], date)
    {
      FixRowShape(xs[i], date);
      FixRowCells(xs[i], date);
    }
    LinesTextBody(rows);
  }

  // ---------------------------------------------------------------- templates

  /**
   * A replacement template of Python's `re.sub`, parsed: literal characters
   * and references to groups of the match (0 is the whole match).
   */
  datatype Piece = Lit(c: char) | Group(n: nat)

  /** The characters of `s` as literal pieces. */
  function Lits(s: string): (r: seq<Piece>)
    ensures |r| == |s| && forall i :: 0 <= i < |s| ==> r[i] == Lit(s[i])
  {
    seq(|s|, i requires 0 <= i < |s| => Lit(s[i]))
  }

  function Cons(p: Piece, rest: Option<seq<Piece>>): Option<seq<Piece>> {
    if rest.Some? then Some([p] + rest.value) else None
  }

  /** The one-character escapes a template knows: `\a \b \f \n \r \t \v` and `\\`. */
  function Escape(c: char): Option<char> {
    if c == 'a' then Some(7 as char)
    else if c == 'b' then Some(8 as char)
    else if c == 'f' then Some(12 as char)
    else if c == 'n' then Some('\n')
    else if c == 'r' then Some('\r')
    else if c == 't' then Some('\t')
    else if c == 'v' then Some(11 as char)
    else if c == '\\' then Some('\\')
    else None
  }

  predicate IsAsciiLetter(c: char) { 'a' <= c <= 'z' || 'A' <= c <= 'Z' }

  predicate IsOctDigit(c: char) { '0' <= c <= '7' }

  function Digit(c: char): nat
    requires IsDigit(c)
  {
    c as int - '0' as int
  }

  /**
   * Python 3.12's template parser for a pattern with `groups` groups; None
   * is the exception it raises. A backslash at the end, an unknown escape
   * of an ASCII letter, a reference to a missing group, a malformed
   * `\g<…>` and an octal escape above 0o377 are errors; `\0` takes up to
   * two more octal digits; a digit followed by a digit is a three-digit
   * octal escape when all three are octal, and otherwise a two-digit group
   * number; a backslash before any other character stays, with it.
   */
  function ParseTemplate(t: string, groups: nat): (r: Option<seq<Piece>>)
    decreases |t|
  {
    if t == [] then Some([])
    else if t[0] != '\\' then Cons(Lit(t[0]), ParseTemplate(t[1..], groups))
    else if |t| == 1 then None
    else
      var c, rest := t[1], t[2..];
      if c == 'g' then
        if rest == [] || rest[0] != '<' then None
        else
          match IndexOf(rest[1..], ">")
          case None => None
          case Some(j) =>
            var name := rest[1..][..j];
            if IsDigits(name) && DigitsValue(name) <= groups then
              Cons(Group(DigitsValue(name)), ParseTemplate(rest[1..][j + 1..], groups))
            else None
      else if c == '0' then
        var k := if |rest| >= 1 && IsOctDigit(rest[0]) then
                   (if |rest| >= 2 && IsOctDigit(rest[1]) then 2 else 1)
                 else 0;
        var v := if k == 0 then 0 else if k == 1 then Digit(rest[0]) else 8 * Digit(rest[0]) + Digit(rest[1]);
        Cons(Lit(v as char), ParseTemplate(rest[k..], groups))
      else if IsDigit(c) then
        if rest != [] && IsDigit(rest[0]) then
          if IsOctDigit(c) && IsOctDigit(rest[0]) && |rest| >= 2 && IsOctDigit(rest[1]) then
            var v := 64 * Digit(c) + 8 * Digit(rest[0]) + Digit(rest[1]);
            if v > 255 then None else Cons(Lit(v as char), ParseTemplate(rest[2..], groups))
          else
            var n := 10 * Digit(c) + Digit(rest[0]);
            if n > groups then None else Cons(Group(n), ParseTemplate(rest[1..], groups))
        else if Digit(c) > groups then None
        else Cons(Group(Digit(c)), ParseTemplate(rest, groups))
      else if Escape(c).Some? then Cons(Lit(Escape(c).value), ParseTemplate(rest, groups))
      else if IsAsciiLetter(c) then None
      else Cons(Lit('\\'), Cons(Lit(c), ParseTemplate(rest, groups)))
  }

  /** The text a parsed template puts in the match's place; `texts[n]` is group n's text. */
  function Expand(ps: seq<Piece>, texts: seq<string>): string
    decreases |ps|
  {
    if ps == [] then ""
    else
      (match ps[0]
       case Lit(c) => [c]
       case Group(n) => if n < |texts| then texts[n] else "")
      + Expand(ps[1..], texts)
  }

  /** A text without backslashes is a template of literals only. */
  lemma {:induction false} PlainTemplate(t: string, groups: nat)
    requires '\\' !in t
    ensures ParseTemplate(t, groups) == Some(Lits(t))
    decreases |t|
  {
    if t != [] {
      PlainTemplate(t[1..], groups);
      assert Lits(t) == [Lit(t[0])] + Lits(t[1..]);
    }
  }

  /** Literals expand to their own text. */
  lemma {:induction false} ExpandLits(s: string, texts: seq<string>)
    ensures Expand(Lits(s), texts) == s
    decreases |s|
  {
    if s != [] {
      ExpandLits(s[1..], texts);
      assert Lits(s)[1..] == Lits(s[1..]);
    }
  }

  /** `r"\1\n" + table.strip()`: the replacement `re.sub` is given for a table. */
  function Replacement(table: string): string {
    "\\1\\n" + Trim(table)
  }

  /** A known escape other than a digit or `g` is one literal character. */
  lemma EscapeStep(t: string, groups: nat)
    requires |t| >= 2 && t[0] == '\\' && t[1] != 'g' && !IsDigit(t[1]) && Escape(t[1]).Some?
    ensures ParseTemplate(t, groups) == Cons(Lit(Escape(t[1]).value), ParseTemplate(t[2..], groups))
  {
  }

  /** A single digit other than 0, not followed by a digit, refers to that group when it exists. */
  lemma GroupStep(t: string, groups: nat)
    requires |t| >= 2 && t[0] == '\\' && IsDigit(t[1]) && t[1] != '0'
    requires (|t| == 2 || !IsDigit(t[2])) && Digit(t[1]) <= groups
    ensures ParseTemplate(t, groups) == Cons(Group(Digit(t[1])), ParseTemplate(t[2..], groups))
  {
  }

  /** `\1\n` followed by a text without backslashes: group 1, a newline, then the text's literals. */
  lemma {:induction false} HeaderTemplate(t: string)
    requires '\\' !in t
    ensures ParseTemplate("\\1\\n" + t, 1) == Some([Group(1), Lit('\n')] + Lits(t))
  {
    var x := "\\1\\n" + t;
    var nt := "\\n" + t;
    var a, b, c := ParseTemplate(x, 1), ParseTemplate(nt, 1), ParseTemplate(t, 1);
    assert a == Cons(Group(1), b) by {
      assert x[0] == '\\' && x[1] == '1' && x[2] == '\\';
      assert x[2..] == nt;
      GroupStep(x, 1);
    }
    assert b == Cons(Lit('\n'), c) by {
      assert nt[0] == '\\' && nt[1] == 'n';
      assert nt[2..] == t;
      EscapeStep(nt, 1);
    }
    assert c == Some(Lits(t)) by {
      PlainTemplate(t, 1);
    }
    assert [Group(1)] + ([Lit('\n')] + Lits(t)) == [Group(1), Lit('\n')] + Lits(t);
  }

  /** That template puts the header, a newline and the text in the match's place. */
  lemma {:induction false} HeaderExpands(t: string, whole: string, header: string)
    ensures Expand([Group(1), Lit('\n')] + Lits(t), [whole, header]) == header + "\n" + t
  {
    var ps := [Group(1), Lit('\n')] + Lits(t);
    ExpandLits(t, [whole, header]);
    assert ps[1..] == [Lit('\n')] + Lits(t);
    assert ps[1..][1..] == Lits(t);
  }

  /**
   * A table text without backslashes is put in verbatim: the match becomes
   * the kept header (group 1), a newline and the stripped table.
   */
  lemma {:induction false} PlainTableVerbatim(table: string, whole: string, header: string)
    requires '\\' !in Trim(table)
    ensures ParseTemplate(Replacement(table), 1).Some?
    ensures Expand(ParseTemplate(Replacement(table), 1).value, [whole, header]) ==
      header + "\n" + Trim(table)
  {
    HeaderTemplate(Trim(table));
    HeaderExpands(Trim(table), whole, header);
  }

  /** A Windows path in a cell makes `\U` an unknown escape: `re.sub` raises. */
  lemma WindowsPathRaises()
    ensures ParseTemplate("C:\\Users", 1).None?
  {
    assert "C:\\Users"[1..] == ":\\Users";
    assert ":\\Users"[1..] == "\\Users";
  }

  /** A doubled backslash in a cell is written back as one. */
  lemma DoubledBackslashHalved()
    ensures ParseTemplate("a\\\\b", 1) == Some([Lit('a'), Lit('\\'), Lit('b')])
  {
    assert "a\\\\b"[1..] == "\\\\b";
    assert "\\\\b"[2..] == "b";
    assert "b"[1..] == [];
    assert [Lit('b')] + [] == [Lit('b')];
    assert ParseTemplate("b", 1) == Some([Lit('b')]);
    assert Escape('\\') == Some('\\');
    assert ParseTemplate("\\\\b", 1) == Cons(Lit('\\'), ParseTemplate("b", 1));
    assert [Lit('\\')] + [Lit('b')] == [Lit('\\'), Lit('b')];
    assert ParseTemplate("\\\\b", 1) == Some([Lit('\\'), Lit('b')]);
    assert [Lit('a')] + [Lit('\\'), Lit('b')] == [Lit('a'), Lit('\\'), Lit('b')];
  }

  // ---------------------------------------------------------------- main

  /**
   * What `main` leaves: nothing when no issue was parsed; an exception from
   * `re.sub` when either replacement is not a valid template, with the
   * issues after the fixers and the tracker not rewritten; otherwise the
   * issues after the fixers, the parsed replacement of each table and the
   * fixed/remaining statistics.
   */
  datatype Outcome =
    | NothingToFix
    | TemplateError(issues: seq<Issue>)
    | Done(issues: seq<Issue>, issuesReplacement: seq<Piece>, fixesReplacement: seq<Piece>,
           fixedCount: nat, remaining: seq<Issue>)

  /** `main` after parsing: run the fixers in place, rebuild both tables, count the fixed issues. */
  method ImplementFixes(parsed: seq<Issue>, landed: (Fixer, Issue) -> bool, date: string) returns (o: Outcome)
    ensures parsed == [] <==> o.NothingToFix?
    ensures parsed != [] ==>
      var r := RunFixers(Fixers, parsed, landed);
      var issuesRepl := ParseTemplate(Replacement(IssuesTable(r)), 1);
      var fixesRepl := ParseTemplate(Replacement(FixesTable(r, date)), 1);
      if issuesRepl.None? || fixesRepl.None? then o == TemplateError(r)
      else o == Done(r, issuesRepl.value, fixesRepl.value, |FixedIssues(r)|, RemainingIssues(r))
  {
    if |parsed| == 0 {
      return NothingToFix;
    }
    var issues := new Issue[|parsed|](i requires 0 <= i < |parsed| => parsed[i]);
    assert issues[..] == parsed;
    FixAll(issues, landed);
    var fixed := issues[..];
    var issuesTable := RenderIssuesTable(fixed);
    var fixesTable := RenderFixesTable(fixed, date);
    var issuesRepl := ParseTemplate(Replacement(issuesTable), 1);
    var fixesRepl := ParseTemplate(Replacement(fixesTable), 1);
    if issuesRepl.None? || fixesRepl.None? {
      return TemplateError(fixed);
    }
    o := Done(fixed, issuesRepl.value, fixesRepl.value, |FixedIssues(fixed)|, RemainingIssues(fixed));
  }
}
