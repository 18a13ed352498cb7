/**
 * How the repair script finds the table bodies inside `issues_tracker.md`
 * (fix_scripts/implement_fixes.py): after a table's header row the pattern
 * `\s*\|[-\s|]*\|(.*?)(?:\n\n|\n##)` skips the separator row and captures
 * everything up to the next blank line or `##` heading. The capture is
 * modelled here with Python's backtracking order, both with the character
 * class as written and with one that stays on the separator line.
 */
module TrackerFile {
  import opened Core
  import opened Text
  import opened IssueTracker
  import opened AppTester

  /** `[-\s|]`, the class repeated after the separator's first pipe. */
  predicate RuleClass(c: char) {
    c == '-' || IsSpace(c) || c == '|'
  }

  /** `[- \t|]`: the same class without line breaks, so that it cannot leave the separator line. */
  predicate RuleLineClass(c: char) {
    c == '-' || c == ' ' || c == '\t' || c == '|'
  }

  /** The end of the whitespace run starting at `i` (`\s*`). */
  function SkipSpaces(t: string, i: nat): (r: nat)
    requires i <= |t|
    ensures i <= r <= |t|
    decreases |t| - i
  {
    if i < |t| && IsSpace(t[i]) then SkipSpaces(t, i + 1) else i
  }

  /** The end of the run of class characters starting at `i` (the greedy `[…]*`). */
  function SkipClass(t: string, i: nat, inClass: char -> bool): (r: nat)
    requires i <= |t|
    ensures i <= r <= |t|
    decreases |t| - i
  {
    if i < |t| && inClass(t[i]) then SkipClass(t, i + 1, inClass) else i
  }

  /** The last pipe in `t[lo..hi]`, which is where backtracking first lets the closing `\|` match. */
  function LastPipe(t: string, lo: nat, hi: nat): (r: Option<nat>)
    requires lo <= hi <= |t|
    ensures r.Some? ==> lo <= r.value < hi && t[r.value] == '|'
    ensures r.None? ==> forall k :: lo <= k < hi ==> t[k] != '|'
    decreases hi - lo
  {
    if hi == lo then None
    else if t[hi - 1] == '|' then Some(hi - 1)
    else LastPipe(t, lo, hi - 1)
  }

  /** `\n\n` or `\n##` starts at `q`. */
  predicate TerminatorAt(t: string, q: nat) {
    q + 1 < |t| && t[q] == '\n' && (t[q + 1] == '\n' || (q + 2 < |t| && t[q + 1] == '#' && t[q + 2] == '#'))
  }

  /** The first terminator at or after `i`: where the lazy `(.*?)` stops. */
  function FirstTerminator(t: string, i: nat): (r: Option<nat>)
    requires i <= |t|
    ensures r.Some? ==> i <= r.value < |t| && TerminatorAt(t, r.value)
    ensures r.Some? ==> forall k :: i <= k < r.value ==> !TerminatorAt(t, k)
    decreases |t| - i
  {
    if i == |t| then None
    else if TerminatorAt(t, i) then Some(i)
    else FirstTerminator(t, i + 1)
  }

  /**
   * The captured body for the text `t` that follows a header row's final
   * pipe: leading whitespace, the separator's opening pipe, the longest run
   * of class characters, and then, trying closing pipes from the last one
   * backwards, the first closing pipe after which a terminator follows.
   */
  function Capture(t: string, inClass: char -> bool): Option<string> {
    var a := SkipSpaces(t, 0);
    if a == |t| || t[a] != '|' then None
    else CaptureFrom(t, a, SkipClass(t, a + 1, inClass))
  }

  function CaptureFrom(t: string, a: nat, hi: nat): Option<string>
    requires a < hi <= |t|
    decreases hi
  {
    var p := LastPipe(t, a + 1, hi);
    if p.None? then None
    else
      var q := FirstTerminator(t, p.value + 1);
      if q.Some? then Some(t[p.value + 1..q.value]) else
      if p.value > a then CaptureFrom(t, a, p.value) else None
  }

  // --------------------------------------------------------- helper facts

  lemma {:induction false} SkipSpacesTo(t: string, i: nat, j: nat)
    requires i <= j <= |t| && (forall k :: i <= k < j ==> IsSpace(t[k])) && (j == |t| || !IsSpace(t[j]))
    ensures SkipSpaces(t, i) == j
    decreases j - i
  {
    if i < j {
      SkipSpacesTo(t, i + 1, j);
    }
  }

  lemma {:induction false} SkipClassTo(t: string, i: nat, j: nat, inClass: char -> bool)
    requires i <= j <= |t| && (forall k :: i <= k < j ==> inClass(t[k])) && (j == |t| || !inClass(t[j]))
    ensures SkipClass(t, i, inClass) == j
    decreases j - i
  {
    if i < j {
      SkipClassTo(t, i + 1, j, inClass);
    }
  }

  lemma {:induction false} FirstTerminatorIs(t: string, i: nat, q: nat)
    requires i <= q < |t| && TerminatorAt(t, q) && forall k :: i <= k < q ==> !TerminatorAt(t, k)
    ensures FirstTerminator(t, i) == Some(q)
    decreases q - i
  {
    if i < q {
      FirstTerminatorIs(t, i + 1, q);
    }
  }

  /** Every newline is followed by a pipe: no blank line and no heading inside. */
  predicate NewlinesBeforePipes(s: string) {
    forall k :: 0 <= k < |s| && s[k] == '\n' ==> k + 1 < |s| && s[k + 1] == '|'
  }

  /** Row lines joined by newlines have that shape. */
  lemma {:induction false} JoinedRowsNewlines(rows: seq<string>)
    requires |rows| >= 1 && forall i :: 0 <= i < |rows| ==> IsRowLine(rows[i])
    ensures NewlinesBeforePipes(Join(rows, "\n"))
    decreases |rows|
  {
    if |rows| > 1 {
      var rest := rows[1..];
      JoinedRowsNewlines(rest);
      JoinEdges(rest, "\n");
      var r0, j, jr := rows[0], Join(rows, "\n"), Join(rest, "\n");
      assert j == r0 + "\n" + jr;
      forall k | 0 <= k < |j|
        ensures j[k] == '\n' ==> k + 1 < |j| && j[k + 1] == '|'
      {
        if k < |r0| {
          assert j[k] == r0[k];
        } else if k > |r0| {
          assert j[k] == jr[k - |r0| - 1];
        }
      }
    }
  }

  /** A separator row such as `|---|---|`: dashes and pipes only, a pipe at each end. */
  predicate SeparatorRow(sep: string) {
    |sep| >= 2 && sep[0] == '|' && sep[|sep| - 1] == '|' && forall k :: 0 <= k < |sep| ==> sep[k] == '-' || sep[k] == '|'
  }

  /**
   * What follows a header row's final pipe in the file
   * `save_issues_to_markdown` writes: a line break, the separator row, a
   * line break, the table body, a blank line and the rest of the file.
   */
  function WrittenTail(sep: string, body: string, more: string): string {
    "\n" + sep + "\n" + body + "\n\n" + more
  }

  /** No terminator starts inside the body (after its first character). */
  lemma {:induction false} BodyHasNoTerminator(sep: string, body: string, more: string, from: nat)
    requires NewlinesBeforePipes(body) && from == |sep| + 3
    ensures var t := WrittenTail(sep, body, more); forall k :: from <= k < |sep| + 2 + |body| ==> !TerminatorAt(t, k)
  {
    var t, o := WrittenTail(sep, body, more), |sep| + 2;
    assert t[o..o + |body|] == body;
    forall k | from <= k < o + |body|
      ensures !TerminatorAt(t, k)
    {
      assert t[k] == body[k - o];
      if body[k - o] == '\n' {
        assert t[k + 1] == body[k - o + 1];
      }
    }
  }

  // ------------------------------------------------------------ the finding

  /**
   * As written, the class run goes on across the separator's line break
   * into the first data row, so the closing pipe is that row's leading pipe
   * and the capture starts inside the row.
   */
  lemma {:induction false} CaptureAsWritten(sep: string, body: string, more: string)
    requires SeparatorRow(sep) && NewlinesBeforePipes(body)
    requires |body| >= 3 && body[0] == '|' && body[1] == ' ' && !RuleClass(body[2])
    ensures Capture(WrittenTail(sep, body, more), RuleClass) == Some(body[1..])
  {
    var t, n := WrittenTail(sep, body, more), |sep|;
    assert t[0] == '\n' && t[1] == '|';
    SkipSpacesTo(t, 0, 1);
    assert t[n + 2] == '|' && t[n + 3] == ' ' && t[n + 4] == body[2];
    forall k | 2 <= k < n + 4
      ensures RuleClass(t[k])
    {
      if k <= n {
        assert t[k] == sep[k - 1];
      }
    }
    SkipClassTo(t, 2, n + 4, RuleClass);
    assert LastPipe(t, 2, n + 4) == Some(n + 2);
    assert t[n + 2 + |body|] == '\n' && t[n + 3 + |body|] == '\n';
    BodyHasNoTerminator(sep, body, more, n + 3);
    FirstTerminatorIs(t, n + 3, n + 2 + |body|);
    assert t[n + 3..n + 2 + |body|] == body[1..];
  }

  /**
   * With the class kept on the separator line, the closing pipe is the
   * separator's last one and the capture is a line break and the body (or
   * nothing, for an empty body).
   */
  lemma {:induction false} CaptureOnLine(sep: string, body: string, more: string)
    requires SeparatorRow(sep)
    requires body == [] || (body[0] == '|' && NewlinesBeforePipes(body))
    ensures Capture(WrittenTail(sep, body, more), RuleLineClass) == Some(if body == [] then "" else "\n" + body)
  {
    SeparatorLineSkipped(sep, body, more);
    BodyTerminated(sep, body, more);
  }

  /** With the class kept on the line, the run stops at the separator's line break and its last pipe closes it. */
  lemma {:induction false} SeparatorLineSkipped(sep: string, body: string, more: string)
    requires SeparatorRow(sep)
    ensures var t, n := WrittenTail(sep, body, more), |sep|;
      Capture(t, RuleLineClass) == CaptureFrom(t, 1, n + 1) && LastPipe(t, 2, n + 1) == Some(n)
  {
    var t, n := WrittenTail(sep, body, more), |sep|;
    assert t[0] == '\n' && t[1] == '|';
    SkipSpacesTo(t, 0, 1);
    forall k | 2 <= k < n + 1
      ensures RuleLineClass(t[k])
    {
      assert t[k] == sep[k - 1];
    }
    assert t[n + 1] == '\n';
    SkipClassTo(t, 2, n + 1, RuleLineClass);
    assert t[n] == sep[n - 1];
  }

  /** After the separator's last pipe, the lazy capture runs to the blank line that ends the body. */
  lemma {:induction false} BodyTerminated(sep: string, body: string, more: string)
    requires SeparatorRow(sep)
    requires body == [] || (body[0] == '|' && NewlinesBeforePipes(body))
    ensures var t, n := WrittenTail(sep, body, more), |sep|;
      var q := if body == [] then n + 1 else n + 2 + |body|;
      n + 1 <= q < |t| && FirstTerminator(t, n + 1) == Some(q) && t[n + 1..q] == (if body == [] then "" else "\n" + body)
  {
    var t, n := WrittenTail(sep, body, more), |sep|;
    if body == [] {
      assert TerminatorAt(t, n + 1);
      FirstTerminatorIs(t, n + 1, n + 1);
    } else {
      assert t[n + 2] == '|';
      assert !TerminatorAt(t, n + 1);
      assert t[n + 2 + |body|] == '\n' && t[n + 3 + |body|] == '\n';
      BodyHasNoTerminator(sep, body, more, n + 3);
      FirstTerminatorIs(t, n + 1, n + 2 + |body|);
      assert t[n + 1..n + 2 + |body|] == "\n" + body by {
        var a, b, c := "\n" + sep, "\n" + body, "\n\n" + more;
        assert t == a + b + c;
        assert |a| == n + 1;
        assert (a + b + c)[|a|..|a| + |b|] == b;
      }
    }
  }

  // ------------------------------------------------------ reading the bodies

  /** A row with its leading pipe and the next character cut off splits into one cell fewer. */
  lemma {:induction false} HeadlessLineCells(ps: seq<string>)
    requires |ps| >= 1 && ps[0] != [] && NoPipes(ps)
    ensures |Line(ps)| >= 2 && |Cells(Line(ps)[2..])| == |ps| - 1
  {
    var h, rest := ps[0][1..], PipeEach(ps[1..]);
    assert Line(ps)[2..] == h + "|" + rest;
    SplitAround(h, '|', rest);
    assert forall k :: 0 <= k < |h| ==> h[k] == ps[0][k + 1];
    SplitWithout(h, '|');
    assert NoPipes(ps[1..]) by {
      assert forall i :: 0 <= i < |ps| - 1 ==> ps[1..][i] == ps[i + 1];
    }
    SplitPipeEach(ps[1..]);
  }

  /** The first row as the capture as written hands it over (without its pipe and the space after it) is skipped. */
  lemma {:induction false} HeadlessIssueRowSkipped(x: Issue)
    requires WellFormed(x)
    ensures |IssueRow(x)| >= 2 && ParseIssueRow(IssueRow(x)[2..]).None?
  {
    NumberCell(x.id);
    assert IntToString(x.id) == NatToString(x.id);
    var ps := [Pad(IntToString(x.id)), Pad(x.feature), Pad(x.description), Pad(x.priority), Pad(x.status)];
    assert NoPipes(ps);
    HeadlessLineCells(ps);
    ParseIssueRowAccepts(IssueRow(x)[2..]);
  }

  /** The row of a well-formed issue opens with a pipe, a space and the id's first digit. */
  lemma {:induction false} IssueRowStart(x: Issue)
    requires WellFormed(x)
    ensures var row := IssueRow(x); |row| >= 3 && row[0] == '|' && row[1] == ' ' && IsDigit(row[2])
  {
    NumberCell(x.id);
    assert IntToString(x.id) == NatToString(x.id);
    var ps := [Pad(IntToString(x.id)), Pad(x.feature), Pad(x.description), Pad(x.priority), Pad(x.status)];
    assert IssueRow(x) == "|" + ps[0] + "|" + PipeEach(ps[1..]);
  }

  /** Row lines joined by line breaks: the first row, then the others. */
  lemma {:induction false} RowsTextShape(rows: seq<string>)
    requires |rows| >= 1 && forall i :: 0 <= i < |rows| ==> IsRowLine(rows[i])
    ensures var j := Join(rows, "\n"); NewlinesBeforePipes(j) && |j| >= 2 && j[0] == '|' && j[|j| - 1] == '|'
    ensures Join(rows, "\n") == rows[0] + (if |rows| == 1 then "" else "\n" + Join(rows[1..], "\n"))
  {
    assert IsRowLine(rows[0]) && IsRowLine(rows[|rows| - 1]);
    JoinedRowsNewlines(rows);
    JoinEdges(rows, "\n");
  }

  /** A line the parser skips, in front of the others, changes nothing. */
  lemma {:induction false} ParsedIssuesSkip(h: string, rows: seq<string>)
    requires ParseIssueRow(h).None?
    ensures ParsedIssues([h] + rows) == ParsedIssues(rows)
    decreases |rows|
  {
    if rows == [] {
      assert ([h] + rows)[..0] == [];
    } else {
      var n := |rows|;
      assert ([h] + rows)[..n] == [h] + rows[..n - 1];
      ParsedIssuesSkip(h, rows[..n - 1]);
    }
  }

  /**
   * The lines the capture as written yields for row lines whose first row
   * opens with a pipe, a space and a non-space: that row without those two
   * characters, then the other rows.
   */
  lemma {:induction false} AsWrittenLines(rows: seq<string>)
    requires |rows| >= 1 && forall i :: 0 <= i < |rows| ==> IsRowLine(rows[i])
    requires |rows[0]| >= 3 && rows[0][1] == ' ' && !IsSpace(rows[0][2])
    ensures |Join(rows, "\n")| >= 1 && BodyRows(Join(rows, "\n")[1..]) == [rows[0][2..]] + rows[1..]
  {
    HeadlessTrimmed(rows);
    HeadlessSplit(rows);
  }

  /** The text after the first row: nothing, or a line break and the other rows. */
  function LaterRows(rows: seq<string>): string
    requires |rows| >= 1
  {
    if |rows| == 1 then "" else "\n" + Join(rows[1..], "\n")
  }

  /** Without its leading pipe, the text trims to the first row's remainder and the later rows. */
  lemma {:induction false} HeadlessTrimmed(rows: seq<string>)
    requires |rows| >= 1 && forall i :: 0 <= i < |rows| ==> IsRowLine(rows[i])
    requires |rows[0]| >= 3 && rows[0][1] == ' ' && !IsSpace(rows[0][2])
    ensures var j := Join(rows, "\n"); |j| >= 1 && Trim(j[1..]) == rows[0][2..] + LaterRows(rows)
  {
    RowsTextShape(rows);
    var j := Join(rows, "\n");
    assert j == rows[0] + LaterRows(rows);
    DropLeadTrim(rows[0], LaterRows(rows));
  }

  /** A text opening with a character and a space and ending in a pipe trims, without its first character, to the rest after the space. */
  lemma {:induction false} DropLeadTrim(row: string, later: string)
    requires |row| >= 3 && row[1] == ' ' && !IsSpace(row[2])
    requires (row + later)[|row + later| - 1] == '|'
    ensures Trim((row + later)[1..]) == row[2..] + later
  {
    var j, x := row + later, row[2..] + later;
    assert j[1..] == " " + x;
    assert x[0] == row[2];
    assert x[|x| - 1] == j[|j| - 1];
    TrimLeadSpace(x);
  }

  /** The first row's remainder and the later rows split into exactly those lines. */
  lemma {:induction false} HeadlessSplit(rows: seq<string>)
    requires |rows| >= 1 && forall i :: 0 <= i < |rows| ==> IsRowLine(rows[i])
    requires |rows[0]| >= 3
    ensures Split(rows[0][2..] + LaterRows(rows), '\n') == [rows[0][2..]] + rows[1..]
  {
    var row := rows[0];
    var h := row[2..];
    assert IsRowLine(row);
    assert '\n' !in h by {
      assert forall k :: 0 <= k < |h| ==> h[k] == row[k + 2];
    }
    SplitWithout(h, '\n');
    if |rows| == 1 {
      assert h + LaterRows(rows) == h;
    } else {
      var rest := rows[1..];
      assert h + LaterRows(rows) == h + ['\n'] + Join(rest, "\n");
      SplitAround(h, '\n', Join(rest, "\n"));
      assert forall i :: 0 <= i < |rest| ==> '\n' !in rest[i] by {
        assert forall i :: 0 <= i < |rest| ==> IsRowLine(rest[i]);
      }
      SplitJoin(rest, '\n');
    }
  }

  /**
   * The capture as written, for row lines whose first row the parser skips
   * once its pipe and the space after it are cut off: the issues of the
   * other rows.
   */
  lemma {:induction false} AsWrittenSkipsFirstLine(rows: seq<string>, ys: seq<Issue>, sep: string, more: string)
    requires |rows| >= 1 && SeparatorRow(sep) && forall i :: 0 <= i < |rows| ==> IsRowLine(rows[i])
    requires |rows[0]| >= 3 && rows[0][1] == ' ' && IsDigit(rows[0][2]) && ParseIssueRow(rows[0][2..]).None?
    requires |ys| == |rows| - 1 && forall i :: 0 <= i < |ys| ==> ParseIssueRow(rows[i + 1]) == Some(ys[i])
    ensures var c := Capture(WrittenTail(sep, Join(rows, "\n"), more), RuleClass);
      c.Some? && ParsedIssues(BodyRows(c.value)) == ys
  {
    var j := Join(rows, "\n");
    RowsTextShape(rows);
    CaptureAsWritten(sep, j, more);
    AsWrittenLines(rows);
    ParsedIssuesSkip(rows[0][2..], rows[1..]);
    ParsedIssueLines(rows[1..], ys);
  }

  /**
   * As written, the issues read from a tracker that `save_issues_to_markdown`
   * wrote are all but the first: the capture starts inside the first row,
   * which then has four cells and is skipped.
   */
  lemma {:induction false} AsWrittenDropsFirstIssue(xs: seq<Issue>, sep: string, more: string)
    requires |xs| >= 1 && SeparatorRow(sep)
    requires forall i :: 0 <= i < |xs| ==> WellFormed(xs[i])
    ensures var c := Capture(WrittenTail(sep, IssuesTableText(xs), more), RuleClass);
      c.Some? && ParsedIssues(BodyRows(c.value)) == seq(|xs| - 1, i requires 0 <= i < |xs| - 1 => Recorded(xs[i + 1]))
  {
    var rows, ys := IssueRows(xs), seq(|xs| - 1, i requires 0 <= i < |xs| - 1 => Recorded(xs[i + 1]));
    forall i | 0 <= i < |xs|
      ensures IsRowLine(rows[i])
    {
      IssueRowShape(xs[i]);
    }
    forall i | 0 <= i < |ys|
      ensures ParseIssueRow(rows[i + 1]) == Some(ys[i])
    {
      IssueRowRoundTrip(xs[i + 1]);
    }
    IssueRowStart(xs[0]);
    HeadlessIssueRowSkipped(xs[0]);
    assert rows[0] == IssueRow(xs[0]);
    AsWrittenSkipsFirstLine(rows, ys, sep, more);
    assert IssuesTableText(xs) == Join(rows, "\n");
  }

  /**
   * The root-cause row of an issue, as the capture as written hands it over
   * when it is the table's first row: it opens with a pipe, a space and the
   * id's first digit, and without those two characters it has two cells
   * and is skipped.
   */
  lemma {:induction false} HeadlessCauseRowSkipped(x: Issue)
    requires Writable(x) && x.files != []
    ensures var row := CauseRow(x); |row| >= 3 && row[0] == '|' && row[1] == ' ' && IsDigit(row[2])
    ensures ParseCauseRow(CauseRow(x)[2..]).None?
  {
    NumberCell(x.id);
    assert IntToString(x.id) == NatToString(x.id);
    var ps := [Pad(IntToString(x.id)), Pad(ToBeAnalyzed), Pad(Join(x.files, ", "))];
    FilesCell(x.files);
    assert IsCell(ToBeAnalyzed);
    assert NoPipes(ps);
    assert CauseRow(x) == "|" + ps[0] + "|" + PipeEach(ps[1..]);
    HeadlessLineCells(ps);
  }

  /** Every root-cause row is of that shape. */
  lemma {:induction false} CauseRowsHeadless(xs: seq<Issue>)
    requires forall i :: 0 <= i < |xs| ==> Writable(xs[i])
    ensures forall k :: 0 <= k < |CauseRows(xs)| ==> var row := CauseRows(xs)[k];
      |row| >= 3 && row[1] == ' ' && IsDigit(row[2]) && ParseCauseRow(row[2..]).None?
    decreases |xs|
  {
    if xs != [] {
      var n := |xs|;
      CauseRowsHeadless(xs[..n - 1]);
      if xs[n - 1].files != [] {
        HeadlessCauseRowSkipped(xs[n - 1]);
      }
    }
  }

  /** A root-cause line the parser skips, in front of the others, changes nothing. */
  lemma {:induction false} CausesSkip(h: string, rows: seq<string>)
    requires ParseCauseRow(h).None?
    ensures Causes([h] + rows) == Causes(rows)
    decreases |rows|
  {
    if rows == [] {
      assert ([h] + rows)[..0] == [];
    } else {
      var n := |rows|;
      assert ([h] + rows)[..n] == [h] + rows[..n - 1];
      CausesSkip(h, rows[..n - 1]);
    }
  }

  /**
   * As written, the root-cause table that `save_issues_to_markdown` wrote
   * reads back without its first row: the capture starts inside that row,
   * which then has two cells and is skipped.
   */
  lemma {:induction false} AsWrittenDropsFirstCause(xs: seq<Issue>, sep: string, more: string)
    requires SeparatorRow(sep) && CauseRows(xs) != []
    requires forall i :: 0 <= i < |xs| ==> Writable(xs[i])
    ensures var c := Capture(WrittenTail(sep, CausesTableText(xs), more), RuleClass);
      c.Some? && Causes(BodyRows(c.value)) == Causes(CauseRows(xs)[1..])
  {
    var rows := CauseRows(xs);
    var j := Join(rows, "\n");
    CauseRowsAreLines(xs);
    CauseRowsHeadless(xs);
    assert IsRowLine(rows[0]);
    RowsTextShape(rows);
    assert j[1] == rows[0][1] && j[2] == rows[0][2];
    CaptureAsWritten(sep, j, more);
    AsWrittenLines(rows);
    CausesSkip(rows[0][2..], rows[1..]);
    assert CausesTableText(xs) == j;
  }

  /** A line break in front of a body changes none of its lines. */
  lemma {:induction false} BodyLeadBreak(body: string)
    ensures BodyRows("\n" + body) == BodyRows(body)
  {
    assert ("\n" + body)[1..] == body;
    assert TrimStart("\n" + body) == TrimStart(body);
  }

  /** With the class kept on the separator line, every issue of a written tracker is read back. */
  lemma {:induction false} OnLineReadsAllIssues(xs: seq<Issue>, sep: string, more: string)
    requires SeparatorRow(sep)
    requires forall i :: 0 <= i < |xs| ==> WellFormed(xs[i])
    ensures var c := Capture(WrittenTail(sep, IssuesTableText(xs), more), RuleLineClass);
      c.Some? && ParsedIssues(BodyRows(c.value)) == seq(|xs|, i requires 0 <= i < |xs| => Recorded(xs[i]))
  {
    var rows := IssueRows(xs);
    var j := Join(rows, "\n");
    if xs != [] {
      forall i | 0 <= i < |xs|
        ensures IsRowLine(rows[i])
      {
        IssueRowShape(xs[i]);
      }
      RowsTextShape(rows);
      BodyLeadBreak(j);
    }
    CaptureOnLine(sep, j, more);
    IssuesBodyRead(xs);
  }

  /** The capture of an optional text (`None`: the file or the table header is missing). */
  function CaptureOf(tail: Option<string>): (r: Option<string>)
    ensures tail.None? ==> r.None?
  {
    if tail.None? then None else Capture(tail.value, RuleLineClass)
  }

  /**
   * `parse_issues_tracker` with the corrected separator class, given the
   * text after each table's header row.
   */
  function ReadTracker(issuesTail: Option<string>, causesTail: Option<string>): (r: seq<Issue>)
    ensures issuesTail.None? ==> r == []
  {
    Tracker(CaptureOf(issuesTail), CaptureOf(causesTail))
  }

  /** The root-cause table that `save_issues_to_markdown` writes is empty or pipe-led with no blank line. */
  lemma {:induction false} CausesTextShape(xs: seq<Issue>)
    requires forall i :: 0 <= i < |xs| ==> Writable(xs[i])
    ensures var j := CausesTableText(xs); j == [] || (j[0] == '|' && NewlinesBeforePipes(j))
  {
    var rows := CauseRows(xs);
    if rows != [] {
      CauseRowsAreLines(xs);
      JoinedRowsNewlines(rows);
      JoinEdges(rows, "\n");
    }
  }

  /**
   * Reading back a tracker that `save_issues_to_markdown` wrote for a fresh
   * issue log gives every issue, with "To be analyzed" as the root cause of
   * the ones that name files.
   */
  lemma {:induction false} ReadTrackerRoundTrip(xs: seq<Issue>, sep1: string, sep2: string, more1: string, more2: string)
    requires Sequential(xs) && SeparatorRow(sep1) && SeparatorRow(sep2)
    requires forall i :: 0 <= i < |xs| ==> Writable(xs[i]) && xs[i].rootCause.None?
    ensures ReadTracker(Some(WrittenTail(sep1, IssuesTableText(xs), more1)), Some(WrittenTail(sep2, CausesTableText(xs), more2))) ==
      seq(|xs|, i requires 0 <= i < |xs| => Reread(xs[i]))
  {
    var j1, j2 := IssuesTableText(xs), CausesTableText(xs);
    var c1 := CaptureOf(Some(WrittenTail(sep1, j1, more1)));
    var c2 := CaptureOf(Some(WrittenTail(sep2, j2, more2)));
    forall i | 0 <= i < |xs|
      ensures WellFormed(xs[i])
    {
      assert Writable(xs[i]);
    }
    IssuesTextShape(xs);
    CapturedRows(sep1, j1, more1);
    CausesTextShape(xs);
    CapturedRows(sep2, j2, more2);
    TrackerByRows(c1.value, c2.value, j1, j2);
    TrackerRoundTrip(xs);
  }

  /** The issue table that `save_issues_to_markdown` writes is empty or pipe-led with no blank line. */
  lemma {:induction false} IssuesTextShape(xs: seq<Issue>)
    requires forall i :: 0 <= i < |xs| ==> WellFormed(xs[i])
    ensures var j := IssuesTableText(xs); j == [] || (j[0] == '|' && NewlinesBeforePipes(j))
  {
    var rows := IssueRows(xs);
    if xs != [] {
      forall i | 0 <= i < |xs|
        ensures IsRowLine(rows[i])
      {
        IssueRowShape(xs[i]);
      }
      RowsTextShape(rows);
    }
  }

  /** A written table body is captured, and the capture has the body's lines. */
  lemma {:induction false} CapturedRows(sep: string, body: string, more: string)
    requires SeparatorRow(sep)
    requires body == [] || (body[0] == '|' && NewlinesBeforePipes(body))
    ensures var c := CaptureOf(Some(WrittenTail(sep, body, more))); c.Some? && BodyRows(c.value) == BodyRows(body)
  {
    CaptureOnLine(sep, body, more);
    if body != [] {
      BodyLeadBreak(body);
    }
  }

  /** The tracker read depends on the two captured bodies only through their lines. */
  lemma {:induction false} TrackerByRows(a: string, b: string, a': string, b': string)
    requires BodyRows(a) == BodyRows(a') && BodyRows(b) == BodyRows(b')
    ensures Tracker(Some(a), Some(b)) == Tracker(Some(a'), Some(b'))
  {
  }
}
