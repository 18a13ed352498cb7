/**
 * Comma-separated text as the insight hub's export writes it
 * (RezGuruAI/client/src/pages/Dashboard.tsx): rows of cells joined by ','
 * and lines joined by '\n', each cell rendered by a given function; and a
 * reader for such text (quoted fields as in RFC 4180) that states what the
 * text reads back as.
 */
module Csv {
  import opened Core
  import opened Text

  /** Each row rendered by a cell rendering, joined by ','. */
  function Lines(rows: seq<seq<string>>, cell: string -> string): (r: seq<string>)
    ensures |r| == |rows| && forall i :: 0 <= i < |rows| ==> r[i] == Join(Cells(rows[i], cell), ",")
  {
    seq(|rows|, i requires 0 <= i < |rows| => Join(Cells(rows[i], cell), ","))
  }

  function Cells(row: seq<string>, cell: string -> string): (r: seq<string>)
    ensures |r| == |row| && forall i :: 0 <= i < |row| ==> r[i] == cell(row[i])
  {
    seq(|row|, i requires 0 <= i < |row| => cell(row[i]))
  }

  /** The header line and then the data lines, joined by '\n'. */
  function CsvText(headers: seq<string>, rows: seq<seq<string>>, cell: string -> string): string {
    Join(Lines([headers] + rows, cell), "\n")
  }

  /** The page's rendering: cells written as they are. */
  function AsIs(c: string): string { c }

  /** The corrected rendering: a cell that holds a comma is quoted. */
  function Quoted(c: string): string {
    if ',' in c then "\"" + c + "\"" else c
  }

  // A reader of comma-separated values: a field that starts with '"' runs to
  // the next '"' (and anything up to the following ',' is dropped); any other
  // field runs to the next ','.

  /** The index of the first `c` in `s`, or `|s|`. */
  function UpTo(s: string, c: char): (k: nat)
    ensures k <= |s| && c !in s[..k] && (k < |s| ==> s[k] == c)
    decreases |s|
  {
    if s == [] then 0 else if s[0] == c then 0 else 1 + UpTo(s[1..], c)
  }

  datatype Field = Field(value: string, rest: string)

  /** One field and what follows it: nothing, or a ',' and the next fields. */
  function ReadField(s: string): (f: Field)
    ensures |f.rest| <= |s| && (f.rest == [] || f.rest[0] == ',')
  {
    if s != [] && s[0] == '"' then
      var body := s[1..];
      var k := UpTo(body, '"');
      var after := if k < |body| then body[k + 1..] else [];
      Field(body[..k], after[UpTo(after, ',')..])
    else
      Field(s[..UpTo(s, ',')], s[UpTo(s, ',')..])
  }

  /** The fields of one line. */
  function ReadRow(s: string): (r: seq<string>)
    ensures |r| >= 1
    decreases |s|
  {
    var f := ReadField(s);
    if f.rest == [] then [f.value] else [f.value] + ReadRow(f.rest[1..])
  }

  function ReadRows(lines: seq<string>): (r: seq<seq<string>>)
    ensures |r| == |lines| && forall i :: 0 <= i < |lines| ==> r[i] == ReadRow(lines[i])
  {
    seq(|lines|, i requires 0 <= i < |lines| => ReadRow(lines[i]))
  }

  /** The rows of a CSV text: its lines, each read into fields. */
  function ReadCsv(text: string): seq<seq<string>> {
    ReadRows(Split(text, '\n'))
  }

  lemma {:induction false} UpToAfter(a: string, c: char, b: string)
    requires c !in a && (b == [] || b[0] == c)
    ensures UpTo(a + b, c) == |a|
    decreases |a|
  {
    if a != [] {
      assert (a + b)[1..] == a[1..] + b;
      UpToAfter(a[1..], c, b);
    } else {
      assert a + b == b;
    }
  }

  /** A line without quotes reads as its pieces between commas. */
  lemma {:induction false} ReadPlain(s: string)
    requires '"' !in s
    ensures ReadRow(s) == Split(s, ',')
    decreases |s|
  {
    var k := UpTo(s, ',');
    PlainField(s);
    SplitWithout(s[..k], ',');
    if k < |s| {
      var tail := s[k + 1..];
      PlainTail(s, k);
      ReadPlain(tail);
      SplitAround(s[..k], ',', tail);
    } else {
      assert s[..k] == s;
    }
  }

  /** A field that does not open with a quote runs to the first comma. */
  lemma {:induction false} PlainField(s: string)
    requires '"' !in s
    ensures ReadField(s) == Field(s[..UpTo(s, ',')], s[UpTo(s, ',')..])
  {
    if s != [] {
      assert s[0] in s;
    }
  }

  /** What follows the first comma of a quote-free line, and how the line splits around it. */
  lemma {:induction false} PlainTail(s: string, k: nat)
    requires '"' !in s && k < |s| && s[k] == ','
    ensures '"' !in s[k + 1..] && s[k..][1..] == s[k + 1..] && s == s[..k] + [','] + s[k + 1..]
  {
    var tail := s[k + 1..];
    assert forall i :: 0 <= i < |tail| ==> tail[i] == s[k + 1 + i];
  }

  /** A row none of whose cells holds a quote or a line break. */
  predicate CleanRow(row: seq<string>) {
    forall j :: 0 <= j < |row| ==> '"' !in row[j] && '\n' !in row[j]
  }

  /** Rows of such cells, as in the dashboard's export. */
  predicate CleanCells(rows: seq<seq<string>>) {
    forall i :: 0 <= i < |rows| ==> CleanRow(rows[i])
  }

  /** Written as is, a clean table reads back as its lines split at every comma. */
  lemma {:induction false} AsWrittenReads(headers: seq<string>, rows: seq<seq<string>>)
    requires CleanCells([headers] + rows) && forall i :: 0 <= i < |rows| ==> |rows[i]| >= 1
    requires |headers| >= 1
    ensures var read := ReadCsv(CsvText(headers, rows, AsIs));
      |read| == 1 + |rows| && forall i :: 0 <= i < |read| ==> read[i] == SplitEach(([headers] + rows)[i], ',')
  {
    var all := [headers] + rows;
    var lines := Lines(all, AsIs);
    forall i | 0 <= i < |all|
      ensures '\n' !in lines[i] && ReadRow(lines[i]) == SplitEach(all[i], ',')
    {
      PlainLineRead(all[i]);
    }
    SplitJoin(lines, '\n');
  }

  /** A clean row written as is reads back as its cells split at every comma. */
  lemma {:induction false} PlainLineRead(row: seq<string>)
    requires |row| >= 1 && CleanRow(row)
    ensures var line := Join(Cells(row, AsIs), ","); '\n' !in line && ReadRow(line) == SplitEach(row, ',')
  {
    assert Cells(row, AsIs) == row;
    JoinAvoids(row, ",", '\n');
    JoinAvoids(row, ",", '"');
    ReadPlain(Join(row, ","));
    assert "," == [','];
    SplitJoinEach(row, ',');
  }

  /** A cell holding one comma splits into two fields. */
  lemma {:induction false} SplitsAtComma(a: string, b: string)
    requires ',' !in a && ',' !in b
    ensures Split(a + "," + b, ',') == [a, b]
  {
    SplitAround(a, ',', b);
    SplitWithout(a, ',');
    SplitWithout(b, ',');
  }

  /** A five-cell row whose third cell holds one comma, at index `k`, and whose other cells hold none. */
  predicate WideRow(row: seq<string>, k: nat) {
    |row| == 5 && k < |row[2]| && row[2][k] == ',' && ',' !in row[2][..k] && ',' !in row[2][k + 1..] &&
    ',' !in row[0] && ',' !in row[1] && ',' !in row[3] && ',' !in row[4]
  }

  /** Such a row reads as six fields. */
  lemma {:induction false} SixFields(row: seq<string>, k: nat)
    requires WideRow(row, k)
    ensures |SplitEach(row, ',')| == 6
  {
    var c := row[2];
    assert c == c[..k] + [','] + c[k + 1..];
    SplitsAtComma(c[..k], c[k + 1..]);
    SplitWithout(row[0], ',');
    SplitWithout(row[1], ',');
    SplitWithout(row[3], ',');
    SplitWithout(row[4], ',');
    var t1 := row[1..];
    var t2 := t1[1..];
    var t3 := t2[1..];
    var t4 := t3[1..];
    assert t4[1..] == [];
    assert SplitEach(t4, ',') == [row[4]];
    assert SplitEach(t3, ',') == [row[3], row[4]];
    assert |SplitEach(t2, ',')| == 4;
  }

  /**
   * Written as is, a clean table reads back with one line per row, and a
   * five-cell row whose third cell holds one comma reads as six fields.
   */
  lemma {:induction false} AsWrittenWideRow(headers: seq<string>, rows: seq<seq<string>>, i: nat, k: nat)
    requires CleanCells([headers] + rows) && forall j :: 0 <= j < |rows| ==> |rows[j]| >= 1
    requires |headers| >= 1 && i < |rows|
    requires WideRow(rows[i], k)
    ensures var read := ReadCsv(CsvText(headers, rows, AsIs)); |read| == 1 + |rows| && |read[i + 1]| == 6
  {
    AsWrittenReads(headers, rows);
    assert ([headers] + rows)[i + 1] == rows[i];
    SixFields(rows[i], k);
  }

  /** A quote-free cell, rendered and followed by nothing or a ',', reads back as itself. */
  lemma {:induction false} QuotedField(c: string, tail: string)
    requires '"' !in c && (tail == [] || tail[0] == ',')
    ensures ReadField(Quoted(c) + tail) == Field(c, tail)
  {
    if ',' in c {
      QuotedFieldComma(c, tail);
    } else {
      QuotedFieldPlain(c, tail);
    }
  }

  /** A cell with a comma is read between its quotes. */
  lemma {:induction false} QuotedFieldComma(c: string, tail: string)
    requires '"' !in c && (tail == [] || tail[0] == ',')
    ensures ReadField("\"" + c + "\"" + tail) == Field(c, tail)
  {
    var s := "\"" + c + "\"" + tail;
    var body := s[1..];
    assert body == c + ("\"" + tail);
    UpToAfter(c, '"', "\"" + tail);
    assert body[..|c|] == c;
    assert body[|c| + 1..] == tail;
    UpToAfter([], ',', tail);
    assert tail[0..] == tail;
  }

  /** A cell without a comma is read up to the next comma. */
  lemma {:induction false} QuotedFieldPlain(c: string, tail: string)
    requires '"' !in c && ',' !in c && (tail == [] || tail[0] == ',')
    ensures ReadField(c + tail) == Field(c, tail)
  {
    var s := c + tail;
    UpToAfter(c, ',', tail);
    if c == [] {
      assert s == tail;
    } else {
      assert s[0] == c[0];
    }
    assert s[..|c|] == c && s[|c|..] == tail;
  }

  /** A row of quote-free cells, rendered with the quoting, reads back as itself. */
  lemma {:induction false} QuotedRowRoundTrip(row: seq<string>)
    requires |row| >= 1 && forall j :: 0 <= j < |row| ==> '"' !in row[j]
    ensures ReadRow(Join(Cells(row, Quoted), ",")) == row
    decreases |row|
  {
    if |row| == 1 {
      QuotedField(row[0], []);
      assert Join(Cells(row, Quoted), ",") == Quoted(row[0]) + [];
    } else {
      var more := Join(Cells(row[1..], Quoted), ",");
      JoinCellsCons(row);
      QuotedField(row[0], "," + more);
      ReadRowCons(Quoted(row[0]) + ("," + more), row[0], more);
      QuotedRowRoundTrip(row[1..]);
    }
  }

  /** The rendered row is the first cell, a ',' and the rendering of the rest. */
  lemma {:induction false} JoinCellsCons(row: seq<string>)
    requires |row| >= 2
    ensures Join(Cells(row, Quoted), ",") == Quoted(row[0]) + ("," + Join(Cells(row[1..], Quoted), ","))
  {
    var cells := Cells(row, Quoted);
    assert cells[1..] == Cells(row[1..], Quoted);
  }

  /** A line whose first field is followed by a ',' reads as that field and then the rest. */
  lemma {:induction false} ReadRowCons(s: string, value: string, more: string)
    requires ReadField(s) == Field(value, "," + more)
    ensures ReadRow(s) == [value] + ReadRow(more)
  {
    assert ("," + more)[1..] == more;
  }

  /** With the quoting, a clean table reads back as the header row and the data rows. */
  lemma {:induction false} QuotedReads(headers: seq<string>, rows: seq<seq<string>>)
    requires CleanCells([headers] + rows) && forall i :: 0 <= i < |rows| ==> |rows[i]| >= 1
    requires |headers| >= 1
    ensures ReadCsv(CsvText(headers, rows, Quoted)) == [headers] + rows
  {
    var all := [headers] + rows;
    var lines := Lines(all, Quoted);
    forall i | 0 <= i < |all|
      ensures '\n' !in lines[i] && ReadRow(lines[i]) == all[i]
    {
      QuotedLineRead(all[i]);
    }
    SplitJoin(lines, '\n');
  }

  /** A clean row written with the quoting is one line that reads back as the row itself. */
  lemma {:induction false} QuotedLineRead(row: seq<string>)
    requires |row| >= 1 && CleanRow(row)
    ensures var line := Join(Cells(row, Quoted), ","); '\n' !in line && ReadRow(line) == row
  {
    var cells := Cells(row, Quoted);
    forall j | 0 <= j < |cells|
      ensures '\n' !in cells[j]
    {
      assert '\n' !in row[j];
    }
    JoinAvoids(cells, ",", '\n');
    QuotedRowRoundTrip(row);
  }
}
