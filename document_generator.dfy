/**
 * The document generator wizard on the client: placeholder discovery in a
 * template text, the fields offered for input, their labels and widgets,
 * and the three-step state machine that ends in a generation request.
 */
module DocumentGenerator {
  import opened Core
  import opened Text
  import Schema
  import DocumentGeneration

  // Placeholder discovery: `text.match(/{{(.*?)}}/g)`

  /** The characters `.` does not match in a JavaScript regular expression. */
  predicate LineTerminator(c: char) {
    c == '\n' || c == '\r' || c == '\U{2028}' || c == '\U{2029}'
  }

  /** No `}}` starts inside `x`, not even one finishing in a `}}` after it. */
  predicate ClosedInner(x: string) {
    (forall j :: 0 <= j < |x| - 1 ==> !(x[j] == '}' && x[j + 1] == '}')) &&
    (x != [] ==> x[|x| - 1] != '}')
  }

  /** The text starts with the regular expression's literal `{{`. */
  predicate OpensHere(s: string) {
    |s| >= 2 && s[0] == '{' && s[1] == '{'
  }

  /** The text starts with the regular expression's literal `}}`. */
  predicate ClosesHere(t: string) {
    |t| >= 2 && t[0] == '}' && t[1] == '}'
  }

  /**
   * The length of the lazy `(.*?)` group at the start of `t`: the shortest
   * run of non-terminators that a `}}` follows, or None when there is none.
   */
  function InnerLen(t: string): (r: Option<nat>)
    ensures r.Some? ==> r.value + 2 <= |t| && t[r.value] == '}' && t[r.value + 1] == '}'
    ensures r.Some? ==> forall j :: 0 <= j < r.value ==> !LineTerminator(t[j])
    ensures r.Some? ==> ClosedInner(t[..r.value])
    decreases |t|
  {
    if ClosesHere(t) then Some(0)
    else if t == [] || LineTerminator(t[0]) then None
    else
      match InnerLen(t[1..])
      case None => None
      case Some(n) =>
        assert t[1..][..n] == t[1..n + 1];
        Some(n + 1)
  }

  /**
   * The successive matches of the global regular expression, as whole
   * `{{…}}` texts: after a match the search resumes behind it, otherwise one
   * character further.
   */
  function Matches(s: string): seq<string>
    decreases |s|
  {
    if s == [] then []
    else if OpensHere(s) && InnerLen(s[2..]).Some? then
      var n := InnerLen(s[2..]).value;
      [s[..n + 4]] + Matches(s[n + 4..])
    else Matches(s[1..])
  }

  /** `match.replace('{{', '').replace('}}', '')`. */
  function Strip(m: string): string {
    ReplaceFirst(ReplaceFirst(m, "{{", ""), "}}", "")
  }

  /** `getFieldsFromTemplate`: the placeholder names, first occurrences only. */
  function FieldsFromTemplate(text: Option<string>): (r: seq<string>)
    ensures Distinct(r)
    ensures text.None? || text == Some("") ==> r == []
  {
    if text.None? || text.value == "" then []
    else
      var ms := Matches(text.value);
      Dedup(seq(|ms|, i requires 0 <= i < |ms| => Strip(ms[i])))
  }

  /** A placeholder whose name has no line break and no closing `}}`. */
  predicate IsPlaceholder(m: string) {
    |m| >= 4 && m == DocumentGeneration.Hole(m[2..|m| - 2]) &&
    ClosedInner(m[2..|m| - 2]) &&
    forall j :: 2 <= j < |m| - 2 ==> !LineTerminator(m[j])
  }

  /** Stripping the braces of a placeholder gives back its name. */
  lemma {:induction false} StripHole(x: string)
    requires ClosedInner(x)
    ensures Strip(DocumentGeneration.Hole(x)) == x
  {
    var h := DocumentGeneration.Hole(x);
    OpenStripped(x, h);
    CloseStripped(x);
  }

  /** Removing the first `{{` of a placeholder leaves its name and the closing braces. */
  lemma {:induction false} OpenStripped(x: string, h: string)
    requires h == DocumentGeneration.Hole(x)
    ensures ReplaceFirst(h, "{{", "") == x + "}}"
  {
    StartsWithPair(h, '{', '{');
    assert h[0..] == h;
    IndexOfAt(h, "{{", 0);
    assert h[2..] == x + "}}";
  }

  /** In a name with no `}}` and no final `}`, the first `}}` of the name and the braces is the closing one. */
  lemma {:induction false} CloseStripped(x: string)
    requires ClosedInner(x)
    ensures ReplaceFirst(x + "}}", "}}", "") == x
  {
    var once := x + "}}";
    StartsWithPair(once[|x|..], '}', '}');
    forall j | 0 <= j < |x| ensures !StartsWith(once[j..], "}}") {
      StartsWithPair(once[j..], '}', '}');
      assert once[j] == x[j];
      if j + 1 < |x| {
        assert once[j + 1] == x[j + 1];
      }
    }
    IndexOfAt(once, "}}", |x|);
    assert once[..|x|] == x && once[|x| + 2..] == [];
  }

  /** The match found at the start of the text. */
  lemma {:induction false} MatchHead(s: string, n: nat)
    requires OpensHere(s) && InnerLen(s[2..]) == Some(n)
    ensures n + 4 <= |s| && IsPlaceholder(s[..n + 4]) && Contains(s, s[..n + 4])
  {
    var t := s[2..];
    var m := s[..n + 4];
    var x := m[2..n + 2];
    assert x == t[..n];
    assert m[n + 2] == t[n] && m[n + 3] == t[n + 1];
    var h := DocumentGeneration.Hole(x);
    forall i | 0 <= i < |m| ensures h[i] == m[i] {
      if 2 <= i < n + 2 {
        assert m[i] == x[i - 2];
      }
    }
    assert h == m;
    forall j | 2 <= j < n + 2 ensures !LineTerminator(m[j]) {
      assert m[j] == t[j - 2];
    }
    assert s[0..] == s && s[0..][..|m|] == m;
    ContainsAt(s, m, 0);
  }

  /** Every match is a placeholder that occurs in the text. */
  lemma {:induction false} MatchesSound(s: string)
    ensures forall m :: m in Matches(s) ==> IsPlaceholder(m) && Contains(s, m)
    decreases |s|
  {
    if s != [] {
      if OpensHere(s) && InnerLen(s[2..]).Some? {
        var n := InnerLen(s[2..]).value;
        MatchHead(s, n);
        var rest := s[n + 4..];
        MatchesSound(rest);
        assert s[..n + 4] + rest == s;
        forall m' | m' in Matches(rest) ensures Contains(s, m') {
          ContainsAfter(s[..n + 4], rest, m');
        }
      } else {
        MatchesSound(s[1..]);
        assert [s[0]] + s[1..] == s;
        forall m' | m' in Matches(s[1..]) ensures Contains(s, m') {
          ContainsAfter([s[0]], s[1..], m');
        }
      }
    }
  }

  /**
   * Each discovered field names a placeholder `{{field}}` of the template,
   * and has no line break in it.
   */
  lemma {:induction false} FieldsSound(text: string)
    ensures forall f :: f in FieldsFromTemplate(Some(text)) ==>
      Contains(text, DocumentGeneration.Hole(f)) &&
      forall j :: 0 <= j < |f| ==> !LineTerminator(f[j])
  {
    if text != "" {
      var ms := Matches(text);
      MatchesSound(text);
      var stripped := seq(|ms|, i requires 0 <= i < |ms| => Strip(ms[i]));
      forall f | f in FieldsFromTemplate(Some(text))
        ensures Contains(text, DocumentGeneration.Hole(f))
        ensures forall j :: 0 <= j < |f| ==> !LineTerminator(f[j])
      {
        assert f in stripped;
        var i :| 0 <= i < |ms| && stripped[i] == f;
        var m := ms[i];
        assert m in ms;
        StrippedPlaceholder(m);
      }
    }
  }

  /** Stripping a placeholder gives the single-line name it encloses. */
  lemma {:induction false} StrippedPlaceholder(m: string)
    requires IsPlaceholder(m)
    ensures m == DocumentGeneration.Hole(Strip(m))
    ensures forall j :: 0 <= j < |Strip(m)| ==> !LineTerminator(Strip(m)[j])
  {
    var f := m[2..|m| - 2];
    StripHole(f);
    forall j | 0 <= j < |f| ensures !LineTerminator(f[j]) {
      assert f[j] == m[j + 2];
    }
  }

  /**
   * A template laid out as literal text without braces around placeholders
   * with brace-free, single-line names: `lits[0] {{keys[0]}} lits[1] …`.
   */
  function Layout(keys: seq<string>, lits: seq<string>): string
    requires |lits| == |keys| + 1
    decreases |keys|
  {
    if keys == [] then lits[0]
    else lits[0] + DocumentGeneration.Hole(keys[0]) + Layout(keys[1..], lits[1..])
  }

  predicate SingleLineKey(k: string) {
    DocumentGeneration.BraceFree(k) && forall j :: 0 <= j < |k| ==> !LineTerminator(k[j])
  }

  lemma {:induction false} MatchesSkipLiteral(lit: string, rest: string)
    requires DocumentGeneration.BraceFree(lit)
    ensures Matches(lit + rest) == Matches(rest)
    decreases |lit|
  {
    if lit != [] {
      var s := lit + rest;
      assert s[0] == lit[0] != '{';
      assert Matches(s) == Matches(s[1..]);
      assert s[1..] == lit[1..] + rest;
      MatchesSkipLiteral(lit[1..], rest);
    } else {
      assert lit + rest == rest;
    }
  }

  lemma {:induction false} InnerLenKey(k: string, rest: string)
    requires SingleLineKey(k)
    ensures InnerLen(k + "}}" + rest) == Some(|k|)
    decreases |k|
  {
    if k == [] {
      assert k + "}}" + rest == "}}" + rest;
    } else {
      var t := k + "}}" + rest;
      assert t[0] == k[0];
      assert t[1..] == k[1..] + "}}" + rest;
      InnerLenKey(k[1..], rest);
    }
  }

  lemma {:induction false} MatchesHole(k: string, rest: string)
    requires SingleLineKey(k)
    ensures Matches(DocumentGeneration.Hole(k) + rest) ==
      [DocumentGeneration.Hole(k)] + Matches(rest)
  {
    var h := DocumentGeneration.Hole(k);
    var s := h + rest;
    assert s[0] == '{' && s[1] == '{';
    assert s[2..] == k + "}}" + rest;
    InnerLenKey(k, rest);
    assert s[..|k| + 4] == h;
    assert s[|k| + 4..] == rest;
  }

  lemma {:induction false} MatchesLayout(keys: seq<string>, lits: seq<string>)
    requires |lits| == |keys| + 1
    requires forall i :: 0 <= i < |lits| ==> DocumentGeneration.BraceFree(lits[i])
    requires forall i :: 0 <= i < |keys| ==> SingleLineKey(keys[i])
    ensures Matches(Layout(keys, lits)) ==
      seq(|keys|, i requires 0 <= i < |keys| => DocumentGeneration.Hole(keys[i]))
    decreases |keys|
  {
    if keys == [] {
      MatchesSkipLiteral(lits[0], "");
      assert lits[0] + "" == lits[0];
    } else {
      var tail := Layout(keys[1..], lits[1..]);
      MatchesLayout(keys[1..], lits[1..]);
      assert lits[0] + DocumentGeneration.Hole(keys[0]) + tail ==
        lits[0] + (DocumentGeneration.Hole(keys[0]) + tail);
      MatchesSkipLiteral(lits[0], DocumentGeneration.Hole(keys[0]) + tail);
      MatchesHole(keys[0], tail);
    }
  }

  lemma {:induction false} SingleLineKeyClosed(k: string)
    requires SingleLineKey(k)
    ensures ClosedInner(k)
  {
  }

  /**
   * The fields of a laid-out template are its placeholder names in
   * first-occurrence order, each once.
   */
  lemma {:induction false} FieldsOfLayout(keys: seq<string>, lits: seq<string>)
    requires |lits| == |keys| + 1
    requires forall i :: 0 <= i < |lits| ==> DocumentGeneration.BraceFree(lits[i])
    requires forall i :: 0 <= i < |keys| ==> SingleLineKey(keys[i])
    ensures FieldsFromTemplate(Some(Layout(keys, lits))) == Dedup(keys)
  {
    var text := Layout(keys, lits);
    MatchesLayout(keys, lits);
    var ms := Matches(text);
    var stripped := seq(|ms|, i requires 0 <= i < |ms| => Strip(ms[i]));
    forall i | 0 <= i < |keys| ensures stripped[i] == keys[i] {
      SingleLineKeyClosed(keys[i]);
      StripHole(keys[i]);
    }
    assert stripped == keys;
    if text == "" {
      assert ms == [];
    }
  }

  // Input fields

  /** The placeholders the server fills from the date or the lead. */
  const SystemFields: seq<string> := [
    "currentDate", "sellerName", "propertyAddress", "recipientName",
    "recipientAddress", "recipientCity", "recipientState", "recipientZip",
    "ownerName"]

  /** The template fields left for the user, in template order. */
  function InputFields(fields: seq<string>): (r: seq<string>)
    ensures forall f :: f in r <==> f in fields && f !in SystemFields
    ensures IsSubsequence(r, fields)
  {
    FilterIsSubsequence(fields, f => f !in SystemFields);
    Filter(fields, f => f !in SystemFields)
  }

  /** The system fields are exactly the date and the lead placeholders. */
  lemma SystemFieldsAreFilled()
    ensures forall f :: f in SystemFields <==>
      f == DocumentGeneration.CurrentDate || f in DocumentGeneration.LeadPlaceholders
  {
  }

  /**
   * An input field the user leaves out is still a placeholder in the
   * generated text, whether or not a lead was chosen.
   */
  lemma {:induction false} InputFieldStaysVerbatim(text: string, lead: Option<Schema.Lead>,
                                custom: seq<(string, string)>, today: string, f: string)
    requires f in InputFields(FieldsFromTemplate(Some(text)))
    requires DocumentGeneration.BraceFree(f)
    requires forall e :: e in custom ==> DocumentGeneration.BraceFree(e.0) && e.0 != f
    ensures Contains(DocumentGeneration.Populated(text, lead, custom, today),
                     DocumentGeneration.Hole(f))
  {
    FieldsSound(text);
    SystemFieldsAreFilled();
    DocumentGeneration.PopulatedKeepsHole(text, lead, custom, today, f);
  }

  // Labels and widgets

  function CapitalCount(f: string): nat {
    if f == [] then 0 else (if IsUpper(f[0]) then 1 else 0) + CapitalCount(f[1..])
  }

  /** `field.replace(/([A-Z])/g, ' $1')`. */
  function SpaceCapitals(f: string): (r: string)
    ensures |r| == |f| + CapitalCount(f)
  {
    if f == [] then []
    else (if IsUpper(f[0]) then [' ', f[0]] else [f[0]]) + SpaceCapitals(f[1..])
  }

  /** `.replace(/^./, str => str.toUpperCase())`. */
  function CapitalizeFirst(s: string): (r: string)
    ensures |r| == |s|
  {
    if s != [] && !LineTerminator(s[0]) then [ToUpperChar(s[0])] + s[1..] else s
  }

  /** The label shown above a field's input. */
  function Label(f: string): (r: string)
    ensures |r| == |f| + CapitalCount(f)
  {
    CapitalizeFirst(SpaceCapitals(f))
  }

  /** The text with its spaces removed. */
  function Unspaced(s: string): string {
    if s == [] then [] else (if s[0] == ' ' then [] else [s[0]]) + Unspaced(s[1..])
  }

  lemma {:induction false} UnspacedAppend(a: string, b: string)
    ensures Unspaced(a + b) == Unspaced(a) + Unspaced(b)
    decreases |a|
  {
    if a != [] {
      assert (a + b)[0] == a[0] && (a + b)[1..] == a[1..] + b;
      UnspacedAppend(a[1..], b);
    } else {
      assert a + b == b;
    }
  }

  lemma {:induction false} UnspacedSpaceCapitals(f: string)
    requires forall i :: 0 <= i < |f| ==> f[i] != ' '
    ensures Unspaced(SpaceCapitals(f)) == f
    decreases |f|
  {
    if f != [] {
      var head := if IsUpper(f[0]) then [' ', f[0]] else [f[0]];
      var rest := f[1..];
      assert SpaceCapitals(f) == head + SpaceCapitals(rest);
      UnspacedAppend(head, SpaceCapitals(rest));
      assert forall i :: 0 <= i < |rest| ==> rest[i] == f[i + 1];
      UnspacedSpaceCapitals(rest);
      UnspacedHead(f[0]);
      assert f == [f[0]] + rest;
    }
  }

  /** The spaced form of one character loses its space again. */
  lemma {:induction false} UnspacedHead(c: char)
    requires c != ' '
    ensures Unspaced(if IsUpper(c) then [' ', c] else [c]) == [c]
  {
    assert [c][1..] == [];
    assert Unspaced([c]) == [c];
    if IsUpper(c) {
      assert [' ', c][1..] == [c];
    }
  }

  /**
   * A label is the field name with its first character upper-cased and one
   * space inserted before each capital: removing the spaces gives the
   * capitalized name back.
   */
  lemma {:induction false} LabelWords(f: string)
    requires forall i :: 0 <= i < |f| ==> f[i] != ' '
    ensures Unspaced(Label(f)) == CapitalizeFirst(f)
  {
    var sc := SpaceCapitals(f);
    UnspacedSpaceCapitals(f);
    if f != [] {
      var rest := SpaceCapitals(f[1..]);
      if IsUpper(f[0]) {
        assert sc == [' ', f[0]] + rest;
        assert Label(f) == sc;
        assert CapitalizeFirst(f) == f;
      } else {
        assert sc == [f[0]] + rest;
        UnspacedSpaceCapitals(f[1..]);
        var c := if LineTerminator(f[0]) then f[0] else ToUpperChar(f[0]);
        assert c != ' ';
        assert Label(f) == [c] + rest;
        UnspacedAppend([c], rest);
        assert CapitalizeFirst(f) == [c] + f[1..];
      }
    }
  }

  lemma {:induction false} SpaceCapitalsAppend(a: string, b: string)
    ensures SpaceCapitals(a + b) == SpaceCapitals(a) + SpaceCapitals(b)
    decreases |a|
  {
    if a != [] {
      assert (a + b)[0] == a[0] && (a + b)[1..] == a[1..] + b;
      SpaceCapitalsAppend(a[1..], b);
    } else {
      assert a + b == b;
    }
  }

  lemma {:induction false} NoCapitals(f: string)
    requires forall i :: 0 <= i < |f| ==> !IsUpper(f[i])
    ensures SpaceCapitals(f) == f
    decreases |f|
  {
    if f != [] {
      NoCapitals(f[1..]);
      assert f == [f[0]] + f[1..];
    }
  }

  /**
   * A two-word camel-case name such as `propertyAddress` becomes its two
   * words, capitalized and separated by a space ("Property Address").
   */
  lemma {:induction false} LabelTwoWords(a: string, b: string)
    requires a != [] && 'a' <= a[0] <= 'z' && b != [] && IsUpper(b[0])
    requires forall i :: 0 <= i < |a| ==> !IsUpper(a[i])
    requires forall i :: 1 <= i < |b| ==> !IsUpper(b[i])
    ensures Label(a + b) == [ToUpperChar(a[0])] + a[1..] + " " + b
  {
    SpaceCapitalsAppend(a, b);
    NoCapitals(a);
    CapitalWord(b);
    CapitalizeTwoWords(a, b);
  }

  /** A capitalized word gets one space in front of it. */
  lemma {:induction false} CapitalWord(b: string)
    requires b != [] && IsUpper(b[0]) && forall i :: 1 <= i < |b| ==> !IsUpper(b[i])
    ensures SpaceCapitals(b) == " " + b
  {
    var rest := b[1..];
    calc {
      SpaceCapitals(b);
      [' ', b[0]] + SpaceCapitals(rest);
      { NoCapitals(rest); }
      [' ', b[0]] + rest;
      { assert b == [b[0]] + rest; }
      " " + b;
    }
  }

  /** Capitalizing the first word of two that are already spaced. */
  lemma {:induction false} CapitalizeTwoWords(a: string, b: string)
    requires a != [] && 'a' <= a[0] <= 'z'
    ensures CapitalizeFirst(a + (" " + b)) == [ToUpperChar(a[0])] + a[1..] + " " + b
  {
    var sc := a + (" " + b);
    assert sc[0] == a[0] && sc[1..] == a[1..] + " " + b;
  }

  /** The terms that make a field a multi-line text area. */
  const LongTextTerms: seq<string> := [
    "description", "notes", "provisions", "analysis", "recommendations",
    "conclusion", "comparableSales"]

  function AnyTermIn(field: string, terms: seq<string>): (r: bool)
    ensures r <==> exists i :: 0 <= i < |terms| && Contains(field, ToLower(terms[i]))
  {
    if terms == [] then false
    else Contains(field, ToLower(terms[0])) || AnyTermIn(field, terms[1..])
  }

  /** A field gets a text area iff its lowercased name contains a long-text term. */
  function IsTextArea(field: string): (r: bool)
    ensures r <==>
      exists i :: 0 <= i < |LongTextTerms| && Contains(ToLower(field), ToLower(LongTextTerms[i]))
  {
    AnyTermIn(ToLower(field), LongTextTerms)
  }

  /** The mixed-case term matches its lowercase spelling in any casing of the field. */
  lemma {:induction false} ComparableSalesIsTextArea(field: string)
    requires Contains(ToLower(field), "comparablesales")
    ensures IsTextArea(field)
  {
    assert ToLower(LongTextTerms[6]) == "comparablesales";
  }

  // Custom field values

  /** A record's entries in insertion order, as `Object.entries` lists them. */
  function Lookup(entries: seq<(string, string)>, k: string): (r: Option<string>)
    ensures r.Some? ==> (k, r.value) in entries
    ensures r.None? ==> forall e :: e in entries ==> e.0 != k
  {
    if entries == [] then None
    else if entries[0].0 == k then Some(entries[0].1)
    else Lookup(entries[1..], k)
  }

  /**
   * `{...prev, [k]: v}`: an existing key keeps its place with the new value,
   * a new key goes last.
   */
  function Assign(entries: seq<(string, string)>, k: string, v: string)
    : (r: seq<(string, string)>)
    ensures Lookup(r, k) == Some(v)
    ensures forall k' :: k' != k ==> Lookup(r, k') == Lookup(entries, k')
    ensures Lookup(entries, k).None? ==> r == entries + [(k, v)]
    ensures Lookup(entries, k).Some? ==>
      |r| == |entries| && forall i :: 0 <= i < |r| ==> r[i].0 == entries[i].0
  {
    if entries == [] then [(k, v)]
    else if entries[0].0 == k then [(k, v)] + entries[1..]
    else [entries[0]] + Assign(entries[1..], k, v)
  }

  predicate DistinctKeys(entries: seq<(string, string)>) {
    forall i, j :: 0 <= i < j < |entries| ==> entries[i].0 != entries[j].0
  }

  lemma {:induction false} AssignDistinct(entries: seq<(string, string)>, k: string, v: string)
    requires DistinctKeys(entries)
    ensures DistinctKeys(Assign(entries, k, v))
  {
    var r := Assign(entries, k, v);
    if Lookup(entries, k).None? {
      forall i, j | 0 <= i < j < |r| ensures r[i].0 != r[j].0 {
        if j == |entries| {
          assert entries[i] in entries;
        }
      }
    }
  }

  /** The value an input should show: what was typed for it, or ''. */
  function ShownValue(entries: seq<(string, string)>, field: string): (r: string)
    ensures Lookup(entries, field).Some? ==> r == Lookup(entries, field).value
    ensures Lookup(entries, field).None? ==> r == ""
  {
    match Lookup(entries, field)
    case Some(v) => v
    case None => ""
  }

  /** A canonical array index: digits without a leading zero. */
  predicate IsIndexName(f: string) {
    IsDigits(f) && (f == "0" || f[0] != '0')
  }

  /**
   * `customFields[field] || ''` where `customFields` is the local array of
   * input field names: an index name reads an array element, "length" the
   * count, and any other name nothing.
   */
  function ShownValueAsWritten(inputs: seq<string>, field: string): (r: string)
    ensures !IsIndexName(field) && field != "length" ==> r == ""
  {
    if IsIndexName(field) && DigitsValue(field) < |inputs| then inputs[DigitsValue(field)]
    else if field == "length" && |inputs| > 0 then NatToString(|inputs|)
    else ""
  }

  /**
   * What is typed into an input never shows as written: a field that is
   * neither an index name nor "length" displays '' whatever was typed,
   * while the value read from the state would be the typed text.
   */
  lemma {:induction false} TypedValueHidden(inputs: seq<string>, entries: seq<(string, string)>,
                         field: string, typed: string)
    requires field in inputs && !IsIndexName(field) && field != "length"
    ensures ShownValueAsWritten(inputs, field) == ""
    ensures ShownValue(Assign(entries, field, typed), field) == typed
  {
  }

  lemma TypedValueHiddenExample()
    ensures ShownValueAsWritten(["buyerName"], "buyerName") == ""
    ensures ShownValue(Assign([], "buyerName", "Alice"), "buyerName") == "Alice"
  {
    assert !IsDigits("buyerName") by { assert !IsDigit("buyerName"[0]); }
  }

  /**
   * What `customFields[field]` reads off the local array of field names:
   * an element, the count, an inherited method (`map`, `toString`,
   * `constructor`, …), the array prototype (`__proto__`), or nothing.
   */
  datatype ArrayRead = Element(s: string) | Count(n: nat) | InheritedMethod | Prototype | Missing

  /** The property lookup on the array; `methods` are the inherited method names. */
  function ReadArray(inputs: seq<string>, field: string, methods: set<string>): ArrayRead {
    if IsIndexName(field) && DigitsValue(field) < |inputs| then Element(inputs[DigitsValue(field)])
    else if field == "length" then Count(|inputs|)
    else if field == "__proto__" then Prototype
    else if field in methods then InheritedMethod
    else Missing
  }

  /**
   * `value={read || ''}` as React renders it: a falsy read gives ''; a
   * function value is rendered as ''; the array prototype is itself an
   * empty array, whose text is ''.
   */
  function Rendered(r: ArrayRead): string {
    match r
    case Element(s) => s
    case Count(n) => if n == 0 then "" else NatToString(n)
    case InheritedMethod => ""
    case Prototype => ""
    case Missing => ""
  }

  /**
   * The full lookup, inherited members included, shows what
   * `ShownValueAsWritten` says, whatever the inherited names are: a name
   * that is neither an index nor "length" shows ''.
   */
  lemma {:induction false} InheritedNamesShowNothing(inputs: seq<string>, field: string, methods: set<string>)
    ensures Rendered(ReadArray(inputs, field, methods)) == ShownValueAsWritten(inputs, field)
    ensures !IsIndexName(field) && field != "length" ==> Rendered(ReadArray(inputs, field, methods)) == ""
  {
  }

  // The wizard

  /** The body the wizard posts to `/api/documents/generate`. */
  datatype GenerateRequest = GenerateRequest(
    templateId: string, leadId: Option<int>, customFields: seq<(string, string)>)

  /** `handleSelectLead(value)`: '' means no lead; None also stands for NaN. */
  function LeadChoice(value: string): (r: Option<int>)
    ensures value == "" ==> r.None?
    ensures value != "" ==> r == ParseIntPrefix(value)
  {
    if value == "" then None else ParseIntPrefix(value)
  }

  /** `if (selectedLeadId)`: a lead id goes out only when it is truthy. */
  function RequestLead(selected: Option<int>): (r: Option<int>)
    ensures r.Some? <==> selected.Some? && selected.value != 0
    ensures r.Some? ==> r == selected
  {
    if selected.Some? && selected.value != 0 then selected else None
  }

  class Wizard {
    var selectedTemplateId: Option<string>
    var selectedLeadId: Option<int>
    var customFields: seq<(string, string)>
    var currentStep: int
    var isGenerating: bool

    /** The step is one of the three the wizard renders. */
    predicate Valid()
      reads this
    {
      1 <= currentStep <= 3 && DistinctKeys(customFields)
    }

    constructor()
      ensures Valid()
      ensures selectedTemplateId.None? && selectedLeadId.None? && customFields == []
      ensures currentStep == 1 && !isGenerating
    {
      selectedTemplateId := None;
      selectedLeadId := None;
      customFields := [];
      currentStep := 1;
      isGenerating := false;
    }

    method SelectTemplate(id: string)
      requires Valid()
      modifies this`selectedTemplateId, this`currentStep
      ensures Valid()
      ensures selectedTemplateId == Some(id) && currentStep == 2
    {
      selectedTemplateId := Some(id);
      currentStep := 2;
    }

    method SelectLead(value: string)
      requires Valid()
      modifies this`selectedLeadId, this`currentStep
      ensures Valid()
      ensures selectedLeadId == LeadChoice(value) && currentStep == 3
    {
      selectedLeadId := if value == "" then None else ParseIntPrefix(value);
      currentStep := 3;
    }

    /** The Continue button of step 2, which skips choosing a lead. */
    method Continue()
      requires Valid()
      modifies this`currentStep
      ensures Valid() && currentStep == 3
    {
      currentStep := 3;
    }

    method Back()
      requires Valid()
      modifies this`currentStep
      ensures Valid()
      ensures old(currentStep) > 1 ==> currentStep == old(currentStep) - 1
      ensures old(currentStep) == 1 ==> currentStep == 1
    {
      if currentStep > 1 {
        currentStep := currentStep - 1;
      }
    }

    method ChangeField(field: string, value: string)
      requires Valid()
      modifies this`customFields
      ensures Valid()
      ensures customFields == Assign(old(customFields), field, value)
      ensures InputValue(field) == value
      ensures forall f :: f != field ==> InputValue(f) == old(InputValue(f))
    {
      AssignDistinct(customFields, field, value);
      customFields := Assign(customFields, field, value);
    }

    /** What the input of a field shows, read from the state map. */
    function InputValue(field: string): string
      reads this
    {
      ShownValue(customFields, field)
    }

    /**
     * `handleGenerateDocument`: nothing without a template; otherwise the
     * request, which starts the generation.
     */
    method Generate() returns (r: Option<GenerateRequest>)
      requires Valid()
      modifies this`isGenerating
      ensures Valid()
      ensures old(selectedTemplateId).None? ==> r.None? && isGenerating == old(isGenerating)
      ensures old(selectedTemplateId).Some? ==>
        r == Some(GenerateRequest(selectedTemplateId.value, RequestLead(selectedLeadId),
                                  customFields)) &&
        isGenerating
    {
      if selectedTemplateId.None? {
        return None;
      }
      var leadId: Option<int> := None;
      if selectedLeadId.Some? && selectedLeadId.value != 0 {
        leadId := selectedLeadId;
      }
      isGenerating := true;
      return Some(GenerateRequest(selectedTemplateId.value, leadId, customFields));
    }

    /** The mutation's success or error callback. */
    method Settle()
      requires Valid()
      modifies this`isGenerating
      ensures Valid() && !isGenerating
    {
      isGenerating := false;
    }
  }
}
