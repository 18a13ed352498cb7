/**
 * The string operations the modelled code calls on JavaScript and Python
 * strings: case mapping, substring search, replacement, splitting and
 * joining, trimming, and decimal conversion. Case mapping and whitespace are
 * restricted to ASCII.
 */
module Text {
  import opened Core

  predicate IsUpper(c: char) { 'A' <= c <= 'Z' }

  function ToLowerChar(c: char): char {
    if IsUpper(c) then (c as int + 32) as char else c
  }

  function ToUpperChar(c: char): char {
    if 'a' <= c <= 'z' then (c as int - 32) as char else c
  }

  /** `s.toLowerCase()` / `s.lower()`, on ASCII letters. */
  function ToLower(s: string): (r: string)
    ensures |r| == |s|
    ensures forall i :: 0 <= i < |s| ==> r[i] == ToLowerChar(s[i])
  {
    seq(|s|, i requires 0 <= i < |s| => ToLowerChar(s[i]))
  }

  predicate StartsWith(s: string, p: string) {
    |p| <= |s| && s[..|p|] == p
  }

  /**
   * `s.indexOf(p)`: the first position where `p` occurs, or None
   * (JavaScript's -1).
   */
  function IndexOf(s: string, p: string): (r: Option<nat>)
    ensures r.Some? ==> r.value + |p| <= |s| && StartsWith(s[r.value..], p)
    ensures r.Some? ==> forall j :: 0 <= j < r.value ==> !StartsWith(s[j..], p)
    ensures r.None? ==> forall j :: 0 <= j <= |s| ==> !StartsWith(s[j..], p)
    decreases |s|
  {
    if StartsWith(s, p) then Some(0)
    else if s == [] then None
    else
      var rest := IndexOf(s[1..], p);
      assert forall j :: 1 <= j <= |s| ==> s[j..] == s[1..][j - 1..];
      if rest.Some? then Some(rest.value + 1) else None
  }

  /** `s.includes(p)` / Python's `p in s`. */
  predicate Contains(s: string, p: string) {
    IndexOf(s, p).Some?
  }

  lemma {:induction false} ContainsAt(s: string, p: string, j: nat)
    requires j <= |s| && StartsWith(s[j..], p)
    ensures Contains(s, p)
  {
  }

  /** Starting with a two-character pattern, character by character. */
  lemma {:induction false} StartsWithPair(s: string, c: char, d: char)
    ensures StartsWith(s, [c, d]) <==> |s| >= 2 && s[0] == c && s[1] == d
  {
    if |s| >= 2 && s[0] == c && s[1] == d {
      assert s[..2] == [c, d];
    }
  }

  /** The first occurrence is at `k` when `p` starts there and nowhere before. */
  lemma {:induction false} IndexOfAt(s: string, p: string, k: nat)
    requires k <= |s| && StartsWith(s[k..], p)
    requires forall j :: 0 <= j < k ==> !StartsWith(s[j..], p)
    ensures IndexOf(s, p) == Some(k)
  {
  }

  /** An occurrence in `b` is an occurrence in `a + b`. */
  lemma {:induction false} ContainsAfter(a: string, b: string, p: string)
    requires Contains(b, p)
    ensures Contains(a + b, p)
  {
    var m := IndexOf(b, p).value;
    assert (a + b)[|a| + m..] == b[m..];
    ContainsAt(a + b, p, |a| + m);
  }

  /**
   * `s.replace(new RegExp(p, 'g'), v)` for a pattern without metacharacters:
   * every occurrence of `p`, found left to right without overlap, becomes `v`.
   */
  function ReplaceAll(s: string, p: string, v: string): string
    requires |p| > 0
    decreases |s|
  {
    if s == [] then []
    else if StartsWith(s, p) then v + ReplaceAll(s[|p|..], p, v)
    else [s[0]] + ReplaceAll(s[1..], p, v)
  }

  /** A text in which `p` does not occur is left as it is. */
  lemma {:induction false} ReplaceAllAbsent(s: string, p: string, v: string)
    requires |p| > 0 && !Contains(s, p)
    ensures ReplaceAll(s, p, v) == s
    decreases |s|
  {
    if s != [] {
      assert !StartsWith(s[0..], p);
      assert s[0..] == s;
      forall j | 0 <= j <= |s[1..]| ensures !StartsWith(s[1..][j..], p) {
        assert s[1..][j..] == s[j + 1..];
      }
      ReplaceAllAbsent(s[1..], p, v);
    }
  }

  /**
   * When no occurrence of `p` starts inside `a`, replacing in `a + b`
   * leaves `a` alone and replaces in `b`.
   */
  lemma {:induction false} ReplaceAllSkip(a: string, b: string, p: string, v: string)
    requires |p| > 0
    requires forall i :: 0 <= i < |a| ==> !StartsWith((a + b)[i..], p)
    ensures ReplaceAll(a + b, p, v) == a + ReplaceAll(b, p, v)
    decreases |a|
  {
    if a != [] {
      assert !StartsWith((a + b)[0..], p);
      assert (a + b)[0..] == a + b;
      assert (a + b)[1..] == a[1..] + b;
      forall i | 0 <= i < |a[1..]| ensures !StartsWith((a[1..] + b)[i..], p) {
        assert (a[1..] + b)[i..] == (a + b)[i + 1..];
      }
      ReplaceAllSkip(a[1..], b, p, v);
      assert a == [a[0]] + a[1..];
    }
  }

  /** An occurrence of `p` at the very start is replaced by `v`. */
  lemma {:induction false} ReplaceAllHead(b: string, p: string, v: string)
    requires |p| > 0
    ensures ReplaceAll(p + b, p, v) == v + ReplaceAll(b, p, v)
  {
    assert (p + b)[..|p|] == p;
    assert (p + b)[|p|..] == b;
  }

  /** `s.replace(p, v)` with a string pattern: only the first occurrence. */
  function ReplaceFirst(s: string, p: string, v: string): (r: string)
    ensures !Contains(s, p) ==> r == s
  {
    match IndexOf(s, p)
    case None => s
    case Some(i) => s[..i] + v + s[i + |p|..]
  }

  /**
   * `s.split(c)` for a one-character separator, in both JavaScript and
   * Python: the pieces between successive occurrences; at least one piece.
   */
  function Split(s: string, c: char): (r: seq<string>)
    ensures |r| >= 1
    decreases |s|
  {
    if s == [] then [""]
    else if s[0] == c then [""] + Split(s[1..], c)
    else
      var rest := Split(s[1..], c);
      [[s[0]] + rest[0]] + rest[1..]
  }

  /** `xs.join(sep)` / Python's `sep.join(xs)`. */
  function Join(xs: seq<string>, sep: string): string
    decreases |xs|
  {
    if xs == [] then ""
    else if |xs| == 1 then xs[0]
    else xs[0] + sep + Join(xs[1..], sep)
  }

  lemma {:induction false} SplitWithout(s: string, c: char)
    requires c !in s
    ensures Split(s, c) == [s]
    decreases |s|
  {
    if s != [] {
      SplitWithout(s[1..], c);
      assert s == [s[0]] + s[1..];
    }
  }

  /** Splitting on one character distributes over an occurrence of it. */
  lemma {:induction false} SplitAround(a: string, c: char, b: string)
    ensures Split(a + [c] + b, c) == Split(a, c) + Split(b, c)
    decreases |a|
  {
    var s := a + [c] + b;
    if a == [] {
      assert s == [c] + b;
      assert s[1..] == b;
    } else {
      assert s[0] == a[0];
      assert s[1..] == a[1..] + [c] + b;
      SplitAround(a[1..], c, b);
      var rest, tail := Split(a[1..], c), Split(s[1..], c);
      assert tail == rest + Split(b, c);
      if a[0] == c {
        assert Split(s, c) == [""] + tail;
        assert Split(a, c) == [""] + rest;
      } else {
        assert Split(s, c) == [[a[0]] + tail[0]] + tail[1..];
        assert Split(a, c) == [[a[0]] + rest[0]] + rest[1..];
        PrependToFirst([a[0]], rest, Split(b, c));
      }
    }
  }

  /** A leading character other than the separator extends the first piece. */
  lemma {:induction false} SplitCons(x: char, s: string, c: char)
    requires x != c
    ensures Split([x] + s, c) == [[x] + Split(s, c)[0]] + Split(s, c)[1..]
  {
    assert ([x] + s)[1..] == s;
  }

  /** Extending the first piece commutes with appending further pieces. */
  lemma {:induction false} PrependToFirst(x: string, rest: seq<string>, more: seq<string>)
    requires |rest| >= 1
    ensures [x + (rest + more)[0]] + (rest + more)[1..] == ([x + rest[0]] + rest[1..]) + more
  {
    assert (rest + more)[1..] == rest[1..] + more;
  }

  /** The pieces of every string of `xs`, concatenated. */
  function SplitEach(xs: seq<string>, c: char): seq<string>
    decreases |xs|
  {
    if xs == [] then [] else Split(xs[0], c) + SplitEach(xs[1..], c)
  }

  lemma {:induction false} SplitJoinEach(xs: seq<string>, c: char)
    requires |xs| >= 1
    ensures Split(Join(xs, [c]), c) == SplitEach(xs, c)
    decreases |xs|
  {
    if |xs| == 1 {
      assert SplitEach(xs[1..], c) == [];
    } else {
      SplitAround(xs[0], c, Join(xs[1..], [c]));
      SplitJoinEach(xs[1..], c);
    }
  }

  /** Joining pieces free of `c` with `c` and splitting on `c` gives the pieces back. */
  lemma {:induction false} SplitJoin(xs: seq<string>, c: char)
    requires |xs| >= 1
    requires forall i :: 0 <= i < |xs| ==> c !in xs[i]
    ensures Split(Join(xs, [c]), c) == xs
  {
    SplitJoinEach(xs, c);
    SplitEachWithout(xs, c);
  }

  lemma {:induction false} SplitEachWithout(xs: seq<string>, c: char)
    requires forall i :: 0 <= i < |xs| ==> c !in xs[i]
    ensures SplitEach(xs, c) == xs
    decreases |xs|
  {
    if xs != [] {
      SplitWithout(xs[0], c);
      SplitEachWithout(xs[1..], c);
    }
  }

  /** ASCII whitespace, which both `str.trim()` and Python's `strip()` remove. */
  predicate IsSpace(c: char) {
    c == ' ' || c == '\t' || c == '\n' || c == '\r' || c == '\U{000B}' || c == '\U{000C}'
  }

  function TrimStart(s: string): (r: string)
    ensures |r| <= |s|
    decreases |s|
  {
    if s != [] && IsSpace(s[0]) then TrimStart(s[1..]) else s
  }

  function TrimEnd(s: string): (r: string)
    ensures |r| <= |s|
    decreases |s|
  {
    if s != [] && IsSpace(s[|s| - 1]) then TrimEnd(s[..|s| - 1]) else s
  }

  /** `TrimStart` drops a run of leading whitespace and stops at the first other character. */
  lemma {:induction false} TrimStartSuffix(s: string)
    ensures var r := TrimStart(s); r == s[|s| - |r|..] && (r != [] ==> !IsSpace(r[0]))
    ensures forall i :: 0 <= i < |s| - |TrimStart(s)| ==> IsSpace(s[i])
    decreases |s|
  {
    if s != [] && IsSpace(s[0]) {
      TrimStartSuffix(s[1..]);
      assert s[1..][|s| - 1 - |TrimStart(s[1..])|..] == s[|s| - |TrimStart(s)|..];
      forall i | 0 <= i < |s| - |TrimStart(s)|
        ensures IsSpace(s[i])
      {
        if i > 0 {
          assert s[i] == s[1..][i - 1];
        }
      }
    }
  }

  /** `TrimEnd` drops a run of trailing whitespace and stops at the last other character. */
  lemma {:induction false} TrimEndPrefix(s: string)
    ensures var r := TrimEnd(s); r == s[..|r|] && (r != [] ==> !IsSpace(r[|r| - 1]))
    ensures forall i :: |TrimEnd(s)| <= i < |s| ==> IsSpace(s[i])
    decreases |s|
  {
    if s != [] && IsSpace(s[|s| - 1]) {
      TrimEndPrefix(s[..|s| - 1]);
      assert s[..|s| - 1][..|TrimEnd(s)|] == s[..|TrimEnd(s)|];
      forall i | |TrimEnd(s)| <= i < |s|
        ensures IsSpace(s[i])
      {
        if i < |s| - 1 {
          assert s[i] == s[..|s| - 1][i];
        }
      }
    }
  }

  function Trim(s: string): string {
    TrimEnd(TrimStart(s))
  }

  /** No whitespace at either end, so that `Trim` leaves the string alone. */
  predicate NoEdgeSpace(s: string) {
    s == [] || (!IsSpace(s[0]) && !IsSpace(s[|s| - 1]))
  }

  /** A field written between single spaces is read back by trimming. */
  lemma {:induction false} TrimPadded(x: string)
    requires NoEdgeSpace(x)
    ensures Trim(" " + x + " ") == x
  {
    var padded := " " + x + " ";
    assert padded[1..] == x + " ";
    assert TrimStart(padded) == TrimStart(x + " ");
    if x == [] {
      assert TrimStart(" ") == TrimStart(""[..]);
      assert TrimEnd("") == "";
    } else {
      assert TrimStart(x + " ") == x + " ";
      assert (x + " ")[..|x|] == x;
      assert TrimEnd(x + " ") == TrimEnd(x);
    }
  }

  /** A string without edge whitespace is its own trim. */
  lemma {:induction false} TrimUnpadded(x: string)
    requires NoEdgeSpace(x)
    ensures Trim(x) == x
  {
  }

  /** A field written after a single space is read back by trimming. */
  lemma {:induction false} TrimLeadSpace(x: string)
    requires NoEdgeSpace(x)
    ensures Trim(" " + x) == x
  {
    assert (" " + x)[1..] == x;
    assert TrimStart(" " + x) == TrimStart(x);
  }

  /** The first and last characters of a join are those of the first and last pieces. */
  lemma {:induction false} JoinEdges(xs: seq<string>, sep: string)
    requires |xs| >= 1 && forall i :: 0 <= i < |xs| ==> xs[i] != []
    ensures var j := Join(xs, sep); |j| >= 1 && j[0] == xs[0][0] && j[|j| - 1] == xs[|xs| - 1][|xs[|xs| - 1]| - 1]
    decreases |xs|
  {
    if |xs| > 1 {
      JoinEdges(xs[1..], sep);
    }
  }

  /** A character in no piece and not in the separator is not in the join. */
  lemma {:induction false} JoinAvoids(xs: seq<string>, sep: string, c: char)
    requires c !in sep && forall i :: 0 <= i < |xs| ==> c !in xs[i]
    ensures c !in Join(xs, sep)
    decreases |xs|
  {
    if |xs| > 1 {
      JoinAvoids(xs[1..], sep, c);
    }
  }

  /** Each piece with a space in front. */
  function Spaced(xs: seq<string>): seq<string> {
    seq(|xs|, i requires 0 <= i < |xs| => " " + xs[i])
  }

  /** Joining with ", " is joining with "," the pieces after a space, less that first space. */
  lemma {:induction false} JoinCommaSpace(xs: seq<string>)
    requires |xs| >= 1
    ensures " " + Join(xs, ", ") == Join(Spaced(xs), ",")
    decreases |xs|
  {
    if |xs| > 1 {
      JoinCommaSpace(xs[1..]);
      assert Spaced(xs)[1..] == Spaced(xs[1..]);
    }
  }

  predicate IsDigit(c: char) { '0' <= c <= '9' }

  predicate AllDigits(s: string) {
    forall i :: 0 <= i < |s| ==> IsDigit(s[i])
  }

  /** Python's `str.isdigit()` on ASCII: non-empty and all digits. */
  predicate IsDigits(s: string) {
    |s| > 0 && AllDigits(s)
  }

  /** The value of a string of decimal digits (`int(s)`, `parseInt(s, 10)`). */
  function DigitsValue(s: string): nat
    requires AllDigits(s)
    decreases |s|
  {
    if s == [] then 0
    else DigitsValue(s[..|s| - 1]) * 10 + (s[|s| - 1] as int - '0' as int)
  }

  function DigitChar(d: nat): char
    requires d < 10
  {
    ('0' as int + d) as char
  }

  /** Decimal rendering of a natural number (`String(n)`, `str(n)`). */
  function NatToString(n: nat): (r: string)
    ensures |r| >= 1
    decreases n
  {
    if n < 10 then [DigitChar(n)] else NatToString(n / 10) + [DigitChar(n % 10)]
  }

  /** Decimal rendering of an integer, with a leading '-' when negative. */
  function IntToString(i: int): string {
    if i < 0 then "-" + NatToString(-i) else NatToString(i)
  }

  /** Rendering a number and reading it back gives the number. */
  lemma {:induction false} NatToStringRoundTrip(n: nat)
    ensures IsDigits(NatToString(n))
    ensures DigitsValue(NatToString(n)) == n
    decreases n
  {
    if n >= 10 {
      NatToStringRoundTrip(n / 10);
      var s := NatToString(n);
      assert s[..|s| - 1] == NatToString(n / 10);
    }
  }

  /** The longest prefix of digits. */
  function LeadingDigits(s: string): (r: string)
    ensures AllDigits(r) && |r| <= |s| && r == s[..|r|]
    ensures |r| < |s| ==> !IsDigit(s[|r|])
    decreases |s|
  {
    if s != [] && IsDigit(s[0]) then [s[0]] + LeadingDigits(s[1..]) else []
  }

  /** The text a `/(\d+)/` match captures: the leftmost maximal run of digits. */
  function FirstDigitRun(s: string): (r: Option<string>)
    ensures r.Some? ==> IsDigits(r.value)
    ensures r.None? <==> forall i :: 0 <= i < |s| ==> !IsDigit(s[i])
    decreases |s|
  {
    if s == [] then None
    else if IsDigit(s[0]) then Some(LeadingDigits(s))
    else
      assert forall i :: 1 <= i < |s| ==> s[i] == s[1..][i - 1];
      FirstDigitRun(s[1..])
  }

  predicate IsHexDigit(c: char) { IsDigit(c) || 'a' <= c <= 'f' || 'A' <= c <= 'F' }

  predicate AllHexDigits(s: string) {
    forall i :: 0 <= i < |s| ==> IsHexDigit(s[i])
  }

  function HexDigitValue(c: char): (r: nat)
    requires IsHexDigit(c)
    ensures r < 16
  {
    if IsDigit(c) then c as int - '0' as int
    else if 'a' <= c <= 'f' then c as int - 'a' as int + 10
    else c as int - 'A' as int + 10
  }

  /** The value of a string of hexadecimal digits, either case. */
  function HexValue(s: string): nat
    requires AllHexDigits(s)
    decreases |s|
  {
    if s == [] then 0
    else HexValue(s[..|s| - 1]) * 16 + HexDigitValue(s[|s| - 1])
  }

  /** The longest prefix of hexadecimal digits. */
  function LeadingHexDigits(s: string): (r: string)
    ensures AllHexDigits(r) && |r| <= |s| && r == s[..|r|]
    ensures |r| < |s| ==> !IsHexDigit(s[|r|])
    decreases |s|
  {
    if s != [] && IsHexDigit(s[0]) then [s[0]] + LeadingHexDigits(s[1..]) else []
  }

  /** Starts with `0x` or `0X`, which `parseInt` without a radix reads as base 16. */
  predicate HexPrefixed(s: string) {
    |s| >= 2 && s[0] == '0' && (s[1] == 'x' || s[1] == 'X')
  }

  /** The unsigned part `parseInt` reads: `0x` and hex digits, or decimal digits. */
  function ParseMagnitude(body: string): Option<nat> {
    if HexPrefixed(body) then
      var digits := LeadingHexDigits(body[2..]);
      if digits == [] then None else Some(HexValue(digits))
    else
      var digits := LeadingDigits(body);
      if digits == [] then None else Some(DigitsValue(digits))
  }

  /**
   * JavaScript's `parseInt(s)`: leading whitespace, an optional sign, then
   * either `0x`/`0X` and the longest run of hexadecimal digits, or the
   * longest run of decimal digits; None stands for `NaN`.
   */
  function ParseIntPrefix(s: string): Option<int> {
    var t := TrimStart(s);
    var negative := t != [] && t[0] == '-';
    var body := if t != [] && (t[0] == '-' || t[0] == '+') then t[1..] else t;
    match ParseMagnitude(body)
    case None => None
    case Some(m) => var v: int := m; Some(if negative then -v else v)
  }

  /** Text that does not start with white space is its own `TrimStart`. */
  lemma TrimStartKeeps(s: string)
    requires s != [] && !IsSpace(s[0])
    ensures TrimStart(s) == s
  {
  }

  /** A run of decimal digits reads as its value. */
  lemma {:induction false} DecimalMagnitude(d: string)
    requires IsDigits(d)
    ensures ParseMagnitude(d) == Some(DigitsValue(d))
  {
    LeadingDigitsAll(d);
    assert |d| >= 2 ==> IsDigit(d[1]);
  }

  /** Reading back a rendered number, with or without its sign, gives the number. */
  lemma {:induction false} ParseIntRendered(i: int)
    ensures ParseIntPrefix(IntToString(i)) == Some(i)
  {
    var n: nat := if i < 0 then -i else i;
    var d := NatToString(n);
    NatToStringRoundTrip(n);
    DecimalMagnitude(d);
    var t := IntToString(i);
    if i < 0 {
      assert t == "-" + d;
      TrimStartKeeps(t);
      assert t[1..] == d;
    } else {
      assert t == d;
      assert IsDigit(d[0]);
      TrimStartKeeps(t);
    }
  }

  lemma {:induction false} LeadingDigitsAll(s: string)
    requires AllDigits(s)
    ensures LeadingDigits(s) == s
    decreases |s|
  {
    if s != [] {
      LeadingDigitsAll(s[1..]);
      assert [s[0]] + s[1..] == s;
    }
  }

  /** A `0x` prefix reads the rest in base 16: "0x1A" is 26. */
  lemma HexExample()
    ensures ParseIntPrefix("0x1A") == Some(26)
  {
    assert "0x1A"[2..] == "1A";
    assert LeadingHexDigits("1A") == "1A";
    assert HexValue("1A") == 26 by { assert "1A"[..1] == "1"; assert "1"[..0] == ""; }
    assert ParseMagnitude("0x1A") == Some(26);
  }

  /** White space and a sign come before the prefix, which may be upper case: " -0Xff" is -255. */
  lemma HexSignedExample()
    ensures ParseIntPrefix(" -0Xff") == Some(-255)
  {
    assert TrimStart(" -0Xff") == "-0Xff";
    assert "-0Xff"[1..] == "0Xff" && "0Xff"[2..] == "ff";
    assert LeadingHexDigits("ff") == "ff";
    assert HexValue("ff") == 255 by { assert "ff"[..1] == "f"; assert "f"[..0] == ""; }
    assert ParseMagnitude("0Xff") == Some(255);
  }

  /** `0x` with no hexadecimal digit after it is `NaN`. */
  lemma HexEmptyExamples()
    ensures ParseIntPrefix("0x") == None
    ensures ParseIntPrefix("0xg") == None
  {
    assert "0x"[2..] == "";
    assert "0xg"[2..] == "g";
    assert ParseMagnitude("0x") == None;
    assert ParseMagnitude("0xg") == None;
  }
}
