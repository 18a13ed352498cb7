/**
 * Small shared vocabulary: optional values, results with an error message,
 * and the sequence helpers (filter, membership counting, de-duplication)
 * that the modelled TypeScript and Python code uses through `Array.filter`,
 * `Array.includes` and list comprehensions.
 */
module Core {

  datatype Option<T> = None | Some(value: T)

  /** A thrown error or an early error return, carrying its message. */
  datatype Result<T> = Ok(value: T) | Err(error: string)

  function Min(a: int, b: int): int { if a <= b then a else b }

  function Max(a: int, b: int): int { if a >= b then a else b }

  /** `Array.prototype.filter`: keeps the elements satisfying `keep`, in order. */
  function Filter<T>(s: seq<T>, keep: T -> bool): (r: seq<T>)
    ensures |r| <= |s|
    ensures forall x :: x in r ==> x in s && keep(x)
    ensures forall x :: x in s && keep(x) ==> x in r
  {
    if s == [] then []
    else (if keep(s[0]) then [s[0]] else []) + Filter(s[1..], keep)
  }

  lemma {:induction false} FilterAppend<T>(a: seq<T>, b: seq<T>, keep: T -> bool)
    ensures Filter(a + b, keep) == Filter(a, keep) + Filter(b, keep)
  {
    if a == [] {
      assert a + b == b;
    } else {
      assert (a + b)[1..] == a[1..] + b;
      FilterAppend(a[1..], b, keep);
    }
  }

  /** Nothing is kept when no element satisfies `keep`. */
  lemma {:induction false} FilterNone<T>(s: seq<T>, keep: T -> bool)
    requires forall x :: x in s ==> !keep(x)
    ensures Filter(s, keep) == []
  {
    if s != [] {
      assert s[0] in s;
      assert forall x :: x in s[1..] ==> x in s;
      FilterNone(s[1..], keep);
    }
  }

  /** Filtering twice is filtering once by the conjunction. */
  lemma {:induction false} FilterFilter<T>(s: seq<T>, p: T -> bool, q: T -> bool, both: T -> bool)
    requires forall x :: both(x) == (p(x) && q(x))
    ensures Filter(Filter(s, p), q) == Filter(s, both)
  {
    if s != [] {
      var head, tail := [s[0]], s[1..];
      assert s == head + tail;
      FilterAppend(head, tail, p);
      FilterAppend(Filter(head, p), Filter(tail, p), q);
      FilterAppend(head, tail, both);
      FilterFilter(tail, p, q, both);
      assert Filter(Filter(head, p), q) == Filter(head, both);
    }
  }

  /** `Array.prototype.find`: the first element satisfying `p`, if any. */
  function FindFirst<T>(s: seq<T>, p: T -> bool): (r: Option<T>)
    ensures r.Some? ==> r.value in s && p(r.value)
    ensures r.None? ==> forall x :: x in s ==> !p(x)
  {
    if s == [] then None
    else if p(s[0]) then Some(s[0])
    else FindFirst(s[1..], p)
  }

  /** No element occurs twice. */
  predicate Distinct<T(==)>(s: seq<T>) {
    forall i, j :: 0 <= i < j < |s| ==> s[i] != s[j]
  }

  /** `sub` is `s` with some elements dropped, the rest kept in order. */
  predicate IsSubsequence<T(==)>(sub: seq<T>, s: seq<T>)
    decreases |s|
  {
    if sub == [] then true
    else if s == [] then false
    else if sub[0] == s[0] then IsSubsequence(sub[1..], s[1..])
    else IsSubsequence(sub, s[1..])
  }

  lemma {:induction false} FilterIsSubsequence<T>(s: seq<T>, keep: T -> bool)
    ensures IsSubsequence(Filter(s, keep), s)
  {
    if s != [] {
      FilterIsSubsequence(s[1..], keep);
      var rest := Filter(s[1..], keep);
      if keep(s[0]) {
        assert Filter(s, keep) == [s[0]] + rest;
        assert ([s[0]] + rest)[1..] == rest;
      } else {
        assert Filter(s, keep) == rest;
        assert rest != [] ==> keep(rest[0]) && rest[0] != s[0];
      }
    }
  }

  lemma {:induction false} SubsequenceOfItself<T>(s: seq<T>)
    ensures IsSubsequence(s, s)
    decreases |s|
  {
    if s != [] {
      SubsequenceOfItself(s[1..]);
    }
  }

  /** A subsequence of `t` is one of `[y] + t`. */
  lemma {:induction false} SubsequenceWiden<T>(x: seq<T>, y: T, t: seq<T>)
    requires IsSubsequence(x, t)
    ensures IsSubsequence(x, [y] + t)
    decreases |t|, 1
  {
    assert ([y] + t)[1..] == t;
    if x != [] && x[0] == y {
      SubsequenceDropHead(x, t);
    }
  }

  /** Dropping the first element of a subsequence keeps it one. */
  lemma {:induction false} SubsequenceDropHead<T>(x: seq<T>, t: seq<T>)
    requires x != [] && IsSubsequence(x, t)
    ensures IsSubsequence(x[1..], t)
    decreases |t|, 0
  {
    assert t == [t[0]] + t[1..];
    if x[0] == t[0] {
      SubsequenceWiden(x[1..], t[0], t[1..]);
    } else {
      SubsequenceDropHead(x, t[1..]);
      SubsequenceWiden(x[1..], t[0], t[1..]);
    }
  }

  lemma {:induction false} SubsequenceTransitive<T>(a: seq<T>, b: seq<T>, c: seq<T>)
    requires IsSubsequence(a, b) && IsSubsequence(b, c)
    ensures IsSubsequence(a, c)
    decreases |c|
  {
    if a != [] {
      assert c == [c[0]] + c[1..];
      if b[0] == c[0] {
        if a[0] == b[0] {
          SubsequenceTransitive(a[1..], b[1..], c[1..]);
        } else {
          SubsequenceTransitive(a, b[1..], c[1..]);
        }
      } else {
        SubsequenceTransitive(a, b, c[1..]);
        SubsequenceWiden(a, c[0], c[1..]);
      }
    }
  }

  /** Number of elements satisfying `p`. */
  function Count<T>(s: seq<T>, p: T -> bool): (n: nat)
    ensures n <= |s|
  {
    |Filter(s, p)|
  }

  /**
   * "Unique values, first occurrence wins": the result of
   * `xs.filter((v, i, self) => self.indexOf(v) === i)`.
   */
  function Dedup<T(==)>(xs: seq<T>): (r: seq<T>)
    ensures Distinct(r)
    ensures forall x :: x in r ==> x in xs
    ensures forall x :: x in xs ==> x in r
    decreases |xs|
  {
    if xs == [] then []
    else
      var d := Dedup(xs[..|xs| - 1]);
      assert xs == xs[..|xs| - 1] + [xs[|xs| - 1]];
      if xs[|xs| - 1] in xs[..|xs| - 1] then d else d + [xs[|xs| - 1]]
  }

  /** The values of the options that are present, in order. */
  function Present<T>(os: seq<Option<T>>): (r: seq<T>)
    ensures |r| <= |os|
    ensures forall i :: 0 <= i < |r| ==> Some(r[i]) in os
    decreases |os|
  {
    if os == [] then []
    else
      var last := os[|os| - 1];
      assert os == os[..|os| - 1] + [last];
      Present(os[..|os| - 1]) + (if last.Some? then [last.value] else [])
  }

  /** When every option is present, their values are exactly the given values. */
  lemma {:induction false} PresentAll<T>(os: seq<Option<T>>, ys: seq<T>)
    requires |os| == |ys| && forall i :: 0 <= i < |os| ==> os[i] == Some(ys[i])
    ensures Present(os) == ys
    decreases |os|
  {
    if os != [] {
      var n := |os|;
      PresentAll(os[..n - 1], ys[..n - 1]);
      assert ys == ys[..n - 1] + [ys[n - 1]];
    }
  }

  /** `list.includes(x) ? list : list.concat([x])`. */
  function AppendNew<T(==)>(xs: seq<T>, x: T): (r: seq<T>)
    ensures x in r
    ensures forall y :: y in r ==> y in xs || y == x
    ensures forall y :: y in xs ==> y in r
    ensures Distinct(xs) ==> Distinct(r)
  {
    if x in xs then xs else xs + [x]
  }

  /** De-duplicating one more item appends it exactly when it is new. */
  lemma {:induction false} DedupSnoc<T>(xs: seq<T>, x: T)
    ensures Dedup(xs + [x]) == AppendNew(Dedup(xs), x)
  {
    assert (xs + [x])[..|xs|] == xs;
  }

  /** Folds `AppendNew` over `ys`, as a `forEach` that pushes absent items does. */
  function AppendAllNew<T(==)>(xs: seq<T>, ys: seq<T>): (r: seq<T>)
    decreases |ys|
  {
    if ys == [] then xs else AppendAllNew(AppendNew(xs, ys[0]), ys[1..])
  }

  lemma {:induction false} AppendAllNewDistinct<T>(xs: seq<T>, ys: seq<T>)
    requires Distinct(xs)
    ensures Distinct(AppendAllNew(xs, ys))
    ensures forall y :: y in AppendAllNew(xs, ys) <==> y in xs || y in ys
    decreases |ys|
  {
    if ys != [] {
      AppendAllNewDistinct(AppendNew(xs, ys[0]), ys[1..]);
      forall y ensures y in ys <==> y == ys[0] || y in ys[1..] {
        assert ys == [ys[0]] + ys[1..];
      }
    }
  }

  lemma {:induction false} AppendAllNewSnoc<T>(xs: seq<T>, ys: seq<T>, y: T)
    ensures AppendAllNew(xs, ys + [y]) == AppendNew(AppendAllNew(xs, ys), y)
    decreases |ys|
  {
    if ys == [] {
      assert ys + [y] == [y];
      assert [y][1..] == [];
    } else {
      assert (ys + [y])[1..] == ys[1..] + [y];
      AppendAllNewSnoc(AppendNew(xs, ys[0]), ys[1..], y);
    }
  }

  /**
   * The names every object literal inherits from `Object.prototype`: its
   * methods and the `__proto__` accessor. Looking one of them up in an
   * object literal finds a function or an object (truthy, and not a
   * number) rather than `undefined`.
   */
  const InheritedNames: set<string> := {
    "constructor", "__proto__", "toString", "toLocaleString", "valueOf",
    "hasOwnProperty", "isPrototypeOf", "propertyIsEnumerable",
    "__defineGetter__", "__defineSetter__", "__lookupGetter__", "__lookupSetter__"}
}
