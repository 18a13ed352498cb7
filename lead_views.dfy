/**
 * The two views of the fetched leads: the Leads page (client/src/pages/Leads.tsx),
 * which filters by name and source, sorts by motivation score and groups by
 * status, and the dashboard's Kanban board
 * (client/src/components/dashboard/LeadKanban.tsx), which sorts leads into
 * status columns and narrows them to one source.
 */
module LeadViews {
  import opened Core
  import opened Text
  import opened Schema

  /** The search box: an empty query keeps every lead, otherwise the name must contain it, ignoring case. */
  predicate NameMatches(l: Lead, query: string) {
    query == "" || Contains(ToLower(l.name), ToLower(query))
  }

  /** The source selector: "all" keeps every lead. */
  predicate SourceMatches(l: Lead, source: string) {
    source == "all" || l.source == source
  }

  predicate Kept(l: Lead, query: string, source: string) {
    NameMatches(l, query) && SourceMatches(l, source)
  }

  /** The `filter` of `filteredLeads`. */
  function KeptLeads(leads: seq<Lead>, query: string, source: string): (r: seq<Lead>)
    ensures |r| <= |leads|
    ensures forall l :: l in r <==> l in leads && Kept(l, query, source)
    ensures IsSubsequence(r, leads)
    decreases |leads|
  {
    if leads == [] then []
    else
      var rest := KeptLeads(leads[1..], query, source);
      if Kept(leads[0], query, source) then
        assert ([leads[0]] + rest)[1..] == rest;
        [leads[0]] + rest
      else
        assert rest != [] ==> rest[0] != leads[0];
        rest
  }

  /** `motivationScore || 0`. */
  function Score(l: Lead): int {
    if l.motivationScore.Some? then l.motivationScore.value else 0
  }

  /** Highest score first. */
  predicate Descending(xs: seq<Lead>) {
    forall i, j :: 0 <= i < j < |xs| ==> Score(xs[i]) >= Score(xs[j])
  }

  /** The leads of one score, in order. */
  function OfScore(xs: seq<Lead>, k: int): (r: seq<Lead>)
    decreases |xs|
  {
    if xs == [] then [] else (if Score(xs[0]) == k then [xs[0]] else []) + OfScore(xs[1..], k)
  }

  /** `x` placed before the first lead that does not score higher. */
  function Insert(x: Lead, ys: seq<Lead>): (r: seq<Lead>)
    ensures multiset(r) == multiset(ys) + multiset{x}
    decreases |ys|
  {
    if ys == [] || Score(ys[0]) <= Score(x) then [x] + ys
    else
      assert ys == [ys[0]] + ys[1..];
      [ys[0]] + Insert(x, ys[1..])
  }

  lemma {:induction false} InsertBound(x: Lead, ys: seq<Lead>, b: int)
    requires Score(x) <= b && forall i :: 0 <= i < |ys| ==> Score(ys[i]) <= b
    ensures forall j :: 0 <= j < |Insert(x, ys)| ==> Score(Insert(x, ys)[j]) <= b
    decreases |ys|
  {
    if ys != [] && Score(ys[0]) > Score(x) {
      InsertBound(x, ys[1..], b);
    }
  }

  lemma {:induction false} InsertDescending(x: Lead, ys: seq<Lead>)
    requires Descending(ys)
    ensures Descending(Insert(x, ys))
    decreases |ys|
  {
    if ys != [] && Score(ys[0]) > Score(x) {
      InsertDescending(x, ys[1..]);
      InsertBound(x, ys[1..], Score(ys[0]));
    }
  }

  /** `sort((a, b) => score(b) - score(a))`, which is stable. */
  function SortByScore(xs: seq<Lead>): (r: seq<Lead>)
    ensures multiset(r) == multiset(xs)
    ensures Descending(r)
    decreases |xs|
  {
    if xs == [] then []
    else
      assert xs == [xs[0]] + xs[1..];
      var rest := SortByScore(xs[1..]);
      InsertDescending(xs[0], rest);
      Insert(xs[0], rest)
  }

  lemma {:induction false} InsertStable(x: Lead, ys: seq<Lead>, k: int)
    ensures OfScore(Insert(x, ys), k) == (if Score(x) == k then [x] else []) + OfScore(ys, k)
    decreases |ys|
  {
    if ys == [] || Score(ys[0]) <= Score(x) {
      OfScoreCons(x, ys, k);
    } else {
      var rest := Insert(x, ys[1..]);
      InsertStable(x, ys[1..], k);
      OfScoreCons(ys[0], rest, k);
      OfScoreCons(ys[0], ys[1..], k);
      assert ys == [ys[0]] + ys[1..];
    }
  }

  lemma {:induction false} OfScoreCons(y: Lead, ys: seq<Lead>, k: int)
    ensures OfScore([y] + ys, k) == (if Score(y) == k then [y] else []) + OfScore(ys, k)
  {
    assert ([y] + ys)[1..] == ys;
  }

  /** Leads of equal score keep their fetch order. */
  lemma {:induction false} SortStable(xs: seq<Lead>, k: int)
    ensures OfScore(SortByScore(xs), k) == OfScore(xs, k)
    decreases |xs|
  {
    if xs != [] {
      SortStable(xs[1..], k);
      InsertStable(xs[0], SortByScore(xs[1..]), k);
    }
  }

  /** The leads whose status is `s`, in order. */
  function OfStatus(xs: seq<Lead>, s: string): (r: seq<Lead>)
    ensures |r| <= |xs|
    ensures forall l :: l in r <==> l in xs && l.status == Some(s)
    ensures IsSubsequence(r, xs)
    decreases |xs|
  {
    if xs == [] then []
    else
      var rest := OfStatus(xs[1..], s);
      if xs[0].status == Some(s) then
        assert ([xs[0]] + rest)[1..] == rest;
        [xs[0]] + rest
      else
        assert rest != [] ==> rest[0] != xs[0];
        rest
  }

  /** Taking one status commutes with inserting by score, up to order. */
  lemma {:induction false} OfStatusInsert(x: Lead, ys: seq<Lead>, s: string)
    ensures multiset(OfStatus(Insert(x, ys), s)) == multiset(OfStatus(ys, s)) + (if x.status == Some(s) then multiset{x} else multiset{})
    decreases |ys|
  {
    if ys == [] || Score(ys[0]) <= Score(x) {
      assert ([x] + ys)[1..] == ys;
    } else {
      assert ([ys[0]] + Insert(x, ys[1..]))[1..] == Insert(x, ys[1..]);
      OfStatusInsert(x, ys[1..], s);
    }
  }

  /** A status tab holds the same leads before and after sorting. */
  lemma {:induction false} OfStatusSorted(xs: seq<Lead>, s: string)
    ensures multiset(OfStatus(SortByScore(xs), s)) == multiset(OfStatus(xs, s))
    decreases |xs|
  {
    if xs != [] {
      OfStatusSorted(xs[1..], s);
      OfStatusInsert(xs[0], SortByScore(xs[1..]), s);
    }
  }

  /** The leads with none of the three board statuses. */
  function Unsorted(xs: seq<Lead>): seq<Lead>
    decreases |xs|
  {
    if xs == [] then []
    else
      var s := xs[0].status;
      (if s != Some("new") && s != Some("contacted") && s != Some("closed") then [xs[0]] else []) + Unsorted(xs[1..])
  }

  /** The three status lists and the leads of other statuses together account for every lead once. */
  lemma {:induction false} StatusCounts(xs: seq<Lead>)
    ensures |OfStatus(xs, "new")| + |OfStatus(xs, "contacted")| + |OfStatus(xs, "closed")| + |Unsorted(xs)| == |xs|
    decreases |xs|
  {
    if xs != [] {
      StatusCounts(xs[1..]);
    }
  }

  /** The Leads page: the kept, sorted leads under "All", and the three status tabs. */
  datatype LeadsPage = LeadsPage(all: seq<Lead>, newLeads: seq<Lead>, contacted: seq<Lead>, closed: seq<Lead>)

  function LeadsPageOf(allLeads: Option<seq<Lead>>, query: string, source: string): (r: LeadsPage)
    ensures allLeads.None? ==> r == LeadsPage([], [], [], [])
    ensures allLeads.Some? ==> Descending(r.all)
    ensures allLeads.Some? ==> forall l :: l in r.all <==> l in allLeads.value && Kept(l, query, source)
    ensures allLeads.Some? ==> multiset(r.all) == multiset(KeptLeads(allLeads.value, query, source))
    ensures allLeads.Some? ==>
      r.newLeads == OfStatus(r.all, "new") && r.contacted == OfStatus(r.all, "contacted") &&
      r.closed == OfStatus(r.all, "closed")
    ensures |r.newLeads| + |r.contacted| + |r.closed| <= |r.all|
  {
    if allLeads.None? then LeadsPage([], [], [], [])
    else
      var kept := KeptLeads(allLeads.value, query, source);
      var sorted := SortByScore(kept);
      assert forall l :: l in sorted <==> l in kept by {
        assert forall l :: l in sorted <==> l in multiset(kept);
      }
      StatusCounts(sorted);
      LeadsPage(sorted, OfStatus(sorted, "new"), OfStatus(sorted, "contacted"), OfStatus(sorted, "closed"))
  }

  /** The tab labels' counts: "All Leads (n)", "New (n)", "Contacted (n)", "Closed (n)". */
  function TabCounts(p: LeadsPage): (nat, nat, nat, nat) {
    (|p.all|, |p.newLeads|, |p.contacted|, |p.closed|)
  }

  /** A lead whose status is none of the three is counted under "All" only. */
  lemma {:induction false} OtherStatusOnlyUnderAll(allLeads: Option<seq<Lead>>, query: string, source: string)
    ensures var p := LeadsPageOf(allLeads, query, source);
      TabCounts(p).1 + TabCounts(p).2 + TabCounts(p).3 + |Unsorted(p.all)| == TabCounts(p).0
  {
    if allLeads.Some? {
      StatusCounts(LeadsPageOf(allLeads, query, source).all);
    }
  }

  // ------------------------------------------------------------------ Kanban

  /** The source filter of one column. */
  function OfSource(xs: seq<Lead>, source: string): (r: seq<Lead>)
    ensures source == "all" ==> r == xs
    ensures forall l :: l in r <==> l in xs && SourceMatches(l, source)
    ensures IsSubsequence(r, xs)
    decreases |xs|
  {
    if source == "all" || xs == [] then
      SubsequenceOfItself(xs);
      xs
    else
      var rest := OfSource(xs[1..], source);
      if xs[0].source == source then
        assert ([xs[0]] + rest)[1..] == rest;
        [xs[0]] + rest
      else
        assert rest != [] ==> rest[0] in rest && rest[0] != xs[0];
        rest
  }

  /** The leads `allLeads?.filter(...) || []` works on. */
  function Fetched(allLeads: Option<seq<Lead>>): seq<Lead> {
    if allLeads.Some? then allLeads.value else []
  }

  /** One column: the fetched leads of status `s`, narrowed to the chosen source, in fetch order. */
  function Column(allLeads: Option<seq<Lead>>, s: string, source: string): (r: seq<Lead>)
    ensures forall l :: l in r <==> l in Fetched(allLeads) && l.status == Some(s) && SourceMatches(l, source)
    ensures IsSubsequence(r, Fetched(allLeads))
  {
    var ofStatus := OfStatus(Fetched(allLeads), s);
    SubsequenceTransitive(OfSource(ofStatus, source), ofStatus, Fetched(allLeads));
    OfSource(ofStatus, source)
  }

  /** The board's three columns. */
  datatype Board = Board(newLeads: seq<Lead>, contacted: seq<Lead>, closed: seq<Lead>)

  /** The columns share no lead, and a lead of any other status is in none of them. */
  function KanbanBoard(allLeads: Option<seq<Lead>>, source: string): (r: Board)
    ensures forall l :: l in r.newLeads ==> l !in r.contacted && l !in r.closed
    ensures forall l :: l in r.contacted ==> l !in r.closed
    ensures forall l: Lead :: l.status != Some("new") && l.status != Some("contacted") && l.status != Some("closed") ==>
      l !in r.newLeads && l !in r.contacted && l !in r.closed
  {
    Board(Column(allLeads, "new", source), Column(allLeads, "contacted", source), Column(allLeads, "closed", source))
  }

  /** The name filter with an empty search is the source filter. */
  lemma {:induction false} EmptySearchKeepsSource(xs: seq<Lead>, source: string)
    ensures KeptLeads(xs, "", source) == OfSource(xs, source)
    decreases |xs|
  {
    if xs != [] {
      EmptySearchKeepsSource(xs[1..], source);
    }
  }

  /** Filtering by status and by source in either order gives the same list. */
  lemma {:induction false} FiltersCommute(xs: seq<Lead>, s: string, source: string)
    ensures OfStatus(OfSource(xs, source), s) == OfSource(OfStatus(xs, s), source)
    decreases |xs|
  {
    if xs != [] && source != "all" {
      FiltersCommute(xs[1..], s, source);
      var h: seq<Lead> := if xs[0].source == source then [xs[0]] else [];
      OfStatusAppend(h, OfSource(xs[1..], source), s);
      var g: seq<Lead> := if xs[0].status == Some(s) then [xs[0]] else [];
      OfSourceAppend(g, OfStatus(xs[1..], s), source);
    }
  }

  lemma {:induction false} OfStatusAppend(a: seq<Lead>, b: seq<Lead>, s: string)
    ensures OfStatus(a + b, s) == OfStatus(a, s) + OfStatus(b, s)
    decreases |a|
  {
    if a != [] {
      assert (a + b)[1..] == a[1..] + b;
      OfStatusAppend(a[1..], b, s);
    } else {
      assert a + b == b;
    }
  }

  lemma {:induction false} OfSourceAppend(a: seq<Lead>, b: seq<Lead>, source: string)
    ensures OfSource(a + b, source) == OfSource(a, source) + OfSource(b, source)
    decreases |a|
  {
    if a != [] && source != "all" {
      assert (a + b)[1..] == a[1..] + b;
      OfSourceAppend(a[1..], b, source);
    } else if a == [] {
      assert a + b == b;
    }
  }

  /**
   * With an empty search, each tab of the Leads page holds the same leads as
   * the board's column of that status, each as often, only sorted by score.
   */
  lemma {:induction false} TabsMatchColumns(allLeads: seq<Lead>, source: string, s: string)
    ensures multiset(OfStatus(LeadsPageOf(Some(allLeads), "", source).all, s)) == multiset(Column(Some(allLeads), s, source))
  {
    EmptySearchKeepsSource(allLeads, source);
    OfStatusSorted(OfSource(allLeads, source), s);
    FiltersCommute(allLeads, s, source);
  }
}
