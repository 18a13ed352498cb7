/**
 * The "Recent Documents" table (client/src/components/documents/DocumentList.tsx
 * and its twin under RezGuruAI/): a type filter, four documents per page, the
 * footer's range text, clamped Prev/Next buttons and the row of page buttons,
 * which the RezGuruAI version windows around the current page.
 */
module DocumentList {
  import opened Core
  import opened Schema

  const ItemsPerPage: nat := 4

  /** The documents of one type, in order. */
  function OfType(docs: seq<Document>, t: string): (r: seq<Document>)
    ensures |r| <= |docs|
    ensures forall d :: d in r <==> d in docs && d.docType == t
    ensures IsSubsequence(r, docs)
    decreases |docs|
  {
    if docs == [] then []
    else
      var rest := OfType(docs[1..], t);
      if docs[0].docType == t then
        assert ([docs[0]] + rest)[1..] == rest;
        [docs[0]] + rest
      else
        assert rest != [] ==> rest[0] in rest && rest[0] != docs[0];
        rest
  }

  /** `filteredDocuments`: every document for "all", otherwise those of the selected type; nothing before the fetch. */
  function Shown(docs: Option<seq<Document>>, selectedType: string): (r: Option<seq<Document>>)
    ensures r.None? <==> docs.None?
    ensures docs.Some? && selectedType == "all" ==> r == docs
    ensures docs.Some? && selectedType != "all" ==>
      |r.value| <= |docs.value| && forall d :: d in r.value <==> d in docs.value && d.docType == selectedType
    ensures docs.Some? && selectedType != "all" ==> r.value == OfType(docs.value, selectedType)
    ensures docs.Some? ==> IsSubsequence(r.value, docs.value)
  {
    if docs.None? then None
    else if selectedType == "all" then SubsequenceOfItself(docs.value); docs
    else Some(OfType(docs.value, selectedType))
  }

  /** `Math.ceil(n / itemsPerPage)`. */
  function TotalPages(n: nat): (r: nat)
    ensures r * ItemsPerPage >= n
    ensures r > 0 ==> (r - 1) * ItemsPerPage < n
    ensures r == 0 <==> n == 0
  {
    (n + ItemsPerPage - 1) / ItemsPerPage
  }

  /** `totalPages`, which is 0 until the documents arrive. */
  function PageCount(shown: Option<seq<Document>>): nat {
    if shown.None? then 0 else TotalPages(|shown.value|)
  }

  /** `xs.slice((page - 1) * 4, page * 4)`, which JavaScript cuts short at the end of `xs`. */
  function PageSlice<T>(xs: seq<T>, page: nat): (r: seq<T>)
    requires page >= 1
    ensures |r| <= ItemsPerPage
    ensures forall k :: 0 <= k < |r| ==> (page - 1) * ItemsPerPage + k < |xs| && r[k] == xs[(page - 1) * ItemsPerPage + k]
    ensures r == [] <==> page > TotalPages(|xs|)
    ensures page < TotalPages(|xs|) ==> |r| == ItemsPerPage
  {
    var start := (page - 1) * ItemsPerPage;
    if start >= |xs| then [] else xs[start..Min(page * ItemsPerPage, |xs|)]
  }

  /** The first `pages` pages one after the other. */
  function Paged<T>(xs: seq<T>, pages: nat): seq<T>
    decreases pages
  {
    if pages == 0 then [] else Paged(xs, pages - 1) + PageSlice(xs, pages)
  }

  lemma {:induction false} PagedPrefix<T>(xs: seq<T>, pages: nat)
    requires pages <= TotalPages(|xs|)
    ensures Paged(xs, pages) == xs[..Min(pages * ItemsPerPage, |xs|)]
    decreases pages
  {
    if pages > 0 {
      PagedPrefix(xs, pages - 1);
      var a, b := (pages - 1) * ItemsPerPage, Min(pages * ItemsPerPage, |xs|);
      assert xs[..a] + xs[a..b] == xs[..b];
    }
  }

  /** The pages, in order, hold every document exactly once. */
  lemma {:induction false} PagesCover<T>(xs: seq<T>)
    ensures Paged(xs, TotalPages(|xs|)) == xs
  {
    PagedPrefix(xs, TotalPages(|xs|));
  }

  /** "Showing {first} to {last} of {total} documents". */
  datatype Range = Range(first: int, last: int, total: nat)

  function FooterRange(n: nat, page: nat): Range
    requires page >= 1
  {
    Range((page - 1) * ItemsPerPage + 1, Min(page * ItemsPerPage, n), n)
  }

  /**
   * On a real page the footer names exactly the documents in the rows
   * (1-based, inclusive); on a page past the last one, which a change of the
   * type filter can leave behind, there are no rows and the range runs
   * backwards.
   */
  lemma {:induction false} FooterMatchesRows<T>(xs: seq<T>, page: nat)
    requires page >= 1
    ensures var r, rows := FooterRange(|xs|, page), PageSlice(xs, page);
      page <= TotalPages(|xs|) ==> 1 <= r.first <= r.last <= |xs| && rows == xs[r.first - 1..r.last]
    ensures var r := FooterRange(|xs|, page);
      page > TotalPages(|xs|) ==> PageSlice(xs, page) == [] && r.last < r.first
  {
    var rows := PageSlice(xs, page);
    if page <= TotalPages(|xs|) {
      var r := FooterRange(|xs|, page);
      assert |rows| == r.last - r.first + 1;
    }
  }

  /** What the table body shows. */
  datatype Body = Loading | NoDocuments | Rows(docs: seq<Document>)

  function TableBody(isLoading: bool, docs: Option<seq<Document>>, selectedType: string, page: nat): (r: Body)
    requires page >= 1
    ensures isLoading ==> r == Loading
    ensures !isLoading && r.Rows? ==> 1 <= |r.docs| <= ItemsPerPage && docs.Some?
    ensures !isLoading && r.Rows? ==> forall d :: d in r.docs ==> d in docs.value && (selectedType == "all" || d.docType == selectedType)
    ensures !isLoading ==> (r == NoDocuments <==> docs.None? || page > PageCount(Shown(docs, selectedType)))
    ensures !isLoading && r.Rows? ==> r.docs == PageSlice(Shown(docs, selectedType).value, page)
  {
    var shown := Shown(docs, selectedType);
    var rows := if shown.None? then [] else PageSlice(shown.value, page);
    if isLoading then Loading
    else if rows == [] then NoDocuments
    else
      assert forall d :: d in rows ==> d in shown.value by {
        forall d | d in rows
          ensures d in shown.value
        {
          var k :| 0 <= k < |rows| && rows[k] == d;
        }
      }
      Rows(rows)
  }

  /** The footer, shown once some document is listed. */
  function Footer(shown: Option<seq<Document>>, page: nat): (r: Option<Range>)
    requires page >= 1
    ensures r.Some? <==> shown.Some? && |shown.value| > 0
    ensures r.Some? ==> r.value.total == |shown.value|
  {
    if shown.Some? && |shown.value| > 0 then Some(FooterRange(|shown.value|, page)) else None
  }

  // ------------------------------------------------------------ page buttons

  /** A numbered page button, or a disabled "..." button. */
  datatype PageButton = Number(n: nat) | Gap

  /** Buttons `lo` to `hi - 1`. */
  function Numbers(lo: nat, hi: nat): (r: seq<PageButton>)
    ensures |r| == if lo <= hi then hi - lo else 0
    ensures forall k :: 0 <= k < |r| ==> r[k] == Number(lo + k)
    decreases hi - lo
  {
    if lo >= hi then [] else [Number(lo)] + Numbers(lo + 1, hi)
  }

  /** The inner buttons: pages `lo` to `hi - 1` within distance 1 of `current`. */
  function Near(lo: nat, hi: nat, current: int): (r: seq<PageButton>)
    ensures forall k :: 0 <= k < |r| ==> r[k].Number? && lo <= r[k].n < hi && current - 2 < r[k].n < current + 2
    ensures forall a, b :: 0 <= a < b < |r| ==> r[a].n < r[b].n
    ensures forall k: nat :: lo <= k < hi && current - 2 < k < current + 2 ==> Number(k) in r
    decreases hi - lo
  {
    if lo >= hi then []
    else (if current - 2 < lo < current + 2 then [Number(lo)] else []) + Near(lo + 1, hi, current)
  }

  /**
   * The RezGuruAI pager: every page up to five pages; beyond that the first
   * and the last page, the inner pages next to the current one, and a "..."
   * after the first when the current page is past 3 and before the last
   * when it is more than 2 before it.
   */
  function PageButtons(total: nat, current: int): (r: seq<PageButton>) {
    if total <= 5 then Numbers(1, total + 1)
    else
      [Number(1)] + (if current > 3 then [Gap] else []) + Near(2, total, current) +
      (if current < total - 2 then [Gap] else []) + [Number(total)]
  }

  /** The pager of client/: one button per page. */
  function AllPageButtons(total: nat): (r: seq<PageButton>)
    ensures |r| == total
    ensures forall k :: 0 <= k < total ==> r[k] == Number(k + 1)
  {
    Numbers(1, total + 1)
  }

  /** A page has a button exactly when there are few pages, it is the first or last, or it is next to the current page. */
  lemma {:induction false} PageButtonShown(total: nat, current: int, k: nat)
    ensures Number(k) in PageButtons(total, current) <==>
      1 <= k <= total && (total <= 5 || k == 1 || k == total || current - 2 < k < current + 2)
  {
    var r := PageButtons(total, current);
    if total <= 5 {
      if Number(k) in r {
        var i :| 0 <= i < |r| && r[i] == Number(k);
      }
      if 1 <= k <= total {
        assert r[k - 1] == Number(k);
      }
    } else {
      var near := Near(2, total, current);
      if Number(k) in near {
        var i :| 0 <= i < |near| && near[i] == Number(k);
      }
    }
  }

  /** The numbered buttons of `r` carry increasing numbers. */
  predicate Ascending(r: seq<PageButton>) {
    forall a, b :: 0 <= a < b < |r| && r[a].Number? && r[b].Number? ==> r[a].n < r[b].n
  }

  /** The numbered buttons of `r` lie in `lo` to `hi - 1`. */
  predicate NumbersWithin(r: seq<PageButton>, lo: int, hi: int) {
    forall k :: 0 <= k < |r| && r[k].Number? ==> lo <= r[k].n < hi
  }

  lemma {:induction false} AscendingJoin(a: seq<PageButton>, b: seq<PageButton>, lo: int, mid: int, hi: int)
    requires lo <= mid <= hi && Ascending(a) && Ascending(b) && NumbersWithin(a, lo, mid) && NumbersWithin(b, mid, hi)
    ensures Ascending(a + b) && NumbersWithin(a + b, lo, hi)
  {
    var r := a + b;
    forall k | 0 <= k < |r| && r[k].Number?
      ensures lo <= r[k].n < hi
    {
      if k < |a| {
        assert r[k] == a[k];
      } else {
        assert r[k] == b[k - |a|];
      }
    }
    forall i, j | 0 <= i < j < |r| && r[i].Number? && r[j].Number?
      ensures r[i].n < r[j].n
    {
      if j < |a| {
        assert r[i] == a[i] && r[j] == a[j];
      } else if i >= |a| {
        assert r[i] == b[i - |a|] && r[j] == b[j - |a|];
      } else {
        assert r[i] == a[i] && r[j] == b[j - |a|];
      }
    }
  }

  /** The numbers along the row increase, so no page has two buttons. */
  lemma {:induction false} PageButtonsAscending(total: nat, current: int)
    ensures Ascending(PageButtons(total, current))
  {
    if total > 5 {
      var near := Near(2, total, current);
      var lead: seq<PageButton> := if current > 3 then [Gap] else [];
      var trail: seq<PageButton> := if current < total - 2 then [Gap] else [];
      AscendingJoin([Number(1)], lead, 1, 2, 2);
      AscendingJoin([Number(1)] + lead, near, 1, 2, total);
      AscendingJoin([Number(1)] + lead + near, trail, 1, total, total);
      AscendingJoin([Number(1)] + lead + near + trail, [Number(total)], 1, total, total + 1);
    }
  }

  /**
   * With more than five pages and the current page among them, a "..."
   * stands right after the first button exactly when page 2 has no button,
   * and right before the last exactly when the page before the last has none.
   */
  lemma {:induction false} GapsMarkHiddenPages(total: nat, current: int)
    requires total > 5 && 1 <= current <= total
    ensures var r := PageButtons(total, current);
      |r| >= 3 && (r[1] == Gap <==> current > 3) && (current > 3 <==> Number(2) !in r)
    ensures var r := PageButtons(total, current);
      |r| >= 3 && (r[|r| - 2] == Gap <==> current < total - 2) && (current < total - 2 <==> Number(total - 1) !in r)
  {
    PageButtonShown(total, current, 2);
    PageButtonShown(total, current, total - 1);
    var near := Near(2, total, current);
    var lead: seq<PageButton> := if current > 3 then [Gap] else [];
    var trail: seq<PageButton> := if current < total - 2 then [Gap] else [];
    var r := PageButtons(total, current);
    assert r == [Number(1)] + lead + near + trail + [Number(total)];
    if current <= 3 {
      assert Number(current - 1 + 1) in near || current == 1;
      assert Number(2) in near;
      assert r[1] == near[0];
    }
    if current >= total - 2 {
      assert Number(total - 1) in near;
      assert r[|r| - 2] == near[|near| - 1];
    }
  }

  // ------------------------------------------------------------------ state

  /** The component's state: the type selector, the page and the document open in the viewer. */
  class Pager {
    var selectedType: string
    var currentPage: int
    var selectedDocument: Option<Document>

    /** Every way of changing the page keeps it at 1 or more. */
    predicate Valid()
      reads this
    {
      currentPage >= 1
    }

    constructor()
      ensures Valid()
      ensures selectedType == "all" && currentPage == 1 && selectedDocument.None?
    {
      selectedType := "all";
      currentPage := 1;
      selectedDocument := None;
    }

    /** The documents in the table's rows. */
    function Rows(docs: Option<seq<Document>>): seq<Document>
      reads this
      requires Valid()
    {
      var shown := Shown(docs, selectedType);
      if shown.None? then [] else PageSlice(shown.value, currentPage)
    }

    /** Choosing a type keeps the current page, which may then lie past the last one and show no rows. */
    method SelectType(t: string, docs: Option<seq<Document>>)
      requires Valid()
      modifies this`selectedType
      ensures Valid() && selectedType == t
      ensures currentPage > PageCount(Shown(docs, t)) ==> Rows(docs) == []
    {
      selectedType := t;
    }

    /** Prev: one page back, never below 1. */
    method Prev()
      requires Valid()
      modifies this`currentPage
      ensures Valid() && currentPage == Max(old(currentPage) - 1, 1)
    {
      currentPage := Max(currentPage - 1, 1);
    }

    /**
     * Next, which exists once a document is listed: one page on, never past
     * the last page; from a page past the last one it goes to the last.
     */
    method Next(docs: Option<seq<Document>>)
      requires Valid() && Footer(Shown(docs, selectedType), currentPage).Some?
      modifies this`currentPage
      ensures Valid()
      ensures currentPage == Min(old(currentPage) + 1, PageCount(Shown(docs, selectedType)))
      ensures currentPage <= PageCount(Shown(docs, selectedType)) && Rows(docs) != []
    {
      var total := PageCount(Shown(docs, selectedType));
      currentPage := Min(currentPage + 1, total);
    }

    /** A page button. */
    method GoTo(page: nat)
      requires Valid() && page >= 1
      modifies this`currentPage
      ensures Valid() && currentPage == page
    {
      currentPage := page;
    }

    /** A row click opens the viewer; `handleDocumentUpdated` closes it. */
    method View(d: Document)
      modifies this`selectedDocument
      ensures selectedDocument == Some(d)
    {
      selectedDocument := Some(d);
    }

    method Close()
      modifies this`selectedDocument
      ensures selectedDocument.None?
    {
      selectedDocument := None;
    }
  }
}
