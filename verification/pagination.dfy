/**
 * The page arithmetic of `getTransactions`: a fixed page size of 10, the page
 * number taken from the query, `skip`/`limit` on the caller's documents and the
 * page count `Math.ceil(count / pageSize)`.
 */
module Pagination {
  import opened Wrappers

  const PAGE_SIZE: nat := 10

  /** The response body `{ transactions, page, pages }`. */
  datatype Page<T> = Page(transactions: seq<T>, page: nat, pages: nat)

  /**
   * `Number(req.query.pageNumber) || 1`. The query value arrives already converted:
   * `None` for a missing or non-numeric value (`Number` gives `NaN`), `Some(n)` otherwise.
   */
  function PageNumber(raw: Option<nat>): (p: nat)
    ensures p >= 1
    ensures raw.Some? && raw.value >= 1 ==> p == raw.value
    ensures raw.None? || raw.value == 0 ==> p == 1
  {
    match raw
    case Some(n) => if n == 0 then 1 else n
    case None => 1
  }

  /** How many documents pages before `page` hold. */
  function Skip(page: nat): nat
    requires page >= 1
  {
    PAGE_SIZE * (page - 1)
  }

  /** `Math.ceil(count / PAGE_SIZE)`: the fewest pages that hold `count` documents. */
  function PageCount(count: nat): (pages: nat)
    ensures pages * PAGE_SIZE >= count
    ensures pages == 0 || (pages - 1) * PAGE_SIZE < count
  {
    (count + PAGE_SIZE - 1) / PAGE_SIZE
  }

  /**
   * `.limit(PAGE_SIZE).skip(Skip(page))`: MongoDB applies the skip before the limit
   * whatever the order of the calls, so the page is the run of at most PAGE_SIZE
   * documents that starts right after the skipped ones.
   */
  function Slice<T>(all: seq<T>, page: nat): (r: seq<T>)
    requires page >= 1
    ensures |r| == if |all| <= Skip(page) then 0
                   else if |all| - Skip(page) < PAGE_SIZE then |all| - Skip(page) else PAGE_SIZE
    ensures forall i :: 0 <= i < |r| ==> r[i] == all[Skip(page) + i]
  {
    var from := Skip(page);
    if |all| <= from then []
    else if |all| - from < PAGE_SIZE then all[from..]
    else all[from..from + PAGE_SIZE]
  }

  /** The whole response for one request over the caller's documents `all`. */
  function ListPage<T>(all: seq<T>, raw: Option<nat>): (r: Page<T>)
    ensures r.page == PageNumber(raw) && |r.transactions| == |Slice(all, r.page)|
    ensures r.page >= 1 && |r.transactions| <= PAGE_SIZE
    ensures r.pages * PAGE_SIZE >= |all| && (r.pages == 0 || (r.pages - 1) * PAGE_SIZE < |all|)
    ensures forall i :: 0 <= i < |r.transactions| ==>
              PAGE_SIZE * (r.page - 1) + i < |all| && r.transactions[i] == all[PAGE_SIZE * (r.page - 1) + i]
  {
    var page := PageNumber(raw);
    Page(Slice(all, page), page, PageCount(|all|))
  }

  /** Pages 1 to n, one after the other. */
  function FirstPages<T>(all: seq<T>, n: nat): seq<T> {
    if n == 0 then [] else FirstPages(all, n - 1) + Slice(all, n)
  }

  lemma {:induction false} FirstPagesArePrefix<T>(all: seq<T>, n: nat)
    ensures n * PAGE_SIZE <= |all| ==> FirstPages(all, n) == all[..n * PAGE_SIZE]
    ensures n * PAGE_SIZE > |all| ==> FirstPages(all, n) == all
  {
    if n > 0 {
      FirstPagesArePrefix(all, n - 1);
      var from := (n - 1) * PAGE_SIZE;
      var to := n * PAGE_SIZE;
      assert Skip(n) == from && to == from + PAGE_SIZE;
      if from <= |all| {
        assert FirstPages(all, n - 1) == all[..from];
        if to <= |all| {
          assert Slice(all, n) == all[from..to];
          assert all[..from] + all[from..to] == all[..to];
        } else {
          assert Slice(all, n) == all[from..];
          assert all[..from] + all[from..] == all;
        }
      } else {
        assert Slice(all, n) == [];
      }
    }
  }

  /** Reading pages 1 to `pages` in turn returns every document exactly once, in order. */
  lemma PagesCoverAll<T>(all: seq<T>)
    ensures FirstPages(all, PageCount(|all|)) == all
  {
    var n := PageCount(|all|);
    FirstPagesArePrefix(all, n);
    if n * PAGE_SIZE <= |all| {
      assert all[..n * PAGE_SIZE] == all;
    }
  }

  /** A page holds documents exactly when its number is at most the page count. */
  lemma PageNonEmptyIff<T>(all: seq<T>, page: nat)
    requires page >= 1
    ensures Slice(all, page) != [] <==> page <= PageCount(|all|)
  {
  }

  /** With 15 documents, page 2 holds the last 5 and there are 2 pages. */
  lemma FifteenDocuments<T>(all: seq<T>)
    requires |all| == 15
    ensures ListPage(all, Some(2)) == Page(all[10..], 2, 2)
  {
  }
}
