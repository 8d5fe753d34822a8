/** The paginated fetch of both profiles (src/index.js:57-97 and
    src/index.js:126-166): request pages 1, 2, ... of size 100, append the
    items of each page, and stop at the first short page or the first
    non-ok response, keeping what was fetched before it.

    The HTTP layer is replaced by `pages`, the responses the API gives to
    the requests for pages 1, 2, ... in turn. */
module Pagination {

  import opened Wrappers
  import opened Seqs
  import opened Orders

  const PageSize: nat := 100

  /** A response of the orders endpoint: a non-ok HTTP status, or a JSON body
      whose `items` field may be missing. */
  datatype PageResponse = NotOk | Ok(items: Option<seq<Order>>)

  /** The orders a response adds to the accumulated list: nothing for a
      non-ok response (the loop breaks before concatenating), nothing for a
      body without `items` (`data.items || []`), the items otherwise. */
  function Contribution(r: PageResponse): (added: seq<Order>)
    ensures added != [] ==> r == Ok(Some(added))
    ensures r.Ok? && r.items.Some? ==> added == r.items.value
  {
    match r
    case NotOk => []
    case Ok(None) => []
    case Ok(Some(items)) => items
  }

  /** After this response the loop requests the next page: the response is
      ok and its page is not short. */
  predicate Continues(r: PageResponse)
    ensures Continues(r) ==> r.Ok? && r.items.Some? && |r.items.value| >= PageSize
  {
    r.Ok? && |Contribution(r)| >= PageSize
  }

  /** Number of pages requested: up to and including the first response that
      does not continue, or every available response if none stops. */
  function FetchCount(pages: seq<PageResponse>): (n: nat)
    ensures n <= |pages|
    ensures pages != [] ==> 1 <= n
    ensures forall i :: 0 <= i < n - 1 ==> Continues(pages[i])
    ensures 0 < n < |pages| ==> !Continues(pages[n - 1])
    ensures forall i :: 0 <= i < n && i + 1 < |pages| && Continues(pages[i]) ==> i + 1 < n
  {
    if pages == [] then 0
    else if !Continues(pages[0]) then 1
    else 1 + FetchCount(pages[1..])
  }

  /** The contribution of each response, in fetch order. */
  function Contributions(pages: seq<PageResponse>): (parts: seq<seq<Order>>)
  {
    seq(|pages|, i requires 0 <= i < |pages| => Contribution(pages[i]))
  }

  /** The accumulated orders: the concatenation, in fetch order, of what every
      requested page contributed. */
  function Accumulated(pages: seq<PageResponse>): (orders: seq<Order>)
  {
    Flatten(Contributions(pages[..FetchCount(pages)]))
  }

  /** The pagination loop. `requested` is the number of page requests made;
      the pages requested are 1 through `requested`. */
  method FetchAll(pages: seq<PageResponse>) returns (allOrders: seq<Order>, requested: nat)
    ensures requested == FetchCount(pages)
    ensures allOrders == Accumulated(pages)
  {
    var currentPage := 1;
    allOrders := [];
    while true
      invariant 1 <= currentPage <= |pages| + 1
      invariant forall i :: 0 <= i < currentPage - 1 ==> Continues(pages[i])
      invariant allOrders == Flatten(Contributions(pages[..currentPage - 1]))
      decreases |pages| + 1 - currentPage
    {
      if currentPage > |pages| {
        // The available responses are used up without a short page.
        requested := |pages|;
        AllContinue(pages);
        assert pages[..currentPage - 1] == pages;
        return;
      }
      var resp := pages[currentPage - 1];
      if resp.NotOk? {
        requested := currentPage;
        StopsAt(pages, currentPage - 1);
        return;
      }
      var items := Contribution(resp);
      ContributionsSnoc(pages, currentPage - 1);
      FlattenSnoc(Contributions(pages[..currentPage - 1]), items);
      allOrders := allOrders + items;
      if |items| < PageSize {
        requested := currentPage;
        StopsAt(pages, currentPage - 1);
        return;
      }
      currentPage := currentPage + 1;
    }
  }

  lemma ContributionsSnoc(pages: seq<PageResponse>, k: nat)
    requires k < |pages|
    ensures Contributions(pages[..k + 1]) == Contributions(pages[..k]) + [Contribution(pages[k])]
  {
  }

  /** Pagination stops exactly at the first page that does not continue:
      `k + 1` pages are requested, and the accumulated orders are those of
      the full pages before it followed by what that page contributes. */
  lemma StopsAt(pages: seq<PageResponse>, k: nat)
    requires k < |pages|
    requires forall i :: 0 <= i < k ==> Continues(pages[i])
    requires !Continues(pages[k])
    ensures FetchCount(pages) == k + 1
    ensures Accumulated(pages) == Flatten(Contributions(pages[..k])) + Contribution(pages[k])
  {
    ContributionsSnoc(pages, k);
    FlattenSnoc(Contributions(pages[..k]), Contribution(pages[k]));
  }

  /** When no available response stops the loop, every one of them is
      requested. */
  lemma AllContinue(pages: seq<PageResponse>)
    requires forall i :: 0 <= i < |pages| ==> Continues(pages[i])
    ensures FetchCount(pages) == |pages|
  {
  }

  /** A non-ok response, or an ok one without `items`, ends pagination after
      that request and adds nothing: the orders accumulated from the full
      pages before it are kept unchanged. */
  lemma FailedOrEmptyPageEnds(pages: seq<PageResponse>, k: nat)
    requires k < |pages|
    requires forall i :: 0 <= i < k ==> Continues(pages[i])
    requires pages[k] == NotOk || pages[k] == Ok(None)
    ensures FetchCount(pages) == k + 1
    ensures Accumulated(pages) == Flatten(Contributions(pages[..k]))
  {
    StopsAt(pages, k);
  }

  /** Each full page before the last contributes at least a page's worth of
      orders. */
  lemma {:induction false} AccumulatedAtLeastFullPages(pages: seq<PageResponse>)
    requires pages != []
    ensures |Accumulated(pages)| >= PageSize * (FetchCount(pages) - 1)
  {
    var n := FetchCount(pages);
    var parts := Contributions(pages[..n]);
    assert parts == Contributions(pages[..n - 1]) + [Contribution(pages[n - 1])];
    FlattenSnoc(Contributions(pages[..n - 1]), Contribution(pages[n - 1]));
    FlattenAtLeast(Contributions(pages[..n - 1]), PageSize);
  }
}
