/**
 * src/features/feed/hooks.ts: the paging rule of the feed's infinite query.
 * Pages are numbered from 0; a page is requested with the caller's filters,
 * its page number and a limit of 20; loading stops after the first page that
 * holds fewer than 20 items.
 */
module FeedHooks {
  import opened Wrappers
  import opened LocationUtils
  import opened FeedApi

  const PageSize: nat := 20

  const InitialPageParam: nat := 0

  /** `getNextPageParam`: no next page after a short page, otherwise the number of pages loaded so far. */
  function GetNextPageParam(lastPage: seq<Item>, allPages: seq<seq<Item>>): (next: Option<nat>)
    ensures next.None? <==> |lastPage| < PageSize
    ensures next.Some? ==> next.value == |allPages|
  {
    if |lastPage| < PageSize then None else Some(|allPages|)
  }

  /** The filters `queryFn` passes for a page: the caller's, with this page and a limit of 20. */
  function PageRequest(f: FeedFilters, pageParam: nat): (r: FeedFilters)
    ensures r.page == Some(pageParam) && r.limit == Some(PageSize)
    ensures r.(page := f.page, limit := f.limit) == f
  {
    f.(page := Some(pageParam), limit := Some(PageSize))
  }

  /**
   * The pages the infinite query holds after at most `fuel` further requests,
   * starting from `pages`: while the next page parameter is defined, the page
   * it names is fetched and appended. The pages so far are kept; the page
   * appended as page i is the fetch of page i; every page from the last one
   * given to the last but one loaded is full; and unless the request budget
   * ran out, the last page is short.
   */
  function LoadPages(fetch: nat -> seq<Item>, pages: seq<seq<Item>>, fuel: nat): (r: seq<seq<Item>>)
    requires pages != []
    ensures |pages| <= |r| <= |pages| + fuel && r[..|pages|] == pages
    ensures forall i :: |pages| <= i < |r| ==> r[i] == fetch(i)
    ensures forall i :: |pages| - 1 <= i < |r| - 1 ==> |r[i]| >= PageSize
    ensures |r| < |pages| + fuel ==> |r[|r| - 1]| < PageSize
    decreases fuel
  {
    if fuel == 0 then pages
    else
      match GetNextPageParam(pages[|pages| - 1], pages)
      case None => pages
      case Some(p) =>
        var next := pages + [fetch(p)];
        var r := LoadPages(fetch, next, fuel - 1);
        assert r[..|pages|] == r[..|next|][..|pages|];
        r
  }

  /**
   * Everything loaded from the first request on, with at most `fuel`
   * follow-up requests: pages are requested as 0, 1, 2, ... in that order;
   * every page but the last is full; and unless the request budget ran out,
   * the last page is the first short one.
   */
  function LoadFeed(fetch: nat -> seq<Item>, fuel: nat): (r: seq<seq<Item>>)
    ensures 1 <= |r| <= 1 + fuel
    ensures forall i :: 0 <= i < |r| ==> r[i] == fetch(i)
    ensures forall i :: 0 <= i < |r| - 1 ==> |r[i]| >= PageSize
    ensures |r| < 1 + fuel ==> |r[|r| - 1]| < PageSize
  {
    var r := LoadPages(fetch, [fetch(InitialPageParam)], fuel);
    assert r[0] == r[..1][0];
    r
  }

  /**
   * The feed request never reads the page or the limit: every page request
   * sends the same query and, for the same backend, receives the same items.
   */
  lemma EveryPageSameResult(f: FeedFilters, p1: nat, p2: nat, blockRows: Option<seq<string>>,
                            backend: Backend, float64LE: Float64LE, haversine: Haversine)
    ensures FeedQuery(PageRequest(f, p1), BlockedIds(blockRows)) == FeedQuery(PageRequest(f, p2), BlockedIds(blockRows))
    ensures FeedResult(PageRequest(f, p1), blockRows, backend, float64LE, haversine)
            == FeedResult(PageRequest(f, p2), blockRows, backend, float64LE, haversine)
  {
    var f1, f2 := PageRequest(f, p1), PageRequest(f, p2);
    assert FilterOps(f1, BlockedIds(blockRows)) == FilterOps(f2, BlockedIds(blockRows));
    assert RadiusApplies(f1) == RadiusApplies(f2) && ClosestSort(f1) == ClosestSort(f2);
  }

  /**
   * The items of each page of the feed, as `queryFn` obtains them (a failed
   * page is left out of this model): whatever page is asked for, they are the
   * items of page 0.
   */
  function FeedPages(f: FeedFilters, blockRows: Option<seq<string>>, backend: Backend,
                     float64LE: Float64LE, haversine: Haversine): (pages: nat -> seq<Item>)
    ensures forall p: nat :: pages(p) == (var first := FeedResult(PageRequest(f, 0), blockRows, backend, float64LE, haversine);
                                          if first.Ok? then first.value else [])
  {
    var pages := (p: nat) =>
      var r := FeedResult(PageRequest(f, p), blockRows, backend, float64LE, haversine);
      if r.Ok? then r.value else [];
    assert forall p: nat :: pages(p) == pages(0) by {
      forall p: nat ensures pages(p) == pages(0) {
        EveryPageSameResult(f, p, 0, blockRows, backend, float64LE, haversine);
      }
    }
    pages
  }

  /**
   * Consequently, when the first page comes back full (20 items or more), the
   * infinite query keeps loading copies of that same page until its request
   * budget runs out: it never reaches a short page.
   */
  lemma FullFeedRepeats(f: FeedFilters, blockRows: Option<seq<string>>, backend: Backend,
                        float64LE: Float64LE, haversine: Haversine, fuel: nat)
    requires FeedResult(PageRequest(f, 0), blockRows, backend, float64LE, haversine).Ok?
    requires |FeedResult(PageRequest(f, 0), blockRows, backend, float64LE, haversine).value| >= PageSize
    ensures var first := FeedResult(PageRequest(f, 0), blockRows, backend, float64LE, haversine).value;
            var r := LoadFeed(FeedPages(f, blockRows, backend, float64LE, haversine), fuel);
            |r| == 1 + fuel && forall i :: 0 <= i < |r| ==> r[i] == first
  {
  }
}
