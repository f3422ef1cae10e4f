/**
 * src/features/feed/store.ts: the feed shown on the home screen, its loading
 * flag and the last error text. Loading always asks for the unfiltered feed:
 * the user id it is given is never passed on.
 */
module FeedStore {
  import opened Wrappers
  import opened JsArray
  import opened LocationUtils
  import opened FeedApi

  /** `{ searchQuery: undefined }`: no filter, no sort mode, no page. */
  const NoFilters: FeedFilters := FeedFilters(None, None, None, None, None, None, None, None, None, None)

  /**
   * The query for the unfiltered feed: active items, boosted first and then
   * newest, at most the row cap, with the blocked owners left out when there
   * are any; nothing else.
   */
  lemma {:induction false} NoFiltersQuery(blocked: seq<string>)
    ensures FeedQuery(NoFilters, blocked)
            == [Select("*"), Eq("status", "active"), Order("is_boosted", false), Order("created_at", false), Limit(RowCap)]
               + OptionalOp(|blocked| > 0, Not("owner_id", "in", InList(blocked)))
  {
    var ops := FilterOps(NoFilters, blocked);
    var exclusion := OptionalOp(|blocked| > 0, Not("owner_id", "in", InList(blocked)));
    assert ops == exclusion by {
      forall op ensures op in ops <==> op in exclusion {
        assert op in ops <==> FilterRequested(NoFilters, blocked, op);
      }
      assert |ops| <= 1;
    }
  }

  /** Without filters the client keeps every row the backend returned, in the backend's order. */
  lemma NoFiltersKeepsAll(items: seq<Item>, haversine: Haversine)
    ensures Narrow(NoFilters, items, haversine) == items
  {
  }

  class FeedStore {
    var items: seq<Item>
    var isLoading: bool
    var error: Option<string>

    /** The initial state: no items, not loading, no error. */
    constructor ()
      ensures items == [] && !isLoading && error == None
    {
      items := [];
      isLoading := false;
      error := None;
    }

    /**
     * `fetchItems`: the error is cleared and the unfiltered feed fetched. On
     * success it replaces the items; on failure the items stay and the error
     * is the thrown message. Loading is off afterwards either way. `userId`
     * plays no part.
     */
    method FetchItems(userId: Option<string>, blockRows: Option<seq<string>>, backend: Backend,
                      float64LE: Float64LE, haversine: Haversine)
      modifies this
      ensures var r := FeedResult(NoFilters, blockRows, backend, float64LE, haversine);
              && (r.Ok? ==> items == r.value && error == None)
              && (r.Err? ==> items == old(items) && error == Some(ErrorMessage(r.error)))
      ensures !isLoading
    {
      isLoading, error := true, None;
      var query, result := FeedApi.FetchItems(NoFilters, blockRows, backend, float64LE, haversine);
      if result.Ok? {
        items := result.value;
      } else {
        error := Some(ErrorMessage(result.error));
      }
      isLoading := false;
    }
  }
}
