/**
 * src/features/feed/api.ts: the feed request. `fetchItems` builds a backend
 * query as an ordered list of operations, then narrows the returned rows on
 * the client (location decoding, radius filter, map-bounds filter, closest-first
 * sort). The backend and the haversine distance are parameters: every
 * statement holds whatever rows the backend returns and whatever the distance
 * function computes.
 */
module FeedApi {
  import opened Wrappers
  import opened JsString
  import opened JsArray
  import opened LocationUtils

  datatype SortBy = Newest | PriceAsc | PriceDesc | Closest

  datatype Bounds = Bounds(northeast: Coordinate, southwest: Coordinate)

  /** The optional feed filters; `null` and `undefined` are both `None`. */
  datatype FeedFilters = FeedFilters(
    searchQuery: Option<string>,
    category: Option<string>,
    minPrice: Option<real>,
    maxPrice: Option<real>,
    sortBy: Option<SortBy>,
    userLocation: Option<Coordinate>,
    radius: Option<real>,
    mapBounds: Option<Bounds>,
    page: Option<int>,
    limit: Option<int>)

  /** One call of the query builder, in the order the calls are chained. */
  datatype Op =
    | Select(columns: string)
    | Eq(column: string, value: string)
    | In(column: string, values: seq<string>)
    | Order(column: string, ascending: bool)
    | Limit(count: nat)
    | Not(column: string, operator: string, value: string)
    | ILike(column: string, pattern: string)
    | Gte(column: string, bound: real)
    | Lte(column: string, bound: real)
    | Delete

  /** The columns of an item row that the client passes on untouched. */
  datatype ItemFields = ItemFields(
    id: string, ownerId: string, title: string, price: real, category: string,
    status: string, isBoosted: bool, createdAt: string)

  /** The `location` column as the backend returns it: EWKB hex text, an already parsed point, or null. */
  datatype RawLocation = WkbText(hex: string) | Point(point: Coordinate) | NoLocation

  datatype Row = Row(fields: ItemFields, location: RawLocation)

  datatype Item = Item(fields: ItemFields, location: Option<Coordinate>)

  /** The backend: the rows (or the error) a query returns. */
  type Backend = seq<Op> -> Result<seq<Row>, DbError>

  /** The number of rows the feed query asks for, whatever page or limit was requested. */
  const RowCap: nat := 100

  // ------------------------------------------------------------------ query

  /** A JavaScript truthiness test for an optional string: present and non-empty. */
  predicate Truthy(s: Option<string>) {
    s.Some? && s.value != ""
  }

  predicate CategorySelected(f: FeedFilters) {
    Truthy(f.category) && f.category.value != "All"
  }

  /** The PostgREST list literal for the blocked owners, `(a,b,c)`. */
  function InList(ids: seq<string>): string {
    "(" + Join(ids, ",") + ")"
  }

  /** The blocked owner ids: none without a signed-in user or when the blocks query returned no data. */
  function BlockedIds(blockRows: Option<seq<string>>): seq<string> {
    if blockRows.Some? then blockRows.value else []
  }

  function SortOps(sortBy: Option<SortBy>): seq<Op> {
    match sortBy
    case Some(PriceAsc) => [Order("price", true)]
    case Some(PriceDesc) => [Order("price", false)]
    case Some(Newest) => [Order("created_at", false)]
    case _ => [Order("is_boosted", false), Order("created_at", false)]
  }

  /** The ordering calls of a query, in order. */
  function Orders(q: seq<Op>): seq<Op> {
    if q == [] then []
    else
      assert q == q[..|q| - 1] + [q[|q| - 1]];
      Orders(q[..|q| - 1]) + (if q[|q| - 1].Order? then [q[|q| - 1]] else [])
  }

  lemma {:induction false} OrdersAppend(a: seq<Op>, b: seq<Op>)
    ensures Orders(a + b) == Orders(a) + Orders(b)
    decreases |b|
  {
    if b == [] {
      assert a + b == a;
    } else {
      var b' := b[..|b| - 1];
      OrdersAppend(a, b');
      assert a + b == (a + b') + [b[|b| - 1]];
    }
  }

  /** A query call that is chained only under a condition. */
  function OptionalOp(cond: bool, op: Op): (ops: seq<Op>)
    ensures forall x :: x in ops <==> cond && x == op
  {
    if cond then [op] else []
  }

  /** The calls chained before the optional filters: selection, status, ordering and the row cap. */
  function BaseQuery(sortBy: Option<SortBy>): (q: seq<Op>)
    ensures |q| >= 4 && q[0] == Select("*") && q[1] == Eq("status", "active")
    ensures forall op :: op in q ==> op.Select? || op.Order? || op == Eq("status", "active") || op == Limit(RowCap)
  {
    [Select("*"), Eq("status", "active")] + SortOps(sortBy) + [Limit(RowCap)]
  }

  /**
   * Whether `op` is one of the optional filter calls for these filters: the
   * blocked-owner exclusion when there are blocked owners, the title search
   * for a non-empty query, the category for one other than "All", and each
   * price bound that is given.
   */
  predicate FilterRequested(f: FeedFilters, blocked: seq<string>, op: Op) {
    match op
    case Not(_, _, _) => |blocked| > 0 && op == Not("owner_id", "in", InList(blocked))
    case ILike(_, _) => Truthy(f.searchQuery) && op == ILike("title", "%" + f.searchQuery.value + "%")
    case Eq(_, _) => CategorySelected(f) && op == Eq("category", f.category.value)
    case Gte(_, _) => f.minPrice.Some? && op == Gte("price", f.minPrice.value)
    case Lte(_, _) => f.maxPrice.Some? && op == Lte("price", f.maxPrice.value)
    case _ => false
  }

  /** The optional filter calls, each present exactly when its condition holds. */
  function FilterOps(f: FeedFilters, blocked: seq<string>): (q: seq<Op>)
    ensures forall op :: op in q <==> FilterRequested(f, blocked, op)
  {
    var q := OptionalOp(|blocked| > 0, Not("owner_id", "in", InList(blocked)))
      + OptionalOp(Truthy(f.searchQuery), ILike("title", "%" + (if f.searchQuery.Some? then f.searchQuery.value else "") + "%"))
      + OptionalOp(CategorySelected(f), Eq("category", if f.category.Some? then f.category.value else ""))
      + OptionalOp(f.minPrice.Some?, Gte("price", if f.minPrice.Some? then f.minPrice.value else 0.0))
      + OptionalOp(f.maxPrice.Some?, Lte("price", if f.maxPrice.Some? then f.maxPrice.value else 0.0));
    FilterOpsMembers(f, blocked, q);
    q
  }

  lemma FilterOpsMembers(f: FeedFilters, blocked: seq<string>, q: seq<Op>)
    requires q == OptionalOp(|blocked| > 0, Not("owner_id", "in", InList(blocked)))
      + OptionalOp(Truthy(f.searchQuery), ILike("title", "%" + (if f.searchQuery.Some? then f.searchQuery.value else "") + "%"))
      + OptionalOp(CategorySelected(f), Eq("category", if f.category.Some? then f.category.value else ""))
      + OptionalOp(f.minPrice.Some?, Gte("price", if f.minPrice.Some? then f.minPrice.value else 0.0))
      + OptionalOp(f.maxPrice.Some?, Lte("price", if f.maxPrice.Some? then f.maxPrice.value else 0.0))
    ensures forall op :: op in q <==> FilterRequested(f, blocked, op)
  {
    var o1 := Not("owner_id", "in", InList(blocked));
    var o2 := ILike("title", "%" + (if f.searchQuery.Some? then f.searchQuery.value else "") + "%");
    var o3 := Eq("category", if f.category.Some? then f.category.value else "");
    var o4 := Gte("price", if f.minPrice.Some? then f.minPrice.value else 0.0);
    var o5 := Lte("price", if f.maxPrice.Some? then f.maxPrice.value else 0.0);
    FiveOptional(|blocked| > 0, o1, Truthy(f.searchQuery), o2, CategorySelected(f), o3,
                 f.minPrice.Some?, o4, f.maxPrice.Some?, o5);
    forall x ensures x in q <==> FilterRequested(f, blocked, x) {
      match x
      case Not(_, _, _) =>
      case ILike(_, _) =>
      case Eq(_, _) =>
      case Gte(_, _) =>
      case Lte(_, _) =>
      case _ =>
    }
  }

  /** A call is among five optional calls exactly when it is one of them whose condition holds. */
  lemma FiveOptional(c1: bool, o1: Op, c2: bool, o2: Op, c3: bool, o3: Op, c4: bool, o4: Op, c5: bool, o5: Op)
    ensures forall x :: x in OptionalOp(c1, o1) + OptionalOp(c2, o2) + OptionalOp(c3, o3) + OptionalOp(c4, o4) + OptionalOp(c5, o5)
                        <==> (c1 && x == o1) || (c2 && x == o2) || (c3 && x == o3) || (c4 && x == o4) || (c5 && x == o5)
  {
  }

  /** The query `fetchItems` sends for these filters and blocked owners. */
  function FeedQuery(f: FeedFilters, blocked: seq<string>): (q: seq<Op>)
    ensures |q| >= 4 && q[0] == Select("*") && q[1] == Eq("status", "active")
  {
    BaseQuery(f.sortBy) + FilterOps(f, blocked)
  }

  /**
   * The calls of the feed query: active items, at most 100 rows, blocked
   * owners excluded exactly when there are any, a title search exactly for a
   * non-empty query, a category exactly when one other than "All" is chosen,
   * and each price bound exactly when given (0 included).
   */
  lemma FeedQueryCalls(f: FeedFilters, blocked: seq<string>)
    ensures var q := FeedQuery(f, blocked);
      && Limit(RowCap) in q && (forall op :: op in q && op.Limit? ==> op == Limit(RowCap))
      && ((Not("owner_id", "in", InList(blocked)) in q) <==> |blocked| > 0)
      && (forall op :: op in q && op.Not? ==> op == Not("owner_id", "in", InList(blocked)))
      && (Truthy(f.searchQuery) ==> ILike("title", "%" + f.searchQuery.value + "%") in q)
      && (forall op :: op in q && op.ILike? ==> Truthy(f.searchQuery) && op == ILike("title", "%" + f.searchQuery.value + "%"))
      && (CategorySelected(f) ==> Eq("category", f.category.value) in q)
      && (forall op :: op in q && op.Eq? ==> op == Eq("status", "active") || (CategorySelected(f) && op == Eq("category", f.category.value)))
      && (f.minPrice.Some? ==> Gte("price", f.minPrice.value) in q)
      && (forall op :: op in q && op.Gte? ==> f.minPrice.Some? && op == Gte("price", f.minPrice.value))
      && (f.maxPrice.Some? ==> Lte("price", f.maxPrice.value) in q)
      && (forall op :: op in q && op.Lte? ==> f.maxPrice.Some? && op == Lte("price", f.maxPrice.value))
      && (forall op :: op in q ==> !op.In? && !op.Delete?)
  {
    var base := BaseQuery(f.sortBy);
    var q := FeedQuery(f, blocked);
    FeedQueryMembers(f, blocked);
    assert Limit(RowCap) in base by {
      assert base[|base| - 1] == Limit(RowCap);
    }
    forall op | op in q
      ensures op.Limit? ==> op == Limit(RowCap)
      ensures op.Not? ==> op == Not("owner_id", "in", InList(blocked))
      ensures op.ILike? ==> Truthy(f.searchQuery) && op == ILike("title", "%" + f.searchQuery.value + "%")
      ensures op.Eq? ==> op == Eq("status", "active") || (CategorySelected(f) && op == Eq("category", f.category.value))
      ensures op.Gte? ==> f.minPrice.Some? && op == Gte("price", f.minPrice.value)
      ensures op.Lte? ==> f.maxPrice.Some? && op == Lte("price", f.maxPrice.value)
      ensures !op.In? && !op.Delete?
    {
      assert op in base || FilterRequested(f, blocked, op);
    }
    assert (Not("owner_id", "in", InList(blocked)) in q) <==> |blocked| > 0 by {
      assert FilterRequested(f, blocked, Not("owner_id", "in", InList(blocked))) <==> |blocked| > 0;
      assert Not("owner_id", "in", InList(blocked)) !in base;
    }
  }

  /** A call is in the feed query exactly when it is in the base query or is a requested filter. */
  lemma FeedQueryMembers(f: FeedFilters, blocked: seq<string>)
    ensures forall op :: op in FeedQuery(f, blocked) <==> op in BaseQuery(f.sortBy) || FilterRequested(f, blocked, op)
  {
  }

  /**
   * The ordering by mode: price ascending, price descending, newest first, and
   * for "closest" or no mode boosted items first, then newest first.
   */
  lemma {:induction false} FeedQueryOrdering(f: FeedFilters, blocked: seq<string>)
    ensures f.sortBy == Some(PriceAsc) ==> Orders(FeedQuery(f, blocked)) == [Order("price", true)]
    ensures f.sortBy == Some(PriceDesc) ==> Orders(FeedQuery(f, blocked)) == [Order("price", false)]
    ensures f.sortBy == Some(Newest) ==> Orders(FeedQuery(f, blocked)) == [Order("created_at", false)]
    ensures f.sortBy == Some(Closest) || f.sortBy == None ==>
              Orders(FeedQuery(f, blocked)) == [Order("is_boosted", false), Order("created_at", false)]
  {
    FeedQueryOrders(f, blocked);
  }

  lemma {:induction false} FeedQueryOrders(f: FeedFilters, blocked: seq<string>)
    ensures Orders(FeedQuery(f, blocked)) == SortOps(f.sortBy)
  {
    var head := [Select("*"), Eq("status", "active")];
    var s := SortOps(f.sortBy);
    var tail := [Limit(RowCap)] + FilterOps(f, blocked);
    calc {
      Orders(FeedQuery(f, blocked));
      { assert FeedQuery(f, blocked) == head + s + tail; }
      Orders(head + s + tail);
      { OrdersAppend(head + s, tail); }
      Orders(head + s) + Orders(tail);
      { OrdersNone(tail); }
      Orders(head + s) + [];
      { OrdersAppend(head, s); OrdersNone(head); }
      [] + Orders(s);
      { SortOpsOrders(f.sortBy); }
      s;
    }
  }

  lemma {:induction false} OrdersNone(q: seq<Op>)
    requires forall op :: op in q ==> !op.Order?
    ensures Orders(q) == []
  {
    if q != [] {
      OrdersNone(q[..|q| - 1]);
    }
  }

  lemma SortOpsOrders(sortBy: Option<SortBy>)
    ensures Orders(SortOps(sortBy)) == SortOps(sortBy)
  {
    var s := SortOps(sortBy);
    assert Orders(s[..|s| - 1][..0]) == [];
  }

  // ------------------------------------------------------ client narrowing

  /** The location rule of the row mapping: text is decoded as EWKB, any other value is kept. */
  function MapRow(row: Row, float64LE: Float64LE): (it: Item)
    ensures it.fields == row.fields
    ensures row.location.WkbText? ==> it.location == DecodedPoint(row.location.hex, float64LE)
    ensures row.location.Point? ==> it.location == Some(row.location.point)
    ensures row.location.NoLocation? ==> it.location == None
  {
    match row.location
    case WkbText(hex) => Item(row.fields, DecodedPoint(hex, float64LE))
    case Point(c) => Item(row.fields, Some(c))
    case NoLocation => Item(row.fields, None)
  }

  function MapRows(rows: seq<Row>, float64LE: Float64LE): (items: seq<Item>)
    ensures |items| == |rows|
    ensures forall i :: 0 <= i < |rows| ==> items[i] == MapRow(rows[i], float64LE)
  {
    seq(|rows|, i requires 0 <= i < |rows| => MapRow(rows[i], float64LE))
  }

  /** A row whose location is the hex text of a 25-byte point record carries the two doubles it encodes. */
  lemma MapRowOfHex(fields: ItemFields, bytes: seq<byte>, float64LE: Float64LE)
    requires |bytes| == 25
    ensures MapRow(Row(fields, WkbText(HexOf(bytes))), float64LE).location
            == Some(Coordinate(latitude := float64LE(bytes[17..25]), longitude := float64LE(bytes[9..17])))
  {
    DecodeHexOf(bytes, float64LE);
  }

  /** The distance from `origin` to an item's location; 0 for an item without one. */
  function DistanceFrom(origin: Coordinate, haversine: Haversine): Item -> real {
    (it: Item) => if it.location.Some?
          then haversine(origin.latitude, origin.longitude, it.location.value.latitude, it.location.value.longitude)
          else 0.0
  }

  function Located(): Item -> bool {
    (it: Item) => it.location.Some?
  }

  /** The radius filter runs for a non-zero radius and a user location, unless map bounds are given. */
  predicate RadiusApplies(f: FeedFilters) {
    f.radius.Some? && f.radius.value != 0.0 && f.userLocation.Some? && f.mapBounds.None?
  }

  /** The closest-first sort runs when that mode is chosen and a user location is known. */
  predicate ClosestSort(f: FeedFilters) {
    f.sortBy == Some(Closest) && f.userLocation.Some?
  }

  function WithinRadius(origin: Coordinate, radius: real, haversine: Haversine): Item -> bool {
    (it: Item) => it.location.Some? && DistanceFrom(origin, haversine)(it) <= radius
  }

  /** Inside the box, all four edges included. */
  function InBounds(b: Bounds): Item -> bool {
    (it: Item) => it.location.Some?
          && b.southwest.latitude <= it.location.value.latitude <= b.northeast.latitude
          && b.southwest.longitude <= it.location.value.longitude <= b.northeast.longitude
  }

  /** Whether an item survives both client-side filters. */
  predicate Kept(f: FeedFilters, haversine: Haversine, it: Item) {
    (RadiusApplies(f) ==> WithinRadius(f.userLocation.value, f.radius.value, haversine)(it))
    && (f.mapBounds.Some? ==> InBounds(f.mapBounds.value)(it))
  }

  /**
   * The client-side narrowing of the mapped rows: exactly the kept items, each
   * as often as it came back; in the backend's order unless the closest sort
   * runs, and then nearest first when every item has a location (which the
   * radius or bounds filter guarantees whenever it runs).
   */
  function Narrow(f: FeedFilters, items: seq<Item>, haversine: Haversine): (r: seq<Item>)
    ensures forall x :: multiset(r)[x] == if Kept(f, haversine, x) then multiset(items)[x] else 0
    ensures !ClosestSort(f) ==> IsSubsequence(r, items)
    ensures RadiusApplies(f) || f.mapBounds.Some? ==> forall i :: 0 <= i < |r| ==> r[i].location.Some?
    ensures ClosestSort(f) && (forall i :: 0 <= i < |r| ==> r[i].location.Some?) ==>
              SortedByKey(r, DistanceFrom(f.userLocation.value, haversine))
  {
    var a := if RadiusApplies(f) then Filter(items, WithinRadius(f.userLocation.value, f.radius.value, haversine)) else items;
    var b := if f.mapBounds.Some? then Filter(a, InBounds(f.mapBounds.value)) else a;
    var r := if ClosestSort(f) then Sort(b, ByKey(DistanceFrom(f.userLocation.value, haversine), Located())) else b;
    NarrowProps(f, items, haversine, a, b, r);
    r
  }

  lemma NarrowProps(f: FeedFilters, items: seq<Item>, haversine: Haversine, a: seq<Item>, b: seq<Item>, r: seq<Item>)
    requires a == if RadiusApplies(f) then Filter(items, WithinRadius(f.userLocation.value, f.radius.value, haversine)) else items
    requires b == if f.mapBounds.Some? then Filter(a, InBounds(f.mapBounds.value)) else a
    requires r == if ClosestSort(f) then Sort(b, ByKey(DistanceFrom(f.userLocation.value, haversine), Located())) else b
    ensures forall x :: multiset(r)[x] == if Kept(f, haversine, x) then multiset(items)[x] else 0
    ensures !ClosestSort(f) ==> IsSubsequence(r, items)
    ensures RadiusApplies(f) || f.mapBounds.Some? ==> forall i :: 0 <= i < |r| ==> r[i].location.Some?
    ensures ClosestSort(f) && (forall i :: 0 <= i < |r| ==> r[i].location.Some?) ==>
              SortedByKey(r, DistanceFrom(f.userLocation.value, haversine))
  {
    assert multiset(r) == multiset(b);
    IsSubsequenceRefl(items);
    IsSubsequenceRefl(a);
    IsSubsequenceTrans(b, a, items);
    forall i | 0 <= i < |r| ensures Kept(f, haversine, r[i]) {
      assert r[i] in multiset(r);
    }
    if ClosestSort(f) && forall i :: 0 <= i < |r| ==> r[i].location.Some? {
      forall i | 0 <= i < |b| ensures Located()(b[i]) {
        assert b[i] in multiset(r);
      }
      SortSorted(b, DistanceFrom(f.userLocation.value, haversine), Located());
    }
  }

  /**
   * What `fetchItems` resolves to: it fails exactly when the backend answers
   * the feed query with an error, and then with that error's message;
   * otherwise it holds exactly the kept items among the mapped rows, each as
   * often as its row came back, in the backend's order unless the closest
   * sort runs.
   */
  function FeedResult(f: FeedFilters, blockRows: Option<seq<string>>, backend: Backend,
                      float64LE: Float64LE, haversine: Haversine): (r: Result<seq<Item>, Thrown>)
    ensures var response := backend(FeedQuery(f, BlockedIds(blockRows)));
            && (r.Err? <==> response.Err?)
            && (response.Err? ==> r.error == ErrorThrown(response.error.message))
            && (response.Ok? ==>
                  && (forall x :: multiset(r.value)[x] == if Kept(f, haversine, x) then multiset(MapRows(response.value, float64LE))[x] else 0)
                  && (!ClosestSort(f) ==> IsSubsequence(r.value, MapRows(response.value, float64LE))))
  {
    match backend(FeedQuery(f, BlockedIds(blockRows)))
    case Err(e) => Err(ErrorThrown(e.message))
    case Ok(rows) => Ok(Narrow(f, MapRows(rows, float64LE), haversine))
  }

  /** The query-building half of `fetchItems`: the calls chained one by one, each under its condition. */
  method ChainFeedQuery(filters: FeedFilters, blocked: seq<string>) returns (query: seq<Op>)
    ensures query == FeedQuery(filters, blocked)
  {
    query := [Select("*"), Eq("status", "active")];
    if filters.sortBy == Some(PriceAsc) {
      query := query + [Order("price", true)];
    } else if filters.sortBy == Some(PriceDesc) {
      query := query + [Order("price", false)];
    } else if filters.sortBy == Some(Newest) {
      query := query + [Order("created_at", false)];
    } else {
      query := query + [Order("is_boosted", false)] + [Order("created_at", false)];
    }
    query := query + [Limit(RowCap)];
    ghost var base := query;
    assert base == BaseQuery(filters.sortBy);
    if |blocked| > 0 {
      query := query + [Not("owner_id", "in", InList(blocked))];
    }
    ghost var p1 := OptionalOp(|blocked| > 0, Not("owner_id", "in", InList(blocked)));
    assert query == base + p1;
    if Truthy(filters.searchQuery) {
      query := query + [ILike("title", "%" + filters.searchQuery.value + "%")];
    }
    ghost var p2 := OptionalOp(Truthy(filters.searchQuery), ILike("title", "%" + (if filters.searchQuery.Some? then filters.searchQuery.value else "") + "%"));
    assert query == base + p1 + p2;
    if CategorySelected(filters) {
      query := query + [Eq("category", filters.category.value)];
    }
    ghost var p3 := OptionalOp(CategorySelected(filters), Eq("category", if filters.category.Some? then filters.category.value else ""));
    assert query == base + p1 + p2 + p3;
    if filters.minPrice.Some? {
      query := query + [Gte("price", filters.minPrice.value)];
    }
    ghost var p4 := OptionalOp(filters.minPrice.Some?, Gte("price", if filters.minPrice.Some? then filters.minPrice.value else 0.0));
    assert query == base + p1 + p2 + p3 + p4;
    if filters.maxPrice.Some? {
      query := query + [Lte("price", filters.maxPrice.value)];
    }
    ghost var p5 := OptionalOp(filters.maxPrice.Some?, Lte("price", if filters.maxPrice.Some? then filters.maxPrice.value else 0.0));
    assert query == base + p1 + p2 + p3 + p4 + p5;
    FeedQueryChained(filters, blocked, base, p1, p2, p3, p4, p5);
  }

  /** The feed query is the base query followed by the optional calls, one after another. */
  lemma FeedQueryChained(filters: FeedFilters, blocked: seq<string>,
                         base: seq<Op>, p1: seq<Op>, p2: seq<Op>, p3: seq<Op>, p4: seq<Op>, p5: seq<Op>)
    requires base == BaseQuery(filters.sortBy)
    requires p1 == OptionalOp(|blocked| > 0, Not("owner_id", "in", InList(blocked)))
    requires p2 == OptionalOp(Truthy(filters.searchQuery), ILike("title", "%" + (if filters.searchQuery.Some? then filters.searchQuery.value else "") + "%"))
    requires p3 == OptionalOp(CategorySelected(filters), Eq("category", if filters.category.Some? then filters.category.value else ""))
    requires p4 == OptionalOp(filters.minPrice.Some?, Gte("price", if filters.minPrice.Some? then filters.minPrice.value else 0.0))
    requires p5 == OptionalOp(filters.maxPrice.Some?, Lte("price", if filters.maxPrice.Some? then filters.maxPrice.value else 0.0))
    ensures FeedQuery(filters, blocked) == base + p1 + p2 + p3 + p4 + p5
  {
    assert FilterOps(filters, blocked) == p1 + p2 + p3 + p4 + p5;
    AppendAssoc(base, p1 + p2 + p3 + p4, p5);
    AppendAssoc(base, p1 + p2 + p3, p4);
    AppendAssoc(base, p1 + p2, p3);
    AppendAssoc(base, p1, p2);
  }

  /**
   * `fetchItems`: chains the query call by call, sends it, rethrows a backend
   * error as `new Error(message)`, then maps and narrows the rows step by step.
   */
  method FetchItems(filters: FeedFilters, blockRows: Option<seq<string>>, backend: Backend,
                    float64LE: Float64LE, haversine: Haversine)
    returns (query: seq<Op>, result: Result<seq<Item>, Thrown>)
    ensures query == FeedQuery(filters, BlockedIds(blockRows))
    ensures backend(query).Err? ==> result == Err(ErrorThrown(backend(query).error.message))
    ensures backend(query).Ok? ==> result == Ok(Narrow(filters, MapRows(backend(query).value, float64LE), haversine))
  {
    var blocked: seq<string> := [];
    if blockRows.Some? {
      blocked := blockRows.value;
    }
    query := ChainFeedQuery(filters, blocked);

    var response := backend(query);
    if response.Err? {
      return query, Err(ErrorThrown(response.error.message));
    }

    var items := MapRows(response.value, float64LE);
    if RadiusApplies(filters) {
      items := Filter(items, WithinRadius(filters.userLocation.value, filters.radius.value, haversine));
    }
    if filters.mapBounds.Some? {
      items := Filter(items, InBounds(filters.mapBounds.value));
    }
    if ClosestSort(filters) {
      items := Sort(items, ByKey(DistanceFrom(filters.userLocation.value, haversine), Located()));
    }
    result := Ok(items);
  }

  lemma AppendAssoc(a: seq<Op>, b: seq<Op>, c: seq<Op>)
    ensures a + (b + c) == a + b + c
  {
  }

  /** `fetchItemsByIds`: no request at all for an empty id list; otherwise one `in` query, its error rethrown as is. */
  method FetchItemsByIds(ids: seq<string>, backend: Backend, float64LE: Float64LE)
    returns (query: Option<seq<Op>>, result: Result<seq<Item>, Thrown>)
    ensures |ids| == 0 <==> query.None?
    ensures |ids| == 0 ==> result == Ok([])
    ensures query.Some? ==> query.value == [Select("*"), In("id", ids)]
    ensures query.Some? && backend(query.value).Err? ==> result == Err(DbThrown(backend(query.value).error))
    ensures query.Some? && backend(query.value).Ok? ==>
              result.Ok? && |result.value| == |backend(query.value).value|
              && forall i :: 0 <= i < |result.value| ==> result.value[i] == MapRow(backend(query.value).value[i], float64LE)
  {
    if |ids| == 0 {
      return None, Ok([]);
    }
    var q := [Select("*"), In("id", ids)];
    query := Some(q);
    var response := backend(q);
    if response.Err? {
      return query, Err(DbThrown(response.error));
    }
    result := Ok(MapRows(response.value, float64LE));
  }

  /**
   * `deleteItem`: `lookup` is the outcome of `fetchItemById(id)` and
   * `deleteBackend` the error (if any) of a delete query. The delete is sent
   * exactly when the item was found and the caller owns it.
   */
  method DeleteItem(id: string, userId: string, lookup: Result<Option<Item>, DbError>,
                    deleteBackend: seq<Op> -> Option<DbError>)
    returns (deletion: Option<seq<Op>>, result: Result<(), Thrown>)
    ensures deletion.Some? <==> lookup.Ok? && lookup.value.Some? && lookup.value.value.fields.ownerId == userId
    ensures deletion.Some? ==> deletion.value == [Delete, Eq("id", id)]
    ensures lookup.Err? ==> result == Err(DbThrown(lookup.error))
    ensures lookup == Ok(None) ==> result == Err(ErrorThrown("Item not found"))
    ensures lookup.Ok? && lookup.value.Some? && lookup.value.value.fields.ownerId != userId ==>
              result == Err(ErrorThrown("Unauthorized to delete this item"))
    ensures deletion.Some? ==>
              result == if deleteBackend(deletion.value).Some? then Err(DbThrown(deleteBackend(deletion.value).value)) else Ok(())
  {
    if lookup.Err? {
      return None, Err(DbThrown(lookup.error));
    }
    if lookup.value.None? {
      return None, Err(ErrorThrown("Item not found"));
    }
    if lookup.value.value.fields.ownerId != userId {
      return None, Err(ErrorThrown("Unauthorized to delete this item"));
    }
    var q := [Delete, Eq("id", id)];
    deletion := Some(q);
    var error := deleteBackend(q);
    if error.Some? {
      return deletion, Err(DbThrown(error.value));
    }
    result := Ok(());
  }
}
