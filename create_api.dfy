/**
 * src/features/create/api.ts: the payloads `createItem` and `updateItem`
 * send. The location is written as OGC Well-Known Text (OGC 06-103r4,
 * section 7), `POINT(<longitude> <latitude>)`; a missing location is sent as
 * `null` on insert and left out of the update. How JavaScript renders a
 * number as text is the parameter `show`.
 */
module CreateApi {
  import opened Wrappers
  import opened JsString
  import opened LocationUtils

  /** The `location` key of a payload: absent, `null`, or WKT text. */
  datatype LocationValue = Omitted | Null | Wkt(text: string)

  /** A payload: the caller's other fields, forwarded as they are, and the location key. */
  datatype Payload<R> = Payload(rest: R, location: LocationValue)

  /** `{ error, data }` as the backend answers a write. */
  datatype Response<D> = Response(error: Option<DbError>, data: Option<D>)

  /** `POINT(${longitude} ${latitude})`. */
  function PointWkt(c: Coordinate, show: real -> string): (s: string)
    ensures |s| > 0
  {
    "POINT(" + show(c.longitude) + " " + show(c.latitude) + ")"
  }

  /** Reads `POINT(<x> <y>)` back into a point, with `read` turning a token into a number. */
  function ParsePoint(s: string, read: string -> real): Option<Coordinate> {
    if |s| >= 7 && s[..6] == "POINT(" && s[|s| - 1] == ')' then
      var parts := Split(s[6..|s| - 1], ' ');
      if |parts| == 2 then Some(Coordinate(latitude := read(parts[1]), longitude := read(parts[0])))
      else None
    else None
  }

  /**
   * The WKT text is a faithful encoding, longitude first: whenever a number's
   * text holds no space and reads back as the number, the point reads back as
   * the point.
   */
  lemma PointWktRoundTrip(c: Coordinate, show: real -> string, read: string -> real)
    requires ' ' !in show(c.longitude) && ' ' !in show(c.latitude)
    requires read(show(c.longitude)) == c.longitude && read(show(c.latitude)) == c.latitude
    ensures ParsePoint(PointWkt(c, show), read) == Some(c)
  {
    var s := PointWkt(c, show);
    var x, y := show(c.longitude), show(c.latitude);
    assert s == "POINT(" + (x + [' '] + y) + ")";
    assert s[..6] == "POINT(";
    assert s[6..|s| - 1] == x + [' '] + y;
    SplitAtFirst(x, y, ' ');
    SplitNoSeparator(y, ' ');
  }

  /**
   * The location key of the insert: always sent; `null` exactly when there is
   * no location, otherwise the point's non-empty WKT text.
   */
  function InsertLocation(location: Option<Coordinate>, show: real -> string): (r: LocationValue)
    ensures r != Omitted
    ensures r == Null <==> location.None?
    ensures location.Some? ==> r == Wkt(PointWkt(location.value, show)) && r.text != ""
  {
    if location.Some? then Wkt(PointWkt(location.value, show)) else Null
  }

  /**
   * The location key of the update: never `null`; left out exactly when there
   * is no location, otherwise the point's non-empty WKT text.
   */
  function UpdateLocation(location: Option<Coordinate>, show: real -> string): (r: LocationValue)
    ensures r != Null
    ensures r == Omitted <==> location.None?
    ensures location.Some? ==> r == Wkt(PointWkt(location.value, show)) && r.text != ""
  {
    if location.Some? then Wkt(PointWkt(location.value, show)) else Omitted
  }

  /**
   * Insert and update agree exactly when a location is given; without one the
   * insert clears the column while the update keeps whatever is stored.
   */
  lemma InsertUpdateLocations(location: Option<Coordinate>, show: real -> string)
    ensures InsertLocation(location, show) == UpdateLocation(location, show) <==> location.Some?
    ensures location.None? ==> InsertLocation(location, show) == Null && UpdateLocation(location, show) == Omitted
    ensures location.Some? ==> InsertLocation(location, show).Wkt? && InsertLocation(location, show).text != ""
  {
  }

  /**
   * `createItem`: splits the location off the item, renders it when present
   * (else `null`), inserts the rest with it and hands back the backend's
   * answer without throwing.
   */
  method CreateItem<R, D>(rest: R, location: Option<Coordinate>, show: real -> string,
                          insert: Payload<R> -> Response<D>)
    returns (sent: Payload<R>, response: Response<D>)
    ensures sent.rest == rest
    ensures sent.location == InsertLocation(location, show)
    ensures response == insert(sent)
  {
    var wktLocation: Option<string> := None;
    if location.Some? {
      wktLocation := Some(PointWkt(location.value, show));
    }
    sent := Payload(rest, if wktLocation.Some? then Wkt(wktLocation.value) else Null);
    response := insert(sent);
  }

  /**
   * `updateItem`: renders the location when present and adds the `location`
   * key only when that text is non-empty (which it always is), so an update
   * without a location leaves the stored one alone.
   */
  method UpdateItem<R, D>(id: string, rest: R, location: Option<Coordinate>, show: real -> string,
                          update: (string, Payload<R>) -> Response<D>)
    returns (sent: Payload<R>, response: Response<D>)
    ensures sent.rest == rest
    ensures sent.location == UpdateLocation(location, show)
    ensures response == update(id, sent)
  {
    var wktLocation: Option<string> := None;
    if location.Some? {
      wktLocation := Some(PointWkt(location.value, show));
    }
    sent := Payload(rest, Omitted);
    if wktLocation.Some? && wktLocation.value != "" {
      sent := sent.(location := Wkt(wktLocation.value));
    }
    response := update(id, sent);
  }
}
