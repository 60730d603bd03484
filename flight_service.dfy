/** The flight service: read-only queries over the `airport` and `flight`
    tables. Both tables are sequences in `id` order (SERIAL primary keys). */
module FlightService {
  import opened Common

  /** An `airport` row; `name`, `city` and `country` are nullable columns. */
  datatype AirportRow = AirportRow(id: int, name: Option<string>, city: Option<string>, country: Option<string>)

  /** The response model: every field is a required string. */
  datatype Airport = Airport(id: int, name: string, city: string, country: string)

  /** A `flight` row; the airport columns are nullable foreign keys, `datetime`
      is the instant of departure. */
  datatype FlightRow = FlightRow(id: int, flightNumber: string, datetime: int,
                                 fromAirportId: Option<int>, toAirportId: Option<int>, price: int)

  /** The response model. `date` carries the departure instant; its rendering
      as text is not part of this model. */
  datatype Flight = Flight(id: int, flightNumber: string, date: int, fromAirport: string, toAirport: string, price: int)

  datatype PagedResponse<T> = PagedResponse(page: int, pageSize: int, totalElements: int, items: seq<T>)

  datatype Catalogue = Catalogue(airports: seq<AirportRow>, flights: seq<FlightRow>)

  // ----- paging -----

  /** `size or 100`: a missing or zero size means 100. */
  function EffectiveSize(size: Option<int>): (s: int)
    ensures size == None || size == Some(0) ==> s == 100
    ensures size.Some? && size.value != 0 ==> s == size.value
  {
    match size
    case Some(n) => if n == 0 then 100 else n
    case None => 100
  }

  /** `page or 0`: a missing page means 0. */
  function EffectivePage(page: Option<int>): (p: int)
    ensures page == None ==> p == 0
    ensures page.Some? ==> p == page.value
  {
    page.GetOr(0)
  }

  /** `ORDER BY id OFFSET offset LIMIT limit`: a negative offset or limit, or
      one beyond `BIGINT`, the type both clauses take, is a database error
      (500); otherwise the rows from `offset`, at most `limit` of them. */
  function Window<T>(rows: seq<T>, offset: int, limit: int): (r: Result<seq<T>, int>)
    ensures r.Err? <==> offset < 0 || limit < 0 || !InInt64(offset) || !InInt64(limit)
    ensures r.Err? ==> r.error == 500
    ensures r.Ok? ==> |r.value| == Max(0, Min(limit, |rows| - offset))
    ensures r.Ok? ==> forall i :: 0 <= i < |r.value| ==> r.value[i] == rows[offset + i]
  {
    if offset < 0 || limit < 0 || !InInt64(offset) || !InInt64(limit) then Err(500)
    else if offset >= |rows| then Ok([])
    else Ok(rows[offset..Min(offset + limit, |rows|)])
  }

  /** Two adjacent windows together are the window spanning both: consecutive
      pages of one size tile the table without gap or overlap. */
  lemma WindowsTile<T>(rows: seq<T>, offset: nat, a: nat, b: nat)
    requires offset + a + b < 0x8000_0000_0000_0000
    ensures Window(rows, offset, a).Ok? && Window(rows, offset + a, b).Ok?
    ensures Window(rows, offset, a).value + Window(rows, offset + a, b).value == Window(rows, offset, a + b).value
  {
    var x, y, z := Window(rows, offset, a).value, Window(rows, offset + a, b).value, Window(rows, offset, a + b).value;
    assert |x + y| == |z|;
    forall i | 0 <= i < |z| ensures (x + y)[i] == z[i] {
      if i >= |x| {
        assert (x + y)[i] == y[i - |x|];
      }
    }
  }

  /** Page `p` of size `s` starts at row `p * s`: successive pages are the
      table's rows in id order, `s` at a time. */
  lemma PagesFollowEachOther<T>(rows: seq<T>, p: nat, s: nat)
    requires (p + 2) * s < 0x8000_0000_0000_0000
    ensures Window(rows, p * s, s).value + Window(rows, (p + 1) * s, s).value == Window(rows, p * s, 2 * s).value
  {
    assert (p + 1) * s == p * s + s;
    assert (p + 2) * s == p * s + s + s;
    WindowsTile(rows, p * s, s, s);
  }

  // ----- airports -----

  function FindAirport(airports: seq<AirportRow>, id: int): Option<AirportRow> {
    if airports == [] then None
    else if airports[0].id == id then Some(airports[0])
    else FindAirport(airports[1..], id)
  }

  lemma {:induction false} FindAirportExact(airports: seq<AirportRow>, id: int)
    ensures FindAirport(airports, id).Some? <==> exists i :: 0 <= i < |airports| && airports[i].id == id
    ensures FindAirport(airports, id).Some? ==>
      FindAirport(airports, id).value in airports && FindAirport(airports, id).value.id == id
  {
    if airports != [] {
      FindAirportExact(airports[1..], id);
      if airports[0].id != id && exists i :: 0 <= i < |airports| && airports[i].id == id {
        var i :| 0 <= i < |airports| && airports[i].id == id;
        assert airports[1..][i - 1] == airports[i];
      }
      if exists i :: 0 <= i < |airports[1..]| && airports[1..][i].id == id {
        var i :| 0 <= i < |airports[1..]| && airports[1..][i].id == id;
        assert airports[i + 1].id == id;
      }
    }
  }

  /** A NULL in one of the text columns, which the response model rejects. */
  predicate HasNullText(row: AirportRow) {
    row.name.None? || row.city.None? || row.country.None?
  }

  /** `GET /airport/{id}`: 404 when no row has the id (a NULL id never matches);
      a row with a NULL text column fails the response model, a 500. */
  function GetAirportById(cat: Catalogue, id: Option<int>): (r: Result<Airport, int>)
    ensures r.Ok? ==> exists a :: (a in cat.airports && a.id == r.value.id && id == Some(a.id)
      && a.name == Some(r.value.name) && a.city == Some(r.value.city) && a.country == Some(r.value.country))
    ensures r == Err(404) <==> id == None || forall a :: a in cat.airports ==> a.id != id.value
    ensures r == Err(500) <==>
      id.Some? && FindAirport(cat.airports, id.value).Some? && HasNullText(FindAirport(cat.airports, id.value).value)
    ensures r.Err? ==> r.error in {404, 500}
  {
    match id
    case None => Err(404)
    case Some(k) =>
      FindAirportExact(cat.airports, k);
      match FindAirport(cat.airports, k)
      case None => Err(404)
      case Some(row) =>
        if HasNullText(row) then Err(500)
        else Ok(Airport(row.id, row.name.value, row.city.value, row.country.value))
  }

  /** The text shown for an airport: its city, a space, its name. */
  function FormatAirport(a: Airport): (text: string)
    ensures |text| == |a.city| + 1 + |a.name|
    ensures text[..|a.city|] == a.city && text[|a.city|] == ' ' && text[|a.city| + 1..] == a.name
  {
    a.city + " " + a.name
  }

  /** Builds the response for one flight row, looking up both airports
      (origin first); a failed lookup fails the whole request. */
  function ToFlight(cat: Catalogue, row: FlightRow): (r: Result<Flight, int>)
    ensures r.Ok? <==> GetAirportById(cat, row.fromAirportId).Ok? && GetAirportById(cat, row.toAirportId).Ok?
    ensures r.Ok? ==> r.value == Flight(row.id, row.flightNumber, row.datetime,
      FormatAirport(GetAirportById(cat, row.fromAirportId).value),
      FormatAirport(GetAirportById(cat, row.toAirportId).value), row.price)
    ensures r.Err? && GetAirportById(cat, row.fromAirportId).Err? ==> r.error == GetAirportById(cat, row.fromAirportId).error
    ensures r.Err? && GetAirportById(cat, row.fromAirportId).Ok? ==> r.error == GetAirportById(cat, row.toAirportId).error
  {
    match GetAirportById(cat, row.fromAirportId)
    case Err(e) => Err(e)
    case Ok(from) =>
      match GetAirportById(cat, row.toAirportId)
      case Err(e) => Err(e)
      case Ok(to) => Ok(Flight(row.id, row.flightNumber, row.datetime, FormatAirport(from), FormatAirport(to), row.price))
  }

  // ----- latest flight by number -----

  /** A flight with the number whose departure is latest among those with the
      number; among equal departures the first in table order is taken. */
  function Latest(flights: seq<FlightRow>, number: string): Option<FlightRow> {
    if flights == [] then None
    else
      var rest := Latest(flights[1..], number);
      if flights[0].flightNumber != number then rest
      else if rest.Some? && rest.value.datetime > flights[0].datetime then rest
      else Some(flights[0])
  }

  /** `ORDER BY datetime DESC LIMIT 1`: a row is found exactly when some flight
      has the number, and no flight with the number departs later. */
  lemma {:induction false} LatestIsLatest(flights: seq<FlightRow>, number: string)
    ensures Latest(flights, number).Some? <==> exists f :: f in flights && f.flightNumber == number
    ensures Latest(flights, number).Some? ==>
      && Latest(flights, number).value in flights
      && Latest(flights, number).value.flightNumber == number
      && forall f :: f in flights && f.flightNumber == number ==> f.datetime <= Latest(flights, number).value.datetime
  {
    if flights != [] {
      LatestIsLatest(flights[1..], number);
      assert flights == [flights[0]] + flights[1..];
      forall f | f in flights && f != flights[0] ensures f in flights[1..] {
      }
    }
  }

  /** `GET /flight/{flightNumber}`: 404 when no flight has the number,
      otherwise the latest one with its airports formatted. */
  function GetFlightByNumber(cat: Catalogue, number: string): (r: Result<Flight, int>)
    ensures (forall f :: f in cat.flights ==> f.flightNumber != number) ==> r == Err(404)
    ensures (exists f :: f in cat.flights && f.flightNumber == number) ==>
      exists f :: (f in cat.flights && f.flightNumber == number
        && (forall g :: g in cat.flights && g.flightNumber == number ==> g.datetime <= f.datetime)
        && r == ToFlight(cat, f))
  {
    LatestIsLatest(cat.flights, number);
    match Latest(cat.flights, number)
    case None => Err(404)
    case Some(row) => ToFlight(cat, row)
  }

  // ----- listings -----

  /** `GET /flights`: the page of flights in id order, each with its airports
      formatted; `page`/`pageSize` echo the effective values and
      `totalElements` counts the items of this page only. */
  method GetAllFlights(cat: Catalogue, page: Option<int>, size: Option<int>) returns (r: Result<PagedResponse<Flight>, int>)
    ensures
      var s := EffectiveSize(size);
      var p := EffectivePage(page);
      var w := Window(cat.flights, p * s, s);
      && (w.Err? ==> r == Err(500))
      && (w.Ok? && (forall k :: 0 <= k < |w.value| ==> ToFlight(cat, w.value[k]).Ok?) ==>
            && r.Ok?
            && r.value.page == p && r.value.pageSize == s
            && r.value.totalElements == |r.value.items| == |w.value|
            && forall k :: 0 <= k < |w.value| ==> r.value.items[k] == ToFlight(cat, w.value[k]).value)
      && (w.Ok? && (exists k :: 0 <= k < |w.value| && ToFlight(cat, w.value[k]).Err?) ==> r.Err?)
      && (w.Ok? ==> forall k ::
            (0 <= k < |w.value| && ToFlight(cat, w.value[k]).Err? && forall j :: 0 <= j < k ==> ToFlight(cat, w.value[j]).Ok?)
            ==> r == Err(ToFlight(cat, w.value[k]).error))
  {
    var s := EffectiveSize(size);
    var p := EffectivePage(page);
    var offset := p * s;
    var w := Window(cat.flights, offset, s);
    if w.Err? {
      return Err(500);
    }
    var raws := w.value;
    var ret: seq<Flight> := [];
    var i := 0;
    while i < |raws|
      invariant 0 <= i <= |raws|
      invariant |ret| == i
      invariant forall k :: 0 <= k < i ==> ToFlight(cat, raws[k]).Ok? && ret[k] == ToFlight(cat, raws[k]).value
    {
      var f := ToFlight(cat, raws[i]);
      if f.Err? {
        return Err(f.error);
      }
      ret := ret + [f.value];
      i := i + 1;
    }
    return Ok(PagedResponse(p, s, |ret|, ret));
  }

  /** `GET /airports`: the page of airports in id order; a NULL text column
      fails the response model (500). */
  method GetAllAirports(cat: Catalogue, page: Option<int>, size: Option<int>) returns (r: Result<seq<Airport>, int>)
    ensures
      var s := EffectiveSize(size);
      var w := Window(cat.airports, EffectivePage(page) * s, s);
      && (w.Err? ==> r == Err(500))
      && (w.Ok? ==>
            && (r.Ok? <==> forall k :: 0 <= k < |w.value| ==> w.value[k].name.Some? && w.value[k].city.Some? && w.value[k].country.Some?)
            && (r.Err? ==> r.error == 500)
            && (r.Ok? ==> |r.value| == |w.value| && forall k :: 0 <= k < |w.value| ==>
                  r.value[k] == Airport(w.value[k].id, w.value[k].name.value, w.value[k].city.value, w.value[k].country.value)))
  {
    var s := EffectiveSize(size);
    var w := Window(cat.airports, EffectivePage(page) * s, s);
    if w.Err? {
      return Err(500);
    }
    var rows := w.value;
    var ret: seq<Airport> := [];
    var i := 0;
    while i < |rows|
      invariant 0 <= i <= |rows|
      invariant |ret| == i
      invariant forall k :: 0 <= k < i ==> rows[k].name.Some? && rows[k].city.Some? && rows[k].country.Some?
      invariant forall k :: 0 <= k < i ==> ret[k] == Airport(rows[k].id, rows[k].name.value, rows[k].city.value, rows[k].country.value)
    {
      var row := rows[i];
      if row.name.None? || row.city.None? || row.country.None? {
        return Err(500);
      }
      ret := ret + [Airport(row.id, row.name.value, row.city.value, row.country.value)];
      i := i + 1;
    }
    return Ok(ret);
  }
}
