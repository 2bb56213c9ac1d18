/**
 * The public JSON API (app/routes/api.py): the availability query, creating,
 * updating and cancelling a reservation, and the Chatwoot webhook that answers
 * an incoming chat message with the booking assistant's reply.
 *
 * A request body is the parsed JSON value, `None` when the request carries no
 * JSON. The booking assistant and `json.loads` are parameters. The call to
 * Chatwoot's messages endpoint is described by the request it would make and
 * the status code it got back. A restaurant's Chatwoot settings are a
 * `Channel` record: the `webhook_token` and `chatwoot_*` columns are added to
 * the restaurants table by a migration script, not declared in models.py.
 *
 * Every handler that ends in an error leaves the database as it was: nothing
 * is committed on those paths.
 */
module Api {
  import opened Wrappers
  import opened Text
  import opened Calendar
  import opened DateTimeUtils
  import opened Models
  import FallbackAssistant
  import Admin

  /** A JSON value as Python's `json` module decodes it. */
  datatype Json =
    | JNull
    | JBool(b: bool)
    | JInt(i: int)
    | JReal(r: real)
    | JStr(s: string)
    | JArr(items: seq<Json>)
    | JObj(fields: map<string, Json>)

  /** Python truthiness of a decoded value. */
  predicate Truthy(j: Json)
  {
    match j
    case JNull => false
    case JBool(b) => b
    case JInt(i) => i != 0
    case JReal(r) => r != 0.0
    case JStr(s) => s != ""
    case JArr(a) => a != []
    case JObj(m) => m != map[]
  }

  /** `d.get(key, default)` on a dict. */
  function Get(m: map<string, Json>, key: string, default: Json): Json
  {
    if key in m then m[key] else default
  }

  /** A text column or query parameter that is set and non-empty. */
  predicate Filled(s: Option<string>) { s.Some? && s.value != "" }

  // ---------------------------------------------------------------------------
  // GET /restaurants/<id>/availability

  datatype AvailabilityReply =
    | RestaurantNotFound              // 404
    | MissingParameters               // 400
    | InvalidFormat                   // 400
    | Available(tables: seq<Table>)

  predicate Known(rs: seq<Restaurant>, id: int)
    reads set r | r in rs
  {
    exists i :: 0 <= i < |rs| && rs[i].id == id
  }

  /** `request.args.get('party_size', type=int)`: `None` when missing or not an integer. */
  function PartyArg(raw: Option<string>): (p: Option<int>)
    ensures raw.None? ==> p.None?
    ensures p.Some? ==> raw.Some? && ParseInt(raw.value) == p
  {
    if raw.None? then None else ParseInt(raw.value)
  }

  /** What `all([date_str, time_str, party_size])` accepts: both texts non-empty and a
      party size other than zero. */
  predicate ParametersGiven(date: Option<string>, time: Option<string>, party: Option<string>)
  {
    Filled(date) && Filled(time) && PartyArg(party).Some? && PartyArg(party).value != 0
  }

  /** The availability query. The restaurant must exist; the three parameters must be
      given and parse with `%Y-%m-%d` and `%H:%M`. The reply lists, in store order, the
      restaurant's active tables seating the party that no pending or confirmed
      reservation holds on that date at exactly that time. */
  method CheckAvailability(db: Database, restaurantId: int, date: Option<string>, time: Option<string>,
                           party: Option<string>) returns (reply: AvailabilityReply)
    ensures reply.RestaurantNotFound? <==> !Known(db.restaurants, restaurantId)
    ensures reply.MissingParameters? <==> Known(db.restaurants, restaurantId) && !ParametersGiven(date, time, party)
    ensures reply.InvalidFormat? <==>
      Known(db.restaurants, restaurantId) && ParametersGiven(date, time, party)
      && (Strptime(date.value, IsoDate).None? || StrptimeTime(time.value).None?)
    ensures reply.Available? ==>
      ParametersGiven(date, time, party)
      && Strptime(date.value, IsoDate).Some? && StrptimeTime(time.value).Some?
      && var d, t, p := Strptime(date.value, IsoDate).value, StrptimeTime(time.value).value, PartyArg(party).value;
         reply.tables == FallbackAssistant.FreeTables(FallbackAssistant.Candidates(db.tables, restaurantId, p), db.reservations, d, t)
         && forall x :: x in reply.tables <==>
              x in db.tables && FallbackAssistant.Eligible(x, restaurantId, p)
              && !FallbackAssistant.Taken(db.reservations, x.id, d, t)
  {
    var k := Admin.FindRestaurantById(db.restaurants, restaurantId);
    if k.None? {
      return RestaurantNotFound;
    }
    var p := PartyArg(party);
    if !Filled(date) || !Filled(time) || p.None? || p.value == 0 {
      return MissingParameters;
    }
    var d := Strptime(date.value, IsoDate);
    var t := StrptimeTime(time.value);
    if d.None? || t.None? {
      return InvalidFormat;
    }
    var suitable := FallbackAssistant.Candidates(db.tables, restaurantId, p.value);
    var free := FallbackAssistant.FreeAmong(db, suitable, d.value, t.value);
    return Available(free);
  }

  // ---------------------------------------------------------------------------
  // POST /reservations

  const RequiredFields: seq<string> :=
    ["restaurant_id", "customer_name", "customer_phone", "party_size", "reservation_date", "reservation_time"]

  const DefaultDuration := 90
  const DefaultApiSource := "api"
  /** The `source` column's own default, which a `null` source falls back to. */
  const ColumnDefaultSource := "web"
  const DefaultStatus := "pending"
  const CancelledStatus := "cancelled"

  /** Python's `key in body`: `None` when the body's type has no `in` for a string
      (a `TypeError`). A list holds the key as an element, a string as a substring. */
  function Member(body: Json, key: string): Option<bool>
  {
    match body
    case JObj(m) => Some(key in m)
    case JArr(a) => Some(JStr(key) in a)
    case JStr(s) => Some(Contains(s, key))
    case _ => None
  }

  datatype Scan = AllPresent | Missing(field: string) | ScanRaises

  /** The `for field in required_fields` check: the first field the body lacks. */
  function FirstMissing(fields: seq<string>, body: Json): (r: Scan)
    ensures r.AllPresent? <==> forall i :: 0 <= i < |fields| ==> Member(body, fields[i]) == Some(true)
    ensures r.ScanRaises? <==> fields != [] && Member(body, fields[0]).None?
    ensures r.Missing? ==>
      exists i :: 0 <= i < |fields| && fields[i] == r.field && Member(body, fields[i]) == Some(false)
                  && forall j :: 0 <= j < i ==> Member(body, fields[j]) == Some(true)
  {
    if fields == [] then AllPresent
    else match Member(body, fields[0])
      case None => ScanRaises
      case Some(false) => Missing(fields[0])
      case Some(true) =>
        var rest := FirstMissing(fields[1..], body);
        assert forall i :: 1 <= i < |fields| ==> fields[i] == fields[1..][i - 1];
        if rest.Missing? then
          var i :| 0 <= i < |fields[1..]| && fields[1..][i] == rest.field && Member(body, fields[1..][i]) == Some(false)
                   && forall j :: 0 <= j < i ==> Member(body, fields[1..][j]) == Some(true);
          assert fields[i + 1] == rest.field && forall j :: 0 <= j < i + 1 ==> Member(body, fields[j]) == Some(true);
          rest
        else rest
  }

  /** A value bound to an integer column: `None` when it cannot be stored, `Some(None)`
      for `null`. */
  function IntColumn(j: Json): Option<Option<int>>
  {
    match j
    case JNull => Some(None)
    case JInt(i) => Some(Some(i))
    case _ => None
  }

  /** A value bound to a text column, as `IntColumn`. */
  function TextColumn(j: Json): Option<Option<string>>
  {
    match j
    case JNull => Some(None)
    case JStr(s) => Some(Some(s))
    case _ => None
  }

  /** `datetime.strptime(v, '%Y-%m-%d').date()`; a non-string raises as well. */
  function DateValue(j: Json): Option<Date>
  {
    if j.JStr? then Strptime(j.s, IsoDate) else None
  }

  /** `datetime.strptime(v, '%H:%M').time()`. */
  function TimeValue(j: Json): Option<Time>
  {
    if j.JStr? then StrptimeTime(j.s) else None
  }

  /** `data.get('duration_minutes', 90)` as the insert sees it. */
  function DurationColumn(m: map<string, Json>): Option<Option<int>>
  {
    if "duration_minutes" in m then IntColumn(m["duration_minutes"]) else Some(Some(DefaultDuration))
  }

  /** `data.get('source', 'api')` as the insert sees it. */
  function SourceColumn(m: map<string, Json>): Option<Option<string>>
  {
    if "source" in m then TextColumn(m["source"]) else Some(Some(DefaultApiSource))
  }

  /** The `Reservation(...)` call once every value has been read; `None` when one of them
      raised or cannot be stored. A `null` duration or source is left out of the insert,
      so the column default applies to it. */
  function Assemble(restaurant: Json, table: Option<Option<int>>, name: Option<Option<string>>,
                    email: Option<Option<string>>, phone: Option<Option<string>>, party: Option<Option<int>>,
                    date: Option<Date>, time: Option<Time>, duration: Option<Option<int>>,
                    requests: Option<Option<string>>, source: Option<Option<string>>): Option<NewReservation>
  {
    if restaurant.JInt? && table.Some? && name.Some? && email.Some? && phone.Some? && party.Some?
       && date.Some? && time.Some? && duration.Some? && requests.Some? && source.Some?
    then
      Some(NewReservation(restaurant.i, table.value, name.value, email.value, phone.value, party.value,
                          Some(date.value), Some(time.value),
                          if duration.value.Some? then duration.value.value else DefaultDuration,
                          DefaultStatus, requests.value,
                          if source.value.Some? then source.value.value else ColumnDefaultSource))
    else None
  }

  /** The reservation `create_reservation` builds from the body's fields, or `None` when
      building it raises. */
  function Requested(m: map<string, Json>): (n: Option<NewReservation>)
    ensures n.Some? ==> n.value.status == DefaultStatus
    ensures n.Some? ==> n.value.date.Some? && n.value.time.Some? && ValidTime(n.value.time.value)
    ensures n.Some? && "duration_minutes" !in m ==> n.value.durationMinutes == DefaultDuration
    ensures n.Some? && "source" !in m ==> n.value.source == DefaultApiSource
    ensures n.Some? && Get(m, "source", JStr("")) == JNull ==> n.value.source == ColumnDefaultSource
    ensures n.Some? && "table_id" !in m ==> n.value.tableId.None?
    ensures n.Some? && "customer_email" !in m ==> n.value.customerEmail.None?
    ensures n.Some? && "special_requests" !in m ==> n.value.specialRequests.None?
  {
    Assemble(Get(m, "restaurant_id", JNull), IntColumn(Get(m, "table_id", JNull)),
             TextColumn(Get(m, "customer_name", JNull)), TextColumn(Get(m, "customer_email", JNull)),
             TextColumn(Get(m, "customer_phone", JNull)), IntColumn(Get(m, "party_size", JNull)),
             DateValue(Get(m, "reservation_date", JNull)), TimeValue(Get(m, "reservation_time", JNull)),
             DurationColumn(m), TextColumn(Get(m, "special_requests", JNull)), SourceColumn(m))
  }

  /** The row `create_reservation` stores when the next id is `id`, if any. */
  function StoredRow(body: Option<Json>, id: int): (r: Option<Reservation>)
    ensures r.Some? ==> body.Some? && body.value.JObj?
                        && forall f :: f in RequiredFields ==> f in body.value.fields
    ensures r.Some? ==> r.value.id == id && r.value.status == DefaultStatus && !r.value.isTrialBooking
    ensures r.Some? ==> r.value.date.Some? && r.value.time.Some?
  {
    if body.None? || !body.value.JObj? || !FirstMissing(RequiredFields, body.value).AllPresent? then None
    else
      assert forall f :: f in RequiredFields ==> exists i :: 0 <= i < |RequiredFields| && RequiredFields[i] == f;
      match Requested(body.value.fields)
      case None => None
      case Some(n) => Insertable(n, id)
  }

  datatype CreateReply =
    | NoJsonBody                      // the request carries no JSON
    | MissingField(field: string)     // 400
    | CreateFailed                    // 500, rolled back
    | Created(reservationId: int)     // 201

  function CreateOutcome(body: Option<Json>, id: int): (r: CreateReply)
    ensures r.Created? <==> StoredRow(body, id).Some?
    ensures r.Created? ==> r.reservationId == id
  {
    if body.None? then NoJsonBody
    else match FirstMissing(RequiredFields, body.value)
      case Missing(f) => MissingField(f)
      case ScanRaises => CreateFailed
      case AllPresent => if StoredRow(body, id).Some? then Created(id) else CreateFailed
  }

  /** POST /reservations: on success the new row is appended under the next id. */
  method CreateReservation(db: Database, body: Option<Json>) returns (reply: CreateReply)
    requires db.Valid()
    modifies db`reservations, db`nextReservationId
    ensures db.Valid()
    ensures reply == CreateOutcome(body, old(db.nextReservationId))
    ensures StoredRow(body, old(db.nextReservationId)).Some? ==>
      db.reservations == old(db.reservations) + [StoredRow(body, old(db.nextReservationId)).value]
      && db.nextReservationId == old(db.nextReservationId) + 1
    ensures StoredRow(body, old(db.nextReservationId)).None? ==>
      db.reservations == old(db.reservations) && db.nextReservationId == old(db.nextReservationId)
  {
    if body.None? {
      return NoJsonBody;
    }
    var data := body.value;
    var i := 0;
    while i < |RequiredFields|
      invariant 0 <= i <= |RequiredFields|
      invariant forall j :: 0 <= j < i ==> Member(data, RequiredFields[j]) == Some(true)
    {
      var present := Member(data, RequiredFields[i]);
      if present.None? {
        return CreateFailed;
      }
      if !present.value {
        return MissingField(RequiredFields[i]);
      }
      i := i + 1;
    }
    if !data.JObj? {
      return CreateFailed;
    }
    var n := Requested(data.fields);
    if n.None? {
      return CreateFailed;
    }
    var row := db.AddReservation(n.value);
    if row.None? {
      return CreateFailed;
    }
    return Created(row.value.id);
  }

  function OptText(s: Option<string>): Json
  {
    if s.Some? then JStr(s.value) else JNull
  }

  function OptInt(i: Option<int>): Json
  {
    if i.Some? then JInt(i.value) else JNull
  }

  /** The reservation a body carrying the fields of `r` asks for. */
  function RequestOf(r: Reservation): NewReservation
  {
    NewReservation(r.restaurantId, r.tableId, Some(r.customerName), r.customerEmail, Some(r.customerPhone),
                   Some(r.partySize), r.date, r.time, r.durationMinutes, DefaultStatus, r.specialRequests, r.source)
  }

  /** The body fields a client posts for reservation `r`, every value in the API's own
      format: the date as `YYYY-MM-DD`, the time as `HH:MM`. */
  predicate Carries(m: map<string, Json>, r: Reservation)
    requires r.date.Some? && InRange(r.date.value) && r.time.Some? && ValidTime(r.time.value)
  {
    "restaurant_id" in m && m["restaurant_id"] == JInt(r.restaurantId)
    && "table_id" in m && m["table_id"] == OptInt(r.tableId)
    && "customer_name" in m && m["customer_name"] == JStr(r.customerName)
    && "customer_email" in m && m["customer_email"] == OptText(r.customerEmail)
    && "customer_phone" in m && m["customer_phone"] == JStr(r.customerPhone)
    && "party_size" in m && m["party_size"] == JInt(r.partySize)
    && "reservation_date" in m && m["reservation_date"] == JStr(IsoFormat(r.date.value))
    && "reservation_time" in m && m["reservation_time"] == JStr(FormatTime24h(r.time.value.hour, r.time.value.minute))
    && "duration_minutes" in m && m["duration_minutes"] == JInt(r.durationMinutes)
    && "special_requests" in m && m["special_requests"] == OptText(r.specialRequests)
    && "source" in m && m["source"] == JStr(r.source)
  }

  /** `Carries` once the date and time have been parsed. */
  predicate CarriesParsed(m: map<string, Json>, r: Reservation)
  {
    Get(m, "restaurant_id", JNull) == JInt(r.restaurantId)
    && IntColumn(Get(m, "table_id", JNull)) == Some(r.tableId)
    && TextColumn(Get(m, "customer_name", JNull)) == Some(Some(r.customerName))
    && TextColumn(Get(m, "customer_email", JNull)) == Some(r.customerEmail)
    && TextColumn(Get(m, "customer_phone", JNull)) == Some(Some(r.customerPhone))
    && IntColumn(Get(m, "party_size", JNull)) == Some(Some(r.partySize))
    && DateValue(Get(m, "reservation_date", JNull)) == r.date
    && TimeValue(Get(m, "reservation_time", JNull)) == r.time
    && DurationColumn(m) == Some(Some(r.durationMinutes))
    && TextColumn(Get(m, "special_requests", JNull)) == Some(r.specialRequests)
    && SourceColumn(m) == Some(Some(r.source))
  }

  lemma ParsedRequest(m: map<string, Json>, r: Reservation)
    requires r.date.Some? && r.time.Some?
    requires CarriesParsed(m, r)
    ensures Requested(m) == Some(RequestOf(r))
  {
  }

  lemma CarriedFieldsParse(m: map<string, Json>, r: Reservation)
    requires r.date.Some? && InRange(r.date.value) && r.time.Some? && ValidTime(r.time.value)
    requires Carries(m, r)
    ensures CarriesParsed(m, r)
  {
    assert Get(m, "restaurant_id", JNull) == JInt(r.restaurantId);
    assert IntColumn(Get(m, "table_id", JNull)) == Some(r.tableId);
    assert TextColumn(Get(m, "customer_name", JNull)) == Some(Some(r.customerName));
    assert TextColumn(Get(m, "customer_email", JNull)) == Some(r.customerEmail);
    assert TextColumn(Get(m, "customer_phone", JNull)) == Some(Some(r.customerPhone));
    assert IntColumn(Get(m, "party_size", JNull)) == Some(Some(r.partySize));
    assert DurationColumn(m) == Some(Some(r.durationMinutes));
    assert TextColumn(Get(m, "special_requests", JNull)) == Some(r.specialRequests);
    assert SourceColumn(m) == Some(Some(r.source));
    IsoRoundTrip(r.date.value);
    assert DateValue(Get(m, "reservation_date", JNull)) == r.date;
    HourMinuteRoundTrip(r.time.value.hour, r.time.value.minute);
    assert TimeValue(Get(m, "reservation_time", JNull)) == r.time;
  }

  lemma CarriedFieldsPresent(m: map<string, Json>, r: Reservation)
    requires r.date.Some? && InRange(r.date.value) && r.time.Some? && ValidTime(r.time.value)
    requires Carries(m, r)
    ensures FirstMissing(RequiredFields, JObj(m)).AllPresent?
  {
    assert forall i :: 0 <= i < |RequiredFields| ==> RequiredFields[i] in m;
  }

  /** Posting the fields of a pending reservation in the API's own format stores that
      reservation again under the next id: what the endpoint reads back is what the
      client wrote. */
  lemma CreationRoundTrip(m: map<string, Json>, r: Reservation, id: int)
    requires r.date.Some? && InRange(r.date.value) && r.time.Some? && ValidTime(r.time.value)
    requires r.status == DefaultStatus && !r.isTrialBooking
    requires Carries(m, r)
    ensures CreateOutcome(Some(JObj(m)), id) == Created(id)
    ensures StoredRow(Some(JObj(m)), id) == Some(r.(id := id))
  {
    CarriedFieldsPresent(m, r);
    CarriedFieldsParse(m, r);
    ParsedRequest(m, r);
    InsertedAsRequested(r, id);
    assert StoredRow(Some(JObj(m)), id) == Insertable(RequestOf(r), id);
  }

  lemma InsertedAsRequested(r: Reservation, id: int)
    requires r.date.Some? && r.time.Some? && r.status == DefaultStatus && !r.isTrialBooking
    ensures Insertable(RequestOf(r), id) == Some(r.(id := id))
  {
  }

  // ---------------------------------------------------------------------------
  // PUT and DELETE /reservations/<id>

  /** `data[key]` after `key in data`: `None` when either raises, `Some(None)` when the
      key is absent. */
  function Assigned(body: Json, key: string): (a: Option<Option<Json>>)
    ensures a == Some(None) <==> Member(body, key) == Some(false)
    ensures a.Some? && a.value.Some? ==> body.JObj? && key in body.fields && a.value.value == body.fields[key]
  {
    match Member(body, key)
    case None => None
    case Some(false) => Some(None)
    case Some(true) => if body.JObj? then Some(Some(body.fields[key])) else None
  }

  /** The reservation after `update_reservation` sets the status, table and special
      requests the body names, or `None` when the update raises or cannot be stored. */
  function Amend(r: Reservation, body: Json): (a: Option<Reservation>)
    ensures a.Some? ==>
      a.value.id == r.id && a.value.restaurantId == r.restaurantId && a.value.customerName == r.customerName
      && a.value.customerEmail == r.customerEmail && a.value.customerPhone == r.customerPhone
      && a.value.partySize == r.partySize && a.value.date == r.date && a.value.time == r.time
      && a.value.durationMinutes == r.durationMinutes && a.value.source == r.source
      && a.value.isTrialBooking == r.isTrialBooking
    ensures a.Some? ==> body.JObj? || a.value == r
    ensures a.Some? && body.JObj? ==>
      (if "status" in body.fields then JStr(a.value.status) == body.fields["status"] else a.value.status == r.status)
      && (if "table_id" in body.fields then OptInt(a.value.tableId) == body.fields["table_id"] else a.value.tableId == r.tableId)
      && (if "special_requests" in body.fields then OptText(a.value.specialRequests) == body.fields["special_requests"]
          else a.value.specialRequests == r.specialRequests)
    ensures body.JObj? && "status" !in body.fields && "table_id" !in body.fields && "special_requests" !in body.fields
            ==> a == Some(r)
  {
    var s := Assigned(body, "status");
    var t := Assigned(body, "table_id");
    var q := Assigned(body, "special_requests");
    if s.None? || t.None? || q.None? then None
    else
      var status := if s.value.None? then Some(r.status) else if s.value.value.JStr? then Some(s.value.value.s) else None;
      var table := if t.value.None? then Some(Some(r.tableId)) else match IntColumn(t.value.value)
        case None => None
        case Some(v) => Some(Some(v));
      var requests := if q.value.None? then Some(Some(r.specialRequests)) else match TextColumn(q.value.value)
        case None => None
        case Some(v) => Some(Some(v));
      if status.None? || table.None? || requests.None? then None
      else Some(r.(status := status.value, tableId := table.value.value, specialRequests := requests.value.value))
  }

  /** Sending the same update twice changes nothing the second time. */
  lemma {:induction false} AmendIdempotent(r: Reservation, body: Json)
    requires Amend(r, body).Some?
    ensures Amend(Amend(r, body).value, body) == Amend(r, body)
  {
    var a := Amend(r, body).value;
    if body.JObj? {
      var m := body.fields;
      if "table_id" in m {
        assert IntColumn(m["table_id"]) == Some(a.tableId);
      }
      if "special_requests" in m {
        assert TextColumn(m["special_requests"]) == Some(a.specialRequests);
      }
    }
  }

  datatype UpdateReply = ReservationNotFound | UpdateFailed | Saved

  /** PUT /reservations/<id>: 404 for an unknown id; otherwise the named fields change. */
  method UpdateReservation(db: Database, id: int, body: Option<Json>) returns (reply: UpdateReply)
    requires db.Valid()
    modifies db`reservations
    ensures db.Valid()
    ensures reply == ReservationNotFound <==> FindReservation(old(db.reservations), id).None?
    ensures reply != Saved ==> db.reservations == old(db.reservations)
    ensures FindReservation(old(db.reservations), id).Some? ==>
      var k := FindReservation(old(db.reservations), id).value;
      (reply == Saved <==> body.Some? && Amend(old(db.reservations)[k], body.value).Some?)
      && (reply == Saved ==> db.reservations == old(db.reservations)[k := Amend(old(db.reservations)[k], body.value).value])
  {
    var k := FindReservation(db.reservations, id);
    if k.None? {
      return ReservationNotFound;
    }
    if body.None? {
      return UpdateFailed;
    }
    var a := Amend(db.reservations[k.value], body.value);
    if a.None? {
      return UpdateFailed;
    }
    db.SetReservation(k.value, a.value);
    return Saved;
  }

  /** DELETE /reservations/<id>: the reservation stays, with status `cancelled`. */
  method CancelReservation(db: Database, id: int) returns (found: bool)
    requires db.Valid()
    modifies db`reservations
    ensures db.Valid()
    ensures found <==> FindReservation(old(db.reservations), id).Some?
    ensures !found ==> db.reservations == old(db.reservations)
    ensures found ==>
      var k := FindReservation(old(db.reservations), id).value;
      db.reservations == old(db.reservations)[k := old(db.reservations)[k].(status := CancelledStatus)]
  {
    var k := FindReservation(db.reservations, id);
    if k.None? {
      return false;
    }
    db.SetReservation(k.value, db.reservations[k.value].(status := CancelledStatus));
    return true;
  }

  /** A cancellation only frees tables: a slot taken afterwards was taken before, and the
      cancelled reservation itself holds nothing. */
  lemma CancelReleases(rs: seq<Reservation>, k: nat, tableId: int, date: Date, time: Time)
    requires k < |rs|
    ensures !FallbackAssistant.Blocks(rs[k].(status := CancelledStatus), tableId, date, time)
    ensures FallbackAssistant.Taken(rs[k := rs[k].(status := CancelledStatus)], tableId, date, time)
            ==> FallbackAssistant.Taken(rs, tableId, date, time)
  {
    var after := rs[k := rs[k].(status := CancelledStatus)];
    if FallbackAssistant.Taken(after, tableId, date, time) {
      var i :| 0 <= i < |after| && FallbackAssistant.Blocks(after[i], tableId, date, time);
      assert i != k && after[i] == rs[i];
    }
  }

  // ---------------------------------------------------------------------------
  // POST /webhook/chatwoot/<token>

  /** A restaurant's Chatwoot settings, with the name and welcome message the
      greeting uses. */
  datatype Channel = Channel(
    restaurantId: int, name: string, webhookToken: Option<string>,
    apiKey: Option<string>, baseUrl: Option<string>, accountId: Option<string>,
    welcomeMessage: Option<string>)

  /** `Restaurant.query.filter_by(webhook_token=token).first()`. */
  function ChannelFor(channels: seq<Channel>, token: string): (k: Option<nat>)
    ensures k.Some? ==> k.value < |channels| && channels[k.value].webhookToken == Some(token)
                        && forall i :: 0 <= i < k.value ==> channels[i].webhookToken != Some(token)
    ensures k.None? ==> forall i :: 0 <= i < |channels| ==> channels[i].webhookToken != Some(token)
  {
    if channels == [] then None
    else if channels[0].webhookToken == Some(token) then Some(0)
    else
      assert forall i :: 1 <= i < |channels| ==> channels[i] == channels[1..][i - 1];
      match ChannelFor(channels[1..], token)
      case None => None
      case Some(k) => Some(k + 1)
  }

  /** `message_type in ['incoming', 0, '0']`; Python compares `False` and `0.0` equal to `0`. */
  predicate Incoming(kind: Json)
  {
    kind == JStr("incoming") || kind == JStr("0") || kind == JInt(0) || kind == JBool(false) || kind == JReal(0.0)
  }

  /** Python's `a or b`. */
  function Or(a: Json, b: Json): (r: Json)
    ensures Truthy(r) <==> Truthy(a) || Truthy(b)
  {
    if Truthy(a) then a else b
  }

  /** The conversation id `conversation.get('id') or data.get('conversation_id') or
      message.get('conversation_id')` picks: the first truthy one. */
  lemma ConversationIdFirstTruthy(a: Json, b: Json, c: Json)
    ensures var id := Or(Or(a, b), c);
      (Truthy(id) <==> Truthy(a) || Truthy(b) || Truthy(c))
      && (Truthy(a) ==> id == a)
      && (!Truthy(a) && Truthy(b) ==> id == b)
      && (!Truthy(a) && !Truthy(b) ==> id == c)
  {
  }

  /** The text sent back for the assistant's `reply`, given `parsed`, what
      `json.loads(reply)` returns (`None` when it raises). A JSON object contributes its
      `text`; a reply that is not JSON is sent whole; any other JSON value makes the
      `.get` raise an `AttributeError`, which the handler turns into a server error. */
  function TextToSend(reply: string, parsed: Option<Json>): (t: Option<Json>)
    ensures parsed.None? ==> t == Some(JStr(reply))
    ensures parsed.Some? && parsed.value.JObj? ==> t == Some(Get(parsed.value.fields, "text", JStr(reply)))
    ensures parsed.Some? && !parsed.value.JObj? ==> t.None?
  {
    match parsed
    case None => Some(JStr(reply))
    case Some(JObj(m)) => Some(Get(m, "text", JStr(reply)))
    case Some(_) => None
  }

  /** The evident intent: a reply that is not a JSON object is sent as it is. */
  function TextToSendIntended(reply: string, parsed: Option<Json>): (t: Json)
    ensures parsed.Some? && parsed.value.JObj? && "text" in parsed.value.fields ==> t == parsed.value.fields["text"]
    ensures !(parsed.Some? && parsed.value.JObj? && "text" in parsed.value.fields) ==> t == JStr(reply)
  {
    if parsed.Some? && parsed.value.JObj? then Get(parsed.value.fields, "text", JStr(reply)) else JStr(reply)
  }

  /** The intended text agrees with the code wherever the code produces one. */
  lemma TextToSendAgrees(reply: string, parsed: Option<Json>)
    ensures TextToSend(reply, parsed).Some? ==> TextToSend(reply, parsed).value == TextToSendIntended(reply, parsed)
    ensures TextToSend(reply, parsed).None? <==> parsed.Some? && !parsed.value.JObj?
  {
  }

  /** Whether `send_chatwoot_response` can log `message`: `len(message)` needs a string,
      list or dict, and `message[:100]` fails on a dict longer than 100. */
  predicate Loggable(message: Json)
  {
    match message
    case JStr(_) => true
    case JArr(_) => true
    case JObj(m) => |m| <= 100
    case _ => false
  }

  /** The handler sends a reply only when the API key and base URL are set. */
  predicate Sends(c: Channel) { Filled(c.apiKey) && Filled(c.baseUrl) }

  datatype MessageReply =
    | NotIncoming(kind: Json)
    | EmptyMessage
    | NoConversation                                      // 400
    | MessageFailed                                       // 500
    | Answered(conversationId: Json, text: Json, sent: bool)

  /** `handle_chatwoot_message`. `assistant(content, id)` is the booking assistant's reply
      to `content` in conversation `id` (`None` when both assistants raise); `parse` is
      `json.loads`. The greeting in the log and the conversation record are not modelled. */
  function HandleMessage(c: Channel, data: map<string, Json>, assistant: (string, Json) -> Option<string>,
                         parse: string -> Option<Json>): (r: MessageReply)
    ensures r.Answered? ==>
      var message := Get(data, "message", JObj(map[]));
      message.JObj? && Incoming(Get(message.fields, "message_type", JNull))
      && Truthy(Get(message.fields, "content", JStr(""))) && Truthy(r.conversationId)
      && r.sent == Sends(c) && (r.sent ==> Loggable(r.text))
    ensures r.NotIncoming? ==> !Incoming(r.kind)
  {
    var message := Get(data, "message", JObj(map[]));
    var conversation := Get(data, "conversation", JObj(map[]));
    if !message.JObj? then MessageFailed
    else
      var kind := Get(message.fields, "message_type", JNull);
      if !Incoming(kind) then NotIncoming(kind)
      else
        var content := Get(message.fields, "content", JStr(""));
        if !Truthy(content) then EmptyMessage
        else if !conversation.JObj? then MessageFailed
        else
          var id := Or(Or(Get(conversation.fields, "id", JNull), Get(data, "conversation_id", JNull)),
                       Get(message.fields, "conversation_id", JNull));
          if !Truthy(id) then NoConversation
          else
            var sender := Or(Get(message.fields, "sender", JObj(map[])), Get(data, "sender", JObj(map[])));
            if !sender.JObj? || !content.JStr? then MessageFailed
            else match assistant(content.s, id)
              case None => MessageFailed
              case Some(reply) =>
                match TextToSend(reply, parse(reply))
                case None => MessageFailed
                case Some(text) =>
                  if Sends(c) && !Loggable(text) then MessageFailed
                  else Answered(id, text, Sends(c))
  }

  /** An assistant reply that happens to be valid JSON but not an object (a bare number
      such as `42`) makes the handler fail instead of sending it. */
  lemma NumericReplyFails(c: Channel)
    ensures var data := map[
        "message" := JObj(map["message_type" := JStr("incoming"), "content" := JStr("How many seats?")]),
        "conversation" := JObj(map["id" := JInt(7)])];
      HandleMessage(c, data, (s: string, id: Json) => Some("42"),
                    (s: string) => if s == "42" then Some(JInt(42)) else None) == MessageFailed
      && TextToSendIntended("42", Some(JInt(42))) == JStr("42")
  {
    var message := JObj(map["message_type" := JStr("incoming"), "content" := JStr("How many seats?")]);
    var data := map["message" := message, "conversation" := JObj(map["id" := JInt(7)])];
    assert Get(data, "message", JObj(map[])) == message;
    assert Get(message.fields, "message_type", JNull) == JStr("incoming");
    assert Get(message.fields, "content", JStr("")) == JStr("How many seats?");
    assert Get(data, "conversation", JObj(map[])).fields["id"] == JInt(7);
    assert Get(message.fields, "sender", JObj(map[])) == JObj(map[]);
    assert Get(data, "sender", JObj(map[])) == JObj(map[]);
  }

  const WelcomeLead := "Hello! Welcome to "
  const WelcomeTail := ". How can I help you with your reservation today?"

  /** `widget_welcome_message or f"Hello! Welcome to {name}. ..."`. */
  function WelcomeText(c: Channel): (t: string)
    ensures Filled(c.welcomeMessage) ==> t == c.welcomeMessage.value
    ensures !Filled(c.welcomeMessage) ==> StartsWith(t, WelcomeLead) && Contains(t, c.name)
    ensures t != ""
  {
    if Filled(c.welcomeMessage) then c.welcomeMessage.value
    else
      var t := WelcomeLead + c.name + WelcomeTail;
      assert t[..|WelcomeLead|] == WelcomeLead;
      assert t[|WelcomeLead|..|WelcomeLead| + |c.name|] == c.name;
      ContainsAt(t, c.name, |WelcomeLead|);
      t
  }

  datatype WelcomeReply = WelcomeFailed | Welcomed(conversationId: Json, text: string, sent: bool)

  /** `handle_chatwoot_conversation_created`: greets the new conversation. */
  function HandleConversationCreated(c: Channel, data: map<string, Json>): (r: WelcomeReply)
    ensures r.WelcomeFailed? <==> !Get(data, "conversation", JObj(map[])).JObj?
    ensures r.Welcomed? ==> r.text == WelcomeText(c) && r.sent == Sends(c)
  {
    var conversation := Get(data, "conversation", JObj(map[]));
    if !conversation.JObj? then WelcomeFailed
    else Welcomed(Get(conversation.fields, "id", JNull), WelcomeText(c), Sends(c))
  }

  datatype WebhookReply =
    | InvalidToken                    // 401
    | NoData                          // 400
    | WebhookFailed                   // 500, raised outside the handlers
    | Acknowledged(event: Json)
    | MessageHandled(message: MessageReply)
    | ConversationHandled(welcome: WelcomeReply)

  /** `chatwoot_webhook`: find the restaurant by token, then dispatch on the event. */
  function Webhook(channels: seq<Channel>, token: string, body: Option<Json>,
                   assistant: (string, Json) -> Option<string>, parse: string -> Option<Json>): (r: WebhookReply)
    ensures r.InvalidToken? <==> ChannelFor(channels, token).None?
    ensures r.NoData? <==> ChannelFor(channels, token).Some? && (body.None? || !Truthy(body.value))
    ensures r.MessageHandled? ==>
      body.Some? && body.value.JObj? && Get(body.value.fields, "event", JNull) == JStr("message_created")
    ensures r.ConversationHandled? ==>
      body.Some? && body.value.JObj? && Get(body.value.fields, "event", JNull) == JStr("conversation_created")
    ensures r.Acknowledged? ==> r.event != JStr("message_created") && r.event != JStr("conversation_created")
  {
    match ChannelFor(channels, token)
    case None => InvalidToken
    case Some(k) =>
      if body.None? || !Truthy(body.value) then NoData
      else if !body.value.JObj? then WebhookFailed
      else
        var data := body.value.fields;
        var event := Get(data, "event", JNull);
        if event == JStr("message_created") then MessageHandled(HandleMessage(channels[k], data, assistant, parse))
        else if event == JStr("conversation_created") then ConversationHandled(HandleConversationCreated(channels[k], data))
        else Acknowledged(event)
  }

  /** `chatwoot_webhook` as written. `Restaurant` (app/models/models.py:229-262) maps no
      `webhook_token` attribute: the column is only added to the table by a migration.
      So `Restaurant.query.filter_by(webhook_token=...)` raises before anything else,
      outside any handler, and every request answers 500. */
  function WebhookAsWritten(channels: seq<Channel>, token: string, body: Option<Json>,
                            assistant: (string, Json) -> Option<string>, parse: string -> Option<Json>): WebhookReply
  {
    WebhookFailed
  }

  /** As written the webhook agrees with `Webhook`, the model with the channel columns
      mapped, only where that model fails too: a known token with a truthy body that is
      not a JSON object. Every invalid token, empty body and dispatched event differs. */
  lemma WebhookAsWrittenDiffers(channels: seq<Channel>, token: string, body: Option<Json>,
                                assistant: (string, Json) -> Option<string>, parse: string -> Option<Json>)
    ensures WebhookAsWritten(channels, token, body, assistant, parse).WebhookFailed?
    ensures WebhookAsWritten(channels, token, body, assistant, parse) == Webhook(channels, token, body, assistant, parse)
            <==> ChannelFor(channels, token).Some? && body.Some? && Truthy(body.value) && !body.value.JObj?
  {
  }

  const MessagesPath := "/messages"

  /** `f"{base_url.rstrip('/')}/api/v1/accounts/{account}/conversations/{conversation}/messages"`. */
  function MessagesUrl(baseUrl: string, accountId: string, conversation: string): (url: string)
    ensures StartsWith(url, RStripChar(baseUrl, '/'))
    ensures EndsWith(url, MessagesPath)
  {
    var base := RStripChar(baseUrl, '/');
    var url := base + "/api/v1/accounts/" + accountId + "/conversations/" + conversation + MessagesPath;
    assert url[..|base|] == base;
    assert url[|url| - |MessagesPath|..] == MessagesPath;
    url
  }

  /** A base URL configured with or without a trailing slash gives the same endpoint. */
  lemma {:induction false} TrailingSlashIgnored(baseUrl: string, accountId: string, conversation: string)
    ensures MessagesUrl(baseUrl + "/", accountId, conversation) == MessagesUrl(baseUrl, accountId, conversation)
  {
    var s := baseUrl + "/";
    assert s[..|s| - 1] == baseUrl;
    assert RStripChar(s, '/') == RStripChar(baseUrl, '/');
  }

  /** The POST `send_chatwoot_response` makes: the endpoint, the `api_access_token`
      header and the outgoing message's content. */
  datatype ChatwootPost = ChatwootPost(url: string, apiKey: string, content: Json)

  /** The request to make, or `None` when the key, base URL or account id is missing.
      `conversation` is the conversation id as the f-string prints it. */
  function PostFor(c: Channel, conversation: string, message: Json): (p: Option<ChatwootPost>)
    ensures p.Some? <==> Filled(c.apiKey) && Filled(c.baseUrl) && Filled(c.accountId)
    ensures p.Some? ==> p.value.apiKey == c.apiKey.value && p.value.content == message
                        && EndsWith(p.value.url, MessagesPath)
  {
    if Filled(c.apiKey) && Filled(c.baseUrl) && Filled(c.accountId) then
      Some(ChatwootPost(MessagesUrl(c.baseUrl.value, c.accountId.value, conversation), c.apiKey.value, message))
    else None
  }

  /** `send_chatwoot_response`'s result, given the status code of the POST (`None` when
      the request raised): delivered exactly when it was made and answered 200 or 201. */
  function SendChatwootResponse(c: Channel, conversation: string, message: Json, status: Option<int>): (ok: bool)
    ensures ok <==> PostFor(c, conversation, message).Some? && status.Some? && (status.value == 200 || status.value == 201)
  {
    PostFor(c, conversation, message).Some? && status.Some? && status.value in [200, 201]
  }
}
