/**
 * The button-driven booking assistant (app/services/ai_assistant_fallback.py):
 * the date and guest-count buttons it offers, the table search behind
 * `check_availability` and `make_reservation`, staff follow-up requests for
 * large parties, the tool dispatcher, and how `chat_sync` picks the buttons to
 * show from the tool results of a conversation turn.
 *
 * The language model is not modelled: the tool calls it makes and its final
 * text are inputs. The restaurant's current date and time are parameters.
 *
 * Table search takes the active tables of the restaurant with enough seats,
 * smallest first, and skips a table when a pending or confirmed reservation
 * holds it on the same date at exactly the same start time; nothing else
 * (overlapping sittings, durations) is checked.
 */
module FallbackAssistant {
  import opened Wrappers
  import opened Text
  import opened Calendar
  import opened DateTimeUtils
  import opened Models

  datatype Button = Button(value: string, display: string)

  // ---------------------------------------------------------------------------
  // Date and guest buttons

  const DayNames: seq<string> := ["Monday", "Tuesday", "Wednesday", "Thursday", "Friday", "Saturday", "Sunday"]
  const MonthShortNames: seq<string> := ["Jan", "Feb", "Mar", "Apr", "May", "Jun",
                                         "Jul", "Aug", "Sep", "Oct", "Nov", "Dec"]

  /** `strftime('%A')`. */
  function DayName(d: Date): string
    requires Valid(d)
  {
    DayNames[Weekday(d)]
  }

  /** The label of the `i`-th date button: today and tomorrow by name, then `%A, %b %d`. */
  function DateLabel(d: Date, i: nat): string
    requires Valid(d)
  {
    if i == 0 then "Today (" + DayName(d) + ")"
    else if i == 1 then "Tomorrow (" + DayName(d) + ")"
    else DayName(d) + ", " + MonthShortNames[d.month - 1] + " " + Pad2(d.day)
  }

  /** The `i`-th date offered, `i` days after `today`. */
  function DateButton(today: Date, i: nat): Button
    requires InRange(today) && i <= 4 && AddDays(today, 4).year <= 9999
  {
    AddDaysBetween(today, i, 4);
    var d := AddDays(today, i);
    Button(IsoFormat(d), DateLabel(d, i))
  }

  /** The five date buttons, `i` days after `today` for `i` from 0 to 4. */
  function DateButtons(today: Date): (r: seq<Button>)
    requires InRange(today) && AddDays(today, 4).year <= 9999
    ensures |r| == 5 && forall i :: 0 <= i < 5 ==> r[i] == DateButton(today, i)
  {
    seq(5, i requires 0 <= i < 5 => DateButton(today, i))
  }

  /** The five dates `_get_next_5_dates` offers. Past year 9999 Python raises
      OverflowError, which the caller reports as a tool error. */
  method NextFiveDates(today: Date) returns (dates: seq<Button>)
    requires InRange(today) && AddDays(today, 4).year <= 9999
    ensures dates == DateButtons(today)
  {
    ghost var want := DateButtons(today);
    dates := [];
    var i := 0;
    while i < 5
      invariant 0 <= i <= 5 && dates == want[..i]
    {
      var b := DayButton(today, i);
      PrefixStep(want, i);
      dates := dates + [b];
      i := i + 1;
    }
  }

  lemma PrefixStep<T>(s: seq<T>, i: nat)
    requires i < |s|
    ensures s[..i + 1] == s[..i] + [s[i]]
  {
  }

  /** One pass of the loop in `_get_next_5_dates`: the date `i` days ahead and its label. */
  method DayButton(today: Date, i: nat) returns (b: Button)
    requires InRange(today) && i <= 4 && AddDays(today, 4).year <= 9999
    ensures b == DateButton(today, i)
  {
    AddDaysBetween(today, i, 4);
    var date := AddDays(today, i);
    var display;
    if i == 0 {
      display := "Today (" + DayName(date) + ")";
    } else if i == 1 {
      display := "Tomorrow (" + DayName(date) + ")";
    } else {
      display := DayName(date) + ", " + MonthShortNames[date.month - 1] + " " + Pad2(date.day);
    }
    b := Button(IsoFormat(date), display);
  }

  /** The offered dates are consecutive days from today, each value reading back
      as its date, and the first two are labelled today and tomorrow. */
  lemma DateButtonValues(today: Date, i: nat)
    requires InRange(today) && i <= 4 && AddDays(today, 4).year <= 9999
    ensures InRange(AddDays(today, i))
    ensures Strptime(DateButton(today, i).value, IsoDate) == Some(AddDays(today, i))
    ensures Ordinal(AddDays(today, i)) == Ordinal(today) + i
    ensures Weekday(AddDays(today, i)) == (Weekday(today) + i) % 7
  {
    AddDaysBetween(today, i, 4);
    IsoRoundTrip(AddDays(today, i));
    AddDaysOrdinal(today, i);
    AddDaysWeekday(today, i);
  }

  /** The first two dates are labelled today and tomorrow. */
  lemma DateButtonLabels(today: Date, i: nat)
    requires InRange(today) && i <= 4 && AddDays(today, 4).year <= 9999
    ensures i == 0 ==> StartsWith(DateButton(today, i).display, "Today (")
    ensures i == 1 ==> StartsWith(DateButton(today, i).display, "Tomorrow (")
  {
    AddDaysBetween(today, i, 4);
    var d := AddDays(today, i);
    var shown := DateButton(today, i).display;
    assert shown == DateLabel(d, i);
    if i == 0 {
      assert shown == "Today (" + DayName(d) + ")";
      assert shown[..7] == "Today (";
    } else if i == 1 {
      assert shown == "Tomorrow (" + DayName(d) + ")";
      assert shown[..10] == "Tomorrow (";
    }
  }

  /** The button for `i` guests; "guest" is singular only for one. */
  function GuestButton(i: nat): Button
  {
    Button(NatToString(i), NatToString(i) + " " + (if i == 1 then "guest" else "guests"))
  }

  const MoreGuests := Button("more", "9+ guests (special request)")

  /** `_get_guest_buttons`: 1 to 8 guests in order, then the large-party button. */
  method GuestButtons() returns (buttons: seq<Button>)
    ensures |buttons| == 9 && buttons[8] == MoreGuests
    ensures forall i :: 0 <= i < 8 ==> buttons[i] == GuestButton(i + 1)
    ensures forall i :: 0 <= i < 8 ==> ParseInt(buttons[i].value) == Some(i + 1)
  {
    buttons := [];
    var i := 1;
    while i < 9
      invariant 1 <= i <= 9 && |buttons| == i - 1
      invariant forall j :: 0 <= j < i - 1 ==> buttons[j] == GuestButton(j + 1)
    {
      var b := Button(NatToString(i), NatToString(i) + " " + (if i == 1 then "guest" else "guests"));
      assert b == GuestButton(i);
      buttons := buttons + [b];
      i := i + 1;
    }
    buttons := buttons + [MoreGuests];
    forall i | 0 <= i < 8 ensures ParseInt(buttons[i].value) == Some(i + 1) {
      assert buttons[i].value == NatToString(i + 1);
      NatRoundTrip(i + 1);
    }
  }

  // ---------------------------------------------------------------------------
  // Table search

  /** A table that may seat the party: in this restaurant, active, big enough. */
  predicate Eligible(t: Table, rid: int, party: int)
  {
    t.restaurantId == rid && t.capacity >= party && t.isActive
  }

  /** The rows the table query filters, in store order. */
  function Candidates(tables: seq<Table>, rid: int, party: int): (r: seq<Table>)
    ensures forall t :: t in r <==> t in tables && Eligible(t, rid, party)
  {
    if tables == [] then []
    else
      var last := tables[|tables| - 1];
      Candidates(tables[..|tables| - 1], rid, party) + (if Eligible(last, rid, party) then [last] else [])
  }

  predicate ByCapacity(s: seq<Table>)
  {
    forall i, j :: 0 <= i < j < |s| ==> s[i].capacity <= s[j].capacity
  }

  function InsertByCapacity(t: Table, s: seq<Table>): (r: seq<Table>)
    ensures multiset(r) == multiset(s) + multiset{t}
  {
    if s == [] then [t]
    else if t.capacity <= s[0].capacity then [t] + s
    else
      assert s == [s[0]] + s[1..];
      [s[0]] + InsertByCapacity(t, s[1..])
  }

  /** Inserting keeps every capacity at least `c` when the new table's is. */
  lemma {:induction false} InsertByCapacityAtLeast(t: Table, s: seq<Table>, c: int)
    requires t.capacity >= c && forall i :: 0 <= i < |s| ==> s[i].capacity >= c
    ensures forall i :: 0 <= i < |InsertByCapacity(t, s)| ==> InsertByCapacity(t, s)[i].capacity >= c
  {
    if s != [] && t.capacity > s[0].capacity {
      InsertByCapacityAtLeast(t, s[1..], c);
    }
  }

  /** Inserting into a list ordered by capacity keeps it ordered. */
  lemma {:induction false} InsertByCapacitySorted(t: Table, s: seq<Table>)
    requires ByCapacity(s)
    ensures ByCapacity(InsertByCapacity(t, s))
  {
    if s != [] && t.capacity > s[0].capacity {
      var rest := InsertByCapacity(t, s[1..]);
      InsertByCapacitySorted(t, s[1..]);
      InsertByCapacityAtLeast(t, s[1..], s[0].capacity);
      var r := [s[0]] + rest;
      assert forall j :: 1 <= j < |r| ==> r[j] == rest[j - 1];
    }
  }

  /** `order_by(Table.capacity)`. SQL leaves the order of equal capacities open;
      the model fixes one. */
  function SortByCapacity(s: seq<Table>): (r: seq<Table>)
    ensures ByCapacity(r) && multiset(r) == multiset(s)
  {
    if s == [] then []
    else
      assert s == [s[0]] + s[1..];
      InsertByCapacitySorted(s[0], SortByCapacity(s[1..]));
      InsertByCapacity(s[0], SortByCapacity(s[1..]))
  }

  /** The tables the search considers, smallest first; a missing party size compares
      with NULL in SQL and selects nothing. */
  function Suitable(tables: seq<Table>, rid: int, party: Option<int>): (r: seq<Table>)
    ensures ByCapacity(r)
    ensures party.None? ==> r == []
    ensures forall t :: t in r <==> party.Some? && t in tables && Eligible(t, rid, party.value)
  {
    if party.None? then []
    else
      var r := SortByCapacity(Candidates(tables, rid, party.value));
      assert forall t :: t in r <==> t in multiset(r);
      r
  }

  /** A pending or confirmed reservation of the table at exactly this date and time. */
  predicate Blocks(r: Reservation, tableId: int, date: Date, time: Time)
  {
    r.tableId == Some(tableId) && r.date == Some(date) && r.time == Some(time) && Holding(r)
  }

  predicate Taken(rs: seq<Reservation>, tableId: int, date: Date, time: Time)
  {
    exists i :: 0 <= i < |rs| && Blocks(rs[i], tableId, date, time)
  }

  /** The reservation query's `.first()`. */
  function FirstBlocking(rs: seq<Reservation>, tableId: int, date: Date, time: Time): (k: Option<nat>)
    ensures k.Some? ==> k.value < |rs| && Blocks(rs[k.value], tableId, date, time)
    ensures k.None? <==> !Taken(rs, tableId, date, time)
  {
    if rs == [] then None
    else if Blocks(rs[0], tableId, date, time) then Some(0)
    else
      match FirstBlocking(rs[1..], tableId, date, time)
      case None =>
        assert forall i :: 1 <= i < |rs| ==> rs[i] == rs[1..][i - 1];
        None
      case Some(k) => Some(k + 1)
  }

  /** The tables of `ts` no reservation holds at that date and time, in order. */
  function FreeTables(ts: seq<Table>, rs: seq<Reservation>, date: Date, time: Time): (r: seq<Table>)
    ensures forall t :: t in r <==> t in ts && !Taken(rs, t.id, date, time)
    ensures |r| <= |ts|
  {
    if ts == [] then []
    else
      var last := ts[|ts| - 1];
      var front := FreeTables(ts[..|ts| - 1], rs, date, time);
      assert forall t :: t in front ==> t in ts[..|ts| - 1];
      front + (if Taken(rs, last.id, date, time) then [] else [last])
  }

  /** Dropping the taken tables keeps the smallest-first order. */
  lemma {:induction false} FreeTablesSorted(ts: seq<Table>, rs: seq<Reservation>, date: Date, time: Time)
    requires ByCapacity(ts)
    ensures ByCapacity(FreeTables(ts, rs, date, time))
  {
    if ts != [] {
      var front, last := ts[..|ts| - 1], ts[|ts| - 1];
      var free := FreeTables(front, rs, date, time);
      FreeTablesSorted(front, rs, date, time);
      if !Taken(rs, last.id, date, time) {
        var r := free + [last];
        forall i | 0 <= i < |free| ensures r[i].capacity <= last.capacity {
          assert r[i] == free[i] && free[i] in front;
          var k :| 0 <= k < |front| && front[k] == free[i];
          assert ts[k] == front[k];
        }
      }
    }
  }

  /** The first table of `ts` that is free: the one `_make_reservation` books. */
  lemma {:induction false} FirstFreeTable(ts: seq<Table>, rs: seq<Reservation>, date: Date, time: Time, k: nat)
    requires k < |ts| && !Taken(rs, ts[k].id, date, time)
    requires forall j :: 0 <= j < k ==> Taken(rs, ts[j].id, date, time)
    ensures FreeTables(ts, rs, date, time) != [] && FreeTables(ts, rs, date, time)[0] == ts[k]
  {
    if |ts| == k + 1 {
      assert forall j :: 0 <= j < k ==> ts[..k][j] == ts[j];
      NoFreeTable(ts[..k], rs, date, time);
      assert ts[..|ts| - 1] == ts[..k];
    } else {
      FirstFreeTable(ts[..|ts| - 1], rs, date, time, k);
    }
  }

  /** No table before `k` is free, so the free list starts after it. */
  lemma {:induction false} NoFreeTable(ts: seq<Table>, rs: seq<Reservation>, date: Date, time: Time)
    requires forall j :: 0 <= j < |ts| ==> Taken(rs, ts[j].id, date, time)
    ensures FreeTables(ts, rs, date, time) == []
  {
    if ts != [] {
      NoFreeTable(ts[..|ts| - 1], rs, date, time);
    }
  }

  /** The table search: the free tables among the suitable ones. */
  function Search(tables: seq<Table>, rs: seq<Reservation>, rid: int, party: Option<int>, date: Date, time: Time): seq<Table>
  {
    FreeTables(Suitable(tables, rid, party), rs, date, time)
  }

  /** The tables the search returns are exactly the eligible tables no reservation
      holds at that date and time, smallest first. */
  lemma SearchTables(tables: seq<Table>, rs: seq<Reservation>, rid: int, party: int, date: Date, time: Time)
    ensures ByCapacity(Search(tables, rs, rid, Some(party), date, time))
    ensures forall t :: t in Search(tables, rs, rid, Some(party), date, time) <==>
                          t in tables && Eligible(t, rid, party) && !Taken(rs, t.id, date, time)
  {
    FreeTablesSorted(Suitable(tables, rid, Some(party)), rs, date, time);
  }

  // ---------------------------------------------------------------------------
  // check_availability and make_reservation

  /** How the date and time arguments parse: `None` when one is missing (strptime
      raises TypeError), `Some(None)` when one is malformed (ValueError). The date
      is read first. */
  function Slot(dateStr: Option<string>, timeStr: Option<string>): Option<Option<(Date, Time)>>
  {
    if dateStr.None? then None
    else match Strptime(dateStr.value, IsoDate)
      case None => Some(None)
      case Some(d) =>
        if timeStr.None? then None
        else match StrptimeTime(timeStr.value)
          case None => Some(None)
          case Some(t) => Some(Some((d, t)))
  }

  datatype Availability =
    | AvailabilityError
    | InvalidFormat
    | NoSuitableTables
    | FullyBooked(date: Date, time: Time)
    | Available(date: Date, time: Time, tables: seq<Table>)

  /** The answer of `_check_availability`. */
  function AvailabilityOf(tables: seq<Table>, rs: seq<Reservation>, rid: int,
                          dateStr: Option<string>, timeStr: Option<string>, party: Option<int>): Availability
  {
    match Slot(dateStr, timeStr)
    case None => AvailabilityError
    case Some(None) => InvalidFormat
    case Some(Some((d, t))) =>
      if Suitable(tables, rid, party) == [] then NoSuitableTables
      else
        var free := Search(tables, rs, rid, party, d, t);
        if free == [] then FullyBooked(d, t) else Available(d, t, free)
  }

  /** `_check_availability`: one reservation query per suitable table. */
  method CheckAvailability(db: Database, rid: int, dateStr: Option<string>, timeStr: Option<string>, party: Option<int>)
    returns (reply: Availability)
    ensures reply == AvailabilityOf(db.tables, db.reservations, rid, dateStr, timeStr, party)
  {
    var slot := Slot(dateStr, timeStr);
    if slot.None? {
      return AvailabilityError;
    }
    if slot.value.None? {
      return InvalidFormat;
    }
    var (date, time) := slot.value.value;
    var suitable := Suitable(db.tables, rid, party);
    if suitable == [] {
      return NoSuitableTables;
    }
    var available := FreeAmong(db, suitable, date, time);
    if available == [] {
      reply := FullyBooked(date, time);
    } else {
      reply := Available(date, time, available);
    }
  }

  /** The loop of `_check_availability`: the tables no reservation holds, in order. */
  method FreeAmong(db: Database, suitable: seq<Table>, date: Date, time: Time) returns (available: seq<Table>)
    ensures available == FreeTables(suitable, db.reservations, date, time)
  {
    available := [];
    var i := 0;
    while i < |suitable|
      invariant 0 <= i <= |suitable|
      invariant available == FreeTables(suitable[..i], db.reservations, date, time)
    {
      var existing := FirstBlocking(db.reservations, suitable[i].id, date, time);
      if existing.None? {
        available := available + [suitable[i]];
      }
      assert suitable[..i + 1][..i] == suitable[..i];
      i := i + 1;
    }
    assert suitable[..i] == suitable;
  }

  datatype Booking =
    | BookingError
    | BookingInvalidFormat
    | NoTableAvailable
    | Booked(reservation: Reservation, table: Table)

  /** The search loop of `_make_reservation`: the first suitable table no
      reservation holds, found with one query per table. */
  method FirstFree(suitable: seq<Table>, rs: seq<Reservation>, date: Date, time: Time) returns (selected: Option<Table>)
    ensures selected.None? <==> FreeTables(suitable, rs, date, time) == []
    ensures selected.Some? ==> selected.value == FreeTables(suitable, rs, date, time)[0]
  {
    var i := 0;
    while i < |suitable|
      invariant 0 <= i <= |suitable|
      invariant forall j :: 0 <= j < i ==> Taken(rs, suitable[j].id, date, time)
    {
      var existing := FirstBlocking(rs, suitable[i].id, date, time);
      if existing.None? {
        FirstFreeTable(suitable, rs, date, time, i);
        return Some(suitable[i]);
      }
      i := i + 1;
    }
    NoFreeTable(suitable, rs, date, time);
    return None;
  }

  /** Stores a booking and counts it against the trial of the restaurant's tenant;
      a row missing a NOT NULL value is not stored and not counted. */
  method CommitBooking(db: Database, owner: Tenant?, n: NewReservation) returns (row: Option<Reservation>)
    requires db.Valid()
    modifies db`reservations, db`nextReservationId, {owner}`trialBookingCount
    ensures db.Valid()
    ensures row == Insertable(n, old(db.nextReservationId))
    ensures row.Some? ==> db.reservations == old(db.reservations) + [row.value]
                          && db.nextReservationId == old(db.nextReservationId) + 1
    ensures row.None? ==> db.reservations == old(db.reservations) && db.nextReservationId == old(db.nextReservationId)
    ensures owner != null && row.None? ==> owner.trialBookingCount == old(owner.trialBookingCount)
    ensures owner != null && row.Some? ==> owner.trialBookingCount == Counted(old(owner.trialBookingCount))
  {
    row := db.AddReservation(n);
    if row.Some? {
      CountTrialBooking(owner);
    }
  }

  /** The trial count after one more booking; a tenant without a count keeps none. */
  function Counted(count: Option<int>): Option<int>
  {
    if count.Some? then Some(count.value + 1) else None
  }

  /** A booking counts against the trial of the restaurant's tenant only when that
      tenant keeps a count. */
  method CountTrialBooking(owner: Tenant?)
    modifies {owner}`trialBookingCount
    ensures owner != null ==> owner.trialBookingCount == Counted(old(owner.trialBookingCount))
  {
    if owner != null && owner.trialBookingCount.Some? {
      owner.trialBookingCount := Some(owner.trialBookingCount.value + 1);
    }
  }

  /** The row `_make_reservation` inserts for the chosen table. */
  function BookingRow(rid: int, table: Table, name: Option<string>, phone: Option<string>, party: Option<int>,
                      date: Date, time: Time, email: Option<string>, requests: Option<string>): NewReservation
  {
    NewReservation(rid, Some(table.id), name, email, phone, party, Some(date), Some(time), 90,
                   "confirmed", requests, "ai_assistant")
  }

  /** The answer of `_make_reservation`, given the next reservation id. */
  function BookingOf(tables: seq<Table>, rs: seq<Reservation>, nextId: int, rid: int,
                     name: Option<string>, phone: Option<string>, party: Option<int>,
                     dateStr: Option<string>, timeStr: Option<string>, email: Option<string>, requests: Option<string>): Booking
  {
    match Slot(dateStr, timeStr)
    case None => BookingError
    case Some(None) => BookingInvalidFormat
    case Some(Some((d, t))) =>
      var free := Search(tables, rs, rid, party, d, t);
      if free == [] then NoTableAvailable
      else match Insertable(BookingRow(rid, free[0], name, phone, party, d, t, email, requests), nextId)
        case None => BookingError
        case Some(r) => Booked(r, free[0])
  }

  /** `_make_reservation`: books the first free suitable table, confirmed, and counts
      the booking against the owning tenant's trial when it keeps a count. A failed
      commit (a NOT NULL value missing) raises and writes nothing. */
  method MakeReservation(db: Database, rid: int, owner: Tenant?,
                         name: Option<string>, phone: Option<string>, party: Option<int>,
                         dateStr: Option<string>, timeStr: Option<string>, email: Option<string>, requests: Option<string>)
    returns (reply: Booking)
    requires db.Valid()
    modifies db`reservations, db`nextReservationId, {owner}`trialBookingCount
    ensures db.Valid()
    ensures reply == BookingOf(old(db.tables), old(db.reservations), old(db.nextReservationId), rid,
                               name, phone, party, dateStr, timeStr, email, requests)
    ensures reply.Booked? ==> db.reservations == old(db.reservations) + [reply.reservation]
                              && db.nextReservationId == old(db.nextReservationId) + 1
    ensures !reply.Booked? ==> db.reservations == old(db.reservations) && db.nextReservationId == old(db.nextReservationId)
    ensures owner != null && !reply.Booked? ==> owner.trialBookingCount == old(owner.trialBookingCount)
    ensures owner != null && reply.Booked? ==> owner.trialBookingCount == Counted(old(owner.trialBookingCount))
  {
    var slot := Slot(dateStr, timeStr);
    if slot.None? {
      return BookingError;
    }
    if slot.value.None? {
      return BookingInvalidFormat;
    }
    var (date, time) := slot.value.value;
    var selected := FirstFree(Suitable(db.tables, rid, party), db.reservations, date, time);
    if selected.None? {
      return NoTableAvailable;
    }
    var table := selected.value;
    var row := CommitBooking(db, owner, BookingRow(rid, table, name, phone, party, date, time, email, requests));
    if row.None? {
      return BookingError;
    }
    reply := Booked(row.value, table);

  }

  /** A booking takes the smallest free table that fits: the table is the
      restaurant's, active, large enough and free at that slot, no free eligible
      table is smaller, and the stored row is a confirmed booking of that table. */
  lemma BookingTakesSmallestFreeTable(tables: seq<Table>, rs: seq<Reservation>, nextId: int, rid: int,
                                      name: Option<string>, phone: Option<string>, party: Option<int>,
                                      dateStr: Option<string>, timeStr: Option<string>,
                                      email: Option<string>, requests: Option<string>, d: Date, tm: Time)
    requires Slot(dateStr, timeStr) == Some(Some((d, tm)))
    requires BookingOf(tables, rs, nextId, rid, name, phone, party, dateStr, timeStr, email, requests).Booked?
    ensures var b := BookingOf(tables, rs, nextId, rid, name, phone, party, dateStr, timeStr, email, requests);
      && party.Some? && b.table in tables && Eligible(b.table, rid, party.value) && !Taken(rs, b.table.id, d, tm)
      && (forall u :: u in tables && Eligible(u, rid, party.value) && !Taken(rs, u.id, d, tm) ==>
                        b.table.capacity <= u.capacity)
      && b.reservation.id == nextId && b.reservation.tableId == Some(b.table.id)
      && b.reservation.restaurantId == rid && b.reservation.partySize == party.value
      && b.reservation.date == Some(d) && b.reservation.time == Some(tm)
      && b.reservation.status == "confirmed" && b.reservation.source == "ai_assistant"
  {
    var free := Search(tables, rs, rid, party, d, tm);
    var b := BookingOf(tables, rs, nextId, rid, name, phone, party, dateStr, timeStr, email, requests);
    assert free != [] && b.table == free[0];
    assert party.Some?;
    SearchTables(tables, rs, rid, party.value, d, tm);
    assert free[0] in free;
    forall u | u in tables && Eligible(u, rid, party.value) && !Taken(rs, u.id, d, tm)
      ensures free[0].capacity <= u.capacity
    {
      assert u in free;
      var k :| 0 <= k < |free| && free[k] == u;
      if k > 0 {
        assert free[0].capacity <= free[k].capacity;
      }
    }
  }

  /** Booking and the availability check agree: with a well-formed date and time,
      a booking finds no table exactly when the check reports none, and otherwise
      takes the first table the check lists. */
  lemma BookingAgreesWithAvailability(tables: seq<Table>, rs: seq<Reservation>, nextId: int, rid: int,
                                      name: Option<string>, phone: Option<string>, party: Option<int>,
                                      dateStr: Option<string>, timeStr: Option<string>,
                                      email: Option<string>, requests: Option<string>)
    requires Slot(dateStr, timeStr).Some? && Slot(dateStr, timeStr).value.Some?
    ensures var b := BookingOf(tables, rs, nextId, rid, name, phone, party, dateStr, timeStr, email, requests);
            var a := AvailabilityOf(tables, rs, rid, dateStr, timeStr, party);
      && (b.NoTableAvailable? <==> !a.Available?)
      && (b.Booked? ==> a.Available? && a.tables[0] == b.table)
  {
    var (d, tm) := Slot(dateStr, timeStr).value.value;
    if Suitable(tables, rid, party) == [] {
      assert Search(tables, rs, rid, party, d, tm) == [];
    }
  }

  /** Once booked, the table is held at that slot: checking again no longer lists it. */
  lemma BookedTableIsTaken(tables: seq<Table>, rs: seq<Reservation>, nextId: int, rid: int,
                           name: Option<string>, phone: Option<string>, party: Option<int>,
                           dateStr: Option<string>, timeStr: Option<string>,
                           email: Option<string>, requests: Option<string>, d: Date, tm: Time)
    requires Slot(dateStr, timeStr) == Some(Some((d, tm)))
    requires BookingOf(tables, rs, nextId, rid, name, phone, party, dateStr, timeStr, email, requests).Booked?
    ensures var b := BookingOf(tables, rs, nextId, rid, name, phone, party, dateStr, timeStr, email, requests);
      && Taken(rs + [b.reservation], b.table.id, d, tm)
      && b.table !in Search(tables, rs + [b.reservation], rid, party, d, tm)
  {
    var b := BookingOf(tables, rs, nextId, rid, name, phone, party, dateStr, timeStr, email, requests);
    var rs' := rs + [b.reservation];
    assert Blocks(rs'[|rs|], b.table.id, d, tm);
  }

  // ---------------------------------------------------------------------------
  // Staff follow-up requests for large parties

  /** A JSON value among the tool arguments the model sends. */
  datatype ToolArg = Str(s: string) | Int(i: int) | Null | Other

  /** `arguments.get(key, default)`. */
  function Get(args: map<string, ToolArg>, key: string, default: ToolArg): ToolArg
  {
    if key in args then args[key] else default
  }

  /** A string argument as Python sees it: anything else is not a string. */
  function StrOf(v: ToolArg): Option<string>
  {
    if v.Str? then Some(v.s) else None
  }

  /** An integer argument stored in an integer column; `None` is stored as NULL. */
  function IntOf(v: ToolArg): Option<int>
  {
    if v.Int? then Some(v.i) else None
  }

  /** `if preferred: try: strptime(...) except: pass`: an empty, missing or
      malformed value leaves the field empty. */
  function PreferredDate(v: ToolArg): Option<Date>
  {
    if v.Str? && v.s != "" then Strptime(v.s, IsoDate) else None
  }

  function PreferredTime(v: ToolArg): Option<Time>
  {
    if v.Str? && v.s != "" then StrptimeTime(v.s) else None
  }

  /** Python's `str()` of an optional integer. */
  function ShowInt(v: Option<int>): string
  {
    if v.Some? then IntToString(v.value) else "None"
  }

  /** The pending, table-less row `_request_large_party_booking` creates. */
  function LargePartyRow(rid: int, args: map<string, ToolArg>): (n: NewReservation)
    ensures n.tableId.None? && n.status == "pending" && n.source == "ai_assistant"
  {
    var party := IntOf(Get(args, "party_size", Int(9)));
    NewReservation(rid, None, StrOf(Get(args, "customer_name", Str(""))), None,
                   StrOf(Get(args, "customer_phone", Str(""))), party,
                   PreferredDate(Get(args, "preferred_date", Str(""))),
                   PreferredTime(Get(args, "preferred_time", Str(""))), 90, "pending",
                   Some("Large party booking request for " + ShowInt(party) + " guests. Staff follow-up required."),
                   "ai_assistant")
  }

  /** The request is lost when the preferred date is missing or malformed: the
      reservation columns for date and time are NOT NULL, so the commit fails and the
      tool reports an error, although the date is optional for these requests. */
  lemma LargePartyLostWithoutDate(rid: int, args: map<string, ToolArg>, id: int)
    requires "preferred_date" !in args
    ensures Insertable(LargePartyRow(rid, args), id) == None
  {
  }

  /** With the date and time columns nullable the request is stored whenever the
      name, phone and party size are present, and the party size defaults to nine. */
  lemma LargePartyRecorded(rid: int, args: map<string, ToolArg>, id: int)
    requires "customer_name" !in args || args["customer_name"].Str?
    requires "customer_phone" !in args || args["customer_phone"].Str?
    requires "party_size" !in args || args["party_size"].Int?
    ensures var r := Row(LargePartyRow(rid, args), id, false);
      && r.Some? && r.value.id == id && r.value.restaurantId == rid && r.value.tableId.None?
      && r.value.status == "pending" && Holding(r.value)
      && r.value.partySize == (if "party_size" in args then args["party_size"].i else 9)
      && r.value.date == PreferredDate(Get(args, "preferred_date", Str("")))
  {
  }

  /** `_request_large_party_booking` as written: the insert needs a date and a time,
      so a request without a usable preferred date or time fails at the commit (a tool
      error) and stores nothing. The reply carries the new request's id. */
  method RequestLargePartyBooking(db: Database, rid: int, args: map<string, ToolArg>) returns (requestId: Option<int>)
    requires db.Valid()
    modifies db`reservations, db`nextReservationId
    ensures db.Valid()
    ensures var r := Insertable(LargePartyRow(rid, args), old(db.nextReservationId));
      && (requestId.Some? <==> r.Some?)
      && (r.Some? ==> requestId.value == r.value.id && db.reservations == old(db.reservations) + [r.value]
                      && db.nextReservationId == old(db.nextReservationId) + 1)
      && (r.None? ==> db.reservations == old(db.reservations) && db.nextReservationId == old(db.nextReservationId))
    ensures "preferred_date" !in args ==> requestId.None? && db.reservations == old(db.reservations)
  {
    if "preferred_date" !in args {
      LargePartyLostWithoutDate(rid, args, db.nextReservationId);
    }
    var row := db.AddReservation(LargePartyRow(rid, args));
    if row.None? {
      return None;
    }
    requestId := Some(row.value.id);
  }

  /** `_request_large_party_booking` corrected to a store whose date and time columns
      are nullable, as the optional preferred date calls for: the request is stored
      whenever the name, phone and party size are present. */
  method RequestLargePartyBookingNullable(db: Database, rid: int, args: map<string, ToolArg>) returns (requestId: Option<int>)
    requires db.Valid()
    modifies db`reservations, db`nextReservationId
    ensures db.Valid()
    ensures var r := Row(LargePartyRow(rid, args), old(db.nextReservationId), false);
      && (requestId.Some? <==> r.Some?)
      && (r.Some? ==> requestId.value == r.value.id && db.reservations == old(db.reservations) + [r.value])
      && (r.None? ==> db.reservations == old(db.reservations))
  {
    var row := db.AddRequest(LargePartyRow(rid, args));
    if row.None? {
      return None;
    }
    requestId := Some(row.value.id);
  }

  // ---------------------------------------------------------------------------
  // Confirmation buttons

  const MonthLongNames: seq<string> := ["January", "February", "March", "April", "May", "June", "July",
                                        "August", "September", "October", "November", "December"]

  /** `strftime('%A, %B %d, %Y')`. */
  function LongDate(d: Date): string
    requires InRange(d)
  {
    DayName(d) + ", " + MonthLongNames[d.month - 1] + " " + Pad2(d.day) + ", " + Pad4(d.year)
  }

  /** `hour, minute = map(int, s.split(':'))`: exactly one colon, integers on both sides. */
  function HourMinute(s: string): Option<(int, int)>
  {
    var k := IndexOf(s, ':');
    if k < 0 || ':' in s[k + 1..] then None
    else match (ParseInt(s[..k]), ParseInt(s[k + 1..]))
      case (Some(h), Some(m)) => Some((h, m))
      case _ => None
  }

  /** The time shown on the confirmation: 12-hour form when it reads as `hour:minute`,
      otherwise the value as given. */
  function TimeDisplay(v: ToolArg): ToolArg
  {
    if !v.Str? then v
    else match HourMinute(v.s)
      case Some((h, m)) => Str(FormatTime12h(h, m))
      case None => v
  }

  /** The date shown on the confirmation: the long form when it reads as `%Y-%m-%d`,
      otherwise the value as given. */
  function DateDisplay(v: ToolArg): ToolArg
  {
    if v.Str? && Strptime(v.s, IsoDate).Some? then Str(LongDate(Strptime(v.s, IsoDate).value)) else v
  }

  datatype BookingDetails = BookingDetails(date: ToolArg, dateDisplay: ToolArg, time: ToolArg, timeDisplay: ToolArg,
                                           partySize: ToolArg, customerName: ToolArg, customerPhone: ToolArg)

  /** The booking details `_show_confirmation_tool` echoes back, with its defaults. */
  function ConfirmationDetails(args: map<string, ToolArg>): BookingDetails
  {
    var date := Get(args, "date", Str(""));
    var time := Get(args, "time", Str(""));
    BookingDetails(date, DateDisplay(date), time, TimeDisplay(time), Get(args, "party_size", Int(0)),
                   Get(args, "customer_name", Str("")), Get(args, "customer_phone", Str("")))
  }

  const ConfirmButtons := [Button("confirm", "\U{2713} Confirm Booking"), Button("cancel", "\U{2717} Cancel")]

  /** A date and a time in the form the other tools take are shown in long form and
      in 12-hour form on the confirmation. */
  lemma ConfirmationShowsSlot(args: map<string, ToolArg>, d: Date, t: Time)
    requires InRange(d) && ValidTime(t)
    requires "date" in args && args["date"] == Str(IsoFormat(d))
    requires "time" in args && args["time"] == Str(FormatTime24h(t.hour, t.minute))
    ensures ConfirmationDetails(args).dateDisplay == Str(LongDate(d))
    ensures ConfirmationDetails(args).timeDisplay == Str(FormatTime12h(t.hour, t.minute))
  {
    IsoRoundTrip(d);
    HourMinuteOf24h(t);
  }

  lemma HourMinuteOf24h(t: Time)
    requires ValidTime(t)
    ensures HourMinute(FormatTime24h(t.hour, t.minute)) == Some((t.hour, t.minute))
  {
    var s := FormatTime24h(t.hour, t.minute);
    Pad2Chars(t.hour);
    Pad2Chars(t.minute);
    assert s == Pad2(t.hour) + [':'] + Pad2(t.minute);
    IndexOfAt(s, ':', 2);
    assert s[..2] == Pad2(t.hour) && s[3..] == Pad2(t.minute);
    ParseIntDigits(Pad2(t.hour));
    ParseIntDigits(Pad2(t.minute));
    Pad2Value(t.hour);
    Pad2Value(t.minute);
  }

  /** Any integers around the colon are formatted, as `format_time_12h` takes them: a
      negative hour shows as the morning hour it wraps to ("-1:30" as "11:30 AM"). */
  lemma TimeDisplayAnyIntegers(v: ToolArg, h: int, m: int)
    requires v.Str? && HourMinute(v.s) == Some((h, m))
    ensures TimeDisplay(v) == Str(FormatTime12h(h, m))
    ensures h < 0 ==> TimeDisplay(v) == Str(FormatTime12h(h % 12, m)) && h % 12 < 12
  {
    if h < 0 {
      Format12hNegativeHour(h, m);
    }
  }

  /** Anything that is not a string of the form `hour:minute` is shown as given. */
  lemma TimeDisplayRaw(v: ToolArg)
    requires !v.Str? || HourMinute(v.s).None?
    ensures TimeDisplay(v) == v
  {
  }

  // ---------------------------------------------------------------------------
  // The tool dispatcher

  const ToolNames: set<string> := {"get_current_datetime", "show_date_selection", "show_guest_selection",
                                   "show_confirmation", "parse_date_time", "check_availability",
                                   "make_reservation", "get_restaurant_info", "request_large_party_booking"}

  /** The result of a tool call. `UnknownTool` is the text "Unknown tool: ..." and
      `ToolFailed` the text "Error executing ...: ..." for an exception the tool raised. */
  datatype ToolResult =
    | CurrentDateTime(info: DateTimeInfo)
    | ShowButtons(buttonType: string, buttons: seq<Button>, details: Option<BookingDetails>)
    | ParsedExpression(parsed: ParsedDateTime)
    | AvailabilityReply(availability: Availability)
    | BookingReply(booking: Booking)
    | RestaurantInfo(restaurantId: int)
    | LargePartyRequested(requestId: int)
    | UnknownTool(name: string)
    | ToolFailed(name: string)

  function GuestButtonList(): (r: seq<Button>)
    ensures |r| == 9
  {
    seq(8, i requires 0 <= i < 8 => GuestButton(i + 1)) + [MoreGuests]
  }

  predicate Writes(name: string)
  {
    name == "make_reservation" || name == "request_large_party_booking"
  }

  /** `_execute_tool` for the tools that only read: what each returns. */
  function ReadTool(name: string, args: map<string, ToolArg>, tables: seq<Table>, rs: seq<Reservation>,
                    rid: int, today: Date, now: Time): ToolResult
    requires InRange(today) && ValidTime(now) && !Writes(name)
  {
    if name == "get_current_datetime" then CurrentDateTime(CurrentDateTimeInfo(today, now))
    else if name == "show_date_selection" then
      if AddDays(today, 4).year <= 9999 then ShowButtons("date", DateButtons(today), None) else ToolFailed(name)
    else if name == "show_guest_selection" then ShowButtons("guests", GuestButtonList(), None)
    else if name == "show_confirmation" then ShowButtons("confirm", ConfirmButtons, Some(ConfirmationDetails(args)))
    else if name == "parse_date_time" then
      match StrOf(Get(args, "expression", Str("")))
      case None => ToolFailed(name)
      case Some(e) => ParsedExpression(ParseDateTime(e, today))
    else if name == "check_availability" then
      var a := AvailabilityOf(tables, rs, rid, StrOf(Get(args, "date", Null)), StrOf(Get(args, "time", Null)),
                              IntOf(Get(args, "party_size", Null)));
      if a.AvailabilityError? then ToolFailed(name) else AvailabilityReply(a)
    else if name == "get_restaurant_info" then RestaurantInfo(rid)
    else UnknownTool(name)
  }

  /** The reply of `make_reservation`; an exception becomes a tool error. */
  function BookingResult(b: Booking): ToolResult
  {
    if b.BookingError? then ToolFailed("make_reservation") else BookingReply(b)
  }

  /** The booking outcome of `make_reservation` called with the tool arguments
      `args`: each argument read with `arguments.get`, a wrong-typed one as missing. */
  function BookingArgs(db: seq<Table>, rs: seq<Reservation>, nextId: int, rid: int, args: map<string, ToolArg>): Booking
  {
    BookingOf(db, rs, nextId, rid, StrOf(Get(args, "customer_name", Null)), StrOf(Get(args, "customer_phone", Null)),
              IntOf(Get(args, "party_size", Null)), StrOf(Get(args, "date", Null)), StrOf(Get(args, "time", Null)),
              StrOf(Get(args, "customer_email", Str(""))), StrOf(Get(args, "special_requests", Str(""))))
  }

  /** The part of the store the tools write: the reservations, the next reservation id
      and the trial booking count of the restaurant's tenant. */
  datatype Store = Store(reservations: seq<Reservation>, nextId: int, count: Option<int>)

  /** The trial count of the restaurant's tenant; none when there is no tenant. */
  function OwnerCount(owner: Tenant?): Option<int>
    reads owner
  {
    if owner == null then None else owner.trialBookingCount
  }

  function StoreOf(db: Database, owner: Tenant?): Store
    reads db, owner
  {
    Store(db.reservations, db.nextReservationId, OwnerCount(owner))
  }

  /** `_execute_tool` on the store: the result of one call and the store it leaves.
      Only a booking and a large-party request write; a booking also counts against
      the trial. */
  function Step(tables: seq<Table>, rid: int, today: Date, now: Time, call: ToolCall, s: Store): (ToolResult, Store)
    requires InRange(today) && ValidTime(now)
  {
    if call.name == "make_reservation" then BookingStep(BookingArgs(tables, s.reservations, s.nextId, rid, call.args), s)
    else if call.name == "request_large_party_booking" then LargePartyStep(Insertable(LargePartyRow(rid, call.args), s.nextId), s)
    else (ReadTool(call.name, call.args, tables, s.reservations, rid, today, now), s)
  }

  /** A booking's result; a booked row is appended under the next id and counted
      against the trial. */
  function BookingStep(b: Booking, s: Store): (ToolResult, Store)
  {
    (BookingResult(b), if b.Booked? then Store(s.reservations + [b.reservation], s.nextId + 1, Counted(s.count)) else s)
  }

  /** A large-party request's result; an insertable row is appended under the next id. */
  function LargePartyStep(row: Option<Reservation>, s: Store): (ToolResult, Store)
  {
    match row
    case Some(r) => (LargePartyRequested(r.id), Store(s.reservations + [r], s.nextId + 1, s.count))
    case None => (ToolFailed("request_large_party_booking"), s)
  }

  /** The calls of a turn run in order, each on the store the previous ones left: the
      results and the final store. */
  function RunAll(tables: seq<Table>, rid: int, today: Date, now: Time, calls: seq<ToolCall>, s: Store): (seq<ToolResult>, Store)
    requires InRange(today) && ValidTime(now)
    decreases |calls|
  {
    if calls == [] then ([], s)
    else
      var (results, s1) := RunAll(tables, rid, today, now, calls[..|calls| - 1], s);
      var (r, s2) := Step(tables, rid, today, now, calls[|calls| - 1], s1);
      (results + [r], s2)
  }

  /** One more call: the first `i + 1` calls are the first `i` and then call `i`. */
  lemma RunAllNext(tables: seq<Table>, rid: int, today: Date, now: Time, calls: seq<ToolCall>, i: nat, s: Store)
    requires InRange(today) && ValidTime(now) && i < |calls|
    ensures var (rs, s1) := RunAll(tables, rid, today, now, calls[..i], s);
      var (r, s2) := Step(tables, rid, today, now, calls[i], s1);
      RunAll(tables, rid, today, now, calls[..i + 1], s) == (rs + [r], s2)
  {
    assert calls[..i + 1][..i] == calls[..i] && calls[..i + 1][i] == calls[i];
  }

  /** Every call of a turn yields one result. */
  lemma {:induction false} RunAllLength(tables: seq<Table>, rid: int, today: Date, now: Time, calls: seq<ToolCall>, s: Store)
    requires InRange(today) && ValidTime(now)
    ensures |RunAll(tables, rid, today, now, calls, s).0| == |calls|
    decreases |calls|
  {
    if calls != [] {
      RunAllLength(tables, rid, today, now, calls[..|calls| - 1], s);
    }
  }

  /** Result `j` of a turn reports an unknown tool exactly when call `j` names none of the tools. */
  lemma {:induction false} RunAllUnknown(tables: seq<Table>, rid: int, today: Date, now: Time, calls: seq<ToolCall>,
                                         s: Store, j: nat)
    requires InRange(today) && ValidTime(now) && j < |calls|
    ensures |RunAll(tables, rid, today, now, calls, s).0| == |calls|
    ensures RunAll(tables, rid, today, now, calls, s).0[j].UnknownTool? <==> calls[j].name !in ToolNames
    decreases |calls|
  {
    RunAllLength(tables, rid, today, now, calls, s);
    var front := calls[..|calls| - 1];
    RunAllLength(tables, rid, today, now, front, s);
    var (rs, s1) := RunAll(tables, rid, today, now, front, s);
    var (r, s2) := Step(tables, rid, today, now, calls[|calls| - 1], s1);
    assert RunAll(tables, rid, today, now, calls, s).0 == rs + [r];
    if j == |front| {
      StepUnknown(tables, rid, today, now, calls[j], s1);
    } else {
      RunAllUnknown(tables, rid, today, now, front, s, j);
      assert (rs + [r])[j] == rs[j] && calls[j] == front[j];
    }
  }

  lemma StepUnknown(tables: seq<Table>, rid: int, today: Date, now: Time, call: ToolCall, s: Store)
    requires InRange(today) && ValidTime(now)
    ensures Step(tables, rid, today, now, call, s).0.UnknownTool? <==> call.name !in ToolNames
  {
    if !Writes(call.name) {
      ReadToolButtons(call.name, call.args, tables, s.reservations, rid, today, now);
    }
  }

  /** Running two lists of calls one after the other is running them joined. */
  lemma {:induction false} RunAllConcat(tables: seq<Table>, rid: int, today: Date, now: Time,
                                        a: seq<ToolCall>, b: seq<ToolCall>, s: Store)
    requires InRange(today) && ValidTime(now)
    ensures var (ra, sa) := RunAll(tables, rid, today, now, a, s);
      var (rb, sb) := RunAll(tables, rid, today, now, b, sa);
      RunAll(tables, rid, today, now, a + b, s) == (ra + rb, sb)
    decreases |b|
  {
    if b == [] {
      assert a + b == a;
      var (ra, sa) := RunAll(tables, rid, today, now, a, s);
      assert RunAll(tables, rid, today, now, b, sa) == ([], sa);
      assert ra + [] == ra;
    } else {
      var b' := b[..|b| - 1];
      assert (a + b)[..|a + b| - 1] == a + b' && (a + b)[|a + b| - 1] == b[|b| - 1];
      RunAllConcat(tables, rid, today, now, a, b', s);
      var (ra, sa) := RunAll(tables, rid, today, now, a, s);
      var (rb', sb') := RunAll(tables, rid, today, now, b', sa);
      var (r, s2) := Step(tables, rid, today, now, b[|b| - 1], sb');
      assert RunAll(tables, rid, today, now, b, sa) == (rb' + [r], s2);
      assert RunAll(tables, rid, today, now, a + b, s) == ((ra + rb') + [r], s2);
      assert (ra + rb') + [r] == ra + (rb' + [r]);
    }
  }

  /** A turn only appends reservations: the old ones stay in place and the next id
      advances by one per reservation stored. */
  lemma {:induction false} RunAllOnlyAppends(tables: seq<Table>, rid: int, today: Date, now: Time,
                                             calls: seq<ToolCall>, s: Store)
    requires InRange(today) && ValidTime(now)
    ensures var s2 := RunAll(tables, rid, today, now, calls, s).1;
      && |s.reservations| <= |s2.reservations|
      && s2.reservations[..|s.reservations|] == s.reservations
      && s2.nextId == s.nextId + (|s2.reservations| - |s.reservations|)
    decreases |calls|
  {
    if calls != [] {
      RunAllOnlyAppends(tables, rid, today, now, calls[..|calls| - 1], s);
      var s1 := RunAll(tables, rid, today, now, calls[..|calls| - 1], s).1;
      var s2 := Step(tables, rid, today, now, calls[|calls| - 1], s1).1;
      assert RunAll(tables, rid, today, now, calls, s).1 == s2;
      if s2 != s1 {
        assert s2.reservations[..|s1.reservations|] == s1.reservations;
        assert s1.reservations[..|s.reservations|] == s.reservations;
      }
    }
  }

  /** A turn with no booking and no large-party request leaves the store as it was. */
  lemma {:induction false} ReadOnlyTurn(tables: seq<Table>, rid: int, today: Date, now: Time,
                                        calls: seq<ToolCall>, s: Store)
    requires InRange(today) && ValidTime(now)
    requires forall i :: 0 <= i < |calls| ==> !Writes(calls[i].name)
    ensures RunAll(tables, rid, today, now, calls, s).1 == s
    decreases |calls|
  {
    if calls != [] {
      var front := calls[..|calls| - 1];
      assert forall i :: 0 <= i < |front| ==> front[i] == calls[i];
      ReadOnlyTurn(tables, rid, today, now, front, s);
      assert !Writes(calls[|calls| - 1].name);
    }
  }

  /** Running the first `r + 1` rounds is running the first `r` and then round `r`. */
  lemma RunAllRound(tables: seq<Table>, rid: int, today: Date, now: Time,
                    rounds: seq<seq<ToolCall>>, r: nat, s: Store)
    requires InRange(today) && ValidTime(now) && r < |rounds|
    ensures var (ra, sa) := RunAll(tables, rid, today, now, Flatten(rounds[..r]), s);
      var (rb, sb) := RunAll(tables, rid, today, now, rounds[r], sa);
      RunAll(tables, rid, today, now, Flatten(rounds[..r + 1]), s) == (ra + rb, sb)
  {
    assert rounds[..r + 1][..r] == rounds[..r];
    assert Flatten(rounds[..r + 1]) == Flatten(rounds[..r]) + rounds[r];
    RunAllConcat(tables, rid, today, now, Flatten(rounds[..r]), rounds[r], s);
  }

  /** The only buttons a tool produces are the date, guest and confirmation buttons,
      and an unknown name is reported as such. */
  lemma ReadToolButtons(name: string, args: map<string, ToolArg>, tables: seq<Table>, rs: seq<Reservation>,
                        rid: int, today: Date, now: Time)
    requires InRange(today) && ValidTime(now) && !Writes(name)
    ensures var r := ReadTool(name, args, tables, rs, rid, today, now);
      && (r.ShowButtons? <==>
            name == "show_guest_selection" || name == "show_confirmation"
            || (name == "show_date_selection" && AddDays(today, 4).year <= 9999))
      && (r.ShowButtons? ==> (r.details.Some? <==> name == "show_confirmation"))
      && (r.UnknownTool? <==> name !in ToolNames)
  {
  }

  /** `_execute_tool`: runs the named tool; the writing tools change the store. */
  method ExecuteTool(db: Database, rid: int, owner: Tenant?, today: Date, now: Time,
                     name: string, args: map<string, ToolArg>) returns (result: ToolResult)
    requires db.Valid() && InRange(today) && ValidTime(now)
    modifies db`reservations, db`nextReservationId, {owner}`trialBookingCount
    ensures db.Valid()
    ensures result.UnknownTool? <==> name !in ToolNames
    ensures !Writes(name) ==> result == ReadTool(name, args, old(db.tables), old(db.reservations), rid, today, now)
    ensures !Writes(name) ==> db.reservations == old(db.reservations)
    ensures name == "make_reservation" ==>
              result == BookingResult(BookingArgs(old(db.tables), old(db.reservations), old(db.nextReservationId), rid, args))
    ensures name == "request_large_party_booking" ==>
              var r := Insertable(LargePartyRow(rid, args), old(db.nextReservationId));
              result == (if r.Some? then LargePartyRequested(r.value.id) else ToolFailed(name))
    ensures (result, StoreOf(db, owner)) == Step(old(db.tables), rid, today, now, ToolCall(name, args), old(StoreOf(db, owner)))
  {
    if name == "make_reservation" {
      result := ExecuteBooking(db, rid, owner, today, now, args);
    } else if name == "request_large_party_booking" {
      result := ExecuteLargePartyRequest(db, rid, owner, today, now, args);
    } else {
      // The reading tools; `NextFiveDates`, `GuestButtons` and `CheckAvailability`
      // compute the same values as the functions `ReadTool` uses.
      result := ReadTool(name, args, db.tables, db.reservations, rid, today, now);
      ReadToolButtons(name, args, db.tables, db.reservations, rid, today, now);
    }
  }

  /** The `make_reservation` branch of `_execute_tool`. */
  method ExecuteBooking(db: Database, rid: int, owner: Tenant?, today: Date, now: Time, args: map<string, ToolArg>)
    returns (result: ToolResult)
    requires db.Valid() && InRange(today) && ValidTime(now)
    modifies db`reservations, db`nextReservationId, {owner}`trialBookingCount
    ensures db.Valid()
    ensures result == BookingResult(BookingArgs(old(db.tables), old(db.reservations), old(db.nextReservationId), rid, args))
    ensures (result, StoreOf(db, owner)) ==
              Step(old(db.tables), rid, today, now, ToolCall("make_reservation", args), old(StoreOf(db, owner)))
  {
    ghost var tables, s0 := db.tables, StoreOf(db, owner);
    StepBooking(tables, rid, today, now, args, s0);
    var b := MakeReservation(db, rid, owner, StrOf(Get(args, "customer_name", Null)),
                             StrOf(Get(args, "customer_phone", Null)), IntOf(Get(args, "party_size", Null)),
                             StrOf(Get(args, "date", Null)), StrOf(Get(args, "time", Null)),
                             StrOf(Get(args, "customer_email", Str(""))), StrOf(Get(args, "special_requests", Str(""))));
    assert b == BookingArgs(tables, s0.reservations, s0.nextId, rid, args);
    result := BookingResult(b);
    ghost var s1 := if b.Booked? then Store(s0.reservations + [b.reservation], s0.nextId + 1, Counted(s0.count)) else s0;
    BookingStepUnfold(b, s0);
    assert StoreOf(db, owner) == s1;
  }

  lemma BookingStepUnfold(b: Booking, s: Store)
    ensures BookingStep(b, s) == (BookingResult(b), if b.Booked? then Store(s.reservations + [b.reservation], s.nextId + 1, Counted(s.count)) else s)
  {
  }

  /** The step of a booking call. */
  lemma StepBooking(tables: seq<Table>, rid: int, today: Date, now: Time, args: map<string, ToolArg>, s: Store)
    requires InRange(today) && ValidTime(now)
    ensures Step(tables, rid, today, now, ToolCall("make_reservation", args), s)
              == BookingStep(BookingArgs(tables, s.reservations, s.nextId, rid, args), s)
  {
  }

  /** The step of a large-party call. */
  lemma StepLargeParty(tables: seq<Table>, rid: int, today: Date, now: Time, args: map<string, ToolArg>, s: Store)
    requires InRange(today) && ValidTime(now)
    ensures Step(tables, rid, today, now, ToolCall("request_large_party_booking", args), s)
              == LargePartyStep(Insertable(LargePartyRow(rid, args), s.nextId), s)
  {
    assert "request_large_party_booking" != "make_reservation";
  }

  /** The `request_large_party_booking` branch of `_execute_tool`. */
  method ExecuteLargePartyRequest(db: Database, rid: int, owner: Tenant?, today: Date, now: Time, args: map<string, ToolArg>)
    returns (result: ToolResult)
    requires db.Valid() && InRange(today) && ValidTime(now)
    modifies db`reservations, db`nextReservationId
    ensures db.Valid()
    ensures var r := Insertable(LargePartyRow(rid, args), old(db.nextReservationId));
      result == (if r.Some? then LargePartyRequested(r.value.id) else ToolFailed("request_large_party_booking"))
    ensures (result, StoreOf(db, owner)) ==
              Step(old(db.tables), rid, today, now, ToolCall("request_large_party_booking", args), old(StoreOf(db, owner)))
  {
    ghost var tables, s0 := db.tables, StoreOf(db, owner);
    ghost var r := Insertable(LargePartyRow(rid, args), s0.nextId);
    StepLargeParty(tables, rid, today, now, args, s0);
    LargePartyStepUnfold(r, s0);
    var id := RequestLargePartyBooking(db, rid, args);
    assert OwnerCount(owner) == s0.count;
    if id.Some? {
      result := LargePartyRequested(id.value);
      assert StoreOf(db, owner) == Store(s0.reservations + [r.value], s0.nextId + 1, s0.count);
    } else {
      result := ToolFailed("request_large_party_booking");
      assert StoreOf(db, owner) == s0;
    }
  }

  lemma LargePartyStepUnfold(row: Option<Reservation>, s: Store)
    ensures LargePartyStep(row, s)
              == if row.Some? then (LargePartyRequested(row.value.id), Store(s.reservations + [row.value], s.nextId + 1, s.count))
                 else (ToolFailed("request_large_party_booking"), s)
  {
  }

  // ---------------------------------------------------------------------------
  // chat_sync

  datatype ToolCall = ToolCall(name: string, args: map<string, ToolArg>)

  /** The reply of a conversation turn: the text, with the last buttons shown during
      the turn when there were any, or the apology of the catch-all handler. */
  datatype ChatReply =
    | Plain(text: string)
    | WithButtons(text: string, buttons: seq<Button>, buttonType: string, details: Option<BookingDetails>)
    | Apology(text: string)

  /** An exception escaping into `chat_sync`'s catch-all handler: a request to the
      language model that raises, or tool arguments that are not JSON. It is raised
      after the rounds before `round` and the first `call` calls of round `round`
      have run; `message` is `str(e)`. */
  datatype Raise = Raise(round: nat, call: nat, message: string)

  /** The raise falls between two tool calls of the turn. */
  predicate RaiseWithin(rounds: seq<seq<ToolCall>>, f: Raise)
  {
    f.round <= |rounds| && (f.round < |rounds| ==> f.call <= |rounds[f.round]|)
  }

  /** The tool calls that have run when `f` is raised. */
  function CallsBefore(rounds: seq<seq<ToolCall>>, f: Raise): seq<ToolCall>
    requires RaiseWithin(rounds, f)
  {
    Flatten(rounds[..f.round]) + if f.round < |rounds| then rounds[f.round][..f.call] else []
  }

  function ApologyText(message: string): string
  {
    "I apologize, but I encountered an error: " + message + ". Please try again."
  }

  const NoResponse := "I'm sorry, I couldn't generate a response. Please try again."

  /** The calls of all rounds of a turn, in order. */
  function Flatten(rounds: seq<seq<ToolCall>>): seq<ToolCall>
  {
    if rounds == [] then [] else Flatten(rounds[..|rounds| - 1]) + rounds[|rounds| - 1]
  }

  /** The last button result among `results`. */
  function LastButtons(results: seq<ToolResult>): Option<ToolResult>
  {
    if results == [] then None
    else if results[|results| - 1].ShowButtons? then Some(results[|results| - 1])
    else LastButtons(results[..|results| - 1])
  }

  /** The buttons kept are those of the last result that shows buttons, and none
      when no result does. */
  lemma {:induction false} LastButtonsIsLast(results: seq<ToolResult>)
    ensures LastButtons(results).None? <==> forall i :: 0 <= i < |results| ==> !results[i].ShowButtons?
    ensures LastButtons(results).Some? ==>
              exists k :: 0 <= k < |results| && results[k] == LastButtons(results).value && results[k].ShowButtons?
                          && forall j :: k < j < |results| ==> !results[j].ShowButtons?
  {
    if results == [] {
    } else if results[|results| - 1].ShowButtons? {
      var k := |results| - 1;
      assert results[k] == LastButtons(results).value;
    } else {
      var front := results[..|results| - 1];
      LastButtonsIsLast(front);
      assert forall i :: 0 <= i < |front| ==> front[i] == results[i];
      if LastButtons(front).Some? {
        var k :| 0 <= k < |front| && front[k] == LastButtons(front).value && front[k].ShowButtons?
                 && forall j :: k < j < |front| ==> !front[j].ShowButtons?;
        assert results[k] == LastButtons(results).value;
      }
    }
  }

  /** The final reply; an empty text counts as none. */
  function FinalReply(content: Option<string>, buttons: Option<ToolResult>): (r: ChatReply)
    ensures r.text != ""
    ensures r.WithButtons? <==> buttons.Some? && buttons.value.ShowButtons?
  {
    var text := if content.Some? && content.value != "" then content.value else NoResponse;
    if buttons.Some? && buttons.value.ShowButtons?
    then WithButtons(text, buttons.value.buttons, buttons.value.buttonType, buttons.value.details)
    else Plain(text)
  }

  /** `chat_sync` after the model's replies: runs every tool call of every round in
      order, keeping the last button result, and answers with the model's final text.
      When `failure` is given, the turn stops where it is raised and answers with the
      apology; what the calls run before it committed stays. */
  method ChatSync(db: Database, rid: int, owner: Tenant?, today: Date, now: Time,
                  rounds: seq<seq<ToolCall>>, content: Option<string>, failure: Option<Raise>)
    returns (reply: ChatReply, results: seq<ToolResult>)
    requires db.Valid() && InRange(today) && ValidTime(now)
    requires failure.Some? ==> RaiseWithin(rounds, failure.value)
    modifies db`reservations, db`nextReservationId, {owner}`trialBookingCount
    ensures db.Valid()
    ensures failure.None? ==> |results| == |Flatten(rounds)|
    ensures failure.None? ==>
              forall i :: 0 <= i < |results| ==> (results[i].UnknownTool? <==> Flatten(rounds)[i].name !in ToolNames)
    ensures failure.None? ==> reply == FinalReply(content, LastButtons(results))
    ensures failure.None? ==>
              (results, StoreOf(db, owner)) == RunAll(old(db.tables), rid, today, now, Flatten(rounds), old(StoreOf(db, owner)))
    ensures failure.Some? ==> reply == Apology(ApologyText(failure.value.message))
    ensures failure.Some? ==>
              (results, StoreOf(db, owner))
                == RunAll(old(db.tables), rid, today, now, CallsBefore(rounds, failure.value), old(StoreOf(db, owner)))
  {
    ghost var tables, s0 := db.tables, StoreOf(db, owner);
    var last := if failure.Some? then failure.value.round else |rounds|;
    var buttonData;
    results, buttonData := RunRounds(db, rid, owner, today, now, rounds, last);
    if failure.Some? {
      if last < |rounds| {
        ghost var before := results;
        var part := rounds[last][..failure.value.call];
        results, buttonData := RunCalls(db, rid, owner, today, now, part, results, buttonData);
        assert results == before + results[|before|..];
        RunAllConcat(tables, rid, today, now, Flatten(rounds[..last]), part, s0);
        assert CallsBefore(rounds, failure.value) == Flatten(rounds[..last]) + part;
      } else {
        assert CallsBefore(rounds, failure.value) == Flatten(rounds[..last]) + [];
        assert Flatten(rounds[..last]) + [] == Flatten(rounds[..last]);
      }
      reply := Apology(ApologyText(failure.value.message));
      return;
    }
    assert rounds[..last] == rounds;
    RunAllLength(tables, rid, today, now, Flatten(rounds), s0);
    forall i | 0 <= i < |results|
      ensures results[i].UnknownTool? <==> Flatten(rounds)[i].name !in ToolNames
    {
      RunAllUnknown(tables, rid, today, now, Flatten(rounds), s0, i);
    }
    reply := FinalReply(content, buttonData);
  }

  /** The `while assistant_message.tool_calls` loop over the first `last` rounds. */
  method RunRounds(db: Database, rid: int, owner: Tenant?, today: Date, now: Time,
                   rounds: seq<seq<ToolCall>>, last: nat)
    returns (results: seq<ToolResult>, buttonData: Option<ToolResult>)
    requires db.Valid() && InRange(today) && ValidTime(now) && last <= |rounds|
    modifies db`reservations, db`nextReservationId, {owner}`trialBookingCount
    ensures db.Valid() && db.tables == old(db.tables)
    ensures buttonData == LastButtons(results)
    ensures (results, StoreOf(db, owner))
              == RunAll(old(db.tables), rid, today, now, Flatten(rounds[..last]), old(StoreOf(db, owner)))
  {
    ghost var tables, s0 := db.tables, StoreOf(db, owner);
    buttonData := None;
    results := [];
    var r := 0;
    while r < last
      invariant 0 <= r <= last && db.Valid() && db.tables == tables
      invariant buttonData == LastButtons(results)
      invariant (results, StoreOf(db, owner)) == RunAll(tables, rid, today, now, Flatten(rounds[..r]), s0)
    {
      ghost var before := results;
      RunAllRound(tables, rid, today, now, rounds, r, s0);
      results, buttonData := RunCalls(db, rid, owner, today, now, rounds[r], results, buttonData);
      assert results == before + results[|before|..];
      r := r + 1;
    }
  }

  /** The calls of the first `r` rounds come first among the calls of the turn. */
  lemma {:induction false} FlattenPrefix(rounds: seq<seq<ToolCall>>, r: nat)
    requires r <= |rounds|
    ensures |Flatten(rounds[..r])| <= |Flatten(rounds)|
    ensures Flatten(rounds)[..|Flatten(rounds[..r])|] == Flatten(rounds[..r])
    decreases |rounds|
  {
    if r == |rounds| {
      assert rounds[..r] == rounds;
    } else {
      var front := rounds[..|rounds| - 1];
      FlattenPrefix(front, r);
      assert front[..r] == rounds[..r];
      var p := Flatten(rounds[..r]);
      assert Flatten(rounds) == Flatten(front) + rounds[|rounds| - 1];
      assert Flatten(rounds)[..|p|] == Flatten(front)[..|p|];
    }
  }

  /** A raised turn runs a prefix of the calls the uninterrupted turn runs, so its
      results are the first results of that turn. */
  lemma RaisedTurnIsPrefix(tables: seq<Table>, rid: int, today: Date, now: Time,
                           rounds: seq<seq<ToolCall>>, f: Raise, s: Store)
    requires InRange(today) && ValidTime(now) && RaiseWithin(rounds, f)
    ensures var cut := RunAll(tables, rid, today, now, CallsBefore(rounds, f), s).0;
      var full := RunAll(tables, rid, today, now, Flatten(rounds), s).0;
      |cut| <= |full| && full[..|cut|] == cut
  {
    var calls, all := CallsBefore(rounds, f), Flatten(rounds);
    if f.round < |rounds| {
      FlattenPrefix(rounds, f.round + 1);
      assert rounds[..f.round + 1][..f.round] == rounds[..f.round];
      assert Flatten(rounds[..f.round + 1]) == Flatten(rounds[..f.round]) + rounds[f.round];
      assert rounds[f.round] == rounds[f.round][..f.call] + rounds[f.round][f.call..];
      assert all[..|calls|] == calls;
    } else {
      FlattenPrefix(rounds, f.round);
    }
    assert all == calls + all[|calls|..];
    RunAllConcat(tables, rid, today, now, calls, all[|calls|..], s);
  }

  /** One round of tool calls: each call runs in order, its result is appended and
      the last button result is kept. */
  method RunCalls(db: Database, rid: int, owner: Tenant?, today: Date, now: Time,
                  calls: seq<ToolCall>, results0: seq<ToolResult>, buttons0: Option<ToolResult>)
    returns (results: seq<ToolResult>, buttonData: Option<ToolResult>)
    requires db.Valid() && InRange(today) && ValidTime(now) && buttons0 == LastButtons(results0)
    modifies db`reservations, db`nextReservationId, {owner}`trialBookingCount
    ensures db.Valid()
    ensures |results| == |results0| + |calls|
    ensures forall j :: 0 <= j < |results0| ==> results[j] == results0[j]
    ensures forall j :: 0 <= j < |calls| ==> (results[|results0| + j].UnknownTool? <==> calls[j].name !in ToolNames)
    ensures buttonData == LastButtons(results)
    ensures (results[|results0|..], StoreOf(db, owner)) ==
              RunAll(old(db.tables), rid, today, now, calls, old(StoreOf(db, owner)))
  {
    ghost var tables, s0 := db.tables, StoreOf(db, owner);
    results, buttonData := results0, buttons0;
    var i := 0;
    assert calls[..0] == [] && results[|results0|..] == [] && results[..|results0|] == results0;
    while i < |calls|
      invariant 0 <= i <= |calls| && db.Valid() && db.tables == tables
      invariant |results0| <= |results| && results[..|results0|] == results0
      invariant buttonData == LastButtons(results)
      invariant (results[|results0|..], StoreOf(db, owner)) == RunAll(tables, rid, today, now, calls[..i], s0)
    {
      ghost var done, before := results[|results0|..], StoreOf(db, owner);
      var result;
      result, buttonData := RunCall(db, rid, owner, today, now, calls[i], buttonData);
      RunAllExtend(tables, rid, today, now, calls, i, s0, done, before, result, StoreOf(db, owner));
      AppendResult(results, result, |results0|);
      results := results + [result];
      i := i + 1;
    }
    assert calls[..i] == calls;
    RunAllUnknownAt(tables, rid, today, now, calls, s0, results, |results0|);
    assert forall j :: 0 <= j < |results0| ==> results[j] == results[..|results0|][j];
  }

  /** Appending a result keeps the results before it and shows its buttons, if any. */
  lemma AppendResult(results: seq<ToolResult>, result: ToolResult, k: nat)
    requires k <= |results|
    ensures (results + [result])[..k] == results[..k]
    ensures (results + [result])[k..] == results[k..] + [result]
    ensures LastButtons(results + [result]) == if result.ShowButtons? then Some(result) else LastButtons(results)
  {
    AppendSlices(results, result, k);
    assert (results + [result])[..|results|] == results;
  }

  /** Slicing after an append at or before the old end. */
  lemma AppendSlices<T>(xs: seq<T>, x: T, k: nat)
    requires k <= |xs|
    ensures (xs + [x])[..k] == xs[..k]
    ensures (xs + [x])[k..] == xs[k..] + [x]
  {
  }

  /** The loop step of a round: the results and store after `i` calls, followed by
      the step of call `i`, are the results and store after `i + 1` calls. */
  lemma RunAllExtend(tables: seq<Table>, rid: int, today: Date, now: Time, calls: seq<ToolCall>, i: nat, s: Store,
                     done: seq<ToolResult>, mid: Store, result: ToolResult, after: Store)
    requires InRange(today) && ValidTime(now) && i < |calls|
    requires (done, mid) == RunAll(tables, rid, today, now, calls[..i], s)
    requires (result, after) == Step(tables, rid, today, now, calls[i], mid)
    ensures (done + [result], after) == RunAll(tables, rid, today, now, calls[..i + 1], s)
  {
    RunAllNext(tables, rid, today, now, calls, i, s);
  }

  /** The results of a turn, stored from `offset` on, report an unknown tool exactly
      where the call names none of the tools. */
  lemma RunAllUnknownAt(tables: seq<Table>, rid: int, today: Date, now: Time, calls: seq<ToolCall>, s: Store,
                        results: seq<ToolResult>, offset: nat)
    requires InRange(today) && ValidTime(now) && offset <= |results|
    requires results[offset..] == RunAll(tables, rid, today, now, calls, s).0
    ensures |results| == offset + |calls|
    ensures forall j :: 0 <= j < |calls| ==> (results[offset + j].UnknownTool? <==> calls[j].name !in ToolNames)
  {
    RunAllLength(tables, rid, today, now, calls, s);
    forall j | 0 <= j < |calls|
      ensures results[offset + j].UnknownTool? <==> calls[j].name !in ToolNames
    {
      RunAllUnknown(tables, rid, today, now, calls, s, j);
      assert results[offset + j] == results[offset..][j];
    }
  }

  /** One tool call of a round: its result, and the button result kept after it. */
  method RunCall(db: Database, rid: int, owner: Tenant?, today: Date, now: Time,
                 call: ToolCall, buttons0: Option<ToolResult>)
    returns (result: ToolResult, buttonData: Option<ToolResult>)
    requires db.Valid() && InRange(today) && ValidTime(now)
    modifies db`reservations, db`nextReservationId, {owner}`trialBookingCount
    ensures db.Valid()
    ensures result.UnknownTool? <==> call.name !in ToolNames
    ensures buttonData == if result.ShowButtons? then Some(result) else buttons0
    ensures (result, StoreOf(db, owner)) == Step(old(db.tables), rid, today, now, call, old(StoreOf(db, owner)))
  {
    result := ExecuteTool(db, rid, owner, today, now, call.name, call.args);
    buttonData := buttons0;
    if result.ShowButtons? {
      buttonData := Some(result);
    }
  }
}
