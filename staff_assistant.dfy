/**
 * The staff assistant (app/services/staff_assistant.py): the reservation
 * queries a restaurant's staff run (today's list, the upcoming window, pending
 * and confirmed bookings, search, the day's statistics), the two guarded
 * updates (status and guest count), and the first-match routing of a staff
 * message to one of them.
 *
 * The restaurant's clock is a parameter: `today` and `now` are the date and the
 * minute-precision time `get_current_datetime` reports in its time zone. The
 * language model's reply to an unmatched message is a parameter too (`None`
 * where the call raises). Result dictionaries are reduced to the rows they list;
 * their display strings are not modelled.
 */
module StaffAssistant {
  import opened Wrappers
  import opened Text
  import opened Calendar
  import opened DateTimeUtils
  import opened Models

  // ---------------------------------------------------------------------------
  // Row selection and ordering

  predicate Upcoming(r: Reservation) { r.status == "confirmed" || r.status == "pending" }

  /** SQL's `ilike '%q%'` on ASCII text: a case-insensitive substring. */
  predicate ILike(text: string, q: string) { Contains(Lower(text), Lower(q)) }

  function MinuteOfDay(t: Time): int { t.hour * 60 + t.minute }

  /** `(datetime.combine(today, now) + timedelta(hours=hours)).time()`: the end of the
      upcoming window, wrapped into the day. */
  function EndTimeAsWritten(now: Time, hours: nat): Time
  {
    var end := (MinuteOfDay(now) + 60 * hours) % 1440;
    Time(end / 60, end % 60)
  }

  /** Minutes since the start of the proleptic calendar. */
  function Stamp(d: Date, t: Time): int
    requires Valid(d)
  {
    Ordinal(d) * 1440 + MinuteOfDay(t)
  }

  /** The WHERE clauses of the queries. */
  datatype Selection =
    | DayOf(rid: int, today: Date)
    | FromDay(rid: int, today: Date, status: string)
    | Matching(rid: int, query: string)
    | WindowAsWritten(rid: int, today: Date, now: Time, hours: nat)
    | Window(rid: int, today: Date, now: Time, hours: nat)

  predicate Selects(q: Selection, r: Reservation)
  {
    r.restaurantId == q.rid &&
    match q
    case DayOf(_, today) => r.date == Some(today)
    case FromDay(_, today, status) => r.date.Some? && !Before(r.date.value, today) && r.status == status
    case Matching(_, query) => ILike(r.customerName, query) || ILike(r.customerPhone, query)
    case WindowAsWritten(_, today, now, hours) =>
      // the filter as written: dated today, between now and the wrapped end time
      r.date == Some(today) && r.time.Some? && TimeLe(Some(now), r.time)
      && TimeLe(r.time, Some(EndTimeAsWritten(now, hours))) && Upcoming(r)
    case Window(_, today, now, hours) =>
      // the window the method's name promises: date and time within `hours` of now
      r.date.Some? && r.time.Some? && Valid(today) && Valid(r.date.value)
      && Stamp(today, now) <= Stamp(r.date.value, r.time.value) <= Stamp(today, now) + 60 * hours && Upcoming(r)
  }

  /** The rows of `rs` the selection keeps, in store order. */
  function Filter(rs: seq<Reservation>, q: Selection): (r: seq<Reservation>)
    ensures forall x :: x in r <==> x in rs && Selects(q, x)
    ensures |r| <= |rs|
  {
    if rs == [] then []
    else
      var front := Filter(rs[..|rs| - 1], q);
      assert forall x :: x in rs[..|rs| - 1] ==> x in rs;
      assert forall x :: x in rs ==> x in rs[..|rs| - 1] || x == rs[|rs| - 1];
      front + (if Selects(q, rs[|rs| - 1]) then [rs[|rs| - 1]] else [])
  }

  lemma {:induction false} FilterNone(rs: seq<Reservation>, q: Selection)
    requires forall x :: x in rs ==> !Selects(q, x)
    ensures Filter(rs, q) == []
  {
    if rs != [] {
      assert rs[|rs| - 1] in rs;
      FilterNone(rs[..|rs| - 1], q);
    }
  }

  /** The order on TIME columns, NULL first as SQLite sorts it (PostgreSQL puts NULL
      last); the schema declares the column NOT NULL. */
  predicate TimeLe(a: Option<Time>, b: Option<Time>)
  {
    a.None? || (b.Some? && (a.value.hour < b.value.hour || (a.value.hour == b.value.hour && a.value.minute <= b.value.minute)))
  }

  /** The strict order on DATE columns, NULL first as SQLite sorts it (PostgreSQL puts
      NULL last); the schema declares the column NOT NULL. */
  predicate DateLt(a: Option<Date>, b: Option<Date>)
  {
    (a.None? && b.Some?) || (a.Some? && b.Some? && Before(a.value, b.value))
  }

  /** The ORDER BY clauses of the queries. */
  datatype Order =
    | ByTime      // order_by(reservation_time)
    | ByDateTime  // order_by(reservation_date, reservation_time)
    | ByDateDesc  // order_by(reservation_date.desc()): latest first, NULL last as in SQLite

  predicate Le(o: Order, x: Reservation, y: Reservation)
  {
    match o
    case ByTime => TimeLe(x.time, y.time)
    case ByDateTime => DateLt(x.date, y.date) || (x.date == y.date && TimeLe(x.time, y.time))
    case ByDateDesc => !DateLt(x.date, y.date)
  }

  /** Every order compares any two rows. */
  lemma LeTotal(o: Order, x: Reservation, y: Reservation)
    ensures Le(o, x, y) || Le(o, y, x)
  {
  }

  predicate Sorted(s: seq<Reservation>, o: Order)
  {
    forall i, j :: 0 <= i < j < |s| ==> Le(o, s[i], s[j])
  }

  function Insert(x: Reservation, s: seq<Reservation>, o: Order): (r: seq<Reservation>)
    ensures multiset(r) == multiset(s) + multiset{x}
  {
    if s == [] || Le(o, x, s[0]) then [x] + s
    else
      assert s == [s[0]] + s[1..];
      [s[0]] + Insert(x, s[1..], o)
  }

  /** `order_by(...)`: an insertion sort. SQL leaves the order of equal keys open;
      the model fixes one. */
  function SortBy(s: seq<Reservation>, o: Order): (r: seq<Reservation>)
    ensures multiset(r) == multiset(s)
  {
    if s == [] then []
    else
      assert s == [s[0]] + s[1..];
      Insert(s[0], SortBy(s[1..], o), o)
  }

  lemma {:induction false} InsertSorted(x: Reservation, s: seq<Reservation>, o: Order)
    requires Sorted(s, o)
    ensures Sorted(Insert(x, s, o), o)
  {
    if s != [] && !Le(o, x, s[0]) {
      var rest := Insert(x, s[1..], o);
      InsertSorted(x, s[1..], o);
      LeTotal(o, x, s[0]);
      InsertAbove(x, s[1..], o, s[0]);
      var r := [s[0]] + rest;
      assert Insert(x, s, o) == r;
      forall i, j | 0 <= i < j < |r| ensures Le(o, r[i], r[j]) {
        if i == 0 {
          assert r[j] == rest[j - 1];
        } else {
          assert r[i] == rest[i - 1] && r[j] == rest[j - 1];
        }
      }
    }
  }

  /** A lower bound of `x` and of every row of `s` bounds the insertion's rows. */
  lemma {:induction false} InsertAbove(x: Reservation, s: seq<Reservation>, o: Order, b: Reservation)
    requires Le(o, b, x) && forall i :: 0 <= i < |s| ==> Le(o, b, s[i])
    ensures forall i :: 0 <= i < |Insert(x, s, o)| ==> Le(o, b, Insert(x, s, o)[i])
  {
    if s != [] && !Le(o, x, s[0]) {
      InsertAbove(x, s[1..], o, b);
    }
  }

  /** The sort orders by `o`. */
  lemma {:induction false} SortBySorted(s: seq<Reservation>, o: Order)
    ensures Sorted(SortBy(s, o), o)
  {
    if s != [] {
      SortBySorted(s[1..], o);
      InsertSorted(s[0], SortBy(s[1..], o), o);
    }
  }

  /** A query: the selected rows in the query's order. */
  function Query(rs: seq<Reservation>, q: Selection, o: Order): seq<Reservation>
  {
    SortBy(Filter(rs, q), o)
  }

  /** A query lists exactly the rows it selects, each as often as stored, in its order. */
  lemma QuerySelects(rs: seq<Reservation>, q: Selection, o: Order)
    ensures Sorted(Query(rs, q, o), o)
    ensures multiset(Query(rs, q, o)) == multiset(Filter(rs, q))
    ensures forall r :: r in Query(rs, q, o) <==> r in rs && Selects(q, r)
  {
    SortBySorted(Filter(rs, q), o);
    var a, b := Query(rs, q, o), Filter(rs, q);
    assert forall x :: x in a <==> x in multiset(a);
    assert forall x :: x in b <==> x in multiset(b);
  }

  /** The ids of listed rows, in order: `last_results`. */
  function Ids(rs: seq<Reservation>): (ids: seq<int>)
    ensures |ids| == |rs| && forall i :: 0 <= i < |rs| ==> ids[i] == rs[i].id
  {
    seq(|rs|, i requires 0 <= i < |rs| => rs[i].id)
  }

  function Take(s: seq<Reservation>, n: nat): (r: seq<Reservation>)
    ensures |r| <= n && (|s| <= n ==> r == s) && r == s[..|r|]
  {
    if |s| <= n then s else s[..n]
  }

  const SearchLimit := 20

  /** `search_reservations`: this restaurant's rows whose name or phone contains the
      query, latest date first, at most 20. */
  function SearchRows(rs: seq<Reservation>, rid: int, query: string): seq<Reservation>
  {
    Take(Query(rs, Matching(rid, query), ByDateDesc), SearchLimit)
  }

  /** The search lists matching rows only, latest first, and all of them when there
      are at most 20. */
  lemma SearchSelects(rs: seq<Reservation>, rid: int, query: string)
    ensures Sorted(SearchRows(rs, rid, query), ByDateDesc) && |SearchRows(rs, rid, query)| <= SearchLimit
    ensures forall r :: r in SearchRows(rs, rid, query) ==> r in rs && Selects(Matching(rid, query), r)
    ensures |Filter(rs, Matching(rid, query))| <= SearchLimit ==>
              forall r :: r in rs && Selects(Matching(rid, query), r) ==> r in SearchRows(rs, rid, query)
    ensures forall x, r :: (x in SearchRows(rs, rid, query) && r in rs && Selects(Matching(rid, query), r)
                            && r !in SearchRows(rs, rid, query)) ==> !DateLt(x.date, r.date)
  {
    QuerySelects(rs, Matching(rid, query), ByDateDesc);
    var all := Query(rs, Matching(rid, query), ByDateDesc);
    var listed := SearchRows(rs, rid, query);
    assert |all| == |multiset(all)|;
    assert forall r :: r in listed ==> r in all;
    forall x, r | x in listed && r in rs && Selects(Matching(rid, query), r) && r !in listed
      ensures !DateLt(x.date, r.date)
    {
      var i :| 0 <= i < |listed| && listed[i] == x;
      var j :| 0 <= j < |all| && all[j] == r;
      assert listed == all[..|listed|];
      assert forall k :: 0 <= k < |listed| ==> all[k] == listed[k] != r;
      assert j >= |listed|;
      assert all[i] == x;
      assert Le(ByDateDesc, all[i], all[j]);
    }
  }

  // ---------------------------------------------------------------------------
  // The upcoming window

  /** Two minute stamps less than a day apart, the earlier one early enough that the day does
      not end between them, fall on the same day. */
  lemma SameDay(od: int, ot: int, mt: int, mn: int, span: int)
    requires 0 <= mt < 1440 && 0 <= mn && 0 <= span && mn + span < 1440
    requires ot * 1440 + mn <= od * 1440 + mt <= ot * 1440 + mn + span
    ensures od == ot
  {
  }

  /** A minute of the day survives the wrap and the split into hour and minute. */
  lemma EndWithinDay(x: int)
    requires 0 <= x < 1440
    ensures x % 1440 == x && (x / 60) * 60 + x % 60 == x
  {
  }

  /** While the window stays within the day, the filter as written is the intended one. */
  lemma WindowAgreesWithinDay(r: Reservation, rid: int, today: Date, now: Time, hours: nat)
    requires Valid(today) && ValidTime(now) && MinuteOfDay(now) + 60 * hours < 1440
    requires r.date.Some? ==> Valid(r.date.value)
    requires r.time.Some? ==> ValidTime(r.time.value)
    ensures Selects(WindowAsWritten(rid, today, now, hours), r) <==> Selects(Window(rid, today, now, hours), r)
  {
    var end := EndTimeAsWritten(now, hours);
    EndWithinDay(MinuteOfDay(now) + 60 * hours);
    if r.date.Some? && r.time.Some? {
      var d, t := r.date.value, r.time.value;
      var mn, mt := MinuteOfDay(now), MinuteOfDay(t);
      var ot, od := Ordinal(today), Ordinal(d);
      assert Stamp(today, now) == ot * 1440 + mn;
      assert Stamp(d, t) == od * 1440 + mt;
      assert TimeLe(Some(now), Some(t)) <==> mn <= mt;
      assert TimeLe(Some(t), Some(end)) <==> mt <= mn + 60 * hours;
      if ot * 1440 + mn <= od * 1440 + mt <= ot * 1440 + mn + 60 * hours {
        SameDay(od, ot, mt, mn, 60 * hours);
        OrdinalInjective(d, today);
      }
    }
  }

  /** When the window passes midnight and its wrapped end falls before now, the
      query as written lists nothing. */
  lemma WrappedWindowEmpty(rs: seq<Reservation>, rid: int, today: Date, now: Time, hours: nat)
    requires TimeLe(Some(EndTimeAsWritten(now, hours)), Some(now)) && EndTimeAsWritten(now, hours) != now
    ensures Query(rs, WindowAsWritten(rid, today, now, hours), ByTime) == []
  {
    var q := WindowAsWritten(rid, today, now, hours);
    forall x | x in rs ensures !Selects(q, x) {
      if x.time.Some? && TimeLe(Some(now), x.time) {
        assert !TimeLe(x.time, Some(EndTimeAsWritten(now, hours)));
      }
    }
    FilterNone(rs, q);
  }

  /** At 23:00 a two-hour window misses a confirmed reservation at 23:30 today that
      the intended window selects. */
  lemma LateEveningWindowMisses(today: Date, r: Reservation)
    requires Valid(today)
    requires r.restaurantId == 1 && r.date == Some(today) && r.time == Some(Time(23, 30)) && r.status == "confirmed"
    ensures !Selects(WindowAsWritten(1, today, Time(23, 0), 2), r)
    ensures Selects(Window(1, today, Time(23, 0), 2), r)
  {
    assert EndTimeAsWritten(Time(23, 0), 2) == Time(1, 0);
    assert Stamp(today, Time(23, 30)) == Stamp(today, Time(23, 0)) + 30;
  }

  /** The same reservation is missing from the listing as written and present in the
      intended one. */
  lemma LateEveningListingMisses(today: Date, r: Reservation)
    requires Valid(today)
    requires r.restaurantId == 1 && r.date == Some(today) && r.time == Some(Time(23, 30)) && r.status == "confirmed"
    ensures r !in Query([r], WindowAsWritten(1, today, Time(23, 0), 2), ByTime)
    ensures r in UpcomingIntended([r], 1, today, Time(23, 0), 2)
  {
    LateEveningWindowMisses(today, r);
    QuerySelects([r], WindowAsWritten(1, today, Time(23, 0), 2), ByTime);
  }

  /** The upcoming listing the method's name promises, correcting the window as
      written: this restaurant's confirmed and pending rows from now until `hours`
      later, across midnight, by date and time. */
  function UpcomingIntended(rs: seq<Reservation>, rid: int, today: Date, now: Time, hours: nat): (rows: seq<Reservation>)
    ensures Sorted(rows, ByDateTime)
    ensures forall r :: r in rows <==> r in rs && Selects(Window(rid, today, now, hours), r)
  {
    QuerySelects(rs, Window(rid, today, now, hours), ByDateTime);
    Query(rs, Window(rid, today, now, hours), ByDateTime)
  }

  /** While the window stays within the day, the listing as written and the intended
      one hold the same rows. */
  lemma UpcomingAgreesWithinDay(rs: seq<Reservation>, rid: int, today: Date, now: Time, hours: nat)
    requires Valid(today) && ValidTime(now) && MinuteOfDay(now) + 60 * hours < 1440
    requires forall r :: r in rs && r.date.Some? ==> Valid(r.date.value)
    requires forall r :: r in rs && r.time.Some? ==> ValidTime(r.time.value)
    ensures forall r :: r in Query(rs, WindowAsWritten(rid, today, now, hours), ByTime)
                        <==> r in UpcomingIntended(rs, rid, today, now, hours)
  {
    QuerySelects(rs, WindowAsWritten(rid, today, now, hours), ByTime);
    forall r | r in rs
      ensures Selects(WindowAsWritten(rid, today, now, hours), r) <==> Selects(Window(rid, today, now, hours), r)
    {
      WindowAgreesWithinDay(r, rid, today, now, hours);
    }
  }

  // ---------------------------------------------------------------------------
  // Statistics

  datatype Stats = Stats(total: nat, confirmed: nat, pending: nat, completed: nat, cancelled: nat, noShow: nat,
                         totalGuests: int)

  function CountStatus(rs: seq<Reservation>, status: string): (n: nat)
    ensures n <= |rs|
  {
    if rs == [] then 0 else CountStatus(rs[..|rs| - 1], status) + (if rs[|rs| - 1].status == status then 1 else 0)
  }

  predicate Seated(r: Reservation) { r.status == "confirmed" || r.status == "pending" || r.status == "completed" }

  /** The party sizes of the confirmed, pending and completed rows. */
  function Guests(rs: seq<Reservation>): int
  {
    if rs == [] then 0 else Guests(rs[..|rs| - 1]) + (if Seated(rs[|rs| - 1]) then rs[|rs| - 1].partySize else 0)
  }

  function GuestsWith(rs: seq<Reservation>, status: string): int
  {
    if rs == [] then 0
    else GuestsWith(rs[..|rs| - 1], status) + (if rs[|rs| - 1].status == status then rs[|rs| - 1].partySize else 0)
  }

  /** `get_todays_stats`. */
  function TodaysStats(rs: seq<Reservation>, rid: int, today: Date): Stats
  {
    var day := Filter(rs, DayOf(rid, today));
    Stats(|day|, CountStatus(day, "confirmed"), CountStatus(day, "pending"), CountStatus(day, "completed"),
          CountStatus(day, "cancelled"), CountStatus(day, "no_show"), Guests(day))
  }

  predicate OtherStatus(r: Reservation)
  {
    r.status !in ["confirmed", "pending", "completed", "cancelled", "no_show"]
  }

  function CountOther(rs: seq<Reservation>): nat
  {
    if rs == [] then 0 else CountOther(rs[..|rs| - 1]) + (if OtherStatus(rs[|rs| - 1]) then 1 else 0)
  }

  /** The five counted statuses and the rest (arrived, seated, ...) partition the day. */
  lemma {:induction false} StatusesPartition(rs: seq<Reservation>)
    ensures CountStatus(rs, "confirmed") + CountStatus(rs, "pending") + CountStatus(rs, "completed")
            + CountStatus(rs, "cancelled") + CountStatus(rs, "no_show") + CountOther(rs) == |rs|
  {
    if rs != [] {
      StatusesPartition(rs[..|rs| - 1]);
    }
  }

  /** The guest total is the confirmed, pending and completed guests, and nothing else. */
  lemma {:induction false} GuestsSplit(rs: seq<Reservation>)
    ensures Guests(rs) == GuestsWith(rs, "confirmed") + GuestsWith(rs, "pending") + GuestsWith(rs, "completed")
  {
    if rs != [] {
      GuestsSplit(rs[..|rs| - 1]);
    }
  }

  lemma TodaysStatsConsistent(rs: seq<Reservation>, rid: int, today: Date)
    ensures var s := TodaysStats(rs, rid, today);
            && s.confirmed <= s.total && s.pending <= s.total && s.completed <= s.total
            && s.cancelled <= s.total && s.noShow <= s.total
            && s.confirmed + s.pending + s.completed + s.cancelled + s.noShow <= s.total
    ensures var day := Filter(rs, DayOf(rid, today));
            TodaysStats(rs, rid, today).totalGuests
              == GuestsWith(day, "confirmed") + GuestsWith(day, "pending") + GuestsWith(day, "completed")
  {
    var day := Filter(rs, DayOf(rid, today));
    StatusesPartition(day);
    GuestsSplit(day);
  }

  // ---------------------------------------------------------------------------
  // Updates

  const ValidStatuses := ["pending", "confirmed", "completed", "cancelled", "no_show", "arrived", "seated"]

  datatype Outcome =
    | InvalidStatus(given: string)
    | GuestCountOutOfRange
    | NotFound(id: int)
    | Updated(before: Reservation, after: Reservation)

  /** The query `filter(id == id, restaurant_id == rid).first()`. */
  function FindOwn(rs: seq<Reservation>, rid: int, id: int): (k: Option<nat>)
    ensures k.Some? ==> k.value < |rs| && rs[k.value].id == id && rs[k.value].restaurantId == rid
    ensures k.None? <==> forall i :: 0 <= i < |rs| ==> !(rs[i].id == id && rs[i].restaurantId == rid)
  {
    if rs == [] then None
    else if rs[0].id == id && rs[0].restaurantId == rid then Some(0)
    else
      match FindOwn(rs[1..], rid, id)
      case None =>
        assert forall i :: 1 <= i < |rs| ==> rs[i] == rs[1..][i - 1];
        None
      case Some(k) => Some(k + 1)
  }

  /** `update_reservation_status` on the rows. */
  function StatusChange(rs: seq<Reservation>, rid: int, id: int, newStatus: string): (res: (Outcome, seq<Reservation>))
    ensures Lower(newStatus) !in ValidStatuses ==> res == (InvalidStatus(newStatus), rs)
    ensures res.0.NotFound? <==> Lower(newStatus) in ValidStatuses && FindOwn(rs, rid, id).None?
    ensures !res.0.Updated? ==> res.1 == rs
    ensures res.0.Updated? ==> FindOwn(rs, rid, id).Some? && var k := FindOwn(rs, rid, id).value;
              res.0.before == rs[k] && res.0.after == rs[k].(status := Lower(newStatus))
              && res.0.after.status in ValidStatuses && res.1 == rs[k := res.0.after]
  {
    var status := Lower(newStatus);
    if status !in ValidStatuses then (InvalidStatus(newStatus), rs)
    else match FindOwn(rs, rid, id)
      case None => (NotFound(id), rs)
      case Some(k) => (Updated(rs[k], rs[k].(status := status)), rs[k := rs[k].(status := status)])
  }

  /** `update_reservation_guests` on the rows. */
  function GuestsChange(rs: seq<Reservation>, rid: int, id: int, count: int): (res: (Outcome, seq<Reservation>))
    ensures (count < 1 || count > 50) ==> res == (GuestCountOutOfRange, rs)
    ensures res.0.NotFound? <==> 1 <= count <= 50 && FindOwn(rs, rid, id).None?
    ensures !res.0.Updated? ==> res.1 == rs
    ensures res.0.Updated? ==> FindOwn(rs, rid, id).Some? && var k := FindOwn(rs, rid, id).value;
              res.0.before == rs[k] && res.0.after == rs[k].(partySize := count)
              && 1 <= res.0.after.partySize <= 50 && res.1 == rs[k := res.0.after]
  {
    if count < 1 || count > 50 then (GuestCountOutOfRange, rs)
    else match FindOwn(rs, rid, id)
      case None => (NotFound(id), rs)
      case Some(k) => (Updated(rs[k], rs[k].(partySize := count)), rs[k := rs[k].(partySize := count)])
  }

  /** An update touches one row of this restaurant, and no other row. */
  lemma UpdateTouchesOneRow(rs: seq<Reservation>, rid: int, id: int, newStatus: string, count: int)
    ensures var after := StatusChange(rs, rid, id, newStatus).1;
            |after| == |rs| && forall i :: 0 <= i < |rs| && !(rs[i].id == id && rs[i].restaurantId == rid) ==> after[i] == rs[i]
    ensures var after := GuestsChange(rs, rid, id, count).1;
            |after| == |rs| && forall i :: 0 <= i < |rs| && !(rs[i].id == id && rs[i].restaurantId == rid) ==> after[i] == rs[i]
  {
  }

  // ---------------------------------------------------------------------------
  // The assistant object

  /** The answer to a staff message, reduced to what it lists or reports. */
  datatype Reply =
    | Listing(kind: string, rows: seq<Reservation>)
    | StatsReply(stats: Stats)
    | Detail(id: int, found: Option<Reservation>)
    | UpdateReply(outcome: Outcome)
    | Text(text: string)

  /** The upcoming window when the message names no number of hours. */
  const DefaultHours: nat := 2

  class StaffAssistant {
    const restaurantId: int
    /** The state kept between messages: the kind and the ids of the last listing. */
    var lastQueryType: Option<string>
    var lastResults: Option<seq<int>>

    constructor(restaurantId: int)
      ensures this.restaurantId == restaurantId && lastQueryType == None && lastResults == None
    {
      this.restaurantId := restaurantId;
      lastQueryType := None;
      lastResults := None;
    }

    method Remember(kind: string, rows: seq<Reservation>)
      modifies this
      ensures lastQueryType == Some(kind) && lastResults == Some(Ids(rows))
    {
      lastQueryType := Some(kind);
      lastResults := Some(Ids(rows));
    }

    /** `get_todays_reservations`: today's rows of this restaurant by time. */
    method GetTodaysReservations(db: Database, today: Date) returns (rows: seq<Reservation>)
      modifies this
      ensures rows == Query(db.reservations, DayOf(restaurantId, today), ByTime)
      ensures lastQueryType == Some("todays_reservations") && lastResults == Some(Ids(rows))
    {
      rows := Query(db.reservations, DayOf(restaurantId, today), ByTime);
      Remember("todays_reservations", rows);
    }

    /** `get_upcoming_reservations` as written: confirmed and pending rows dated today whose
        time lies between now and the end time wrapped into the day, by time. */
    method GetUpcomingReservations(db: Database, today: Date, now: Time, hours: nat) returns (rows: seq<Reservation>)
      modifies this
      ensures rows == Query(db.reservations, WindowAsWritten(restaurantId, today, now, hours), ByTime)
      ensures lastQueryType == Some("upcoming_reservations") && lastResults == Some(Ids(rows))
    {
      rows := Query(db.reservations, WindowAsWritten(restaurantId, today, now, hours), ByTime);
      Remember("upcoming_reservations", rows);
    }

    /** `get_pending_bookings`: pending rows from today on, by date and time. */
    method GetPendingBookings(db: Database, today: Date) returns (rows: seq<Reservation>)
      modifies this
      ensures rows == Query(db.reservations, FromDay(restaurantId, today, "pending"), ByDateTime)
      ensures lastQueryType == Some("pending_bookings") && lastResults == Some(Ids(rows))
    {
      rows := Query(db.reservations, FromDay(restaurantId, today, "pending"), ByDateTime);
      Remember("pending_bookings", rows);
    }

    /** `get_confirmed_bookings`: confirmed rows from today on, by date and time. */
    method GetConfirmedBookings(db: Database, today: Date) returns (rows: seq<Reservation>)
      modifies this
      ensures rows == Query(db.reservations, FromDay(restaurantId, today, "confirmed"), ByDateTime)
      ensures lastQueryType == Some("confirmed_bookings") && lastResults == Some(Ids(rows))
    {
      rows := Query(db.reservations, FromDay(restaurantId, today, "confirmed"), ByDateTime);
      Remember("confirmed_bookings", rows);
    }

    /** `search_reservations`: at most twenty matching rows, latest date first. */
    method SearchReservations(db: Database, query: string) returns (rows: seq<Reservation>)
      modifies this
      ensures rows == SearchRows(db.reservations, restaurantId, query)
      ensures lastQueryType == Some("search") && lastResults == Some(Ids(rows))
    {
      rows := SearchRows(db.reservations, restaurantId, query);
      Remember("search", rows);
    }

    /** `get_todays_stats`: the counts over today's rows; the state is not touched. */
    method GetTodaysStats(db: Database, today: Date) returns (stats: Stats)
      ensures stats == TodaysStats(db.reservations, restaurantId, today)
      ensures stats.total == stats.confirmed + stats.pending + stats.completed + stats.cancelled + stats.noShow
                             + CountOther(Filter(db.reservations, DayOf(restaurantId, today)))
    {
      stats := TodaysStats(db.reservations, restaurantId, today);
      StatusesPartition(Filter(db.reservations, DayOf(restaurantId, today)));
    }

    /** `get_reservation_details`: the row with this id, only when it belongs to this restaurant. */
    method GetReservationDetails(db: Database, id: int) returns (found: Option<Reservation>)
      ensures found.Some? ==> found.value in db.reservations && found.value.id == id
                              && found.value.restaurantId == restaurantId
      ensures found.None? <==> forall r :: r in db.reservations ==> !(r.id == id && r.restaurantId == restaurantId)
      ensures found.Some? ==> found.value == db.reservations[FindOwn(db.reservations, restaurantId, id).value]
    {
      match FindOwn(db.reservations, restaurantId, id)
      case None =>
        found := None;
      case Some(k) =>
        found := Some(db.reservations[k]);
    }

    /** `update_reservation_status`: the guarded write of one row's status. */
    method UpdateReservationStatus(db: Database, id: int, newStatus: string) returns (outcome: Outcome)
      requires db.Valid()
      modifies db`reservations
      ensures db.Valid()
      ensures (outcome, db.reservations) == StatusChange(old(db.reservations), restaurantId, id, newStatus)
    {
      var change := StatusChange(db.reservations, restaurantId, id, newStatus);
      outcome := change.0;
      if outcome.Updated? {
        var k := FindOwn(db.reservations, restaurantId, id).value;
        db.SetReservation(k, outcome.after);
      }
    }

    /** `update_reservation_guests`: the guarded write of one row's party size. */
    method UpdateReservationGuests(db: Database, id: int, count: int) returns (outcome: Outcome)
      requires db.Valid()
      modifies db`reservations
      ensures db.Valid()
      ensures (outcome, db.reservations) == GuestsChange(old(db.reservations), restaurantId, id, count)
    {
      var change := GuestsChange(db.reservations, restaurantId, id, count);
      outcome := change.0;
      if outcome.Updated? {
        var k := FindOwn(db.reservations, restaurantId, id).value;
        db.SetReservation(k, outcome.after);
      }
    }

    /** `chat_sync`: route the message, run the command, and answer. `llm` is the language
        model's reply to a message no pattern matches (`None` where the call fails). */
    method ChatSync(db: Database, message: string, today: Date, now: Time, llm: Option<string>) returns (reply: Reply)
      requires db.Valid()
      modifies this, db`reservations
      ensures db.Valid()
      ensures (reply, db.reservations) == Answer(RouteAsWritten(message), old(db.reservations), restaurantId, today, now, llm)
      ensures reply.Listing? ==> lastQueryType == Some(reply.kind) && lastResults == Some(Ids(reply.rows))
      ensures !reply.Listing? ==> lastQueryType == old(lastQueryType) && lastResults == old(lastResults)
    {
      reply := Run(db, RouteAsWritten(message), today, now, llm);
    }

    /** Run one routed command. */
    method Run(db: Database, command: Command, today: Date, now: Time, llm: Option<string>) returns (reply: Reply)
      requires db.Valid()
      modifies this, db`reservations
      ensures db.Valid()
      ensures (reply, db.reservations) == Answer(command, old(db.reservations), restaurantId, today, now, llm)
      ensures reply.Listing? ==> lastQueryType == Some(reply.kind) && lastResults == Some(Ids(reply.rows))
      ensures !reply.Listing? ==> lastQueryType == old(lastQueryType) && lastResults == old(lastResults)
    {
      match command
      case SetStatus(id, status) =>
        var outcome := UpdateReservationStatus(db, id, status);
        reply := UpdateReply(outcome);
      case SetGuests(id, count) =>
        var outcome := UpdateReservationGuests(db, id, count);
        reply := UpdateReply(outcome);
      case _ =>
        reply := Report(db, command, today, now, llm);
    }

    /** Run a command that only reads the reservations. */
    method Report(db: Database, command: Command, today: Date, now: Time, llm: Option<string>) returns (reply: Reply)
      requires !command.SetStatus? && !command.SetGuests?
      modifies this
      ensures (reply, db.reservations) == Answer(command, db.reservations, restaurantId, today, now, llm)
      ensures reply.Listing? ==> lastQueryType == Some(reply.kind) && lastResults == Some(Ids(reply.rows))
      ensures !reply.Listing? ==> lastQueryType == old(lastQueryType) && lastResults == old(lastResults)
    {
      match command
      case ShowToday =>
        var rows := GetTodaysReservations(db, today);
        reply := Listing("todays_reservations", rows);
      case ShowUpcoming(hours) =>
        var rows := GetUpcomingReservations(db, today, now, hours);
        reply := Listing("upcoming_reservations", rows);
      case ShowStats =>
        var stats := GetTodaysStats(db, today);
        reply := StatsReply(stats);
      case ShowPending =>
        var rows := GetPendingBookings(db, today);
        reply := Listing("pending_bookings", rows);
      case ShowConfirmed =>
        var rows := GetConfirmedBookings(db, today);
        reply := Listing("confirmed_bookings", rows);
      case ShowDetails(id) =>
        var found := GetReservationDetails(db, id);
        reply := Detail(id, found);
      case SearchFor(query) =>
        var rows := SearchReservations(db, query);
        reply := Listing("search", rows);
      case FreeText =>
        reply := Text(if llm.Some? then llm.value else HelpText);
    }
  }

  // ---------------------------------------------------------------------------
  // Routing a staff message (`chat_sync`)

  /** What a staff message asks for. */
  datatype Command =
    | ShowToday
    | ShowUpcoming(hours: nat)
    | ShowStats
    | ShowPending
    | ShowConfirmed
    | SetStatus(id: nat, status: string)
    | SetGuests(id: nat, count: nat)
    | ShowDetails(id: nat)
    | SearchFor(query: string)
    | FreeText

  const TodayPhrases := ["today's reservations", "todays reservations", "today reservations", "reservations today"]
  const UpcomingPhrases := ["upcoming", "next 2 hours", "coming up", "soon"]
  const StatsPhrases := ["stats", "statistics", "summary", "overview"]
  const PendingPhrases := ["pending", "awaiting", "unconfirmed"]
  const ConfirmedPhrases := ["confirmed", "confirmed bookings"]

  const StatusVerbs := ["update", "mark", "set", "change"]
  const StatusLinks := ["to", "as", "status"]
  const GuestVerbs := ["update", "change", "set"]
  const DetailWords := ["reservation", "details", "detail", "show", "view", "get"]
  const SearchWords := ["search", "find"]

  /** The reply when no pattern matches and the language model cannot be reached. */
  const HelpText := "I can help you with:\n\U{2022} Today's reservations\n\U{2022} Upcoming reservations\n"
    + "\U{2022} Today's stats\n\U{2022} Pending bookings\n\U{2022} Confirmed bookings\n"
    + "\U{2022} Update status (e.g., 'update id 5 to confirmed')\n"
    + "\U{2022} Update guests (e.g., 'update id 5 to 4 guests')\n"
    + "\U{2022} View details (e.g., 'show reservation 5')\n\U{2022} Search (e.g., 'search John')\n\n"
    + "What would you like to do?"

  /** The message as the routing sees it: lower-cased, outer whitespace removed. */
  function Normal(message: string): string { Strip(Lower(message)) }

  /** Some phrase of the list occurs in `m`. */
  predicate AnyIn(m: string, phrases: seq<string>)
  {
    phrases != [] && (Contains(m, phrases[0]) || AnyIn(m, phrases[1..]))
  }

  lemma {:induction false} AnyInExists(m: string, phrases: seq<string>)
    ensures AnyIn(m, phrases) <==> exists i :: 0 <= i < |phrases| && Contains(m, phrases[i])
  {
    if phrases != [] {
      AnyInExists(m, phrases[1..]);
      assert forall i :: 1 <= i < |phrases| ==> phrases[i] == phrases[1..][i - 1];
    }
  }

  /** The length of the first word of the list that `s` starts with: an alternation
      `(?:w1|w2|...)` anchored at the start of `s`. */
  function PrefixIn(s: string, words: seq<string>): (n: Option<nat>)
    ensures n.Some? ==> n.value <= |s|
    ensures n.None? <==> forall i :: 0 <= i < |words| ==> !StartsWith(s, words[i])
  {
    if words == [] then None
    else if StartsWith(s, words[0]) then Some(|words[0]|)
    else
      var rest := PrefixIn(s, words[1..]);
      assert forall i :: 1 <= i < |words| ==> words[i] == words[1..][i - 1];
      rest
  }

  /** `(\d+)` anchored at the start of `s`: the number and the length of its digits. */
  function Number(s: string): (r: Option<(nat, nat)>)
    ensures r.Some? ==> 0 < r.value.1 <= |s|
    ensures r.None? <==> s == [] || !IsDigit(s[0])
  {
    var n := LeadingDigits(s);
    if n == 0 then None
    else
      assert AllDigits(s[..n]);
      Some((DigitsValue(s[..n]), n))
  }

  /** `(?:id\s*)?#?(\d+)` anchored at the start of `s`: the number and the length taken. */
  function IdRef(s: string): (r: Option<(nat, nat)>)
    ensures r.Some? ==> 0 < r.value.1 <= |s|
  {
    var a := if StartsWith(s, "id") then 2 + LeadingSpaces(s[2..]) else 0;
    var b := if a < |s| && s[a] == '#' then a + 1 else a;
    match Number(s[b..])
    case None => None
    case Some((v, n)) => Some((v, b + n))
  }

  /** `(?:verb|...)\s+(?:id\s*)?#?(\d+)\s+` anchored at the start of `s`: the number and
      where the text after the spaces starts. */
  function UpdateHead(s: string, verbs: seq<string>): (r: Option<(nat, nat)>)
    ensures r.Some? ==> r.value.1 <= |s|
  {
    match PrefixIn(s, verbs)
    case None => None
    case Some(a) => HeadAfter(s, a)
  }

  /** `\s+(?:id\s*)?#?(\d+)\s+` from position `a` of `s`. */
  function HeadAfter(s: string, a: nat): (r: Option<(nat, nat)>)
    requires a <= |s|
    ensures r.Some? ==> r.value.1 <= |s|
  {
    var b := a + LeadingSpaces(s[a..]);
    if b == a then None
    else match IdRef(s[b..])
      case None => None
      case Some((id, len)) =>
        var c := b + len;
        var d := c + LeadingSpaces(s[c..]);
        if d == c then None else Some((id, d))
  }

  /** The status pattern `(?:update|mark|set|change)\s+(?:id\s*)?#?(\d+)\s+(?:to|as|status)\s+(\w+)`
      anchored at the start of `s`: the id and the status word. */
  function StatusAt(s: string): (r: Option<(nat, string)>)
    ensures r.Some? ==> Contains(s, r.value.1) && r.value.1 != []
  {
    match UpdateHead(s, StatusVerbs)
    case None => None
    case Some((id, d)) =>
      match StatusWord(s[d..])
      case None => None
      case Some(w) =>
        ContainsInSuffix(s, d, w);
        Some((id, w))
  }

  /** `(?:to|as|status)\s+(\w+)` anchored at the start of `s`: the status word. */
  function StatusWord(s: string): (r: Option<string>)
    ensures r.Some? ==> Contains(s, r.value) && r.value != []
  {
    match PrefixIn(s, StatusLinks)
    case None => None
    case Some(w) =>
      var f := w + LeadingSpaces(s[w..]);
      var n := LeadingWordChars(s[f..]);
      if f == w || n == 0 then None
      else
        ContainsAt(s, s[f..f + n], f);
        Some(s[f..f + n])
  }

  /** The guests pattern `(?:update|change|set)\s+(?:id\s*)?#?(\d+)\s+(?:to\s+)?(\d+)\s+guests?`
      anchored at the start of `s`: the id and the guest count. */
  function GuestsAt(s: string): Option<(nat, nat)>
  {
    match UpdateHead(s, GuestVerbs)
    case None => None
    case Some((id, d)) =>
      match GuestCount(s[d..])
      case None => None
      case Some(count) => Some((id, count))
  }

  /** `(?:to\s+)?(\d+)\s+guests?` anchored at the start of `s`: the guest count. */
  function GuestCount(s: string): Option<nat>
  {
    var e := CountStart(s);
    match Number(s[e..])
    case None => None
    case Some((count, n)) =>
      var rest := s[e + n..];
      var sp := LeadingSpaces(rest);
      if sp > 0 && StartsWith(rest[sp..], "guest") then Some(count) else None
  }

  /** Where the count starts: after the optional `to\s+`. */
  function CountStart(s: string): (e: nat)
    ensures e <= |s|
    ensures e > 0 ==> StartsWith(s, "to") && e == 2 + LeadingSpaces(s[2..]) && e > 2
  {
    if StartsWith(s, "to") && LeadingSpaces(s[2..]) > 0 then 2 + LeadingSpaces(s[2..]) else 0
  }

  /** The details pattern `(?:reservation|details?|show|view|get)\s*#?(\d+)` anchored at the
      start of `s`. */
  function DetailsAt(s: string): Option<nat>
  {
    match PrefixIn(s, DetailWords)
    case None => None
    case Some(a) =>
      var b := a + LeadingSpaces(s[a..]);
      var c := if b < |s| && s[b] == '#' then b + 1 else b;
      match Number(s[c..])
      case None => None
      case Some((id, _)) => Some(id)
  }

  /** `(?:search|find|look\s+for)` anchored at the start of `s`: the length it takes. */
  function SearchKeyword(s: string): (n: Option<nat>)
    ensures n.Some? ==> n.value <= |s|
  {
    match PrefixIn(s, SearchWords)
    case Some(a) => Some(a)
    case None =>
      if StartsWith(s, "look") && LeadingSpaces(s[4..]) > 0 && StartsWith(s[4 + LeadingSpaces(s[4..])..], "for")
      then Some(4 + LeadingSpaces(s[4..]) + 3)
      else None
  }

  /** The number of leading characters before the first line break (the span `.+` takes). */
  function LineLength(s: string): (n: nat)
    ensures n <= |s| && '\n' !in s[..n]
    ensures n == |s| || s[n] == '\n'
  {
    if s == [] || s[0] == '\n' then 0 else 1 + LineLength(s[1..])
  }

  /** The search pattern `(?:search|find|look\s+for)\s+(.+)` anchored at the start of `s`, with
      its group stripped. The spaces are taken greedily, which is what the regular expression
      does whenever text other than whitespace follows them, as it does in a stripped message. */
  function SearchAt(s: string): Option<string>
  {
    match SearchKeyword(s)
    case None => None
    case Some(a) =>
      var b := a + LeadingSpaces(s[a..]);
      var n := LineLength(s[b..]);
      if b == a || n == 0 then None else Some(Strip(s[b..b + n]))
  }

  /** `(\d+)\s*hour` anchored at the start of `s`. */
  function HoursAt(s: string): Option<nat>
  {
    match Number(s)
    case None => None
    case Some((h, n)) => if StartsWith(s[n + LeadingSpaces(s[n..])..], "hour") then Some(h) else None
  }

  /** The leftmost position at or after `i` where the anchored matcher succeeds. */
  function Leftmost<T>(s: string, matcher: string -> Option<T>, i: nat): (k: Option<nat>)
    requires i <= |s|
    ensures k.Some? ==> i <= k.value <= |s| && matcher(s[k.value..]).Some?
    ensures k.Some? ==> forall j :: i <= j < k.value ==> matcher(s[j..]).None?
    ensures k.None? ==> forall j :: i <= j <= |s| ==> matcher(s[j..]).None?
    decreases |s| - i
  {
    if matcher(s[i..]).Some? then Some(i)
    else if i == |s| then None
    else Leftmost(s, matcher, i + 1)
  }

  /** `re.search`: the match at the leftmost position where there is one. */
  function Search<T>(s: string, matcher: string -> Option<T>): Option<T>
  {
    match Leftmost(s, matcher, 0)
    case None => None
    case Some(k) => matcher(s[k..])
  }

  /** A search finds what the anchored matcher finds at some position of `s`. */
  lemma SearchFinds<T>(s: string, matcher: string -> Option<T>)
    ensures Search(s, matcher).Some? <==> exists j :: 0 <= j <= |s| && matcher(s[j..]).Some?
    ensures Search(s, matcher).Some? ==> exists j :: 0 <= j <= |s| && matcher(s[j..]) == Search(s, matcher)
  {
  }

  /** The hours of an upcoming request: the first number before "hour", else two. */
  function UpcomingHours(m: string): nat
  {
    if Contains(m, "hour") then
      match Search<nat>(m, HoursAt)
      case Some(h) => h
      case None => DefaultHours
    else DefaultHours
  }

  /** The quick commands, in the order they are tried. */
  function Shortcut(m: string): Option<Command>
  {
    if AnyIn(m, TodayPhrases) then Some(ShowToday)
    else if AnyIn(m, UpcomingPhrases) then Some(ShowUpcoming(UpcomingHours(m)))
    else if AnyIn(m, StatsPhrases) then Some(ShowStats)
    else if AnyIn(m, PendingPhrases) then Some(ShowPending)
    else if AnyIn(m, ConfirmedPhrases) then Some(ShowConfirmed)
    else None
  }

  /** The two update patterns; as written the status pattern is tried first, and
      `guestsFirst` tries the guests pattern first. */
  function UpdateCommand(m: string, guestsFirst: bool): Option<Command>
  {
    var status := Search<(nat, string)>(m, StatusAt);
    var guests := Search<(nat, nat)>(m, GuestsAt);
    if status.Some? && !(guestsFirst && guests.Some?) then Some(SetStatus(status.value.0, status.value.1))
    else if guests.Some? then Some(SetGuests(guests.value.0, guests.value.1))
    else None
  }

  /** The details pattern, then the search pattern, then free text. */
  function Lookup(m: string): Command
  {
    match Search<nat>(m, DetailsAt)
    case Some(id) => ShowDetails(id)
    case None =>
      match Search<string>(m, SearchAt)
      case Some(q) => SearchFor(q)
      case None => FreeText
  }

  /** `chat_sync`'s routing as written: quick phrases, then status, guests, details, search.
      A later pattern is reached only when every earlier one fails. */
  function RouteAsWritten(message: string): (c: Command)
    ensures var m := Normal(message);
      && (c.ShowToday? <==> AnyIn(m, TodayPhrases))
      && (c.SetStatus? ==> Shortcut(m).None? && Search<(nat, string)>(m, StatusAt).Some?)
      && (c.SetGuests? ==> Shortcut(m).None? && Search<(nat, string)>(m, StatusAt).None?)
      && (c.ShowDetails? || c.SearchFor? || c.FreeText? ==>
            Shortcut(m).None? && Search<(nat, string)>(m, StatusAt).None? && Search<(nat, nat)>(m, GuestsAt).None?)
  {
    var m := Normal(message);
    match Shortcut(m)
    case Some(c) => c
    case None =>
      match UpdateCommand(m, false)
      case Some(c) => c
      case None => Lookup(m)
  }

  /** The routing the assistant's own examples call for: an explicit update (guests first,
      then status) before the quick phrases, then details and search. */
  function Route(message: string): Command
  {
    var m := Normal(message);
    match UpdateCommand(m, true)
    case Some(c) => c
    case None =>
      match Shortcut(m)
      case Some(c) => c
      case None => Lookup(m)
  }

  /** The reply and the new rows for a command. */
  function Answer(c: Command, rs: seq<Reservation>, rid: int, today: Date, now: Time, llm: Option<string>)
    : (Reply, seq<Reservation>)
  {
    match c
    case ShowToday => (Listing("todays_reservations", Query(rs, DayOf(rid, today), ByTime)), rs)
    case ShowUpcoming(h) => (Listing("upcoming_reservations", Query(rs, WindowAsWritten(rid, today, now, h), ByTime)), rs)
    case ShowStats => (StatsReply(TodaysStats(rs, rid, today)), rs)
    case ShowPending => (Listing("pending_bookings", Query(rs, FromDay(rid, today, "pending"), ByDateTime)), rs)
    case ShowConfirmed => (Listing("confirmed_bookings", Query(rs, FromDay(rid, today, "confirmed"), ByDateTime)), rs)
    case SetStatus(id, status) =>
      var change := StatusChange(rs, rid, id, status);
      (UpdateReply(change.0), change.1)
    case SetGuests(id, count) =>
      var change := GuestsChange(rs, rid, id, count);
      (UpdateReply(change.0), change.1)
    case ShowDetails(id) =>
      (Detail(id, match FindOwn(rs, rid, id) case None => None case Some(k) => Some(rs[k])), rs)
    case SearchFor(q) => (Listing("search", SearchRows(rs, rid, q)), rs)
    case FreeText => (Text(if llm.Some? then llm.value else HelpText), rs)
  }

  /** A substring of a suffix is a substring of the whole. */
  lemma ContainsInSuffix(s: string, j: nat, w: string)
    requires j <= |s| && Contains(s[j..], w)
    ensures Contains(s, w)
  {
    var i := ContainsWitness(s[j..], w);
    assert s[j + i..j + i + |w|] == s[j..][i..i + |w|];
    ContainsAt(s, w, j + i);
  }

  /** No quick command took the message, so it holds neither word. */
  lemma ShortcutNoneWords(m: string)
    requires Shortcut(m).None?
    ensures !Contains(m, "confirmed") && !Contains(m, "pending")
  {
    assert !AnyIn(m, PendingPhrases) && !AnyIn(m, ConfirmedPhrases);
  }

  /** The status word a search finds occurs in the message. */
  lemma SearchedStatusOccurs(m: string)
    requires Search<(nat, string)>(m, StatusAt).Some?
    ensures Contains(m, Search<(nat, string)>(m, StatusAt).value.1)
  {
    var k := Leftmost<(nat, string)>(m, StatusAt, 0).value;
    ContainsInSuffix(m, k, StatusAt(m[k..]).value.1);
  }

  /** As written, no message sets a status to "confirmed" or "pending": a message holding
      either word is taken by a quick command before the status pattern is tried. */
  lemma QuickPhrasesShadowStatus(message: string)
    ensures RouteAsWritten(message).SetStatus? ==>
              RouteAsWritten(message).status != "confirmed" && RouteAsWritten(message).status != "pending"
  {
    var m := Normal(message);
    var c := RouteAsWritten(message);
    if c.SetStatus? {
      assert Shortcut(m).None?;
      ShortcutNoneWords(m);
      var status := Search<(nat, string)>(m, StatusAt);
      assert status.Some? && c.status == status.value.1;
      SearchedStatusOccurs(m);
    }
  }

  /** A message a guests verb starts, a status verb starts too, with the same length. */
  lemma VerbsAgree(s: string)
    requires PrefixIn(s, GuestVerbs).Some?
    ensures PrefixIn(s, StatusVerbs) == PrefixIn(s, GuestVerbs)
  {
    if StartsWith(s, "update") {
      assert PrefixIn(s, GuestVerbs) == Some(6);
    } else if StartsWith(s, "change") {
      assert s[0] == 'c';
      assert PrefixIn(s, GuestVerbs) == Some(6);
      assert PrefixIn(s, ["set", "change"]) == PrefixIn(s, ["change"]) == Some(6);
      assert PrefixIn(s, StatusVerbs) == PrefixIn(s, ["mark", "set", "change"]);
    } else {
      assert PrefixIn(s, GuestVerbs) == PrefixIn(s, ["change", "set"]) == PrefixIn(s, ["set"]);
      assert StartsWith(s, "set") && s[0] == 's';
      assert PrefixIn(s, StatusVerbs) == PrefixIn(s, ["mark", "set", "change"]) == PrefixIn(s, ["set", "change"]);
    }
  }

  /** The head of an update depends only on the verb's length. */
  lemma HeadsAgree(s: string, verbs: seq<string>, others: seq<string>)
    requires PrefixIn(s, verbs) == PrefixIn(s, others)
    ensures UpdateHead(s, verbs) == UpdateHead(s, others)
  {
  }

  /** A status link starts with a letter. */
  lemma LinkLetter(t: string)
    ensures PrefixIn(t, StatusLinks).Some? ==> t != [] && (t[0] == 't' || t[0] == 'a' || t[0] == 's')
  {
  }

  /** A guest count starts with `to` and spaces, or with a digit; its digits end in a space. */
  lemma CountParts(t: string)
    requires GuestCount(t).Some?
    ensures CountStart(t) > 0 || (t != [] && IsDigit(t[0]))
    ensures var e := CountStart(t); Number(t[e..]).Some? && var n := Number(t[e..]).value.1;
            e + n < |t| && IsSpace(t[e + n])
  {
    var e := CountStart(t);
    var n := Number(t[e..]).value.1;
    assert LeadingSpaces(t[e + n..]) > 0;
  }

  /** After the id, a guest count led by "to" is also read as a status word, made of digits;
      a guest count without "to" is no status word at all. */
  lemma CountReadAsStatus(t: string)
    requires GuestCount(t).Some? && StatusWord(t).Some?
    ensures AllDigits(StatusWord(t).value)
  {
    LinkLetter(t);
    CountParts(t);
    var e := CountStart(t);
    var n := Number(t[e..]).value.1;
    LeadingWordCharsExact(t[e..], n);
    WordAfterTo(t, e, n);
  }

  /** A word after `to` and spaces is the status word. */
  lemma WordAfterTo(t: string, e: nat, n: nat)
    requires CountStart(t) == e > 0 && e + n <= |t|
    requires LeadingWordChars(t[e..]) == n > 0
    ensures StatusWord(t) == Some(t[e..e + n])
  {
    assert PrefixIn(t, StatusLinks) == Some(2);
  }

  /** The guests pattern and the status pattern at the same place: the status pattern
      matches too only by taking the guest count for the status word. */
  lemma GuestsShadowedAt(s: string)
    requires GuestsAt(s).Some?
    ensures StatusAt(s).Some? ==> StatusAt(s).value.0 == GuestsAt(s).value.0 && AllDigits(StatusAt(s).value.1)
  {
    VerbsAgree(s);
    HeadsAgree(s, StatusVerbs, GuestVerbs);
    var head := UpdateHead(s, GuestVerbs);
    var d := head.value.1;
    if StatusAt(s).Some? {
      CountReadAsStatus(s[d..]);
    }
  }

  /** A status word made of digits is never a valid status. */
  lemma DigitsNotStatus(w: string)
    requires AllDigits(w) && w != []
    ensures Lower(w) !in ValidStatuses
  {
    DigitsNoCapitals(w);
    LowerIdentity(w);
    assert IsDigit(w[0]);
    assert forall i :: 0 <= i < |ValidStatuses| ==> 'a' <= ValidStatuses[i][0] <= 'z';
  }

  /** The corrected routing differs from the one as written only for messages an update
      pattern matches. */
  lemma RouteAgreesWithoutUpdate(message: string)
    requires UpdateCommand(Normal(message), true).None?
    ensures Route(message) == RouteAsWritten(message)
  {
  }

  /** As written, a guest update whose count follows "to" is read by the status pattern first,
      with the guest count as the status word, and refused; with the guests pattern tried first
      the same message updates the guest count. */
  lemma GuestUpdateShadowed(message: string, rs: seq<Reservation>, rid: int)
    requires Shortcut(Normal(message)).None?
    requires GuestsAt(Normal(message)).Some? && StatusAt(Normal(message)).Some?
    ensures var m := Normal(message);
            RouteAsWritten(message) == SetStatus(GuestsAt(m).value.0, StatusAt(m).value.1)
            && StatusChange(rs, rid, GuestsAt(m).value.0, StatusAt(m).value.1).0 == InvalidStatus(StatusAt(m).value.1)
    ensures Route(message) == SetGuests(GuestsAt(Normal(message)).value.0, GuestsAt(Normal(message)).value.1)
  {
    var m := Normal(message);
    assert m[0..] == m;
    assert Leftmost<(nat, string)>(m, StatusAt, 0) == Some(0);
    assert Leftmost<(nat, nat)>(m, GuestsAt, 0) == Some(0);
    GuestsShadowedAt(m);
    DigitsNotStatus(StatusAt(m).value.1);
  }

  /** As written, a status update to "confirmed" lists bookings instead of updating: the word
      itself is a quick phrase. The corrected routing sets the status. */
  lemma ConfirmUpdateShadowed(message: string, id: nat)
    requires StatusAt(Normal(message)) == Some((id, "confirmed"))
    requires Search<(nat, nat)>(Normal(message), GuestsAt).None?
    ensures Shortcut(Normal(message)).Some? && RouteAsWritten(message) == Shortcut(Normal(message)).value
    ensures !RouteAsWritten(message).SetStatus?
    ensures Route(message) == SetStatus(id, "confirmed")
  {
    var m := Normal(message);
    QuickPhraseTaken(m);
    FirstStatusMatch(m, id, "confirmed");
  }

  /** A message holding "confirmed" is taken by a quick command. */
  lemma QuickPhraseTaken(m: string)
    requires Contains(m, "confirmed")
    ensures Shortcut(m).Some? && !Shortcut(m).value.SetStatus?
  {
    assert AnyIn(m, ConfirmedPhrases);
  }

  /** A status match at the start of the message is the one the search finds. */
  lemma FirstStatusMatch(m: string, id: nat, w: string)
    requires StatusAt(m) == Some((id, w))
    ensures Search<(nat, string)>(m, StatusAt) == Some((id, w))
  {
    assert m[0..] == m;
  }
}
