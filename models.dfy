/**
 * The persistent records of the booking service (app/models/models.py):
 * tenants with their trial and subscription state, users with their roles,
 * restaurants, tables and reservations.
 *
 * Tenant, Restaurant and User are classes because the service updates their
 * fields in place. Table and Reservation rows are values kept in sequences of
 * the `Database` class, which stands for the SQLAlchemy session; an update of
 * a row replaces it in its sequence. Instants are whole seconds, and the
 * current instant `now` is a parameter.
 */
module Models {
  import opened Wrappers
  import opened Calendar
  import opened DateTimeUtils

  const RoleAdmin := "admin"
  const RoleTenantSuperuser := "tenant_superuser"
  const RoleTenantUser := "tenant_user"
  const AllRoles := [RoleAdmin, RoleTenantSuperuser, RoleTenantUser]
  const TenantRoles := [RoleTenantSuperuser, RoleTenantUser]

  const PlanFreeTrial := "free_trial"
  const PlanStarter := "starter"
  const PlanProfessional := "professional"
  const PlanEnterprise := "enterprise"

  const StatusTrial := "trial"
  const StatusActive := "active"
  const StatusPastDue := "past_due"
  const StatusCancelled := "cancelled"
  const StatusExpired := "expired"

  const TrialDays := 14
  const TrialMaxBookings := 15
  const SecondsPerDay := 86400

  /** A restaurant; `isLive` (accepting real bookings) is switched by billing events. */
  class Restaurant {
    var id: int
    var tenantId: int
    var name: string
    var timezone: string
    var knowledgeBase: Option<string>
    var isActive: bool
    var isLive: bool

    constructor (id: int, tenantId: int, name: string, timezone: string)
      ensures this.id == id && this.tenantId == tenantId && this.name == name && this.timezone == timezone
      ensures knowledgeBase.None? && isActive && !isLive
    {
      this.id := id;
      this.tenantId := tenantId;
      this.name := name;
      this.timezone := timezone;
      knowledgeBase := None;
      isActive := true;
      isLive := false;
    }
  }

  /** A tenant (the company owning restaurants) and its trial and subscription state. */
  class Tenant {
    var id: int
    var name: string
    var email: string
    var subscriptionPlan: string
    var subscriptionStatus: string
    var trialStartDate: Option<int>
    var trialEndDate: Option<int>
    var trialBookingCount: Option<int>
    // The column is nullable, but its insert default (15) means no modelled path stores NULL.
    var trialBookingLimit: int
    var stripeCustomerId: Option<string>
    var stripeSubscriptionId: Option<string>
    var paymentStatus: string
    var lastPaymentDate: Option<int>
    var nextBillingDate: Option<int>
    var isActive: bool
    var restaurants: seq<Restaurant>

    /** A new tenant: a missing trial end is the trial start plus 14 days, and a
        missing start as well is `now`. */
    constructor (id: int, name: string, email: string, plan: string, status: string,
                 start: Option<int>, end: Option<int>, count: Option<int>, limit: int,
                 paymentStatus: string, now: int)
      ensures this.id == id && this.name == name && this.email == email
      ensures subscriptionPlan == plan && subscriptionStatus == status
      ensures trialBookingCount == count && trialBookingLimit == limit && this.paymentStatus == paymentStatus
      ensures end.Some? ==> trialStartDate == start && trialEndDate == end
      ensures end.None? && start.Some? ==>
                (trialStartDate == start && trialEndDate == Some(start.value + TrialDays * SecondsPerDay))
      ensures end.None? && start.None? ==>
                (trialStartDate == Some(now) && trialEndDate == Some(now + TrialDays * SecondsPerDay))
      ensures stripeCustomerId.None? && stripeSubscriptionId.None? && lastPaymentDate.None? && nextBillingDate.None?
      ensures isActive && restaurants == []
    {
      this.id := id;
      this.name := name;
      this.email := email;
      subscriptionPlan := plan;
      subscriptionStatus := status;
      trialBookingCount := count;
      trialBookingLimit := limit;
      this.paymentStatus := paymentStatus;
      stripeCustomerId := None;
      stripeSubscriptionId := None;
      lastPaymentDate := None;
      nextBillingDate := None;
      isActive := true;
      restaurants := [];
      if end.None? && start.Some? {
        trialStartDate := start;
        trialEndDate := Some(start.value + TrialDays * SecondsPerDay);
      } else if end.None? {
        trialStartDate := Some(now);
        trialEndDate := Some(now + TrialDays * SecondsPerDay);
      } else {
        trialStartDate := start;
        trialEndDate := end;
      }
    }

    predicate IsTrial()
      reads this
    {
      subscriptionPlan == PlanFreeTrial && subscriptionStatus == StatusTrial
    }

    predicate IsPaid()
      reads this
    {
      paymentStatus == "ok"
    }

    /** `is_trial_expired` at instant `now`; `None` stands for the TypeError that
        comparing a missing booking count raises. */
    function IsTrialExpired(now: int): (r: Option<bool>)
      reads this
      ensures !IsTrial() ==> r == Some(false)
      ensures IsTrial() && trialEndDate.Some? && now > trialEndDate.value ==> r == Some(true)
      ensures IsTrial() && trialBookingCount.Some? && trialBookingCount.value >= trialBookingLimit ==> r == Some(true)
      ensures r == Some(false) <==>
                (!IsTrial() || ((trialEndDate.None? || now <= trialEndDate.value)
                                && trialBookingCount.Some? && trialBookingCount.value < trialBookingLimit))
      ensures r.None? ==> IsTrial() && trialBookingCount.None?
    {
      if !IsTrial() then Some(false)
      else if trialEndDate.Some? && now > trialEndDate.value then Some(true)
      else if trialBookingCount.None? then None
      else Some(trialBookingCount.value >= trialBookingLimit)
    }

    /** Whole days left in the trial, never negative. */
    function TrialDaysRemaining(now: int): (r: int)
      reads this
      ensures r >= 0
      ensures !IsTrial() || trialEndDate.None? ==> r == 0
      ensures IsTrial() && trialEndDate.Some? && now <= trialEndDate.value ==>
                r * SecondsPerDay <= trialEndDate.value - now < (r + 1) * SecondsPerDay
      ensures IsTrial() && trialEndDate.Some? && now > trialEndDate.value ==> r == 0
    {
      if !IsTrial() || trialEndDate.None? then 0
      else
        var remaining := (trialEndDate.value - now) / SecondsPerDay;
        if remaining < 0 then 0 else remaining
    }

    /** Bookings left in the trial; `None` when the count is missing (a TypeError). */
    function TrialBookingsRemaining(): (r: Option<int>)
      reads this
      ensures r.Some? ==> r.value >= 0
      ensures !IsTrial() ==> r == Some(0)
      ensures IsTrial() && trialBookingCount.Some? ==>
                r.Some? && r.value + trialBookingCount.value >= trialBookingLimit
                && (r.value == 0 || r.value + trialBookingCount.value == trialBookingLimit)
      ensures r.None? <==> IsTrial() && trialBookingCount.None?
    {
      if !IsTrial() then Some(0)
      else if trialBookingCount.None? then None
      else
        var left := trialBookingLimit - trialBookingCount.value;
        Some(if left < 0 then 0 else left)
    }

    /** `can_make_booking`: a paying tenant always may; otherwise only a trial
        tenant whose trial has not expired. */
    function CanMakeBooking(now: int): (r: Option<bool>)
      reads this
      ensures IsPaid() ==> r == Some(true)
      ensures !IsPaid() ==> (r == Some(true) <==> IsTrial() && IsTrialExpired(now) == Some(false))
      ensures r.None? <==> !IsPaid() && IsTrialExpired(now).None?
    {
      if IsPaid() then Some(true)
      else if !IsTrial() then Some(false)
      else match IsTrialExpired(now)
        case None => None
        case Some(expired) => Some(!expired)
    }

    /** `increment_booking_count`: a missing count counts as 0. */
    method IncrementBookingCount()
      modifies this`trialBookingCount
      ensures trialBookingCount == Some(if old(trialBookingCount).None? then 1 else old(trialBookingCount).value + 1)
    {
      var count := if trialBookingCount.None? then 0 else trialBookingCount.value;
      trialBookingCount := Some(count + 1);
    }

    /** `activate_paid_subscription`: the tenant pays and is out of the trial. */
    method ActivatePaidSubscription(plan: string, now: int)
      modifies this`subscriptionPlan, this`subscriptionStatus, this`paymentStatus, this`lastPaymentDate
      ensures subscriptionPlan == plan && subscriptionStatus == StatusActive
      ensures paymentStatus == "ok" && lastPaymentDate == Some(now)
      ensures IsPaid() && !IsTrial()
      ensures forall t :: CanMakeBooking(t) == Some(true)
    {
      subscriptionPlan := plan;
      subscriptionStatus := StatusActive;
      paymentStatus := "ok";
      lastPaymentDate := Some(now);
    }
  }

  /** A user account; `tenantId` is missing only for system administrators. */
  class User {
    var id: int
    var email: string
    var firstName: string
    var lastName: string
    var role: string
    var isActive: bool
    var tenantId: Option<int>
    var lastLogin: Option<int>

    constructor (id: int, email: string, firstName: string, lastName: string, role: string, tenantId: Option<int>)
      ensures this.id == id && this.email == email && this.firstName == firstName && this.lastName == lastName
      ensures this.role == role && this.tenantId == tenantId && isActive && lastLogin.None?
    {
      this.id := id;
      this.email := email;
      this.firstName := firstName;
      this.lastName := lastName;
      this.role := role;
      this.tenantId := tenantId;
      isActive := true;
      lastLogin := None;
    }

    predicate IsAdmin() reads this { role == RoleAdmin }
    predicate IsTenantSuperuser() reads this { role == RoleTenantSuperuser }
    predicate IsTenantUser() reads this { role == RoleTenantUser }

    function CanViewTenant(tid: int): (r: bool)
      reads this
      ensures IsAdmin() ==> r
      ensures !IsAdmin() ==> (r <==> tenantId == Some(tid))
    {
      IsAdmin() || tenantId == Some(tid)
    }

    /** Managing a tenant needs admin, or superuser of that very tenant. */
    function CanManageTenant(tid: int): (r: bool)
      reads this
      ensures r ==> CanViewTenant(tid)
      ensures IsAdmin() ==> r
      ensures IsTenantUser() ==> !r
      ensures r && !IsAdmin() ==> IsTenantSuperuser() && tenantId == Some(tid)
    {
      if IsAdmin() then true
      else tenantId == Some(tid) && role in [RoleTenantSuperuser]
    }

    function CanViewRestaurant(restaurant: Restaurant): (r: bool)
      reads this, restaurant
      ensures IsAdmin() ==> r
      ensures r <==> CanViewTenant(restaurant.tenantId)
    {
      IsAdmin() || tenantId == Some(restaurant.tenantId)
    }

    function CanManageRestaurant(restaurant: Restaurant): (r: bool)
      reads this, restaurant
      ensures r ==> CanViewRestaurant(restaurant)
      ensures IsAdmin() ==> r
      ensures IsTenantUser() ==> !r
      ensures r <==> CanManageTenant(restaurant.tenantId)
    {
      if IsAdmin() then true
      else tenantId == Some(restaurant.tenantId) && role in [RoleTenantSuperuser]
    }

    function CanManageUsers(): (r: bool)
      reads this
      ensures r <==> IsAdmin() || IsTenantSuperuser()
      ensures IsTenantUser() ==> !r
    {
      role in [RoleAdmin, RoleTenantSuperuser]
    }
  }

  /** `is_trial` needs the free-trial plan and the trial status together, so a tenant
      whose status billing has moved to active, past due, cancelled or expired, or whose
      plan is a paid one, is out of its trial; `is_paid` alone lets the tenant book, and
      a tenant neither paying nor on trial cannot. */
  lemma TrialAndPaid(t: Tenant, now: int)
    ensures t.subscriptionStatus in {StatusActive, StatusPastDue, StatusCancelled, StatusExpired} ==> !t.IsTrial()
    ensures t.subscriptionPlan in {PlanStarter, PlanProfessional, PlanEnterprise} ==> !t.IsTrial()
    ensures t.IsPaid() ==> t.CanMakeBooking(now) == Some(true)
    ensures !t.IsPaid() && !t.IsTrial() ==> t.CanMakeBooking(now) != Some(true)
  {
  }

  /** `is_admin`, `is_tenant_superuser` and `is_tenant_user` test one role each: a user
      holds at most one of them, a tenant role is exactly one of the last two, and a
      role outside the three satisfies none. */
  lemma RolesExclusive(u: User)
    ensures !(u.IsAdmin() && u.IsTenantSuperuser()) && !(u.IsAdmin() && u.IsTenantUser())
            && !(u.IsTenantSuperuser() && u.IsTenantUser())
    ensures u.role in TenantRoles <==> u.IsTenantSuperuser() || u.IsTenantUser()
    ensures u.role in AllRoles <==> u.IsAdmin() || u.IsTenantSuperuser() || u.IsTenantUser()
  {
  }

  /** A table of a restaurant; its display name is its table number. */
  datatype Table = Table(id: int, restaurantId: int, tableNumber: string, capacity: int,
                         location: Option<string>, isAvailable: bool, isActive: bool)

  /** A reservation row. The schema declares date and time NOT NULL; they are
      optional here so that a schema allowing null (see `AddRequest`) can be stated. */
  datatype Reservation = Reservation(
    id: int, restaurantId: int, tableId: Option<int>,
    customerName: string, customerEmail: Option<string>, customerPhone: string,
    partySize: int, date: Option<Date>, time: Option<Time>, durationMinutes: int,
    status: string, specialRequests: Option<string>, source: string, isTrialBooking: bool)

  /** The values a new reservation is created with; `None` is a Python `None`. The id
      is assigned on insert. */
  datatype NewReservation = NewReservation(
    restaurantId: int, tableId: Option<int>,
    customerName: Option<string>, customerEmail: Option<string>, customerPhone: Option<string>,
    partySize: Option<int>, date: Option<Date>, time: Option<Time>, durationMinutes: int,
    status: string, specialRequests: Option<string>, source: string)

  /** A reservation holds its table only while pending or confirmed. */
  predicate Holding(r: Reservation) { r.status == "pending" || r.status == "confirmed" }

  /** Reservation ids are increasing in insertion order, hence unique. */
  predicate IdsIncreasing(rs: seq<Reservation>, next: int)
  {
    (forall i, j :: 0 <= i < j < |rs| ==> rs[i].id < rs[j].id)
    && (forall i :: 0 <= i < |rs| ==> rs[i].id < next)
  }

  /** The row stored for `n` under id `id`, when the NOT NULL columns allow it;
      `dateRequired` says whether date and time are among them. */
  function Row(n: NewReservation, id: int, dateRequired: bool): (r: Option<Reservation>)
    ensures r.Some? <==> n.customerName.Some? && n.customerPhone.Some? && n.partySize.Some?
                         && (dateRequired ==> n.date.Some? && n.time.Some?)
    ensures r.Some? ==> r.value.id == id && r.value.restaurantId == n.restaurantId && r.value.tableId == n.tableId
                        && r.value.status == n.status && r.value.source == n.source
                        && r.value.customerName == n.customerName.value && r.value.customerPhone == n.customerPhone.value
                        && r.value.partySize == n.partySize.value && r.value.date == n.date
                        && r.value.time == n.time && r.value.specialRequests == n.specialRequests
                        && r.value.customerEmail == n.customerEmail && !r.value.isTrialBooking
  {
    if n.customerName.None? || n.customerPhone.None? || n.partySize.None? then None
    else if dateRequired && (n.date.None? || n.time.None?) then None
    else Some(Reservation(id, n.restaurantId, n.tableId, n.customerName.value, n.customerEmail,
                          n.customerPhone.value, n.partySize.value, n.date, n.time, n.durationMinutes,
                          n.status, n.specialRequests, n.source, false))
  }

  /** The insert under the schema as declared: date and time are NOT NULL. */
  function Insertable(n: NewReservation, id: int): (r: Option<Reservation>)
    ensures r.Some? ==> r.value.date.Some? && r.value.time.Some?
  {
    Row(n, id, true)
  }

  /** The index of the reservation with id `id`, if any. */
  function FindReservation(rs: seq<Reservation>, id: int): (k: Option<nat>)
    ensures k.Some? ==> k.value < |rs| && rs[k.value].id == id
    ensures k.None? ==> forall i :: 0 <= i < |rs| ==> rs[i].id != id
  {
    if rs == [] then None
    else if rs[|rs| - 1].id == id then Some(|rs| - 1)
    else FindReservation(rs[..|rs| - 1], id)
  }

  /** A logged Stripe webhook event. */
  datatype StripeEvent = StripeEvent(eventId: string, eventType: string, processed: bool)

  /** Tenant ids are unique and every restaurant listed under a tenant carries that
      tenant's id, so no restaurant is listed under two tenants. */
  predicate Owned(tenants: seq<Tenant>)
    reads set t | t in tenants
    reads set t, r | t in tenants && r in t.restaurants :: r
  {
    (forall i, j :: 0 <= i < j < |tenants| ==> tenants[i].id != tenants[j].id)
    && (forall t, r :: t in tenants && r in t.restaurants ==> r.tenantId == t.id)
  }

  /** Two different tenants share no restaurant. */
  lemma OwnedApart(tenants: seq<Tenant>, i: nat, j: nat)
    requires Owned(tenants) && i < |tenants| && j < |tenants| && i != j
    ensures tenants[i] != tenants[j]
    ensures forall x :: x in tenants[i].restaurants ==> x !in tenants[j].restaurants
  {
    var u, t := tenants[i], tenants[j];
    assert u in tenants && t in tenants && u.id != t.id;
    forall x | x in u.restaurants
      ensures x !in t.restaurants
    {
      assert x.tenantId == u.id != t.id;
    }
  }

  /** The SQLAlchemy session: the rows of every table the service writes. */
  class Database {
    var tenants: seq<Tenant>
    var users: seq<User>
    var restaurants: seq<Restaurant>
    var tables: seq<Table>
    var reservations: seq<Reservation>
    var events: seq<StripeEvent>
    var nextReservationId: int
    var nextTableId: int

    predicate Valid()
      reads this, set t | t in tenants
      reads set t, r | t in tenants && r in t.restaurants :: r
    {
      IdsIncreasing(reservations, nextReservationId) && Owned(tenants)
    }

    constructor ()
      ensures Valid() && tenants == [] && users == [] && restaurants == [] && tables == [] && reservations == []
      ensures events == []
    {
      tenants := [];
      users := [];
      restaurants := [];
      tables := [];
      reservations := [];
      events := [];
      nextReservationId := 1;
      nextTableId := 1;
    }

    /** Insert and commit a reservation. A missing value in a NOT NULL column makes
        the commit fail, and nothing is written. */
    method AddReservation(n: NewReservation) returns (r: Option<Reservation>)
      requires Valid()
      modifies this`reservations, this`nextReservationId
      ensures Valid()
      ensures r == Insertable(n, old(nextReservationId))
      ensures r.Some? ==> reservations == old(reservations) + [r.value] && nextReservationId == old(nextReservationId) + 1
      ensures r.None? ==> reservations == old(reservations) && nextReservationId == old(nextReservationId)
    {
      r := Insertable(n, nextReservationId);
      if r.Some? {
        reservations := reservations + [r.value];
        nextReservationId := nextReservationId + 1;
      }
    }

    /** Insert and commit a reservation into a schema whose date and time columns are
        nullable, as a staff follow-up request without a preferred date needs. */
    method AddRequest(n: NewReservation) returns (r: Option<Reservation>)
      requires Valid()
      modifies this`reservations, this`nextReservationId
      ensures Valid()
      ensures r == Row(n, old(nextReservationId), false)
      ensures r.Some? ==> reservations == old(reservations) + [r.value] && nextReservationId == old(nextReservationId) + 1
      ensures r.None? ==> reservations == old(reservations) && nextReservationId == old(nextReservationId)
    {
      r := Row(n, nextReservationId, false);
      if r.Some? {
        reservations := reservations + [r.value];
        nextReservationId := nextReservationId + 1;
      }
    }

    /** Record a processed webhook event row. */
    method AddEvent(e: StripeEvent)
      requires Valid()
      modifies this`events
      ensures Valid() && events == old(events) + [e]
    {
      events := events + [e];
    }

    /** Insert a table row; `is_available` and `is_active` take their defaults. */
    method AddTable(restaurantId: int, tableNumber: string, capacity: int, location: Option<string>)
      returns (t: Table)
      requires Valid()
      modifies this`tables, this`nextTableId
      ensures Valid()
      ensures t == Table(old(nextTableId), restaurantId, tableNumber, capacity, location, true, true)
      ensures tables == old(tables) + [t] && nextTableId == old(nextTableId) + 1
    {
      t := Table(nextTableId, restaurantId, tableNumber, capacity, location, true, true);
      tables := tables + [t];
      nextTableId := nextTableId + 1;
    }

    /** Insert a tenant whose id no stored tenant has, with restaurants of its own. */
    method AddTenant(t: Tenant)
      requires Valid()
      requires forall u :: u in tenants ==> u.id != t.id
      requires forall r :: r in t.restaurants ==> r.tenantId == t.id
      modifies this`tenants
      ensures Valid() && tenants == old(tenants) + [t]
    {
      tenants := tenants + [t];
    }

    /** Insert a restaurant of a stored tenant; the tenant's `restaurants`
        relationship lists it from then on. */
    method AddRestaurant(r: Restaurant, owner: Tenant)
      requires Valid()
      requires owner in tenants && owner.id == r.tenantId
      modifies this`restaurants, owner`restaurants
      ensures Valid() && restaurants == old(restaurants) + [r]
      ensures owner.restaurants == old(owner.restaurants) + [r]
    {
      restaurants := restaurants + [r];
      owner.restaurants := owner.restaurants + [r];
    }

    /** Insert a restaurant whose tenant id names no stored tenant (the schema's
        foreign key is not enforced, as under SQLite's default settings). */
    method AddUnownedRestaurant(r: Restaurant)
      requires Valid()
      requires forall t :: t in tenants ==> t.id != r.tenantId
      modifies this`restaurants
      ensures Valid() && restaurants == old(restaurants) + [r]
    {
      restaurants := restaurants + [r];
    }

    /** Insert a user account. */
    method AddUser(u: User)
      requires Valid()
      modifies this`users
      ensures Valid() && users == old(users) + [u]
    {
      users := users + [u];
    }

    /** Replace the reservation at index `k` by `r`, keeping its id. */
    method SetReservation(k: nat, r: Reservation)
      requires Valid() && k < |reservations| && r.id == reservations[k].id
      modifies this`reservations
      ensures Valid()
      ensures reservations == old(reservations)[k := r]
    {
      reservations := reservations[k := r];
    }
  }
}
