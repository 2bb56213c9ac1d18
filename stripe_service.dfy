/**
 * Stripe billing (app/services/stripe_service.py): the price table consulted
 * when a checkout session is created, and the webhook handler that logs each
 * event once and moves the tenant's subscription state according to the event
 * type.
 *
 * The Stripe SDK (customers, sessions, signature checks) is not modelled; an
 * event arrives as the few fields of its payload the handlers read. The pure
 * functions `Dispatch` and `Webhook` state the transitions on a snapshot of the
 * billing state; the methods perform them on the tenant objects, and their
 * postconditions tie the new snapshot to those functions.
 */
module StripeService {
  import opened Wrappers
  import opened Text
  import opened Models

  // ---------------------------------------------------------------------------
  // Price lookup in create_checkout_session

  /** The four price keys and the environment variable that may override each. */
  const PriceTable: seq<(string, string, string)> := [
    ("starter_monthly", "STRIPE_PRICE_STARTER_MONTHLY", "price_starter_monthly"),
    ("starter_yearly", "STRIPE_PRICE_STARTER_YEARLY", "price_starter_yearly"),
    ("professional_monthly", "STRIPE_PRICE_PROFESSIONAL_MONTHLY", "price_professional_monthly"),
    ("professional_yearly", "STRIPE_PRICE_PROFESSIONAL_YEARLY", "price_professional_yearly")
  ]

  /** The price id under `key`, read from `env` with the built-in default. */
  function PriceFor(env: map<string, string>, key: string, table: seq<(string, string, string)>): Option<string>
  {
    if table == [] then None
    else if table[0].0 == key then Some(if table[0].1 in env then env[table[0].1] else table[0].2)
    else PriceFor(env, key, table[1..])
  }

  /** The price id `create_checkout_session` charges for `plan` and `period`;
      `None` when the key is unknown or its configured id is empty (the function
      then returns None). */
  function CheckoutPrice(env: map<string, string>, plan: string, period: string): (r: Option<string>)
  {
    var p := PriceFor(env, plan + "_" + period, PriceTable);
    if p.Some? && p.value != "" then p else None
  }

  /** The key is built with a single underscore; when neither half of a known key
      holds one, the plan and period are those halves. */
  lemma KeySplit(plan: string, period: string, a: string, b: string)
    requires plan + "_" + period == a + "_" + b
    requires '_' !in a && '_' !in b
    ensures plan == a && period == b
  {
    var key := plan + "_" + period;
    assert key[|plan|] == '_';
    assert key[..|a|] == plan && (a + "_" + b)[..|a|] == a;
    assert key[|a| + 1..] == period && (a + "_" + b)[|a| + 1..] == b;
  }

  lemma {:induction false} PriceForFound(env: map<string, string>, key: string, table: seq<(string, string, string)>)
    requires PriceFor(env, key, table).Some?
    ensures exists i :: 0 <= i < |table| && table[i].0 == key
  {
    if table[0].0 != key {
      PriceForFound(env, key, table[1..]);
      var i :| 0 <= i < |table[1..]| && table[1..][i].0 == key;
      assert table[i + 1].0 == key;
    }
  }

  lemma {:induction false} PriceForAt(env: map<string, string>, key: string, table: seq<(string, string, string)>, k: nat)
    requires k < |table| && table[k].0 == key && forall i :: 0 <= i < k ==> table[i].0 != key
    ensures PriceFor(env, key, table) == Some(if table[k].1 in env then env[table[k].1] else table[k].2)
  {
    if k > 0 {
      PriceForAt(env, key, table[1..], k - 1);
    }
  }

  /** Only starter and professional, monthly or yearly, have a price. */
  lemma CheckoutPlans(env: map<string, string>, plan: string, period: string)
    ensures CheckoutPrice(env, plan, period).Some? ==>
              (plan == "starter" || plan == "professional") && (period == "monthly" || period == "yearly")
  {
    var key := plan + "_" + period;
    if CheckoutPrice(env, plan, period).Some? {
      PricedKeys(env, key);
      if key == "starter_monthly" {
        KeySplit(plan, period, "starter", "monthly");
      } else if key == "starter_yearly" {
        KeySplit(plan, period, "starter", "yearly");
      } else if key == "professional_monthly" {
        KeySplit(plan, period, "professional", "monthly");
      } else {
        KeySplit(plan, period, "professional", "yearly");
      }
    }
  }

  /** The four keys of the price table are the only ones with a price. */
  lemma PricedKeys(env: map<string, string>, key: string)
    requires PriceFor(env, key, PriceTable).Some?
    ensures key in {"starter_monthly", "starter_yearly", "professional_monthly", "professional_yearly"}
  {
    PriceForFound(env, key, PriceTable);
  }

  /** With no environment override, all four combinations have a price. */
  lemma DefaultPrices(plan: string, period: string)
    requires plan == "starter" || plan == "professional"
    requires period == "monthly" || period == "yearly"
    ensures CheckoutPrice(map[], plan, period).Some?
  {
    var key := plan + "_" + period;
    var k := if plan == "starter" then (if period == "monthly" then 0 else 1) else (if period == "monthly" then 2 else 3);
    assert PriceTable[k].0 == key;
    PriceForAt(map[], key, PriceTable, k);
  }

  // ---------------------------------------------------------------------------
  // Events and the billing snapshot

  /** The payload fields the handlers read; a missing key is `None`. */
  datatype EventObject = EventObject(
    metadataTenantId: Option<string>, metadataPlan: Option<string>, subscription: Option<string>,
    id: Option<string>, customer: Option<string>, status: Option<string>, periodEnd: Option<int>)

  /** The event types `handle_webhook_event` dispatches on; any other type is kept by name. */
  datatype EventType =
    | CheckoutSessionCompleted
    | CustomerSubscriptionCreated
    | CustomerSubscriptionUpdated
    | CustomerSubscriptionDeleted
    | InvoicePaidEvent
    | InvoicePaymentFailedEvent
    | Unhandled(name: string)
  {
    predicate Handled() { !Unhandled? }
  }

  /** The `type` string Stripe sends for each event type. */
  function TypeName(t: EventType): string
  {
    match t
    case CheckoutSessionCompleted => "checkout.session.completed"
    case CustomerSubscriptionCreated => "customer.subscription.created"
    case CustomerSubscriptionUpdated => "customer.subscription.updated"
    case CustomerSubscriptionDeleted => "customer.subscription.deleted"
    case InvoicePaidEvent => "invoice.paid"
    case InvoicePaymentFailedEvent => "invoice.payment_failed"
    case Unhandled(name) => name
  }

  /** The `if`/`elif` chain on `event.type`: the handled type a string names, if any. */
  function ParseEventType(s: string): (t: EventType)
    ensures TypeName(t) == s
  {
    if s == "checkout.session.completed" then CheckoutSessionCompleted
    else if s == "customer.subscription.created" then CustomerSubscriptionCreated
    else if s == "customer.subscription.updated" then CustomerSubscriptionUpdated
    else if s == "customer.subscription.deleted" then CustomerSubscriptionDeleted
    else if s == "invoice.paid" then InvoicePaidEvent
    else if s == "invoice.payment_failed" then InvoicePaymentFailedEvent
    else Unhandled(s)
  }

  /** Parsing a type's name gives the type back, unless an unhandled name is spelled like a handled one. */
  lemma ParseTypeName(t: EventType)
    requires t.Unhandled? ==> ParseEventType(t.name).Unhandled?
    ensures ParseEventType(TypeName(t)) == t
  {
    match t
    case CheckoutSessionCompleted =>
    case CustomerSubscriptionCreated =>
    case CustomerSubscriptionUpdated =>
      assert TypeName(t)[22] != "customer.subscription.created"[22];
    case CustomerSubscriptionDeleted =>
      assert TypeName(t)[22] != "customer.subscription.created"[22];
      assert TypeName(t)[22] != "customer.subscription.updated"[22];
    case InvoicePaidEvent =>
      assert TypeName(t)[0] != "checkout.session.completed"[0];
    case InvoicePaymentFailedEvent =>
      assert TypeName(t)[0] != "checkout.session.completed"[0];
    case Unhandled(_) =>
  }

  /** An event as the handlers see it: its id, its parsed type and its payload. */
  datatype Event = Event(id: string, eventType: EventType, obj: EventObject)

  /** What billing events can change about one tenant; `live` lists its restaurants' flags. */
  datatype Account = Account(
    id: int, customerId: Option<string>, plan: string, status: string, subscriptionId: Option<string>,
    paymentStatus: string, lastPayment: Option<int>, nextBilling: Option<int>, live: seq<bool>)

  datatype Billing = Billing(log: seq<StripeEvent>, accounts: seq<Account>)

  function Flags(n: nat, b: bool): (r: seq<bool>)
    ensures |r| == n && forall i :: 0 <= i < n ==> r[i] == b
  {
    seq(n, _ => b)
  }

  /** `Tenant.query.get(id)`. */
  function TenantIndex(accounts: seq<Account>, id: int): (k: Option<nat>)
    ensures k.Some? ==> k.value < |accounts| && accounts[k.value].id == id
    ensures k.None? ==> forall i :: 0 <= i < |accounts| ==> accounts[i].id != id
  {
    if accounts == [] then None
    else if accounts[0].id == id then Some(0)
    else match TenantIndex(accounts[1..], id)
      case None => None
      case Some(k) => Some(k + 1)
  }

  /** `filter_by(stripe_customer_id=c).first()`; a missing customer matches a tenant
      without one, as SQL `IS NULL` does. */
  function CustomerIndex(accounts: seq<Account>, c: Option<string>): (k: Option<nat>)
    ensures k.Some? ==> k.value < |accounts| && accounts[k.value].customerId == c
                        && forall i :: 0 <= i < k.value ==> accounts[i].customerId != c
    ensures k.None? ==> forall i :: 0 <= i < |accounts| ==> accounts[i].customerId != c
  {
    if accounts == [] then None
    else if accounts[0].customerId == c then Some(0)
    else match CustomerIndex(accounts[1..], c)
      case None => None
      case Some(k) => Some(k + 1)
  }

  /** checkout.session.completed on the tenant it names. */
  function CheckoutCompleted(a: Account, obj: EventObject, now: int): (r: Account)
    ensures r.paymentStatus == "ok" && r.status == StatusActive && r.lastPayment == Some(now)
    ensures r.plan == (if obj.metadataPlan.Some? then obj.metadataPlan.value else PlanStarter)
    ensures r.subscriptionId == obj.subscription
    ensures |r.live| == |a.live| && forall i :: 0 <= i < |r.live| ==> r.live[i]
    ensures r.id == a.id && r.customerId == a.customerId && r.nextBilling == a.nextBilling
  {
    a.(subscriptionId := obj.subscription,
       plan := if obj.metadataPlan.Some? then obj.metadataPlan.value else PlanStarter,
       status := StatusActive, paymentStatus := "ok", lastPayment := Some(now),
       live := Flags(|a.live|, true))
  }

  function SubscriptionCreated(a: Account, obj: EventObject): (r: Account)
    ensures r == a.(subscriptionId := obj.id, status := StatusActive)
  {
    a.(subscriptionId := obj.id, status := StatusActive)
  }

  /** customer.subscription.updated: Stripe's status mapped onto the tenant's. */
  function SubscriptionUpdated(a: Account, obj: EventObject): (r: Account)
    ensures obj.status == Some("active") ==> r == a.(status := StatusActive, paymentStatus := "ok")
    ensures obj.status == Some("past_due") ==> r == a.(status := StatusPastDue, paymentStatus := "failed")
    ensures obj.status == Some("canceled") || obj.status == Some("unpaid") ==>
              r == a.(status := StatusCancelled, paymentStatus := "failed", live := Flags(|a.live|, false))
    ensures obj.status !in {Some("active"), Some("past_due"), Some("canceled"), Some("unpaid")} ==> r == a
  {
    if obj.status == Some("active") then a.(status := StatusActive, paymentStatus := "ok")
    else if obj.status == Some("past_due") then a.(status := StatusPastDue, paymentStatus := "failed")
    else if obj.status == Some("canceled") || obj.status == Some("unpaid") then
      a.(status := StatusCancelled, paymentStatus := "failed", live := Flags(|a.live|, false))
    else a
  }

  function SubscriptionDeleted(a: Account): (r: Account)
    ensures r.status == StatusCancelled && r.paymentStatus == "failed" && r.subscriptionId.None?
    ensures |r.live| == |a.live| && forall i :: 0 <= i < |r.live| ==> !r.live[i]
    ensures r.(status := a.status, paymentStatus := a.paymentStatus, subscriptionId := a.subscriptionId, live := a.live) == a
  {
    a.(status := StatusCancelled, paymentStatus := "failed", subscriptionId := None, live := Flags(|a.live|, false))
  }

  /** invoice.paid: a period end of 0 is falsy and leaves the next billing date alone. */
  function InvoicePaid(a: Account, obj: EventObject, now: int): (r: Account)
    ensures r.paymentStatus == "ok" && r.lastPayment == Some(now) && r.status == a.status
    ensures r.nextBilling == (if obj.periodEnd.Some? && obj.periodEnd.value != 0 then obj.periodEnd else a.nextBilling)
    ensures r.(paymentStatus := a.paymentStatus, lastPayment := a.lastPayment, nextBilling := a.nextBilling) == a
  {
    var b := a.(paymentStatus := "ok", lastPayment := Some(now));
    if obj.periodEnd.Some? && obj.periodEnd.value != 0 then b.(nextBilling := obj.periodEnd) else b
  }

  function InvoicePaymentFailed(a: Account): (r: Account)
    ensures r == a.(paymentStatus := "failed", status := StatusPastDue)
  {
    a.(paymentStatus := "failed", status := StatusPastDue)
  }

  /** The tenant an event is about: `None` when looking it up raises (a tenant id
      in the metadata that `int()` rejects), `Some(None)` when there is none. */
  function Target(accounts: seq<Account>, ev: Event): (r: Option<Option<nat>>)
    ensures r.Some? && r.value.Some? ==> r.value.value < |accounts| && ev.eventType.Handled()
    ensures r.None? ==> ev.eventType == CheckoutSessionCompleted
  {
    var obj := ev.obj;
    if ev.eventType == CheckoutSessionCompleted then
      var tid := obj.metadataTenantId;
      if tid.None? || tid.value == "" then Some(None)
      else match ParseInt(tid.value)
        case None => None
        case Some(n) => Some(TenantIndex(accounts, n))
    else if ev.eventType.Handled() then Some(CustomerIndex(accounts, obj.customer))
    else Some(None)
  }

  /** The transition the event type selects. */
  function Handle(a: Account, ev: Event, now: int): Account
  {
    match ev.eventType
    case CheckoutSessionCompleted => CheckoutCompleted(a, ev.obj, now)
    case CustomerSubscriptionCreated => SubscriptionCreated(a, ev.obj)
    case CustomerSubscriptionUpdated => SubscriptionUpdated(a, ev.obj)
    case CustomerSubscriptionDeleted => SubscriptionDeleted(a)
    case InvoicePaidEvent => InvoicePaid(a, ev.obj, now)
    case InvoicePaymentFailedEvent => InvoicePaymentFailed(a)
    case Unhandled(_) => a
  }

  /** The handler chosen by the event type, on the accounts; `None` when it raises. */
  function Dispatch(accounts: seq<Account>, ev: Event, now: int): (r: Option<seq<Account>>)
    ensures r.Some? ==> |r.value| == |accounts|
    ensures r.None? ==> ev.eventType == CheckoutSessionCompleted
    ensures !ev.eventType.Handled() ==> r == Some(accounts)
  {
    match Target(accounts, ev)
    case None => None
    case Some(None) => Some(accounts)
    case Some(Some(k)) => Some(accounts[k := Handle(accounts[k], ev, now)])
  }

  predicate Logged(log: seq<StripeEvent>, id: string)
  {
    exists i :: 0 <= i < |log| && log[i].eventId == id
  }

  /** `handle_webhook_event` after the signature check: a known event id is
      acknowledged; a new one is dispatched and logged as processed; a handler
      that raises rolls everything back and the answer is False. */
  function Webhook(b: Billing, ev: Event, now: int): (r: (bool, Billing))
    ensures Logged(b.log, ev.id) ==> r == (true, b)
    ensures !r.0 ==> r.1 == b
    ensures r.0 && !Logged(b.log, ev.id) ==>
              r.1.log == b.log + [StripeEvent(ev.id, TypeName(ev.eventType), true)] && Dispatch(b.accounts, ev, now) == Some(r.1.accounts)
  {
    if Logged(b.log, ev.id) then (true, b)
    else match Dispatch(b.accounts, ev, now)
      case None => (false, b)
      case Some(accounts) => (true, Billing(b.log + [StripeEvent(ev.id, TypeName(ev.eventType), true)], accounts))
  }

  /** Delivering the same event again changes nothing, whatever the clock says. */
  lemma WebhookIdempotent(b: Billing, ev: Event, now: int, later: int)
    ensures Webhook(Webhook(b, ev, now).1, ev, later).1 == Webhook(b, ev, now).1
  {
    var r := Webhook(b, ev, now);
    if !Logged(b.log, ev.id) && r.0 {
      var log := r.1.log;
      assert log[|log| - 1].eventId == ev.id;
    } else if !Logged(b.log, ev.id) {
      assert Dispatch(b.accounts, ev, later).None?;
    }
  }

  /** An event type no handler knows is only logged. */
  lemma UnknownEventOnlyLogged(b: Billing, ev: Event, now: int)
    requires ev.eventType.Unhandled?
    requires !Logged(b.log, ev.id)
    ensures Webhook(b, ev, now) == (true, Billing(b.log + [StripeEvent(ev.id, TypeName(ev.eventType), true)], b.accounts))
  {
  }

  /** A handler touches at most one tenant: the one the event names. */
  lemma DispatchTouchesOne(accounts: seq<Account>, ev: Event, now: int, j: nat)
    requires j < |accounts|
    requires Dispatch(accounts, ev, now).Some?
    requires if ev.eventType == CheckoutSessionCompleted
             then ev.obj.metadataTenantId.None? || ev.obj.metadataTenantId.value == ""
                  || ParseInt(ev.obj.metadataTenantId.value) != Some(accounts[j].id)
             else accounts[j].customerId != ev.obj.customer
    ensures Dispatch(accounts, ev, now).value[j] == accounts[j]
  {
    if ev.eventType != CheckoutSessionCompleted {
      var k := CustomerIndex(accounts, ev.obj.customer);
      assert k.Some? ==> k.value != j;
    } else if !(ev.obj.metadataTenantId.None? || ev.obj.metadataTenantId.value == "") {
      var k := TenantIndex(accounts, ParseInt(ev.obj.metadataTenantId.value).value);
      assert k.Some? ==> k.value != j;
    }
  }

  // ---------------------------------------------------------------------------
  // The handlers on the tenant objects

  function LiveFlags(rs: seq<Restaurant>): (r: seq<bool>)
    reads set x | x in rs
    ensures |r| == |rs| && forall i :: 0 <= i < |rs| ==> r[i] == rs[i].isLive
  {
    if rs == [] then [] else LiveFlags(rs[..|rs| - 1]) + [rs[|rs| - 1].isLive]
  }

  function AccountOf(t: Tenant): Account
    reads t, set x | x in t.restaurants
  {
    Account(t.id, t.stripeCustomerId, t.subscriptionPlan, t.subscriptionStatus, t.stripeSubscriptionId,
            t.paymentStatus, t.lastPaymentDate, t.nextBillingDate, LiveFlags(t.restaurants))
  }

  function Accounts(ts: seq<Tenant>): (r: seq<Account>)
    reads set t | t in ts
    reads set t, x | t in ts && x in t.restaurants :: x
    ensures |r| == |ts|
  {
    if ts == [] then [] else Accounts(ts[..|ts| - 1]) + [AccountOf(ts[|ts| - 1])]
  }

  /** Entry `i` of the snapshot is tenant `i`'s account. */
  lemma {:induction false} AccountsAt(ts: seq<Tenant>, i: nat)
    requires i < |ts|
    ensures Accounts(ts)[i] == AccountOf(ts[i])
  {
    if i < |ts| - 1 {
      AccountsAt(ts[..|ts| - 1], i);
    }
  }

  function BillingOf(db: Database): Billing
    reads db, set t | t in db.tenants
    reads set t, x | t in db.tenants && x in t.restaurants :: x
  {
    Billing(db.events, Accounts(db.tenants))
  }

  /** A tenant whose object and restaurants are untouched keeps its account. */
  twostate lemma AccountKept(t: Tenant)
    requires unchanged(t) && unchanged(t.restaurants)
    ensures AccountOf(t) == old(AccountOf(t))
  {
    LiveFlagsUnchanged(t.restaurants);
  }

  twostate lemma {:induction false} LiveFlagsUnchanged(rs: seq<Restaurant>)
    requires unchanged(rs)
    ensures LiveFlags(rs) == old(LiveFlags(rs))
  {
    if rs != [] {
      assert forall x :: x in rs[..|rs| - 1] ==> x in rs;
      LiveFlagsUnchanged(rs[..|rs| - 1]);
    }
  }

  /** The loop `for restaurant in tenant.restaurants: restaurant.is_live = live`. */
  method SetLive(t: Tenant, live: bool)
    modifies (set x | x in t.restaurants)`isLive
    ensures LiveFlags(t.restaurants) == Flags(|t.restaurants|, live)
    ensures forall x :: x in t.restaurants ==> x.tenantId == old(x.tenantId)
  {
    var i := 0;
    while i < |t.restaurants|
      invariant 0 <= i <= |t.restaurants|
      invariant forall j :: 0 <= j < i ==> t.restaurants[j].isLive == live
      invariant forall x :: x in t.restaurants ==> x.tenantId == old(x.tenantId)
    {
      t.restaurants[i].isLive := live;
      i := i + 1;
    }
  }

  /** A tenant no handler ran on: neither it nor its restaurants changed. */
  twostate predicate Untouched(t: Tenant)
    reads t, set x | x in t.restaurants
  {
    unchanged(t) && unchanged(t.restaurants)
  }

  /** Fields a handler must leave alone so that `Owned` keeps holding. */
  twostate predicate Anchored(t: Tenant)
    reads t, set x | x in t.restaurants
  {
    t.id == old(t.id) && t.stripeCustomerId == old(t.stripeCustomerId) && t.restaurants == old(t.restaurants)
    && forall x :: x in t.restaurants ==> x.tenantId == old(x.tenantId)
  }

  /** `handle_checkout_completed` once the tenant is found. */
  method CheckoutTenant(t: Tenant, obj: EventObject, now: int)
    modifies t`stripeSubscriptionId, t`subscriptionPlan, t`subscriptionStatus, t`paymentStatus,
             t`lastPaymentDate, (set x | x in t.restaurants)`isLive
    ensures AccountOf(t) == CheckoutCompleted(old(AccountOf(t)), obj, now)
    ensures Anchored(t)
  {
    ghost var a0 := AccountOf(t);
    var plan := if obj.metadataPlan.Some? then obj.metadataPlan.value else PlanStarter;
    t.stripeSubscriptionId := obj.subscription;
    t.ActivatePaidSubscription(plan, now);
    SetLive(t, true);
    assert AccountOf(t) == a0.(subscriptionId := obj.subscription, plan := plan, status := StatusActive,
                               paymentStatus := "ok", lastPayment := Some(now), live := Flags(|a0.live|, true));
  }

  /** `handle_subscription_updated` once the tenant is found. */
  method UpdateTenantSubscription(t: Tenant, obj: EventObject)
    modifies t`subscriptionStatus, t`paymentStatus, (set x | x in t.restaurants)`isLive
    ensures AccountOf(t) == SubscriptionUpdated(old(AccountOf(t)), obj)
    ensures Anchored(t)
  {
    var status := obj.status;
    if status == Some("active") {
      t.subscriptionStatus := StatusActive;
      t.paymentStatus := "ok";
    } else if status == Some("past_due") {
      t.subscriptionStatus := StatusPastDue;
      t.paymentStatus := "failed";
    } else if status == Some("canceled") || status == Some("unpaid") {
      t.subscriptionStatus := StatusCancelled;
      t.paymentStatus := "failed";
      SetLive(t, false);
    }
  }

  /** `handle_subscription_deleted` once the tenant is found. */
  method DeleteTenantSubscription(t: Tenant)
    modifies t`subscriptionStatus, t`paymentStatus, t`stripeSubscriptionId, (set x | x in t.restaurants)`isLive
    ensures AccountOf(t) == SubscriptionDeleted(old(AccountOf(t)))
    ensures Anchored(t)
  {
    t.subscriptionStatus := StatusCancelled;
    t.paymentStatus := "failed";
    t.stripeSubscriptionId := None;
    SetLive(t, false);
  }

  /** `handle_invoice_paid` once the tenant is found. */
  method InvoicePaidTenant(t: Tenant, obj: EventObject, now: int)
    modifies t`paymentStatus, t`lastPaymentDate, t`nextBillingDate
    ensures AccountOf(t) == InvoicePaid(old(AccountOf(t)), obj, now)
    ensures Anchored(t)
  {
    t.paymentStatus := "ok";
    t.lastPaymentDate := Some(now);
    if obj.periodEnd.Some? && obj.periodEnd.value != 0 {
      t.nextBillingDate := obj.periodEnd;
    }
  }

  /** `handle_subscription_created` once the tenant is found. */
  method CreateTenantSubscription(t: Tenant, obj: EventObject)
    modifies t`stripeSubscriptionId, t`subscriptionStatus
    ensures AccountOf(t) == SubscriptionCreated(old(AccountOf(t)), obj)
    ensures Anchored(t)
  {
    t.stripeSubscriptionId := obj.id;
    t.subscriptionStatus := StatusActive;
  }

  /** `handle_invoice_payment_failed` once the tenant is found. */
  method PaymentFailedTenant(t: Tenant)
    modifies t`paymentStatus, t`subscriptionStatus
    ensures AccountOf(t) == InvoicePaymentFailed(old(AccountOf(t)))
    ensures Anchored(t)
  {
    t.paymentStatus := "failed";
    t.subscriptionStatus := StatusPastDue;
  }

  /** The handler for the event's type, run on the tenant it names. */
  method HandleTenant(t: Tenant, ev: Event, now: int)
    requires ev.eventType.Handled()
    modifies t`stripeSubscriptionId, t`subscriptionPlan, t`subscriptionStatus, t`paymentStatus,
             t`lastPaymentDate, t`nextBillingDate, (set x | x in t.restaurants)`isLive
    ensures AccountOf(t) == Handle(old(AccountOf(t)), ev, now)
    ensures Anchored(t)
  {
    match ev.eventType
    case CheckoutSessionCompleted => CheckoutTenant(t, ev.obj, now);
    case CustomerSubscriptionCreated => CreateTenantSubscription(t, ev.obj);
    case CustomerSubscriptionUpdated => UpdateTenantSubscription(t, ev.obj);
    case CustomerSubscriptionDeleted => DeleteTenantSubscription(t);
    case InvoicePaidEvent => InvoicePaidTenant(t, ev.obj, now);
    case InvoicePaymentFailedEvent => PaymentFailedTenant(t);
  }

  /** Run the handler on tenant `k`; every other tenant keeps its account. */
  method HandleAt(db: Database, k: nat, ev: Event, now: int)
    requires db.Valid() && k < |db.tenants| && ev.eventType.Handled()
    modifies db.tenants`stripeSubscriptionId, db.tenants`subscriptionPlan, db.tenants`subscriptionStatus,
             db.tenants`paymentStatus, db.tenants`lastPaymentDate, db.tenants`nextBillingDate,
             (set t, x | t in db.tenants && x in t.restaurants :: x)`isLive
    ensures db.Valid()
    ensures Accounts(db.tenants) == old(Accounts(db.tenants))[k := Handle(old(Accounts(db.tenants))[k], ev, now)]
  {
    ghost var before := Accounts(db.tenants);
    var t := db.tenants[k];
    forall j | 0 <= j < |db.tenants|
      ensures before[j] == AccountOf(db.tenants[j])
      ensures j != k ==> db.tenants[j] != t && forall x :: x in db.tenants[j].restaurants ==> x !in t.restaurants
    {
      AccountsAt(db.tenants, j);
      if j != k {
        OwnedApart(db.tenants, j, k);
      }
    }
    HandleTenant(t, ev, now);
    OneTenantChanged(db, k, before);
  }

  /** When only tenant `k` and its restaurants changed, and `k` kept the fields
      `Owned` depends on, the session stays valid and only entry `k` of the
      snapshot `before` moves. */
  twostate lemma OneTenantChanged(new db: Database, k: nat, new before: seq<Account>)
    requires old(allocated(db)) && old(db.Valid()) && unchanged(db) && k < |db.tenants|
    requires Anchored(db.tenants[k])
    requires forall j :: 0 <= j < |db.tenants| && j != k ==> Untouched(db.tenants[j])
    requires |before| == |db.tenants|
    requires forall j :: 0 <= j < |db.tenants| ==> before[j] == old(AccountOf(db.tenants[j]))
    ensures db.Valid()
    ensures Accounts(db.tenants) == before[k := AccountOf(db.tenants[k])]
  {
    var ts := db.tenants;
    forall j | 0 <= j < |ts|
      ensures Accounts(ts)[j] == before[k := AccountOf(ts[k])][j]
    {
      AccountsAt(ts, j);
      if j != k {
        AccountKept(ts[j]);
      }
    }
    forall i | 0 <= i < |ts|
      ensures forall x :: x in ts[i].restaurants ==> x.tenantId == ts[i].id
    {
      assert ts[i] in ts;
    }
  }

  /** The handler chosen by `handle_webhook_event`, run on the tenant objects. */
  method DispatchEvent(db: Database, ev: Event, now: int) returns (raised: bool)
    requires db.Valid()
    modifies db.tenants`stripeSubscriptionId, db.tenants`subscriptionPlan, db.tenants`subscriptionStatus,
             db.tenants`paymentStatus, db.tenants`lastPaymentDate, db.tenants`nextBillingDate,
             (set t, x | t in db.tenants && x in t.restaurants :: x)`isLive
    ensures db.Valid()
    ensures raised ==> Dispatch(old(Accounts(db.tenants)), ev, now).None? && Accounts(db.tenants) == old(Accounts(db.tenants))
    ensures !raised ==> Dispatch(old(Accounts(db.tenants)), ev, now) == Some(Accounts(db.tenants))
  {
    var accounts := Accounts(db.tenants);
    var target := Target(accounts, ev);
    raised := target.None?;
    if target.Some? && target.value.Some? {
      HandleAt(db, target.value.value, ev, now);
    }
  }

  /** `handle_webhook_event`: a duplicate id is acknowledged untouched; otherwise the
      event is logged, dispatched and marked processed, or everything is rolled
      back when the handler raises. */
  method HandleWebhookEvent(db: Database, ev: Event, now: int) returns (ok: bool)
    requires db.Valid()
    modifies db`events, db.tenants`stripeSubscriptionId, db.tenants`subscriptionPlan, db.tenants`subscriptionStatus,
             db.tenants`paymentStatus, db.tenants`lastPaymentDate, db.tenants`nextBillingDate,
             (set t, x | t in db.tenants && x in t.restaurants :: x)`isLive
    ensures db.Valid()
    ensures (ok, BillingOf(db)) == Webhook(old(BillingOf(db)), ev, now)
  {
    if Logged(db.events, ev.id) {
      return true;
    }
    ok := ProcessNewEvent(db, ev, now);
  }

  /** The part of `handle_webhook_event` after the duplicate check. */
  method ProcessNewEvent(db: Database, ev: Event, now: int) returns (ok: bool)
    requires db.Valid()
    modifies db`events, db.tenants`stripeSubscriptionId, db.tenants`subscriptionPlan, db.tenants`subscriptionStatus,
             db.tenants`paymentStatus, db.tenants`lastPaymentDate, db.tenants`nextBillingDate,
             (set t, x | t in db.tenants && x in t.restaurants :: x)`isLive
    ensures db.Valid() && db.tenants == old(db.tenants)
    ensures ok == Dispatch(old(Accounts(db.tenants)), ev, now).Some?
    ensures ok ==> db.events == old(db.events) + [StripeEvent(ev.id, TypeName(ev.eventType), true)]
                   && Dispatch(old(Accounts(db.tenants)), ev, now) == Some(Accounts(db.tenants))
    ensures !ok ==> db.events == old(db.events) && Accounts(db.tenants) == old(Accounts(db.tenants))
  {
    // A handler that raises rolls the whole transaction back, the event row included.
    var raised := DispatchEvent(db, ev, now);
    ok := !raised;
    if ok {
      db.AddEvent(StripeEvent(ev.id, TypeName(ev.eventType), true));
    }
  }
}
