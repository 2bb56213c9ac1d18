/**
 * Sign-in and sign-up (app/routes/auth.py): the validation of a registration,
 * the tenant, first restaurant, sample tables and superuser it creates, and the
 * login guard that turns deactivated accounts away.
 *
 * A submitted form is a map from field names to strings; a field the request
 * does not carry is absent from the map. Password hashing is a parameter:
 * `passwordMatches(id, p)` says whether a submitted password `p` matches the
 * stored hash of the user with id `id`. New row ids follow SQLite's rule for an integer primary key:
 * one more than the largest id stored.
 */
module Auth {
  import opened Wrappers
  import opened Text
  import opened Models

  /** `form.get(key, default)`. */
  function FormGet(form: map<string, string>, key: string, default: string): string
  {
    if key in form then form[key] else default
  }

  /** `form.get(key)`: `None` when the field is absent. */
  function FormValue(form: map<string, string>, key: string): Option<string>
  {
    if key in form then Some(form[key]) else None
  }

  const MinPasswordLength := 8
  const DefaultTimezone := "America/New_York"
  const DefaultFirstName := "Admin"
  const DefaultLastName := "User"

  /** A string as `str.strip()` leaves it: no whitespace at either end. */
  predicate Trimmed(s: string)
  {
    s == [] || (!IsSpace(s[0]) && !IsSpace(s[|s| - 1]))
  }

  /** The registration fields as the handler reads them. */
  datatype RegisterInput = RegisterInput(
    companyName: string, restaurantName: string, email: string,
    password: Option<string>, confirmPassword: Option<string>,
    firstName: string, lastName: string, timezone: string)

  /** Text fields are stripped and default to ''; the passwords are taken as
      submitted; the time zone defaults only when absent; a blank company name
      becomes the restaurant name. */
  function ReadRegisterForm(form: map<string, string>): (input: RegisterInput)
    ensures Trimmed(input.companyName) && Trimmed(input.restaurantName) && Trimmed(input.email)
    ensures Trimmed(input.firstName) && Trimmed(input.lastName)
    ensures input.restaurantName == Strip(FormGet(form, "restaurant_name", ""))
    ensures input.email == Strip(FormGet(form, "email", ""))
    ensures input.companyName == "" ==> input.restaurantName == ""
    ensures input.companyName == Strip(FormGet(form, "company_name", "")) || input.companyName == input.restaurantName
    ensures input.password == FormValue(form, "password")
    ensures input.confirmPassword == FormValue(form, "confirm_password")
    ensures "timezone" !in form ==> input.timezone == DefaultTimezone
    ensures "timezone" in form ==> input.timezone == form["timezone"]
  {
    var company := Strip(FormGet(form, "company_name", ""));
    var restaurant := Strip(FormGet(form, "restaurant_name", ""));
    RegisterInput(
      if company == "" then restaurant else company,
      restaurant,
      Strip(FormGet(form, "email", "")),
      FormValue(form, "password"),
      FormValue(form, "confirm_password"),
      Strip(FormGet(form, "first_name", "")),
      Strip(FormGet(form, "last_name", "")),
      FormGet(form, "timezone", DefaultTimezone))
  }

  /** The validation messages, in the order the handler collects them. */
  datatype RegisterError =
    | RestaurantNameRequired
    | EmailRequired
    | PasswordRequired
    | PasswordTooShort
    | PasswordsDoNotMatch
    | EmailTaken

  function Rank(e: RegisterError): nat
  {
    match e
    case RestaurantNameRequired => 0
    case EmailRequired => 1
    case PasswordRequired => 2
    case PasswordTooShort => 3
    case PasswordsDoNotMatch => 4
    case EmailTaken => 5
  }

  /** A missing or empty password (Python's `not password`). */
  predicate Blank(p: Option<string>) { p.None? || p.value == "" }

  /** What the validation looks at: the read fields, and whether a user already
      has the email. */
  datatype Submission = Submission(restaurantName: string, email: string, password: Option<string>,
                                   confirmPassword: Option<string>, taken: bool)

  /** The condition under which each message is reported; a blank password is
      reported as missing, not as short. */
  predicate Fails(e: RegisterError, s: Submission)
  {
    match e
    case RestaurantNameRequired => s.restaurantName == ""
    case EmailRequired => s.email == ""
    case PasswordRequired => Blank(s.password)
    case PasswordTooShort => !Blank(s.password) && |s.password.value| < MinPasswordLength
    case PasswordsDoNotMatch => s.password != s.confirmPassword
    case EmailTaken => s.taken
  }

  /** The checks in the order the handler runs them. */
  const CheckOrder := [RestaurantNameRequired, EmailRequired, PasswordRequired, PasswordTooShort,
                       PasswordsDoNotMatch, EmailTaken]

  predicate RankIncreasing(es: seq<RegisterError>)
  {
    forall i, j :: 0 <= i < j < |es| ==> Rank(es[i]) < Rank(es[j])
  }

  /** The failing checks among `checks`, kept in their order. */
  function Failing(checks: seq<RegisterError>, s: Submission): (errors: seq<RegisterError>)
    ensures forall e :: e in errors <==> e in checks && Fails(e, s)
  {
    if checks == [] then []
    else (if Fails(checks[0], s) then [checks[0]] else []) + Failing(checks[1..], s)
  }

  /** Keeping only the failing checks keeps them in check order, above any
      rank the checks are all above. */
  lemma {:induction false} FailingKeepsOrder(checks: seq<RegisterError>, s: Submission, floor: int)
    requires RankIncreasing(checks)
    requires forall i :: 0 <= i < |checks| ==> floor < Rank(checks[i])
    ensures RankIncreasing(Failing(checks, s))
    ensures forall i :: 0 <= i < |Failing(checks, s)| ==> floor < Rank(Failing(checks, s)[i])
  {
    if checks != [] {
      var rest := Failing(checks[1..], s);
      FailingKeepsOrder(checks[1..], s, Rank(checks[0]));
      var errors := Failing(checks, s);
      if Fails(checks[0], s) {
        assert errors == [checks[0]] + rest;
        assert forall i :: 1 <= i < |errors| ==> errors[i] == rest[i - 1];
      } else {
        assert errors == rest;
      }
    }
  }

  /** The messages `register` collects: one for every failing check, each once
      and in check order. */
  function Errors(s: Submission): (errors: seq<RegisterError>)
    ensures RestaurantNameRequired in errors <==> s.restaurantName == ""
    ensures EmailRequired in errors <==> s.email == ""
    ensures PasswordRequired in errors <==> Blank(s.password)
    ensures PasswordTooShort in errors <==> !Blank(s.password) && |s.password.value| < MinPasswordLength
    ensures PasswordsDoNotMatch in errors <==> s.password != s.confirmPassword
    ensures EmailTaken in errors <==> s.taken
    ensures RankIncreasing(errors)
  {
    assert RankIncreasing(CheckOrder);
    FailingKeepsOrder(CheckOrder, s, -1);
    Failing(CheckOrder, s)
  }

  /** A registration passes validation exactly when a restaurant name and an
      email are given, the password has at least 8 characters and is confirmed,
      and no user has the email. */
  lemma RegistrationAccepted(s: Submission)
    ensures Errors(s) == [] <==>
              s.restaurantName != "" && s.email != "" && s.password.Some?
              && |s.password.value| >= MinPasswordLength && s.confirmPassword == s.password && !s.taken
  {
    var errors := Errors(s);
    if errors != [] {
      assert errors[0] in errors;
    }
  }

  /** `k` is the first user with email `email` (what `filter_by(email=…).first()` finds). */
  predicate FirstWithEmail(users: seq<User>, email: string, k: nat)
    reads set u | u in users
  {
    k < |users| && users[k].email == email && forall i :: 0 <= i < k ==> users[i].email != email
  }

  predicate NoUserWithEmail(users: seq<User>, email: string)
    reads set u | u in users
  {
    forall i :: 0 <= i < |users| ==> users[i].email != email
  }

  /** The first user with the given email, if any. */
  method FindUserByEmail(users: seq<User>, email: string) returns (k: Option<nat>)
    ensures k.Some? ==> FirstWithEmail(users, email, k.value)
    ensures k.None? ==> NoUserWithEmail(users, email)
  {
    var i := 0;
    while i < |users|
      invariant 0 <= i <= |users|
      invariant forall j :: 0 <= j < i ==> users[j].email != email
    {
      if users[i].email == email {
        return Some(i);
      }
      i := i + 1;
    }
    return None;
  }

  /** The id an integer primary key takes on insert: one more than the largest
      stored, or 1 in an empty table. */
  method NextRowId(ids: seq<int>) returns (id: int)
    ensures forall i :: 0 <= i < |ids| ==> ids[i] < id
    ensures ids == [] ==> id == 1
    ensures ids != [] ==> id - 1 in ids
  {
    if ids == [] {
      return 1;
    }
    id := ids[0] + 1;
    var i := 1;
    while i < |ids|
      invariant 1 <= i <= |ids|
      invariant forall j :: 0 <= j < i ==> ids[j] < id
      invariant exists j :: 0 <= j < i && ids[j] == id - 1
    {
      if ids[i] >= id {
        id := ids[i] + 1;
      }
      i := i + 1;
    }
  }

  function TenantIds(ts: seq<Tenant>): (ids: seq<int>)
    reads set t | t in ts
    ensures |ids| == |ts| && forall i :: 0 <= i < |ts| ==> ids[i] == ts[i].id
  {
    seq(|ts|, i requires 0 <= i < |ts| reads set t | t in ts => ts[i].id)
  }

  function RestaurantIds(rs: seq<Restaurant>): (ids: seq<int>)
    reads set r | r in rs
    ensures |ids| == |rs| && forall i :: 0 <= i < |rs| ==> ids[i] == rs[i].id
  {
    seq(|rs|, i requires 0 <= i < |rs| reads set r | r in rs => rs[i].id)
  }

  function UserIds(us: seq<User>): (ids: seq<int>)
    reads set u | u in us
    ensures |ids| == |us| && forall i :: 0 <= i < |us| ==> ids[i] == us[i].id
  {
    seq(|us|, i requires 0 <= i < |us| reads set u | u in us => us[i].id)
  }

  /** The tables every new restaurant starts with: number, capacity, location. */
  const SampleTables: seq<(string, int, string)> := [
    ("Table 1", 2, "Window"),
    ("Table 2", 4, "Main Floor"),
    ("Table 3", 4, "Main Floor"),
    ("Table 4", 6, "Private Room"),
    ("Table 5", 8, "Patio")
  ]

  /** The sample table rows of restaurant `restaurantId`, numbered from `firstId`. */
  function SampleRows(restaurantId: int, firstId: int): (rows: seq<Table>)
    ensures |rows| == 5
    ensures forall i :: 0 <= i < 5 ==>
              rows[i].id == firstId + i && rows[i].restaurantId == restaurantId
              && rows[i].isActive && rows[i].isAvailable
    ensures rows[0].capacity == 2 && rows[1].capacity == 4 && rows[2].capacity == 4
            && rows[3].capacity == 6 && rows[4].capacity == 8
  {
    seq(5, i requires 0 <= i < 5 =>
      Table(firstId + i, restaurantId, SampleTables[i].0, SampleTables[i].1, Some(SampleTables[i].2), true, true))
  }

  /** `create_sample_tables`: adds the five sample tables, in order. */
  method CreateSampleTables(db: Database, restaurantId: int)
    requires db.Valid()
    modifies db`tables, db`nextTableId
    ensures db.Valid()
    ensures db.tables == old(db.tables) + SampleRows(restaurantId, old(db.nextTableId))
    ensures db.nextTableId == old(db.nextTableId) + 5
  {
    var rows := SampleRows(restaurantId, db.nextTableId);
    var i := 0;
    while i < |SampleTables|
      invariant 0 <= i <= 5
      invariant db.Valid()
      invariant db.nextTableId == old(db.nextTableId) + i
      invariant db.tables == old(db.tables) + rows[..i]
    {
      var spec := SampleTables[i];
      var t := db.AddTable(restaurantId, spec.0, spec.1, Some(spec.2));
      assert rows[..i + 1] == rows[..i] + [t];
      i := i + 1;
    }
    assert rows[..5] == rows;
  }

  datatype RegisterOutcome =
    | RegisterRedirect
    | Rejected(errors: seq<RegisterError>)
    | RolledBack
    | Registered(tenant: Tenant, restaurant: Restaurant, user: User)

  predicate TenantEmailTaken(ts: seq<Tenant>, email: string)
    reads set t | t in ts
  {
    exists i :: 0 <= i < |ts| && ts[i].email == email
  }

  /** Whether a stored tenant already has the email (the unique constraint the
      commit checks). */
  method HasTenantEmail(ts: seq<Tenant>, email: string) returns (taken: bool)
    ensures taken <==> TenantEmailTaken(ts, email)
  {
    var i := 0;
    while i < |ts|
      invariant 0 <= i <= |ts|
      invariant forall j :: 0 <= j < i ==> ts[j].email != email
    {
      if ts[i].email == email {
        return true;
      }
      i := i + 1;
    }
    return false;
  }

  /** `register`: a signed-in user is sent to the dashboard; a form failing
      validation creates nothing; otherwise a trial tenant, its restaurant (not
      live), the five sample tables and a tenant superuser are created together,
      and the new user is signed in at `now`. The tenant email is unique in the
      schema, so a tenant already holding it makes the commit fail and nothing
      is kept. */
  method Register(db: Database, authenticated: bool, form: map<string, string>, now: int)
    returns (outcome: RegisterOutcome)
    requires db.Valid()
    modifies db
    ensures db.Valid()
    ensures authenticated <==> outcome == RegisterRedirect
    ensures !outcome.Registered? ==>
              db.tenants == old(db.tenants) && db.restaurants == old(db.restaurants) && db.users == old(db.users)
              && db.tables == old(db.tables) && db.nextTableId == old(db.nextTableId)
    ensures db.reservations == old(db.reservations) && db.events == old(db.events)
    ensures !authenticated ==> Submitted(ReadRegisterForm(form), old(db.users), old(db.tenants), outcome)
    ensures outcome.Registered? ==>
              var t, r, u := outcome.tenant, outcome.restaurant, outcome.user;
              fresh(t) && fresh(r) && fresh(u)
              && db.tenants == old(db.tenants) + [t]
              && db.restaurants == old(db.restaurants) + [r]
              && db.users == old(db.users) + [u]
              && db.tables == old(db.tables) + SampleRows(r.id, old(db.nextTableId))
              && TrialAccount(ReadRegisterForm(form), now, t, r, u)
  {
    if authenticated {
      return RegisterRedirect;
    }
    outcome := Submit(db, ReadRegisterForm(form), now);
  }

  /** How a submitted registration ends, given the users and tenants stored
      before it: the validation messages when there are any, a rolled-back
      commit when a tenant already has the email, and a new account otherwise. */
  predicate Submitted(input: RegisterInput, users: seq<User>, tenants: seq<Tenant>, outcome: RegisterOutcome)
    reads set u | u in users
    reads set t | t in tenants
  {
    var errors := Errors(Submission(input.restaurantName, input.email, input.password,
                                    input.confirmPassword, !NoUserWithEmail(users, input.email)));
    if errors != [] then outcome == Rejected(errors)
    else if TenantEmailTaken(tenants, input.email) then outcome == RolledBack
    else outcome.Registered?
  }

  /** The handling of a submitted registration once it has been read. */
  method Submit(db: Database, input: RegisterInput, now: int) returns (outcome: RegisterOutcome)
    requires db.Valid()
    modifies db
    ensures db.Valid()
    ensures outcome != RegisterRedirect
    ensures !outcome.Registered? ==>
              db.tenants == old(db.tenants) && db.restaurants == old(db.restaurants) && db.users == old(db.users)
              && db.tables == old(db.tables) && db.nextTableId == old(db.nextTableId)
    ensures db.reservations == old(db.reservations) && db.events == old(db.events)
    ensures Submitted(input, old(db.users), old(db.tenants), outcome)
    ensures outcome.Registered? ==>
              var t, r, u := outcome.tenant, outcome.restaurant, outcome.user;
              fresh(t) && fresh(r) && fresh(u)
              && db.tenants == old(db.tenants) + [t]
              && db.restaurants == old(db.restaurants) + [r]
              && db.users == old(db.users) + [u]
              && db.tables == old(db.tables) + SampleRows(r.id, old(db.nextTableId))
              && TrialAccount(input, now, t, r, u)
  {
    var existing := FindUserByEmail(db.users, input.email);
    var errors := Errors(Submission(input.restaurantName, input.email, input.password, input.confirmPassword,
                                    existing.Some?));
    if errors != [] {
      return Rejected(errors);
    }
    var clash := HasTenantEmail(db.tenants, input.email);
    if clash {
      return RolledBack;
    }
    var t, r, u := CreateAccount(db, input, now);
    return Registered(t, r, u);
  }

  /** The account a registration creates: a tenant on the free trial (14 days
      from `now`, 15 bookings, payment pending) owning just the new restaurant,
      which is active but not live, and a tenant superuser of it, signed in at
      `now`; blank names become "Admin" and "User". */
  predicate TrialAccount(input: RegisterInput, now: int, t: Tenant, r: Restaurant, u: User)
    reads t, r, u
  {
    t.name == input.companyName && t.email == input.email && t.IsTrial()
    && t.trialStartDate == Some(now) && t.trialEndDate == Some(now + TrialDays * SecondsPerDay)
    && t.trialBookingCount == Some(0) && t.trialBookingLimit == TrialMaxBookings
    && t.paymentStatus == "pending" && t.restaurants == [r]
    && r.tenantId == t.id && r.name == input.restaurantName && r.timezone == input.timezone
    && r.isActive && !r.isLive
    && u.email == input.email && u.role == RoleTenantSuperuser && u.tenantId == Some(t.id)
    && u.firstName == (if input.firstName == "" then DefaultFirstName else input.firstName)
    && u.lastName == (if input.lastName == "" then DefaultLastName else input.lastName)
    && u.isActive && u.lastLogin == Some(now)
  }

  /** The new superuser manages the new restaurant. */
  lemma TrialAccountManages(input: RegisterInput, now: int, t: Tenant, r: Restaurant, u: User)
    requires TrialAccount(input, now, t, r, u)
    ensures u.CanManageRestaurant(r) && u.CanManageUsers() && !u.IsAdmin()
  {
  }

  /** The rows a valid registration creates, committed together. */
  method CreateAccount(db: Database, input: RegisterInput, now: int) returns (t: Tenant, r: Restaurant, u: User)
    requires db.Valid()
    modifies db
    ensures db.Valid()
    ensures fresh(t) && fresh(r) && fresh(u)
    ensures db.tenants == old(db.tenants) + [t]
    ensures db.restaurants == old(db.restaurants) + [r]
    ensures db.users == old(db.users) + [u]
    ensures db.tables == old(db.tables) + SampleRows(r.id, old(db.nextTableId))
    ensures db.reservations == old(db.reservations) && db.events == old(db.events)
    ensures TrialAccount(input, now, t, r, u)
  {
    var tenantId := NextRowId(TenantIds(db.tenants));
    var restaurantId := NextRowId(RestaurantIds(db.restaurants));
    var userId := NextRowId(UserIds(db.users));
    t, r, u := NewAccount(input, now, tenantId, restaurantId, userId);
    StoreAccount(db, t, r, u);
  }

  /** The tenant, restaurant and user of a registration, signed in at `now`. */
  method NewAccount(input: RegisterInput, now: int, tenantId: int, restaurantId: int, userId: int)
    returns (t: Tenant, r: Restaurant, u: User)
    ensures fresh(t) && fresh(r) && fresh(u)
    ensures t.id == tenantId && r.id == restaurantId && u.id == userId
    ensures t.name == input.companyName && t.email == input.email && t.IsTrial()
    ensures t.trialStartDate == Some(now) && t.trialEndDate == Some(now + TrialDays * SecondsPerDay)
    ensures t.trialBookingCount == Some(0) && t.trialBookingLimit == TrialMaxBookings
    ensures t.paymentStatus == "pending" && t.restaurants == []
    ensures r.tenantId == t.id && r.name == input.restaurantName && r.timezone == input.timezone
    ensures r.isActive && !r.isLive
    ensures u.email == input.email && u.role == RoleTenantSuperuser && u.tenantId == Some(t.id)
    ensures u.firstName == (if input.firstName == "" then DefaultFirstName else input.firstName)
    ensures u.lastName == (if input.lastName == "" then DefaultLastName else input.lastName)
    ensures u.isActive && u.lastLogin == Some(now)
  {
    t := new Tenant(tenantId, input.companyName, input.email, PlanFreeTrial, StatusTrial,
                    Some(now), Some(now + TrialDays * SecondsPerDay), Some(0), TrialMaxBookings,
                    "pending", now);
    r := new Restaurant(restaurantId, t.id, input.restaurantName, input.timezone);
    u := new User(userId, input.email,
                  if input.firstName == "" then DefaultFirstName else input.firstName,
                  if input.lastName == "" then DefaultLastName else input.lastName,
                  RoleTenantSuperuser, Some(t.id));
    // The user is signed in right after the commit; setting the field first
    // leaves the same final state.
    u.lastLogin := Some(now);
  }

  /** Adds the account's rows and the sample tables of its restaurant. */
  method StoreAccount(db: Database, t: Tenant, r: Restaurant, u: User)
    requires db.Valid()
    requires t !in db.tenants && t.restaurants == [] && r.tenantId == t.id
    requires forall x :: x in db.tenants ==> x.id != t.id
    modifies db, t`restaurants
    ensures db.Valid()
    ensures db.tenants == old(db.tenants) + [t]
    ensures db.restaurants == old(db.restaurants) + [r]
    ensures db.users == old(db.users) + [u]
    ensures db.tables == old(db.tables) + SampleRows(r.id, old(db.nextTableId))
    ensures db.reservations == old(db.reservations) && db.events == old(db.events)
    ensures t.restaurants == [r]
  {
    db.AddTenant(t);
    db.AddRestaurant(r, t);
    CreateSampleTables(db, r.id);
    db.AddUser(u);
  }

  datatype LoginOutcome =
    | LoginRedirect
    | Deactivated
    | SignedIn(user: User)
    | InvalidCredentials
    | PasswordMissing

  /** `login`: the first user with the submitted email is signed in, and their
      last login set to `now`, when the password matches and the account is
      active; a matching password on a deactivated account is refused with its
      own message; anything else is invalid credentials. A form with a known
      email but no password field reaches `check_password(None)`, whose hash
      comparison raises on a missing password: the request ends in a server
      error (`PasswordMissing`) and nothing is changed. */
  method Login(db: Database, authenticated: bool, email: Option<string>, password: Option<string>,
               passwordMatches: (int, string) -> bool, now: int)
    returns (outcome: LoginOutcome)
    modifies set u | u in db.users
    ensures authenticated <==> outcome == LoginRedirect
    ensures outcome.PasswordMissing? <==>
              !authenticated && email.Some? && password.None? && !NoUserWithEmail(db.users, email.value)
    ensures outcome.SignedIn? ==>
              (exists k: nat :: email.Some? && FirstWithEmail(db.users, email.value, k) && db.users[k] == outcome.user)
              && password.Some? && passwordMatches(outcome.user.id, password.value) && outcome.user.isActive
              && outcome.user.lastLogin == Some(now)
    ensures outcome.Deactivated? ==>
              (exists k: nat :: email.Some? && password.Some? && FirstWithEmail(db.users, email.value, k)
                                && passwordMatches(db.users[k].id, password.value) && !db.users[k].isActive)
    ensures outcome.InvalidCredentials? ==>
              !authenticated
              && (email.None? || NoUserWithEmail(db.users, email.value)
                  || exists k: nat :: password.Some? && FirstWithEmail(db.users, email.value, k)
                                      && !passwordMatches(db.users[k].id, password.value))
    ensures forall u :: u in db.users && !(outcome.SignedIn? && u == outcome.user) ==> unchanged(u)
    ensures outcome.SignedIn? ==>
              outcome.user in old(db.users) &&
              var u := outcome.user;
              u.email == old(u.email) && u.id == old(u.id) && u.isActive == old(u.isActive)
              && u.role == old(u.role) && u.tenantId == old(u.tenantId)
              && u.firstName == old(u.firstName) && u.lastName == old(u.lastName)
  {
    if authenticated {
      return LoginRedirect;
    }
    if email.None? {
      return InvalidCredentials;
    }
    var k := FindUserByEmail(db.users, email.value);
    if k.None? {
      return InvalidCredentials;
    }
    if password.None? {
      return PasswordMissing;
    }
    if !passwordMatches(db.users[k.value].id, password.value) {
      return InvalidCredentials;
    }
    var u := db.users[k.value];
    if !u.isActive {
      return Deactivated;
    }
    u.lastLogin := Some(now);
    return SignedIn(u);
  }
}
