/**
 * The administration pages (app/routes/admin.py): the access decorators, the
 * restaurant access checks, user creation and editing with their role and
 * tenant rules, restaurant creation, the reservation status whitelist and the
 * knowledge-base download name.
 *
 * The signed-in user is `current`, `null` for an anonymous visitor. Every
 * handler runs its decorator first, and its result says where the request
 * ended. An exception inside a handler (a bad integer, a NOT NULL column left
 * empty, hashing a missing password) ends it with a server error, and since
 * nothing is committed, nothing changes.
 */
module Admin {
  import opened Wrappers
  import opened Text
  import opened Models
  import opened Auth

  /** Where a decorator sends a request. */
  datatype Gate =
    | Pass
    | ToLogin
    | Deny(target: string)

  const DashboardPage := "admin.dashboard"
  const IndexPage := "main.index"

  /** `admin_only`. */
  function AdminOnly(current: User?): (g: Gate)
    reads current
    ensures g == ToLogin <==> current == null
    ensures g == Pass <==> current != null && current.IsAdmin()
    ensures g.Deny? ==> g.target == DashboardPage
  {
    if current == null then ToLogin
    else if !current.IsAdmin() then Deny(DashboardPage)
    else Pass
  }

  /** A tenant id Python treats as true: present and not 0. */
  predicate HasTenant(tenantId: Option<int>) { tenantId.Some? && tenantId.value != 0 }

  /** `tenant_access_required`: admins pass; anyone else needs a tenant. */
  function TenantAccessRequired(current: User?): (g: Gate)
    reads current
    ensures g == ToLogin <==> current == null
    ensures g == Pass <==> current != null && (current.IsAdmin() || HasTenant(current.tenantId))
    ensures g.Deny? ==> g.target == IndexPage
  {
    if current == null then ToLogin
    else if current.IsAdmin() then Pass
    else if !HasTenant(current.tenantId) then Deny(IndexPage)
    else Pass
  }

  /** `tenant_superuser_required`: admins and tenant superusers pass. */
  function TenantSuperuserRequired(current: User?): (g: Gate)
    reads current
    ensures g == ToLogin <==> current == null
    ensures g == Pass <==> current != null && current.CanManageUsers()
    ensures g.Deny? ==> g.target == DashboardPage
  {
    if current == null then ToLogin
    else if current.IsAdmin() then Pass
    else if !current.IsTenantSuperuser() then Deny(DashboardPage)
    else Pass
  }

  /** Whatever `admin_only` lets through, `tenant_superuser_required` and
      `tenant_access_required` let through too, and a plain tenant user gets past
      neither of the first two. */
  lemma GatesNest(current: User?)
    ensures AdminOnly(current) == Pass ==> TenantSuperuserRequired(current) == Pass
    ensures AdminOnly(current) == Pass ==> TenantAccessRequired(current) == Pass
    ensures current != null && current.IsTenantUser() ==>
              AdminOnly(current) != Pass && TenantSuperuserRequired(current) != Pass
  {
  }

  /** `can_access_restaurant`. */
  function CanAccessRestaurant(current: User, restaurant: Restaurant): (r: bool)
    reads current, restaurant
    ensures current.IsAdmin() ==> r
    ensures r <==> current.CanViewRestaurant(restaurant)
  {
    if current.IsAdmin() then true
    else Some(restaurant.tenantId) == current.tenantId
  }

  /** `can_manage_restaurant`: managing needs the same tenant and the superuser role. */
  function CanManageRestaurant(current: User, restaurant: Restaurant): (r: bool)
    reads current, restaurant
    ensures current.IsAdmin() ==> r
    ensures r ==> CanAccessRestaurant(current, restaurant)
    ensures r <==> current.CanManageRestaurant(restaurant)
    ensures current.IsTenantUser() ==> !r
  {
    if current.IsAdmin() then true
    else Some(restaurant.tenantId) == current.tenantId && current.IsTenantSuperuser()
  }

  /** The outcome of a handler: stopped by its decorator, no such row, refused
      access, refused for a reason shown to the user, a server error, or done. */
  datatype Outcome<T> =
    | Blocked(gate: Gate)
    | NotFound
    | AccessDenied
    | Refused
    | ServerError
    | Done(value: T)

  /** The role `add_user` gives: an admin's choice stands, whatever it is; a
      tenant superuser can only hand out tenant roles, anything else falling
      back to tenant_user; the default is tenant_user. */
  function CreatedRole(creatorIsAdmin: bool, requested: Option<string>): (role: string)
    ensures requested.None? ==> role == RoleTenantUser
    ensures creatorIsAdmin && requested.Some? ==> role == requested.value
    ensures !creatorIsAdmin ==> role in TenantRoles
    ensures !creatorIsAdmin && requested.Some? && requested.value in TenantRoles ==> role == requested.value
    ensures !creatorIsAdmin && requested.Some? && requested.value !in TenantRoles ==> role == RoleTenantUser
  {
    var role := if requested.None? then RoleTenantUser else requested.value;
    if !creatorIsAdmin && role !in TenantRoles then RoleTenantUser else role
  }

  /** A tenant id from a form field: `int(x) if x else None`; the outer `None`
      is the ValueError `int` raises. */
  function FormTenantId(raw: Option<string>): (r: Option<Option<int>>)
    ensures raw.None? || raw == Some("") ==> r == Some(None)
    ensures r.Some? && r.value.Some? ==> raw.Some? && ParseInt(raw.value) == r.value
    ensures r.None? <==> raw.Some? && raw.value != "" && ParseInt(raw.value).None?
  {
    if raw.None? || raw.value == "" then Some(None)
    else match ParseInt(raw.value)
      case None => None
      case Some(id) => Some(Some(id))
  }

  /** A tenant id written out by the form reads back as itself. */
  lemma FormTenantIdRoundTrip(id: int)
    ensures FormTenantId(Some(IntToString(id))) == Some(Some(id))
  {
    ParseIntRoundTrip(id);
    assert ParseInt("") == None;
  }

  /** The tenant `add_user` gives the new user: the admin's choice, or the
      creator's own tenant; `None` for the ValueError. */
  function CreatedTenant(creator: User, raw: Option<string>): (r: Option<Option<int>>)
    reads creator
    ensures !creator.IsAdmin() ==> r == Some(creator.tenantId)
    ensures creator.IsAdmin() ==> r == FormTenantId(raw)
  {
    if creator.IsAdmin() then FormTenantId(raw) else Some(creator.tenantId)
  }

  /** `add_user`: a taken email adds nothing; a tenant superuser's new user
      belongs to the superuser's tenant and has a tenant role. */
  method AddUser(db: Database, current: User?, form: map<string, string>) returns (outcome: Outcome<User>)
    requires db.Valid()
    modifies db`users
    ensures db.Valid()
    ensures TenantSuperuserRequired(current) != Pass <==> outcome.Blocked?
    ensures outcome.Blocked? ==> outcome.gate == TenantSuperuserRequired(current)
    ensures !outcome.Done? ==> db.users == old(db.users)
    ensures outcome.Refused? <==>
              !outcome.Blocked? && FormValue(form, "email").Some?
              && old(!NoUserWithEmail(db.users, FormValue(form, "email").value))
    ensures outcome.Done? ==>
              var u := outcome.value;
              fresh(u) && db.users == old(db.users) + [u]
              && Some(u.email) == FormValue(form, "email")
              && Some(u.firstName) == FormValue(form, "first_name")
              && Some(u.lastName) == FormValue(form, "last_name")
              && "password" in form
              && u.role == CreatedRole(current.IsAdmin(), FormValue(form, "role"))
              && Some(u.tenantId) == CreatedTenant(current, FormValue(form, "tenant_id"))
              && u.isActive
    ensures outcome.Done? && !current.IsAdmin() ==>
              outcome.value.role in TenantRoles && outcome.value.tenantId == current.tenantId
    ensures outcome.ServerError? ==>
              current != null
              && ("email" !in form || "first_name" !in form || "last_name" !in form || "password" !in form
                  || CreatedTenant(current, FormValue(form, "tenant_id")).None?)
  {
    var gate := TenantSuperuserRequired(current);
    if gate != Pass {
      return Blocked(gate);
    }
    var email := FormValue(form, "email");
    if email.Some? {
      var existing := FindUserByEmail(db.users, email.value);
      if existing.Some? {
        return Refused;
      }
    }
    var tenantId := CreatedTenant(current, FormValue(form, "tenant_id"));
    if tenantId.None? {
      return ServerError;
    }
    var role := CreatedRole(current.IsAdmin(), FormValue(form, "role"));
    if "email" !in form || "first_name" !in form || "last_name" !in form || "password" !in form {
      return ServerError;
    }
    var id := NextRowId(UserIds(db.users));
    var u := new User(id, form["email"], form["first_name"], form["last_name"], role, tenantId.value);
    db.AddUser(u);
    return Done(u);
  }

  /** The role `edit_user` leaves: an admin's choice, or the current one when
      the form has none; a tenant superuser can only switch to a tenant role. */
  function EditedRole(editorIsAdmin: bool, requested: Option<string>, currentRole: string): (role: string)
    ensures requested.None? ==> role == currentRole
    ensures editorIsAdmin && requested.Some? ==> role == requested.value
    ensures !editorIsAdmin ==> role == currentRole || role in TenantRoles
    ensures !editorIsAdmin && requested.Some? && requested.value in TenantRoles ==> role == requested.value
    ensures !editorIsAdmin && requested.Some? && requested.value !in TenantRoles ==> role == currentRole
  {
    var role := if requested.None? then currentRole else requested.value;
    if editorIsAdmin || role in TenantRoles then role else currentRole
  }

  /** A tenant superuser never makes anyone an admin. */
  lemma NoPromotionToAdmin(requested: Option<string>, currentRole: string)
    requires currentRole != RoleAdmin
    ensures EditedRole(false, requested, currentRole) != RoleAdmin
  {
  }

  /** `k` is the user `query.get(id)` returns. */
  predicate UserAt(users: seq<User>, id: int, k: nat)
    reads set u | u in users
  {
    k < |users| && users[k].id == id && forall i :: 0 <= i < k ==> users[i].id != id
  }

  /** The first user with the given id, if any. */
  method FindUserById(users: seq<User>, id: int) returns (k: Option<nat>)
    ensures k.Some? ==> UserAt(users, id, k.value)
    ensures k.None? ==> forall i :: 0 <= i < |users| ==> users[i].id != id
  {
    var i := 0;
    while i < |users|
      invariant 0 <= i <= |users|
      invariant forall j :: 0 <= j < i ==> users[j].id != id
    {
      if users[i].id == id {
        return Some(i);
      }
      i := i + 1;
    }
    return None;
  }

  /** Whether a tenant superuser may edit `target`: same tenant, and not an admin. */
  predicate MayEdit(editor: User, target: User)
    reads editor, target
  {
    editor.IsAdmin() || (target.tenantId == editor.tenantId && !target.IsAdmin())
  }

  /** `edit_user` on a POST: names and the active flag from the form; an admin
      also sets the tenant and any role, a tenant superuser only a tenant role;
      a tenant superuser cannot touch another tenant's users or an admin. The
      password is left out. */
  method EditUser(db: Database, current: User?, id: int, form: map<string, string>)
    returns (outcome: Outcome<User>)
    modifies set u | u in db.users
    ensures old(TenantSuperuserRequired(current)) != Pass <==> outcome.Blocked?
    ensures outcome.NotFound? <==> !outcome.Blocked? && forall i :: 0 <= i < |db.users| ==> db.users[i].id != id
    ensures outcome.AccessDenied? ==>
              exists k: nat :: UserAt(db.users, id, k) && old(!MayEdit(current, db.users[k]))
    ensures forall u :: u in db.users && !(outcome.Done? && u == outcome.value) ==> unchanged(u)
    ensures outcome.Done? ==>
              var u := outcome.value;
              (exists k: nat :: UserAt(db.users, id, k) && db.users[k] == u)
              && old(MayEdit(current, u))
              && Some(u.firstName) == FormValue(form, "first_name")
              && Some(u.lastName) == FormValue(form, "last_name")
              && u.isActive == (FormValue(form, "is_active") == Some("on"))
              && u.role == EditedRole(old(current.IsAdmin()), FormValue(form, "role"), old(u.role))
              && (old(current.IsAdmin()) ==> Some(u.tenantId) == FormTenantId(FormValue(form, "tenant_id")))
              && (!old(current.IsAdmin()) ==> u.tenantId == old(u.tenantId))
              && u.id == old(u.id) && u.email == old(u.email) && u.lastLogin == old(u.lastLogin)
  {
    var gate := TenantSuperuserRequired(current);
    if gate != Pass {
      return Blocked(gate);
    }
    var k := FindUserById(db.users, id);
    if k.None? {
      return NotFound;
    }
    var u := db.users[k.value];
    if !MayEdit(current, u) {
      return AccessDenied;
    }
    var editorIsAdmin := current.IsAdmin();
    var tenantId := if editorIsAdmin then FormTenantId(FormValue(form, "tenant_id")) else Some(u.tenantId);
    if "first_name" !in form || "last_name" !in form || tenantId.None? {
      return ServerError;
    }
    var role := EditedRole(editorIsAdmin, FormValue(form, "role"), u.role);
    u.firstName := form["first_name"];
    u.lastName := form["last_name"];
    u.isActive := FormValue(form, "is_active") == Some("on");
    u.tenantId := tenantId.value;
    u.role := role;
    return Done(u);
  }

  const DefaultRestaurantTimezone := "UTC"

  /** The first tenant with the given id, if any. */
  method FindTenantById(ts: seq<Tenant>, id: int) returns (k: Option<nat>)
    ensures k.Some? ==> k.value < |ts| && ts[k.value].id == id
    ensures k.None? ==> forall i :: 0 <= i < |ts| ==> ts[i].id != id
  {
    var i := 0;
    while i < |ts|
      invariant 0 <= i <= |ts|
      invariant forall j :: 0 <= j < i ==> ts[j].id != id
    {
      if ts[i].id == id {
        return Some(i);
      }
      i := i + 1;
    }
    return None;
  }

  /** The tenant `add_restaurant` files the restaurant under: the one an admin
      picks (no pick is refused, `Some(None)`), or the creator's own; the outer
      `None` is a server error (a bad integer, or no tenant for the NOT NULL
      column). */
  function RestaurantTenant(creator: User, raw: Option<string>): (r: Option<Option<int>>)
    reads creator
    ensures creator.IsAdmin() && (raw.None? || raw == Some("")) ==> r == Some(None)
    ensures creator.IsAdmin() && r.Some? && r.value.Some? ==> raw.Some? && ParseInt(raw.value) == r.value
    ensures !creator.IsAdmin() ==> (r.None? <==> creator.tenantId.None?)
    ensures !creator.IsAdmin() && r.Some? ==> r.value == creator.tenantId
  {
    if creator.IsAdmin() then FormTenantId(raw)
    else if creator.tenantId.None? then None
    else Some(creator.tenantId)
  }

  /** `add_restaurant`: an admin must pick a tenant; a tenant superuser's
      restaurant belongs to the superuser's tenant, which lists it. */
  method AddRestaurant(db: Database, current: User?, form: map<string, string>)
    returns (outcome: Outcome<Restaurant>)
    requires db.Valid()
    modifies db`restaurants, set t | t in db.tenants
    ensures db.Valid()
    ensures TenantSuperuserRequired(current) != Pass <==> outcome.Blocked?
    ensures outcome.Refused? <==>
              !outcome.Blocked? && current.IsAdmin() && RestaurantTenant(current, FormValue(form, "tenant_id")) == Some(None)
    ensures !outcome.Done? ==> db.restaurants == old(db.restaurants)
    ensures !outcome.Done? ==> forall t :: t in db.tenants ==> t.restaurants == old(t.restaurants)
    ensures outcome.Done? ==>
              var r := outcome.value;
              fresh(r) && db.restaurants == old(db.restaurants) + [r]
              && RestaurantTenant(current, FormValue(form, "tenant_id")) == Some(Some(r.tenantId))
              && Some(r.name) == FormValue(form, "name")
              && r.timezone == FormGet(form, "timezone", DefaultRestaurantTimezone)
              && r.isActive && !r.isLive
              && (forall t :: t in db.tenants ==>
                    t.restaurants == old(t.restaurants) + (if t.id == r.tenantId then [r] else []))
    ensures outcome.Done? && !current.IsAdmin() ==>
              Some(outcome.value.tenantId) == current.tenantId && current.CanManageRestaurant(outcome.value)
  {
    var gate := TenantSuperuserRequired(current);
    if gate != Pass {
      return Blocked(gate);
    }
    var tenantId := RestaurantTenant(current, FormValue(form, "tenant_id"));
    if tenantId == Some(None) {
      return Refused;
    }
    if tenantId.None? || "name" !in form {
      return ServerError;
    }
    var id := NextRowId(RestaurantIds(db.restaurants));
    var r := new Restaurant(id, tenantId.value.value, form["name"], FormGet(form, "timezone", DefaultRestaurantTimezone));
    var owner := FindTenantById(db.tenants, r.tenantId);
    if owner.Some? {
      OwnerListsRestaurant(db, owner.value, db.tenants[owner.value], r);
    } else {
      db.AddUnownedRestaurant(r);
    }
    return Done(r);
  }

  /** Adds `r` under the tenant at index `k`, the only tenant with its id. */
  method OwnerListsRestaurant(db: Database, k: nat, owner: Tenant, r: Restaurant)
    requires db.Valid() && k < |db.tenants| && db.tenants[k] == owner && owner.id == r.tenantId
    modifies db`restaurants, owner`restaurants
    ensures db.Valid() && db.restaurants == old(db.restaurants) + [r]
    ensures forall t :: t in db.tenants ==>
              t.restaurants == old(t.restaurants) + (if t.id == r.tenantId then [r] else [])
  {
    assert forall t :: t in db.tenants && t.id == r.tenantId ==> t == owner by {
      forall t | t in db.tenants && t.id == r.tenantId
        ensures t == owner
      {
        var j :| 0 <= j < |db.tenants| && db.tenants[j] == t;
        assert j == k;
      }
    }
    db.AddRestaurant(r, owner);
  }

  const ReservationStatuses := ["pending", "confirmed", "cancelled", "completed", "no_show"]

  /** The first restaurant with the given id, if any. This is the same search as
      `FindTenantById` over another class: a shared search would need an id accessor
      that reads the heap, a lambda with a `reads` clause, which the two classes'
      plain `id` fields do not need. */
  method FindRestaurantById(rs: seq<Restaurant>, id: int) returns (k: Option<nat>)
    ensures k.Some? ==> k.value < |rs| && rs[k.value].id == id
    ensures k.None? ==> forall i :: 0 <= i < |rs| ==> rs[i].id != id
  {
    var i := 0;
    while i < |rs|
      invariant 0 <= i <= |rs|
      invariant forall j :: 0 <= j < i ==> rs[j].id != id
    {
      if rs[i].id == id {
        return Some(i);
      }
      i := i + 1;
    }
    return None;
  }

  /** `update_reservation_status`: a non-admin may only touch reservations of
      their own tenant's restaurants, and only the five known statuses are
      written; any other value leaves the reservation as it was. */
  method UpdateReservationStatus(db: Database, current: User?, id: int, status: Option<string>)
    returns (outcome: Outcome<Reservation>)
    requires db.Valid()
    modifies db`reservations
    ensures db.Valid()
    ensures TenantAccessRequired(current) != Pass <==> outcome.Blocked?
    ensures outcome.NotFound? <==> !outcome.Blocked? && FindReservation(old(db.reservations), id).None?
    ensures !outcome.Done? || status.None? || status.value !in ReservationStatuses ==>
              db.reservations == old(db.reservations)
    ensures outcome.Done? ==>
              var k := FindReservation(old(db.reservations), id).value;
              !outcome.Blocked? && FindReservation(old(db.reservations), id).Some?
              && (current.IsAdmin()
                  || exists i :: 0 <= i < |db.restaurants| && db.restaurants[i].id == old(db.reservations)[k].restaurantId
                                 && Some(db.restaurants[i].tenantId) == current.tenantId)
              && (status.Some? && status.value in ReservationStatuses ==>
                    db.reservations == old(db.reservations)[k := old(db.reservations)[k].(status := status.value)])
              && outcome.value == db.reservations[k]
  {
    var gate := TenantAccessRequired(current);
    if gate != Pass {
      return Blocked(gate);
    }
    var found := FindReservation(db.reservations, id);
    if found.None? {
      return NotFound;
    }
    var k := found.value;
    var reservation := db.reservations[k];
    ghost var owned := 0;
    if !current.IsAdmin() {
      var owner := FindRestaurantById(db.restaurants, reservation.restaurantId);
      if owner.None? {
        return ServerError;
      }
      if Some(db.restaurants[owner.value].tenantId) != current.tenantId {
        return AccessDenied;
      }
      owned := owner.value;
    }
    if status.Some? && status.value in ReservationStatuses {
      db.SetReservation(k, reservation.(status := status.value));
    }
    assert !current.IsAdmin() ==>
             0 <= owned < |db.restaurants| && db.restaurants[owned].id == reservation.restaurantId
             && Some(db.restaurants[owned].tenantId) == current.tenantId;
    return Done(db.reservations[k]);
  }

  const KnowledgeBaseSuffix := "_knowledge_base.md"

  /** The download name: the restaurant name lower-cased with spaces turned
      into underscores, then the suffix. It never holds a space. */
  function KnowledgeBaseFilename(name: string): (f: string)
    ensures |f| == |name| + |KnowledgeBaseSuffix|
    ensures forall i :: 0 <= i < |name| ==> f[i] == if name[i] == ' ' then '_' else LowerChar(name[i])
    ensures EndsWith(f, KnowledgeBaseSuffix)
    ensures ' ' !in f
  {
    var base := seq(|name|, i requires 0 <= i < |name| => if name[i] == ' ' then '_' else LowerChar(name[i]));
    assert forall i :: 0 <= i < |base| ==> base[i] != ' ';
    var f := base + KnowledgeBaseSuffix;
    assert f[|f| - |KnowledgeBaseSuffix|..] == KnowledgeBaseSuffix;
    assert forall i :: 0 <= i < |KnowledgeBaseSuffix| ==> f[|base| + i] == KnowledgeBaseSuffix[i] != ' ';
    f
  }

  /** The file `download_knowledge_base` sends: its name and contents. */
  datatype Download = Download(filename: string, content: string)

  /** `download_knowledge_base`: the knowledge base of a restaurant the user
      may access, refused when it is missing or empty. */
  method DownloadKnowledgeBase(db: Database, current: User?, id: int) returns (outcome: Outcome<Download>)
    ensures TenantAccessRequired(current) != Pass <==> outcome.Blocked?
    ensures outcome.NotFound? <==> !outcome.Blocked? && forall i :: 0 <= i < |db.restaurants| ==> db.restaurants[i].id != id
    ensures outcome.Done? ==>
              (exists i :: 0 <= i < |db.restaurants| && db.restaurants[i].id == id
                           && CanAccessRestaurant(current, db.restaurants[i])
                           && db.restaurants[i].knowledgeBase == Some(outcome.value.content)
                           && outcome.value.filename == KnowledgeBaseFilename(db.restaurants[i].name))
              && outcome.value.content != ""
    ensures outcome.AccessDenied? ==>
              exists i :: 0 <= i < |db.restaurants| && db.restaurants[i].id == id
                          && !CanAccessRestaurant(current, db.restaurants[i])
  {
    var gate := TenantAccessRequired(current);
    if gate != Pass {
      return Blocked(gate);
    }
    var k := FindRestaurantById(db.restaurants, id);
    if k.None? {
      return NotFound;
    }
    var r := db.restaurants[k.value];
    if !CanAccessRestaurant(current, r) {
      return AccessDenied;
    }
    if r.knowledgeBase.None? || r.knowledgeBase.value == "" {
      return Refused;
    }
    return Done(Download(KnowledgeBaseFilename(r.name), r.knowledgeBase.value));
  }
}
