/** The `create-admin-profile` server function over `admin_profiles`: it lists
    profiles, pre-registers one, sets one's active flag, or (by default) makes
    sure a signed-in account has a profile: the account's own profile if there
    is one, else a pre-registered profile with the same email that is bound to
    the account, else a new profile. */
module AdminProfileFunction {
  import opened Common
  import opened Tables

  /** The JSON body; absent keys are None. */
  datatype Request = Request(
    action: Option<string>,
    userId: Option<Id>,
    email: Option<string>,
    name: Option<string>,
    role: Option<string>,
    adminId: Option<Id>,
    isActive: Option<bool>)

  /** The reply: `{profiles}` or `{data}` with status 200, or an error status. */
  datatype Reply = Profiles(profiles: seq<AdminProfile>) | Data(profile: AdminProfile) | Failure(status: int)

  /** The role a request asks for; the default applies only when the key is absent. */
  function RoleOf(req: Request): string {
    req.role.GetOr("operations_staff")
  }

  /** The result of `maybeSingle()`: no row, one row, or an error for several. */
  datatype Lookup = NoRow | OneRow(row: AdminProfile) | Several

  function MaybeSingle(rows: seq<AdminProfile>, p: AdminProfile -> bool): (r: Lookup)
    ensures r.NoRow? <==> forall i :: 0 <= i < |rows| ==> !p(rows[i])
    ensures r.OneRow? ==> r.row in rows && p(r.row)
  {
    var matching := Filter(rows, p);
    if |matching| == 0 then NoRow
    else if |matching| == 1 then OneRow(matching[0])
    else Several
  }

  /** The account lookup of the default path. */
  function ByAccount(rows: seq<AdminProfile>, userId: Id): Lookup {
    MaybeSingle(rows, (a: AdminProfile) => a.userId == Some(userId))
  }

  /** The lookup of a pre-registered, still unbound profile by email. */
  function ByEmail(rows: seq<AdminProfile>, email: string): Lookup {
    MaybeSingle(rows, (a: AdminProfile) => a.email == email && a.userId.None?)
  }

  /** Binding a pre-registered profile to the account: only the account, the
      name and the update time change. */
  function Bind(rows: seq<AdminProfile>, id: Id, userId: Id, name: string, now: Time): seq<AdminProfile> {
    UpdateWhere(rows, (a: AdminProfile) => a.id == id,
                (a: AdminProfile) => a.(userId := Some(userId), name := name, updatedAt := now))
  }

  /** The function's effect on the database and its reply. `readFails` is an
      error of the listing or of the account lookup; `writeFails` an error of
      the insert or update. `.single()` fails when an update matched no row. */
  function Handle(db: Db, req: Request, now: Time, readFails: bool, writeFails: bool): (Db, Reply) {
    var rows := db.adminProfiles;
    if req.action == Some("list") then
      if readFails then (db, Failure(500))
      else (db, Profiles(OrderBy(rows, (a: AdminProfile) => Some(a.createdAt), Desc)))
    else if req.action == Some("create") then
      if !Truthy(req.email) || !Truthy(req.name) then (db, Failure(400))
      else if writeFails then (db, Failure(500))
      else
        var a := AdminProfile(db.nextId, None, req.email.value, req.name.value, RoleOf(req), true, now, now);
        (db.(adminProfiles := rows + [a], nextId := db.nextId + 1), Data(a))
    else if req.action == Some("toggle_status") then
      if req.adminId.None? then (db, Failure(400))
      else if writeFails then (db, Failure(500))
      else
        var id := req.adminId.value;
        var rows' := UpdateWhere(rows, (a: AdminProfile) => a.id == id,
                                 (a: AdminProfile) => a.(isActive := req.isActive.GetOr(a.isActive), updatedAt := now));
        var reply := match MaybeSingle(rows', (a: AdminProfile) => a.id == id)
                     case OneRow(a) => Data(a)
                     case _ => Failure(500);
        (db.(adminProfiles := rows'), reply)
    else if req.userId.None? || !Truthy(req.email) || !Truthy(req.name) then (db, Failure(400))
    else if readFails then (db, Failure(500))
    else
      var userId, email, name := req.userId.value, req.email.value, req.name.value;
      match ByAccount(rows, userId)
      case Several => (db, Failure(500))
      case OneRow(existing) => (db, Data(existing))
      case NoRow =>
        match ByEmail(rows, email)
        case OneRow(pre) =>
          if writeFails then (db, Failure(500))
          else (db.(adminProfiles := Bind(rows, pre.id, userId, name, now)),
                Data(pre.(userId := Some(userId), name := name, updatedAt := now)))
        case _ =>
          if writeFails then (db, Failure(500))
          else
            var a := AdminProfile(db.nextId, Some(userId), email, name, RoleOf(req), true, now, now);
            (db.(adminProfiles := rows + [a], nextId := db.nextId + 1), Data(a))
  }

  /** The function body, step by step. */
  method Serve(store: Store, req: Request, now: Time, readFails: bool, writeFails: bool) returns (reply: Reply)
    modifies store
    ensures (store.db, reply) == Handle(old(store.db), req, now, readFails, writeFails)
  {
    var role := RoleOf(req);
    if req.action == Some("list") {
      if readFails {
        return Failure(500);
      }
      return Profiles(OrderBy(store.db.adminProfiles, (a: AdminProfile) => Some(a.createdAt), Desc));
    }
    if req.action == Some("create") {
      if !Truthy(req.email) || !Truthy(req.name) {
        return Failure(400);
      }
      if writeFails {
        return Failure(500);
      }
      var a := AdminProfile(store.db.nextId, None, req.email.value, req.name.value, role, true, now, now);
      store.db := store.db.(adminProfiles := store.db.adminProfiles + [a], nextId := store.db.nextId + 1);
      return Data(a);
    }
    if req.action == Some("toggle_status") {
      if req.adminId.None? {
        return Failure(400);
      }
      if writeFails {
        return Failure(500);
      }
      var id := req.adminId.value;
      store.db := store.db.(adminProfiles := UpdateWhere(store.db.adminProfiles, (a: AdminProfile) => a.id == id,
                                                         (a: AdminProfile) => a.(isActive := req.isActive.GetOr(a.isActive),
                                                                                 updatedAt := now)));
      var single := MaybeSingle(store.db.adminProfiles, (a: AdminProfile) => a.id == id);
      if single.OneRow? {
        return Data(single.row);
      }
      return Failure(500);
    }
    if req.userId.None? || !Truthy(req.email) || !Truthy(req.name) {
      return Failure(400);
    }
    if readFails {
      return Failure(500);
    }
    var userId, email, name := req.userId.value, req.email.value, req.name.value;
    var existing := ByAccount(store.db.adminProfiles, userId);
    if existing.Several? {
      return Failure(500);
    }
    if existing.OneRow? {
      return Data(existing.row);
    }
    var emailProfile := ByEmail(store.db.adminProfiles, email);
    var finalData: AdminProfile;
    if emailProfile.OneRow? {
      if writeFails {
        return Failure(500);
      }
      var pre := emailProfile.row;
      store.db := store.db.(adminProfiles := Bind(store.db.adminProfiles, pre.id, userId, name, now));
      finalData := pre.(userId := Some(userId), name := name, updatedAt := now);
    } else {
      if writeFails {
        return Failure(500);
      }
      finalData := AdminProfile(store.db.nextId, Some(userId), email, name, role, true, now, now);
      store.db := store.db.(adminProfiles := store.db.adminProfiles + [finalData], nextId := store.db.nextId + 1);
    }
    return Data(finalData);
  }

  // ---------------------------------------------------------------------------
  // Properties
  // ---------------------------------------------------------------------------

  function DefaultRequest(userId: Id, email: string, name: string, role: Option<string>): Request {
    Request(None, Some(userId), Some(email), Some(name), role, None, None)
  }

  /** Missing fields are refused with 400 and nothing is written: email or name
      for `create`, the profile id for `toggle_status`, and any of account,
      email and name on the default path. */
  lemma MissingFieldsRefused(db: Db, req: Request, now: Time, readFails: bool, writeFails: bool)
    ensures req.action == Some("create") && (!Truthy(req.email) || !Truthy(req.name)) ==>
      Handle(db, req, now, readFails, writeFails) == (db, Failure(400))
    ensures req.action == Some("toggle_status") && req.adminId.None? ==>
      Handle(db, req, now, readFails, writeFails) == (db, Failure(400))
    ensures req.action !in {Some("list"), Some("create"), Some("toggle_status")}
            && (req.userId.None? || !Truthy(req.email) || !Truthy(req.name)) ==>
      Handle(db, req, now, readFails, writeFails) == (db, Failure(400))
  {
  }

  /** `create` appends an active, unbound profile whose role is the requested
      one, `operations_staff` when none was sent. */
  lemma CreateDefaultsRole(db: Db, req: Request, now: Time)
    requires req.action == Some("create") && Truthy(req.email) && Truthy(req.name)
    ensures var (db', reply) := Handle(db, req, now, false, false);
      && reply.Data? && db'.adminProfiles == db.adminProfiles + [reply.profile]
      && reply.profile.isActive && reply.profile.userId.None?
      && reply.profile.role == (if req.role.None? then "operations_staff" else req.role.value)
  {
  }

  /** `toggle_status` writes the supplied flag on that profile only and
      returns it; an id that matches no profile gets 500 and changes nothing. */
  lemma ToggleSetsFlag(db: Db, req: Request, now: Time, k: int)
    requires db.Valid()
    requires req.action == Some("toggle_status") && req.adminId.Some? && req.isActive.Some?
    requires 0 <= k < |db.adminProfiles|
    ensures var (db', reply) := Handle(db, req, now, false, false);
      && |db'.adminProfiles| == |db.adminProfiles|
      && (db.adminProfiles[k].id == req.adminId.value ==>
            db'.adminProfiles[k] == db.adminProfiles[k].(isActive := req.isActive.value, updatedAt := now)
            && reply == Data(db'.adminProfiles[k]))
      && (db.adminProfiles[k].id != req.adminId.value ==> db'.adminProfiles[k] == db.adminProfiles[k])
  {
    var id := req.adminId.value;
    var rows' := Handle(db, req, now, false, false).0.adminProfiles;
    if db.adminProfiles[k].id == id {
      FilterOnlyOne(rows', (a: AdminProfile) => a.id == id, k);
    }
  }

  /** An account that already has its profile gets it back, and nothing is
      written. */
  lemma ExistingProfileReturned(db: Db, userId: Id, email: string, name: string, role: Option<string>, now: Time,
                                writeFails: bool, k: int)
    requires email != "" && name != ""
    requires 0 <= k < |db.adminProfiles| && db.adminProfiles[k].userId == Some(userId)
    requires forall i :: 0 <= i < |db.adminProfiles| && i != k ==> db.adminProfiles[i].userId != Some(userId)
    ensures Handle(db, DefaultRequest(userId, email, name, role), now, false, writeFails)
            == (db, Data(db.adminProfiles[k]))
  {
    FilterOnlyOne(db.adminProfiles, (a: AdminProfile) => a.userId == Some(userId), k);
  }

  /** With no profile for the account, a single unbound profile pre-registered
      under the email is bound: it gets the account and the name and keeps its
      role and active flag, whatever role the request asked for. */
  lemma PreRegisteredBound(db: Db, userId: Id, email: string, name: string, role: Option<string>, now: Time, k: int)
    requires db.Valid() && email != "" && name != ""
    requires ByAccount(db.adminProfiles, userId).NoRow?
    requires 0 <= k < |db.adminProfiles| && db.adminProfiles[k].email == email && db.adminProfiles[k].userId.None?
    requires forall i :: 0 <= i < |db.adminProfiles| && i != k ==>
               !(db.adminProfiles[i].email == email && db.adminProfiles[i].userId.None?)
    ensures var (db', reply) := Handle(db, DefaultRequest(userId, email, name, role), now, false, false);
      var a := db.adminProfiles[k];
      && reply == Data(a.(userId := Some(userId), name := name, updatedAt := now))
      && reply.profile.role == a.role && reply.profile.isActive == a.isActive
      && db'.adminProfiles[k] == reply.profile
      && (forall i :: 0 <= i < |db.adminProfiles| && i != k ==> db'.adminProfiles[i] == db.adminProfiles[i])
  {
    FilterOnlyOne(db.adminProfiles, (a: AdminProfile) => a.email == email && a.userId.None?, k);
  }

  /** Binding a pre-registered profile to an account that had none leaves the
      account exactly one profile, the bound one, and keeps the ids. */
  lemma BindLeavesOneProfile(db: Db, k: int, userId: Id, name: string, now: Time)
    requires db.Valid() && 0 <= k < |db.adminProfiles|
    requires ByAccount(db.adminProfiles, userId).NoRow?
    ensures var rows' := Bind(db.adminProfiles, db.adminProfiles[k].id, userId, name, now);
      && rows'[k] == db.adminProfiles[k].(userId := Some(userId), name := name, updatedAt := now)
      && ByAccount(rows', userId) == OneRow(rows'[k])
      && db.(adminProfiles := rows').Valid()
  {
    var rows := db.adminProfiles;
    var rows' := Bind(rows, rows[k].id, userId, name, now);
    forall i | 0 <= i < |rows'| && i != k ensures rows'[i].userId != Some(userId) {
      assert rows[i].id != rows[k].id;
    }
    FilterOnlyOne(rows', (a: AdminProfile) => a.userId == Some(userId), k);
  }

  /** Inserting a profile for an account that had none leaves the account
      exactly one profile, the new one. */
  lemma InsertLeavesOneProfile(db: Db, a: AdminProfile)
    requires db.Valid() && a.id == db.nextId
    requires a.userId.Some? && ByAccount(db.adminProfiles, a.userId.value).NoRow?
    ensures ByAccount(db.adminProfiles + [a], a.userId.value) == OneRow(a)
    ensures db.(adminProfiles := db.adminProfiles + [a], nextId := db.nextId + 1).Valid()
  {
    FilterOnlyOne(db.adminProfiles + [a], (b: AdminProfile) => b.userId == a.userId, |db.adminProfiles|);
  }

  /** After a successful call on the default path the account has exactly one
      profile, the one returned. */
  lemma DefaultLeavesOneProfile(db: Db, userId: Id, email: string, name: string, role: Option<string>, now: Time)
    requires db.Valid() && email != "" && name != ""
    requires Handle(db, DefaultRequest(userId, email, name, role), now, false, false).1.Data?
    ensures var (db', reply) := Handle(db, DefaultRequest(userId, email, name, role), now, false, false);
      ByAccount(db'.adminProfiles, userId) == OneRow(reply.profile) && db'.Valid()
  {
    var rows := db.adminProfiles;
    if ByAccount(rows, userId).NoRow? {
      var e := ByEmail(rows, email);
      if e.OneRow? {
        var k :| 0 <= k < |rows| && rows[k] == e.row;
        BindLeavesOneProfile(db, k, userId, name, now);
      } else {
        InsertLeavesOneProfile(db, AdminProfile(db.nextId, Some(userId), email, name, role.GetOr("operations_staff"),
                                                true, now, now));
      }
    }
  }

  /** The default path is idempotent: calling it again for the same account
      returns the same profile and writes nothing. */
  lemma DefaultIdempotent(db: Db, userId: Id, email: string, name: string, role: Option<string>, now1: Time, now2: Time,
                          writeFails: bool)
    requires db.Valid() && email != "" && name != ""
    requires Handle(db, DefaultRequest(userId, email, name, role), now1, false, false).1.Data?
    ensures var (db1, reply1) := Handle(db, DefaultRequest(userId, email, name, role), now1, false, false);
      Handle(db1, DefaultRequest(userId, email, name, role), now2, false, writeFails) == (db1, reply1)
  {
    DefaultLeavesOneProfile(db, userId, email, name, role, now1);
  }

  /** A failing email lookup (several unbound profiles share the email) is only
      logged: a new profile is inserted instead of binding one. */
  lemma AmbiguousEmailInserts(db: Db, userId: Id, email: string, name: string, role: Option<string>, now: Time)
    requires email != "" && name != ""
    requires ByAccount(db.adminProfiles, userId).NoRow? && ByEmail(db.adminProfiles, email).Several?
    ensures var (db', reply) := Handle(db, DefaultRequest(userId, email, name, role), now, false, false);
      && reply.Data? && reply.profile.id == db.nextId
      && db'.adminProfiles == db.adminProfiles + [reply.profile]
  {
  }
}
