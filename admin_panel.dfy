/** Administration of console staff (`AdminPanel`): who may manage whom,
    creating a pre-registered admin profile, and activating or deactivating one.
    Admin roles are `root_admin`, `supervisor` and `operations_staff`. */
module AdminPanel {
  import opened Common
  import opened Tables

  /** `canManageUser`: a root admin manages everybody, a supervisor manages
      operations staff, nobody else manages anyone. */
  predicate CanManageUser(userRole: string, targetRole: string) {
    if userRole == "root_admin" then true
    else userRole == "supervisor" && targetRole == "operations_staff"
  }

  /** The rule as a table, and its monotonicity: whatever a supervisor may
      manage a root admin may manage too. */
  lemma CanManageUserTable(userRole: string, targetRole: string)
    ensures CanManageUser(userRole, targetRole) <==>
      userRole == "root_admin" || (userRole == "supervisor" && targetRole == "operations_staff")
    ensures CanManageUser("supervisor", targetRole) ==> CanManageUser("root_admin", targetRole)
    ensures userRole !in {"root_admin", "supervisor"} ==> !CanManageUser(userRole, targetRole)
  {
  }

  /** The call-center dashboard hands its own signed-in user (role `admin`) to
      this panel, and `admin` is not an admin-profile role: from there nobody
      can be managed, so no activate/deactivate control is ever shown. */
  lemma CallCenterAdminManagesNobody(admin: AdminProfile, userId: Id)
    ensures !CanManageUser("admin", admin.role)
    ensures !ShowToggle(userId, "admin", admin)
  {
  }

  /** The activate/deactivate control appears for profiles the user may manage,
      never on the user's own row. */
  predicate ShowToggle(userId: Id, userRole: string, admin: AdminProfile) {
    CanManageUser(userRole, admin.role) && admin.id != userId
  }

  /** The roles the creation form offers. */
  function RoleOptions(userRole: string): (r: seq<string>)
    ensures "operations_staff" in r && "supervisor" in r
    ensures "root_admin" in r <==> userRole == "root_admin"
  {
    ["operations_staff", "supervisor"] + if userRole == "root_admin" then ["root_admin"] else []
  }

  /** Why `handleCreateAdminUser` refuses, if it does: an empty email or name,
      or a non-root user asking for a root admin. */
  predicate CreateRefused(userRole: string, email: string, name: string, newRole: string) {
    email == "" || name == "" || (userRole != "root_admin" && newRole == "root_admin")
  }

  /** Any role picked from the offered options passes the root-admin guard;
      the guard only refuses what the form would not offer. */
  lemma OfferedRolesPassGuard(userRole: string, email: string, name: string, newRole: string)
    requires newRole in RoleOptions(userRole)
    ensures CreateRefused(userRole, email, name, newRole) <==> email == "" || name == ""
  {
  }

  /** `handleCreateAdminUser`: the new database (a pre-registered profile with
      the chosen role, active, not yet bound to an account). */
  function Create(db: Db, userRole: string, email: string, name: string, newRole: string, now: Time,
                  insertFails: bool): Db
  {
    if CreateRefused(userRole, email, name, newRole) || insertFails then db
    else db.(adminProfiles := db.adminProfiles + [AdminProfile(db.nextId, None, email, name, newRole, true, now, now)],
             nextId := db.nextId + 1)
  }

  /** `handleToggleAdminStatus`: the new database. A root admin may not toggle
      their own profile; the handler lets any other role toggle itself. */
  function Toggle(db: Db, userId: Id, userRole: string, adminId: Id, currentStatus: bool, now: Time,
                  updateFails: bool): Db
  {
    if (userId == adminId && userRole == "root_admin") || updateFails then db
    else db.(adminProfiles := UpdateWhere(db.adminProfiles, (a: AdminProfile) => a.id == adminId,
                                          (a: AdminProfile) => a.(isActive := !currentStatus, updatedAt := now)))
  }

  class AdminPanelForm {
    const userId: Id
    const userRole: string
    var newUserEmail: string
    var newUserName: string
    var newUserRole: string

    constructor(userId: Id, userRole: string)
      ensures this.userId == userId && this.userRole == userRole
      ensures newUserEmail == "" && newUserName == "" && newUserRole == "operations_staff"
    {
      this.userId := userId;
      this.userRole := userRole;
      newUserEmail := "";
      newUserName := "";
      newUserRole := "operations_staff";
    }

    method HandleCreateAdminUser(store: Store, now: Time, insertFails: bool)
      modifies this, store
      ensures store.db == Create(old(store.db), userRole, old(newUserEmail), old(newUserName), old(newUserRole),
                                 now, insertFails)
      ensures var done := !CreateRefused(userRole, old(newUserEmail), old(newUserName), old(newUserRole)) && !insertFails;
        if done then newUserEmail == "" && newUserName == "" && newUserRole == "operations_staff"
        else newUserEmail == old(newUserEmail) && newUserName == old(newUserName) && newUserRole == old(newUserRole)
    {
      if newUserEmail == "" || newUserName == "" {
        return;
      }
      if userRole != "root_admin" && newUserRole == "root_admin" {
        return;
      }
      if insertFails {
        return;
      }
      store.db := store.db.(adminProfiles := store.db.adminProfiles
                                            + [AdminProfile(store.db.nextId, None, newUserEmail, newUserName,
                                                            newUserRole, true, now, now)],
                            nextId := store.db.nextId + 1);
      newUserEmail := "";
      newUserName := "";
      newUserRole := "operations_staff";
    }

    method HandleToggleAdminStatus(store: Store, adminId: Id, currentStatus: bool, now: Time, updateFails: bool)
      modifies store
      ensures store.db == Toggle(old(store.db), userId, userRole, adminId, currentStatus, now, updateFails)
    {
      if userId == adminId && userRole == "root_admin" {
        return;
      }
      if updateFails {
        return;
      }
      store.db := store.db.(adminProfiles := UpdateWhere(store.db.adminProfiles, (a: AdminProfile) => a.id == adminId,
                                                         (a: AdminProfile) => a.(isActive := !currentStatus, updatedAt := now)));
    }
  }

  /** Creation appends one active, unbound profile with the chosen role exactly
      when the guards pass and the insert succeeds; otherwise nothing changes. */
  lemma CreateAppends(db: Db, userRole: string, email: string, name: string, newRole: string, now: Time, insertFails: bool)
    ensures var db' := Create(db, userRole, email, name, newRole, now, insertFails);
      if CreateRefused(userRole, email, name, newRole) || insertFails then db' == db
      else && db'.adminProfiles[..|db.adminProfiles|] == db.adminProfiles
           && |db'.adminProfiles| == |db.adminProfiles| + 1
           && var a := db'.adminProfiles[|db.adminProfiles|];
           && a.email == email && a.name == name && a.role == newRole && a.isActive && a.userId == None
    ensures userRole != "root_admin" && newRole == "root_admin" ==> Create(db, userRole, email, name, newRole, now, insertFails) == db
  {
  }

  /** Creation keeps the table valid: the new profile takes a fresh id. */
  lemma CreateKeepsValid(db: Db, userRole: string, email: string, name: string, newRole: string, now: Time, insertFails: bool)
    requires db.Valid()
    ensures Create(db, userRole, email, name, newRole, now, insertFails).Valid()
  {
  }

  /** A toggle sets `is_active` to the negation of the status the user saw, on
      that profile only; a root admin's own profile is never touched. */
  lemma ToggleFlips(db: Db, userId: Id, userRole: string, adminId: Id, currentStatus: bool, now: Time, i: int)
    requires 0 <= i < |db.adminProfiles|
    ensures var a, a' := db.adminProfiles[i], Toggle(db, userId, userRole, adminId, currentStatus, now, false).adminProfiles[i];
      && (a.id == adminId && !(userId == adminId && userRole == "root_admin") ==>
            a' == a.(isActive := !currentStatus, updatedAt := now))
      && (a.id != adminId ==> a' == a)
    ensures userRole == "root_admin" ==> Toggle(db, userId, userRole, userId, currentStatus, now, false) == db
  {
  }
}
