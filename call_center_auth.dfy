/** The call-center sign-in (`CallCenterAuth`): an email is let in when it
    belongs to exactly one active call-center user, whose last login is then
    recorded and logged. */
module CallCenterAuth {
  import opened Common
  import opened Tables

  /** The user handed to the dashboard: the row as read, with `user_id` set to
      its id and both times filled in. */
  datatype SessionUser = SessionUser(id: Id, email: string, name: string, role: CallCenterRole, isActive: Option<bool>,
                                     lastLogin: Option<Time>, userId: Id, createdAt: Time, updatedAt: Time)

  function Normalise(u: CallCenterUser, now: Time): (s: SessionUser)
    ensures s.userId == u.id && s.id == u.id && s.email == u.email && s.role == u.role
    ensures s.createdAt == u.createdAt.GetOr(now) && s.updatedAt == u.updatedAt.GetOr(now)
  {
    SessionUser(u.id, u.email, u.name, u.role, u.isActive, u.lastLogin, u.id,
                u.createdAt.GetOr(now), u.updatedAt.GetOr(now))
  }

  predicate ActiveWithEmail(u: CallCenterUser, email: string) {
    u.email == email && u.isActive == Some(true)
  }

  /** `.single()` on the lookup: the row when exactly one matches. */
  function LookUp(users: seq<CallCenterUser>, email: string): (r: Option<CallCenterUser>)
    ensures r.Some? ==> r.value in users && ActiveWithEmail(r.value, email)
  {
    var matching := Filter(users, (u: CallCenterUser) => ActiveWithEmail(u, email));
    if |matching| == 1 then Some(matching[0]) else None
  }

  const AccessDenied := "Access denied. Contact administrator for call center access."

  /** `handleLogin`'s effect: the new database and the user let in, if any.
      `readFails` is an error of the lookup. */
  function Login(db: Db, email: string, now: Time, readFails: bool): (Db, Option<SessionUser>) {
    var found := if readFails then None else LookUp(db.users, email);
    if found.None? then (db, None)
    else
      var u := found.value;
      (db.(users := UpdateWhere(db.users, (x: CallCenterUser) => x.id == u.id,
                                (x: CallCenterUser) => x.(lastLogin := Some(now))))
         .AddLog(Some(u.id), "login", map["email" := Text(email), "timestamp" := At(now)]),
       Some(Normalise(u, now)))
  }

  class LoginForm {
    var email: string
    var isLoading: bool
    var error: string

    constructor()
      ensures email == "" && !isLoading && error == ""
    {
      email := "";
      isLoading := false;
      error := "";
    }

    /** `handleLogin`: the result is what `onLogin` receives. */
    method HandleLogin(store: Store, now: Time, readFails: bool) returns (user: Option<SessionUser>)
      modifies this, store
      ensures (store.db, user) == Login(old(store.db), old(email), now, readFails)
      ensures error == (if user.None? then AccessDenied else "")
      ensures !isLoading && email == old(email)
    {
      isLoading := true;
      error := "";
      var found := if readFails then None else LookUp(store.db.users, email);
      if found.None? {
        error := AccessDenied;
        isLoading := false;
        return None;
      }
      var u := found.value;
      store.db := store.db.(users := UpdateWhere(store.db.users, (x: CallCenterUser) => x.id == u.id,
                                                 (x: CallCenterUser) => x.(lastLogin := Some(now))));
      store.Log(Some(u.id), "login", map["email" := Text(email), "timestamp" := At(now)]);
      user := Some(Normalise(u, now));
      isLoading := false;
    }
  }

  /** Sign-in succeeds exactly when one active user has the email and the
      lookup works; otherwise nothing is written. */
  lemma LoginNeedsOneActiveUser(db: Db, email: string, now: Time, readFails: bool)
    ensures Login(db, email, now, readFails).1.Some? <==>
              !readFails && Count(db.users, (u: CallCenterUser) => ActiveWithEmail(u, email)) == 1
    ensures Login(db, email, now, readFails).1.None? ==> Login(db, email, now, readFails).0 == db
  {
  }

  /** An inactive user, or an email no user has, is refused. */
  lemma InactiveRefused(db: Db, email: string, now: Time)
    requires forall i :: 0 <= i < |db.users| && db.users[i].email == email ==> db.users[i].isActive != Some(true)
    ensures Login(db, email, now, false) == (db, None)
  {
  }

  /** A successful sign-in sets the last login of that user only and logs one
      `login` entry carrying the email; the user handed on has `user_id` equal
      to its id and is the active user with that email. */
  lemma LoginWrites(db: Db, email: string, now: Time, i: int)
    requires Login(db, email, now, false).1.Some?
    requires 0 <= i < |db.users|
    ensures var (db', user) := Login(db, email, now, false);
      && user.value.userId == user.value.id && user.value.email == email
      && (db.users[i].id == user.value.id ==> db'.users[i] == db.users[i].(lastLogin := Some(now)))
      && (db.users[i].id != user.value.id ==> db'.users[i] == db.users[i])
      && db'.logs == db.logs + [ActivityLog(db.nextId, Some(user.value.id), Some("login"),
                                            map["email" := Text(email), "timestamp" := At(now)])]
  {
  }
}
