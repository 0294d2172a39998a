/** Authentication and sessions (auth.py): the login guard and credential check,
    the session's current user, role permissions, and the language toggle of the
    login screen. */
module Auth {
  import opened Base
  import opened Text
  import opened Tables
  import opened Translations

  /** The permissions a non-admin role grants; unknown roles grant none. */
  function RolePermissions(role: string): set<string>
  {
    if role == "manager" then {"view", "create", "edit", "reports"}
    else if role == "employee" then {"view", "create"}
    else {}
  }

  /** `has_permission` for a session holding `user`. */
  function Allowed(user: Option<User>, permission: string): (b: bool)
    ensures user.None? ==> !b
    ensures user.Some? && user.value.role == "admin" ==> b
    ensures user.Some? && user.value.role != "admin" ==> (b <==> permission in RolePermissions(user.value.role))
  {
    match user
    case None => false
    case Some(u) => u.role == "admin" || permission in RolePermissions(u.role)
  }

  /** The roles form a chain: whatever an employee may do a manager may do, and
      whatever a manager may do an admin may do; other roles may do nothing. */
  lemma PermissionChain(employee: User, manager: User, admin: User, other: User, permission: string)
    requires employee.role == "employee" && manager.role == "manager" && admin.role == "admin"
    requires other.role !in {"employee", "manager", "admin"}
    ensures Allowed(Some(employee), permission) ==> Allowed(Some(manager), permission)
    ensures Allowed(Some(manager), permission) ==> Allowed(Some(admin), permission)
    ensures !Allowed(Some(other), permission)
    ensures Allowed(Some(manager), permission) <==> permission in {"view", "create", "edit", "reports"}
    ensures Allowed(Some(employee), permission) <==> permission in {"view", "create"}
  {
  }

  class SessionManager {
    var currentUser: Option<User>

    constructor ()
      ensures currentUser.None?
    {
      currentUser := None;
    }

    method SetUser(user: User)
      modifies this
      ensures currentUser == Some(user)
    {
      currentUser := Some(user);
    }

    method GetUser() returns (user: Option<User>)
      ensures user == currentUser
    {
      user := currentUser;
    }

    /** `has_permission`: nothing without a user, everything for an admin. */
    predicate HasPermission(permission: string): (b: bool)
      reads this
      ensures currentUser.None? ==> !b
      ensures IsAdmin() ==> b
    {
      Allowed(currentUser, permission)
    }

    /** `is_admin`: a user is set and its role is 'admin'. */
    predicate IsAdmin(): (b: bool)
      reads this
      ensures b ==> forall permission :: Allowed(currentUser, permission)
      ensures !Allowed(currentUser, "edit") ==> !b
    {
      currentUser.Some? && currentUser.value.role == "admin"
    }

    /** `logout`: afterwards there is no user and no permission. */
    method Logout()
      modifies this
      ensures currentUser.None?
      ensures forall permission :: !HasPermission(permission)
      ensures !IsAdmin()
    {
      currentUser := None;
    }
  }

  /** The admin test agrees with the permission check: an admin has every
      permission, and a user without 'edit' is not an admin. */
  lemma AdminHasAll(user: Option<User>, permission: string)
    ensures (user.Some? && user.value.role == "admin") ==> Allowed(user, permission)
    ensures !Allowed(user, "edit") ==> !(user.Some? && user.value.role == "admin")
  {
  }

  predicate Matches(u: User, username: string, passwordHash: string)
  {
    u.username == username && u.passwordHash == passwordHash && u.isActive
  }

  /** `SELECT * FROM users WHERE username = ? AND password_hash = ? AND is_active = 1`. */
  function CredentialIndex(users: seq<User>, username: string, passwordHash: string): Option<nat>
  {
    FirstMatch(users, (u: User) => Matches(u, username, passwordHash))
  }

  /** `LoginScreen.login`. Both entries are stripped; if either is then empty the
      login fails with no lookup and no write. Otherwise the active user with that
      name and password hash, if any, gets its last login set to now and is returned
      as it was read. */
  method Login(db: Db, usernameEntry: string, passwordEntry: string, hash: string -> string, now: Instant)
    returns (user: Option<User>)
    requires db.Valid()
    modifies db`users
    ensures db.Valid()
    ensures Strip(usernameEntry) == [] || Strip(passwordEntry) == [] ==>
              user.None? && db.users == old(db.users)
    ensures Strip(usernameEntry) != [] && Strip(passwordEntry) != [] ==>
              var found := CredentialIndex(old(db.users), Strip(usernameEntry), hash(Strip(passwordEntry)));
              if found.Some? then
                user == Some(old(db.users)[found.value])
                && db.users == old(db.users)[found.value := old(db.users)[found.value].(lastLogin := Some(now))]
              else user.None? && db.users == old(db.users)
    ensures user.Some? ==> user.value.isActive && user.value.username == Strip(usernameEntry)
  {
    var username := Strip(usernameEntry);
    var password := Strip(passwordEntry);
    if username == [] || password == [] {
      return None;
    }
    var passwordHash := hash(password);
    var found := CredentialIndex(db.users, username, passwordHash);
    if found.None? {
      return None;
    }
    var k := found.value;
    user := Some(db.users[k]);
    db.users := db.users[k := db.users[k].(lastLogin := Some(now))];
    assert Unique(db.users, UsernameOf) by {
      forall i, j | 0 <= i < j < |db.users|
        ensures UsernameOf(db.users[i]) != UsernameOf(db.users[j])
      {
        assert UsernameOf(old(db.users)[i]) != UsernameOf(old(db.users)[j]);
      }
    }
  }

  /** `toggle_language`: Persian switches to English and anything else to Persian;
      the new code has a table, so it is always applied and saved. */
  method ToggleLanguage(translator: Translator, db: Db)
    requires translator.Valid() && db.Valid()
    modifies translator`currentLanguage, db`settings
    ensures translator.Valid() && db.Valid()
    ensures translator.currentLanguage == (if old(translator.currentLanguage) == "fa" then "en" else "fa")
    ensures translator.IsRtl() <==> old(translator.currentLanguage) != "fa"
    ensures db.settings == SaveLanguage(old(db.settings), translator.currentLanguage)
  {
    var current := translator.currentLanguage;
    var next := if current == "fa" then "en" else "fa";
    translator.SetLanguage(next, db);
  }
}
