/** UserManagementController: creating, editing and deleting user accounts
    over the Users table, with unique usernames, a role looked up in the
    Roles table and passwords stored only in encoded form. */
module UserManagement {
  import opened Entities

  datatype Role = Role(id: int, name: string)

  /** A stored account; `role` becomes null when its role row is deleted. */
  datatype User = User(username: string, passwordHash: string, role: Option<Role>)

  /** A role reference in a request body; its id may be absent. */
  datatype RoleRef = RoleRef(id: Option<int>)

  /** The request body: the password travels in the `passwordHash` field
      in clear text; it and the role may be absent (null). */
  datatype UserForm = UserForm(username: string, password: Option<string>, role: Option<RoleRef>)

  /** The Users and Roles tables and the identity generator of Users. */
  datatype Users = Users(users: map<int, User>, roles: map<int, Role>, nextUserId: int)

  /** The table invariant: ids below the generator, usernames unique. */
  ghost predicate Consistent(t: Users)
  {
    && (forall id :: id in t.users ==> id < t.nextUserId)
    && (forall a, b :: a in t.users && b in t.users && t.users[a].username == t.users[b].username ==> a == b)
  }

  /** findByUsername(...).isPresent(). */
  predicate UsernameTaken(users: map<int, User>, username: string)
  {
    exists id :: id in users && users[id].username == username
  }

  /** Another account than `id` already holds `username`. */
  predicate HeldByAnother(users: map<int, User>, id: int, username: string)
  {
    exists other :: other in users && other != id && users[other].username == username
  }

  function RoleId(ref: Option<RoleRef>): Option<int>
  {
    if ref.Some? then ref.value.id else None
  }

  /** Character.isWhitespace: the Unicode space, line and paragraph
      separators other than the no-break spaces, and the ASCII controls
      U+0009 to U+000D and U+001C to U+001F. */
  predicate IsWhitespace(c: char)
  {
    var n := c as int;
    || 0x09 <= n <= 0x0D
    || 0x1C <= n <= 0x20
    || n == 0x1680
    || (0x2000 <= n <= 0x200A && n != 0x2007)
    || n == 0x2028 || n == 0x2029 || n == 0x205F || n == 0x3000
  }

  /** String.isBlank: empty or whitespace only. */
  predicate IsBlank(s: string)
  {
    forall i :: 0 <= i < |s| ==> IsWhitespace(s[i])
  }

  /** Whether an edit replaces the stored hash: a password was sent and it
      is not blank. */
  predicate ReplacesPassword(password: Option<string>)
  {
    password.Some? && !IsBlank(password.value)
  }

  /** create: reject a username in use, then encode the password (a null
      password makes the encoder throw), then look up the role (a missing
      role or role id throws; an unknown id is a bad request), then store
      the account under a fresh id. */
  ghost function Created(t: Users, form: UserForm, encode: string -> string): (r: (Result<User>, Users))
    ensures Consistent(t) ==> Consistent(r.1)
    ensures r.0.Err? ==> r.1 == t
    ensures UsernameTaken(t.users, form.username) ==> r.0 == Err(BadRequest(UsernameInUse))
    ensures !UsernameTaken(t.users, form.username) && form.password.None? ==> r.0 == Err(ServerError(MissingPassword))
    ensures !UsernameTaken(t.users, form.username) && form.password.Some? && RoleId(form.role).None? ==>
      r.0 == Err(ServerError(MissingRole))
    ensures (!UsernameTaken(t.users, form.username) && form.password.Some? && RoleId(form.role).Some? &&
             RoleId(form.role).value !in t.roles) ==> r.0 == Err(BadRequest(InvalidRoleId))
    ensures r.0.Ok? <==>
      && !UsernameTaken(t.users, form.username)
      && form.password.Some?
      && RoleId(form.role).Some?
      && RoleId(form.role).value in t.roles
    ensures r.0.Ok? ==>
      && r.0.value.username == form.username
      && r.0.value.passwordHash == encode(form.password.value)
      && r.0.value.role == Some(t.roles[RoleId(form.role).value])
      && r.1 == t.(users := t.users[t.nextUserId := r.0.value], nextUserId := t.nextUserId + 1)
  {
    if UsernameTaken(t.users, form.username) then (Err(BadRequest(UsernameInUse)), t)
    else if form.password.None? then (Err(ServerError(MissingPassword)), t)
    else if RoleId(form.role).None? then (Err(ServerError(MissingRole)), t)
    else if RoleId(form.role).value !in t.roles then (Err(BadRequest(InvalidRoleId)), t)
    else
      var user := User(form.username, encode(form.password.value), Some(t.roles[RoleId(form.role).value]));
      (Ok(user), t.(users := t.users[t.nextUserId := user], nextUserId := t.nextUserId + 1))
  }

  /** update: NOT_FOUND for an unknown id; then look up the role as create
      does; replace the hash only for a non-blank password; saving a
      username another account holds violates the unique constraint. */
  ghost function Updated(t: Users, id: int, form: UserForm, encode: string -> string): (r: (Result<User>, Users))
    ensures Consistent(t) ==> Consistent(r.1)
    ensures r.0.Err? ==> r.1 == t
    ensures id !in t.users ==> r.0 == Err(NotFound)
    ensures id in t.users && RoleId(form.role).None? ==> r.0 == Err(ServerError(MissingRole))
    ensures id in t.users && RoleId(form.role).Some? && RoleId(form.role).value !in t.roles ==>
      r.0 == Err(BadRequest(InvalidRoleId))
    ensures (id in t.users && RoleId(form.role).Some? && RoleId(form.role).value in t.roles &&
             HeldByAnother(t.users, id, form.username)) ==> r.0 == Err(ServerError(DuplicateUsername))
    ensures r.0.Ok? <==>
      && id in t.users
      && RoleId(form.role).Some?
      && RoleId(form.role).value in t.roles
      && !HeldByAnother(t.users, id, form.username)
    ensures r.0.Ok? ==>
      && r.0.value.username == form.username
      && r.0.value.role == Some(t.roles[RoleId(form.role).value])
      && (ReplacesPassword(form.password) ==> r.0.value.passwordHash == encode(form.password.value))
      && (!ReplacesPassword(form.password) ==> r.0.value.passwordHash == t.users[id].passwordHash)
      && r.1 == t.(users := t.users[id := r.0.value])
  {
    if id !in t.users then (Err(NotFound), t)
    else if RoleId(form.role).None? then (Err(ServerError(MissingRole)), t)
    else if RoleId(form.role).value !in t.roles then (Err(BadRequest(InvalidRoleId)), t)
    else
      var hash := if ReplacesPassword(form.password) then encode(form.password.value) else t.users[id].passwordHash;
      var user := User(form.username, hash, Some(t.roles[RoleId(form.role).value]));
      if HeldByAnother(t.users, id, form.username) then (Err(ServerError(DuplicateUsername)), t)
      else (Ok(user), t.(users := t.users[id := user]))
  }

  /** delete: NOT_FOUND for an unknown id; otherwise the account is gone
      and every other account is as it was. */
  function Deleted(t: Users, id: int): (r: (Result<()>, Users))
    ensures Consistent(t) ==> Consistent(r.1)
    ensures r.0.Err? <==> id !in t.users
    ensures r.0.Err? ==> r.0.failure == NotFound && r.1 == t
    ensures id !in r.1.users
    ensures r.1.roles == t.roles && r.1.nextUserId == t.nextUserId
    ensures forall other :: other != id ==> (other in r.1.users <==> other in t.users)
    ensures forall other :: other != id && other in t.users ==> r.1.users[other] == t.users[other]
  {
    if id !in t.users then (Err(NotFound), t)
    else (Ok(()), t.(users := t.users - {id}))
  }

  /** Deleting the account just created gives back the table as it was,
      but for the spent id. */
  lemma DeleteUndoesCreate(t: Users, form: UserForm, encode: string -> string)
    requires Consistent(t)
    requires Created(t, form, encode).0.Ok?
    ensures var created := Created(t, form, encode).1;
      Deleted(created, t.nextUserId) == (Ok(()), t.(nextUserId := t.nextUserId + 1))
  {
    var created := Created(t, form, encode).1;
    assert t.nextUserId !in t.users;
    assert created.users - {t.nextUserId} == t.users;
  }

  /** A created account is found under its username, and no other is. */
  lemma CreatedUsernameResolves(t: Users, form: UserForm, encode: string -> string)
    requires Consistent(t)
    requires Created(t, form, encode).0.Ok?
    ensures var created := Created(t, form, encode).1;
      && UsernameTaken(created.users, form.username)
      && forall id :: id in created.users && created.users[id].username == form.username ==> id == t.nextUserId
  {
    var created := Created(t, form, encode).1;
    assert created.users[t.nextUserId].username == form.username;
  }

  class UserDirectory {
    var users: map<int, User>
    var roles: map<int, Role>
    var nextUserId: int

    function Snapshot(): Users
      reads this
    {
      Users(users, roles, nextUserId)
    }

    ghost predicate Valid()
      reads this
    {
      Consistent(Snapshot())
    }

    /** An empty Users table over the given roles. */
    constructor (roles: map<int, Role>)
      ensures Valid()
      ensures Snapshot() == Users(map[], roles, 0)
    {
      this.users := map[];
      this.roles := roles;
      this.nextUserId := 0;
    }

    method Create(form: UserForm, encode: string -> string) returns (r: Result<User>)
      requires Valid()
      modifies this
      ensures Valid()
      ensures (r, Snapshot()) == Created(old(Snapshot()), form, encode)
    {
      if UsernameTaken(users, form.username) {
        return Err(BadRequest(UsernameInUse));
      }
      if form.password.None? {
        return Err(ServerError(MissingPassword));
      }
      var hash := encode(form.password.value);
      if form.role.None? || form.role.value.id.None? {
        return Err(ServerError(MissingRole));
      }
      var roleId := form.role.value.id.value;
      if roleId !in roles {
        return Err(BadRequest(InvalidRoleId));
      }
      var user := User(form.username, hash, Some(roles[roleId]));
      users := users[nextUserId := user];
      nextUserId := nextUserId + 1;
      r := Ok(user);
    }

    method Update(id: int, form: UserForm, encode: string -> string) returns (r: Result<User>)
      requires Valid()
      modifies this
      ensures Valid()
      ensures (r, Snapshot()) == Updated(old(Snapshot()), id, form, encode)
    {
      if id !in users {
        return Err(NotFound);
      }
      var existing := users[id];
      existing := existing.(username := form.username);
      if form.role.None? || form.role.value.id.None? {
        return Err(ServerError(MissingRole));
      }
      var roleId := form.role.value.id.value;
      if roleId !in roles {
        return Err(BadRequest(InvalidRoleId));
      }
      existing := existing.(role := Some(roles[roleId]));
      if form.password.Some? && !IsBlank(form.password.value) {
        existing := existing.(passwordHash := encode(form.password.value));
      }
      if HeldByAnother(users, id, form.username) {
        return Err(ServerError(DuplicateUsername));
      }
      users := users[id := existing];
      r := Ok(existing);
    }

    method Delete(id: int) returns (r: Result<()>)
      requires Valid()
      modifies this
      ensures Valid()
      ensures (r, Snapshot()) == Deleted(old(Snapshot()), id)
    {
      if id !in users {
        return Err(NotFound);
      }
      users := users - {id};
      r := Ok(());
    }
  }
}
