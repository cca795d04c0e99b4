/** The user administration actions of app/actions/users.ts. Every action
    is gated by the SUPER_ADMIN role, validates its input against the user
    schema, reads the user table, and then creates, updates or deletes one
    row. bcrypt's hash and the clock are inputs. Each action's outcome is a
    function of the table before it; `UserTable` performs the same steps
    on a mutable table and is proved to reach that outcome. */
module Users {
  import opened Wrappers
  import Strings
  import Auth

  type Id = Auth.Id
  type User = Auth.User

  /** The user table: its rows and the id the next insert receives. */
  datatype Users = Users(rows: seq<User>, nextId: Id)

  predicate UniqueIds(rows: seq<User>) {
    forall j, k :: 0 <= j < k < |rows| ==> rows[j].id != rows[k].id
  }

  predicate UniqueEmails(rows: seq<User>) {
    forall j, k :: 0 <= j < k < |rows| ==> rows[j].email != rows[k].email
  }

  /** The table's standing invariant: ids and e-mails are unique, and every
      id is below the next one to be issued. */
  predicate Valid(t: Users) {
    UniqueIds(t.rows) && UniqueEmails(t.rows) && forall k :: 0 <= k < |t.rows| ==> t.rows[k].id < t.nextId
  }

  /** findUnique by id. */
  function IndexOfId(rows: seq<User>, id: Id): (r: Option<nat>)
    ensures r.Some? ==> r.value < |rows| && rows[r.value].id == id
    ensures r.None? <==> forall k :: 0 <= k < |rows| ==> rows[k].id != id
  {
    if rows == [] then None
    else if rows[|rows| - 1].id == id then Some(|rows| - 1)
    else
      var r := IndexOfId(rows[..|rows| - 1], id);
      assert forall k :: 0 <= k < |rows| - 1 ==> rows[..|rows| - 1][k] == rows[k];
      r
  }

  /** findFirst with `email` and `id: { not: id }`: another user holds the
      e-mail. */
  predicate HeldByOther(rows: seq<User>, email: string, id: Id) {
    exists k :: 0 <= k < |rows| && rows[k].email == email && rows[k].id != id
  }

  /** count with `role: SUPER_ADMIN`. */
  function SuperAdminCount(rows: seq<User>): nat {
    if rows == [] then 0
    else SuperAdminCount(rows[..|rows| - 1]) + (if rows[|rows| - 1].role == Auth.SuperAdmin then 1 else 0)
  }

  // ---- the user schema ----

  /** The form data of a user. `role` is the submitted string. */
  datatype UserInput = UserInput(email: string, name: string, password: Option<string>, role: string)

  datatype UserData = UserData(email: string, name: string, password: Option<string>, role: Auth.Role)

  datatype UserIssue = InvalidEmail | NameRequired | NameTooLong | PasswordTooShort | InvalidRole

  function ParseRole(s: string): (r: Option<Auth.Role>)
    ensures r == Some(Auth.SuperAdmin) <==> s == "SUPER_ADMIN"
    ensures r == Some(Auth.Editor) <==> s == "EDITOR"
  {
    if s == "SUPER_ADMIN" then Some(Auth.SuperAdmin)
    else if s == "EDITOR" then Some(Auth.Editor)
    else None
  }

  /** The issues of userSchema, field by field in the schema's order. */
  function UserIssues(input: UserInput): seq<UserIssue> {
    (if Strings.IsEmail(input.email) then [] else [InvalidEmail])
    + (if |input.name| < 1 then [NameRequired] else [])
    + (if |input.name| > 100 then [NameTooLong] else [])
    + (if input.password.Some? && |input.password.value| < 6 then [PasswordTooShort] else [])
    + (if ParseRole(input.role).None? then [InvalidRole] else [])
  }

  /** The reference rules of userSchema. */
  predicate UserAcceptable(input: UserInput) {
    && Strings.IsEmail(input.email)
    && 1 <= |input.name| <= 100
    && (input.password.Some? ==> |input.password.value| >= 6)
    && (input.role == "SUPER_ADMIN" || input.role == "EDITOR")
  }

  /** userSchema.parse: the typed data, or every issue found. */
  function ParseUser(input: UserInput): (r: Result<UserData, seq<UserIssue>>)
    ensures r.Success? <==> UserAcceptable(input)
    ensures r.Failure? ==> r.error != []
    ensures r.Success? ==> (r.value.email == input.email && r.value.name == input.name
                            && r.value.password == input.password && ParseRole(input.role) == Some(r.value.role))
  {
    var issues := UserIssues(input);
    if issues == [] then Success(UserData(input.email, input.name, input.password, ParseRole(input.role).value))
    else Failure(issues)
  }

  // ---- the actions, as functions of the table ----

  datatype UserError =
    | NotAllowed(reason: Auth.AuthError)
    | Invalid(issues: seq<UserIssue>)
    | PasswordRequired
    | EmailTaken
    | OwnRoleChange
    | CannotDeleteSelf
    | LastSuperAdmin
    | CannotDeactivateSelf
    | PasswordTooShortToReset
    | UserNotFound

  /** What an action returns, and the table after it. */
  datatype Outcome<T> = Outcome(result: Result<T, UserError>, table: Users)

  /** `session?.user?.id === id`. */
  predicate IsSelf(session: Option<Auth.Session>, id: Id) {
    session.Some? && session.value.userId == Some(id)
  }

  /** The JavaScript truthiness of an optional string. */
  predicate Truthy(o: Option<string>) {
    o.Some? && o.value != ""
  }

  /** createUser: role gate, schema, a password is required, the e-mail
      must be free; the new user is stored with the password's hash and
      counts as verified from `now`. */
  function CreateUserOutcome(t: Users, session: Option<Auth.Session>, input: UserInput, hash: string, now: nat): (o: Outcome<Id>)
    ensures o.result.Failure? ==> o.table == t
    ensures o.result.Success? <==>
      && Auth.RequireRole(session, Auth.SuperAdmin).Success? && UserAcceptable(input)
      && input.password.Some? && Auth.FindByEmail(t.rows, input.email).None?
    ensures o.result.Success? ==>
      && o.result.value == t.nextId
      && o.table.rows == t.rows + [Auth.User(t.nextId, input.email, input.name, hash, ParseRole(input.role).value, Some(now))]
      && o.table.nextId == t.nextId + 1
  {
    var gate := Auth.RequireRole(session, Auth.SuperAdmin);
    if gate.Failure? then Outcome(Failure(NotAllowed(gate.error)), t)
    else
      var parsed := ParseUser(input);
      if parsed.Failure? then Outcome(Failure(Invalid(parsed.error)), t)
      else
        var v := parsed.value;
        if !Truthy(v.password) then Outcome(Failure(PasswordRequired), t)
        else if Auth.FindByEmail(t.rows, v.email).Some? then Outcome(Failure(EmailTaken), t)
        else
          var user := Auth.User(t.nextId, v.email, v.name, hash, v.role, Some(now));
          Outcome(Success(t.nextId), Users(t.rows + [user], t.nextId + 1))
  }

  /** The row after updateUser's data: e-mail, name and role replaced, the
      password hash replaced only when a password was given. */
  function UpdatedUser(u: User, v: UserData, hash: string): User {
    Auth.User(u.id, v.email, v.name, if Truthy(v.password) then hash else u.passwordHash, v.role, u.emailVerified)
  }

  /** updateUser: role gate, schema, no change of one's own role, the
      e-mail must not belong to another user, and the user must exist. */
  function UpdateUserOutcome(t: Users, session: Option<Auth.Session>, id: Id, input: UserInput, hash: string): (o: Outcome<()>)
    ensures o.result.Failure? ==> o.table == t
    ensures o.result.Success? <==>
      && Auth.RequireRole(session, Auth.SuperAdmin).Success? && UserAcceptable(input)
      && !(IsSelf(session, id) && ParseRole(input.role) != session.value.role)
      && !HeldByOther(t.rows, input.email, id) && IndexOfId(t.rows, id).Some?
    ensures o.result.Success? ==>
      var k := IndexOfId(t.rows, id).value;
      o.table == t.(rows := t.rows[k := UpdatedUser(t.rows[k], ParseUser(input).value, hash)])
  {
    var gate := Auth.RequireRole(session, Auth.SuperAdmin);
    if gate.Failure? then Outcome(Failure(NotAllowed(gate.error)), t)
    else
      var parsed := ParseUser(input);
      if parsed.Failure? then Outcome(Failure(Invalid(parsed.error)), t)
      else
        var v := parsed.value;
        if IsSelf(session, id) && Some(v.role) != session.value.role then Outcome(Failure(OwnRoleChange), t)
        else if HeldByOther(t.rows, v.email, id) then Outcome(Failure(EmailTaken), t)
        else match IndexOfId(t.rows, id)
          case None => Outcome(Failure(UserNotFound), t)
          case Some(k) => Outcome(Success(()), t.(rows := t.rows[k := UpdatedUser(t.rows[k], v, hash)]))
  }

  /** deleteUser: role gate, not oneself, and a super-admin is deleted only
      while another one exists. */
  function DeleteUserOutcome(t: Users, session: Option<Auth.Session>, id: Id): (o: Outcome<()>)
    ensures o.result.Failure? ==> o.table == t
    ensures o.result.Success? <==>
      && Auth.RequireRole(session, Auth.SuperAdmin).Success? && !IsSelf(session, id)
      && IndexOfId(t.rows, id).Some?
      && (t.rows[IndexOfId(t.rows, id).value].role == Auth.SuperAdmin ==> SuperAdminCount(t.rows) > 1)
    ensures o.result.Success? ==>
      var k := IndexOfId(t.rows, id).value;
      o.table == t.(rows := t.rows[..k] + t.rows[k + 1..])
  {
    var gate := Auth.RequireRole(session, Auth.SuperAdmin);
    if gate.Failure? then Outcome(Failure(NotAllowed(gate.error)), t)
    else if IsSelf(session, id) then Outcome(Failure(CannotDeleteSelf), t)
    else match IndexOfId(t.rows, id)
      case None => Outcome(Failure(UserNotFound), t)
      case Some(k) =>
        if t.rows[k].role == Auth.SuperAdmin && SuperAdminCount(t.rows) <= 1 then Outcome(Failure(LastSuperAdmin), t)
        else Outcome(Success(()), t.(rows := t.rows[..k] + t.rows[k + 1..]))
  }

  /** resetUserPassword: role gate, at least six characters, and the user
      must exist; only the password hash changes. */
  function ResetPasswordOutcome(t: Users, session: Option<Auth.Session>, id: Id, newPassword: string, hash: string): (o: Outcome<()>)
    ensures o.result.Failure? ==> o.table == t
    ensures o.result.Success? <==>
      Auth.RequireRole(session, Auth.SuperAdmin).Success? && |newPassword| >= 6 && IndexOfId(t.rows, id).Some?
    ensures o.result.Success? ==>
      var k := IndexOfId(t.rows, id).value;
      o.table == t.(rows := t.rows[k := t.rows[k].(passwordHash := hash)])
  {
    var gate := Auth.RequireRole(session, Auth.SuperAdmin);
    if gate.Failure? then Outcome(Failure(NotAllowed(gate.error)), t)
    else if |newPassword| < 6 then Outcome(Failure(PasswordTooShortToReset), t)
    else match IndexOfId(t.rows, id)
      case None => Outcome(Failure(UserNotFound), t)
      case Some(k) => Outcome(Success(()), t.(rows := t.rows[k := t.rows[k].(passwordHash := hash)]))
  }

  /** toggleUserStatus: role gate, not oneself, and the user must exist; a
      verified user is deactivated (emailVerified cleared), a deactivated
      one is verified from `now`. The result says whether the user is now
      active. */
  function ToggleStatusOutcome(t: Users, session: Option<Auth.Session>, id: Id, now: nat): (o: Outcome<bool>)
    ensures o.result.Failure? ==> o.table == t
    ensures o.result.Success? <==>
      Auth.RequireRole(session, Auth.SuperAdmin).Success? && !IsSelf(session, id) && IndexOfId(t.rows, id).Some?
    ensures o.result.Success? ==>
      var k := IndexOfId(t.rows, id).value;
      && o.result.value == t.rows[k].emailVerified.None?
      && o.table == t.(rows := t.rows[k := t.rows[k].(emailVerified := if t.rows[k].emailVerified.Some? then None else Some(now))])
  {
    var gate := Auth.RequireRole(session, Auth.SuperAdmin);
    if gate.Failure? then Outcome(Failure(NotAllowed(gate.error)), t)
    else if IsSelf(session, id) then Outcome(Failure(CannotDeactivateSelf), t)
    else match IndexOfId(t.rows, id)
      case None => Outcome(Failure(UserNotFound), t)
      case Some(k) =>
        var u := t.rows[k];
        Outcome(Success(u.emailVerified.None?), t.(rows := t.rows[k := u.(emailVerified := if u.emailVerified.Some? then None else Some(now))]))
  }

  // ---- the mutable table ----

  class UserTable {
    var rows: seq<User>
    var nextId: Id

    function State(): Users
      reads this
    {
      Users(rows, nextId)
    }

    constructor(initial: Users)
      ensures State() == initial
    {
      rows := initial.rows;
      nextId := initial.nextId;
    }

    /** prisma.user.create: the row is appended with the next id. */
    method Insert(email: string, name: string, hash: string, role: Auth.Role, emailVerified: Option<nat>) returns (id: Id)
      modifies this
      ensures id == old(nextId) && nextId == old(nextId) + 1
      ensures rows == old(rows) + [Auth.User(id, email, name, hash, role, emailVerified)]
    {
      id := nextId;
      rows := rows + [Auth.User(id, email, name, hash, role, emailVerified)];
      nextId := nextId + 1;
    }

    /** prisma.user.update of the row at index `k`. */
    method Replace(k: nat, u: User)
      requires k < |rows|
      modifies this
      ensures rows == old(rows)[k := u] && nextId == old(nextId)
    {
      rows := rows[k := u];
    }

    /** prisma.user.delete of the row at index `k`. */
    method Remove(k: nat)
      requires k < |rows|
      modifies this
      ensures rows == old(rows)[..k] + old(rows)[k + 1..] && nextId == old(nextId)
    {
      rows := rows[..k] + rows[k + 1..];
    }

    method CreateUser(session: Option<Auth.Session>, input: UserInput, hash: string, now: nat) returns (r: Result<Id, UserError>)
      modifies this
      ensures Outcome(r, State()) == CreateUserOutcome(old(State()), session, input, hash, now)
    {
      var gate := Auth.RequireRole(session, Auth.SuperAdmin);
      if gate.Failure? {
        return Failure(NotAllowed(gate.error));
      }
      var parsed := ParseUser(input);
      if parsed.Failure? {
        return Failure(Invalid(parsed.error));
      }
      var v := parsed.value;
      if !Truthy(v.password) {
        return Failure(PasswordRequired);
      }
      var existing := Auth.FindByEmail(rows, v.email);
      if existing.Some? {
        return Failure(EmailTaken);
      }
      var id := Insert(v.email, v.name, hash, v.role, Some(now));
      return Success(id);
    }

    method UpdateUser(session: Option<Auth.Session>, id: Id, input: UserInput, hash: string) returns (r: Result<(), UserError>)
      modifies this
      ensures Outcome(r, State()) == UpdateUserOutcome(old(State()), session, id, input, hash)
    {
      var gate := Auth.RequireRole(session, Auth.SuperAdmin);
      if gate.Failure? {
        return Failure(NotAllowed(gate.error));
      }
      var parsed := ParseUser(input);
      if parsed.Failure? {
        return Failure(Invalid(parsed.error));
      }
      var v := parsed.value;
      if IsSelf(session, id) && Some(v.role) != session.value.role {
        return Failure(OwnRoleChange);
      }
      if HeldByOther(rows, v.email, id) {
        return Failure(EmailTaken);
      }
      var k := IndexOfId(rows, id);
      if k.None? {
        return Failure(UserNotFound);
      }
      Replace(k.value, UpdatedUser(rows[k.value], v, hash));
      return Success(());
    }

    method DeleteUser(session: Option<Auth.Session>, id: Id) returns (r: Result<(), UserError>)
      modifies this
      ensures Outcome(r, State()) == DeleteUserOutcome(old(State()), session, id)
    {
      var gate := Auth.RequireRole(session, Auth.SuperAdmin);
      if gate.Failure? {
        return Failure(NotAllowed(gate.error));
      }
      if IsSelf(session, id) {
        return Failure(CannotDeleteSelf);
      }
      var k := IndexOfId(rows, id);
      if k.Some? && rows[k.value].role == Auth.SuperAdmin {
        var adminCount := SuperAdminCount(rows);
        if adminCount <= 1 {
          return Failure(LastSuperAdmin);
        }
      }
      if k.None? {
        return Failure(UserNotFound);
      }
      Remove(k.value);
      return Success(());
    }

    method ResetUserPassword(session: Option<Auth.Session>, id: Id, newPassword: string, hash: string) returns (r: Result<(), UserError>)
      modifies this
      ensures Outcome(r, State()) == ResetPasswordOutcome(old(State()), session, id, newPassword, hash)
    {
      var gate := Auth.RequireRole(session, Auth.SuperAdmin);
      if gate.Failure? {
        return Failure(NotAllowed(gate.error));
      }
      if |newPassword| < 6 {
        return Failure(PasswordTooShortToReset);
      }
      var k := IndexOfId(rows, id);
      if k.None? {
        return Failure(UserNotFound);
      }
      Replace(k.value, rows[k.value].(passwordHash := hash));
      return Success(());
    }

    method ToggleUserStatus(session: Option<Auth.Session>, id: Id, now: nat) returns (r: Result<bool, UserError>)
      modifies this
      ensures Outcome(r, State()) == ToggleStatusOutcome(old(State()), session, id, now)
    {
      var gate := Auth.RequireRole(session, Auth.SuperAdmin);
      if gate.Failure? {
        return Failure(NotAllowed(gate.error));
      }
      if IsSelf(session, id) {
        return Failure(CannotDeactivateSelf);
      }
      var k := IndexOfId(rows, id);
      if k.None? {
        return Failure(UserNotFound);
      }
      var user := rows[k.value];
      Replace(k.value, user.(emailVerified := if user.emailVerified.Some? then None else Some(now)));
      return Success(user.emailVerified.None?);
    }
  }

  // ---- properties of the actions ----

  lemma {:induction false} SuperAdminCountConcat(a: seq<User>, b: seq<User>)
    ensures SuperAdminCount(a + b) == SuperAdminCount(a) + SuperAdminCount(b)
  {
    if b == [] {
      assert a + b == a;
    } else {
      SuperAdminCountConcat(a, b[..|b| - 1]);
      assert (a + b)[..|a + b| - 1] == a + b[..|b| - 1];
    }
  }

  /** Splitting the table at row `k`: the count is the rows before, the row
      itself and the rows after. */
  lemma SuperAdminCountSplit(rows: seq<User>, k: nat)
    requires k < |rows|
    ensures SuperAdminCount(rows) == SuperAdminCount(rows[..k]) + SuperAdminCount([rows[k]]) + SuperAdminCount(rows[k + 1..])
  {
    assert rows == rows[..k] + [rows[k]] + rows[k + 1..];
    SuperAdminCountConcat(rows[..k] + [rows[k]], rows[k + 1..]);
    SuperAdminCountConcat(rows[..k], [rows[k]]);
  }

  /** Some row of the table is a super-admin exactly when the count is
      positive. */
  lemma {:induction false} SuperAdminCountPositive(rows: seq<User>)
    ensures SuperAdminCount(rows) > 0 <==> exists k :: 0 <= k < |rows| && rows[k].role == Auth.SuperAdmin
  {
    if rows != [] {
      SuperAdminCountPositive(rows[..|rows| - 1]);
      assert forall k :: 0 <= k < |rows| - 1 ==> rows[..|rows| - 1][k] == rows[k];
    }
  }

  /** Deleting a user never removes the last super-admin: if the table had
      one, it still has one. */
  lemma DeleteKeepsASuperAdmin(t: Users, session: Option<Auth.Session>, id: Id)
    requires SuperAdminCount(t.rows) >= 1
    ensures SuperAdminCount(DeleteUserOutcome(t, session, id).table.rows) >= 1
  {
    var o := DeleteUserOutcome(t, session, id);
    if o.result.Success? {
      var k := IndexOfId(t.rows, id).value;
      SuperAdminCountSplit(t.rows, k);
      SuperAdminCountConcat(t.rows[..k], t.rows[k + 1..]);
    }
  }

  /** Updating a user never removes the last super-admin, when the caller's
      session names a super-admin of the table: one's own role cannot be
      changed, and the caller's row survives any other update. */
  lemma UpdateKeepsASuperAdmin(t: Users, session: Option<Auth.Session>, id: Id, input: UserInput, hash: string, caller: nat)
    requires caller < |t.rows| && t.rows[caller].role == Auth.SuperAdmin
    requires session.Some? && session.value.userId == Some(t.rows[caller].id) && session.value.role == Some(Auth.SuperAdmin)
    requires UniqueIds(t.rows)
    ensures SuperAdminCount(UpdateUserOutcome(t, session, id, input, hash).table.rows) >= 1
  {
    var o := UpdateUserOutcome(t, session, id, input, hash);
    var rows' := o.table.rows;
    if o.result.Success? {
      var k := IndexOfId(t.rows, id).value;
      if k == caller {
        assert rows'[caller].role == Auth.SuperAdmin;
      } else {
        assert rows'[caller] == t.rows[caller];
      }
      SuperAdminCountPositive(rows');
    } else {
      SuperAdminCountPositive(t.rows);
    }
  }

  /** A caller cannot change their own role: a successful update of the
      caller's own row keeps the session's role. */
  lemma OwnRoleIsKept(t: Users, session: Option<Auth.Session>, id: Id, input: UserInput, hash: string)
    requires IsSelf(session, id)
    requires UpdateUserOutcome(t, session, id, input, hash).result.Success?
    ensures var rows' := UpdateUserOutcome(t, session, id, input, hash).table.rows;
      Some(rows'[IndexOfId(t.rows, id).value].role) == session.value.role
  {
  }

  /** The password hash changes only when a password was given. */
  lemma PasswordChangesOnlyWhenGiven(t: Users, session: Option<Auth.Session>, id: Id, input: UserInput, hash: string)
    requires UpdateUserOutcome(t, session, id, input, hash).result.Success?
    ensures var k := IndexOfId(t.rows, id).value;
      var u := UpdateUserOutcome(t, session, id, input, hash).table.rows[k];
      && (input.password.None? ==> u.passwordHash == t.rows[k].passwordHash)
      && (input.password.Some? ==> u.passwordHash == hash)
  {
  }

  /** Update, password reset and status toggle change only the row with
      the given id (ids being unique); every other row stays as it was. */
  lemma RowUpdatesTouchOnlyTarget(t: Users, session: Option<Auth.Session>, id: Id, input: UserInput, hash: string, newPassword: string, now: nat)
    requires UniqueIds(t.rows)
    ensures var u := UpdateUserOutcome(t, session, id, input, hash).table;
      |u.rows| == |t.rows| && forall k :: 0 <= k < |t.rows| && t.rows[k].id != id ==> u.rows[k] == t.rows[k]
    ensures var p := ResetPasswordOutcome(t, session, id, newPassword, hash).table;
      |p.rows| == |t.rows| && forall k :: 0 <= k < |t.rows| && t.rows[k].id != id ==> p.rows[k] == t.rows[k]
    ensures var s := ToggleStatusOutcome(t, session, id, now).table;
      |s.rows| == |t.rows| && forall k :: 0 <= k < |t.rows| && t.rows[k].id != id ==> s.rows[k] == t.rows[k]
  {
  }

  /** Deleting a user removes exactly that user's row and keeps the order
      of the others. */
  lemma DeleteRemovesOnlyTarget(t: Users, session: Option<Auth.Session>, id: Id)
    requires UniqueIds(t.rows)
    requires DeleteUserOutcome(t, session, id).result.Success?
    ensures var rows' := DeleteUserOutcome(t, session, id).table.rows;
      && |rows'| == |t.rows| - 1
      && (forall k :: 0 <= k < |rows'| ==> rows'[k].id != id)
      && (forall u :: u in t.rows && u.id != id ==> u in rows')
  {
    var k := IndexOfId(t.rows, id).value;
    var rows' := DeleteUserOutcome(t, session, id).table.rows;
    forall u | u in t.rows && u.id != id ensures u in rows' {
      var j :| 0 <= j < |t.rows| && t.rows[j] == u;
      if j < k {
        assert rows'[j] == u;
      } else {
        assert rows'[j - 1] == u;
      }
    }
  }

  /** Every action keeps the table's invariant: ids and e-mails stay
      unique and below the next id. */
  lemma CreateKeepsValid(t: Users, session: Option<Auth.Session>, input: UserInput, hash: string, now: nat)
    requires Valid(t)
    ensures Valid(CreateUserOutcome(t, session, input, hash, now).table)
  {
  }

  lemma UpdateKeepsValid(t: Users, session: Option<Auth.Session>, id: Id, input: UserInput, hash: string)
    requires Valid(t)
    ensures Valid(UpdateUserOutcome(t, session, id, input, hash).table)
  {
    var o := UpdateUserOutcome(t, session, id, input, hash);
    if o.result.Success? {
      var k := IndexOfId(t.rows, id).value;
      var rows' := o.table.rows;
      forall j | 0 <= j < |rows'| && j != k ensures rows'[j].email != rows'[k].email {
        assert rows'[j] == t.rows[j];
        assert t.rows[j].id != id;
      }
    }
  }

  lemma DeleteKeepsValid(t: Users, session: Option<Auth.Session>, id: Id)
    requires Valid(t)
    ensures Valid(DeleteUserOutcome(t, session, id).table)
  {
    var o := DeleteUserOutcome(t, session, id);
    if o.result.Success? {
      var k := IndexOfId(t.rows, id).value;
      var rows' := o.table.rows;
      assert forall j :: 0 <= j < |rows'| ==> rows'[j] == t.rows[if j < k then j else j + 1];
    }
  }

  lemma ResetAndToggleKeepValid(t: Users, session: Option<Auth.Session>, id: Id, newPassword: string, hash: string, now: nat)
    requires Valid(t)
    ensures Valid(ResetPasswordOutcome(t, session, id, newPassword, hash).table)
    ensures Valid(ToggleStatusOutcome(t, session, id, now).table)
  {
  }

  /** A created user is active (e-mail verified) and can be found by the
      e-mail it was created with. */
  lemma CreatedUserIsActive(t: Users, session: Option<Auth.Session>, input: UserInput, hash: string, now: nat)
    requires CreateUserOutcome(t, session, input, hash, now).result.Success?
    ensures var rows' := CreateUserOutcome(t, session, input, hash, now).table.rows;
      var k := Auth.FindByEmail(rows', input.email);
      k == Some(|t.rows|) && rows'[k.value].emailVerified == Some(now) && rows'[k.value].passwordHash == hash
  {
    var rows' := CreateUserOutcome(t, session, input, hash, now).table.rows;
    assert rows'[..|rows'| - 1] == t.rows;
  }

  /** Toggling a user's status twice restores whether the user is active. */
  lemma ToggleTwiceRestoresActivity(t: Users, session: Option<Auth.Session>, id: Id, now1: nat, now2: nat)
    requires ToggleStatusOutcome(t, session, id, now1).result.Success?
    ensures var t1 := ToggleStatusOutcome(t, session, id, now1).table;
      var t2 := ToggleStatusOutcome(t1, session, id, now2).table;
      var k := IndexOfId(t.rows, id).value;
      && ToggleStatusOutcome(t1, session, id, now2).result.Success?
      && t2.rows[k].emailVerified.Some? == t.rows[k].emailVerified.Some?
      && ToggleStatusOutcome(t1, session, id, now2).result.value != ToggleStatusOutcome(t, session, id, now1).result.value
  {
    var t1 := ToggleStatusOutcome(t, session, id, now1).table;
    SameIdsSameIndex(t.rows, t1.rows, id);
  }

  /** Rows carrying the same ids in the same places are searched alike. */
  lemma {:induction false} SameIdsSameIndex(a: seq<User>, b: seq<User>, id: Id)
    requires |a| == |b| && forall k :: 0 <= k < |a| ==> a[k].id == b[k].id
    ensures IndexOfId(a, id) == IndexOfId(b, id)
  {
    if a != [] {
      SameIdsSameIndex(a[..|a| - 1], b[..|b| - 1], id);
    }
  }
}
