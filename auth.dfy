/** The credentials check, the session callbacks and the role gate of
    lib/auth.ts. The session lookup, bcrypt and the database are inputs:
    the session is a value, bcrypt's compare is a set of matching
    (password, hash) pairs, and a thrown database error is a flag. */
module Auth {
  import opened Wrappers

  type Id = nat

  /** The two user roles. */
  datatype Role = SuperAdmin | Editor

  /** A row of the user table. `emailVerified` holds the verification time;
      a user whose `emailVerified` is null counts as deactivated. */
  datatype User = User(id: Id, email: string, name: string, passwordHash: string, role: Role, emailVerified: Option<nat>)

  /** The first user with the given e-mail, as findUnique on the unique
      e-mail column finds it. */
  function FindByEmail(users: seq<User>, email: string): (r: Option<nat>)
    ensures r.Some? ==> (r.value < |users| && users[r.value].email == email
                         && forall k :: 0 <= k < r.value ==> users[k].email != email)
    ensures r.None? <==> forall k :: 0 <= k < |users| ==> users[k].email != email
  {
    if users == [] then None
    else if users[|users| - 1].email == email && FindByEmail(users[..|users| - 1], email).None? then Some(|users| - 1)
    else
      var r := FindByEmail(users[..|users| - 1], email);
      assert forall k :: 0 <= k < |users| - 1 ==> users[..|users| - 1][k] == users[k];
      r
  }

  /** The signed-in user as the session carries it: the id and role the
      `session` callback copied from the token (absent when the token has
      none). */
  datatype Session = Session(userId: Option<Id>, email: Option<string>, name: Option<string>, role: Option<Role>)

  datatype AuthError = Unauthorized | Forbidden(required: Role)

  /** requireAuth: a missing session is refused. */
  function RequireAuth(session: Option<Session>): (r: Result<Session, AuthError>)
    ensures r.Success? <==> session.Some?
    ensures r.Success? ==> r.value == session.value
    ensures r.Failure? ==> r.error == Unauthorized
  {
    if session.None? then Failure(Unauthorized) else Success(session.value)
  }

  /** The roles, ranked: a super-admin may do everything an editor may. */
  function Rank(r: Role): nat {
    match r
    case SuperAdmin => 2
    case Editor => 1
  }

  /** The reference rule: a session role grants a required role when it
      ranks at least as high. */
  predicate Grants(role: Option<Role>, required: Role) {
    role.Some? && Rank(role.value) >= Rank(required)
  }

  /** requireRole: the session check comes first; then SUPER_ADMIN demands a
      super-admin, and EDITOR demands an editor or a super-admin. */
  function RequireRole(session: Option<Session>, required: Role): (r: Result<Session, AuthError>)
    ensures session.None? ==> r == Failure(Unauthorized)
    ensures r.Success? ==> r.value == session.value
    ensures required == SuperAdmin ==> (r.Success? <==> session.Some? && session.value.role == Some(SuperAdmin))
    ensures required == Editor ==> (r.Success? <==> session.Some? && session.value.role in {Some(SuperAdmin), Some(Editor)})
  {
    var s :- RequireAuth(session);
    if required == SuperAdmin && s.role != Some(SuperAdmin) then Failure(Forbidden(SuperAdmin))
    else if required == Editor && s.role != Some(SuperAdmin) && s.role != Some(Editor) then Failure(Forbidden(Editor))
    else Success(s)
  }

  /** The role gate agrees with the ranking: it passes exactly for a
      session whose role ranks at least as high as the required one, and a
      refusal for a signed-in user is Forbidden. */
  lemma RequireRoleIsRanking(session: Option<Session>, required: Role)
    ensures RequireRole(session, required).Success? <==> session.Some? && Grants(session.value.role, required)
    ensures session.Some? && !Grants(session.value.role, required) ==> RequireRole(session, required) == Failure(Forbidden(required))
  {
  }

  /** Whatever passes the SUPER_ADMIN gate passes the EDITOR gate. */
  lemma SuperAdminGateImpliesEditorGate(session: Option<Session>)
    ensures RequireRole(session, SuperAdmin).Success? ==> RequireRole(session, Editor).Success?
  {
  }

  datatype Credentials = Credentials(email: Option<string>, password: Option<string>)

  /** What authorize hands to NextAuth for a successful sign-in. */
  datatype AuthUser = AuthUser(id: Id, email: string, name: string, role: Role)

  /** authorize: null for a missing or empty e-mail or password, an unknown
      e-mail, a password bcrypt does not match, or a database error;
      otherwise the user's id, e-mail, name and role. */
  function Authorize(credentials: Credentials, users: seq<User>, bcryptMatches: set<(string, string)>, databaseFails: bool): (r: Option<AuthUser>)
    ensures r.Some? <==>
      && credentials.email.Some? && credentials.email.value != ""
      && credentials.password.Some? && credentials.password.value != ""
      && !databaseFails
      && FindByEmail(users, credentials.email.value).Some?
      && (credentials.password.value, users[FindByEmail(users, credentials.email.value).value].passwordHash) in bcryptMatches
    ensures r.Some? ==>
      var u := users[FindByEmail(users, credentials.email.value).value];
      r.value == AuthUser(u.id, u.email, u.name, u.role) && u.email == credentials.email.value
  {
    if credentials.email.None? || credentials.email.value == "" || credentials.password.None? || credentials.password.value == "" then None
    else if databaseFails then None
    else
      match FindByEmail(users, credentials.email.value)
      case None => None
      case Some(k) =>
        if (credentials.password.value, users[k].passwordHash) !in bcryptMatches then None
        else Some(AuthUser(users[k].id, users[k].email, users[k].name, users[k].role))
  }

  /** The JWT's claims. */
  datatype Token = Token(id: Option<Id>, email: Option<string>, name: Option<string>, role: Option<Role>)

  /** The jwt callback: on sign-in the user's id, e-mail, name and role are
      copied into the token; otherwise the token is returned as it is. */
  function Jwt(token: Token, user: Option<AuthUser>): (r: Token)
    ensures user.None? ==> r == token
    ensures user.Some? ==>
      && r.id == Some(user.value.id) && r.email == Some(user.value.email)
      && r.name == Some(user.value.name) && r.role == Some(user.value.role)
  {
    if user.Some? then Token(Some(user.value.id), Some(user.value.email), Some(user.value.name), Some(user.value.role))
    else token
  }

  /** The session callback: the token's claims are copied into the
      session's user. */
  function SessionOf(token: Token): Session {
    Session(token.id, token.email, token.name, token.role)
  }

  /** Signing in and then calling a guarded action: the session built from
      the token holds the signed-in user's id, e-mail, name and role, and
      the role gate passes
      exactly when that user's stored role ranks high enough. */
  lemma SignedInUserGate(credentials: Credentials, users: seq<User>, bcryptMatches: set<(string, string)>, token: Token, required: Role)
    requires Authorize(credentials, users, bcryptMatches, false).Some?
    ensures var u := users[FindByEmail(users, credentials.email.value).value];
      var session := SessionOf(Jwt(token, Authorize(credentials, users, bcryptMatches, false)));
      && session == Session(Some(u.id), Some(u.email), Some(u.name), Some(u.role))
      && (RequireRole(Some(session), required).Success? <==> Rank(u.role) >= Rank(required))
  {
    RequireRoleIsRanking(Some(SessionOf(Jwt(token, Authorize(credentials, users, bcryptMatches, false)))), required);
  }

  /** A later request without a sign-in keeps whatever the token held. */
  lemma JwtKeepsTokenWithoutUser(token: Token)
    ensures SessionOf(Jwt(token, None)) == SessionOf(token)
  {
  }
}
