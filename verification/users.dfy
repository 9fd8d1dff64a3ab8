/** controllers/userController.go: password check, sign-up and login. Hashing, hash
    comparison and token signing are parameters; the user document's keys are the ones
    the handlers filter and update on. */
module Users {
  import opened Wrappers
  import opened Replies
  import opened ObjectIds
  import opened Clock
  import opened Documents
  import opened Stores
  import opened Models
  import opened Tokens

  const LoginFailed: string := "login or password is incorrect"

  /** `VerifyPassword`: `matches(digest, candidate)` is the hash comparison; the stored
      digest is the second argument and the offered password the first. */
  function VerifyPassword(userPassword: string, providedPassword: string, matches: (string, string) -> bool): (r: (bool, string))
    ensures r.0 <==> matches(providedPassword, userPassword)
    ensures r.1 == "" <==> r.0
    ensures !r.0 ==> r.1 == LoginFailed
  {
    if matches(providedPassword, userPassword) then (true, "") else (false, LoginFailed)
  }

  /** The stored user and the reply of a successful sign-up or login. */
  datatype Account = Account(store: Store, user: Doc)

  /** The user's fields before the create stamps ids and times. */
  function UserFields(p: UserPayload, digest: string, pair: TokenPair): Doc
  {
    map["first_name" := OptStr(p.firstName), "last_name" := OptStr(p.lastName),
        "password" := Str(digest), "email" := OptStr(p.email), "phone" := OptStr(p.phone),
        "token" := Str(pair.token), "refresh_token" := Str(pair.refreshToken)]
  }

  /** `SignUp`: validation (400), a taken email (409), hashing, a taken phone (409), then
      the user is created with fresh tokens. A missing password, email or name is
      dereferenced and panics; a missing email or phone is counted as `null`. */
  function SignUp(s: Store, p: UserPayload, validate: UserPayload -> seq<FieldError>, env: Env,
                  hash: string -> string, sign: Claims -> string): (r: Result<Account>)
    ensures validate(p) != [] ==> r == Err(Reject(BadRequest, Violations(validate(p))))
    ensures validate(p) == [] && Exists(s.users, "email", OptStr(p.email)) ==>
      r == Err(Reject(Conflict, Text("email already exists")))
    ensures (&& validate(p) == [] && !Exists(s.users, "email", OptStr(p.email)) && p.password.Some?
             && Exists(s.users, "phone", OptStr(p.phone))) ==>
      r == Err(Reject(Conflict, Text("phone number already exists")))
    ensures r.Ok? <==>
      && validate(p) == []
      && !Exists(s.users, "email", OptStr(p.email)) && !Exists(s.users, "phone", OptStr(p.phone))
      && p.password.Some? && p.email.Some? && p.firstName.Some? && p.lastName.Some?
    ensures r.Ok? ==> r.value.store == s.(users := s.users + [r.value.user])
  {
    if validate(p) != [] then Err(Reject(BadRequest, Violations(validate(p))))
    else if Count(s.users, "email", OptStr(p.email)) > 0 then Err(Reject(Conflict, Text("email already exists")))
    else if p.password.None? then Err(Panic)
    else
      var digest := hash(p.password.value);
      if Count(s.users, "phone", OptStr(p.phone)) > 0 then Err(Reject(Conflict, Text("phone number already exists")))
      else if p.email.None? || p.firstName.None? || p.lastName.None? then Err(Panic)
      else
        var uid := Hex(env.newId);
        var pair := GenerateAllTokens(p.email.value, p.firstName.value, p.lastName.value, uid, env.now, sign);
        var user := Created(UserFields(p, digest, pair), "user_id", env);
        Ok(Account(s.(users := s.users + [user]), user))
  }

  /** The stored identity of a new user. */
  lemma CreatedUserIdentity(p: UserPayload, digest: string, pair: TokenPair, env: Env)
    ensures var d := Created(UserFields(p, digest, pair), "user_id", env);
      && d["user_id"] == Str(Hex(env.newId))
      && d["email"] == OptStr(p.email) && d["phone"] == OptStr(p.phone)
      && d["first_name"] == OptStr(p.firstName) && d["last_name"] == OptStr(p.lastName)
  {
    var fields := UserFields(p, digest, pair);
    assert fields["email"] == OptStr(p.email) && fields["phone"] == OptStr(p.phone);
    assert fields["first_name"] == OptStr(p.firstName) && fields["last_name"] == OptStr(p.lastName);
    assert !Reserved("first_name", "user_id") && !Reserved("last_name", "user_id");
    assert !Reserved("email", "user_id") && !Reserved("phone", "user_id");
  }

  /** The stored secrets of a new user: the digest, never the password, and the tokens. */
  lemma CreatedUserSecrets(p: UserPayload, digest: string, pair: TokenPair, env: Env)
    ensures var d := Created(UserFields(p, digest, pair), "user_id", env);
      && d["password"] == Str(digest)
      && d["token"] == Str(pair.token) && d["refresh_token"] == Str(pair.refreshToken)
  {
    assert !Reserved("password", "user_id") && !Reserved("token", "user_id") && !Reserved("refresh_token", "user_id");
  }

  /** The signed-up user: the digest and never the password is stored, and the access
      token is signed over the new user's identity. */
  lemma SignedUpUser(s: Store, p: UserPayload, validate: UserPayload -> seq<FieldError>, env: Env,
                     hash: string -> string, sign: Claims -> string)
    requires SignUp(s, p, validate, env, hash, sign).Ok?
    ensures var a := SignUp(s, p, validate, env, hash, sign).value;
      && a.user["password"] == Str(hash(p.password.value))
      && a.user["user_id"] == Str(Hex(env.newId))
      && a.user["email"] == Str(p.email.value)
      && a.user["first_name"] == Str(p.firstName.value) && a.user["last_name"] == Str(p.lastName.value)
      && a.user["token"] == Str(sign(AccessClaims(p.email.value, p.firstName.value, p.lastName.value, Hex(env.newId), env.now)))
      && a.user["refresh_token"] == Str(sign(RefreshClaims(env.now)))
  {
    var a := SignUp(s, p, validate, env, hash, sign).value;
    var pair := GenerateAllTokens(p.email.value, p.firstName.value, p.lastName.value, Hex(env.newId), env.now, sign);
    assert a.user == Created(UserFields(p, hash(p.password.value), pair), "user_id", env);
    CreatedUserIdentity(p, hash(p.password.value), pair, env);
    CreatedUserSecrets(p, hash(p.password.value), pair, env);
  }

  /** The signed-up user is what a lookup by its email returns. */
  lemma SignedUpUserIsFound(s: Store, p: UserPayload, validate: UserPayload -> seq<FieldError>, env: Env,
                            hash: string -> string, sign: Claims -> string)
    requires SignUp(s, p, validate, env, hash, sign).Ok?
    ensures var a := SignUp(s, p, validate, env, hash, sign).value;
      FindOne(a.store.users, "email", Str(p.email.value)) == Some(a.user)
  {
    var a := SignUp(s, p, validate, env, hash, sign).value;
    var pair := GenerateAllTokens(p.email.value, p.firstName.value, p.lastName.value, Hex(env.newId), env.now, sign);
    assert a.user == Created(UserFields(p, hash(p.password.value), pair), "user_id", env);
    CreatedUserIdentity(p, hash(p.password.value), pair, env);
    AppendedIsFound(s.users, a.user, "email", Str(p.email.value));
  }

  /** No two users share a stored (string) value of `field`. */
  ghost predicate Unique(users: Collection, field: string)
  {
    forall i, j :: 0 <= i < |users| && 0 <= j < |users| && Get(users[i], field).Str? && Get(users[i], field) == Get(users[j], field) ==> i == j
  }

  /** Sign-up succeeds on a valid payload with a new email and a new phone number, and
      keeps emails and phone numbers unique. */
  lemma SignUpKeepsUnique(s: Store, p: UserPayload, validate: UserPayload -> seq<FieldError>, env: Env,
                          hash: string -> string, sign: Claims -> string, field: string)
    requires field == "email" || field == "phone"
    requires Unique(s.users, field)
    requires validate(p) == [] && p.password.Some? && p.email.Some? && p.firstName.Some? && p.lastName.Some?
    requires !Exists(s.users, "email", OptStr(p.email)) && !Exists(s.users, "phone", OptStr(p.phone))
    ensures SignUp(s, p, validate, env, hash, sign).Ok?
    ensures Unique(SignUp(s, p, validate, env, hash, sign).value.store.users, field)
  {
    var a := SignUp(s, p, validate, env, hash, sign).value;
    var users := a.store.users;
    var n := |s.users|;
    var pair := GenerateAllTokens(p.email.value, p.firstName.value, p.lastName.value, Hex(env.newId), env.now, sign);
    assert a.user == Created(UserFields(p, hash(p.password.value), pair), "user_id", env);
    CreatedUserIdentity(p, hash(p.password.value), pair, env);
    assert Get(a.user, field) == OptStr(if field == "email" then p.email else p.phone);
    forall i, j | 0 <= i < |users| && 0 <= j < |users| && Get(users[i], field).Str? && Get(users[i], field) == Get(users[j], field)
      ensures i == j
    {
      if i == n && j < n {
        assert Matches(s.users[j], field, Get(a.user, field));
      } else if j == n && i < n {
        assert Matches(s.users[i], field, Get(a.user, field));
      }
    }
  }

  /** The stored `user_id` as the login reads it: "" when it is absent. */
  function StoredId(found: Doc): string
  {
    if Get(found, "user_id").Str? then Get(found, "user_id").s else ""
  }

  function AsStr(v: Value): Option<string>
  {
    if v.Str? then Some(v.s) else None
  }

  /** `Login`: the first user with the offered email, its password checked, then new tokens
      are stored (keyed by the stored `user_id`, "" when absent) and returned on the found
      user. */
  function Login(s: Store, p: UserPayload, env: Env, matches: (string, string) -> bool, sign: Claims -> string): (r: Result<Account>)
    ensures !Exists(s.users, "email", OptStr(p.email)) ==> r == Err(Reject(Unauthorized, Text(LoginFailed)))
    ensures r.Ok? ==>
      && FindOne(s.users, "email", OptStr(p.email)).Some?
      && var found := FindOne(s.users, "email", OptStr(p.email)).value;
      && Get(found, "password").Str? && p.password.Some?
      && matches(Get(found, "password").s, p.password.value)
  {
    match FindOne(s.users, "email", OptStr(p.email))
    case None => Err(Reject(Unauthorized, Text(LoginFailed)))
    case Some(found) => LoginAs(s, found, p, env, matches, sign)
  }

  /** Login once `found` is the user with the offered email. A missing offered or stored
      password, or a missing stored email or name, is dereferenced and panics. On success
      only the users change, the reply is `found` with the new tokens, and the tokens are
      signed over the stored identity. */
  function LoginAs(s: Store, found: Doc, p: UserPayload, env: Env, matches: (string, string) -> bool, sign: Claims -> string): (r: Result<Account>)
    ensures r.Ok? <==>
      && p.password.Some? && Get(found, "password").Str?
      && matches(Get(found, "password").s, p.password.value)
      && Get(found, "email").Str? && Get(found, "first_name").Str? && Get(found, "last_name").Str?
    ensures r.Ok? ==>
      && r.value.store == s.(users := r.value.store.users)
      && r.value.user.Keys == found.Keys + {"token", "refresh_token"}
      && (forall k :: k in found && k != "token" && k != "refresh_token" ==> r.value.user[k] == found[k])
      && var pair := GenerateAllTokens(Get(found, "email").s, Get(found, "first_name").s, Get(found, "last_name").s,
                                       StoredId(found), env.now, sign);
      && r.value.user["token"] == Str(pair.token) && r.value.user["refresh_token"] == Str(pair.refreshToken)
      && Upserted(s.users, r.value.store.users, "user_id", StoredId(found), TokenChanges(pair, env.now), env.upsertedId)
  {
    if p.password.None? || AsStr(Get(found, "password")).None? then Err(Panic)
    else
      var (ok, msg) := VerifyPassword(p.password.value, AsStr(Get(found, "password")).value, matches);
      if !ok then Err(Reject(Unauthorized, Text(msg)))
      else
        var email := AsStr(Get(found, "email"));
        var first := AsStr(Get(found, "first_name"));
        var last := AsStr(Get(found, "last_name"));
        if email.None? || first.None? || last.None? then Err(Panic)
        else
          var uid := StoredId(found);
          var pair := GenerateAllTokens(email.value, first.value, last.value, uid, env.now, sign);
          var reply := found["token" := Str(pair.token)]["refresh_token" := Str(pair.refreshToken)];
          Ok(Account(s.(users := UpdateAllTokens(s.users, pair, uid, env)), reply))
  }

  /** An unknown email and a wrong password get the same reply, so the response does not
      reveal which emails are registered. */
  lemma LoginFailuresIndistinguishable(s: Store, p: UserPayload, q: UserPayload, env: Env, matches: (string, string) -> bool, sign: Claims -> string)
    requires !Exists(s.users, "email", OptStr(p.email))
    requires Exists(s.users, "email", OptStr(q.email)) && q.password.Some?
    requires var found := FindOne(s.users, "email", OptStr(q.email)).value;
      Get(found, "password").Str? && !matches(Get(found, "password").s, q.password.value)
    ensures Login(s, p, env, matches, sign) == Login(s, q, env, matches, sign) == Err(Reject(Unauthorized, Text(LoginFailed)))
  {
  }

  /** Login succeeds on a found user whose digest accepts the password, and the reply is
      that user with tokens signed over its stored identity. */
  lemma LoginOfFound(s: Store, p: UserPayload, env: Env, matches: (string, string) -> bool, sign: Claims -> string, found: Doc)
    requires FindOne(s.users, "email", OptStr(p.email)) == Some(found)
    requires p.password.Some? && Get(found, "password").Str? && matches(Get(found, "password").s, p.password.value)
    requires Get(found, "email").Str? && Get(found, "first_name").Str? && Get(found, "last_name").Str?
    ensures var l := Login(s, p, env, matches, sign);
      && l.Ok?
      && l.value.user["token"] == Str(sign(AccessClaims(Get(found, "email").s, Get(found, "first_name").s, Get(found, "last_name").s, StoredId(found), env.now)))
      && (forall k :: k in found && k != "token" && k != "refresh_token" ==> l.value.user[k] == found[k])
  {
  }

  /** A user who just signed up can log in with the same email and password, provided the
      hash comparison accepts the password against its own digest; the reply carries the
      new user's id and fresh tokens over the same identity. */
  lemma SignUpThenLogin(s: Store, p: UserPayload, validate: UserPayload -> seq<FieldError>, env: Env, env': Env,
                        hash: string -> string, matches: (string, string) -> bool, sign: Claims -> string)
    requires SignUp(s, p, validate, env, hash, sign).Ok?
    requires matches(hash(p.password.value), p.password.value)
    ensures var a := SignUp(s, p, validate, env, hash, sign).value;
      var l := Login(a.store, p, env', matches, sign);
      && l.Ok?
      && l.value.user["user_id"] == Str(Hex(env.newId))
      && l.value.user["token"] == Str(sign(AccessClaims(p.email.value, p.firstName.value, p.lastName.value, Hex(env.newId), env'.now)))
  {
    var a := SignUp(s, p, validate, env, hash, sign).value;
    SignedUpUser(s, p, validate, env, hash, sign);
    SignedUpUserIsFound(s, p, validate, env, hash, sign);
    assert OptStr(p.email) == Str(p.email.value);
    LoginOfFound(a.store, p, env', matches, sign, a.user);
  }
}
