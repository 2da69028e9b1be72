/** POST /api/auth/login: check an email and password against the stored
    users and answer with a session. The handler only reads. */
module LoginRoute {
  import opened Js
  import opened AuthLib
  import opened Documents
  import opened Http

  datatype Credentials =
    | Proceed(email: Json, password: Json)
    | Reject(response: Response)

  /** The guards before the database: reading the body (a throw is 500), then
      `!email || !password` (400). */
  function CheckCredentials(body: RequestBody): (c: Credentials)
    ensures body.Unparsable? || !Destructurable(body.value) ==> c == Reject(InternalError)
    ensures c.Proceed? <==>
      body.Parsed? && Destructurable(body.value) &&
      Truthy(Prop(body.value, "email")) && Truthy(Prop(body.value, "password"))
    ensures c.Proceed? ==> c == Proceed(Prop(body.value, "email"), Prop(body.value, "password"))
    ensures c.Reject? ==> c.response == InternalError || c.response == Error(400, "Email and password are required")
    ensures
      (&& body.Parsed? && Destructurable(body.value)
       && !(Truthy(Prop(body.value, "email")) && Truthy(Prop(body.value, "password"))))
      ==> c == Reject(Error(400, "Email and password are required"))
  {
    if body.Unparsable? || !Destructurable(body.value) then Reject(InternalError)
    else
      var email, password := Prop(body.value, "email"), Prop(body.value, "password");
      if !Truthy(email) || !Truthy(password) then Reject(Error(400, "Email and password are required"))
      else Proceed(email, password)
  }

  /** The single answer for an unknown email and for a wrong password. */
  const InvalidCredentials: Response := Error(401, "Invalid credentials")

  /** The handler. It sends at most one request, a lookup by email, so it
      never writes; a refused body is answered before any lookup; an unknown
      email or a wrong password is 401; a matching password is 200 with the
      found user's id and a token signed for that id, or 500 when signing
      throws. */
  function Login(lib: Helpers, body: RequestBody, users: seq<UserDoc>, dbUp: bool): (h: Handled)
    ensures CheckCredentials(body).Reject? ==> h == Handled(CheckCredentials(body).response, [])
    ensures h.queries == [] || (CheckCredentials(body).Proceed? && h.queries == [FindUser(CheckCredentials(body).email)])
    ensures h.response.status in {200, 400, 401, 500}
    ensures h.response.status == 401 ==> h.response == InvalidCredentials
    ensures h.response.status == 500 ==> h.response == InternalError
    ensures CheckCredentials(body).Proceed? && !dbUp ==> h == Handled(InternalError, [])
    ensures CheckCredentials(body).Proceed? && dbUp ==>
      var c := CheckCredentials(body);
      var user := FindByEmail(users, c.email);
      && h.queries == [FindUser(c.email)]
      && ((user.None? || !lib.comparePasswords(c.password, user.value.password)) ==> h.response == InvalidCredentials)
      && (user.Some? && lib.comparePasswords(c.password, user.value.password) ==>
            h.response.status == (if lib.generateToken(IdString(user.value.id)).Some? then 200 else 500))
    ensures h.response.status == 200 ==>
      && CheckCredentials(body).Proceed?
      && var user := FindByEmail(users, CheckCredentials(body).email);
      && user.Some?
      && lib.comparePasswords(CheckCredentials(body).password, user.value.password)
      && lib.generateToken(IdString(user.value.id)).Some?
      && h.response.payload ==
         SignedIn(UserView(IdString(user.value.id), user.value.email, user.value.name),
                 lib.generateToken(IdString(user.value.id)).value)
  {
    match CheckCredentials(body)
    case Reject(response) => Handled(response, [])
    case Proceed(email, password) =>
      if !dbUp then Handled(InternalError, [])
      else
        var queries := [FindUser(email)];
        match FindByEmail(users, email)
        case None => Handled(InvalidCredentials, queries)
        case Some(user) =>
          if !lib.comparePasswords(password, user.password) then Handled(InvalidCredentials, queries)
          else
            match lib.generateToken(IdString(user.id))
            case None => Handled(InternalError, queries)
            case Some(token) => Handled(Response(200, SignedIn(UserView(IdString(user.id), user.email, user.name), token)), queries)
  }

  /** An unknown email and a known email with the wrong password get the
      same status, the same body and the same single lookup. (Only the
      second awaits `comparePasswords`, so they may differ in timing.) */
  lemma UnknownEmailLooksLikeWrongPassword(
    lib: Helpers, body: RequestBody, unknown: seq<UserDoc>, known: seq<UserDoc>)
    requires CheckCredentials(body).Proceed?
    requires FindByEmail(unknown, CheckCredentials(body).email).None?
    requires FindByEmail(known, CheckCredentials(body).email).Some?
    requires !lib.comparePasswords(CheckCredentials(body).password, FindByEmail(known, CheckCredentials(body).email).value.password)
    ensures Login(lib, body, unknown, true) == Login(lib, body, known, true)
    ensures Login(lib, body, unknown, true).response == InvalidCredentials
  {
  }

  /** Registering and then logging in with the same credentials succeeds and
      both sessions name the stored user's id and a token signed for it,
      provided the email was free, the hashing helpers keep their contract
      and the token can be signed. */
  lemma {:induction false} RegisteredUserCanLogIn(
    lib: Helpers, users: seq<UserDoc>, user: UserDoc, body: RequestBody, password: Json)
    requires CheckCredentials(body) == Proceed(user.email, password)
    requires FindByEmail(users, user.email).None?
    requires user.password == lib.hashPassword(password) && HashRoundTrips(lib, password)
    requires lib.generateToken(IdString(user.id)).Some?
    ensures Login(lib, body, users + [user], true).response ==
      Response(200, SignedIn(UserView(IdString(user.id), user.email, user.name), lib.generateToken(IdString(user.id)).value))
  {
    FindByEmailAfterAppend(users, user, user.email);
  }
}
