/** POST /api/auth/register: create a user with a unique email and answer
    with a session for it. */
module RegisterRoute {
  import opened Js
  import opened AuthLib
  import opened Documents
  import opened Http

  datatype Registration =
    | Proceed(email: Json, password: Json, name: Json)
    | Reject(response: Response)

  /** The guards before the database: reading the body (a throw is 500), then
      `!email || !password || !name` (400). */
  function CheckRegistration(body: RequestBody): (c: Registration)
    ensures body.Unparsable? || !Destructurable(body.value) ==> c == Reject(InternalError)
    ensures c.Proceed? <==>
      && body.Parsed? && Destructurable(body.value)
      && Truthy(Prop(body.value, "email")) && Truthy(Prop(body.value, "password")) && Truthy(Prop(body.value, "name"))
    ensures c.Proceed? ==>
      c == Proceed(Prop(body.value, "email"), Prop(body.value, "password"), Prop(body.value, "name"))
    ensures c.Reject? ==> c.response == InternalError || c.response == Error(400, "Missing required fields")
    ensures
      (&& body.Parsed? && Destructurable(body.value)
       && !(Truthy(Prop(body.value, "email")) && Truthy(Prop(body.value, "password")) && Truthy(Prop(body.value, "name"))))
      ==> c == Reject(Error(400, "Missing required fields"))
  {
    if body.Unparsable? || !Destructurable(body.value) then Reject(InternalError)
    else
      var email, password, name := Prop(body.value, "email"), Prop(body.value, "password"), Prop(body.value, "name");
      if !Truthy(email) || !Truthy(password) || !Truthy(name) then Reject(Error(400, "Missing required fields"))
      else Proceed(email, password, name)
  }

  /** The answer once `user` has been stored: 201 with the user's public
      fields and a token for its id, or 500 when signing the token throws
      (the user then stays stored). */
  function Registered(lib: Helpers, user: UserDoc): (r: Response)
    ensures r.status == 201 || r == InternalError
    ensures r.status == 201 <==> lib.generateToken(IdString(user.id)).Some?
    ensures r.status == 201 ==>
      r.payload == SignedIn(UserView(IdString(user.id), user.email, user.name), lib.generateToken(IdString(user.id)).value)
  {
    match lib.generateToken(IdString(user.id))
    case None => InternalError
    case Some(token) => Response(201, SignedIn(UserView(IdString(user.id), user.email, user.name), token))
  }

  /** The handler. A 400 or a throw while reading the body sends nothing to
      the database; a taken email is 409 after one lookup and writes nothing;
      otherwise exactly one user is stored, holding `hashPassword` of the
      password in place of the password, and uniqueness of emails is kept. */
  method Register(users: UsersCollection, lib: Helpers, body: RequestBody, dbUp: bool) returns (response: Response)
    requires users.Valid()
    modifies users
    ensures users.Valid()
    ensures EmailsUnique(old(users.docs)) ==> EmailsUnique(users.docs)
    ensures CheckRegistration(body).Reject? ==>
      response == CheckRegistration(body).response && unchanged(users)
    ensures CheckRegistration(body).Proceed? && !dbUp ==>
      response == InternalError && unchanged(users)
    ensures CheckRegistration(body).Proceed? && dbUp && FindByEmail(old(users.docs), CheckRegistration(body).email).Some? ==>
      && response == Error(409, "User already exists")
      && users.docs == old(users.docs) && users.nextId == old(users.nextId)
      && users.ops == old(users.ops) + [FindUser(CheckRegistration(body).email)]
    ensures CheckRegistration(body).Proceed? && dbUp && FindByEmail(old(users.docs), CheckRegistration(body).email).None? ==>
      var c := CheckRegistration(body);
      var user := UserDoc(old(users.nextId), c.email, lib.hashPassword(c.password), c.name);
      && (forall i :: 0 <= i < |old(users.docs)| ==> old(users.docs)[i].id != user.id)
      && users.docs == old(users.docs) + [user]
      && users.ops == old(users.ops) + [FindUser(c.email), InsertUser(user)]
      && response == Registered(lib, user)
  {
    var check := CheckRegistration(body);
    if check.Reject? {
      return check.response;
    }
    if !dbUp {
      return InternalError;
    }
    var existing := users.FindOne(check.email);
    if existing.Some? {
      return Error(409, "User already exists");
    }
    var hashed := lib.hashPassword(check.password);
    ghost var before := users.docs;
    var id := users.InsertOne(check.email, hashed, check.name);
    AppendKeepsEmailsUnique(before, UserDoc(id, check.email, hashed, check.name));
    response := Registered(lib, UserDoc(id, check.email, hashed, check.name));
  }

  /** Storing a user whose email no stored user has keeps emails unique. */
  lemma AppendKeepsEmailsUnique(users: seq<UserDoc>, user: UserDoc)
    requires FindByEmail(users, user.email).None?
    ensures EmailsUnique(users) ==> EmailsUnique(users + [user])
  {
  }

  /** Once a user is stored, registering the same email again finds it and
      is refused with 409; no second user with that email is created. */
  lemma {:induction false} SecondRegistrationConflicts(users: seq<UserDoc>, user: UserDoc)
    ensures FindByEmail(users + [user], user.email).Some?
  {
    FindByEmailAfterAppend(users, user, user.email);
  }
}
