/** The `/api/products` handlers: GET lists the caller's products, POST
    creates one. Both open with the same bearer-token guard. */
module ProductsRoute {
  import opened Js
  import opened AuthLib
  import opened Documents
  import opened Http

  datatype Authentication = Authenticated(userId: string) | Denied(response: Response)

  /** `extractToken` found a token (`!token` is false). */
  function HasToken(lib: Helpers, authorization: Option<string>): (b: bool)
    ensures lib.extractToken(authorization).None? ==> !b
    ensures b <==> lib.extractToken(authorization).Some? && Truthy(Str(lib.extractToken(authorization).value))
  {
    lib.extractToken(authorization).Some? && lib.extractToken(authorization).value != ""
  }

  /** The guard both handlers open with: no token is 401 "Unauthorized", a
      token that does not verify is 401 "Invalid token", and otherwise the
      caller is the user the token was issued for. */
  function Authenticate(lib: Helpers, authorization: Option<string>): (a: Authentication)
    ensures !HasToken(lib, authorization) ==> a == Denied(Error(401, "Unauthorized"))
    ensures HasToken(lib, authorization) ==>
      var claims := lib.verifyToken(lib.extractToken(authorization).value);
      a == if claims.None? then Denied(Error(401, "Invalid token")) else Authenticated(claims.value.userId)
  {
    var token := lib.extractToken(authorization);
    if token.None? || token.value == "" then Denied(Error(401, "Unauthorized"))
    else
      match lib.verifyToken(token.value)
      case None => Denied(Error(401, "Invalid token"))
      case Some(decoded) => Authenticated(decoded.userId)
  }

  /** GET /api/products. A refused caller gets 401 before the database is
      touched; an authenticated one gets 200 when the database is reachable,
      listing by a single owner-scoped query exactly the products whose owner
      is the token's user (`OwnedBy`: storage order, each as often as it is
      stored), and 500 otherwise. */
  function Get(lib: Helpers, authorization: Option<string>, products: seq<ProductDoc>, dbUp: bool): (h: Handled)
    ensures Authenticate(lib, authorization).Denied? ==>
      h == Handled(Authenticate(lib, authorization).response, [])
    ensures h.response.status == 401 <==> Authenticate(lib, authorization).Denied?
    ensures h.response.status in {200, 401, 500}
    ensures Authenticate(lib, authorization).Authenticated? ==> (h.response.status == 200 <==> dbUp)
    ensures h.response.status == 500 ==> h.response == InternalError && h.queries == []
    ensures h.response.status == 200 ==>
      var owner := Authenticate(lib, authorization).userId;
      && Authenticate(lib, authorization).Authenticated?
      && h.queries == [FindProducts(owner)]
      && h.response.payload == Listing(OwnedBy(products, owner))
  {
    match Authenticate(lib, authorization)
    case Denied(response) => Handled(response, [])
    case Authenticated(userId) =>
      if !dbUp then Handled(InternalError, [])
      else Handled(Response(200, Listing(OwnedBy(products, userId))), [FindProducts(userId)])
  }

  /** The outcome of POST's guards: the record to insert, or the answer. */
  datatype Creation =
    | Proceed(userId: string, name: Json, description: Json, price: Json)
    | Reject(response: Response)

  /** The guards of POST /api/products, in order: authentication, then
      reading the body (a throw is 500), then `!name || !price` (400). There
      is no check of the price's sign: only its truthiness is tested. */
  function CheckCreate(lib: Helpers, authorization: Option<string>, body: RequestBody): (c: Creation)
    ensures Authenticate(lib, authorization).Denied? ==> c == Reject(Authenticate(lib, authorization).response)
    ensures Authenticate(lib, authorization).Authenticated? && (body.Unparsable? || !Destructurable(body.value)) ==>
      c == Reject(InternalError)
    ensures c.Reject? ==> c.response.status in {400, 401, 500}
    ensures c.Reject? && c.response.status == 400 ==> c.response == Error(400, "Name and price are required")
    ensures
      (&& Authenticate(lib, authorization).Authenticated? && body.Parsed? && Destructurable(body.value)
       && !(Truthy(Prop(body.value, "name")) && Truthy(Prop(body.value, "price"))))
      ==> c == Reject(Error(400, "Name and price are required"))
    ensures c.Proceed? <==>
      && Authenticate(lib, authorization).Authenticated?
      && body.Parsed? && Destructurable(body.value)
      && Truthy(Prop(body.value, "name")) && Truthy(Prop(body.value, "price"))
    ensures c.Proceed? ==>
      c == Proceed(Authenticate(lib, authorization).userId,
                   Prop(body.value, "name"), Prop(body.value, "description"), Prop(body.value, "price"))
  {
    match Authenticate(lib, authorization)
    case Denied(response) => Reject(response)
    case Authenticated(userId) =>
      if body.Unparsable? || !Destructurable(body.value) then Reject(InternalError)
      else
        var name, description, price := Prop(body.value, "name"), Prop(body.value, "description"), Prop(body.value, "price");
        if !Truthy(name) || !Truthy(price) then Reject(Error(400, "Name and price are required"))
        else Proceed(userId, name, description, price)
  }

  /** A numeric price passes the price check exactly when it is not zero:
      a price of 0 is refused and a negative price is accepted. */
  lemma PriceCheckIsTruthiness(lib: Helpers, authorization: Option<string>, members: seq<(string, Json)>, n: real)
    requires Authenticate(lib, authorization).Authenticated?
    requires Truthy(Member(members, "name")) && Member(members, "price") == Num(n)
    ensures CheckCreate(lib, authorization, Parsed(Obj(members))).Proceed? <==> n != 0.0
  {
  }

  /** After POST stores a product, its owner's GET lists it last, and a GET
      by anyone else answers exactly as before. */
  lemma {:induction false} CreatedProductIsListed(
    lib: Helpers, authorization: Option<string>, products: seq<ProductDoc>, doc: ProductDoc)
    requires Authenticate(lib, authorization).Authenticated?
    ensures Authenticate(lib, authorization).userId == doc.userId ==>
      Get(lib, authorization, products + [doc], true) ==
        Handled(Response(200, Listing(OwnedBy(products, doc.userId) + [doc])), [FindProducts(doc.userId)])
    ensures Authenticate(lib, authorization).userId != doc.userId ==>
      Get(lib, authorization, products + [doc], true) == Get(lib, authorization, products, true)
  {
    OwnedByAfterAppend(products, doc, Authenticate(lib, authorization).userId);
  }

  /** POST /api/products. Nothing is written unless every guard passes and
      the database is reachable; then exactly one product is inserted, owned
      by the token's user, and echoed back with its new id as 201. */
  method Post(products: ProductsCollection, lib: Helpers, authorization: Option<string>, body: RequestBody, dbUp: bool)
    returns (response: Response)
    requires products.Valid()
    modifies products
    ensures products.Valid()
    ensures CheckCreate(lib, authorization, body).Reject? ==>
      response == CheckCreate(lib, authorization, body).response && unchanged(products)
    ensures CheckCreate(lib, authorization, body).Proceed? && !dbUp ==>
      response == InternalError && unchanged(products)
    ensures CheckCreate(lib, authorization, body).Proceed? && dbUp ==>
      var c := CheckCreate(lib, authorization, body);
      var doc := ProductDoc(old(products.nextId), c.userId, c.name, c.description, c.price);
      && (forall i :: 0 <= i < |old(products.docs)| ==> old(products.docs)[i].id != doc.id)
      && products.docs == old(products.docs) + [doc]
      && products.ops == old(products.ops) + [InsertProduct(doc)]
      && response == Response(201, CreatedProduct(doc))
  {
    var check := CheckCreate(lib, authorization, body);
    if check.Reject? {
      return check.response;
    }
    if !dbUp {
      return InternalError;
    }
    var doc := products.InsertOne(check.userId, check.name, check.description, check.price);
    response := Response(201, CreatedProduct(doc));
  }
}
