/** The two client stores of lib/store.ts. Each action runs in two steps: a
    synchronous `set` before the request, and a `set` when the reply
    arrives. The reply is a parameter, so each action is one method call;
    the state between the two steps is returned as the ghost `pending`. */
module Store {
  import opened Js
  import opened ProductList

  datatype User = User(id: string, email: string, name: string)

  /** The body of a successful login or registration: `data.user`, `data.token`. */
  datatype Session = Session(user: User, token: string)

  /** What a request ends in, from the store's side: an ok response with its
      body, a non-ok response whose body may carry an `error` message, or a
      thrown error (the network, or a body that is not JSON). */
  datatype Reply<+T> = Ok(payload: T) | Fail(error: Option<string>) | Throw(message: string)

  /** How the action's promise settles: resolved, or rejected (the caught
      error rethrown) with the error's message. */
  datatype Settled = Resolved | Rejected(message: string)

  /** The message an action that reads the error body stores and rethrows:
      `data.error || fallback` for a non-ok response, the thrown error's own
      message otherwise (even when empty). */
  function ErrorFromBody<T>(reply: Reply<T>, fallback: string): (m: string)
    requires !reply.Ok?
    ensures reply.Throw? ==> m == reply.message
    ensures reply.Fail? ==> m == fallback || (reply.error == Some(m) && m != "")
    ensures reply.Fail? && reply.error.Some? && reply.error.value != "" ==> m == reply.error.value
  {
    match reply
    case Fail(error) => if error.Some? && error.value != "" then error.value else fallback
    case Throw(message) => message
  }

  /** The message an action with a fixed message stores: the fixed text for
      any non-ok response, whatever its body, the thrown error's otherwise. */
  function FixedError<T>(reply: Reply<T>, fixed: string): (m: string)
    requires !reply.Ok?
    ensures reply.Fail? ==> m == fixed
    ensures reply.Throw? ==> m == reply.message
  {
    if reply.Fail? then fixed else reply.message
  }

  // ----- the auth store -----

  datatype AuthState = AuthState(user: Option<User>, token: Option<string>, isLoading: bool, error: Option<string>)

  const InitialAuth: AuthState := AuthState(None, None, false, None)

  /** What the `persist` middleware writes, as chosen by `partialize`. */
  datatype PersistedAuth = PersistedAuth(user: Option<User>, token: Option<string>)

  /** Only the session is saved; merging it back into the state it came
      from gives that state again. */
  function Partialize(s: AuthState): (p: PersistedAuth)
    ensures s.(user := p.user, token := p.token) == s
  {
    PersistedAuth(s.user, s.token)
  }

  /** Loading a saved state back: the saved fields over the current state,
      which is how `persist` merges by default. The result saves exactly what
      was loaded and keeps the current loading flag and error. */
  function Rehydrate(current: AuthState, saved: PersistedAuth): (r: AuthState)
    ensures Partialize(r) == saved
    ensures r.isLoading == current.isLoading && r.error == current.error
  {
    current.(user := saved.user, token := saved.token)
  }

  /** Two states are saved alike exactly when their user and token agree:
      the loading flag and the error never reach storage. */
  lemma PersistedExactlyUserAndToken(a: AuthState, b: AuthState)
    ensures Partialize(a) == Partialize(b) <==> a.user == b.user && a.token == b.token
  {
  }

  /** Reloading restores the session and nothing else: a fresh store that
      loads a saved state has that state's user and token, is not loading and
      shows no error, and saving it again writes the same thing. */
  lemma RehydrateRestoresSession(s: AuthState)
    ensures Rehydrate(InitialAuth, Partialize(s)) == AuthState(s.user, s.token, false, None)
    ensures Partialize(Rehydrate(InitialAuth, Partialize(s))) == Partialize(s)
  {
  }

  /** A request the auth store sends. */
  datatype AuthRequest =
    | LoginRequest(email: string, password: string)
    | RegisterRequest(email: string, password: string, name: string)

  class AuthStore {
    var user: Option<User>
    var token: Option<string>
    var isLoading: bool
    var error: Option<string>
    /** Every request sent, oldest first. */
    ghost var requests: seq<AuthRequest>

    function State(): AuthState
      reads this
    {
      AuthState(user, token, isLoading, error)
    }

    constructor ()
      ensures State() == InitialAuth && requests == []
    {
      user, token, isLoading, error := None, None, false, None;
      requests := [];
    }

    /** The body shared by `login` and `register`: send the request, then
        take the session from an ok reply or store and rethrow the error. */
    method SignIn(request: AuthRequest, reply: Reply<Session>, fallback: string)
      returns (settled: Settled, ghost pending: AuthState)
      modifies this
      ensures pending == old(State()).(isLoading := true, error := None)
      ensures requests == old(requests) + [request]
      ensures reply.Ok? ==>
        State() == AuthState(Some(reply.payload.user), Some(reply.payload.token), false, None) && settled == Resolved
      ensures !reply.Ok? ==>
        && State() == AuthState(old(user), old(token), false, Some(ErrorFromBody(reply, fallback)))
        && settled == Rejected(ErrorFromBody(reply, fallback))
    {
      isLoading, error := true, None;
      pending := State();
      requests := requests + [request];
      match reply
      case Ok(session) =>
        user, token, isLoading := Some(session.user), Some(session.token), false;
        settled := Resolved;
      case _ =>
        var message := ErrorFromBody(reply, fallback);
        error, isLoading := Some(message), false;
        settled := Rejected(message);
    }

    /** Sign in: on success the session comes from the reply; on failure the
        session is kept, the error is stored and rethrown. */
    method Login(email: string, password: string, reply: Reply<Session>)
      returns (settled: Settled, ghost pending: AuthState)
      modifies this
      ensures pending == old(State()).(isLoading := true, error := None)
      ensures requests == old(requests) + [LoginRequest(email, password)]
      ensures reply.Ok? ==>
        State() == AuthState(Some(reply.payload.user), Some(reply.payload.token), false, None) && settled == Resolved
      ensures !reply.Ok? ==>
        && State() == AuthState(old(user), old(token), false, Some(ErrorFromBody(reply, "Login failed")))
        && settled == Rejected(ErrorFromBody(reply, "Login failed"))
    {
      settled, pending := SignIn(LoginRequest(email, password), reply, "Login failed");
    }

    /** Create an account, with the same shape as `Login`. */
    method Register(email: string, password: string, name: string, reply: Reply<Session>)
      returns (settled: Settled, ghost pending: AuthState)
      modifies this
      ensures pending == old(State()).(isLoading := true, error := None)
      ensures requests == old(requests) + [RegisterRequest(email, password, name)]
      ensures reply.Ok? ==>
        State() == AuthState(Some(reply.payload.user), Some(reply.payload.token), false, None) && settled == Resolved
      ensures !reply.Ok? ==>
        && State() == AuthState(old(user), old(token), false, Some(ErrorFromBody(reply, "Registration failed")))
        && settled == Rejected(ErrorFromBody(reply, "Registration failed"))
    {
      settled, pending := SignIn(RegisterRequest(email, password, name), reply, "Registration failed");
    }

    /** Clears the session and the error; the loading flag stays as it was. */
    method Logout()
      modifies this
      ensures State() == old(State()).(user := None, token := None, error := None)
      ensures requests == old(requests)
    {
      user, token, error := None, None, None;
    }

    method SetUser(u: Option<User>)
      modifies this
      ensures State() == old(State()).(user := u)
      ensures requests == old(requests)
    {
      user := u;
    }

    method SetToken(t: Option<string>)
      modifies this
      ensures State() == old(State()).(token := t)
      ensures requests == old(requests)
    {
      token := t;
    }

    method ClearError()
      modifies this
      ensures State() == old(State()).(error := None)
      ensures requests == old(requests)
    {
      error := None;
    }
  }

  // ----- the product store -----

  datatype ProductState = ProductState(products: seq<Product>, isLoading: bool, error: Option<string>)

  /** The fields a form submits. */
  datatype ProductInput = ProductInput(name: string, description: string, price: real)

  /** A request the product store sends, each with its bearer token. */
  datatype ProductRequest =
    | ListRequest(token: string)
    | CreateRequest(product: ProductInput, token: string)
    | UpdateRequest(id: string, product: ProductInput, token: string)
    | DeleteRequest(id: string, token: string)

  class ProductStore {
    var products: seq<Product>
    var isLoading: bool
    var error: Option<string>
    /** Every request sent, oldest first. */
    ghost var requests: seq<ProductRequest>

    function State(): ProductState
      reads this
    {
      ProductState(products, isLoading, error)
    }

    constructor ()
      ensures State() == ProductState([], false, None) && requests == []
    {
      products, isLoading, error := [], false, None;
      requests := [];
    }

    /** Replace the list with the server's. A failure keeps the list, stores
        a message and is not rethrown. */
    method FetchProducts(token: string, reply: Reply<seq<Product>>) returns (ghost pending: ProductState)
      modifies this
      ensures pending == old(State()).(isLoading := true, error := None)
      ensures requests == old(requests) + [ListRequest(token)]
      ensures reply.Ok? ==> State() == ProductState(reply.payload, false, None)
      ensures !reply.Ok? ==>
        State() == ProductState(old(products), false, Some(FixedError(reply, "Failed to fetch products")))
    {
      isLoading, error := true, None;
      pending := State();
      requests := requests + [ListRequest(token)];
      match reply
      case Ok(data) =>
        products, isLoading := data, false;
      case _ =>
        error, isLoading := Some(FixedError(reply, "Failed to fetch products")), false;
    }

    /** Append the created product at the end; earlier products keep their
        places. A failure keeps the list and is rethrown. */
    method CreateProduct(product: ProductInput, token: string, reply: Reply<Product>)
      returns (settled: Settled, ghost pending: ProductState)
      modifies this
      ensures pending == old(State()).(isLoading := true, error := None)
      ensures requests == old(requests) + [CreateRequest(product, token)]
      ensures reply.Ok? ==>
        && State() == ProductState(old(products) + [reply.payload], false, None)
        && |products| == |old(products)| + 1 && products[..|old(products)|] == old(products)
        && settled == Resolved
      ensures !reply.Ok? ==>
        && State() == ProductState(old(products), false, Some(ErrorFromBody(reply, "Failed to create product")))
        && settled == Rejected(ErrorFromBody(reply, "Failed to create product"))
    {
      isLoading, error := true, None;
      pending := State();
      requests := requests + [CreateRequest(product, token)];
      match reply
      case Ok(created) =>
        products, isLoading := products + [created], false;
        settled := Resolved;
      case _ =>
        var message := ErrorFromBody(reply, "Failed to create product");
        error, isLoading := Some(message), false;
        settled := Rejected(message);
    }

    /** Replace every product with the id by the server's product. A failure
        keeps the list and is rethrown. */
    method UpdateProduct(id: string, product: ProductInput, token: string, reply: Reply<Product>)
      returns (settled: Settled, ghost pending: ProductState)
      modifies this
      ensures pending == old(State()).(isLoading := true, error := None)
      ensures requests == old(requests) + [UpdateRequest(id, product, token)]
      ensures reply.Ok? ==>
        State() == ProductState(Replaced(old(products), id, reply.payload), false, None) && settled == Resolved
      ensures !reply.Ok? ==>
        && State() == ProductState(old(products), false, Some(ErrorFromBody(reply, "Failed to update product")))
        && settled == Rejected(ErrorFromBody(reply, "Failed to update product"))
    {
      isLoading, error := true, None;
      pending := State();
      requests := requests + [UpdateRequest(id, product, token)];
      match reply
      case Ok(updated) =>
        products, isLoading := Replaced(products, id, updated), false;
        settled := Resolved;
      case _ =>
        var message := ErrorFromBody(reply, "Failed to update product");
        error, isLoading := Some(message), false;
        settled := Rejected(message);
    }

    /** Drop every product with the id. A failure keeps the list, stores the
        fixed message whatever the server said, and is rethrown. */
    method DeleteProduct(id: string, token: string, reply: Reply<()>)
      returns (settled: Settled, ghost pending: ProductState)
      modifies this
      ensures pending == old(State()).(isLoading := true, error := None)
      ensures requests == old(requests) + [DeleteRequest(id, token)]
      ensures reply.Ok? ==>
        && State() == ProductState(Removed(old(products), id), false, None)
        && (forall i :: 0 <= i < |products| ==> !HasId(products[i], id))
        && settled == Resolved
      ensures !reply.Ok? ==>
        && State() == ProductState(old(products), false, Some(FixedError(reply, "Failed to delete product")))
        && settled == Rejected(FixedError(reply, "Failed to delete product"))
    {
      isLoading, error := true, None;
      pending := State();
      requests := requests + [DeleteRequest(id, token)];
      match reply
      case Ok(_) =>
        products, isLoading := Removed(products, id), false;
        settled := Resolved;
      case _ =>
        var message := FixedError(reply, "Failed to delete product");
        error, isLoading := Some(message), false;
        settled := Rejected(message);
    }

    method ClearError()
      modifies this
      ensures State() == old(State()).(error := None)
      ensures requests == old(requests)
    {
      error := None;
    }
  }
}
