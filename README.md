# productmanager: decision logic in Dafny

A model of the decision logic of a small product-catalog web application.
Users register, sign in, then list and create products that belong to their
own account. Three parts of it are modelled:

- **The client stores** (`lib/store.ts`). The auth store (`user`, `token`,
  `isLoading`, `error`) and the product store (`products`, `isLoading`,
  `error`) are classes. Each action is a method. The server's answer is a
  parameter `Reply<T> = Ok(payload) | Fail(error?) | Throw(message)`. A
  method returns how the action's promise settles, plus, as a ghost, the
  state it sets before awaiting the request. The list updates (`map` replace,
  `filter` remove) are functions in `ProductList`. `partialize` decides what
  is persisted; it is a function with lemmas.
- **The route handlers** `GET`/`POST /api/products`, `POST
  /api/auth/register` and `POST /api/auth/login`. Each is modelled as a
  chain of guards.
  - The guards in front of the database are pure functions
    (`Authenticate`, `CheckCreate`, `CheckRegistration`, `CheckCredentials`).
  - The read-only handlers (`Get`, `Login`) are functions of the stored
    documents. They return the response and the database requests sent.
  - The writing handlers (`Post`, `Register`) are methods on collection
    objects. Each collection keeps its documents, an id counter and a ghost
    log of requests.
  - Request bodies are JSON values with JavaScript truthiness.
  - `lib/auth` (`extractToken`, `verifyToken`, `generateToken`,
    `hashPassword`, `comparePasswords`) is a record of arbitrary functions,
    `AuthLib.Helpers`.
  - A body that does not parse, a body that cannot be destructured, an
    unreachable database (`dbUp == false`) and a token signer that throws
    (`generateToken` returns `None`) all end in 500 "Internal server error".
- **The submit handlers of the sign-in and sign-up forms.** Each is a method
  on a page class. It clears both errors, runs a first-failure-wins check
  function, and calls the store only when the check passes.

Behaviour of the code that the model keeps as written:

- **Price check.** POST `/api/products` tests `!name || !price`. A price of 0
  is refused with 400, and a negative price is accepted
  (`ProductsRoute.PriceCheckIsTruthiness`). The client forms check the
  opposite: they refuse a negative price and accept 0. So a price of 0 typed
  into the create form gets the server's 400.
- **Register after a signer failure.** Register stores the user before it
  signs the token. If signing throws, the answer is 500 but the user stays
  stored, so a retry gets 409 (`RegisterRoute.Register`, `Registered`).
- **Login failures.** An unknown email and a wrong password give the same
  status, the same 401 "Invalid credentials" body and the same lookup
  (`LoginRoute.UnknownEmailLooksLikeWrongPassword`). Their timing differs:
  only the wrong-password path awaits the password comparison.

## Model

| member | source | states |
|---|---|---|
| Js.Truthy | app/api/products/route.ts:66 | JavaScript `!v`: exactly undefined, null, false, 0 and the empty string are falsy |
| Js.Member | app/api/products/route.ts:63-64 | a property read from a parsed body is the last binding of that key, or undefined when the key is absent |
| Js.Field | app/api/products/route.ts:63-64 | destructuring throws exactly on null/undefined; a non-object yields undefined fields, for keys no prototype defines, as are the five the handlers read |
| Documents.FindByEmail | app/api/auth/register/route.ts:21 | `findOne({ email })` is None exactly when no user has the email, otherwise the first user with it in storage order |
| Documents.FindByEmailAfterAppend | app/api/auth/register/route.ts:21-36 | storing a user leaves earlier answers in place and makes it the answer for its email when that email was free |
| Documents.IdString | app/api/auth/register/route.ts:38-43 | `ObjectId.toString()`: a non-empty string of lower-case hexadecimal digits |
| Documents.IdStringInjective | app/api/auth/register/route.ts:38-43 | distinct ids have distinct strings, so the returned id names one stored user |
| Documents.OwnedBy | app/api/products/route.ts:29-31 | `find({ userId })` returns exactly that owner's products, in storage order (a subsequence), each as many times as it is stored |
| Documents.OwnedByAfterAppend | app/api/products/route.ts:76-83 | a stored product is added at the end of its owner's list only; other owners' lists are unchanged |
| Documents.UsersCollection.FindOne | app/api/auth/register/route.ts:21 | the lookup answers FindByEmail and is logged as one read |
| Documents.UsersCollection.InsertOne | app/api/auth/register/route.ts:31-36 | appends exactly one user with a fresh id and logs the write; stored ids stay distinct |
| Documents.ProductsCollection.InsertOne | app/api/products/route.ts:76-83 | appends exactly one product with a fresh id and logs the write; stored ids stay distinct |
| ProductsRoute.HasToken | app/api/products/route.ts:9-11 | `!token` is false iff `extractToken` returned a non-empty string; a missing token never passes |
| ProductsRoute.Authenticate | app/api/products/route.ts:8-24 | no or empty token is 401 "Unauthorized"; a token that fails verification is 401 "Invalid token"; otherwise the caller is the token's userId |
| ProductsRoute.Get | app/api/products/route.ts:6-41 | a 401 sends no database request; an authenticated caller gets 200 iff the database is reachable, else 500; a 200 comes from one owner-scoped query and lists `OwnedBy` the token's user |
| ProductsRoute.CheckCreate | app/api/products/route.ts:45-71 | authentication comes before the body; a body that throws is 500; Proceed iff authenticated and name and price are truthy, else 400 "Name and price are required"; the record carries the token's userId |
| ProductsRoute.PriceCheckIsTruthiness | app/api/products/route.ts:66-71 | a numeric price passes iff it is not 0: 0 is refused, negatives pass |
| ProductsRoute.CreatedProductIsListed | app/api/products/route.ts:29-33 | after a product is stored, its owner's GET lists it last and every other user's GET is unchanged |
| ProductsRoute.Post | app/api/products/route.ts:43-104 | a 401, 400 or 500 leaves the collection and its log untouched; otherwise exactly one product owned by the token's user is inserted and echoed with its id as 201 |
| RegisterRoute.CheckRegistration | app/api/auth/register/route.ts:7-15 | a body that throws is 500; Proceed iff email, password and name are all truthy, else 400 "Missing required fields" |
| RegisterRoute.Registered | app/api/auth/register/route.ts:38-50 | 201 iff the token can be signed, then the user's id string, email and name and `generateToken(id)`; otherwise 500 |
| RegisterRoute.Register | app/api/auth/register/route.ts:5-58 | a 400 or 500 before the database touches nothing; a taken email is 409 after one lookup, with nothing written; otherwise one user with a fresh id and `hashPassword(password)` is stored; email uniqueness is preserved |
| RegisterRoute.AppendKeepsEmailsUnique | app/api/auth/register/route.ts:21-36 | storing a user whose email is free keeps emails unique |
| RegisterRoute.SecondRegistrationConflicts | app/api/auth/register/route.ts:21-27 | once a user is stored, a second registration with its email finds it, and so is refused with 409 |
| LoginRoute.CheckCredentials | app/api/auth/login/route.ts:8-16 | a body that throws is 500; Proceed iff email and password are truthy, else 400 "Email and password are required" |
| LoginRoute.Login | app/api/auth/login/route.ts:6-54 | it sends at most one lookup by email and never writes; a refused body sends nothing; an unreachable database is 500; an unknown email or a wrong password is the same 401 "Invalid credentials"; a matching password is 200 iff the token can be signed, naming the found user's id and `generateToken` of that id; every 500 is "Internal server error" |
| LoginRoute.UnknownEmailLooksLikeWrongPassword | app/api/auth/login/route.ts:21-35 | an unknown email and a wrong password give identical responses and identical lookups |
| LoginRoute.RegisteredUserCanLogIn | app/api/auth/login/route.ts:21-46 | after registration stores a user, logging in with the same email and password answers 200 with that user's id and a token for it |
| Store.ErrorFromBody | lib/store.ts:40-53 | a non-ok reply yields `data.error` when non-empty, else the action's fallback; a thrown error yields its own message |
| Store.FixedError | lib/store.ts:138-150 | a non-ok reply yields the fixed message whatever its body; a thrown error yields its own message |
| Store.Partialize | lib/store.ts:100-103 | the saved record is the session only: merging it back into its own state gives that state |
| Store.Rehydrate | lib/store.ts:98-104 | loading a saved record sets user and token from it, keeps the loading flag and error, and saves back exactly that record |
| Store.PersistedExactlyUserAndToken | lib/store.ts:98-104 | two states persist alike iff user and token agree: isLoading and error are never persisted |
| Store.RehydrateRestoresSession | lib/store.ts:98-104 | a reloaded store has the saved user and token, is not loading and has no error; saving it again writes the same |
| Store.AuthStore.constructor | lib/store.ts:25-29 | the auth store starts with no user, no token, not loading, no error |
| Store.ProductStore.constructor | lib/store.ts:126-129 | the product store starts with an empty list, not loading, no error, and no request sent |
| Store.AuthStore.SignIn | lib/store.ts:31-80 | the body shared by login and register: loading set and error cleared first; an ok reply sets user and token; otherwise the session is kept and `data.error` or the fallback is stored and rethrown |
| Store.AuthStore.Login | lib/store.ts:31-54 | sets loading and clears the error before the request; on success user and token come from the reply; on failure they are kept, the error is `data.error` or "Login failed", loading ends, and the promise rejects with it |
| Store.AuthStore.Register | lib/store.ts:56-80 | the same as Login with "Registration failed" and the register request |
| Store.AuthStore.Logout | lib/store.ts:82-84 | user, token and error become null; isLoading is unchanged |
| Store.AuthStore.SetUser | lib/store.ts:86-88 | only the user changes |
| Store.AuthStore.SetToken | lib/store.ts:90-92 | only the token changes |
| Store.AuthStore.ClearError | lib/store.ts:94-96 | only the error changes, to null |
| Store.ProductStore.FetchProducts | lib/store.ts:131-151 | success replaces the whole list; failure keeps it and stores "Failed to fetch products" (or the thrown message) and does not reject |
| Store.ProductStore.CreateProduct | lib/store.ts:153-186 | success appends the created product at the end, length +1, earlier products in place; failure keeps the list and rejects |
| Store.ProductStore.UpdateProduct | lib/store.ts:188-224 | success replaces the products with the id by the server's product; failure keeps the list and rejects |
| Store.ProductStore.DeleteProduct | lib/store.ts:226-252 | success removes the products with the id; failure keeps the list, stores "Failed to delete product" whatever the body, and rejects |
| Store.ProductStore.ClearError | lib/store.ts:254-256 | only the error changes, to null |
| ProductList.HasId | lib/store.ts:212 | a product matches an id iff it has an `_id` equal to it; a product without one never matches |
| ProductList.CountWithId | lib/store.ts:238-243 | the number of products with the id; zero iff none has it |
| ProductList.Replaced | lib/store.ts:209-214 | same length; each product with the id becomes the updated one, every other is unchanged in its place |
| ProductList.Removed | lib/store.ts:238-243 | no product with the id remains; every other is kept in order; length drops by their count |
| ProductList.RemovedKeepsMultiplicity | lib/store.ts:238-243 | every product without the id keeps its multiplicity |
| ProductList.RemovedOfConcat | lib/store.ts:238-243 | removal distributes over concatenation |
| ProductList.RemovedWithoutMatch | lib/store.ts:238-243 | when no product has the id, removal changes nothing |
| ProductList.CreateThenDelete | lib/store.ts:173-177 | appending a product with a new id, then deleting that id, gives the list back |
| ProductList.UpdateThenDelete | lib/store.ts:209-214 | deleting after an update that kept the id equals deleting |
| ProductList.ReplacedIdempotent | lib/store.ts:209-214 | applying the same update twice equals applying it once |
| ProductList.RemovedIdempotent | lib/store.ts:238-243 | deleting twice equals deleting once |
| LoginPage.FormError | app/login/page.tsx:25-28 | no error iff email and password are non-empty; the error is "Please fill in all fields" |
| LoginPage.Page.constructor | app/login/page.tsx:18 | the page starts with an empty local error and no navigation |
| LoginPage.Page.HandleSubmit | app/login/page.tsx:20-36 | both errors are cleared; a rejected form calls nothing; otherwise `login(email, password)` is called with the typed values and the page navigates to /dashboard iff it does not throw |
| RegisterPage.Utf16Length | app/register/page.tsx:37 | JavaScript string length in UTF-16 code units, between the character count and twice it |
| RegisterPage.FormError | app/register/page.tsx:27-40 | no error iff all four fields are non-empty, the passwords match and the password is at least 6 long |
| RegisterPage.FirstBrokenRuleWins | app/register/page.tsx:27-40 | the error shown is the first broken rule in the order fill, match, length |
| RegisterPage.MismatchBeforeLength | app/register/page.tsx:32-40 | a mismatch is reported even when the password is also short; a length of exactly 6 passes |
| RegisterPage.Page.constructor | app/register/page.tsx:20 | the page starts with an empty local error and no navigation |
| RegisterPage.Page.HandleSubmit | app/register/page.tsx:22-48 | both errors are cleared; `register(email, password, name)` is called iff the checks pass; navigation to /dashboard iff it does not throw |

## Left out

- The `lib/auth` helpers are arbitrary functions. Signature and expiry checking, bcrypt's random salt and the timing of comparisons are not modelled. `hashPassword` is a deterministic function, so two registrations with one password store the same digest in the model. `HashRoundTrips` names the contract that a password matches its own digest. Only the lemma about logging in after registering assumes it.
- `generateToken` is a function of the user id. Real tokens also embed the time of issue, so `RegisteredUserCanLogIn` speaks of a token signed for the same id, not the same token string.
- `verifyToken` and `extractToken` are taken not to throw, and `hashPassword` and `comparePasswords` likewise. Whatever they throw in the source would also end in 500.
- The database is a sequence of documents with equality matching. MongoDB query operators inside a JSON field (an `email` that is an object such as `{"$ne": null}`) are not interpreted.
- The database's failures are one flag per request, `dbUp`. A lookup that succeeds followed by an insert that fails is not a separate case: its outcome (500, nothing written) equals that of the flag.
- lib/db.ts (the connection and its cached handle) is not part of this model.
- ObjectIds come from a per-collection counter. Their only property used is that a new id is unused. `toString` renders the counter in hexadecimal without the 24-digit padding.
- `createdAt`, `updatedAt` and the clock are not modelled. POST's response builds fresh dates, so its timestamps differ from the stored ones in the source.
- Transport is not modelled: `fetch`, headers, `request.json()`'s mechanics, JSON serialisation, and `response.ok` beyond the Ok/Fail split. The client's `Ok` payload is taken to have the shape the server sends.
- `Store.ErrorFromBody`: a non-string `data.error` (a number, say) is not modelled. A thrown value that is not an `Error` is not modelled either. `fetch` and `response.json()` only throw Errors.
- `/api/products/[id]` (GET, PUT and DELETE by id) and its lookup on id and owner together are not part of this model. Only the product store's reaction to their replies is.
- `parseFloat`/`isNaN` price parsing in components/ProductForm.tsx and components/ProductModal.tsx is floating point. It is not modelled, and neither is rendering, `window.confirm`, the error and not-found pages, or the JSX. Navigation is only recorded as the `router.push` targets.
- Concurrent store actions are not modelled. The model runs each action from its `set` before the request to its `set` after the reply. The storage side of `persist` is not modelled either; only `partialize` and the default merge on reload are.
- `RegisterRoute.Register`: email uniqueness (`EmailsUnique`) is preserved only for registrations that do not interleave. The handler looks the email up and then inserts, and no unique index is created, so two concurrent registrations with one email can both be stored. Requests run one at a time in this model.
- Response timing is not modelled. A login with an unknown email answers before `comparePasswords` runs, one with a wrong password after it, so the two identical 401s can differ in timing.
- The handlers' `console.error` logging in their `catch` blocks is left out: it changes no response and no stored document.
- `description` is carried as whatever JSON value the body has, including undefined. How the driver stores an undefined field is not modelled.
