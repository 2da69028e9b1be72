/** Requests and responses of the route handlers, without transport detail. */
module Http {
  import opened Js
  import opened Documents

  /** A request body after `await request.json()`; parsing it may throw. */
  datatype RequestBody = Unparsable | Parsed(value: Json)

  /** The `user` object of a session response. */
  datatype UserView = UserView(id: string, email: Json, name: Json)

  /** The JSON a handler answers with. */
  datatype Payload =
    | ErrorMessage(error: string)
    | Listing(items: seq<ProductDoc>)
    | CreatedProduct(product: ProductDoc)
    | SignedIn(user: UserView, token: string)

  datatype Response = Response(status: nat, payload: Payload)

  /** What a read-only handler answers, and the database requests it sent. */
  datatype Handled = Handled(response: Response, queries: seq<DbOp>)

  function Error(status: nat, message: string): Response {
    Response(status, ErrorMessage(message))
  }

  /** What every handler answers when anything it awaits throws. */
  const InternalError: Response := Error(500, "Internal server error")

  /** Destructuring the body does not throw. */
  predicate Destructurable(v: Json) {
    !v.Null? && !v.Undefined?
  }

  /** `body.key` of a body that can be destructured. */
  function Prop(v: Json, key: string): Json
    requires Destructurable(v)
  {
    Field(v, key).value
  }
}
