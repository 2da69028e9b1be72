/** The submit handler of the sign-in form (app/login/page.tsx). */
module LoginPage {
  import opened Js
  import opened Store

  /** The form's only check: both fields filled in. */
  function FormError(email: string, password: string): (r: Option<string>)
    ensures r.None? <==> email != "" && password != ""
    ensures r.Some? ==> r.value == "Please fill in all fields"
  {
    if email == "" || password == "" then Some("Please fill in all fields") else None
  }

  class Page {
    const auth: AuthStore
    var localError: string
    /** Every `router.push` so far, oldest first. */
    ghost var pushed: seq<string>

    constructor (auth: AuthStore)
      ensures this.auth == auth && localError == "" && pushed == []
    {
      this.auth := auth;
      localError := "";
      pushed := [];
    }

    /** Both errors are cleared first. A form with an empty field shows
        "Please fill in all fields" and sends nothing; otherwise the store's
        `login` is called with exactly what was typed, and the page moves to
        the dashboard only when that call does not throw. */
    method HandleSubmit(email: string, password: string, reply: Reply<Session>)
      modifies this, auth
      ensures FormError(email, password).Some? ==>
        && localError == FormError(email, password).value
        && auth.State() == old(auth.State()).(error := None)
        && auth.requests == old(auth.requests)
        && pushed == old(pushed)
      ensures FormError(email, password).None? ==>
        && localError == ""
        && auth.requests == old(auth.requests) + [LoginRequest(email, password)]
        && (reply.Ok? ==>
              && auth.State() == AuthState(Some(reply.payload.user), Some(reply.payload.token), false, None)
              && pushed == old(pushed) + ["/dashboard"])
        && (!reply.Ok? ==>
              && auth.State() == AuthState(old(auth.user), old(auth.token), false, Some(ErrorFromBody(reply, "Login failed")))
              && pushed == old(pushed))
    {
      localError := "";
      auth.ClearError();
      var problem := FormError(email, password);
      if problem.Some? {
        localError := problem.value;
        return;
      }
      var settled;
      ghost var pending;
      settled, pending := auth.Login(email, password, reply);
      if settled.Resolved? {
        pushed := pushed + ["/dashboard"];
      }
    }
  }
}
