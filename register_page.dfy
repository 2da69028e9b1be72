/** The submit handler of the sign-up form (app/register/page.tsx). */
module RegisterPage {
  import opened Js
  import opened Store

  const FillInAll := "Please fill in all fields"
  const PasswordsDiffer := "Passwords do not match"
  const PasswordTooShort := "Password must be at least 6 characters"

  /** JavaScript's `length` of a string: UTF-16 code units, so a character
      outside the Basic Multilingual Plane counts twice. */
  function Utf16Length(s: string): (n: nat)
    ensures |s| <= n <= 2 * |s|
  {
    if s == [] then 0 else (if s[0] as int >= 0x1_0000 then 2 else 1) + Utf16Length(s[1..])
  }

  /** The form's checks, first failure wins: every field filled in, then the
      two passwords equal, then the password at least 6 long. */
  function FormError(name: string, email: string, password: string, confirmPassword: string): (r: Option<string>)
    ensures r.None? <==>
      name != "" && email != "" && password != "" && confirmPassword != "" &&
      password == confirmPassword && Utf16Length(password) >= 6
  {
    if name == "" || email == "" || password == "" || confirmPassword == "" then Some(FillInAll)
    else if password != confirmPassword then Some(PasswordsDiffer)
    else if Utf16Length(password) < 6 then Some(PasswordTooShort)
    else None
  }

  /** Every rule a form breaks, in the order the checks run, each judged on
      its own. */
  function BrokenRules(name: string, email: string, password: string, confirmPassword: string): seq<string> {
    (if name == "" || email == "" || password == "" || confirmPassword == "" then [FillInAll] else []) +
    (if password != confirmPassword then [PasswordsDiffer] else []) +
    (if Utf16Length(password) < 6 then [PasswordTooShort] else [])
  }

  /** The form reports the first rule it breaks, and nothing when it breaks none. */
  lemma FirstBrokenRuleWins(name: string, email: string, password: string, confirmPassword: string)
    ensures var broken := BrokenRules(name, email, password, confirmPassword);
      FormError(name, email, password, confirmPassword) == if broken == [] then None else Some(broken[0])
  {
  }

  /** A mismatch is reported even when the password is also too short, and a
      password of exactly 6 passes the length check. */
  lemma MismatchBeforeLength(name: string, email: string, password: string, confirmPassword: string)
    requires name != "" && email != "" && password != "" && confirmPassword != ""
    ensures password != confirmPassword ==> FormError(name, email, password, confirmPassword) == Some(PasswordsDiffer)
    ensures password == confirmPassword && Utf16Length(password) == 6 ==> FormError(name, email, password, confirmPassword) == None
  {
  }

  class Page {
    const auth: AuthStore
    var localError: string
    /** Every `router.push` so far, oldest first. */
    ghost var pushed: seq<string>

    constructor (auth: AuthStore)
      ensures this.auth == auth && localError == "" && pushed == []
    {
      this.auth := auth;
      localError := "";
      pushed := [];
    }

    /** Both errors are cleared first. A form that breaks a rule shows the
        first one and sends nothing; otherwise the store's `register` is
        called with the email, password and name, and the page moves to the
        dashboard only when that call does not throw. */
    method HandleSubmit(name: string, email: string, password: string, confirmPassword: string, reply: Reply<Session>)
      modifies this, auth
      ensures FormError(name, email, password, confirmPassword).Some? ==>
        && localError == FormError(name, email, password, confirmPassword).value
        && auth.State() == old(auth.State()).(error := None)
        && auth.requests == old(auth.requests)
        && pushed == old(pushed)
      ensures FormError(name, email, password, confirmPassword).None? ==>
        && localError == ""
        && auth.requests == old(auth.requests) + [RegisterRequest(email, password, name)]
        && (reply.Ok? ==>
              && auth.State() == AuthState(Some(reply.payload.user), Some(reply.payload.token), false, None)
              && pushed == old(pushed) + ["/dashboard"])
        && (!reply.Ok? ==>
              && auth.State() == AuthState(old(auth.user), old(auth.token), false, Some(ErrorFromBody(reply, "Registration failed")))
              && pushed == old(pushed))
    {
      localError := "";
      auth.ClearError();
      var problem := FormError(name, email, password, confirmPassword);
      if problem.Some? {
        localError := problem.value;
        return;
      }
      var settled;
      ghost var pending;
      settled, pending := auth.Register(email, password, name, reply);
      if settled.Resolved? {
        pushed := pushed + ["/dashboard"];
      }
    }
  }
}
