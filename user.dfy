/**
 * The user routes: signing in, registering and signing out, and the
 * loaders that send a signed-in visitor away from the sign-in and
 * registration pages.
 */
module UserRoutes {
  import opened Js
  import opened Dom
  import opened Api
  import opened Router

  /** `logoutLoader`: signs out, then sends the visitor to the start page. */
  method LogoutLoader(env: Browser) returns (r: RouteResult)
    modifies env, env.Cells()
    ensures r == Redirect("/")
    ensures env.storage == SignedOut(old(env.storage)) && StateOf(env.storage) == Anonymous
    ensures env.events == old(env.events) + [SignOut]
    ensures env.listeners == old(env.listeners) && env.nextHandler == old(env.nextHandler)
    ensures forall c :: c in old(env.Cells()) ==> c.value == Heard(env.listeners, SignOut, c, old(c.value))
  {
    Logout(env);
    r := Redirect("/");
  }

  /**
   * `loginAction`: signs in with the form's `login` and `password`; a
   * rejected sign-in is shown on the form when the server reported it and
   * thrown on otherwise, and leaves the session untouched.
   */
  method LoginAction(env: Browser, form: FormData, fetch: Request -> Reply) returns (r: Outcome<RouteResult>)
    modifies env, env.Cells()
    ensures var g := SignInGrant(old(env.storage), FormGet(form, "login"), FormGet(form, "password"), fetch);
      && r == CatchApiError(g, Redirect("/"))
      && env.storage == (if g.Resolved? then SignedIn(old(env.storage), env.json, g.value) else old(env.storage))
      && env.events == (if g.Resolved? then old(env.events) + [SignIn(g.value.user.GetOr(JNull))] else old(env.events))
      && forall c :: c in old(env.Cells()) ==>
           c.value == if g.Resolved? then Heard(env.listeners, SignIn(g.value.user.GetOr(JNull)), c, old(c.value))
                      else old(c.value)
    ensures env.listeners == old(env.listeners) && env.nextHandler == old(env.nextHandler)
  {
    var user := Login(env, FormGet(form, "login"), FormGet(form, "password"), fetch);
    r := CatchApiError(user, Redirect("/"));
  }

  /**
   * `loginLoader` and `registerLoader`, which are the same decision: a
   * visitor with a session (`currentUser() != null`) is sent to the start
   * page, anyone else gets the page; a user slot that does not parse throws.
   */
  function SessionLoader(storage: map<string, string>, json: JsonCodec): (r: Outcome<RouteResult>)
    ensures r == Resolved(Redirect("/")) <==> CurrentUser(storage, json).Resolved? && CurrentUser(storage, json).value != JNull
    ensures r == Resolved(NoData) <==> CurrentUser(storage, json) == Resolved(JNull)
    ensures r.Rejected? <==> CurrentUser(storage, json).Rejected?
    ensures r.Rejected? ==> r.reason == SyntaxError
  {
    match CurrentUser(storage, json)
    case Rejected(f) => Rejected(f)
    case Resolved(user) => if user != JNull then Resolved(Redirect("/")) else Resolved(NoData)
  }

  /** A signed-in visitor is sent away; after sign-out the pages are shown again. */
  lemma SessionLoaderFollowsSession(storage: map<string, string>, json: JsonCodec, g: Grant)
    requires RoundTrips(json) && g.user.Some? && g.user.value != JNull
    ensures SessionLoader(SignedIn(storage, json, g), json) == Resolved(Redirect("/"))
    ensures SessionLoader(SignedOut(storage), json) == Resolved(NoData)
  {
  }

  /** The registration payload: the four form fields, and no `approved` flag. */
  function RegisterFields(form: FormData): (r: map<string, Json>)
    ensures r.Keys == {"email", "password", "firstName", "lastName"}
    ensures "approved" !in r
    ensures r["email"] == FormGet(form, "email") && r["password"] == FormGet(form, "password")
    ensures r["firstName"] == FormGet(form, "firstName") && r["lastName"] == FormGet(form, "lastName")
  {
    map["email" := FormGet(form, "email"), "password" := FormGet(form, "password"),
        "firstName" := FormGet(form, "firstName"), "lastName" := FormGet(form, "lastName")]
  }

  /**
   * `registerAction`: sends the payload through `register` and, on success,
   * sends the visitor to the sign-in page. It changes no state: no session
   * is established.
   */
  method RegisterAction(env: Browser, form: FormData, fetch: Request -> Reply) returns (r: Outcome<RouteResult>)
    ensures r == CatchApiError(Call(env.storage, "POST", "/auth/sign_in", Some(JObject(RegisterFields(form))), fetch),
                               Redirect("/login"))
  {
    var user := Register(env, JObject(RegisterFields(form)), fetch);
    r := CatchApiError(user, Redirect("/login"));
  }
}
