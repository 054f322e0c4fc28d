/**
 * The API access layer of the theft-report console: the request gateway
 * `api` (request building, bearer-token attachment, response
 * classification), the session kept in two `localStorage` slots with its
 * sign-in/sign-out events, and the thin domain wrappers for cases and
 * officers.
 */
module Api {
  import opened Js
  import opened Dom

  const ApiEntry: string := "https://sf-final-project-be.herokuapp.com/api"
  const ClientId: string := "650fd131-6be9-46a6-a156-0c2d85134c78"

  /**
   * What reaches `fetch`. The body is kept as the value that JSON.stringify
   * serializes; its text is the collaborator's business.
   */
  datatype Request = Request(verb: string, url: string, headers: map<string, string>, body: Option<Json>)

  /** What `response.json()` delivers: a value, or a SyntaxError. */
  datatype Body = Parsed(json: Json) | Unparsable

  /** What `fetch` delivers: a rejection, or a response with its `ok` flag and body. */
  datatype Reply = Unreachable | Received(ok: bool, body: Body)

  /** `localStorage.getItem('token')`. */
  function TokenIn(storage: map<string, string>): Option<string> {
    if "token" in storage then Some(storage["token"]) else None
  }

  // ---------------------------------------------------------------- gateway

  /**
   * The request `api(verb, path, params)` sends when the token slot holds
   * `token`.
   */
  function RequestFor(token: Option<string>, verb: string, path: string, params: Option<Json>): (r: Request)
    ensures r.verb == verb && r.url == ApiEntry + path
    ensures "Content-Type" in r.headers && r.headers["Content-Type"] == "application/json"
    ensures "Authorization" in r.headers <==> token.Some? && token.value != ""
    ensures "Authorization" in r.headers ==> r.headers["Authorization"] == "Bearer " + token.value
    ensures r.headers.Keys <= {"Content-Type", "Authorization"}
    ensures r.body.Some? <==> Truthy(params)
    ensures r.body.Some? ==> r.body == params
  {
    var headers := map["Content-Type" := "application/json"];
    Request(verb, ApiEntry + path,
            if token.Some? && token.value != "" then headers["Authorization" := "Bearer " + token.value] else headers,
            if Truthy(params) then params else None)
  }

  /** The step-by-step assembly of `fetchParams` and its `headers` dictionary. */
  method BuildRequest(token: Option<string>, verb: string, path: string, params: Option<Json>) returns (req: Request)
    ensures req == RequestFor(token, verb, path, params)
  {
    var headers := map["Content-Type" := "application/json"];
    if token.Some? && token.value != "" {
      headers := headers["Authorization" := "Bearer " + token.value];
    }
    var body := None;
    if Truthy(params) {
      body := params;
    }
    req := Request(verb, ApiEntry + path, headers, body);
  }

  /** A body whose `status` is absent or "OK" does not report a failure. */
  predicate StatusAccepted(body: Json)
    requires body != JNull
  {
    Prop(body, "status") == None || Prop(body, "status") == Some(JString("OK"))
  }

  /** `jsonData.error || jsonData.message`. */
  function Reason(body: Json): (r: Option<Json>)
    requires body != JNull
    ensures Truthy(Prop(body, "error")) ==> r == Prop(body, "error")
    ensures !Truthy(Prop(body, "error")) ==> r == Prop(body, "message")
  {
    var error := Prop(body, "error");
    if Truthy(error) then error else Prop(body, "message")
  }

  /** How `api` settles once `fetch` has delivered `reply`. */
  function Classify(reply: Reply): (r: Outcome<Json>)
    ensures reply.Unreachable? ==> r == Rejected(NetworkError)
    ensures reply.Received? && reply.body.Unparsable? ==> r == Rejected(SyntaxError)
    ensures reply.Received? && reply.body == Parsed(JNull) ==> r == Rejected(TypeError)
    ensures r.Resolved? <==>
      reply.Received? && reply.ok && reply.body.Parsed? && reply.body.json != JNull && StatusAccepted(reply.body.json)
    ensures r.Resolved? ==> r.value == reply.body.json && r.value != JNull
    ensures r.Rejected? && r.reason.ApiError? <==>
      reply.Received? && reply.body.Parsed? && reply.body.json != JNull && !(reply.ok && StatusAccepted(reply.body.json))
    ensures r.Rejected? && r.reason.ApiError? ==> r.reason.message == ErrorText(Reason(reply.body.json))
  {
    match reply
    case Unreachable => Rejected(NetworkError)
    case Received(_, Unparsable) => Rejected(SyntaxError)
    case Received(ok, Parsed(body)) =>
      if body == JNull then Rejected(TypeError)
      else if !ok || !StatusAccepted(body) then Rejected(ApiError(ErrorText(Reason(body))))
      else Resolved(body)
  }

  /** What `api(verb, path, params)` settles to, given storage and server. */
  function Call(storage: map<string, string>, verb: string, path: string, params: Option<Json>,
                fetch: Request -> Reply): Outcome<Json>
  {
    Classify(fetch(RequestFor(TokenIn(storage), verb, path, params)))
  }

  /** `api`: reads the token slot, sends the request, classifies the reply. */
  method Api(env: Browser, verb: string, path: string, params: Option<Json>, fetch: Request -> Reply)
    returns (r: Outcome<Json>)
    ensures r == Call(env.storage, verb, path, params, fetch)
  {
    var req := BuildRequest(env.GetItem("token"), verb, path, params);
    var reply := fetch(req);
    r := Classify(reply);
  }

  // ---------------------------------------------------------------- wrappers

  /** `r` is `o` projected on `key`: the field of a success, the failure unchanged. */
  ghost predicate Projects(r: Outcome<Option<Json>>, o: Outcome<Json>, key: string) {
    && (r.Rejected? <==> o.Rejected?)
    && (o.Rejected? ==> r.reason == o.reason)
    && (o.Resolved? ==> o.value != JNull && r == Resolved(Prop(o.value, key)))
  }

  /** `r` is `o` with its success replaced by null and its failure unchanged. */
  ghost predicate Nulls(r: Outcome<Option<Json>>, o: Outcome<Json>) {
    && (r.Rejected? <==> o.Rejected?)
    && (o.Rejected? ==> r.reason == o.reason)
    && (o.Resolved? ==> r == Resolved(Some(JNull)))
  }

  /** `.then(response => response[key])`. */
  function Field(o: Outcome<Json>, key: string): (r: Outcome<Option<Json>>)
    ensures o.Rejected? || o.value != JNull ==> Projects(r, o, key)
  {
    match o
    case Rejected(f) => Rejected(f)
    case Resolved(body) => Member(Some(body), key)
  }

  /** `.then(_response => null)`. */
  function Nulled(o: Outcome<Json>): (r: Outcome<Option<Json>>)
    ensures Nulls(r, o)
  {
    match o
    case Rejected(f) => Rejected(f)
    case Resolved(_) => Resolved(Some(JNull))
  }

  method PublicReport(env: Browser, message: Json, fetch: Request -> Reply) returns (r: Outcome<Option<Json>>)
    ensures Projects(r, Call(env.storage, "POST", "/public/report", Some(message), fetch), "data")
  {
    var o := Api(env, "POST", "/public/report", Some(message), fetch);
    r := Field(o, "data");
  }

  method ListCases(env: Browser, fetch: Request -> Reply) returns (r: Outcome<Option<Json>>)
    ensures Projects(r, Call(env.storage, "GET", "/cases", None, fetch), "data")
  {
    var o := Api(env, "GET", "/cases", None, fetch);
    r := Field(o, "data");
  }

  /**
   * The `.catch` handler of getCase and getOfficer as written. It starts by
   * calling `reason.typeof(Object)`; no Error has a `typeof` method, so that
   * call throws a TypeError whatever the reason, and the not-found code is
   * never compared, so the handler takes no code.
   */
  function RecoverAsWritten(o: Outcome<Option<Json>>): (r: Outcome<Option<Json>>)
    ensures o.Resolved? ==> r == o
    ensures o.Rejected? ==> r == Rejected(TypeError)
  {
    match o
    case Resolved(_) => o
    case Rejected(_) => Rejected(TypeError)
  }

  method GetCase(env: Browser, id: string, fetch: Request -> Reply) returns (r: Outcome<Option<Json>>)
    ensures var o := Call(env.storage, "GET", "/cases/" + id, None, fetch);
      && (o.Resolved? ==> o.value != JNull && r == Resolved(Prop(o.value, "data")))
      && (o.Rejected? ==> r == Rejected(TypeError))
  {
    var o := Api(env, "GET", "/cases/" + id, None, fetch);
    r := RecoverAsWritten(Field(o, "data"));
  }

  /** The `errCode` the server put in the body of a failed reply. */
  function ErrCode(reply: Reply): Option<Json> {
    if reply.Received? && reply.body.Parsed? && reply.body.json != JNull then Prop(reply.body.json, "errCode")
    else None
  }

  /** The reply is a reported API error whose code is `code`. */
  predicate NotFound(reply: Reply, code: string) {
    Classify(reply).Rejected? && Classify(reply).reason.ApiError? && ErrCode(reply) == Some(JString(code))
  }

  /**
   * getCase/getOfficer as evidently intended: a reported error carrying the
   * entity's not-found code becomes null, every other failure propagates
   * unchanged.
   */
  function RecoverNotFound(reply: Reply, code: string): (r: Outcome<Option<Json>>)
    ensures Classify(reply).Resolved? ==> Projects(r, Classify(reply), "data")
    ensures NotFound(reply, code) ==> r == Resolved(Some(JNull))
    ensures r.Rejected? <==> Classify(reply).Rejected? && !NotFound(reply, code)
    ensures r.Rejected? ==> r.reason == Classify(reply).reason
  {
    var o := Classify(reply);
    if NotFound(reply, code) then Resolved(Some(JNull)) else Field(o, "data")
  }

  method AddCase(env: Browser, message: Json, fetch: Request -> Reply) returns (r: Outcome<Option<Json>>)
    ensures Projects(r, Call(env.storage, "POST", "/cases", Some(message), fetch), "data")
  {
    var o := Api(env, "POST", "/cases", Some(message), fetch);
    r := Field(o, "data");
  }

  method UpdateCase(env: Browser, id: string, fields: Json, fetch: Request -> Reply) returns (r: Outcome<Option<Json>>)
    ensures Projects(r, Call(env.storage, "PUT", "/cases/" + id, Some(fields), fetch), "data")
  {
    var o := Api(env, "PUT", "/cases/" + id, Some(fields), fetch);
    r := Field(o, "data");
  }

  method RemoveCase(env: Browser, id: string, fetch: Request -> Reply) returns (r: Outcome<Option<Json>>)
    ensures Nulls(r, Call(env.storage, "DELETE", "/cases/" + id, None, fetch))
  {
    var o := Api(env, "DELETE", "/cases/" + id, None, fetch);
    r := Nulled(o);
  }

  method ListOfficers(env: Browser, fetch: Request -> Reply) returns (r: Outcome<Option<Json>>)
    ensures Projects(r, Call(env.storage, "GET", "/officers", None, fetch), "officers")
  {
    var o := Api(env, "GET", "/officers", None, fetch);
    r := Field(o, "officers");
  }

  /** Registration posts to the sign-in path, as written; it never touches the session. */
  method Register(env: Browser, fields: Json, fetch: Request -> Reply) returns (r: Outcome<Option<Json>>)
    ensures Projects(r, Call(env.storage, "POST", "/auth/sign_in", Some(fields), fetch), "data")
  {
    var o := Api(env, "POST", "/auth/sign_in", Some(fields), fetch);
    r := Field(o, "data");
  }

  method AddOfficer(env: Browser, fields: Json, fetch: Request -> Reply) returns (r: Outcome<Option<Json>>)
    ensures Projects(r, Call(env.storage, "POST", "/officers", Some(fields), fetch), "data")
  {
    var o := Api(env, "POST", "/officers", Some(fields), fetch);
    r := Field(o, "data");
  }

  method UpdateOfficer(env: Browser, id: string, fields: Json, fetch: Request -> Reply) returns (r: Outcome<Option<Json>>)
    ensures Projects(r, Call(env.storage, "PUT", "/officers/" + id, Some(fields), fetch), "data")
  {
    var o := Api(env, "PUT", "/officers/" + id, Some(fields), fetch);
    r := Field(o, "data");
  }

  method GetOfficer(env: Browser, id: string, fetch: Request -> Reply) returns (r: Outcome<Option<Json>>)
    ensures var o := Call(env.storage, "GET", "/officers/" + id, None, fetch);
      && (o.Resolved? ==> o.value != JNull && r == Resolved(Prop(o.value, "data")))
      && (o.Rejected? ==> r == Rejected(TypeError))
  {
    var o := Api(env, "GET", "/officers/" + id, None, fetch);
    r := RecoverAsWritten(Field(o, "data"));
  }

  method RemoveOfficer(env: Browser, id: string, fetch: Request -> Reply) returns (r: Outcome<Option<Json>>)
    ensures Nulls(r, Call(env.storage, "DELETE", "/officers/" + id, None, fetch))
  {
    var o := Api(env, "DELETE", "/officers/" + id, None, fetch);
    r := Nulled(o);
  }

  // ---------------------------------------------------------------- session

  /**
   * `currentUser()`: the parsed `user` slot, null when the slot is missing
   * or empty. A slot that does not parse throws, as JSON.parse does.
   */
  function CurrentUser(storage: map<string, string>, json: JsonCodec): (r: Outcome<Json>)
    ensures RoundTrips(json) && ("user" !in storage || storage["user"] == "") ==> r == Resolved(JNull)
    ensures "user" in storage && storage["user"] != "" ==>
      && (r.Rejected? <==> json.parse(storage["user"]).None?)
      && (r.Resolved? ==> json.parse(storage["user"]) == Some(r.value))
    ensures r.Rejected? ==> r.reason == SyntaxError
  {
    var text := if "user" in storage && storage["user"] != "" then storage["user"] else "null";
    match json.parse(text)
    case Some(v) => Resolved(v)
    case None => Rejected(SyntaxError)
  }

  /** Which of the two session slots are present. */
  datatype SessionState = Anonymous | Authenticated | Torn

  function StateOf(storage: map<string, string>): SessionState {
    if "token" in storage && "user" in storage then Authenticated
    else if "token" !in storage && "user" !in storage then Anonymous
    else Torn
  }

  /** `data.data.token` and `data.data.user` of a successful sign-in. */
  datatype Grant = Grant(token: Option<Json>, user: Option<Json>)

  /** Reading the grant out of what `api` settled to. */
  function GrantOf(o: Outcome<Json>): (r: Outcome<Grant>)
    ensures o.Rejected? ==> r == Rejected(o.reason)
    ensures o.Resolved? ==> (r.Rejected? <==> o.value == JNull || Nullish(Prop(o.value, "data")))
    ensures o.Resolved? && r.Rejected? ==> r.reason == TypeError
    ensures o.Resolved? && o.value != JNull && !Nullish(Prop(o.value, "data")) ==>
      var data := Prop(o.value, "data").value;
      r == Resolved(Grant(Prop(data, "token"), Prop(data, "user")))
  {
    match o
    case Rejected(f) => Rejected(f)
    case Resolved(body) =>
      match Member(Some(body), "data")
      case Rejected(f) => Rejected(f)
      case Resolved(data) =>
        match Member(data, "token")
        case Rejected(f) => Rejected(f)
        case Resolved(token) => Resolved(Grant(token, Prop(data.value, "user")))
  }

  /** `JSON.stringify(v)` stored by setItem: JSON.stringify(undefined) is undefined, stored as "undefined". */
  function Serialized(json: JsonCodec, v: Option<Json>): string {
    if v.None? then "undefined" else json.stringify(v.value)
  }

  /** The storage after the two writes of a successful sign-in. */
  function SignedIn(storage: map<string, string>, json: JsonCodec, g: Grant): (s: map<string, string>)
    ensures StateOf(s) == Authenticated
    ensures TokenIn(s) == Some(Str(g.token))
    ensures forall k :: k in storage && k != "token" && k != "user" ==> k in s && s[k] == storage[k]
    ensures s.Keys == storage.Keys + {"token", "user"}
    ensures RoundTrips(json) && g.user.Some? ==> CurrentUser(s, json) == Resolved(g.user.value)
    ensures RoundTrips(json) && g.user.None? ==> CurrentUser(s, json) == Rejected(SyntaxError)
  {
    storage["token" := Str(g.token)]["user" := Serialized(json, g.user)]
  }

  /**
   * The session slots agree with the last event dispatched: after
   * `auth:sign_in` both slots are written, after `auth:sign_out` both are gone.
   */
  predicate InSync(storage: map<string, string>, events: seq<AuthEvent>) {
    events != [] ==> StateOf(storage) == if events[|events| - 1].SignIn? then Authenticated else Anonymous
  }

  /** The storage after sign-out removed both slots. */
  function SignedOut(storage: map<string, string>): (s: map<string, string>)
    ensures StateOf(s) == Anonymous
    ensures TokenIn(s) == None
    ensures forall k :: k in storage && k != "token" && k != "user" ==> k in s && s[k] == storage[k]
    ensures s.Keys == storage.Keys - {"token", "user"}
    ensures forall json :: RoundTrips(json) ==> CurrentUser(s, json) == Resolved(JNull)
  {
    storage - {"token", "user"}
  }

  /** The sign-in payload `{ email: login, password }`. */
  function Credentials(login: Json, password: Json): Json {
    JObject(map["email" := login, "password" := password])
  }

  /** What sign-in yields when it starts from `storage`. */
  function SignInGrant(storage: map<string, string>, login: Json, password: Json, fetch: Request -> Reply): Outcome<Grant> {
    GrantOf(Call(storage, "POST", "/auth/sign_in", Some(Credentials(login, password)), fetch))
  }

  /**
   * `login`: on success writes the token slot, then the user slot, then
   * dispatches `auth:sign_in` with the user and returns it; any failure
   * comes before the first write.
   */
  method Login(env: Browser, login: Json, password: Json, fetch: Request -> Reply) returns (r: Outcome<Option<Json>>)
    modifies env, env.Cells()
    ensures env.listeners == old(env.listeners) && env.nextHandler == old(env.nextHandler)
    ensures var g := SignInGrant(old(env.storage), login, password, fetch);
      g.Rejected? ==> r == Rejected(g.reason) && env.storage == old(env.storage) && env.events == old(env.events)
    ensures var g := SignInGrant(old(env.storage), login, password, fetch);
      g.Resolved? ==>
        && r == Resolved(g.value.user)
        && env.storage == SignedIn(old(env.storage), env.json, g.value)
        && env.events == old(env.events) + [SignIn(g.value.user.GetOr(JNull))]
        && InSync(env.storage, env.events)
    ensures InSync(old(env.storage), old(env.events)) ==> InSync(env.storage, env.events)
    ensures RoundTrips(env.json) && r.Resolved? && r.value.Some? ==> CurrentUser(env.storage, env.json) == Resolved(r.value.value)
    ensures var g := SignInGrant(old(env.storage), login, password, fetch);
      forall c :: c in old(env.Cells()) ==>
        c.value == if g.Resolved? then Heard(env.listeners, SignIn(g.value.user.GetOr(JNull)), c, old(c.value))
                   else old(c.value)
  {
    var data := Api(env, "POST", "/auth/sign_in", Some(Credentials(login, password)), fetch);
    if data.Rejected? {
      r := Rejected(data.reason);
      return;
    }
    var payload := Member(Some(data.value), "data");
    if payload.Rejected? {
      r := Rejected(payload.reason);
      return;
    }
    var token := Member(payload.value, "token");
    if token.Rejected? {
      r := Rejected(token.reason);
      return;
    }
    env.storage := env.storage["token" := Str(token.value)];
    var user := Prop(payload.value.value, "user");
    env.storage := env.storage["user" := Serialized(env.json, user)];
    env.DispatchEvent(SignIn(user.GetOr(JNull)));
    r := Resolved(user);
  }

  /** `logout`: removes both slots and dispatches `auth:sign_out`; no request is sent. */
  method Logout(env: Browser)
    modifies env, env.Cells()
    ensures env.listeners == old(env.listeners) && env.nextHandler == old(env.nextHandler)
    ensures env.storage == SignedOut(old(env.storage))
    ensures env.events == old(env.events) + [SignOut]
    ensures InSync(env.storage, env.events)
    ensures RoundTrips(env.json) ==> CurrentUser(env.storage, env.json) == Resolved(JNull)
    ensures forall c :: c in old(env.Cells()) ==> c.value == Heard(env.listeners, SignOut, c, old(c.value))
  {
    env.storage := env.storage - {"token"};
    env.storage := env.storage - {"user"};
    env.DispatchEvent(SignOut);
  }

  // ---------------------------------------------------------------- scenarios

  /**
   * A server answering sign-in with `{status: "OK", data: {token: "T1", user}}`:
   * afterwards `currentUser()` is that user and the next request to /cases
   * carries `Authorization: Bearer T1`.
   */
  lemma SignInScenario(storage: map<string, string>, json: JsonCodec, user: Json)
    requires RoundTrips(json)
    ensures var data := JObject(map["token" := JString("T1"), "user" := user]);
      var reply := Received(true, Parsed(JObject(map["status" := JString("OK"), "data" := data])));
      var g := GrantOf(Classify(reply));
      && g == Resolved(Grant(Some(JString("T1")), Some(user)))
      && CurrentUser(SignedIn(storage, json, g.value), json) == Resolved(user)
      && RequestFor(TokenIn(SignedIn(storage, json, g.value)), "GET", "/cases", None).headers["Authorization"] == "Bearer T1"
  {
    var data := JObject(map["token" := JString("T1"), "user" := user]);
    var body := JObject(map["status" := JString("OK"), "data" := data]);
    assert Prop(body, "status") == Some(JString("OK"));
    assert Prop(body, "data") == Some(data);
  }

  /**
   * A server answering sign-in with a failed response `{error: "Invalid credentials"}`:
   * sign-in rejects with that ApiError, so by Login's contract nothing is written.
   */
  lemma RejectedSignInScenario()
    ensures var reply := Received(false, Parsed(JObject(map["error" := JString("Invalid credentials")])));
      GrantOf(Classify(reply)) == Rejected(ApiError("Invalid credentials"))
  {
    var body := JObject(map["error" := JString("Invalid credentials")]);
    assert Prop(body, "error") == Some(JString("Invalid credentials"));
  }

  /** A DELETE answered with `{status: "OK"}` and no data resolves to null. */
  lemma RemoveWithoutDataScenario()
    ensures Nulled(Classify(Received(true, Parsed(JObject(map["status" := JString("OK")]))))) == Resolved(Some(JNull))
  {
    var body := JObject(map["status" := JString("OK")]);
    assert Prop(body, "status") == Some(JString("OK"));
  }

  /**
   * getCase as written meets a `{errCode: "UNKNOWN_CASE"}` failure with a
   * TypeError instead of null; the intended recovery gives null.
   */
  lemma UnknownCaseScenario()
    ensures var reply := Received(false, Parsed(JObject(map["errCode" := JString("UNKNOWN_CASE")])));
      && RecoverAsWritten(Field(Classify(reply), "data")) == Rejected(TypeError)
      && RecoverNotFound(reply, "UNKNOWN_CASE") == Resolved(Some(JNull))
  {
    var body := JObject(map["errCode" := JString("UNKNOWN_CASE")]);
    assert Prop(body, "errCode") == Some(JString("UNKNOWN_CASE"));
  }
}
