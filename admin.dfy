/**
 * The administration routes: the shared result mapping of the officer and
 * case forms, the payloads the officer and case forms send, and the rule
 * that offers editing and deletion only to an approved account.
 */
module AdminRoutes {
  import opened Js
  import opened Dom
  import opened Api
  import opened Router

  const UsersPage: string := "/admin/users"
  const ReportsPage: string := "/admin/reports"

  /** `baseUserCrudAction`: a reported error is shown, success returns to the officer list. */
  function BaseUserCrudAction<T>(o: Outcome<T>): (r: Outcome<RouteResult>)
    ensures r == Resolved(Redirect(UsersPage)) <==> o.Resolved?
    ensures r.Resolved? && r.value.ActionError? <==> o.Rejected? && o.reason.ApiError?
    ensures r.Resolved? && r.value.ActionError? ==> r.value.error == o.reason.message
    ensures r.Rejected? <==> o.Rejected? && !o.reason.ApiError?
    ensures r.Rejected? ==> r.reason == o.reason
  {
    CatchApiError(o, Redirect(UsersPage))
  }

  /** `baseReportCrudAction`: the same mapping, returning to the case list. */
  function BaseReportCrudAction<T>(o: Outcome<T>): (r: Outcome<RouteResult>)
    ensures r == Resolved(Redirect(ReportsPage)) <==> o.Resolved?
    ensures r.Resolved? && r.value.ActionError? <==> o.Rejected? && o.reason.ApiError?
    ensures r.Resolved? && r.value.ActionError? ==> r.value.error == o.reason.message
    ensures r.Rejected? <==> o.Rejected? && !o.reason.ApiError?
    ensures r.Rejected? ==> r.reason == o.reason
  {
    CatchApiError(o, Redirect(ReportsPage))
  }

  /** A checkbox submits "on" when ticked and nothing when not. */
  function Checked(form: FormData, key: string): (r: Json)
    ensures r == JBool(key in form && form[key] == "on")
  {
    JBool(FormGet(form, key) == JString("on"))
  }

  /** `formData.get(key)` is a string of at least one character. */
  predicate FilledIn(form: FormData, key: string) {
    key in form && form[key] != ""
  }

  // ---------------------------------------------------------------- officers

  /**
   * The officer update payload: the three text fields and the approval flag
   * always, the password only when one was typed, so an empty password
   * field never overwrites the stored one.
   */
  function EditUserFields(form: FormData): (r: map<string, Json>)
    ensures r.Keys == {"email", "firstName", "lastName", "approved"} + if FilledIn(form, "password") then {"password"} else {}
    ensures r["email"] == FormGet(form, "email")
    ensures r["firstName"] == FormGet(form, "firstName") && r["lastName"] == FormGet(form, "lastName")
    ensures r["approved"] == JBool("approved" in form && form["approved"] == "on")
    ensures "password" in r ==> r["password"] == JString(form["password"])
  {
    var data := map["email" := FormGet(form, "email"), "firstName" := FormGet(form, "firstName"),
                    "lastName" := FormGet(form, "lastName"), "approved" := Checked(form, "approved")];
    if FilledIn(form, "password") then data["password" := JString(form["password"])] else data
  }

  /** `editUserAction`: builds the payload, adding the password in place, and updates officer `id`. */
  method EditUserAction(env: Browser, form: FormData, id: string, fetch: Request -> Reply) returns (r: Outcome<RouteResult>)
    ensures r == BaseUserCrudAction(Call(env.storage, "PUT", "/officers/" + id, Some(JObject(EditUserFields(form))), fetch))
  {
    var data := map["email" := FormGet(form, "email"), "firstName" := FormGet(form, "firstName"),
                    "lastName" := FormGet(form, "lastName"), "approved" := Checked(form, "approved")];
    var password := FormGet(form, "password");
    if password.JString? && |password.s| > 0 {
      data := data["password" := password];
    }
    var officer := UpdateOfficer(env, id, JObject(data), fetch);
    r := BaseUserCrudAction(officer);
  }

  /** The officer creation payload: all five fields, the approval flag from the checkbox. */
  function AddUserFields(form: FormData): (r: map<string, Json>)
    ensures r.Keys == {"email", "password", "approved", "firstName", "lastName"}
    ensures r["email"] == FormGet(form, "email") && r["password"] == FormGet(form, "password")
    ensures r["firstName"] == FormGet(form, "firstName") && r["lastName"] == FormGet(form, "lastName")
    ensures r["approved"] == JBool("approved" in form && form["approved"] == "on")
  {
    map["email" := FormGet(form, "email"), "password" := FormGet(form, "password"),
        "approved" := Checked(form, "approved"),
        "firstName" := FormGet(form, "firstName"), "lastName" := FormGet(form, "lastName")]
  }

  /** `addUserAction`. */
  method AddUserAction(env: Browser, form: FormData, fetch: Request -> Reply) returns (r: Outcome<RouteResult>)
    ensures r == BaseUserCrudAction(Call(env.storage, "POST", "/officers", Some(JObject(AddUserFields(form))), fetch))
  {
    var officer := AddOfficer(env, JObject(AddUserFields(form)), fetch);
    r := BaseUserCrudAction(officer);
  }

  /** `deleteUserAction`. */
  method DeleteUserAction(env: Browser, id: string, fetch: Request -> Reply) returns (r: Outcome<RouteResult>)
    ensures r == BaseUserCrudAction(Call(env.storage, "DELETE", "/officers/" + id, None, fetch))
  {
    var none := RemoveOfficer(env, id, fetch);
    r := BaseUserCrudAction(none);
  }

  // ---------------------------------------------------------------- cases

  /** `deleteReportAction`. */
  method DeleteReportAction(env: Browser, id: string, fetch: Request -> Reply) returns (r: Outcome<RouteResult>)
    ensures r == BaseReportCrudAction(Call(env.storage, "DELETE", "/cases/" + id, None, fetch))
  {
    var none := RemoveCase(env, id, fetch);
    r := BaseReportCrudAction(none);
  }

  /**
   * The fields every case form sends. `officer` is the signed-in account's
   * `_id`; JSON.stringify drops a property whose value is undefined, so the
   * key is absent when the account has no `_id`.
   */
  function CaseFields(form: FormData, status: Json, author: Option<Json>): (r: map<string, Json>)
    ensures r.Keys == {"status", "licenseNumber", "type", "ownerFullName", "date", "description"}
                      + if author.Some? then {"officer"} else {}
    ensures r["status"] == status && r["licenseNumber"] == FormGet(form, "licenseNumber")
    ensures r["type"] == FormGet(form, "type") && r["ownerFullName"] == FormGet(form, "ownerFullName")
    ensures r["date"] == FormGet(form, "date") && r["description"] == FormGet(form, "description")
    ensures author.Some? ==> r["officer"] == author.value
  {
    var data := map["status" := status, "licenseNumber" := FormGet(form, "licenseNumber"),
                    "type" := FormGet(form, "type"), "ownerFullName" := FormGet(form, "ownerFullName"),
                    "date" := FormGet(form, "date"), "description" := FormGet(form, "description")];
    if author.Some? then data["officer" := author.value] else data
  }

  /**
   * `data[key] = formData.get(key)` when the field is non-empty. Reading the
   * length of a field the form does not have throws a TypeError.
   */
  function WithOptional(data: map<string, Json>, form: FormData, key: string): (r: Outcome<map<string, Json>>)
    ensures r.Rejected? <==> key !in form
    ensures r.Rejected? ==> r.reason == TypeError
    ensures r.Resolved? ==> r.value.Keys == data.Keys + if form[key] != "" then {key} else {}
    ensures r.Resolved? ==> forall k :: k in data && k != key ==> r.value[k] == data[k]
    ensures r.Resolved? && form[key] != "" ==> r.value[key] == JString(form[key])
  {
    if key !in form then Rejected(TypeError)
    else if form[key] != "" then Resolved(data[key := JString(form[key])])
    else Resolved(data)
  }

  /** `data[key] = formData.get(key)` when the form has the field and it is non-empty. */
  function WithFilled(data: map<string, Json>, form: FormData, key: string): (r: map<string, Json>)
    ensures r.Keys == data.Keys + if FilledIn(form, key) then {key} else {}
    ensures forall k :: k in data && k != key ==> r[k] == data[k]
    ensures FilledIn(form, key) ==> r[key] == JString(form[key])
  {
    if FilledIn(form, key) then data[key := JString(form[key])] else data
  }

  /**
   * The case creation payload for the signed-in account `user`: status is
   * always "new", `officer` is the account's `_id`, `color` is sent only
   * when filled in, and no resolution is ever sent. There is no account to
   * read `_id` from when `user` is null, and the form must carry a color
   * field; both failures are TypeErrors.
   */
  function AddReportFields(form: FormData, user: Json): (r: Outcome<map<string, Json>>)
    ensures r.Rejected? <==> user == JNull || "color" !in form
    ensures r.Rejected? ==> r.reason == TypeError
    ensures r.Resolved? ==> r.value == CaseFields(form, JString("new"), Prop(user, "_id"))
                                       + if form["color"] != "" then map["color" := JString(form["color"])] else map[]
    ensures r.Resolved? ==> r.value["status"] == JString("new") && "resolution" !in r.value
    ensures r.Resolved? ==> ("officer" in r.value <==> Prop(user, "_id").Some?)
    ensures r.Resolved? ==> ("color" in r.value <==> form["color"] != "")
  {
    match Member(Some(user), "_id")
    case Rejected(f) => Rejected(f)
    case Resolved(author) => WithOptional(CaseFields(form, JString("new"), author), form, "color")
  }

  /** The account the case forms act for: `currentUser()`, then the case fields. */
  function AddReportPayload(storage: map<string, string>, json: JsonCodec, form: FormData): Outcome<map<string, Json>> {
    match CurrentUser(storage, json)
    case Rejected(f) => Rejected(f)
    case Resolved(user) => AddReportFields(form, user)
  }

  /** The request is sent only when the payload could be built. */
  function Submitted(storage: map<string, string>, verb: string, path: string,
                     payload: Outcome<map<string, Json>>, fetch: Request -> Reply): (r: Outcome<Json>)
    ensures payload.Rejected? ==> r == Rejected(payload.reason)
    ensures payload.Resolved? ==> r == Call(storage, verb, path, Some(JObject(payload.value)), fetch)
  {
    match payload
    case Rejected(f) => Rejected(f)
    case Resolved(data) => Call(storage, verb, path, Some(JObject(data)), fetch)
  }

  /** `addReportAction`: builds the payload, adding the color in place, and creates the case. */
  method AddReportAction(env: Browser, form: FormData, fetch: Request -> Reply) returns (r: Outcome<RouteResult>)
    ensures r == BaseReportCrudAction(Submitted(env.storage, "POST", "/cases", AddReportPayload(env.storage, env.json, form), fetch))
  {
    var user := CurrentUser(env.storage, env.json);
    if user.Rejected? {
      return BaseReportCrudAction(user);
    }
    var author := Member(Some(user.value), "_id");
    if author.Rejected? {
      return BaseReportCrudAction(author);
    }
    var data := CaseFields(form, JString("new"), author.value);
    var color := FormGet(form, "color");
    if color == JNull {
      return BaseReportCrudAction(Outcome<Json>.Rejected(TypeError));
    }
    if |color.s| > 0 {
      data := data["color" := color];
    }
    var created := AddCase(env, JObject(data), fetch);
    r := BaseReportCrudAction(created);
  }

  /**
   * The case update payload as written: status, the case fields and the
   * account's `_id`, then `resolution` and `color` when filled in. The
   * length of `resolution` is read without checking that the form has the
   * field, so a form without it throws a TypeError.
   */
  function UpdateReportFieldsAsWritten(form: FormData, user: Json): (r: Outcome<map<string, Json>>)
    ensures "resolution" !in form ==> r == Rejected(TypeError)
    ensures "resolution" in form ==> r == UpdateReportFields(form, user)
  {
    match Member(Some(user), "_id")
    case Rejected(f) => Rejected(f)
    case Resolved(author) =>
      match WithOptional(CaseFields(form, FormGet(form, "status"), author), form, "resolution")
      case Rejected(f) => Rejected(f)
      case Resolved(data) => WithOptional(data, form, "color")
  }

  /**
   * The case update payload as evidently intended: `resolution` is sent
   * only when the form has a filled-in resolution field, and a form without
   * one (every status but "done") is accepted.
   */
  function UpdateReportFields(form: FormData, user: Json): (r: Outcome<map<string, Json>>)
    ensures r.Rejected? <==> user == JNull || "color" !in form
    ensures r.Rejected? ==> r.reason == TypeError
    ensures r.Resolved? ==> r.value.Keys == {"status", "licenseNumber", "type", "ownerFullName", "date", "description"}
                                            + (if Prop(user, "_id").Some? then {"officer"} else {})
                                            + (if FilledIn(form, "resolution") then {"resolution"} else {})
                                            + (if form["color"] != "" then {"color"} else {})
    ensures r.Resolved? ==> r.value["status"] == FormGet(form, "status")
    ensures r.Resolved? && "officer" in r.value ==> r.value["officer"] == Prop(user, "_id").value
    ensures r.Resolved? && "resolution" in r.value ==> r.value["resolution"] == JString(form["resolution"])
    ensures r.Resolved? && "color" in r.value ==> r.value["color"] == JString(form["color"])
  {
    match Member(Some(user), "_id")
    case Rejected(f) => Rejected(f)
    case Resolved(author) =>
      WithOptional(WithFilled(CaseFields(form, FormGet(form, "status"), author), form, "resolution"), form, "color")
  }

  /** `currentUser()`, then the case update fields as written. */
  function UpdateReportPayloadAsWritten(storage: map<string, string>, json: JsonCodec, form: FormData): Outcome<map<string, Json>> {
    match CurrentUser(storage, json)
    case Rejected(f) => Rejected(f)
    case Resolved(user) => UpdateReportFieldsAsWritten(form, user)
  }

  /** `updateReportAction` as written: builds the payload, adding resolution and color in place. */
  method UpdateReportAction(env: Browser, form: FormData, id: string, fetch: Request -> Reply) returns (r: Outcome<RouteResult>)
    ensures r == BaseReportCrudAction(Submitted(env.storage, "PUT", "/cases/" + id,
                                                UpdateReportPayloadAsWritten(env.storage, env.json, form), fetch))
  {
    var user := CurrentUser(env.storage, env.json);
    if user.Rejected? {
      return BaseReportCrudAction(user);
    }
    var author := Member(Some(user.value), "_id");
    if author.Rejected? {
      return BaseReportCrudAction(author);
    }
    var data := CaseFields(form, FormGet(form, "status"), author.value);
    var resolution := FormGet(form, "resolution");
    if resolution == JNull {
      return BaseReportCrudAction(Outcome<Json>.Rejected(TypeError));
    }
    if |resolution.s| > 0 {
      data := data["resolution" := resolution];
    }
    var color := FormGet(form, "color");
    if color == JNull {
      return BaseReportCrudAction(Outcome<Json>.Rejected(TypeError));
    }
    if |color.s| > 0 {
      data := data["color" := color];
    }
    var updated := UpdateCase(env, id, JObject(data), fetch);
    r := BaseReportCrudAction(updated);
  }

  /**
   * The edit form of a case whose status is not "done" has no resolution
   * field. Submitted as written, it throws a TypeError instead of sending
   * the update; the intended payload is built and carries no resolution.
   */
  lemma UpdateWithoutResolutionFails()
    ensures var form := map["status" := "in_progress", "licenseNumber" := "LN-1", "type" := "general",
                            "ownerFullName" := "Owner", "date" := "", "color" := ""];
      var user := JObject(map["_id" := JString("u1")]);
      && UpdateReportFieldsAsWritten(form, user) == Rejected(TypeError)
      && UpdateReportFields(form, user).Resolved?
      && "resolution" !in UpdateReportFields(form, user).value
  {
    var form := map["status" := "in_progress", "licenseNumber" := "LN-1", "type" := "general",
                    "ownerFullName" := "Owner", "date" := "", "color" := ""];
    assert "resolution" !in form;
  }

  // ---------------------------------------------------------------- menus

  /**
   * The edit and delete entries of the officer and case lists are offered
   * only when the account is set and its `approved` flag is truthy.
   */
  predicate MayEditOrDelete(account: Json)
  {
    Truthy(Some(account)) && Truthy(Prop(account, "approved"))
  }

  lemma MayEditOrDeleteOnlyApproved(account: Json)
    ensures MayEditOrDelete(account) <==>
      account.JObject? && "approved" in account.fields && Truthy(Some(account.fields["approved"]))
    ensures account == JNull ==> !MayEditOrDelete(account)
  {
  }
}
