/**
 * The public theft report form: anyone may report, without an account.
 * The payload carries the client's identifier and the status "new"; the
 * date picker's text is converted by the date library, handed in here as
 * `formatDate`.
 */
module IndexRoutes {
  import opened Js
  import opened Dom
  import opened Api
  import opened Router

  /**
   * The public report payload. A date is converted only when the field is
   * present and non-empty, and is null otherwise; the form's color field is
   * never sent, nor is a resolution.
   */
  function PublicReportFields(form: FormData, formatDate: string -> string): (r: map<string, Json>)
    ensures r.Keys == {"clientId", "ownerFullName", "status", "licenseNumber", "type", "date", "description"}
    ensures "color" !in r && "resolution" !in r
    ensures r["clientId"] == JString(ClientId) && r["status"] == JString("new")
    ensures r["ownerFullName"] == FormGet(form, "ownerFullName") && r["licenseNumber"] == FormGet(form, "licenseNumber")
    ensures r["type"] == FormGet(form, "type") && r["description"] == FormGet(form, "description")
    ensures r["date"] == JNull <==> "date" !in form || form["date"] == ""
    ensures r["date"] != JNull ==> r["date"] == JString(formatDate(form["date"]))
  {
    var date := FormGet(form, "date");
    map["clientId" := JString(ClientId),
        "ownerFullName" := FormGet(form, "ownerFullName"),
        "status" := JString("new"),
        "licenseNumber" := FormGet(form, "licenseNumber"),
        "type" := FormGet(form, "type"),
        "date" := if Truthy(Some(date)) then JString(formatDate(date.s)) else JNull,
        "description" := FormGet(form, "description")]
  }

  /**
   * `sendPublicReport`: a reported error is shown on the form, any other
   * failure is thrown on, and success answers `{ ok: true }`.
   */
  method SendPublicReport(env: Browser, form: FormData, formatDate: string -> string, fetch: Request -> Reply)
    returns (r: Outcome<RouteResult>)
    ensures r == CatchApiError(Call(env.storage, "POST", "/public/report", Some(JObject(PublicReportFields(form, formatDate))), fetch),
                               Accepted)
  {
    var report := PublicReport(env, JObject(PublicReportFields(form, formatDate)), fetch);
    r := CatchApiError(report, Accepted);
  }
}
