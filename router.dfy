/**
 * What a route action or loader hands back to the router, and the
 * try/catch pattern every action shares: a reported API error becomes
 * `{ ok: false, error }` for the form to show, anything else is thrown on.
 */
module Router {
  import opened Js

  datatype RouteResult =
    | Redirect(location: string)   // `redirect(location)`
    | ActionError(error: string)   // `{ ok: false, error }`
    | Accepted                     // `{ ok: true }`
    | NoData                       // `null`

  /**
   * `try { await step } catch (e) { if (e instanceof ApiError) return
   * { ok: false, error: e.message }; throw e } return success`.
   */
  function CatchApiError<T>(o: Outcome<T>, success: RouteResult): (r: Outcome<RouteResult>)
    requires !success.ActionError?
    ensures r.Rejected? <==> o.Rejected? && !o.reason.ApiError?
    ensures r.Rejected? ==> r.reason == o.reason
    ensures r.Resolved? && r.value.ActionError? <==> o.Rejected? && o.reason.ApiError?
    ensures r.Resolved? && r.value.ActionError? ==> r.value.error == o.reason.message
    ensures r == Resolved(success) <==> o.Resolved?
  {
    match o
    case Resolved(_) => Resolved(success)
    case Rejected(ApiError(message)) => Resolved(ActionError(message))
    case Rejected(f) => Rejected(f)
  }
}
