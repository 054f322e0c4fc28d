# Bike theft report console: API layer, session and routes

This project models the client core of a web console for reporting bicycle
thefts. Anyone may file a public report. Officers sign in to manage cases and
other officers.

The model covers:

- **The request gateway `api`.** It builds the request: verb, URL under the
  fixed API origin, JSON content type, and a bearer token when one is stored.
  It attaches the body only when parameters were given. It then classifies the
  reply as a success body or as a failure: an `ApiError` carrying the
  server's `error` or `message`, a TypeError, a SyntaxError, or a network
  failure. JavaScript raises the network failure as a TypeError as well; the
  model keeps it apart for readability, which changes no outcome because the
  program only ever tests for `ApiError`.
- **The session.** Two `localStorage` slots, `token` and `user`, hold it.
  `login` writes both and dispatches `auth:sign_in`. `logout` removes both and
  dispatches `auth:sign_out`. `currentUser` reads the parsed `user` slot.
- **The domain wrappers.** These are the case and officer CRUD calls, public
  reporting and registration. Each projects `data`, `officers` or a constant
  `null` out of the reply.
- **The root component's session listener.** Its account state starts as
  `currentUser()`, follows the two events, and its two callbacks are removed
  on unmount. The account context provides that state, `App.account.value`.
- **The route actions and loaders of the user, administration and public
  pages.** They cover payload shaping, the `ApiError`-to-`{ ok: false, error }`
  mapping, and redirects.

JavaScript values are modelled precisely where the program depends on them:

- `undefined` is `None`.
- Truthiness is modelled, including the empty string and the number 0.
- Reading a property of `null` or `undefined` throws a TypeError.
- `String()` conversion is what `setItem` stores.
- `new Error(undefined).message` is the empty string.

Browser facilities are a `Browser` object:

- `localStorage` is a `map<string, string>`.
- The document's listeners are a sequence, together with the log of dispatched
  events.
- `fetch` is a function parameter from the request to the reply: unreachable,
  or a response with its `ok` flag and a body that parses or not.
- JSON.stringify/JSON.parse are an opaque codec. The read-back properties
  assume it round-trips, stated as `RoundTrips`.

`currentUser` does not guard `JSON.parse` (src/lib/api.ts:41). A `user` slot
that does not parse throws a SyntaxError (`Api.CurrentUser`). The loaders,
every render of the root, and the case forms pass that failure on.

Registration posts to `/auth/sign_in`, the sign-in path. It is modelled as
written (`Api.Register`), because the real endpoint cannot be established from
the source.

## Model

| member | source | states |
|---|---|---|
| Js.Prop | src/lib/api.ts:22 | Defines a property read: a read on a non-null value is defined exactly for an object's own field, and then is that field. |
| Js.Member | src/lib/api.ts:45-48 | Defines `v.key`: it throws exactly when `v` is null or undefined; the failure is a TypeError, otherwise the result is the property. |
| Js.Str | src/lib/api.ts:45 | `String(v)` as stored by setItem: "undefined" for undefined, the string itself for a string. |
| Js.ErrorText | src/lib/api.ts:23 | Defines the message of `new ApiError(v)`: empty for undefined, the string for a string, `String(v)` otherwise. |
| Dom.FormGet | src/components/User.tsx:65 | Defines `formData.get(key)`: null exactly when the field is missing, else the field's text. |
| Dom.Without | src/App.tsx:39-40 | removeEventListener keeps every other registration and drops every matching one, never growing the list. |
| Dom.WithoutDistributes | src/App.tsx:39-40 | Removing a callback from a concatenation removes it from each part. |
| Dom.WithoutNothingRegistered | src/App.tsx:39-40 | Removing a callback that is not registered changes nothing. |
| Dom.Browser.GetItem | src/lib/api.ts:12 | Defines `localStorage.getItem`: a value exactly for a stored slot, namely its text. |
| Dom.Browser.NewHandler | src/App.tsx:30-35 | A new closure has an identity registered for neither session event. |
| Dom.Browser.AddEventListener | src/App.tsx:36-37 | A callback is appended unless already registered for that type; storage and events are unchanged. |
| Dom.Browser.RemoveEventListener | src/App.tsx:39-40 | The listeners become `Without` of the old ones. |
| Dom.Browser.DispatchEvent | src/lib/api.ts:47 | The event is logged once; every state slot holds what the last listener of the event's type on that slot stored (`Heard`); storage and listeners are unchanged. |
| Api.RequestFor | src/lib/api.ts:6-20 | Verb and `API_ENTRY + path`; Content-Type is always application/json; Authorization is present iff the stored token is present and non-empty, and then is "Bearer " + token; no other header; a body iff the params are truthy, and then exactly the params. |
| Api.BuildRequest | src/lib/api.ts:7-19 | The step-by-step assembly of the request equals `RequestFor`. |
| Api.Reason | src/lib/api.ts:23 | The failure reason is `error` when truthy, otherwise `message`. |
| Api.Classify | src/lib/api.ts:20-25 | Success iff the response is ok, the body parses to a non-null value, and its `status` is absent or "OK"; success returns the body unchanged; a parsed non-null body that fails this is an ApiError whose message is `ErrorText(Reason)`; unreachable gives a network failure, an unparsable body a SyntaxError, a null body a TypeError. |
| Api.Api | src/lib/api.ts:6-26 | The gateway settles to `Classify` of the reply to `RequestFor` built from the current token slot. |
| Api.Field | src/lib/api.ts:87 | `.then(r => r[key])` keeps a failure unchanged and projects `key` out of a success. |
| Api.Nulled | src/lib/api.ts:131 | `.then(_ => null)` keeps a failure unchanged and turns any success into null. |
| Api.PublicReport | src/lib/api.ts:86-87 | POST /public/report, projecting `data`. |
| Api.ListCases | src/lib/api.ts:89-90 | GET /cases, projecting `data`. |
| Api.GetCase | src/lib/api.ts:92-98 | GET /cases/id: a success projects `data`; every failure becomes a TypeError, because of the broken catch handler (see Findings). |
| Api.RecoverAsWritten | src/lib/api.ts:95-97 | The catch handler as written: any rejection becomes a TypeError and a success passes through; the not-found code is never reached, so it takes none. |
| Api.RecoverNotFound | src/lib/api.ts:95-97 | Corrected handler: null exactly for a reported error whose errCode is the not-found code; every other failure propagates unchanged; a success projects `data`. |
| Api.AddCase | src/lib/api.ts:112-113 | POST /cases, projecting `data`. |
| Api.UpdateCase | src/lib/api.ts:127-128 | PUT /cases/id, projecting `data`. |
| Api.RemoveCase | src/lib/api.ts:130-131 | DELETE /cases/id: a failure unchanged, any success null. |
| Api.ListOfficers | src/lib/api.ts:133-134 | GET /officers, projecting `officers`. |
| Api.Register | src/lib/api.ts:144-145 | POST /auth/sign_in, projecting `data`; no `modifies` clause, so it writes no storage and dispatches no event. |
| Api.AddOfficer | src/lib/api.ts:147-148 | POST /officers, projecting `data`. |
| Api.UpdateOfficer | src/lib/api.ts:158-159 | PUT /officers/id, projecting `data`. |
| Api.GetOfficer | src/lib/api.ts:161-166 | GET /officers/id: a success projects `data`; every failure becomes a TypeError (see Findings). |
| Api.RemoveOfficer | src/lib/api.ts:168-169 | DELETE /officers/id: a failure unchanged, any success null. |
| Api.CurrentUser | src/lib/api.ts:41 | A missing or empty `user` slot reads as null; a present, non-empty slot reads as `JSON.parse` of its text, and throws a SyntaxError exactly when that text does not parse; no other failure. |
| Api.GrantOf | src/lib/api.ts:44-45 | A failed call passes its failure on; a success fails, with a TypeError, exactly when its `data` is null or undefined; otherwise the grant is `data.token` and `data.user`, whatever kind of value `data` is (undefined for a non-object). |
| Api.SignedIn | src/lib/api.ts:45-46 | After the two writes both slots are present; the token slot holds `String(token)`; no other slot changes; under a round-tripping codec `currentUser()` is the signed-in user, or a SyntaxError when the user was undefined. |
| Api.SignedOut | src/lib/api.ts:52-53 | Both slots are gone, no token is sent, no other slot changes, and `currentUser()` is null. |
| Api.Login | src/lib/api.ts:43-49 | On a failed sign-in: the same failure, storage and event log unchanged. On success: storage is `SignedIn`, exactly one `auth:sign_in` carrying the user is logged, the user is returned, `currentUser()` equals it, and the slots agree with the last event. |
| Api.Logout | src/lib/api.ts:51-55 | Both slots removed, exactly one `auth:sign_out` logged, no request sent; `currentUser()` is null afterwards. |
| Api.SignInScenario | src/lib/api.ts:41-49 | A sign-in answered with token T1 makes `currentUser()` the user, and the next request carries `Bearer T1`. |
| Api.RejectedSignInScenario | src/lib/api.ts:22-23 | A failed sign-in reply with an `error` field rejects with that message. |
| Api.RemoveWithoutDataScenario | src/lib/api.ts:130-131 | A DELETE answered `{status: "OK"}` resolves to null. |
| Api.UnknownCaseScenario | src/lib/api.ts:92-98 | An UNKNOWN_CASE failure: as written a TypeError; corrected, null. |
| Router.CatchApiError | src/components/User.tsx:64-72 | A non-ApiError failure is rethrown unchanged; an ApiError becomes `{ ok: false, error: message }`; success gives the route's own result. |
| AppRoot.HeardAgreed | src/App.tsx:30-35 | When every listener of an event's type on a slot stores the same value, and one exists, the slot ends up holding that value. |
| AppRoot.HeardUnwatched | src/App.tsx:38-41 | A slot no listener writes keeps its value. |
| AppRoot.AccountFollowsEvents | src/App.tsx:30-35 | While the root listens, `auth:sign_in` sets the account to the event's detail and `auth:sign_out` sets it to null. |
| AppRoot.CleanupUndoesSubscribe | src/App.tsx:36-41 | Cleanup after subscribing restores exactly the listeners there were before. |
| AppRoot.CleanupSilences | src/App.tsx:38-41 | After cleanup no event changes the root's account state. |
| AppRoot.App.constructor | src/App.tsx:28 | A fresh account slot holding the initial user, not yet subscribed. |
| AppRoot.App.Subscribe | src/App.tsx:29-37 | Appends exactly the sign-in and sign-out callbacks, with new identities, on the root's account slot, and leaves the root listening. |
| AppRoot.App.Cleanup | src/App.tsx:38-41 | Removes exactly the two callbacks the root subscribed (its callback identities are unchanged) and nothing else; storage, the event log and the handler counter are untouched. |
| AppRoot.SubscribeThenCleanup | src/App.tsx:29-41 | Subscribing and then running the cleanup restores the document's listener list exactly; storage and the event log are untouched. |
| AppRoot.Mount | src/App.tsx:28 | The first render: the account state starts as `currentUser()`; a user slot that does not parse makes the render throw a SyntaxError. |
| AppRoot.App.Render | src/App.tsx:28-44 | Every later render evaluates `currentUser()` again: it throws a SyntaxError exactly when the user slot does not parse (for instance after a sign-in whose reply had no `data.user`, see `Api.SignedIn`); otherwise the context value is the account state. |
| UserRoutes.LogoutLoader | src/components/User.tsx:24-27 | Signs out (`SignedOut` storage, one `auth:sign_out` logged, every listening state slot as `Heard` of it, listeners and handler counter unchanged), then redirects to "/". |
| UserRoutes.LoginAction | src/components/User.tsx:62-73 | The sign-in outcome mapped by `CatchApiError` to a redirect to "/"; on success `SignedIn` storage, one `auth:sign_in` with the user logged and every listening state slot as `Heard` of it; on failure storage, log and state slots unchanged; listeners and handler counter unchanged. |
| UserRoutes.SessionLoader | src/components/User.tsx:75-124 | `loginLoader` (lines 75-80) and `registerLoader` (lines 119-124), which make the same decision: redirect to "/" iff `currentUser()` is non-null, otherwise null; a corrupt slot throws. |
| UserRoutes.SessionLoaderFollowsSession | src/components/User.tsx:75-80 | After a sign-in with a user the loader redirects; after sign-out it shows the page. |
| UserRoutes.RegisterFields | src/components/User.tsx:102-107 | The payload is exactly email, password, firstName and lastName, with no `approved`. |
| UserRoutes.RegisterAction | src/components/User.tsx:100-117 | The registration outcome mapped to `{ ok: false, error }` or a redirect to "/login"; it changes no state, so no session is established. |
| AdminRoutes.BaseUserCrudAction | src/components/Admin.tsx:45-57 | ApiError gives `{ ok: false, error }`, other failures are rethrown, success redirects to /admin/users. |
| AdminRoutes.BaseReportCrudAction | src/components/Admin.tsx:235-247 | The same mapping, redirecting to /admin/reports. |
| AdminRoutes.Checked | src/components/Admin.tsx:152 | `approved` is true iff the checkbox value is "on". |
| AdminRoutes.EditUserFields | src/components/Admin.tsx:148-156 | email, firstName, lastName and approved always; password iff a non-empty password was typed, and then its text. |
| AdminRoutes.EditUserAction | src/components/Admin.tsx:146-158 | PUT /officers/id with `EditUserFields`, mapped by `BaseUserCrudAction`. |
| AdminRoutes.AddUserFields | src/components/Admin.tsx:202-208 | Exactly the five fields, with approved iff the value is "on". |
| AdminRoutes.AddUserAction | src/components/Admin.tsx:200-210 | POST /officers with `AddUserFields`, mapped by `BaseUserCrudAction`. |
| AdminRoutes.DeleteUserAction | src/components/Admin.tsx:180-182 | DELETE /officers/id, mapped by `BaseUserCrudAction`. |
| AdminRoutes.DeleteReportAction | src/components/Admin.tsx:290-292 | DELETE /cases/id, mapped by `BaseReportCrudAction`. |
| AdminRoutes.CaseFields | src/components/Admin.tsx:312-320 | The common case fields, with `officer` present iff the account has an `_id`, and then equal to it. |
| AdminRoutes.WithOptional | src/components/Admin.tsx:321-323 | A field is added iff non-empty; a missing field throws a TypeError; other keys are unchanged. |
| AdminRoutes.WithFilled | src/components/Admin.tsx:381-383 | A field is added iff present and non-empty; other keys are unchanged. |
| AdminRoutes.AddReportFields | src/components/Admin.tsx:311-323 | status is always "new"; officer iff the account has an `_id`; color iff non-empty; never a resolution; a null account or missing color field is a TypeError. |
| AdminRoutes.Submitted | src/components/Admin.tsx:324 | The request is sent only when the payload was built; otherwise its failure passes on. |
| AdminRoutes.AddReportAction | src/components/Admin.tsx:309-325 | POST /cases with the payload for `currentUser()`, mapped by `BaseReportCrudAction`. |
| AdminRoutes.UpdateReportFieldsAsWritten | src/components/Admin.tsx:372-386 | As written: a form without a resolution field is a TypeError; otherwise it agrees with the corrected payload. |
| AdminRoutes.UpdateReportFields | src/components/Admin.tsx:372-386 | Corrected: the exact key set, status from the form, officer iff the account has an `_id`, resolution iff filled in, color iff non-empty; fails only for a null account or missing color field. |
| AdminRoutes.UpdateReportAction | src/components/Admin.tsx:369-388 | PUT /cases/id with the as-written payload for `currentUser()`, mapped by `BaseReportCrudAction`. |
| AdminRoutes.UpdateWithoutResolutionFails | src/components/Admin.tsx:381 | The edit form of an in-progress case throws as written; the corrected payload is built without a resolution. |
| AdminRoutes.MayEditOrDeleteOnlyApproved | src/components/Admin.tsx:115 | Edit and delete entries are offered iff the account is an object with a truthy `approved`; never to a null account. The case list uses the same rule (line 267). |
| IndexRoutes.PublicReportFields | src/components/Index.tsx:24-32 | Exactly clientId = CLIENT_ID, status "new", ownerFullName, licenseNumber, type, date and description; the date is null iff absent or empty, else the converted text; never color or resolution. |
| IndexRoutes.SendPublicReport | src/components/Index.tsx:22-42 | POST /public/report with that payload; ApiError gives `{ ok: false, error }`, other failures are rethrown, success gives `{ ok: true }`. |

## Left out

- Promise scheduling and concurrency between calls in flight. Each operation is one sequential step.
- React's deferred, batched state update. `setUser` (src/App.tsx:31,34) schedules a re-render; the model writes the state slot at once, inside the dispatch of the event.
- The text JSON.stringify produces and JSON.parse accepts. The codec is abstract, and only its round trip is used.
- The transport. `fetch` and `response.json()` are a function parameter.
- The moment/dayjs date conversion and formatting. The public form takes it as a `formatDate` parameter; the case list and views are rendering only.
- `request.formData()` reading. A form is the map of its text fields; file fields are not modelled.
- Every JSX, MUI and DataGrid component: pages, `CrudForm`, `MoreMenu`, the user menu of `UserButton`, and the error page `AppError`.
- `loadUsers`, `loadReports`, `userLoader` and `reportLoader`. Each only awaits one wrapper modelled above.
- The route table in src/index.tsx and `LinkButton` in src/components/Util.tsx. They are configuration and rendering.
- Numbers other than by their canonical text, and properties inherited through prototypes. The keys the program reads are never inherited.
- Api.GetCase: the as-written handler returns undefined when its test is false. That branch is unreachable, because the test itself throws first, so it is not modelled.
- AdminRoutes.UpdateReportAction: models the source as written, so it throws for forms without a resolution field. The corrected payload is `AdminRoutes.UpdateReportFields`.

## Findings

| source | as written | input that shows it | evidently intended | confidence | as-written member | corrected member |
|---|---|---|---|---|---|---|
| src/lib/api.ts:95-97, 164-166 | The `.catch` handlers of `getCase`/`getOfficer` call `reason.typeof(Object)`. No Error has that method, so every rejection becomes a TypeError. `ApiError` also carries no `errCode`. | A failed reply `{ errCode: "UNKNOWN_CASE" }` to GET /cases/x gives a TypeError instead of null. | A reported error with the not-found code gives null; any other failure propagates. | not executed | Api.RecoverAsWritten (shown by Api.UnknownCaseScenario) | Api.RecoverNotFound |
| src/components/Admin.tsx:381 | `updateReportAction` reads `formData.get('resolution').length` unguarded. The resolution field is only rendered for status "done" (line 421). | Saving an in-progress case (a form without `resolution`) throws a TypeError instead of sending the update. | A resolution is sent only when filled in, and is not required otherwise. | not executed | AdminRoutes.UpdateReportFieldsAsWritten (shown by AdminRoutes.UpdateWithoutResolutionFails) | AdminRoutes.UpdateReportFields |
