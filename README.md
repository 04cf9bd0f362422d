# Oz session layer of postmile-web, in Dafny

This project models `lib/session.js` of postmile-web. That file holds the session-ticket lifecycle and the Oz implicit-grant handshake that protect the web application:

- `validate` runs on every request. It checks the cookie ticket's expiry, reissues the ticket when the expiry has passed, then loads the user profile and attaches it.
- `refresh` and `set` reissue a ticket upstream. They derive its `'tos'` restriction from `ext.tos` and, when there is a request, write it to the cookie.
- `ask` (GET /oz/authorize) and `answer` (POST /oz/authorize/answer) form the two-step consent handshake. It follows the implicit grant of section 4.2 of RFC 6749: `response_type=token`, the ticket returned in the URI fragment, and an `invalid_request` error redirect.
- `session` (GET /session) issues a ticket scoped to the view client and refuses restricted ones.

The model has four modules, one per file:

- `Types` (types.dfy) holds the values: tickets, profiles, clients, queries, upstream replies, handler replies and the pending flow.
- `Uri` (uri.dfy) is a small reader for redirect URIs. It returns the fragment after the first `#`, the query after the first `?`, and the query's `&`-separated fields. It comes with round-trip lemmas: splitting '&'-free fields after joining them gives them back, and appending to a query extends its fields. The redirect strings the handlers build are checked against this reader.
- `Session` (session.dfy) holds the session store and the handlers of `lib/session.js`, modelled as written.
- `Fixes` (fixes.dfy) holds four defects of the authorize endpoint. Each is shown on the as-written model, next to a corrected definition with the intended property proved.

The model treats the outside world as follows:

- **Upstream requests.** GET /profile, POST /oz/reissue and GET /oz/app/{id} are never performed. Each handler takes the reply it receives as a parameter (`Response<T>`: a transport error, or a status code with a payload). Each handler returns, in `calls`, the upstream requests it issued, in order, with their options and credentials. So "no reissue" and "no upstream call" are statements about `calls`.
- **The clock.** `Date.now()` is the parameter `now`.
- **The terms version.** `Tos.minimumTOS` is the parameter `minimumTos`.
- **String encoders.** `QueryString.stringify` and `encodeURIComponent` are function parameters. The proofs only say where their output is placed.
- **The session store.** The class `SessionStore` has the cookie's ticket slot, a log of every write and clear of that slot, and the `'oz'` slot of the session bag.
- **Replies.** Boom errors, views, redirects and ticket replies become the `Reply` datatype. `Crash` stands for an uncaught TypeError: a property read or write on a null upstream payload.
- **JavaScript truthiness.** An absent string and the empty string are both falsy (`Truthy`). An absent `ext.tos` is never below the minimum, because `undefined < n` is false.

The model follows the code as written. The authorize endpoint has four findings below: three branches that read against the code's own evidence of intent, listed here, and an error redirect (line 168) that drops the callback's own query, argued from section 3.1.2 of RFC 6749:

- Line 113 refuses a request *with* a `client_id`. The branch's own comment (line 115, "Missing client identifier") and the id placed into the lookup path (line 125) show it was meant to refuse a request *without* one.
- Line 161 sets `untrustedClient` when the client *has* a pre-registered callback. The variable's name shows the warning was meant for a target that came from the request.
- Lines 173-176 replace the whole pending-flow record by the bare state string when a state is supplied. `answer` reads `ozSession.state` (line 211), so the record was meant to carry the state next to the client and the redirection URI.

Other behaviour the model keeps as the code has it:

- `validate` calls `refresh` with a null request, so a rejected reissue during validation neither clears nor writes the cookie. The cookie strategy is configured with `clearInvalid: true` (lib/index.js:49), so the framework clears a cookie whose validation reports any error; that wiring is outside the model.
- `refresh` and `set` reject only a null reissued ticket; the fields of a non-null ticket are not checked.
- `refresh` clears the cookie's ticket slot on a non-200 reply when it has a request, and touches nothing else on its other failures.

The error redirect for a bad `response_type` puts its fields in the query string, as the code does. Section 4.2.2.1 of RFC 6749 puts implicit-grant errors in the fragment. The model keeps the code's choice.

## Model

| member | source | states |
|---|---|---|
| `Session.SessionStore.SetTicket` | lib/session.js:100 | the ticket slot holds the ticket; one write is logged; the 'oz' slot is untouched |
| `Session.SessionStore.ClearTicket` | lib/session.js:73 | the ticket slot is emptied; one clear is logged; the 'oz' slot is untouched |
| `Session.SessionStore.SetOz` | lib/session.js:178 | the 'oz' slot holds the pending value; the ticket slot and its log are untouched |
| `Session.SessionStore.TakeOz` | lib/session.js:193 | returns the old 'oz' value and leaves the slot empty in the same step |
| `Session.RestrictionRecomputed` | lib/session.js:97 | the restriction a reissued ticket arrives with is ignored; the stored one is recomputed from `ext` |
| `Session.RestrictionMonotone` | lib/session.js:97 | raising the minimum terms version never lifts a restriction |
| `Session.WithRestriction` | lib/session.js:97 | the ticket's restriction field is the one derived from its `ext`; no other field changes |
| `Session.Attach` | lib/session.js:32-33 | the profile is attached; its view is kept when truthy and is '/view/' otherwise; nothing else in the credentials changes |
| `Session.LoadProfile` | lib/session.js:20-37 | exactly one profile fetch, with the given credentials; success iff the reply is 200 with a non-null payload; every failure is the internal error 'Failed loading profile' |
| `Session.Set` | lib/session.js:91-104 | a null ticket gives (false, null) and no write; otherwise the returned restriction is the one written on the ticket, and the ticket is written to the store exactly once, only when there is a request |
| `Session.Refresh` | lib/session.js:59-88 | a missing session fails before any upstream call; otherwise one reissue with null options; a transport error is an internal error with no clear; a non-200 reply gives badRequest with the upstream message and clears the slot only with a request; success iff 200 with a ticket, which comes back with its restriction set and stored |
| `Session.Validate` | lib/session.js:16-56 | a live expiry gives no reissue and a profile fetch with the cookie ticket; otherwise exactly one reissue (null options, no store) precedes the fetch; a failed reissue gives 'Failed refreshing session' and no fetch; a failed profile load after a live or reissued ticket gives 'Failed loading profile'; success iff the ticket was live or reissued and the profile loaded, and the result is the last fetch's credentials with the profile attached |
| `Session.Screen` | lib/session.js:125-169 | accepts iff the lookup delivered a client, exactly one of callback and redirect_uri is set, and response_type is 'token'; the redirection URI is the callback when set, else redirect_uri; a redirect happens only after a delivered lookup with one target and a bad response_type, and goes to the invalid_request URI; a delivered client with both a callback and a redirect_uri gives the internal error 'Client request includes a redirection URI for a pre-configured callback client', and one with neither gives 'Client missing callback'; a 404 with a body gives the 'unknown' view; a transport error, a null client or another code gives 'Unexpected API response' |
| `Session.InvalidRequestRedirectFields` | lib/session.js:168 | for a redirection URI without query or fragment, the error redirect has no fragment, and its query's fields are error=invalid_request, the error description, then state=<encoded state> only when a state was supplied |
| `Session.FragmentRedirectCarriesPayload` | lib/session.js:215 | for a fragment-free redirection URI, the stringified ticket is exactly the redirect's fragment and the query is unchanged |
| `Session.WithState` | lib/session.js:211-213 | the ticket's state becomes the flow's state when it is truthy; no other field changes |
| `Session.Ask` | lib/session.js:109-188 | with a truthy client_id: the code-500 error view and no lookup; otherwise one lookup of /oz/app/<id>; the early replies are those of the screen, and none writes the 'oz' slot; the consent view appears iff the screen accepts; it stores the bare state when one is supplied, else {client, redirection}; its warning is whether the client has a callback; the ticket slot is never touched |
| `Session.Answer` | lib/session.js:191-217 | the 'oz' slot is always left empty; without a flow record: a redirect to '/' and no upstream call; otherwise one reissue to the flow's client with empty scope; a transport error or non-200 gives an internal error; on 200 the redirect is the flow's redirection, '#', and the stringified ticket, with the flow's state attached when it has one |
| `Session.AnswerIsOneShot` | lib/session.js:193-198 | after any answer, a second answer on the same session redirects to '/' with no upstream call |
| `Session.SessionEndpoint` | lib/session.js:220-239 | one reissue to the view client with empty scope; a transport error or non-200 gives 'Failed refresh'; a ticket is returned iff one was delivered and it is not restricted, and then unchanged; a restricted one gives badRequest 'Restricted session' |
| `Fixes.NamedClientNeverGranted` | lib/session.js:113-123 | as written, a request naming its client gets the error view with no lookup, and the answer that follows lands on '/' with no reissue |
| `Fixes.WarningMarksTrustedClient` | lib/session.js:161 | as written, the consent warning is raised iff the client has a pre-registered callback, that is, iff the target did not come from the request |
| `Fixes.StatefulFlowStranded` | lib/session.js:173-178 | as written, an accepted request with a state shows consent, yet the answer that follows lands on '/' with no reissue |
| `Fixes.ErrorFieldLostBehindQuery` | lib/session.js:168 | as written, for a callback whose query is one field and no state, the error redirect's query fields are '<query>?error=invalid_request' and the description, so no field reads error=invalid_request |
| `Fixes.CorrectedRedirectKeepsQuery` | lib/session.js:168 | the corrected error redirect keeps every field of the callback's query and appends the error fields and the echoed state |
| `Fixes.AskCorrected` | lib/session.js:109-188 | without a client_id: the error view and no lookup; with one: one lookup of /oz/app/<id>; the consent view iff the screen accepts, storing {client, redirection, state}; the warning is whether redirect_uri came from the request |
| `Fixes.GrantRoundTrip` | lib/session.js:173-215 | corrected ask then answer on a fresh session: one lookup and one reissue to the client; the ticket with the supplied state is the redirect's fragment and is absent from its query; a second answer lands on '/' |

## Findings

| source | as written | input that shows it | evidently intended | confidence | as-written member | corrected member |
|---|---|---|---|---|---|---|
| lib/session.js:113 | refuses the request when `client_id` is truthy; otherwise looks up `/oz/app/undefined` when it is absent, or `/oz/app/` when it is empty | `client_id=c1` | refuse when `client_id` is absent; look up the named client | high, not executed | `Fixes.NamedClientNeverGranted` | `Fixes.AskCorrected` |
| lib/session.js:161 | `warning` is true when the client has a pre-registered callback | no `client_id`, a client with callback `https://app.example/cb` and no `redirect_uri` | warn when the redirection target came from the request | medium, not executed | `Fixes.WarningMarksTrustedClient` | `Fixes.AskCorrected` |
| lib/session.js:173-176 | a supplied `state` replaces the whole pending-flow record, so `answer` finds no client | `state=xyz`, `response_type=token` | keep the state inside the record `{client, redirection, state}` | high, not executed | `Fixes.StatefulFlowStranded` | `Fixes.GrantRoundTrip` |
| lib/session.js:168 | the error fields are appended after a second `?` when the callback already has a query | callback `https://app.example/cb?x=1`, `response_type=code` | append the fields with `&` so the client can read `error` (section 3.1.2 of RFC 6749 keeps the existing query) | medium, not executed | `Fixes.ErrorFieldLostBehindQuery` | `Fixes.CorrectedRedirectKeepsQuery` |

`Fixes.AskCorrected` still builds its error redirect through `Session.Screen` as written. The corrected separator is proved for the redirect function `Fixes.InvalidRequestRedirectCorrected` on its own.

## Left out

- lib/index.js is not part of this model. That covers plugin registration, the 'try' cookie strategy and its options, the view engine, static routes and the `onPreResponse` error-page mapping (404 or 500). It is framework wiring with no decision of the core.
- The commented-out user-agent check in lib/index.js is dead code.
- The `./api` client and the remote endpoints are network I/O. Their replies are parameters, and only the requests issued are recorded.
- `./tos` is not part of this model. The minimum terms version is the parameter `minimumTos`.
- `QueryString.stringify` and `encodeURIComponent` are function parameters. `stringify(null)` is the empty string, as in Node.
- Cookie encryption and transport (yar, hapi-auth-cookie), the data argument of each Boom error, and Jade rendering are left out. Errors keep only their kind and message; views keep only their locals.
- Callbacks and continuations are left out. Each handler is one sequential method; the file has no concurrency.
- The in-place field writes on credentials and tickets (`profile`, `view`, `restriction`, `state`) become updated values that the handler returns. Aliasing is not captured: on the live path of `validate`, the attached profile also lands on the cookie's own session object.
- Session.Refresh: a non-200 reply whose body is null makes `ticket.message` throw. The model instead returns badRequest with the reply's message, which is absent.
- Session.Set: a ticket without an `ext` record makes `ticket.ext.tos` throw. The model's tickets always carry `ext`.
- Session.Screen: on an error reply, the body is read only for null-ness, as the source reads it. A 404 with a non-null body gives the 'unknown' view whatever that body holds.
- Session.Validate: `now` is a natural number, so a zero or absent expiry is never live. This matches the truthiness test on `session.exp`.
- Session.Validate: inherits the gap of `Session.Refresh`. When the reissue answers non-200 with a null body, the source throws inside the refresh callback (line 76), while the model returns 'Failed refreshing session'.
