# Real-estate front end: e-mail session store and fetch interceptor

This project models the two pieces of logic in the real-estate web front end.

- **`EmailAuthService`** is the browser session store for e-mail/password logins. It holds a token, an e-mail and an expiry time in memory. It mirrors them into two storage tiers:
  - `sessionStorage` lives as long as the tab and has no expiry;
  - `localStorage` holds `auth_token` and `auth_expiry` for "remember me", and `auth_email`, which every login writes, with or without "remember me".

  It logs in, registers, logs out, verifies sessions, looks up the caller's principal and handles password resets. All of these go through a remote auth service that may fail.
- **`setupApiInterceptor`** wraps `window.fetch`. It rewrites the first `/api/v3/` of a string URL to `/api/v2/`. It turns a bodied request whose method is missing, `GET` or `HEAD` into a `POST`.

Files:

- `js_values.dfy` (module `JsValues`) holds the JavaScript values the code relies on:
  - nullable strings and their truthiness (`""` is falsy);
  - numbers that may be NaN;
  - the decimal text that `toString` writes and `parseInt` reads back.
- `email_auth.dfy` (module `EmailAuth`) has two layers:
  - the whole service state as a value (`AuthState`), with pure functions for each storage operation (`LookupToken`, `StoreToken`, `Cleared`, `Initial`);
  - the class `EmailAuthService`, whose fields are the three in-memory fields and the two storage tiers, and whose methods are proved to produce exactly those functions' results.
- `api_interceptor.dfy` (module `ApiInterceptor`) has `String.prototype.indexOf`/`includes`/`replace` as functions, the method fix, and the wrapper. The wrapper is the class `PatchedFetch`. It mutates the caller's `RequestInit` object and records each call it forwards to the original fetch.

Modelling choices:

- The clock (`Date.now()`) is a parameter `now`.
- The remote auth service is an oracle, `AuthActor`. It is a record of functions, one per endpoint, and each returns `Ok(value)` or `Err` (a rejected promise). An auth client that could not be created is an actor whose every reply is `Err`. In the code, `await this.ensureAuth()` then throws inside the same `try` block before any endpoint is called, so the caller sees the same outcome as for a rejected call.
- Each service method appends the remote calls it attempts to a ghost log `requests`. This is how the model states which remote calls are attempted, for example that `logout` and `getPrincipalId` attempt none without a token. An attempted call reaches the service only when the client was created.
- The storage tiers are `map<string, string>`. `getItem` of a missing key is `None`.

## Behaviour of the code worth knowing

- A remembered login lasts 30 days (`2592000000` ms).
- The durable token is evicted only when `now > expiry`. It is therefore still returned at `now == expiry`, one millisecond longer than "valid while `now < expiry`" would allow.
- An `auth_expiry` that `parseInt` cannot read (text in which no decimal digit follows the leading white space and the optional sign, such as `abc` or `-`) never expires. `Date.now() > NaN` is false, so the durable token is returned for ever (`GarbageExpiryNeverExpires`).
- `auth_email` is written to localStorage on every login, also without "remember me". The constructor restores it from there. So after a remembered login by one user and a later tab-only login by another, a new tab restores the first user's token under the second user's e-mail (`TokenEmailMismatch`).
- `isAuthenticated()` tests only that the in-memory token is truthy. It never looks at the expiry.
- A login without "remember me" leaves `expiryTime` and any older durable token and expiry untouched. So "token present ⇔ expiry present" is not an invariant of the code.
- The principal is fetched on every `getPrincipalId()` call. It is never cached, and there is no guard against a result arriving after a logout.

## Model

| member | source | states |
|---|---|---|
| `JsValues.ParseInt` | src/real_estate_app_frontend/src/services/EmailAuthService.js:74-76 | an empty string, or one that starts with neither a digit nor a sign, reads as NaN; a string made only of decimal digits reads as their value |
| `JsValues.IntToString` | src/real_estate_app_frontend/src/services/EmailAuthService.js:131 | a non-negative integer is written as decimal digits whose value is that integer; a negative one as `-` followed by the digits of its magnitude; no leading zero, after the sign either; never empty |
| `JsValues.ParseIntOfIntToString` | src/real_estate_app_frontend/src/services/EmailAuthService.js:112-131 | the expiry written with `toString()` is read back by `parseInt` as the same integer, for every integer |
| `EmailAuth.Cleared` | src/real_estate_app_frontend/src/services/EmailAuthService.js:140-148 | clearing removes exactly `auth_token` from session storage and `auth_token`, `auth_email`, `auth_expiry` from local storage; every other key keeps its value; fields become null/null/0; the result is not authenticated |
| `EmailAuth.LookupToken` | src/real_estate_app_frontend/src/services/EmailAuthService.js:100-120 | a truthy session token is returned and local storage is not consulted; otherwise the durable token is returned exactly while token and expiry are both present and `now` is not past the expiry; an expired durable record leaves the cleared state, any other lookup changes nothing; a returned token is never empty |
| `EmailAuth.StoreToken` | src/real_estate_app_frontend/src/services/EmailAuthService.js:122-138 | with remember, local storage gets token, e-mail and an expiry that reads back as `now + 2592000000`, `expiryTime` becomes that value, and session storage is unchanged; without remember, only session storage gets the token and local storage gets the e-mail, while the durable token, expiry and `expiryTime` stay; fields hold token and e-mail; no other key changes |
| `EmailAuth.Initial` | src/real_estate_app_frontend/src/services/EmailAuthService.js:71-77 | a new service is authenticated exactly when there is a session token or a live durable one; the token restored is the session token if truthy, else the live durable token, else null; an expired durable record with no session token is purged and nothing is restored; otherwise storage is as found, `email` is the truthy stored e-mail (else null) and `expiryTime` is `parseInt` of a truthy stored expiry (else 0) |
| `EmailAuth.RememberedTokenLifetime` | src/real_estate_app_frontend/src/services/EmailAuthService.js:109-132 | in a tab without a session token, a remembered token is returned up to and including `now + 30 days` with nothing changed, and from the next millisecond on the lookup returns null and leaves the cleared state |
| `EmailAuth.ReloadAfterRemember` | src/real_estate_app_frontend/src/services/EmailAuthService.js:71-132 | reloading after a remembered login restores token, e-mail and expiry until the expiry instant; after it the service starts unauthenticated, with `email` null, `expiryTime` 0 and the three durable keys gone |
| `EmailAuth.SessionLoginStaysInTab` | src/real_estate_app_frontend/src/services/EmailAuthService.js:71-73 | while the durable record is not expired, a login without remember does not change the token a new tab finds, by lookup or by a new service; the new service's e-mail is the one just logged in with (null if empty) |
| `EmailAuth.TokenEmailMismatch` | src/real_estate_app_frontend/src/services/EmailAuthService.js:126-136 | after a remembered login by A and a tab-only login by B, a new tab within the 30 days restores A's token with B's e-mail |
| `EmailAuth.GarbageExpiryNeverExpires` | src/real_estate_app_frontend/src/services/EmailAuthService.js:106-116 | with no session token and a durable token whose expiry reads as NaN, the lookup returns the durable token and changes nothing, at every instant, and a new service is authenticated |
| `EmailAuth.LookupIdempotent` | src/real_estate_app_frontend/src/services/EmailAuthService.js:110-116 | a second lookup at the same instant returns the same token and changes nothing further |
| `EmailAuth.EmailAuthService.constructor` | src/real_estate_app_frontend/src/services/EmailAuthService.js:71-77 | the new object's state is `Initial` of the storage it finds, and no remote call has been made |
| `EmailAuth.EmailAuthService.GetStoredToken` | src/real_estate_app_frontend/src/services/EmailAuthService.js:100-120 | the returned token and the new state are exactly `LookupToken` of the old state; no remote call |
| `EmailAuth.EmailAuthService.SetStoredToken` | src/real_estate_app_frontend/src/services/EmailAuthService.js:122-138 | the new state is exactly `StoreToken` of the old one; no remote call |
| `EmailAuth.EmailAuthService.ClearStoredTokens` | src/real_estate_app_frontend/src/services/EmailAuthService.js:140-148 | the new state is exactly `Cleared` of the old one; no remote call |
| `EmailAuth.EmailAuthService.IsAuthenticated` | src/real_estate_app_frontend/src/services/EmailAuthService.js:150-152 | true exactly when the in-memory token is a non-empty string; the expiry is not consulted |
| `EmailAuth.EmailAuthService.CheckAuthentication` | src/real_estate_app_frontend/src/services/EmailAuthService.js:154-170 | true exactly when there is a token and the service answers `true`; with no token, nothing changes and no call is attempted; a valid answer changes nothing; `false`, or an error, attempts a logout and leaves the cleared state |
| `EmailAuth.EmailAuthService.Register` | src/real_estate_app_frontend/src/services/EmailAuthService.js:172-184 | succeeds exactly when registration answers `true` and the following login returns a token; then the token is stored without remember; otherwise nothing changes; login is called only after a successful registration |
| `EmailAuth.EmailAuthService.Login` | src/real_estate_app_frontend/src/services/EmailAuthService.js:186-199 | true exactly when the service answers a non-empty option; then the state is that token stored with the given remember flag; an empty option or an error leaves the state unchanged |
| `EmailAuth.EmailAuthService.Logout` | src/real_estate_app_frontend/src/services/EmailAuthService.js:201-212 | whatever the remote answer, the state becomes `Cleared` of the old one and is not authenticated; a remote logout is attempted only when there was a token |
| `EmailAuth.EmailAuthService.GetPrincipalId` | src/real_estate_app_frontend/src/services/EmailAuthService.js:223-235 | without a token, `'Not authenticated'` and no remote call; with one, a single attempted principal call and either its answer or `'Error retrieving principal'` on error; the session state is not touched |
| `EmailAuth.EmailAuthService.RequestPasswordReset` | src/real_estate_app_frontend/src/services/EmailAuthService.js:237-246 | the service's answer, or false on error; one call is attempted; the session state is not touched |
| `EmailAuth.EmailAuthService.ResetPassword` | src/real_estate_app_frontend/src/services/EmailAuthService.js:248-257 | the service's answer, or false on error; one call is attempted; the session state is not touched |
| `EmailAuth.EmailAuthService.GetUserProfile` | src/real_estate_app_frontend/src/services/EmailAuthService.js:260-277 | a profile exactly when the token is truthy, and its e-mail is the stored e-mail |
| `ApiInterceptor.IndexOf` | src/real_estate_app_frontend/src/apiInterceptor.js:7-9 | the result is -1 when the pattern does not occur; otherwise it is an occurrence with no earlier one |
| `ApiInterceptor.Includes` | src/real_estate_app_frontend/src/apiInterceptor.js:7 | true exactly when the pattern occurs somewhere |
| `ApiInterceptor.ReplaceFirst` | src/real_estate_app_frontend/src/apiInterceptor.js:9 | without an occurrence the string is unchanged; with one, its first occurrence is replaced and the length changes by the difference |
| `ApiInterceptor.RewriteInput` | src/real_estate_app_frontend/src/apiInterceptor.js:7-10 | a non-string input, or a string without `/api/v3/`, is unchanged; otherwise the result has the same length, and the text before the first `/api/v3/` and after it is kept with `/api/v2/` in its place |
| `ApiInterceptor.FixedMethod` | src/real_estate_app_frontend/src/apiInterceptor.js:13-18 | a request with a truthy body whose method is missing, empty, `GET` or `HEAD` becomes `POST`; any other method is unchanged; the fixed request never needs fixing again |
| `ApiInterceptor.RewriteUndone` | src/real_estate_app_frontend/src/apiInterceptor.js:7-10 | for a URL holding `/api/v3/` and no `/api/v2/`, replacing the first `/api/v2/` of the result back gives the original URL: the rewrite loses nothing |
| `ApiInterceptor.NoEarlierNewSegment` | src/real_estate_app_frontend/src/apiInterceptor.js:9 | in a rewritten URL that had no `/api/v2/`, no `/api/v2/` starts before the inserted one |
| `ApiInterceptor.PatchedFetch.constructor` | src/real_estate_app_frontend/src/apiInterceptor.js:2-5 | installing the wrapper forwards nothing yet |
| `ApiInterceptor.PatchedFetch.Fetch` | src/real_estate_app_frontend/src/apiInterceptor.js:5-21 | each call forwards exactly one call to the original fetch, with the rewritten input and the caller's own `init` object; in `init` only the method changes, as `FixedMethod` says; the body is unchanged |

## Left out

- Creating the remote client is not modelled: the dynamic import of the declarations, `HttpAgent`, `fetchRootKey` and the candid interface (EmailAuthService.js:4-67). It is foreign-library and network plumbing. The remote service is the `AuthActor` oracle.
- `initAuth`/`ensureAuth` and their promise handling are not modelled (EmailAuthService.js:82-97). Every operation runs to completion before the next one begins, so interleavings of concurrent calls are not modelled. A client that fails to initialise is an actor that answers `Err`. The log `requests` then still records the call as attempted, although in the code `ensureAuth` throws before any endpoint is called and nothing leaves the browser.
- EmailAuth.EmailAuthService.CheckAuthentication: the source starts `logout()` without awaiting it. The model lets that logout finish before the result is returned, so the short window in which `false` has been returned but the state is not yet cleared is not captured.
- The remote service's own state is not modelled. Each operation receives the answers the service gives during that operation. Answers may differ between operations because the caller passes a new oracle each time.
- `getEmail` and `getToken` (EmailAuthService.js:214-220) are plain field reads. The model's fields are public, so they have no separate members.
- EmailAuth.EmailAuthService.GetUserProfile: the `lastLogin` timestamp from `new Date().toISOString()` is clock output and is left out. Its `catch` branch cannot be reached once there is no clock call.
- Throwing storage is not modelled: storage that is disabled or full, or `setItem` raising. The two tiers are plain maps owned by the service, so another script writing to them between operations is not modelled.
- All `console.*` logging is dropped.
- JsValues.ParseInt: leading whitespace and the `0x` hexadecimal prefix that `parseInt` also accepts are not modelled. The service never writes such values.
- JsValues.IntToString: numbers are unbounded integers. The loss of precision above 2^53 and the exponent notation that `toString` uses from 10^21 on are not modelled, because timestamps stay far below both.
- ApiInterceptor.ReplaceFirst: replacement patterns such as `$&` are not modelled. The only replacement used, `/api/v2/`, has none.
- ApiInterceptor.PatchedFetch.Fetch: the original fetch and the response it returns are not modelled. The model records the call it receives. Headers and the other request options are not modelled.
- The duplicate fetch patch and the Vue bootstrap in `src/real_estate_app_frontend/src/main.js` are left out. They are global side effects and UI.
- `AuthService.js` (delegated Internet Identity login through `@dfinity/auth-client`), `vite.config.js` (build configuration) and `canisterConnection.js` (actor creation) are not part of this model. They are library calls, redirects and I/O.
