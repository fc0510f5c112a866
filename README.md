# Invokta billing portal: authentication context and business setup, in Dafny

This project models two parts of the portal's client.

The **authentication context** (`src/contexts/AuthContext.jsx`) owns the
browser session. That session has three parts:
- the persisted `localStorage` keys `token`, `refreshToken` and `authData`;
- the in-memory user and auth data;
- the `loading` flag, the `error` slot and the remembered `preAuthPath`.

These operations change the session, and each can navigate or call the
remote auth service:
- `logout` and `refreshToken`;
- start-up restoration (`initAuth` with `updateAuthState`);
- the shared `handleAuthResponse`;
- `login`, `register`, `loginWithGoogle` and `handleGoogleAuth`.

The **business-setup page** (`src/pages/BusinessSetupPage.jsx`) collects a
business profile and has these parts:
- the validation rules for phone and state;
- the payload and the classification of submit failures;
- the postal-code auto-fill, with its pincode length gate,
  whitespace-stripping, hard-coded UAE table, the external lookup and the
  case-insensitive country and state matcher;
- the country preselected from the visitor's geolocation;
- the country selector.

## Layout

- `js_runtime.dfy` (`JsRuntime`) holds the JavaScript values the model needs:
  - `undefined` as `None`;
  - the truthiness of a string;
  - `a || b`;
  - `localStorage.setItem` writing `"undefined"` for a missing value;
  - a thrown error with its optional HTTP `response` and its `request` flag.
- `js_strings.dfy` (`JsStrings`) holds the string built-ins: ASCII
  `toLowerCase`/`toUpperCase`, `includes` (proved equal to "occurs at some
  position"), and `replace(/\s/g, '')`.
- `auth_session.dfy` (`AuthSession`) is the session as a value.
  - Each context operation is a transition function. It returns the new
    state and, where the operation returns or throws, its outcome.
  - The properties of those transitions are lemmas.
- `auth_provider.dfy` (`AuthContext`) is the `AuthProvider` class.
  - Its fields are the session.
  - Its methods perform each operation's writes in the source's order, and
    each method is proved to reach the state its transition describes.
- `business_rules.dfy` (`BusinessRules`) holds the page's pure rules and
  their lemmas.
- `business_setup_form.dfy` (`BusinessSetupPage`) is the
  `BusinessSetupForm` class. Its fields are the form values and the page's
  state. Its handlers are proved against the rules.

Where the outside world answers (the auth service, the postal-code lookup
service, the geolocation service, the business endpoint), the answer is a
parameter of the operation. The clock (`Date.now()`) is a parameter too.
The libraries the context calls are function-valued parameters (the
`Codecs` record), and so is `api.clearAuthTokens`:
- `jwt_decode`;
- `JSON.parse` and `JSON.stringify`;
- `decodeURIComponent`.

The static `countries` list and `countryStates` object are parameters as
well. `countryStates` is an ordered sequence of entries, because
`Object.keys` order decides which key the fuzzy matcher finds first.
Navigation and remote requests are append-only logs.

## Model

| member | source | states |
|---|---|---|
| AuthContext.AuthProvider.constructor | src/contexts/AuthContext.jsx:8-12 | on mount: no user and no auth data, `loading` set, no error, the persisted store and remembered path kept |
| AuthContext.AuthProvider.Logout | src/contexts/AuthContext.jsx:270-277 | removes the three keys one by one, clears the user and auth data, navigates to /login; ends in `AuthSession.Logout` of the old state |
| AuthContext.AuthProvider.RefreshToken | src/contexts/AuthContext.jsx:105-125 | reads the stored refresh token, sends it as `X-Refresh-Token`, stores the new access token, and the new refresh token only when one came back; logs out and rethrows on any failure |
| AuthContext.AuthProvider.UpdateAuthState | src/contexts/AuthContext.jsx:152-165 | decodes the token into the user, then parses the stored auth data when present; a decode or parse failure logs out, which also clears the user; ends in `AuthSession.UpdateAuthState` of the old state |
| AuthContext.AuthProvider.InitAuth | src/contexts/AuthContext.jsx:128-146 | with a stored token: refreshes it first when expired, then updates the auth state; a failed refresh is swallowed; `loading` ends false |
| AuthContext.AuthProvider.HandleAuthResponse | src/contexts/AuthContext.jsx:168-190 | writes token and auth data; takes `invoktaAuthentication.refreshToken` only; decodes; routes to business setup or to the remembered path or dashboard, consuming the path; a decode failure throws after the writes |
| AuthContext.AuthProvider.Login | src/contexts/AuthContext.jsx:193-205 | clears the error, sends the credentials, hands the response to `handleAuthResponse`; on a failure sets the server message or "Login failed" and rethrows; `loading` ends false |
| AuthContext.AuthProvider.LoginWithGoogle | src/contexts/AuthContext.jsx:210-246 | decodes and parses the payload, stores the tokens, takes the user from `userDetails` or the token, routes to business setup only without businesses; a missing payload throws "Invalid auth response format"; a failure sets the error's message or "Google login failed" |
| AuthContext.AuthProvider.Register | src/contexts/AuthContext.jsx:249-267 | clears auth tokens through the service first, sends the details, handles the response only when it carries an access token; a failure sets the server message or "Registration failed" |
| AuthContext.AuthProvider.HandleGoogleAuth | src/contexts/AuthContext.jsx:31-102 | rejects a missing payload or one without an access token; stores the access token and the top-level refresh token; sets the user and auth data; any failure sets "Failed to process authentication" and rethrows; `loading` ends false |
| AuthContext.LogoutTwice | src/contexts/AuthContext.jsx:270-277 | two logouts leave the session one logout leaves |
| AuthContext.RestoreExpiredSession | src/contexts/AuthContext.jsx:128-146 | an expired stored token with a stored refresh token is refreshed, the new token is stored and decoded into the user, the refresh token is kept, one request is sent, nothing is navigated, loading is over |
| AuthSession.HasBusinessDetails | src/contexts/AuthContext.jsx:16-18 | true exactly for a user with a non-empty business list: false without a list or with an empty one |
| AuthSession.IsTokenExpired | src/contexts/AuthContext.jsx:21-28 | an undecodable token is expired; one without `exp` never expires; an expired decodable token has `exp * 1000 < now` |
| AuthSession.Logout | src/contexts/AuthContext.jsx:270-277 | no auth key is left, no user, no auth data, and /login is appended to the navigations |
| AuthSession.RefreshToken | src/contexts/AuthContext.jsx:105-125 | a failure leaves no auth key and no user; a success has stored the returned token with a refresh token still present; at most one request, carrying the stored refresh token |
| AuthSession.UpdateAuthState | src/contexts/AuthContext.jsx:152-165 | a signed-in user is the decoded token's claims; a missing user means logged out; no request, and path and loading untouched |
| AuthSession.InitAuth | src/contexts/AuthContext.jsx:128-146 | `loading` ends false; the error slot and the remembered path are untouched |
| AuthSession.HandleAuthResponse | src/contexts/AuthContext.jsx:168-190 | succeeds exactly when the token decodes, and then navigates exactly once; the token is stored either way; no request, loading and error untouched |
| AuthSession.Login | src/contexts/AuthContext.jsx:193-205 | `loading` ends false; the credentials request is appended; the error slot is set exactly when the login fails |
| AuthSession.LoginWithGoogle | src/contexts/AuthContext.jsx:210-246 | `loading` ends false, no request; on success the user is the returned claims with no error; the error slot is set exactly on failure |
| AuthSession.Register | src/contexts/AuthContext.jsx:249-267 | `loading` ends false; the registration request is appended; the error slot is set exactly when registration fails |
| AuthSession.HandleGoogleAuth | src/contexts/AuthContext.jsx:31-102 | `loading` ends false, no navigation, no request; the fixed error on failure, the error slot untouched on success; the user is the returned claims |
| AuthSession.UpdateAuthStateOutcome | src/contexts/AuthContext.jsx:152-165 | decode failure: exactly the logged-out state; decoded without stored data: only the user set; with parsed data: user and auth data set; parse failure: exactly the logged-out state too (the three keys gone, no user, no auth data, /login emitted) |
| AuthSession.ServerMessageOr | src/contexts/AuthContext.jsx:200 | `error.response?.data?.message` or the fallback: never empty; the server's message when the response carries a non-empty one; the fallback when there is no response or no message |
| AuthSession.UserData | src/contexts/AuthContext.jsx:227 | `userDetails` when present, else the decoded token |
| AuthSession.MessageOr | src/contexts/AuthContext.jsx:240 | `error.message` when non-empty, else the fallback; never empty for a non-empty fallback |
| AuthSession.DecodePayload | src/contexts/AuthContext.jsx:216 | `JSON.parse(decodeURIComponent(text))`: the URI decoder's error, or the parser applied to the decoded text |
| AuthSession.StoreTokens | src/contexts/AuthContext.jsx:169-174 | adds the token and auth-data keys (and the refresh key when a refresh token is given), with their values; every other key keeps its value |
| AuthSession.LogoutClears | src/contexts/AuthContext.jsx:270-277 | logout removes exactly the three auth keys, keeps every other key and its value, clears user and auth data, emits /login, changes nothing else |
| AuthSession.LogoutIdempotent | src/contexts/AuthContext.jsx:270-277 | logging out twice is logging out once (up to the repeated /login) |
| AuthSession.TokenExpiry | src/contexts/AuthContext.jsx:21-28 | an undecodable token is expired; a decodable one is expired exactly when `exp * 1000 < now`; expired stays expired as time passes |
| AuthSession.RefreshWithoutStoredToken | src/contexts/AuthContext.jsx:107-108 | without a stored refresh token: no request, logout, throws "No refresh token available" |
| AuthSession.RefreshSucceeds | src/contexts/AuthContext.jsx:107-120 | the request carries the stored refresh token; the new access token is stored and returned; the refresh token is replaced only when one came back; other keys, user and navigation untouched |
| AuthSession.RefreshFailureLogsOut | src/contexts/AuthContext.jsx:121-124 | any refresh failure logs out and rethrows the same error |
| AuthSession.InitAuthSettles | src/contexts/AuthContext.jsx:145 | `initAuth` always ends with `loading` false |
| AuthSession.InitAuthWithoutToken | src/contexts/AuthContext.jsx:129-146 | without a stored token only `loading` changes |
| AuthSession.InitAuthUnexpired | src/contexts/AuthContext.jsx:135-139 | an unexpired token is used as is, with no refresh request |
| AuthSession.UpdateKeepsRequests | src/contexts/AuthContext.jsx:152-165 | `updateAuthState` sends no request and leaves the remembered path alone |
| AuthSession.InitAuthRefreshesIffExpired | src/contexts/AuthContext.jsx:133-139 | a refresh request is sent exactly when the stored token is present and expired and a refresh token is stored; it carries that refresh token |
| AuthSession.InitAuthRefreshFailure | src/contexts/AuthContext.jsx:133-145 | an expired token whose refresh fails ends logged out, with loading false |
| AuthSession.InitAuthRefreshSucceeds | src/contexts/AuthContext.jsx:128-146 | over any store, an expired token whose refresh succeeds: one request with the stored refresh token; when the new token decodes and any stored auth data parses, the new token and refresh token stored as `RefreshSucceeds` gives, every other key kept, the user the new claims and the auth data parsed; otherwise logged out; loading false |
| AuthSession.HandleAuthResponseRoutes | src/contexts/AuthContext.jsx:168-190 | the stored token and auth data; the refresh token only from `invoktaAuthentication`; failure exactly when the token does not decode; the two routes and the consumption of `preAuthPath` |
| AuthSession.LoginRemoteFailure | src/contexts/AuthContext.jsx:193-205 | a failed request writes nothing to the store, sets a non-empty error, rethrows, ends with loading false |
| AuthSession.LoginSettles | src/contexts/AuthContext.jsx:193-205 | login succeeds exactly when the request succeeds and the token decodes; error clear on success, set on failure; loading false |
| AuthSession.RegisterWithoutAccessToken | src/contexts/AuthContext.jsx:249-262 | no access token: a quiet success over the cleared store, with no navigation and no error |
| AuthSession.RegisterWithAccessToken | src/contexts/AuthContext.jsx:249-266 | with an access token, the store and navigation are what `handleAuthResponse` makes of the cleared store; a failure sets the server message or "Registration failed" |
| AuthSession.LoginWithGoogleRoutes | src/contexts/AuthContext.jsx:210-246 | no payload: "Invalid auth response format" and no writes; at most one navigation, to business setup exactly on success without businesses |
| AuthSession.LoginWithGoogleEffects | src/contexts/AuthContext.jsx:210-246 | once the payload decodes the store is exactly `StoreTokens` with the token, the stringified response and the refresh token only from `invoktaAuthentication`, even when the user cannot be decoded; success exactly when `UserData` is, giving it and the auth data; without a payload or a decodable one the store is untouched; a failure reports `error.message || 'Google login failed'` and keeps user and auth data |
| AuthSession.HandleGoogleAuthRejects | src/contexts/AuthContext.jsx:43-52 | a missing payload, or one without an access token, fails before any store write |
| AuthSession.HandleGoogleAuthEffects | src/contexts/AuthContext.jsx:31-102 | never navigates; on success the stored token, the top-level refresh token and the user from `userDetails` or the token; on failure the fixed error; the store is exactly `StoreTokens` with the top-level refresh token once a payload with an access token decodes, and untouched otherwise |
| BusinessSetupPage.BusinessSetupForm.constructor | src/pages/BusinessSetupPage.jsx:75-87 | the initial values with country India, code `in`, geolocation pending, no messages |
| BusinessSetupPage.BusinessSetupForm.OnCountryChange | src/pages/BusinessSetupPage.jsx:710-717 | the form's country and the selection follow the choice; the code follows it when the list has that country |
| BusinessSetupPage.BusinessSetupForm.ApplyDefaultCountry | src/pages/BusinessSetupPage.jsx:205-226 | writes the UAE entry (by code, else by name) when there is one, else nothing |
| BusinessSetupPage.BusinessSetupForm.FetchLocation | src/pages/BusinessSetupPage.jsx:165-233 | follows the branches in order, including the throw after the selection is written and the catch; ends in `GeolocationEffect`; geolocation loading ends false |
| BusinessSetupPage.BusinessSetupForm.ResolveCountry | src/pages/BusinessSetupPage.jsx:338-358 | the reassigned `countryName`: the first matching key when the API's name is no key and that match is truthy, otherwise the API's name as given; it is a key exactly when `ResolveCountryName` settles on one, and then equals it |
| BusinessSetupPage.BusinessSetupForm.FillCountry | src/pages/BusinessSetupPage.jsx:358-393 | writes the resolved country and selection, the lower-cased code when the list has the country, and the state `MatchedState` gives, skipping a falsy (empty) match |
| BusinessSetupPage.BusinessSetupForm.ApplyPlace | src/pages/BusinessSetupPage.jsx:326-408 | the form ends as `ApplyFill` of `PlaceFill`; selection and code follow the fill; success exactly when some field was written, else the "could not be auto-filled" message |
| BusinessSetupPage.BusinessSetupForm.HandlePincodeLookup | src/pages/BusinessSetupPage.jsx:236-435 | the page state ends in `LookupEffect` of the old one: empty: nothing; too short: only success cleared; a UAE table hit: city and UAE written, no request; else one request with the formatted code, then the failure message, nothing for no places, or the fill |
| BusinessSetupPage.BusinessSetupForm.OnPincodeChange | src/pages/BusinessSetupPage.jsx:648-658 | writes the value and clears the success flag; under five characters nothing else changes; otherwise the page state ends in `LookupEffect` of the state with the new value and the cleared flag, and the request is sent exactly when `SendsLookup` holds |
| BusinessSetupPage.BusinessSetupForm.OnPincodeBlur | src/pages/BusinessSetupPage.jsx:659-665 | under five characters nothing changes; otherwise the page state ends in `LookupEffect` of the old one, and the request is sent exactly when `SendsLookup` holds |
| BusinessSetupPage.SendsLookup | src/pages/BusinessSetupPage.jsx:253-293 | a request is sent only past the length gate; past it, always for a code other than `ae` or empty; for `ae` only when the stripped code is not in the UAE table |
| BusinessSetupPage.LookupEffectDetermined | src/pages/BusinessSetupPage.jsx:236-435 | `LookupEffect` leaves exactly one page state: every path gives all seven fields |
| BusinessSetupPage.BusinessSetupForm.OnSubmit | src/pages/BusinessSetupPage.jsx:89-161 | posts the payload; a business id stores the response, shows success and navigates to the dashboard; otherwise the classified error; loading ends false |
| BusinessRules.LookupStates | src/pages/BusinessSetupPage.jsx:106 | `countryStates[name]`: the entry with that key, none exactly when no key equals it |
| BusinessRules.Keys | src/pages/BusinessSetupPage.jsx:345 | `Object.keys(countryStates)`: one key per entry, in table order |
| BusinessRules.CountryHasStates | src/pages/BusinessSetupPage.jsx:106 | true exactly for a non-empty key of `countryStates` whose entry has states: only then, and whenever the key is present and its entries have states |
| BusinessRules.IsValidState | src/pages/BusinessSetupPage.jsx:42-46 | any non-empty state passes; a state fails only when it is empty and the country has states; a country that is not a key always passes |
| BusinessRules.FindCountryByCode | src/pages/BusinessSetupPage.jsx:301 | `countries.find` by code: the first listed entry with that code, none exactly when no entry has it |
| BusinessRules.FindCountryByName | src/pages/BusinessSetupPage.jsx:366 | `countries.find` by name: the first listed entry with that name, none exactly when no entry has it |
| BusinessRules.CountryNames | src/pages/BusinessSetupPage.jsx:185 | `countries.map(c => c.name)`: one name per entry, in list order |
| BusinessRules.IsValidPhone | src/pages/BusinessSetupPage.jsx:37-39 | valid exactly for ten characters, each a digit 0-9 |
| BusinessRules.BuildPayload | src/pages/BusinessSetupPage.jsx:96-118 | every field of the payload and address from the values; an empty business id; the state present exactly when the country has states |
| BusinessRules.PayloadStateFollowsValidation | src/pages/BusinessSetupPage.jsx:42-46 | values that pass the state rule never send an empty state |
| BusinessRules.SubmitErrorMessage | src/pages/BusinessSetupPage.jsx:148-157 | with a response: its non-empty `data.message`, else "Error from server"; with a request and no response: the connection message; otherwise the error's message, else "Error creating business"; never empty |
| BusinessRules.MissingBusinessIdMessage | src/pages/BusinessSetupPage.jsx:129-156 | a response without a business id shows "No business ID returned from API" |
| BusinessRules.MinPincodeLength | src/pages/BusinessSetupPage.jsx:247-253 | six for `ca`, four for `au`, five for every other code |
| BusinessRules.ApiCountryCode | src/pages/BusinessSetupPage.jsx:261 | the current code, or `ae` when it is empty; never empty |
| BusinessRules.PassesLengthGate | src/pages/BusinessSetupPage.jsx:238-253 | under four characters always fails, six or more always passes; `ca` needs six, `au` four, every other code five |
| BusinessRules.FormatPincode | src/pages/BusinessSetupPage.jsx:266-277 | for `ca`, `gb` and `ae` the pincode without whitespace, else unchanged |
| BusinessRules.UaePostcodeCity | src/pages/BusinessSetupPage.jsx:281-293 | a hit is a five-digit code and gives a non-empty city |
| BusinessRules.UaeTableIsRepeatedDigits | src/pages/BusinessSetupPage.jsx:281-290 | the table holds exactly the codes made of one digit 0-6 five times |
| BusinessRules.UaeTableIgnoresSpacing | src/pages/BusinessSetupPage.jsx:275-293 | a table code with a space inside still finds its city |
| BusinessRules.FindMatchIndex | src/pages/BusinessSetupPage.jsx:345-349 | the first candidate that matches, and none exactly when no candidate matches |
| BusinessRules.FindMatch | src/pages/BusinessSetupPage.jsx:381-385 | the first candidate that matches, none exactly when no candidate matches |
| BusinessRules.NameMatches | src/pages/BusinessSetupPage.jsx:346-348 | names equal up to case always match; an empty name matches anything |
| BusinessRules.NameMatchesSymmetric | src/pages/BusinessSetupPage.jsx:346-348 | the match does not depend on which name is the query |
| BusinessRules.NameMatchesCases | src/pages/BusinessSetupPage.jsx:346-348 | names equal up to case match; a name matches any query it contains |
| BusinessRules.NameMatchesIgnoresCase | src/pages/BusinessSetupPage.jsx:346-348 | lower-casing either name first changes nothing |
| BusinessRules.NameMatchesIff | src/pages/BusinessSetupPage.jsx:345-349 | a match holds exactly when the lower-cased names are equal or one occurs in the other |
| BusinessRules.NameMatchesSameLength | src/pages/BusinessSetupPage.jsx:345-349 | names of the same length match exactly when they are equal up to case |
| BusinessRules.KenyaDoesNotMatchIndia | src/pages/BusinessSetupPage.jsx:345-349 | "Kenya" is not taken for "India" |
| BusinessRules.ResolveCountryName | src/pages/BusinessSetupPage.jsx:338-358 | none without an API country; the API's country when it is a key; otherwise the first key in `Object.keys` order that matches it, when that key is non-empty; none when no key matches or the first match is empty |
| BusinessRules.PlaceFill | src/pages/BusinessSetupPage.jsx:326-393 | the city exactly when the place names one; the country is `ResolveCountryName`; a code exactly when the country is listed, its lower-cased code; the state is `MatchedState` for the resolved country |
| BusinessRules.MatchedState | src/pages/BusinessSetupPage.jsx:373-391 | with states and a state name: the first matching state when it is non-empty, else none; any state given is non-empty, one of the country's states, and matches the name |
| BusinessRules.PlaceStateName | src/pages/BusinessSetupPage.jsx:375 | `place['state'] || place['state abbreviation']`: the state when truthy, else the abbreviation |
| BusinessRules.EmptyMatchedStateKept | src/pages/BusinessSetupPage.jsx:381-391 | an empty entry that matches first is not written, and the state the form holds is kept |
| BusinessRules.ApplyFill | src/pages/BusinessSetupPage.jsx:329-391 | each of city, country and state takes the fill's value when it has one and keeps the old one otherwise; every other field is unchanged |
| BusinessRules.ApplyEmptyFill | src/pages/BusinessSetupPage.jsx:397-408 | a fill that writes nothing leaves the values unchanged |
| BusinessRules.FilledStateBelongsToCountry | src/pages/BusinessSetupPage.jsx:373-393 | a state is filled only for a country that has states, and never as an empty string |
| BusinessRules.LookupFailureMessage | src/pages/BusinessSetupPage.jsx:413-434 | no message exactly for a 404; the API, network and generic messages otherwise |
| BusinessRules.LookupMessagesDistinct | src/pages/BusinessSetupPage.jsx:413-434 | the failure messages tell the three failure kinds apart and differ from the auto-fill message |
| BusinessRules.DefaultCountry | src/pages/BusinessSetupPage.jsx:205 | the entry found by code AE when there is one; otherwise the entry found by the UAE name; always a listed entry |
| BusinessRules.GeolocationOrder | src/pages/BusinessSetupPage.jsx:174-226 | with a UAE entry listed: UAE first, then the listed name, then the code, then UAE; a failed fetch gives UAE |
| BusinessRules.NameListed | src/pages/BusinessSetupPage.jsx:185-187 | a listed entry's name is in `countries.map(c => c.name)` |
| BusinessRules.FoundNamesListed | src/pages/BusinessSetupPage.jsx:176-222 | the UAE entry, the default entry and the entry found by code are all listed by name |
| BusinessRules.FallbackEffect | src/pages/BusinessSetupPage.jsx:205-226 | the default entry's name as selection and form country and its lower-cased code; nothing without a default entry |
| BusinessRules.GeolocationEffect | src/pages/BusinessSetupPage.jsx:165-233 | a failed fetch gives the fallback; any selected country and any form country written is a listed name |
| BusinessRules.GeolocationConsistent | src/pages/BusinessSetupPage.jsx:174-226 | whenever a code is written, the same country goes to the selection and the form |
| JsStrings.ToLower | src/pages/BusinessSetupPage.jsx:346-348 | same length; each ASCII capital lowered, every other character kept |
| JsStrings.ToUpper | src/pages/BusinessSetupPage.jsx:197 | same length; each ASCII small letter raised, every other character kept |
| JsStrings.ToLowerIdempotent | src/pages/BusinessSetupPage.jsx:346-348 | lower-casing twice is lower-casing once |
| JsStrings.IncludesIffOccurs | src/pages/BusinessSetupPage.jsx:347-348 | the scanning `includes` holds exactly when the needle occurs at some position |
| JsStrings.IncludesEmptyAndSelf | src/pages/BusinessSetupPage.jsx:347-348 | every string includes the empty string and itself |
| JsStrings.StripWhitespace | src/pages/BusinessSetupPage.jsx:271-277 | no whitespace left; no longer than the input; the identity on input without whitespace |
| JsStrings.StripWhitespaceAppend | src/pages/BusinessSetupPage.jsx:271-277 | stripping distributes over concatenation |
| JsStrings.StripWhitespaceKeepsOthers | src/pages/BusinessSetupPage.jsx:271-277 | every non-whitespace character is kept with its multiplicity |
| JsStrings.StripWhitespaceIdempotent | src/pages/BusinessSetupPage.jsx:271-277 | stripping twice is stripping once |

## Left out

- Timers are not modelled. These are the 10-second and 500 ms safety resets in
  `handleGoogleAuth`, the 3-second auto-hide of the pincode success flag,
  and the 1.5-second delay before the dashboard navigation. The navigation
  is logged at once.
- Concurrency and React scheduling are not modelled. Each handler runs to
  completion on the state it started from; the `await` points are where
  the answer parameters enter.
- Rendering, the JSX and the console output are not modelled.
- The redirect effect of the page (`src/pages/BusinessSetupPage.jsx:65-72`)
  is not modelled. It turns on the authenticated user, which the page's
  auth hook owns.
- The pincode field's `formik.handleChange` validation and its
  `formik.handleBlur` "touched" marking are not modelled. The change
  handler's value write, success reset and lookup are modelled.
- The email and URL rules of the validation schema are not modelled.
  Matching them means modelling the Yup library.
- `useAuth`, `setError` and the shape of the context value are not
  modelled. They only expose the operations.
- `jwt_decode`, `JSON.parse`, `JSON.stringify`, `decodeURIComponent` and
  `api.clearAuthTokens` are abstract functions. The HTTP calls are their
  answers.
- Case mapping covers ASCII letters only. JavaScript's full Unicode
  `toLowerCase`/`toUpperCase` is not modelled.
- Names inherited from `Object.prototype`, such as `constructor`, are not
  modelled. In the source they make `countryStates[name]` and the UAE
  table lookup truthy.
- JSON `null` as the whole OAuth payload is not modelled separately. It is
  one of the abstract parser's failures, so `handleGoogleAuth` throws the
  parser's message rather than "missing access token". The error slot is
  the same.
- The "Failed to extract user data" throw in `handleGoogleAuth` cannot
  happen in the model, because a decoded token is always an object.
- Token `exp` is an integer. A fractional `exp` is not modelled, and a
  missing `exp` (a `NaN` comparison) never expires, as in the source.
- A lookup answer without a `places` array is modelled as an empty one.
- The `website` field is kept in the values. The payload leaves it out, as
  the source does.
- JsRuntime.StorageText: a JSON `null` field and a missing one are one case, `None`,
  written as "undefined". `localStorage.setItem` writes "null" for a null
  `accessToken`, so after `{"accessToken": null}` the source stores "null"
  where the model stores "undefined".
- `jwt_decode` of a missing argument is not modelled as a throw.
  `decodeJwt(None)` is left to the abstract function, as is every other
  token. So the model lets a login response without `accessToken` sign a
  user in when that function says so. The library would throw there.
- Length is not counted in UTF-16 code units. The pincode length gate
  counts characters (Unicode scalar values), while JavaScript's `.length`
  counts UTF-16 code units. The two differ only for characters outside the
  Basic Multilingual Plane.
