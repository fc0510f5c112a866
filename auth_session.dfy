/** The client session of the authentication context, as values.
    `SessionState` is everything the context owns: the persisted store
    (`localStorage` keys `token`, `refreshToken`, `authData`), the in-memory
    user and auth data, the `loading` flag, the `error` slot, the
    session-scoped `preAuthPath`, and the logs of navigation targets emitted
    and remote requests sent. Each operation of the context is a function
    from a state (and what the outside world answers) to a new state and,
    where the operation returns or throws, its outcome. */
module AuthSession {
  import opened JsRuntime

  // ---------------------------------------------------------------- data

  /** Decoded token claims, as far as the client reads them. `exp` is the
      NumericDate of section 4.1.4 of RFC 7519 (seconds since the epoch);
      `businesses` is the user's business affiliations. */
  datatype Claims = Claims(sub: string, exp: Option<int>, businesses: Option<seq<string>>)

  /** The response of the authenticate and register endpoints and of the
      OAuth redirect payload. `invoktaRefreshToken` is
      `invoktaAuthentication.refreshToken`. */
  datatype AuthResponse = AuthResponse(
    accessToken: Option<string>,
    refreshToken: Option<string>,
    userDetails: Option<Claims>,
    invoktaRefreshToken: Option<string>)

  /** The response of the refresh-token endpoint. */
  datatype RefreshResponse = RefreshResponse(accessToken: Option<string>, refreshToken: Option<string>)

  /** A request sent to the remote auth service. */
  datatype Request =
    | AuthenticateRequest(email: string, password: string)
    | RegisterRequest(details: map<string, string>)
    | RefreshTokenRequest(refreshHeader: string)   // the `X-Refresh-Token` header

  /** The library functions the context calls and this model does not see. */
  datatype Codecs = Codecs(
    decodeJwt: Option<string> -> Result<Claims, string>,   // jwt_decode; Err carries the thrown message
    parseJson: string -> Result<AuthResponse, string>,     // JSON.parse
    decodeUri: string -> Result<string, string>,           // decodeURIComponent
    stringify: AuthResponse -> string)                     // JSON.stringify

  datatype SessionState = SessionState(
    store: map<string, string>,
    user: Option<Claims>,
    authData: Option<AuthResponse>,
    loading: bool,
    error: Option<string>,
    preAuthPath: Option<string>,
    navigations: seq<string>,
    requests: seq<Request>)

  /** A new state together with what the operation returned or threw. */
  datatype Step<+T> = Step(state: SessionState, result: Result<T, JsError>)

  const TokenKey := "token"
  const RefreshTokenKey := "refreshToken"
  const AuthDataKey := "authData"
  const AuthKeys := {TokenKey, RefreshTokenKey, AuthDataKey}

  const LoginRoute := "/login"
  const BusinessSetupRoute := "/business-setup"
  const DashboardRoute := "/dashboard"

  const NoRefreshTokenMessage := "No refresh token available"
  const LoginFailedMessage := "Login failed"
  const RegistrationFailedMessage := "Registration failed"
  const GoogleLoginFailedMessage := "Google login failed"
  const InvalidAuthResponseMessage := "Invalid auth response format"
  const NullPayloadMessage := "Auth response JSON is null or undefined"
  const MissingAccessTokenMessage := "Invalid auth response format - missing access token"
  const ProcessFailedMessage := "Failed to process authentication"

  /** The state on mount: nothing in memory, `loading` set. */
  function Initial(store: map<string, string>, preAuthPath: Option<string>): SessionState {
    SessionState(store, None, None, true, None, preAuthPath, [], [])
  }

  // ---------------------------------------------------------------- helpers

  /** `userData?.businesses && userData.businesses.length > 0`. */
  predicate HasBusinessDetails(user: Claims): (b: bool)
    ensures user.businesses.None? || user.businesses == Some([]) ==> !b
    ensures b ==> user.businesses.Some? && user.businesses.value != []
    ensures user.businesses.Some? && user.businesses.value != [] ==> b
  {
    user.businesses.Some? && |user.businesses.value| > 0
  }

  /** `decoded.exp * 1000 < Date.now()`, with a decoding failure counting as
      expired. A missing `exp` makes the product NaN, and NaN < now is false. */
  predicate IsTokenExpired(decodeJwt: Option<string> -> Result<Claims, string>, token: string, now: int): (expired: bool)
    ensures decodeJwt(Some(token)).Err? ==> expired
    ensures decodeJwt(Some(token)).Ok? && decodeJwt(Some(token)).value.exp.None? ==> !expired
    ensures expired && decodeJwt(Some(token)).Ok? ==> decodeJwt(Some(token)).value.exp.value * 1000 < now
  {
    match decodeJwt(Some(token))
    case Err(_) => true
    case Ok(c) => c.exp.Some? && c.exp.value * 1000 < now
  }

  /** `error.response?.data?.message || fallback`. */
  function ServerMessageOr(e: JsError, fallback: string): (m: string)
    requires fallback != ""
    ensures m != ""
    ensures e.response.None? ==> m == fallback
    ensures e.response.Some? && Truthy(e.response.value.dataMessage) ==> m == e.response.value.dataMessage.value
    ensures e.response.Some? && !Truthy(e.response.value.dataMessage) ==> m == fallback
  {
    if e.response.Some? then OrElse(e.response.value.dataMessage, fallback) else fallback
  }

  /** `error.message || fallback`. */
  function MessageOr(e: JsError, fallback: string): (m: string)
    ensures e.message != "" ==> m == e.message
    ensures e.message == "" ==> m == fallback
    ensures fallback != "" ==> m != ""
  {
    if e.message != "" then e.message else fallback
  }

  /** `JSON.parse(decodeURIComponent(text))`. */
  function DecodePayload(codecs: Codecs, text: string): (r: Result<AuthResponse, string>)
    ensures codecs.decodeUri(text).Err? ==> r == Err(codecs.decodeUri(text).error)
    ensures codecs.decodeUri(text).Ok? ==> r == codecs.parseJson(codecs.decodeUri(text).value)
    ensures r.Ok? ==> exists decoded :: codecs.decodeUri(text) == Ok(decoded) && codecs.parseJson(decoded) == r
  {
    match codecs.decodeUri(text)
    case Err(m) => Err(m)
    case Ok(decoded) => codecs.parseJson(decoded)
  }

  /** `authResponse.userDetails || jwt_decode(authResponse.accessToken)`. */
  function UserData(codecs: Codecs, response: AuthResponse): (r: Result<Claims, string>)
    ensures response.userDetails.Some? ==> r == Ok(response.userDetails.value)
    ensures response.userDetails.None? ==> r == codecs.decodeJwt(response.accessToken)
  {
    if response.userDetails.Some? then Ok(response.userDetails.value)
    else codecs.decodeJwt(response.accessToken)
  }

  /** The store after writing `token` and `authData` for a response, and
      `refreshToken` when `refresh` is truthy. */
  function StoreTokens(store: map<string, string>, codecs: Codecs, response: AuthResponse, refresh: Option<string>): (r: map<string, string>)
    ensures r.Keys == store.Keys + {TokenKey, AuthDataKey} + (if Truthy(refresh) then {RefreshTokenKey} else {})
    ensures r[TokenKey] == StorageText(response.accessToken)
    ensures r[AuthDataKey] == codecs.stringify(response)
    ensures RefreshTokenKey in r ==> r[RefreshTokenKey] == (if Truthy(refresh) then refresh.value else store[RefreshTokenKey])
    ensures forall k :: k in store && k !in AuthKeys ==> r[k] == store[k]
  {
    var written := store[TokenKey := StorageText(response.accessToken)][AuthDataKey := codecs.stringify(response)];
    if Truthy(refresh) then written[RefreshTokenKey := refresh.value] else written
  }

  function Navigate(s: SessionState, route: string): SessionState {
    s.(navigations := s.navigations + [route])
  }

  // ---------------------------------------------------------------- operations

  /** `logout`: drop the three auth keys, forget user and auth data, go to the login page. */
  function Logout(s: SessionState): (t: SessionState)
    ensures t.store.Keys !! AuthKeys && t.user.None? && t.authData.None?
    ensures t.navigations == s.navigations + [LoginRoute]
  {
    Navigate(s.(store := s.store - AuthKeys, user := None, authData := None), LoginRoute)
  }

  /** `refreshToken`: exchange the stored refresh token for a new access
      token. `response` is what the refresh endpoint answers, if it is called. */
  function RefreshToken(s: SessionState, response: Result<RefreshResponse, JsError>): (step: Step<Option<string>>)
    ensures step.result.Err? ==> step.state.store.Keys !! AuthKeys && step.state.user.None?
    ensures step.result.Ok? ==> TokenKey in step.state.store && step.state.store[TokenKey] == StorageText(step.result.value) && RefreshTokenKey in step.state.store
    ensures step.state.requests == s.requests || (RefreshTokenKey in s.store && step.state.requests == s.requests + [RefreshTokenRequest(s.store[RefreshTokenKey])])
  {
    var stored := GetItem(s.store, RefreshTokenKey);
    if !Truthy(stored) then
      Step(Logout(s), Err(ThrownError(NoRefreshTokenMessage)))
    else
      var sent := s.(requests := s.requests + [RefreshTokenRequest(stored.value)]);
      match response
      case Err(e) => Step(Logout(sent), Err(e))
      case Ok(r) =>
        var withToken := sent.store[TokenKey := StorageText(r.accessToken)];
        var rotated := if Truthy(r.refreshToken) then withToken[RefreshTokenKey := r.refreshToken.value] else withToken;
        Step(sent.(store := rotated), Ok(r.accessToken))
  }

  /** `updateAuthState`: decode the token into the user, parse the stored
      auth data; any failure logs out. */
  function UpdateAuthState(s: SessionState, codecs: Codecs, token: Option<string>, storedAuthData: Option<string>): (t: SessionState)
    ensures t.user.Some? ==> codecs.decodeJwt(token).Ok? && t.user == Some(codecs.decodeJwt(token).value)
    ensures t.user.None? ==> t == Logout(s) || t.store.Keys !! AuthKeys
    ensures t.requests == s.requests && t.preAuthPath == s.preAuthPath && t.loading == s.loading
  {
    match codecs.decodeJwt(token)
    case Err(_) => Logout(s)
    case Ok(claims) =>
      var withUser := s.(user := Some(claims));
      if Truthy(storedAuthData) then
        match codecs.parseJson(storedAuthData.value)
        case Err(_) => Logout(withUser)
        case Ok(data) => withUser.(authData := Some(data))
      else withUser
  }

  /** `initAuth`: restore the session from the store on mount, refreshing an
      expired token first. `now` is `Date.now()` in milliseconds. */
  function InitAuth(s: SessionState, codecs: Codecs, now: int, refreshResponse: Result<RefreshResponse, JsError>): (t: SessionState)
    ensures !t.loading && t.error == s.error && t.preAuthPath == s.preAuthPath
  {
    var token := GetItem(s.store, TokenKey);
    var storedAuthData := GetItem(s.store, AuthDataKey);
    var settled :=
      if !Truthy(token) then s
      else if IsTokenExpired(codecs.decodeJwt, token.value, now) then
        var refreshed := RefreshToken(s, refreshResponse);
        if refreshed.result.Err? then refreshed.state
        else UpdateAuthState(refreshed.state, codecs, refreshed.result.value, storedAuthData)
      else UpdateAuthState(s, codecs, token, storedAuthData);
    settled.(loading := false)
  }

  /** `handleAuthResponse`: persist the response, decode the user, and route
      to business setup, the remembered path, or the dashboard. */
  function HandleAuthResponse(s: SessionState, codecs: Codecs, response: AuthResponse): (step: Step<()>)
    ensures step.result.Ok? <==> codecs.decodeJwt(response.accessToken).Ok?
    ensures TokenKey in step.state.store && step.state.store[TokenKey] == StorageText(response.accessToken)
    ensures step.result.Ok? <==> |step.state.navigations| == |s.navigations| + 1
    ensures step.state.requests == s.requests && step.state.loading == s.loading && step.state.error == s.error
  {
    var stored := s.(store := StoreTokens(s.store, codecs, response, response.invoktaRefreshToken));
    match codecs.decodeJwt(response.accessToken)
    case Err(m) => Step(stored, Err(ThrownError(m)))
    case Ok(claims) =>
      var signedIn := stored.(user := Some(claims), authData := Some(response));
      if !HasBusinessDetails(claims) then
        Step(Navigate(signedIn, BusinessSetupRoute), Ok(()))
      else
        Step(Navigate(signedIn.(preAuthPath := None), OrElse(s.preAuthPath, DashboardRoute)), Ok(()))
  }

  /** `login`: authenticate with email and password. */
  function Login(s: SessionState, codecs: Codecs, email: string, password: string, response: Result<AuthResponse, JsError>): (step: Step<()>)
    ensures !step.state.loading
    ensures step.state.requests == s.requests + [AuthenticateRequest(email, password)]
    ensures step.result.Err? <==> step.state.error.Some?
  {
    var started := s.(error := None, loading := true, requests := s.requests + [AuthenticateRequest(email, password)]);
    var inner := match response
      case Err(e) => Step(started, Err(e))
      case Ok(r) => HandleAuthResponse(started, codecs, r);
    var reported := if inner.result.Err? then inner.state.(error := Some(ServerMessageOr(inner.result.error, LoginFailedMessage))) else inner.state;
    Step(reported.(loading := false), inner.result)
  }

  /** `loginWithGoogle`: accept the encoded auth response of the Google flow;
      `authResponse` is `googleData.authResponse`. */
  function LoginWithGoogle(s: SessionState, codecs: Codecs, authResponse: Option<string>): (step: Step<Claims>)
    ensures !step.state.loading && step.state.requests == s.requests
    ensures step.result.Ok? ==> step.state.user == Some(step.result.value) && step.state.error.None?
    ensures step.result.Err? <==> step.state.error.Some?
  {
    var started := s.(error := None, loading := true);
    var inner: Step<Claims> :=
      if !Truthy(authResponse) then Step(started, Err(ThrownError(InvalidAuthResponseMessage)))
      else
        match DecodePayload(codecs, authResponse.value)
        case Err(m) => Step(started, Err(ThrownError(m)))
        case Ok(r) =>
          var stored := started.(store := StoreTokens(started.store, codecs, r, r.invoktaRefreshToken));
          match UserData(codecs, r)
          case Err(m) => Step(stored, Err(ThrownError(m)))
          case Ok(u) =>
            var signedIn := stored.(user := Some(u), authData := Some(r));
            Step(if !HasBusinessDetails(u) then Navigate(signedIn, BusinessSetupRoute) else signedIn, Ok(u));
    var reported := if inner.result.Err? then inner.state.(error := Some(MessageOr(inner.result.error, GoogleLoginFailedMessage))) else inner.state;
    Step(reported.(loading := false), inner.result)
  }

  /** `register`: clear old tokens through `clearAuthTokens` (a function of
      the API service this model does not see), then register. */
  function Register(s: SessionState, codecs: Codecs, clearAuthTokens: map<string, string> -> map<string, string>,
                    details: map<string, string>, response: Result<AuthResponse, JsError>): (step: Step<()>)
    ensures !step.state.loading
    ensures step.state.requests == s.requests + [RegisterRequest(details)]
    ensures step.result.Err? <==> step.state.error.Some?
  {
    var started := s.(error := None, loading := true, store := clearAuthTokens(s.store), requests := s.requests + [RegisterRequest(details)]);
    var inner := match response
      case Err(e) => Step(started, Err(e))
      case Ok(r) => if Truthy(r.accessToken) then HandleAuthResponse(started, codecs, r) else Step(started, Ok(()));
    var reported := if inner.result.Err? then inner.state.(error := Some(ServerMessageOr(inner.result.error, RegistrationFailedMessage))) else inner.state;
    Step(reported.(loading := false), inner.result)
  }

  /** `handleGoogleAuth`: ingest the URL-encoded JSON payload of the OAuth
      redirect; it never navigates. */
  function HandleGoogleAuth(s: SessionState, codecs: Codecs, payload: Option<string>): (step: Step<Claims>)
    ensures !step.state.loading && step.state.navigations == s.navigations && step.state.requests == s.requests
    ensures step.result.Err? ==> step.state.error == Some(ProcessFailedMessage)
    ensures step.result.Ok? ==> step.state.error == s.error
    ensures step.result.Ok? ==> step.state.user == Some(step.result.value)
  {
    var started := s.(loading := true);
    var inner: Step<Claims> :=
      if !Truthy(payload) then Step(started, Err(ThrownError(NullPayloadMessage)))
      else
        match DecodePayload(codecs, payload.value)
        case Err(m) => Step(started, Err(ThrownError(m)))
        case Ok(r) =>
          if !Truthy(r.accessToken) then Step(started, Err(ThrownError(MissingAccessTokenMessage)))
          else
            var stored := started.(store := StoreTokens(started.store, codecs, r, r.refreshToken));
            match UserData(codecs, r)
            case Err(m) => Step(stored, Err(ThrownError(m)))
            case Ok(u) => Step(stored.(user := Some(u), authData := Some(r)), Ok(u));
    var reported := if inner.result.Err? then inner.state.(error := Some(ProcessFailedMessage)) else inner.state;
    Step(reported.(loading := false), inner.result)
  }

  // ---------------------------------------------------------------- properties

  /** The same session, up to how many times the same last route was emitted. */
  predicate SameSession(a: SessionState, b: SessionState) {
    && a.store == b.store && a.user == b.user && a.authData == b.authData
    && a.loading == b.loading && a.error == b.error && a.preAuthPath == b.preAuthPath
    && a.requests == b.requests
    && |a.navigations| > 0 && |b.navigations| > 0
    && a.navigations[|a.navigations| - 1] == b.navigations[|b.navigations| - 1]
  }

  /** Logging out removes exactly the three auth keys, forgets the user and
      auth data, emits the login route and changes nothing else. */
  lemma LogoutClears(s: SessionState)
    ensures var t := Logout(s);
      && TokenKey !in t.store && RefreshTokenKey !in t.store && AuthDataKey !in t.store
      && (forall k :: k in s.store && k !in AuthKeys ==> k in t.store && t.store[k] == s.store[k])
      && t.store.Keys == s.store.Keys - AuthKeys
      && t.user.None? && t.authData.None?
      && t.navigations == s.navigations + [LoginRoute]
      && t.loading == s.loading && t.error == s.error && t.preAuthPath == s.preAuthPath
      && t.requests == s.requests
  {
  }

  /** Logging out twice leaves the same session as logging out once. */
  lemma LogoutIdempotent(s: SessionState)
    ensures SameSession(Logout(Logout(s)), Logout(s))
  {
    assert Logout(s).store - AuthKeys == Logout(s).store;
  }

  /** `isTokenExpired`: an undecodable token is expired; a decodable one is
      expired exactly when its `exp`, read in milliseconds, is before `now`;
      and once expired it stays expired. */
  lemma TokenExpiry(decodeJwt: Option<string> -> Result<Claims, string>, token: string, now: int, later: int)
    requires now <= later
    ensures decodeJwt(Some(token)).Err? ==> IsTokenExpired(decodeJwt, token, now)
    ensures decodeJwt(Some(token)).Ok? ==>
      (IsTokenExpired(decodeJwt, token, now) <==>
         decodeJwt(Some(token)).value.exp.Some? && decodeJwt(Some(token)).value.exp.value * 1000 < now)
    ensures IsTokenExpired(decodeJwt, token, now) ==> IsTokenExpired(decodeJwt, token, later)
  {
  }

  /** `refreshToken` without a stored refresh token: no request, logout, and it throws. */
  lemma RefreshWithoutStoredToken(s: SessionState, response: Result<RefreshResponse, JsError>)
    requires !Truthy(GetItem(s.store, RefreshTokenKey))
    ensures RefreshToken(s, response) == Step(Logout(s), Err(ThrownError(NoRefreshTokenMessage)))
    ensures RefreshToken(s, response).state.requests == s.requests
  {
  }

  /** `refreshToken` success: the header carries the stored refresh token, the
      new access token is stored and returned, and the refresh token is
      replaced only when the response carries one. */
  lemma RefreshSucceeds(s: SessionState, r: RefreshResponse)
    requires Truthy(GetItem(s.store, RefreshTokenKey))
    ensures var step := RefreshToken(s, Ok(r));
      && step.result == Ok(r.accessToken)
      && step.state.requests == s.requests + [RefreshTokenRequest(s.store[RefreshTokenKey])]
      && step.state.store[TokenKey] == StorageText(r.accessToken)
      && step.state.store[RefreshTokenKey] == (if Truthy(r.refreshToken) then r.refreshToken.value else s.store[RefreshTokenKey])
      && (forall k :: k in s.store && k != TokenKey && k != RefreshTokenKey ==> step.state.store[k] == s.store[k])
      && step.state.user == s.user && step.state.authData == s.authData
      && step.state.navigations == s.navigations
  {
  }

  /** `refreshToken` failure of any kind: the session is logged out and the
      failure is re-raised unchanged. */
  lemma RefreshFailureLogsOut(s: SessionState, response: Result<RefreshResponse, JsError>)
    requires response.Err? || !Truthy(GetItem(s.store, RefreshTokenKey))
    ensures var step := RefreshToken(s, response);
      && step.result.Err?
      && (Truthy(GetItem(s.store, RefreshTokenKey)) ==> step.result == Err(response.error))
      && TokenKey !in step.state.store && RefreshTokenKey !in step.state.store && AuthDataKey !in step.state.store
      && step.state.user.None? && step.state.authData.None?
      && step.state.navigations == s.navigations + [LoginRoute]
  {
  }

  /** `initAuth` always ends with `loading` false. */
  lemma InitAuthSettles(s: SessionState, codecs: Codecs, now: int, refreshResponse: Result<RefreshResponse, JsError>)
    ensures !InitAuth(s, codecs, now, refreshResponse).loading
  {
  }

  /** `initAuth` without a stored token: no request, no user, nothing else changes. */
  lemma InitAuthWithoutToken(s: SessionState, codecs: Codecs, now: int, refreshResponse: Result<RefreshResponse, JsError>)
    requires !Truthy(GetItem(s.store, TokenKey))
    ensures InitAuth(s, codecs, now, refreshResponse) == s.(loading := false)
  {
  }

  /** `initAuth` with an unexpired token: no refresh, the stored token and auth data are used. */
  lemma InitAuthUnexpired(s: SessionState, codecs: Codecs, now: int, refreshResponse: Result<RefreshResponse, JsError>)
    requires Truthy(GetItem(s.store, TokenKey))
    requires !IsTokenExpired(codecs.decodeJwt, s.store[TokenKey], now)
    ensures InitAuth(s, codecs, now, refreshResponse) ==
            UpdateAuthState(s, codecs, Some(s.store[TokenKey]), GetItem(s.store, AuthDataKey)).(loading := false)
    ensures InitAuth(s, codecs, now, refreshResponse).requests == s.requests
  {
    UpdateKeepsRequests(s, codecs, Some(s.store[TokenKey]), GetItem(s.store, AuthDataKey));
  }

  /** `updateAuthState`'s outcome: a token that decodes signs the user in
      with its claims, the stored auth data (when there is any) is parsed
      into the auth data, and a decode or parse failure ends logged out. */
  lemma UpdateAuthStateOutcome(s: SessionState, codecs: Codecs, token: Option<string>, storedAuthData: Option<string>)
    ensures var t := UpdateAuthState(s, codecs, token, storedAuthData);
      && (codecs.decodeJwt(token).Err? ==> t == Logout(s))
      && (codecs.decodeJwt(token).Ok? && !Truthy(storedAuthData) ==>
            t == s.(user := Some(codecs.decodeJwt(token).value)))
      && (codecs.decodeJwt(token).Ok? && Truthy(storedAuthData) && codecs.parseJson(storedAuthData.value).Ok? ==>
            t == s.(user := Some(codecs.decodeJwt(token).value), authData := Some(codecs.parseJson(storedAuthData.value).value)))
      && (codecs.decodeJwt(token).Ok? && Truthy(storedAuthData) && codecs.parseJson(storedAuthData.value).Err? ==>
            && t == Logout(s)
            && t.store == s.store - AuthKeys && t.user.None? && t.authData.None?
            && t.navigations == s.navigations + [LoginRoute])
  {
  }

  /** `initAuth` with an expired token and a refresh that succeeds: one
      refresh request carrying the stored refresh token, the new token (and
      a returned refresh token) stored, then `updateAuthState` on the new
      token and the auth data read at the start. */
  lemma InitAuthRefreshSucceeds(s: SessionState, codecs: Codecs, now: int, r: RefreshResponse)
    requires Truthy(GetItem(s.store, TokenKey))
    requires IsTokenExpired(codecs.decodeJwt, GetItem(s.store, TokenKey).value, now)
    requires Truthy(GetItem(s.store, RefreshTokenKey))
    ensures var t := InitAuth(s, codecs, now, Ok(r));
      var stored := GetItem(s.store, AuthDataKey);
      var claims := codecs.decodeJwt(r.accessToken);
      var signedIn := claims.Ok? && (!Truthy(stored) || codecs.parseJson(stored.value).Ok?);
      && !t.loading && t.error == s.error && t.preAuthPath == s.preAuthPath
      && t.requests == s.requests + [RefreshTokenRequest(GetItem(s.store, RefreshTokenKey).value)]
      && (signedIn ==>
            && GetItem(t.store, TokenKey) == Some(StorageText(r.accessToken))
            && GetItem(t.store, RefreshTokenKey) == (if Truthy(r.refreshToken) then r.refreshToken else GetItem(s.store, RefreshTokenKey))
            && (forall k :: k in s.store && k != TokenKey && k != RefreshTokenKey ==> GetItem(t.store, k) == Some(s.store[k]))
            && t.user == Some(claims.value)
            && t.authData == (if Truthy(stored) then Some(codecs.parseJson(stored.value).value) else s.authData)
            && t.navigations == s.navigations)
      && (!signedIn ==>
            && t.store.Keys !! AuthKeys && t.user.None? && t.authData.None?
            && t.navigations == s.navigations + [LoginRoute])
  {
    RefreshSucceeds(s, r);
    var refreshed := RefreshToken(s, Ok(r));
    UpdateAuthStateOutcome(refreshed.state, codecs, r.accessToken, GetItem(s.store, AuthDataKey));
  }

  lemma UpdateKeepsRequests(s: SessionState, codecs: Codecs, token: Option<string>, storedAuthData: Option<string>)
    ensures UpdateAuthState(s, codecs, token, storedAuthData).requests == s.requests
    ensures UpdateAuthState(s, codecs, token, storedAuthData).preAuthPath == s.preAuthPath
  {
  }

  /** `initAuth` sends a refresh request exactly when the stored token is
      present and expired and a refresh token is stored; that request carries
      the stored refresh token, and no other request is ever sent. */
  lemma InitAuthRefreshesIffExpired(s: SessionState, codecs: Codecs, now: int, refreshResponse: Result<RefreshResponse, JsError>)
    ensures var t := InitAuth(s, codecs, now, refreshResponse);
      var calls := Truthy(GetItem(s.store, TokenKey)) && IsTokenExpired(codecs.decodeJwt, s.store[TokenKey], now)
                   && Truthy(GetItem(s.store, RefreshTokenKey));
      && (calls ==> t.requests == s.requests + [RefreshTokenRequest(s.store[RefreshTokenKey])])
      && (!calls ==> t.requests == s.requests)
  {
    var token := GetItem(s.store, TokenKey);
    if Truthy(token) {
      if IsTokenExpired(codecs.decodeJwt, token.value, now) {
        var refreshed := RefreshToken(s, refreshResponse);
        if refreshed.result.Ok? {
          UpdateKeepsRequests(refreshed.state, codecs, refreshed.result.value, GetItem(s.store, AuthDataKey));
        }
      } else {
        UpdateKeepsRequests(s, codecs, token, GetItem(s.store, AuthDataKey));
      }
    }
  }

  /** `initAuth` with an expired token whose refresh fails ends logged out. */
  lemma InitAuthRefreshFailure(s: SessionState, codecs: Codecs, now: int, refreshResponse: Result<RefreshResponse, JsError>)
    requires Truthy(GetItem(s.store, TokenKey)) && IsTokenExpired(codecs.decodeJwt, s.store[TokenKey], now)
    requires refreshResponse.Err? || !Truthy(GetItem(s.store, RefreshTokenKey))
    ensures var t := InitAuth(s, codecs, now, refreshResponse);
      && t.store.Keys !! AuthKeys && t.user.None? && t.authData.None? && !t.loading
      && t.navigations == s.navigations + [LoginRoute]
  {
    assert TokenKey in AuthKeys;
  }

  /** `handleAuthResponse` writes the access token and the serialized response,
      takes the refresh token only from `invoktaAuthentication.refreshToken`,
      and on a decodable token signs the user in and routes: to business setup
      with no businesses (leaving `preAuthPath` alone), otherwise to the
      remembered path or the dashboard, consuming `preAuthPath`. */
  lemma HandleAuthResponseRoutes(s: SessionState, codecs: Codecs, response: AuthResponse)
    ensures var step := HandleAuthResponse(s, codecs, response);
      && step.state.store[TokenKey] == StorageText(response.accessToken)
      && step.state.store[AuthDataKey] == codecs.stringify(response)
      && (Truthy(response.invoktaRefreshToken) ==> step.state.store[RefreshTokenKey] == response.invoktaRefreshToken.value)
      && (!Truthy(response.invoktaRefreshToken) ==> GetItem(step.state.store, RefreshTokenKey) == GetItem(s.store, RefreshTokenKey))
      && (step.result.Err? <==> codecs.decodeJwt(response.accessToken).Err?)
      && (step.result.Err? ==> step.state.navigations == s.navigations && step.state.user == s.user)
      && (step.result.Ok? ==>
            var claims := codecs.decodeJwt(response.accessToken).value;
            && step.state.user == Some(claims) && step.state.authData == Some(response)
            && (!HasBusinessDetails(claims) ==>
                  step.state.navigations == s.navigations + [BusinessSetupRoute] && step.state.preAuthPath == s.preAuthPath)
            && (HasBusinessDetails(claims) ==>
                  step.state.navigations == s.navigations + [if Truthy(s.preAuthPath) then s.preAuthPath.value else DashboardRoute]
                  && step.state.preAuthPath.None?))
  {
  }

  /** `login` whose request fails: no store write, the server message or
      "Login failed" in the error slot, `loading` false, the failure re-raised. */
  lemma LoginRemoteFailure(s: SessionState, codecs: Codecs, email: string, password: string, e: JsError)
    ensures var step := Login(s, codecs, email, password, Err(e));
      && step.result == Err(e)
      && step.state.store == s.store && step.state.user == s.user && step.state.navigations == s.navigations
      && step.state.error == Some(ServerMessageOr(e, LoginFailedMessage))
      && step.state.error.value != ""
      && !step.state.loading
      && step.state.requests == s.requests + [AuthenticateRequest(email, password)]
  {
  }

  /** `login` always ends with `loading` false; it fails with the error slot
      set exactly when the response handling threw, and succeeds with the
      error slot clear otherwise. */
  lemma LoginSettles(s: SessionState, codecs: Codecs, email: string, password: string, response: Result<AuthResponse, JsError>)
    ensures var step := Login(s, codecs, email, password, response);
      && !step.state.loading
      && (step.result.Ok? <==> response.Ok? && codecs.decodeJwt(response.value.accessToken).Ok?)
      && (step.result.Ok? ==> step.state.error.None?)
      && (step.result.Err? ==> step.state.error == Some(ServerMessageOr(step.result.error, LoginFailedMessage)))
  {
  }

  /** `register` clears the auth tokens through the service before anything
      else; a response without an access token is a quiet success: no
      response handling, no navigation, no error. */
  lemma RegisterWithoutAccessToken(s: SessionState, codecs: Codecs, clearAuthTokens: map<string, string> -> map<string, string>,
                                   details: map<string, string>, r: AuthResponse)
    requires !Truthy(r.accessToken)
    ensures var step := Register(s, codecs, clearAuthTokens, details, Ok(r));
      && step.result == Ok(())
      && step.state.store == clearAuthTokens(s.store)
      && step.state.navigations == s.navigations
      && step.state.error.None? && !step.state.loading
      && step.state.user == s.user && step.state.authData == s.authData
  {
  }

  /** `register` with an access token hands the response, over the cleared
      store, to `handleAuthResponse`; a failure sets the server message or
      "Registration failed". */
  lemma RegisterWithAccessToken(s: SessionState, codecs: Codecs, clearAuthTokens: map<string, string> -> map<string, string>,
                                details: map<string, string>, response: Result<AuthResponse, JsError>)
    requires response.Err? || Truthy(response.value.accessToken)
    ensures var step := Register(s, codecs, clearAuthTokens, details, response);
      var started := s.(error := None, loading := true, store := clearAuthTokens(s.store), requests := s.requests + [RegisterRequest(details)]);
      && (response.Ok? ==> step.state.store == HandleAuthResponse(started, codecs, response.value).state.store)
      && (response.Ok? ==> step.state.navigations == HandleAuthResponse(started, codecs, response.value).state.navigations)
      && (step.result.Err? ==> step.state.error == Some(ServerMessageOr(step.result.error, RegistrationFailedMessage)))
      && !step.state.loading
  {
  }

  /** `loginWithGoogle` without an auth response fails with "Invalid auth
      response format" and writes nothing; with one, it navigates at most
      once, and only to business setup when the user has no businesses. */
  lemma LoginWithGoogleRoutes(s: SessionState, codecs: Codecs, authResponse: Option<string>)
    ensures var step := LoginWithGoogle(s, codecs, authResponse);
      && !step.state.loading
      && (!Truthy(authResponse) ==>
            step.result == Err(ThrownError(InvalidAuthResponseMessage))
            && step.state.error == Some(InvalidAuthResponseMessage)
            && step.state.store == s.store && step.state.navigations == s.navigations)
      && (step.state.navigations == s.navigations || step.state.navigations == s.navigations + [BusinessSetupRoute])
      && (step.state.navigations != s.navigations <==> step.result.Ok? && !HasBusinessDetails(step.result.value))
      && (step.result.Ok? ==> step.state.user == Some(step.result.value) && step.state.error.None?)
      && (step.result.Err? ==> step.state.error.Some? && step.state.error.value != "")
  {
  }

  /** `loginWithGoogle`, once the payload decodes, stores the access token,
      `authData` as the stringified response and the refresh token only from
      `invoktaAuthentication`, all before the user is decoded; the user is
      `userDetails`, else the decoded token; a failure reports
      `error.message || 'Google login failed'` and leaves user and auth data. */
  lemma LoginWithGoogleEffects(s: SessionState, codecs: Codecs, authResponse: Option<string>)
    ensures var step := LoginWithGoogle(s, codecs, authResponse);
      && step.state.preAuthPath == s.preAuthPath && step.state.requests == s.requests
      && (!Truthy(authResponse) || DecodePayload(codecs, authResponse.value).Err? ==>
            step.result.Err? && step.state.store == s.store)
      && (Truthy(authResponse) && DecodePayload(codecs, authResponse.value).Ok? ==>
            var r := DecodePayload(codecs, authResponse.value).value;
            && step.state.store == StoreTokens(s.store, codecs, r, r.invoktaRefreshToken)
            && step.state.store[TokenKey] == StorageText(r.accessToken)
            && step.state.store[AuthDataKey] == codecs.stringify(r)
            && (Truthy(r.invoktaRefreshToken) ==> step.state.store[RefreshTokenKey] == r.invoktaRefreshToken.value)
            && (!Truthy(r.invoktaRefreshToken) ==> GetItem(step.state.store, RefreshTokenKey) == GetItem(s.store, RefreshTokenKey))
            && (step.result.Ok? <==> UserData(codecs, r).Ok?)
            && (step.result.Ok? ==> step.result.value == UserData(codecs, r).value && step.state.authData == Some(r)))
      && (step.result.Err? ==>
            && step.state.error == Some(MessageOr(step.result.error, GoogleLoginFailedMessage))
            && step.state.user == s.user && step.state.authData == s.authData)
  {
  }

  /** `handleGoogleAuth` with no payload, or one without an access token,
      fails before any store write and sets "Failed to process authentication". */
  lemma HandleGoogleAuthRejects(s: SessionState, codecs: Codecs, payload: Option<string>)
    requires !Truthy(payload) || (DecodePayload(codecs, payload.value).Ok? && !Truthy(DecodePayload(codecs, payload.value).value.accessToken))
    ensures var step := HandleGoogleAuth(s, codecs, payload);
      && step.result.Err?
      && step.result.error == ThrownError(if !Truthy(payload) then NullPayloadMessage else MissingAccessTokenMessage)
      && step.state == s.(loading := false, error := Some(ProcessFailedMessage))
  {
  }

  /** `handleGoogleAuth` never navigates and always ends with `loading` false;
      on success it stores the access token, the top-level refresh token when
      present, and takes the user from `userDetails`, else from the token. */
  lemma HandleGoogleAuthEffects(s: SessionState, codecs: Codecs, payload: Option<string>)
    ensures var step := HandleGoogleAuth(s, codecs, payload);
      && step.state.navigations == s.navigations
      && !step.state.loading
      && step.state.preAuthPath == s.preAuthPath && step.state.requests == s.requests
      && (step.result.Err? ==> step.state.error == Some(ProcessFailedMessage) && step.state.user == s.user)
      && (step.result.Ok? ==>
            var r := DecodePayload(codecs, payload.value).value;
            && Truthy(payload) && Truthy(r.accessToken)
            && step.state.store[TokenKey] == r.accessToken.value
            && step.state.store[AuthDataKey] == codecs.stringify(r)
            && (Truthy(r.refreshToken) ==> step.state.store[RefreshTokenKey] == r.refreshToken.value)
            && (!Truthy(r.refreshToken) ==> GetItem(step.state.store, RefreshTokenKey) == GetItem(s.store, RefreshTokenKey))
            && step.result.value == (if r.userDetails.Some? then r.userDetails.value else codecs.decodeJwt(r.accessToken).value)
            && step.state.user == Some(step.result.value) && step.state.authData == Some(r)
            && step.state.error == s.error)
      && (Truthy(payload) && DecodePayload(codecs, payload.value).Ok? && Truthy(DecodePayload(codecs, payload.value).value.accessToken) ==>
            var r := DecodePayload(codecs, payload.value).value;
            step.state.store == StoreTokens(s.store, codecs, r, r.refreshToken))
      && (!(Truthy(payload) && DecodePayload(codecs, payload.value).Ok? && Truthy(DecodePayload(codecs, payload.value).value.accessToken)) ==>
            step.state.store == s.store)
  {
  }
}
