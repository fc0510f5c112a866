/** The authentication context as the object that owns the session: each
    operation updates the store, the in-memory fields, the flags and the
    logs one step at a time, in the order the context does, and is proved
    to end in the state its transition in `AuthSession` describes. */
module AuthContext {
  import opened JsRuntime
  import opened AuthSession

  class AuthProvider {
    var store: map<string, string>        // localStorage
    var user: Option<Claims>
    var authData: Option<AuthResponse>
    var loading: bool
    var error: Option<string>
    var preAuthPath: Option<string>       // sessionStorage.preAuthPath
    var navigations: seq<string>          // routes passed to navigate, in order
    var requests: seq<Request>            // requests sent to the auth service, in order

    /** The whole state as a value. */
    function State(): SessionState
      reads this
    {
      SessionState(store, user, authData, loading, error, preAuthPath, navigations, requests)
    }

    /** Mounting the provider over what the browser has persisted. */
    constructor (persisted: map<string, string>, rememberedPath: Option<string>)
      ensures State() == Initial(persisted, rememberedPath)
    {
      store := persisted;
      user := None;
      authData := None;
      loading := true;
      error := None;
      preAuthPath := rememberedPath;
      navigations := [];
      requests := [];
    }

    method Logout()
      modifies this
      ensures State() == AuthSession.Logout(old(State()))
    {
      store := store - {TokenKey};
      store := store - {RefreshTokenKey};
      store := store - {AuthDataKey};
      user := None;
      authData := None;
      navigations := navigations + [LoginRoute];
    }

    method RefreshToken(response: Result<RefreshResponse, JsError>) returns (r: Result<Option<string>, JsError>)
      modifies this
      ensures State() == AuthSession.RefreshToken(old(State()), response).state
      ensures r == AuthSession.RefreshToken(old(State()), response).result
    {
      var stored := GetItem(store, RefreshTokenKey);
      if !Truthy(stored) {
        Logout();
        return Err(ThrownError(NoRefreshTokenMessage));
      }
      requests := requests + [RefreshTokenRequest(stored.value)];
      if response.Err? {
        Logout();
        return Err(response.error);
      }
      var answer := response.value;
      store := store[TokenKey := StorageText(answer.accessToken)];
      if Truthy(answer.refreshToken) {
        store := store[RefreshTokenKey := answer.refreshToken.value];
      }
      r := Ok(answer.accessToken);
    }

    method UpdateAuthState(codecs: Codecs, token: Option<string>, storedAuthData: Option<string>)
      modifies this
      ensures State() == AuthSession.UpdateAuthState(old(State()), codecs, token, storedAuthData)
    {
      var decoded := codecs.decodeJwt(token);
      if decoded.Err? {
        Logout();
        return;
      }
      user := Some(decoded.value);
      if Truthy(storedAuthData) {
        var parsed := codecs.parseJson(storedAuthData.value);
        if parsed.Err? {
          Logout();
          return;
        }
        authData := Some(parsed.value);
      }
    }

    method InitAuth(codecs: Codecs, now: int, refreshResponse: Result<RefreshResponse, JsError>)
      modifies this
      ensures State() == AuthSession.InitAuth(old(State()), codecs, now, refreshResponse)
    {
      var token := GetItem(store, TokenKey);
      var storedAuthData := GetItem(store, AuthDataKey);
      if Truthy(token) {
        if IsTokenExpired(codecs.decodeJwt, token.value, now) {
          var newToken := RefreshToken(refreshResponse);
          if newToken.Ok? {
            UpdateAuthState(codecs, newToken.value, storedAuthData);
          }
        } else {
          UpdateAuthState(codecs, token, storedAuthData);
        }
      }
      loading := false;
    }

    method HandleAuthResponse(codecs: Codecs, response: AuthResponse) returns (r: Result<(), JsError>)
      modifies this
      ensures State() == AuthSession.HandleAuthResponse(old(State()), codecs, response).state
      ensures r == AuthSession.HandleAuthResponse(old(State()), codecs, response).result
    {
      store := store[TokenKey := StorageText(response.accessToken)];
      store := store[AuthDataKey := codecs.stringify(response)];
      if Truthy(response.invoktaRefreshToken) {
        store := store[RefreshTokenKey := response.invoktaRefreshToken.value];
      }
      var decoded := codecs.decodeJwt(response.accessToken);
      if decoded.Err? {
        return Err(ThrownError(decoded.error));
      }
      user := Some(decoded.value);
      authData := Some(response);
      if !HasBusinessDetails(decoded.value) {
        navigations := navigations + [BusinessSetupRoute];
      } else {
        var target := OrElse(preAuthPath, DashboardRoute);
        preAuthPath := None;
        navigations := navigations + [target];
      }
      r := Ok(());
    }

    method Login(codecs: Codecs, email: string, password: string, response: Result<AuthResponse, JsError>)
      returns (r: Result<(), JsError>)
      modifies this
      ensures State() == AuthSession.Login(old(State()), codecs, email, password, response).state
      ensures r == AuthSession.Login(old(State()), codecs, email, password, response).result
    {
      error := None;
      loading := true;
      requests := requests + [AuthenticateRequest(email, password)];
      if response.Err? {
        r := Err(response.error);
      } else {
        r := HandleAuthResponse(codecs, response.value);
      }
      if r.Err? {
        error := Some(ServerMessageOr(r.error, LoginFailedMessage));
      }
      loading := false;
    }

    method LoginWithGoogle(codecs: Codecs, authResponse: Option<string>) returns (r: Result<Claims, JsError>)
      modifies this
      ensures State() == AuthSession.LoginWithGoogle(old(State()), codecs, authResponse).state
      ensures r == AuthSession.LoginWithGoogle(old(State()), codecs, authResponse).result
    {
      error := None;
      loading := true;
      r := Err(ThrownError(InvalidAuthResponseMessage));
      if Truthy(authResponse) {
        var parsed := DecodePayload(codecs, authResponse.value);
        if parsed.Err? {
          r := Err(ThrownError(parsed.error));
        } else {
          var answer := parsed.value;
          store := store[TokenKey := StorageText(answer.accessToken)];
          store := store[AuthDataKey := codecs.stringify(answer)];
          if Truthy(answer.invoktaRefreshToken) {
            store := store[RefreshTokenKey := answer.invoktaRefreshToken.value];
          }
          var userData := UserData(codecs, answer);
          if userData.Err? {
            r := Err(ThrownError(userData.error));
          } else {
            user := Some(userData.value);
            authData := Some(answer);
            if !HasBusinessDetails(userData.value) {
              navigations := navigations + [BusinessSetupRoute];
            }
            r := Ok(userData.value);
          }
        }
      }
      if r.Err? {
        error := Some(MessageOr(r.error, GoogleLoginFailedMessage));
      }
      loading := false;
    }

    method Register(codecs: Codecs, clearAuthTokens: map<string, string> -> map<string, string>,
                    details: map<string, string>, response: Result<AuthResponse, JsError>)
      returns (r: Result<(), JsError>)
      modifies this
      ensures State() == AuthSession.Register(old(State()), codecs, clearAuthTokens, details, response).state
      ensures r == AuthSession.Register(old(State()), codecs, clearAuthTokens, details, response).result
    {
      error := None;
      loading := true;
      store := clearAuthTokens(store);
      requests := requests + [RegisterRequest(details)];
      r := Ok(());
      if response.Err? {
        r := Err(response.error);
      } else if Truthy(response.value.accessToken) {
        r := HandleAuthResponse(codecs, response.value);
      }
      if r.Err? {
        error := Some(ServerMessageOr(r.error, RegistrationFailedMessage));
      }
      loading := false;
    }

    method HandleGoogleAuth(codecs: Codecs, payload: Option<string>) returns (r: Result<Claims, JsError>)
      modifies this
      ensures State() == AuthSession.HandleGoogleAuth(old(State()), codecs, payload).state
      ensures r == AuthSession.HandleGoogleAuth(old(State()), codecs, payload).result
    {
      loading := true;
      if !Truthy(payload) {
        r := Err(ThrownError(NullPayloadMessage));
      } else {
        var parsed := DecodePayload(codecs, payload.value);
        if parsed.Err? {
          r := Err(ThrownError(parsed.error));
        } else if !Truthy(parsed.value.accessToken) {
          r := Err(ThrownError(MissingAccessTokenMessage));
        } else {
          var answer := parsed.value;
          store := store[TokenKey := answer.accessToken.value];
          store := store[AuthDataKey := codecs.stringify(answer)];
          if Truthy(answer.refreshToken) {
            store := store[RefreshTokenKey := answer.refreshToken.value];
          }
          var userData := UserData(codecs, answer);
          if userData.Err? {
            r := Err(ThrownError(userData.error));
          } else {
            user := Some(userData.value);
            authData := Some(answer);
            r := Ok(userData.value);
          }
        }
      }
      if r.Err? {
        error := Some(ProcessFailedMessage);
      }
      loading := false;
    }
  }

  /** Two logouts in a row leave the provider in the session one logout gives. */
  method LogoutTwice(p: AuthProvider)
    modifies p
    ensures SameSession(p.State(), AuthSession.Logout(old(p.State())))
  {
    p.Logout();
    p.Logout();
    LogoutIdempotent(old(p.State()));
  }

  /** Restoring an expired session whose refresh succeeds with a new access
      token and no new refresh token: the new token is stored and decoded,
      the refresh token is kept, and loading is over. */
  method RestoreExpiredSession(codecs: Codecs, now: int, oldToken: string, newToken: string, refresh: string, claims: Claims)
    returns (p: AuthProvider)
    requires oldToken != "" && refresh != ""
    requires IsTokenExpired(codecs.decodeJwt, oldToken, now)
    requires codecs.decodeJwt(Some(newToken)) == Ok(claims)
    ensures p.store == map[TokenKey := newToken, RefreshTokenKey := refresh]
    ensures p.user == Some(claims) && !p.loading
    ensures p.requests == [RefreshTokenRequest(refresh)]
    ensures p.navigations == []
  {
    p := new AuthProvider(map[TokenKey := oldToken, RefreshTokenKey := refresh], None);
    p.InitAuth(codecs, now, Ok(RefreshResponse(Some(newToken), None)));
  }
}
