/**
 * The authentication session of src/context/AuthContext.jsx: the `status`, `accessToken` and `error` state of the
 * provider and its `isProcessingCallback` ref, driven by `initAuth`, `login`, `logout` and `handleUnauthorized`.
 * The callback parameters of the page URL, the token endpoint's response and the clock are inputs.
 */
module AuthSession {
  import opened Wrappers
  import opened Storage
  import Config
  import Pkce
  import SpotifyAuth

  datatype AuthStatus = Loading | Authenticated | Unauthenticated | AuthError

  /** The flags the provider derives from `status`. */
  datatype AuthFlags = AuthFlags(isAuthenticated: bool, isLoading: bool)

  function Flags(status: AuthStatus): (f: AuthFlags)
    ensures f.isAuthenticated <==> status == Authenticated
    ensures f.isLoading <==> status == Loading
    ensures !(f.isAuthenticated && f.isLoading)
  {
    AuthFlags(status == Authenticated, status == Loading)
  }

  /** What the callback parameters of the page URL ask `initAuth` to do. */
  datatype Callback = NoCallback | DeniedCallback(error: string) | CodeCallback(code: string)

  /** `code || callbackError` opens the callback branch, in which a (truthy) error is handled before the code. */
  function ParseCallback(code: Option<string>, callbackError: Option<string>): (c: Callback)
    ensures c.NoCallback? <==> !Truthy(code) && !Truthy(callbackError)
    ensures c.DeniedCallback? <==> Truthy(callbackError)
    ensures c.DeniedCallback? ==> c.error == callbackError.value
    ensures c.CodeCallback? ==> Truthy(code) && c.code == code.value
  {
    if Truthy(callbackError) then DeniedCallback(callbackError.value)
    else if Truthy(code) then CodeCallback(code.value)
    else NoCallback
  }

  const SessionExpired := "Session expired. Please log in again."

  /** The error shown when the authorization server redirects back with `error`. */
  function DeniedMessage(error: string): (m: string)
    ensures |m| == 23 + |error| && m[..23] == "Authentication failed: " && m[23..] == error
  {
    "Authentication failed: " + error
  }

  class AuthContext {
    var status: AuthStatus
    var accessToken: Option<Value>
    var error: Option<string>
    var isProcessingCallback: bool
    /** The localStorage the services read and write. */
    const store: AuthStorage

    /** An authenticated session always holds a token. */
    predicate Valid()
      reads this
    {
      status == Authenticated ==> accessToken.Some?
    }

    constructor(store: AuthStorage)
      ensures Valid()
      ensures status == Loading && accessToken.None? && error.None? && !isProcessingCallback && this.store == store
    {
      status := Loading;
      accessToken := None;
      error := None;
      isProcessingCallback := false;
      this.store := store;
    }

    /**
     * `initAuth` up to its first `await`, at time `now`. With callback parameters and no callback in progress, a
     * denial ends in ERROR at once and a code marks the callback as in progress and is returned for the exchange;
     * while a callback is in progress nothing changes. Without callback parameters the stored token decides.
     */
    method StartInitAuth(code: Option<string>, callbackError: Option<string>, now: int) returns (pending: Option<string>)
      requires Valid()
      modifies this, store
      ensures Valid()
      ensures match ParseCallback(code, callbackError)
        case NoCallback =>
          && pending.None? && error == old(error) && isProcessingCallback == old(isProcessingCallback)
          && var lookup := LookupToken(old(store.items), now);
             && store.items == (if lookup.Expired? then ClearAuth(old(store.items)) else old(store.items))
             && (if lookup.Valid? && TruthyValue(Some(lookup.token))
                 then status == Authenticated && accessToken == Some(lookup.token)
                 else status == Unauthenticated && accessToken == old(accessToken))
        case DeniedCallback(e) =>
          && pending.None? && store.items == old(store.items) && accessToken == old(accessToken)
          && (if old(isProcessingCallback)
              then status == old(status) && error == old(error) && isProcessingCallback
              else status == AuthError && error == Some(DeniedMessage(e)) && !isProcessingCallback)
        case CodeCallback(c) =>
          && store.items == old(store.items) && accessToken == old(accessToken)
          && status == old(status) && error == old(error) && isProcessingCallback
          && pending == (if old(isProcessingCallback) then None else Some(c))
    {
      var callback := ParseCallback(code, callbackError);
      if !callback.NoCallback? {
        if isProcessingCallback {
          return None;
        }
        isProcessingCallback := true;
        if callback.DeniedCallback? {
          error := Some(DeniedMessage(callback.error));
          status := AuthError;
          isProcessingCallback := false;
          return None;
        }
        return Some(callback.code);
      }
      var storedToken := store.GetStoredAccessToken(now);
      if TruthyValue(storedToken) {
        accessToken := storedToken;
        status := Authenticated;
      } else {
        status := Unauthenticated;
      }
      pending := None;
    }

    /** The rest of `initAuth` for the code `code`: the exchange's answer decides between AUTHENTICATED with the
        new access token and ERROR with the exchange's message; either way the callback is no longer in progress. */
    method FinishInitAuth(settings: Config.Settings, code: string, response: SpotifyAuth.TokenResponse, now: int)
      requires Valid()
      modifies this, store
      ensures Valid() && !isProcessingCallback
      ensures var e := SpotifyAuth.Exchanged(old(store.items), settings, code, response, now);
              && store.items == e.items
              && (e.result.Ok? ==> status == Authenticated && accessToken == Some(Str(e.result.value.accessToken))
                                   && error == old(error))
              && (e.result.Err? ==> status == AuthError && error == Some(e.result.error) && accessToken == old(accessToken))
    {
      var result, request := SpotifyAuth.ExchangeCodeForToken(store, settings, code, response, now);
      if result.Ok? {
        accessToken := Some(Str(result.value.accessToken));
        status := Authenticated;
      } else {
        error := Some(result.error);
        status := AuthError;
      }
      isProcessingCallback := false;
    }

    /** `login()`: the error is cleared, then the login is initiated. When the platform's crypto refuses
        (`cryptoFailure`), nothing is stored and the session moves to ERROR with that message; otherwise the
        verifier is stored and the authorization request is returned for the redirect. */
    method Login(settings: Config.Settings, randomBytes: seq<Pkce.Byte>, sha256: string -> seq<Pkce.Byte>,
                 cryptoFailure: Option<string>)
      returns (authorize: Option<SpotifyAuth.Params>)
      requires Valid() && |randomBytes| == 64
      modifies this, store
      ensures Valid() && accessToken == old(accessToken) && isProcessingCallback == old(isProcessingCallback)
      ensures cryptoFailure.Some? ==>
                && authorize.None? && store.items == old(store.items)
                && status == AuthError && error == cryptoFailure
      ensures cryptoFailure.None? ==>
                && var verifier := Pkce.CodeVerifier(randomBytes);
                   && store.items == Write(old(store.items), Config.CodeVerifierKey, Str(verifier))
                   && authorize == Some(SpotifyAuth.AuthorizeParams(settings, Pkce.CodeChallenge(verifier, sha256)))
                   && status == old(status) && error.None?
    {
      error := None;
      if cryptoFailure.Some? {
        error := cryptoFailure;
        status := AuthError;
        return None;
      }
      var params := SpotifyAuth.InitiateLogin(store, settings, randomBytes, sha256);
      authorize := Some(params);
    }

    /** `logout()`: no token, UNAUTHENTICATED, no error, and every auth key removed. */
    method Logout()
      requires Valid()
      modifies this, store
      ensures Valid()
      ensures accessToken.None? && status == Unauthenticated && error.None?
      ensures isProcessingCallback == old(isProcessingCallback)
      ensures store.items == ClearAuth(old(store.items))
    {
      accessToken := None;
      status := Unauthenticated;
      error := None;
      store.ClearAuthStorage();
    }

    /** `handleUnauthorized()`: as `logout`, with the session-expired message. */
    method HandleUnauthorized()
      requires Valid()
      modifies this, store
      ensures Valid()
      ensures accessToken.None? && status == Unauthenticated && error == Some(SessionExpired)
      ensures isProcessingCallback == old(isProcessingCallback)
      ensures store.items == ClearAuth(old(store.items))
    {
      accessToken := None;
      status := Unauthenticated;
      error := Some(SessionExpired);
      store.ClearAuthStorage();
    }
  }

  /** `initAuth()` run to completion with no other call interleaved: the two halves in sequence. */
  method InitAuth(session: AuthContext, settings: Config.Settings, code: Option<string>, callbackError: Option<string>,
                  response: SpotifyAuth.TokenResponse, now: int)
    requires session.Valid() && !session.isProcessingCallback
    modifies session, session.store
    ensures session.Valid() && !session.isProcessingCallback
    ensures ParseCallback(code, callbackError).CodeCallback? ==>
              var e := SpotifyAuth.Exchanged(old(session.store.items), settings, code.value, response, now);
              && session.store.items == e.items
              && (e.result.Ok? <==> session.status == Authenticated)
              && (e.result.Err? <==> session.status == AuthError)
              && (e.result.Err? ==> session.error == Some(e.result.error))
    ensures ParseCallback(code, callbackError).DeniedCallback? ==>
              && session.status == AuthError && session.error == Some(DeniedMessage(callbackError.value))
              && session.store.items == old(session.store.items)
    ensures ParseCallback(code, callbackError).NoCallback? ==>
              var lookup := LookupToken(old(session.store.items), now);
              && (session.status == Authenticated <==> lookup.Valid? && TruthyValue(Some(lookup.token)))
              && (session.status != Authenticated ==> session.status == Unauthenticated)
              && session.error == old(session.error)
  {
    var pending := session.StartInitAuth(code, callbackError, now);
    if pending.Some? {
      session.FinishInitAuth(settings, pending.value, response, now);
    }
  }
}
