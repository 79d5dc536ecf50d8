/**
 * The PKCE authorization-code flow of src/services/spotify/auth.js (sections 4.1.1, 4.1.3 and 6 of RFC 6749,
 * sections 4.2 to 4.5 of RFC 7636): ordered writes to the auth store around the token endpoint's response, which
 * is an input. Redirects of the browser are not part of this model; `initiateLogin` returns the query parameters
 * of the authorization request instead.
 */
module SpotifyAuth {
  import opened Wrappers
  import opened Storage
  import Pkce
  import Text
  import Config

  /** The name-value pairs of a `URLSearchParams`, in insertion order. */
  type Params = seq<(string, string)>

  /** `params.get(name)`: the first value under `name`. */
  function ParamValue(params: Params, name: string): (r: Option<string>)
    ensures r.Some? <==> exists i :: 0 <= i < |params| && params[i].0 == name
  {
    if params == [] then None
    else if params[0].0 == name then Some(params[0].1)
    else
      var r := ParamValue(params[1..], name);
      assert forall i :: 0 < i < |params| ==> params[i] == params[1..][i - 1];
      r
  }

  /** The first pair named `name` is the one `get` finds. */
  lemma {:induction false} ParamAt(params: Params, i: nat, name: string)
    requires i < |params| && params[i].0 == name
    requires forall j :: 0 <= j < i ==> params[j].0 != name
    ensures ParamValue(params, name) == Some(params[i].1)
    decreases i
  {
    if i > 0 {
      ParamAt(params[1..], i - 1, name);
    }
  }

  /** The authorization request of `initiateLogin`. */
  function AuthorizeParams(settings: Config.Settings, challenge: string): Params {
    [("client_id", settings.clientId), ("response_type", "code"), ("redirect_uri", settings.redirectUri),
     ("scope", Text.Join(" ", Config.Scopes)), ("code_challenge_method", "S256"), ("code_challenge", challenge)]
  }

  /** The token request of `exchangeCodeForToken`. */
  function ExchangeParams(settings: Config.Settings, code: string, verifier: string): Params {
    [("client_id", settings.clientId), ("grant_type", "authorization_code"), ("code", code),
     ("redirect_uri", settings.redirectUri), ("code_verifier", verifier)]
  }

  /** The token request of `refreshAccessToken`. */
  function RefreshParams(settings: Config.Settings, refreshToken: string): Params {
    [("client_id", settings.clientId), ("grant_type", "refresh_token"), ("refresh_token", refreshToken)]
  }

  /** What the token endpoint does with a request: answers with tokens, answers with an error status (with the
      `error_description` of its JSON body, `None` when the body has none or is not JSON), or `fetch` rejects. */
  datatype TokenResponse = Granted(data: TokenData) | Refused(errorDescription: Option<string>) | Unreachable(message: string)

  const VerifierMissing := "Code verifier not found. Please try logging in again."
  const ExchangeFailed := "Failed to exchange code for token"
  const RefreshFailed := "Failed to refresh token. Please log in again."

  /** Everything observable about a token request: its result, the request sent (if any) and the store after. */
  datatype Exchange = Exchange(result: Result<TokenData, string>, request: Option<Params>, items: Items)

  /** What `exchangeCodeForToken(code)` does to a store holding `items`, at time `now`. */
  function Exchanged(items: Items, settings: Config.Settings, code: string, response: TokenResponse, now: int): (e: Exchange)
    ensures e.result.Ok? <==> TruthyValue(Read(items, Config.CodeVerifierKey)) && response.Granted?
    ensures e.result.Ok? ==> e.result.value == response.data
    ensures response.Unreachable? ==> e.items == items
  {
    var verifier := Read(items, Config.CodeVerifierKey);
    if !TruthyValue(verifier) then Exchange(Err(VerifierMissing), None, items)
    else
      var request := Some(ExchangeParams(settings, code, ValueText(verifier.value)));
      match response
      case Unreachable(message) => Exchange(Err(message), request, items)
      case Refused(description) =>
        Exchange(Err(if Wrappers.Truthy(description) then description.value else ExchangeFailed), request,
                 Remove(items, Config.CodeVerifierKey))
      case Granted(data) =>
        Exchange(Ok(data), request, StoredTokens(Remove(items, Config.CodeVerifierKey), data, now))
  }

  /** What `refreshAccessToken(refreshToken)` does to a store holding `items`, at time `now`. */
  function Refreshed(items: Items, settings: Config.Settings, refreshToken: string, response: TokenResponse, now: int): (e: Exchange)
    ensures e.request.Some?
    ensures e.result.Ok? <==> response.Granted?
    ensures e.result.Ok? ==> e.result.value == response.data
    ensures response.Unreachable? ==> e.items == items
  {
    var request := Some(RefreshParams(settings, refreshToken));
    match response
    case Unreachable(message) => Exchange(Err(message), request, items)
    case Refused(_) => Exchange(Err(RefreshFailed), request, ClearAuth(items))
    case Granted(data) => Exchange(Ok(data), request, StoredTokens(items, data, now))
  }

  /** `initiateLogin()` with `randomBytes` from `crypto.getRandomValues` and `sha256` the digest: stores the
      verifier and returns the authorization request. */
  method InitiateLogin(store: AuthStorage, settings: Config.Settings, randomBytes: seq<Pkce.Byte>,
                       sha256: string -> seq<Pkce.Byte>)
    returns (params: Params)
    requires |randomBytes| == 64
    modifies store
    ensures store.items == Write(old(store.items), Config.CodeVerifierKey, Str(Pkce.CodeVerifier(randomBytes)))
    ensures params == AuthorizeParams(settings, Pkce.CodeChallenge(Pkce.CodeVerifier(randomBytes), sha256))
  {
    var verifier := Pkce.CodeVerifier(randomBytes);
    var challenge := Pkce.CodeChallenge(verifier, sha256);
    store.StoreCodeVerifier(verifier);
    params := AuthorizeParams(settings, challenge);
  }

  /** The authorization request asks for a code with the S256 method, for the configured scopes joined by
      spaces, and carries the challenge of exactly the verifier left in the store (section 4.3 of RFC 7636). */
  lemma LoginBindsVerifier(items: Items, settings: Config.Settings, randomBytes: seq<Pkce.Byte>,
                           sha256: string -> seq<Pkce.Byte>)
    requires |randomBytes| == 64
    ensures var verifier := Pkce.CodeVerifier(randomBytes);
            var stored := Write(items, Config.CodeVerifierKey, Str(verifier));
            var params := AuthorizeParams(settings, Pkce.CodeChallenge(verifier, sha256));
            && Read(stored, Config.CodeVerifierKey) == Some(Str(verifier))
            && ParamValue(params, "response_type") == Some("code")
            && ParamValue(params, "code_challenge_method") == Some("S256")
            && ParamValue(params, "scope") == Some("user-library-read")
            && ParamValue(params, "code_challenge") == Some(Pkce.CodeChallenge(ValueText(Read(stored, Config.CodeVerifierKey).value), sha256))
            && 43 <= |verifier| <= 128
  {
    var verifier := Pkce.CodeVerifier(randomBytes);
    var params := AuthorizeParams(settings, Pkce.CodeChallenge(verifier, sha256));
    ParamAt(params, 1, "response_type");
    ParamAt(params, 3, "scope");
    ParamAt(params, 4, "code_challenge_method");
    ParamAt(params, 5, "code_challenge");
  }

  /** `exchangeCodeForToken(code)`: the verifier is removed once the endpoint has answered, whatever it answered;
      tokens are stored only from a successful answer. */
  method ExchangeCodeForToken(store: AuthStorage, settings: Config.Settings, code: string, response: TokenResponse, now: int)
    returns (result: Result<TokenData, string>, request: Option<Params>)
    modifies store
    ensures Exchange(result, request, store.items) == Exchanged(old(store.items), settings, code, response, now)
  {
    var verifier := store.GetCodeVerifier();
    if !TruthyValue(verifier) {
      return Err(VerifierMissing), None;
    }
    request := Some(ExchangeParams(settings, code, ValueText(verifier.value)));
    if response.Unreachable? {
      return Err(response.message), request;
    }
    store.ClearCodeVerifier();
    if response.Refused? {
      var description := response.errorDescription;
      result := Err(if description.Some? && description.value != "" then description.value else ExchangeFailed);
      return;
    }
    store.StoreTokens(response.data, now);
    result := Ok(response.data);
  }

  /** `refreshAccessToken(refreshToken)`: a refused refresh clears every auth key. */
  method RefreshAccessToken(store: AuthStorage, settings: Config.Settings, refreshToken: string, response: TokenResponse, now: int)
    returns (result: Result<TokenData, string>, request: Option<Params>)
    modifies store
    ensures Exchange(result, request, store.items) == Refreshed(old(store.items), settings, refreshToken, response, now)
  {
    request := Some(RefreshParams(settings, refreshToken));
    if response.Unreachable? {
      return Err(response.message), request;
    }
    if response.Refused? {
      store.ClearAuthStorage();
      return Err(RefreshFailed), request;
    }
    store.StoreTokens(response.data, now);
    result := Ok(response.data);
  }

  /** `logout()`: every auth key is removed. */
  method Logout(store: AuthStorage)
    modifies store
    ensures store.items == ClearAuth(old(store.items))
  {
    store.ClearAuthStorage();
  }

  /** Without a stored verifier the exchange fails before any request and leaves the store untouched. */
  lemma ExchangeNeedsVerifier(items: Items, settings: Config.Settings, code: string, response: TokenResponse, now: int)
    ensures var e := Exchanged(items, settings, code, response, now);
            (!TruthyValue(Read(items, Config.CodeVerifierKey)))
              <==> e.result == Err(VerifierMissing) && e.request.None? && e.items == items
  {
  }

  /** The token request carries `grant_type=authorization_code`, the code, the redirect URI and the stored
      verifier (section 4.1.3 of RFC 6749, section 4.5 of RFC 7636). */
  lemma ExchangeRequest(items: Items, settings: Config.Settings, code: string, response: TokenResponse, now: int)
    requires TruthyValue(Read(items, Config.CodeVerifierKey))
    ensures var e := Exchanged(items, settings, code, response, now);
            && e.request.Some?
            && ParamValue(e.request.value, "grant_type") == Some("authorization_code")
            && ParamValue(e.request.value, "code") == Some(code)
            && ParamValue(e.request.value, "redirect_uri") == Some(settings.redirectUri)
            && ParamValue(e.request.value, "code_verifier") == Some(ValueText(items[Config.CodeVerifierKey].v))
  {
    var verifier := ValueText(items[Config.CodeVerifierKey].v);
    var params := ExchangeParams(settings, code, verifier);
    assert Exchanged(items, settings, code, response, now).request == Some(params);
    ExchangeParamsFields(settings, code, verifier);
  }

  /** The fields of a token request for a code. */
  lemma ExchangeParamsFields(settings: Config.Settings, code: string, verifier: string)
    ensures var params := ExchangeParams(settings, code, verifier);
            && ParamValue(params, "grant_type") == Some("authorization_code")
            && ParamValue(params, "code") == Some(code)
            && ParamValue(params, "redirect_uri") == Some(settings.redirectUri)
            && ParamValue(params, "code_verifier") == Some(verifier)
  {
    var params := ExchangeParams(settings, code, verifier);
    ParamAt(params, 1, "grant_type");
    ParamAt(params, 2, "code");
    ParamAt(params, 3, "redirect_uri");
    ParamAt(params, 4, "code_verifier");
  }

  /** Once the endpoint has answered, the verifier is gone. A refusal fails with its description (or the default
      message) and writes no token; a grant stores the tokens and returns them. */
  lemma ExchangeAnswered(items: Items, settings: Config.Settings, code: string, response: TokenResponse, now: int)
    requires TruthyValue(Read(items, Config.CodeVerifierKey)) && !response.Unreachable?
    ensures var e := Exchanged(items, settings, code, response, now);
            && Read(e.items, Config.CodeVerifierKey) == None
            && (response.Refused? ==>
                  && e.result == Err(if response.errorDescription.Some? && response.errorDescription.value != ""
                                     then response.errorDescription.value else ExchangeFailed)
                  && forall k :: k != Config.CodeVerifierKey ==> Read(e.items, k) == Read(items, k))
            && (response.Granted? ==>
                  && e.result == Ok(response.data)
                  && Read(e.items, Config.AccessTokenKey) == Some(Str(response.data.accessToken))
                  && Read(e.items, Config.TokenExpiryKey) == Some(Num(now + response.data.expiresIn * 1000)))
  {
    if response.Granted? {
      StoredTokensEffect(Remove(items, Config.CodeVerifierKey), response.data, now);
    }
  }

  /** A refused refresh clears every auth key and fails; a granted one stores the new tokens. */
  lemma RefreshOutcome(items: Items, settings: Config.Settings, refreshToken: string, response: TokenResponse, now: int)
    ensures var e := Refreshed(items, settings, refreshToken, response, now);
            && ParamValue(e.request.value, "grant_type") == Some("refresh_token")
            && ParamValue(e.request.value, "refresh_token") == Some(refreshToken)
            && (response.Refused? ==>
                  e.result == Err(RefreshFailed) && forall k :: k in Config.StorageKeys ==> Read(e.items, k) == None)
            && (response.Granted? ==>
                  && e.result == Ok(response.data)
                  && LookupToken(e.items, now).Valid? == (response.data.accessToken != "" && now + response.data.expiresIn * 1000 != 0
                                                           && now < now + response.data.expiresIn * 1000 - 60000))
  {
    var params := Refreshed(items, settings, refreshToken, response, now).request.value;
    ParamAt(params, 1, "grant_type");
    ParamAt(params, 2, "refresh_token");
    if response.Refused? {
      ClearAuthExact(items);
    }
    if response.Granted? {
      StoredTokensEffect(items, response.data, now);
    }
  }
}
