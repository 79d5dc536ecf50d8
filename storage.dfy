/**
 * The auth secret store of src/services/storage.js: a localStorage key-value map holding the access token, the
 * refresh token, the token expiry and the PKCE code verifier, each JSON-encoded.
 */
module Storage {
  import opened Wrappers
  import Text
  import Config

  /** A JSON value as the store holds them: the app writes strings (tokens, the verifier) and integers (the
      expiry, in milliseconds since the epoch). */
  datatype Value = Str(s: string) | Num(n: int)

  /** `String(v)`, as `URLSearchParams` renders a value. */
  function ValueText(v: Value): string {
    match v
    case Str(s) => s
    case Num(n) => if n >= 0 then Text.NatToString(n) else "-" + Text.NatToString(-n)
  }

  /** A raw localStorage entry: the JSON text of a value, or text `JSON.parse` rejects. */
  datatype Stored = Encoded(v: Value) | Unparsable

  type Items = map<string, Stored>

  /** JavaScript truthiness of a decoded value: `null`, `""` and `0` are falsy. */
  predicate TruthyValue(v: Option<Value>) {
    match v
    case None => false
    case Some(Str(s)) => s != ""
    case Some(Num(n)) => n != 0
  }

  /** JavaScript's `ToNumber` as `expiry - 60000` applies it; `None` is `NaN`. */
  function ToNumber(v: Value): Option<int> {
    match v
    case Num(n) => Some(n)
    case Str(s) => if s != "" && Text.AllDigits(s) then Some(Text.DigitsValue(s)) else None
  }

  /** `getItem(key)`: the decoded value, `null` when the key is missing or its text does not parse. */
  function Read(items: Items, key: string): (v: Option<Value>)
    ensures v.Some? <==> key in items && items[key].Encoded?
    ensures v.Some? ==> items[key] == Encoded(v.value)
  {
    if key in items && items[key].Encoded? then Some(items[key].v) else None
  }

  /** `setItem(key, value)`. */
  function Write(items: Items, key: string, v: Value): Items {
    items[key := Encoded(v)]
  }

  /** `removeItem(key)`. */
  function Remove(items: Items, key: string): Items {
    items - {key}
  }

  /** `clearAuthStorage()`: every key of `STORAGE_KEYS` removed. */
  function ClearAuth(items: Items): Items {
    items - Config.StorageKeys
  }

  /** The body of a token response as `storeTokens` destructures it. */
  datatype TokenData = TokenData(accessToken: string, refreshToken: Option<string>, expiresIn: int)

  /** The store after `storeTokens(data)` at time `now`. */
  function StoredTokens(items: Items, data: TokenData, now: int): Items {
    var withToken := Write(Write(items, Config.AccessTokenKey, Str(data.accessToken)),
                           Config.TokenExpiryKey, Num(now + data.expiresIn * 1000));
    if TruthyValue(if data.refreshToken.Some? then Some(Str(data.refreshToken.value)) else None)
    then Write(withToken, Config.RefreshTokenKey, Str(data.refreshToken.value))
    else withToken
  }

  /** What `getStoredAccessToken` finds at time `now`. */
  datatype TokenLookup = Missing | Expired | Valid(token: Value)

  function LookupToken(items: Items, now: int): (t: TokenLookup)
    ensures t.Valid? ==> Read(items, Config.AccessTokenKey) == Some(t.token) && TruthyValue(Some(t.token))
    ensures t.Expired? ==>
              && TruthyValue(Read(items, Config.AccessTokenKey))
              && Read(items, Config.TokenExpiryKey).Some? && ToNumber(Read(items, Config.TokenExpiryKey).value).Some?
  {
    var token := Read(items, Config.AccessTokenKey);
    var expiry := Read(items, Config.TokenExpiryKey);
    if !TruthyValue(token) || !TruthyValue(expiry) then Missing
    else
      var e := ToNumber(expiry.value);
      // A comparison with NaN is false, so an expiry that is not a number never expires the token.
      if e.Some? && now >= e.value - 60000 then Expired else Valid(token.value)
  }

  /** A missing or falsy token or expiry reads as no token. */
  lemma {:induction false} LookupMissing(items: Items, now: int)
    ensures LookupToken(items, now) == Missing
        <==> !TruthyValue(Read(items, Config.AccessTokenKey)) || !TruthyValue(Read(items, Config.TokenExpiryKey))
  {
  }

  /** The token is returned exactly when it is present, the expiry is present, and `now` lies more than a minute
      before the expiry (or the expiry is not a number). */
  lemma TokenValidIff(items: Items, now: int)
    ensures LookupToken(items, now).Valid?
        <==> TruthyValue(Read(items, Config.AccessTokenKey)) && TruthyValue(Read(items, Config.TokenExpiryKey))
             && (ToNumber(items[Config.TokenExpiryKey].v).Some? ==> now < ToNumber(items[Config.TokenExpiryKey].v).value - 60000)
    ensures LookupToken(items, now).Valid? ==> LookupToken(items, now).token == items[Config.AccessTokenKey].v
  {
  }

  /** Time only moves a token towards expiry: once expired it stays expired, and a token returned later would
      have been returned earlier. */
  lemma ExpiryIsFinal(items: Items, now: int, later: int)
    requires now <= later
    ensures LookupToken(items, now).Expired? ==> LookupToken(items, later).Expired?
    ensures LookupToken(items, later).Valid? ==> LookupToken(items, now) == LookupToken(items, later)
  {
  }

  /** Tokens just stored with a positive lifetime of more than a minute read back until a minute before they expire. */
  lemma StoredTokenReadsBack(items: Items, data: TokenData, now: int, later: int)
    requires data.accessToken != "" && now + data.expiresIn * 1000 != 0
    requires later < now + data.expiresIn * 1000 - 60000
    ensures LookupToken(StoredTokens(items, data, now), later) == Valid(Str(data.accessToken))
  {
    var s := StoredTokens(items, data, now);
    assert Read(s, Config.AccessTokenKey) == Some(Str(data.accessToken));
    assert Read(s, Config.TokenExpiryKey) == Some(Num(now + data.expiresIn * 1000));
  }

  /** `storeTokens` writes the access token and the expiry, writes the refresh token only when one was given
      (non-empty), and leaves every other key, including an earlier refresh token, as it was. */
  lemma StoredTokensEffect(items: Items, data: TokenData, now: int)
    ensures var s := StoredTokens(items, data, now);
            && Read(s, Config.AccessTokenKey) == Some(Str(data.accessToken))
            && Read(s, Config.TokenExpiryKey) == Some(Num(now + data.expiresIn * 1000))
            && ((data.refreshToken.Some? && data.refreshToken.value != "")
                  ==> Read(s, Config.RefreshTokenKey) == Some(Str(data.refreshToken.value)))
            && ((data.refreshToken.None? || data.refreshToken.value == "")
                  ==> Read(s, Config.RefreshTokenKey) == Read(items, Config.RefreshTokenKey))
            && forall k :: k != Config.AccessTokenKey && k != Config.TokenExpiryKey && k != Config.RefreshTokenKey
                  ==> Read(s, k) == Read(items, k)
  {
  }

  /** `clearAuthStorage` removes exactly the four auth keys, and a second call changes nothing. */
  lemma ClearAuthExact(items: Items)
    ensures forall k :: k in ClearAuth(items) <==> k in items && k !in Config.StorageKeys
    ensures forall k :: k in ClearAuth(items) ==> ClearAuth(items)[k] == items[k]
    ensures ClearAuth(ClearAuth(items)) == ClearAuth(items)
    ensures forall k :: k in Config.StorageKeys ==> Read(ClearAuth(items), k) == None
  {
  }

  /** Writing a value and reading it back gives the value; other keys are unaffected. */
  lemma ReadAfterWrite(items: Items, key: string, v: Value, other: string)
    ensures Read(Write(items, key, v), key) == Some(v)
    ensures other != key ==> Read(Write(items, key, v), other) == Read(items, other)
  {
  }

  /** A removed key reads as `null`; other keys are unaffected. */
  lemma ReadAfterRemove(items: Items, key: string, other: string)
    ensures Read(Remove(items, key), key) == None
    ensures other != key ==> Read(Remove(items, key), other) == Read(items, other)
  {
  }

  /** The localStorage of the origin, restricted to what the app reads and writes. */
  class AuthStorage {
    var items: Items

    constructor(initial: Items)
      ensures items == initial
    {
      items := initial;
    }

    method GetItem(key: string) returns (v: Option<Value>)
      ensures v == Read(items, key)
    {
      if key in items && items[key].Encoded? {
        v := Some(items[key].v);
      } else {
        v := None;
      }
    }

    method SetItem(key: string, v: Value)
      modifies this
      ensures items == Write(old(items), key, v)
    {
      items := items[key := Encoded(v)];
    }

    method RemoveItem(key: string)
      modifies this
      ensures items == Remove(old(items), key)
    {
      items := items - {key};
    }

    /** `Object.values(STORAGE_KEYS).forEach(removeItem)`. */
    method ClearAuthStorage()
      modifies this
      ensures items == ClearAuth(old(items))
    {
      var keys := [Config.AccessTokenKey, Config.RefreshTokenKey, Config.TokenExpiryKey, Config.CodeVerifierKey];
      ghost var removed: set<string> := {};
      for i := 0 to |keys|
        invariant removed == set j | 0 <= j < i :: keys[j]
        invariant items == old(items) - removed
      {
        RemoveItem(keys[i]);
        removed := removed + {keys[i]};
      }
      assert keys[0] in removed && keys[1] in removed && keys[2] in removed && keys[3] in removed;
      assert removed == Config.StorageKeys;
    }

    /** `getStoredAccessToken()` at time `now`: an expired token purges every auth key. */
    method GetStoredAccessToken(now: int) returns (token: Option<Value>)
      modifies this
      ensures token == (if LookupToken(old(items), now).Valid? then Some(LookupToken(old(items), now).token) else None)
      ensures items == if LookupToken(old(items), now).Expired? then ClearAuth(old(items)) else old(items)
    {
      var t := GetItem(Config.AccessTokenKey);
      var expiry := GetItem(Config.TokenExpiryKey);
      if !TruthyValue(t) || !TruthyValue(expiry) {
        return None;
      }
      var e := ToNumber(expiry.value);
      if e.Some? && now >= e.value - 60000 {
        ClearAuthStorage();
        return None;
      }
      return t;
    }

    /** `storeTokens(data)` at time `now`. */
    method StoreTokens(data: TokenData, now: int)
      modifies this
      ensures items == StoredTokens(old(items), data, now)
    {
      SetItem(Config.AccessTokenKey, Str(data.accessToken));
      SetItem(Config.TokenExpiryKey, Num(now + data.expiresIn * 1000));
      if data.refreshToken.Some? && data.refreshToken.value != "" {
        SetItem(Config.RefreshTokenKey, Str(data.refreshToken.value));
      }
    }

    method GetCodeVerifier() returns (v: Option<Value>)
      ensures v == Read(items, Config.CodeVerifierKey)
    {
      v := GetItem(Config.CodeVerifierKey);
    }

    method StoreCodeVerifier(verifier: string)
      modifies this
      ensures items == Write(old(items), Config.CodeVerifierKey, Str(verifier))
    {
      SetItem(Config.CodeVerifierKey, Str(verifier));
    }

    method ClearCodeVerifier()
      modifies this
      ensures items == Remove(old(items), Config.CodeVerifierKey)
    {
      RemoveItem(Config.CodeVerifierKey);
    }
  }

  /** The code verifier round-trips through the store: stored then read gives it back, cleared then read gives
      `null`, and neither touches the other keys. */
  lemma {:induction false} CodeVerifierRoundTrip(items: Items, verifier: string)
    ensures Read(Write(items, Config.CodeVerifierKey, Str(verifier)), Config.CodeVerifierKey) == Some(Str(verifier))
    ensures Read(Remove(Write(items, Config.CodeVerifierKey, Str(verifier)), Config.CodeVerifierKey), Config.CodeVerifierKey) == None
    ensures forall k :: k != Config.CodeVerifierKey ==> Read(Remove(items, Config.CodeVerifierKey), k) == Read(items, k)
  {
  }
}
