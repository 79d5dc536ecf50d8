/** Constants of src/config/constants.js. */
module Config {

  /** Cache time-to-live: one hour, in milliseconds. */
  const TracksTtl: int := 60 * 60 * 1000

  /** Page size of the saved-tracks endpoint. */
  const TracksPerRequest: nat := 50

  /** localStorage keys of the auth secrets. */
  const AccessTokenKey: string := "spotify_access_token"
  const RefreshTokenKey: string := "spotify_refresh_token"
  const TokenExpiryKey: string := "spotify_token_expiry"
  const CodeVerifierKey: string := "spotify_code_verifier"

  /** `Object.values(STORAGE_KEYS)`. */
  const StorageKeys: set<string> := {AccessTokenKey, RefreshTokenKey, TokenExpiryKey, CodeVerifierKey}

  /** The OAuth scopes requested at login. */
  const Scopes: seq<string> := ["user-library-read"]

  /** Client settings read from the build environment (`import.meta.env`), with the redirect URI
      already defaulted to "http://127.0.0.1:3000/". */
  datatype Settings = Settings(clientId: string, redirectUri: string)
}
