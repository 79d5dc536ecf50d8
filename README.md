# spotify-export-saved, modelled in Dafny

This project models the core of spotify-export-saved. That is a browser app that signs a user in to Spotify with the PKCE authorization-code flow and downloads their library of saved tracks. It caches the tracks in IndexedDB and exports them as CSV. The model covers:

- **Sync engine** (`SpotifyApi`, api.dfy). It models `apiRequest`, the retry loop with its backoff. It also models `fetchSavedTracks`, which sends a count probe and then requests pages of 50 in batches of two, with a 300 ms pause between batches. It reports progress, concatenates the pages in offset order and sorts the result newest first.
- **Auth secret store** (`Storage`, storage.dfy). This is localStorage restricted to its four keys. It covers token expiry with a one-minute margin and the purge of every key on an expired read.
- **Token endpoint flow** (`SpotifyAuth`, auth.dfy). It covers the ordered store writes around the exchange of the code for tokens and around a refresh.
- **PKCE helpers** (`Pkce`, crypto.dfy). The code verifier is built from random bytes. The S256 challenge is the unpadded base64url encoding of the digest. This encoding is proved equal to the encoding that section 5 of RFC 4648 defines.
- **Track cache** (`TrackCache`, indexeddb.dfy). It holds one record, the tracks with their save time, behind a database handle that is opened lazily. A read hits up to and including the TTL. As written, a failing store request rejects the operation's promise instead of being logged, and the track-loading hook is modelled with that behaviour (see Findings).
- **CSV export and formatting** (`CsvExport`, download.dfy, and `Format`, format.dfy). It covers the field escaping of section 2 of RFC 4180, the exported text and `MM:SS` durations. A reader for the CSV text is included. The export is proved to read back as its header and rows.
- **Session state** (`AuthSession`, auth_context.dfy, and `TracksSession`, use_tracks.dfy). These model the auth provider and the track-loading hook as classes whose methods update their state.
- **Legacy code** (`LegacyUtils`, legacy.dfy). It models `get_saved_tracks` and `export_data_csv` of src/Utils.js. Their differences from the current code are stated as lemmas.
- **Shared modules**: `Library` (saved tracks and the stable newest-first sort), `Text` (decimal rendering, `padStart`, `join`), `Config` (constants.js) and `Wrappers` (`Option`, `Result`).

Nothing in the model does I/O. Every outside effect is an input:

- the HTTP outcome of each attempt of each request;
- the token endpoint's answer;
- the clock, as `now`;
- the random bytes;
- the SHA-256 digest, as a function;
- the faults of IndexedDB requests.

Sleeps are recorded as their durations in milliseconds.

No configuration error is raised for a missing client id. The code sends whatever the build environment holds, and this model does the same.

## Model

| member | source | states |
|---|---|---|
| Text.NatToString | src/utils/format.js:15 | `n.toString()` is a non-empty digit string without leading zero, of one digit exactly below 10 and of two digits from 10 to 99 |
| Text.NatToStringValue | src/utils/format.js:15 | the rendered number reads back as the number |
| Text.PadStart | src/utils/format.js:15 | `padStart` keeps the text as a suffix, fills only in front, and reaches the width |
| Format.TwoDigits | src/utils/format.js:15 | a padded component is at least two digits, exactly two below 100 |
| Format.TwoDigitsPads | src/utils/format.js:15 | it is `n.toString().padStart(2, '0')` |
| Format.TwoDigitsValue | src/utils/format.js:15 | the padding keeps the value |
| Format.Clock | src/utils/format.js:15 | `MM:SS` text has at least five characters and the colon third from the end |
| Format.FormatDuration | src/utils/format.js:10-16 | the duration text has the `M…M:SS` shape |
| Format.ParseClock | src/utils/format.js:15 | the reader accepts only texts of that shape |
| Format.ClockReadsBack | src/utils/format.js:11-15 | the text of `minutes` and `seconds < 60` reads back as `minutes * 60 + seconds` |
| Format.FormatDurationReadsBack | src/utils/format.js:10-16 | the duration text reads back as `floor(ms / 1000)` seconds, so the seconds are 00 to 59 and the minutes are never capped |
| Format.SliceTo | src/utils/format.js:39 | `slice(0, end)` within the bounds is the prefix of length `end` |
| Format.TruncateText | src/utils/format.js:37-40 | text within the limit is unchanged; longer text becomes a prefix of itself followed by "...", the prefix being `maxLength` characters long, or for a negative limit the text less its last `-maxLength` characters |
| Format.TruncateDefault | src/utils/format.js:37 | with the default limit of 50 the result has at most 53 characters, and text of up to 50 is unchanged |
| Format.TruncateTextShape | src/utils/format.js:37-40 | for a limit that is not negative: text within the limit is unchanged; longer text is its first `maxLength` characters and "...", `maxLength + 3` in all; truncating the result again changes nothing |
| Storage.Read | src/services/storage.js:13-20 | `getItem` gives a value exactly when the key is present and parses, and that value is the stored one |
| Storage.LookupToken | src/services/storage.js:58-71 | a returned token is the stored one and is truthy; a token can only expire when one is stored and its expiry is a number |
| Storage.LookupMissing | src/services/storage.js:62 | a missing or falsy token or expiry reads as no token |
| Storage.TokenValidIff | src/services/storage.js:58-71 | the token is returned iff both entries are truthy and `now < expiry - 60000` (or the expiry is not a number), and it is the stored token |
| Storage.ExpiryIsFinal | src/services/storage.js:62-69 | once expired, a token stays expired at every later time, and a token returned later would have been returned earlier |
| Storage.StoredTokenReadsBack | src/services/storage.js:80-87 | a token just stored reads back until a minute before `now + expires_in * 1000` |
| Storage.StoredTokensEffect | src/services/storage.js:80-87 | `storeTokens` writes the token and the expiry; it writes the refresh token only when one is given and leaves every other key as it was |
| Storage.ClearAuthExact | src/services/storage.js:50-52 | exactly the four auth keys are removed, other entries are kept, and clearing twice is clearing once |
| Storage.ReadAfterWrite | src/services/storage.js:27-33 | a written value reads back and other keys are unaffected |
| Storage.ReadAfterRemove | src/services/storage.js:39-45 | a removed key reads as `null` and other keys are unaffected |
| Storage.CodeVerifierRoundTrip | src/services/storage.js:93-110 | a stored verifier reads back, and a cleared one reads as `null` |
| Storage.AuthStorage.GetItem | src/services/storage.js:13-20 | the method returns `Read` of the store |
| Storage.AuthStorage.SetItem | src/services/storage.js:27-33 | the store becomes `Write` of the old store |
| Storage.AuthStorage.RemoveItem | src/services/storage.js:39-45 | the store becomes `Remove` of the old store |
| Storage.AuthStorage.ClearAuthStorage | src/services/storage.js:50-52 | the loop over the four keys leaves `ClearAuth` of the old store |
| Storage.AuthStorage.GetStoredAccessToken | src/services/storage.js:58-71 | returns the token exactly when `LookupToken` finds it valid, and purges every auth key exactly when the token has expired |
| Storage.AuthStorage.StoreTokens | src/services/storage.js:80-87 | the store becomes `StoredTokens` of the old store |
| Storage.AuthStorage.GetCodeVerifier | src/services/storage.js:93-95 | returns the stored verifier |
| Storage.AuthStorage.StoreCodeVerifier | src/services/storage.js:101-103 | writes the verifier key |
| Storage.AuthStorage.ClearCodeVerifier | src/services/storage.js:108-110 | removes the verifier key |
| SpotifyAuth.ParamValue | src/services/spotify/auth.js:27-34 | `params.get(name)` finds a value exactly when a pair has that name |
| SpotifyAuth.InitiateLogin | src/services/spotify/auth.js:20-37 | the verifier of the random bytes is stored, and the authorization request carries the challenge of that verifier |
| SpotifyAuth.LoginBindsVerifier | src/services/spotify/auth.js:21-34 | the request has `response_type=code`, `code_challenge_method=S256`, the scopes joined by spaces, and the challenge of exactly the stored verifier, which has 43 to 128 characters |
| SpotifyAuth.ExchangeCodeForToken | src/services/spotify/auth.js:45-80 | result, request and new store are those of `Exchanged` |
| SpotifyAuth.Exchanged | src/services/spotify/auth.js:45-80 | the exchange succeeds iff a verifier is stored and the endpoint grants tokens, and then returns the granted data; an unreachable endpoint leaves the store as it was |
| SpotifyAuth.ExchangeNeedsVerifier | src/services/spotify/auth.js:46-50 | without a stored verifier the exchange fails with its message before any request and leaves the store untouched, and only then |
| SpotifyAuth.ExchangeRequest | src/services/spotify/auth.js:52-58 | the token request carries `grant_type=authorization_code`, the code, the redirect URI and the stored verifier |
| SpotifyAuth.ExchangeParamsFields | src/services/spotify/auth.js:52-58 | the same fields, read from the parameter list |
| SpotifyAuth.ExchangeAnswered | src/services/spotify/auth.js:60-79 | once the endpoint answers, the verifier is gone; a refusal fails with `error_description` or the default message and changes no other key; a grant stores the token and the expiry and returns the data |
| SpotifyAuth.RefreshAccessToken | src/services/spotify/auth.js:87-111 | result, request and new store are those of `Refreshed` |
| SpotifyAuth.Refreshed | src/services/spotify/auth.js:87-111 | a refresh always sends its request; it succeeds iff the endpoint grants tokens, and then returns the granted data; an unreachable endpoint leaves the store as it was |
| SpotifyAuth.RefreshOutcome | src/services/spotify/auth.js:87-111 | the request carries `grant_type=refresh_token` and the token; a refusal clears every auth key and fails; a grant stores the new token, which then reads as valid exactly when it is non-empty and outlives the one-minute margin |
| SpotifyAuth.Logout | src/services/spotify/auth.js:116-119 | every auth key is removed |
| Pkce.CharRange | src/utils/crypto.js:12-13 | the alphabet pieces are consecutive characters |
| Pkce.AlphanumericsShape | src/utils/crypto.js:12-13 | `possible` has 62 characters, all letters or digits, A first, a at 26, 9 last |
| Pkce.RandomString | src/utils/crypto.js:11-18 | one character per random byte |
| Pkce.RandomStringChars | src/utils/crypto.js:12-16 | character `i` is `possible[bytes[i] % 62]`, always a letter or a digit, and each of the 62 can occur |
| Pkce.CodeVerifier | src/utils/crypto.js:47-49 | the verifier has 64 unreserved characters, within the 43 to 128 of section 4.1 of RFC 7636 |
| Pkce.RemoveAll | src/utils/crypto.js:38 | no `=` is left |
| Pkce.ReplaceAll | src/utils/crypto.js:39-40 | a one-character replacement keeps the length and changes exactly the occurrences of that character |
| Pkce.Base64UrlReference | src/utils/crypto.js:36-41 | the reference encoding of section 5 of RFC 4648 has `ceil(8n / 6)` characters |
| Pkce.UrlSafeChars | src/utils/crypto.js:38-40 | the replacements map each standard base64 character to its URL-safe counterpart |
| Pkce.Base64UrlEncode | src/utils/crypto.js:36-41 | the output holds no `=`, `+` or `/` |
| Pkce.Base64UrlEncodeIsReference | src/utils/crypto.js:36-41 | `base64urlEncode` equals the unpadded base64url encoding of RFC 4648, for every input |
| Pkce.Base64UrlEncodeShape | src/utils/crypto.js:36-41 | the output has no `=`, `+` or `/`, uses only unreserved characters, has `ceil(8n / 6)` characters, and has 43 for a 32-byte digest |
| Pkce.CodeChallenge | src/utils/crypto.js:56-59 | the challenge is the RFC 4648 base64url encoding of the digest of the verifier: 43 unreserved characters for a SHA-256 digest |
| TrackCache.Lookup | src/services/indexedDB.js:97-120 | a hit needs a record at most `maxAge` old and returns its tracks, with an age in minutes that is not negative for a record saved before `now` |
| TrackCache.AgeMinutes | src/services/indexedDB.js:114 | the age in whole minutes is `floor(age / 60000)` |
| TrackCache.LookupHitIff | src/services/indexedDB.js:99-120 | a read hits iff a record exists and its age is at most `maxAge`; a hit returns the stored tracks with the age in minutes and keeps the record |
| TrackCache.KeptSettles | src/services/indexedDB.js:104-112 | a miss leaves no record behind, and a second read at the same time reads the same |
| TrackCache.SaveThenLookup | src/services/indexedDB.js:62-120 | tracks saved at `saved` read back unchanged at any time up to `maxAge` later |
| TrackCache.HandleAfter | src/services/indexedDB.js:16-43 | the handle is missing after an operation exactly when an open was needed and failed; a held handle is kept |
| TrackCache.RequestFailuresEscape | src/services/indexedDB.js:50-151 | as written, whatever handle is held, load, save and clear each reject with their own message exactly when the database is open and the store request fails; a failed open alone is caught, and a load then gives `null` |
| TrackCache.CaughtLoadIsNullOnFailure | src/services/indexedDB.js:86-127 | with rejections caught, as the `catch` blocks intend, a load gives `null` on every failure and `Lookup` otherwise; wherever the code as written resolves, it resolves to that same value |
| TrackCache.TrackDb.OpenDb | src/services/indexedDB.js:16-43 | a held handle is returned and no new open is made; otherwise a failed open rejects, and a successful one stores and returns the handle, so for calls that do not overlap at most one open ever succeeds |
| TrackCache.TrackDb.SaveTracks | src/services/indexedDB.js:50-79 | a failed `put` rejects with "Failed to save tracks" and a failed open is only logged; the record is replaced by the tracks and `now` unless the open or the `put` fails, in which case it is unchanged |
| TrackCache.TrackDb.LoadTracks | src/services/indexedDB.js:86-127 | a failed open gives `null` and a failed `get` rejects with "Failed to load tracks", both keeping the record; otherwise the result is `Lookup` and an expired record is cleared |
| TrackCache.TrackDb.ClearTracks | src/services/indexedDB.js:133-151 | a failed `clear` rejects with "Failed to clear tracks" and a failed open is only logged; the record is gone unless a failure intervened |
| TrackCache.TrackDb.GetCacheSize | src/services/indexedDB.js:157-182 | any failure gives "? MB", no record gives "0 MB", and the record is unchanged |
| SpotifyApi.RequestHeaders | src/services/spotify/api.js:42-48 | every attempt sends `Authorization: Bearer <token>` and the JSON content type unless the caller's headers override them, and the caller's headers always win |
| SpotifyApi.ApiRequest | src/services/spotify/api.js:37-92 | the retry loop's result, sleeps and attempt count are those of `Run`, and every attempt sends the same headers |
| SpotifyApi.Decide | src/services/spotify/api.js:50-87 | an attempt returns a body iff its response is a 2xx, and then returns that response's body; it fails with "UNAUTHORIZED" iff the response is a 401; one attempt alone never reports "Max retries exceeded" |
| SpotifyApi.DecideWaits | src/services/spotify/api.js:50-87 | an attempt before the last retries exactly on 429, 5xx or a network `TypeError`; the last retries only on 429; the wait is `(Retry-After + 1) * 1000` or `2^attempt * 1000` |
| SpotifyApi.RunSettlesAt | src/services/spotify/api.js:40-89 | the request settles on the first attempt that does not wait, after exactly that many fetches and the earlier sleeps |
| SpotifyApi.RunExhausted | src/services/spotify/api.js:40-91 | when every attempt waits, `retries + 1` fetches end in "Max retries exceeded" |
| SpotifyApi.RunAttemptsBound | src/services/spotify/api.js:40-91 | between 1 and `retries + 1` fetches; a sleep after every attempt but a settling one |
| SpotifyApi.RunAnsweredByLast | src/services/spotify/api.js:40-91 | a success or an "UNAUTHORIZED" is the answer to the last fetch made: the body of its 2xx response, or its 401 |
| SpotifyApi.MaxRetriesIff | src/services/spotify/api.js:40-91 | "Max retries exceeded" iff every attempt before the last was retryable and the last was a 429 |
| SpotifyApi.UnauthorizedIsFinal | src/services/spotify/api.js:63-65 | a 401 fails with "UNAUTHORIZED" on the attempt that got it |
| SpotifyApi.ServerErrorOnLastAttempt | src/services/spotify/api.js:68-75 | a 5xx on the last attempt fails with the server's message or the status, not with max-retries |
| SpotifyApi.RateLimitedThenOk | src/services/spotify/api.js:51-58 | a 429 with `Retry-After: 2` then a success takes two fetches and one 3000 ms sleep |
| SpotifyApi.BackoffSchedule | src/services/spotify/api.js:68-72 | server errors are retried after 1 s, 2 s and 4 s |
| SpotifyApi.OffsetsShape | src/services/spotify/api.js:114-116 | exactly `ceil(total / 50)` offsets `0, 50, …`, each below `total` |
| SpotifyApi.PageOffsets | src/services/spotify/api.js:112-116 | the offsets loop builds `Offsets(total)` |
| SpotifyApi.FetchPage | src/services/spotify/api.js:129 | one page request is the retry loop over that page's outcomes |
| SpotifyApi.RecordInBatch | src/services/spotify/api.js:128-132 | a success counts one more completed page and reports progress; a failure becomes the batch's failure |
| SpotifyApi.CountOk | src/services/spotify/api.js:130 | no more pages are counted as completed than were requested |
| SpotifyApi.FetchBatch | src/services/spotify/api.js:125-134 | the batch's requests leave the counters, reports and entries of every page up to its end |
| SpotifyApi.NextBatch | src/services/spotify/api.js:124-138 | a batch ends at `min(i + 2, n)`; on success its entries follow those of the earlier batches |
| SpotifyApi.CollectedPagesSucceeded | src/services/spotify/api.js:124-147 | with no failing page the result is the sorted concatenation of every page, with every offset requested and one report per page |
| SpotifyApi.CollectedPagesFailed | src/services/spotify/api.js:124-144 | the first failing page's error ends the call after its batch, with `b` pauses |
| SpotifyApi.CollectedPages | src/services/spotify/api.js:119-147 | once the count is known, there are never more progress reports than page requests, and a success is newest first |
| SpotifyApi.CollectPages | src/services/spotify/api.js:119-147 | the batch loop and the sort produce `CollectedPages` |
| SpotifyApi.FetchSavedTracks | src/services/spotify/api.js:101-150 | result, requested offsets, progress reports and pauses are those of `Collected` |
| SpotifyApi.Collected | src/services/spotify/api.js:101-150 | a call never reports more progress than it requested pages, and a success is newest first |
| SpotifyApi.ProgressEventsShape | src/services/spotify/api.js:130-131 | each report has `total` second and `0 < current <= total`; the reports never decrease, and the last one is `(total, total)` once all pages completed |
| SpotifyApi.CollectedOkIff | src/services/spotify/api.js:101-150 | a call succeeds iff the probe and every page request succeed |
| SpotifyApi.CollectedAllPages | src/services/spotify/api.js:101-150 | a successful call requests each offset once and in order and returns a newest-first permutation of all entries that keeps their order within each instant; it reports progress up to `(total, total)` and pauses between batches |
| SpotifyApi.CollectedFirstFailure | src/services/spotify/api.js:124-144 | the first failing page fails the call with its error, after requesting only up to the end of its batch |
| Library.SortPermutes | src/services/spotify/api.js:147 | the sort keeps the same entries |
| Library.SortIsNewestFirst | src/services/spotify/api.js:147 | the sorted entries are newest first |
| Library.SortIsStable | src/services/spotify/api.js:147 | entries added at the same instant keep their order |
| Library.SortLength | src/services/spotify/api.js:147 | the sort keeps the length |
| CsvExport.DoubleQuotes | src/utils/download.js:53 | doubling the quotes never shortens the value |
| CsvExport.EscapeField | src/utils/download.js:45-56 | escaping never shortens a value; a value with a comma, quote or line break gains at least two characters and is wrapped in quotes |
| CsvExport.QuotedBodyRoundTrip | src/utils/download.js:53 | doubled quotes and the closing quote read back as the value |
| CsvExport.UnquotedRoundTrip | src/utils/download.js:55 | an unquoted value reads back up to the next comma or line break |
| CsvExport.FieldRoundTrip | src/utils/download.js:45-56 | every escaped value reads back as itself, whatever follows it |
| CsvExport.QuotedFieldRoundTrip | src/utils/download.js:48-54 | a value with a comma, quote or newline is quoted with inner quotes doubled, and reads back |
| CsvExport.PlainFieldRoundTrip | src/utils/download.js:47-55 | a plain value is written unquoted and reads back |
| CsvExport.PlainUnchanged | src/utils/download.js:47-55 | a value with no comma, quote or newline is returned as is |
| CsvExport.RecordRoundTrip | src/utils/download.js:67-74 | a line of escaped values joined by commas reads back as the values |
| CsvExport.CsvRoundTrip | src/utils/download.js:78 | lines joined by "\n" read back as the rows |
| CsvExport.HeaderColumns | src/utils/download.js:63 | the header has six columns, "Album" fourth and "Added At" fifth |
| CsvExport.NumbersArePlain | src/utils/download.js:68-73 | the index and the duration never need quoting |
| CsvExport.RowIsLine | src/utils/download.js:65-75 | with a plain `added_at`, a track's line is the CSV line of its six values |
| CsvExport.HeaderIsLine | src/utils/download.js:63 | the header line is the CSV line of the header |
| CsvExport.ExportCsv | src/utils/download.js:62-82 | the export starts with the header line, and an empty library exports the header line alone |
| CsvExport.ExportIsDocument | src/utils/download.js:62-82 | with plain `added_at`, the export is the CSV text of its rows |
| CsvExport.ExportReadsBack | src/utils/download.js:62-82 | the export reads back as the six-column header and, per track in order, its 1-based index, title, artists joined by "; ", album, `added_at` and duration |
| LegacyUtils.LegacyOffsets | src/Utils.js:40 | the legacy loop requests `0, 50, …` up to and including `total`, and nothing when the count failed |
| LegacyUtils.FirstError | src/Utils.js:55 | `Promise.all` rejects iff a page fails, with the error of a failing page |
| LegacyUtils.LegacyPages | src/Utils.js:40-53 | one result per legacy offset |
| LegacyUtils.GetSavedTracks | src/Utils.js:21-64 | the offsets requested and the result are those of `LegacyOffsets` and `LegacySaved` |
| LegacyUtils.LegacySaved | src/Utils.js:21-64 | a rejection carries the error of one of the requested pages, and a success is newest first |
| LegacyUtils.LegacyOffsetsVsApi | src/Utils.js:40 | for a multiple of 50 the legacy loop requests one extra, empty page at `total`, and otherwise the same offsets as the current code |
| LegacyUtils.LegacySavedShape | src/Utils.js:21-64 | a failed count gives `[]`; the call rejects iff a page fails; otherwise a newest-first, order-keeping permutation of every entry |
| LegacyUtils.LegacyCsv | src/Utils.js:89-114 | the legacy text starts with the header line, and with no songs it is the header line alone |
| LegacyUtils.LegacyCsvIsDocument | src/Utils.js:89-114 | with no value needing quotes, the legacy text is the CSV text of the header and the legacy rows |
| LegacyUtils.LegacyReadsBack | src/Utils.js:89-114 | such a text reads back as the header and the legacy rows |
| LegacyUtils.LegacyRowsShape | src/Utils.js:99-107 | each legacy row has five values, counted from 0, with `added_at` fourth |
| LegacyUtils.LegacyColumnsMisaligned | src/Utils.js:89-107 | as written, the legacy text reads back as six header columns over five-value rows, with `added_at` under "Album" |
| LegacyUtils.LegacyCommaSplitsTitle | src/Utils.js:99-106 | as written, a title "A,B" reads back as two values, which pushes the artist under "Album" |
| AuthSession.Flags | src/context/AuthContext.jsx:129-130 | `isAuthenticated` iff AUTHENTICATED, `isLoading` iff LOADING, never both |
| AuthSession.ParseCallback | src/context/AuthContext.jsx:47-62 | the callback branch opens iff the code or the error is truthy, and an error takes precedence over a code |
| AuthSession.DeniedMessage | src/context/AuthContext.jsx:58 | the message is "Authentication failed: " followed by the error |
| AuthSession.AuthContext.StartInitAuth | src/context/AuthContext.jsx:43-86 | a denial gives ERROR with its message; a code marks the callback in progress and is handed to the exchange; while a callback is in progress nothing changes; without a callback the stored token decides between AUTHENTICATED and UNAUTHENTICATED |
| AuthSession.AuthContext.FinishInitAuth | src/context/AuthContext.jsx:64-73 | a successful exchange gives AUTHENTICATED with its token and a failed one ERROR with its message; either way the flag is reset |
| AuthSession.AuthContext.Login | src/context/AuthContext.jsx:94-102 | the error is cleared and the verifier stored, or ERROR with the crypto failure's message and nothing stored |
| AuthSession.AuthContext.Logout | src/context/AuthContext.jsx:107-112 | no token, UNAUTHENTICATED, no error, and every auth key removed |
| AuthSession.AuthContext.HandleUnauthorized | src/context/AuthContext.jsx:117-122 | the same as logout, with the session-expired message |
| AuthSession.InitAuth | src/context/AuthContext.jsx:43-86 | run to completion, a code gives AUTHENTICATED iff the exchange succeeds, a denial gives ERROR with its message, and no callback gives AUTHENTICATED iff a valid token is stored; the flag is reset at the end |
| TracksSession.Flags | src/hooks/useTracks.js:152-154 | each flag holds iff its status does, and no two hold at once |
| TracksSession.ProgressAfter | src/hooks/useTracks.js:56-58 | the stored progress keeps `current <= total` and ends on the last report's total |
| TracksSession.TracksHook.FetchFromApi | src/hooks/useTracks.js:41-83 | it does nothing without a token; on success it shows the tracks, caches them at `now`, resets the age and reads the size; when the `put` of that save fails, it shows ERROR "Failed to save tracks" and keeps the tracks, the age and the size; on "UNAUTHORIZED" it hands over to the auth session and keeps LOADING; on any other error it shows ERROR with the message |
| TracksSession.TracksHook.ShowOutcome | src/hooks/useTracks.js:62-80 | the end of a fetch for each outcome of the sync and of the save; a rejected save reaches the `catch` like a failed sync |
| TracksSession.TracksHook.ShowFetched | src/hooks/useTracks.js:62-71 | it throws "Failed to save tracks" exactly when the `put` fails, before anything else changes; otherwise the tracks are cached unless the open fails, the age becomes 0, the size is read and SUCCESS is shown |
| TracksSession.TracksHook.ShowFailure | src/hooks/useTracks.js:72-80 | for the message of whatever was thrown, "UNAUTHORIZED" logs the session out with the session-expired message; any other message is shown as ERROR |
| TracksSession.TracksHook.LoadTracksFromCacheOrApi | src/hooks/useTracks.js:88-108 | a cached entry within the TTL with at least one track is shown as from the cache; a failing `get` rejects the call with "Failed to load tracks" before any fetch, and nothing changes; anything else falls through to a fetch with progress |
| TracksSession.TracksHook.ForceRefresh | src/hooks/useTracks.js:122-125 | the cache is cleared first, then a fetch with progress runs; a failing `clear` rejects the call before the fetch, and nothing changes |
| TracksSession.TracksHook.ClearCache | src/hooks/useTracks.js:137-140 | the cache is cleared and the size forgotten; a failing `clear` rejects the call and keeps the size; nothing else changes |
| TracksSession.ProgressReachesTotal | src/hooks/useTracks.js:56-58 | after a fully successful sync the shown progress is `(total, total)` |
| TracksSession.CacheHitIff | src/hooks/useTracks.js:88-107 | the cached tracks are shown iff the cache works and the entry is at most one hour old and holds a track; the call rejects iff the database is open and the `get` fails; the API is asked otherwise |

## Left out

- Format.TruncateText: lengths and slices count Unicode scalar values, which are Dafny's characters, while JavaScript counts UTF-16 code units. A text with a character outside the Basic Multilingual Plane, such as an emoji, is cut elsewhere than the source cuts it, or not at all.
- Format.TruncateTextShape: the same difference between Unicode scalar values and UTF-16 code units.
- Format.TruncateDefault: the same difference between Unicode scalar values and UTF-16 code units.
- TrackCache.TrackDb.OpenDb: calls that overlap are not modelled. `db` is set only when an open request succeeds, so operations started before the first open finishes each issue their own open request, and several can succeed. The single-open property holds only for calls that do not overlap.
- TrackCache.TrackDb.GetCacheSize: a stored record gives `Sized` without its size in MB. The size comes from the length of its JSON text and is computed in floating point.
- SpotifyApi.Collected: when both requests of a batch fail, the source rejects with whichever fails first in time. The model reports the error of the lower offset, because request timing is not modelled.
- LegacyUtils.FirstError: the same simplification for the legacy `Promise.all`.
- Storage.ToNumber: reads only digit strings as numbers. JavaScript's `ToNumber` also accepts signs, spaces, fractions and exponents. The app only ever stores the expiry as a number.
- TracksSession.TracksHook.LoadTracksFromCacheOrApi: on a fall-through, the contract states the shown progress, a success and an error other than "UNAUTHORIZED". The cache writes and the auth hand-off are stated by `FetchFromApi`, which it calls.
- TracksSession.TracksHook.ForceRefresh: the contract states the cleared record, the progress and the result. The rest is stated by `FetchFromApi`.
- `fetchUserProfile` is not in the modelled core.
- `delay` is not in the modelled core. Sleeps are recorded as durations instead of being waited out.
- React scheduling is not modelled. State updates take effect at once, and `useMemo`/`useCallback` are plain values and methods. The `autoFetch` effect and the `refetch` wrapper only call `loadTracksFromCacheOrApi`.
- Strict Mode's double run of `initAuth` is modelled only as two `StartInitAuth` calls around the exchange.
- Browser navigation is not modelled. This covers the redirects of `initiateLogin` and `logout`, `parseCallback`, `clearCallbackParams`, and the encoding of the query strings. The callback parameters are inputs, and requests are kept as name–value lists.
- JSON is not modelled. Stored values are strings and integers. A body that is not JSON gives no server message.
- `Retry-After` arrives already parsed by `parseInt`.
- `new Date(added_at)` is not modelled. Each entry carries its instant as a number.
- The entries are modelled through the fields the core reads, not the full API object.
- Exceptions from localStorage itself are not modelled, for example a full or disabled storage. The source only logs them.
- IndexedDB internals are not modelled: `onupgradeneeded`, transactions and event order. The `clearTracks()` that `loadTracks` starts without awaiting is applied at once.
- SHA-256, `crypto.getRandomValues`, `TextEncoder` and `btoa`'s byte-to-character step are inputs or are folded into the byte sequence.
- JavaScript numbers are doubles. The model uses unbounded integers, which agree for every value the app handles.
- `formatDate`, `downloadFile`, `exportAsJson` and `export_data_json` are not modelled. They hand data to the browser and contain no logic beyond it.
- `parseMillisecondsIntoReadableTime` of src/Utils.js works in floating point. It is the input function `readable` of `LegacyUtils`.

## Findings

| source | as written | input that shows it | evidently intended | confidence | as-written member | corrected member |
|---|---|---|---|---|---|---|
| src/services/indexedDB.js:86-127 | `loadTracks`, `saveTracks` and `clearTracks` return a `new Promise` from inside `try` without awaiting it, so a rejection from a failing store request escapes the `catch` | the database is open and the `get`, `put` or `clear` request fails: the caller's `await` throws "Failed to load tracks" (or the save or clear message) | the failure is caught, logged, and `loadTracks` gives `null`; in the hook, a failing `put` after a sync then shows the fetched tracks instead of ERROR "Failed to save tracks", and a failing `get` falls through to a fetch instead of rejecting `loadTracksFromCacheOrApi` | not executed | TrackCache.RequestFailuresEscape | TrackCache.CaughtLoadIsNullOnFailure |
| src/Utils.js:89-107 | the header names six columns, including "Album", but each row has five values and no album | any song with plain values: its `added_at` reads back under "Album" and its duration under "Added At" | one value per header column | not executed | LegacyUtils.LegacyColumnsMisaligned | CsvExport.ExportReadsBack |
| src/Utils.js:99-106 | row values are joined with "," without escaping | a song titled "A,B": its row reads back as "A" and "B" in two columns | values with commas, quotes or newlines are quoted | not executed | LegacyUtils.LegacyCommaSplitsTitle | CsvExport.FieldRoundTrip |
