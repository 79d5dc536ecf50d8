/**
 * The track-loading session of src/hooks/useTracks.js: the `tracks`, `status`, `error`, `progress`, `isFromCache`,
 * `cacheAge` and `cacheSize` state of the hook, over the auth session, the track cache and the sync engine. The
 * API's responses, the clock and the cache's faults are inputs.
 */
module TracksSession {
  import opened Wrappers
  import opened Library
  import Config
  import Storage
  import SpotifyApi
  import TrackCache
  import AuthSession

  datatype TracksStatus = Idle | Loading | Success | Failed

  /** The flags the hook derives from `status`. */
  datatype TracksFlags = TracksFlags(isLoading: bool, isSuccess: bool, isError: bool)

  function Flags(status: TracksStatus): (f: TracksFlags)
    ensures f.isLoading <==> status == Loading
    ensures f.isSuccess <==> status == Success
    ensures f.isError <==> status == Failed
    ensures !(f.isLoading && f.isSuccess) && !(f.isLoading && f.isError) && !(f.isSuccess && f.isError)
  {
    TracksFlags(status == Loading, status == Success, status == Failed)
  }

  datatype Progress = Progress(current: int, total: int)

  /** The stored progress after the reports `events` of one fetch: each report stores
      `{ current: Math.min(current, total), total }`, so the last one stays. */
  function ProgressAfter(start: Progress, events: seq<(int, int)>): (p: Progress)
    ensures start.current <= start.total ==> p.current <= p.total
    ensures events != [] ==> p.total == events[|events| - 1].1
    ensures events == [] ==> p == start
  {
    if events == [] then start
    else
      var (current, total) := events[|events| - 1];
      Progress(SpotifyApi.Min(current, total), total)
  }

  /** The faults of one cache operation: whether an open request would fail, whether the store request would
      fail, and the handle a successful open gives. */
  datatype CacheFaults = CacheFaults(openFails: bool, requestFails: bool, newHandle: nat)

  /** `getCacheSize()` on a database whose handle is `handle` and whose record is `record`. */
  function SizeSeen(handle: Option<nat>, record: Option<TrackCache.CacheRecord>, f: CacheFaults): TrackCache.CacheSize {
    if TrackCache.OpenFails(handle, f.openFails) || f.requestFails then TrackCache.UnknownSize
    else if record.None? then TrackCache.EmptyCache
    else TrackCache.Sized
  }

  /** Whether the store request of a cache operation on a database whose handle is `handle` is issued and
      fails, so that the operation's promise rejects. */
  predicate Rejects(handle: Option<nat>, f: CacheFaults) {
    TrackCache.RequestRejects(handle, f.openFails, f.requestFails)
  }

  /** Whether what `loadTracks(TRACKS_TTL)` settled with is a cache hit the hook shows: resolved with an entry
      holding at least one track. */
  predicate Hit(s: TrackCache.Settled<Option<TrackCache.Loaded>>) {
    s.Resolved? && s.value.Some? && |s.value.value.tracks| > 0
  }

  /** The message `fetchFromApi` hands over to the auth session instead of showing it. */
  const UnauthorizedMessage := "UNAUTHORIZED"

  class TracksHook {
    var tracks: seq<SavedTrack>
    var status: TracksStatus
    var error: Option<string>
    var progress: Progress
    var isFromCache: bool
    var cacheAge: Option<int>
    var cacheSize: Option<TrackCache.CacheSize>
    /** The auth session of the provider (`useAuth()`). */
    const auth: AuthSession.AuthContext
    /** The IndexedDB track cache. */
    const cache: TrackCache.TrackDb

    /** The stored progress never shows more pages than there are, and the objects below are consistent. */
    ghost predicate Valid()
      reads this, auth, cache
    {
      progress.current <= progress.total && auth.Valid() && cache.Valid()
    }

    constructor(auth: AuthSession.AuthContext, cache: TrackCache.TrackDb)
      requires auth.Valid() && cache.Valid()
      ensures Valid() && this.auth == auth && this.cache == cache
      ensures tracks == [] && status == Idle && error.None? && progress == Progress(0, 0)
      ensures !isFromCache && cacheAge.None? && cacheSize.None?
    {
      tracks := [];
      status := Idle;
      error := None;
      progress := Progress(0, 0);
      isFromCache := false;
      cacheAge := None;
      cacheSize := None;
      this.auth := auth;
      this.cache := cache;
    }

    /**
     * `fetchFromApi(showProgress)` at time `now`, with `probe` and `page` the outcomes of the sync engine's
     * requests and `save`, `size` the faults of the cache operations after a successful sync. A failing `put`
     * rejects `saveTracks`, and the `catch` shows its message as ERROR in place of the fetched tracks.
     */
    method FetchFromApi(showProgress: bool, probe: nat -> SpotifyApi.Outcome<SpotifyApi.PageBody>,
                        page: (nat, nat) -> SpotifyApi.Outcome<SpotifyApi.PageBody>, now: int,
                        save: CacheFaults, size: CacheFaults)
      requires Valid()
      modifies this, auth, auth.store, cache
      ensures Valid()
      ensures !Storage.TruthyValue(old(auth.accessToken)) ==>
                && tracks == old(tracks) && status == old(status) && error == old(error) && progress == old(progress)
                && isFromCache == old(isFromCache) && cacheAge == old(cacheAge) && cacheSize == old(cacheSize)
                && cache.record == old(cache.record) && auth.store.items == old(auth.store.items)
                && auth.status == old(auth.status) && auth.error == old(auth.error)
      ensures Storage.TruthyValue(old(auth.accessToken)) ==>
                var c := SpotifyApi.Collected(probe, page);
                var saveRejects := Rejects(old(cache.handle), save);
                && !isFromCache
                && progress == (if showProgress then ProgressAfter(Progress(0, 0), c.progress) else old(progress))
                && (c.result.Ok? && !saveRejects ==>
                      && tracks == c.result.value && status == Success && error.None? && cacheAge == Some(0)
                      && cache.record == (if TrackCache.OpenFails(old(cache.handle), save.openFails)
                                          then old(cache.record) else Some(TrackCache.CacheRecord(c.result.value, now)))
                      && cacheSize == Some(SizeSeen(TrackCache.HandleAfter(old(cache.handle), save.openFails, save.newHandle),
                                                    cache.record, size))
                      && auth.store.items == old(auth.store.items) && auth.status == old(auth.status))
                && (c.result.Ok? && saveRejects ==>
                      && status == Failed && error == Some(TrackCache.SaveFailed)
                      && tracks == old(tracks) && cacheAge == old(cacheAge) && cacheSize == old(cacheSize)
                      && cache.record == old(cache.record)
                      && auth.store.items == old(auth.store.items) && auth.status == old(auth.status))
                && (c.result.Err? ==>
                      && tracks == old(tracks) && cacheAge == old(cacheAge) && cacheSize == old(cacheSize)
                      && cache.record == old(cache.record))
                && (c.result.Err? && SpotifyApi.Message(c.result.error) == UnauthorizedMessage ==>
                      && status == Loading && error.None?
                      && auth.status == AuthSession.Unauthenticated && auth.accessToken.None?
                      && auth.error == Some(AuthSession.SessionExpired)
                      && auth.store.items == Storage.ClearAuth(old(auth.store.items)))
                && (c.result.Err? && SpotifyApi.Message(c.result.error) != UnauthorizedMessage ==>
                      && status == Failed && error == Some(SpotifyApi.Message(c.result.error))
                      && auth.store.items == old(auth.store.items) && auth.status == old(auth.status))
    {
      var token := auth.accessToken;
      if !Storage.TruthyValue(token) {
        return;
      }
      status := Loading;
      error := None;
      isFromCache := false;
      if showProgress {
        progress := Progress(0, 0);
      }
      var result, requested, events, pauses := SpotifyApi.FetchSavedTracks(Storage.ValueText(token.value), probe, page);
      ghost var c := SpotifyApi.Collected(probe, page);
      assert result == c.result && events == c.progress;
      if showProgress {
        progress := ProgressAfter(progress, events);
      }
      assert cache.handle == old(cache.handle) && cache.record == old(cache.record);
      assert auth.store.items == old(auth.store.items) && auth.status == old(auth.status);
      ShowOutcome(result, now, save, size);
    }

    /** The end of `fetchFromApi` once the sync has settled with `result`: the rest of the `try` block, and the
        `catch` block for whatever the sync or the save threw. */
    method ShowOutcome(result: Result<seq<SavedTrack>, SpotifyApi.ApiError>, now: int, save: CacheFaults,
                       size: CacheFaults)
      requires Valid()
      modifies this, auth, auth.store, cache
      ensures Valid()
      ensures progress == old(progress) && isFromCache == old(isFromCache)
      ensures result.Ok? && !Rejects(old(cache.handle), save) ==>
                && tracks == result.value && status == Success && error == old(error) && cacheAge == Some(0)
                && cache.record == (if TrackCache.OpenFails(old(cache.handle), save.openFails)
                                    then old(cache.record) else Some(TrackCache.CacheRecord(result.value, now)))
                && cacheSize == Some(SizeSeen(TrackCache.HandleAfter(old(cache.handle), save.openFails, save.newHandle),
                                              cache.record, size))
                && auth.store.items == old(auth.store.items) && auth.status == old(auth.status)
      ensures result.Ok? && Rejects(old(cache.handle), save) ==>
                && status == Failed && error == Some(TrackCache.SaveFailed)
                && tracks == old(tracks) && cacheAge == old(cacheAge) && cacheSize == old(cacheSize)
                && cache.record == old(cache.record)
                && auth.store.items == old(auth.store.items) && auth.status == old(auth.status)
      ensures result.Err? ==>
                && tracks == old(tracks) && cacheAge == old(cacheAge) && cacheSize == old(cacheSize)
                && cache.record == old(cache.record)
      ensures result.Err? && SpotifyApi.Message(result.error) == UnauthorizedMessage ==>
                && status == old(status) && error == old(error)
                && auth.status == AuthSession.Unauthenticated && auth.accessToken.None?
                && auth.error == Some(AuthSession.SessionExpired)
                && auth.store.items == Storage.ClearAuth(old(auth.store.items))
      ensures result.Err? && SpotifyApi.Message(result.error) != UnauthorizedMessage ==>
                && status == Failed && error == Some(SpotifyApi.Message(result.error))
                && auth.store.items == old(auth.store.items) && auth.status == old(auth.status)
    {
      if result.Ok? {
        var thrown := ShowFetched(result.value, now, save, size);
        if thrown.Some? {
          ShowFailure(thrown.value);
        }
      } else {
        ShowFailure(SpotifyApi.Message(result.error));
      }
    }

    /** The `try` block of `fetchFromApi` after a successful sync: cache the tracks, reset the cache age, read the
        cache size (which never rejects), show the tracks. A rejected save throws its message before anything
        after it runs; `thrown` is that message. */
    method ShowFetched(fetched: seq<SavedTrack>, now: int, save: CacheFaults, size: CacheFaults)
      returns (thrown: Option<string>)
      requires Valid()
      modifies this, cache
      ensures Valid()
      ensures thrown.Some? <==> Rejects(old(cache.handle), save)
      ensures thrown.Some? ==>
                && thrown.value == TrackCache.SaveFailed
                && tracks == old(tracks) && status == old(status) && cacheAge == old(cacheAge)
                && cacheSize == old(cacheSize) && cache.record == old(cache.record)
      ensures thrown.None? ==>
                && tracks == fetched && status == Success && cacheAge == Some(0)
                && cache.record == (if TrackCache.OpenFails(old(cache.handle), save.openFails) then old(cache.record)
                                    else Some(TrackCache.CacheRecord(fetched, now)))
                && cacheSize == Some(SizeSeen(TrackCache.HandleAfter(old(cache.handle), save.openFails, save.newHandle),
                                              cache.record, size))
      ensures error == old(error) && progress == old(progress) && isFromCache == old(isFromCache)
    {
      var saved := cache.SaveTracks(fetched, now, save.openFails, save.requestFails, save.newHandle);
      if saved.Rejected? {
        return Some(saved.message);
      }
      cacheAge := Some(0);
      var s := cache.GetCacheSize(size.openFails, size.requestFails, size.newHandle);
      cacheSize := Some(s);
      tracks := fetched;
      status := Success;
      thrown := None;
    }

    /** The `catch` block of `fetchFromApi` for an error with `message`: "UNAUTHORIZED" is handed to the auth
        session, which logs out with the session-expired message, and leaves this status as it was; any other
        message is shown as ERROR. */
    method ShowFailure(message: string)
      requires Valid()
      modifies this, auth, auth.store
      ensures Valid()
      ensures tracks == old(tracks) && cacheAge == old(cacheAge) && cacheSize == old(cacheSize)
      ensures progress == old(progress) && isFromCache == old(isFromCache)
      ensures message == UnauthorizedMessage ==>
                && status == old(status) && error == old(error)
                && auth.status == AuthSession.Unauthenticated && auth.accessToken.None?
                && auth.error == Some(AuthSession.SessionExpired)
                && auth.store.items == Storage.ClearAuth(old(auth.store.items))
      ensures message != UnauthorizedMessage ==>
                && status == Failed && error == Some(message)
                && auth.store.items == old(auth.store.items) && auth.status == old(auth.status)
    {
      if message == UnauthorizedMessage {
        auth.HandleUnauthorized();
      } else {
        error := Some(message);
        status := Failed;
      }
    }

    /**
     * `loadTracksFromCacheOrApi()` at time `now`: a cached entry within the TTL that holds at least one track is
     * shown as coming from the cache; a failing `get` rejects the call (`thrown`) before anything else happens;
     * anything else (no entry, an expired or empty one, a failed open) falls through to `fetchFromApi()` with
     * progress shown.
     */
    method LoadTracksFromCacheOrApi(now: int, load: CacheFaults, size: CacheFaults,
                                    probe: nat -> SpotifyApi.Outcome<SpotifyApi.PageBody>,
                                    page: (nat, nat) -> SpotifyApi.Outcome<SpotifyApi.PageBody>,
                                    save: CacheFaults, savedSize: CacheFaults)
      returns (thrown: Option<string>)
      requires Valid()
      modifies this, auth, auth.store, cache
      ensures Valid()
      ensures !Storage.TruthyValue(old(auth.accessToken)) ==>
                && thrown.None? && tracks == old(tracks) && status == old(status) && isFromCache == old(isFromCache)
                && cache.record == old(cache.record)
      ensures Storage.TruthyValue(old(auth.accessToken)) ==>
                var s := TrackCache.LoadSettledAsWritten(old(cache.handle), load.openFails, load.requestFails,
                                                         old(cache.record), Config.TracksTtl, now);
                && (s.Rejected? ==>
                      && thrown == Some(TrackCache.LoadFailed)
                      && tracks == old(tracks) && status == old(status) && error == old(error)
                      && progress == old(progress) && isFromCache == old(isFromCache) && cacheAge == old(cacheAge)
                      && cacheSize == old(cacheSize) && cache.record == old(cache.record)
                      && auth.store.items == old(auth.store.items))
                && (Hit(s) ==>
                      && thrown.None? && tracks == s.value.value.tracks && status == Success && isFromCache
                      && cacheAge == Some(s.value.value.cacheAge) && error == old(error) && progress == old(progress)
                      && cache.record == old(cache.record) && cacheSize.Some?
                      && auth.store.items == old(auth.store.items))
                && (s.Resolved? && !Hit(s) ==>
                      var c := SpotifyApi.Collected(probe, page);
                      var saveRejects := Rejects(TrackCache.HandleAfter(old(cache.handle), load.openFails, load.newHandle), save);
                      && thrown.None? && !isFromCache
                      && progress == ProgressAfter(Progress(0, 0), c.progress)
                      && (c.result.Ok? && !saveRejects ==>
                            tracks == c.result.value && status == Success && cacheAge == Some(0))
                      && (c.result.Ok? && saveRejects ==>
                            status == Failed && error == Some(TrackCache.SaveFailed))
                      && (c.result.Err? && SpotifyApi.Message(c.result.error) != UnauthorizedMessage ==>
                            status == Failed && error == Some(SpotifyApi.Message(c.result.error))))
    {
      if !Storage.TruthyValue(auth.accessToken) {
        return None;
      }
      var cached := cache.LoadTracks(Config.TracksTtl, now, load.openFails, load.requestFails, load.newHandle);
      if cached.Rejected? {
        return Some(cached.message);
      }
      if cached.value.Some? && |cached.value.value.tracks| > 0 {
        tracks := cached.value.value.tracks;
        status := Success;
        isFromCache := true;
        cacheAge := Some(cached.value.value.cacheAge);
        var s := cache.GetCacheSize(size.openFails, size.requestFails, size.newHandle);
        cacheSize := Some(s);
        return None;
      }
      FetchFromApi(true, probe, page, now, save, savedSize);
      thrown := None;
    }

    /** `forceRefresh()`: the cache is cleared first (whether or not a token is held), then `fetchFromApi(true)`;
        a failing `clear` rejects the call (`thrown`) before the fetch. */
    method ForceRefresh(now: int, clear: CacheFaults, probe: nat -> SpotifyApi.Outcome<SpotifyApi.PageBody>,
                        page: (nat, nat) -> SpotifyApi.Outcome<SpotifyApi.PageBody>, save: CacheFaults, size: CacheFaults)
      returns (thrown: Option<string>)
      requires Valid()
      modifies this, auth, auth.store, cache
      ensures Valid()
      ensures Rejects(old(cache.handle), clear) ==>
                && thrown == Some(TrackCache.ClearFailed)
                && tracks == old(tracks) && status == old(status) && error == old(error) && progress == old(progress)
                && isFromCache == old(isFromCache) && cacheAge == old(cacheAge) && cacheSize == old(cacheSize)
                && cache.record == old(cache.record) && auth.store.items == old(auth.store.items)
      ensures !Rejects(old(cache.handle), clear) ==>
                var cleared := if TrackCache.OpenFails(old(cache.handle), clear.openFails) then old(cache.record) else None;
                && thrown.None?
                && (!Storage.TruthyValue(old(auth.accessToken)) ==>
                      cache.record == cleared && tracks == old(tracks) && status == old(status))
                && (Storage.TruthyValue(old(auth.accessToken)) ==>
                      var c := SpotifyApi.Collected(probe, page);
                      var saveRejects := Rejects(TrackCache.HandleAfter(old(cache.handle), clear.openFails, clear.newHandle), save);
                      && progress == ProgressAfter(Progress(0, 0), c.progress) && !isFromCache
                      && (c.result.Ok? && !saveRejects ==> tracks == c.result.value && status == Success)
                      && (c.result.Ok? && saveRejects ==>
                            status == Failed && error == Some(TrackCache.SaveFailed) && cache.record == cleared)
                      && (c.result.Err? ==> cache.record == cleared))
    {
      var cleared := cache.ClearTracks(clear.openFails, clear.requestFails, clear.newHandle);
      if cleared.Rejected? {
        return Some(cleared.message);
      }
      FetchFromApi(true, probe, page, now, save, size);
      thrown := None;
    }

    /** `clearCache()`: the cache is cleared and the size forgotten; a failing `clear` rejects the call
        (`thrown`) and the size is kept. */
    method ClearCache(clear: CacheFaults) returns (thrown: Option<string>)
      requires Valid()
      modifies this, cache
      ensures Valid()
      ensures Rejects(old(cache.handle), clear) ==>
                thrown == Some(TrackCache.ClearFailed) && cacheSize == old(cacheSize) && cache.record == old(cache.record)
      ensures !Rejects(old(cache.handle), clear) ==>
                && thrown.None? && cacheSize.None?
                && cache.record == (if TrackCache.OpenFails(old(cache.handle), clear.openFails) then old(cache.record)
                                    else None)
      ensures tracks == old(tracks) && status == old(status) && error == old(error) && progress == old(progress)
      ensures isFromCache == old(isFromCache) && cacheAge == old(cacheAge)
    {
      var cleared := cache.ClearTracks(clear.openFails, clear.requestFails, clear.newHandle);
      if cleared.Rejected? {
        return Some(cleared.message);
      }
      cacheSize := None;
      thrown := None;
    }
  }

  /** A sync whose count probe and pages all succeed leaves the shown progress at `(total, total)`. */
  lemma ProgressReachesTotal(probe: nat -> SpotifyApi.Outcome<SpotifyApi.PageBody>,
                             page: (nat, nat) -> SpotifyApi.Outcome<SpotifyApi.PageBody>)
    requires SpotifyApi.Run(probe, SpotifyApi.DefaultRetries, 0).result.Ok?
    requires var total := SpotifyApi.Run(probe, SpotifyApi.DefaultRetries, 0).result.value.total;
             total > 0 && forall o :: o in SpotifyApi.Offsets(total) ==> SpotifyApi.PageTrace(page, o).result.Ok?
    ensures var total := SpotifyApi.Run(probe, SpotifyApi.DefaultRetries, 0).result.value.total;
            ProgressAfter(Progress(0, 0), SpotifyApi.Collected(probe, page).progress) == Progress(total, total)
  {
    var total := SpotifyApi.Run(probe, SpotifyApi.DefaultRetries, 0).result.value.total;
    var events := SpotifyApi.Collected(probe, page).progress;
    assert events != [] && events[|events| - 1] == (total, total) by {
      SpotifyApi.CollectedAllPages(probe, page);
      assert SpotifyApi.PageCount(total) >= 1;
    }
  }

  /** The three ways `loadTracksFromCacheOrApi` goes once a token is held. The cached tracks are shown exactly
      when the cache works and holds an entry at most one hour old (exactly one hour still hits) with a track;
      the call rejects, before any request to the API, exactly when the database is open and the `get` fails;
      the API is asked exactly when the open fails or the entry is missing, expired or empty. */
  lemma CacheHitIff(handle: Option<nat>, record: Option<TrackCache.CacheRecord>, now: int, f: CacheFaults)
    ensures var s := TrackCache.LoadSettledAsWritten(handle, f.openFails, f.requestFails, record, Config.TracksTtl, now);
            var recent := record.Some? && now - record.value.timestamp <= Config.TracksTtl && |record.value.tracks| > 0;
            && (Hit(s) <==> !TrackCache.OpenFails(handle, f.openFails) && !f.requestFails && recent)
            && (s.Rejected? <==> Rejects(handle, f))
            && (s.Resolved? && !Hit(s) <==>
                  TrackCache.OpenFails(handle, f.openFails) || (!f.requestFails && !recent))
  {
    TrackCache.LookupHitIff(record, Config.TracksTtl, now);
  }
}
