/**
 * The track cache of src/services/indexedDB.js: one IndexedDB object store holding at most one record, the
 * saved tracks with the time they were cached, behind a lazily opened database handle.
 *
 * Faults of the platform are inputs: `openFails` says whether an open request would fail, `requestFails`
 * whether the store request of the operation would fail.
 */
module TrackCache {
  import opened Wrappers
  import opened Library

  /** The record `{ id: 'cached_tracks', tracks, timestamp }`. */
  datatype CacheRecord = CacheRecord(tracks: seq<SavedTrack>, timestamp: int)

  /** What a cache hit resolves to: `{ tracks, cacheAge }`, the age in whole minutes. */
  datatype Loaded = Loaded(tracks: seq<SavedTrack>, cacheAge: int)

  const MsPerMinute: nat := 60000

  /** `Math.floor(age / 60000)`; Dafny's division rounds down for a positive divisor, as `Math.floor` does. */
  function AgeMinutes(age: int): (m: int)
    ensures MsPerMinute * m <= age < MsPerMinute * (m + 1)
  {
    age / MsPerMinute
  }

  /** The result of reading the store at time `now` (the `onsuccess` handler of `loadTracks`). */
  function Lookup(record: Option<CacheRecord>, maxAge: int, now: int): (r: Option<Loaded>)
    ensures r.Some? ==> record.Some? && now - record.value.timestamp <= maxAge && r.value.tracks == record.value.tracks
    ensures r.Some? && record.value.timestamp <= now ==> r.value.cacheAge >= 0
  {
    if record.None? then None
    else
      var age := now - record.value.timestamp;
      if age > maxAge then None else Some(Loaded(record.value.tracks, AgeMinutes(age)))
  }

  /** The record after that read: an expired record is cleared. */
  function Kept(record: Option<CacheRecord>, maxAge: int, now: int): Option<CacheRecord> {
    if record.Some? && now - record.value.timestamp > maxAge then None else record
  }

  /** A read hits exactly when a record exists whose age is at most `maxAge` (an age of exactly `maxAge` still
      hits); a hit returns the stored tracks unchanged with the age in whole minutes, and keeps the record. */
  lemma LookupHitIff(record: Option<CacheRecord>, maxAge: int, now: int)
    ensures Lookup(record, maxAge, now).Some? <==> record.Some? && now - record.value.timestamp <= maxAge
    ensures Lookup(record, maxAge, now).Some? ==>
              && Lookup(record, maxAge, now).value.tracks == record.value.tracks
              && var age := now - record.value.timestamp;
                 var m := Lookup(record, maxAge, now).value.cacheAge;
                 MsPerMinute * m <= age < MsPerMinute * (m + 1)
    ensures Lookup(record, maxAge, now).Some? <==> Kept(record, maxAge, now) == record && record.Some?
  {
  }

  /** A miss never leaves an expired record behind, and a second read at the same time reads the same. */
  lemma KeptSettles(record: Option<CacheRecord>, maxAge: int, now: int)
    ensures Lookup(record, maxAge, now).None? ==> Kept(record, maxAge, now).None? || record.None?
    ensures Kept(Kept(record, maxAge, now), maxAge, now) == Kept(record, maxAge, now)
    ensures Lookup(Kept(record, maxAge, now), maxAge, now) == Lookup(record, maxAge, now)
  {
  }

  /** Tracks saved at `saved` read back unchanged at any time up to `maxAge` later. */
  lemma SaveThenLookup(tracks: seq<SavedTrack>, saved: int, maxAge: int, now: int)
    requires saved <= now <= saved + maxAge
    ensures Lookup(Some(CacheRecord(tracks, saved)), maxAge, now) == Some(Loaded(tracks, (now - saved) / MsPerMinute))
    ensures 0 <= (now - saved) / MsPerMinute <= maxAge / MsPerMinute
  {
    var age := now - saved;
    var m := age / MsPerMinute;
    assert MsPerMinute * m <= age;
    assert age < MsPerMinute * (m + 1);
    assert MsPerMinute * (maxAge / MsPerMinute) <= maxAge < MsPerMinute * (maxAge / MsPerMinute + 1);
  }

  /** What `getCacheSize` resolves to. The size of a stored record is computed from its JSON text in floating
      point and is not modelled. */
  datatype CacheSize = EmptyCache | Sized | UnknownSize

  function SizeLabel(c: CacheSize): string
    requires !c.Sized?
  {
    if c.EmptyCache? then "0 MB" else "? MB"
  }

  /** How a promise of the module settles: resolved with a value, or rejected with an error message. */
  datatype Settled<T> = Resolved(value: T) | Rejected(message: string)

  /** Whether an open request is issued and fails: only when no handle is held. */
  predicate OpenFails(handle: Option<nat>, openFails: bool) {
    handle.None? && openFails
  }

  /** The handle after an operation opened the database if needed: a held handle is kept, otherwise a successful
      open request gives `newHandle`. */
  function HandleAfter(handle: Option<nat>, openFails: bool, newHandle: nat): (h: Option<nat>)
    ensures h.None? <==> OpenFails(handle, openFails)
    ensures handle.Some? ==> h == handle
  {
    if handle.Some? then handle else if openFails then None else Some(newHandle)
  }

  /** The messages of the rejections below. */
  const LoadFailed := "Failed to load tracks"
  const SaveFailed := "Failed to save tracks"
  const ClearFailed := "Failed to clear tracks"

  /**
   * `loadTracks` as written. A failed open rejects inside the `try` and is caught (`null`); a failed `get`
   * rejects the promise the function returns, which the `try` does not catch, so the caller's `await` throws.
   */
  function LoadSettledAsWritten(handle: Option<nat>, openFails: bool, requestFails: bool,
                                record: Option<CacheRecord>, maxAge: int, now: int): Settled<Option<Loaded>> {
    if OpenFails(handle, openFails) then Resolved(None)
    else if requestFails then Rejected(LoadFailed)
    else Resolved(Lookup(record, maxAge, now))
  }

  /** `saveTracks` as written: the same escape for a failed `put`. */
  function SaveSettledAsWritten(handle: Option<nat>, openFails: bool, requestFails: bool): Settled<()> {
    if OpenFails(handle, openFails) then Resolved(())
    else if requestFails then Rejected(SaveFailed)
    else Resolved(())
  }

  /** `clearTracks` as written: the same escape for a failed `clear`. */
  function ClearSettledAsWritten(handle: Option<nat>, openFails: bool, requestFails: bool): Settled<()> {
    if OpenFails(handle, openFails) then Resolved(())
    else if requestFails then Rejected(ClearFailed)
    else Resolved(())
  }

  /** Whether the store request of an operation is issued and fails: the database opened, the request did not. */
  predicate RequestRejects(handle: Option<nat>, openFails: bool, requestFails: bool) {
    !OpenFails(handle, openFails) && requestFails
  }

  /** The discrepancy: whatever handle is held, each of the three operations rejects exactly when the database
      is open and its store request fails, although its `catch` block shows that errors were meant to be logged
      (and `loadTracks` to give `null`); a failed open alone is caught. */
  lemma RequestFailuresEscape(handle: Option<nat>, openFails: bool, requestFails: bool,
                              record: Option<CacheRecord>, maxAge: int, now: int)
    ensures LoadSettledAsWritten(handle, openFails, requestFails, record, maxAge, now).Rejected? <==>
              RequestRejects(handle, openFails, requestFails)
    ensures SaveSettledAsWritten(handle, openFails, requestFails).Rejected? <==>
              RequestRejects(handle, openFails, requestFails)
    ensures ClearSettledAsWritten(handle, openFails, requestFails).Rejected? <==>
              RequestRejects(handle, openFails, requestFails)
    ensures RequestRejects(handle, openFails, requestFails) ==>
              && LoadSettledAsWritten(handle, openFails, requestFails, record, maxAge, now) == Rejected(LoadFailed)
              && SaveSettledAsWritten(handle, openFails, requestFails) == Rejected(SaveFailed)
              && ClearSettledAsWritten(handle, openFails, requestFails) == Rejected(ClearFailed)
    ensures OpenFails(handle, openFails) ==>
              LoadSettledAsWritten(handle, openFails, requestFails, record, maxAge, now) == Resolved(None)
  {
  }

  /** What the caller was meant to see: a rejection caught and logged, giving `fallback` (`null` for
      `loadTracks`, nothing for the others); a resolved value passes through. */
  function Caught<T>(s: Settled<T>, fallback: T): T {
    if s.Rejected? then fallback else s.value
  }

  /** With rejections caught, `loadTracks` gives `null` on every failure, open or request, and the stored hit
      otherwise; where the code as written resolves, it already resolves to that value. */
  lemma CaughtLoadIsNullOnFailure(handle: Option<nat>, openFails: bool, requestFails: bool,
                                  record: Option<CacheRecord>, maxAge: int, now: int)
    ensures var v := Caught(LoadSettledAsWritten(handle, openFails, requestFails, record, maxAge, now), None);
            && (OpenFails(handle, openFails) || requestFails ==> v.None?)
            && (!OpenFails(handle, openFails) && !requestFails ==> v == Lookup(record, maxAge, now))
    ensures var s := LoadSettledAsWritten(handle, openFails, requestFails, record, maxAge, now);
            s.Resolved? ==> s.value == Caught(s, None)
  {
  }

  /** The module state: the `db` handle and the contents of the object store. */
  class TrackDb {
    var handle: Option<nat>
    var record: Option<CacheRecord>
    /** How many open requests have succeeded. */
    ghost var opens: nat

    ghost predicate Valid()
      reads this
    {
      opens <= 1 && (handle.Some? <==> opens == 1)
    }

    constructor(initial: Option<CacheRecord>)
      ensures Valid() && handle.None? && record == initial
    {
      handle := None;
      record := initial;
      opens := 0;
    }

    /** `openDB()`: the held handle, or a new one (`newHandle`) from a successful open request. */
    method OpenDb(openFails: bool, newHandle: nat) returns (r: Result<nat, string>)
      requires Valid()
      modifies this
      ensures Valid() && record == old(record)
      ensures old(handle).Some? ==> r == Ok(old(handle).value) && handle == old(handle) && opens == old(opens)
      ensures old(handle).None? && openFails ==> r == Err("Failed to open IndexedDB") && handle.None?
      ensures old(handle).None? && !openFails ==> r == Ok(newHandle) && handle == Some(newHandle)
    {
      if handle.Some? {
        return Ok(handle.value);
      }
      if openFails {
        return Err("Failed to open IndexedDB");
      }
      handle := Some(newHandle);
      opens := opens + 1;
      r := Ok(newHandle);
    }

    /** `saveTracks(tracks)` at time `now`: `clear` and `put` run in one transaction, so a failed `put` leaves
        the store as it was. A failed open is logged; a failed `put` rejects (`SaveSettledAsWritten`). */
    method SaveTracks(tracks: seq<SavedTrack>, now: int, openFails: bool, requestFails: bool, newHandle: nat)
      returns (r: Settled<()>)
      requires Valid()
      modifies this
      ensures handle == HandleAfter(old(handle), openFails, newHandle)
      ensures Valid()
      ensures r == SaveSettledAsWritten(old(handle), openFails, requestFails)
      ensures record == if OpenFails(old(handle), openFails) || requestFails then old(record)
                        else Some(CacheRecord(tracks, now))
    {
      var database := OpenDb(openFails, newHandle);
      if database.Err? {
        return Resolved(());
      }
      if requestFails {
        return Rejected(SaveFailed);
      }
      record := Some(CacheRecord(tracks, now));
      r := Resolved(());
    }

    /** `loadTracks(maxAge)` at time `now`: a failed open gives `null`, a failed `get` rejects
        (`LoadSettledAsWritten`); an expired record is cleared. */
    method LoadTracks(maxAge: int, now: int, openFails: bool, requestFails: bool, newHandle: nat)
      returns (r: Settled<Option<Loaded>>)
      requires Valid()
      modifies this
      ensures handle == HandleAfter(old(handle), openFails, newHandle)
      ensures Valid()
      ensures r == LoadSettledAsWritten(old(handle), openFails, requestFails, old(record), maxAge, now)
      ensures record == if OpenFails(old(handle), openFails) || requestFails then old(record)
                        else Kept(old(record), maxAge, now)
    {
      var database := OpenDb(openFails, newHandle);
      if database.Err? {
        return Resolved(None);
      }
      if requestFails {
        return Rejected(LoadFailed);
      }
      if record.None? {
        return Resolved(None);
      }
      var age := now - record.value.timestamp;
      if age > maxAge {
        record := None;
        return Resolved(None);
      }
      r := Resolved(Some(Loaded(record.value.tracks, AgeMinutes(age))));
    }

    /** `clearTracks()`: a failed open is logged, a failed `clear` rejects (`ClearSettledAsWritten`). */
    method ClearTracks(openFails: bool, requestFails: bool, newHandle: nat) returns (r: Settled<()>)
      requires Valid()
      modifies this
      ensures handle == HandleAfter(old(handle), openFails, newHandle)
      ensures Valid()
      ensures r == ClearSettledAsWritten(old(handle), openFails, requestFails)
      ensures record == if OpenFails(old(handle), openFails) || requestFails then old(record) else None
    {
      var database := OpenDb(openFails, newHandle);
      if database.Err? {
        return Resolved(());
      }
      if requestFails {
        return Rejected(ClearFailed);
      }
      record := None;
      r := Resolved(());
    }

    /** `getCacheSize()`: no record reads as "0 MB", any failure as "? MB". */
    method GetCacheSize(openFails: bool, requestFails: bool, newHandle: nat) returns (size: CacheSize)
      requires Valid()
      modifies this
      ensures handle == HandleAfter(old(handle), openFails, newHandle)
      ensures Valid() && record == old(record)
      ensures size == if OpenFails(old(handle), openFails) || requestFails then UnknownSize
                      else if record.None? then EmptyCache else Sized
    {
      var database := OpenDb(openFails, newHandle);
      if database.Err? || requestFails {
        return UnknownSize;
      }
      size := if record.None? then EmptyCache else Sized;
    }
  }
}
