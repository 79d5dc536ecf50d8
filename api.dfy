/**
 * The Web API client of src/services/spotify/api.js: authenticated headers, the retry/backoff loop of
 * `apiRequest`, and the paginated, batched collector `fetchSavedTracks`.
 *
 * Nothing here performs I/O. The HTTP outcome of every attempt is an input: `outcome(a)` is what the
 * network and the server produce on attempt `a` of one logical request. Sleeps are recorded as their
 * durations in milliseconds instead of being waited out.
 */
module SpotifyApi {
  import opened Wrappers
  import opened Text
  import opened Library
  import Config

  type Headers = map<string, string>

  /** `createHeaders(token)`. */
  function CreateHeaders(token: string): Headers {
    map["Authorization" := "Bearer " + token, "Content-Type" := "application/json"]
  }

  /** The headers of every attempt: `{...createHeaders(token), ...options.headers}`; the caller's entries win. */
  function RequestHeaders(token: string, extra: Headers): (h: Headers)
    ensures h.Keys == {"Authorization", "Content-Type"} + extra.Keys
    ensures forall k :: k in extra ==> h[k] == extra[k]
    ensures "Authorization" !in extra ==> h["Authorization"] == "Bearer " + token
    ensures "Content-Type" !in extra ==> h["Content-Type"] == "application/json"
  {
    CreateHeaders(token) + extra
  }

  /** The `Retry-After` header of a 429 as `parseInt(header || '1', 10)` sees it: missing or empty, an integer, or NaN. */
  datatype RetryAfter = NoHeader | Seconds(n: int) | NotANumber

  /** What one attempt produces: a response (status, Retry-After, the `error.message` of its JSON body if any, and
      the parsed body of a success), or an exception thrown by `fetch` (its `name` and `message`). */
  datatype Outcome<B> =
    | Response(status: nat, retryAfter: RetryAfter, errorMessage: Option<string>, body: B)
    | Thrown(name: string, message: string)

  /** The errors `apiRequest` rejects with. */
  datatype ApiError =
    | Unauthorized
    | RequestFailed(message: string)
    | Rethrown(name: string, message: string)
    | MaxRetriesExceeded

  /** The `message` of the thrown `Error`. */
  function Message(e: ApiError): string {
    match e
    case Unauthorized => "UNAUTHORIZED"
    case RequestFailed(m) => m
    case Rethrown(_, m) => m
    case MaxRetriesExceeded => "Max retries exceeded"
  }

  const DefaultRetries: nat := 3

  function Pow2(n: nat): (r: nat)
    ensures r >= 1
  {
    if n == 0 then 1 else 2 * Pow2(n - 1)
  }

  /** Exponential backoff before retrying attempt `attempt`: `Math.pow(2, attempt) * 1000` ms. */
  function Backoff(attempt: nat): nat {
    Pow2(attempt) * 1000
  }

  /** The delay after a 429: `(Retry-After + 1) * 1000` ms with Retry-After defaulting to 1. A negative or NaN
      delay makes `setTimeout` fire at once, recorded here as 0. */
  function RateLimitWait(h: RetryAfter): nat {
    match h
    case NoHeader => 2000
    case Seconds(n) => if n + 1 >= 0 then (n + 1) * 1000 else 0
    case NotANumber => 0
  }

  /** `errorData.error?.message || \`API request failed: ${status}\``. */
  function FailureMessage(status: nat, serverMessage: Option<string>): string {
    if Truthy(serverMessage) then serverMessage.value else "API request failed: " + NatToString(status)
  }

  predicate IsOk(status: nat) {
    200 <= status < 300
  }

  /** What one iteration of the retry loop does with the outcome of its attempt. */
  datatype Step<B> = Return(body: B) | Fail(error: ApiError) | Wait(ms: nat)

  function Decide<B>(o: Outcome<B>, attempt: nat, retries: nat): (s: Step<B>)
    ensures s.Return? <==> o.Response? && IsOk(o.status)
    ensures s.Return? ==> s.body == o.body
    ensures s == Fail(Unauthorized) <==> o.Response? && o.status == 401
    ensures s.Fail? ==> s.error != MaxRetriesExceeded
  {
    match o
    case Thrown(name, message) =>
      if name == "TypeError" && attempt < retries then Wait(Backoff(attempt)) else Fail(Rethrown(name, message))
    case Response(status, retryAfter, serverMessage, body) =>
      if status == 429 then Wait(RateLimitWait(retryAfter))
      else if !IsOk(status) then
        if status == 401 then Fail(Unauthorized)
        else if status >= 500 && attempt < retries then Wait(Backoff(attempt))
        else Fail(RequestFailed(FailureMessage(status, serverMessage)))
      else Return(body)
  }

  /** The outcome of one logical request: its result, the sleeps taken between attempts, and the number of
      `fetch` attempts made. */
  datatype Trace<B> = Trace(result: Result<B, ApiError>, waits: seq<nat>, attempts: nat)

  /** Whether the last of the `t.attempts` fetches made from attempt `attempt` on is the one whose response `t`
      reports: a success returns that response's body, and "UNAUTHORIZED" comes from a 401. */
  /** The retry loop from attempt `attempt` on, as a recursive definition. */
  function Run<B>(outcome: nat -> Outcome<B>, retries: nat, attempt: nat): Trace<B>
    decreases retries + 1 - attempt
  {
    if attempt > retries then Trace(Err(MaxRetriesExceeded), [], 0)
    else match Decide(outcome(attempt), attempt, retries)
      case Return(b) => Trace(Ok(b), [], 1)
      case Fail(e) => Trace(Err(e), [], 1)
      case Wait(ms) =>
        var t := Run(outcome, retries, attempt + 1);
        Trace(t.result, [ms] + t.waits, t.attempts + 1)
  }

  /**
   * `apiRequest(endpoint, token, options, retries)`. Returns the result, the sleeps between attempts, and the
   * headers sent on each attempt.
   */
  method ApiRequest<B>(token: string, extraHeaders: Headers, outcome: nat -> Outcome<B>, retries: nat)
    returns (result: Result<B, ApiError>, waits: seq<nat>, sent: seq<Headers>)
    ensures Trace(result, waits, |sent|) == Run(outcome, retries, 0)
    ensures forall i :: 0 <= i < |sent| ==> sent[i] == RequestHeaders(token, extraHeaders)
  {
    waits, sent := [], [];
    var attempt := 0;
    while attempt <= retries
      invariant attempt <= retries + 1
      invariant |sent| == attempt && |waits| == attempt
      invariant forall i :: 0 <= i < |sent| ==> sent[i] == RequestHeaders(token, extraHeaders)
      invariant var t := Run(outcome, retries, attempt);
        Run(outcome, retries, 0) == Trace(t.result, waits + t.waits, attempt + t.attempts)
      decreases retries + 1 - attempt
    {
      sent := sent + [RequestHeaders(token, extraHeaders)];
      var step := Decide(outcome(attempt), attempt, retries);
      match step {
        case Wait(ms) =>
          ghost var t := Run(outcome, retries, attempt + 1);
          assert Run(outcome, retries, attempt) == Trace(t.result, [ms] + t.waits, t.attempts + 1);
          assert waits + ([ms] + t.waits) == (waits + [ms]) + t.waits;
          waits := waits + [ms];
          attempt := attempt + 1;
        case Return(b) =>
          assert Run(outcome, retries, attempt) == Trace(Ok(b), [], 1);
          result := Ok(b);
          return;
        case Fail(e) =>
          assert Run(outcome, retries, attempt) == Trace(Err(e), [], 1);
          result := Err(e);
          return;
      }
    }
    assert Run(outcome, retries, attempt) == Trace(Err(MaxRetriesExceeded), [], 0);
    result := Err(MaxRetriesExceeded);
  }

  // ---------------------------------------------------------------------------------------------
  // Properties of the retry loop

  /** The outcomes that a non-final attempt retries: 429, any 5xx, and a network `TypeError`. */
  predicate Retryable<B>(o: Outcome<B>) {
    (o.Response? && (o.status == 429 || o.status >= 500)) || (o.Thrown? && o.name == "TypeError")
  }

  predicate RateLimited<B>(o: Outcome<B>) {
    o.Response? && o.status == 429
  }

  function WaitOf<B>(s: Step<B>): nat {
    if s.Wait? then s.ms else 0
  }

  /** The sleeps taken after attempts `a`, ..., `k - 1`. */
  function WaitsBetween<B>(outcome: nat -> Outcome<B>, retries: nat, a: nat, k: nat): seq<nat>
    decreases k - a
  {
    if a >= k then [] else [WaitOf(Decide(outcome(a), a, retries))] + WaitsBetween(outcome, retries, a + 1, k)
  }

  /** Which attempts wait: before the last one, exactly the retryable outcomes; on the last one, only a 429. */
  lemma DecideWaits<B>(o: Outcome<B>, attempt: nat, retries: nat)
    requires attempt <= retries
    ensures Decide(o, attempt, retries).Wait? <==> if attempt < retries then Retryable(o) else RateLimited(o)
    ensures Decide(o, attempt, retries).Wait? ==>
      Decide(o, attempt, retries).ms == if RateLimited(o) then RateLimitWait(o.retryAfter) else Backoff(attempt)
  {
  }

  /** A success or an "UNAUTHORIZED" comes from the last fetch made: the request returns the body of that
      fetch's 2xx response, and "UNAUTHORIZED" is the answer of a 401 to it. */
  lemma {:induction false} RunAnsweredByLast<B>(outcome: nat -> Outcome<B>, retries: nat, a: nat)
    ensures var t := Run(outcome, retries, a);
            t.result.Ok? || t.result == Err(Unauthorized) ==>
              && t.attempts >= 1
              && var last := outcome(a + t.attempts - 1);
                 && (t.result.Ok? ==> last.Response? && IsOk(last.status) && t.result.value == last.body)
                 && (t.result == Err(Unauthorized) ==> last.Response? && last.status == 401)
    decreases retries + 1 - a
  {
    if a <= retries && Decide(outcome(a), a, retries).Wait? {
      RunAnsweredByLast(outcome, retries, a + 1);
    }
  }

  /** The request settles on the first attempt that does not wait: its result is that attempt's, after exactly
      `k + 1` fetches and the sleeps of the earlier attempts. */
  lemma {:induction false} RunSettlesAt<B>(outcome: nat -> Outcome<B>, retries: nat, a: nat, k: nat)
    requires a <= k <= retries
    requires forall i :: a <= i < k ==> Decide(outcome(i), i, retries).Wait?
    requires !Decide(outcome(k), k, retries).Wait?
    ensures var t := Run(outcome, retries, a);
      && t.attempts == k + 1 - a
      && t.waits == WaitsBetween(outcome, retries, a, k)
      && t.result == match Decide(outcome(k), k, retries) { case Return(b) => Ok(b) case Fail(e) => Err(e) case Wait(_) => t.result }
    decreases k - a
  {
    if a < k {
      RunSettlesAt(outcome, retries, a + 1, k);
    }
  }

  /** When every attempt waits, all `retries + 1` fetches are made and the request fails with "Max retries exceeded". */
  lemma {:induction false} RunExhausted<B>(outcome: nat -> Outcome<B>, retries: nat, a: nat)
    requires a <= retries + 1
    requires forall i :: a <= i <= retries ==> Decide(outcome(i), i, retries).Wait?
    ensures Run(outcome, retries, a) == Trace(Err(MaxRetriesExceeded), WaitsBetween(outcome, retries, a, retries + 1), retries + 1 - a)
    decreases retries + 1 - a
  {
    if a <= retries {
      RunExhausted(outcome, retries, a + 1);
    }
  }

  /** At least one and at most `retries + 1` fetches are made; every attempt but a settling one is followed by a sleep. */
  lemma {:induction false} RunAttemptsBound<B>(outcome: nat -> Outcome<B>, retries: nat, a: nat)
    requires a <= retries
    ensures var t := Run(outcome, retries, a);
      && 1 <= t.attempts <= retries + 1 - a
      && |t.waits| == if t.result == Err(MaxRetriesExceeded) then t.attempts else t.attempts - 1
    decreases retries + 1 - a
  {
    if a < retries && Decide(outcome(a), a, retries).Wait? {
      RunAttemptsBound(outcome, retries, a + 1);
    }
  }

  lemma {:induction false} MaxRetriesFrom<B>(outcome: nat -> Outcome<B>, retries: nat, a: nat)
    ensures Run(outcome, retries, a).result == Err(MaxRetriesExceeded) <==>
      forall i :: a <= i <= retries ==> Decide(outcome(i), i, retries).Wait?
    decreases retries + 1 - a
  {
    if a <= retries && Decide(outcome(a), a, retries).Wait? {
      MaxRetriesFrom(outcome, retries, a + 1);
    }
  }

  /** "Max retries exceeded" is reported exactly when every attempt before the last hit a retryable outcome and
      the last attempt was rate-limited: a 5xx or a network error on the last attempt reports itself instead. */
  lemma MaxRetriesIff<B>(outcome: nat -> Outcome<B>, retries: nat)
    ensures Run(outcome, retries, 0).result == Err(MaxRetriesExceeded) <==>
      (forall i :: 0 <= i < retries ==> Retryable(outcome(i))) && RateLimited(outcome(retries))
  {
    MaxRetriesFrom(outcome, retries, 0);
    forall i | 0 <= i <= retries {
      DecideWaits(outcome(i), i, retries);
    }
  }

  /** A 401 is never retried: the request fails with "UNAUTHORIZED" on the attempt that received it. */
  lemma UnauthorizedIsFinal<B>(outcome: nat -> Outcome<B>, retries: nat, k: nat)
    requires k <= retries
    requires forall i :: 0 <= i < k ==> Decide(outcome(i), i, retries).Wait?
    requires outcome(k).Response? && outcome(k).status == 401
    ensures Run(outcome, retries, 0).result == Err(Unauthorized)
    ensures Run(outcome, retries, 0).attempts == k + 1
  {
    RunSettlesAt(outcome, retries, 0, k);
  }

  /** A server error on the final attempt fails with the server's message (or the status), not with max-retries. */
  lemma ServerErrorOnLastAttempt<B>(outcome: nat -> Outcome<B>, retries: nat)
    requires forall i :: 0 <= i < retries ==> Retryable(outcome(i))
    requires outcome(retries).Response? && outcome(retries).status >= 500
    ensures Run(outcome, retries, 0).result ==
      Err(RequestFailed(FailureMessage(outcome(retries).status, outcome(retries).errorMessage)))
    ensures Run(outcome, retries, 0).attempts == retries + 1
  {
    forall i | 0 <= i < retries ensures Decide(outcome(i), i, retries).Wait? {
      DecideWaits(outcome(i), i, retries);
    }
    RunSettlesAt(outcome, retries, 0, retries);
  }

  /** A 429 with `Retry-After: 2` followed by a success: one retry, after a 3000 ms sleep. */
  lemma RateLimitedThenOk<B>(outcome: nat -> Outcome<B>, b: B)
    requires outcome(0) == Response(429, Seconds(2), None, b)
    requires outcome(1).Response? && outcome(1).status == 200
    ensures Run(outcome, DefaultRetries, 0) == Trace(Ok(outcome(1).body), [3000], 2)
  {
    RunSettlesAt(outcome, DefaultRetries, 0, 1);
  }

  /** Server errors on every attempt but the last are retried after 1 s, 2 s and 4 s. */
  lemma BackoffSchedule<B>(outcome: nat -> Outcome<B>)
    requires forall i :: 0 <= i < DefaultRetries ==> outcome(i).Response? && outcome(i).status == 503
    requires outcome(DefaultRetries).Response? && outcome(DefaultRetries).status == 200
    ensures Run(outcome, DefaultRetries, 0).waits == [1000, 2000, 4000]
  {
    RunSettlesAt(outcome, DefaultRetries, 0, DefaultRetries);
  }

  // ---------------------------------------------------------------------------------------------
  // fetchSavedTracks

  /** The JSON body of a `/me/tracks` page: the library size and the page's entries. */
  datatype PageBody = PageBody(total: int, items: seq<SavedTrack>)

  /** Requests per batch, and the pause between two batches in milliseconds. */
  const ConcurrencyLimit: nat := 2
  const DelayBetweenBatches: nat := 300

  function Min(a: int, b: int): int {
    if a <= b then a else b
  }

  /** The offsets `offset, offset + 50, ...` below `total`, as the source's `for` loop pushes them. */
  function OffsetsFrom(offset: nat, total: int): seq<nat>
    decreases total - offset
  {
    if offset >= total then [] else [offset] + OffsetsFrom(offset + Config.TracksPerRequest, total)
  }

  function Offsets(total: int): seq<nat> {
    OffsetsFrom(0, total)
  }

  /** `ceil(total / 50)` for a positive total, else 0. */
  function PageCount(total: int): nat {
    if total <= 0 then 0 else (total + 49) / 50
  }

  lemma {:induction false} OffsetsFromShape(offset: nat, total: int)
    requires offset % 50 == 0 && offset / 50 <= PageCount(total)
    ensures |OffsetsFrom(offset, total)| == PageCount(total) - offset / 50
    ensures forall k :: 0 <= k < |OffsetsFrom(offset, total)| ==> OffsetsFrom(offset, total)[k] == offset + 50 * k
    decreases total - offset
  {
    if offset < total {
      OffsetsFromShape(offset + 50, total);
    }
  }

  /** Exactly `ceil(total / 50)` offsets `0, 50, 100, ...`, each below `total`. */
  lemma OffsetsShape(total: int)
    ensures |Offsets(total)| == PageCount(total)
    ensures forall k :: 0 <= k < |Offsets(total)| ==> Offsets(total)[k] == 50 * k && Offsets(total)[k] < total
  {
    OffsetsFromShape(0, total);
  }

  /** The outcomes of the attempts of the page request at `offset`. */
  function PageAttempts(page: (nat, nat) -> Outcome<PageBody>, offset: nat): nat -> Outcome<PageBody> {
    (attempt: nat) => page(offset, attempt)
  }

  function PageTrace(page: (nat, nat) -> Outcome<PageBody>, offset: nat): Trace<PageBody> {
    Run(PageAttempts(page, offset), DefaultRetries, 0)
  }

  /** The results of the page requests at `offs`, in offset order. */
  function PageResults(page: (nat, nat) -> Outcome<PageBody>, offs: seq<nat>): (rs: seq<Result<PageBody, ApiError>>)
    ensures |rs| == |offs|
    ensures forall m :: 0 <= m < |offs| ==> rs[m] == PageTrace(page, offs[m]).result
  {
    seq(|offs|, m requires 0 <= m < |offs| => PageTrace(page, offs[m]).result)
  }

  /** The entries of the pages that succeeded, in order. */
  function ConcatItems(rs: seq<Result<PageBody, ApiError>>): seq<SavedTrack> {
    if rs == [] then []
    else ConcatItems(rs[..|rs| - 1]) + if rs[|rs| - 1].Ok? then rs[|rs| - 1].value.items else []
  }

  /** How many page requests succeeded. */
  function CountOk(rs: seq<Result<PageBody, ApiError>>): (c: nat)
    ensures c <= |rs|
  {
    if rs == [] then 0 else CountOk(rs[..|rs| - 1]) + if rs[|rs| - 1].Ok? then 1 else 0
  }

  /** The index of the first failed page request in `rs[from..]`, or `|rs|` if none failed. */
  function FirstFailure(rs: seq<Result<PageBody, ApiError>>, from: nat): (k: nat)
    requires from <= |rs|
    ensures from <= k <= |rs|
    ensures forall m :: from <= m < k ==> rs[m].Ok?
    ensures k < |rs| ==> rs[k].Err?
    decreases |rs| - from
  {
    if from == |rs| || rs[from].Err? then from else FirstFailure(rs, from + 1)
  }

  /** The `onProgress(current, total)` calls after `n` completed pages: `current = min(completed * 50, total)`. */
  function ProgressEvents(n: nat, total: int): seq<(int, int)> {
    seq(n, i => (Min((i + 1) * Config.TracksPerRequest, total), total))
  }

  function Pauses(n: nat): seq<nat> {
    seq(n, _ => DelayBetweenBatches)
  }

  /** Everything observable about one call: its result, the page offsets requested, the progress reports and the
      pauses between batches. */
  datatype SyncReport = SyncReport(
    result: Result<seq<SavedTrack>, ApiError>,
    requested: seq<nat>,
    progress: seq<(int, int)>,
    pauses: seq<nat>)

  /** The report of the pages once the count probe has given `total`, with `rs` the results of the pages at
      `Offsets(total)`. */
  function CollectedPages(total: int, rs: seq<Result<PageBody, ApiError>>): (r: SyncReport)
    requires |rs| == |Offsets(total)|
    ensures |r.progress| <= |r.requested|
    ensures r.result.Ok? ==> NewestFirst(r.result.value)
  {
    var offs := Offsets(total);
    var n := |offs|;
    var k := FirstFailure(rs, 0);
    if k == n then
      SortIsNewestFirst(ConcatItems(rs));
      SyncReport(Ok(SortNewestFirst(ConcatItems(rs))), offs, ProgressEvents(n, total),
                 Pauses(if n == 0 then 0 else (n - 1) / 2))
    else
      var end := Min(k - k % 2 + ConcurrencyLimit, n);
      SyncReport(Err(rs[k].error), offs[..end], ProgressEvents(CountOk(rs[..end]), total), Pauses(k / 2))
  }

  /**
   * What `fetchSavedTracks` is meant to do. The count probe comes first; its failure fails the call before any
   * page is requested. Then the page offsets are requested in batches of two. The first batch holding a failing
   * page is the last batch issued, and the call fails with that page's error. When both requests of that batch
   * fail, the source rejects with whichever fails first in time; this model reports the lower offset. If every
   * page succeeds, the pages are concatenated in offset order and sorted newest first.
   */
  function Collected(probe: nat -> Outcome<PageBody>, page: (nat, nat) -> Outcome<PageBody>): (r: SyncReport)
    ensures |r.progress| <= |r.requested|
    ensures r.result.Ok? ==> NewestFirst(r.result.value)
  {
    var p := Run(probe, DefaultRetries, 0).result;
    if p.Err? then SyncReport(Err(p.error), [], [], [])
    else CollectedPages(p.value.total, PageResults(page, Offsets(p.value.total)))
  }

  lemma PrefixStep(rs: seq<Result<PageBody, ApiError>>, j: nat)
    requires j < |rs|
    ensures CountOk(rs[..j + 1]) == CountOk(rs[..j]) + if rs[j].Ok? then 1 else 0
    ensures ConcatItems(rs[..j + 1]) == ConcatItems(rs[..j]) + if rs[j].Ok? then rs[j].value.items else []
  {
    assert rs[..j + 1][..j] == rs[..j];
  }

  lemma ProgressStep(c: nat, total: int)
    ensures ProgressEvents(c + 1, total) == ProgressEvents(c, total) + [(Min((c + 1) * Config.TracksPerRequest, total), total)]
  {
  }

  lemma {:induction false} CountOkAll(rs: seq<Result<PageBody, ApiError>>)
    requires forall m :: 0 <= m < |rs| ==> rs[m].Ok?
    ensures CountOk(rs) == |rs|
  {
    if rs != [] {
      CountOkAll(rs[..|rs| - 1]);
    }
  }

  /** One page request: `apiRequest(\`/me/tracks?offset=${offset}&limit=50\`, token)`. */
  method FetchPage(token: string, page: (nat, nat) -> Outcome<PageBody>, offset: nat)
    returns (r: Result<PageBody, ApiError>)
    ensures r == PageTrace(page, offset).result
  {
    var waits, sent;
    r, waits, sent := ApiRequest(token, map[], PageAttempts(page, offset), DefaultRetries);
  }

  /** Whether `k` is the index of the first failed result in `rs` (or `|rs|`). */
  ghost predicate FirstFailureAt(rs: seq<Result<PageBody, ApiError>>, k: nat) {
    k <= |rs| && (forall m :: 0 <= m < k ==> rs[m].Ok?) && (k < |rs| ==> rs[k].Err?)
  }

  /** The variables of `fetchSavedTracks` that one batch updates: the first failure of the batch, the entries of
      its pages, and (ghost) the offsets requested so far, with the `completed` counter and the progress reports. */
  datatype BatchState = BatchState(failure: Option<ApiError>, items: seq<SavedTrack>, requested: seq<nat>,
                                   completed: nat, progress: seq<(int, int)>)

  /** `st` is the state after the requests at `offsets[..j]`, in a batch that started at `i`. */
  ghost predicate InBatch(st: BatchState, offsets: seq<nat>, rs: seq<Result<PageBody, ApiError>>, k: nat, i: nat, j: nat,
                          total: int)
  {
    && |rs| == |offsets| && FirstFailureAt(rs, k) && i <= j <= |offsets| && i <= k
    && st.requested == offsets[..j]
    && st.completed == CountOk(rs[..j])
    && st.progress == ProgressEvents(st.completed, total)
    && (st.failure.None? <==> k >= j)
    && (st.failure.None? ==> ConcatItems(rs[..i]) + st.items == ConcatItems(rs[..j]))
    && (st.failure.Some? ==> k < |rs| && st.failure.value == rs[k].error)
  }

  /** Records the result `r` of the page request at `offsets[j]` inside a batch that started at `i`: the
      `completed++` and `onProgress` report of a success, the first failure of the batch otherwise. */
  method RecordInBatch(offsets: seq<nat>, ghost rs: seq<Result<PageBody, ApiError>>, ghost k: nat, ghost i: nat,
                       j: nat, r: Result<PageBody, ApiError>, total: int, st0: BatchState)
    returns (st: BatchState)
    requires InBatch(st0, offsets, rs, k, i, j, total) && j < |offsets| && r == rs[j]
    ensures InBatch(st, offsets, rs, k, i, j + 1, total)
  {
    st := st0;
    var off := offsets[j];
    PrefixStep(rs, j);
    assert offsets[..j + 1] == offsets[..j] + [off];
    st := st.(requested := st.requested + [off]);
    if r.Ok? {
      ProgressStep(st.completed, total);
      var completed := st.completed + 1;
      st := st.(completed := completed, progress := st.progress + [(Min(completed * Config.TracksPerRequest, total), total)]);
      if st.failure.None? {
        assert ConcatItems(rs[..i]) + (st.items + r.value.items) == (ConcatItems(rs[..i]) + st.items) + r.value.items;
      }
      st := st.(items := st.items + r.value.items);
    } else if st.failure.None? {
      st := st.(failure := Some(r.error));
    }
  }

  /** A batch starting at `i` starts from the counters of everything before it and no entries. */
  lemma StartBatch(acc: BatchState, st: BatchState, offsets: seq<nat>, rs: seq<Result<PageBody, ApiError>>, k: nat,
                   i: nat, total: int)
    requires InBatch(acc, offsets, rs, k, 0, i, total) && acc.failure.None?
    requires st == BatchState(None, [], acc.requested, acc.completed, acc.progress)
    ensures InBatch(st, offsets, rs, k, i, i, total)
  {
  }

  /** The entries of all batches so far followed by those of the next batch are the entries of every page up to
      its end. */
  lemma JoinBatches(acc: BatchState, st: BatchState, offsets: seq<nat>, rs: seq<Result<PageBody, ApiError>>, k: nat,
                    i: nat, end: nat, total: int)
    requires InBatch(acc, offsets, rs, k, 0, i, total) && acc.failure.None?
    requires InBatch(st, offsets, rs, k, i, end, total) && st.failure.None?
    ensures InBatch(st.(items := acc.items + st.items), offsets, rs, k, 0, end, total)
  {
    assert rs[..0] == [];
  }

  /** The requests of one batch `offsets[i..end]` (`Promise.all` over `batch.map`), starting from the state `st0`
      whose `completed` and `progress` are the caller's counters, carried across batches as in the source. `rs` are the results the requests
      produce and `k` the index of the first failing one. */
  method FetchBatch(token: string, page: (nat, nat) -> Outcome<PageBody>, offsets: seq<nat>,
                    ghost rs: seq<Result<PageBody, ApiError>>, ghost k: nat,
                    i: nat, end: nat, total: int, st0: BatchState)
    returns (st: BatchState)
    requires |rs| == |offsets| && forall m :: 0 <= m < |offsets| ==> rs[m] == PageTrace(page, offsets[m]).result
    requires InBatch(st0, offsets, rs, k, i, i, total) && i <= end <= |offsets|
    ensures InBatch(st, offsets, rs, k, i, end, total)
  {
    st := st0;
    var j := i;
    while j < end
      invariant j <= end && InBatch(st, offsets, rs, k, i, j, total)
    {
      var r := FetchPage(token, page, offsets[j]);
      assert r == rs[j];
      st := RecordInBatch(offsets, rs, k, i, j, r, total, st);
      j := j + 1;
    }
  }

  lemma FirstFailureUnique(rs: seq<Result<PageBody, ApiError>>, k: nat)
    requires FirstFailureAt(rs, k)
    ensures FirstFailure(rs, 0) == k
  {
  }

  /** The report when every page succeeded. */
  lemma CollectedPagesSucceeded(total: int, rs: seq<Result<PageBody, ApiError>>)
    requires |rs| == |Offsets(total)| && FirstFailureAt(rs, |rs|)
    ensures CollectedPages(total, rs)
         == SyncReport(Ok(SortNewestFirst(ConcatItems(rs))), Offsets(total), ProgressEvents(|rs|, total),
                       Pauses(if |rs| == 0 then 0 else (|rs| - 1) / 2))
  {
    FirstFailureUnique(rs, |rs|);
  }

  /** The report when the first failure `k` lies in the batch starting at `i`. */
  lemma CollectedPagesFailed(total: int, rs: seq<Result<PageBody, ApiError>>, k: nat, b: nat)
    requires |rs| == |Offsets(total)| && FirstFailureAt(rs, k) && k < |rs|
    requires ConcurrencyLimit * b <= k < ConcurrencyLimit * (b + 1)
    ensures CollectedPages(total, rs)
         == SyncReport(Err(rs[k].error), Offsets(total)[..Min(ConcurrencyLimit * (b + 1), |rs|)],
                       ProgressEvents(CountOk(rs[..Min(ConcurrencyLimit * (b + 1), |rs|)]), total), Pauses(b))
  {
    FirstFailureUnique(rs, k);
    assert k - k % 2 == 2 * b && k / 2 == b;
  }

  /** The offsets loop of `fetchSavedTracks`: `for (offset = 0; offset < total; offset += 50) offsets.push(offset)`. */
  method PageOffsets(total: int) returns (offsets: seq<nat>)
    ensures offsets == Offsets(total)
  {
    offsets := [];
    var offset: nat := 0;
    while offset < total
      invariant offsets + OffsetsFrom(offset, total) == Offsets(total)
      decreases total - offset
    {
      assert OffsetsFrom(offset, total) == [offset] + OffsetsFrom(offset + Config.TracksPerRequest, total);
      offsets := offsets + [offset];
      offset := offset + Config.TracksPerRequest;
    }
  }

  /** One turn of the batch loop: the batch starting at `i`, its entries appended to those of the earlier
      batches when it succeeds. */
  method NextBatch(token: string, page: (nat, nat) -> Outcome<PageBody>, offsets: seq<nat>,
                   ghost rs: seq<Result<PageBody, ApiError>>, ghost k: nat, i: nat, total: int, acc: BatchState)
    returns (st: BatchState, end: nat)
    requires |rs| == |offsets| && forall m :: 0 <= m < |offsets| ==> rs[m] == PageTrace(page, offsets[m]).result
    requires i < |offsets| && InBatch(acc, offsets, rs, k, 0, i, total) && acc.failure.None?
    ensures end == Min(i + ConcurrencyLimit, |offsets|)
    ensures st.failure.None? ==> InBatch(st, offsets, rs, k, 0, end, total)
    ensures st.failure.Some? ==> InBatch(st, offsets, rs, k, i, end, total)
  {
    end := Min(i + ConcurrencyLimit, |offsets|);
    st := BatchState(None, [], acc.requested, acc.completed, acc.progress);
    StartBatch(acc, st, offsets, rs, k, i, total);
    st := FetchBatch(token, page, offsets, rs, k, i, end, total, st);
    if st.failure.None? {
      JoinBatches(acc, st, offsets, rs, k, i, end, total);
      st := st.(items := acc.items + st.items);
    }
  }

  /** The report of a call whose batch `b`, starting at `i`, holds the first failure. */
  lemma FailedBatchReport(total: int, offsets: seq<nat>, rs: seq<Result<PageBody, ApiError>>, k: nat, i: nat, b: nat,
                          end: nat, st: BatchState)
    requires offsets == Offsets(total) && |rs| == |offsets|
    requires i == ConcurrencyLimit * b && i < |offsets| && end == Min(i + ConcurrencyLimit, |offsets|)
    requires InBatch(st, offsets, rs, k, i, end, total) && st.failure.Some?
    ensures SyncReport(Err(st.failure.value), st.requested, st.progress, Pauses(b)) == CollectedPages(total, rs)
  {
    CollectedPagesFailed(total, rs, k, b);
  }

  /** The report of a call all of whose batches succeeded. */
  lemma AllBatchesReport(total: int, offsets: seq<nat>, rs: seq<Result<PageBody, ApiError>>, k: nat, i: nat, b: nat,
                         acc: BatchState)
    requires offsets == Offsets(total) && |rs| == |offsets|
    requires i == ConcurrencyLimit * b && |offsets| <= i <= |offsets| + 1
    requires InBatch(acc, offsets, rs, k, 0, |offsets|, total) && acc.failure.None?
    ensures SyncReport(Ok(SortNewestFirst(acc.items)), acc.requested, acc.progress,
                       Pauses(if |offsets| == 0 then 0 else (|offsets| - 1) / 2))
         == CollectedPages(total, rs)
  {
    assert k == |rs|;
    assert rs[..|rs|] == rs && rs[..0] == [];
    assert acc.items == ConcatItems(rs);
    assert acc.requested == offsets;
    CountOkAll(rs);
    assert acc.progress == ProgressEvents(|rs|, total);
    CollectedPagesSucceeded(total, rs);
  }

  /** The batch loop of `fetchSavedTracks` once `total` is known, ending with the sort; `rs` are the results
      the page requests produce. */
  method CollectPages(token: string, page: (nat, nat) -> Outcome<PageBody>, total: int,
                      ghost rs: seq<Result<PageBody, ApiError>>)
    returns (result: Result<seq<SavedTrack>, ApiError>, requested: seq<nat>, progress: seq<(int, int)>, pauses: seq<nat>)
    requires |rs| == |Offsets(total)|
    requires forall m :: 0 <= m < |rs| ==> rs[m] == PageTrace(page, Offsets(total)[m]).result
    ensures SyncReport(result, requested, progress, pauses) == CollectedPages(total, rs)
  {
    pauses := [];
    var offsets := PageOffsets(total);
    ghost var n := |offsets|;
    ghost var k := FirstFailure(rs, 0);
    assert FirstFailureAt(rs, k);

    // `allTracks`, `completed` and the reports so far, as the state of a batch that started at offset 0.
    var acc := BatchState(None, [], [], 0, []);
    var i := 0;
    ghost var b: nat := 0;
    while i < |offsets|
      invariant i == ConcurrencyLimit * b && i <= n + 1
      invariant InBatch(acc, offsets, rs, k, 0, Min(i, n), total) && acc.failure.None?
      invariant pauses == Pauses(if i < n then b else if n == 0 then 0 else (n - 1) / 2)
    {
      var st, end := NextBatch(token, page, offsets, rs, k, i, total, acc);
      if st.failure.Some? {
        FailedBatchReport(total, offsets, rs, k, i, b, end, st);
        result, requested, progress := Err(st.failure.value), st.requested, st.progress;
        return;
      }
      acc := st;
      if i + ConcurrencyLimit < |offsets| {
        pauses := pauses + [DelayBetweenBatches];
      }
      i, b := i + ConcurrencyLimit, b + 1;
    }
    AllBatchesReport(total, offsets, rs, k, i, b, acc);
    result, requested, progress := Ok(SortNewestFirst(acc.items)), acc.requested, acc.progress;
  }

  /**
   * `fetchSavedTracks(token, onProgress)`. `probe(a)` is the outcome of attempt `a` of the count probe and
   * `page(offset, a)` that of attempt `a` of the page request at `offset`.
   */
  method FetchSavedTracks(token: string, probe: nat -> Outcome<PageBody>, page: (nat, nat) -> Outcome<PageBody>)
    returns (result: Result<seq<SavedTrack>, ApiError>, requested: seq<nat>, progress: seq<(int, int)>, pauses: seq<nat>)
    ensures SyncReport(result, requested, progress, pauses) == Collected(probe, page)
  {
    var initial, probeWaits, probeSent := ApiRequest(token, map[], probe, DefaultRetries);
    if initial.Err? {
      result, requested, progress, pauses := Err(initial.error), [], [], [];
      return;
    }
    var total := initial.value.total;
    if total == 0 {
      result, requested, progress, pauses := Ok([]), [], [], [];
      return;
    }
    result, requested, progress, pauses := CollectPages(token, page, total, PageResults(page, Offsets(total)));
  }

  /** The progress reports: `total` is always the second component, `current` never exceeds it and never
      decreases, and once all `PageCount(total)` pages have completed the last report is `(total, total)`. */
  lemma ProgressEventsShape(n: nat, total: int)
    requires n <= PageCount(total)
    ensures forall i :: 0 <= i < n ==> ProgressEvents(n, total)[i].1 == total && 0 < ProgressEvents(n, total)[i].0 <= total
    ensures forall i, j :: 0 <= i <= j < n ==> ProgressEvents(n, total)[i].0 <= ProgressEvents(n, total)[j].0
    ensures n == PageCount(total) && n > 0 ==> ProgressEvents(n, total)[n - 1] == (total, total)
  {
    if n == PageCount(total) && n > 0 {
      assert n * 50 >= total;
    }
  }

  /** Which calls succeed: exactly those whose count probe and every page request succeed. */
  lemma CollectedOkIff(probe: nat -> Outcome<PageBody>, page: (nat, nat) -> Outcome<PageBody>)
    ensures Collected(probe, page).result.Ok?
        <==> Run(probe, DefaultRetries, 0).result.Ok?
             && forall o :: o in Offsets(Run(probe, DefaultRetries, 0).result.value.total)
                            ==> PageTrace(page, o).result.Ok?
  {
    var p := Run(probe, DefaultRetries, 0).result;
    if p.Ok? {
      var offs := Offsets(p.value.total);
      var rs := PageResults(page, offs);
      var k := FirstFailure(rs, 0);
      if k < |rs| {
        assert offs[k] in offs;
      } else {
        forall o | o in offs ensures PageTrace(page, o).result.Ok? {
          var m :| 0 <= m < |offs| && offs[m] == o;
        }
      }
    }
  }

  /**
   * A call whose probe and pages all succeed requests every offset `0, 50, ...` below `total` once and in order,
   * reports progress up to `(total, total)`, pauses between consecutive batches, and returns all entries of the
   * pages, newest first, keeping the offset order of entries added at the same time.
   */
  lemma CollectedAllPages(probe: nat -> Outcome<PageBody>, page: (nat, nat) -> Outcome<PageBody>)
    requires Run(probe, DefaultRetries, 0).result.Ok?
    requires forall o :: o in Offsets(Run(probe, DefaultRetries, 0).result.value.total) ==> PageTrace(page, o).result.Ok?
    ensures var total := Run(probe, DefaultRetries, 0).result.value.total;
            var all := ConcatItems(PageResults(page, Offsets(total)));
            var r := Collected(probe, page);
            && r.result.Ok?
            && NewestFirst(r.result.value)
            && multiset(r.result.value) == multiset(all)
            && (forall t :: AddedAt(r.result.value, t) == AddedAt(all, t))
            && |r.requested| == PageCount(total)
            && (forall m :: 0 <= m < |r.requested| ==> r.requested[m] == 50 * m && r.requested[m] < total)
            && |r.progress| == PageCount(total)
            && (total > 0 ==> r.progress[|r.progress| - 1] == (total, total))
            && |r.pauses| == if total > 0 then (PageCount(total) - 1) / 2 else 0
  {
    var total := Run(probe, DefaultRetries, 0).result.value.total;
    var offs := Offsets(total);
    var rs := PageResults(page, offs);
    assert Collected(probe, page) == CollectedPages(total, rs);
    OffsetsShape(total);
    forall m | 0 <= m < |rs| ensures rs[m].Ok? {
      assert offs[m] in offs;
    }
    FirstFailureUnique(rs, |rs|);
    CountOkAll(rs);
    var all := ConcatItems(rs);
    SortPermutes(all);
    forall t ensures AddedAt(SortNewestFirst(all), t) == AddedAt(all, t) {
      SortIsStable(all, t);
    }
    ProgressEventsShape(|rs|, total);
  }

  /**
   * A call whose page at `Offsets(total)[k]` is the first to fail fails with that page's error, after
   * requesting the offsets up to the end of the failing page's batch of two, and no further.
   */
  lemma CollectedFirstFailure(probe: nat -> Outcome<PageBody>, page: (nat, nat) -> Outcome<PageBody>, k: nat)
    requires Run(probe, DefaultRetries, 0).result.Ok?
    requires var offs := Offsets(Run(probe, DefaultRetries, 0).result.value.total);
             && k < |offs|
             && PageTrace(page, offs[k]).result.Err?
             && forall m :: 0 <= m < k ==> PageTrace(page, offs[m]).result.Ok?
    ensures var offs := Offsets(Run(probe, DefaultRetries, 0).result.value.total);
            var r := Collected(probe, page);
            && r.result == Err(PageTrace(page, offs[k]).result.error)
            && r.requested == offs[..Min(k - k % 2 + ConcurrencyLimit, |offs|)]
            && offs[k] in r.requested
            && |r.pauses| == k / 2
  {
    var offs := Offsets(Run(probe, DefaultRetries, 0).result.value.total);
    var rs := PageResults(page, offs);
    FirstFailureUnique(rs, k);
    assert offs[..Min(k - k % 2 + ConcurrencyLimit, |offs|)][k] == offs[k];
  }
}
