/** The `/api/hospitals` handler (app.js:159-215): validate the wilaya,
    work out the limit and the cache key, answer from the cache when it can,
    otherwise fetch from Overpass with retries and fallback, build the payload
    and cache it. The network is the orchestrator's oracle; the clock readings
    for the lookup and for the store, and the payload's time stamp, are
    parameters. */
module HospitalsApi {
  import opened Wrappers
  import opened Overpass
  import opened HospitalsRequest
  import opened HospitalsResult
  import opened ResponseCache
  import OverpassProperties

  /** The query string parameters the handler reads; `None` is absent. */
  datatype Query = Query(wilaya: Option<string>, limit: Option<string>)

  datatype Response =
    | Ok(payload: Payload)                                     // 200
    | BadRequest(error: string)                                // 400
    | BadGateway(error: string, details: string, note: string) // 502
    | InternalError                                            // 500: building the payload threw

  const InvalidWilayaError := "Invalid wilaya number. Must be between 01 and 58."
  const UpstreamError := "Failed to fetch hospitals from Overpass"
  const UpstreamNote := "This usually means the Overpass servers are overloaded or your query timed out. Try again in a minute or reduce the bounding box."

  /** `{ timeoutMs: 60000, retriesPerEndpoint: 3, baseDelayMs: 500 }` */
  const HandlerOptions := Options(Some(3), Some(500), Some(60000))

  /** The response, the cache entries afterwards, and the orchestrator's
      trace (empty when it was not called). */
  datatype Handled = Handled(response: Response, entries: map<string, Entry<Payload>>, trace: seq<Event>)

  /** The cache key of a request for wilaya `code`. */
  function RequestKey(code: string, q: Query): string
  {
    CacheKey(code, Limit(q.limit))
  }

  /** One request, from the cache entries it finds to the ones it leaves. */
  function Handle(q: Query, entries: map<string, Entry<Payload>>, now: int, storedAt: int,
                  network: (nat, nat) -> Reply<Json>, queriedAt: string): Handled
  {
    match ValidateWilaya(q.wilaya)
    case None => Handled(BadRequest(InvalidWilayaError), entries, [])
    case Some(code) =>
      var key := RequestKey(code, q);
      var afterGet := AfterLookup(entries, key, now);
      match Lookup(entries, key, now)
      case Some(cached) => Handled(Ok(cached), afterGet, [])
      case None =>
        var run := Run(OverpassEndpoints, Resolve(HandlerOptions), network);
        match run.result
        case AllFailed(message) => Handled(BadGateway(UpstreamError, message, UpstreamNote), afterGet, run.trace)
        case Fetched(data) =>
          match BuildPayload(code, Limit(q.limit), data, queriedAt)
          case None => Handled(InternalError, afterGet, run.trace)
          case Some(payload) => Handled(Ok(payload), Store(afterGet, key, payload, storedAt), run.trace)
  }

  /** The handler against the shared cache object. */
  method HandleHospitals(cache: Cache<Payload>, q: Query, now: int, storedAt: int,
                         network: (nat, nat) -> Reply<Json>, queriedAt: string)
    returns (response: Response, trace: seq<Event>)
    modifies cache
    ensures Handled(response, cache.entries, trace) == Handle(q, old(cache.entries), now, storedAt, network, queriedAt)
  {
    var wilaya := ValidateWilaya(q.wilaya);
    if wilaya.None? {
      return BadRequest(InvalidWilayaError), [];
    }
    var code := wilaya.value;
    var limit := Limit(q.limit);
    var cacheKey := CacheKey(code, limit);
    var cached := cache.Get(cacheKey, now);
    if cached.Some? {
      return Ok(cached.value), [];
    }
    var overData;
    overData, trace := PostOverpassWithRetries(OverpassEndpoints, HandlerOptions, network);
    if overData.AllFailed? {
      return BadGateway(UpstreamError, overData.message, UpstreamNote), trace;
    }
    var payload := BuildPayload(code, limit, overData.data, queriedAt);
    if payload.None? {
      return InternalError, trace;
    }
    cache.Set(cacheKey, payload.value, storedAt);
    response := Ok(payload.value);
  }

  /** An invalid wilaya is answered with 400 before the cache or the network
      is touched. */
  lemma InvalidWilayaRejectedFirst(q: Query, entries: map<string, Entry<Payload>>, now: int, storedAt: int,
                                   network: (nat, nat) -> Reply<Json>, queriedAt: string)
    ensures var h := Handle(q, entries, now, storedAt, network, queriedAt);
            h.response.BadRequest? <==> ValidateWilaya(q.wilaya).None?
    ensures var h := Handle(q, entries, now, storedAt, network, queriedAt);
            h.response.BadRequest? ==> h.entries == entries && h.trace == []
  {
  }

  /** A live cache entry is answered as it is, with no request upstream and
      no change to the cache. */
  lemma CacheHitSkipsFetch(q: Query, code: string, entries: map<string, Entry<Payload>>, now: int, storedAt: int,
                           network: (nat, nat) -> Reply<Json>, queriedAt: string)
    requires ValidateWilaya(q.wilaya) == Some(code)
    requires Lookup(entries, RequestKey(code, q), now).Some?
    ensures Handle(q, entries, now, storedAt, network, queriedAt)
            == Handled(Ok(Lookup(entries, RequestKey(code, q), now).value), entries, [])
  {
  }

  /** A request that does not answer 200 stores nothing: the only change it
      may make to the cache is the deletion of an expired entry. */
  lemma FailureNeverCached(q: Query, entries: map<string, Entry<Payload>>, now: int, storedAt: int,
                           network: (nat, nat) -> Reply<Json>, queriedAt: string)
    ensures var h := Handle(q, entries, now, storedAt, network, queriedAt);
            !h.response.Ok? ==> forall k | k in h.entries :: k in entries && h.entries[k] == entries[k]
  {
    match ValidateWilaya(q.wilaya)
    case None =>
    case Some(code) =>
      var key := RequestKey(code, q);
      var h := Handle(q, entries, now, storedAt, network, queriedAt);
      LookupKeepsLiveEntries(entries, key, now);
      if Lookup(entries, key, now).None? {
        var run := Run(OverpassEndpoints, Resolve(HandlerOptions), network);
        if run.result.Fetched? && BuildPayload(code, Limit(q.limit), run.result.data, queriedAt).Some? {
          assert h.response.Ok?;
        } else {
          assert h.entries == AfterLookup(entries, key, now);
        }
      } else {
        assert h.entries == AfterLookup(entries, key, now);
      }
  }

  /** Any entry a request adds or replaces is its own key, holding the
      payload it answered, stored after a fetch that succeeded, for TTL
      seconds from the store. */
  lemma OnlySuccessfulFetchStores(q: Query, entries: map<string, Entry<Payload>>, now: int, storedAt: int,
                                  network: (nat, nat) -> Reply<Json>, queriedAt: string, k: string)
    ensures var h := Handle(q, entries, now, storedAt, network, queriedAt);
            k in h.entries && (k !in entries || h.entries[k] != entries[k]) ==>
              && ValidateWilaya(q.wilaya).Some?
              && k == RequestKey(ValidateWilaya(q.wilaya).value, q)
              && Run(OverpassEndpoints, Resolve(HandlerOptions), network).result.Fetched?
              && h.response.Ok?
              && h.entries[k] == Entry(h.response.payload, storedAt + TtlSeconds)
  {
  }

  /** After a fetch that was stored, the same request is answered from the
      cache, without any request upstream, until the entry expires. */
  lemma RepeatWithinTtlHitsCache(q: Query, entries: map<string, Entry<Payload>>, now: int, storedAt: int,
                                 network: (nat, nat) -> Reply<Json>, queriedAt: string,
                                 later: int, laterStore: int, laterNetwork: (nat, nat) -> Reply<Json>, laterStamp: string)
    requires ValidateWilaya(q.wilaya).Some?
    requires Lookup(entries, RequestKey(ValidateWilaya(q.wilaya).value, q), now).None?
    requires later <= storedAt + TtlSeconds
    ensures var h := Handle(q, entries, now, storedAt, network, queriedAt);
            h.response.Ok? ==>
              Handle(q, h.entries, later, laterStore, laterNetwork, laterStamp) == Handled(h.response, h.entries, [])
  {
  }

  /** When every endpoint fails the handler answers 502, and the details
      name each configured endpoint. */
  lemma UpstreamFailureNamesEndpoints(q: Query, entries: map<string, Entry<Payload>>, now: int, storedAt: int,
                                      network: (nat, nat) -> Reply<Json>, queriedAt: string, i: nat)
    requires i < |OverpassEndpoints|
    ensures var h := Handle(q, entries, now, storedAt, network, queriedAt);
            h.response.BadGateway? ==>
              h.response.details == FailureMessage(OverpassEndpoints)
              && exists k :: OverpassProperties.OccursAt(OverpassEndpoints[i], h.response.details, k)
  {
    var h := Handle(q, entries, now, storedAt, network, queriedAt);
    if h.response.BadGateway? {
      OverpassProperties.RunShape(OverpassEndpoints, Resolve(HandlerOptions), network);
      OverpassProperties.FailureMessageNamesAll(OverpassEndpoints, i);
    }
  }
}
