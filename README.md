# Algeria hospitals API: a Dafny model of its resilient fetch and cache

The server answers `GET /api/hospitals?wilaya=NN&limit=L` with the hospitals
that OpenStreetMap knows inside one Algerian wilaya (province). This project
models the parts of `app.js` that carry real logic:

- **the Overpass orchestrator** `postOverpassWithRetries` (`overpass.dfy`).
  It works through an ordered list of endpoints. Each endpoint gets a retry
  budget. Each reply is classified as success (2xx), fatal for that endpoint
  (a 4xx other than 429) or retryable (anything else, including no response
  at all). Between retries on the same endpoint the orchestrator sleeps for an
  exponential backoff. When every endpoint has failed, it throws one error
  that names them all. The network is an oracle `network(endpoint, attempt)`.
  Each run records a trace of the requests it made and the delays it asked
  for. The source's two nested loops are two imperative methods. They are
  proved equal to the recursive specification `Run`, and
  `overpass_properties.dfy` proves what every run looks like.
- **request normalisation** (`request.dfy`, `decimal.dfy`): the wilaya
  parameter is zero-padded and checked against the 58 codes. The limit goes
  through `parseInt`, `|| 200` and `Math.min(…, 1000)`. Both feed the cache
  key `wilaya:<code>:<limit>`.
- **result normalisation** (`results.dfy`): the Overpass JSON's `elements`
  are cut with `slice(0, limit)` and each one is mapped to a hospital record.
  The name comes from `||`, the coordinates from `??`.
- **the response cache** (`cache.dfy`): NodeCache with a TTL of 30 minutes,
  on a logical clock in seconds.
- **the handler** (`handler.dfy`): validate, look up the cache, fetch on a
  miss, answer 502 when every endpoint fails, build the payload, and store it
  only after a success. The handler is a method on a shared `Cache` object,
  proved equal to a pure function `Handle`. The lemmas about `Handle` state
  the cache discipline.

Edge cases of the code that the model keeps:

- **Backoff.** After failed attempt `a` the code sleeps `base * 2^(a-1)`
  (app.js:73), so the first retry waits `base` and each later one twice as
  long. `Overpass.Backoff` and `OverpassProperties.BackoffDoubles` state it.
- **Negative limit.** `Math.min(…, 1000)` caps the parsed limit only from
  above (app.js:167), so a negative limit passes, and `slice(0, -k)`
  (app.js:198) then drops the last `k` elements, or all of them when there
  are no more than `k`. `HospitalsResult.PayloadKeepsFirstElements` states it.
- **Expiry boundary.** node-cache deletes an entry only once its expiry time
  is strictly in the past. An entry stored at second 0 is therefore still
  served at second 1800, and absent from second 1801 on.
- **Retry budget of 0 or less.** The `while (attempt < maxRetriesPerEndpoint)`
  loop (app.js:36) does not run for such a budget, so no request is made and
  the aggregate error is thrown at once.

## Model

| member | source | states |
|---|---|---|
| Overpass.Resolve | app.js:30-42 | `??` defaults: an unset budget, base delay or timeout becomes 3, 500 ms or 60000 ms, and an explicit value (even 0) is kept |
| Overpass.Classify | app.js:46-64 | a reply succeeds iff it is a 2xx response, and then it carries the response body; it is fatal iff it is a response with status 400-499 other than 429; everything else is retryable |
| Overpass.LegWins | app.js:45-48 | when attempt `done+1` gets a 2xx, the endpoint's attempts end with that one request and its data |
| Overpass.LegStops | app.js:59-70 | a fatal reply, or a retryable one that uses up the budget, ends the endpoint after that request, with no sleep |
| Overpass.LegRetries | app.js:66-75 | a retryable reply with budget left is followed by a sleep of the backoff for that attempt and then by the next attempt on the same endpoint |
| Overpass.FromEndpoint | app.js:34-77 | the outer loop returns the first endpoint's data if it won, and otherwise goes on with the next endpoint after that endpoint's events |
| Overpass.AttemptEndpoint | app.js:35-76 | the inner loop on one endpoint makes exactly the requests and sleeps of the specification `TryEndpoint`, and ends with the first success or with the endpoint given up |
| Overpass.PostOverpassWithRetries | app.js:29-82 | the outer loop returns exactly the result and trace of the specification `Run`: the first success, or the aggregate error after every endpoint |
| OverpassProperties.RunShape | app.js:29-82 | every run obeys the per-event rules (timeout on each request, attempt numbers within the budget, backoff sleep only between retries on one endpoint, fallback to the next endpoint on a fatal or last failure). The trace is empty iff there is no endpoint or no budget, and it starts with attempt 1 on the first endpoint. The result is data iff the last request succeeded, and then it is that reply's body. Otherwise the error is the aggregate message, after the last endpoint was given up |
| OverpassProperties.LegShape | app.js:36-76 | the attempts on one endpoint obey the per-event rules, and end in success exactly when the last request succeeded |
| OverpassProperties.FromShape | app.js:34-81 | the same characterisation as `RunShape`, for the endpoints from position `i` on |
| OverpassProperties.WellFormedAppend | app.js:34-77 | a trace that gave up an endpoint, followed by the trace of the next endpoints, still obeys the per-event rules |
| OverpassProperties.SuccessIsFinal | app.js:46-48 | no request follows a successful one |
| OverpassProperties.CountsAppend | app.js:36-75 | requests and sleeps of a concatenated trace add up |
| OverpassProperties.PersistentFailureLeg | app.js:36-76 | when every reply is retryable, an endpoint gets all its budgeted requests and one sleep fewer, then is given up |
| OverpassProperties.PersistentFailure | app.js:29-82 | when every reply is retryable, the run throws the aggregate error after exactly endpoints × budget requests and endpoints × (budget − 1) sleeps |
| OverpassProperties.JoinMentions | app.js:80 | each element of a list appears in its `join` |
| OverpassProperties.FailureMessageNamesAll | app.js:80-81 | the aggregate error message names every endpoint |
| OverpassProperties.BackoffDoubles | app.js:72-74 | the first retry waits the base delay, and each further retry waits twice as long as the one before |
| OverpassProperties.ScenarioFallbackAfterRateLimit | app.js:29-82 | A answers 429 three times, then B answers 500 and then 200. The run makes five requests with sleeps of 500, 1000 and 500 ms and returns B's data |
| OverpassProperties.ScenarioClientError | app.js:59-64 | a 404 on the only endpoint gives one request, no sleep, and the error naming that endpoint |
| Decimal.NatToString | app.js:168 | `String(n)` for n ≥ 0 is a non-empty string of digits |
| Decimal.TrimStart | app.js:167 | `parseInt` skips exactly the leading JavaScript white space |
| Decimal.DigitPrefix | app.js:167 | `parseInt` reads the longest run of leading digits |
| Decimal.NatToStringValue | app.js:168 | the digits `String(n)` writes denote `n` |
| Decimal.DigitPrefixOfDigits | app.js:167 | digits followed by a non-digit are read up to the non-digit |
| Decimal.TrimStartSkipsWhiteSpace | app.js:167 | white space before a non-space is skipped, and nothing else is |
| Decimal.ParseIntOfDigits | app.js:167 | `parseInt` of digits followed by a non-digit is their value |
| Decimal.ParseIntOfNegative | app.js:167 | `parseInt` of `-` and digits is minus their value |
| Decimal.ParseIntReadsRenderingUnpadded | app.js:167-168 | `parseInt(String(n) + rest)` is `n` when `rest` does not start with a digit |
| Decimal.ParseIntReadsRendering | app.js:167-168 | the same round trip, also with leading white space |
| Decimal.IntToStringInjective | app.js:168 | distinct limits are written differently |
| HospitalsRequest.PadStart | app.js:161 | `padStart(2, '0')` has length max(2, len), ends with the input and is `0` before it |
| HospitalsRequest.WilayaCandidate | app.js:161 | an absent or empty parameter becomes "00", one character gets a leading 0, anything longer is kept |
| HospitalsRequest.WilayaCodeShape | app.js:89-148 | the table's keys are exactly the two-digit strings whose value is 1 to 58 |
| HospitalsRequest.GuardAdmitsInheritedName | app.js:163 | as written, `wilaya=constructor` passes `!WILAYAS[wilaya]` although it is no wilaya code (see Findings) |
| HospitalsRequest.ValidateWilayaAccepts | app.js:161-165 | the corrected guard accepts a parameter iff it is one of the 58 codes or a single character that becomes one when zero-padded, and the accepted code is the padded parameter |
| HospitalsRequest.LimitRule | app.js:167 | the limit is 200 when the parameter is missing, empty, unparsable or parses to 0, and otherwise the parsed value capped at 1000 (never raised). It is never 0 and never above 1000 |
| HospitalsRequest.DefaultLimitParses | app.js:167 | the default text "200" parses to 200 |
| HospitalsRequest.LimitOfWrittenNumber | app.js:167 | a parameter that is the writing of `n` gives 200 for 0, and `min(n, 1000)` otherwise |
| HospitalsRequest.CacheKeyInjective | app.js:168 | two requests share a cache key iff they have the same code and the same limit |
| HospitalsResult.NameFallsBackOnFalsy | app.js:199 | the name is `tags.name` if truthy, else `tags["name:en"]` if truthy, else null |
| HospitalsResult.CoordinatesFallBackOnNullish | app.js:200-201 | a coordinate is the element's own unless null or undefined, then its centre's, then null; a 0 is kept |
| HospitalsResult.SliceEnd | app.js:198 | `slice(0, limit)` keeps the first `limit` elements or, when there are fewer, all of them; a negative limit drops `-limit` elements from the end or, when there are fewer, all of them |
| HospitalsResult.Normalise | app.js:198-203 | building the list fails iff a kept element is null; otherwise each kept element is mapped, in order |
| HospitalsResult.PayloadKeepsFirstElements | app.js:197-211 | a built payload carries the wilaya code, its stamp, a count equal to its length, and a prefix of the elements mapped in order: the first `min(limit, len)` for a non-negative limit, and for a negative one all but the last `-limit` (none when there are no more than `-limit`) |
| HospitalsResult.MissingElementsGiveEmptyPayload | app.js:197 | an answer with no (or a falsy) `elements` gives an empty payload |
| ResponseCache.StoreThenLookup | app.js:9 | a stored value is read back until TTL (1800 s) after the store, not after, and other keys are unaffected |
| ResponseCache.LookupKeepsLiveEntries | app.js:169 | a read changes nothing that a read at the same time can see, and extends no entry's life |
| ResponseCache.ExpiryScenario | app.js:9 | stored at 0: served at 1799 and at 1800, absent at 1801 |
| ResponseCache.Cache.Get | app.js:169 | the read returns the value of a live entry and deletes an expired one, and nothing else changes |
| ResponseCache.Cache.Set | app.js:213 | the write stores the value with expiry now + TTL, replacing any previous entry |
| HospitalsApi.HandleHospitals | app.js:159-215 | the handler against the shared cache gives exactly the response, cache and upstream trace of `Handle` |
| HospitalsApi.InvalidWilayaRejectedFirst | app.js:161-165 | the response is 400 iff the wilaya is invalid, and then the cache is untouched and no request goes upstream |
| HospitalsApi.CacheHitSkipsFetch | app.js:169-170 | a live entry is answered as it is, with no request upstream and the cache unchanged |
| HospitalsApi.FailureNeverCached | app.js:186-195 | a response other than 200 stores nothing, and at most deletes an expired entry |
| HospitalsApi.OnlySuccessfulFetchStores | app.js:187-214 | any entry a request adds or replaces is its own key, holding the payload it answered, after a successful fetch, expiring TTL after the store |
| HospitalsApi.RepeatWithinTtlHitsCache | app.js:168-170 | after a stored fetch, the same request is answered from the cache with no upstream request until the entry expires |
| HospitalsApi.UpstreamFailureNamesEndpoints | app.js:188-195 | a 502 carries the aggregate error message, which names every endpoint |

## Left out

- Express routing, `listen`, the root page and the JSON encoding of responses are not modelled. The handler returns a `Response` value.
- The rate limiter (app.js:151-157) is not modelled. It sits in front of the handler and does not change what the handler computes.
- The HTTP call itself (axios, the request headers, the query text) is the `network` oracle. The timeout is recorded on each request, and its expiry is a `NoResponse` reply.
- `sleep` is recorded in the trace rather than waited.
- Logging (`console.warn`, `console.error`) is not modelled.
- The Overpass query text and the bounding box in the payload are not modelled, so the payload has no `bounding_box`. Coordinates are `real`, not IEEE doubles.
- The time stamp `new Date().toISOString()` is a parameter. The cache's clock is two parameters, one for the lookup and one for the store, so the duration of the fetch is whatever the caller says.
- Concurrency between requests, and node-cache's cloning and periodic sweep, are not modelled. Only the expiry a read observes is.
- Decimal.ParseInt: does not model double precision. Digit runs too long for a double, and so values beyond 2^53, are read exactly.
- Decimal.IntToString: does not reproduce the exponent form `String(n)` uses for |n| ≥ 1e21 (`"-1e+21"`); it always writes plain digits.
- Query parameters given more than once (which Express turns into arrays) are not modelled. A parameter is absent or one string.
- Overpass.Resolve: options are integers. A non-integer, `NaN` or string option is not modelled.
- The 500 catch-all (app.js:216-219) is modelled only for the throws the handler's own code can cause on a parsed answer: a null element, or an `elements` that is truthy but not an array. Its error text is not modelled.
- HospitalsApi.Handle: uses the corrected wilaya guard. `HospitalsRequest.GuardAdmitsInheritedName` shows that inherited names pass the as-written guard; the destructuring throw (app.js:172) and the 500 that follow are described under Findings and are not modelled.
- Strings are sequences of code points, not of UTF-16 code units. `padStart` counts code units, so a single astral character (an emoji) stays unpadded in JavaScript but gets a leading `0` in the model. Neither is a wilaya code, so no response differs.

## Findings

| source | as written | input that shows it | evidently intended | confidence | as-written member | corrected member |
|---|---|---|---|---|---|---|
| app.js:163 | `!WILAYAS[wilaya]` on an object literal is also false for names inherited from `Object.prototype`, so they pass the guard; destructuring `WILAYAS[wilaya]` at app.js:172 then throws and the handler answers 500 | `GET /api/hospitals?wilaya=constructor` | only the 58 own keys "01"–"58" pass, and everything else gets 400 | high, not executed | HospitalsRequest.GuardAdmitsInheritedName | HospitalsRequest.ValidateWilayaAccepts |
