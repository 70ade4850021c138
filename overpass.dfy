/** The retry / fallback orchestrator that posts a query to the Overpass
    service (app.js:25-82).

    The network is an oracle: `network(ep, n)` is the reply that attempt `n`
    (counted from 1) on the endpoint at position `ep` of the list receives.
    Instead of sleeping, the orchestrator records each requested delay in a
    trace, next to one record per request it issues. */
module Overpass {
  import opened Wrappers

  type Endpoint = string

  /** The endpoints the server is configured with, in preference order. */
  const OverpassEndpoints: seq<Endpoint> := [
    "https://overpass-api.de/api/interpreter",
    "https://lz4.overpass-api.de/api/interpreter",
    "https://overpass.openstreetmap.ru/api/interpreter"
  ]

  /** What one request produces: an HTTP response (whatever its status), or no
      response at all (a timeout, a refused connection, any transport error). */
  datatype Reply<D> = Response(status: int, body: D) | NoResponse

  /** How the catch block sorts the outcome of one attempt. */
  datatype Verdict<D> = Success(data: D) | Retryable | Fatal

  /** Recognised options; `None` is an option left unset. */
  datatype Options = Options(retriesPerEndpoint: Option<int>, baseDelayMs: Option<int>, timeoutMs: Option<int>)

  /** The options after their defaults are filled in. */
  datatype Config = Config(maxAttempts: int, baseDelayMs: int, timeoutMs: int)

  /** One observable step of a run: a request, or a requested backoff delay. */
  datatype Event = Attempt(endpoint: nat, attempt: nat, timeoutMs: int) | Sleep(ms: int)

  /** What the orchestrator returns (`Fetched`) or throws (`AllFailed`). */
  datatype Fetch<D> = Fetched(data: D) | AllFailed(message: string)

  /** How the attempts on one endpoint ended. */
  datatype Leg<D> = Won(data: D) | Abandoned

  /** The outcome of the attempts on one endpoint, with the events they produced. */
  datatype LegRun<D> = LegRun(leg: Leg<D>, trace: seq<Event>) {
    function After(prefix: seq<Event>): LegRun<D> {
      LegRun(leg, prefix + trace)
    }
  }

  /** The outcome of a whole run, with the events it produced. */
  datatype FetchRun<D> = FetchRun(result: Fetch<D>, trace: seq<Event>) {
    function After(prefix: seq<Event>): FetchRun<D> {
      FetchRun(result, prefix + trace)
    }
  }

  /** `??` on each option: only an unset option takes its default, so an
      explicit 0 is kept. */
  function Resolve(opts: Options): (cfg: Config)
    ensures opts.retriesPerEndpoint.None? ==> cfg.maxAttempts == 3
    ensures opts.baseDelayMs.None? ==> cfg.baseDelayMs == 500
    ensures opts.timeoutMs.None? ==> cfg.timeoutMs == 60000
    ensures opts.retriesPerEndpoint.Some? ==> cfg.maxAttempts == opts.retriesPerEndpoint.value
    ensures opts.baseDelayMs.Some? ==> cfg.baseDelayMs == opts.baseDelayMs.value
    ensures opts.timeoutMs.Some? ==> cfg.timeoutMs == opts.timeoutMs.value
  {
    Config(opts.retriesPerEndpoint.GetOr(3), opts.baseDelayMs.GetOr(500), opts.timeoutMs.GetOr(60000))
  }

  /** A 2xx response succeeds; a status that is truthy, in 400-499 and not 429
      is fatal for the endpoint; everything else (5xx, 429, other codes, no
      response) may be retried. */
  function Classify<D>(reply: Reply<D>): (v: Verdict<D>)
    ensures v.Success? <==> reply.Response? && 200 <= reply.status < 300
    ensures v.Success? ==> v.data == reply.body
    ensures v.Fatal? <==> reply.Response? && 400 <= reply.status < 500 && reply.status != 429
  {
    match reply
    case NoResponse => Retryable
    case Response(status, body) =>
      if 200 <= status < 300 then Success(body)
      else if status != 0 && 400 <= status < 500 && status != 429 then Fatal
      else Retryable
  }

  function Pow2(n: nat): (p: nat)
    ensures p >= 1
  {
    if n == 0 then 1 else 2 * Pow2(n - 1)
  }

  /** The delay requested after failed attempt `attempt` (counted from 1). */
  function Backoff(baseDelayMs: int, attempt: nat): int
    requires attempt >= 1
  {
    baseDelayMs * Pow2(attempt - 1)
  }

  /** The inner `while` loop on endpoint `ep`, from the point where `done`
      attempts have been made and the loop has not exited. */
  function TryEndpoint<D>(cfg: Config, ep: nat, done: nat, network: (nat, nat) -> Reply<D>): LegRun<D>
    decreases if done < cfg.maxAttempts then cfg.maxAttempts - done else 0
  {
    if done >= cfg.maxAttempts then LegRun(Abandoned, [])
    else
      var a := done + 1;
      var tried := Attempt(ep, a, cfg.timeoutMs);
      match Classify(network(ep, a))
      case Success(data) => LegRun(Won(data), [tried])
      case Fatal => LegRun(Abandoned, [tried])
      case Retryable =>
        if a >= cfg.maxAttempts then LegRun(Abandoned, [tried])
        else TryEndpoint(cfg, ep, a, network).After([tried, Sleep(Backoff(cfg.baseDelayMs, a))])
  }

  /** `list.join(sep)` */
  function Join(parts: seq<string>, sep: string): string
  {
    if |parts| == 0 then ""
    else if |parts| == 1 then parts[0]
    else parts[0] + sep + Join(parts[1..], sep)
  }

  /** The message of the error thrown once every endpoint has failed. */
  function FailureMessage(endpoints: seq<Endpoint>): string
  {
    "All Overpass endpoints failed (tried: " + Join(endpoints, ", ") + ")"
  }

  /** The outer `for` loop, from endpoint position `i` on. */
  function TryFrom<D>(endpoints: seq<Endpoint>, cfg: Config, network: (nat, nat) -> Reply<D>, i: nat): FetchRun<D>
    requires i <= |endpoints|
    decreases |endpoints| - i
  {
    if i == |endpoints| then FetchRun(AllFailed(FailureMessage(endpoints)), [])
    else
      var here := TryEndpoint(cfg, i, 0, network);
      match here.leg
      case Won(data) => FetchRun(Fetched(data), here.trace)
      case Abandoned => TryFrom(endpoints, cfg, network, i + 1).After(here.trace)
  }

  /** A whole run of the orchestrator over `endpoints`. */
  function Run<D>(endpoints: seq<Endpoint>, cfg: Config, network: (nat, nat) -> Reply<D>): FetchRun<D>
  {
    TryFrom(endpoints, cfg, network, 0)
  }

  lemma AfterAfter<D>(r: LegRun<D>, first: seq<Event>, second: seq<Event>)
    ensures r.After(first).After(second) == r.After(second + first)
  {
    assert second + (first + r.trace) == (second + first) + r.trace;
  }

  lemma RunAfterAfter<D>(r: FetchRun<D>, first: seq<Event>, second: seq<Event>)
    ensures r.After(first).After(second) == r.After(second + first)
  {
    assert second + (first + r.trace) == (second + first) + r.trace;
  }

  /** One turn of the inner loop: attempt `done + 1` succeeds. */
  lemma LegWins<D>(cfg: Config, ep: nat, done: nat, network: (nat, nat) -> Reply<D>)
    requires done < cfg.maxAttempts && Classify(network(ep, done + 1)).Success?
    ensures TryEndpoint(cfg, ep, done, network)
         == LegRun(Won(Classify(network(ep, done + 1)).data), [Attempt(ep, done + 1, cfg.timeoutMs)])
  {
  }

  /** One turn of the inner loop: attempt `done + 1` fails and ends the
      endpoint, being fatal or the last one of the budget. */
  lemma LegStops<D>(cfg: Config, ep: nat, done: nat, network: (nat, nat) -> Reply<D>)
    requires done < cfg.maxAttempts
    requires Classify(network(ep, done + 1)).Fatal? || done + 1 >= cfg.maxAttempts
    requires !Classify(network(ep, done + 1)).Success?
    ensures TryEndpoint(cfg, ep, done, network) == LegRun(Abandoned, [Attempt(ep, done + 1, cfg.timeoutMs)])
  {
  }

  /** One turn of the inner loop: attempt `done + 1` fails, may be retried and
      budget remains, so the loop sleeps and goes round again. */
  lemma LegRetries<D>(cfg: Config, ep: nat, done: nat, network: (nat, nat) -> Reply<D>)
    requires done + 1 < cfg.maxAttempts && Classify(network(ep, done + 1)).Retryable?
    ensures TryEndpoint(cfg, ep, done, network)
         == TryEndpoint(cfg, ep, done + 1, network).After(
              [Attempt(ep, done + 1, cfg.timeoutMs), Sleep(Backoff(cfg.baseDelayMs, done + 1))])
  {
  }

  /** One turn of the outer loop: how the attempts on endpoint `i` ended
      decides whether the run stops there or goes on with endpoint `i + 1`. */
  lemma FromEndpoint<D>(endpoints: seq<Endpoint>, cfg: Config, network: (nat, nat) -> Reply<D>, i: nat)
    requires i < |endpoints|
    ensures var here := TryEndpoint(cfg, i, 0, network);
            TryFrom(endpoints, cfg, network, i)
            == if here.leg.Won? then FetchRun(Fetched(here.leg.data), here.trace)
               else TryFrom(endpoints, cfg, network, i + 1).After(here.trace)
  {
  }

  /** The inner `while` loop: the attempts on endpoint `ep`, with the
      backoff sleeps between them. */
  method AttemptEndpoint<D>(cfg: Config, ep: nat, network: (nat, nat) -> Reply<D>) returns (r: LegRun<D>)
    ensures r == TryEndpoint(cfg, ep, 0, network)
  {
    var attempt: nat := 0;
    var leg: seq<Event> := [];
    while attempt < cfg.maxAttempts
      invariant TryEndpoint(cfg, ep, 0, network) == TryEndpoint(cfg, ep, attempt, network).After(leg)
    {
      var before := leg;
      attempt := attempt + 1;
      leg := leg + [Attempt(ep, attempt, cfg.timeoutMs)];
      var verdict := Classify(network(ep, attempt));
      if verdict.Success? {
        LegWins(cfg, ep, attempt - 1, network);
        return LegRun(Won(verdict.data), leg);
      }
      if verdict.Fatal? || attempt >= cfg.maxAttempts {
        LegStops(cfg, ep, attempt - 1, network);
        assert TryEndpoint(cfg, ep, 0, network) == LegRun(Abandoned, leg);
        break;
      }
      var step := [Attempt(ep, attempt, cfg.timeoutMs), Sleep(Backoff(cfg.baseDelayMs, attempt))];
      leg := before + step;
      LegRetries(cfg, ep, attempt - 1, network);
      AfterAfter(TryEndpoint(cfg, ep, attempt, network), step, before);
    }
    assert leg + [] == leg;
    r := LegRun(Abandoned, leg);
  }

  /** postOverpassWithRetries, with the endpoint list as a parameter: the
      outer `for` loop over the endpoints, then the aggregate error. */
  method PostOverpassWithRetries<D>(endpoints: seq<Endpoint>, opts: Options, network: (nat, nat) -> Reply<D>)
    returns (result: Fetch<D>, trace: seq<Event>)
    ensures FetchRun(result, trace) == Run(endpoints, Resolve(opts), network)
  {
    var cfg := Resolve(opts);
    trace := [];
    for i := 0 to |endpoints|
      invariant Run(endpoints, cfg, network) == TryFrom(endpoints, cfg, network, i).After(trace)
    {
      var here := AttemptEndpoint(cfg, i, network);
      FromEndpoint(endpoints, cfg, network, i);
      if here.leg.Won? {
        return Fetched(here.leg.data), trace + here.trace;
      }
      RunAfterAfter(TryFrom(endpoints, cfg, network, i + 1), here.trace, trace);
      trace := trace + here.trace;
    }
    result := AllFailed(FailureMessage(endpoints));
  }
}
