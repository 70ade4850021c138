/** What a run of the orchestrator looks like, stated event by event, and the
    counting and naming facts the source promises (app.js:29-82). */
module OverpassProperties {
  import opened Overpass

  /** The rule that event `k` of a trace obeys in a run with configuration
      `cfg` against `network`:
      - a request carries the configured timeout and an attempt number within
        the budget;
      - a successful request is the last event;
      - a fatal request, or a retryable one that used up the budget, is
        followed (if anything follows) by the first request to the next
        endpoint, with no sleep;
      - a retryable request with budget left is followed by the backoff sleep
        and then by the next attempt on the same endpoint;
      - a sleep only ever follows a retryable request with budget left. */
  predicate StepOk<D>(t: seq<Event>, k: nat, cfg: Config, network: (nat, nat) -> Reply<D>)
    requires k < |t|
  {
    match t[k]
    case Sleep(_) =>
      0 < k && t[k - 1].Attempt? && t[k - 1].attempt < cfg.maxAttempts
      && Classify(network(t[k - 1].endpoint, t[k - 1].attempt)).Retryable?
    case Attempt(ep, a, timeout) =>
      timeout == cfg.timeoutMs && 1 <= a <= cfg.maxAttempts
      && match Classify(network(ep, a))
         case Success(_) => k == |t| - 1
         case Fatal => k + 1 < |t| ==> t[k + 1] == Attempt(ep + 1, 1, cfg.timeoutMs)
         case Retryable =>
           if a < cfg.maxAttempts then
             k + 2 < |t| && t[k + 1] == Sleep(Backoff(cfg.baseDelayMs, a))
             && t[k + 2] == Attempt(ep, a + 1, cfg.timeoutMs)
           else
             k + 1 < |t| ==> t[k + 1] == Attempt(ep + 1, 1, cfg.timeoutMs)
  }

  predicate WellFormed<D>(t: seq<Event>, cfg: Config, network: (nat, nat) -> Reply<D>)
  {
    forall k | 0 <= k < |t| :: StepOk(t, k, cfg, network)
  }

  /** The event is a request whose reply ended its endpoint without success. */
  predicate EndsEndpoint<D>(e: Event, cfg: Config, network: (nat, nat) -> Reply<D>)
  {
    e.Attempt?
    && (Classify(network(e.endpoint, e.attempt)).Fatal?
        || (Classify(network(e.endpoint, e.attempt)).Retryable? && e.attempt >= cfg.maxAttempts))
  }

  /** The event is a request whose reply was a 2xx response. */
  predicate Succeeded<D>(e: Event, network: (nat, nat) -> Reply<D>)
  {
    e.Attempt? && Classify(network(e.endpoint, e.attempt)).Success?
  }

  function Last(t: seq<Event>): Event
    requires t != []
  {
    t[|t| - 1]
  }

  /** Gluing the trace of an endpoint that was given up onto the trace of the
      endpoints after it keeps every event's rule. */
  lemma WellFormedAppend<D>(t1: seq<Event>, t2: seq<Event>, cfg: Config, network: (nat, nat) -> Reply<D>)
    requires WellFormed(t1, cfg, network) && WellFormed(t2, cfg, network)
    requires t1 != [] ==> EndsEndpoint(Last(t1), cfg, network)
    requires t1 != [] && t2 != [] ==> t2[0] == Attempt(Last(t1).endpoint + 1, 1, cfg.timeoutMs)
    ensures WellFormed(t1 + t2, cfg, network)
  {
    var t := t1 + t2;
    forall k | 0 <= k < |t|
      ensures StepOk(t, k, cfg, network)
    {
      if k < |t1| {
        assert StepOk(t1, k, cfg, network);
        if t[k].Attempt? && k == |t1| - 1 {
          assert t[k] == Last(t1);
        }
      } else {
        assert StepOk(t2, k - |t1|, cfg, network);
        assert t[k] == t2[k - |t1|];
        if t[k].Sleep? && k == |t1| {
          assert false;
        }
      }
    }
  }

  /** The attempts on one endpoint, from `done` attempts on. */
  lemma {:induction false} LegShape<D>(cfg: Config, ep: nat, done: nat, network: (nat, nat) -> Reply<D>)
    ensures var r := TryEndpoint(cfg, ep, done, network);
            && WellFormed(r.trace, cfg, network)
            && (r.trace == [] <==> done >= cfg.maxAttempts)
            && (r.trace != [] ==> r.trace[0] == Attempt(ep, done + 1, cfg.timeoutMs))
            && (forall k | 0 <= k < |r.trace| && r.trace[k].Attempt? :: r.trace[k].endpoint == ep)
            && (r.leg.Won? <==> r.trace != [] && Succeeded(Last(r.trace), network))
            && (r.leg.Won? ==> Classify(network(ep, Last(r.trace).attempt)) == Success(r.leg.data))
            && (r.leg.Abandoned? && r.trace != [] ==> EndsEndpoint(Last(r.trace), cfg, network))
    decreases if done < cfg.maxAttempts then cfg.maxAttempts - done else 0
  {
    var r := TryEndpoint(cfg, ep, done, network);
    if done < cfg.maxAttempts {
      var a := done + 1;
      var tried := Attempt(ep, a, cfg.timeoutMs);
      var verdict := Classify(network(ep, a));
      if verdict.Success? || verdict.Fatal? || a >= cfg.maxAttempts {
        assert r.trace == [tried];
        assert StepOk(r.trace, 0, cfg, network);
      } else {
        var pause := Sleep(Backoff(cfg.baseDelayMs, a));
        var rest := TryEndpoint(cfg, ep, a, network);
        LegShape(cfg, ep, a, network);
        assert r.trace == [tried, pause] + rest.trace;
        assert rest.trace != [] && rest.trace[0] == Attempt(ep, a + 1, cfg.timeoutMs);
        forall k | 0 <= k < |r.trace|
          ensures StepOk(r.trace, k, cfg, network)
        {
          if k >= 2 {
            assert StepOk(rest.trace, k - 2, cfg, network);
            assert r.trace[k] == rest.trace[k - 2];
          }
        }
        assert Last(r.trace) == Last(rest.trace);
      }
    }
  }

  /** The outer loop, from endpoint position `i` on. */
  lemma {:induction false} FromShape<D>(endpoints: seq<Endpoint>, cfg: Config, network: (nat, nat) -> Reply<D>, i: nat)
    requires i <= |endpoints|
    ensures var r := TryFrom(endpoints, cfg, network, i);
            && WellFormed(r.trace, cfg, network)
            && (r.trace == [] <==> i == |endpoints| || cfg.maxAttempts <= 0)
            && (r.trace != [] ==> r.trace[0] == Attempt(i, 1, cfg.timeoutMs))
            && (forall k | 0 <= k < |r.trace| && r.trace[k].Attempt? :: i <= r.trace[k].endpoint < |endpoints|)
            && (r.result.Fetched? <==> r.trace != [] && Succeeded(Last(r.trace), network))
            && (r.result.Fetched? ==>
                  Classify(network(Last(r.trace).endpoint, Last(r.trace).attempt)) == Success(r.result.data))
            && (r.result.AllFailed? ==> r.result.message == FailureMessage(endpoints))
            && (r.result.AllFailed? && r.trace != [] ==>
                  EndsEndpoint(Last(r.trace), cfg, network) && Last(r.trace).endpoint == |endpoints| - 1)
    decreases |endpoints| - i
  {
    if i < |endpoints| {
      var here := TryEndpoint(cfg, i, 0, network);
      var r := TryFrom(endpoints, cfg, network, i);
      LegShape(cfg, i, 0, network);
      if here.leg.Abandoned? {
        var rest := TryFrom(endpoints, cfg, network, i + 1);
        FromShape(endpoints, cfg, network, i + 1);
        assert r.trace == here.trace + rest.trace;
        WellFormedAppend(here.trace, rest.trace, cfg, network);
        forall k | 0 <= k < |r.trace| && r.trace[k].Attempt?
          ensures i <= r.trace[k].endpoint < |endpoints|
        {
          if k >= |here.trace| {
            assert r.trace[k] == rest.trace[k - |here.trace|];
          }
        }
        if rest.trace != [] {
          assert Last(r.trace) == Last(rest.trace);
        } else if here.trace != [] {
          assert r.trace == here.trace;
        }
      }
    }
  }

  /** The whole run: every event obeys its rule, the run starts with attempt 1
      on the first endpoint, contacts no endpoint outside the list, returns
      data exactly when its last request got a 2xx response (and then that
      response's body), and otherwise throws the error naming the list after
      giving up on the last endpoint. */
  lemma RunShape<D>(endpoints: seq<Endpoint>, cfg: Config, network: (nat, nat) -> Reply<D>)
    ensures var r := Run(endpoints, cfg, network);
            && WellFormed(r.trace, cfg, network)
            && (r.trace == [] <==> |endpoints| == 0 || cfg.maxAttempts <= 0)
            && (r.trace != [] ==> r.trace[0] == Attempt(0, 1, cfg.timeoutMs))
            && (forall k | 0 <= k < |r.trace| && r.trace[k].Attempt? :: r.trace[k].endpoint < |endpoints|)
            && (r.result.Fetched? <==> r.trace != [] && Succeeded(Last(r.trace), network))
            && (r.result.Fetched? ==>
                  Classify(network(Last(r.trace).endpoint, Last(r.trace).attempt)) == Success(r.result.data))
            && (r.result.AllFailed? ==> r.result.message == FailureMessage(endpoints))
            && (r.result.AllFailed? && r.trace != [] ==>
                  EndsEndpoint(Last(r.trace), cfg, network) && Last(r.trace).endpoint == |endpoints| - 1)
  {
    FromShape(endpoints, cfg, network, 0);
  }

  /** No request after a success: the first 2xx ends the run. */
  lemma {:induction false} SuccessIsFinal<D>(t: seq<Event>, cfg: Config, network: (nat, nat) -> Reply<D>, k: nat)
    requires WellFormed(t, cfg, network) && k < |t| && Succeeded(t[k], network)
    ensures k == |t| - 1
  {
    assert StepOk(t, k, cfg, network);
  }

  /** Number of requests in a trace. */
  function Attempts(t: seq<Event>): nat
  {
    if t == [] then 0 else Attempts(t[..|t| - 1]) + (if Last(t).Attempt? then 1 else 0)
  }

  /** Number of sleeps in a trace. */
  function Sleeps(t: seq<Event>): nat
  {
    if t == [] then 0 else Sleeps(t[..|t| - 1]) + (if Last(t).Sleep? then 1 else 0)
  }

  lemma {:induction false} CountsAppend(t1: seq<Event>, t2: seq<Event>)
    ensures Attempts(t1 + t2) == Attempts(t1) + Attempts(t2)
    ensures Sleeps(t1 + t2) == Sleeps(t1) + Sleeps(t2)
    decreases |t2|
  {
    if t2 == [] {
      assert t1 + t2 == t1;
    } else {
      var init := t2[..|t2| - 1];
      assert (t1 + t2)[..|t1 + t2| - 1] == t1 + init;
      CountsAppend(t1, init);
    }
  }

  /** Every reply the network can give is a retryable failure. */
  ghost predicate AlwaysRetryable<D>(network: (nat, nat) -> Reply<D>)
  {
    forall ep: nat, n: nat :: Classify(network(ep, n)).Retryable?
  }

  function Budget(cfg: Config): nat
  {
    if cfg.maxAttempts > 0 then cfg.maxAttempts else 0
  }

  lemma {:induction false} PersistentFailureLeg<D>(cfg: Config, ep: nat, done: nat, network: (nat, nat) -> Reply<D>)
    requires AlwaysRetryable(network) && done <= Budget(cfg)
    ensures var r := TryEndpoint(cfg, ep, done, network);
            && r.leg.Abandoned?
            && Attempts(r.trace) == Budget(cfg) - done
            && Sleeps(r.trace) == if done < Budget(cfg) then Budget(cfg) - done - 1 else 0
    decreases Budget(cfg) - done
  {
    var r := TryEndpoint(cfg, ep, done, network);
    if done < cfg.maxAttempts {
      var a := done + 1;
      assert Classify(network(ep, a)).Retryable?;
      if a >= cfg.maxAttempts {
        assert r.trace == [Attempt(ep, a, cfg.timeoutMs)];
        assert r.trace[..0] == [];
      } else {
        var step := [Attempt(ep, a, cfg.timeoutMs), Sleep(Backoff(cfg.baseDelayMs, a))];
        var rest := TryEndpoint(cfg, ep, a, network);
        PersistentFailureLeg(cfg, ep, a, network);
        assert r.trace == step + rest.trace;
        CountsAppend(step, rest.trace);
        assert step[..1] == [step[0]] && [step[0]][..0] == [];
        assert Attempts([step[0]]) == 1 && Sleeps([step[0]]) == 0;
      }
    }
  }

  lemma MulSucc(n: int, b: int)
    ensures n * b == b + (n - 1) * b
  {
  }

  /** When every reply is a retryable failure, each endpoint gets its whole
      budget: |endpoints| * budget requests, a sleep between consecutive
      attempts on the same endpoint and nowhere else, then the aggregate
      error. A budget of 0 or less makes no request at all. */
  lemma {:induction false} PersistentFailure<D>(endpoints: seq<Endpoint>, cfg: Config, network: (nat, nat) -> Reply<D>, i: nat)
    requires AlwaysRetryable(network) && i <= |endpoints|
    ensures var r := TryFrom(endpoints, cfg, network, i);
            && r.result == AllFailed(FailureMessage(endpoints))
            && Attempts(r.trace) == (|endpoints| - i) * Budget(cfg)
            && Sleeps(r.trace) == (|endpoints| - i) * (if Budget(cfg) > 0 then Budget(cfg) - 1 else 0)
    decreases |endpoints| - i
  {
    if i < |endpoints| {
      var here := TryEndpoint(cfg, i, 0, network);
      var rest := TryFrom(endpoints, cfg, network, i + 1);
      PersistentFailureLeg(cfg, i, 0, network);
      PersistentFailure(endpoints, cfg, network, i + 1);
      FromEndpoint(endpoints, cfg, network, i);
      CountsAppend(here.trace, rest.trace);
      var n := |endpoints| - i;
      var b := Budget(cfg);
      var s := if b > 0 then b - 1 else 0;
      assert Attempts(here.trace) == b && Sleeps(here.trace) == s;
      assert Attempts(rest.trace) == (n - 1) * b && Sleeps(rest.trace) == (n - 1) * s;
      MulSucc(n, b);
      MulSucc(n, s);
    }
  }

  /** `part` appears in `whole` starting at position `k`. */
  predicate OccursAt(part: string, whole: string, k: int)
  {
    0 <= k && k + |part| <= |whole| && whole[k..k + |part|] == part
  }

  lemma {:induction false} JoinMentions(parts: seq<string>, sep: string, i: nat)
    requires i < |parts|
    ensures exists k :: OccursAt(parts[i], Join(parts, sep), k)
  {
    var j := Join(parts, sep);
    if |parts| == 1 {
      assert OccursAt(parts[i], j, 0);
    } else if i == 0 {
      assert j == parts[0] + (sep + Join(parts[1..], sep));
      assert OccursAt(parts[0], j, 0);
    } else {
      var tail := Join(parts[1..], sep);
      JoinMentions(parts[1..], sep, i - 1);
      var k :| OccursAt(parts[1..][i - 1], tail, k);
      var off := |parts[0] + sep|;
      assert j == (parts[0] + sep) + tail;
      assert j[off + k..off + k + |parts[i]|] == tail[k..k + |parts[i]|];
      assert OccursAt(parts[i], j, off + k);
    }
  }

  /** The aggregate error names every endpoint of the list. */
  lemma FailureMessageNamesAll(endpoints: seq<Endpoint>, i: nat)
    requires i < |endpoints|
    ensures exists k :: OccursAt(endpoints[i], FailureMessage(endpoints), k)
  {
    var prefix := "All Overpass endpoints failed (tried: ";
    var j := Join(endpoints, ", ");
    JoinMentions(endpoints, ", ", i);
    var k :| OccursAt(endpoints[i], j, k);
    var m := FailureMessage(endpoints);
    assert m == prefix + j + ")";
    assert m[|prefix| + k..|prefix| + k + |endpoints[i]|] == j[k..k + |endpoints[i]|];
    assert OccursAt(endpoints[i], m, |prefix| + k);
  }

  /** Each retry waits twice as long as the one before, starting from the
      base delay after the first attempt. */
  lemma BackoffDoubles(baseDelayMs: int, attempt: nat)
    requires attempt >= 1
    ensures Backoff(baseDelayMs, 1) == baseDelayMs
    ensures Backoff(baseDelayMs, attempt + 1) == 2 * Backoff(baseDelayMs, attempt)
  {
    assert Pow2(attempt) == 2 * Pow2(attempt - 1);
    assert baseDelayMs * (2 * Pow2(attempt - 1)) == 2 * (baseDelayMs * Pow2(attempt - 1));
  }

  /** Endpoint A answers 429 three times; endpoint B answers 500 and then 200.
      Five requests, with the default delays in between, and B's data. */
  lemma ScenarioFallbackAfterRateLimit(data: int)
    ensures var network := (ep: nat, n: nat) =>
              if ep == 0 then Response(429, 0) else if n == 1 then Response(500, 0) else Response(200, data);
            var to := 60000;
            Run(["A", "B"], Config(3, 500, to), network)
            == FetchRun(Fetched(data),
                 [Attempt(0, 1, to), Sleep(500), Attempt(0, 2, to), Sleep(1000), Attempt(0, 3, to),
                  Attempt(1, 1, to), Sleep(500), Attempt(1, 2, to)])
  {
  }

  /** A single endpoint that answers 404: one request, no sleep, and the
      error names that endpoint only. */
  lemma ScenarioClientError(cfg: Config)
    requires cfg.maxAttempts >= 1
    ensures var network := (ep: nat, n: nat) => Response(404, 0);
            Run(["A"], cfg, network)
            == FetchRun(AllFailed("All Overpass endpoints failed (tried: A)"), [Attempt(0, 1, cfg.timeoutMs)])
  {
    var network := (ep: nat, n: nat) => Response(404, 0);
    assert Join(["A"], ", ") == "A";
    assert FailureMessage(["A"]) == "All Overpass endpoints failed (tried: A)";
    assert Classify(network(0, 1)).Fatal?;
    assert TryEndpoint(cfg, 0, 0, network) == LegRun(Abandoned, [Attempt(0, 1, cfg.timeoutMs)]);
  }
}
