/** The client's retry staircase over any answers of the pool and the network,
    the public-first dispatch before it, and the backoff between attempts. */
module Retry {
  import opened Wrappers

  datatype Proxy = Proxy(url: string)

  /** Errors by the sentinel they wrap. */
  datatype Error = Canceled | DeadlineExceeded | PoolExhausted | DirectDialForbidden | Other(timeout: bool)
                 | UpstreamStatus(status: int) // ErrEgressUnavailable for a retryable response

  datatype Policy = Policy(maxAttempts: int, useFallbackPool: bool)

  /** What the pool, the request body and the network answer in one attempt. */
  datatype Answers = Answers(
    aborted: Option<Error>,          // the context ended during the backoff before it
    pool: Option<Error>,             // ProxyForCountry failed
    proxy: Option<Proxy>,            // otherwise: the proxy URL it returned
    rewind: Option<Error>,           // rewindBody failed
    http: Option<Error>,             // the round trip failed
    status: int                      // otherwise: the response's status
  )

  // ---------- Classification ----------

  predicate ShouldRetryError(e: Error) {
    !(e.Canceled? || e.DeadlineExceeded? || e.PoolExhausted? || e.DirectDialForbidden?)
  }

  predicate ShouldRetryStatus(status: int) {
    status == 502 || status == 503 || status == 504 || status == 429
  }

  predicate ShouldFallbackOnStatus(status: int) {
    status == 429 || status == 403 || status == 503
  }

  datatype Strategy = Strategy(freshTCP: bool, excludePrev: bool, allowFallback: bool)

  function StrategyFor(attempt: int): Strategy {
    if attempt <= 1 then Strategy(false, false, false)
    else if attempt == 2 then Strategy(true, false, false)
    else if attempt <= 4 then Strategy(false, true, false)
    else Strategy(false, true, true)
  }

  /** Whether the attempt reached a response. */
  predicate GotResponse(a: Answers) { a.pool.None? && a.rewind.None? && a.http.None? }

  /** The error an attempt met, if any. */
  function Failure(a: Answers): Option<Error> {
    if a.pool.Some? then a.pool else if a.rewind.Some? then a.rewind else a.http
  }

  /** Whether the attempt ends in a condition worth retrying. */
  predicate EndsRetryable(a: Answers) {
    if GotResponse(a) then ShouldRetryStatus(a.status) else ShouldRetryError(Failure(a).value)
  }

  /** What a retried attempt records as its error. */
  function Cause(a: Answers): Error { if GotResponse(a) then UpstreamStatus(a.status) else Failure(a).value }

  /** The proxy a retried attempt reports back. */
  function ObtainedProxy(a: Answers): Option<Proxy> { if a.pool.None? then a.proxy else None }

  // ---------- One attempt ----------

  /** What the loop asked the pool for. */
  datatype Ask = Ask(exclude: Option<Proxy>, fallbackOk: bool, freshTCP: bool)

  datatype AttemptResult = Response(status: int) | Halt(error: Error) | RetryAfter(cause: Error, proxy: Option<Proxy>)

  /** tryOnce: `closed` tells whether it closed the response it had. */
  method TryOnce(policy: Policy, a: Answers, prevProxy: Option<Proxy>, attempt: int)
    returns (r: AttemptResult, ask: Ask, closed: bool)
    ensures ask.exclude == if attempt >= 3 then prevProxy else None
    ensures ask.fallbackOk <==> attempt >= 5 && policy.useFallbackPool
    ensures ask.freshTCP <==> attempt == 2
    ensures r.RetryAfter? <==> EndsRetryable(a)
    ensures r.RetryAfter? ==> r.proxy == ObtainedProxy(a) && r.cause == Cause(a)
    ensures r.Response? ==> GotResponse(a) && r.status == a.status
    ensures r.Halt? ==> Failure(a) == Some(r.error)
    ensures closed <==> GotResponse(a) && !r.Response?
  {
    closed := false;
    var strategy := StrategyFor(attempt);
    ask := Ask(if strategy.excludePrev then prevProxy else None,
               strategy.allowFallback && policy.useFallbackPool, strategy.freshTCP);
    if a.pool.Some? {
      if !ShouldRetryError(a.pool.value) {
        return Halt(a.pool.value), ask, false;
      }
      return RetryAfter(a.pool.value, None), ask, false;
    }
    var err := if a.rewind.Some? then a.rewind else a.http;
    if err.Some? {
      if !ShouldRetryError(err.value) {
        return Halt(err.value), ask, false;
      }
      return RetryAfter(err.value, a.proxy), ask, false;
    }
    if !ShouldRetryStatus(a.status) {
      return Response(a.status), ask, false;
    }
    return RetryAfter(UpstreamStatus(a.status), a.proxy), ask, true;
  }

  // ---------- The loop ----------

  datatype Outcome = Returned(attempt: nat, status: int) | Halted(error: Error) | Exhausted(last: Option<Error>)

  /** The proxy of the latest of the first k attempts that obtained one. */
  function LatestProxy(script: seq<Answers>, k: nat): Option<Proxy>
    requires k <= |script|
  {
    if k == 0 then None
    else if ObtainedProxy(script[k - 1]).Some? then ObtainedProxy(script[k - 1])
    else LatestProxy(script, k - 1)
  }

  lemma {:induction false} LatestProxyIs(script: seq<Answers>, k: nat, j: nat)
    requires j < k <= |script| && ObtainedProxy(script[j]).Some?
    requires forall i | j < i < k :: ObtainedProxy(script[i]).None?
    ensures LatestProxy(script, k) == ObtainedProxy(script[j])
  {
    if j < k - 1 { LatestProxyIs(script, k - 1, j); }
  }

  /** Attempt k (from 1) is reached: everything before it ended retryable and no
      backoff up to it was aborted. */
  ghost predicate ReachesAttempt(script: seq<Answers>, k: nat)
    requires k <= |script|
  {
    && (forall j | 0 <= j < k - 1 :: EndsRetryable(script[j]))
    && (forall j | 1 <= j < k :: script[j].aborted.None?)
  }

  /** The second attempt takes a fresh connection; from the third on the latest
      proxy obtained is excluded; from the fifth on fallback is allowed, if the
      policy wants it. */
  ghost predicate AsksOk(policy: Policy, script: seq<Answers>, asked: seq<Ask>) {
    && |asked| <= |script|
    && forall i | 0 <= i < |asked| ::
         asked[i].exclude == (if i >= 2 then LatestProxy(script, i) else None)
         && (asked[i].fallbackOk <==> i >= 4 && policy.useFallbackPool)
         && (asked[i].freshTCP <==> i == 1)
  }

  function Budget(policy: Policy): nat { if policy.maxAttempts < 0 then 0 else policy.maxAttempts }

  /** The responses closed are those of the attempts made, without the returned
      one, each once and in order. */
  ghost predicate ClosedExactly(script: seq<Answers>, made: nat, returned: nat, closed: seq<nat>)
    requires made <= |script|
  {
    && (forall i, j | 0 <= i < j < |closed| :: closed[i] < closed[j])
    && (forall k: nat :: k in closed <==> 1 <= k <= made && GotResponse(script[k - 1]) && k != returned)
  }

  /** Every attempt there is ends retryable and no backoff is aborted. */
  ghost predicate AllRetryable(policy: Policy, script: seq<Answers>)
    requires |script| >= Budget(policy)
  {
    forall i | 0 <= i < Budget(policy) :: EndsRetryable(script[i]) && (i == 0 || script[i].aborted.None?)
  }

  /** Why the loop ends after so many attempts: a response that is not retryable is
      returned, an error that is not retryable or an aborted backoff halts, and a
      used-up budget is reported with the last cause. */
  ghost predicate EndsAs(policy: Policy, script: seq<Answers>, made: nat, outcome: Outcome)
    requires made <= Budget(policy) <= |script|
  {
    match outcome
    case Returned(attempt, status) =>
      && attempt == made > 0 && GotResponse(script[made - 1]) && !EndsRetryable(script[made - 1])
      && status == script[made - 1].status
    case Halted(e) =>
      || (made > 0 && !EndsRetryable(script[made - 1]) && Failure(script[made - 1]) == Some(e))
      || (0 < made < Budget(policy) && EndsRetryable(script[made - 1]) && script[made].aborted == Some(e))
    case Exhausted(last) =>
      && made == Budget(policy) && (made > 0 ==> EndsRetryable(script[made - 1]))
      && last == if made == 0 then None else Some(Cause(script[made - 1]))
  }

  /** What the loop promises: it ends for the reason the answers give, asks the pool
      as the staircase says, and leaves no response body open or closed twice. */
  ghost predicate Staircase(policy: Policy, script: seq<Answers>, outcome: Outcome, asked: seq<Ask>, closed: seq<nat>)
    requires |script| >= Budget(policy)
  {
    && |asked| <= Budget(policy)
    && ReachesAttempt(script, |asked|) && EndsAs(policy, script, |asked|, outcome)
    && AsksOk(policy, script, asked)
    && ClosedExactly(script, |asked|, if outcome.Returned? then outcome.attempt else 0, closed)
  }

  /** At most one ending fits the answers. */
  lemma EndUnique(policy: Policy, script: seq<Answers>, k: nat, o: Outcome, k': nat, o': Outcome)
    requires k <= k' <= Budget(policy) <= |script|
    requires ReachesAttempt(script, k) && EndsAs(policy, script, k, o)
    requires ReachesAttempt(script, k') && EndsAs(policy, script, k', o')
    ensures k == k' && o == o'
  {
  }

  /** The loop's result exactly: it ends after k attempts with o if and only if the
      answers let it reach attempt k and end there with o. So a response is returned
      exactly when the first attempt that does not end retryable has one, and the
      loop halts exactly with that attempt's error or the backoff's. */
  lemma DoExactly(policy: Policy, script: seq<Answers>, outcome: Outcome, asked: seq<Ask>, closed: seq<nat>,
                  k: nat, o: Outcome)
    requires k <= Budget(policy) <= |script| && Staircase(policy, script, outcome, asked, closed)
    ensures ReachesAttempt(script, k) && EndsAs(policy, script, k, o) <==> k == |asked| && o == outcome
    ensures outcome.Exhausted? <==> AllRetryable(policy, script)
  {
    if ReachesAttempt(script, k) && EndsAs(policy, script, k, o) {
      if k <= |asked| {
        EndUnique(policy, script, k, o, |asked|, outcome);
      } else {
        EndUnique(policy, script, |asked|, outcome, k, o);
      }
    }
    ExhaustedExactly(policy, script, outcome, |asked|);
  }

  lemma ExhaustedExactly(policy: Policy, script: seq<Answers>, outcome: Outcome, made: nat)
    requires made <= Budget(policy) <= |script| && ReachesAttempt(script, made) && EndsAs(policy, script, made, outcome)
    ensures outcome.Exhausted? <==> AllRetryable(policy, script)
  {
  }

  /** `closed` lists the attempts whose response body the loop closed. */
  method Do(policy: Policy, script: seq<Answers>) returns (outcome: Outcome, asked: seq<Ask>, closed: seq<nat>)
    requires |script| >= Budget(policy)
    ensures Staircase(policy, script, outcome, asked, closed)
  {
    var lastErr: Option<Error> := None;
    var lastProxy: Option<Proxy> := None;
    asked, closed := [], [];
    var attempt := 1;
    while attempt <= policy.maxAttempts
      invariant 1 <= attempt <= Budget(policy) + 1
      invariant |asked| == attempt - 1
      invariant lastErr == if attempt == 1 then None else Some(Cause(script[attempt - 2]))
      invariant lastProxy == LatestProxy(script, attempt - 1)
      invariant forall j | 0 <= j < attempt - 1 :: EndsRetryable(script[j]) && (j == 0 || script[j].aborted.None?)
      invariant AsksOk(policy, script, asked)
      invariant ClosedExactly(script, attempt - 1, 0, closed)
    {
      var a := script[attempt - 1];
      if attempt > 1 && a.aborted.Some? {
        return Halted(a.aborted.value), asked, closed;
      }
      var r, ask, closedHere := TryOnce(policy, a, lastProxy, attempt);
      ghost var before := closed;
      asked := asked + [ask];
      if closedHere {
        closed := closed + [attempt];
      }
      ClosedStep(script, attempt, before, closedHere);
      if r.Halt? {
        return Halted(r.error), asked, closed;
      }
      if r.Response? {
        return Returned(attempt, r.status), asked, closed;
      }
      if r.proxy.Some? {
        lastProxy := r.proxy;
      }
      lastErr := Some(r.cause);
      attempt := attempt + 1;
    }
    outcome := Exhausted(lastErr);
  }

  lemma ClosedStep(script: seq<Answers>, attempt: nat, closed: seq<nat>, closedHere: bool)
    requires 1 <= attempt <= |script| && ClosedExactly(script, attempt - 1, 0, closed)
    requires closedHere ==> GotResponse(script[attempt - 1])
    ensures ClosedExactly(script, attempt, if GotResponse(script[attempt - 1]) && !closedHere then attempt else 0,
                          if closedHere then closed + [attempt] else closed)
  {
    forall i | 0 <= i < |closed| ensures closed[i] < attempt { assert closed[i] in closed; }
  }

  // ---------- What the loop does with the answers' own fields ----------

  /** Attempt j, counted from 0, is the latest of the first i whose pool call did not
      fail and returned a proxy. */
  predicate LatestAt(script: seq<Answers>, i: nat, j: nat)
    requires i <= |script|
  {
    && j < i && script[j].pool.None? && script[j].proxy.Some?
    && forall m | j < m < i :: script[m].pool.Some? || script[m].proxy.None?
  }

  lemma {:induction false} LatestProxyNone(script: seq<Answers>, k: nat)
    requires k <= |script| && forall m | 0 <= m < k :: script[m].pool.Some? || script[m].proxy.None?
    ensures LatestProxy(script, k) == None
  {
    if k > 0 { LatestProxyNone(script, k - 1); }
  }

  /** From the third attempt on the pool is asked to exclude the proxy of the latest
      earlier attempt that obtained one, whatever became of that attempt afterwards,
      and nothing if there is none; the first two exclude nothing. */
  lemma ExclusionExact(policy: Policy, script: seq<Answers>, outcome: Outcome, asked: seq<Ask>, closed: seq<nat>,
                       i: nat, j: nat)
    requires |script| >= Budget(policy) && Staircase(policy, script, outcome, asked, closed) && i < |asked|
    ensures i >= 2 && LatestAt(script, i, j) ==> asked[i].exclude == script[j].proxy
    ensures i < 2 || (forall m | 0 <= m < i :: script[m].pool.Some? || script[m].proxy.None?) ==> asked[i].exclude == None
  {
    if i >= 2 && LatestAt(script, i, j) { LatestProxyIs(script, i, j); }
    if forall m | 0 <= m < i :: script[m].pool.Some? || script[m].proxy.None? { LatestProxyNone(script, i); }
  }

  /** The loop by statuses and errors: what is returned is not 429, 502, 503 or 504,
      every response it closed is; it halts on an error of its own only when that is a
      cancellation, a deadline, an exhausted pool or a forbidden direct dial, and goes
      on after every other. */
  lemma AnswersSorted(policy: Policy, script: seq<Answers>, outcome: Outcome, asked: seq<Ask>, closed: seq<nat>, k: nat)
    requires |script| >= Budget(policy) && Staircase(policy, script, outcome, asked, closed) && 1 <= k <= |asked|
    ensures outcome.Returned? ==> outcome.status !in {429, 502, 503, 504}
    ensures k in closed ==> script[k - 1].status in {429, 502, 503, 504}
    ensures var a := script[k - 1];
            var failed := a.pool.Some? || a.rewind.Some? || a.http.Some?;
            var err := if a.pool.Some? then a.pool else if a.rewind.Some? then a.rewind else a.http;
            && (k < |asked| && failed ==> err.value !in {Canceled, DeadlineExceeded, PoolExhausted, DirectDialForbidden})
            && (k < |asked| && !failed ==> a.status in {429, 502, 503, 504} && k in closed)
            && (k == |asked| && failed && err.value in {Canceled, DeadlineExceeded, PoolExhausted, DirectDialForbidden} ==>
                  outcome == Halted(err.value))
            && (k == |asked| && !failed && a.status !in {429, 502, 503, 504} ==> outcome == Returned(k, a.status))
            && (outcome.Exhausted? && k == |asked| ==>
                  outcome.last == Some(if failed then err.value else UpstreamStatus(a.status)))
  {
    assert k < |asked| ==> EndsRetryable(script[k - 1]);
  }

  // ---------- Public first ----------

  /** The direct attempt's answers; a response, by its status, may come together
      with an error. */
  datatype Direct = Direct(rewind: Option<Error>, error: Option<Error>, response: Option<int>, rewindAgain: Option<Error>)

  datatype Dispatched = DirectReturned(response: Option<int>) | DirectHalted(error: Error) | ThroughProxy(outcome: Outcome)

  /** One direct attempt, outside the retry budget; a dropped direct response is
      closed before the proxy loop starts. */
  method DispatchPublicFirst(policy: Policy, d: Direct, script: seq<Answers>)
    returns (r: Dispatched, asked: seq<Ask>, closedDirect: bool, closed: seq<nat>)
    requires |script| >= Budget(policy)
    ensures r.DirectReturned? <==>
              d.rewind.None? && d.error.None? && !(d.response.Some? && d.response.value in {403, 429, 503})
    ensures r.DirectReturned? ==> r.response == d.response
    ensures closedDirect <==> d.rewind.None? && d.response.Some? && !r.DirectReturned?
    ensures r.DirectHalted? ==> Some(r.error) == if d.rewind.Some? then d.rewind else d.rewindAgain
    ensures r.ThroughProxy? <==> d.rewind.None? && !r.DirectReturned? && d.rewindAgain.None?
    ensures if r.ThroughProxy? then Staircase(policy, script, r.outcome, asked, closed) else asked == [] && closed == []
  {
    asked, closedDirect, closed := [], false, [];
    if d.rewind.Some? {
      return DirectHalted(d.rewind.value), asked, false, closed;
    }
    if d.error.None? && !(d.response.Some? && ShouldFallbackOnStatus(d.response.value)) {
      return DirectReturned(d.response), asked, false, closed;
    }
    if d.response.Some? {
      closedDirect := true;
    }
    if d.rewindAgain.Some? {
      return DirectHalted(d.rewindAgain.value), asked, closedDirect, closed;
    }
    var outcome;
    outcome, asked, closed := Do(policy, script);
    r := ThroughProxy(outcome);
  }

  // ---------- Backoff ----------

  datatype Backoff = Backoff(initial: real, max: real, multiplier: real, jitter: real)

  function Pow(b: real, n: nat): real { if n == 0 then 1.0 else Pow(b, n - 1) * b }

  function Capped(p: Backoff, attempt: int): real
    requires attempt >= 2
  {
    var base := p.initial * Pow(p.multiplier, attempt - 2);
    if base > p.max then p.max else base
  }

  /** The base spread by the jitter; draw is the random number in [0, 1). */
  function Jittered(p: Backoff, base: real, draw: real): real {
    if p.jitter > 0.0 then base * (1.0 + (draw * 2.0 - 1.0) * p.jitter) else base
  }

  /** Seconds to wait before an attempt. */
  method BackoffFor(p: Backoff, attempt: int, draw: real) returns (wait: real)
    ensures attempt <= 1 ==> wait == 0.0
    ensures attempt > 1 ==> wait == Jittered(p, Capped(p, attempt), draw)
  {
    if attempt <= 1 {
      return 0.0;
    }
    var base := p.initial;
    for k := 0 to attempt - 2
      invariant base == p.initial * Pow(p.multiplier, k)
    {
      base := base * p.multiplier;
    }
    if base > p.max {
      base := p.max;
    }
    if p.jitter > 0.0 {
      var shift := (draw * 2.0 - 1.0) * p.jitter;
      base := base * (1.0 + shift);
    }
    wait := base;
  }

  /** The base before jitter: the initial wait before attempt 2, and from one attempt to
      the next the multiplier times as much, up to the cap. */
  lemma GrowthExact(p: Backoff, attempt: int)
    requires attempt >= 2
    ensures Capped(p, 2) == if p.initial > p.max then p.max else p.initial
    ensures var base, next := p.initial * Pow(p.multiplier, attempt - 2), p.initial * Pow(p.multiplier, attempt - 1);
            && next == base * p.multiplier
            && Capped(p, attempt + 1) == if next > p.max then p.max else next
  {
  }

  /** The jitter spreads a wait evenly about its base: the lowest draw takes the whole
      fraction off, the middle one nothing, and it grows with the draw. */
  lemma JitterSpan(p: Backoff, base: real, draw: real)
    requires p.jitter > 0.0
    ensures Jittered(p, base, 0.0) == base * (1.0 - p.jitter)
    ensures Jittered(p, base, 0.5) == base
    ensures Jittered(p, base, draw) - base == 2.0 * (draw - 0.5) * (base * p.jitter)
  {
    SpreadIs(p, base, 0.0);
    SpreadIs(p, base, 0.5);
    SpreadIs(p, base, draw);
    var x := base * p.jitter;
    assert 2.0 * (draw - 0.5) * x == 2.0 * (x * draw) - x;
    assert base * (1.0 - p.jitter) == base - x;
  }

  /** Every wait from this base stays within MaxBackoff. */
  ghost predicate WithinMax(p: Backoff, base: real) {
    forall draw {:trigger Jittered(p, base, draw)} | 0.0 <= draw < 1.0 :: Jittered(p, base, draw) <= p.max
  }

  /** The cap is applied before the jitter, so the documented bound holds for all
      draws exactly when the capped base leaves room for the whole spread. */
  lemma JitterExact(p: Backoff, attempt: int)
    requires attempt >= 2 && Capped(p, attempt) >= 0.0
    ensures WithinMax(p, Capped(p, attempt)) <==> p.jitter <= 0.0 || Capped(p, attempt) * (1.0 + p.jitter) <= p.max
  {
    SpreadExact(p, Capped(p, attempt));
  }

  lemma SpreadExact(p: Backoff, base: real)
    requires 0.0 <= base <= p.max
    ensures WithinMax(p, base) <==> p.jitter <= 0.0 || base * (1.0 + p.jitter) <= p.max
  {
    if p.jitter > 0.0 && base * (1.0 + p.jitter) <= p.max {
      SpreadFits(p, base);
    } else if p.jitter > 0.0 {
      var _ := SpreadExceeds(p, base);
    }
  }

  lemma SpreadIs(p: Backoff, base: real, draw: real)
    requires p.jitter > 0.0
    ensures Jittered(p, base, draw) == base - base * p.jitter + 2.0 * ((base * p.jitter) * draw)
  {
    assert base * ((draw * 2.0 - 1.0) * p.jitter) == (base * p.jitter) * (draw * 2.0 - 1.0);
  }

  lemma SpreadFits(p: Backoff, base: real)
    requires base >= 0.0 && p.jitter > 0.0 && base * (1.0 + p.jitter) <= p.max
    ensures WithinMax(p, base)
  {
    forall draw | 0.0 <= draw < 1.0 ensures Jittered(p, base, draw) <= p.max { SpreadBelow(p, base, draw); }
  }

  lemma SpreadBelow(p: Backoff, base: real, draw: real)
    requires base >= 0.0 && p.jitter > 0.0 && draw < 1.0
    ensures Jittered(p, base, draw) <= base * (1.0 + p.jitter)
  {
    var x := base * p.jitter;
    assert x >= 0.0;
    var y := ProductBelow(x, draw);
    SpreadIs(p, base, draw);
    var wait := Jittered(p, base, draw);
    assert wait == base - x + 2.0 * y;
    assert base * (1.0 + p.jitter) == base + x;
  }

  lemma ProductBelow(x: real, draw: real) returns (y: real)
    requires x >= 0.0 && draw < 1.0
    ensures y == x * draw && y <= x
  {
    y := x * draw;
    NonNegative(x, 1.0 - draw);
    assert x * (1.0 - draw) == x - y;
  }

  lemma NonNegative(a: real, b: real)
    requires a >= 0.0 && b >= 0.0
    ensures a * b >= 0.0
  {
  }

  /** A draw close enough to one exceeds any bound below the full spread. */
  lemma SpreadExceeds(p: Backoff, base: real) returns (draw: real)
    requires 0.0 <= base <= p.max && p.jitter > 0.0 && base * (1.0 + p.jitter) > p.max
    ensures 0.0 <= draw < 1.0 && Jittered(p, base, draw) > p.max
  {
    var x := base * p.jitter;
    assert base * (1.0 + p.jitter) == base + x;
    var over := base + x - p.max;
    draw := 1.0 - over / (4.0 * x);
    QuarterOf(over, x);
    SpreadIs(p, base, draw);
    assert x * draw == x - over / 4.0;
  }

  lemma QuarterOf(over: real, x: real)
    requires 0.0 < over <= x
    ensures 0.0 < over / (4.0 * x) <= 0.25 && x * (over / (4.0 * x)) == over / 4.0
  {
    var q := over / (4.0 * x);
    assert q * (4.0 * x) == over;
    assert (0.25 - q) * (4.0 * x) == x - over;
  }

  /** A policy with a base below the cap whose wait still exceeds it. */
  lemma JitterExceedsMax()
    ensures var p := Backoff(28.0, 30.0, 2.0, 0.25);
            Capped(p, 2) < p.max && Jittered(p, Capped(p, 2), 0.99) > p.max && !WithinMax(p, Capped(p, 2))
  {
    var p := Backoff(28.0, 30.0, 2.0, 0.25);
    assert Pow(2.0, 0) == 1.0;
    assert Jittered(p, Capped(p, 2), 0.99) > 30.0;
  }

  /** The default policy waits about 1, 2, 4 and 8 seconds before its four retries, and
      keeps the bound on all of them. */
  lemma DefaultWithinMax(attempt: int)
    requires 2 <= attempt <= 5
    ensures Capped(Backoff(1.0, 30.0, 2.0, 0.25), attempt) ==
            if attempt == 2 then 1.0 else if attempt == 3 then 2.0 else if attempt == 4 then 4.0 else 8.0
    ensures WithinMax(Backoff(1.0, 30.0, 2.0, 0.25), Capped(Backoff(1.0, 30.0, 2.0, 0.25), attempt))
  {
    assert Pow(2.0, 0) == 1.0 && Pow(2.0, 1) == 2.0;
    assert Pow(2.0, 2) == 4.0 && Pow(2.0, 3) == 8.0;
    JitterExact(Backoff(1.0, 30.0, 2.0, 0.25), attempt);
  }
}
