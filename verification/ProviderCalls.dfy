/**
 * Calling one provider: keys are borrowed from the pool and given back, failed calls are retried
 * with the next key, and Extract sends long URL lists in batches.
 */
module ProviderCalls {
  import opened Wrappers

  type Key = nat

  /** What the pool and the upstream answer. */
  datatype Grant = Lent(key: Key) | Denied(errorType: string)
  datatype Reply<R, F> = Answer(results: seq<R>, failed: seq<F>) | Fault(errorType: string)

  datatype Event<Q> =
    | Granted(key: Key)
    | Refused(errorType: string)
    | Called(request: Q, key: Key)
    | Released(key: Key, success: bool, errorType: string)

  datatype Outcome = NotOffered | Turned(errorType: string) | Failed(key: Key, errorType: string) | Succeeded(key: Key,
    resultCount: nat)

  datatype Attempt = Attempt(index: nat, willRetry: bool, outcome: Outcome)

  datatype Execution<R, F> = Execution(error: Option<string>, key: Option<Key>, results: seq<R>, failed: seq<F>,
                                       attempts: seq<Attempt>)

  /** The pool and the upstream may answer anything, depending on all that has happened. */
  datatype World<!Q, !R, !F> = World(pool: seq<Event<Q>> -> Grant, upstream: (seq<Event<Q>>, Q, Key) -> Reply<R, F>)

  class Backend<Q, R, F> {
    const world: World<Q, R, F>
    var trace: seq<Event<Q>>

    constructor (world: World<Q, R, F>)
      ensures this.world == world && trace == []
    {
      this.world, trace := world, [];
    }

    method Acquire() returns (grant: Grant)
      modifies this
      ensures grant == world.pool(old(trace))
      ensures trace == old(trace) + [if grant.Lent? then Granted(grant.key) else Refused(grant.errorType)]
    {
      grant := world.pool(trace);
      trace := trace + [if grant.Lent? then Granted(grant.key) else Refused(grant.errorType)];
    }

    method Call(request: Q, key: Key) returns (reply: Reply<R, F>)
      modifies this
      ensures reply == world.upstream(old(trace), request, key) && trace == old(trace) + [Called(request, key)]
    {
      reply := world.upstream(trace, request, key);
      trace := trace + [Called(request, key)];
    }

    method Release(key: Key, success: bool, errorType: string)
      modifies this
      ensures trace == old(trace) + [Released(key, success, errorType)]
    {
      trace := trace + [Released(key, success, errorType)];
    }
  }

  // ---------- retrying ----------

  /** Three retries unless configured, and between 0 and 20. */
  function Retries(configured: Option<int>): (n: nat)
    ensures n <= 20 && (configured.None? ==> n == 3)
    ensures configured.Some? ==>
      n == configured.value || (n == 0 && configured.value < 0) || (n == 20 && configured.value > 20)
  {
    if configured.None? then 3 else if configured.value < 0 then 0 else if configured.value > 20 then 20
      else configured.value
  }

  /** Without a list of its own a provider retries the five kinds that another key may cure. */
  predicate ShouldRetry(errorType: string, allowed: map<string, bool>) {
    if allowed == map[] then errorType in ["auth", "quota_exhausted", "rate_limited", "timeout", "upstream"]
    else errorType in allowed && allowed[errorType]
  }

  /** What an attempt leaves in the trace. */
  function EventsOf<Q>(attempt: Attempt, request: Q): seq<Event<Q>> {
    match attempt.outcome
    case NotOffered => []
    case Turned(e) => [Refused(e)]
    case Failed(k, e) => [Granted(k), Called(request, k), Released(k, false, e)]
    case Succeeded(k, _) => [Granted(k), Called(request, k), Released(k, true, "")]
  }

  function AllEvents<Q>(attempts: seq<Attempt>, request: Q): seq<Event<Q>> {
    if attempts == [] then []
    else AllEvents(attempts[..|attempts| - 1], request) + EventsOf(attempts[|attempts| - 1], request)
  }

  /** An event of a lease stands next to the other two of the same lease. */
  ghost predicate InPlace<Q(!new)>(events: seq<Event<Q>>, i: nat, request: Q)
    requires i < |events|
  {
    match events[i]
    case Granted(k) =>
      i + 2 < |events| && events[i + 1] == Called(request, k) && events[i + 2].Released? && events[i + 2].key == k
    case Called(q, k) => q == request && 1 <= i && events[i - 1] == Granted(k)
    case Released(k, _, _) => 2 <= i && events[i - 2] == Granted(k) && events[i - 1] == Called(request, k)
    case Refused(_) => true
  }

  /** Two keys are never out at once, and every key lent is called with and given back, exactly once, right away. */
  lemma {:induction false} LeasesAreLinear<Q(!new)>(attempts: seq<Attempt>, request: Q, i: nat)
    requires i < |AllEvents(attempts, request)|
    ensures InPlace(AllEvents(attempts, request), i, request)
  {
    var before := AllEvents(attempts[..|attempts| - 1], request);
    if i < |before| { LeasesAreLinear(attempts[..|attempts| - 1], request, i); }
  }

  /** What becomes of the results and failures that a provider returns for a request. */
  type Normaliser<!Q, !R, !F> = (seq<R>, seq<F>, Q) -> (seq<R>, seq<F>)

  /** Everything a retry loop depends on. */
  datatype Setting<!Q, !R, !F> = Setting(
    world: World<Q, R, F>, trace: seq<Event<Q>>, request: Q, keep: Normaliser<Q, R, F>,
    retries: nat, allowed: map<string, bool>)

  /** The attempt reports what the pool and the upstream answer after the attempts before it. */
  ghost predicate Truthful<Q, R, F>(s: Setting<Q, R, F>, before: seq<Attempt>, outcome: Outcome) {
    var trace := s.trace + AllEvents(before, s.request);
    match outcome
    case NotOffered => false
    case Turned(e) => s.world.pool(trace) == Denied(e)
    case Failed(k, e) => s.world.pool(trace) == Lent(k)
      && s.world.upstream(trace + [Granted(k)], s.request, k) == Fault(e)
    case Succeeded(k, n) =>
      && s.world.pool(trace) == Lent(k)
      && var reply := s.world.upstream(trace + [Granted(k)], s.request, k);
      reply.Answer? && n == |s.keep(reply.results, reply.failed, s.request).0|
  }

  /**
   * The next attempt is numbered on, truthful, and retried exactly if it failed with a cause for that
   * and retries are left.
   */
  ghost predicate Next<Q, R, F>(s: Setting<Q, R, F>, before: seq<Attempt>, a: Attempt) {
    && a.index == |before| + 1
    && Truthful(s, before, a.outcome)
    && (a.willRetry <==> a.outcome.Failed? && |before| < s.retries && ShouldRetry(a.outcome.errorType, s.allowed))
  }

  ghost predicate Retrying<Q, R, F>(s: Setting<Q, R, F>, attempts: seq<Attempt>) {
    attempts == [] ||
      var before, a := attempts[..|attempts| - 1], attempts[|attempts| - 1];
      Retrying(s, before) && Next(s, before, a) && a.willRetry
  }

  ghost predicate Faithful<Q, R, F>(s: Setting<Q, R, F>, attempts: seq<Attempt>) {
    attempts != [] &&
      var before, a := attempts[..|attempts| - 1], attempts[|attempts| - 1];
      Retrying(s, before) && Next(s, before, a) && !a.willRetry
  }

  lemma {:induction false} RetryingSays<Q, R, F>(s: Setting<Q, R, F>, attempts: seq<Attempt>, i: nat)
    requires Retrying(s, attempts) && i < |attempts|
    ensures |attempts| <= s.retries
    ensures attempts[i].index == i + 1 && attempts[i].willRetry && attempts[i].outcome.Failed?
      && ShouldRetry(attempts[i].outcome.errorType, s.allowed)
  {
    hide Truthful, ShouldRetry;
    if i < |attempts| - 1 { RetryingSays(s, attempts[..|attempts| - 1], i); }
  }

  /**
   * At least one attempt and at most one more than the retries, numbered from one; another one
   * follows exactly where the attempt says so; all but the last failed for a cause that is
   * retried, and the last did not unless the retries are used up.
   */
  lemma AttemptsInOrder<Q, R, F>(s: Setting<Q, R, F>, attempts: seq<Attempt>)
    requires Faithful(s, attempts)
    ensures 1 <= |attempts| <= s.retries + 1
    ensures forall i :: 0 <= i < |attempts| ==>
      attempts[i].index == i + 1 && (attempts[i].willRetry <==> i + 1 < |attempts|)
    ensures forall i :: 0 <= i < |attempts| - 1 ==>
      attempts[i].outcome.Failed? && ShouldRetry(attempts[i].outcome.errorType, s.allowed)
    ensures var last := attempts[|attempts| - 1].outcome;
      last.Failed? ==> |attempts| == s.retries + 1 || !ShouldRetry(last.errorType, s.allowed)
  {
    hide Truthful, ShouldRetry, Retrying;
    var n := |attempts| - 1;
    var before := attempts[..n];
    if n > 0 { RetryingSays(s, before, 0); }
    forall i | 0 <= i < n
      ensures attempts[i].index == i + 1 && attempts[i].willRetry
      ensures attempts[i].outcome.Failed? && ShouldRetry(attempts[i].outcome.errorType, s.allowed)
    {
      RetryingSays(s, before, i);
      assert before[i] == attempts[i];
    }
  }

  /** The errors that another key may cure are retried by default; a list of one's own replaces them. */
  lemma RetriedErrors(errorType: string, allowed: map<string, bool>)
    ensures allowed == map[] ==> (ShouldRetry(errorType, allowed) <==>
      || errorType == "auth" || errorType == "quota_exhausted" || errorType == "rate_limited"
      || errorType == "timeout" || errorType == "upstream")
    ensures allowed != map[] ==>
      (ShouldRetry(errorType, allowed) <==> errorType in allowed && allowed[errorType])
  {
  }

  /**
   * By default a call goes on after exactly these errors while retries are left: every attempt but the
   * last failed with one of them, and the last did not, or was the last one allowed.
   */
  lemma DefaultRetries<Q, R, F>(s: Setting<Q, R, F>, attempts: seq<Attempt>)
    requires Faithful(s, attempts) && s.allowed == map[]
    ensures forall i :: 0 <= i < |attempts| - 1 ==>
      && attempts[i].outcome.Failed?
      && attempts[i].outcome.errorType in ["auth", "quota_exhausted", "rate_limited", "timeout", "upstream"]
    ensures var last := attempts[|attempts| - 1].outcome;
      last.Failed? && |attempts| <= s.retries ==>
        last.errorType !in ["auth", "quota_exhausted", "rate_limited", "timeout", "upstream"]
  {
    AttemptsInOrder(s, attempts);
    hide Faithful;
  }

  lemma NextDetermined<Q, R, F>(s: Setting<Q, R, F>, before: seq<Attempt>, a: Attempt, b: Attempt)
    requires Next(s, before, a) && Next(s, before, b)
    ensures a == b
  {
  }

  lemma {:induction false} PrefixNext<Q, R, F>(s: Setting<Q, R, F>, attempts: seq<Attempt>, n: nat)
    requires Retrying(s, attempts) && n < |attempts|
    ensures Next(s, attempts[..n], attempts[n]) && attempts[n].willRetry
  {
    if n < |attempts| - 1 {
      PrefixNext(s, attempts[..|attempts| - 1], n);
      assert attempts[..|attempts| - 1][..n] == attempts[..n];
    }
  }

  lemma {:induction false} RetryingAgrees<Q, R, F>(s: Setting<Q, R, F>, a: seq<Attempt>, b: seq<Attempt>)
    requires Retrying(s, a) && Retrying(s, b) && |a| <= |b|
    ensures a == b[..|a|]
  {
    hide Next;
    if a != [] {
      var n := |a| - 1;
      RetryingAgrees(s, a[..n], b);
      PrefixNext(s, b, n);
      NextDetermined(s, a[..n], a[n], b[n]);
      assert a == a[..n] + [a[n]];
    }
  }

  /** What the pool and the upstream answer leaves no choice of attempts. */
  lemma AttemptsDetermined<Q, R, F>(s: Setting<Q, R, F>, a: seq<Attempt>, b: seq<Attempt>)
    requires Faithful(s, a) && Faithful(s, b) && |a| <= |b|
    ensures a == b
  {
    hide Next;
    var n := |a| - 1;
    RetryingAgrees(s, a[..n], b[..|b| - 1]);
    assert b[..|b| - 1][..n] == b[..n];
    if |a| < |b| { PrefixNext(s, b[..|b| - 1], n); }
    NextDetermined(s, a[..n], a[n], b[n]);
    assert a == a[..n] + [a[n]] && b[..|a|] == b[..n] + [b[n]];
  }

  lemma AppendAttempt<Q, R, F>(s: Setting<Q, R, F>, before: seq<Attempt>, a: Attempt)
    requires Retrying(s, before) && Next(s, before, a)
    ensures AllEvents(before + [a], s.request) == AllEvents(before, s.request) + EventsOf(a, s.request)
    ensures if a.willRetry then Retrying(s, before + [a]) else Faithful(s, before + [a])
  {
    assert (before + [a])[..|before + [a]| - 1] == before;
  }

  function LastKey(attempts: seq<Attempt>): Option<Key> {
    if attempts == [] then None
    else match attempts[|attempts| - 1].outcome
      case Succeeded(k, _) => Some(k)
      case Failed(k, _) => Some(k)
      case _ => LastKey(attempts[..|attempts| - 1])
  }

  ghost predicate Used(a: Attempt) { a.outcome.Succeeded? || a.outcome.Failed? }

  ghost predicate LastUsed(attempts: seq<Attempt>, i: nat)
    requires i < |attempts|
  {
    Used(attempts[i]) && forall j :: i < j < |attempts| ==> !Used(attempts[j])
  }

  /** The key reported is that of the last attempt that had one. */
  lemma {:induction false} LastKeyIsLast(attempts: seq<Attempt>)
    ensures LastKey(attempts).None? <==> forall i :: 0 <= i < |attempts| ==> !Used(attempts[i])
    ensures forall i :: 0 <= i < |attempts| && LastUsed(attempts, i) ==>
      LastKey(attempts) == Some(attempts[i].outcome.key)
  {
    if attempts != [] {
      var n := |attempts| - 1;
      LastKeyIsLast(attempts[..n]);
      forall i | 0 <= i < n ensures attempts[..n][i] == attempts[i] {}
    }
  }

  /** How the rest of an execution follows from its attempts. */
  ghost predicate Concludes<Q, R, F>(s: Setting<Q, R, F>, e: Execution<R, F>) {
    && e.attempts != [] && e.key == LastKey(e.attempts)
    && var before := e.attempts[..|e.attempts| - 1];
    match e.attempts[|e.attempts| - 1].outcome
    case Succeeded(k, _) =>
      var reply := s.world.upstream(s.trace + AllEvents(before, s.request) + [Granted(k)], s.request, k);
      && e.error == None && reply.Answer?
      && e.results == s.keep(reply.results, reply.failed, s.request).0
        && e.failed == s.keep(reply.results, reply.failed, s.request).1
    case Failed(_, error) => e.error == Some(error) && e.results == [] && e.failed == []
    case Turned(error) => e.error == Some(error) && e.results == [] && e.failed == []
    case NotOffered => false
  }

  /** Where the loop stands before its next round: every attempt so far is to be retried. */
  ghost predicate Underway<Q, R, F>(s: Setting<Q, R, F>, trace: seq<Event<Q>>, e: Execution<R, F>) {
    && trace == s.trace + AllEvents(e.attempts, s.request)
    && Retrying(s, e.attempts) && e.key == LastKey(e.attempts) && e.results == [] && e.failed == []
  }

  /** One round: a key is borrowed, used and given back, or there is none. */
  method ExtractOnce<Q, R, F>(backend: Backend<Q, R, F>, request: Q, keep: Normaliser<Q, R, F>,
                              allowed: map<string, bool>,
                              retryCount: nat, attempt: nat, execution: Execution<R, F>, ghost s: Setting<Q, R, F>)
    returns (next: Execution<R, F>, willRetry: bool)
    requires s == Setting(backend.world, s.trace, request, keep, retryCount, allowed)
    requires Underway(s, backend.trace, execution) && |execution.attempts| == attempt
    modifies backend
    ensures |next.attempts| == attempt + 1
    ensures willRetry ==> Underway(s, backend.trace, next)
    ensures !willRetry ==>
      backend.trace == s.trace + AllEvents(next.attempts, request) && Faithful(s, next.attempts) && Concludes(s, next)
  {
    hide Next, Retrying, Faithful, ShouldRetry, AllEvents, LastKey, EventsOf, Truthful, Concludes;
    ghost var before := execution.attempts;
    var grant := backend.Acquire();
    if grant.Denied? {
      TurnedNext(s, before, grant.errorType);
      next := Execution(Some(grant.errorType), execution.key, [], [],
                        execution.attempts + [Attempt(attempt + 1, false, Turned(grant.errorType))]);
      return next, false;
    }
    var key := grant.key;
    var reply := backend.Call(request, key);
    backend.Release(key, reply.Answer?, if reply.Fault? then reply.errorType else "");
    if reply.Answer? {
      var (results, failed) := keep(reply.results, reply.failed, request);
      DoneNext(s, before, key);
      next := Execution(None, Some(key), results, failed,
                        execution.attempts + [Attempt(attempt + 1, false, Succeeded(key, |results|))]);
      return next, false;
    }
    willRetry := attempt < retryCount && ShouldRetry(reply.errorType, allowed);
    var missed := Attempt(attempt + 1, willRetry, Failed(key, reply.errorType));
    MissedNext(s, before, missed);
    next := Execution(Some(reply.errorType), Some(key), [], [], execution.attempts + [missed]);
  }

  /** The retry loop of Extract. */
  method CallExtractAdapter<Q, R, F>(backend: Backend<Q, R, F>, request: Q, keep: Normaliser<Q, R, F>,
                                     configured: Option<int>, allowed: map<string, bool>)
    returns (execution: Execution<R, F>)
    modifies backend
    ensures backend.trace == old(backend.trace) + AllEvents(execution.attempts, request)
    ensures var s := Setting(backend.world, old(backend.trace), request, keep, Retries(configured), allowed);
      Faithful(s, execution.attempts) && Concludes(s, execution)
  {
    hide Faithful, Concludes;
    var retryCount := if configured.Some? then configured.value else 3;
    if retryCount < 0 {
      retryCount := 0;
    }
    if retryCount > 20 {
      retryCount := 20;
    }
    ghost var s := Setting(backend.world, backend.trace, request, keep, Retries(configured), allowed);
    assert retryCount == s.retries;
    NothingYet(s);
    execution := Execution(None, None, [], [], []);
    assert Underway(s, backend.trace, execution);
    hide Underway, AllEvents, Retries;
    var attempt := 0;
    while attempt <= retryCount
      invariant |execution.attempts| == attempt <= retryCount
      invariant Underway(s, backend.trace, execution)
      decreases retryCount - attempt
    {
      var willRetry;
      execution, willRetry := ExtractOnce(backend, request, keep, allowed, retryCount, attempt, execution, s);
      if !willRetry {
        return;
      }
      UnderwayCount(s, backend.trace, execution);
      attempt := attempt + 1;
    }
    assert false;
  }

  lemma UnderwayCount<Q, R, F>(s: Setting<Q, R, F>, trace: seq<Event<Q>>, e: Execution<R, F>)
    requires Underway(s, trace, e)
    ensures |e.attempts| <= s.retries
  {
    if e.attempts != [] { RetryingSays(s, e.attempts, 0); }
  }

  function AsIs<R>(results: seq<R>, failed: seq<()>, request: Search): (seq<R>, seq<()>) {
    (results, failed)
  }

  /** What stands for a provider that is not registered or has no such operation. */
  function Unavailable<R, F>(): Execution<R, F> {
    Execution(Some("upstream"), None, [], [], [Attempt(1, false, NotOffered)])
  }

  lemma UnavailableIsSilent<Q, R, F>(trace: seq<Event<Q>>, request: Q)
    ensures trace + AllEvents(Unavailable<R, F>().attempts, request) == trace
  {
    assert Unavailable<R, F>().attempts == [] + [Attempt(1, false, NotOffered)];
  }

  /** A search: `query` stands for what is asked, and the provider's own limit replaces the one asked for. */
  datatype Search = Search(query: nat, limit: int)

  function Limited(request: Search, providerLimit: Option<int>): Search {
    if providerLimit.Some? && providerLimit.value > 0 then request.(limit := providerLimit.value) else request
  }

  /** A search asks for what was asked, and for as many results as the provider is set to if it is. */
  lemma ProviderLimitReplaces(request: Search, providerLimit: Option<int>)
    ensures var r := Limited(request, providerLimit);
      && r.query == request.query
      && (providerLimit.Some? && providerLimit.value > 0 ==> r.limit == providerLimit.value)
      && (providerLimit.None? || providerLimit.value <= 0 ==> r.limit == request.limit)
  {
  }

  lemma SearchDone<R>(s: Setting<Search, R, ()>, before: seq<Attempt>, key: Key, reply: Reply<R, ()>)
    requires var trace := s.trace + AllEvents(before, s.request);
      Retrying(s, before) && s.world.pool(trace) == Lent(key)
        && s.world.upstream(trace + [Granted(key)], s.request, key) == reply
    requires reply.Answer? && s.keep(reply.results, reply.failed, s.request) == (reply.results, reply.failed)
    ensures var a := Attempt(|before| + 1, false, Succeeded(key, |reply.results|));
      && Faithful(s, before + [a])
      && Concludes(s, Execution(None, Some(key), reply.results, reply.failed, before + [a]))
      && AllEvents(before + [a], s.request) == AllEvents(before, s.request)
        + [Granted(key), Called(s.request, key), Released(key, true, "")]
  {
    hide Faithful, Concludes, AllEvents, Retrying;
    DoneNext(s, before, key);
  }

  /** The retry loop of a search, which keeps the results as they come; single pages do not fail. */
  method SearchWithRetries<R(!new)>(backend: Backend<Search, R, ()>, request: Search, retryCount: nat,
                                    allowed: map<string, bool>,
                              ghost keep: Normaliser<Search, R, ()>)
    returns (execution: Execution<R, ()>)
    requires forall results, failed :: keep(results, failed, request) == (results, failed)
    modifies backend
    ensures backend.trace == old(backend.trace) + AllEvents(execution.attempts, request)
    ensures var s := Setting(backend.world, old(backend.trace), request, keep, retryCount, allowed);
      Faithful(s, execution.attempts) && Concludes(s, execution)
  {
    hide Next, Retrying, Faithful, ShouldRetry, AllEvents, LastKey, EventsOf, Truthful, Concludes;
    ghost var s := Setting(backend.world, backend.trace, request, keep, retryCount, allowed);
    NothingYet(s);
    execution := Execution(None, None, [], [], []);
    var attempts := retryCount + 1;
    var attempt := 0;
    while attempt < attempts
      invariant |execution.attempts| == attempt <= retryCount
      invariant backend.trace == s.trace + AllEvents(execution.attempts, request)
      invariant Retrying(s, execution.attempts)
      invariant execution.key == LastKey(execution.attempts) && execution.results == [] && execution.failed == []
      decreases attempts - attempt
    {
      ghost var before := execution.attempts;
      var grant := backend.Acquire();
      if grant.Denied? {
        var turned := Attempt(attempt + 1, false, Turned(grant.errorType));
        TurnedNext(s, before, grant.errorType);
        execution := Execution(Some(grant.errorType), execution.key, [], [], execution.attempts + [turned]);
        return;
      }
      var key := grant.key;
      var reply := backend.Call(request, key);
      backend.Release(key, reply.Answer?, if reply.Fault? then reply.errorType else "");
      if reply.Answer? {
        var results := reply.results;
        var done := Attempt(attempt + 1, false, Succeeded(key, |results|));
        assert keep(reply.results, reply.failed, request) == (reply.results, reply.failed);
        SearchDone(s, before, key, reply);
        execution := Execution(None, Some(key), results, reply.failed, execution.attempts + [done]);
        return;
      }
      var willRetry := attempt < attempts - 1 && ShouldRetry(reply.errorType, allowed);
      var missed := Attempt(attempt + 1, willRetry, Failed(key, reply.errorType));
      MissedNext(s, before, missed);
      execution := Execution(Some(reply.errorType), Some(key), [], [], execution.attempts + [missed]);
      if !willRetry {
        return;
      }
      RetryingCount(s, execution.attempts);
      attempt := attempt + 1;
    }
    assert false;
  }

  method CallProvider<R(!new)>(backend: Backend<Search, R, ()>, registered: bool, asked: Search,
                               providerLimit: Option<int>,
                         configured: Option<int>, allowed: map<string, bool>)
    returns (execution: Execution<R, ()>)
    modifies backend
    ensures backend.trace == old(backend.trace) + AllEvents(execution.attempts, Limited(asked, providerLimit))
    ensures registered ==>
      var s := Setting(backend.world, old(backend.trace), Limited(asked, providerLimit), AsIs, Retries(configured),
                       allowed);
      Faithful(s, execution.attempts) && Concludes(s, execution)
    ensures !registered ==> execution == Unavailable()
  {
    if !registered {
      UnavailableIsSilent<Search, R, ()>(backend.trace, Limited(asked, providerLimit));
      return Unavailable();
    }
    var request := asked;
    if providerLimit.Some? && providerLimit.value > 0 {
      request := asked.(limit := providerLimit.value);
    }
    var retryCount := if configured.Some? then configured.value else 3;
    if retryCount < 0 {
      retryCount := 0;
    }
    if retryCount > 20 {
      retryCount := 20;
    }
    execution := SearchWithRetries(backend, request, retryCount, allowed, AsIs);
  }

  lemma NothingYet<Q, R, F>(s: Setting<Q, R, F>)
    ensures Retrying(s, []) && s.trace + AllEvents([], s.request) == s.trace && LastKey([]) == None
  {
  }

  lemma RetryingCount<Q, R, F>(s: Setting<Q, R, F>, attempts: seq<Attempt>)
    requires Retrying(s, attempts)
    ensures |attempts| <= s.retries
  {
    if attempts != [] { RetryingSays(s, attempts, 0); }
  }

  lemma TurnedNext<Q, R, F>(s: Setting<Q, R, F>, before: seq<Attempt>, errorType: string)
    requires Retrying(s, before) && s.world.pool(s.trace + AllEvents(before, s.request)) == Denied(errorType)
    ensures var a := Attempt(|before| + 1, false, Turned(errorType));
      && Faithful(s, before + [a]) && Concludes(s, Execution(Some(errorType), LastKey(before), [], [], before + [a]))
      && AllEvents(before + [a], s.request) == AllEvents(before, s.request) + [Refused(errorType)]
  {
    AppendAttempt(s, before, Attempt(|before| + 1, false, Turned(errorType)));
    var all := before + [Attempt(|before| + 1, false, Turned(errorType))];
    assert all[..|all| - 1] == before;
  }

  lemma DoneNext<Q, R, F>(s: Setting<Q, R, F>, before: seq<Attempt>, key: Key)
    requires var trace := s.trace + AllEvents(before, s.request);
      Retrying(s, before) && s.world.pool(trace) == Lent(key)
        && s.world.upstream(trace + [Granted(key)], s.request, key).Answer?
    ensures var reply := s.world.upstream(s.trace + AllEvents(before, s.request) + [Granted(key)], s.request, key);
      var a := Attempt(|before| + 1, false, Succeeded(key, |s.keep(reply.results, reply.failed, s.request).0|));
      && Faithful(s, before + [a])
      && Concludes(s,
                   Execution(None, Some(key), s.keep(reply.results, reply.failed, s.request).0,
                             s.keep(reply.results, reply.failed, s.request).1, before + [a]))
      && AllEvents(before + [a], s.request) == AllEvents(before, s.request)
        + [Granted(key), Called(s.request, key), Released(key, true, "")]
  {
    var reply := s.world.upstream(s.trace + AllEvents(before, s.request) + [Granted(key)], s.request, key);
    AppendAttempt(s, before,
                  Attempt(|before| + 1, false, Succeeded(key, |s.keep(reply.results, reply.failed, s.request).0|)));
    var all :=
      before + [Attempt(|before| + 1, false, Succeeded(key, |s.keep(reply.results, reply.failed, s.request).0|))];
    assert all[..|all| - 1] == before;
  }

  lemma MissedNext<Q, R, F>(s: Setting<Q, R, F>, before: seq<Attempt>, a: Attempt)
    requires a.outcome.Failed? && a.index == |before| + 1
    requires var trace, k := s.trace + AllEvents(before, s.request), a.outcome.key;
      Retrying(s, before) && s.world.pool(trace) == Lent(k)
        && s.world.upstream(trace + [Granted(k)], s.request, k) == Fault(a.outcome.errorType)
    requires a.willRetry <==> |before| < s.retries && ShouldRetry(a.outcome.errorType, s.allowed)
    ensures if a.willRetry then Retrying(s, before + [a]) else Faithful(s, before + [a])
    ensures LastKey(before + [a]) == Some(a.outcome.key)
    ensures Concludes(s, Execution(Some(a.outcome.errorType), LastKey(before + [a]), [], [], before + [a]))
    ensures AllEvents(before + [a], s.request)
         == AllEvents(before, s.request) + [Granted(a.outcome.key), Called(s.request, a.outcome.key),
                                            Released(a.outcome.key, false, a.outcome.errorType)]
  {
    AppendAttempt(s, before, a);
  }
}
