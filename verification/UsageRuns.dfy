/**
 * Any run of logged requests and deleted tokens, as the key pool sees it: what a listing sums up
 * for a key is what the log of its calls says.
 */
module UsageRuns {
  import opened Wrappers
  import opened UsageTables
  import QuotaRuns

  datatype Operation = Request(input: LogInput, today: int) | DeleteToken(id: int)

  function TableAfter(ops: seq<Operation>): (t: Table<Daily>)
    ensures Wide(t, DAILY_WIDTH)
  {
    if ops == [] then map[]
    else
      var t := TableAfter(ops[..|ops| - 1]);
      match ops[|ops| - 1]
      case Request(input, today) => Logged(t, input, today, |input.calls|)
      case DeleteToken(id) => TokenGone(t, id, DAILY_WIDTH); WithoutToken(t, id)
  }

  /** The dates of the calls of one key among the first `n` calls of a request. */
  function CallsOf(input: LogInput, key: int, today: int, n: nat): seq<int>
    requires n <= |input.calls|
  {
    if n == 0 then [] else CallsOf(input, key, today, n - 1) + if input.calls[n - 1].keyID == key then [today] else []
  }

  /** The dates of all calls of one key, one entry for each. */
  function LogOf(ops: seq<Operation>, key: int): seq<int> {
    if ops == [] then []
    else
      LogOf(ops[..|ops| - 1], key) +
        match ops[|ops| - 1]
        case Request(input, today) => CallsOf(input, key, today, |input.calls|)
        case DeleteToken(_) => []
  }

  /** The rows of one key at the dates that `q` selects. */
  ghost function OfKey(key: int, q: int -> bool): Daily -> bool {
    (g: Daily) => g.key == Some(key) && q(g.date)
  }

  ghost function CountWhere(log: seq<int>, q: int -> bool): nat {
    if log == [] then 0 else CountWhere(log[..|log| - 1], q) + if q(log[|log| - 1]) then 1 else 0
  }

  lemma {:induction false} CountJoin(a: seq<int>, b: seq<int>, q: int -> bool)
    ensures CountWhere(a + b, q) == CountWhere(a, q) + CountWhere(b, q)
  {
    if b == [] {
      assert a + b == a;
    } else {
      assert (a + b)[..|a + b| - 1] == a + b[..|b| - 1];
      CountJoin(a, b[..|b| - 1], q);
    }
  }

  lemma {:induction false} LoggedAdds(t: Table<Daily>, input: LogInput, today: int, n: nat, key: int, q: int -> bool)
    requires Wide(t, DAILY_WIDTH) && n <= |input.calls| && key > 0
    ensures SumWhere(Logged(t, input, today, n), OfKey(key, q), REQUESTS)
         == SumWhere(t, OfKey(key, q), REQUESTS) + CountWhere(CallsOf(input, key, today, n), q)
  {
    hide Upsert, SumWhere;
    if n == 0 {
      UpsertAdds(t, TokenOf(input), Daily(today, None, None), RequestColumns(input), DAILY_WIDTH, OfKey(key, q),
                 REQUESTS);
    } else {
      LoggedAdds(t, input, today, n - 1, key, q);
      var call := input.calls[n - 1];
      if call.keyID > 0 {
        UpsertAdds(Logged(t, input, today, n - 1), TokenOf(input), Daily(today, None, Some(call.keyID)),
                   CallColumns(call),
                   DAILY_WIDTH, OfKey(key, q), REQUESTS);
      }
      CountJoin(CallsOf(input, key, today, n - 1), if call.keyID == key then [today] else [], q);
    }
  }

  // ---------- the other columns ----------

  /** What the calls of a key, among the first `n` of a request, come to. */
  ghost function SumCalls(input: LogInput, key: int, n: nat, f: CallLog -> int): int
    requires n <= |input.calls|
  {
    if n == 0 then 0
    else SumCalls(input, key, n - 1, f) + if input.calls[n - 1].keyID == key then f(input.calls[n - 1]) else 0
  }

  function Succeeded(call: CallLog): int { if call.status == "success" then 1 else 0 }
  function Failed(call: CallLog): int { if call.status == "error" then 1 else 0 }
  function FromCache(call: CallLog): int { if call.cached then 1 else 0 }
  function Results(call: CallLog): int { call.resultCount }
  function Latency(call: CallLog): int { call.latency }

  lemma {:induction false} LoggedColumn(t: Table<Daily>, input: LogInput, today: int, n: nat, key: int, q: int -> bool,
                                        c: nat, f: CallLog -> int)
    requires Wide(t, DAILY_WIDTH) && n <= |input.calls| && key > 0
    requires c < DAILY_WIDTH && forall call :: f(call) == CallColumns(call)[c]
    ensures SumWhere(Logged(t, input, today, n), OfKey(key, q), c)
         == SumWhere(t, OfKey(key, q), c) + if q(today) then SumCalls(input, key, n, f) else 0
  {
    hide Upsert, SumWhere, RequestColumns;
    if n == 0 {
      RequestWidth(input);
      UpsertAdds(t, TokenOf(input), Daily(today, None, None), RequestColumns(input), DAILY_WIDTH, OfKey(key, q), c);
    } else {
      LoggedColumn(t, input, today, n - 1, key, q, c, f);
      var call := input.calls[n - 1];
      if call.keyID > 0 {
        UpsertAdds(Logged(t, input, today, n - 1), TokenOf(input), Daily(today, None, Some(call.keyID)),
                   CallColumns(call), DAILY_WIDTH, OfKey(key, q), c);
      }
    }
  }

  lemma RequestWidth(input: LogInput)
    ensures |RequestColumns(input)| == DAILY_WIDTH
  {
  }

  /** Every column of a key's usage grows by what its calls come to: successes, failures, cache hits, results, time. */
  lemma KeyColumnsAdd(t: Table<Daily>, input: LogInput, today: int, key: int, q: int -> bool)
    requires Wide(t, DAILY_WIDTH) && key > 0 && q(today)
    ensures var n, t' := |input.calls|, Logged(t, input, today, |input.calls|);
      && SumWhere(t', OfKey(key, q), 1) == SumWhere(t, OfKey(key, q), 1) + SumCalls(input, key, n, Succeeded)
      && SumWhere(t', OfKey(key, q), 2) == SumWhere(t, OfKey(key, q), 2) + SumCalls(input, key, n, Failed)
      && SumWhere(t', OfKey(key, q), 3) == SumWhere(t, OfKey(key, q), 3) + SumCalls(input, key, n, FromCache)
      && SumWhere(t', OfKey(key, q), 4) == SumWhere(t, OfKey(key, q), 4) + SumCalls(input, key, n, Results)
      && SumWhere(t', OfKey(key, q), 5) == SumWhere(t, OfKey(key, q), 5) + SumCalls(input, key, n, Latency)
  {
    var n := |input.calls|;
    LoggedColumn(t, input, today, n, key, q, 1, Succeeded);
    LoggedColumn(t, input, today, n, key, q, 2, Failed);
    LoggedColumn(t, input, today, n, key, q, 3, FromCache);
    LoggedColumn(t, input, today, n, key, q, 4, Results);
    LoggedColumn(t, input, today, n, key, q, 5, Latency);
    hide SumWhere, SumCalls, Logged, OfKey;
  }

  /** The rows of whole requests at the dates that `q` selects. */
  ghost function OfRequests(q: int -> bool): Daily -> bool {
    (g: Daily) => g.key == None && g.provider == None && q(g.date)
  }

  lemma {:induction false} RequestColumn(t: Table<Daily>, input: LogInput, today: int, n: nat, q: int -> bool, c: nat)
    requires Wide(t, DAILY_WIDTH) && n <= |input.calls| && c < DAILY_WIDTH
    ensures SumWhere(Logged(t, input, today, n), OfRequests(q), c)
         == SumWhere(t, OfRequests(q), c) + if q(today) then RequestColumns(input)[c] else 0
  {
    hide Upsert, SumWhere;
    if n == 0 {
      UpsertAdds(t, TokenOf(input), Daily(today, None, None), RequestColumns(input), DAILY_WIDTH, OfRequests(q), c);
    } else {
      RequestColumn(t, input, today, n - 1, q, c);
      var call := input.calls[n - 1];
      if call.keyID > 0 {
        UpsertAdds(Logged(t, input, today, n - 1), TokenOf(input), Daily(today, None, Some(call.keyID)),
                   CallColumns(call), DAILY_WIDTH, OfRequests(q), c);
      }
    }
  }

  /** And the row of the request itself counts it once, as a success or a failure, with its results and its time. */
  lemma RequestColumnsAdd(t: Table<Daily>, input: LogInput, today: int, q: int -> bool)
    requires Wide(t, DAILY_WIDTH) && q(today)
    ensures var t', p := Logged(t, input, today, |input.calls|), OfRequests(q);
      && SumWhere(t', p, REQUESTS) == SumWhere(t, p, REQUESTS) + 1
      && SumWhere(t', p, 1) == SumWhere(t, p, 1) + (if input.status == "success" then 1 else 0)
      && SumWhere(t', p, 2) == SumWhere(t, p, 2) + (if input.status == "success" then 0 else 1)
      && SumWhere(t', p, 3) == SumWhere(t, p, 3) + (if input.cacheHit then 1 else 0)
      && SumWhere(t', p, 4) == SumWhere(t, p, 4) + input.resultCount
      && SumWhere(t', p, 5) == SumWhere(t, p, 5) + input.latency
  {
    forall c: nat | c < DAILY_WIDTH { RequestColumn(t, input, today, |input.calls|, q, c); }
    hide SumWhere, Logged, OfRequests;
  }

  // ---------- runs ----------

  /**
   * Whatever is logged and whichever tokens are deleted, the usage of a key over any dates is the
   * number of its calls.
   */
  lemma {:induction false} UsageIsLog(ops: seq<Operation>, key: int, q: int -> bool)
    requires key > 0
    ensures SumWhere(TableAfter(ops), OfKey(key, q), REQUESTS) == CountWhere(LogOf(ops, key), q)
  {
    hide Logged, WithoutToken, OfKey;
    if ops != [] {
      var before, last := ops[..|ops| - 1], ops[|ops| - 1];
      UsageIsLog(before, key, q);
      match last {
        case Request(input, today) =>
          LoggedAdds(TableAfter(before), input, today, |input.calls|, key, q);
          CountJoin(LogOf(before, key), CallsOf(input, key, today, |input.calls|), q);
        case DeleteToken(id) =>
          DeletionConserves(TableAfter(before), id, DAILY_WIDTH, OfKey(key, q), REQUESTS);
          assert LogOf(ops, key) == LogOf(before, key);
      }
    }
  }

  lemma {:induction false} CountsAgree(monthOf: int -> int, log: seq<int>, kind: QuotaRuns.Kind, p: int,
                                       only: int -> bool, from: int -> bool)
    requires forall d :: only(d) <==> QuotaRuns.PeriodOf(monthOf, kind, d) == p
    requires forall d :: from(d) <==> QuotaRuns.PeriodOf(monthOf, kind, d) >= p
    ensures CountWhere(log, only) == QuotaRuns.CountIn(monthOf, log, kind, p)
    ensures CountWhere(log, from) == QuotaRuns.CountFrom(monthOf, log, kind, p)
  {
    if log != [] { CountsAgree(monthOf, log[..|log| - 1], kind, p, only, from); }
  }

  lemma {:induction false} CountAll(log: seq<int>, q: int -> bool)
    requires forall d :: q(d)
    ensures CountWhere(log, q) == |log|
  {
    if log != [] { CountAll(log[..|log| - 1], q); }
  }

  /**
   * The three sums of a listing of any date are the snapshot of the quota protocol whose log is the log of
   * the key: each logged call is one log step of the protocol and a deleted token is none.
   */
  lemma ListingIsSnapshot(w: QuotaRuns.World, ops: seq<Operation>, key: int, day: int, firstOfMonth: int,
                          today: int -> bool, month: int -> bool, ever: int -> bool)
    requires key > 0 && w.log == LogOf(ops, key)
    requires forall d :: today(d) <==> d == day
    requires forall d :: month(d) <==> d >= firstOfMonth
    requires forall d :: ever(d)
    requires forall d :: d >= firstOfMonth <==> w.monthOf(d) >= w.monthOf(day)
    ensures SumWhere(TableAfter(ops), OfKey(key, today), REQUESTS) == QuotaRuns.TakeSnapshot(w, day).dayUsed
    ensures SumWhere(TableAfter(ops), OfKey(key, month), REQUESTS) == QuotaRuns.TakeSnapshot(w, day).monthUsed
    ensures SumWhere(TableAfter(ops), OfKey(key, ever), REQUESTS) == QuotaRuns.TakeSnapshot(w, day).total
  {
    UsageIsLog(ops, key, today);
    UsageIsLog(ops, key, month);
    UsageIsLog(ops, key, ever);
    CountsAgree(w.monthOf, w.log, QuotaRuns.Daily, day, today, d => d >= day);
    var m := w.monthOf(day);
    CountsAgree(w.monthOf, w.log, QuotaRuns.Monthly, m, d => w.monthOf(d) == m, month);
    CountAll(w.log, ever);
  }
}
