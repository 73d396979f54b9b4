/** Calling one provider for Extract: long URL lists go out in batches, until one of them fails. */
module ExtractBatches {
  import opened Wrappers
  import opened ProviderCalls

  /** Consecutive slices of `size` URLs, the last one shorter. */
  function Batches<U>(urls: seq<U>, size: nat): seq<seq<U>>
    requires size > 0
  {
    if |urls| <= size then (if urls == [] then [] else [urls]) else [urls[..size]] + Batches(urls[size..], size)
  }

  function Concat<T>(parts: seq<seq<T>>): seq<T> {
    if parts == [] then [] else parts[0] + Concat(parts[1..])
  }

  /** Every URL is in exactly one batch, in order, and no batch is empty or too long. */
  lemma {:induction false} BatchesPartition<U>(urls: seq<U>, size: nat)
    requires size > 0
    ensures Concat(Batches(urls, size)) == urls
    ensures forall i :: 0 <= i < |Batches(urls, size)| ==>
      1 <= |Batches(urls, size)[i]| <= size && (i + 1 < |Batches(urls, size)| ==> |Batches(urls, size)[i]| == size)
    ensures urls != [] ==> Batches(urls, size) != []
  {
    if |urls| <= size {
      if urls != [] { assert Concat([urls]) == urls + Concat<U>([]); }
    } else {
      BatchesPartition(urls[size..], size);
      assert Batches(urls, size)[1..] == Batches(urls[size..], size);
    }
  }

  /** What the calls for the batches left in the trace. */
  function TraceOf<U, R, F>(batches: seq<seq<U>>, runs: seq<Execution<R, F>>): seq<Event<seq<U>>>
    requires |runs| <= |batches|
  {
    if runs == [] then []
    else
      var n := |runs| - 1;
      TraceOf(batches, runs[..n]) + AllEvents(runs[n].attempts, batches[n])
  }

  /** The settings that all batches share, but for the trace they start from and the URLs they ask for. */
  datatype Caller<!U, !R, !F> = Caller(
    world: World<seq<U>, R, F>, keep: Normaliser<seq<U>, R, F>, configured: Option<int>, allowed: map<string, bool>)

  ghost function SettingFor<U, R, F>(c: Caller<U, R, F>, trace: seq<Event<seq<U>>>,
                                     urls: seq<U>): Setting<seq<U>, R, F> {
    Setting(c.world, trace, urls, c.keep, Retries(c.configured), c.allowed)
  }

  /** The batches were called one after the other, and only the last of these calls may have failed. */
  ghost predicate Ran<U, R, F>(c: Caller<U, R, F>, trace: seq<Event<seq<U>>>, batches: seq<seq<U>>,
                               runs: seq<Execution<R, F>>) {
    runs == [] || (
      && |runs| <= |batches|
      && var n := |runs| - 1;
      && Ran(c, trace, batches, runs[..n])
      && (n > 0 ==> runs[n - 1].error == None)
      && var s := SettingFor(c, trace + TraceOf(batches, runs[..n]), batches[n]);
      Faithful(s, runs[n].attempts) && Concludes(s, runs[n]))
  }

  /** Attempts numbered on from `from`, and otherwise as they are. */
  function Renumbered(attempts: seq<Attempt>, from: nat): seq<Attempt> {
    seq(|attempts|, i requires 0 <= i < |attempts| => attempts[i].(index := from + i + 1))
  }

  /** The execution that the calls for the batches amount to. */
  function Aggregate<R, F>(runs: seq<Execution<R, F>>): Execution<R, F> {
    if runs == [] then Execution(None, None, [], [], [])
    else
      var before, run := Aggregate(runs[..|runs| - 1]), runs[|runs| - 1];
      Execution(if before.error == None then run.error else before.error, run.key,
                before.results + run.results, before.failed + run.failed,
                before.attempts + Renumbered(run.attempts, |before.attempts|))
  }

  lemma AppendRun<U, R, F>(c: Caller<U, R, F>, trace: seq<Event<seq<U>>>, batches: seq<seq<U>>,
                           runs: seq<Execution<R, F>>, run: Execution<R, F>)
    requires Ran(c, trace, batches, runs) && |runs| < |batches| && (runs != [] ==> runs[|runs| - 1].error == None)
    requires var s := SettingFor(c, trace + TraceOf(batches, runs), batches[|runs|]);
      Faithful(s, run.attempts) && Concludes(s, run)
    ensures Ran(c, trace, batches, runs + [run])
    ensures TraceOf(batches, runs + [run]) == TraceOf(batches, runs) + AllEvents(run.attempts, batches[|runs|])
    ensures Aggregate(runs + [run]) == (
      var before := Aggregate(runs);
      Execution(if before.error == None then run.error else before.error, run.key,
                before.results + run.results, before.failed + run.failed,
                before.attempts + Renumbered(run.attempts, |before.attempts|)))
  {
    hide Faithful, Concludes;
    assert (runs + [run])[..|runs + [run]| - 1] == runs;
  }

  lemma NothingRan<U, R, F>(c: Caller<U, R, F>, trace: seq<Event<seq<U>>>, batches: seq<seq<U>>)
    ensures Ran(c, trace, batches, []) && trace + TraceOf<U, R, F>(batches, []) == trace
    ensures Aggregate<R, F>([]) == Execution(None, None, [], [], [])
  {
  }

  /** A single call needs no renumbering. */
  lemma SingleRun<U, R, F>(c: Caller<U, R, F>, trace: seq<Event<seq<U>>>, urls: seq<U>, run: Execution<R, F>)
    requires var s := SettingFor(c, trace, urls); Faithful(s, run.attempts) && Concludes(s, run)
    ensures Ran(c, trace, [urls], [run]) && Aggregate([run]) == run
      && TraceOf([urls], [run]) == AllEvents(run.attempts, urls)
  {
    var s := SettingFor(c, trace, urls);
    AttemptsInOrder(s, run.attempts);
    hide Faithful, Concludes;
    assert trace + TraceOf<U, R, F>([urls], []) == trace;
    assert [run][..0] == [];
    assert Renumbered(run.attempts, 0) == run.attempts;
  }

  /** The batches that a provider is asked for: one, unless it limits their size and there are more URLs. */
  function Split<U>(urls: seq<U>, sizer: Option<int>): (batches: seq<seq<U>>)
    ensures batches != []
  {
    if sizer.Some? && 0 < sizer.value < |urls| then BatchesPartition(urls, sizer.value);
      Batches(urls, sizer.value) else [urls]
  }

  /** The batches of the URLs from an offset on. */
  function BatchesFrom<U>(urls: seq<U>, offset: nat, size: nat): seq<seq<U>>
    requires size > 0
  {
    if offset < |urls| then Batches(urls[offset..], size) else []
  }

  lemma BatchesStart<U>(urls: seq<U>, size: nat)
    requires size > 0
    ensures BatchesFrom(urls, 0, size) == Batches(urls, size)
  {
    assert urls[0..] == urls;
  }

  lemma NextBatch<U>(urls: seq<U>, offset: nat, end: nat, size: nat)
    requires size > 0 && offset < |urls| && end == if offset + size > |urls| then |urls| else offset + size
    ensures BatchesFrom(urls, offset, size) == [urls[offset..end]] + BatchesFrom(urls, offset + size, size)
  {
    var rest := urls[offset..];
    if |rest| > size {
      assert rest[size..] == urls[offset + size..] && rest[..size] == urls[offset..end];
    } else {
      assert rest == urls[offset..end] && Batches(rest, size) == [rest];
    }
  }

  lemma Joined<T>(a: seq<T>, x: T, b: seq<T>)
    ensures a + ([x] + b) == (a + [x]) + b
  {
  }

  method SplitURLs<U>(urls: seq<U>, size: nat) returns (batches: seq<seq<U>>)
    requires size > 0
    ensures batches == Batches(urls, size)
  {
    batches := [];
    var offset: nat := 0;
    BatchesStart(urls, size);
    while offset < |urls|
      invariant Batches(urls, size) == batches + BatchesFrom(urls, offset, size)
    {
      var end := offset + size;
      if end > |urls| {
        end := |urls|;
      }
      NextBatch(urls, offset, end, size);
      Joined(batches, urls[offset..end], BatchesFrom(urls, offset + size, size));
      batches := batches + [urls[offset..end]];
      offset := offset + size;
    }
    assert BatchesFrom(urls, offset, size) == [];
    hide Batches, BatchesFrom;
  }

  method CallBatches<U, R, F>(backend: Backend<seq<U>, R, F>, batches: seq<seq<U>>, keep: Normaliser<seq<U>, R, F>,
                              configured: Option<int>, allowed: map<string, bool>)
    returns (execution: Execution<R, F>, ghost runs: seq<Execution<R, F>>)
    requires batches != []
    modifies backend
    ensures 1 <= |runs| <= |batches|
      && Ran(Caller(backend.world, keep, configured, allowed), old(backend.trace), batches, runs)
    ensures backend.trace == old(backend.trace) + TraceOf(batches, runs) && execution == Aggregate(runs)
    ensures |runs| < |batches| ==> runs[|runs| - 1].error.Some?
  {
    hide Faithful, Concludes, Ran, Aggregate, TraceOf, Renumbered, AllEvents;
    ghost var c, trace := Caller(backend.world, keep, configured, allowed), backend.trace;
    runs := [];
    NothingRan(c, trace, batches);
    execution := Execution(None, None, [], [], []);
    var i := 0;
    while i < |batches|
      invariant |runs| == i <= |batches|
      invariant Ran(c, trace, batches, runs) && backend.trace == trace + TraceOf(batches, runs)
      invariant execution == Aggregate(runs)
      invariant execution.error == None && (i > 0 ==> runs[i - 1].error == None)
    {
      ghost var before := backend.trace;
      var batch := CallExtractAdapter(backend, batches[i], keep, configured, allowed);
      assert SettingFor(c, before, batches[i])
        == Setting(backend.world, before, batches[i], keep, Retries(configured), allowed);
      AppendRun(c, trace, batches, runs, batch);
      var attempts := AppendAttempts(execution.attempts, batch.attempts);
      execution := Execution(if batch.error.Some? && execution.error.None? then batch.error
                             else execution.error, batch.key,
                             execution.results + batch.results, execution.failed + batch.failed, attempts);
      runs := runs + [batch];
      i := i + 1;
      if batch.error.Some? {
        break;
      }
    }
  }

  method CallExtractProvider<U, R, F>(backend: Backend<seq<U>, R, F>, offered: bool, urls: seq<U>, sizer: Option<int>,
                                      keep: Normaliser<seq<U>, R, F>, configured: Option<int>,
                                      allowed: map<string, bool>)
    returns (execution: Execution<R, F>, ghost runs: seq<Execution<R, F>>)
    modifies backend
    ensures !offered ==> execution == Unavailable() && backend.trace == old(backend.trace)
    ensures var batches := Split(urls, sizer); offered ==>
      && 1 <= |runs| <= |batches|
        && Ran(Caller(backend.world, keep, configured, allowed), old(backend.trace), batches, runs)
      && backend.trace == old(backend.trace) + TraceOf(batches, runs)
      && execution == Aggregate(runs)
      && (|runs| < |batches| ==> runs[|runs| - 1].error.Some?)
  {
    runs := [];
    if !offered {
      return Unavailable(), [];
    }
    ghost var c, trace := Caller(backend.world, keep, configured, allowed), backend.trace;
    hide Faithful, Concludes, Ran, Aggregate, TraceOf, Batches, Renumbered, AllEvents;
    var batchSize: int := |urls|;
    if sizer.Some? && sizer.value > 0 {
      batchSize := sizer.value;
    }
    if batchSize <= 0 || |urls| <= batchSize {
      execution := CallExtractAdapter(backend, urls, keep, configured, allowed);
      SingleRun(c, trace, urls, execution);
      return execution, [execution];
    }
    var batches := SplitURLs(urls, batchSize);
    BatchesPartition(urls, batchSize);
    execution, runs := CallBatches(backend, batches, keep, configured, allowed);
  }

  method AppendAttempts(attempts: seq<Attempt>, more: seq<Attempt>) returns (all: seq<Attempt>)
    ensures all == attempts + Renumbered(more, |attempts|)
  {
    all := attempts;
    for i := 0 to |more|
      invariant all == attempts + Renumbered(more[..i], |attempts|)
    {
      all := all + [more[i].(index := |all| + 1)];
      assert Renumbered(more[..i + 1], |attempts|) == Renumbered(more[..i], |attempts|)
        + [more[i].(index := |attempts| + i + 1)];
    }
    assert more[..|more|] == more;
  }

  // ---------- what that means ----------

  /**
   * The attempts of an execution are numbered from one across all batches, its error is that of
   * the last batch, and it succeeds exactly if every batch was called and succeeded.
   */
  lemma {:induction false} AggregateReports<U, R, F>(c: Caller<U, R, F>, trace: seq<Event<seq<U>>>,
                                                     batches: seq<seq<U>>, runs: seq<Execution<R, F>>)
    requires Ran(c, trace, batches, runs) && runs != []
    ensures var e := Aggregate(runs);
      && (forall i :: 0 <= i < |e.attempts| ==> e.attempts[i].index == i + 1)
      && e.error == runs[|runs| - 1].error && e.key == runs[|runs| - 1].key
    ensures forall i :: 0 <= i < |runs| - 1 ==> runs[i].error == None
  {
    hide Faithful, Concludes;
    var n := |runs| - 1;
    if n > 0 { AggregateReports(c, trace, batches, runs[..n]); }
  }

  lemma {:induction false} ConcatLast<T>(parts: seq<seq<T>>)
    requires parts != []
    ensures Concat(parts) == Concat(parts[..|parts| - 1]) + parts[|parts| - 1]
  {
    if |parts| == 1 {
      assert parts[1..] == [] && parts[..0] == [];
    } else {
      ConcatLast(parts[1..]);
      assert parts[1..][..|parts| - 2] == parts[..|parts| - 1][1..];
    }
  }

  function ResultsOf<R, F>(runs: seq<Execution<R, F>>): seq<seq<R>> {
    seq(|runs|, i requires 0 <= i < |runs| => runs[i].results)
  }

  function FailuresOf<R, F>(runs: seq<Execution<R, F>>): seq<seq<F>> {
    seq(|runs|, i requires 0 <= i < |runs| => runs[i].failed)
  }

  function OutcomesOf(attempts: seq<Attempt>): seq<Outcome> {
    seq(|attempts|, i requires 0 <= i < |attempts| => attempts[i].outcome)
  }

  function OutcomesOfAll<R, F>(runs: seq<Execution<R, F>>): seq<seq<Outcome>> {
    seq(|runs|, i requires 0 <= i < |runs| => OutcomesOf(runs[i].attempts))
  }

  /** The results, failures and attempts of an execution are those of its batches, one after the other. */
  lemma {:induction false} AggregateJoins<R, F>(runs: seq<Execution<R, F>>)
    ensures var e := Aggregate(runs);
      && e.results == Concat(ResultsOf(runs)) && e.failed == Concat(FailuresOf(runs))
      && OutcomesOf(e.attempts) == Concat(OutcomesOfAll(runs))
  {
    if runs != [] {
      var n := |runs| - 1;
      AggregateJoins(runs[..n]);
      assert ResultsOf(runs)[..n] == ResultsOf(runs[..n]) && FailuresOf(runs)[..n] == FailuresOf(runs[..n]);
      assert OutcomesOfAll(runs)[..n] == OutcomesOfAll(runs[..n]);
      ConcatLast(ResultsOf(runs));
      ConcatLast(FailuresOf(runs));
      ConcatLast(OutcomesOfAll(runs));
      var before := Aggregate(runs[..n]).attempts;
      hide Concat;
      assert OutcomesOf(before + Renumbered(runs[n].attempts, |before|))
        == OutcomesOf(before) + OutcomesOf(runs[n].attempts);
    }
  }

  /** Whatever happens, no key is out when a provider has been called, and each was given back once. */
  lemma {:induction false} NothingStaysOut<U, R, F>(batches: seq<seq<U>>, runs: seq<Execution<R, F>>, key: Key)
    requires |runs| <= |batches|
    ensures Count(TraceOf(batches, runs), key, true) == Count(TraceOf(batches, runs), key, false)
  {
    if runs != [] {
      var n := |runs| - 1;
      NothingStaysOut(batches, runs[..n], key);
      CallBalances(runs[n].attempts, batches[n], key);
      CountJoin(TraceOf(batches, runs[..n]), AllEvents(runs[n].attempts, batches[n]), key, true);
      CountJoin(TraceOf(batches, runs[..n]), AllEvents(runs[n].attempts, batches[n]), key, false);
    }
  }

  /** How often a key was lent, or given back. */
  function Count<Q>(events: seq<Event<Q>>, key: Key, lent: bool): nat {
    if events == [] then 0
    else
      var last := events[|events| - 1];
      Count(events[..|events| - 1], key, lent) +
        if (if lent then last == Granted(key) else last.Released? && last.key == key) then 1 else 0
  }

  lemma {:induction false} CountJoin<Q>(a: seq<Event<Q>>, b: seq<Event<Q>>, key: Key, lent: bool)
    ensures Count(a + b, key, lent) == Count(a, key, lent) + Count(b, key, lent)
  {
    if b == [] {
      assert a + b == a;
    } else {
      assert (a + b)[..|a + b| - 1] == a + b[..|b| - 1];
      CountJoin(a, b[..|b| - 1], key, lent);
    }
  }

  lemma AttemptBalances<Q>(attempt: Attempt, request: Q, key: Key)
    ensures Count(EventsOf(attempt, request), key, true) == Count(EventsOf(attempt, request), key, false)
  {
    var e := EventsOf(attempt, request);
    if |e| == 3 {
      assert e == [e[0]] + [e[1]] + [e[2]];
      forall lent: bool
        ensures Count(e, key, lent) == Count([e[0]], key, lent) + Count([e[1]], key, lent) + Count([e[2]], key, lent) {
        CountJoin([e[0]] + [e[1]], [e[2]], key, lent);
        CountJoin([e[0]], [e[1]], key, lent);
      }
    }
  }

  lemma {:induction false} CallBalances<Q>(attempts: seq<Attempt>, request: Q, key: Key)
    ensures Count(AllEvents(attempts, request), key, true) == Count(AllEvents(attempts, request), key, false)
  {
    if attempts != [] {
      var before, last := attempts[..|attempts| - 1], attempts[|attempts| - 1];
      CallBalances(before, request, key);
      var e := EventsOf(last, request);
      AttemptBalances(last, request, key);
      CountJoin(AllEvents(before, request), e, key, true);
      CountJoin(AllEvents(before, request), e, key, false);
    }
  }
}
