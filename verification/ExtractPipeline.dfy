/** An Extract request from end to end: executions are merged, levelled and shrunk to the bound. */
module ExtractPipeline {
  import opened Wrappers
  import opened Utf8
  import opened ExtractTypes
  import opened ExtractMerge
  import opened ExtractNormalize
  import opened ExtractRoutes
  import opened WaterLevel
  import opened ExtractResponse
  import ProviderCalls
  import ExtractBatches

  /** Normalised results carry a requested URL and short names. */
  ghost predicate WellBehaved(results: seq<Result>, requested: seq<Str>) {
    forall r :: r in results ==> r.url in requested && ReasonableResult(r)
  }

  /** The merged contents, cut at the water level when they are over the budget. */
  ghost predicate Levelled(levelled: seq<Result>, merged: seq<Result>) {
    if TotalContent(merged) <= MAX_RESPONSE_CONTENT_BYTES then levelled == merged
    else exists level: nat :: IsWaterLevel(merged, level) && levelled == Capped(merged, level)
  }

  lemma {:induction false} FirstNonEmptyFrom<T>(values: seq<T>, empty: T)
    ensures FirstNonEmpty(values, empty) == empty || FirstNonEmpty(values, empty) in values
  {
    if values != [] { FirstNonEmptyFrom(values[1..], empty); }
  }

  lemma MergedIsReasonable(hits: seq<Result>, requested: seq<Str>)
    requires hits != [] && WellBehaved(hits, requested) && forall u :: u in requested ==> |u| <= MAX_URL_BYTES
    ensures ReasonableResult(MergedHits(hits)) && MergedHits(hits).url in requested
  {
    EarliestFieldWins(hits);
    FirstNonEmptyFrom(Column(hits, Format), []);
    hide MergedHits, FirstNonEmpty;
    assert hits[0] in hits;
    forall f | f in Column(hits, Format) ensures |f| <= 64 {
      var i :| 0 <= i < |hits| && Column(hits, Format)[i] == f;
      assert f == Format(hits[i]) && hits[i] in hits;
    }
  }

  ghost predicate ShortNames(r: Result) { |r.provider| <= 64 && |r.format| <= 64 }

  /** What a kept result was made from: an answer to a call for some of the requested URLs, with short names. */
  ghost predicate FromAnswer(x: Result, requested: seq<Str>, trim: Str -> Str, key: UrlKey, r: Result, provider: Str,
                             req: Request) {
    && Judged(r, provider, req, trim, key) == Kept(x)
    && (forall u :: u in req.urls ==> u in requested)
    && |provider| <= 64 && |req.format| <= 64 && ShortNames(r)
  }

  ghost predicate AllFromAnswers(results: seq<Result>, requested: seq<Str>, trim: Str -> Str, key: UrlKey) {
    forall x :: x in results ==> exists r, provider, req :: FromAnswer(x, requested, trim, key, r, provider, req)
  }

  /** The normaliser makes results well-behaved. */
  lemma AnswersAreWellBehaved(results: seq<Result>, requested: seq<Str>, trim: Str -> Str, key: UrlKey)
    requires AllFromAnswers(results, requested, trim, key) && trim([]) == []
    requires forall u :: u in requested ==> |u| <= MAX_URL_BYTES
    ensures WellBehaved(results, requested)
  {
    hide Judged;
    forall x | x in results ensures x.url in requested && ReasonableResult(x) {
      var r, provider, req :| FromAnswer(x, requested, trim, key, r, provider, req);
      KeptIsRequested(r, provider, req, trim, key);
      KeptNames(r, provider, req, trim, key);
    }
  }

  lemma KeptNames(r: Result, provider: Str, req: Request, trim: Str -> Str, key: UrlKey)
    requires Judged(r, provider, req, trim, key).Kept?
    ensures var x := Judged(r, provider, req, trim, key).result;
      && x.provider == (if r.provider == [] then provider else r.provider)
      && x.format == (if r.format == [] then req.format else r.format)
  {
    hide Truncated, BoundedImages, BoundedRaw, Cuts;
  }

  // ---------- the calls make such results ----------

  type Run = ProviderCalls.Execution<Result, Failure>
  type Caller = ExtractBatches.Caller<Str, Result, Failure>

  /** The caller normalises every answer for the URLs of its batch. */
  ghost predicate Normalises(c: Caller, provider: Str, req: Request, trim: Str -> Str, key: UrlKey) {
    forall results, failures, urls ::
      c.keep(results, failures, urls) == NormalizedAnswer(results, failures, provider, req.(urls := urls), trim, key)
  }

  lemma VerdictOf(results: seq<Result>, failures: seq<Failure>, provider: Str, req: Request, trim: Str -> Str,
                  key: UrlKey, x: Result)
    requires x in NormalizedAnswer(results, failures, provider, req, trim, key).0
    ensures exists r :: r in results && Judged(r, provider, req, trim, key) == Kept(x)
  {
    var considered := if |results| > MAX_PROVIDER_ITEMS then results[..MAX_PROVIDER_ITEMS] else results;
    var verdicts := Verdicts(considered, provider, req, trim, key);
    KeptMembers(verdicts);
    hide Judged, KeptOf;
    var i :| 0 <= i < |verdicts| && verdicts[i] == Kept(x);
    assert considered[i] in results && verdicts[i] == Judged(considered[i], provider, req, trim, key);
  }

  /** Every result of a provider's calls is made from an answer to one of the batches. */
  lemma {:induction false} RunsAnswer(c: Caller, trace: seq<ProviderCalls.Event<seq<Str>>>, batches: seq<seq<Str>>,
                                      runs: seq<Run>,
                                      provider: Str, req: Request, trim: Str -> Str, key: UrlKey, x: Result)
    requires Normalises(c, provider, req, trim, key) && ExtractBatches.Ran(c, trace, batches, runs)
    requires x in ExtractBatches.Aggregate(runs).results
    ensures exists r, b ::
      0 <= b < |batches| && Judged(r, provider, req.(urls := batches[b]), trim, key) == Kept(x) && AnswerOf(c, r)
  {
    hide Judged, NormalizedAnswer, ProviderCalls.Faithful, ProviderCalls.AllEvents, ExtractBatches.TraceOf,
      ExtractBatches.Renumbered;
    var n := |runs| - 1;
    if x in ExtractBatches.Aggregate(runs[..n]).results {
      RunsAnswer(c, trace, batches, runs[..n], provider, req, trim, key, x);
    } else {
      assert x in runs[n].results;
      var s := ExtractBatches.SettingFor(c, trace + ExtractBatches.TraceOf(batches, runs[..n]), batches[n]);
      var results, failures := RunKeeps(s, runs[n]);
      assert forall r :: r in results ==> AnswerOf(c, r);
      VerdictOf(results, failures, provider, req.(urls := batches[n]), trim, key, x);
    }
  }

  /** The provider answers with this result, at some time, to some request. */
  ghost predicate AnswerOf(c: Caller, r: Result) {
    exists trace, urls, k ::
      c.world.upstream(trace, urls, k).Answer? && r in c.world.upstream(trace, urls, k).results
  }

  /** A call that has results has those of one answer. */
  lemma RunKeeps(s: ProviderCalls.Setting<seq<Str>, Result, Failure>, run: Run)
    returns (results: seq<Result>, failures: seq<Failure>)
    requires ProviderCalls.Concludes(s, run) && run.results != []
    ensures run.results == s.keep(results, failures, s.request).0
    ensures exists trace, k ::
      s.world.upstream(trace, s.request, k) == ProviderCalls.Answer(results, failures)
  {
    var before := run.attempts[..|run.attempts| - 1];
    var k := run.attempts[|run.attempts| - 1].outcome.key;
    var reply := s.world.upstream(s.trace + ProviderCalls.AllEvents(before, s.request) + [ProviderCalls.Granted(k)],
                                  s.request, k);
    results, failures := reply.results, reply.failed;
  }

  lemma {:induction false} BatchWithin(batches: seq<seq<Str>>, b: nat, u: Str)
    requires b < |batches| && u in batches[b]
    ensures u in ExtractBatches.Concat(batches)
  {
    if b > 0 { BatchWithin(batches[1..], b - 1, u); }
  }

  /** So whatever a provider is asked for, in batches or not, its results carry URLs that it was asked for. */
  lemma CallsCarryAskedUrls(c: Caller, trace: seq<ProviderCalls.Event<seq<Str>>>, urls: seq<Str>, sizer: Option<int>,
                            runs: seq<Run>,
                            provider: Str, req: Request, trim: Str -> Str, key: UrlKey, x: Result)
    requires Normalises(c, provider, req, trim, key) && trim([]) == []
    requires ExtractBatches.Ran(c, trace, ExtractBatches.Split(urls, sizer), runs)
    requires x in ExtractBatches.Aggregate(runs).results
    ensures x.url in urls
    ensures exists r, asked ::
      (forall u :: u in asked ==> u in urls) && Judged(r, provider, req.(urls := asked), trim, key) == Kept(x)
      && AnswerOf(c, r)
  {
    var batches := ExtractBatches.Split(urls, sizer);
    hide Judged, ExtractBatches.Ran, ExtractBatches.Aggregate, Normalises, AnswerOf;
    RunsAnswer(c, trace, batches, runs, provider, req, trim, key, x);
    var r, b :|
      0 <= b < |batches| && Judged(r, provider, req.(urls := batches[b]), trim, key) == Kept(x) && AnswerOf(c, r);
    KeptIsRequested(r, provider, req.(urls := batches[b]), trim, key);
    SplitIsAll(urls, sizer);
    forall u | u in batches[b] ensures u in urls { BatchWithin(batches, b, u); }
  }

  lemma SplitIsAll(urls: seq<Str>, sizer: Option<int>)
    ensures ExtractBatches.Concat(ExtractBatches.Split(urls, sizer)) == urls
  {
    if sizer.Some? && 0 < sizer.value < |urls| {
      ExtractBatches.BatchesPartition(urls, sizer.value);
    } else {
      assert [urls][1..] == [];
    }
  }

  // ---------- the routes consist of such calls ----------

  /** The provider's results, if any, are those of calls for batches of requested URLs. */
  ghost predicate Executed(e: Execution, requested: seq<Str>, req: Request, trim: Str -> Str, key: UrlKey) {
    e.results == [] || exists c, asked, trace, sizer, runs ::
      && (forall u :: u in asked ==> u in requested)
      && ExecutedBy(e, c, asked, trace, sizer, runs, req, trim, key)
  }

  /** An execution as the calls for its batches made it, by a caller whose provider uses short names. */
  ghost predicate ExecutedBy(e: Execution, c: Caller, asked: seq<Str>, trace: seq<ProviderCalls.Event<seq<Str>>>,
                             sizer: Option<int>, runs: seq<Run>, req: Request, trim: Str -> Str, key: UrlKey) {
    && Normalises(c, e.provider, req, trim, key) && |e.provider| <= 64
    && (forall r :: AnswerOf(c, r) ==> ShortNames(r))
    && ExtractBatches.Ran(c, trace, ExtractBatches.Split(asked, sizer), runs)
    && var aggregate := ExtractBatches.Aggregate(runs);
    e.results == aggregate.results && e.failedResults == aggregate.failed && (e.err.Some? <==> aggregate.error.Some?)
  }

  ghost predicate AllExecuted(executions: seq<Execution>, requested: seq<Str>, req: Request, trim: Str -> Str,
                              key: UrlKey) {
    forall e :: e in executions ==> Executed(e, requested, req, trim, key)
  }

  lemma ExecutedAnswers(e: Execution, requested: seq<Str>, req: Request, trim: Str -> Str, key: UrlKey, x: Result)
    requires Executed(e, requested, req, trim, key) && x in e.results && |req.format| <= 64 && trim([]) == []
    ensures exists r, provider, rq :: FromAnswer(x, requested, trim, key, r, provider, rq)
  {
    hide Judged, AnswerOf, ShortNames, ExtractBatches.Ran, ExtractBatches.Aggregate, Normalises;
    var c, asked, trace, sizer, runs :|
      (forall u :: u in asked ==> u in requested) && ExecutedBy(e, c, asked, trace, sizer, runs, req, trim, key);
    CallsCarryAskedUrls(c, trace, asked, sizer, runs, e.provider, req, trim, key, x);
    var r, few :| (forall u :: u in few ==> u in asked)
      && Judged(r, e.provider, req.(urls := few), trim, key) == Kept(x) && AnswerOf(c, r);
    assert FromAnswer(x, requested, trim, key, r, e.provider, req.(urls := few));
  }

  lemma {:induction false} AllExecutedAnswers(executions: seq<Execution>, requested: seq<Str>, req: Request,
                                              trim: Str -> Str, key: UrlKey)
    requires AllExecuted(executions, requested, req, trim, key) && |req.format| <= 64 && trim([]) == []
    ensures AllFromAnswers(AllResults(executions), requested, trim, key)
  {
    hide Executed, FromAnswer;
    if executions != [] {
      var before, e := executions[..|executions| - 1], executions[|executions| - 1];
      AllExecutedAnswers(before, requested, req, trim, key);
      forall x | x in e.results ensures exists r, provider, rq :: FromAnswer(x, requested, trim, key, r, provider, rq) {
        ExecutedAnswers(e, requested, req, trim, key, x);
      }
    }
  }

  /** Every provider that a route may ask does what it does through such calls. */
  ghost predicate CallsProviders(call: Call, providers: seq<Str>, requested: seq<Str>, req: Request, trim: Str -> Str,
                                 key: UrlKey) {
    forall p, asked {:trigger call(p, asked)} :: p in providers && (forall u :: u in asked ==> u in requested) ==>
      Executed(call(p, asked), requested, req, trim, key)
  }

  /** Fallback asks for requested URLs only, and so does parallel. */
  lemma RoutesAreExecuted(call: Call, providers: seq<Str>, requested: seq<Str>, req: Request, trim: Str -> Str,
                          key: UrlKey)
    requires CallsProviders(call, providers, requested, req, trim, key)
    ensures AllExecuted(InParallel(call, providers, requested), requested, req, trim, key)
    ensures AllExecuted(InFallback(call, providers, requested, key), requested, req, trim, key)
  {
    hide Executed;
    FallbackSendsUnresolved(call, providers, requested, key);
    var es := InFallback(call, providers, requested, key);
    hide InFallback;
    forall e | e in es ensures Executed(e, requested, req, trim, key) {
      var i :| 0 <= i < |es| && es[i] == e;
      UnresolvedMembers(requested, AllResults(es[..i]), key);
    }
  }

  // ---------- the merge, the budget and the bound keep them so ----------

  /** For each resolved URL the first published date found for it, if any, can be encoded. */
  ghost predicate DatesEncode(requested: seq<Str>, all: seq<Result>, key: UrlKey) {
    forall u :: u in requested && Resolved(all, key, key(u)) ==>
      var date := FirstNonEmpty(Column(Hits(all, key, key(u)), PublishedAt), None);
      date.Some? ==> DateEncodes(date.value)
  }

  lemma MergedDate(all: seq<Result>, key: UrlKey, k: Str)
    ensures ResultFor(all, key, k).publishedAt == FirstNonEmpty(Column(Hits(all, key, k), PublishedAt), None)
  {
    if Hits(all, key, k) != [] { EarliestFieldWins(Hits(all, key, k)); }
  }

  lemma ExpectedDates(requested: seq<Str>, all: seq<Result>, key: UrlKey)
    ensures AllDated(ExpectedResults(requested, all, key)) <==>
      forall u :: u in requested && Resolved(all, key, key(u)) ==> Dated(ResultFor(all, key, key(u)))
  {
    var p, results := Positions(requested, all, key, true), ExpectedResults(requested, all, key);
    PositionsPartition(requested, all, key);
    hide ResultFor, Dated, Positions, Resolved;
    if AllDated(results) {
      forall u | u in requested && Resolved(all, key, key(u)) ensures Dated(ResultFor(all, key, key(u))) {
        var i :| 0 <= i < |requested| && requested[i] == u;
        var a :| 0 <= a < |p| && p[a] == i;
        assert Dated(results[a]);
      }
    } else {
      var a :| 0 <= a < |p| && !Dated(results[a]);
      assert p[a] in p && requested[p[a]] in requested;
    }
  }

  lemma MergedDates(requested: seq<Str>, all: seq<Result>, key: UrlKey)
    ensures AllDated(ExpectedResults(requested, all, key)) <==> DatesEncode(requested, all, key)
  {
    ExpectedDates(requested, all, key);
    forall u { MergedDate(all, key, key(u)); }
    hide ResultFor, FirstNonEmpty, DateEncodes, Hits, Column, AllDated, ExpectedResults, Resolved;
  }

  lemma LevelledDates(levelled: seq<Result>, merged: seq<Result>)
    requires Levelled(levelled, merged)
    ensures AllDated(levelled) <==> AllDated(merged)
  {
    if TotalContent(merged) > MAX_RESPONSE_CONTENT_BYTES {
      var level: nat :| IsWaterLevel(merged, level) && levelled == Capped(merged, level);
      assert forall i :: 0 <= i < |merged| ==> (Dated(levelled[i]) <==> Dated(merged[i]));
    }
  }

  lemma ExpectedIsReasonable(requested: seq<Str>, all: seq<Result>, key: UrlKey)
    requires WellBehaved(all, requested) && forall u :: u in requested ==> |u| <= MAX_URL_BYTES
    ensures forall r :: r in ExpectedResults(requested, all, key) ==> ReasonableResult(r) && r.url in requested
  {
    hide ReasonableResult, MergedHits;
    PositionsPartition(requested, all, key);
    var p, results := Positions(requested, all, key, true), ExpectedResults(requested, all, key);
    forall r | r in results ensures ReasonableResult(r) && r.url in requested {
      var a :| 0 <= a < |p| && results[a] == r;
      assert p[a] in p;
      var hits := Hits(all, key, key(requested[p[a]]));
      HitsMatch(all, key, key(requested[p[a]]));
      MergedIsReasonable(hits, requested);
    }
  }

  lemma LevelledIsReasonable(levelled: seq<Result>, merged: seq<Result>)
    requires Levelled(levelled, merged) && forall r :: r in merged ==> ReasonableResult(r)
    ensures |levelled| == |merged| && TotalContent(levelled) <= MAX_RESPONSE_CONTENT_BYTES
    ensures forall i :: 0 <= i < |merged| ==> ReasonableResult(levelled[i]) && levelled[i].url == merged[i].url
  {
    forall i | 0 <= i < |merged| ensures ReasonableResult(merged[i]) { assert merged[i] in merged; }
    if TotalContent(merged) > MAX_RESPONSE_CONTENT_BYTES {
      var level: nat :| IsWaterLevel(merged, level) && levelled == Capped(merged, level);
      WaterLevelIsTight(merged, level);
      CappedIsReasonable(merged, level);
    }
    hide Capped, IsWaterLevel, TotalContent, ReasonableResult;
  }

  lemma CappedIsReasonable(merged: seq<Result>, level: nat)
    requires forall i :: 0 <= i < |merged| ==> ReasonableResult(merged[i])
    ensures |Capped(merged, level)| == |merged|
    ensures forall i :: 0 <= i < |merged| ==>
      ReasonableResult(Capped(merged, level)[i]) && Capped(merged, level)[i].url == merged[i].url
  {
    hide Truncated;
  }

  lemma ShortKept(url: Str)
    requires |url| <= MAX_URL_BYTES
    ensures Truncated(url, MAX_URL_BYTES) == url && Truncated(Truncated(url, MAX_URL_BYTES), MAX_URL_BYTES) == url
  {
  }

  /**
   * From end to end: for admitted URLs and providers with short names, the response fits its bound
   * exactly if the first published date found for each resolved URL can be encoded; in any case its results and
   * failures partition the requested URLs in request order, each carrying the URL exactly as requested.
   */
  lemma ExtractEndToEnd(requested: seq<Str>, executions: seq<Execution>, key: UrlKey, levelled: seq<Result>,
                        providers: seq<Summary>, usage: seq<Usage>, meta: Meta, enc: Encoder, req: Request,
                        trim: Str -> Str)
    requires DistinctUrls(requested, key) && |requested| <= MAX_URLS
      && forall u :: u in requested ==> |u| <= MAX_URL_BYTES
    requires AllExecuted(executions, requested, req, trim, key) && |req.format| <= 64 && trim([]) == []
    requires Levelled(levelled, ExpectedResults(requested, AllResults(executions), key))
    requires forall s: Str :: enc(s) <= 6 * |s| + 2
    requires |providers| <= MAX_PROVIDERS && meta.rest <= 64 * 1024
    requires forall i :: 0 <= i < |providers| ==> |providers[i].status| <= 64 && providers[i].figures <= 64
    ensures var all := AllResults(executions);
      var w := Shrunk(View(levelled, ExpectedFailures(requested, executions, key), providers, usage, meta), enc);
      var r, f := Positions(requested, all, key, true), Positions(requested, all, key, false);
      && (Fits(w, enc) <==> DatesEncode(requested, all, key))
      && (!Fits(w, enc) ==> forall x :: x in w.results ==> x.content == [])
      && |w.results| == |r| && |w.failed| == |f| && |r| + |f| == |requested|
      && (forall i :: 0 <= i < |requested| ==> (i in r <==> i !in f))
      && (forall a :: 0 <= a < |r| ==> w.results[a].url == requested[r[a]])
      && (forall a :: 0 <= a < |f| ==> w.failed[a].url == requested[f[a]])
  {
    var all := AllResults(executions);
    var merged, failed := ExpectedResults(requested, all, key), ExpectedFailures(requested, executions, key);
    var v := View(levelled, failed, providers, usage, meta);
    hide AllExecuted, AllFromAnswers, WellBehaved, DatesEncode, AllDated, Shrunk, Fits, Levelled,
      Positions, ExpectedResults, ExpectedFailures, Resolved, ReasonableResult, AllResults, Truncated;
    MergePartition(requested, executions, key);
    AllExecutedAnswers(executions, requested, req, trim, key);
    AnswersAreWellBehaved(all, requested, trim, key);
    MergedDates(requested, all, key);
    LevelledDates(levelled, merged);
    ExpectedIsReasonable(requested, all, key);
    LevelledIsReasonable(levelled, merged);
    ResponseFitsExactly(v, enc);
    if !AllDated(levelled) { UndatedLosesContent(v, enc); }
    ShrunkKeepsResults(v, enc);
    ShrunkKeepsFailures(v, enc);
    var w := Shrunk(v, enc);
    var limit :| AllShrunk(w.results, v.results, limit);
    forall a | 0 <= a < |merged| ensures w.results[a].url == requested[Positions(requested, all, key, true)[a]] {
      assert merged[a] in merged;
      SameUrl(requested, key, merged[a].url, requested[Positions(requested, all, key, true)[a]]);
    }
    forall a | 0 <= a < |failed| ensures w.failed[a].url == requested[Positions(requested, all, key, false)[a]] {
      var url := requested[Positions(requested, all, key, false)[a]];
      assert url in requested;
      ShortKept(url);
    }
  }

  lemma SameUrl(requested: seq<Str>, key: UrlKey, u: Str, v: Str)
    requires DistinctUrls(requested, key) && u in requested && v in requested && key(u) == key(v)
    ensures u == v
  {
  }
}
