/**
 * Providers that are called for one URL at a time treat URLs one by one, whatever their keys and
 * retries do; providers that are called for several at once need not.
 */
module ExtractSingles {
  import opened Wrappers
  import opened Utf8
  import opened ExtractTypes
  import opened ExtractMerge
  import opened ExtractNormalize
  import opened ExtractRoutes
  import opened ExtractAgreement
  import opened ExtractPipeline
  import ProviderCalls
  import ExtractBatches

  type Answer = (seq<Result>, seq<Failure>)

  /** When the provider answers to a single URL, then always the same, whatever key is used and what was before. */
  ghost predicate AnswersSame(c: Caller, answer: Str -> Answer) {
    forall trace, u, k :: var reply := c.world.upstream(trace, [u], k);
      reply.Answer? ==> (reply.results, reply.failed) == answer(u)
  }

  ghost function KeptFor(c: Caller, answer: Str -> Answer, u: Str): seq<Result> {
    c.keep(answer(u).0, answer(u).1, [u]).0
  }

  /** What is kept for the URL of a key. */
  ghost function SingleOutcome(c: Caller, answer: Str -> Answer, urls: seq<Str>, key: UrlKey, k: Str): seq<Result> {
    if exists i :: 0 <= i < |urls| && key(urls[i]) == k then KeptFor(c, answer, FirstWithKey(urls, key, k)) else []
  }

  lemma OutcomeOf(c: Caller, answer: Str -> Answer, urls: seq<Str>, key: UrlKey, u: Str)
    requires DistinctUrls(urls, key) && u in urls
    ensures SingleOutcome(c, answer, urls, key, key(u)) == KeptFor(c, answer, u)
  {
    assert exists i :: 0 <= i < |urls| && urls[i] == u;
  }

  // ---------- batches of one URL ----------

  ghost predicate Singles(batches: seq<seq<Str>>, urls: seq<Str>, key: UrlKey) {
    && (forall i :: 0 <= i < |batches| ==> |batches[i]| == 1 && batches[i][0] in urls)
    && (forall i, j :: 0 <= i < j < |batches| ==> key(batches[i][0]) != key(batches[j][0]))
  }

  lemma {:induction false} BatchesOfOne(urls: seq<Str>)
    ensures var batches := ExtractBatches.Batches(urls, 1);
      |batches| == |urls| && forall i :: 0 <= i < |urls| ==> batches[i] == [urls[i]]
    decreases |urls|
  {
    if |urls| > 1 { BatchesOfOne(urls[1..]); }
  }

  lemma SplitSingly(asked: seq<Str>, urls: seq<Str>, key: UrlKey)
    requires Part(asked, urls, key) && asked != []
    ensures var batches := ExtractBatches.Split(asked, Some(1));
      && Singles(batches, urls, key) && |batches| == |asked|
      && forall i :: 0 <= i < |asked| ==> batches[i] == [asked[i]]
  {
    BatchesOfOne(asked);
  }

  /** Results that are all for one URL are hits of its key and no other. */
  lemma {:induction false} HitsOfOne(results: seq<Result>, u: Str, key: UrlKey, k: Str)
    requires forall x :: x in results ==> x.url == u
    ensures Hits(results, key, k) == if key(u) == k then results else []
  {
    if results != [] {
      var n := |results| - 1;
      assert results == results[..n] + [results[n]];
      AllOf(results, n, u);
      HitsOfOne(results[..n], u, key, k);
      HitsAppend(results[..n], results[n], key);
      hide Hits;
    }
  }

  lemma AllOf(results: seq<Result>, n: nat, u: Str)
    requires n < |results| && forall x :: x in results ==> x.url == u
    ensures results[n].url == u && forall x :: x in results[..n] ==> x.url == u
  {
    assert results[n] in results;
  }

  lemma KeptForIsItsOwn(c: Caller, answer: Str -> Answer, provider: Str, req: Request, trim: Str -> Str, key: UrlKey,
                        u: Str)
    requires Normalises(c, provider, req, trim, key) && trim([]) == []
    ensures forall x :: x in KeptFor(c, answer, u) ==> x.url == u
  {
    forall x | x in KeptFor(c, answer, u) ensures x.url == u {
      hide Judged, NormalizedAnswer;
      VerdictOf(answer(u).0, answer(u).1, provider, req.(urls := [u]), trim, key, x);
      var r :| r in answer(u).0 && Judged(r, provider, req.(urls := [u]), trim, key) == Kept(x);
      KeptIsRequested(r, provider, req.(urls := [u]), trim, key);
    }
  }

  /** A call for one URL that ends well keeps what the provider answers to it. */
  lemma RunKeepsAnswer(c: Caller, answer: Str -> Answer, trace: seq<ProviderCalls.Event<seq<Str>>>, u: Str, run: Run)
    requires AnswersSame(c, answer) && run.error == None
    requires ProviderCalls.Concludes(ExtractBatches.SettingFor(c, trace, [u]), run)
    ensures run.results == KeptFor(c, answer, u)
  {
    var s := ExtractBatches.SettingFor(c, trace, [u]);
    var before := run.attempts[..|run.attempts| - 1];
    var outcome := run.attempts[|run.attempts| - 1].outcome;
    assert outcome.Succeeded?;
    var at := s.trace + ProviderCalls.AllEvents(before, s.request) + [ProviderCalls.Granted(outcome.key)];
    assert c.world.upstream(at, [u], outcome.key).Answer?;
  }

  /** The last of several calls that all ended well. */
  lemma LastRun(c: Caller, answer: Str -> Answer, trace: seq<ProviderCalls.Event<seq<Str>>>,
                batches: seq<seq<Str>>, runs: seq<Run>)
    requires ExtractBatches.Ran(c, trace, batches, runs) && runs != [] && ExtractBatches.Aggregate(runs).error == None
    requires |runs| <= |batches| && |batches[|runs| - 1]| == 1 && AnswersSame(c, answer)
    ensures var n := |runs| - 1;
      && ExtractBatches.Ran(c, trace, batches, runs[..n]) && ExtractBatches.Aggregate(runs[..n]).error == None
      && ExtractBatches.Aggregate(runs).results
         == ExtractBatches.Aggregate(runs[..n]).results + KeptFor(c, answer, batches[n][0])
  {
    var n := |runs| - 1;
    assert batches[n] == [batches[n][0]];
    hide AnswersSame, KeptFor, ProviderCalls.Concludes, ProviderCalls.Faithful;
    RunKeepsAnswer(c, answer, trace + ExtractBatches.TraceOf(batches, runs[..n]), batches[n][0], runs[n]);
  }

  /** A URL of the key is in one of the first batches. */
  ghost predicate Asked(batches: seq<seq<Str>>, n: nat, key: UrlKey, k: Str)
    requires n <= |batches| && forall i :: 0 <= i < |batches| ==> |batches[i]| == 1
  {
    exists i :: 0 <= i < n && key(batches[i][0]) == k
  }

  lemma AskedStep(batches: seq<seq<Str>>, n: nat, urls: seq<Str>, key: UrlKey, k: Str)
    requires Singles(batches, urls, key) && n < |batches|
    ensures Asked(batches, n + 1, key, k) <==> Asked(batches, n, key, k) || key(batches[n][0]) == k
    ensures !(Asked(batches, n, key, k) && key(batches[n][0]) == k)
  {
  }

  /** The first runs' results for a key are those for the URL of the key, if it was among them. */
  lemma {:induction false} RunsHit(c: Caller, answer: Str -> Answer, trace: seq<ProviderCalls.Event<seq<Str>>>,
                                   batches: seq<seq<Str>>, runs: seq<Run>, provider: Str, req: Request,
                                   trim: Str -> Str, urls: seq<Str>, key: UrlKey, k: Str)
    requires Normalises(c, provider, req, trim, key) && trim([]) == [] && AnswersSame(c, answer)
    requires DistinctUrls(urls, key) && Singles(batches, urls, key)
    requires ExtractBatches.Ran(c, trace, batches, runs) && |runs| <= |batches|
    requires ExtractBatches.Aggregate(runs).error == None
    ensures Hits(ExtractBatches.Aggregate(runs).results, key, k)
      == if Asked(batches, |runs|, key, k) then SingleOutcome(c, answer, urls, key, k) else []
  {
    if runs != [] {
      var n := |runs| - 1;
      var u := batches[n][0];
      LastRun(c, answer, trace, batches, runs);
      KeptForIsItsOwn(c, answer, provider, req, trim, key, u);
      RunsHit(c, answer, trace, batches, runs[..n], provider, req, trim, urls, key, k);
      OneMoreHit(c, answer, ExtractBatches.Aggregate(runs[..n]).results, u, urls, key, k);
      AskedStep(batches, n, urls, key, k);
      hide Hits, SingleOutcome, KeptFor, Normalises, AnswersSame, ExtractBatches.Ran, ExtractBatches.Aggregate, Asked,
        DistinctUrls;
    }
  }

  lemma OneMoreHit(c: Caller, answer: Str -> Answer, before: seq<Result>, u: Str, urls: seq<Str>, key: UrlKey, k: Str)
    requires (forall x :: x in KeptFor(c, answer, u) ==> x.url == u) && DistinctUrls(urls, key) && u in urls
    ensures Hits(before + KeptFor(c, answer, u), key, k)
      == Hits(before, key, k) + if key(u) == k then SingleOutcome(c, answer, urls, key, k) else []
  {
    OutcomeOf(c, answer, urls, key, u);
    HitsConcat(before, KeptFor(c, answer, u), key, k);
    HitsOfOne(KeptFor(c, answer, u), u, key, k);
    hide Hits, SingleOutcome, KeptFor;
  }

  // ---------- the agreement theorems apply ----------

  /** An execution whose calls were for one URL each and all ended well, after whatever retries. */
  ghost predicate CalledSingly(e: Execution, c: Caller, asked: seq<Str>) {
    exists trace, runs ::
      && ExtractBatches.Ran(c, trace, ExtractBatches.Split(asked, Some(1)), runs)
      && |runs| == |ExtractBatches.Split(asked, Some(1))|
      && ExtractBatches.Aggregate(runs).error == None && e.results == ExtractBatches.Aggregate(runs).results
  }

  /** A provider that is called for one URL at a time, and its caller. */
  datatype Single = Single(caller: Caller, answer: Str -> Answer)

  ghost predicate AllSingle(call: Call, singles: Str -> Single, providers: seq<Str>, urls: seq<Str>, req: Request,
                            trim: Str -> Str, key: UrlKey) {
    && (forall p :: p in providers ==>
          Normalises(singles(p).caller, p, req, trim, key) && AnswersSame(singles(p).caller, singles(p).answer))
    && (forall p, asked {:trigger call(p, asked)} :: p in providers && Part(asked, urls, key) ==>
          CalledSingly(call(p, asked), singles(p).caller, asked))
  }

  ghost function OutcomesOf(singles: Str -> Single, urls: seq<Str>, key: UrlKey): Outcome {
    (p, k) => SingleOutcome(singles(p).caller, singles(p).answer, urls, key, k)
  }

  lemma SingleHits(e: Execution, s: Single, provider: Str, req: Request, trim: Str -> Str, asked: seq<Str>,
                   urls: seq<Str>, key: UrlKey, k: Str)
    requires Normalises(s.caller, provider, req, trim, key) && trim([]) == [] && AnswersSame(s.caller, s.answer)
    requires DistinctUrls(urls, key) && Part(asked, urls, key) && CalledSingly(e, s.caller, asked)
    ensures Hits(e.results, key, k)
      == if exists u :: u in asked && key(u) == k then SingleOutcome(s.caller, s.answer, urls, key, k) else []
  {
    hide ExtractBatches.Ran, ExtractBatches.Aggregate, Normalises, AnswersSame, SingleOutcome;
    var batches := ExtractBatches.Split(asked, Some(1));
    var trace, runs :| ExtractBatches.Ran(s.caller, trace, batches, runs) && |runs| == |batches|
      && ExtractBatches.Aggregate(runs).error == None && e.results == ExtractBatches.Aggregate(runs).results;
    if asked == [] {
      if e.results != [] {
        assert e.results[0] in e.results;
        CallsCarryAskedUrls(s.caller, trace, asked, Some(1), runs, provider, req, trim, key, e.results[0]);
      }
    } else {
      SplitSingly(asked, urls, key);
      RunsHit(s.caller, s.answer, trace, batches, runs, provider, req, trim, urls, key, k);
      assert forall i :: 0 <= i < |asked| ==> asked[i] in asked && batches[i][0] == asked[i];
    }
  }

  /** Providers that are called for one URL at a time, with any keys and retries, treat URLs one by one. */
  lemma SinglesAreUrlByUrl(call: Call, singles: Str -> Single, providers: seq<Str>, urls: seq<Str>, req: Request,
                           trim: Str -> Str, key: UrlKey)
    requires DistinctUrls(urls, key) && trim([]) == [] && AllSingle(call, singles, providers, urls, req, trim, key)
    ensures UrlByUrl(call, OutcomesOf(singles, urls, key), providers, urls, key)
  {
    hide CalledSingly, Normalises, AnswersSame, Hits, SingleOutcome;
    forall p, asked, k | p in providers && Part(asked, urls, key)
      ensures Hits(call(p, asked).results, key, k) ==
        if exists u :: u in asked && key(u) == k then OutcomesOf(singles, urls, key)(p, k) else []
    {
      SingleHits(call(p, asked), singles(p), p, req, trim, asked, urls, key, k);
    }
  }

  lemma SingleMade(e: Execution, s: Single, provider: Str, req: Request, trim: Str -> Str, asked: seq<Str>,
                   key: UrlKey, x: Result)
    requires Normalises(s.caller, provider, req, trim, key) && trim([]) == [] && CalledSingly(e, s.caller, asked)
    requires x in e.results && forall r :: AnswerOf(s.caller, r) ==> ValidString(r.content)
    ensures MadeFrom(x, provider, trim, key, true)
  {
    hide ExtractBatches.Ran, ExtractBatches.Aggregate, Normalises, AnswerOf, Judged, ValidString;
    var trace, runs :| ExtractBatches.Ran(s.caller, trace, ExtractBatches.Split(asked, Some(1)), runs)
      && e.results == ExtractBatches.Aggregate(runs).results;
    CallsCarryAskedUrls(s.caller, trace, asked, Some(1), runs, provider, req, trim, key, x);
    var r, few :| (forall u :: u in few ==> u in asked)
      && Judged(r, provider, req.(urls := few), trim, key) == Kept(x) && AnswerOf(s.caller, r);
  }

  /**
   * So for such providers that answer in valid UTF-8, fallback and parallel agree on the resolved URLs
   * and their order, on primary providers and on contents.
   */
  lemma SinglesAgree(call: Call, singles: Str -> Single, providers: seq<Str>, urls: seq<Str>, req: Request,
                     trim: Str -> Str, key: UrlKey)
    requires DistinctUrls(urls, key) && trim([]) == [] && AllSingle(call, singles, providers, urls, req, trim, key)
    requires forall p, r :: p in providers && AnswerOf(singles(p).caller, r) ==> ValidString(r.content)
    ensures var one, all := AllResults(InFallback(call, providers, urls, key)),
      AllResults(InParallel(call, providers, urls));
      var p := Positions(urls, one, key, true);
      var r, s := ExpectedResults(urls, one, key), ExpectedResults(urls, all, key);
      && p == Positions(urls, all, key, true) && |p| == |r| == |s|
      && forall a :: 0 <= a < |p| ==>
           r[a].url == s[a].url && r[a].provider == s[a].provider && r[a].content == s[a].content
  {
    SinglesAreUrlByUrl(call, singles, providers, urls, req, trim, key);
    hide CalledSingly, Normalises, AnswersSame, AnswerOf, MadeFrom, UrlByUrl, InFallback, InParallel, AllResults,
      ExpectedResults, Positions, ValidString;
    forall p, asked, x | p in providers && Part(asked, urls, key) && x in call(p, asked).results
      ensures MadeFrom(x, p, trim, key, true) {
      SingleMade(call(p, asked), singles(p), p, req, trim, asked, key, x);
    }
    FallbackIsParallel(call, OutcomesOf(singles, urls, key), providers, urls, trim, key);
  }

  // ---------- several URLs in one call ----------

  const FIRST: Str := [1]
  const SECOND: Str := [4]
  const MOVED: Str := [9]
  const BOTH: seq<Str> := [FIRST, SECOND]

  function Page(url: Str): Result {
    Result(url, [], [7], false, [], [], [], [], false, [], [], None, None, false)
  }

  /** What two providers answer for a URL: the first one has moved, and only one provider has the second. */
  function AnswerFor(provider: Str, url: Str): seq<Result> {
    if url == FIRST then [Page(MOVED)] else if url == SECOND && provider == [2] then [Page(SECOND)] else []
  }

  /** Each URL is answered by itself. */
  function AnswersFor(provider: Str, asked: seq<Str>): seq<Result> {
    if asked == [] then [] else AnswerFor(provider, asked[0]) + AnswersFor(provider, asked[1..])
  }

  function Asking(asked: seq<Str>): Request { Request(asked, [], false, false, false) }

  function MovingCall(provider: Str, asked: seq<Str>): Execution {
    Execution(provider, None, KeptOf(Verdicts(AnswersFor(provider, asked), provider, Asking(asked), SameKey, SameKey)),
              [])
  }

  /** What is kept of an answer for FIRST, asked for alone or with SECOND. */
  lemma MovedPage(provider: Str)
    requires provider == [2] || provider == [3]
    ensures Judged(Page(MOVED), provider, Asking([FIRST]), SameKey, SameKey).Kept?
      && Judged(Page(MOVED), provider, Asking([FIRST]), SameKey, SameKey).result.url == FIRST
    ensures !Judged(Page(MOVED), provider, Asking(BOTH), SameKey, SameKey).Kept?
  {
    assert Correlated(MOVED, [FIRST], SameKey) == Some(FIRST);
    assert Correlated(MOVED, BOTH, SameKey) == None;
  }

  lemma SecondPage()
    ensures Judged(Page(SECOND), [2], Asking(BOTH), SameKey, SameKey).Kept?
      && Judged(Page(SECOND), [2], Asking(BOTH), SameKey, SameKey).result.url == SECOND
  {
    assert BOTH[1] == SECOND && Correlated(SECOND, BOTH, SameKey) == Some(FirstWithKey(BOTH, SameKey, SECOND));
  }

  lemma KeptOne(v: Verdict)
    ensures KeptOf([v]) == if v.Kept? then [v.result] else []
  {
    assert [v][..0] == [];
  }

  lemma KeptTwo(v: Verdict, w: Verdict)
    ensures KeptOf([v, w]) == (if v.Kept? then [v.result] else []) + (if w.Kept? then [w.result] else [])
  {
    assert [v, w][..1] == [v];
    KeptOne(v);
  }

  lemma CallsMade()
    ensures AnswersFor([2], BOTH) == [Page(MOVED), Page(SECOND)] && AnswersFor([3], BOTH) == [Page(MOVED)]
    ensures AnswersFor([3], [FIRST]) == [Page(MOVED)]
  {
    assert BOTH[1..] == [SECOND] && [SECOND][1..] == [] && [FIRST][1..] == [];
    assert AnswersFor([2], [SECOND]) == [Page(SECOND)] && AnswersFor([3], [SECOND]) == [];
  }

  lemma OneVerdict(r: Result, provider: Str, req: Request)
    ensures var v := Judged(r, provider, req, SameKey, SameKey);
      KeptOf(Verdicts([r], provider, req, SameKey, SameKey)) == if v.Kept? then [v.result] else []
  {
    hide Judged, KeptOf;
    KeptOne(Judged(r, provider, req, SameKey, SameKey));
    assert Verdicts([r], provider, req, SameKey, SameKey) == [Judged(r, provider, req, SameKey, SameKey)];
  }

  lemma TwoVerdicts(r: Result, t: Result, provider: Str, req: Request)
    ensures var v, w := Judged(r, provider, req, SameKey, SameKey), Judged(t, provider, req, SameKey, SameKey);
      KeptOf(Verdicts([r, t], provider, req, SameKey, SameKey))
        == (if v.Kept? then [v.result] else []) + (if w.Kept? then [w.result] else [])
  {
    hide Judged, KeptOf;
    var v, w := Judged(r, provider, req, SameKey, SameKey), Judged(t, provider, req, SameKey, SameKey);
    KeptTwo(v, w);
    assert Verdicts([r, t], provider, req, SameKey, SameKey) == [v, w];
  }

  lemma CallResults()
    ensures |MovingCall([2], BOTH).results| == 1 && MovingCall([2], BOTH).results[0].url == SECOND
    ensures MovingCall([3], BOTH).results == []
    ensures |MovingCall([3], [FIRST]).results| == 1 && MovingCall([3], [FIRST]).results[0].url == FIRST
  {
    CallsMade();
    MovedPage([2]);
    MovedPage([3]);
    SecondPage();
    hide Judged, AnswersFor, KeptOf, Verdicts, Page, Asking;
    TwoVerdicts(Page(MOVED), Page(SECOND), [2], Asking(BOTH));
    OneVerdict(Page(MOVED), [3], Asking(BOTH));
    OneVerdict(Page(MOVED), [3], Asking([FIRST]));
  }

  lemma UnresolvedSecond(results: seq<Result>)
    requires |results| == 1 && results[0].url == SECOND
    ensures Unresolved(BOTH, results, SameKey) == [FIRST]
  {
    HitsOfOne(results, SECOND, SameKey, FIRST);
    HitsOfOne(results, SECOND, SameKey, SECOND);
    assert BOTH[..1] == [FIRST] && [FIRST][..0] == [];
    hide Hits;
    assert Unresolved([FIRST], results, SameKey) == [FIRST];
  }

  /**
   * A provider that answers each URL by itself, but is asked for several at once, does not treat URLs
   * one by one: a page that has moved is taken for the requested one only when that is asked for alone.
   * Fallback asks the second provider for that URL alone and resolves it, parallel does not.
   */
  lemma MovedPageDisagrees()
    ensures var providers := [[2], [3]];
      var one, all := AllResults(InFallback(MovingCall, providers, BOTH, SameKey)),
        AllResults(InParallel(MovingCall, providers, BOTH));
      && Resolved(one, SameKey, FIRST) && !Resolved(all, SameKey, FIRST)
      && forall outcome :: !UrlByUrl(MovingCall, outcome, providers, BOTH, SameKey)
  {
    RoutesMoved();
    hide Resolved, InFallback, InParallel, AllResults, MovingCall;
    forall outcome | UrlByUrl(MovingCall, outcome, [[2], [3]], BOTH, SameKey) ensures false {
      BothAreDistinct();
      AgreeOnUrl(MovingCall, outcome, [[2], [3]], BOTH, SameKey, FIRST);
    }
  }

  lemma BothAreDistinct()
    ensures DistinctUrls(BOTH, SameKey) && FIRST in BOTH && SameKey(FIRST) == FIRST
  {
    assert BOTH[0] == FIRST;
  }

  lemma RoutesMoved()
    ensures var providers := [[2], [3]];
      && Resolved(AllResults(InFallback(MovingCall, providers, BOTH, SameKey)), SameKey, FIRST)
      && !Resolved(AllResults(InParallel(MovingCall, providers, BOTH)), SameKey, FIRST)
  {
    RoutesMade();
    CallResults();
    hide MovingCall, InFallback, InParallel, AllResults, Resolved;
    FirstResolved(MovingCall([2], BOTH), MovingCall([3], [FIRST]));
    FirstResolved(MovingCall([2], BOTH), MovingCall([3], BOTH));
  }

  /** The first URL is resolved if the second provider has it. */
  lemma FirstResolved(first: Execution, other: Execution)
    requires |first.results| == 1 && first.results[0].url == SECOND
    requires |other.results| == 0 || (|other.results| == 1 && other.results[0].url == FIRST)
    ensures Resolved(AllResults([first, other]), SameKey, FIRST) <==> other.results != []
  {
    TwoResults(first, other);
    HitsConcat(first.results, other.results, SameKey, FIRST);
    HitsOfOne(first.results, SECOND, SameKey, FIRST);
    HitsOfOne(other.results, FIRST, SameKey, FIRST);
    hide AllResults, Hits;
  }

  lemma RoutesMade()
    ensures InFallback(MovingCall, [[2], [3]], BOTH, SameKey) == [MovingCall([2], BOTH), MovingCall([3], [FIRST])]
    ensures InParallel(MovingCall, [[2], [3]], BOTH) == [MovingCall([2], BOTH), MovingCall([3], BOTH)]
  {
    CallResults();
    UnresolvedSecond(MovingCall([2], BOTH).results);
    LastProvider();
    hide MovingCall, Unresolved;
    assert [[2], [3]][1..] == [[3]];
  }

  lemma LastProvider()
    ensures InFallback(MovingCall, [[3]], [FIRST], SameKey) == [MovingCall([3], [FIRST])]
  {
    hide MovingCall, Unresolved;
    assert [[3]][1..] == [];
  }

  lemma TwoResults(a: Execution, b: Execution)
    ensures AllResults([a, b]) == a.results + b.results
  {
    assert [a, b][..1] == [a] && [a][..0] == [];
    assert AllResults([a]) == a.results;
  }
}
