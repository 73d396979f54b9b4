/** Fallback against parallel for providers whose answers have gone through the normaliser. */
module ExtractAgreement {
  import opened Wrappers
  import opened Utf8
  import opened ExtractTypes
  import opened ExtractMerge
  import opened ExtractNormalize
  import opened ExtractRoutes

  /** A normalised result, made from an answer whose content is valid UTF-8 if that is asked. */
  ghost predicate MadeFrom(x: Result, provider: Str, trim: Str -> Str, key: UrlKey, valid: bool) {
    exists r: Result, req: Request ::
      Judged(r, provider, req, trim, key) == Kept(x) && (valid ==> ValidString(r.content))
  }

  /** Whatever the batches, a provider's results are normalised answers, and answers in valid UTF-8 if `valid`. */
  ghost predicate Normalised(call: Call, providers: seq<Str>, urls: seq<Str>, trim: Str -> Str, key: UrlKey,
                             valid: bool) {
    forall p, asked, x {:trigger x in call(p, asked).results} ::
      p in providers && Part(asked, urls, key) && x in call(p, asked).results ==>
        MadeFrom(x, p, trim, key, valid)
  }

  /** What the normaliser returns for valid answers. */
  lemma NormaliserKeepsContent(results: seq<Result>, provider: Str, req: Request, trim: Str -> Str, key: UrlKey,
                               x: Result)
    requires trim([]) == [] && forall r :: r in results ==> ValidString(r.content)
    requires x in KeptOf(Verdicts(results, provider, req, trim, key))
    ensures x.content != [] && MadeFrom(x, provider, trim, key, true)
  {
    var verdicts := Verdicts(results, provider, req, trim, key);
    KeptMembers(verdicts);
    hide Judged, KeptOf;
    var i :| 0 <= i < |verdicts| && verdicts[i] == Kept(x);
    assert results[i] in results;
    KeptIsRequested(results[i], provider, req, trim, key);
  }

  lemma ValidHasContent(x: Result, provider: Str, trim: Str -> Str, key: UrlKey)
    requires trim([]) == [] && MadeFrom(x, provider, trim, key, true)
    ensures x.content != []
  {
    hide Judged;
    var r: Result, req: Request :| Judged(r, provider, req, trim, key) == Kept(x) && ValidString(r.content);
    KeptIsRequested(r, provider, req, trim, key);
  }

  /** The outcome of a provider for a requested URL is what it returns for it when asked for all. */
  lemma OutcomeReturned(call: Call, outcome: Outcome, providers: seq<Str>, urls: seq<Str>, key: UrlKey, p: Str, u: Str,
                        x: Result)
    requires UrlByUrl(call, outcome, providers, urls, key) && DistinctUrls(urls, key)
    requires p in providers && u in urls && x in outcome(p, key(u))
    ensures x in call(p, urls).results
  {
    assert Hits(call(p, urls).results, key, key(u)) == outcome(p, key(u));
    HitsMatch(call(p, urls).results, key, key(u));
  }

  /**
   * Providers that treat URLs one by one and answer in valid UTF-8, as every answer decoded from
   * JSON is: fallback and parallel resolve the same URLs, in the same order, with the same primary
   * provider and the same content.
   */
  lemma FallbackIsParallel(call: Call, outcome: Outcome, providers: seq<Str>, urls: seq<Str>, trim: Str -> Str,
                           key: UrlKey)
    requires UrlByUrl(call, outcome, providers, urls, key) && DistinctUrls(urls, key)
    requires trim([]) == [] && Normalised(call, providers, urls, trim, key, true)
    ensures var one, all := AllResults(InFallback(call, providers, urls, key)),
      AllResults(InParallel(call, providers, urls));
      var p := Positions(urls, one, key, true);
      var r, s := ExpectedResults(urls, one, key), ExpectedResults(urls, all, key);
      && p == Positions(urls, all, key, true) && |p| == |r| == |s|
      && forall a :: 0 <= a < |p| ==>
           r[a].url == s[a].url && r[a].provider == s[a].provider && r[a].content == s[a].content
  {
    hide UrlByUrl, MadeFrom, ExpectedResults, Positions, InFallback, InParallel, AllResults;
    forall p, u, x | p in providers && u in urls && x in outcome(p, key(u)) ensures x.content != [] {
      OutcomeReturned(call, outcome, providers, urls, key, p, u, x);
      assert MadeFrom(x, p, trim, key, true);
      ValidHasContent(x, p, trim, key);
    }
    ModesAgreeFully(call, outcome, providers, urls, key);
  }

  // ---------- answers that are not valid UTF-8 ----------

  const GARBLED: Str := seq(MAX_RESULT_CONTENT_BYTES + 1, _ => 0x80)
  const EMPTY_PAGE := Result([1], [], [], true, [], [2], [[2]], [], false, [], [], None, None, false)
  const FULL_PAGE := Result([1], [], [7], false, [], [3], [[3]], [], false, [], [], None, None, false)

  function SameKey(u: Str): Str { u }

  function GapOutcome(p: Str, k: Str): seq<Result> {
    if k != [1] then [] else if p == [2] then [EMPTY_PAGE] else [FULL_PAGE]
  }

  function GapCall(p: Str, asked: seq<Str>): Execution {
    Execution(p, None, if [1] in asked then GapOutcome(p, [1]) else [], [])
  }

  /** A long page of stray continuation bytes is kept, with nothing left of it. */
  lemma EmptyPageArises()
    ensures MadeFrom(EMPTY_PAGE, [2], SameKey, SameKey, false)
  {
    var r := EMPTY_PAGE.(content := GARBLED, contentTruncated := false);
    var req := Request([[1]], [], false, false, false);
    InvalidContentVanishes(GARBLED, MAX_RESULT_CONTENT_BYTES);
    assert Truncated(GARBLED, MAX_RESULT_CONTENT_BYTES) == [];
    assert Correlated([1], [[1]], SameKey) == Some([1]);
    assert Judged(r, [2], req, SameKey, SameKey) == Kept(EMPTY_PAGE);
  }

  lemma FullPageArises()
    ensures MadeFrom(FULL_PAGE, [3], SameKey, SameKey, false)
  {
    var req := Request([[1]], [], false, false, false);
    assert Correlated([1], [[1]], SameKey) == Some([1]);
    assert Judged(FULL_PAGE, [3], req, SameKey, SameKey) == Kept(FULL_PAGE);
  }

  lemma GapUrlByUrl(providers: seq<Str>, urls: seq<Str>)
    ensures UrlByUrl(GapCall, GapOutcome, providers, urls, SameKey)
  {
    forall p: Str, asked: seq<Str>, k: Str
      ensures Hits(GapCall(p, asked).results, SameKey, k) ==
        if exists u :: u in asked && SameKey(u) == k then GapOutcome(p, k) else []
    {
      assert [EMPTY_PAGE][..0] == [] && [FULL_PAGE][..0] == [];
    }
  }

  lemma GapNormalised()
    ensures Normalised(GapCall, [[2], [3]], [[1]], SameKey, SameKey, false)
  {
    EmptyPageArises();
    FullPageArises();
    hide MadeFrom;
  }

  lemma GapContents()
    ensures FirstOutcome(GapOutcome, [[2], [3]], [1]) == [EMPTY_PAGE]
    ensures AllOutcomes(GapOutcome, [[2], [3]], [1]) == [EMPTY_PAGE, FULL_PAGE]
  {
    assert [[2], [3]][1..] == [[3]] && [[3]][1..] == [];
    assert AllOutcomes(GapOutcome, [[3]], [1]) == [FULL_PAGE];
  }

  lemma GapResolved()
    ensures Positions([[1]], AllResults(InFallback(GapCall, [[2], [3]], [[1]], SameKey)), SameKey, true) == [0]
  {
    var providers: seq<Str>, urls: seq<Str> := [[2], [3]], [[1]];
    GapUrlByUrl(providers, urls);
    GapContents();
    OneIsDistinct([1], SameKey);
    SameKeyIs([1]);
    OnePosition(AllResults(InFallback(GapCall, providers, urls, SameKey)), SameKey, [1]);
    assert urls[0] in urls;
    hide Hits, FirstOutcome, AllOutcomes, InFallback, AllResults, UrlByUrl, GapCall, GapOutcome, Positions,
      DistinctUrls, SameKey;
    FallbackHits(GapCall, GapOutcome, providers, urls, urls, SameKey, [1]);
  }

  lemma OnePosition(results: seq<Result>, key: UrlKey, u: Str)
    ensures key(u) != [] && Hits(results, key, key(u)) != [] ==> Positions([u], results, key, true) == [0]
  {
    assert [u][..0] == [];
    hide Hits;
  }

  /**
   * An adapter that passes on bytes which are not UTF-8 breaks the agreement on content: cut to
   * nothing, they still settle the URL in fallback, while parallel fills the gap from the next provider.
   */
  lemma EmptyContentDisagrees()
    ensures exists call: Call, outcome: Outcome, providers, urls: seq<Str>, trim: Str -> Str, key: UrlKey ::
      && UrlByUrl(call, outcome, providers, urls, key) && DistinctUrls(urls, key)
      && Normalised(call, providers, urls, trim, key, false)
        && trim([]) == []
      && var r := ExpectedResults(urls, AllResults(InFallback(call, providers, urls, key)), key);
      var s := ExpectedResults(urls, AllResults(InParallel(call, providers, urls)), key);
      |r| == |s| == 1 && r[0].content != s[0].content
  {
    hide *;
    OneIsDistinct([1], SameKey);
    GapUrlByUrl([[2], [3]], [[1]]);
    GapNormalised();
    GapDisagrees();
    assert SameKey([]) == [] by { SameKeyIs([]); }
  }

  lemma OneIsDistinct(u: Str, key: UrlKey)
    ensures DistinctUrls([u], key)
  {
  }

  lemma SameKeyIs(u: Str)
    ensures SameKey(u) == u
  {
  }

  lemma GapCondition()
    ensures !SomeContent(FirstOutcome(GapOutcome, [[2], [3]], [1]))
      && SomeContent(AllOutcomes(GapOutcome, [[2], [3]], [1]))
  {
    GapContents();
    assert FULL_PAGE in [EMPTY_PAGE, FULL_PAGE];
  }

  lemma GapDisagrees()
    ensures var r := ExpectedResults([[1]], AllResults(InFallback(GapCall, [[2], [3]], [[1]], SameKey)), SameKey);
      var s := ExpectedResults([[1]], AllResults(InParallel(GapCall, [[2], [3]], [[1]])), SameKey);
      |r| == |s| == 1 && r[0].content != s[0].content
  {
    var providers: seq<Str>, urls: seq<Str> := [[2], [3]], [[1]];
    GapUrlByUrl(providers, urls);
    GapCondition();
    GapResolved();
    SameKeyIs([1]);
    hide *;
    FallbackAgreesWithParallel(GapCall, GapOutcome, providers, urls, SameKey);
  }
}
