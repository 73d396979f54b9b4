/**
 * Extract's routes. A provider is a function from the URLs it is asked for to its execution:
 * fallback asks each provider for what is left, parallel asks every provider for everything.
 */
module ExtractRoutes {
  import opened Wrappers
  import opened Utf8
  import opened ExtractTypes
  import opened ExtractMerge

  type Call = (Str, seq<Str>) -> Execution

  /** The requested URLs for which there is no result yet, in order. */
  function Unresolved(requested: seq<Str>, results: seq<Result>, key: UrlKey): seq<Str> {
    if requested == [] then []
    else
      var last := requested[|requested| - 1];
      Unresolved(requested[..|requested| - 1], results, key) +
        if Hits(results, key, key(last)) == [] then [last] else []
  }

  method UnresolvedExtractURLs(requested: seq<Str>, results: seq<Result>, key: UrlKey) returns (remaining: seq<Str>)
    ensures remaining == Unresolved(requested, results, key)
  {
    var succeeded: set<Str> := {};
    for i := 0 to |results|
      invariant forall k :: k in succeeded <==> Hits(results[..i], key, k) != []
    {
      HitsAppend(results[..i], results[i], key);
      assert results[..i + 1] == results[..i] + [results[i]];
      succeeded := succeeded + {key(results[i].url)};
    }
    assert results[..|results|] == results;
    remaining := [];
    for i := 0 to |requested|
      invariant remaining == Unresolved(requested[..i], results, key)
    {
      assert requested[..i + 1][..i] == requested[..i];
      if key(requested[i]) !in succeeded {
        remaining := remaining + [requested[i]];
      }
    }
    assert requested[..|requested|] == requested;
  }

  method ExtractParallel(call: Call, providers: seq<Str>, urls: seq<Str>) returns (executions: seq<Execution>)
    ensures executions == InParallel(call, providers, urls)
  {
    executions := [];
    for i := 0 to |providers|
      invariant executions == InParallel(call, providers[..i], urls)
    {
      executions := executions + [call(providers[i], urls)];
    }
    assert providers[..|providers|] == providers;
  }

  function InParallel(call: Call, providers: seq<Str>, urls: seq<Str>): seq<Execution> {
    seq(|providers|, i requires 0 <= i < |providers| => call(providers[i], urls))
  }

  function InFallback(call: Call, providers: seq<Str>, remaining: seq<Str>, key: UrlKey): seq<Execution> {
    if providers == [] then []
    else
      var e := call(providers[0], remaining);
      var left := Unresolved(remaining, e.results, key);
      [e] + if left == [] then [] else InFallback(call, providers[1..], left, key)
  }

  lemma NoProviders(call: Call, executions: seq<Execution>, remaining: seq<Str>, key: UrlKey)
    ensures executions + InFallback(call, [], remaining, key) == executions
  {
  }

  lemma AllProviders(call: Call, providers: seq<Str>, urls: seq<Str>, key: UrlKey)
    ensures [] + InFallback(call, providers[0..], urls, key) == InFallback(call, providers, urls, key)
  {
    assert providers[0..] == providers;
  }

  /** One more provider is asked for what remains. */
  lemma FallbackStep(call: Call, providers: seq<Str>, executions: seq<Execution>, i: nat, remaining: seq<Str>,
                     key: UrlKey)
    requires i < |providers|
    ensures executions + InFallback(call, providers[i..], remaining, key) ==
      var e := call(providers[i], remaining);
      var left := Unresolved(remaining, e.results, key);
      (executions + [e]) + if left == [] then [] else InFallback(call, providers[i + 1..], left, key)
  {
    assert providers[i..][0] == providers[i] && providers[i..][1..] == providers[i + 1..];
  }

  method ExtractFallback(call: Call, providers: seq<Str>, urls: seq<Str>, key: UrlKey)
    returns (executions: seq<Execution>)
    ensures executions == InFallback(call, providers, urls, key)
  {
    var remaining := urls;
    executions := [];
    AllProviders(call, providers, urls, key);
    hide InFallback, Unresolved;
    for i := 0 to |providers|
      invariant executions + InFallback(call, providers[i..], remaining, key) == InFallback(call, providers, urls, key)
    {
      var execution := call(providers[i], remaining);
      FallbackStep(call, providers, executions, i, remaining, key);
      executions := executions + [execution];
      remaining := UnresolvedExtractURLs(remaining, execution.results, key);
      if |remaining| == 0 {
        return;
      }
    }
    assert providers[|providers|..] == [];
    NoProviders(call, executions, remaining, key);
  }

  // ---------- what each provider is asked for ----------

  lemma {:induction false} UnresolvedTwice(requested: seq<Str>, first: seq<Result>, second: seq<Result>, key: UrlKey)
    ensures Unresolved(Unresolved(requested, first, key), second, key) == Unresolved(requested, first + second, key)
  {
    if requested != [] {
      var n := |requested| - 1;
      var left := Unresolved(requested[..n], first, key);
      UnresolvedTwice(requested[..n], first, second, key);
      HitsConcat(first, second, key, key(requested[n]));
      var whole := Unresolved(requested, first, key);
      if Hits(first, key, key(requested[n])) == [] {
        assert whole == left + [requested[n]] && whole[..|whole| - 1] == left;
        assert Hits(first + second, key, key(requested[n])) == Hits(second, key, key(requested[n]));
      } else {
        assert whole == left;
      }
    }
  }

  lemma {:induction false} UnresolvedMembers(requested: seq<Str>, results: seq<Result>, key: UrlKey)
    ensures forall u :: u in Unresolved(requested, results, key) <==> u in requested && Hits(results, key, key(u)) == []
  {
    if requested != [] {
      UnresolvedMembers(requested[..|requested| - 1], results, key);
      assert requested == requested[..|requested| - 1] + [requested[|requested| - 1]];
    }
  }

  lemma {:induction false} UnresolvedByNone(requested: seq<Str>, key: UrlKey)
    ensures Unresolved(requested, [], key) == requested
  {
    if requested != [] { UnresolvedByNone(requested[..|requested| - 1], key); }
  }

  lemma {:induction false} AllResultsFirst(first: Execution, rest: seq<Execution>)
    ensures AllResults([first] + rest) == first.results + AllResults(rest)
  {
    if rest == [] {
      assert [first][..0] == [];
    } else {
      AllResultsFirst(first, rest[..|rest| - 1]);
      assert ([first] + rest)[..|[first] + rest| - 1] == [first] + rest[..|rest| - 1];
    }
  }

  lemma NoResults()
    ensures AllResults([]) == []
  {
  }

  lemma {:induction false} FallbackAsks(call: Call, providers: seq<Str>, urls: seq<Str>, key: UrlKey, i: nat)
    requires i < |InFallback(call, providers, urls, key)|
    ensures var e := InFallback(call, providers, urls, key);
      && i < |providers|
      && e[i] == call(providers[i], Unresolved(urls, AllResults(e[..i]), key))
      && (i > 0 ==> Unresolved(urls, AllResults(e[..i]), key) != [])
    decreases |providers|
  {
    hide Unresolved, AllResults;
    NoResults();
    var e := InFallback(call, providers, urls, key);
    if i == 0 {
      assert e[..0] == [];
      UnresolvedByNone(urls, key);
    } else {
      var first := call(providers[0], urls);
      var left := Unresolved(urls, first.results, key);
      var rest := InFallback(call, providers[1..], left, key);
      assert e == [first] + rest;
      FallbackAsks(call, providers[1..], left, key, i - 1);
      LeftAfter(urls, first, rest, i - 1, key);
      assert e[..i] == [first] + rest[..i - 1];
      if i == 1 {
        assert rest[..0] == [];
        UnresolvedByNone(left, key);
      }
    }
  }

  lemma {:induction false} FallbackEnds(call: Call, providers: seq<Str>, urls: seq<Str>, key: UrlKey)
    ensures var e := InFallback(call, providers, urls, key);
      |e| <= |providers| && (|e| < |providers| ==> Unresolved(urls, AllResults(e), key) == [])
    decreases |providers|
  {
    if providers != [] {
      var e := InFallback(call, providers, urls, key);
      var first := call(providers[0], urls);
      var left := Unresolved(urls, first.results, key);
      var rest := if left == [] then [] else InFallback(call, providers[1..], left, key);
      if left != [] { FallbackEnds(call, providers[1..], left, key); }
      LeftAfter(urls, first, rest, |rest|, key);
      assert rest[..|rest|] == rest && e == [first] + rest;
      if left == [] { UnresolvedByNone(left, key); }
    }
  }

  /**
   * Fallback sends each provider exactly the URLs that no earlier provider resolved, in request
   * order; it stops when nothing is left, and not before the providers run out otherwise.
   */
  lemma FallbackSendsUnresolved(call: Call, providers: seq<Str>, urls: seq<Str>, key: UrlKey)
    ensures var e := InFallback(call, providers, urls, key);
      && |e| <= |providers|
      && (forall i :: 0 <= i < |e| ==> e[i] == call(providers[i], Unresolved(urls, AllResults(e[..i]), key)))
      && (forall i :: 0 < i < |e| ==> Unresolved(urls, AllResults(e[..i]), key) != [])
      && (|e| < |providers| ==> Unresolved(urls, AllResults(e), key) == [])
  {
    FallbackEnds(call, providers, urls, key);
    var e := InFallback(call, providers, urls, key);
    hide InFallback, Unresolved, AllResults;
    forall i | 0 <= i < |e|
      ensures e[i] == call(providers[i], Unresolved(urls, AllResults(e[..i]), key))
      ensures i > 0 ==> Unresolved(urls, AllResults(e[..i]), key) != []
    {
      FallbackAsks(call, providers, urls, key, i);
    }
  }

  lemma LeftAfter(urls: seq<Str>, first: Execution, rest: seq<Execution>, i: nat, key: UrlKey)
    requires i <= |rest|
    ensures Unresolved(urls, AllResults([first] + rest[..i]), key)
            == Unresolved(Unresolved(urls, first.results, key), AllResults(rest[..i]), key)
  {
    AllResultsFirst(first, rest[..i]);
    UnresolvedTwice(urls, first.results, AllResults(rest[..i]), key);
  }

  // ---------- fallback agrees with parallel ----------

  type Outcome = (Str, Str) -> seq<Result>

  /** Some of the URLs, each once. */
  ghost predicate Part(asked: seq<Str>, urls: seq<Str>, key: UrlKey) {
    DistinctUrls(asked, key) && forall u :: u in asked ==> u in urls
  }

  lemma LastIsNew(urls: seq<Str>, key: UrlKey)
    requires DistinctUrls(urls, key) && urls != []
    ensures forall u :: u in urls[..|urls| - 1] ==> key(u) != key(urls[|urls| - 1])
  {
  }

  /** What is left of such URLs is so as well. */
  lemma {:induction false} UnresolvedPart(asked: seq<Str>, urls: seq<Str>, results: seq<Result>, key: UrlKey)
    requires Part(asked, urls, key)
    ensures Part(Unresolved(asked, results, key), urls, key)
    ensures forall u :: u in Unresolved(asked, results, key) ==> u in asked
  {
    if asked != [] {
      var n := |asked| - 1;
      assert asked == asked[..n] + [asked[n]];
      UnresolvedPart(asked[..n], urls, results, key);
      LastIsNew(asked, key);
      hide Hits;
    }
  }

  /**
   * Each provider's results for a URL depend on the URL alone: `outcome` says what provider `p`
   * returns for key `k`, whatever other requested URLs are in the same call. No call has two URLs of one key.
   */
  ghost predicate UrlByUrl(call: Call, outcome: Outcome, providers: seq<Str>, urls: seq<Str>, key: UrlKey) {
    forall p, asked {:trigger call(p, asked)} :: p in providers && Part(asked, urls, key) ==>
      forall k :: Hits(call(p, asked).results, key, k) ==
        if exists u :: u in asked && key(u) == k then outcome(p, k) else []
  }

  function FirstOutcome(outcome: Outcome, providers: seq<Str>, k: Str): seq<Result> {
    if providers == [] then []
    else if outcome(providers[0], k) != [] then outcome(providers[0], k)
    else FirstOutcome(outcome, providers[1..], k)
  }

  function AllOutcomes(outcome: Outcome, providers: seq<Str>, k: Str): seq<Result> {
    if providers == [] then [] else outcome(providers[0], k) + AllOutcomes(outcome, providers[1..], k)
  }

  lemma FirstProvider(call: Call, outcome: Outcome, providers: seq<Str>, urls: seq<Str>, asked: seq<Str>, key: UrlKey,
                      k: Str)
    requires UrlByUrl(call, outcome, providers, urls, key) && providers != [] && Part(asked, urls, key)
    ensures Hits(call(providers[0], asked).results, key, k) ==
      if exists u :: u in asked && key(u) == k then outcome(providers[0], k) else []
    ensures UrlByUrl(call, outcome, providers[1..], urls, key)
  {
    assert providers[0] in providers;
  }

  lemma {:induction false} FallbackHits(call: Call, outcome: Outcome, providers: seq<Str>, urls: seq<Str>,
                                        asked: seq<Str>, key: UrlKey, k: Str)
    requires UrlByUrl(call, outcome, providers, urls, key) && Part(asked, urls, key)
    ensures Hits(AllResults(InFallback(call, providers, asked, key)), key, k)
            == if exists u :: u in asked && key(u) == k then FirstOutcome(outcome, providers, k) else []
    decreases |providers|
  {
    if providers != [] {
      var e := call(providers[0], asked);
      var left := Unresolved(asked, e.results, key);
      var rest := if left == [] then [] else InFallback(call, providers[1..], left, key);
      FirstProvider(call, outcome, providers, urls, asked, key, k);
      UnresolvedPart(asked, urls, e.results, key);
      hide UrlByUrl, Part;
      UnresolvedMembers(asked, e.results, key);
      AllResultsFirst(e, rest);
      HitsConcat(e.results, AllResults(rest), key, k);
      if left != [] {
        FallbackHits(call, outcome, providers[1..], urls, left, key, k);
      } else {
        assert Hits(AllResults(rest), key, k) == [];
      }
      assert Hits(AllResults(InFallback(call, providers, asked, key)), key, k)
        == Hits(e.results, key, k) + Hits(AllResults(rest), key, k);
      hide InFallback, AllResults, Hits, Unresolved;
    }
  }

  lemma {:induction false} ParallelHits(call: Call, outcome: Outcome, providers: seq<Str>, urls: seq<Str>, key: UrlKey,
                                        u: Str)
    requires UrlByUrl(call, outcome, providers, urls, key) && DistinctUrls(urls, key) && u in urls
    ensures Hits(AllResults(InParallel(call, providers, urls)), key, key(u)) == AllOutcomes(outcome, providers, key(u))
    decreases |providers|
  {
    if providers != [] {
      var e := call(providers[0], urls);
      ParallelHits(call, outcome, providers[1..], urls, key, u);
      assert InParallel(call, providers, urls) == [e] + InParallel(call, providers[1..], urls);
      AllResultsFirst(e, InParallel(call, providers[1..], urls));
      HitsConcat(e.results, AllResults(InParallel(call, providers[1..], urls)), key, key(u));
    }
  }

  /** The first provider with results for a URL is where its hits start in either mode. */
  lemma {:induction false} FirstIsPrefix(outcome: Outcome, providers: seq<Str>, k: Str) returns (rest: seq<Result>)
    ensures AllOutcomes(outcome, providers, k) == FirstOutcome(outcome, providers, k) + rest
    ensures FirstOutcome(outcome, providers, k) == [] ==> rest == []
  {
    rest := [];
    if providers != [] {
      if outcome(providers[0], k) != [] {
        rest := AllOutcomes(outcome, providers[1..], k);
      } else {
        rest := FirstIsPrefix(outcome, providers[1..], k);
      }
    }
  }

  lemma {:induction false} FirstNonEmptyConcat<T>(a: seq<T>, b: seq<T>, empty: T)
    ensures FirstNonEmpty(a + b, empty) == Gap(FirstNonEmpty(a, empty), FirstNonEmpty(b, empty), empty)
  {
    if a == [] {
      assert a + b == b;
    } else {
      FirstNonEmptyConcat(a[1..], b, empty);
      assert (a + b)[1..] == a[1..] + b;
    }
  }

  lemma {:induction false} FirstNonEmptyNone<T>(values: seq<T>, empty: T)
    ensures FirstNonEmpty(values, empty) == empty <==> forall i :: 0 <= i < |values| ==> values[i] == empty
  {
    if values != [] {
      FirstNonEmptyNone(values[1..], empty);
      forall i | 0 < i < |values| ensures values[i] == values[1..][i - 1] {}
    }
  }

  lemma NoContent(rest: seq<Result>)
    ensures FirstNonEmpty(Column(rest, Content), []) == [] <==> forall r :: r in rest ==> r.content == []
  {
    FirstNonEmptyNone(Column(rest, Content), []);
    hide FirstNonEmpty;
    forall i | 0 <= i < |rest| ensures Column(rest, Content)[i] == rest[i].content {
      assert Column(rest, Content)[i] == Content(rest[i]);
    }
  }

  lemma MergedCore(hits: seq<Result>)
    requires hits != []
    ensures var m := MergedHits(hits);
      m.url == hits[0].url && m.provider == hits[0].provider && m.content == FirstNonEmpty(Column(hits, Content), [])
  {
    EarliestFieldWins(hits);
  }

  lemma MergedPrefix(hits: seq<Result>, rest: seq<Result>)
    requires hits != []
    ensures var few, all := MergedHits(hits), MergedHits(hits + rest);
      && all.url == few.url && all.provider == few.provider
      && all.content == Gap(few.content, FirstNonEmpty(Column(rest, Content), []), [])
      && (few.content == [] ==> forall r :: r in hits ==> r.content == [])
  {
    MergedCore(hits);
    MergedCore(hits + rest);
    NoContent(hits);
    FirstNonEmptyConcat(Column(hits, Content), Column(rest, Content), []);
    ColumnConcat(hits, rest, Content);
    hide MergedHits, FirstNonEmpty, Gap, Column;
  }

  lemma ColumnConcat<T>(a: seq<Result>, b: seq<Result>, field: Result -> T)
    ensures Column(a + b, field) == Column(a, field) + Column(b, field)
  {
  }

  /** Some result has content. */
  ghost predicate SomeContent(results: seq<Result>) {
    exists x :: x in results && x.content != []
  }

  /** The two modes agree on one URL; on its content too, unless only a later provider has some. */
  lemma AgreeOnUrl(call: Call, outcome: Outcome, providers: seq<Str>, urls: seq<Str>, key: UrlKey, u: Str)
    requires UrlByUrl(call, outcome, providers, urls, key) && DistinctUrls(urls, key) && u in urls
    ensures var one, all := AllResults(InFallback(call, providers, urls, key)),
      AllResults(InParallel(call, providers, urls));
      var k := key(u);
      && (Resolved(one, key, k) <==> Resolved(all, key, k))
      && ResultFor(one, key, k).url == ResultFor(all, key, k).url
      && ResultFor(one, key, k).provider == ResultFor(all, key, k).provider
      && (ResultFor(one, key, k).content == ResultFor(all, key, k).content <==>
            SomeContent(FirstOutcome(outcome, providers, k)) || !SomeContent(AllOutcomes(outcome, providers, k)))
  {
    FallbackHits(call, outcome, providers, urls, urls, key, key(u));
    ParallelHits(call, outcome, providers, urls, key, u);
    var hits := FirstOutcome(outcome, providers, key(u));
    var rest := FirstIsPrefix(outcome, providers, key(u));
    hide FirstOutcome, AllOutcomes, InFallback, InParallel, Hits, AllResults, MergedHits;
    if hits != [] {
      MergedPrefix(hits, rest);
      NoContent(rest);
      MergedSomeContent(hits);
    }
  }

  lemma MergedSomeContent(hits: seq<Result>)
    requires hits != []
    ensures MergedHits(hits).content != [] <==> SomeContent(hits)
  {
    MergedCore(hits);
    NoContent(hits);
    hide MergedHits, FirstNonEmpty;
  }

  lemma {:induction false} SamePositions(requested: seq<Str>, a: seq<Result>, b: seq<Result>, key: UrlKey, want: bool)
    requires forall u :: u in requested ==> (Resolved(a, key, key(u)) <==> Resolved(b, key, key(u)))
    ensures Positions(requested, a, key, want) == Positions(requested, b, key, want)
  {
    if requested != [] { SamePositions(requested[..|requested| - 1], a, b, key, want); }
  }

  /**
   * Fallback agrees with parallel: when each provider treats URLs one by one, both modes report
   * the same URLs as results, in the same order and with the same primary provider. They report
   * the same content for a URL exactly when the first provider that has results for it has content
   * there, or no provider has any.
   */
  lemma FallbackAgreesWithParallel(call: Call, outcome: Outcome, providers: seq<Str>, urls: seq<Str>, key: UrlKey)
    requires UrlByUrl(call, outcome, providers, urls, key) && DistinctUrls(urls, key)
    ensures var one, all := AllResults(InFallback(call, providers, urls, key)),
      AllResults(InParallel(call, providers, urls));
      var p := Positions(urls, one, key, true);
      var r, s := ExpectedResults(urls, one, key), ExpectedResults(urls, all, key);
      && p == Positions(urls, all, key, true) && |p| == |r| == |s|
      && forall a :: 0 <= a < |p| ==>
           var k := key(urls[p[a]]);
           && r[a].url == s[a].url && r[a].provider == s[a].provider
           && (r[a].content == s[a].content <==>
                 SomeContent(FirstOutcome(outcome, providers, k)) || !SomeContent(AllOutcomes(outcome, providers, k)))
  {
    hide ResultFor, Resolved, SomeContent;
    forall u | u in urls { AgreeOnUrl(call, outcome, providers, urls, key, u); }
    SamePositions(urls, AllResults(InFallback(call, providers, urls, key)),
                  AllResults(InParallel(call, providers, urls)), key, true);
  }

  /** Where no provider ever returns a result without content, the condition always holds. */
  lemma {:induction false} FirstHasContent(outcome: Outcome, providers: seq<Str>, k: Str)
    requires forall p, x :: p in providers && x in outcome(p, k) ==> x.content != []
    ensures SomeContent(FirstOutcome(outcome, providers, k)) || AllOutcomes(outcome, providers, k) == []
  {
    if providers != [] {
      if outcome(providers[0], k) != [] {
        assert providers[0] in providers && outcome(providers[0], k)[0] in outcome(providers[0], k);
      } else {
        FirstHasContent(outcome, providers[1..], k);
      }
    }
  }

  /** Then the two modes agree on URL, primary provider and content, everywhere. */
  lemma ModesAgreeFully(call: Call, outcome: Outcome, providers: seq<Str>, urls: seq<Str>, key: UrlKey)
    requires UrlByUrl(call, outcome, providers, urls, key) && DistinctUrls(urls, key)
    requires forall p, u, x :: p in providers && u in urls && x in outcome(p, key(u)) ==> x.content != []
    ensures var one, all := AllResults(InFallback(call, providers, urls, key)),
      AllResults(InParallel(call, providers, urls));
      var p := Positions(urls, one, key, true);
      var r, s := ExpectedResults(urls, one, key), ExpectedResults(urls, all, key);
      && p == Positions(urls, all, key, true) && |p| == |r| == |s|
      && forall a :: 0 <= a < |p| ==>
           r[a].url == s[a].url && r[a].provider == s[a].provider && r[a].content == s[a].content
  {
    FallbackAgreesWithParallel(call, outcome, providers, urls, key);
    forall u | u in urls
      ensures SomeContent(FirstOutcome(outcome, providers, key(u)))
        || !SomeContent(AllOutcomes(outcome, providers, key(u)))
    {
      FirstHasContent(outcome, providers, key(u));
    }
    hide SomeContent, FirstOutcome, AllOutcomes, UrlByUrl, ResultFor;
  }
}
