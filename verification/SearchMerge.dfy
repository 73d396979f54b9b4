/** Merging the results of several search providers: one entry for each page, the best first. */
module SearchMerge {
  import opened Wrappers
  import opened Utf8
  import opened StableSort
  import opened UniqueNames

  /** `score` is exact here; `payload` stands for the fields that the merge only carries along. */
  datatype SearchResult = SearchResult(title: Str, url: Str, provider: Str, providers: seq<Str>, score: real,
                                       payload: int)

  // ---------- the ranking ----------

  /** The order of Go's strings. */
  predicate StrLess(a: Str, b: Str) {
    b != [] && (a == [] || (if a[0] == b[0] then StrLess(a[1..], b[1..]) else a[0] < b[0]))
  }

  predicate Before(a: SearchResult, b: SearchResult) {
    if a.score == b.score then StrLess(a.title, b.title) else a.score > b.score
  }

  /** Byte order: a proper prefix comes first, and otherwise the smaller byte at the first difference. */
  ghost predicate ByteLess(a: Str, b: Str) {
    || (|a| < |b| && b[..|a|] == a)
    || exists i :: DifferAt(a, b, i) && a[i] < b[i]
  }

  ghost predicate DifferAt(a: Str, b: Str, i: int) {
    0 <= i < |a| && i < |b| && a[..i] == b[..i] && a[i] != b[i]
  }

  lemma {:induction false} StrLessIsByteOrder(a: Str, b: Str)
    ensures StrLess(a, b) <==> ByteLess(a, b)
  {
    if a != [] && b != [] {
      if a[0] == b[0] {
        StrLessIsByteOrder(a[1..], b[1..]);
        if ByteLess(a[1..], b[1..]) { LessTail(a, b); }
        if ByteLess(a, b) { LessHead(a, b); }
      } else {
        assert DifferAt(a, b, 0);
      }
    }
  }

  lemma LessTail(a: Str, b: Str)
    requires a != [] && b != [] && a[0] == b[0] && ByteLess(a[1..], b[1..])
    ensures ByteLess(a, b)
  {
    if |a| < |b| && b[1..][..|a| - 1] == a[1..] {
      assert b[..|a|] == [b[0]] + b[1..][..|a| - 1] && a == [a[0]] + a[1..];
    } else {
      var i :| DifferAt(a[1..], b[1..], i) && a[1..][i] < b[1..][i];
      assert a[..i + 1] == [a[0]] + a[1..][..i] && b[..i + 1] == [b[0]] + b[1..][..i];
      assert DifferAt(a, b, i + 1);
    }
  }

  lemma LessHead(a: Str, b: Str)
    requires a != [] && b != [] && a[0] == b[0] && ByteLess(a, b)
    ensures ByteLess(a[1..], b[1..])
  {
    if |a| < |b| && b[..|a|] == a {
      assert b[1..][..|a| - 1] == b[..|a|][1..];
    } else {
      var i :| DifferAt(a, b, i) && a[i] < b[i];
      assert a[1..][..i - 1] == a[..i][1..] && b[1..][..i - 1] == b[..i][1..];
      assert DifferAt(a[1..], b[1..], i - 1);
    }
  }

  lemma {:induction false} StrLessLaws(a: Str, b: Str, c: Str)
    ensures !StrLess(a, a)
    ensures StrLess(a, b) && StrLess(b, c) ==> StrLess(a, c)
    ensures !StrLess(a, b) && !StrLess(b, c) ==> !StrLess(a, c)
  {
    if a == [] || b == [] || c == [] {
      if a != [] { StrLessLaws(a[1..], a[1..], a[1..]); }
    } else {
      StrLessLaws(a[1..], b[1..], c[1..]);
    }
  }

  lemma BeforeIsStrictWeakOrder()
    ensures StrictWeakOrder(Before)
  {
    forall x: SearchResult ensures !Before(x, x) { StrLessLaws(x.title, x.title, x.title); }
    forall x, y, z
      ensures (Before(x, y) && Before(y, z) ==> Before(x, z)) && (!Before(x, y) && !Before(y, z) ==> !Before(x, z)) {
      StrLessLaws(x.title, y.title, z.title);
    }
  }

  // ---------- what the merge is to produce ----------

  function Flatten(executions: seq<seq<SearchResult>>): seq<SearchResult> {
    if executions == [] then [] else Flatten(executions[..|executions| - 1]) + executions[|executions| - 1]
  }

  /** The results that have a page: `key` gives the canonical form of a URL, empty for a blank one. */
  function Usable(key: Str -> Str, results: seq<SearchResult>): seq<SearchResult> {
    if results == [] then []
    else
      var last := results[|results| - 1];
      Usable(key, results[..|results| - 1]) + if key(last.url) == [] then [] else [last]
  }

  /** The usable results for one page, in order. */
  function Group(key: Str -> Str, results: seq<SearchResult>, page: Str): seq<SearchResult> {
    if results == [] then []
    else
      var last := results[|results| - 1];
      Group(key, results[..|results| - 1], page) + if key(last.url) == page then [last] else []
  }

  /** The pages of usable results in the order in which they first come up. */
  function Pages(key: Str -> Str, results: seq<SearchResult>): seq<Str> {
    if results == [] then []
    else WithName(Pages(key, results[..|results| - 1]), key(results[|results| - 1].url))
  }

  /** The entry that a result starts: it lists at least its own provider. */
  function Opened(r: SearchResult): SearchResult {
    if r.providers == [] && r.provider != [] then r.(providers := [r.provider]) else r
  }

  /** The entry for a page: the first result, with the best score and with every later provider. */
  function Entry(group: seq<SearchResult>): SearchResult
    requires group != []
  {
    if |group| == 1 then Opened(group[0])
    else
      var e, last := Entry(group[..|group| - 1]), group[|group| - 1];
      e.(score := if last.score > e.score then last.score
         else e.score, providers := WithName(e.providers, last.provider))
  }

  lemma {:induction false} PagesHaveGroups(key: Str -> Str, results: seq<SearchResult>, i: nat)
    requires i < |Pages(key, results)|
    ensures Pages(key, results)[i] != [] && Group(key, results, Pages(key, results)[i]) != []
  {
    if results != [] {
      var before := results[..|results| - 1];
      if i < |Pages(key, before)| { PagesHaveGroups(key, before, i); }
    }
  }

  lemma {:induction false} GroupsHavePages(key: Str -> Str, results: seq<SearchResult>, page: Str)
    requires page != []
    ensures page in Pages(key, results) <==> Group(key, results, page) != []
  {
    if results != [] { GroupsHavePages(key, results[..|results| - 1], page); }
  }

  function Deduplicated(key: Str -> Str, results: seq<SearchResult>): (merged: seq<SearchResult>)
    ensures |merged| == |Pages(key, results)|
  {
    var pages := Pages(key, results);
    seq(|pages|, i requires 0 <= i < |pages| => PagesHaveGroups(key, results, i); Entry(Group(key, results, pages[i])))
  }

  function AllOpened(results: seq<SearchResult>): seq<SearchResult> {
    seq(|results|, i requires 0 <= i < |results| => Opened(results[i]))
  }

  function Merged(key: Str -> Str, results: seq<SearchResult>, dedupe: bool): seq<SearchResult> {
    if dedupe then Deduplicated(key, results) else AllOpened(Usable(key, results))
  }

  function FirstOf(s: seq<SearchResult>, limit: int): seq<SearchResult> {
    if 0 < limit < |s| then s[..limit] else s
  }

  // ---------- the merge ----------

  ghost predicate Indexes(seen: map<Str, nat>, pages: seq<Str>) {
    && (forall p :: p in seen <==> p in pages)
    && (forall p :: p in seen ==> seen[p] < |pages| && pages[seen[p]] == p)
  }

  lemma PagesDistinct(key: Str -> Str, results: seq<SearchResult>)
    ensures Distinct(Pages(key, results))
  {
    if results != [] { PagesDistinct(key, results[..|results| - 1]); }
  }

  lemma EntryNext(key: Str -> Str, results: seq<SearchResult>, r: SearchResult, i: nat)
    requires i < |Pages(key, results)|
    ensures i < |Pages(key, results + [r])| && Pages(key, results + [r])[i] == Pages(key, results)[i]
    ensures var e := Deduplicated(key, results)[i];
      Deduplicated(key, results + [r])[i] ==
        if Pages(key, results)[i] != key(r.url) then e
        else e.(providers := WithName(e.providers, r.provider), score := if r.score > e.score then r.score else e.score)
  {
    var page := Pages(key, results)[i];
    var g := Group(key, results, page);
    assert (results + [r])[..|results + [r]| - 1] == results;
    PagesHaveGroups(key, results, i);
    PagesHaveGroups(key, results + [r], i);
    assert Deduplicated(key, results)[i] == Entry(g);
    assert Deduplicated(key, results + [r])[i] == Entry(Group(key, results + [r], page));
    assert (g + [r])[..|g + [r]| - 1] == g;
    assert g + [] == g;
  }

  lemma EntryNew(key: Str -> Str, results: seq<SearchResult>, r: SearchResult)
    requires key(r.url) != [] && key(r.url) !in Pages(key, results)
    ensures var n := |Pages(key, results)|; var pages := Pages(key, results + [r]);
      |pages| == n + 1 && pages[n] == key(r.url) && Deduplicated(key, results + [r])[n] == Opened(r)
  {
    assert (results + [r])[..|results + [r]| - 1] == results;
    GroupsHavePages(key, results, key(r.url));
    PagesHaveGroups(key, results + [r], |Pages(key, results)|);
    assert Group(key, results + [r], key(r.url)) == [r];
  }

  /** One more result changes the entry of its page and nothing else. */
  lemma DeduplicatedNext(key: Str -> Str, results: seq<SearchResult>, r: SearchResult)
    ensures var before, after, page := Deduplicated(key, results), Deduplicated(key, results + [r]), key(r.url);
      if page == [] then after == before
      else if page !in Pages(key, results) then after == before + [Opened(r)]
      else forall i :: 0 <= i < |before| && Pages(key, results)[i] == page ==>
        after == before[i := before[i].(providers := WithName(before[i].providers, r.provider),
                                        score := if r.score > before[i].score then r.score else before[i].score)]
  {
    PagesDistinct(key, results);
    PagesNext(key, results, r);
    if key(r.url) != [] && key(r.url) !in Pages(key, results) { EntryNew(key, results, r); }
    var before, after := Deduplicated(key, results), Deduplicated(key, results + [r]);
    forall i | 0 <= i < |before| ensures after[i] == EntryAfter(before[i], Pages(key, results)[i], key, r) {
      EntryNext(key, results, r, i);
    }
    EntriesAfter(before, after, Pages(key, results), key, r);
    hide Deduplicated, Pages, WithName, Opened, EntryAfter;
  }

  /** If the entries change one by one as said, at most the one of the result's page does. */
  lemma EntriesAfter(before: seq<SearchResult>, after: seq<SearchResult>, pages: seq<Str>, key: Str -> Str,
                     r: SearchResult)
    requires |before| == |pages| <= |after| && Distinct(pages)
    requires forall i :: 0 <= i < |before| ==> after[i] == EntryAfter(before[i], pages[i], key, r)
    ensures key(r.url) !in pages ==> before <= after
    ensures |after| == |before| ==> forall i :: 0 <= i < |before| && pages[i] == key(r.url) ==>
      after == before[i := before[i].(providers := WithName(before[i].providers, r.provider),
                                      score := if r.score > before[i].score then r.score else before[i].score)]
  {
    hide WithName;
  }

  /** An entry after one more result: changed if the result has its page. */
  ghost function EntryAfter(e: SearchResult, page: Str, key: Str -> Str, r: SearchResult): SearchResult {
    if page != key(r.url) then e
    else e.(providers := WithName(e.providers, r.provider), score := if r.score > e.score then r.score else e.score)
  }

  lemma PagesNext(key: Str -> Str, results: seq<SearchResult>, r: SearchResult)
    ensures |Pages(key, results + [r])| ==
      |Pages(key, results)| + if key(r.url) == [] || key(r.url) in Pages(key, results) then 0 else 1
    ensures forall i :: 0 <= i < |Pages(key, results)| ==> Pages(key, results)[i] != []
  {
    assert (results + [r])[..|results + [r]| - 1] == results;
    forall i | 0 <= i < |Pages(key, results)| ensures Pages(key, results)[i] != [] {
      PagesHaveGroups(key, results, i);
    }
  }

  method MergeOne(key: Str -> Str, merged: seq<SearchResult>, seen: map<Str, nat>, dedupe: bool, result: SearchResult,
                  ghost results: seq<SearchResult>)
    returns (merged': seq<SearchResult>, seen': map<Str, nat>, duplicate: bool)
    requires merged == Merged(key, results, dedupe) && (dedupe ==> Indexes(seen, Pages(key, results)))
    ensures merged' == Merged(key, results + [result], dedupe)
      && (dedupe ==> Indexes(seen', Pages(key, results + [result])))
    ensures duplicate <==> dedupe && key(result.url) != [] && key(result.url) in Pages(key, results)
  {
    assert (results + [result])[..|results + [result]| - 1] == results;
    DeduplicatedNext(key, results, result);
    var canonical := key(result.url);
    if canonical == [] {
      return merged, seen, false;
    }
    seen' := seen;
    if dedupe {
      if canonical in seen {
        var existing := merged[seen[canonical]];
        var names := AppendUnique(existing.providers, result.provider);
        existing := existing.(providers := names);
        if result.score > existing.score {
          existing := existing.(score := result.score);
        }
        return merged[seen[canonical] := existing], seen, true;
      }
      seen' := seen[canonical := |merged|];
    }
    var entry := result;
    if |result.providers| == 0 && result.provider != [] {
      entry := result.(providers := [result.provider]);
    }
    return merged + [entry], seen', false;
  }

  /** How many results are absorbed by an earlier entry. */
  function Absorbed(key: Str -> Str, results: seq<SearchResult>, dedupe: bool): int {
    if dedupe then |Usable(key, results)| - |Pages(key, results)| else 0
  }

  lemma Initially(key: Str -> Str, dedupe: bool)
    ensures Merged(key, [], dedupe) == [] && Absorbed(key, [], dedupe) == 0 && Indexes(map[], Pages(key, []))
  {
  }

  lemma AbsorbedNext(key: Str -> Str, results: seq<SearchResult>, dedupe: bool, r: SearchResult)
    ensures Absorbed(key, results + [r], dedupe)
         == Absorbed(key, results, dedupe) + if dedupe && key(r.url) != []
           && key(r.url) in Pages(key, results) then 1 else 0
  {
    assert (results + [r])[..|results + [r]| - 1] == results;
  }

  method MergeResults(key: Str -> Str, executions: seq<seq<SearchResult>>, dedupeSetting: Option<bool>, limit: int)
    returns (out: seq<SearchResult>, deduped: int)
    ensures var dedupe := dedupeSetting.None? || dedupeSetting.value;
      && out == FirstOf(Sort(Merged(key, Flatten(executions), dedupe), Before), limit)
      && deduped == Absorbed(key, Flatten(executions), dedupe)
      && (forall r, i :: r in Merged(key, Flatten(executions), dedupe) && r !in out && 0 <= i < |out| ==>
            r.score <= out[i].score)
    ensures forall i, j :: 0 <= i < j < |out| ==> out[i].score >= out[j].score
    ensures forall i, j :: 0 <= i < j < |out| && out[i].score == out[j].score ==>
      !ByteLess(out[j].title, out[i].title)
  {
    hide Pages, Usable, Group, Entry;
    var merged: seq<SearchResult>, seen: map<Str, nat> := [], map[];
    Initially(key, dedupeSetting.None? || dedupeSetting.value);
    hide Merged, Deduplicated, Absorbed, Indexes;
    deduped := 0;
    var dedupe := dedupeSetting.None? || dedupeSetting.value;
    ghost var results: seq<SearchResult> := [];
    for e := 0 to |executions|
      invariant results == Flatten(executions[..e])
      invariant merged == Merged(key, results, dedupe) && (dedupe ==> Indexes(seen, Pages(key, results)))
      invariant deduped == Absorbed(key, results, dedupe)
    {
      var execution := executions[e];
      ghost var before := results;
      for i := 0 to |execution|
        invariant results == before + execution[..i]
        invariant merged == Merged(key, results, dedupe) && (dedupe ==> Indexes(seen, Pages(key, results)))
        invariant deduped == Absorbed(key, results, dedupe)
      {
        var duplicate;
        merged, seen, duplicate := MergeOne(key, merged, seen, dedupe, execution[i], results);
        AbsorbedNext(key, results, dedupe, execution[i]);
        if duplicate {
          deduped := deduped + 1;
        }
        results := results + [execution[i]];
      }
      assert executions[..e + 1][..e] == executions[..e];
    }
    assert executions[..|executions|] == executions;
    out := Sort(merged, Before);
    if limit > 0 && |out| > limit {
      out := out[..limit];
    }
    BestFirst(merged, limit);
  }

  // ---------- what that means ----------

  /** Every usable result is either an entry before the limit or counted as absorbed. */
  lemma {:induction false} NothingLost(key: Str -> Str, results: seq<SearchResult>, dedupe: bool)
    ensures |Merged(key, results, dedupe)| + Absorbed(key, results, dedupe) == |Usable(key, results)|
    ensures 0 <= Absorbed(key, results, dedupe)
  {
    if results != [] { NothingLost(key, results[..|results| - 1], dedupe); }
  }

  /** With deduplication there is exactly one entry for each page that a result has. */
  lemma OneEntryPerPage(key: Str -> Str, results: seq<SearchResult>, page: Str)
    requires page != []
    ensures Distinct(Pages(key, results)) && |Deduplicated(key, results)| == |Pages(key, results)|
    ensures page in Pages(key, results) <==> exists r :: r in results && key(r.url) == page
    ensures forall i :: 0 <= i < |Deduplicated(key, results)| ==>
      key(Deduplicated(key, results)[i].url) == Pages(key, results)[i]
  {
    PagesDistinct(key, results);
    GroupsHavePages(key, results, page);
    GroupMembers(key, results, page);
    if Group(key, results, page) != [] { assert Group(key, results, page)[0] in results; }
    forall i | 0 <= i < |Deduplicated(key, results)|
      ensures key(Deduplicated(key, results)[i].url) == Pages(key, results)[i] {
      PagesHaveGroups(key, results, i);
      GroupMembers(key, results, Pages(key, results)[i]);
      EntryIsBest(Group(key, results, Pages(key, results)[i]));
    }
  }

  lemma {:induction false} GroupMembers(key: Str -> Str, results: seq<SearchResult>, page: Str)
    ensures forall r :: r in Group(key, results, page) <==> r in results && key(r.url) == page
  {
    if results != [] {
      var before := results[..|results| - 1];
      GroupMembers(key, before, page);
      assert results == before + [results[|results| - 1]];
    }
  }

  /** An entry starts with the names its result lists, or with that of the result's provider. */
  lemma OpenedSays(r: SearchResult)
    ensures Opened(r) == r.(providers := Opened(r).providers)
    ensures r.providers != [] ==> Opened(r).providers == r.providers
    ensures r.providers == [] && r.provider != [] ==> Opened(r).providers == [r.provider]
    ensures r.providers == [] && r.provider == [] ==> Opened(r).providers == []
  {
  }

  /**
   * The entry keeps the first result, has the highest score of its group and names every provider that
   * found the page.
   */
  lemma EntryIsBest(group: seq<SearchResult>)
    requires group != []
    ensures var e := Entry(group);
      && e == group[0].(score := e.score, providers := e.providers)
      && (forall r :: r in group ==> r.score <= e.score) && (exists r :: r in group && r.score == e.score)
      && (forall i :: 1 <= i < |group| && group[i].provider != [] ==> group[i].provider in e.providers)
      && (forall n :: n in Opened(group[0]).providers ==> n in e.providers)
      && (forall n :: n in e.providers ==>
        n in Opened(group[0]).providers || exists i :: 1 <= i < |group| && group[i].provider == n)
  {
    EntryScore(group);
    EntryNames(group);
    hide Entry, Opened;
  }

  lemma {:induction false} EntryScore(group: seq<SearchResult>)
    requires group != []
    ensures var e := Entry(group);
      && e == group[0].(score := e.score, providers := e.providers)
      && (forall r :: r in group ==> r.score <= e.score) && (exists r :: r in group && r.score == e.score)
  {
    hide WithName;
    if |group| == 1 {
      assert group[0] in group;
    } else {
      var before, last := group[..|group| - 1], group[|group| - 1];
      EntryScore(before);
      assert group == before + [last] && last in group;
      var r :| r in before && r.score == Entry(before).score;
      assert r in group;
    }
  }

  lemma {:induction false} EntryNames(group: seq<SearchResult>)
    requires group != []
    ensures var e := Entry(group);
      && (forall i :: 1 <= i < |group| && group[i].provider != [] ==> group[i].provider in e.providers)
      && (forall n :: n in Opened(group[0]).providers ==> n in e.providers)
      && (forall n :: n in e.providers ==>
        n in Opened(group[0]).providers || exists i :: 1 <= i < |group| && group[i].provider == n)
  {
    if |group| > 1 {
      var before, last := group[..|group| - 1], group[|group| - 1];
      EntryNames(before);
      var e := Entry(before);
      NamesWith(e.providers, last.provider);
      hide WithName, Opened;
      forall n | n in Entry(group).providers
        ensures n in Opened(group[0]).providers || exists i :: 1 <= i < |group| && group[i].provider == n
      {
        if n in e.providers && n !in Opened(before[0]).providers {
          var i :| 1 <= i < |before| && before[i].provider == n;
          assert group[i].provider == n;
        }
      }
    }
  }

  lemma NamesWith(names: seq<Str>, name: Str)
    ensures forall n :: n in WithName(names, name) <==> n in names || (n == name && name != [])
  {
  }


  /**
   * The output in its own terms: scores fall, titles of equal scores rise in byte order, and nothing
   * with a higher score than a kept entry is cut off.
   */
  lemma BestFirst(merged: seq<SearchResult>, limit: int)
    ensures var out := FirstOf(Sort(merged, Before), limit);
      && (forall i, j :: 0 <= i < j < |out| ==> out[i].score >= out[j].score)
      && (forall i, j :: 0 <= i < j < |out| && out[i].score == out[j].score ==>
            !ByteLess(out[j].title, out[i].title))
      && (forall r, i :: r in merged && r !in out && 0 <= i < |out| ==> r.score <= out[i].score)
  {
    var sorted := Sort(merged, Before);
    BeforeIsStrictWeakOrder();
    SortPermutes(merged, Before);
    SortOrders(merged, Before);
    forall i, j | 0 <= i < j < |sorted| && sorted[i].score == sorted[j].score
      ensures !ByteLess(sorted[j].title, sorted[i].title) {
      assert !Before(sorted[j], sorted[i]);
      StrLessIsByteOrder(sorted[j].title, sorted[i].title);
    }
    hide Sort, StrLess, ByteLess;
    SortedCut(merged, sorted, limit);
  }

  /** Of a ranking that has all entries, the first ones leave out nothing better than themselves. */
  lemma SortedCut(merged: seq<SearchResult>, sorted: seq<SearchResult>, limit: int)
    requires multiset(sorted) == multiset(merged) && Ordered(sorted, Before)
    ensures var out := FirstOf(sorted, limit);
      && (forall i, j :: 0 <= i < j < |out| ==> out[i].score >= out[j].score)
      && (forall r, i :: r in merged && r !in out && 0 <= i < |out| ==> r.score <= out[i].score)
  {
    var out := FirstOf(sorted, limit);
    hide StrLess;
    forall i, j | 0 <= i < j < |sorted| ensures sorted[i].score >= sorted[j].score {
      assert !Before(sorted[j], sorted[i]);
    }
    forall r, i | r in merged && r !in out && 0 <= i < |out| ensures r.score <= out[i].score {
      assert r in multiset(merged) && r in sorted;
      var j :| 0 <= j < |sorted| && sorted[j] == r;
      assert j >= |out|;
    }
  }

  /**
   * The output is ranked, is made of merged entries, keeps equally ranked entries in the order of
   * the merge, and whatever the limit cuts off ranks no higher than anything it keeps.
   */
  lemma OutputIsRanked(merged: seq<SearchResult>, limit: int, p: SearchResult)
    ensures var sorted := Sort(merged, Before); var out := FirstOf(sorted, limit);
      && Ordered(out, Before) && out <= sorted
      && multiset(sorted) == multiset(merged) && Peers(sorted, Before, p) == Peers(merged, Before, p)
      && (forall i, j :: 0 <= i < |out| && |out| <= j < |sorted| ==> !Before(sorted[j], out[i]))
      && |out| == (if 0 < limit < |merged| then limit else |merged|)
  {
    BeforeIsStrictWeakOrder();
    SortPermutes(merged, Before);
    SortOrders(merged, Before);
    SortKeepsPeers(merged, Before, p);
  }
}
