/**
 * Extract's data and the merge of the executions of several providers. URLs are compared by a
 * key function, a parameter here, which normalises scheme, host, port and fragment.
 */
module ExtractTypes {
  import opened Wrappers
  import opened Utf8

  /** Provider metadata, known by the size of its JSON encoding; `None` cannot be encoded. */
  datatype Raw = Raw(encoded: Option<nat>)

  type FractionDigits = n: nat | n <= 9

  /** A date, by what its JSON encoding depends on; `zone` is the offset from UTC in seconds. */
  datatype Date = Date(year: int, fraction: FractionDigits, zone: int)

  datatype Result = Result(
    url: Str, title: Str, content: Str, contentTruncated: bool, format: Str,
    provider: Str, providers: seq<Str>, images: seq<Str>, imagesTruncated: bool,
    favicon: Str, author: Str, publishedAt: Option<Date>, raw: Option<Raw>, rawTruncated: bool)

  datatype Failure = Failure(url: Str, provider: Str, errorType: Str, error: Str)

  datatype CallError = CallError(kind: Str, message: Str)

  /** What calling one provider yielded: the error, if any, may come after some results. */
  datatype Execution = Execution(provider: Str, err: Option<CallError>, results: seq<Result>,
                                 failedResults: seq<Failure>)

  type UrlKey = Str -> Str

  ghost predicate DistinctUrls(urls: seq<Str>, key: UrlKey) {
    forall i, j :: 0 <= i < j < |urls| ==> key(urls[i]) != key(urls[j])
  }
}

module ExtractMerge {
  import opened Wrappers
  import opened Utf8
  import opened ExtractTypes
  import opened UniqueNames
  import opened StableSort

  const MAX_URL_BYTES := 8192
  const MAX_ERROR_BYTES := 4096

  // ---------- the first execution wins, later ones fill gaps ----------

  /** A field keeps its value; an empty one takes the candidate's. */
  function Gap<T(==)>(target: T, candidate: T, empty: T): T {
    if target == empty then candidate else target
  }

  function FillGaps(target: Result, candidate: Result): Result {
    target.(
      title := Gap(target.title, candidate.title, []),
      content := Gap(target.content, candidate.content, []),
      format := Gap(target.format, candidate.format, []),
      images := Gap(target.images, candidate.images, []),
      favicon := Gap(target.favicon, candidate.favicon, []),
      author := Gap(target.author, candidate.author, []),
      publishedAt := Gap(target.publishedAt, candidate.publishedAt, None),
      raw := Gap(target.raw, candidate.raw, None))
  }

  function WithNames(values: seq<Str>, names: seq<Str>): seq<Str> {
    if names == [] then values else WithName(WithNames(values, names[..|names| - 1]), names[|names| - 1])
  }

  function Opened(r: Result): Result {
    if r.providers == [] && r.provider != [] then r.(providers := [r.provider]) else r
  }

  function Joined(existing: Result, r: Result): Result {
    FillGaps(existing.(providers := WithName(WithNames(existing.providers, r.providers), r.provider)), r)
  }

  /** The merge of all results for one URL, in the order of the executions. */
  function MergedHits(hits: seq<Result>): Result
    requires hits != []
  {
    if |hits| == 1 then Opened(hits[0]) else Joined(MergedHits(hits[..|hits| - 1]), hits[|hits| - 1])
  }

  function FirstNonEmpty<T(==)>(values: seq<T>, empty: T): T {
    if values == [] then empty else if values[0] != empty then values[0] else FirstNonEmpty(values[1..], empty)
  }

  lemma {:induction false} FirstNonEmptyAppend<T>(values: seq<T>, value: T, empty: T)
    ensures FirstNonEmpty(values + [value], empty) == Gap(FirstNonEmpty(values, empty), value, empty)
  {
    if values == [] {
      assert ([] + [value])[1..] == [];
    } else {
      FirstNonEmptyAppend(values[1..], value, empty);
      assert (values + [value])[1..] == values[1..] + [value];
    }
  }

  function Column<T>(hits: seq<Result>, field: Result -> T): seq<T> {
    seq(|hits|, i requires 0 <= i < |hits| => field(hits[i]))
  }

  function Title(r: Result): Str { r.title }
  function Content(r: Result): Str { r.content }
  function Format(r: Result): Str { r.format }
  function Images(r: Result): seq<Str> { r.images }
  function Favicon(r: Result): Str { r.favicon }
  function Author(r: Result): Str { r.author }
  function PublishedAt(r: Result): Option<Date> { r.publishedAt }
  function RawOf(r: Result): Option<Raw> { r.raw }

  lemma ColumnLast<T>(hits: seq<Result>, field: Result -> T)
    requires hits != []
    ensures Column(hits, field) == Column(hits[..|hits| - 1], field) + [field(hits[|hits| - 1])]
  {
  }

  lemma FieldStep<T>(hits: seq<Result>, field: Result -> T, empty: T)
    requires hits != []
    ensures FirstNonEmpty(Column(hits, field), empty)
            == Gap(FirstNonEmpty(Column(hits[..|hits| - 1], field), empty), field(hits[|hits| - 1]), empty)
  {
    ColumnLast(hits, field);
    FirstNonEmptyAppend(Column(hits[..|hits| - 1], field), field(hits[|hits| - 1]), empty);
  }

  /** Each field of a merged result is the first non-empty one; the URL and the primary provider are the first. */
  lemma {:induction false} EarliestFieldWins(hits: seq<Result>)
    requires hits != []
    ensures var m := MergedHits(hits);
      && m.url == hits[0].url && m.provider == hits[0].provider
      && m.title == FirstNonEmpty(Column(hits, Title), [])
      && m.content == FirstNonEmpty(Column(hits, Content), [])
      && m.format == FirstNonEmpty(Column(hits, Format), [])
      && m.images == FirstNonEmpty(Column(hits, Images), [])
      && m.favicon == FirstNonEmpty(Column(hits, Favicon), [])
      && m.author == FirstNonEmpty(Column(hits, Author), [])
      && m.publishedAt == FirstNonEmpty(Column(hits, PublishedAt), None)
      && m.raw == FirstNonEmpty(Column(hits, RawOf), None)
  {
    var earlier := hits[..|hits| - 1];
    if |hits| > 1 { EarliestFieldWins(earlier); }
    FieldStep(hits, Title, []);
    FieldStep(hits, Content, []);
    FieldStep(hits, Format, []);
    FieldStep(hits, Images, []);
    FieldStep(hits, Favicon, []);
    FieldStep(hits, Author, []);
    FieldStep(hits, PublishedAt, None);
    FieldStep(hits, RawOf, None);
    hide FirstNonEmpty, Column, WithName, WithNames;
    if |hits| == 1 {
      EmptyColumns(earlier);
    }
  }

  lemma EmptyColumns(none: seq<Result>)
    requires none == []
    ensures forall field: Result -> Str, empty :: FirstNonEmpty(Column(none, field), empty) == empty
    ensures forall field: Result -> seq<Str>, empty :: FirstNonEmpty(Column(none, field), empty) == empty
    ensures forall field: Result -> Option<Date>, empty :: FirstNonEmpty(Column(none, field), empty) == empty
    ensures forall field: Result -> Option<Raw>, empty :: FirstNonEmpty(Column(none, field), empty) == empty
  {
  }

  // ---------- the results for one URL ----------

  /** All results of some executions, in order. */
  function AllResults(executions: seq<Execution>): seq<Result> {
    if executions == [] then [] else AllResults(executions[..|executions| - 1]) + executions[|executions| - 1].results
  }

  /** Of some results, those for the URL with key `k`. */
  function Hits(results: seq<Result>, key: UrlKey, k: Str): seq<Result> {
    if results == [] then []
    else
      var last := results[|results| - 1];
      Hits(results[..|results| - 1], key, k) + if key(last.url) == k then [last] else []
  }

  lemma {:induction false} HitsMatch(results: seq<Result>, key: UrlKey, k: Str)
    ensures forall r :: r in Hits(results, key, k) <==> r in results && key(r.url) == k
  {
    if results != [] {
      HitsMatch(results[..|results| - 1], key, k);
      assert results == results[..|results| - 1] + [results[|results| - 1]];
    }
  }

  lemma {:induction false} HitsConcat(a: seq<Result>, b: seq<Result>, key: UrlKey, k: Str)
    ensures Hits(a + b, key, k) == Hits(a, key, k) + Hits(b, key, k)
  {
    if b == [] {
      assert a + b == a;
    } else {
      HitsConcat(a, b[..|b| - 1], key, k);
      assert (a + b)[..|a + b| - 1] == a + b[..|b| - 1];
    }
  }

  lemma HitsAppend(seen: seq<Result>, r: Result, key: UrlKey)
    ensures forall k :: Hits(seen + [r], key, k) == Hits(seen, key, k) + if key(r.url) == k then [r] else []
  {
    assert (seen + [r])[..|seen|] == seen;
  }

  predicate Resolved(results: seq<Result>, key: UrlKey, k: Str) {
    k != [] && Hits(results, key, k) != []
  }

  /** A name is given by a later result of a merge. */
  ghost predicate GivenLater(hits: seq<Result>, name: Str) {
    name != [] && exists i :: 1 <= i < |hits| && (name in hits[i].providers || name == hits[i].provider)
  }

  lemma GivenLaterStep(hits: seq<Result>, name: Str)
    requires |hits| > 1
    ensures var n := |hits| - 1;
      GivenLater(hits, name) <==>
        GivenLater(hits[..n], name) || (name != [] && (name in hits[n].providers || name == hits[n].provider))
  {
    var n := |hits| - 1;
    forall i | 1 <= i < n ensures hits[..n][i] == hits[i] {}
  }

  lemma JoinedNames(existing: Result, r: Result, name: Str)
    ensures name in Joined(existing, r).providers <==>
      name in existing.providers || (name != [] && (name in r.providers || name == r.provider))
  {
    WithNamesHas(existing.providers, r.providers, name);
    hide WithNames;
  }

  /** A name is listed by a merged result exactly if one of its results gives it. */
  lemma {:induction false} NamesOfAll(hits: seq<Result>, name: Str)
    requires hits != []
    ensures name in MergedHits(hits).providers <==>
      || name in hits[0].providers
      || (hits[0].providers == [] && name == hits[0].provider && name != [])
      || GivenLater(hits, name)
  {
    if |hits| > 1 {
      var n := |hits| - 1;
      NamesOfAll(hits[..n], name);
      JoinedNames(MergedHits(hits[..n]), hits[n], name);
      GivenLaterStep(hits, name);
      hide Joined, GivenLater, Opened;
    }
  }

  lemma {:induction false} WithNamesHas(values: seq<Str>, names: seq<Str>, name: Str)
    ensures name in WithNames(values, names) <==> name in values || (name != [] && name in names)
  {
    if names != [] {
      WithNamesHas(values, names[..|names| - 1], name);
      assert names == names[..|names| - 1] + [names[|names| - 1]];
    }
  }

  // ---------- the two lists in request order ----------

  /** The indices, in order, of the requested URLs that are (not) resolved. */
  function Positions(requested: seq<Str>, results: seq<Result>, key: UrlKey, want: bool): (p: seq<nat>)
    ensures forall a :: 0 <= a < |p| ==> p[a] < |requested|
    ensures forall a, b :: 0 <= a < b < |p| ==> p[a] < p[b]
  {
    if requested == [] then []
    else
      var n := |requested| - 1;
      Positions(requested[..n], results, key, want) + if Resolved(results, key, key(requested[n])) == want then [n]
        else []
  }

  lemma {:induction false} PositionsMember(requested: seq<Str>, results: seq<Result>, key: UrlKey, want: bool, i: nat)
    requires i < |requested|
    ensures i in Positions(requested, results, key, want) <==> Resolved(results, key, key(requested[i])) == want
  {
    hide Resolved;
    var n := |requested| - 1;
    if i < n {
      PositionsMember(requested[..n], results, key, want, i);
      assert requested[..n][i] == requested[i];
    } else {
      assert n !in Positions(requested[..n], results, key, want);
    }
  }

  lemma {:induction false} PositionsCount(requested: seq<Str>, results: seq<Result>, key: UrlKey)
    ensures |Positions(requested, results, key, true)| + |Positions(requested, results, key, false)| == |requested|
  {
    hide Resolved;
    if requested != [] { PositionsCount(requested[..|requested| - 1], results, key); }
  }

  lemma PositionsPartition(requested: seq<Str>, results: seq<Result>, key: UrlKey)
    ensures forall i :: 0 <= i < |requested| ==>
      (i in Positions(requested, results, key, true) <==> Resolved(results, key, key(requested[i])))
    ensures forall i :: 0 <= i < |requested| ==>
      (i in Positions(requested, results, key, false) <==> !Resolved(results, key, key(requested[i])))
    ensures |Positions(requested, results, key, true)| + |Positions(requested, results, key, false)| == |requested|
  {
    PositionsCount(requested, results, key);
    hide Positions, Resolved;
    forall i | 0 <= i < |requested|
      ensures i in Positions(requested, results, key, true) <==> Resolved(results, key, key(requested[i]))
      ensures i in Positions(requested, results, key, false) <==> !Resolved(results, key, key(requested[i]))
    {
      PositionsMember(requested, results, key, true, i);
      PositionsMember(requested, results, key, false, i);
    }
  }

  function ExpectedResults(requested: seq<Str>, results: seq<Result>, key: UrlKey): seq<Result> {
    var p := Positions(requested, results, key, true);
    seq(|p|, a requires 0 <= a < |p| => ResultFor(results, key, key(requested[p[a]])))
  }

  function ResultFor(results: seq<Result>, key: UrlKey, k: Str): Result {
    var hits := Hits(results, key, k);
    if hits == [] then Result([], [], [], false, [], [], [], [], false, [], [], None, None, false) else MergedHits(hits)
  }

  function ExpectedFailures(requested: seq<Str>, executions: seq<Execution>, key: UrlKey): seq<Failure> {
    var p := Positions(requested, AllResults(executions), key, false);
    seq(|p|, a requires 0 <= a < |p| => FailureFor(executions, key, requested[p[a]]))
  }

  // ---------- the failure reported for a URL ----------

  datatype Complaint = Complaint(provider: Str, kind: Str, message: Str)

  function FailureComplaints(provider: Str, failures: seq<Failure>, key: UrlKey, k: Str): seq<Complaint> {
    if failures == [] then []
    else
      var f := failures[|failures| - 1];
      FailureComplaints(provider, failures[..|failures| - 1], key, k) +
      if key(f.url) == k then [Complaint(if f.provider == [] then provider else f.provider, f.errorType, f.error)]
        else []
  }

  function ErrorComplaint(e: Execution): seq<Complaint> {
    match e.err case None => [] case Some(err) => [Complaint(e.provider, err.kind, err.message)]
  }

  /** Everything said against the URL with key `k`, in order. */
  function Complaints(executions: seq<Execution>, key: UrlKey, k: Str): seq<Complaint> {
    if executions == [] then []
    else
      var e := executions[|executions| - 1];
      Complaints(executions[..|executions| - 1], key, k) + FailureComplaints(e.provider, e.failedResults, key, k)
        + ErrorComplaint(e)
  }

  function Line(c: Complaint): Str { c.provider + Ascii(": ") + c.message }

  function Lines(complaints: seq<Complaint>): seq<Str> {
    seq(|complaints|, i requires 0 <= i < |complaints| => Line(complaints[i]))
  }

  function Names(complaints: seq<Complaint>): seq<Str> {
    if complaints == [] then []
      else WithName(Names(complaints[..|complaints| - 1]), complaints[|complaints| - 1].provider)
  }

  function FirstKind(complaints: seq<Complaint>): Str {
    if complaints == [] then []
    else Gap(FirstKind(complaints[..|complaints| - 1]), complaints[|complaints| - 1].kind, [])
  }

  function Join(lines: seq<Str>, separator: Str): Str {
    if lines == [] then [] else if |lines| == 1 then lines[0] else lines[0] + separator + Join(lines[1..], separator)
  }

  function Bounded(f: Failure): Failure {
    Failure(Truncated(f.url, MAX_URL_BYTES), Truncated(f.provider, 64), Truncated(f.errorType, 64),
            Truncated(f.error, MAX_ERROR_BYTES))
  }

  function FailureFrom(url: Str, complaints: seq<Complaint>): Failure {
    var lines := if complaints == [] then [Ascii("no provider returned extracted content")] else Lines(complaints);
    var names := Names(complaints);
    Bounded(Failure(url, if |names| == 1 then names[0] else [], FirstKind(complaints), Join(lines, Ascii("; "))))
  }

  function FailureFor(executions: seq<Execution>, key: UrlKey, url: Str): Failure {
    FailureFrom(url, Complaints(executions, key, key(url)))
  }

  // ---------- what a failure says ----------

  /** The complaint is a failure that this execution reports for the URL, or its error. */
  ghost predicate SaidBy(e: Execution, key: UrlKey, k: Str, c: Complaint) {
    || (exists j :: 0 <= j < |e.failedResults| && SaidAt(e, key, k, c, j))
    || (e.err.Some? && c.provider == e.provider && c.kind == e.err.value.kind && c.message == e.err.value.message)
  }

  ghost predicate SaidAt(e: Execution, key: UrlKey, k: Str, c: Complaint, j: nat)
    requires j < |e.failedResults|
  {
    var f := e.failedResults[j];
    && key(f.url) == k && c.kind == f.errorType && c.message == f.error
    && c.provider == if f.provider != [] then f.provider else e.provider
  }

  lemma {:induction false} FailuresSaid(provider: Str, failures: seq<Failure>, key: UrlKey, k: Str, c: Complaint)
    ensures c in FailureComplaints(provider, failures, key, k) <==>
      exists j :: 0 <= j < |failures| && SaidAt(Execution(provider, None, [], failures), key, k, c, j)
    ensures |FailureComplaints(provider, failures, key, k)| == CountFor(failures, key, k)
  {
    if failures != [] {
      var n := |failures| - 1;
      FailuresSaid(provider, failures[..n], key, k, c);
      forall j | 0 <= j < n
        ensures SaidAt(Execution(provider, None, [], failures[..n]), key, k, c, j)
          == SaidAt(Execution(provider, None, [], failures), key, k, c, j) {}
      var f := failures[n];
      var last := if key(f.url) == k then [Complaint(if f.provider == [] then provider else f.provider, f.errorType,
                                                     f.error)] else [];
      assert c in last <==> SaidAt(Execution(provider, None, [], failures), key, k, c, n);
      assert FailureComplaints(provider, failures, key, k) == FailureComplaints(provider, failures[..n], key, k) + last;
      hide SaidAt, FailureComplaints;
    }
  }

  /** How many failures are for the URL. */
  ghost function CountFor(failures: seq<Failure>, key: UrlKey, k: Str): nat {
    if failures == [] then 0
    else CountFor(failures[..|failures| - 1], key, k) + if key(failures[|failures| - 1].url) == k then 1 else 0
  }

  ghost function CountAll(executions: seq<Execution>, key: UrlKey, k: Str): nat {
    if executions == [] then 0
    else
      var e := executions[|executions| - 1];
      CountAll(executions[..|executions| - 1], key, k) + CountFor(e.failedResults, key, k)
        + if e.err.Some? then 1 else 0
  }

  /**
   * The complaints about a URL are exactly the failures reported for it and the errors of the
   * executions, one for each; nothing that is said about another URL is among them.
   */
  lemma ComplaintsExactly(executions: seq<Execution>, key: UrlKey, k: Str, c: Complaint)
    ensures c in Complaints(executions, key, k) <==>
      exists i :: 0 <= i < |executions| && SaidBy(executions[i], key, k, c)
    ensures |Complaints(executions, key, k)| == CountAll(executions, key, k)
  {
    ComplaintsSaid(executions, key, k, c);
    ComplaintsCounted(executions, key, k);
    hide Complaints, SaidBy, CountAll;
  }

  /** What one execution says of the URL. */
  function SaidIn(e: Execution, key: UrlKey, k: Str): seq<Complaint> {
    FailureComplaints(e.provider, e.failedResults, key, k) + ErrorComplaint(e)
  }

  lemma LastSaid(executions: seq<Execution>, key: UrlKey, k: Str)
    requires executions != []
    ensures Complaints(executions, key, k)
      == Complaints(executions[..|executions| - 1], key, k) + SaidIn(executions[|executions| - 1], key, k)
  {
    hide FailureComplaints, ErrorComplaint;
  }

  ghost predicate SomeSays(executions: seq<Execution>, key: UrlKey, k: Str, c: Complaint) {
    exists i :: 0 <= i < |executions| && SaidBy(executions[i], key, k, c)
  }

  lemma SomeSaysStep(executions: seq<Execution>, key: UrlKey, k: Str, c: Complaint)
    requires executions != []
    ensures var n := |executions| - 1;
      SomeSays(executions, key, k, c) <==> SomeSays(executions[..n], key, k, c) || SaidBy(executions[n], key, k, c)
  {
    var n := |executions| - 1;
    hide SaidBy;
    forall i | 0 <= i < n ensures executions[..n][i] == executions[i] {}
  }

  lemma {:induction false} ComplaintsSaid(executions: seq<Execution>, key: UrlKey, k: Str, c: Complaint)
    ensures c in Complaints(executions, key, k) <==> SomeSays(executions, key, k, c)
  {
    if executions != [] {
      var n := |executions| - 1;
      ComplaintsSaid(executions[..n], key, k, c);
      OneExecution(executions[n], key, k, c);
      LastSaid(executions, key, k);
      SomeSaysStep(executions, key, k, c);
      hide SaidBy, SomeSays, SaidIn, Complaints;
    }
  }

  lemma {:induction false} ComplaintsCounted(executions: seq<Execution>, key: UrlKey, k: Str)
    ensures |Complaints(executions, key, k)| == CountAll(executions, key, k)
  {
    if executions != [] {
      var n := |executions| - 1;
      ComplaintsCounted(executions[..n], key, k);
      OneExecution(executions[n], key, k, Complaint([], [], []));
      LastSaid(executions, key, k);
      hide SaidBy, SaidIn, Complaints, CountFor;
    }
  }

  lemma OneExecution(e: Execution, key: UrlKey, k: Str, c: Complaint)
    ensures var said := SaidIn(e, key, k);
      && (c in said <==> SaidBy(e, key, k, c))
      && |said| == CountFor(e.failedResults, key, k) + if e.err.Some? then 1 else 0
  {
    FailuresSaid(e.provider, e.failedResults, key, k, c);
    forall j | 0 <= j < |e.failedResults|
      ensures SaidAt(Execution(e.provider, None, [], e.failedResults), key, k, c, j) == SaidAt(e, key, k, c, j) {}
    hide SaidAt, FailureComplaints, CountFor;
  }

  ghost predicate Contains(text: Str, part: Str) {
    exists a: Str, b: Str :: text == a + part + b
  }

  lemma {:induction false} JoinHas(lines: seq<Str>, separator: Str, i: nat)
    requires i < |lines|
    ensures Contains(Join(lines, separator), lines[i])
  {
    if |lines| == 1 {
      assert lines[0] == [] + lines[0] + [];
    } else if i == 0 {
      var rest := separator + Join(lines[1..], separator);
      assert Join(lines, separator) == [] + lines[0] + rest;
    } else {
      JoinHas(lines[1..], separator, i - 1);
      var a: Str, b: Str :| Join(lines[1..], separator) == a + lines[1..][i - 1] + b;
      assert Join(lines, separator) == (lines[0] + separator + a) + lines[i] + b;
    }
  }

  lemma WithNameHas(values: seq<Str>, value: Str, name: Str)
    ensures name in WithName(values, value) <==> name in values || (name == value && name != [])
  {
  }

  lemma {:induction false} NamesHas(complaints: seq<Complaint>, name: Str)
    ensures name in Names(complaints) <==>
      name != [] && exists i :: 0 <= i < |complaints| && complaints[i].provider == name
  {
    if complaints != [] {
      var n := |complaints| - 1;
      NamesHas(complaints[..n], name);
      WithNameHas(Names(complaints[..n]), complaints[n].provider, name);
      forall i | 0 <= i < n ensures complaints[..n][i] == complaints[i] {}
      hide WithName;
    }
  }

  lemma {:induction false} FirstKindIsFirst(complaints: seq<Complaint>, i: nat)
    requires i < |complaints| && complaints[i].kind != []
    requires forall j :: 0 <= j < i ==> complaints[j].kind == []
    ensures FirstKind(complaints) == complaints[i].kind
  {
    var n := |complaints| - 1;
    if i < n {
      FirstKindIsFirst(complaints[..n], i);
    } else {
      NoKind(complaints[..n]);
    }
  }

  lemma {:induction false} NoKind(complaints: seq<Complaint>)
    requires forall j :: 0 <= j < |complaints| ==> complaints[j].kind == []
    ensures FirstKind(complaints) == []
  {
    if complaints != [] { NoKind(complaints[..|complaints| - 1]); }
  }

  /**
   * A failure names its URL, the provider if only one complains, the first error type there is, and in
   * its error every complaint with its provider; each of them cut to its limit.
   */
  lemma FailureReports(executions: seq<Execution>, key: UrlKey, url: Str) returns (error: Str)
    ensures var f, said := FailureFor(executions, key, url), Complaints(executions, key, key(url));
      && f.url == Truncated(url, MAX_URL_BYTES) && f.error == Truncated(error, MAX_ERROR_BYTES)
      && (said == [] ==> error == Ascii("no provider returned extracted content"))
      && (forall i :: 0 <= i < |said| ==> Contains(error, said[i].provider + Ascii(": ") + said[i].message))
      && (forall i :: 0 <= i < |said| && said[i].kind != [] && (forall j :: 0 <= j < i ==> said[j].kind == []) ==>
            f.errorType == Truncated(said[i].kind, 64))
      && (forall name: Str :: OnlyFrom(said, name) ==> f.provider == Truncated(name, 64))
      && (FromTwo(said) ==> f.provider == [])
  {
    var said := Complaints(executions, key, key(url));
    error := Join(if said == [] then [Ascii("no provider returned extracted content")] else Lines(said), Ascii("; "));
    forall i | 0 <= i < |said| ensures Contains(error, said[i].provider + Ascii(": ") + said[i].message) {
      JoinHas(Lines(said), Ascii("; "), i);
    }
    forall i | 0 <= i < |said| && said[i].kind != [] && (forall j :: 0 <= j < i ==> said[j].kind == [])
      ensures FirstKind(said) == said[i].kind { FirstKindIsFirst(said, i); }
    hide Truncated, Contains, Complaints, FirstKind;
    OneName(said);
  }

  ghost predicate OnlyFrom(said: seq<Complaint>, name: Str) {
    name != [] && said != [] && forall i :: 0 <= i < |said| ==> said[i].provider == name
  }

  /** Two providers complain. */
  ghost predicate FromTwo(said: seq<Complaint>) {
    exists i, j :: 0 <= i < |said| && 0 <= j < |said| && said[i].provider != []
      && said[j].provider != [] && said[i].provider != said[j].provider
  }

  lemma OneName(said: seq<Complaint>)
    ensures forall name: Str :: OnlyFrom(said, name) ==> Names(said) == [name]
    ensures FromTwo(said) ==> |Names(said)| != 1
  {
    forall name: Str { NamesHas(said, name); }
    hide Names;
    forall name: Str | OnlyFrom(said, name) ensures Names(said) == [name] { OnlyName(said, name); }
    if FromTwo(said) {
      var i, j :| 0 <= i < |said| && 0 <= j < |said| && said[i].provider != []
        && said[j].provider != [] && said[i].provider != said[j].provider;
      assert said[i].provider in Names(said) && said[j].provider in Names(said);
    }
  }

  lemma {:induction false} OnlyName(said: seq<Complaint>, name: Str)
    requires OnlyFrom(said, name)
    ensures Names(said) == [name]
  {
    if |said| > 1 { OnlyName(said[..|said| - 1], name); }
  }

  method BoundFailure(failure: Failure) returns (f: Failure)
    ensures f == Bounded(failure)
  {
    var url, a := TruncateString(failure.url, MAX_URL_BYTES);
    var provider, b := TruncateString(failure.provider, 64);
    var errorType, c := TruncateString(failure.errorType, 64);
    var error, d := TruncateString(failure.error, MAX_ERROR_BYTES);
    f := Failure(url, provider, errorType, error);
  }

  /** The running totals of a list of complaints. */
  ghost predicate Tallied(complaints: seq<Complaint>, messages: seq<Str>, errorType: Str, providers: seq<Str>) {
    messages == Lines(complaints) && errorType == FirstKind(complaints) && providers == Names(complaints)
  }

  lemma TallyAppend(complaints: seq<Complaint>, c: Complaint)
    ensures Lines(complaints + [c]) == Lines(complaints) + [Line(c)]
    ensures FirstKind(complaints + [c]) == Gap(FirstKind(complaints), c.kind, [])
    ensures Names(complaints + [c]) == WithName(Names(complaints), c.provider)
  {
    assert (complaints + [c])[..|complaints|] == complaints;
  }

  method AggregateFailure(rawURL: Str, key: UrlKey, executions: seq<Execution>) returns (failure: Failure)
    ensures failure == FailureFor(executions, key, rawURL)
  {
    var k := key(rawURL);
    var messages: seq<Str>, errorType: Str, providers: seq<Str> := [], [], [];
    ghost var said: seq<Complaint> := [];
    for i := 0 to |executions|
      invariant said == Complaints(executions[..i], key, k)
      invariant Tallied(said, messages, errorType, providers)
    {
      assert executions[..i + 1][..i] == executions[..i];
      messages, errorType, providers, said :=
        AddComplaints(executions[i], key, k, messages, errorType, providers, said);
    }
    assert executions[..|executions|] == executions;
    if |messages| == 0 {
      messages := [Ascii("no provider returned extracted content")];
    }
    var providerName := [];
    if |providers| == 1 {
      providerName := providers[0];
    }
    failure := BoundFailure(Failure(rawURL, providerName, errorType, Join(messages, Ascii("; "))));
  }

  /** One more complaint goes into the running totals. */
  method Complain(name: Str, kind: Str, message: Str, messages0: seq<Str>, errorType0: Str, providers0: seq<Str>,
                  ghost said0: seq<Complaint>)
      returns (messages: seq<Str>, errorType: Str, providers: seq<Str>, ghost said: seq<Complaint>)
    requires Tallied(said0, messages0, errorType0, providers0)
    ensures said == said0 + [Complaint(name, kind, message)] && Tallied(said, messages, errorType, providers)
  {
    TallyAppend(said0, Complaint(name, kind, message));
    said := said0 + [Complaint(name, kind, message)];
    providers := AppendUnique(providers0, name);
    messages := messages0 + [name + Ascii(": ") + message];
    errorType := errorType0;
    if errorType == [] {
      errorType := kind;
    }
  }

  /** What one execution adds: its failures for the URL, then its error. */
  method AddComplaints(execution: Execution, key: UrlKey, k: Str, messages0: seq<Str>, errorType0: Str,
                       providers0: seq<Str>,
                       ghost said0: seq<Complaint>)
      returns (messages: seq<Str>, errorType: Str, providers: seq<Str>, ghost said: seq<Complaint>)
    requires Tallied(said0, messages0, errorType0, providers0)
    ensures said == said0 + FailureComplaints(execution.provider, execution.failedResults, key, k)
      + ErrorComplaint(execution)
    ensures Tallied(said, messages, errorType, providers)
  {
    hide Tallied;
    messages, errorType, providers, said := messages0, errorType0, providers0, said0;
    for j := 0 to |execution.failedResults|
      invariant said == said0 + FailureComplaints(execution.provider, execution.failedResults[..j], key, k)
      invariant Tallied(said, messages, errorType, providers)
    {
      var failure := execution.failedResults[j];
      assert execution.failedResults[..j + 1][..j] == execution.failedResults[..j];
      if key(failure.url) == k {
        var name := failure.provider;
        if name == [] {
          name := execution.provider;
        }
        messages, errorType, providers, said :=
          Complain(name, failure.errorType, failure.error, messages, errorType, providers, said);
      }
    }
    assert execution.failedResults[..|execution.failedResults|] == execution.failedResults;
    if execution.err.Some? {
      messages, errorType, providers, said :=
        Complain(execution.provider, execution.err.value.kind, execution.err.value.message, messages, errorType,
                 providers, said);
    }
  }

  // ---------- the merge ----------

  ghost function KeysOf(requested: seq<Str>, key: UrlKey): set<Str> {
    set i | 0 <= i < |requested| :: key(requested[i])
  }

  /** The table of merged results, one per requested URL that has some result so far. */
  ghost predicate Table(byURL: map<Str, nat>, results: seq<Result>, seen: seq<Result>, keys: set<Str>, key: UrlKey) {
    && (forall k :: k in byURL <==> k in keys && Resolved(seen, key, k))
    && (forall k :: k in byURL ==> byURL[k] < |results| && results[byURL[k]] == ResultFor(seen, key, k))
    && (forall i :: 0 <= i < |results| ==> key(results[i].url) in byURL && byURL[key(results[i].url)] == i)
  }

  lemma {:induction false} MergedUrl(hits: seq<Result>)
    requires hits != []
    ensures MergedHits(hits).url == hits[0].url
  {
    if |hits| > 1 { MergedUrl(hits[..|hits| - 1]); }
  }

  lemma ResultForKey(results: seq<Result>, key: UrlKey, k: Str)
    requires Hits(results, key, k) != []
    ensures key(ResultFor(results, key, k).url) == k
  {
    HitsMatch(results, key, k);
    MergedUrl(Hits(results, key, k));
    assert Hits(results, key, k)[0] in Hits(results, key, k);
  }

  /** What one more result does to the merged result of each URL. */
  lemma ResultForStep(seen: seq<Result>, key: UrlKey, r: Result)
    ensures forall k :: k != key(r.url) ==>
      Resolved(seen + [r], key, k) == Resolved(seen, key, k) && ResultFor(seen + [r], key, k) == ResultFor(seen, key, k)
    ensures var k := key(r.url);
      && Resolved(seen + [r], key, k) == (k != [])
      && (k != [] ==>
            ResultFor(seen + [r], key, k) ==
              if Resolved(seen, key, k) then Joined(ResultFor(seen, key, k), r) else Opened(r))
  {
    hide FillGaps, WithName, WithNames;
    HitsAppend(seen, r, key);
    forall k | k != key(r.url) ensures Hits(seen + [r], key, k) == Hits(seen, key, k) {
      assert Hits(seen, key, k) + [] == Hits(seen, key, k);
    }
    var hits := Hits(seen + [r], key, key(r.url));
    assert hits[..|hits| - 1] == Hits(seen, key, key(r.url));
  }

  /** A result for no requested URL is ignored. */
  lemma TableIgnores(byURL: map<Str, nat>, results: seq<Result>, seen: seq<Result>, keys: set<Str>, key: UrlKey,
                     r: Result)
    requires Table(byURL, results, seen, keys, key) && (key(r.url) == [] || key(r.url) !in keys)
    ensures Table(byURL, results, seen + [r], keys, key)
  {
    ResultForStep(seen, key, r);
    assert !Resolved(seen, key, []) && !Resolved(seen + [r], key, []);
    hide Resolved, ResultFor;
    assert forall k :: k in byURL ==> k != key(r.url);
    forall k ensures k in byURL <==> k in keys && Resolved(seen + [r], key, k) {
      assert k == key(r.url) ==> k !in keys || k == [];
    }
  }

  /** A result for a resolved URL is merged into its entry. */
  lemma TableMerges(byURL: map<Str, nat>, results: seq<Result>, seen: seq<Result>, keys: set<Str>, key: UrlKey,
                    r: Result)
    requires Table(byURL, results, seen, keys, key) && key(r.url) in byURL
    ensures key(r.url) != []
      && Table(byURL, results[byURL[key(r.url)] := Joined(results[byURL[key(r.url)]], r)], seen + [r], keys, key)
  {
    var k := key(r.url);
    assert k != [];
    ResultForStep(seen, key, r);
    JoinedUrl(results[byURL[k]], r);
    forall k' | k' in byURL ensures key(ResultFor(seen, key, k').url) == k' { ResolvedKey(seen, key, k'); }
    hide Resolved, ResultFor, Joined;
    var results' := results[byURL[k] := Joined(results[byURL[k]], r)];
    forall i | 0 <= i < |results'| ensures key(results'[i].url) in byURL && byURL[key(results'[i].url)] == i {
      assert results'[i].url == results[i].url;
    }
    forall k' | k' in byURL ensures results'[byURL[k']] == ResultFor(seen + [r], key, k') {
      assert results[byURL[k']] == ResultFor(seen, key, k') && results[byURL[k]] == ResultFor(seen, key, k);
      assert k' != k ==> byURL[k'] != byURL[k];
    }
  }

  lemma JoinedUrl(existing: Result, r: Result)
    ensures Joined(existing, r).url == existing.url
  {
  }

  /** The first result for a requested URL opens an entry. */
  lemma TableOpens(byURL: map<Str, nat>, results: seq<Result>, seen: seq<Result>, keys: set<Str>, key: UrlKey,
                   r: Result)
    requires Table(byURL, results, seen, keys, key) && key(r.url) != [] && key(r.url) in keys && key(r.url) !in byURL
    ensures Table(byURL[key(r.url) := |results|], results + [Opened(r)], seen + [r], keys, key)
  {
    ResultForStep(seen, key, r);
    hide Resolved, ResultFor;
  }

  method RequestedKeys(requested: seq<Str>, key: UrlKey) returns (keys: set<Str>)
    ensures keys == KeysOf(requested, key)
  {
    keys := {};
    for i := 0 to |requested|
      invariant forall k :: k in keys <==> exists j :: 0 <= j < i && key(requested[j]) == k
    {
      keys := keys + {key(requested[i])};
    }
  }

  method CollectResults(executions: seq<Execution>, requested: seq<Str>, key: UrlKey)
      returns (byURL: map<Str, nat>, results: seq<Result>)
    ensures Table(byURL, results, AllResults(executions), KeysOf(requested, key), key)
  {
    var requestedKeys := RequestedKeys(requested, key);
    byURL, results := map[], [];
    ghost var seen: seq<Result> := [];
    for i := 0 to |executions|
      invariant seen == AllResults(executions[..i])
      invariant Table(byURL, results, seen, requestedKeys, key)
    {
      assert executions[..i + 1][..i] == executions[..i];
      ghost var start := seen;
      var batch := executions[i].results;
      for j := 0 to |batch|
        invariant seen == start + batch[..j]
        invariant Table(byURL, results, seen, requestedKeys, key)
      {
        var result := batch[j];
        var k := key(result.url);
        ghost var before := seen;
        seen := seen + [result];
        if k == [] || k !in requestedKeys {
          TableIgnores(byURL, results, before, requestedKeys, key, result);
          continue;
        }
        if k in byURL {
          TableMerges(byURL, results, before, requestedKeys, key, result);
          var merged := MergeInto(results[byURL[k]], result);
          results := results[byURL[k] := merged];
          continue;
        }
        TableOpens(byURL, results, before, requestedKeys, key, result);
        if |result.providers| == 0 && result.provider != [] {
          result := result.(providers := [result.provider]);
        }
        byURL := byURL[k := |results|];
        results := results + [result];
      }
      assert batch[..|batch|] == batch;
    }
    assert executions[..|executions|] == executions;
  }

  /** The update of an existing entry, field by field. */
  method MergeInto(target: Result, candidate: Result) returns (existing: Result)
    ensures existing == Joined(target, candidate)
  {
    var names := target.providers;
    for i := 0 to |candidate.providers|
      invariant names == WithNames(target.providers, candidate.providers[..i])
    {
      assert candidate.providers[..i + 1][..i] == candidate.providers[..i];
      names := AppendUnique(names, candidate.providers[i]);
    }
    assert candidate.providers[..|candidate.providers|] == candidate.providers;
    names := AppendUnique(names, candidate.provider);
    existing := MergeDetails(target.(providers := names), candidate);
  }

  method MergeDetails(target: Result, candidate: Result) returns (existing: Result)
    ensures existing == FillGaps(target, candidate)
  {
    var title, content, format, images := target.title, target.content, target.format, target.images;
    var favicon, author, publishedAt, raw := target.favicon, target.author, target.publishedAt, target.raw;
    if title == [] { title := candidate.title; }
    if content == [] { content := candidate.content; }
    if format == [] { format := candidate.format; }
    if |images| == 0 { images := candidate.images; }
    if favicon == [] { favicon := candidate.favicon; }
    if author == [] { author := candidate.author; }
    if publishedAt == None { publishedAt := candidate.publishedAt; }
    if raw == None { raw := candidate.raw; }
    existing := target.(title := title, content := content, format := format, images := images,
                        favicon := favicon, author := author, publishedAt := publishedAt, raw := raw);
  }

  /** Requested before unrequested, then by place in the request. */
  predicate Earlier(order: map<Str, nat>, key: UrlKey, a: Result, b: Result) {
    var leftOK, rightOK := key(a.url) in order, key(b.url) in order;
    if leftOK != rightOK then leftOK
    else leftOK && order[key(a.url)] < order[key(b.url)]
  }

  function ByRequest(order: map<Str, nat>, key: UrlKey): (Result, Result) -> bool {
    (a, b) => Earlier(order, key, a, b)
  }

  ghost predicate OrderOf(order: map<Str, nat>, requested: seq<Str>, key: UrlKey) {
    && (forall i :: 0 <= i < |requested| ==> key(requested[i]) in order && order[key(requested[i])] == i)
    && (forall k :: k in order ==> order[k] < |requested| && key(requested[order[k]]) == k)
  }

  lemma ByRequestIsOrder(order: map<Str, nat>, key: UrlKey)
    ensures StrictWeakOrder(ByRequest(order, key))
  {
  }

  /** The merged entries are distinct, and the expected ones are in strict request order. */
  lemma TableDistinct(byURL: map<Str, nat>, results: seq<Result>, all: seq<Result>, order: map<Str, nat>,
                      requested: seq<Str>, key: UrlKey)
    requires Table(byURL, results, all, KeysOf(requested, key), key) && OrderOf(order, requested, key)
    ensures Distinct(results)
    ensures forall x, y :: x in results && y in results && x != y ==>
      Earlier(order, key, x, y) || Earlier(order, key, y, x)
  {
    hide Resolved, ResultFor;
    forall x, y | x in results && y in results && x != y
      ensures Earlier(order, key, x, y) || Earlier(order, key, y, x) {
      assert key(x.url) in byURL && key(y.url) in byURL;
      assert key(x.url) in order && key(y.url) in order;
      assert order[key(x.url)] != order[key(y.url)];
    }
  }

  lemma ExpectedOrdered(all: seq<Result>, order: map<Str, nat>, requested: seq<Str>, key: UrlKey)
    requires OrderOf(order, requested, key)
    ensures StrictlyOrdered(ExpectedResults(requested, all, key), ByRequest(order, key))
    ensures var p := Positions(requested, all, key, true);
      forall a :: 0 <= a < |p| ==> key(ExpectedResults(requested, all, key)[a].url) == key(requested[p[a]])
  {
    var p, expected := Positions(requested, all, key, true), ExpectedResults(requested, all, key);
    forall a | 0 <= a < |p| ensures key(expected[a].url) == key(requested[p[a]]) {
      ExpectedKeys(all, requested, key, a);
    }
    hide Resolved, ResultFor, ExpectedResults, Positions;
    forall a, b | 0 <= a < b < |expected| ensures ByRequest(order, key)(expected[a], expected[b]) {
      assert p[a] < p[b];
      assert order[key(expected[a].url)] == p[a] && order[key(expected[b].url)] == p[b];
    }
  }

  /** An expected result is for the URL at its position. */
  lemma ExpectedKeys(all: seq<Result>, requested: seq<Str>, key: UrlKey, a: nat)
    requires a < |Positions(requested, all, key, true)|
    ensures var p, expected := Positions(requested, all, key, true), ExpectedResults(requested, all, key);
      |expected| == |p| && p[a] < |requested| && key(expected[a].url) == key(requested[p[a]])
  {
    var p := Positions(requested, all, key, true);
    PositionsPartition(requested, all, key);
    hide Resolved, ResultFor, Positions;
    assert p[a] in p;
    ResolvedKey(all, key, key(requested[p[a]]));
  }

  lemma SameEntries(byURL: map<Str, nat>, results: seq<Result>, all: seq<Result>, requested: seq<Str>, key: UrlKey)
    requires Table(byURL, results, all, KeysOf(requested, key), key)
    ensures forall x :: x in results <==> x in ExpectedResults(requested, all, key)
  {
    forall x | x in results ensures x in ExpectedResults(requested, all, key) {
      EntryIsExpected(byURL, results, all, requested, key, x);
    }
    forall x | x in ExpectedResults(requested, all, key) ensures x in results {
      ExpectedIsEntry(byURL, results, all, requested, key, x);
    }
  }

  lemma EntryIsExpected(byURL: map<Str, nat>, results: seq<Result>, all: seq<Result>, requested: seq<Str>, key: UrlKey,
                        x: Result)
    requires Table(byURL, results, all, KeysOf(requested, key), key) && x in results
    ensures x in ExpectedResults(requested, all, key)
  {
    var p := Positions(requested, all, key, true);
    var k := key(x.url);
    assert k in byURL && k in KeysOf(requested, key);
    var i :| 0 <= i < |requested| && key(requested[i]) == k;
    PositionsPartition(requested, all, key);
    hide Resolved, ResultFor, Positions;
    var a :| 0 <= a < |p| && p[a] == i;
    assert x == ExpectedResults(requested, all, key)[a];
  }

  lemma ExpectedIsEntry(byURL: map<Str, nat>, results: seq<Result>, all: seq<Result>, requested: seq<Str>, key: UrlKey,
                        x: Result)
    requires Table(byURL, results, all, KeysOf(requested, key), key) && x in ExpectedResults(requested, all, key)
    ensures x in results
  {
    var p, expected := Positions(requested, all, key, true), ExpectedResults(requested, all, key);
    PositionsPartition(requested, all, key);
    hide Resolved, ResultFor, Positions;
    var a :| 0 <= a < |p| && x == expected[a];
    assert p[a] in p && key(requested[p[a]]) in KeysOf(requested, key);
    assert x == results[byURL[key(requested[p[a]])]];
  }

  lemma SortedIsExpected(byURL: map<Str, nat>, results: seq<Result>, all: seq<Result>, order: map<Str, nat>,
                         requested: seq<Str>, key: UrlKey)
    requires Table(byURL, results, all, KeysOf(requested, key), key) && OrderOf(order, requested, key)
    ensures Sort(results, ByRequest(order, key)) == ExpectedResults(requested, all, key)
  {
    ByRequestIsOrder(order, key);
    TableDistinct(byURL, results, all, order, requested, key);
    ExpectedOrdered(all, order, requested, key);
    SameEntries(byURL, results, all, requested, key);
    hide ExpectedResults, Earlier;
    SortDetermined(results, ExpectedResults(requested, all, key), ByRequest(order, key));
  }

  lemma ResolvedKey(all: seq<Result>, key: UrlKey, k: Str)
    requires Resolved(all, key, k)
    ensures key(ResultFor(all, key, k).url) == k
  {
    ResultForKey(all, key, k);
  }

  /** The merge: resolved URLs and failed URLs, each list in request order. */
  method MergeExtractResults(executions: seq<Execution>, requested: seq<Str>, key: UrlKey)
      returns (results: seq<Result>, failed: seq<Failure>)
    requires DistinctUrls(requested, key)
    ensures results == ExpectedResults(requested, AllResults(executions), key)
    ensures failed == ExpectedFailures(requested, executions, key)
  {
    var byURL;
    byURL, results := CollectResults(executions, requested, key);
    ghost var all := AllResults(executions);
    var order: map<Str, nat> := map[];
    for i := 0 to |requested|
      invariant OrderOf(order, requested[..i], key)
    {
      order := order[key(requested[i]) := i];
    }
    assert requested[..|requested|] == requested;
    SortedIsExpected(byURL, results, all, order, requested, key);
    forall i | 0 <= i < |requested| ensures key(requested[i]) in KeysOf(requested, key) {}
    results := Sort(results, ByRequest(order, key));
    failed := ListFailures(byURL, requested, executions, key);
  }

  method ListFailures(byURL: map<Str, nat>, requested: seq<Str>, executions: seq<Execution>, key: UrlKey)
    returns (failed: seq<Failure>)
    requires forall i :: 0 <= i < |requested| ==>
      (key(requested[i]) in byURL <==> Resolved(AllResults(executions), key, key(requested[i])))
    ensures failed == ExpectedFailures(requested, executions, key)
  {
    hide Resolved, FailureFor;
    failed := [];
    for i := 0 to |requested|
      invariant failed == ExpectedFailures(requested[..i], executions, key)
    {
      ExpectedFailuresStep(requested[..i + 1], executions, key);
      assert requested[..i + 1][..i] == requested[..i];
      if key(requested[i]) in byURL {
        continue;
      }
      var failure := AggregateFailure(requested[i], key, executions);
      failed := failed + [failure];
    }
    assert requested[..|requested|] == requested;
  }

  lemma ExpectedFailuresStep(requested: seq<Str>, executions: seq<Execution>, key: UrlKey)
    requires requested != []
    ensures var n := |requested| - 1;
      ExpectedFailures(requested, executions, key) == ExpectedFailures(requested[..n], executions, key) +
        if Resolved(AllResults(executions), key, key(requested[n])) then []
          else [FailureFor(executions, key, requested[n])]
  {
    hide Resolved, FailureFor;
    var n := |requested| - 1;
    var p, q := Positions(requested, AllResults(executions), key, false),
      Positions(requested[..n], AllResults(executions), key, false);
    forall a | 0 <= a < |q| ensures requested[..n][q[a]] == requested[p[a]] {}
  }

  /**
   * The merge is a partition: every requested URL is in exactly one of the two lists, both
   * lists are in request order, and nothing else is in either.
   */
  lemma MergePartition(requested: seq<Str>, executions: seq<Execution>, key: UrlKey)
    requires DistinctUrls(requested, key)
    ensures var all := AllResults(executions);
      var results, failed := ExpectedResults(requested, all, key), ExpectedFailures(requested, executions, key);
      var r, f := Positions(requested, all, key, true), Positions(requested, all, key, false);
      && |results| + |failed| == |requested| && |results| == |r| && |failed| == |f|
      && (forall i :: 0 <= i < |requested| ==>
        (i in r <==> Resolved(all, key, key(requested[i]))) && (i in f <==> i !in r))
      && (forall a :: 0 <= a < |r| ==> key(results[a].url) == key(requested[r[a]]))
      && (forall a :: 0 <= a < |f| ==> failed[a].url == Truncated(requested[f[a]], MAX_URL_BYTES))
      && (forall a, b :: 0 <= a < b < |r| ==> r[a] < r[b])
      && (forall a, b :: 0 <= a < b < |f| ==> f[a] < f[b])
  {
    hide FailureFrom;
    var all := AllResults(executions);
    var r, f := Positions(requested, all, key, true), Positions(requested, all, key, false);
    PositionsPartition(requested, all, key);
    forall a | 0 <= a < |r| ensures key(ExpectedResults(requested, all, key)[a].url) == key(requested[r[a]]) {
      assert r[a] in r;
      ResolvedKey(all, key, key(requested[r[a]]));
    }
    forall a | 0 <= a < |f|
      ensures ExpectedFailures(requested, executions, key)[a].url == Truncated(requested[f[a]], MAX_URL_BYTES) {
      FailureUrl(requested[f[a]], Complaints(executions, key, key(requested[f[a]])));
    }
  }

  lemma FailureUrl(url: Str, complaints: seq<Complaint>)
    ensures FailureFrom(url, complaints).url == Truncated(url, MAX_URL_BYTES)
  {
  }
}
