/**
 * The hard bound on the encoded size of an Extract response, and the stages by which a response
 * is shrunk to it. `enc` is the encoded length of a JSON string, quotes included.
 */
module ExtractResponse {
  import opened Wrappers
  import opened Utf8
  import opened ExtractTypes
  import opened ExtractMerge
  import opened ExtractNormalize
  import opened WaterLevel

  const MAX_RESPONSE_JSON_BYTES := 12 * 1024 * 1024

  type Encoder = Str -> nat

  /** `figures` is the encoded size of the two numbers of a call summary. */
  datatype Summary = Summary(provider: Str, keyAlias: Str, status: Str, errorType: Str, error: Str, figures: nat)

  /** A usage measurement, known by its encoded size; `None` cannot be encoded. */
  datatype Usage = Usage(encoded: Option<nat>)

  /** The metadata, known by the encoded size of everything but the flag. */
  datatype Meta = Meta(rest: nat, responseTruncated: bool)

  datatype View = View(results: seq<Result>, failed: seq<Failure>, providers: seq<Summary>, usage: seq<Usage>,
                       meta: Meta)

  // ---------- the encoded size ----------

  /** A field costs its quoted name, a colon and a comma besides its value. */
  function Field(name: nat, value: nat): nat { name + 4 + value }

  function OptText(name: nat, value: Str, enc: Encoder): nat { if value == [] then 0 else Field(name, enc(value)) }

  function OptFlag(name: nat, value: bool): nat { if value then Field(name, 4) else 0 }

  function SumOf<T>(items: seq<T>, size: T -> nat): nat {
    if items == [] then 0 else SumOf(items[..|items| - 1], size) + size(items[|items| - 1])
  }

  /** Brackets, and a comma between elements. */
  function ArraySize<T>(items: seq<T>, size: T -> nat): nat {
    if items == [] then 2 else SumOf(items, size) + |items| + 1
  }

  function OptTexts(name: nat, values: seq<Str>, enc: Encoder): nat {
    if values == [] then 0 else Field(name, ArraySize(values, enc))
  }

  function RawSize(raw: Option<Raw>): nat {
    if raw.None? then 0 else match raw.value.encoded case None => 0 case Some(n) => Field(3, n)
  }

  const SECONDS_PER_DAY := 24 * 60 * 60

  /** RFC 3339 has four digits for a year and offsets of less than a day; other dates cannot be encoded. */
  predicate DateEncodes(d: Date) {
    0 <= d.year <= 9999 && -SECONDS_PER_DAY < d.zone < SECONDS_PER_DAY
  }

  /** Quotes, date and time to the second, the fraction after a point, and the offset or a `Z`. */
  function DateBytes(d: Date): nat {
    2 + 19 + (if d.fraction == 0 then 0 else 1 + d.fraction) + if d.zone == 0 then 1 else 6
  }

  predicate Dated(r: Result) {
    r.publishedAt.Some? ==> DateEncodes(r.publishedAt.value)
  }

  predicate AllDated(results: seq<Result>) {
    forall i :: 0 <= i < |results| ==> Dated(results[i])
  }

  function ResultBytes(r: Result, enc: Encoder): nat {
    1 + Field(3, enc(r.url)) + OptText(5, r.title, enc) + Field(7, enc(r.content)) + OptFlag(17, r.contentTruncated)
    + OptText(6, r.format, enc) + Field(8, enc(r.provider)) + OptTexts(9, r.providers, enc) + OptTexts(6, r.images, enc)
    + OptFlag(16, r.imagesTruncated) + OptText(7, r.favicon, enc) + OptText(6, r.author, enc)
    + (if r.publishedAt.None? then 0 else Field(12, DateBytes(r.publishedAt.value)))
    + RawSize(r.raw) + OptFlag(13, r.rawTruncated)
  }

  function FailureBytes(f: Failure, enc: Encoder): nat {
    1 + Field(3, enc(f.url)) + OptText(8, f.provider, enc) + OptText(10, f.errorType, enc) + Field(5, enc(f.error))
  }

  function SummaryBytes(s: Summary, enc: Encoder): nat {
    1 + Field(8, enc(s.provider)) + OptText(9, s.keyAlias, enc) + Field(6, enc(s.status))
      + OptText(10, s.errorType, enc)
    + OptText(5, s.error, enc) + Field(10, 0) + Field(12, 0) + s.figures + Field(6, 5)
  }

  function ResultSize(enc: Encoder): Result -> nat { (r: Result) => ResultBytes(r, enc) }
  function FailureSize(enc: Encoder): Failure -> nat { (f: Failure) => FailureBytes(f, enc) }
  function SummarySize(enc: Encoder): Summary -> nat { (s: Summary) => SummaryBytes(s, enc) }

  function UsageSize(u: Usage): nat { match u.encoded case None => 0 case Some(n) => n }

  predicate Encodable(v: View) {
    && AllDated(v.results)
    && (forall i :: 0 <= i < |v.results| ==> v.results[i].raw.Some? ==> v.results[i].raw.value.encoded.Some?)
    && (forall i :: 0 <= i < |v.usage| ==> v.usage[i].encoded.Some?)
  }

  /** A response that cannot be encoded counts as too big. */
  function JsonSize(v: View, enc: Encoder): nat {
    if !Encodable(v) then MAX_RESPONSE_JSON_BYTES + 1
    else
      1 + Field(7, ArraySize(v.results, ResultSize(enc)))
      + (if v.failed == [] then 0 else Field(14, ArraySize(v.failed, FailureSize(enc))))
      + Field(9, ArraySize(v.providers, SummarySize(enc)))
      + (if v.usage == [] then 0 else Field(5, ArraySize(v.usage, UsageSize)))
      + Field(4, v.meta.rest + OptFlag(18, v.meta.responseTruncated))
  }

  predicate Fits(v: View, enc: Encoder) {
    JsonSize(v, enc) <= MAX_RESPONSE_JSON_BYTES
  }

  // ---------- the stages ----------

  function BoundedSummary(s: Summary): Summary {
    s.(provider := Truncated(s.provider, 64), keyAlias := Truncated(s.keyAlias, 256),
       errorType := Truncated(s.errorType, 64), error := Truncated(s.error, MAX_ERROR_BYTES))
  }

  predicate Flagged(r: Result) { r.contentTruncated || r.imagesTruncated || r.rawTruncated }

  function WithFlag(m: Meta, truncated: bool): Meta { m.(responseTruncated := m.responseTruncated || truncated) }

  /** The texts of failures and summaries are bounded, and earlier truncation is reported. */
  function Tidied(v: View): View {
    v.(failed := seq(|v.failed|, i requires 0 <= i < |v.failed| => Bounded(v.failed[i])),
       providers := seq(|v.providers|, i requires 0 <= i < |v.providers| => BoundedSummary(v.providers[i])),
       meta := WithFlag(v.meta, exists i :: 0 <= i < |v.results| && Flagged(v.results[i])))
  }

  function DropRaw(r: Result): Result {
    if r.raw.Some? then r.(raw := None, rawTruncated := true) else r
  }

  function WithoutRaw(v: View): View {
    v.(results := seq(|v.results|, i requires 0 <= i < |v.results| => DropRaw(v.results[i])),
       meta := WithFlag(v.meta, exists i :: 0 <= i < |v.results| && v.results[i].raw.Some?))
  }

  predicate Pictured(r: Result) { r.images != [] || r.favicon != [] }

  function DropImages(r: Result): Result {
    if Pictured(r) then r.(images := [], favicon := [], imagesTruncated := true) else r
  }

  function WithoutImages(v: View): View {
    v.(results := seq(|v.results|, i requires 0 <= i < |v.results| => DropImages(v.results[i])),
       meta := WithFlag(v.meta, AnyPictured(v.results, |v.results|)))
  }

  /** One of the first results has pictures. */
  predicate AnyPictured(results: seq<Result>, n: nat)
    requires n <= |results|
  {
    exists i :: 0 <= i < n && Pictured(results[i])
  }

  lemma NonePictured(results: seq<Result>)
    ensures !AnyPictured(results, 0)
  {
  }

  lemma PicturedStep(results: seq<Result>, n: nat)
    requires n < |results|
    ensures AnyPictured(results, n + 1) <==> AnyPictured(results, n) || Pictured(results[n])
  {
  }

  function CutAt(v: View, limit: nat): View {
    v.(results := Capped(v.results, limit), meta := v.meta.(responseTruncated := true))
  }

  function Stripped(r: Result): Result {
    r.(title := [], content := [], contentTruncated := true, providers := [], images := [], imagesTruncated := true,
       favicon := [], author := [], raw := None, rawTruncated := true)
  }

  function Silenced(s: Summary): Summary { s.(error := []) }

  function Shortened(f: Failure): Failure { f.(error := Truncated(f.error, 512)) }

  /** The final compact form. */
  function Compact(v: View): View {
    View(seq(|v.results|, i requires 0 <= i < |v.results| => Stripped(v.results[i])),
         seq(|v.failed|, i requires 0 <= i < |v.failed| => Shortened(v.failed[i])),
         seq(|v.providers|, i requires 0 <= i < |v.providers| => Silenced(v.providers[i])), [],
         v.meta.(responseTruncated := true))
  }

  /** The halving from `limit` on: the response it leaves and the last limit applied, if any. */
  function Halved(v: View, limit: nat, enc: Encoder): (View, Option<nat>)
    decreases limit
  {
    if Fits(v, enc) then (v, None)
    else if limit == 0 then (CutAt(v, 0), Some(0))
    else
      var (w, last) := Halved(CutAt(v, limit), limit / 2, enc);
      (w, if last.None? then Some(limit) else last)
  }

  function Shrunk(v: View, enc: Encoder): View {
    var tidy := Tidied(v);
    if Fits(tidy, enc) then tidy
    else
      var bare := WithoutRaw(tidy);
      if Fits(bare, enc) then bare
      else
        var (cut, last) := Halved(WithoutImages(bare), MAX_RESULT_CONTENT_BYTES / 2, enc);
        if Fits(cut, enc) then cut else Compact(cut)
  }

  // ---------- halving is one truncation ----------

  lemma CapTwice(r: Result, first: nat, second: nat)
    requires second <= first
    ensures CapOne(CapOne(r, first), second) == CapOne(r, second)
  {
    TruncateTwice(r.content, first, second);
    TruncatedFits(r.content, first);
    if Cuts(r.content, first) && !Cuts(Truncated(r.content, first), second) {
      TruncatedFits(r.content, second);
    }
  }

  lemma CutTwice(v: View, first: nat, second: nat)
    requires second <= first
    ensures CutAt(CutAt(v, first), second) == CutAt(v, second)
  {
    forall i | 0 <= i < |v.results|
      ensures Capped(Capped(v.results, first), second)[i] == Capped(v.results, second)[i] {
      CapTwice(v.results[i], first, second);
    }
  }

  /** However many times the limit is halved, the contents are as if cut once, at the last limit. */
  lemma {:induction false} HalvedIsOneCut(v: View, limit: nat, enc: Encoder)
    ensures var (w, last) := Halved(v, limit, enc);
      && w == (if last.None? then v else CutAt(v, last.value))
      && (last.Some? ==> last.value <= limit)
      && (Fits(w, enc) || (last == Some(0) && w == CutAt(v, 0)))
    decreases limit
  {
    if !Fits(v, enc) && limit > 0 {
      HalvedIsOneCut(CutAt(v, limit), limit / 2, enc);
      var last := Halved(CutAt(v, limit), limit / 2, enc).1;
      if last.Some? { CutTwice(v, limit, last.value); }
    }
  }

  // ---------- the bound holds ----------

  /** What a request and the adapters guarantee: see the limits on requests and on names. */
  ghost predicate Reasonable(v: View, enc: Encoder) {
    && |v.results| + |v.failed| <= MAX_URLS && |v.providers| <= MAX_PROVIDERS && v.meta.rest <= 64 * 1024
    && (forall s: Str :: enc(s) <= 6 * |s| + 2)
    && (forall i :: 0 <= i < |v.results| ==> ReasonableResult(v.results[i]))
    && (forall i :: 0 <= i < |v.providers| ==> |v.providers[i].status| <= 64 && v.providers[i].figures <= 64)
  }

  ghost predicate ReasonableResult(r: Result) {
    && |r.url| <= MAX_URL_BYTES && |r.format| <= 64 && |r.provider| <= 64
  }

  /** A response whose failures and summaries have been bounded as well. */
  ghost predicate Tame(v: View, enc: Encoder) {
    && Reasonable(v, enc)
    && (forall i :: 0 <= i < |v.failed| ==> TameFailure(v.failed[i]))
    && (forall i :: 0 <= i < |v.providers| ==> TameSummary(v.providers[i]))
  }

  ghost predicate TameFailure(f: Failure) {
    |f.url| <= MAX_URL_BYTES && |f.provider| <= 64 && |f.errorType| <= 64
  }

  ghost predicate TameSummary(s: Summary) {
    |s.provider| <= 64 && |s.keyAlias| <= 256 && |s.errorType| <= 64
  }

  lemma BoundedIsTame(f: Failure)
    ensures TameFailure(Bounded(f))
  {
    TruncatedFits(f.url, MAX_URL_BYTES);
    TruncatedFits(f.provider, 64);
    TruncatedFits(f.errorType, 64);
  }

  lemma BoundedSummaryIsTame(s: Summary)
    ensures TameSummary(BoundedSummary(s))
  {
    TruncatedFits(s.provider, 64);
    TruncatedFits(s.keyAlias, 256);
    TruncatedFits(s.errorType, 64);
  }

  lemma TidiedIsTame(v: View, enc: Encoder)
    requires Reasonable(v, enc)
    ensures Tame(Tidied(v), enc)
  {
    hide Bounded, BoundedSummary, TameFailure, TameSummary;
    forall f ensures TameFailure(Bounded(f)) { BoundedIsTame(f); }
    forall s ensures TameSummary(BoundedSummary(s)) && BoundedSummary(s).status == s.status
      && BoundedSummary(s).figures == s.figures {
      BoundedSummaryIsTame(s);
      StatusKept(s);
    }
  }

  lemma StatusKept(s: Summary)
    ensures BoundedSummary(s).status == s.status && BoundedSummary(s).figures == s.figures
  {
  }

  lemma RawTame(v: View, enc: Encoder)
    requires Tame(v, enc)
    ensures Tame(WithoutRaw(v), enc)
  {
    hide TameFailure, TameSummary;
    forall i | 0 <= i < |v.results|
      ensures ReasonableResult(WithoutRaw(v).results[i]) { assert ReasonableResult(v.results[i]); }
  }

  lemma ImagesTame(v: View, enc: Encoder)
    requires Tame(v, enc)
    ensures Tame(WithoutImages(v), enc)
  {
    hide TameFailure, TameSummary;
    forall i | 0 <= i < |v.results|
      ensures ReasonableResult(WithoutImages(v).results[i]) { assert ReasonableResult(v.results[i]); }
  }

  lemma CutTame(v: View, enc: Encoder, limit: nat)
    requires Tame(v, enc)
    ensures Tame(CutAt(v, limit), enc)
  {
    hide TameFailure, TameSummary, Truncated;
    forall i | 0 <= i < |v.results|
      ensures ReasonableResult(CutAt(v, limit).results[i]) { assert ReasonableResult(v.results[i]); }
  }

  lemma {:induction false} SumBound<T>(items: seq<T>, size: T -> nat, bound: nat)
    requires forall i :: 0 <= i < |items| ==> size(items[i]) <= bound
    ensures SumOf(items, size) <= |items| * bound
  {
    if items != [] {
      SumBound(items[..|items| - 1], size, bound);
      assert |items| * bound == (|items| - 1) * bound + bound;
    }
  }

  const RESULT_BOUND := 51_000
  const FAILURE_BOUND := 54_000
  const SUMMARY_BOUND := 4_000

  lemma StrippedSize(r: Result, enc: Encoder)
    requires ReasonableResult(r) && forall s: Str :: enc(s) <= 6 * |s| + 2
    ensures ResultBytes(Stripped(r), enc) <= RESULT_BOUND
  {
  }

  lemma ShortenedSize(f: Failure, enc: Encoder)
    requires TameFailure(f) && forall s: Str :: enc(s) <= 6 * |s| + 2
    ensures FailureBytes(Shortened(f), enc) <= FAILURE_BOUND
  {
    TruncatedFits(f.error, 512);
  }

  lemma SilencedSize(s: Summary, enc: Encoder)
    requires TameSummary(s) && |s.status| <= 64 && s.figures <= 64 && forall t: Str :: enc(t) <= 6 * |t| + 2
    ensures SummaryBytes(Silenced(s), enc) <= SUMMARY_BOUND
  {
  }

  lemma ResultsSize(v: View, enc: Encoder)
    requires Tame(v, enc)
    ensures SumOf(Compact(v).results, ResultSize(enc)) <= |v.results| * RESULT_BOUND
  {
    forall i | 0 <= i < |v.results| ensures ResultSize(enc)(Compact(v).results[i]) <= RESULT_BOUND {
      StrippedSize(v.results[i], enc);
    }
    SumBound(Compact(v).results, ResultSize(enc), RESULT_BOUND);
  }

  lemma FailuresSize(v: View, enc: Encoder)
    requires Tame(v, enc)
    ensures SumOf(Compact(v).failed, FailureSize(enc)) <= |v.failed| * FAILURE_BOUND
  {
    forall i | 0 <= i < |v.failed| ensures FailureSize(enc)(Compact(v).failed[i]) <= FAILURE_BOUND {
      ShortenedSize(v.failed[i], enc);
    }
    SumBound(Compact(v).failed, FailureSize(enc), FAILURE_BOUND);
  }

  lemma SummariesSize(v: View, enc: Encoder)
    requires Tame(v, enc)
    ensures SumOf(Compact(v).providers, SummarySize(enc)) <= |v.providers| * SUMMARY_BOUND
  {
    forall i | 0 <= i < |v.providers| ensures SummarySize(enc)(Compact(v).providers[i]) <= SUMMARY_BOUND {
      SilencedSize(v.providers[i], enc);
    }
    SumBound(Compact(v).providers, SummarySize(enc), SUMMARY_BOUND);
  }

  /** The compact form, which keeps the dates, fits if they can be encoded at all. */
  lemma CompactFitsExactly(v: View, enc: Encoder)
    requires Tame(v, enc)
    ensures Fits(Compact(v), enc) <==> AllDated(v.results)
  {
    var c := Compact(v);
    CompactKeepsDates(v);
    if AllDated(v.results) { CompactFits(v, enc); }
  }

  lemma CompactKeepsDates(v: View)
    ensures AllDated(Compact(v).results) <==> AllDated(v.results)
  {
    assert forall i :: 0 <= i < |v.results| ==> (Dated(Compact(v).results[i]) <==> Dated(v.results[i]));
  }

  lemma CompactFits(v: View, enc: Encoder)
    requires Tame(v, enc) && AllDated(v.results)
    ensures Fits(Compact(v), enc)
  {
    var c := Compact(v);
    CompactKeepsDates(v);
    ResultsSize(v, enc);
    FailuresSize(v, enc);
    SummariesSize(v, enc);
    assert Encodable(c);
    hide Fits, SumOf, ResultSize, FailureSize, SummarySize;
    AddUp(c, enc, SumOf(c.results, ResultSize(enc)), SumOf(c.failed, FailureSize(enc)),
          SumOf(c.providers, SummarySize(enc)));
  }

  lemma AddUp(c: View, enc: Encoder, results: nat, failed: nat, providers: nat)
    requires results == SumOf(c.results, ResultSize(enc)) && failed == SumOf(c.failed, FailureSize(enc))
    requires providers == SumOf(c.providers, SummarySize(enc))
    requires |c.results| + |c.failed| <= MAX_URLS && |c.providers| <= MAX_PROVIDERS && c.usage == []
      && c.meta.rest <= 64 * 1024
    requires Encodable(c) && results <= |c.results| * RESULT_BOUND && failed <= |c.failed| * FAILURE_BOUND
    requires providers <= |c.providers| * SUMMARY_BOUND
    ensures Fits(c, enc)
  {
    hide ResultSize, FailureSize, SummarySize, SumOf, Encodable;
  }

  // ---------- nothing is lost without being reported ----------

  /** `r` is what is left of `was` after cutting its content once and emptying other fields. */
  ghost predicate ShrunkFrom(r: Result, was: Result, limit: Option<nat>) {
    && r.url == was.url && r.provider == was.provider && r.format == was.format && r.publishedAt == was.publishedAt
    && (r.content == if limit.None? then was.content else Truncated(was.content, limit.value))
    && (r.content != was.content ==> r.contentTruncated)
    && ((r.images == was.images && r.favicon == was.favicon) || r.imagesTruncated)
    && (r.raw == was.raw || (r.raw.None? && r.rawTruncated))
  }

  lemma CompactShrinks(r: Result, was: Result, limit: Option<nat>)
    requires ShrunkFrom(r, was, limit)
    ensures ShrunkFrom(Stripped(r), was, Some(0))
  {
    assert Truncated(was.content, 0) == [] by { TruncatedFits(was.content, 0); }
  }

  lemma StagesShrink(was: Result, limit: nat)
    ensures ShrunkFrom(was, was, None) && ShrunkFrom(DropRaw(was), was, None)
    ensures ShrunkFrom(DropImages(DropRaw(was)), was, None)
    ensures ShrunkFrom(CapOne(DropImages(DropRaw(was)), limit), was, Some(limit))
  {
  }

  ghost predicate AllShrunk(results: seq<Result>, were: seq<Result>, limit: Option<nat>) {
    |results| == |were| && forall i :: 0 <= i < |results| ==> ShrunkFrom(results[i], were[i], limit)
  }

  lemma StagesShrinkAll(v: View, limit: nat)
    ensures var bare := WithoutRaw(v); var plain := WithoutImages(bare);
      && AllShrunk(v.results, v.results, None) && AllShrunk(bare.results, v.results, None)
      && AllShrunk(plain.results, v.results, None) && AllShrunk(CutAt(plain, limit).results, v.results, Some(limit))
  {
    hide ShrunkFrom;
    forall r: Result { StagesShrink(r, limit); }
    hide DropRaw, DropImages, CapOne;
  }

  lemma CompactShrinksAll(v: View, were: seq<Result>, limit: Option<nat>)
    requires AllShrunk(v.results, were, limit)
    ensures AllShrunk(Compact(v).results, were, Some(0))
  {
    forall i | 0 <= i < |were| ensures ShrunkFrom(Compact(v).results[i], were[i], Some(0)) {
      CompactShrinks(v.results[i], were[i], limit);
    }
  }

  /** No entry is lost, and every content is cut once at one common limit. */
  lemma ShrunkKeepsResults(v: View, enc: Encoder)
    ensures exists limit :: AllShrunk(Shrunk(v, enc).results, v.results, limit)
  {
    var tidy := Tidied(v);
    var bare := WithoutRaw(tidy);
    var plain := WithoutImages(bare);
    assert tidy.results == v.results;
    HalvedIsOneCut(plain, MAX_RESULT_CONTENT_BYTES / 2, enc);
    var (cut, last) := Halved(plain, MAX_RESULT_CONTENT_BYTES / 2, enc);
    StagesShrinkAll(tidy, if last.Some? then last.value else 0);
    hide Fits, Halved, AllShrunk, Tidied, WithoutRaw, WithoutImages, CutAt, Compact;
    if Fits(tidy, enc) {
      assert AllShrunk(Shrunk(v, enc).results, v.results, None);
    } else if Fits(bare, enc) {
      assert AllShrunk(Shrunk(v, enc).results, v.results, None);
    } else if Fits(cut, enc) {
      assert AllShrunk(Shrunk(v, enc).results, v.results, last);
    } else {
      CompactShrinksAll(cut, v.results, last);
      assert AllShrunk(Shrunk(v, enc).results, v.results, Some(0));
    }
  }

  lemma FailuresKept(v: View)
    ensures |Tidied(v).failed| == |v.failed| && |Compact(Tidied(v)).failed| == |v.failed|
    ensures forall i :: 0 <= i < |v.failed| ==>
      && Tidied(v).failed[i].url == Truncated(v.failed[i].url, MAX_URL_BYTES)
      && Compact(Tidied(v)).failed[i].url == Truncated(v.failed[i].url, MAX_URL_BYTES)
  {
    hide Bounded, Truncated;
    forall f { FailureKeepsUrl(f); }
  }

  /** Nor is any failure or its URL, or any call summary. */
  lemma ShrunkKeepsFailures(v: View, enc: Encoder)
    ensures var w := Shrunk(v, enc);
      && |w.failed| == |v.failed| && |w.providers| == |v.providers|
      && forall i :: 0 <= i < |v.failed| ==> w.failed[i].url == Truncated(v.failed[i].url, MAX_URL_BYTES)
  {
    FailuresKept(v);
    var tidy := Tidied(v);
    var plain := WithoutImages(WithoutRaw(tidy));
    HalvedIsOneCut(plain, MAX_RESULT_CONTENT_BYTES / 2, enc);
    var (cut, last) := Halved(plain, MAX_RESULT_CONTENT_BYTES / 2, enc);
    assert cut.failed == tidy.failed && cut.providers == tidy.providers;
    assert Compact(cut).failed == Compact(tidy).failed;
    hide Fits, Halved, Bounded, Truncated;
  }

  lemma StageReports(v: View)
    ensures WithoutRaw(v).results == v.results || WithoutRaw(v).meta.responseTruncated
    ensures WithoutImages(v).results == v.results || WithoutImages(v).meta.responseTruncated
    ensures v.meta.responseTruncated ==> WithoutRaw(v).meta.responseTruncated && WithoutImages(v).meta.responseTruncated
  {
    if !WithoutRaw(v).meta.responseTruncated {
      forall i | 0 <= i < |v.results| ensures WithoutRaw(v).results[i] == v.results[i] {}
    }
    if !WithoutImages(v).meta.responseTruncated {
      forall i | 0 <= i < |v.results|
        ensures WithoutImages(v).results[i] == v.results[i] { assert !Pictured(v.results[i]); }
    }
  }

  /** A response that differs from what was merged, or was cut before, says so; one that fits is left alone. */
  lemma ShrunkReports(v: View, enc: Encoder)
    ensures var w := Shrunk(v, enc);
      && (w.results != v.results ==> w.meta.responseTruncated)
      && ((exists i :: 0 <= i < |v.results| && Flagged(v.results[i])) ==> w.meta.responseTruncated)
      && (Fits(Tidied(v), enc) ==> w == Tidied(v) && w.results == v.results)
  {
    var tidy := Tidied(v);
    var bare := WithoutRaw(tidy);
    var plain := WithoutImages(bare);
    HalvedIsOneCut(plain, MAX_RESULT_CONTENT_BYTES / 2, enc);
    var (cut, last) := Halved(plain, MAX_RESULT_CONTENT_BYTES / 2, enc);
    hide Fits, Halved, Bounded, BoundedSummary, Truncated, Capped;
    StageReports(tidy);
    StageReports(bare);
    hide WithoutRaw, WithoutImages;
  }

  lemma FailureKeepsUrl(f: Failure)
    ensures Bounded(f).url == Truncated(f.url, MAX_URL_BYTES) && Shortened(Bounded(f)).url == Bounded(f).url
  {
  }

  // ---------- no more is lost than has to be ----------

  /** The limits to which contents are cut, one after the other: 262144, 131072, ..., 1, 0. */
  const LIMITS := 20

  function Limit(k: nat): nat {
    if k == 0 then 262144 else Limit(k - 1) / 2
  }

  lemma LimitsEnd()
    ensures Limit(LIMITS - 2) == 1 && Limit(LIMITS - 1) == 0
  {
    assert Limit(1) == 131072 && Limit(2) == 65536 && Limit(3) == 32768 && Limit(4) == 16384;
    assert Limit(5) == 8192 && Limit(6) == 4096 && Limit(7) == 2048 && Limit(8) == 1024;
    assert Limit(9) == 512 && Limit(10) == 256 && Limit(11) == 128 && Limit(12) == 64;
    assert Limit(13) == 32 && Limit(14) == 16 && Limit(15) == 8 && Limit(16) == 4 && Limit(17) == 2;
  }

  lemma {:induction false} LimitsFall(j: nat, k: nat)
    requires j <= k
    ensures Limit(k) <= Limit(j)
  {
    if j < k { LimitsFall(j, k - 1); }
  }

  /** Raw payloads are dropped, with a mark, and nothing else. */
  ghost predicate LosesRaw(r: Result, was: Result) {
    && r.raw == None && (r.rawTruncated <==> was.raw.Some? || was.rawTruncated)
    && r == was.(raw := r.raw, rawTruncated := r.rawTruncated)
  }

  /** So are pictures. */
  ghost predicate LosesPictures(r: Result, was: Result) {
    && r.raw == None && (r.rawTruncated <==> was.raw.Some? || was.rawTruncated)
    && r.images == [] && r.favicon == []
    && (r.imagesTruncated <==> was.images != [] || was.favicon != [] || was.imagesTruncated)
    && r == was.(raw := r.raw, rawTruncated := r.rawTruncated, images := r.images, favicon := r.favicon,
                 imagesTruncated := r.imagesTruncated)
  }

  /** And contents are cut at a limit. */
  ghost predicate LosesText(r: Result, was: Result, limit: nat) {
    && r.content == Truncated(was.content, limit)
    && (r.contentTruncated <==> |was.content| > limit || was.contentTruncated)
    && LosesPictures(r.(content := was.content, contentTruncated := was.contentTruncated), was)
  }

  /** The results are as `v` had them, but for what a relation allows to be lost, and all else is only tidied. */
  ghost predicate KeepsAllElse(w: View, v: View) {
    && |w.results| == |v.results| && w.usage == v.usage
    && w.failed == Tidied(v).failed && w.providers == Tidied(v).providers
  }

  /** The contents cut at one limit, without raw payloads and pictures. */
  ghost function CutTo(v: View, limit: nat): View { CutAt(WithoutImages(WithoutRaw(Tidied(v))), limit) }

  ghost predicate FitsCut(v: View, enc: Encoder, k: int) {
    0 <= k < LIMITS && Fits(CutTo(v, Limit(k)), enc)
  }

  /**
   * What a response `v` may come to: nothing is dropped if it fits, only raw payloads if that is
   * enough, pictures too if that is enough, and then contents are cut at the greatest limit at which
   * it fits.
   */
  ghost predicate LosesLeast(w: View, v: View, enc: Encoder) {
    var tidy := Tidied(v);
    var bare := WithoutRaw(tidy);
    var plain := WithoutImages(bare);
    if Fits(tidy, enc) then KeepsAllElse(w, v) && w.results == v.results
    else if Fits(bare, enc) then
      KeepsAllElse(w, v) && forall i :: 0 <= i < |v.results| ==> LosesRaw(w.results[i], v.results[i])
    else if Fits(plain, enc) then
      KeepsAllElse(w, v) && forall i :: 0 <= i < |v.results| ==> LosesPictures(w.results[i], v.results[i])
    else (exists k :: FitsCut(v, enc, k)) ==>
      exists k :: FitsCut(v, enc, k) && CutsLeast(w, v, enc, k)
  }

  ghost predicate CutsLeast(w: View, v: View, enc: Encoder, k: nat)
    requires k < LIMITS
  {
    && (forall j: nat :: j < k ==> !FitsCut(v, enc, j))
    && KeepsAllElse(w, v)
    && forall i :: 0 <= i < |v.results| ==> LosesText(w.results[i], v.results[i], Limit(k))
  }

  lemma StagesLose(was: Result, limit: nat)
    ensures LosesRaw(DropRaw(was), was) && LosesPictures(DropImages(DropRaw(was)), was)
    ensures LosesText(CapOne(DropImages(DropRaw(was)), limit), was, limit)
  {
    TruncatedFits(was.content, limit);
  }

  /** The `k`th cut. */
  ghost function CutK(v: View, k: nat): View { CutAt(v, Limit(k)) }

  lemma CutKTwice(v: View, k: nat, j: nat)
    requires k <= j
    ensures CutK(CutK(v, k), j) == CutK(v, j)
  {
    LimitsFall(k, j);
    CutTwice(v, Limit(k), Limit(j));
  }

  /** The `last` cut is the first at which the response fits, from the `k`th on, or the last there is. */
  ghost predicate Picked(v: View, k: nat, last: nat, enc: Encoder) {
    && k <= last < LIMITS
    && (forall j :: k <= j < last ==> !Fits(CutK(v, j), enc))
    && (Fits(CutK(v, last), enc) || last == LIMITS - 1)
  }

  /** The halving from the `k`th limit on stops there. */
  lemma {:induction false} HalvedPicks(v: View, k: nat, enc: Encoder) returns (last: nat)
    requires k < LIMITS && !Fits(v, enc)
    ensures Picked(v, k, last, enc) && Halved(v, Limit(k), enc).0 == CutK(v, last)
    decreases LIMITS - k
  {
    last := k;
    if k == LIMITS - 1 {
      HalvedToNothing(v, enc);
    } else {
      HalvedOnce(v, k, enc);
      if !Fits(CutK(v, k), enc) {
        last := HalvedPicks(CutK(v, k), k + 1, enc);
        PickedBefore(v, k, last, enc);
        hide Picked;
      }
    }
    hide Fits, CutK, Halved, Limit;
  }

  lemma PickedBefore(v: View, k: nat, last: nat, enc: Encoder)
    requires Picked(CutK(v, k), k + 1, last, enc) && !Fits(CutK(v, k), enc)
    ensures CutK(CutK(v, k), last) == CutK(v, last) && Picked(v, k, last, enc)
  {
    forall j | k <= j { CutKTwice(v, k, j); }
    hide Fits, CutK;
    forall j | k <= j < last ensures !Fits(CutK(v, j), enc) { assert k < j ==> !Fits(CutK(CutK(v, k), j), enc); }
  }

  lemma HalvedToNothing(v: View, enc: Encoder)
    requires !Fits(v, enc)
    ensures Halved(v, Limit(LIMITS - 1), enc).0 == CutK(v, LIMITS - 1)
  {
    LimitsEnd();
    hide Fits, CutAt, Limit;
  }

  lemma HalvedOnce(v: View, k: nat, enc: Encoder)
    requires !Fits(v, enc) && k < LIMITS - 1
    ensures Halved(v, Limit(k), enc).0 == Halved(CutK(v, k), Limit(k + 1), enc).0
    ensures Fits(CutK(v, k), enc) ==> Halved(v, Limit(k), enc).0 == CutK(v, k)
  {
    LimitsEnd();
    LimitsFall(k, LIMITS - 2);
    assert Limit(k + 1) == Limit(k) / 2;
    hide Fits, CutAt, Limit;
  }

  lemma StagesKeepElse(v: View, limit: nat)
    ensures var bare := WithoutRaw(Tidied(v)); var plain := WithoutImages(bare);
      && KeepsAllElse(bare, v) && KeepsAllElse(plain, v) && KeepsAllElse(CutAt(plain, limit), v)
      && (forall i :: 0 <= i < |v.results| ==> LosesRaw(bare.results[i], v.results[i]))
      && (forall i :: 0 <= i < |v.results| ==> LosesPictures(plain.results[i], v.results[i]))
      && (forall i :: 0 <= i < |v.results| ==> LosesText(CutAt(plain, limit).results[i], v.results[i], limit))
  {
    hide LosesRaw, LosesPictures, LosesText;
    forall r: Result { StagesLose(r, limit); }
    hide DropRaw, DropImages, CapOne, Bounded, BoundedSummary;
  }

  lemma ShrunkLosesLeast(v: View, enc: Encoder)
    ensures LosesLeast(Shrunk(v, enc), v, enc)
  {
    var tidy := Tidied(v);
    var bare := WithoutRaw(tidy);
    var plain := WithoutImages(bare);
    var w := ShrunkSaid(v, enc);
    StagesKeepElse(v, 0);
    if !Fits(tidy, enc) && !Fits(bare, enc) && !Fits(plain, enc) && exists k :: FitsCut(v, enc, k) {
      CutsAtGreatest(v, enc);
    }
    TidiedResults(v);
    hide Shrunk, Fits, LosesRaw, LosesPictures, LosesText, FitsCut, CutsLeast, WithoutRaw, WithoutImages, Tidied, CutAt;
  }

  lemma TidiedResults(v: View)
    ensures Tidied(v).results == v.results && KeepsAllElse(Tidied(v), v)
  {
  }

  /** The first three stages, one by one. */
  lemma ShrunkSaid(v: View, enc: Encoder) returns (w: View)
    ensures w == Shrunk(v, enc)
    ensures var tidy := Tidied(v); var bare := WithoutRaw(tidy); var plain := WithoutImages(bare);
      && (Fits(tidy, enc) ==> w == tidy)
      && (!Fits(tidy, enc) && Fits(bare, enc) ==> w == bare)
      && (!Fits(tidy, enc) && !Fits(bare, enc) && Fits(plain, enc) ==> w == plain)
  {
    w := Shrunk(v, enc);
    if !Fits(Tidied(v), enc) && !Fits(WithoutRaw(Tidied(v)), enc) {
      ShrunkByHalving(v, enc);
      if Fits(WithoutImages(WithoutRaw(Tidied(v))), enc) { HalvedAtOnce(WithoutImages(WithoutRaw(Tidied(v))), enc); }
    }
    hide Fits, Halved, Compact, WithoutRaw, WithoutImages, Tidied;
  }

  lemma ShrunkByHalving(v: View, enc: Encoder)
    requires !Fits(Tidied(v), enc) && !Fits(WithoutRaw(Tidied(v)), enc)
    ensures var cut := Halved(WithoutImages(WithoutRaw(Tidied(v))), 262144, enc).0;
      Fits(cut, enc) ==> Shrunk(v, enc) == cut
  {
    assert MAX_RESULT_CONTENT_BYTES / 2 == 262144;
    hide Fits, Halved, Tidied, WithoutRaw, WithoutImages, Compact;
  }

  lemma HalvedAtOnce(v: View, enc: Encoder)
    requires Fits(v, enc)
    ensures Halved(v, 262144, enc).0 == v
  {
    hide Fits;
  }

  lemma CutsAtGreatest(v: View, enc: Encoder)
    requires !Fits(Tidied(v), enc) && !Fits(WithoutRaw(Tidied(v)), enc)
    requires !Fits(WithoutImages(WithoutRaw(Tidied(v))), enc) && exists k :: FitsCut(v, enc, k)
    ensures exists k :: FitsCut(v, enc, k) && CutsLeast(Shrunk(v, enc), v, enc, k)
  {
    var last := PicksFit(v, enc);
    CutIs(v, enc, last);
    hide Fits, Halved, Shrunk, CutsLeast, Tidied, WithoutRaw, WithoutImages, CutAt, Limit, FitsCut;
  }

  lemma PicksFit(v: View, enc: Encoder) returns (last: nat)
    requires !Fits(WithoutImages(WithoutRaw(Tidied(v))), enc) && exists k :: FitsCut(v, enc, k)
    ensures last < LIMITS && FitsCut(v, enc, last) && forall j: nat :: j < last ==> !FitsCut(v, enc, j)
    ensures Halved(WithoutImages(WithoutRaw(Tidied(v))), 262144, enc).0
      == CutAt(WithoutImages(WithoutRaw(Tidied(v))), Limit(last))
  {
    var k :| FitsCut(v, enc, k);
    InLimits(v, enc, k);
    last := PicksCut(v, enc);
    NoneAfter(v, enc, k, last);
    hide Fits, Halved, Tidied, WithoutRaw, WithoutImages, CutAt, Limit, FitsCut;
  }

  lemma NoneAfter(v: View, enc: Encoder, k: nat, last: nat)
    requires FitsCut(v, enc, k) && k < LIMITS && last < LIMITS
    requires (forall j: nat :: j < last ==> !FitsCut(v, enc, j)) && (FitsCut(v, enc, last) || last == LIMITS - 1)
    ensures FitsCut(v, enc, last)
  {
    hide FitsCut;
    if k < last { assert false; }
  }

  lemma InLimits(v: View, enc: Encoder, k: int)
    requires FitsCut(v, enc, k)
    ensures 0 <= k < LIMITS
  {
  }

  lemma PicksCut(v: View, enc: Encoder) returns (last: nat)
    requires !Fits(WithoutImages(WithoutRaw(Tidied(v))), enc)
    ensures last < LIMITS
    ensures Halved(WithoutImages(WithoutRaw(Tidied(v))), 262144, enc).0
      == CutAt(WithoutImages(WithoutRaw(Tidied(v))), Limit(last))
    ensures forall j: nat :: j < last ==> !FitsCut(v, enc, j)
    ensures FitsCut(v, enc, last) || last == LIMITS - 1
  {
    var plain := WithoutImages(WithoutRaw(Tidied(v)));
    assert Limit(0) == 262144;
    last := HalvedPicks(plain, 0, enc);
    forall j: nat | j <= last ensures FitsCut(v, enc, j) <==> Fits(CutK(plain, j), enc) { CutSaid(v, enc, j); }
    assert CutK(plain, last) == CutAt(plain, Limit(last));
    hide Fits, Halved, FitsCut, CutK, CutAt, Limit, Tidied, WithoutRaw, WithoutImages;
  }

  lemma CutSaid(v: View, enc: Encoder, k: nat)
    requires k < LIMITS
    ensures FitsCut(v, enc, k) <==> Fits(CutK(WithoutImages(WithoutRaw(Tidied(v))), k), enc)
  {
    hide Fits, CutAt, Tidied, WithoutRaw, WithoutImages, Limit;
  }

  /** If the halving stops at a limit, the response is cut there. */
  lemma CutIs(v: View, enc: Encoder, k: nat)
    requires !Fits(Tidied(v), enc) && !Fits(WithoutRaw(Tidied(v)), enc) && k < LIMITS
    requires Halved(WithoutImages(WithoutRaw(Tidied(v))), 262144, enc).0
      == CutAt(WithoutImages(WithoutRaw(Tidied(v))), Limit(k))
    requires FitsCut(v, enc, k) && forall j: nat :: j < k ==> !FitsCut(v, enc, j)
    ensures CutsLeast(Shrunk(v, enc), v, enc, k)
  {
    CutSaid(v, enc, k);
    ShrunkByHalving(v, enc);
    StagesKeepElse(v, Limit(k));
    hide Fits, Halved, Shrunk, LosesText, Tidied, WithoutRaw, WithoutImages, CutAt, Limit, FitsCut, KeepsAllElse;
  }

  ghost function Bytes(texts: seq<Str>): nat {
    if texts == [] then 0 else Bytes(texts[..|texts| - 1]) + |texts[|texts| - 1]|
  }

  lemma {:induction false} TextsCounted(texts: seq<Str>, enc: Encoder)
    requires forall s: Str :: enc(s) >= |s|
    ensures ArraySize(texts, enc) >= Bytes(texts) && SumOf(texts, enc) >= Bytes(texts)
  {
    if texts != [] { TextsCounted(texts[..|texts| - 1], enc); }
  }

  lemma TextCounted(name: nat, text: Str, enc: Encoder)
    requires forall t: Str :: enc(t) >= |t|
    ensures OptText(name, text, enc) >= |text| && Field(name, enc(text)) >= |text|
  {
  }

  lemma TextListCounted(name: nat, texts: seq<Str>, enc: Encoder)
    requires forall t: Str :: enc(t) >= |t|
    ensures OptTexts(name, texts, enc) >= Bytes(texts)
  {
    TextsCounted(texts, enc);
  }

  /** The size of an entry counts every text in it, so what fits is within the bound whatever the encoding adds. */
  lemma EveryTextCounts(r: Result, f: Failure, s: Summary, enc: Encoder)
    requires forall t: Str :: enc(t) >= |t|
    ensures ResultBytes(r, enc) >= |r.url| + |r.title| + |r.content| + |r.format| + |r.provider| + Bytes(r.providers)
      + Bytes(r.images) + |r.favicon| + |r.author|
    ensures FailureBytes(f, enc) >= |f.url| + |f.provider| + |f.errorType| + |f.error|
    ensures SummaryBytes(s, enc) >= |s.provider| + |s.keyAlias| + |s.status| + |s.errorType| + |s.error|
  {
    forall name: nat, text: Str { TextCounted(name, text, enc); }
    forall name: nat, texts: seq<Str> { TextListCounted(name, texts, enc); }
    hide OptText, OptTexts, Field, Bytes, RawSize, DateBytes, OptFlag;
  }

  /** Texts within their limits are left alone when a response is tidied, and others are cut to a part of them. */
  lemma TidyKeepsShort(f: Failure, s: Summary)
    ensures |f.url| <= MAX_URL_BYTES && |f.provider| <= 64 && |f.errorType| <= 64 && |f.error| <= MAX_ERROR_BYTES ==>
      Bounded(f) == f
    ensures |s.provider| <= 64 && |s.keyAlias| <= 256 && |s.errorType| <= 64 && |s.error| <= MAX_ERROR_BYTES ==>
      BoundedSummary(s) == s
    ensures var b := BoundedSummary(s);
      b.provider <= s.provider && b.keyAlias <= s.keyAlias && b.errorType <= s.errorType && b.error <= s.error
  {
  }

  // ---------- when the bound holds ----------

  /** The stages keep every date, so what they leave can only be encoded if all dates could. */
  lemma ShrunkKeepsDates(v: View, enc: Encoder)
    ensures AllDated(Shrunk(v, enc).results) <==> AllDated(v.results)
  {
    hide Shrunk;
    ShrunkKeepsResults(v, enc);
    var w := Shrunk(v, enc);
    var limit :| AllShrunk(w.results, v.results, limit);
    assert forall i :: 0 <= i < |v.results| ==> (Dated(w.results[i]) <==> Dated(v.results[i])) by {
      assert forall i :: 0 <= i < |v.results| ==> ShrunkFrom(w.results[i], v.results[i], limit);
    }
  }

  /**
   * The response-size contract: whatever else the adapters returned, the response ends within the
   * bound exactly if every published date can be encoded.
   */
  lemma ResponseFitsExactly(v: View, enc: Encoder)
    requires Reasonable(v, enc)
    ensures Fits(Shrunk(v, enc), enc) <==> AllDated(v.results)
  {
    ShrunkKeepsDates(v, enc);
    if AllDated(v.results) {
      DatedFits(v, enc);
    }
  }

  lemma DatedFits(v: View, enc: Encoder)
    requires Reasonable(v, enc) && AllDated(v.results)
    ensures Fits(Shrunk(v, enc), enc)
  {
    var tidy := Tidied(v);
    TidiedIsTame(v, enc);
    RawTame(tidy, enc);
    var bare := WithoutRaw(tidy);
    ImagesTame(bare, enc);
    var plain := WithoutImages(bare);
    HalvedIsOneCut(plain, MAX_RESULT_CONTENT_BYTES / 2, enc);
    var (cut, last) := Halved(plain, MAX_RESULT_CONTENT_BYTES / 2, enc);
    StagesKeepDates(tidy, if last.Some? then last.value else 0);
    hide Tidied, WithoutRaw, WithoutImages, CutAt, Compact, Fits, Halved, Tame, AllDated;
    if last.Some? { CutTame(plain, enc, last.value); }
    CompactFits(cut, enc);
  }

  lemma StagesKeepDates(v: View, limit: nat)
    ensures var plain := WithoutImages(WithoutRaw(v));
      AllDated(v.results) ==> AllDated(plain.results) && AllDated(CutAt(plain, limit).results)
  {
    var plain := WithoutImages(WithoutRaw(v));
    StagesShrinkAll(v, limit);
    hide WithoutRaw, WithoutImages, CutAt;
    assert forall i :: 0 <= i < |v.results| ==> ShrunkFrom(plain.results[i], v.results[i], None);
    assert forall i :: 0 <= i < |v.results| ==> ShrunkFrom(CutAt(plain, limit).results[i], v.results[i], Some(limit));
  }

  /** One date that cannot be encoded costs the response all contents, and it still does not fit. */
  lemma UndatedLosesContent(v: View, enc: Encoder)
    requires !AllDated(v.results)
    ensures var w := Shrunk(v, enc);
      && !Fits(w, enc) && |w.results| == |v.results| && w.usage == []
      && forall i :: 0 <= i < |w.results| ==> w.results[i].content == [] && w.results[i].raw == None
  {
    ShrunkKeepsDates(v, enc);
    ShrunkKeepsResults(v, enc);
    hide Tidied, WithoutRaw, WithoutImages, Halved, AllDated;
  }

  /** A response of one short page with a published date. */
  function PageOf(date: Date): View {
    View([Result([1], [], [7], false, [], [2], [[2]], [], false, [], [], Some(date), None, false)], [], [], [],
         Meta(0, false))
  }

  /**
   * An offset of 24 hours, which the adapters' time parser accepts, loses a page of a single byte,
   * while with an offset one minute short of that the response is left alone.
   */
  lemma DayAheadLosesPage(enc: Encoder)
    requires forall s: Str :: enc(s) <= 6 * |s| + 2
    ensures var late, early := PageOf(Date(2024, 0, SECONDS_PER_DAY)), PageOf(Date(2024, 0, SECONDS_PER_DAY - 60));
      && Reasonable(late, enc) && Reasonable(early, enc)
      && !Fits(Shrunk(late, enc), enc) && |Shrunk(late, enc).results| == 1 && Shrunk(late, enc).results[0].content == []
      && Fits(Shrunk(early, enc), enc) && Shrunk(early, enc) == early
  {
    PageLost(Date(2024, 0, SECONDS_PER_DAY), enc);
    PageKept(Date(2024, 0, SECONDS_PER_DAY - 60), enc);
    hide Shrunk, Fits, Reasonable;
  }

  lemma PageLost(date: Date, enc: Encoder)
    requires !DateEncodes(date) && forall s: Str :: enc(s) <= 6 * |s| + 2
    ensures var v := PageOf(date);
      && Reasonable(v, enc) && !Fits(Shrunk(v, enc), enc)
      && |Shrunk(v, enc).results| == 1 && Shrunk(v, enc).results[0].content == []
  {
    hide Shrunk, Fits;
    assert !Dated(PageOf(date).results[0]);
    UndatedLosesContent(PageOf(date), enc);
  }

  lemma PageKept(date: Date, enc: Encoder)
    requires DateEncodes(date) && forall s: Str :: enc(s) <= 6 * |s| + 2
    ensures var v := PageOf(date); Reasonable(v, enc) && Fits(Shrunk(v, enc), enc) && Shrunk(v, enc) == v
  {
    var v := PageOf(date);
    PageFits(v, enc);
    assert Tidied(v) == v;
    hide Fits, Tidied, WithoutRaw, WithoutImages, Halved, Compact;
  }

  lemma PageFits(v: View, enc: Encoder)
    requires forall s: Str :: enc(s) <= 6 * |s| + 2
    requires v.results != [] && v.results[0].publishedAt.Some? && DateEncodes(v.results[0].publishedAt.value)
    requires v == PageOf(v.results[0].publishedAt.value)
    ensures Fits(Tidied(v), enc)
  {
    var size := ResultSize(enc);
    assert v.results[..0] == [];
    assert enc([1]) <= 8 && enc([2]) <= 8 && enc([7]) <= 8;
    assert SumOf([[2]], enc) == enc([2]) by { assert [[2]][..0] == []; }
    assert SumOf(v.results, size) == size(v.results[0]);
    assert Tidied(v).results == v.results;
  }

  // ---------- the shrinking, in place ----------

  /** A response, whose lists are changed in place. */
  class Response {
    const results: array<Result>
    const failed: array<Failure>
    const providers: array<Summary>
    var usage: seq<Usage>
    var meta: Meta

    constructor (v: View)
      ensures Value() == v && fresh(results) && fresh(failed) && fresh(providers)
    {
      results := new Result[|v.results|](i requires 0 <= i < |v.results| => v.results[i]);
      failed := new Failure[|v.failed|](i requires 0 <= i < |v.failed| => v.failed[i]);
      providers := new Summary[|v.providers|](i requires 0 <= i < |v.providers| => v.providers[i]);
      usage, meta := v.usage, v.meta;
      new;
      assert results[..] == v.results && failed[..] == v.failed && providers[..] == v.providers;
    }

    function Value(): View
      reads this, results, failed, providers
    {
      View(results[..], failed[..], providers[..], usage, meta)
    }

    method Tidy()
      modifies this`meta, failed, providers
      ensures Value() == Tidied(old(Value()))
    {
      var flagged := AnyFlagged(results[..]);
      if flagged {
        meta := meta.(responseTruncated := true);
      }
      BoundFailures(failed);
      BoundSummaries(providers);
    }

    method ClearRaw()
      modifies this`meta, results
      ensures Value() == WithoutRaw(old(Value()))
    {
      ghost var all := results[..];
      for i := 0 to results.Length
        invariant forall j :: 0 <= j < i ==> results[j] == DropRaw(all[j])
        invariant forall j :: i <= j < results.Length ==> results[j] == all[j]
        invariant meta == WithFlag(old(meta), exists j :: 0 <= j < i && all[j].raw.Some?)
      {
        if results[i].raw != None {
          results[i] := results[i].(raw := None, rawTruncated := true);
          meta := meta.(responseTruncated := true);
        }
      }
    }

    method ClearImages()
      modifies this`meta, results
      ensures Value() == WithoutImages(old(Value()))
    {
      ghost var all := results[..];
      hide AnyPictured;
      NonePictured(all);
      for i := 0 to results.Length
        invariant forall j :: 0 <= j < i ==> results[j] == DropImages(all[j])
        invariant forall j :: i <= j < results.Length ==> results[j] == all[j]
        invariant meta == WithFlag(old(meta), AnyPictured(all, i))
      {
        if |results[i].images| > 0 || results[i].favicon != [] {
          results[i] := results[i].(images := [], favicon := [], imagesTruncated := true);
          meta := meta.(responseTruncated := true);
        }
        PicturedStep(all, i);
      }
    }

    /** The halving loop; it ends because the limit reaches zero. */
    method HalveContents(enc: Encoder)
      modifies this`meta, results
      ensures Value() == Halved(old(Value()), MAX_RESULT_CONTENT_BYTES / 2, enc).0
    {
      var contentLimit: nat := MAX_RESULT_CONTENT_BYTES / 2;
      while JsonSize(Value(), enc) > MAX_RESPONSE_JSON_BYTES
        invariant Halved(Value(), contentLimit, enc).0 == Halved(old(Value()), MAX_RESULT_CONTENT_BYTES / 2, enc).0
        decreases contentLimit
      {
        ghost var before := Value();
        CapResultContent(results, contentLimit);
        meta := meta.(responseTruncated := true);
        assert Value() == CutAt(before, contentLimit);
        if contentLimit == 0 {
          break;
        }
        contentLimit := contentLimit / 2;
      }
    }

    method CompactAll()
      modifies this`meta, this`usage, results, failed, providers
      ensures Value() == Compact(old(Value()))
    {
      meta := meta.(responseTruncated := true);
      usage := [];
      StripResults(results);
      SilenceSummaries(providers);
      ShortenFailures(failed);
    }

    method Bound(enc: Encoder)
      modifies this, results, failed, providers
      ensures Value() == Shrunk(old(Value()), enc)
      ensures Reasonable(old(Value()), enc) ==> (Fits(Value(), enc) <==> AllDated(old(Value()).results))
      ensures LosesLeast(Value(), old(Value()), enc)
    {
      ShrunkLosesLeast(Value(), enc);
      hide Tidied, WithoutRaw, WithoutImages, Halved, Compact, Fits, Reasonable, AllDated, LosesLeast;
      if Reasonable(Value(), enc) { ResponseFitsExactly(Value(), enc); }
      Tidy();
      if IsWithinBound(enc) {
        return;
      }
      ClearRaw();
      if IsWithinBound(enc) {
        return;
      }
      ClearImages();
      HalveContents(enc);
      if IsWithinBound(enc) {
        return;
      }
      CompactAll();
    }

    predicate IsWithinBound(enc: Encoder)
      reads this, results, failed, providers
      ensures IsWithinBound(enc) <==> Fits(Value(), enc)
    {
      JsonSize(Value(), enc) <= MAX_RESPONSE_JSON_BYTES
    }
  }

  method StripResults(results: array<Result>)
    modifies results
    ensures forall j :: 0 <= j < results.Length ==> results[j] == Stripped(old(results[j]))
  {
    for i := 0 to results.Length
      invariant forall j :: 0 <= j < i ==> results[j] == Stripped(old(results[j]))
      invariant forall j :: i <= j < results.Length ==> results[j] == old(results[j])
    {
      results[i] := results[i].(title := [], content := [], contentTruncated := true, providers := [], images := [],
                                imagesTruncated := true, favicon := [], author := [], raw := None,
                                rawTruncated := true);
    }
  }

  method SilenceSummaries(providers: array<Summary>)
    modifies providers
    ensures forall j :: 0 <= j < providers.Length ==> providers[j] == Silenced(old(providers[j]))
  {
    for i := 0 to providers.Length
      invariant forall j :: 0 <= j < i ==> providers[j] == Silenced(old(providers[j]))
      invariant forall j :: i <= j < providers.Length ==> providers[j] == old(providers[j])
    {
      providers[i] := providers[i].(error := []);
    }
  }

  method ShortenFailures(failed: array<Failure>)
    modifies failed
    ensures forall j :: 0 <= j < failed.Length ==> failed[j] == Shortened(old(failed[j]))
  {
    for i := 0 to failed.Length
      invariant forall j :: 0 <= j < i ==> failed[j] == Shortened(old(failed[j]))
      invariant forall j :: i <= j < failed.Length ==> failed[j] == old(failed[j])
    {
      var error, truncated := TruncateString(failed[i].error, 512);
      failed[i] := failed[i].(error := error);
    }
  }

  method AnyFlagged(results: seq<Result>) returns (flagged: bool)
    ensures flagged <==> exists j :: 0 <= j < |results| && Flagged(results[j])
  {
    for i := 0 to |results|
      invariant forall j :: 0 <= j < i ==> !Flagged(results[j])
    {
      if results[i].contentTruncated || results[i].imagesTruncated || results[i].rawTruncated {
        return true;
      }
    }
    return false;
  }

  method BoundFailures(failed: array<Failure>)
    modifies failed
    ensures forall j :: 0 <= j < failed.Length ==> failed[j] == Bounded(old(failed[j]))
  {
    hide Bounded;
    for i := 0 to failed.Length
      invariant forall j :: 0 <= j < i ==> failed[j] == Bounded(old(failed[j]))
      invariant forall j :: i <= j < failed.Length ==> failed[j] == old(failed[j])
    {
      failed[i] := BoundFailure(failed[i]);
    }
  }

  method BoundSummaries(providers: array<Summary>)
    modifies providers
    ensures forall j :: 0 <= j < providers.Length ==> providers[j] == BoundedSummary(old(providers[j]))
  {
    hide BoundedSummary;
    for i := 0 to providers.Length
      invariant forall j :: 0 <= j < i ==> providers[j] == BoundedSummary(old(providers[j]))
      invariant forall j :: i <= j < providers.Length ==> providers[j] == old(providers[j])
    {
      providers[i] := BoundSummary(providers[i]);
    }
  }

  method BoundSummary(summary: Summary) returns (s: Summary)
    ensures s == BoundedSummary(summary)
  {
    var provider, a := TruncateString(summary.provider, 64);
    var keyAlias, b := TruncateString(summary.keyAlias, 256);
    var errorType, c := TruncateString(summary.errorType, 64);
    var error, d := TruncateString(summary.error, MAX_ERROR_BYTES);
    s := summary.(provider := provider, keyAlias := keyAlias, errorType := errorType, error := error);
  }
}
