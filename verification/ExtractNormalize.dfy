/** The two ends of an Extract call: the URLs that are let in, and the results that are let out. */
module ExtractNormalize {
  import opened Wrappers
  import opened Utf8
  import opened ExtractTypes
  import opened ExtractMerge

  const MAX_URLS := 20
  const MAX_RESULT_CONTENT_BYTES := 512 * 1024
  const MAX_RAW_BYTES := 64 * 1024
  const MAX_IMAGES := 64
  const MAX_IMAGE_BYTES := 64 * 1024
  const MAX_TITLE_BYTES := 4096
  const MAX_AUTHOR_BYTES := 1024
  const MAX_PROVIDER_ITEMS := 100
  const MAX_PROVIDERS := 4

  // ---------- the requested URLs ----------

  datatype Admission = NoUrls | TooManyUrls | TooLong(index: nat) | NotAllowed(index: nat) | Admitted(urls: seq<Str>)

  function Trimmed(urls: seq<Str>, trim: Str -> Str): seq<Str> {
    seq(|urls|, i requires 0 <= i < |urls| => trim(urls[i]))
  }

  /** The first URL for each key. */
  function FirstByKey(urls: seq<Str>, key: UrlKey): seq<Str> {
    if urls == [] then []
    else
      var n := |urls| - 1;
      FirstByKey(urls[..n], key) + if exists i :: 0 <= i < n && key(urls[i]) == key(urls[n]) then [] else [urls[n]]
  }

  lemma {:induction false} FirstByKeySound(urls: seq<Str>, key: UrlKey)
    ensures var r := FirstByKey(urls, key);
      && DistinctUrls(r, key)
      && |r| <= |urls|
      && (forall u :: u in r ==> u in urls)
      && (forall i :: 0 <= i < |urls| ==> exists a :: 0 <= a < |r| && key(r[a]) == key(urls[i]))
  {
    if urls != [] {
      var n := |urls| - 1;
      var r, older := FirstByKey(urls, key), FirstByKey(urls[..n], key);
      FirstByKeySound(urls[..n], key);
      forall i | 0 <= i < |urls| ensures exists a :: 0 <= a < |r| && key(r[a]) == key(urls[i]) {
        if i < n {
          assert urls[..n][i] == urls[i];
          var a :| 0 <= a < |older| && key(older[a]) == key(urls[i]);
          assert r[a] == older[a];
        } else if j: nat :| j < n && key(urls[j]) == key(urls[n]) {
          assert urls[..n][j] == urls[j];
          var a :| 0 <= a < |older| && key(older[a]) == key(urls[j]);
          assert r[a] == older[a];
        } else {
          assert r[|older|] == urls[n];
        }
      }
      if !(exists i :: 0 <= i < n && key(urls[i]) == key(urls[n])) {
        forall a | 0 <= a < |older| ensures key(older[a]) != key(urls[n]) {
          assert older[a] in older && older[a] in urls[..n];
          var j :| 0 <= j < n && urls[..n][j] == older[a];
          assert urls[j] == older[a];
        }
      }
    }
  }

  /** Of the URLs that share a key, the first is the one kept. */
  lemma {:induction false} FirstByKeyKeepsFirst(urls: seq<Str>, key: UrlKey, i: nat)
    requires i < |urls| && forall j :: 0 <= j < i ==> key(urls[j]) != key(urls[i])
    ensures urls[i] in FirstByKey(urls, key)
  {
    var n := |urls| - 1;
    if i < n {
      assert urls[..n][i] == urls[i];
      FirstByKeyKeepsFirst(urls[..n], key, i);
    }
  }

  lemma FirstByKeyNone(key: UrlKey)
    ensures FirstByKey([], key) == []
  {
  }

  lemma FirstByKeyStep(urls: seq<Str>, key: UrlKey, i: nat)
    requires i < |urls|
    ensures FirstByKey(urls[..i + 1], key)
            == FirstByKey(urls[..i], key) + if exists j ::
              0 <= j < i && key(urls[j]) == key(urls[i]) then [] else [urls[i]]
  {
    assert urls[..i + 1][..i] == urls[..i];
    forall j | 0 <= j <= i ensures urls[..i + 1][j] == urls[j] {}
  }

  predicate Passes(url: Str, allowed: Str -> bool) { |url| <= MAX_URL_BYTES && allowed(url) }

  /** `allowed` stands for the parsing and network checks of one URL. */
  method AdmitURLs(rawURLs: seq<Str>, trim: Str -> Str, allowed: Str -> bool, key: UrlKey) returns (r: Admission)
    ensures r.NoUrls? <==> rawURLs == []
    ensures r.TooManyUrls? <==> |rawURLs| > MAX_URLS
    ensures r.TooLong? ==> r.index < |rawURLs| && |trim(rawURLs[r.index])| > MAX_URL_BYTES
    ensures r.NotAllowed? ==>
      r.index < |rawURLs| && |trim(rawURLs[r.index])| <= MAX_URL_BYTES && !allowed(trim(rawURLs[r.index]))
    ensures r.TooLong? || r.NotAllowed? ==> forall j :: 0 <= j < r.index ==> Passes(trim(rawURLs[j]), allowed)
    ensures r.Admitted? ==>
      && r.urls == FirstByKey(Trimmed(rawURLs, trim), key)
      && DistinctUrls(r.urls, key) && 1 <= |r.urls| <= MAX_URLS
      && (forall u :: u in Trimmed(rawURLs, trim) ==> Passes(u, allowed))
      && (forall u :: u in r.urls ==> Passes(u, allowed))
  {
    if rawURLs == [] {
      return NoUrls;
    }
    if |rawURLs| > MAX_URLS {
      return TooManyUrls;
    }
    r := KeepAllowed(rawURLs, trim, allowed, key);
    FirstByKeySound(Trimmed(rawURLs, trim), key);
  }

  /** The keys of the URLs so far. */
  ghost predicate KeysSeen(seen: set<Str>, urls: seq<Str>, key: UrlKey) {
    forall k :: k in seen <==> exists j :: 0 <= j < |urls| && key(urls[j]) == k
  }

  lemma NoneSeen(key: UrlKey)
    ensures KeysSeen({}, [], key)
  {
  }

  lemma SeenStep(seen: set<Str>, urls: seq<Str>, key: UrlKey, i: nat)
    requires i < |urls| && KeysSeen(seen, urls[..i], key)
    ensures key(urls[i]) in seen <==> exists j :: 0 <= j < i && key(urls[j]) == key(urls[i])
    ensures KeysSeen(seen + {key(urls[i])}, urls[..i + 1], key)
    ensures key(urls[i]) in seen ==> seen + {key(urls[i])} == seen
  {
    assert urls[..i + 1] == urls[..i] + [urls[i]];
    forall j | 0 <= j < i ensures urls[..i][j] == urls[j] {}
  }

  /** The loop: every URL is checked, and the first one for each key is kept. */
  method KeepAllowed(rawURLs: seq<Str>, trim: Str -> Str, allowed: Str -> bool, key: UrlKey) returns (r: Admission)
    ensures r.TooLong? || r.NotAllowed? || r.Admitted?
    ensures r.TooLong? ==> r.index < |rawURLs| && |trim(rawURLs[r.index])| > MAX_URL_BYTES
    ensures r.NotAllowed? ==>
      r.index < |rawURLs| && |trim(rawURLs[r.index])| <= MAX_URL_BYTES && !allowed(trim(rawURLs[r.index]))
    ensures r.TooLong? || r.NotAllowed? ==> forall j :: 0 <= j < r.index ==> Passes(trim(rawURLs[j]), allowed)
    ensures r.Admitted? ==>
      && r.urls == FirstByKey(Trimmed(rawURLs, trim), key)
      && (forall u :: u in Trimmed(rawURLs, trim) ==> Passes(u, allowed))
  {
    var seen: set<Str>, urls: seq<Str> := {}, [];
    ghost var trimmed := Trimmed(rawURLs, trim);
    FirstByKeyNone(key);
    hide FirstByKey, KeysSeen;
    assert KeysSeen({}, [], key) by { NoneSeen(key); }
    for i := 0 to |rawURLs|
      invariant urls == FirstByKey(trimmed[..i], key)
      invariant KeysSeen(seen, trimmed[..i], key)
      invariant forall j :: 0 <= j < i ==> Passes(trim(rawURLs[j]), allowed)
    {
      var value := trim(rawURLs[i]);
      if |value| > MAX_URL_BYTES {
        return TooLong(i);
      }
      if !allowed(value) {
        return NotAllowed(i);
      }
      var k := key(value);
      SeenStep(seen, trimmed, key, i);
      FirstByKeyStep(trimmed, key, i);
      if k !in seen {
        seen := seen + {k};
        urls := urls + [value];
      }
    }
    assert trimmed[..|rawURLs|] == trimmed;
    r := Admitted(urls);
  }

  // ---------- the results of one provider ----------

  datatype Request = Request(urls: seq<Str>, format: Str, includeImages: bool, includeFavicon: bool, includeRaw: bool)

  /** The requested URL a result is for: by key, or the only one there is, whatever the provider calls it. */
  function Correlated(url: Str, requested: seq<Str>, key: UrlKey): Option<Str> {
    if exists i ::
      0 <= i < |requested| && key(requested[i]) == key(url) then Some(FirstWithKey(requested, key, key(url)))
    else if |requested| == 1 then Some(requested[0])
    else None
  }

  function FirstWithKey(requested: seq<Str>, key: UrlKey, k: Str): (u: Str)
    requires exists i :: 0 <= i < |requested| && key(requested[i]) == k
    ensures u in requested && key(u) == k
  {
    if key(requested[0]) == k then requested[0] else FirstWithKey(requested[1..], key, k)
  }

  method CorrelateResultURL(url: Str, requested: seq<Str>, key: UrlKey) returns (found: Option<Str>)
    ensures found == Correlated(url, requested, key)
    ensures found.Some? ==> found.value in requested && (key(found.value) == key(url) || |requested| == 1)
    ensures (exists u :: u in requested && key(u) == key(url)) ==> found.Some? && key(found.value) == key(url)
    ensures |requested| == 1 ==> found.Some?
  {
    var k := key(url);
    for i := 0 to |requested|
      invariant forall j :: 0 <= j < i ==> key(requested[j]) != k
    {
      if key(requested[i]) == k {
        FirstMatch(requested, key, k, i);
        return Some(requested[i]);
      }
    }
    if |requested| == 1 {
      return Some(requested[0]);
    }
    return None;
  }

  lemma {:induction false} FirstMatch(requested: seq<Str>, key: UrlKey, k: Str, i: nat)
    requires i < |requested| && key(requested[i]) == k && forall j :: 0 <= j < i ==> key(requested[j]) != k
    ensures FirstWithKey(requested, key, k) == requested[i]
  {
    if i > 0 {
      assert requested[1..][i - 1] == requested[i];
      FirstMatch(requested[1..], key, k, i - 1);
    }
  }

  function DecimalDigits(n: nat): nat { if n < 10 then 1 else 1 + DecimalDigits(n / 10) }

  /** Metadata that is too big, or cannot be encoded, is replaced by a marker of its size. */
  function BoundedRaw(raw: Option<Raw>): (Option<Raw>, bool) {
    if raw.None? then (None, false)
    else match raw.value.encoded
      case None => (Some(Raw(Some(19))), true)
      case Some(n) => if n <= MAX_RAW_BYTES then (raw, false) else (Some(Raw(Some(38 + DecimalDigits(n)))), true)
  }

  datatype ImageList = ImageList(items: seq<Str>, used: nat, truncated: bool)

  function WithImage(list: ImageList, image: Str, maxItems: int, maxBytes: int): ImageList {
    if image == [] then list
    else if |image| > MAX_URL_BYTES then list.(truncated := true)
    else if image in list.items then list
    else if |list.items| >= maxItems || list.used + |image| > maxBytes then list.(truncated := true)
    else ImageList(list.items + [image], list.used + |image|, list.truncated)
  }

  function ImagesAfter(images: seq<Str>, trim: Str -> Str, maxItems: int, maxBytes: int, truncated: bool): ImageList {
    if images == [] then ImageList([], 0, truncated)
    else WithImage(ImagesAfter(images[..|images| - 1], trim, maxItems, maxBytes, truncated),
                   trim(images[|images| - 1]), maxItems, maxBytes)
  }

  function BoundedImages(images: seq<Str>, trim: Str -> Str, maxItems: int, maxBytes: int,
                         truncated: bool): (seq<Str>, bool) {
    if images == [] || maxItems <= 0 || maxBytes <= 0 then ([], truncated || images != [])
    else
      var list := ImagesAfter(images, trim, maxItems, maxBytes, truncated);
      (list.items, list.truncated || |list.items| < |images|)
  }

  function TotalBytes(items: seq<Str>): nat {
    if items == [] then 0 else TotalBytes(items[..|items| - 1]) + |items[|items| - 1]|
  }

  /** Images are distinct and within all three limits. */
  lemma {:induction false} ImagesWithinLimits(images: seq<Str>, trim: Str -> Str, maxItems: int, maxBytes: int,
                                              truncated: bool)
    requires maxItems > 0 && maxBytes > 0
    ensures var list := ImagesAfter(images, trim, maxItems, maxBytes, truncated);
      && |list.items| <= maxItems && |list.items| <= |images|
      && TotalBytes(list.items) == list.used <= maxBytes
      && (forall i, j :: 0 <= i < j < |list.items| ==> list.items[i] != list.items[j])
      && (forall i :: 0 <= i < |list.items| ==> 0 < |list.items[i]| <= MAX_URL_BYTES)
  {
    if images != [] {
      var n := |images| - 1;
      var older, list := ImagesAfter(images[..n], trim, maxItems, maxBytes, truncated),
        ImagesAfter(images, trim, maxItems, maxBytes, truncated);
      ImagesWithinLimits(images[..n], trim, maxItems, maxBytes, truncated);
      if list.items != older.items {
        assert list.items[..|list.items| - 1] == older.items;
      }
    }
  }

  /** They are trimmed inputs, and reported complete only if none is missing. */
  lemma {:induction false} ImagesComplete(images: seq<Str>, trim: Str -> Str, maxItems: int, maxBytes: int,
                                          truncated: bool, image: Str)
    ensures var list := ImagesAfter(images, trim, maxItems, maxBytes, truncated);
      && (image in list.items ==> exists j :: 0 <= j < |images| && trim(images[j]) == image)
      && (!list.truncated && image != [] && (exists j :: 0 <= j < |images| && trim(images[j]) == image) ==>
          image in list.items)
      // Nothing within the limits is left out as long as there is room.
      && (0 < |image| <= MAX_URL_BYTES && image !in list.items
            && (exists j :: 0 <= j < |images| && trim(images[j]) == image) ==>
          |list.items| >= maxItems || list.used + |image| > maxBytes)
  {
    if images != [] {
      var n := |images| - 1;
      ImagesComplete(images[..n], trim, maxItems, maxBytes, truncated, image);
      forall j | 0 <= j < n ensures images[..n][j] == images[j] {}
    }
  }

  method BoundImages(images: seq<Str>, trim: Str -> Str, maxItems: int, maxBytes: int, alreadyTruncated: bool)
      returns (items: seq<Str>, truncated: bool)
    ensures (items, truncated) == BoundedImages(images, trim, maxItems, maxBytes, alreadyTruncated)
  {
    if |images| == 0 || maxItems <= 0 || maxBytes <= 0 {
      return [], alreadyTruncated || |images| > 0;
    }
    items, truncated := [], alreadyTruncated;
    var used: nat := 0;
    for i := 0 to |images|
      invariant ImageList(items, used, truncated)
        == ImagesAfter(images[..i], trim, maxItems, maxBytes, alreadyTruncated)
    {
      assert images[..i + 1][..i] == images[..i];
      var value := trim(images[i]);
      if value == [] {
        continue;
      }
      if |value| > MAX_URL_BYTES {
        truncated := true;
        continue;
      }
      if value in items {
        continue;
      }
      if |items| >= maxItems || used + |value| > maxBytes {
        truncated := true;
        continue;
      }
      items := items + [value];
      used := used + |value|;
    }
    assert images[..|images|] == images;
    if |items| < |images| {
      truncated := true;
    }
  }

  function BoundedResult(r: Result, trim: Str -> Str, includeRaw: bool): Result {
    var (images, imagesTruncated) :=
      BoundedImages(r.images, trim, MAX_IMAGES, MAX_IMAGE_BYTES, r.imagesTruncated || |r.favicon| > MAX_URL_BYTES);
    var (raw, rawTruncated) := BoundedRaw(r.raw);
    r.(title := Truncated(r.title, MAX_TITLE_BYTES),
       content := Truncated(r.content, MAX_RESULT_CONTENT_BYTES),
       contentTruncated := r.contentTruncated || Cuts(r.content, MAX_RESULT_CONTENT_BYTES),
       author := Truncated(r.author, MAX_AUTHOR_BYTES),
       favicon := if |r.favicon| > MAX_URL_BYTES then [] else r.favicon,
       images := images, imagesTruncated := imagesTruncated,
       providers := if |r.providers| > MAX_PROVIDERS then r.providers[..MAX_PROVIDERS] else r.providers,
       raw := if includeRaw then raw else None,
       rawTruncated := r.rawTruncated || (includeRaw && rawTruncated))
  }

  method BoundResult(result: Result, trim: Str -> Str, includeRaw: bool) returns (r: Result)
    ensures r == BoundedResult(result, trim, includeRaw)
  {
    var title, a := TruncateString(result.title, MAX_TITLE_BYTES);
    var content, contentCut := TruncateString(result.content, MAX_RESULT_CONTENT_BYTES);
    var author, b := TruncateString(result.author, MAX_AUTHOR_BYTES);
    var favicon, imagesTruncated := result.favicon, result.imagesTruncated;
    if |favicon| > MAX_URL_BYTES {
      favicon, imagesTruncated := [], true;
    }
    var images;
    images, imagesTruncated := BoundImages(result.images, trim, MAX_IMAGES, MAX_IMAGE_BYTES, imagesTruncated);
    var providers := result.providers;
    if |providers| > MAX_PROVIDERS {
      providers := providers[..MAX_PROVIDERS];
    }
    var raw, rawTruncated := None, result.rawTruncated;
    if includeRaw {
      raw := result.raw;
      var (bounded, truncated) := BoundedRaw(raw);
      if truncated {
        raw, rawTruncated := bounded, true;
      }
    }
    r := result.(title := title, content := content, contentTruncated := result.contentTruncated
                 || contentCut, author := author,
                 favicon := favicon, images := images, imagesTruncated := imagesTruncated, providers := providers,
                 raw := raw, rawTruncated := rawTruncated);
  }

  /** What becomes of one result of a provider. */
  datatype Verdict = Ignored | Refused(failure: Failure) | Kept(result: Result)

  function InvalidResponse(url: Str, provider: Str, message: string): Verdict {
    Refused(Bounded(Failure(url, provider, Ascii("invalid_response"), Ascii(message))))
  }

  function Judged(r: Result, provider: Str, req: Request, trim: Str -> Str, key: UrlKey): Verdict {
    var url := trim(r.url);
    if url == [] then Ignored
    else match Correlated(url, req.urls, key)
      case None => InvalidResponse(url, provider, "provider returned content for an unrequested URL")
      case Some(requested) =>
        if trim(r.content) == [] then InvalidResponse(requested, provider, "provider returned no extracted content")
        else Kept(BoundedResult(Dressed(r.(url := requested), provider, req), trim, req.includeRaw))
  }

  /** The provider's and the request's defaults, and the parts that were not asked for removed. */
  function Dressed(r: Result, provider: Str, req: Request): Result {
    var name := if r.provider == [] then provider else r.provider;
    r.(provider := name,
       providers := if r.providers == [] then [name] else r.providers,
       format := if r.format == [] then req.format else r.format,
       images := if req.includeImages then r.images else [],
       favicon := if req.includeFavicon then r.favicon else [])
  }

  function Verdicts(results: seq<Result>, provider: Str, req: Request, trim: Str -> Str, key: UrlKey): seq<Verdict> {
    seq(|results|, i requires 0 <= i < |results| => Judged(results[i], provider, req, trim, key))
  }

  function KeptOf(verdicts: seq<Verdict>): seq<Result> {
    if verdicts == [] then []
    else KeptOf(verdicts[..|verdicts| - 1]) + match verdicts[|verdicts| - 1] case Kept(r) => [r] case _ => []
  }

  function RefusedOf(verdicts: seq<Verdict>): seq<Failure> {
    if verdicts == [] then []
    else RefusedOf(verdicts[..|verdicts| - 1]) + match verdicts[|verdicts| - 1] case Refused(f) => [f] case _ => []
  }

  method NormalizeProviderResults(results: seq<Result>, provider: Str, req: Request, trim: Str -> Str, key: UrlKey)
      returns (items: seq<Result>, failures: seq<Failure>)
    ensures var considered := if |results| > MAX_PROVIDER_ITEMS then results[..MAX_PROVIDER_ITEMS] else results;
      var verdicts := Verdicts(considered, provider, req, trim, key);
      items == KeptOf(verdicts) && failures == RefusedOf(verdicts)
  {
    hide Judged;
    items, failures := [], [];
    ghost var verdicts := Verdicts(results, provider, req, trim, key);
    var index := 0;
    while index < |results|
      invariant index <= |results| && index <= MAX_PROVIDER_ITEMS
      invariant items == KeptOf(verdicts[..index]) && failures == RefusedOf(verdicts[..index])
    {
      if index >= MAX_PROVIDER_ITEMS {
        break;
      }
      assert verdicts[..index + 1][..index] == verdicts[..index];
      var verdict := JudgeResult(results[index], provider, req, trim, key);
      match verdict {
        case Ignored =>
        case Refused(failure) => failures := failures + [failure];
        case Kept(result) => items := items + [result];
      }
      index := index + 1;
    }
    assert verdicts[..index] == Verdicts(results[..index], provider, req, trim, key);
    assert results[..|results|] == results;
  }

  method JudgeResult(raw: Result, provider: Str, req: Request, trim: Str -> Str, key: UrlKey) returns (v: Verdict)
    ensures v == Judged(raw, provider, req, trim, key)
  {
    hide BoundedResult, Dressed, Correlated, Bounded;
    var result := raw.(url := trim(raw.url));
    if result.url == [] {
      return Ignored;
    }
    var requested := CorrelateResultURL(result.url, req.urls, key);
    if requested.None? {
      var failure :=
        BoundFailure(Failure(result.url, provider, Ascii("invalid_response"),
                             Ascii("provider returned content for an unrequested URL")));
      return Refused(failure);
    }
    result := result.(url := requested.value);
    if trim(result.content) == [] {
      var failure :=
        BoundFailure(Failure(result.url, provider, Ascii("invalid_response"),
                             Ascii("provider returned no extracted content")));
      return Refused(failure);
    }
    result := Dress(result, provider, req);
    result := BoundResult(result, trim, req.includeRaw);
    v := Kept(result);
  }

  method Dress(r: Result, provider: Str, req: Request) returns (result: Result)
    ensures result == Dressed(r, provider, req)
  {
    result := r;
    if result.provider == [] {
      result := result.(provider := provider);
    }
    if |result.providers| == 0 {
      result := result.(providers := [result.provider]);
    }
    if result.format == [] {
      result := result.(format := req.format);
    }
    if !req.includeImages {
      result := result.(images := []);
    }
    if !req.includeFavicon {
      result := result.(favicon := []);
    }
  }

  /** Which results are kept, which are refused and why, and which are passed over. */
  lemma JudgedExactly(r: Result, provider: Str, req: Request, trim: Str -> Str, key: UrlKey)
    ensures var v, url := Judged(r, provider, req, trim, key), trim(r.url);
      var asked := |req.urls| == 1 || exists i :: 0 <= i < |req.urls| && key(req.urls[i]) == key(url);
      && (v.Ignored? <==> url == [])
      && (v.Kept? <==> url != [] && asked && trim(r.content) != [])
      && (v.Refused? ==>
            && v.failure.errorType == Truncated(Ascii("invalid_response"), 64)
            && v.failure.provider == Truncated(provider, 64)
            && (if asked then
                  && (exists u :: u in req.urls && v.failure.url == Truncated(u, MAX_URL_BYTES))
                  && v.failure.error == Truncated(Ascii("provider returned no extracted content"), MAX_ERROR_BYTES)
                else
                  && v.failure.url == Truncated(url, MAX_URL_BYTES)
                  && v.failure.error
                     == Truncated(Ascii("provider returned content for an unrequested URL"), MAX_ERROR_BYTES)))
  {
    hide Truncated, Ascii, BoundedResult, FirstWithKey;
    if |req.urls| == 1 { assert req.urls[0] in req.urls; }
  }

  /** Each field of a kept result, by what the provider returned and the request asks for. */
  lemma KeptFields(r: Result, provider: Str, req: Request, trim: Str -> Str, key: UrlKey)
    requires Judged(r, provider, req, trim, key).Kept?
    ensures var kept := Judged(r, provider, req, trim, key).result;
      && kept.title == Truncated(r.title, MAX_TITLE_BYTES) && kept.author == Truncated(r.author, MAX_AUTHOR_BYTES)
      && kept.content == Truncated(r.content, MAX_RESULT_CONTENT_BYTES)
      && (kept.contentTruncated <==> r.contentTruncated || |r.content| > MAX_RESULT_CONTENT_BYTES)
      && kept.provider == (if r.provider != [] then r.provider else provider)
      && kept.providers <= (if r.providers != [] then r.providers else [kept.provider])
      && (|r.providers| <= MAX_PROVIDERS ==>
            kept.providers == if r.providers != [] then r.providers else [kept.provider])
      && kept.format == (if r.format != [] then r.format else req.format)
      && kept.favicon == (if req.includeFavicon && |r.favicon| <= MAX_URL_BYTES then r.favicon else [])
      && (req.includeFavicon && |r.favicon| > MAX_URL_BYTES ==> kept.imagesTruncated)
      && (r.imagesTruncated ==> kept.imagesTruncated)
      && (!req.includeImages ==> kept.images == [])
      && (req.includeImages ==> kept.images == BoundedImages(r.images, trim, MAX_IMAGES, MAX_IMAGE_BYTES, false).0)
      && kept.publishedAt == r.publishedAt
      && (kept.raw.Some? <==> req.includeRaw && r.raw.Some?)
      && (req.includeRaw && SmallRaw(r) ==> kept.raw == r.raw)
      && (kept.rawTruncated <==> r.rawTruncated || (req.includeRaw && r.raw.Some? && !SmallRaw(r)))
  {
    ImagesKeepItems(if req.includeImages then r.images else [], trim,
                    r.imagesTruncated || (req.includeFavicon && |r.favicon| > MAX_URL_BYTES));
    hide Truncated, ImagesAfter;
  }

  ghost predicate SmallRaw(r: Result) {
    r.raw.Some? && r.raw.value.encoded.Some? && r.raw.value.encoded.value <= MAX_RAW_BYTES
  }

  /** Earlier truncation is passed on, and has no bearing on which images are kept. */
  lemma ImagesKeepItems(images: seq<Str>, trim: Str -> Str, truncated: bool)
    ensures BoundedImages(images, trim, MAX_IMAGES, MAX_IMAGE_BYTES, truncated).0
      == BoundedImages(images, trim, MAX_IMAGES, MAX_IMAGE_BYTES, false).0
    ensures truncated ==> BoundedImages(images, trim, MAX_IMAGES, MAX_IMAGE_BYTES, truncated).1
  {
    SameItems(images, trim, truncated);
  }

  lemma {:induction false} SameItems(images: seq<Str>, trim: Str -> Str, truncated: bool)
    ensures var a := ImagesAfter(images, trim, MAX_IMAGES, MAX_IMAGE_BYTES, truncated);
      var b := ImagesAfter(images, trim, MAX_IMAGES, MAX_IMAGE_BYTES, false);
      a.items == b.items && a.used == b.used && (truncated ==> a.truncated)
  {
    if images != [] { SameItems(images[..|images| - 1], trim, truncated); }
  }

  /**
   * What a kept result is worth: it carries a requested URL, is for that URL unless only one was
   * requested, is named, and its content is the longest valid prefix of what was returned; that
   * prefix is empty only when what was returned is not valid UTF-8.
   */
  lemma KeptIsRequested(r: Result, provider: Str, req: Request, trim: Str -> Str, key: UrlKey)
    requires Judged(r, provider, req, trim, key).Kept? && trim([]) == []
    ensures var kept := Judged(r, provider, req, trim, key).result;
      && kept.url in req.urls
      && (|req.urls| != 1 ==> key(kept.url) == key(trim(r.url)))
      && (provider != [] ==> kept.provider != [] && kept.providers != [])
      && kept.content == Truncated(r.content, MAX_RESULT_CONTENT_BYTES)
      && |kept.content| <= MAX_RESULT_CONTENT_BYTES
      && (ValidString(r.content) ==> kept.content != [])
      && |kept.title| <= MAX_TITLE_BYTES && |kept.author| <= MAX_AUTHOR_BYTES && |kept.favicon| <= MAX_URL_BYTES
      && |kept.providers| <= MAX_PROVIDERS
  {
    TruncatedFits(r.content, MAX_RESULT_CONTENT_BYTES);
    TruncatedFits(r.title, MAX_TITLE_BYTES);
    TruncatedFits(r.author, MAX_AUTHOR_BYTES);
    hide Truncated, BoundedImages, BoundedRaw;
  }

  lemma {:induction false} KeptMembers(verdicts: seq<Verdict>)
    ensures forall r :: r in KeptOf(verdicts) <==> Kept(r) in verdicts
    ensures forall f :: f in RefusedOf(verdicts) <==> Refused(f) in verdicts
    ensures |KeptOf(verdicts)| + |RefusedOf(verdicts)| <= |verdicts|
  {
    if verdicts != [] {
      KeptMembers(verdicts[..|verdicts| - 1]);
      assert verdicts == verdicts[..|verdicts| - 1] + [verdicts[|verdicts| - 1]];
    }
  }

  /** Content that starts with a byte no character starts with is cut to nothing. */
  lemma {:induction false} InvalidContentVanishes(value: Str, limit: nat)
    requires limit <= |value| && value != [] && 0x80 <= value[0] < 0xC2
    ensures Cut(value, limit) == 0
  {
    if limit > 0 {
      assert value[..limit][0] == value[0];
      InvalidContentVanishes(value, limit - 1);
    }
  }

  // ---------- the failures that a provider reports itself ----------

  function ReportedFailure(f: Failure, provider: Str, trim: Str -> Str): Failure {
    Bounded(Failure(trim(f.url), if f.provider == [] then provider else f.provider, f.errorType,
                    if f.error == [] then Ascii("provider could not extract the URL") else f.error))
  }

  function ReportedFailures(failures: seq<Failure>, provider: Str, trim: Str -> Str): (items: seq<Failure>)
    ensures |items| == if |failures| > MAX_PROVIDER_ITEMS then MAX_PROVIDER_ITEMS else |failures|
  {
    var considered := if |failures| > MAX_PROVIDER_ITEMS then failures[..MAX_PROVIDER_ITEMS] else failures;
    seq(|considered|, i requires 0 <= i < |considered| => ReportedFailure(considered[i], provider, trim))
  }

  method NormalizeProviderFailures(failures: seq<Failure>, provider: Str, trim: Str -> Str)
    returns (items: seq<Failure>)
    ensures items == ReportedFailures(failures, provider, trim)
  {
    hide Bounded;
    items := [];
    var index := 0;
    while index < |failures|
      invariant index == |items| <= |failures| && index <= MAX_PROVIDER_ITEMS
      invariant forall i :: 0 <= i < index ==> items[i] == ReportedFailure(failures[i], provider, trim)
    {
      if index >= MAX_PROVIDER_ITEMS {
        break;
      }
      var failure := failures[index].(url := trim(failures[index].url));
      if failure.provider == [] {
        failure := failure.(provider := provider);
      }
      if failure.error == [] {
        failure := failure.(error := Ascii("provider could not extract the URL"));
      }
      failure := BoundFailure(failure);
      items := items + [failure];
      index := index + 1;
    }
  }

  /** A reported failure names its provider and a cause, within all limits, for as much of its URL as fits. */
  lemma ReportedFailureIsNamed(f: Failure, provider: Str, trim: Str -> Str)
    requires ValidString(provider) && provider != [] && ValidString(f.provider) && ValidString(f.error)
    ensures var r := ReportedFailure(f, provider, trim);
      && r.provider == Truncated(if f.provider != [] then f.provider else provider, 64)
      && (f.error != [] ==> r.error == Truncated(f.error, MAX_ERROR_BYTES))
      && r.errorType == Truncated(f.errorType, 64)
      && r.provider != [] && r.error != []
      && |r.provider| <= 64 && |r.errorType| <= 64 && |r.error| <= MAX_ERROR_BYTES
      && |r.url| <= MAX_URL_BYTES && r.url <= trim(f.url)
  {
    TruncatedFits(trim(f.url), MAX_URL_BYTES);
    TruncatedFits(if f.provider == [] then provider else f.provider, 64);
    TruncatedFits(f.errorType, 64);
    TruncatedFits(if f.error == [] then Ascii("provider could not extract the URL") else f.error, MAX_ERROR_BYTES);
    hide Truncated;
  }

  /** All that is kept of one answer, in the form in which the retry loop uses it. */
  function NormalizedAnswer(results: seq<Result>, failures: seq<Failure>, provider: Str, req: Request,
                            trim: Str -> Str, key: UrlKey):
    (seq<Result>, seq<Failure>)
  {
    var considered := if |results| > MAX_PROVIDER_ITEMS then results[..MAX_PROVIDER_ITEMS] else results;
    var verdicts := Verdicts(considered, provider, req, trim, key);
    (KeptOf(verdicts), RefusedOf(verdicts) + ReportedFailures(failures, provider, trim))
  }
}
