/** The content budget of an Extract response: one cap for all contents, found by binary search. */
module WaterLevel {
  import opened Utf8
  import opened ExtractTypes

  const MAX_RESPONSE_CONTENT_BYTES := 8 * 1024 * 1024

  function MinInt(left: int, right: int): int { if left < right then left else right }

  /** The bytes of all contents if each were cut at `limit`. */
  function CappedSum(results: seq<Result>, limit: nat): nat {
    if results == [] then 0
    else CappedSum(results[..|results| - 1], limit) + MinInt(|results[|results| - 1].content|, limit)
  }

  function TotalContent(results: seq<Result>): nat {
    if results == [] then 0 else TotalContent(results[..|results| - 1]) + |results[|results| - 1].content|
  }

  function CapOne(r: Result, limit: int): Result {
    if Cuts(r.content, limit) then r.(content := Truncated(r.content, limit), contentTruncated := true) else r
  }

  function Capped(results: seq<Result>, limit: int): seq<Result> {
    seq(|results|, i requires 0 <= i < |results| => CapOne(results[i], limit))
  }

  /** The greatest limit under which the contents fit the budget together. */
  ghost predicate IsWaterLevel(results: seq<Result>, limit: nat) {
    CappedSum(results, limit) <= MAX_RESPONSE_CONTENT_BYTES < CappedSum(results, limit + 1)
  }

  lemma {:induction false} CappedSumGrows(results: seq<Result>, a: nat, b: nat)
    requires a <= b
    ensures CappedSum(results, a) <= CappedSum(results, b) <= TotalContent(results)
  {
    if results != [] { CappedSumGrows(results[..|results| - 1], a, b); }
  }

  lemma {:induction false} CappedSumPrefix(results: seq<Result>, i: nat, limit: nat)
    requires i <= |results|
    ensures CappedSum(results[..i], limit) <= CappedSum(results, limit)
  {
    if i == |results| {
      assert results[..i] == results;
    } else {
      CappedSumPrefix(results[..|results| - 1], i, limit);
      assert results[..|results| - 1][..i] == results[..i];
    }
  }

  lemma {:induction false} CappedSumUncut(results: seq<Result>, limit: nat)
    requires forall i :: 0 <= i < |results| ==> |results[i].content| <= limit
    ensures CappedSum(results, limit) == TotalContent(results)
  {
    if results != [] { CappedSumUncut(results[..|results| - 1], limit); }
  }

  lemma WaterLevelUnique(results: seq<Result>, a: nat, b: nat)
    requires IsWaterLevel(results, a) && IsWaterLevel(results, b)
    ensures a == b
  {
    if a < b { CappedSumGrows(results, a + 1, b); }
    if b < a { CappedSumGrows(results, b + 1, a); }
  }

  /** Cutting one content at a limit one lower, and at a character boundary, loses at most four bytes. */
  lemma {:induction false} CappedTotal(results: seq<Result>, limit: nat)
    ensures TotalContent(Capped(results, limit)) <= CappedSum(results, limit)
    ensures (forall i :: 0 <= i < |results| ==> ValidString(results[i].content)) ==>
              CappedSum(results, limit + 1) <= TotalContent(Capped(results, limit)) + 4 * |results|
  {
    if results != [] {
      var n := |results| - 1;
      CappedTotal(results[..n], limit);
      assert Capped(results, limit)[..n] == Capped(results[..n], limit);
      var content := results[n].content;
      TruncatedFits(content, limit);
      assert forall i :: 0 <= i < n ==> results[..n][i] == results[i];
    }
  }

  /**
   * At the water level the contents fit, and valid contents waste less than four bytes per
   * result; results no longer than the level are untouched.
   */
  lemma WaterLevelIsTight(results: seq<Result>, limit: nat)
    requires IsWaterLevel(results, limit)
    ensures TotalContent(Capped(results, limit)) <= MAX_RESPONSE_CONTENT_BYTES
    ensures (forall i :: 0 <= i < |results| ==> ValidString(results[i].content)) ==>
              MAX_RESPONSE_CONTENT_BYTES - 4 * |results| < TotalContent(Capped(results, limit))
    ensures forall i :: 0 <= i < |results| && |results[i].content| <= limit ==> Capped(results, limit)[i] == results[i]
  {
    CappedTotal(results, limit);
  }

  method CapResultContent(results: array<Result>, maxBytes: int)
    modifies results
    ensures results[..] == Capped(old(results[..]), maxBytes)
  {
    for index := 0 to results.Length
      invariant forall i :: 0 <= i < index ==> results[i] == CapOne(old(results[i]), maxBytes)
      invariant forall i :: index <= i < results.Length ==> results[i] == old(results[i])
    {
      var content, truncated := TruncateString(results[index].content, maxBytes);
      if truncated {
        results[index] := results[index].(content := content, contentTruncated := true);
      }
    }
  }

  method Measure(results: seq<Result>) returns (total: nat, maxLength: nat)
    ensures total == TotalContent(results)
    ensures forall i :: 0 <= i < |results| ==> |results[i].content| <= maxLength
  {
    total, maxLength := 0, 0;
    for i := 0 to |results|
      invariant total == TotalContent(results[..i])
      invariant forall j :: 0 <= j < i ==> |results[j].content| <= maxLength
    {
      assert results[..i + 1][..i] == results[..i];
      var length := |results[i].content|;
      total := total + length;
      if length > maxLength {
        maxLength := length;
      }
    }
    assert results[..|results|] == results;
  }

  /** Whether the contents fit when cut at `candidate`, adding up only as far as needed. */
  method FitsAt(results: seq<Result>, candidate: nat) returns (fits: bool)
    ensures fits <==> CappedSum(results, candidate) <= MAX_RESPONSE_CONTENT_BYTES
  {
    var used := 0;
    var i := 0;
    while i < |results|
      invariant 0 <= i <= |results| && used == CappedSum(results[..i], candidate)
    {
      assert results[..i + 1][..i] == results[..i];
      CappedSumPrefix(results, i + 1, candidate);
      used := used + MinInt(|results[i].content|, candidate);
      i := i + 1;
      if used > MAX_RESPONSE_CONTENT_BYTES {
        break;
      }
    }
    assert results[..|results|] == results;
    fits := used <= MAX_RESPONSE_CONTENT_BYTES;
  }

  /** The binary search for the water level. */
  method FindWaterLevel(results: seq<Result>, maxLength: nat) returns (low: nat)
    requires forall i :: 0 <= i < |results| ==> |results[i].content| <= maxLength
    requires TotalContent(results) > MAX_RESPONSE_CONTENT_BYTES
    ensures IsWaterLevel(results, low)
  {
    var high := maxLength;
    low := 0;
    CappedAtZero(results);
    CappedSumUncut(results, maxLength + 1);
    while low < high
      invariant low <= high
      invariant CappedSum(results, low) <= MAX_RESPONSE_CONTENT_BYTES < CappedSum(results, high + 1)
      decreases high - low
    {
      var candidate := low + (high - low + 1) / 2;
      var fits := FitsAt(results, candidate);
      if fits {
        low := candidate;
      } else {
        high := candidate - 1;
      }
    }
  }

  lemma {:induction false} CappedAtZero(results: seq<Result>)
    ensures CappedSum(results, 0) == 0
  {
    if results != [] { CappedAtZero(results[..|results| - 1]); }
  }

  /** Within the budget nothing changes; over it, every content is cut at the water level. */
  method BoundMergedResults(results: array<Result>) returns (ghost level: nat)
    modifies results
    ensures TotalContent(old(results[..])) <= MAX_RESPONSE_CONTENT_BYTES ==> results[..] == old(results[..])
    ensures TotalContent(old(results[..])) > MAX_RESPONSE_CONTENT_BYTES ==>
      IsWaterLevel(old(results[..]), level) && results[..] == Capped(old(results[..]), level)
    ensures TotalContent(results[..]) <= MAX_RESPONSE_CONTENT_BYTES
  {
    level := 0;
    if results.Length == 0 {
      return;
    }
    var total, maxLength := Measure(results[..]);
    if total <= MAX_RESPONSE_CONTENT_BYTES {
      return;
    }
    var low := FindWaterLevel(results[..], maxLength);
    level := low;
    WaterLevelIsTight(results[..], low);
    CapResultContent(results, low);
  }
}
