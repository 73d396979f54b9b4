/** The orders in which the key pool may probe the keys of a provider. */
module KeyOrder {
  import opened KeyStates
  import opened StableSort

  /** Fewer calls first, then longer unused, then the smaller id. */
  predicate LessUsed(a: KeyRow, b: KeyRow) {
    var left, right := a.totalSuccesses + a.totalFailures, b.totalSuccesses + b.totalFailures;
    if left == right then
      if a.lastUsedAt == b.lastUsedAt then a.id < b.id else a.lastUsedAt < b.lastUsedAt
    else left < right
  }

  function EffectiveWeight(row: KeyRow): nat {
    if row.weight <= 0 then 1 else row.weight
  }

  function TotalWeight(rows: seq<KeyRow>): nat {
    if rows == [] then 0 else TotalWeight(rows[..|rows| - 1]) + EffectiveWeight(rows[|rows| - 1])
  }

  lemma {:induction false} TotalWeightPositive(rows: seq<KeyRow>)
    ensures TotalWeight(rows) >= |rows|
  {
    if rows != [] { TotalWeightPositive(rows[..|rows| - 1]); }
  }

  /** The draws `pick` that select `rows[i]`: exactly as many as its weight. */
  ghost predicate Selects(rows: seq<KeyRow>, pick: int, i: int) {
    0 <= i < |rows| && TotalWeight(rows[..i]) <= pick < TotalWeight(rows[..i]) + EffectiveWeight(rows[i])
  }

  lemma {:induction false} PrefixWeightGrows(rows: seq<KeyRow>, i: nat, j: nat)
    requires i < j <= |rows|
    ensures TotalWeight(rows[..i]) + EffectiveWeight(rows[i]) <= TotalWeight(rows[..j])
  {
    assert rows[..j][..j - 1] == rows[..j - 1];
    if i < j - 1 { PrefixWeightGrows(rows, i, j - 1); }
  }

  /** A draw selects one key and no other. */
  lemma SelectionUnique(rows: seq<KeyRow>, pick: int, i: int, j: int)
    requires Selects(rows, pick, i) && Selects(rows, pick, j)
    ensures i == j
  {
    if i < j { PrefixWeightGrows(rows, i, j); }
    if j < i { PrefixWeightGrows(rows, j, i); }
  }

  /** Of all draws, as many select a key as its weight says, and one if that is not positive. */
  lemma DrawsByWeight(rows: seq<KeyRow>, i: nat)
    requires i < |rows|
    ensures |set pick | 0 <= pick < TotalWeight(rows) && Selects(rows, pick, i)|
      == if rows[i].weight > 0 then rows[i].weight else 1
  {
    PrefixWeightGrows(rows, i, |rows|);
    assert rows[..|rows|] == rows;
    var from := TotalWeight(rows[..i]);
    var n := EffectiveWeight(rows[i]);
    var chosen := set pick | 0 <= pick < TotalWeight(rows) && Selects(rows, pick, i);
    RangeIs(from, n);
    assert chosen == Range(from, n);
  }

  ghost function Range(from: int, n: nat): set<int> {
    if n == 0 then {} else Range(from, n - 1) + {from + n - 1}
  }

  lemma {:induction false} RangeIs(from: int, n: nat)
    ensures |Range(from, n)| == n && forall x :: x in Range(from, n) <==> from <= x < from + n
  {
    if n > 0 { RangeIs(from, n - 1); }
  }

  method PickWeighted(remaining: seq<KeyRow>, draw: nat) returns (selected: nat)
    requires remaining != []
    ensures selected < |remaining|
    ensures TotalWeight(remaining) > 0 && Selects(remaining, draw % TotalWeight(remaining), selected)
  {
    TotalWeightPositive(remaining);
    var totalWeight := 0;
    for index := 0 to |remaining|
      invariant totalWeight == TotalWeight(remaining[..index])
    {
      assert remaining[..index + 1][..index] == remaining[..index];
      totalWeight := totalWeight + EffectiveWeight(remaining[index]);
    }
    assert remaining[..|remaining|] == remaining;
    var pick := draw % totalWeight;
    selected := 0;
    for index := 0 to |remaining|
      invariant pick + TotalWeight(remaining[..index]) == draw % totalWeight
      invariant 0 <= pick
    {
      assert remaining[..index + 1][..index] == remaining[..index];
      if pick < EffectiveWeight(remaining[index]) {
        selected := index;
        return;
      }
      pick := pick - EffectiveWeight(remaining[index]);
    }
  }

  function Without<T>(s: seq<T>, i: nat): seq<T>
    requires i < |s|
  {
    s[..i] + s[i + 1..]
  }

  /** The `round`th draw takes `drawn` out of `rows` and leaves `rest`. */
  ghost predicate DrawStep(rows: seq<KeyRow>, drawn: KeyRow, rest: seq<KeyRow>, draws: nat -> nat, round: nat) {
    && TotalWeight(rows) > 0
    && exists i :: Selects(rows, draws(round) % TotalWeight(rows), i) && drawn == rows[i] && rest == Without(rows, i)
  }

  /** Drawing without replacement: `rests[k]` is what is left before the draw of `ordered[k]`. */
  ghost predicate Drawn(rests: seq<seq<KeyRow>>, ordered: seq<KeyRow>, draws: nat -> nat) {
    && |rests| == |ordered| + 1
    && forall k :: 0 <= k < |ordered| ==> DrawStep(rests[k], ordered[k], rests[k + 1], draws, k)
  }

  lemma DrawnAppend(rests: seq<seq<KeyRow>>, ordered: seq<KeyRow>, draws: nat -> nat, drawn: KeyRow, rest: seq<KeyRow>)
    requires Drawn(rests, ordered, draws) && DrawStep(rests[|ordered|], drawn, rest, draws, |ordered|)
    ensures Drawn(rests + [rest], ordered + [drawn], draws)
  {
    var rests', ordered' := rests + [rest], ordered + [drawn];
    forall k | 0 <= k < |ordered'| ensures DrawStep(rests'[k], ordered'[k], rests'[k + 1], draws, k) {
      assert k < |ordered| ==> rests'[k] == rests[k] && rests'[k + 1] == rests[k + 1] && ordered'[k] == ordered[k];
    }
  }

  lemma WithoutOne(rows: seq<KeyRow>, i: nat)
    requires i < |rows|
    ensures multiset(rows) == multiset{rows[i]} + multiset(Without(rows, i))
  {
    assert rows == rows[..i] + [rows[i]] + rows[i + 1..];
  }

  /** `draws` stands for the random generator: any sequence of draws, reduced to the range asked for. */
  method WeightedKeyOrder(keys: seq<KeyRow>, draws: nat -> nat)
    returns (ordered: seq<KeyRow>, ghost rests: seq<seq<KeyRow>>)
    ensures multiset(ordered) == multiset(keys)
    ensures Drawn(rests, ordered, draws) && rests[0] == keys && rests[|ordered|] == []
  {
    var remaining := keys;
    ordered, rests := [], [keys];
    while remaining != []
      invariant multiset(ordered) + multiset(remaining) == multiset(keys)
      invariant Drawn(rests, ordered, draws) && rests[0] == keys && rests[|ordered|] == remaining
      decreases |remaining|
    {
      var selected := PickWeighted(remaining, draws(|ordered|));
      WithoutOne(remaining, selected);
      DrawnAppend(rests, ordered, draws, remaining[selected], Without(remaining, selected));
      ordered := ordered + [remaining[selected]];
      remaining := Without(remaining, selected);
      rests := rests + [remaining];
    }
  }

  lemma LessUsedIsOrder()
    ensures StrictWeakOrder(LessUsed)
  {
  }

  function Calls(row: KeyRow): int { row.totalSuccesses + row.totalFailures }

  /** Numbers of calls rise; among equal ones the key unused for longest comes first, then the smaller id. */
  ghost predicate LeastUsedFirst(ordered: seq<KeyRow>) {
    forall i, j :: 0 <= i < j < |ordered| ==>
      && Calls(ordered[i]) <= Calls(ordered[j])
      && (Calls(ordered[i]) == Calls(ordered[j]) ==>
            && ordered[i].lastUsedAt <= ordered[j].lastUsedAt
            && (ordered[i].lastUsedAt == ordered[j].lastUsedAt ==> ordered[i].id <= ordered[j].id))
  }

  lemma SortedIsLeastUsedFirst(keys: seq<KeyRow>)
    ensures multiset(Sort(keys, LessUsed)) == multiset(keys) && Ordered(Sort(keys, LessUsed), LessUsed)
    ensures LeastUsedFirst(Sort(keys, LessUsed))
  {
    SortPermutes(keys, LessUsed);
    LessUsedIsOrder();
    SortOrders(keys, LessUsed);
    hide Sort;
  }
}
