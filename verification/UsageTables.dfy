/**
 * The usage tables: requests add to them, deleting a token folds its rows into the rows without
 * a token, and a listing sums them by key and date.
 */
module UsageTables {
  import opened Wrappers

  /** The counters of one row; a NUMERIC column counts in units of its last decimal place. */
  type Columns = seq<int>

  /** One table as its unique key (token, NULL being one value, and the other key columns) to its counters. */
  type Table<G(==)> = map<(Option<int>, G), Columns>

  /** The other key columns of usage_daily and of usage_meter_daily. */
  datatype Daily = Daily(date: int, provider: Option<int>, key: Option<int>)
  datatype Metered = Metered(date: int, key: Option<int>, providerName: string, unit: string)

  const REQUESTS := 0   // the first counter of usage_daily
  const DAILY_WIDTH := 6
  const METERED_WIDTH := 2

  ghost predicate Wide<G>(t: Table<G>, width: nat) {
    forall k :: k in t ==> |t[k]| == width
  }

  ghost predicate Uniform<G>(t: Table<G>) {
    forall k, l :: k in t && l in t ==> |t[k]| == |t[l]|
  }

  function Plus(a: Columns, b: Columns): Columns
    requires |a| == |b|
  {
    seq(|a|, i requires 0 <= i < |a| => a[i] + b[i])
  }

  /** INSERT ... ON CONFLICT DO UPDATE. */
  function Upsert<G>(t: Table<G>, token: Option<int>, group: G, add: Columns): Table<G>
    requires (token, group) in t ==> |t[(token, group)]| == |add|
  {
    if (token, group) in t then t[(token, group) := Plus(t[(token, group)], add)] else t[(token, group) := add]
  }

  // ---------- deleting a token ----------

  function GroupsOf<G>(t: Table<G>, id: int): set<G> {
    set k | k in t && k.0 == Some(id) :: k.1
  }

  /** The table once the rows of `id` in the groups `moved` have been inserted without a token. */
  function Folded<G>(t: Table<G>, id: int, moved: set<G>): Table<G>
    requires moved <= GroupsOf(t, id) && Uniform(t)
  {
    map k | k in t.Keys + (set g | g in moved :: (None, g)) ::
      if k.0 == None && k.1 in moved then
        if k in t then Plus(t[k], t[(Some(id), k.1)]) else t[(Some(id), k.1)]
      else t[k]
  }

  function WithoutToken<G>(t: Table<G>, id: int): Table<G>
    requires Uniform(t)
  {
    var folded := Folded(t, id, GroupsOf(t, id));
    map k | k in folded && k.0 != Some(id) :: folded[k]
  }

  method FoldToken<G(==)>(t: Table<G>, id: int, ghost width: nat) returns (r: Table<G>)
    requires Wide(t, width)
    ensures r == WithoutToken(t, id)
  {
    hide Upsert;
    var groups := set k | k in t && k.0 == Some(id) :: k.1;
    var rest := groups;
    r := t;
    while rest != {}
      invariant rest <= groups == GroupsOf(t, id)
      invariant r == Folded(t, id, groups - rest)
      decreases rest
    {
      var g :| g in rest;
      FoldOne(t, id, groups - rest, g, width);
      rest := rest - {g};
      assert groups - rest == groups - (rest + {g}) + {g};
      r := Upsert(r, None, g, t[(Some(id), g)]);
    }
    assert groups - rest == groups;
    r := map k | k in r && k.0 != Some(id) :: r[k];
  }

  lemma FoldOne<G>(t: Table<G>, id: int, moved: set<G>, g: G, width: nat)
    requires Wide(t, width) && moved <= GroupsOf(t, id) && g in GroupsOf(t, id) && g !in moved
    ensures var r := Folded(t, id, moved);
      && ((None, g) in r ==> |r[(None, g)]| == |t[(Some(id), g)]|)
      && Upsert(r, None, g, t[(Some(id), g)]) == Folded(t, id, moved + {g})
  {
  }

  // ---------- logging a request ----------

  /** One upstream call of a request; `keyID` is not positive when it used no key of the pool. */
  datatype CallLog = CallLog(keyID: int, status: string, cached: bool, resultCount: int, latency: int)
  datatype LogInput = LogInput(tokenID: int, status: string, cacheHit: bool, resultCount: int, latency: int,
                               calls: seq<CallLog>)

  function RequestColumns(input: LogInput): Columns {
    [1, if input.status == "success" then 1 else 0, if input.status == "success" then 0 else 1,
     if input.cacheHit then 1 else 0, input.resultCount, input.latency]
  }

  /** A call that neither succeeded nor failed counts as a request only. */
  function CallColumns(call: CallLog): Columns {
    [1, if call.status == "success" then 1 else 0, if call.status == "error" then 1 else 0,
     if call.cached then 1 else 0, call.resultCount, call.latency]
  }

  function TokenOf(input: LogInput): Option<int> {
    if input.tokenID > 0 then Some(input.tokenID) else None
  }

  /** The table after the row of the request and the rows of its first `n` calls. */
  function Logged(t: Table<Daily>, input: LogInput, today: int, n: nat): (r: Table<Daily>)
    requires Wide(t, DAILY_WIDTH) && n <= |input.calls|
    ensures Wide(r, DAILY_WIDTH)
  {
    if n == 0 then Upsert(t, TokenOf(input), Daily(today, None, None), RequestColumns(input))
    else
      var r, call := Logged(t, input, today, n - 1), input.calls[n - 1];
      if call.keyID <= 0 then r else Upsert(r, TokenOf(input), Daily(today, None, Some(call.keyID)), CallColumns(call))
  }

  /** A request touches no rows but those of its own token, or those without one if it has none. */
  lemma {:induction false} LoggedForToken(t: Table<Daily>, input: LogInput, today: int, n: nat,
                                          k: (Option<int>, Daily))
    requires Wide(t, DAILY_WIDTH) && n <= |input.calls|
    ensures var own, t' := if input.tokenID > 0 then Some(input.tokenID) else None, Logged(t, input, today, n);
      && (own, Daily(today, None, None)) in t'
      && (forall i :: 0 <= i < n && input.calls[i].keyID > 0 ==>
            (own, Daily(today, None, Some(input.calls[i].keyID))) in t')
      && (k.0 != own || k.1.date != today ==> (k in t' <==> k in t) && (k in t ==> t'[k] == t[k]))
  {
    hide Plus, RequestColumns, CallColumns;
    if n > 0 { LoggedForToken(t, input, today, n - 1, k); }
  }

  class Store {
    var usageDaily: Table<Daily>
    var usageMeterDaily: Table<Metered>
    var apiTokens: set<int>

    ghost predicate Valid()
      reads this
    {
      Wide(usageDaily, DAILY_WIDTH) && Wide(usageMeterDaily, METERED_WIDTH)
    }

    constructor ()
      ensures Valid() && usageDaily == map[] && usageMeterDaily == map[] && apiTokens == {}
    {
      usageDaily, usageMeterDaily, apiTokens := map[], map[], {};
    }

    method UpsertUsage(input: LogInput, today: int)
      requires Valid()
      modifies this`usageDaily
      ensures Valid() && usageDaily == Logged(old(usageDaily), input, today, |input.calls|)
    {
      var token := if input.tokenID > 0 then Some(input.tokenID) else None;
      var succeeded, failed := 0, 1;
      if input.status == "success" {
        succeeded, failed := 1, 0;
      }
      var hits := if input.cacheHit then 1 else 0;
      usageDaily := Upsert(usageDaily, token, Daily(today, None, None),
                           [1, succeeded, failed, hits, input.resultCount, input.latency]);
      for n := 0 to |input.calls|
        invariant usageDaily == Logged(old(usageDaily), input, today, n)
      {
        var call := input.calls[n];
        if call.keyID <= 0 {
          continue;
        }
        succeeded, failed := 0, 0;
        if call.status == "success" {
          succeeded := 1;
        } else if call.status == "error" {
          failed := 1;
        }
        hits := if call.cached then 1 else 0;
        usageDaily := Upsert(usageDaily, token, Daily(today, None, Some(call.keyID)),
                             [1, succeeded, failed, hits, call.resultCount, call.latency]);
      }
    }

    method DeleteAPIToken(id: int)
      requires Valid()
      modifies this
      ensures Valid()
      ensures usageDaily == WithoutToken(old(usageDaily), id)
      ensures usageMeterDaily == WithoutToken(old(usageMeterDaily), id)
      ensures apiTokens == old(apiTokens) - {id}
    {
      usageDaily := FoldToken(usageDaily, id, DAILY_WIDTH);
      usageMeterDaily := FoldToken(usageMeterDaily, id, METERED_WIDTH);
      apiTokens := apiTokens - {id};
      TokenGone(old(usageDaily), id, DAILY_WIDTH);
      TokenGone(old(usageMeterDaily), id, METERED_WIDTH);
    }
  }

  /** No row of the token is left for the foreign key to set to NULL, and the rows of other tokens are as they were. */
  lemma TokenGone<G>(t: Table<G>, id: int, width: nat)
    requires Wide(t, width)
    ensures var t' := WithoutToken(t, id);
      && Wide(t', width)
      && GroupsOf(t', id) == {}
      && (forall k: (Option<int>, G) :: k.0 != None && k.0 != Some(id) ==>
        (k in t' <==> k in t) && (k in t ==> t'[k] == t[k]))
      && (forall g :: (None, g) in t' <==> (None, g) in t || (Some(id), g) in t)
  {
  }

  // ---------- sums ----------

  ghost function Pick<K>(s: set<K>): K
    requires s != {}
  {
    var k :| k in s; k
  }

  ghost function Share<G>(t: Table<G>, k: (Option<int>, G), p: G -> bool, c: nat): int
    requires k in t && c < |t[k]|
  {
    if p(k.1) then t[k][c] else 0
  }

  /** The sum of one column over the rows whose group satisfies `p`, whoever's they are. */
  ghost function SumWhere<G>(t: Table<G>, p: G -> bool, c: nat): int
    requires forall k :: k in t ==> c < |t[k]|
    decreases |t|
  {
    if t == map[] then 0
    else
      var k := Pick(t.Keys);
      assert |t - {k}| < |t| by { Shrinks(t, k); }
      Share(t, k, p, c) + SumWhere(t - {k}, p, c)
  }

  lemma Shrinks<G>(t: Table<G>, k: (Option<int>, G))
    requires k in t
    ensures |t - {k}| == |t| - 1
  {
    assert (t - {k}).Keys == t.Keys - {k};
    assert |t - {k}| == |(t - {k}).Keys| && |t| == |t.Keys|;
  }

  lemma {:induction false} SumWithout<G>(t: Table<G>, k: (Option<int>, G), p: G -> bool, c: nat)
    requires k in t && forall l :: l in t ==> c < |t[l]|
    ensures SumWhere(t, p, c) == Share(t, k, p, c) + SumWhere(t - {k}, p, c)
    decreases |t|
  {
    var first := Pick(t.Keys);
    if first != k {
      Shrinks(t, first);
      SumWithout(t - {first}, k, p, c);
      Shrinks(t, k);
      SumWithout(t - {k}, first, p, c);
      assert t - {first} - {k} == t - {k} - {first};
    }
  }

  /** Adding to a row, or inserting one, adds to exactly the sums that the row takes part in. */
  lemma UpsertAdds<G>(t: Table<G>, token: Option<int>, group: G, add: Columns, width: nat, p: G -> bool, c: nat)
    requires Wide(t, width) && |add| == width && c < width
    ensures Wide(Upsert(t, token, group, add), width)
    ensures SumWhere(Upsert(t, token, group, add), p, c) == SumWhere(t, p, c) + if p(group) then add[c] else 0
  {
    var k, t' := (token, group), Upsert(t, token, group, add);
    SumWithout(t', k, p, c);
    assert t' - {k} == t - {k};
    if k in t { SumWithout(t, k, p, c); } else { assert t - {k} == t; }
  }

  /** The move of one row. */
  ghost function Moved<G>(t: Table<G>, id: int, g: G): Table<G>
    requires g in GroupsOf(t, id) && Uniform(t)
  {
    Upsert(t - {(Some(id), g)}, None, g, t[(Some(id), g)])
  }

  /** The rows of a table without the token, one by one. */
  lemma WithoutTokenAt<G>(t: Table<G>, id: int, width: nat, k: (Option<int>, G))
    requires Wide(t, width)
    ensures var own := (Some(id), k.1); var t' := WithoutToken(t, id);
      && (k in t' <==> k.0 != Some(id) && (k in t || (k.0 == None && own in t)))
      && (k in t' ==>
          t'[k] == if k.0 == None && own in t then (if k in t then Plus(t[k], t[own]) else t[own]) else t[k])
  {
    assert (Some(id), k.1) in t <==> k.1 in GroupsOf(t, id);
  }

  lemma MovedGroups<G>(t: Table<G>, id: int, g: G, width: nat)
    requires Wide(t, width) && g in GroupsOf(t, id)
    ensures Wide(Moved(t, id, g), width)
    ensures GroupsOf(Moved(t, id, g), id) == GroupsOf(t, id) - {g}
  {
  }

  lemma MoveFirst<G>(t: Table<G>, id: int, g: G, width: nat)
    requires Wide(t, width) && g in GroupsOf(t, id)
    ensures Wide(Moved(t, id, g), width)
    ensures GroupsOf(Moved(t, id, g), id) == GroupsOf(t, id) - {g}
    ensures WithoutToken(Moved(t, id, g), id) == WithoutToken(t, id)
  {
    MovedGroups(t, id, g, width);
    var m := Moved(t, id, g);
    assert Uniform(t) && Uniform(m);
    var a, b := WithoutToken(m, id), WithoutToken(t, id);
    hide WithoutToken, Moved, Wide, Uniform, GroupsOf;
    forall k: (Option<int>, G) ensures (k in a <==> k in b) && (k in b ==> a[k] == b[k]) {
      MoveFirstAt(t, id, g, width, k);
    }
    SameRows(a, b);
  }

  lemma SameRows<G>(a: Table<G>, b: Table<G>)
    requires forall k: (Option<int>, G) :: (k in a <==> k in b) && (k in b ==> a[k] == b[k])
    ensures a == b
  {
  }

  lemma MoveFirstAt<G>(t: Table<G>, id: int, g: G, width: nat, k: (Option<int>, G))
    requires Wide(t, width) && g in GroupsOf(t, id) && Wide(Moved(t, id, g), width)
    ensures var a, b := WithoutToken(Moved(t, id, g), id), WithoutToken(t, id);
      (k in a <==> k in b) && (k in b ==> a[k] == b[k])
  {
    WithoutTokenAt(t, id, width, k);
    WithoutTokenAt(Moved(t, id, g), id, width, k);
    hide WithoutToken, Folded;
    assert (Some(id), g) in t;
  }

  /**
   * Deleting a token keeps every sum that does not ask whose rows they are: each group's and any
   * selection of groups'.
   */
  lemma {:induction false} DeletionConserves<G>(t: Table<G>, id: int, width: nat, p: G -> bool, c: nat)
    requires Wide(t, width) && c < width
    ensures Wide(WithoutToken(t, id), width)
    ensures SumWhere(WithoutToken(t, id), p, c) == SumWhere(t, p, c)
    decreases |GroupsOf(t, id)|
  {
    TokenGone(t, id, width);
    if GroupsOf(t, id) == {} {
      assert WithoutToken(t, id) == t;
    } else {
      hide WithoutToken, Folded, Upsert, SumWhere;
      var g := Pick(GroupsOf(t, id));
      var a := (Some(id), g);
      MoveFirst(t, id, g, width);
      SumWithout(t, a, p, c);
      UpsertAdds(t - {a}, None, g, t[a], width, p, c);
      DeletionConserves(Moved(t, id, g), id, width, p, c);
    }
  }
}
