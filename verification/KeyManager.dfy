/** The key pool's manager: `Acquire` under its mutex, and the leases it hands out. */
module KeyManager {
  import opened Wrappers
  import opened KeyStates
  import opened KeyOrder
  import opened KeyPool
  import opened StableSort

  class ProviderState {
    ghost const name: string
    var active: nat

    constructor (ghost name: string)
      ensures active == 0 && this.name == name
    {
      this.name := name;
      active := 0;
    }
  }

  /** A granted key: the captured variables of its release closure. */
  class Lease {
    const state: KeyState
    const provider: ProviderState
    var released: bool

    constructor (state: KeyState, provider: ProviderState)
      ensures this.state == state && this.provider == provider && !released
    {
      this.state, this.provider, this.released := state, provider, false;
    }
  }

  /** Of some leases, those on one key and those at one provider. */
  ghost function On(leases: set<Lease>, state: KeyState): set<Lease> {
    set l | l in leases && l.state == state
  }

  ghost function At(leases: set<Lease>, provider: ProviderState): set<Lease> {
    set l | l in leases && l.provider == provider
  }

  lemma OneMoreOn(leases: set<Lease>, lease: Lease, s: KeyState)
    requires lease !in leases
    ensures |On(leases + {lease}, s)| == |On(leases, s)| + if s == lease.state then 1 else 0
  {
    assert On(leases + {lease}, s) == On(leases, s) + if s == lease.state then {lease} else {};
  }

  lemma OneMoreAt(leases: set<Lease>, lease: Lease, p: ProviderState)
    requires lease !in leases
    ensures |At(leases + {lease}, p)| == |At(leases, p)| + if p == lease.provider then 1 else 0
  {
    assert At(leases + {lease}, p) == At(leases, p) + if p == lease.provider then {lease} else {};
  }

  /** The active counts are exactly the numbers of leases that are out. */
  ghost predicate Counted(keys: set<KeyState>, providers: set<ProviderState>, open: set<Lease>)
    reads keys, providers
  {
    && (forall s :: s in keys ==> s.active == |On(open, s)|)
    && (forall p :: p in providers ==> p.active == |At(open, p)|)
  }

  /** The bookkeeping of a grant. */
  method Lend(ghost keys: set<KeyState>, ghost providers: set<ProviderState>, ghost open: set<Lease>,
              state: KeyState, provider: ProviderState, now: int)
      returns (lease: Lease)
    requires Counted(keys, providers, open) && state in keys && provider in providers
    modifies state, provider
    ensures fresh(lease) && lease.state == state && lease.provider == provider && !lease.released
    ensures Counted(keys, providers, open + {lease})
    ensures state.View() == KeyStates.Granted(old(state.View()), now)
    ensures provider.active == old(provider.active) + 1
  {
    state.Grant(now);
    provider.active := provider.active + 1;
    lease := new Lease(state, provider);
    forall s | s in keys ensures s.active == |On(open + {lease}, s)| { OneMoreOn(open, lease, s); }
    forall p | p in providers ensures p.active == |At(open + {lease}, p)| { OneMoreAt(open, lease, p); }
  }

  /** What the first call of a release closure does to the counts, which are never zero then. */
  method GiveBack(ghost keys: set<KeyState>, ghost providers: set<ProviderState>, ghost open: set<Lease>, lease: Lease)
    requires Counted(keys, providers, open) && lease.state in keys && lease.provider in providers
    requires lease in open && !lease.released
    modifies lease, lease.state, lease.provider
    ensures Counted(keys, providers, open - {lease}) && lease.released
    ensures lease.state.View() == Released(old(lease.state.View())) && lease.state.active == old(lease.state.active) - 1
    ensures lease.provider.active == old(lease.provider.active) - 1
  {
    ghost var after := open - {lease};
    assert open == after + {lease};
    OneMoreOn(after, lease, lease.state);
    OneMoreAt(after, lease, lease.provider);
    lease.released := true;
    if lease.state.active > 0 {
      lease.state.active := lease.state.active - 1;
    }
    if lease.provider.active > 0 {
      lease.provider.active := lease.provider.active - 1;
    }
    forall s | s in keys ensures s.active == |On(after, s)| { OneMoreOn(after, lease, s); }
    forall p | p in providers ensures p.active == |At(after, p)| { OneMoreAt(after, lease, p); }
  }

  ghost function Pick(keys: set<KeyState>): (s: KeyState)
    requires keys != {}
    ensures s in keys
  {
    var s :| s in keys; s
  }

  ghost function SumActive(keys: set<KeyState>): nat
    reads keys
  {
    if keys == {} then 0 else Pick(keys).active + SumActive(keys - {Pick(keys)})
  }

  lemma {:induction false} LeasesByKey(keys: set<KeyState>, open: set<Lease>)
    requires Counted(keys, {}, open)
    ensures SumActive(keys) == |set l | l in open && l.state in keys|
  {
    var all := set l | l in open && l.state in keys;
    if keys == {} {
      assert all == {};
    } else {
      var s := Pick(keys);
      var rest := set l | l in open && l.state in keys - {s};
      LeasesByKey(keys - {s}, open);
      assert all == On(open, s) + rest && On(open, s) !! rest;
    }
  }

  /** A provider's active count is the sum over its keys, when leases on those keys are its leases. */
  lemma ProviderActiveIsSumOfKeys(keys: set<KeyState>, provider: ProviderState, open: set<Lease>)
    requires Counted(keys, {provider}, open)
    requires forall l :: l in open ==> (l.provider == provider <==> l.state in keys)
    ensures provider.active == SumActive(keys)
  {
    LeasesByKey(keys, open);
    assert At(open, provider) == set l | l in open && l.state in keys;
  }

  lemma KeyWithValue<K, V>(m: map<K, V>, v: V) returns (k: K)
    requires v in m.Values
    ensures k in m && m[k] == v
  {
    k :| k in m && m[k] == v;
  }

  /** The highest concurrency cap that a provider's grants were made under. */
  datatype Ceiling = UpTo(cap: nat) | Unlimited {
    predicate Admits(active: nat) { Unlimited? || active <= cap }
  }

  /** A cap of zero is none. */
  function Raised(c: Ceiling, maxConcurrency: int): Ceiling {
    if c.Unlimited? || maxConcurrency <= 0 then Unlimited
    else if maxConcurrency > c.cap then UpTo(maxConcurrency) else c
  }

  /** The ceiling after grants under these caps. */
  function HighestOf(caps: seq<int>): Ceiling {
    if caps == [] then UpTo(0) else Raised(HighestOf(caps[..|caps| - 1]), caps[|caps| - 1])
  }

  /** The caps of all grants of a provider so far. */
  function CapsAt(caps: map<string, seq<int>>, providerName: string): seq<int> {
    if providerName in caps then caps[providerName] else []
  }

  function GrantedUnder(caps: map<string, seq<int>>, providerName: string,
                        maxConcurrency: int): map<string, seq<int>> {
    caps[providerName := CapsAt(caps, providerName) + [maxConcurrency]]
  }

  lemma {:induction false} HighestBounded(caps: seq<int>, most: nat)
    requires forall i :: 0 <= i < |caps| ==> 0 < caps[i] <= most
    ensures HighestOf(caps).UpTo? && HighestOf(caps).cap <= most
  {
    if caps != [] { HighestBounded(caps[..|caps| - 1], most); }
  }

  predicate AtProviderCap(maxConcurrency: int, active: nat) {
    maxConcurrency > 0 && active >= maxConcurrency
  }

  ghost predicate WithinCaps(caps: map<string, seq<int>>, actives: map<string, nat>) {
    forall name :: name in actives ==> HighestOf(CapsAt(caps, name)).Admits(actives[name])
  }

  /** A grant below the cap keeps every count within the highest cap granted under. */
  lemma GrantAdmits(caps: map<string, seq<int>>, actives: map<string, nat>, providerName: string,
                    maxConcurrency: int)
    requires WithinCaps(caps, actives) && providerName in actives
    requires !AtProviderCap(maxConcurrency, actives[providerName])
    ensures WithinCaps(GrantedUnder(caps, providerName, maxConcurrency),
                       actives[providerName := actives[providerName] + 1])
  {
    HighestStep(CapsAt(caps, providerName), maxConcurrency);
    hide HighestOf;
  }

  lemma HighestStep(caps: seq<int>, maxConcurrency: int)
    ensures HighestOf(caps + [maxConcurrency]) == Raised(HighestOf(caps), maxConcurrency)
  {
    assert (caps + [maxConcurrency])[..|caps|] == caps;
  }

  /** A provider that is not there yet has nothing out. */
  lemma NewAdmits(caps: map<string, seq<int>>, actives: map<string, nat>, providerName: string)
    requires WithinCaps(caps, actives)
    ensures WithinCaps(caps, actives[providerName := 0])
  {
  }

  datatype Reply = StoreFailed | NoKey | RateLimited | Granted(row: KeyRow)

  predicate UsesPosition(strategy: string) {
    strategy != "least_used" && strategy != "random" && strategy != "weighted_random"
  }

  predicate ResetsPosition(strategy: string) {
    strategy == "least_used" || strategy == "random"
  }

  /** The keys as each strategy arranges them. */
  ghost predicate Arranged(ordered: seq<KeyRow>, keys: seq<KeyRow>, strategy: string, shuffled: seq<KeyRow>,
                           draws: nat -> nat) {
    if strategy == "least_used" then ordered == Sort(keys, LessUsed) && LeastUsedFirst(ordered)
    else if strategy == "random" then ordered == shuffled
    else if strategy == "weighted_random" then
      exists rests :: Drawn(rests, ordered, draws) && rests[0] == keys && rests[|ordered|] == []
    else ordered == keys
  }

  /** How the keys were probed: their order, the start, and the attempt that found one. */
  datatype Plan = Plan(ordered: seq<KeyRow>, start: nat, granted: Option<nat>) {
    ghost predicate Follows(keys: seq<KeyRow>, strategy: string, position: nat, shuffled: seq<KeyRow>,
                            draws: nat -> nat) {
      && multiset(ordered) == multiset(keys)
      && Arranged(ordered, keys, strategy, shuffled, draws)
      && start == (if UsesPosition(strategy) then position else 0)
      && (granted.Some? ==> granted.value < |ordered|)
    }

    /** The positions afterwards: shuffling and sorting start over, a grant in turn moves on. */
    function Positions(positions: map<string, nat>, providerName: string, strategy: string): map<string, nat>
      requires granted.Some? ==> granted.value < |ordered|
    {
      if ResetsPosition(strategy) then positions[providerName := 0]
      else if UsesPosition(strategy) && granted.Some? then
        positions[providerName := Next(Index(start, granted.value, |ordered|), |ordered|)]
      else positions
    }

    function Row(): KeyRow
      requires granted.Some? && granted.value < |ordered|
    {
      ordered[Index(start, granted.value, |ordered|)]
    }
  }

  /**
   * Keys in turn are tried from where the last grant left off, and the next grant goes on behind the key
   * granted; sorted, shuffled and drawn keys are tried from the first, and sorting and shuffling start over.
   */
  lemma InTurnOrFromTheFirst(plan: Plan, keys: seq<KeyRow>, strategy: string, position: nat, shuffled: seq<KeyRow>,
                             draws: nat -> nat, positions: map<string, nat>, provider: string)
    requires plan.Follows(keys, strategy, position, shuffled, draws)
    ensures strategy == "least_used" || strategy == "random" ==>
      plan.start == 0 && plan.Positions(positions, provider, strategy) == positions[provider := 0]
    ensures strategy == "weighted_random" ==>
      plan.start == 0 && plan.Positions(positions, provider, strategy) == positions
    ensures strategy !in ["least_used", "random", "weighted_random"] ==>
      && plan.ordered == keys && plan.start == position
      && plan.Positions(positions, provider, strategy) ==
           if plan.granted.None? then positions
           else positions[provider := ((position + plan.granted.value) % |keys| + 1) % |keys|]
  {
    hide Arranged;
    if strategy !in ["least_used", "random", "weighted_random"] {
      InOrder(plan, keys, strategy, position, shuffled, draws);
      if plan.granted.Some? {
        IndexIsModulo(position, plan.granted.value, |keys|);
        NextIsModulo(Index(position, plan.granted.value, |keys|), |keys|);
      }
    }
  }

  lemma InOrder(plan: Plan, keys: seq<KeyRow>, strategy: string, position: nat, shuffled: seq<KeyRow>,
                draws: nat -> nat)
    requires plan.Follows(keys, strategy, position, shuffled, draws)
    requires strategy !in ["least_used", "random", "weighted_random"]
    ensures plan.ordered == keys && plan.start == position
  {
  }

  /** The row is of a usable key with the fewest calls. */
  ghost predicate IsLeastUsed(views: KeyPool.Views, keys: seq<KeyRow>, clock: Clock, lent: KeyRow) {
    forall row :: row in keys && Usable(StateOr(views, row.id, clock.now), row, clock) ==>
      lent.totalSuccesses + lent.totalFailures <= row.totalSuccesses + row.totalFailures
  }

  /** By least use, such a key is lent. */
  lemma LeastUsedIsLent(views: KeyPool.Views, keys: seq<KeyRow>, plan: Plan, position: nat, shuffled: seq<KeyRow>,
                        draws: nat -> nat, clock: Clock)
    requires plan.Follows(keys, "least_used", position, shuffled, draws) && DistinctIds(keys)
    requires plan.granted == Probe(views, Rotated(plan.ordered, plan.start), 0, clock).1 && plan.granted.Some?
    ensures IsLeastUsed(views, keys, clock, plan.Row())
  {
    PermutedDistinct(keys, plan.ordered);
    hide Usable, Probe, DistinctIds, Index, StateOr;
    forall row | row in keys && Usable(StateOr(views, row.id, clock.now), row, clock)
      ensures Calls(plan.Row()) <= Calls(row) {
      var i :| 0 <= i < |plan.ordered| && plan.ordered[i] == row;
      FirstUsableIsGranted(views, plan.ordered, clock, i);
      FewestFirst(plan.ordered, plan.granted.value, i);
    }
  }

  lemma LeastUsedByStrategy(views: KeyPool.Views, keys: seq<KeyRow>, plan: Plan, strategy: string, position: nat,
                            shuffled: seq<KeyRow>, draws: nat -> nat, clock: Clock)
    requires plan.Follows(keys, strategy, position, shuffled, draws)
    requires plan.granted == Probe(views, Rotated(plan.ordered, plan.start), 0, clock).1
    ensures plan.granted.Some? && strategy == "least_used" && DistinctIds(keys) ==>
      IsLeastUsed(views, keys, clock, plan.Row())
  {
    if plan.granted.Some? && strategy == "least_used" && DistinctIds(keys) {
      LeastUsedIsLent(views, keys, plan, position, shuffled, draws, clock);
    }
  }

  lemma FewestFirst(ordered: seq<KeyRow>, i: nat, j: nat)
    requires LeastUsedFirst(ordered) && i <= j < |ordered|
    ensures Calls(ordered[i]) <= Calls(ordered[j])
  {
  }

  class Manager {
    /** The provider that each key belongs to, for life. */
    ghost const owner: int -> string
    var positions: map<string, nat>
    var states: map<int, KeyState>
    var providerStates: map<string, ProviderState>
    /** Every lease ever granted, and those not released yet. */
    ghost var leases: set<Lease>
    ghost var open: set<Lease>
    /** For each provider, the caps that its grants were made under. */
    ghost var caps: map<string, seq<int>>

    constructor (ghost owner: int -> string)
      ensures Valid() && this.owner == owner && leases == {} && open == {} && states == map[] && positions == map[]
      ensures providerStates == map[] && caps == map[]
    {
      this.owner := owner;
      positions, states, providerStates, leases, open, caps := map[], map[], map[], {}, {}, map[];
    }

    ghost predicate Valid()
      reads this`states, this`providerStates, this`leases, this`open, this`caps, states.Values,
        providerStates.Values, leases
    {
      Consistent() && WithinCaps(caps, Actives())
    }

    /** The tables are well formed, and the counts are the numbers of open leases. */
    ghost predicate Consistent()
      reads this`states, this`providerStates, this`leases, this`open, states.Values, providerStates.Values, leases
    {
      && (forall id :: id in states ==> states[id].id == id)
      && (forall name :: name in providerStates ==> providerStates[name].name == name)
      && open <= leases
      && (forall l :: l in leases ==> (l in open <==> !l.released))
      && (forall l :: l in leases ==> l.state in states.Values && l.provider in providerStates.Values)
      && (forall l :: l in leases ==> owner(l.state.id) == l.provider.name)
      && Counted(states.Values, providerStates.Values, open)
    }

    function Views(): KeyPool.Views
      reads this`states, states.Values
    {
      map id | id in states :: states[id].View()
    }

    function Actives(): map<string, nat>
      reads this`providerStates, providerStates.Values
    {
      map name | name in providerStates :: providerStates[name].active
    }

    function ActiveAt(providerName: string): nat
      reads this`providerStates, providerStates.Values
    {
      if providerName in Actives() then Actives()[providerName] else 0
    }

    function Position(providerName: string): nat
      reads this`positions
    {
      if providerName in positions then positions[providerName] else 0
    }

    method OrderKeys(providerName: string, keys: seq<KeyRow>, strategy: string, shuffled: seq<KeyRow>,
                     draws: nat -> nat)
        returns (ordered: seq<KeyRow>)
      requires multiset(shuffled) == multiset(keys)
      modifies this`positions
      ensures multiset(ordered) == multiset(keys)
      ensures Arranged(ordered, keys, strategy, shuffled, draws)
      ensures positions ==
        if ResetsPosition(strategy) then old(positions)[providerName := 0] else old(positions)
    {
      ordered := keys;
      if strategy == "least_used" {
        ordered := Sort(keys, LessUsed);
        SortedIsLeastUsedFirst(keys);
      } else if strategy == "random" {
        ordered := shuffled;
      } else if strategy == "weighted_random" {
        ghost var rests;
        ordered, rests := WeightedKeyOrder(keys, draws);
        return;
      } else {
        return;
      }
      positions := positions[providerName := 0];
    }

    method StateFor(id: int, now: int) returns (state: KeyState)
      requires Consistent()
      modifies this`states
      ensures Consistent()
      ensures states == if id in old(states) then old(states) else old(states)[id := state]
      ensures if id in old(states) then state == states[id] else fresh(state)
      ensures state.View() == StateOr(old(Views()), id, now)
    {
      if id in states {
        return states[id];
      }
      state := new KeyState(id, now);
      assert On(open, state) == {};
      states := states[id := state];
      assert forall i :: i in old(states) ==> states[i] == old(states[i]) && states[i] in states.Values;
      assert forall l :: l in leases ==> l.state in old(states.Values);
    }

    method ProviderStateFor(providerName: string) returns (state: ProviderState)
      requires Valid()
      modifies this`providerStates
      ensures Valid() && providerName in providerStates && state == providerStates[providerName]
      ensures forall p :: p in old(providerStates) ==>
        p in providerStates && providerStates[p] == old(providerStates[p])
      ensures providerStates.Keys == old(providerStates.Keys) + {providerName}
      ensures state.name == providerName
      ensures providerName !in old(providerStates) ==> fresh(state) && state.active == 0
      ensures state.active == old(ActiveAt(providerName))
      ensures Actives() == old(Actives())[providerName := state.active]
    {
      assert providerName in providerStates ==> providerStates[providerName].name == providerName;
      NewAdmits(caps, Actives(), providerName);
      hide Consistent, WithinCaps;
      if providerName in providerStates {
        return providerStates[providerName];
      }
      state := AddProvider(providerName);
      ProviderAdded(providerName, state);
    }

    twostate lemma ProviderAdded(providerName: string, new state: ProviderState)
      requires providerStates == old(providerStates)[providerName := state] && state.active == 0
      requires forall name :: name in old(providerStates) && name != providerName ==>
        providerStates[name].active == old(providerStates[name].active)
      ensures Actives() == old(Actives())[providerName := 0]
    {
    }

    method AddProvider(providerName: string) returns (state: ProviderState)
      requires Consistent() && providerName !in providerStates
      modifies this`providerStates
      ensures Consistent() && providerStates == old(providerStates)[providerName := state]
      ensures fresh(state) && state.active == 0 && state.name == providerName
    {
      state := new ProviderState(providerName);
      assert At(open, state) == {};
      providerStates := providerStates[providerName := state];
      assert forall p :: p in old(providerStates) ==> providerStates[p] in providerStates.Values;
    }

    /** One visit: the key is brought up to date and tested. */
    method Visit(row: KeyRow, clock: Clock) returns (state: KeyState, ok: bool)
      requires Consistent()
      modifies this`states, states.Values
      ensures Consistent()
      ensures states == if row.id in old(states) then old(states) else old(states)[row.id := state]
      ensures if row.id in old(states) then state == states[row.id] else fresh(state)
      ensures ok == Usable(StateOr(old(Views()), row.id, clock.now), row, clock)
      ensures Views() == old(Views())[row.id := Checked(StateOr(old(Views()), row.id, clock.now), row, clock)]
    {
      hide Counted, Usable, Checked;
      state := StateFor(row.id, clock.now);
      assert Views() == old(Views())[row.id := StateOr(old(Views()), row.id, clock.now)];
      ok := CheckKey(row, clock);
    }

    method CheckKey(row: KeyRow, clock: Clock) returns (ok: bool)
      requires Consistent() && row.id in states
      modifies states[row.id]
      ensures Consistent()
      ensures ok == Usable(old(states[row.id].View()), row, clock)
      ensures Views() == old(Views())[row.id := Checked(old(states[row.id].View()), row, clock)]
    {
      ok := states[row.id].CanUse(row, clock);
      OneViewChanged(row.id);
      assert forall l :: l in leases ==> l.state in states.Values;
      assert forall id :: id in states ==> states[id].active == old(states[id].active);
    }

    /** The probing loop: the first usable key in cyclic order is brought up to date, or none is. */
    method ProbeKeys(ordered: seq<KeyRow>, start: nat, clock: Clock) returns (attempt: nat, state: KeyState?)
      requires Consistent()
      modifies this`states, states.Values
      ensures Consistent() && attempt <= |ordered|
      ensures state == null <==> attempt == |ordered|
      ensures state != null ==> var id := ordered[Index(start, attempt, |ordered|)].id;
        id in states && states[id] == state
      ensures fresh(states.Values - old(states.Values))
      ensures var (after, granted) := Probe(old(Views()), Rotated(ordered, start), 0, clock);
        && (state == null ==> granted == None && Views() == after)
        && (state != null ==>
              var id := ordered[Index(start, attempt, |ordered|)].id;
              granted == Some(attempt) && after == Views()[id := KeyStates.Granted(state.View(), clock.now)])
    {
      hide Usable, Checked, Index, Consistent, StateOr;
      ghost var cyclic := Rotated(ordered, start);
      attempt, state := 0, null;
      while attempt < |ordered|
        invariant Consistent() && attempt <= |ordered|
        invariant fresh(states.Values - old(states.Values))
        invariant Probe(Views(), cyclic, attempt, clock) == Probe(old(Views()), cyclic, 0, clock)
      {
        IndexIsModulo(start, attempt, |ordered|);
        var row := ordered[(start + attempt) % |ordered|];
        ghost var before := Views();
        var visited, ok := Visit(row, clock);
        if ok {
          state := visited;
          assert state.View() == Views()[row.id];
          return;
        }
        attempt := attempt + 1;
      }
    }

    /** Probes the keys and lends the one found. */
    method ProbeAndLend(ordered: seq<KeyRow>, start: nat, provider: ProviderState, clock: Clock)
        returns (granted: Option<nat>, lease: Lease?)
      requires Consistent() && provider in providerStates.Values
      requires forall row :: row in ordered ==> owner(row.id) == provider.name
      modifies this`states, this`leases, this`open, states.Values, provider
      ensures Consistent()
      ensures granted.None? <==> lease == null
      ensures (Views(), granted) == Probe(old(Views()), Rotated(ordered, start), 0, clock)
      ensures if lease == null then leases == old(leases) && open == old(open) && Actives() == old(Actives())
        else
          var id := ordered[Index(start, granted.value, |ordered|)].id;
          && fresh(lease) && leases == old(leases) + {lease} && open == old(open) + {lease}
          && id in states && lease.state == states[id] && lease.provider == provider
          && Actives() == old(Actives())[provider.name := old(provider.active) + 1]
    {
      hide Consistent, Actives, Views, Probe, Rotated, Index;
      var attempt, state := ProbeKeys(ordered, start, clock);
      if state == null {
        return None, null;
      }
      granted := Some(attempt);
      lease := LendKey(ordered[Index(start, attempt, |ordered|)].id, state, provider, clock.now);
    }

    /** The same below the provider's cap. */
    method ProbeUnderCap(ordered: seq<KeyRow>, start: nat, provider: ProviderState, clock: Clock,
                         ghost maxConcurrency: int)
        returns (granted: Option<nat>, lease: Lease?)
      requires Valid() && provider in providerStates.Values && !AtProviderCap(maxConcurrency, provider.active)
      requires forall row :: row in ordered ==> owner(row.id) == provider.name
      modifies this`states, this`leases, this`open, this`caps, states.Values, provider
      ensures Valid()
      ensures granted.None? <==> lease == null
      ensures (Views(), granted) == Probe(old(Views()), Rotated(ordered, start), 0, clock)
      ensures if lease == null then leases == old(leases) && open == old(open) && Actives() == old(Actives())
        && caps == old(caps)
        else
          var id := ordered[Index(start, granted.value, |ordered|)].id;
          && fresh(lease) && leases == old(leases) + {lease} && open == old(open) + {lease}
          && id in states && lease.state == states[id] && lease.provider == provider
          && Actives() == old(Actives())[provider.name := old(provider.active) + 1]
          && caps == GrantedUnder(old(caps), provider.name, maxConcurrency)
    {
      hide *;
      ghost var raised := MayRaise(provider, maxConcurrency);
      granted, lease := ProbeAndLend(ordered, start, provider, clock);
      if granted.Some? {
        RecordCap(raised);
      } else {
        StillValid();
      }
    }

    lemma StillValid()
      requires Consistent() && WithinCaps(caps, Actives())
      ensures Valid()
    {
    }

    ghost method RecordCap(raised: map<string, seq<int>>)
      requires Consistent() && WithinCaps(raised, Actives())
      modifies this`caps
      ensures Valid() && caps == raised
      ensures Views() == old(Views()) && Actives() == old(Actives())
    {
      hide Consistent, WithinCaps, Views, Actives;
      caps := raised;
    }

    method LendKey(id: int, state: KeyState, provider: ProviderState, now: int) returns (lease: Lease)
      requires Consistent() && id in states && state == states[id] && provider in providerStates.Values
      requires owner(id) == provider.name
      modifies this`leases, this`open, state, provider
      ensures Consistent() && fresh(lease) && leases == old(leases) + {lease} && open == old(open) + {lease}
      ensures lease.state == state && lease.provider == provider
      ensures Views() == old(Views())[id := KeyStates.Granted(old(state.View()), now)]
      ensures Actives() == old(Actives())[provider.name := old(provider.active) + 1]
    {
      hide Views, KeyStates.Granted, Counted, Actives;
      lease := Lend(states.Values, providerStates.Values, open, state, provider, now);
      leases, open := leases + {lease}, open + {lease};
      OneViewChanged(id);
      OneProviderChanged(provider);
    }

    lemma MayRaise(provider: ProviderState, maxConcurrency: int) returns (raised: map<string, seq<int>>)
      requires Valid() && provider in providerStates.Values && !AtProviderCap(maxConcurrency, provider.active)
      ensures raised == GrantedUnder(caps, provider.name, maxConcurrency)
      ensures Consistent() && WithinCaps(caps, Actives())
      ensures WithinCaps(raised, Actives()[provider.name := provider.active + 1])
    {
      ActiveNow(provider);
      GrantAdmits(caps, Actives(), provider.name, maxConcurrency);
      raised := GrantedUnder(caps, provider.name, maxConcurrency);
    }

    lemma ActiveNow(provider: ProviderState)
      requires Consistent() && provider in providerStates.Values
      ensures provider.name in Actives() && Actives()[provider.name] == provider.active
    {
      var name := KeyWithValue(providerStates, provider);
    }

    /** Likewise one provider's count. */
    twostate lemma OneProviderChanged(provider: ProviderState)
      requires providerStates == old(providerStates) && provider in providerStates.Values
      requires forall name :: name in providerStates ==> providerStates[name].name == name
      requires forall p :: p in providerStates.Values && p != provider ==> unchanged(p)
      ensures Actives() == old(Actives())[provider.name := provider.active]
    {
      forall name | name in providerStates && name != provider.name
        ensures providerStates[name].active == old(providerStates[name].active) {
        assert providerStates[name].name != provider.name && providerStates[name] in providerStates.Values;
      }
    }

    /** Updating the state of one key changes one view: different keys have different states. */
    twostate lemma OneViewChanged(id: int)
      requires states == old(states) && id in states
      requires forall i :: i in states ==> states[i].id == i
      requires forall s :: s in states.Values && s != states[id] ==> unchanged(s)
      ensures Views() == old(Views())[id := states[id].View()]
    {
      forall i | i in states && i != id ensures states[i].View() == old(states[i].View()) {
        assert states[i].id != states[id].id && states[i] in states.Values;
      }
    }

    /** Where the probe starts, and the order in which it goes. */
    method PlanProbe(providerName: string, keys: seq<KeyRow>, strategy: string, shuffled: seq<KeyRow>,
                     draws: nat -> nat)
        returns (ordered: seq<KeyRow>, start: nat)
      requires multiset(shuffled) == multiset(keys)
      modifies this`positions
      ensures multiset(ordered) == multiset(keys) && |ordered| == |keys|
      ensures Arranged(ordered, keys, strategy, shuffled, draws)
      ensures start == if UsesPosition(strategy) then old(Position(providerName)) else 0
      ensures positions == if ResetsPosition(strategy) then old(positions)[providerName := 0] else old(positions)
    {
      ordered := OrderKeys(providerName, keys, strategy, shuffled, draws);
      assert |ordered| == |multiset(ordered)| == |multiset(keys)| == |keys|;
      start := if UsesPosition(strategy) then Position(providerName) else 0;
    }

    /** What `Acquire` does once the listing is there and the provider is not at its cap. */
    method AcquireFrom(providerName: string, provider: ProviderState, keys: seq<KeyRow>, strategy: string, clock: Clock,
                       shuffled: seq<KeyRow>, draws: nat -> nat, ghost maxConcurrency: int)
        returns (row: Option<KeyRow>, lease: Lease?, ghost plan: Plan)
      requires Valid() && provider in providerStates.Values && keys != []
      requires !AtProviderCap(maxConcurrency, provider.active)
      requires forall row :: row in keys ==> owner(row.id) == provider.name
      requires multiset(shuffled) == multiset(keys)
      modifies this`positions, this`states, this`leases, this`open, this`caps, states.Values, provider
      ensures Valid()
      ensures plan.Follows(keys, strategy, old(Position(providerName)), shuffled, draws)
      ensures (Views(), plan.granted) == Probe(old(Views()), Rotated(plan.ordered, plan.start), 0, clock)
      ensures plan.granted.None? ==>
                && row == None && lease == null && leases == old(leases) && open == old(open)
                && caps == old(caps)
      ensures plan.granted.Some? ==>
                && row == Some(plan.Row()) && lease != null
                && fresh(lease) && leases == old(leases) + {lease} && open == old(open) + {lease}
                && plan.Row().id in states && lease.state == states[plan.Row().id] && lease.provider == provider
                && caps == GrantedUnder(old(caps), provider.name, maxConcurrency)
      ensures Actives() == if lease == null then old(Actives())
        else old(Actives())[provider.name := old(provider.active) + 1]
      ensures positions == plan.Positions(old(positions), providerName, strategy)
    {
      hide Probe, Rotated, Index, Next, Valid, Views, ActiveAt, Actives, GrantedUnder;
      var ordered, start := PlanProbe(providerName, keys, strategy, shuffled, draws);
      SameRows(ordered, keys);
      var granted, lent := ProbeUnderCap(ordered, start, provider, clock, maxConcurrency);
      plan := Plan(ordered, start, granted);
      if granted.None? {
        return None, null, plan;
      }
      lease := lent;
      var index := AdvancePosition(providerName, strategy, start, granted.value, |ordered|);
      row := Some(ordered[index]);
    }

    lemma SameRows(a: seq<KeyRow>, b: seq<KeyRow>)
      requires multiset(a) == multiset(b)
      ensures forall row :: row in a <==> row in b
    {
      assert forall row :: row in a <==> row in multiset(a);
      assert forall row :: row in b <==> row in multiset(b);
    }

    method AdvancePosition(providerName: string, strategy: string, start: nat, attempt: nat, n: nat)
      returns (index: nat)
      requires attempt < n
      modifies this`positions
      ensures index == Index(start, attempt, n)
      ensures positions == if UsesPosition(strategy) then old(positions)[providerName := Next(index, n)]
        else old(positions)
    {
      IndexIsModulo(start, attempt, n);
      index := (start + attempt) % n;
      NextIsModulo(index, n);
      if UsesPosition(strategy) {
        positions := positions[providerName := (index + 1) % n];
      }
    }

    /**
     * Acquire. The listing and the settings come from the store, `None` when it fails or the
     * caller is cancelled meanwhile; everything else happens under the mutex.
     */
    method Acquire(providerName: string, listing: Option<seq<KeyRow>>, settings: Option<(string, int)>, clock: Clock,
                   shuffled: seq<KeyRow>, draws: nat -> nat)
        returns (reply: Reply, lease: Lease?, ghost plan: Plan)
      requires Valid()
      // The listing is of the keys of this provider.
      requires listing.Some? ==> forall row :: row in listing.value ==> owner(row.id) == providerName
      requires listing.Some? ==> multiset(shuffled) == multiset(listing.value)
      modifies this, states.Values, providerStates.Values
      ensures Valid()
      ensures reply.StoreFailed? <==> listing.None? || (listing.value != [] && settings.None?)
      ensures reply.NoKey? <==> listing == Some([])
      ensures reply.Granted? <==> lease != null
      // A refusal before the probe changes no key.
      ensures reply.StoreFailed? || reply.NoKey? || AtProviderCap(settings.value.1, old(ActiveAt(providerName))) ==>
        Views() == old(Views()) && positions == old(positions) && lease == null
      // Otherwise the keys are probed, and the reply is a refusal only if none of them is usable.
      ensures !reply.StoreFailed? && !reply.NoKey? && !AtProviderCap(settings.value.1, old(ActiveAt(providerName))) ==>
        && plan.Follows(listing.value, settings.value.0, old(Position(providerName)), shuffled, draws)
        && (Views(), plan.granted) == Probe(old(Views()), Rotated(plan.ordered, plan.start), 0, clock)
        && reply == (if plan.granted.None? then RateLimited else Granted(plan.Row()))
        && positions == plan.Positions(old(positions), providerName, settings.value.0)
      ensures lease != null ==>
        && fresh(lease) && leases == old(leases) + {lease} && open == old(open) + {lease}
        && reply.row.id in states && lease.state == states[reply.row.id]
        && providerName in providerStates && lease.provider == providerStates[providerName]
      ensures lease == null ==> leases == old(leases) && open == old(open)
      ensures ActiveAt(providerName) == old(ActiveAt(providerName)) + if lease == null then 0 else 1
      ensures lease != null && settings.value.1 > 0 ==> ActiveAt(providerName) <= settings.value.1
      ensures lease != null && settings.value.0 == "least_used" && DistinctIds(listing.value) ==>
        IsLeastUsed(old(Views()), listing.value, clock, reply.row)
      // The other providers are left alone.
      ensures forall name :: name in old(providerStates) ==>
        name in providerStates && providerStates[name] == old(providerStates[name])
      ensures Actives() == if reply.StoreFailed? || reply.NoKey? then old(Actives())
        else old(Actives())[providerName := ActiveAt(providerName)]
      ensures caps == if lease == null then old(caps)
        else GrantedUnder(old(caps), providerName, settings.value.1)
    {
      hide Counted, Arranged, Probe, Rotated, Index, Next, Views, DistinctIds, IsLeastUsed,
        GrantedUnder, Plan.Positions, Plan.Follows, Actives, Valid;
      lease, plan := null, Plan([], 0, None);
      if listing.None? {
        return StoreFailed, lease, plan;
      }
      if listing.value == [] {
        return NoKey, lease, plan;
      }
      if settings.None? {
        return StoreFailed, lease, plan;
      }
      var maxConcurrency := settings.value.1;
      var provider := ProviderStateFor(providerName);
      if maxConcurrency > 0 && provider.active >= maxConcurrency {
        return RateLimited, lease, plan;
      }
      var row;
      row, lease, plan := AcquireFrom(providerName, provider, listing.value, settings.value.0, clock, shuffled, draws,
                                      maxConcurrency);
      reply := if row.None? then RateLimited else Granted(row.value);
      LeastUsedByStrategy(old(Views()), listing.value, plan, settings.value.0, old(Position(providerName)), shuffled,
                          draws, clock);
    }

    /** The states of the keys of one provider. */
    ghost function KeysOf(providerName: string): set<KeyState>
      reads this`states
    {
      set id | id in states && owner(id) == providerName :: states[id]
    }

    /** At any time a provider's active count is the sum of the active counts of its keys. */
    lemma ActiveIsSumOfKeys(providerName: string)
      requires Valid() && providerName in providerStates
      ensures ActiveAt(providerName) == SumActive(KeysOf(providerName))
    {
      var keys, provider := KeysOf(providerName), providerStates[providerName];
      forall l | l in open ensures l.provider == provider <==> l.state in keys {
        OwnersMatch(providerName, l);
      }
      ProviderActiveIsSumOfKeys(keys, provider, open);
    }

    /**
     * Over any run of acquires and releases: if no grant was made without a cap, or under one of
     * more than `most`, the provider never has more than `most` keys out.
     */
    lemma CapsHold(providerName: string, most: nat)
      requires Valid() && forall i :: 0 <= i < |CapsAt(caps, providerName)| ==>
        0 < CapsAt(caps, providerName)[i] <= most
      ensures ActiveAt(providerName) <= most
    {
      HighestBounded(CapsAt(caps, providerName), most);
      hide Consistent;
    }

    lemma OwnersMatch(providerName: string, l: Lease)
      requires Valid() && providerName in providerStates && l in leases
      ensures l.provider == providerStates[providerName] <==> l.state in KeysOf(providerName)
    {
      hide Counted;
      var id := KeyWithValue(states, l.state);
      var name := KeyWithValue(providerStates, l.provider);
      assert states[id].id == id && providerStates[name].name == name;
      if l.state in KeysOf(providerName) {
        var other :| other in states && owner(other) == providerName && states[other] == l.state;
        assert states[other].id == other;
      }
    }

    /** The state of a lease is that of its key. */
    lemma LeaseIsListed(lease: Lease)
      requires Valid() && lease in leases
      ensures lease.state.id in Views() && Views()[lease.state.id] == lease.state.View()
    {
      var id := KeyWithValue(states, lease.state);
      hide Counted;
    }

    /**
     * The release closure, without the store's bookkeeping that follows it. Only the first call
     * changes anything, and then the counts it lowers are never zero.
     */
    method Release(lease: Lease)
      requires Valid() && lease in leases
      modifies this`open, lease, lease.state, lease.provider
      ensures Valid() && open == old(open) - {lease} && lease.released
      ensures old(lease.released) ==>
        lease.state.View() == old(lease.state.View()) && lease.provider.active == old(lease.provider.active)
      ensures !old(lease.released) ==>
                && lease.state.View() == Released(old(lease.state.View()))
                  && lease.state.active == old(lease.state.active) - 1
                && lease.provider.active == old(lease.provider.active) - 1
      // No other key changes.
      ensures lease.state.id in states && states[lease.state.id] == lease.state
      ensures Views() == if old(lease.released) then old(Views())
        else old(Views())[lease.state.id := Released(old(lease.state.View()))]
    {
      hide Counted, Released, Views;
      ghost var id := KeyWithValue(states, lease.state);
      assert states[id].id == id;
      if !lease.released {
        GiveBack(states.Values, providerStates.Values, open, lease);
        open := open - {lease};
        OneViewChanged(id);
      }
    }
  }
}
