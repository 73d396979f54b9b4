/**
 * The manager in operation: whatever sequence of acquires and releases it is put through, with listings
 * from a database that goes on changing, it is a run of `PoolRuns`, so its key states obey the quotas.
 */
module ManagerRuns {
  import opened Wrappers
  import opened FixedWindow
  import opened KeyStates
  import opened KeyPool
  import opened KeyManager
  import P = PoolRuns
  import Q = QuotaRuns

  // ---------- probing is a step of the pool ----------

  /** The calendar of the process matters only to rows without one. */
  lemma SameCheck(k: KeyView, row: KeyRow, a: Clock, b: Clock)
    requires P.Full(row) && a.now == b.now
    ensures Checked(k, row, a) == Checked(k, row, b) && Usable(k, row, a) == Usable(k, row, b)
  {
  }

  lemma {:induction false} SameProbe(views: Views, cyclic: seq<KeyRow>, attempt: nat, a: Clock, b: Clock)
    requires attempt <= |cyclic| && a.now == b.now && forall row :: row in cyclic ==> P.Full(row)
    ensures Probe(views, cyclic, attempt, a) == Probe(views, cyclic, attempt, b)
    decreases |cyclic| - attempt
  {
    hide Usable, Checked;
    if attempt < |cyclic| {
      var row := cyclic[attempt];
      var k := StateOr(views, row.id, a.now);
      assert row in cyclic;
      SameCheck(k, row, a, b);
      if !Usable(k, row, a) { SameProbe(views[row.id := Checked(k, row, a)], cyclic, attempt + 1, a, b); }
    }
  }

  /** In whatever order the keys are tried, none runs into the expiry of lost reservations. */
  ghost predicate NoneExpires(p: P.Pool, listing: seq<KeyRow>, now: int) {
    forall ordered, start :: multiset(ordered) == multiset(listing) ==>
      P.NoExpiry(p, P.Acquire(listing, ordered, start, now))
  }

  /** All rows of a listing of a run have their figures. */
  ghost predicate AllFull(p: P.Pool) {
    forall l, row :: l in p.listings && row in l ==> P.Full(row)
  }

  ghost predicate AllDistinct(p: P.Pool) {
    forall l :: l in p.listings ==> DistinctIds(l)
  }

  lemma {:induction false} ListingsStay(p: P.Pool, steps: seq<P.Step>, regime: Q.Regime)
    requires P.ValidRun(p, steps, regime) && AllFull(p) && AllDistinct(p)
    ensures AllFull(P.Run(p, steps)) && AllDistinct(P.Run(p, steps))
    decreases |steps|
  {
    if steps != [] {
      hide P.NoExpiry, DistinctIds, P.Full;
      ListingsStay(P.After(p, steps[0]), steps[1..], regime);
    }
  }

  lemma RotatedRows(rows: seq<KeyRow>, start: nat)
    ensures forall row :: row in Rotated(rows, start) ==> row in rows
  {
  }

  lemma ProbeIsEnabled(p: P.Pool, listing: seq<KeyRow>, ordered: seq<KeyRow>, start: nat, now: int)
    requires listing in p.listings && AllFull(p) && AllDistinct(p) && p.clock <= now
    requires multiset(ordered) == multiset(listing)
    ensures P.Enabled(p, P.Acquire(listing, ordered, start, now)) && forall row :: row in ordered ==> P.Full(row)
  {
    PermutedDistinct(listing, ordered);
    hide P.Full, DistinctIds;
  }

  lemma ProbeIsStep(p: P.Pool, listing: seq<KeyRow>, plan: Plan, clock: Clock, after: Views, regime: Q.Regime)
    requires listing in p.listings && AllFull(p) && AllDistinct(p) && p.clock <= clock.now
    requires multiset(plan.ordered) == multiset(listing) && NoneExpires(p, listing, clock.now)
    requires (after, plan.granted) == Probe(p.views, Rotated(plan.ordered, plan.start), 0, clock)
    ensures var step := P.Acquire(listing, plan.ordered, plan.start, clock.now);
      && P.Allowed(p, step, regime) && P.After(p, step).views == after
      && P.GrantedId(p, step) == if plan.granted.None? then None else Some(plan.Row().id)
  {
    var step := P.Acquire(listing, plan.ordered, plan.start, clock.now);
    ProbeIsEnabled(p, listing, plan.ordered, plan.start, clock.now);
    RotatedRows(plan.ordered, plan.start);
    SameProbe(p.views, Rotated(plan.ordered, plan.start), 0, clock, P.ClockAt(p, clock.now));
    hide Probe, Rotated, P.Enabled, AllDistinct, P.Full, P.NoExpiry, P.Accounted;
    assert P.NoExpiry(p, step);
  }

  lemma ReleaseIsStep(p: P.Pool, id: int, after: Views, regime: Q.Regime)
    requires id in p.views && after == p.views[id := Released(p.views[id])]
    ensures P.Allowed(p, P.Release(id), regime) && P.After(p, P.Release(id)).views == after
  {
  }

  // ---------- the manager in operation ----------

  /** There is a listing with keys, and the provider is not at its cap. */
  predicate Tries(listing: Option<seq<KeyRow>>, settings: Option<(string, int)>, active: nat) {
    listing.Some? && listing.value != [] && settings.Some? && !AtProviderCap(settings.value.1, active)
  }

  /** A manager and what happens around it, of which only the manager is real. */
  class Service {
    const manager: Manager
    ghost const regime: Q.Regime
    ghost const start: P.Pool
    ghost var steps: seq<P.Step>

    /** The manager's database and key states as `PoolRuns` has them. */
    ghost function Pool(): P.Pool
      reads this`steps
    {
      P.Run(start, steps)
    }

    ghost predicate Valid()
      reads this`steps, manager, manager.states.Values, manager.providerStates.Values, manager.leases
    {
      && manager.Valid()
      && P.Start(start) && P.ValidRun(start, steps, regime)
      && Pool().views == manager.Views()
    }

    constructor (ghost owner: int -> string, ghost start: P.Pool, ghost regime: Q.Regime)
      requires P.Start(start)
      ensures Valid() && this.start == start && this.regime == regime && steps == [] && fresh(manager)
    {
      this.start, this.regime, steps := start, regime, [];
      manager := new Manager(owner);
    }

    ghost method SetSteps(longer: seq<P.Step>)
      requires manager.Valid() && P.Start(start) && P.ValidRun(start, longer, regime)
      requires P.Run(start, longer).views == manager.Views()
      modifies this`steps
      ensures Valid() && steps == longer
    {
      hide P.ValidRun, P.Run, P.Start, Manager.Valid, Manager.Views;
      steps := longer;
    }

    /** The run goes on with a step that has just happened. */
    ghost method Goes(step: P.Step)
      requires manager.Valid() && P.Start(start) && P.ValidRun(start, steps, regime)
      requires P.Allowed(Pool(), step, regime) && P.After(Pool(), step).views == manager.Views()
      modifies this`steps
      ensures Valid() && steps == old(steps) + [step]
    {
      P.ExtendRun(start, steps, step, regime);
      hide P.ValidRun, P.Run, P.Allowed, P.Start, P.After, Manager.Valid, Manager.Views;
      SetSteps(steps + [step]);
    }

    /** Listings are read, usage is logged, days change and limits are edited, without the manager. */
    ghost method Happens(step: P.Step)
      requires Valid() && !step.Acquire? && !step.Release? && P.Allowed(Pool(), step, regime)
      modifies this`steps
      ensures Valid() && steps == old(steps) + [step]
    {
      hide P.ValidRun, P.Run, P.Allowed, P.Start, Manager.Valid, Manager.Views;
      Goes(step);
    }

    /** An acquire is a step of the pool, unless it is refused before any key is tried. */
    method Acquire(providerName: string, listing: Option<seq<KeyRow>>, settings: Option<(string, int)>, clock: Clock,
                   shuffled: seq<KeyRow>, draws: nat -> nat)
        returns (reply: Reply, lease: Lease?, ghost plan: Plan)
      requires Valid()
      requires listing.Some? ==> listing.value in Pool().listings && multiset(shuffled) == multiset(listing.value)
      requires listing.Some? ==> forall row :: row in listing.value ==> manager.owner(row.id) == providerName
      requires Pool().clock <= clock.now && (listing.Some? ==> NoneExpires(Pool(), listing.value, clock.now))
      modifies this`steps, manager, manager.states.Values, manager.providerStates.Values
      ensures Valid()
      ensures steps ==
        if Tries(listing, settings, old(manager.ActiveAt(providerName)))
        then old(steps) + [P.Acquire(listing.value, plan.ordered, plan.start, clock.now)] else old(steps)
      ensures lease != null ==>
        && reply.Granted? && steps != [] && steps[|steps| - 1].Acquire?
        && P.GrantedId(old(Pool()), steps[|steps| - 1]) == Some(reply.row.id)
    {
      ghost var pool, active := Pool(), manager.ActiveAt(providerName);
      StartIsFull();
      hide P.ValidRun, P.Run, P.Start, NoneExpires, AllFull, AllDistinct, Manager.Valid, Manager.Views, Probe, Rotated,
        Index, Arranged, P.GrantedId, Manager.ActiveAt, P.Allowed, P.After, Manager.Actives;
      reply, lease, plan := manager.Acquire(providerName, listing, settings, clock, shuffled, draws);
      if Tries(listing, settings, active) {
        ProbeIsStep(pool, listing.value, plan, clock, manager.Views(), regime);
        Goes(P.Acquire(listing.value, plan.ordered, plan.start, clock.now));
      }
    }

    /** The first call of a release closure is a step of the pool, another call is none. */
    method Release(lease: Lease)
      requires Valid() && lease in manager.leases
      modifies this`steps, manager`open, lease, lease.state, lease.provider
      ensures Valid()
      ensures steps == if old(lease.released) then old(steps) else old(steps) + [P.Release(lease.state.id)]
    {
      ghost var done, pool, id := lease.released, Pool(), lease.state.id;
      manager.LeaseIsListed(lease);
      hide P.ValidRun, P.Run, P.Start, P.Allowed, P.After, Manager.Valid, Manager.Views, KeyStates.Released;
      manager.Release(lease);
      if !done {
        ReleaseIsStep(pool, id, manager.Views(), regime);
        Goes(P.Release(id));
      }
    }

    lemma StartIsFull()
      requires P.Start(start) && P.ValidRun(start, steps, regime)
      ensures AllFull(Pool()) && AllDistinct(Pool())
    {
      ListingsStay(start, steps, regime);
    }

    /**
     * Over everything that a manager can go through, the usage of each of its keys plus the grants
     * still to be logged stays within the quota.
     */
    lemma KeysWithinQuota(id: int, kind: Q.Kind, quota: int)
      requires Valid() && regime.logging.OnceEach? && kind in regime.aligned
      requires P.EditsWithin(start, steps, id, Q.Quota(kind), quota)
      ensures id in Pool().db && P.Demand(Pool(), id, kind) <= Max(quota, P.Used(start, id, kind))
      ensures Pool().db[id].granted > 0 ==> P.Demand(Pool(), id, kind) <= quota
    {
      P.PoolQuotaSafety(start, steps, id, kind, quota, regime);
    }

    /** Its state of a key accounts for all grants: what it has observed and what is pending. */
    lemma StateAccountsForGrants(id: int)
      requires Valid() && regime.logging.OnceEach? && id in manager.states && id in start.db
      ensures id in Pool().db
        && manager.states[id].usageObserved + manager.states[id].pendingReservations
           == |start.db[id].log| + Pool().db[id].granted
    {
      assert id in manager.Views() && manager.Views()[id] == manager.states[id].View();
      P.PoolConservesGrants(start, steps, id, regime);
    }

    /** And no key has more requests under way than its concurrency cap. */
    lemma KeysWithinCap(id: int, most: nat)
      requires Valid() && id in manager.states && P.EditsWithin(start, steps, id, Q.AtOnce, most)
      ensures manager.states[id].active <= most
    {
      assert id in manager.Views() && manager.Views()[id] == manager.states[id].View();
      P.PoolGrantsAtOnce(start, steps, id, most, regime);
    }
  }
}
