/**
 * Runs of the whole pool: acquires probe a list of keys, each on its own row of a listing. Seen from
 * one key, any such run is a run of the protocol of `QuotaRuns`, so what is proved there holds of
 * every key of the pool.
 */
module PoolRuns {
  import opened Wrappers
  import opened FixedWindow
  import opened KeyStates
  import opened KeyPool
  import Q = QuotaRuns

  /** What the database has of one key, and the history of its grants and records since the start. */
  datatype Record = Record(
    limits: Q.Limits, log: seq<int>, granted: nat, logged: nat, daily: Q.Tally, monthly: Q.Tally, marks: seq<Mark>)

  datatype Pool = Pool(
    views: Views, db: map<int, Record>, monthOf: int -> int, today: int, clock: int, listings: set<seq<KeyRow>>)

  datatype Step =
    | Read(listing: seq<KeyRow>, day: int)
    | Acquire(listing: seq<KeyRow>, ordered: seq<KeyRow>, start: nat, now: int)
    | Release(id: int)
    | Log(id: int, day: int)
    | NextDay(day: int)
    | SetLimits(id: int, limits: Q.Limits)

  // ---------- rows and snapshots ----------

  /** The figures of a row. */
  function SnapOf(row: KeyRow): Q.Snapshot {
    Q.Snapshot(Q.Limits(row.rpmLimit, row.dailyQuota, row.monthlyQuota, row.maxConcurrency),
               PeriodOr(row.dailyPeriod, 0), NonNegative(row.dailyUsed), PeriodOr(row.monthlyPeriod, 0),
               NonNegative(row.monthlyUsed), NonNegative(row.usageTotal))
  }

  ghost function TakeSnapshot(p: Pool, id: int, day: int): Q.Snapshot
    requires id in p.db
  {
    var r, month := p.db[id], p.monthOf(day);
    Q.Snapshot(r.limits, day, Q.CountIn(p.monthOf, r.log, Q.Daily, day), month,
               Q.CountFrom(p.monthOf, r.log, Q.Monthly, month), |r.log|)
  }

  /** A row with all figures; the key's weight and statistics are whatever they are. */
  ghost predicate Full(row: KeyRow) {
    row.dailyPeriod.Some? && row.monthlyPeriod.Some? && row.dailyUsed >= 0 && row.monthlyUsed >= 0
      && row.usageTotal >= 0
  }

  ghost predicate RowAgrees(p: Pool, row: KeyRow, day: int) {
    row.id in p.db && Full(row) && SnapOf(row) == TakeSnapshot(p, row.id, day)
  }

  /** A visit looks at nothing else of a row. */
  lemma FiguresDecide(k: KeyView, row: KeyRow, clock: Clock)
    requires Full(row)
    ensures Checked(k, row, clock) == Checked(k, Q.RowOf(SnapOf(row)), clock)
    ensures Visited(k, row, clock) == Visited(k, Q.RowOf(SnapOf(row)), clock)
    ensures Usable(k, row, clock) == Usable(k, Q.RowOf(SnapOf(row)), clock)
    ensures Visited(k, row, clock).initialized
  {
  }

  // ---------- the steps ----------

  function ClockAt(p: Pool, now: int): Clock { Clock(now, p.today, p.monthOf(p.today)) }

  function Probed(p: Pool, step: Step): (Views, Option<nat>)
    requires step.Acquire?
  {
    Probe(p.views, Rotated(step.ordered, step.start), 0, ClockAt(p, step.now))
  }

  /** The attempt on which a key is tried, if it is. */
  function AttemptOf(cyclic: seq<KeyRow>, id: int): (a: Option<nat>)
    ensures a.Some? ==> a.value < |cyclic| && cyclic[a.value].id == id
    ensures a.None? ==> forall i :: 0 <= i < |cyclic| ==> cyclic[i].id != id
  {
    if cyclic == [] then None
    else if cyclic[|cyclic| - 1].id == id then Some(|cyclic| - 1)
    else AttemptOf(cyclic[..|cyclic| - 1], id)
  }

  /** The row on which an acquire visits a key: its own, unless a key before it is granted. */
  function VisitedRow(p: Pool, step: Step, id: int): (row: Option<KeyRow>)
    requires step.Acquire?
    ensures row.Some? ==> row.value.id == id && row.value in step.ordered
  {
    var cyclic, granted := Rotated(step.ordered, step.start), Probed(p, step).1;
    var a := AttemptOf(cyclic, id);
    if a.Some? && (granted.None? || a.value <= granted.value) then Some(cyclic[a.value]) else None
  }

  function GrantedId(p: Pool, step: Step): Option<int>
    requires step.Acquire?
  {
    match Probed(p, step).1
    case None => None
    case Some(a) => Some(Rotated(step.ordered, step.start)[a].id)
  }

  ghost predicate Enabled(p: Pool, step: Step) {
    match step
    case Read(listing, day) =>
      day <= p.today && DistinctIds(listing) && forall row :: row in listing ==> RowAgrees(p, row, day)
    case Acquire(listing, ordered, _, now) =>
      && listing in p.listings && p.clock <= now
      && DistinctIds(ordered) && forall row :: row in ordered ==> row in listing
    case Release(id) => id in p.views
    case Log(id, day) => id in p.db && day <= p.today
    case NextDay(day) => p.today < day
    case SetLimits(id, _) => id in p.db
  }

  function Grown(t: Q.Tally, granted: bool): Q.Tally {
    if granted then t.(grants := t.grants + 1) else t
  }

  /** The history of a key after a probe: a visit may begin a new period, and a grant is added to it. */
  function Accounted(p: Pool, step: Step, id: int): Record
    requires step.Acquire? && id in p.db
  {
    var r, row := p.db[id], VisitedRow(p, step, id);
    if row.None? then r
    else
      var k := StateOr(p.views, id, step.now);
      var c := Checked(k, row.value, ClockAt(p, step.now));
      var granted, total := GrantedId(p, step) == Some(id), SnapOf(row.value).total;
      r.(granted := if granted then r.granted + 1 else r.granted,
         daily := Grown(Q.Retally(r.daily, k.daily, c.daily, total, c.pending), granted),
         monthly := Grown(Q.Retally(r.monthly, k.monthly, c.monthly, total, c.pending), granted),
         marks := if granted then r.marks + [Mark(step.now, c.window.start)] else r.marks)
  }

  function After(p: Pool, step: Step): Pool {
    match step
    case Read(listing, _) => p.(listings := p.listings + {listing})
    case Acquire(_, _, _, now) =>
      p.(views := Probed(p, step).0, clock := now, db := map id | id in p.db :: Accounted(p, step, id))
    case Release(id) => if id in p.views then p.(views := p.views[id := Released(p.views[id])]) else p
    case Log(id, day) =>
      if id in p.db then p.(db := p.db[id := p.db[id].(log := p.db[id].log + [day], logged := p.db[id].logged + 1)])
      else p
    case NextDay(day) => p.(today := day)
    case SetLimits(id, limits) => if id in p.db then p.(db := p.db[id := p.db[id].(limits := limits)]) else p
  }

  /** No key that is visited runs into the expiry of lost reservations. */
  ghost predicate NoExpiry(p: Pool, step: Step) {
    step.Acquire? ==> forall id :: VisitedRow(p, step, id).Some? ==>
      !ReservationStale(TotalReconciled(StateOr(p.views, id, step.now), SnapOf(VisitedRow(p, step, id).value).total),
                        step.now)
  }

  /** A listing counts no record of a period after its own date. */
  ghost predicate Aligned(p: Pool, step: Step, kind: Q.Kind) {
    step.Read? ==> forall row, d :: row in step.listing && row.id in p.db && d in p.db[row.id].log ==>
      Q.PeriodOf(p.monthOf, kind, d) <= Q.PeriodOf(p.monthOf, kind, step.day)
  }

  ghost predicate Allowed(p: Pool, step: Step, regime: Q.Regime) {
    && Enabled(p, step) && NoExpiry(p, step)
    && (regime.logging.OnceEach? && step.Log? ==> p.db[step.id].logged < p.db[step.id].granted)
    && (regime.logging.AnyNumberDatedToday? && step.Log? ==> step.day == p.today)
    && (forall kind :: kind in regime.aligned ==> Aligned(p, step, kind))
  }

  ghost predicate ValidRun(p: Pool, steps: seq<Step>, regime: Q.Regime)
    decreases |steps|
  {
    steps == [] || (Allowed(p, steps[0], regime) && ValidRun(After(p, steps[0]), steps[1..], regime))
  }

  function Run(p: Pool, steps: seq<Step>): Pool
    decreases |steps|
  {
    if steps == [] then p else Run(After(p, steps[0]), steps[1..])
  }

  lemma {:induction false} ExtendRun(p: Pool, steps: seq<Step>, step: Step, regime: Q.Regime)
    requires ValidRun(p, steps, regime) && Allowed(Run(p, steps), step, regime)
    ensures ValidRun(p, steps + [step], regime) && Run(p, steps + [step]) == After(Run(p, steps), step)
    decreases |steps|
  {
    if steps == [] {
      assert ([] + [step])[1..] == [];
    } else {
      ExtendRun(After(p, steps[0]), steps[1..], step, regime);
      assert (steps + [step])[1..] == steps[1..] + [step];
    }
  }

  /** A process that has just started, on any usage tables and any date. */
  ghost predicate Start(p: Pool) {
    && p.views == map[] && p.listings == {} && Q.Monotone(p.monthOf)
    && forall id :: id in p.db ==>
      && p.db[id].granted == 0 && p.db[id].logged == 0 && p.db[id].marks == []
      && forall d :: d in p.db[id].log ==> d <= p.today
  }

  // ---------- a run as one key sees it ----------

  /** What a step of the pool is for one key. */
  function StepFor(p: Pool, step: Step, id: int): Option<Q.Step> {
    match step
    case Read(listing, day) => if AttemptOf(listing, id).Some? then Some(Q.Read(day)) else None
    case Acquire(_, _, _, now) =>
      var row := VisitedRow(p, step, id);
      if row.Some? then Some(Q.Visit(SnapOf(row.value), now)) else None
    case Release(other) => if other == id then Some(Q.Release) else None
    case Log(other, day) => if other == id then Some(Q.Log(day)) else None
    case NextDay(day) => Some(Q.NextDay(day))
    case SetLimits(other, limits) => if other == id then Some(Q.SetLimits(limits)) else None
  }

  function Trace(p: Pool, steps: seq<Step>, id: int): seq<Q.Step>
    decreases |steps|
  {
    if steps == [] then []
    else
      var rest, first := Trace(After(p, steps[0]), steps[1..], id), StepFor(p, steps[0], id);
      if first.Some? then [first.value] + rest else rest
  }

  /** When the state of the key is made: on its first visit. */
  function FirstVisit(p: Pool, steps: seq<Step>, id: int): int
    decreases |steps|
  {
    if steps == [] then p.clock
    else if steps[0].Acquire? && VisitedRow(p, steps[0], id).Some? then steps[0].now
    else FirstVisit(After(p, steps[0]), steps[1..], id)
  }

  /** The world of one key within the pool. */
  ghost predicate Shows(p: Pool, w: Q.World, id: int) {
    && id in p.db && w.monthOf == p.monthOf && w.today == p.today
    && w.limits == p.db[id].limits && w.log == p.db[id].log
    && w.granted == p.db[id].granted && w.logged == p.db[id].logged
    && w.daily == p.db[id].daily && w.monthly == p.db[id].monthly && w.marks == p.db[id].marks
    && (if id in p.views then w.key == p.views[id] && w.key.initialized && w.clock <= p.clock
        else w.key == Fresh(w.clock))
    && forall l, row :: l in p.listings && row in l && row.id == id ==> Full(row) && SnapOf(row) in w.snaps
  }

  /** One key's share of a probe: a visit, or nothing. */
  lemma ProbeOfOne(p: Pool, step: Step, id: int)
    requires step.Acquire? && DistinctIds(step.ordered)
    ensures var row, after := VisitedRow(p, step, id), Probed(p, step).0;
      && (row.None? ==> Find(after, id) == Find(p.views, id) && GrantedId(p, step) != Some(id))
      && (row.Some? ==>
            var k, clock := StateOr(p.views, id, step.now), ClockAt(p, step.now);
            && Find(after, id) == Some(Visited(k, row.value, clock))
            && (GrantedId(p, step) == Some(id) <==> Usable(k, row.value, clock)))
  {
    var cyclic, clock := Rotated(step.ordered, step.start), ClockAt(p, step.now);
    RotatedDistinct(step.ordered, step.start);
    ProbeFrom(p.views, cyclic, 0, clock);
    hide Probe, Checked, Usable;
    var a, granted := AttemptOf(cyclic, id), Probed(p, step).1;
    if a.Some? {
      assert Find(Probed(p, step).0, cyclic[a.value].id) == Outcome(p.views, cyclic[a.value], a.value, granted, clock);
      assert granted.None? || a.value < granted.value ==> !UsableAt(p.views, cyclic, a.value, clock);
      assert granted.Some? && granted.value < a.value ==> cyclic[granted.value].id != cyclic[a.value].id;
      assert granted.Some? && a.value < granted.value ==> cyclic[granted.value].id != cyclic[a.value].id;
    }
  }

  /** One key's world after the key's part of a step, if it has any. */
  ghost function Next(w: Q.World, q: Option<Q.Step>): Q.World {
    if q.None? then w else Q.After(w, q.value)
  }

  /** The clock of the key's world is that of its last visit, or its first one to come. */
  ghost predicate Timely(p: Pool, w: Q.World, step: Step, id: int) {
    id !in p.views && step.Acquire? && VisitedRow(p, step, id).Some? ==> w.clock == step.now
  }

  lemma ReadShows(p: Pool, w: Q.World, step: Step, id: int, regime: Q.Regime)
    requires step.Read? && Shows(p, w, id) && Allowed(p, step, regime)
    ensures var q := StepFor(p, step, id);
      (q.Some? ==> Q.Allowed(w, q.value, regime)) && Shows(After(p, step), Next(w, q), id)
  {
    assert TakeSnapshot(p, id, step.day) == Q.TakeSnapshot(w, step.day);
    hide Q.CountIn, Q.CountFrom;
    var a := AttemptOf(step.listing, id);
    if a.Some? { assert step.listing[a.value] in step.listing; }
  }

  lemma VisitAllowed(p: Pool, w: Q.World, step: Step, id: int, regime: Q.Regime)
    requires step.Acquire? && Shows(p, w, id) && Timely(p, w, step, id) && Allowed(p, step, regime)
    requires VisitedRow(p, step, id).Some?
    ensures var row := VisitedRow(p, step, id).value;
      Full(row) && Q.Allowed(w, Q.Visit(SnapOf(row), step.now), regime) && StateOr(p.views, id, step.now) == w.key
  {
    var row := VisitedRow(p, step, id).value;
    assert row in step.listing;
    hide VisitedRow;
  }

  /** What a visit leaves of the key's state and history is what it leaves of the key's world. */
  lemma VisitShows(p: Pool, w: Q.World, step: Step, id: int)
    requires step.Acquire? && Enabled(p, step) && Shows(p, w, id) && VisitedRow(p, step, id).Some?
    requires Full(VisitedRow(p, step, id).value) && StateOr(p.views, id, step.now) == w.key
    ensures var w' := Q.AfterVisit(w, SnapOf(VisitedRow(p, step, id).value), step.now); var p' := After(p, step);
      && Find(p'.views, id) == Some(w'.key) && w'.key.initialized && w'.granted == p'.db[id].granted
      && w'.daily == p'.db[id].daily && w'.monthly == p'.db[id].monthly && w'.marks == p'.db[id].marks
  {
    ProbeOfOne(p, step, id);
    var row := VisitedRow(p, step, id).value;
    FiguresDecide(w.key, row, ClockAt(p, step.now));
    Q.VisitIsVisited(w, SnapOf(row), step.now);
    VisitCounts(w, SnapOf(row), step.now);
    hide Probed, Visited, Usable, Checked, VisitedRow, GrantedId, Q.AfterVisit, Q.Retally, Grown, Q.RowOf, SnapOf, Full;
  }

  lemma AcquireShows(p: Pool, w: Q.World, step: Step, id: int, regime: Q.Regime)
    requires step.Acquire? && Shows(p, w, id) && Timely(p, w, step, id) && Allowed(p, step, regime)
    ensures var q := StepFor(p, step, id);
      (q.Some? ==> Q.Allowed(w, q.value, regime)) && Shows(After(p, step), Next(w, q), id)
  {
    var row := VisitedRow(p, step, id);
    if row.None? {
      ProbeOfOne(p, step, id);
    } else {
      VisitAllowed(p, w, step, id, regime);
      VisitShows(p, w, step, id);
      VisitCounts(w, SnapOf(row.value), step.now);
    }
    hide Probed, VisitedRow, GrantedId, Q.AfterVisit, Usable, Checked, Q.Retally, Grown, Q.Allowed, Allowed, SnapOf;
  }

  lemma VisitCounts(w: Q.World, snap: Q.Snapshot, now: int)
    ensures var w', k := Q.AfterVisit(w, snap, now), w.key;
      var c := Checked(k, Q.RowOf(snap), Q.ClockOf(w, now));
      var granted := Usable(k, Q.RowOf(snap), Q.ClockOf(w, now));
      && w'.granted == w.granted + (if granted then 1 else 0) && w'.clock == now
      && w'.daily == Grown(Q.Retally(w.daily, k.daily, c.daily, snap.total, c.pending), granted)
      && w'.monthly == Grown(Q.Retally(w.monthly, k.monthly, c.monthly, snap.total, c.pending), granted)
      && w'.marks == (if granted then w.marks + [Mark(now, c.window.start)] else w.marks)
      && w'.(key := w.key, clock := w.clock, granted := w.granted, first := w.first, daily := w.daily,
             monthly := w.monthly, marks := w.marks) == w
  {
  }

  lemma StepShows(p: Pool, w: Q.World, step: Step, id: int, regime: Q.Regime)
    requires Shows(p, w, id) && Timely(p, w, step, id) && Allowed(p, step, regime)
    ensures var q := StepFor(p, step, id);
      (q.Some? ==> Q.Allowed(w, q.value, regime)) && Shows(After(p, step), Next(w, q), id)
  {
    match step
    case Read(_, _) => ReadShows(p, w, step, id, regime);
    case Acquire(_, _, _, _) => AcquireShows(p, w, step, id, regime);
    case _ => hide Probed, VisitedRow, GrantedId, Q.AfterVisit;
  }

  /** Until its first visit a key's world keeps its clock. */
  lemma ClockWaits(p: Pool, w: Q.World, step: Step, id: int)
    requires id !in After(p, step).views && DistinctIds(if step.Acquire? then step.ordered else [])
    ensures id !in p.views && Next(w, StepFor(p, step, id)).clock == w.clock
    ensures !(step.Acquire? && VisitedRow(p, step, id).Some?)
  {
    if step.Acquire? { ProbeOfOne(p, step, id); }
    hide Probed, VisitedRow, GrantedId, Q.AfterVisit, Visited;
  }

  /** Any run of the pool is a run of the protocol of each of its keys. */
  lemma {:induction false} TraceShows(p: Pool, w: Q.World, steps: seq<Step>, id: int, regime: Q.Regime)
    requires Shows(p, w, id) && ValidRun(p, steps, regime)
    requires id !in p.views ==> w.clock == FirstVisit(p, steps, id)
    ensures Q.ValidRun(w, Trace(p, steps, id), regime)
    ensures Shows(Run(p, steps), Q.Run(w, Trace(p, steps, id)), id)
    decreases |steps|
  {
    if steps != [] {
      var step, q := steps[0], StepFor(p, steps[0], id);
      StepShows(p, w, step, id, regime);
      if id !in After(p, step).views { ClockWaits(p, w, step, id); }
      hide Shows, Allowed, StepFor, VisitedRow, Q.Allowed, Q.After;
      TraceShows(After(p, step), Next(w, q), steps[1..], id, regime);
      var rest := Trace(After(p, step), steps[1..], id);
      assert q.Some? ==> ([q.value] + rest)[1..] == rest;
    }
  }

  /** The world in which the key's share of the run starts. */
  ghost function StartOf(p: Pool, steps: seq<Step>, id: int): Q.World
    requires id in p.db
  {
    var clock, r := FirstVisit(p, steps, id), p.db[id];
    Q.World(Fresh(clock), r.limits, p.monthOf, r.log, p.today, clock, {}, |r.log|, 0, 0, 0, r.daily, r.monthly, [])
  }

  /** Every key of the pool goes through a run of the quota protocol, in which its listings are rows of the pool's. */
  lemma PoolProjects(p: Pool, steps: seq<Step>, id: int, regime: Q.Regime)
    requires Start(p) && ValidRun(p, steps, regime) && id in p.db
    ensures var w, trace := StartOf(p, steps, id), Trace(p, steps, id);
      Q.Start(w) && Q.ValidRun(w, trace, regime) && Shows(Run(p, steps), Q.Run(w, trace), id)
  {
    TraceShows(p, StartOf(p, steps, id), steps, id, regime);
  }

  // ---------- so the quotas hold for all keys ----------

  /** Records of a key in the current period, and with the grants not logged yet. */
  ghost function Used(p: Pool, id: int, kind: Q.Kind): nat
    requires id in p.db
  {
    Q.CountIn(p.monthOf, p.db[id].log, kind, Current(p, kind))
  }

  ghost function Demand(p: Pool, id: int, kind: Q.Kind): int
    requires id in p.db
  {
    Used(p, id, kind) + p.db[id].granted - p.db[id].logged
  }

  function Current(p: Pool, kind: Q.Kind): int { Q.PeriodOf(p.monthOf, kind, p.today) }

  /** The key's limit is edited up to `most` and never lifted. */
  ghost predicate EditsWithin(p: Pool, steps: seq<Step>, id: int, rule: Q.Rule, most: int) {
    && id in p.db && Q.IsWithin(Q.LimitOf(p.db[id].limits, rule), most)
    && forall i :: 0 <= i < |steps| ==> EditWithin(steps[i], id, rule, most)
  }

  predicate EditWithin(step: Step, id: int, rule: Q.Rule, most: int) {
    step.SetLimits? && step.id == id ==> Q.IsWithin(Q.LimitOf(step.limits, rule), most)
  }

  lemma {:induction false} TraceEdits(p: Pool, steps: seq<Step>, id: int, rule: Q.Rule, most: int)
    requires forall i :: 0 <= i < |steps| ==> EditWithin(steps[i], id, rule, most)
    ensures forall i :: 0 <= i < |Trace(p, steps, id)| ==> Q.EditWithin(Trace(p, steps, id)[i], rule, most)
    decreases |steps|
  {
    if steps != [] { TraceEdits(After(p, steps[0]), steps[1..], id, rule, most); }
  }

  /**
   * Quota safety of the pool: however lists are ordered, probed and granted from, with whatever
   * listings in flight, every key's demand stays within its quota as it does for a single key.
   */
  lemma PoolQuotaSafety(p: Pool, steps: seq<Step>, id: int, kind: Q.Kind, quota: int, regime: Q.Regime)
    requires Start(p) && ValidRun(p, steps, regime) && regime.logging.OnceEach? && kind in regime.aligned
    requires EditsWithin(p, steps, id, Q.Quota(kind), quota)
    ensures var p' := Run(p, steps);
      && id in p'.db
      && Demand(p', id, kind) <= Max(quota, Used(p, id, kind))
      && (p'.db[id].granted > 0 || Current(p', kind) != Current(p, kind) ==> Demand(p', id, kind) <= quota)
      && 0 <= p'.db[id].logged <= p'.db[id].granted
  {
    var w, trace := StartOf(p, steps, id), Trace(p, steps, id);
    PoolProjects(p, steps, id, regime);
    TraceEdits(p, steps, id, Q.Quota(kind), quota);
    Q.QuotaSafety(w, trace, kind, quota, regime);
    hide ValidRun, Q.ValidRun, Q.Run, Run, Trace, FirstVisit, Q.CountIn;
  }

  /** Grant conservation, for every key that was ever visited. */
  lemma PoolConservesGrants(p: Pool, steps: seq<Step>, id: int, regime: Q.Regime)
    requires Start(p) && ValidRun(p, steps, regime) && regime.logging.OnceEach?
    requires id in p.db && id in Run(p, steps).views
    ensures var p' := Run(p, steps);
      && id in p'.db
      && p'.views[id].observed + p'.views[id].pending == |p.db[id].log| + p'.db[id].granted
  {
    var w, trace := StartOf(p, steps, id), Trace(p, steps, id);
    PoolProjects(p, steps, id, regime);
    Q.GrantConservation(w, trace, regime);
    hide ValidRun, Q.ValidRun, Q.Run, Run, Trace, FirstVisit, Q.CountIn;
  }

  /** No key ever has more requests under way than its concurrency cap. */
  lemma PoolGrantsAtOnce(p: Pool, steps: seq<Step>, id: int, most: nat, regime: Q.Regime)
    requires Start(p) && ValidRun(p, steps, regime) && EditsWithin(p, steps, id, Q.AtOnce, most)
    ensures id in Run(p, steps).views ==> Run(p, steps).views[id].active <= most
  {
    var w, trace := StartOf(p, steps, id), Trace(p, steps, id);
    PoolProjects(p, steps, id, regime);
    TraceEdits(p, steps, id, Q.AtOnce, most);
    Q.GrantsAtOnce(w, trace, most, regime);
    hide ValidRun, Q.ValidRun, Q.Run, Run, Trace, FirstVisit;
  }

  /** Any minute whatever holds at most twice the key's limit of grants. */
  lemma PoolGrantsPerMinute(p: Pool, steps: seq<Step>, id: int, rpm: nat, regime: Q.Regime, from: int)
    requires Start(p) && ValidRun(p, steps, regime) && EditsWithin(p, steps, id, Q.PerMinute, rpm)
    ensures id in Run(p, steps).db && Within(Run(p, steps).db[id].marks, from, MINUTE) <= 2 * rpm
  {
    var w, trace := StartOf(p, steps, id), Trace(p, steps, id);
    PoolProjects(p, steps, id, regime);
    TraceEdits(p, steps, id, Q.PerMinute, rpm);
    Q.GrantsPerMinute(w, trace, rpm, regime, from);
    hide ValidRun, Q.ValidRun, Q.Run, Run, Trace, FirstVisit;
  }

  ghost function TallyOf(r: Record, kind: Q.Kind): Q.Tally { if kind.Daily? then r.daily else r.monthly }

  /** Records of earlier periods that came in after the first listing of the period that the key tracks. */
  ghost function Late(p: Pool, id: int, kind: Q.Kind): int
    requires id in p.db && id in p.views && Q.UsageOf(p.views[id], kind).period.Some?
  {
    var t := TallyOf(p.db[id], kind);
    Q.CountBefore(p.monthOf, p.db[id].log, kind, Q.UsageOf(p.views[id], kind).period.value)
      - (t.firstTotal - t.firstUsed)
  }

  /** While a key tracks a period, its grants keep the bound of `QuotaRuns`, however usage is logged. */
  lemma PoolGrantsPerPeriod(p: Pool, steps: seq<Step>, id: int, kind: Q.Kind, quota: int, regime: Q.Regime)
    requires Start(p) && ValidRun(p, steps, regime) && kind in regime.aligned
    requires EditsWithin(p, steps, id, Q.Quota(kind), quota) && id in Run(p, steps).views
    ensures var p' := Run(p, steps);
      && id in p'.db && Q.UsageOf(p'.views[id], kind).period.Some? && 0 <= Late(p', id, kind)
      && var t := TallyOf(p'.db[id], kind);
      (t.grants > 0 ==> t.firstUsed + t.grants + t.carried <= quota + Late(p', id, kind))
  {
    var w, trace := StartOf(p, steps, id), Trace(p, steps, id);
    PoolProjects(p, steps, id, regime);
    TraceEdits(p, steps, id, Q.Quota(kind), quota);
    Q.GrantsPerPeriod(w, trace, kind, quota, regime);
    hide ValidRun, Q.ValidRun, Q.Run, Run, Trace, FirstVisit, Q.CountBefore;
  }
}
