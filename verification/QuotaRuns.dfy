/**
 * The quota-reservation protocol of one key as a transition system: listings are read from
 * the usage log, applied later in any order and any number of times, grants are made on the
 * strength of them, and usage is logged after the fact while days and months roll over.
 */
module QuotaRuns {
  import opened Wrappers
  import opened FixedWindow
  import opened KeyStates

  datatype Kind = Daily | Monthly

  datatype Limits = Limits(rpm: int, dailyQuota: int, monthlyQuota: int, maxConcurrency: int)

  /** What one consistent query reported: the limits, and the usage of which day and month. */
  datatype Snapshot = Snapshot(limits: Limits, day: int, dayUsed: nat, month: int, monthUsed: nat, total: nat)

  /**
   * Since the tracked period began: the usage and the total that its first listing reported, the
   * reservations carried over when that listing had been applied, and the grants made since.
   */
  datatype Tally = Tally(firstUsed: int, firstTotal: int, carried: nat, grants: nat)

  /**
   * `log` is the usage table as the dates of the requests logged for the key; `monthOf` is
   * the calendar. `limits` are those in the database; a listing carries the ones it read. `base` is
   * the length of the log at the start, `granted` and `logged` count grants and log records since,
   * `marks` is the history of grants.
   */
  datatype World = World(
    key: KeyView, limits: Limits, monthOf: int -> int,
    log: seq<int>, today: int, clock: int, snaps: set<Snapshot>,
    base: nat, granted: nat, logged: nat, first: nat,
    daily: Tally, monthly: Tally, marks: seq<Mark>)

  datatype Step =
    | Read(day: int)                        // a listing query runs in a transaction begun on `day`
    | Visit(snap: Snapshot, now: int)       // Acquire applies a listing to the key, and grants it if usable
    | Release                               // an upstream call ends
    | Log(day: int)                         // a usage record dated `day` is committed
    | NextDay(day: int)                     // the database date moves on
    | SetLimits(limits: Limits)             // an administrator edits the key

  // ---------- counting a log by period ----------

  function PeriodOf(monthOf: int -> int, kind: Kind, day: int): int {
    if kind.Daily? then day else monthOf(day)
  }

  ghost predicate Monotone(f: int -> int) {
    forall a, b :: a <= b ==> f(a) <= f(b)
  }

  /** Records dated in period `p`; records dated before it; records dated in it or later. */
  ghost function CountIn(monthOf: int -> int, log: seq<int>, kind: Kind, p: int): nat {
    if log == [] then 0
    else CountIn(monthOf, log[..|log| - 1], kind, p) + if PeriodOf(monthOf, kind, log[|log| - 1]) == p then 1 else 0
  }

  ghost function CountBefore(monthOf: int -> int, log: seq<int>, kind: Kind, p: int): nat {
    if log == [] then 0
    else CountBefore(monthOf, log[..|log| - 1], kind, p) + if PeriodOf(monthOf, kind, log[|log| - 1]) < p then 1 else 0
  }

  /** The query of the monthly usage asks for dates from the first of the month on. */
  ghost function CountFrom(monthOf: int -> int, log: seq<int>, kind: Kind, p: int): nat {
    if log == [] then 0
    else CountFrom(monthOf, log[..|log| - 1], kind, p) + if PeriodOf(monthOf, kind, log[|log| - 1]) >= p then 1 else 0
  }

  lemma {:induction false} CountsSplit(monthOf: int -> int, log: seq<int>, kind: Kind, p: int)
    ensures CountBefore(monthOf, log, kind, p) + CountFrom(monthOf, log, kind, p) == |log|
    ensures CountBefore(monthOf, log, kind, p) + CountIn(monthOf, log, kind, p)
      == CountBefore(monthOf, log, kind, p + 1)
    ensures CountBefore(monthOf, log, kind, p + 1) <= |log|
    ensures (forall d :: d in log ==> PeriodOf(monthOf, kind, d) <= p) ==>
      CountIn(monthOf, log, kind, p) == CountFrom(monthOf, log, kind, p)
    ensures (forall d :: d in log ==> PeriodOf(monthOf, kind, d) < p) ==> CountIn(monthOf, log, kind, p) == 0
  {
    if log != [] {
      CountsSplit(monthOf, log[..|log| - 1], kind, p);
      assert forall d :: d in log[..|log| - 1] ==> d in log;
    }
  }

  lemma CountAppend(monthOf: int -> int, log: seq<int>, kind: Kind, day: int)
    ensures forall p ::
      CountIn(monthOf, log + [day], kind, p)
        == CountIn(monthOf, log, kind, p) + if PeriodOf(monthOf, kind, day) == p then 1 else 0
    ensures forall p ::
      CountBefore(monthOf, log + [day], kind, p)
        == CountBefore(monthOf, log, kind, p) + if PeriodOf(monthOf, kind, day) < p then 1 else 0
  {
    assert (log + [day])[..|log + [day]| - 1] == log;
  }

  // ---------- the steps ----------

  /** The date of a listing is that of its transaction, the data may be a little newer. */
  ghost function TakeSnapshot(w: World, day: int): Snapshot {
    var month := w.monthOf(day);
    Snapshot(w.limits, day, CountIn(w.monthOf, w.log, Daily, day), month,
             CountFrom(w.monthOf, w.log, Monthly, month), |w.log|)
  }

  function RowOf(s: Snapshot): KeyRow {
    KeyRow(0, 1, s.limits.rpm, s.limits.dailyQuota, s.limits.monthlyQuota, s.limits.maxConcurrency,
           Some(s.day), s.dayUsed, Some(s.month), s.monthUsed, s.total, 0, 0, 0)
  }

  function ClockOf(w: World, now: int): Clock {
    Clock(now, w.today, w.monthOf(w.today))
  }

  function Retally(t: Tally, before: Usage, after: Usage, total: int, pending: nat): Tally {
    if before.period == after.period then t else Tally(after.observed, total, pending, 0)
  }

  /** The first half of a visit: the listing is applied and the windows are brought up to date. */
  function Applied(w: World, snap: Snapshot, now: int): World {
    var k := Checked(w.key, RowOf(snap), ClockOf(w, now));
    w.(key := k, clock := now,
       first := if w.key.initialized then w.first else snap.total,
       daily := Retally(w.daily, w.key.daily, k.daily, snap.total, k.pending),
       monthly := Retally(w.monthly, w.key.monthly, k.monthly, snap.total, k.pending))
  }

  /** The second half, when the key turned out usable. */
  function Grant(w: World): World {
    w.(key := Granted(w.key, w.clock), granted := w.granted + 1,
       daily := w.daily.(grants := w.daily.grants + 1),
       monthly := w.monthly.(grants := w.monthly.grants + 1),
       marks := w.marks + [Mark(w.clock, w.key.window.start)])
  }

  function AfterVisit(w: World, snap: Snapshot, now: int): World {
    var applied := Applied(w, snap, now);
    if Usable(w.key, RowOf(snap), ClockOf(w, now)) then Grant(applied) else applied
  }

  /** What the protocol does to the key is the visit that the probe of a list of keys makes. */
  lemma VisitIsVisited(w: World, snap: Snapshot, now: int)
    ensures AfterVisit(w, snap, now).key == Visited(w.key, RowOf(snap), ClockOf(w, now))
  {
  }

  ghost predicate Enabled(w: World, step: Step) {
    match step
    case Read(day) => day <= w.today
    case Visit(snap, now) => snap in w.snaps && w.clock <= now
    case Release => true
    case Log(day) => day <= w.today
    case NextDay(day) => w.today < day
    case SetLimits(_) => true
  }

  ghost function After(w: World, step: Step): World {
    match step
    case Read(day) => w.(snaps := w.snaps + {TakeSnapshot(w, day)})
    case Visit(snap, now) => AfterVisit(w, snap, now)
    case Release => w.(key := Released(w.key))
    case Log(day) => w.(log := w.log + [day], logged := w.logged + 1)
    case NextDay(day) => w.(today := day)
    case SetLimits(limits) => w.(limits := limits)
  }

  /** The step does not run into the one-hour expiry of lost reservations. */
  ghost predicate NoExpiry(w: World, step: Step) {
    step.Visit? ==> !ReservationStale(TotalReconciled(w.key, step.snap.total), step.now)
  }

  /** Every record logged belongs to a grant that had not been logged yet. */
  ghost predicate LoggedOnce(w: World, step: Step) {
    step.Log? ==> w.logged < w.granted
  }

  /** Every record carries the date on which it is committed. */
  ghost predicate DatedToday(w: World, step: Step) {
    step.Log? ==> step.day == w.today
  }

  /** A listing counts no record of a period after its own date. */
  ghost predicate Aligned(w: World, step: Step, kind: Kind) {
    step.Read? ==> forall d :: d in w.log ==> PeriodOf(w.monthOf, kind, d) <= PeriodOf(w.monthOf, kind, step.day)
  }

  datatype Logging = OnceEach | AnyNumberDatedToday | AnyLogging

  /** How usage is logged, and for which kinds of period listings are aligned. */
  datatype Regime = Regime(logging: Logging, aligned: set<Kind>)

  ghost predicate Allowed(w: World, step: Step, regime: Regime) {
    && Enabled(w, step)
    && NoExpiry(w, step)
    && (regime.logging.OnceEach? ==> LoggedOnce(w, step))
    && (regime.logging.AnyNumberDatedToday? ==> DatedToday(w, step))
    && (forall kind :: kind in regime.aligned ==> Aligned(w, step, kind))
  }

  ghost predicate ValidRun(w: World, steps: seq<Step>, regime: Regime)
    decreases |steps|
  {
    steps == [] || (Allowed(w, steps[0], regime) && ValidRun(After(w, steps[0]), steps[1..], regime))
  }

  ghost function Run(w: World, steps: seq<Step>): World
    decreases |steps|
  {
    if steps == [] then w else Run(After(w, steps[0]), steps[1..])
  }

  /** A process that has just started, on any usage table and any date. */
  ghost predicate Start(w: World) {
    && w.key == Fresh(w.clock)
    && w.snaps == {}
    && w.base == |w.log|
    && w.granted == 0 && w.logged == 0
    && w.marks == []
    && Monotone(w.monthOf)
    && (forall d :: d in w.log ==> d <= w.today)
  }

  // ---------- views by kind of period ----------

  function UsageOf(k: KeyView, kind: Kind): Usage { if kind.Daily? then k.daily else k.monthly }
  function QuotaOf(l: Limits, kind: Kind): int { if kind.Daily? then l.dailyQuota else l.monthlyQuota }
  datatype Rule = Quota(kind: Kind) | PerMinute | AtOnce

  function LimitOf(l: Limits, rule: Rule): int {
    match rule
    case Quota(kind) => QuotaOf(l, kind)
    case PerMinute => l.rpm
    case AtOnce => l.maxConcurrency
  }

  /** A limit of zero is none. */
  predicate IsWithin(limit: int, most: int) { 0 < limit <= most }

  /** However often the limits are edited, this one is at most `most` and never lifted. */
  ghost predicate EditsWithin(start: World, steps: seq<Step>, rule: Rule, most: int) {
    && IsWithin(LimitOf(start.limits, rule), most)
    && forall i :: 0 <= i < |steps| ==> EditWithin(steps[i], rule, most)
  }

  predicate EditWithin(step: Step, rule: Rule, most: int) {
    step.SetLimits? ==> IsWithin(LimitOf(step.limits, rule), most)
  }

  /** So are the limits in the database and in all listings, new and old. */
  ghost predicate Ruled(w: World, rule: Rule, most: int) {
    && IsWithin(LimitOf(w.limits, rule), most)
    && forall s :: s in w.snaps ==> IsWithin(LimitOf(s.limits, rule), most)
  }

  lemma RuledStep(w: World, step: Step, rule: Rule, most: int)
    requires Ruled(w, rule, most) && EditWithin(step, rule, most)
    ensures Ruled(After(w, step), rule, most)
  {
  }

  function TallyOf(w: World, kind: Kind): Tally { if kind.Daily? then w.daily else w.monthly }
  function SnapPeriod(s: Snapshot, kind: Kind): int { if kind.Daily? then s.day else s.month }
  function SnapUsed(s: Snapshot, kind: Kind): nat { if kind.Daily? then s.dayUsed else s.monthUsed }
  function Current(w: World, kind: Kind): int { PeriodOf(w.monthOf, kind, w.today) }

  /** Usage recorded for the current period. */
  ghost function Used(w: World, kind: Kind): nat { CountIn(w.monthOf, w.log, kind, Current(w, kind)) }

  /** Usage recorded for the current period plus the grants not logged yet. */
  ghost function Demand(w: World, kind: Kind): int { Used(w, kind) + w.granted - w.logged }

  /** Without expiry a listing acts on the reservations and on each usage separately. */
  lemma AppliedView(w: World, snap: Snapshot, now: int, kind: Kind)
    requires NoExpiry(w, Visit(snap, now))
    ensures var k := Applied(w, snap, now).key; var r := TotalReconciled(w.key, snap.total);
      && k.initialized && k.observed == r.observed && k.pending == r.pending
      && UsageOf(k, kind) == UsageReconciled(UsageOf(w.key, kind), SnapPeriod(snap, kind), SnapUsed(snap, kind))
    ensures TallyOf(Applied(w, snap, now), kind)
            == Retally(TallyOf(w, kind), UsageOf(w.key, kind), UsageOf(Applied(w, snap, now).key, kind),
                       snap.total, Applied(w, snap, now).key.pending)
  {
  }

  // ---------- facts that every logging regime keeps ----------

  ghost predicate Sane(w: World) {
    && Monotone(w.monthOf)
    && |w.log| == w.base + w.logged
    && (forall d :: d in w.log ==> d <= w.today)
    && (forall s :: s in w.snaps ==> s.total <= |w.log|)
    && (!w.key.initialized ==>
          w.granted == 0 && w.key.pending == 0 && w.key.daily.period.None? && w.key.monthly.period.None?)
    && (w.key.initialized ==>
          && 0 <= w.key.observed <= |w.log|
          && w.key.daily.period.Some? && w.key.monthly.period.Some?
          && w.key.observed + w.key.pending >= w.first + w.granted)
  }

  lemma AppliedKeepsSane(w: World, snap: Snapshot, now: int)
    requires Sane(w) && snap in w.snaps && NoExpiry(w, Visit(snap, now))
    ensures Sane(Applied(w, snap, now))
  {
    AppliedView(w, snap, now, Daily);
    AppliedView(w, snap, now, Monthly);
  }

  lemma SaneStep(w: World, step: Step, regime: Regime)
    requires Sane(w) && Allowed(w, step, regime)
    ensures Sane(After(w, step))
  {
    if step.Visit? {
      AppliedKeepsSane(w, step.snap, step.now);
      var applied := Applied(w, step.snap, step.now);
      assert Sane(Grant(applied));
    }
  }

  // ---------- quota safety when each grant is logged at most once ----------

  ghost predicate Balanced(w: World) {
    && w.logged <= w.granted
    && (!w.key.initialized ==> forall s :: s in w.snaps ==> s.total == w.base)
    && (w.key.initialized ==>
          w.first == w.base && w.key.observed + w.key.pending == w.base + w.granted)
  }

  /**
   * A total and a usage figure of one listing are grounded when they claim no more usage in
   * the current period, and no more records outside it, than the log holds by now.
   */
  ghost predicate IsGrounded(w: World, kind: Kind, period: int, used: int, total: int) {
    var outside := |w.log| - Used(w, kind);
    && period <= Current(w, kind) && 0 <= used
    && (period == Current(w, kind) ==> used <= Used(w, kind) && total - used <= outside)
    && (period < Current(w, kind) ==> total <= outside)
  }

  ghost predicate KeyGrounded(w: World, kind: Kind) {
    var u := UsageOf(w.key, kind);
    w.key.initialized ==> u.period.Some? && IsGrounded(w, kind, u.period.value, u.observed, w.key.observed)
  }

  /** So are all listings, applied or in flight. */
  ghost predicate Grounded(w: World, kind: Kind) {
    && KeyGrounded(w, kind)
    && (forall s :: s in w.snaps ==> IsGrounded(w, kind, SnapPeriod(s, kind), SnapUsed(s, kind), s.total))
  }

  /** The demand is within the quota, or nothing was granted since the start. */
  ghost predicate WithinQuota(w: World, kind: Kind, start: World, quota: int) {
    || Demand(w, kind) <= quota
    || (w.granted == 0 && Current(w, kind) == Current(start, kind) && Demand(w, kind) == Used(start, kind))
  }

  lemma BalancedStep(w: World, step: Step, regime: Regime)
    requires Sane(w) && Balanced(w) && Allowed(w, step, regime) && regime.logging.OnceEach?
    ensures Balanced(After(w, step))
  {
  }

  /** The current-period count never falls while the period lasts, and restarts at zero. */
  lemma UsedStep(w: World, step: Step, kind: Kind)
    requires Sane(w) && Enabled(w, step)
    ensures Current(w, kind) <= Current(After(w, step), kind)
    ensures Current(w, kind) < Current(After(w, step), kind) ==> Used(After(w, step), kind) == 0
    ensures Current(w, kind) == Current(After(w, step), kind) ==>
              Used(After(w, step), kind) ==
              Used(w, kind) + if step.Log? && PeriodOf(w.monthOf, kind, step.day) == Current(w, kind) then 1 else 0
  {
    var w' := After(w, step);
    match step
    case Log(day) => CountAppend(w.monthOf, w.log, kind, day);
    case NextDay(day) => CountsSplit(w.monthOf, w.log, kind, Current(w', kind));
    case _ =>
  }

  lemma SnapshotIsConsistent(w: World, day: int, kind: Kind)
    requires Sane(w) && Enabled(w, Read(day)) && Aligned(w, Read(day), kind)
    ensures var s, period := TakeSnapshot(w, day), PeriodOf(w.monthOf, kind, day);
      && SnapPeriod(s, kind) == period && SnapUsed(s, kind) == CountIn(w.monthOf, w.log, kind, period)
      && SnapUsed(s, kind) + CountBefore(w.monthOf, w.log, kind, period) == |w.log| == s.total
      && (period < Current(w, kind) ==> Used(w, kind) == 0)
  {
    CountsSplit(w.monthOf, w.log, kind, PeriodOf(w.monthOf, kind, day));
    CountsSplit(w.monthOf, w.log, kind, Current(w, kind));
  }

  /** A listing of today's date is always aligned. */
  lemma TodayIsAligned(w: World, kind: Kind)
    requires Sane(w)
    ensures Aligned(w, Read(w.today), kind)
  {
  }

  lemma AppliedKeepsGrounded(w: World, snap: Snapshot, now: int, kind: Kind)
    requires Sane(w) && Grounded(w, kind) && snap in w.snaps && NoExpiry(w, Visit(snap, now))
    ensures KeyGrounded(Applied(w, snap, now), kind)
  {
    AppliedView(w, snap, now, kind);
    assert IsGrounded(w, kind, SnapPeriod(snap, kind), SnapUsed(snap, kind), snap.total);
  }

  lemma AppliedKeepsBalanced(w: World, snap: Snapshot, now: int)
    requires Sane(w) && Balanced(w) && snap in w.snaps && NoExpiry(w, Visit(snap, now))
    ensures Balanced(Applied(w, snap, now))
  {
    AppliedView(w, snap, now, Daily);
  }

  /** Time and logging never unground a figure. */
  lemma StaysGrounded(w: World, step: Step, kind: Kind)
    requires Sane(w) && Enabled(w, step)
    ensures forall period, used, total :: IsGrounded(w, kind, period, used, total)
              ==> IsGrounded(After(w, step), kind, period, used, total)
  {
    UsedStep(w, step, kind);
  }

  /** What the pool believes, tracked usage plus reservations, is never below the demand. */
  lemma PoolCoversDemand(w: World, kind: Kind)
    requires Sane(w) && Balanced(w) && KeyGrounded(w, kind) && w.key.initialized
    ensures Demand(w, kind) <= UsageOf(w.key, kind).observed + w.key.pending
  {
  }

  lemma GroundedStep(w: World, step: Step, kind: Kind, regime: Regime)
    requires Sane(w) && Grounded(w, kind) && Allowed(w, step, regime) && kind in regime.aligned
    ensures Grounded(After(w, step), kind)
  {
    StaysGrounded(w, step, kind);
    match step
    case Read(day) =>
      SnapshotIsConsistent(w, day, kind);
      var s := TakeSnapshot(w, day);
      assert IsGrounded(w, kind, SnapPeriod(s, kind), SnapUsed(s, kind), s.total);
    case Visit(snap, now) =>
      AppliedKeepsGrounded(w, snap, now, kind);
      assert KeyGrounded(Grant(Applied(w, snap, now)), kind);
    case _ =>
  }

  lemma UsableRespectsQuota(w: World, snap: Snapshot, now: int, kind: Kind)
    requires Usable(w.key, RowOf(snap), ClockOf(w, now)) && QuotaOf(snap.limits, kind) > 0
    ensures var k := Applied(w, snap, now).key; UsageOf(k, kind).observed + k.pending < QuotaOf(snap.limits, kind)
  {
  }

  /** Whoever edits the limits: a grant leaves the demand within the quota of the listing it was made on. */
  lemma GrantWithinListing(w: World, snap: Snapshot, now: int, kind: Kind)
    requires Sane(w) && Balanced(w) && Grounded(w, kind) && Enabled(w, Visit(snap, now))
    requires NoExpiry(w, Visit(snap, now))
    requires QuotaOf(snap.limits, kind) > 0 && Usable(w.key, RowOf(snap), ClockOf(w, now))
    ensures Demand(After(w, Visit(snap, now)), kind) <= QuotaOf(snap.limits, kind)
  {
    var applied := Applied(w, snap, now);
    AppliedKeepsGrounded(w, snap, now, kind);
    AppliedKeepsBalanced(w, snap, now);
    AppliedKeepsSane(w, snap, now);
    UsableRespectsQuota(w, snap, now, kind);
    PoolCoversDemand(applied, kind);
    assert After(w, Visit(snap, now)) == Grant(applied);
  }

  lemma WithinQuotaStep(w: World, step: Step, kind: Kind, start: World, quota: int, regime: Regime)
    requires Sane(w) && Balanced(w) && Grounded(w, kind) && WithinQuota(w, kind, start, quota)
    requires Allowed(w, step, regime) && regime.logging.OnceEach? && Ruled(w, Quota(kind), quota)
    ensures WithinQuota(After(w, step), kind, start, quota)
  {
    if step.Visit? {
      if Usable(w.key, RowOf(step.snap), ClockOf(w, step.now)) {
        GrantWithinListing(w, step.snap, step.now, kind);
      }
    } else {
      UsedStep(w, step, kind);
    }
  }

  lemma {:induction false} BalancedRun(w: World, steps: seq<Step>, regime: Regime)
    requires Sane(w) && Balanced(w) && ValidRun(w, steps, regime) && regime.logging.OnceEach?
    ensures Sane(Run(w, steps)) && Balanced(Run(w, steps))
    decreases |steps|
  {
    if steps != [] {
      SaneStep(w, steps[0], regime);
      BalancedStep(w, steps[0], regime);
      BalancedRun(After(w, steps[0]), steps[1..], regime);
    }
  }

  lemma {:induction false} GroundedRun(w: World, steps: seq<Step>, kind: Kind, regime: Regime)
    requires Sane(w) && Grounded(w, kind) && ValidRun(w, steps, regime) && kind in regime.aligned
    ensures Grounded(Run(w, steps), kind)
    decreases |steps|
  {
    if steps != [] {
      SaneStep(w, steps[0], regime);
      GroundedStep(w, steps[0], kind, regime);
      GroundedRun(After(w, steps[0]), steps[1..], kind, regime);
    }
  }

  lemma {:induction false} QuotaSafetyFrom(start: World, w: World, steps: seq<Step>, kind: Kind, quota: int,
                                           regime: Regime)
    requires Sane(w) && Balanced(w) && Grounded(w, kind) && WithinQuota(w, kind, start, quota)
    requires ValidRun(w, steps, regime) && regime.logging.OnceEach? && kind in regime.aligned
    requires Ruled(w, Quota(kind), quota)
    requires forall i :: 0 <= i < |steps| ==> EditWithin(steps[i], Quota(kind), quota)
    ensures WithinQuota(Run(w, steps), kind, start, quota)
    decreases |steps|
  {
    if steps != [] {
      SaneStep(w, steps[0], regime);
      BalancedStep(w, steps[0], regime);
      GroundedStep(w, steps[0], kind, regime);
      RuledStep(w, steps[0], Quota(kind), quota);
      WithinQuotaStep(w, steps[0], kind, start, quota, regime);
      QuotaSafetyFrom(start, After(w, steps[0]), steps[1..], kind, quota, regime);
    }
  }

  /**
   * Quota safety. Whatever the order in which listings are read and applied, whenever days
   * and months roll over, however late usage is logged and dated, and however the quota is edited
   * up to `quota`, the usage recorded for the current period plus the grants still to be logged
   * stays within it, or within the usage already there at the start while that period lasts and
   * nothing was granted. Each grant is logged at most once, and no listing counts records of a
   * period after its date.
   */
  lemma QuotaSafety(start: World, steps: seq<Step>, kind: Kind, quota: int, regime: Regime)
    requires Start(start) && ValidRun(start, steps, regime) && EditsWithin(start, steps, Quota(kind), quota)
    requires regime.logging.OnceEach? && kind in regime.aligned
    ensures var w := Run(start, steps);
      && Demand(w, kind) <= Max(quota, Used(start, kind))
      && (w.granted > 0 || Current(w, kind) != Current(start, kind) ==> Demand(w, kind) <= quota)
      && 0 <= w.logged <= w.granted
  {
    BalancedRun(start, steps, regime);
    QuotaSafetyFrom(start, start, steps, kind, quota, regime);
  }

  /** In any run every single grant respects the quota of its own listing, whatever the others say. */
  lemma GrantsRespectListings(start: World, steps: seq<Step>, snap: Snapshot, now: int, kind: Kind, regime: Regime)
    requires Start(start) && ValidRun(start, steps, regime) && regime.logging.OnceEach? && kind in regime.aligned
    requires Allowed(Run(start, steps), Visit(snap, now), regime) && QuotaOf(snap.limits, kind) > 0
    requires After(Run(start, steps), Visit(snap, now)).granted > Run(start, steps).granted
    ensures Demand(After(Run(start, steps), Visit(snap, now)), kind) <= QuotaOf(snap.limits, kind)
  {
    BalancedRun(start, steps, regime);
    GroundedRun(start, steps, kind, regime);
    GrantWithinListing(Run(start, steps), snap, now, kind);
  }

  /** Grant conservation, exact when only this pool's grants are logged, once each. */
  lemma GrantConservation(start: World, steps: seq<Step>, regime: Regime)
    requires Start(start) && ValidRun(start, steps, regime) && regime.logging.OnceEach?
    ensures var w := Run(start, steps);
      w.key.initialized ==> w.key.observed + w.key.pending == |start.log| + w.granted
  {
    BalancedRun(start, steps, regime);
    BaseFixed(start, steps);
  }

  lemma {:induction false} BaseFixed(w: World, steps: seq<Step>)
    ensures Run(w, steps).base == w.base
    decreases |steps|
  {
    if steps != [] { BaseFixed(After(w, steps[0]), steps[1..]); }
  }

  /**
   * The converse of safety: on a listing that has just been read the pool's belief is exact,
   * so a quota refuses a grant only when the demand has reached it.
   */
  lemma FreshListingRefusesOnlyAtQuota(start: World, steps: seq<Step>, now: int, regime: Regime)
    requires Start(start) && ValidRun(start, steps, regime)
    requires regime == Regime(OnceEach, {Daily, Monthly})
    requires var w := Run(start, steps); NoExpiry(w, Visit(TakeSnapshot(w, w.today), now))
    ensures var w := Run(start, steps); var s := TakeSnapshot(w, w.today);
      var k := Checked(w.key, RowOf(s), ClockOf(w, now));
      && k.daily.observed + k.pending == Demand(w, Daily)
      && k.monthly.observed + k.pending == Demand(w, Monthly)
      && (Usable(w.key, RowOf(s), ClockOf(w, now)) <==>
            && (w.limits.maxConcurrency > 0 ==> w.key.active < w.limits.maxConcurrency)
            && (w.limits.rpm > 0 ==> Roll(w.key.window, now, MINUTE).count < w.limits.rpm)
            && (w.limits.dailyQuota > 0 ==> Demand(w, Daily) < w.limits.dailyQuota)
            && (w.limits.monthlyQuota > 0 ==> Demand(w, Monthly) < w.limits.monthlyQuota))
  {
    BalancedRun(start, steps, regime);
    GroundedRun(start, steps, Daily, regime);
    GroundedRun(start, steps, Monthly, regime);
    var w := Run(start, steps);
    var s := TakeSnapshot(w, w.today);
    FreshListingIsExact(w, now, Daily);
    FreshListingIsExact(w, now, Monthly);
    UsableSaid(w.key, RowOf(s), ClockOf(w, now));
  }

  lemma FreshListingIsExact(w: World, now: int, kind: Kind)
    requires Sane(w) && Balanced(w) && Grounded(w, kind) && NoExpiry(w, Visit(TakeSnapshot(w, w.today), now))
    ensures var k := Applied(w, TakeSnapshot(w, w.today), now).key;
      UsageOf(k, kind).observed + k.pending == Demand(w, kind) && k.active == w.key.active
  {
    SnapshotIsConsistent(w, w.today, kind);
    AppliedView(w, TakeSnapshot(w, w.today), now, kind);
  }

  lemma UsableSaid(k: KeyView, row: KeyRow, clock: Clock)
    ensures var c := Checked(k, row, clock);
      Usable(k, row, clock) <==>
        && (row.maxConcurrency > 0 ==> k.active < row.maxConcurrency)
        && (row.rpmLimit > 0 ==> Roll(k.window, clock.now, MINUTE).count < row.rpmLimit)
        && (row.dailyQuota > 0 ==> c.daily.observed + c.pending < row.dailyQuota)
        && (row.monthlyQuota > 0 ==> c.monthly.observed + c.pending < row.monthlyQuota)
  {
  }

  /** With any other logging, by followers or by other processes, nothing granted is forgotten. */
  lemma {:induction false} GrantsNeverForgotten(w: World, steps: seq<Step>, regime: Regime)
    requires Sane(w) && ValidRun(w, steps, regime)
    ensures var w' := Run(w, steps);
      Sane(w') && (w'.key.initialized ==> w'.key.observed + w'.key.pending >= w'.first + w'.granted)
    decreases |steps|
  {
    if steps != [] {
      SaneStep(w, steps[0], regime);
      GrantsNeverForgotten(After(w, steps[0]), steps[1..], regime);
    }
  }

  // ---------- grants per tracked period, however usage is logged and dated ----------

  /** What one listing says of one kind of period, and what the pool holds on to. */
  datatype Figure = Figure(period: int, used: int, total: int)

  function SnapFigure(s: Snapshot, kind: Kind): Figure {
    Figure(SnapPeriod(s, kind), SnapUsed(s, kind), s.total)
  }

  function KeyFigure(k: KeyView, kind: Kind): Figure
    requires UsageOf(k, kind).period.Some?
  {
    Figure(UsageOf(k, kind).period.value, UsageOf(k, kind).observed, k.observed)
  }

  /**
   * The log bears a figure out: what it counts before its period is there, and so is everything it
   * counts up to the end of it.
   */
  ghost predicate Recorded(w: World, kind: Kind, f: Figure) {
    && f.total - f.used <= CountBefore(w.monthOf, w.log, kind, f.period)
    && f.total <= CountBefore(w.monthOf, w.log, kind, f.period + 1)
    && 0 <= f.used
  }

  /** So are the figures of all listings and of the pool. */
  ghost predicate OnRecord(w: World, kind: Kind) {
    && (forall s :: s in w.snaps ==> Recorded(w, kind, SnapFigure(s, kind)))
    && (w.key.initialized ==> UsageOf(w.key, kind).period.Some? && Recorded(w, kind, KeyFigure(w.key, kind)))
  }

  /** Records of earlier periods committed since the first listing of the tracked period was read. */
  ghost function Late(w: World, kind: Kind): int
    requires UsageOf(w.key, kind).period.Some?
  {
    CountBefore(w.monthOf, w.log, kind,
                UsageOf(w.key, kind).period.value) - (TallyOf(w, kind).firstTotal - TallyOf(w, kind).firstUsed)
  }

  ghost predicate TallyHolds(w: World, kind: Kind, quota: int) {
    var t := TallyOf(w, kind);
    w.key.initialized ==>
      && UsageOf(w.key, kind).period.Some?
      && w.key.observed + w.key.pending >= t.firstTotal + t.carried + t.grants
      && Late(w, kind) >= 0
      && (t.grants > 0 ==> t.firstUsed + t.carried + t.grants <= quota + Late(w, kind))
  }

  lemma {:induction false} CountBeforeGrows(monthOf: int -> int, log: seq<int>, kind: Kind, p: int, q: int)
    requires p <= q
    ensures CountBefore(monthOf, log, kind, p) <= CountBefore(monthOf, log, kind, q)
  {
    if log != [] { CountBeforeGrows(monthOf, log[..|log| - 1], kind, p, q); }
  }

  /** The newer period, its higher usage and the higher total are borne out by the log together. */
  lemma MergedIsRecorded(w: World, kind: Kind, f: Figure, g: Figure)
    requires Recorded(w, kind, f) && Recorded(w, kind, g) && f.period <= g.period
    ensures Recorded(w, kind, Figure(g.period, if f.period == g.period then Max(f.used, g.used) else g.used,
                                     Max(f.total, g.total)))
  {
    if f.period < g.period { CountBeforeGrows(w.monthOf, w.log, kind, f.period + 1, g.period); }
    CountBeforeGrows(w.monthOf, w.log, kind, g.period, g.period + 1);
  }

  /** The pool's new figures merge its own with those of the listing. */
  lemma AppliedFigure(w: World, snap: Snapshot, now: int, kind: Kind)
    requires Sane(w) && OnRecord(w, kind) && snap in w.snaps && NoExpiry(w, Visit(snap, now))
    ensures var k := Applied(w, snap, now).key;
      && k.initialized && UsageOf(k, kind).period.Some? && Recorded(w, kind, KeyFigure(k, kind))
      && k.observed >= snap.total
      && (w.key.initialized ==> k.observed + k.pending >= w.key.observed + w.key.pending)
  {
    AppliedView(w, snap, now, kind);
    hide Recorded, Checked;
    assert Recorded(w, kind, SnapFigure(snap, kind));
    if w.key.initialized {
      var f, g := KeyFigure(w.key, kind), SnapFigure(snap, kind);
      if f.period <= g.period { MergedIsRecorded(w, kind, f, g); } else { MergedIsRecorded(w, kind, g, f); }
    }
  }

  lemma AppliedKeepsRecord(w: World, snap: Snapshot, now: int, kind: Kind)
    requires Sane(w) && OnRecord(w, kind) && snap in w.snaps && NoExpiry(w, Visit(snap, now))
    ensures OnRecord(Applied(w, snap, now), kind)
  {
    AppliedFigure(w, snap, now, kind);
    hide Checked, CountBefore, CountIn;
  }

  lemma AppliedKeepsTally(w: World, snap: Snapshot, now: int, kind: Kind, quota: int)
    requires Sane(w) && OnRecord(w, kind) && TallyHolds(w, kind, quota) && snap in w.snaps
    requires NoExpiry(w, Visit(snap, now))
    ensures TallyHolds(Applied(w, snap, now), kind, quota)
  {
    AppliedFigure(w, snap, now, kind);
    AppliedView(w, snap, now, kind);
    assert Recorded(w, kind, SnapFigure(snap, kind));
    hide Checked, CountBefore, CountIn;
  }

  /** A grant within the pool's belief keeps the bound. */
  lemma GrantKeepsTally(w: World, kind: Kind, quota: int)
    requires w.key.initialized && OnRecord(w, kind) && TallyHolds(w, kind, quota)
    requires UsageOf(w.key, kind).observed + w.key.pending < quota
    ensures OnRecord(Grant(w), kind) && TallyHolds(Grant(w), kind, quota)
  {
    hide CountBefore, CountIn;
  }

  /** Time and logging keep every figure on record. */
  lemma StaysRecorded(w: World, step: Step, kind: Kind, f: Figure)
    requires Sane(w) && Enabled(w, step) && !step.Visit? && Recorded(w, kind, f)
    ensures Recorded(After(w, step), kind, f)
    ensures CountBefore(w.monthOf, w.log, kind, f.period) <= CountBefore(w.monthOf, After(w, step).log, kind, f.period)
  {
    UsedStep(w, step, kind);
    if step.Log? { CountAppend(w.monthOf, w.log, kind, step.day); }
  }

  lemma ReadIsRecorded(w: World, day: int, kind: Kind)
    requires Sane(w) && Enabled(w, Read(day)) && Aligned(w, Read(day), kind)
    ensures Recorded(w, kind, SnapFigure(TakeSnapshot(w, day), kind))
  {
    SnapshotIsConsistent(w, day, kind);
    CountsSplit(w.monthOf, w.log, kind, PeriodOf(w.monthOf, kind, day));
  }

  lemma RecordStep(w: World, step: Step, kind: Kind)
    requires Sane(w) && OnRecord(w, kind) && Enabled(w, step) && Aligned(w, step, kind) && !step.Visit?
    ensures OnRecord(After(w, step), kind)
  {
    if step.Read? { ReadIsRecorded(w, step.day, kind); }
    var w' := After(w, step);
    forall s | s in w.snaps ensures Recorded(w', kind, SnapFigure(s, kind)) {
      StaysRecorded(w, step, kind, SnapFigure(s, kind));
    }
    if w.key.initialized { StaysRecorded(w, step, kind, KeyFigure(w.key, kind)); }
  }

  lemma TallyStep(w: World, step: Step, kind: Kind, quota: int)
    requires Sane(w) && OnRecord(w, kind) && TallyHolds(w, kind, quota) && Enabled(w, step) && !step.Visit?
    ensures TallyHolds(After(w, step), kind, quota)
  {
    if w.key.initialized { StaysRecorded(w, step, kind, KeyFigure(w.key, kind)); }
    hide Recorded, OnRecord;
  }

  lemma PeriodStep(w: World, step: Step, kind: Kind, quota: int, regime: Regime)
    requires Sane(w) && OnRecord(w, kind) && TallyHolds(w, kind, quota) && Allowed(w, step, regime)
    requires Ruled(w, Quota(kind), quota) && kind in regime.aligned
    ensures OnRecord(After(w, step), kind) && TallyHolds(After(w, step), kind, quota)
  {
    hide OnRecord, TallyHolds;
    if step.Visit? {
      AppliedKeepsRecord(w, step.snap, step.now, kind);
      AppliedKeepsTally(w, step.snap, step.now, kind, quota);
      AppliedView(w, step.snap, step.now, kind);
      if Usable(w.key, RowOf(step.snap), ClockOf(w, step.now)) {
        UsableRespectsQuota(w, step.snap, step.now, kind);
        GrantKeepsTally(Applied(w, step.snap, step.now), kind, quota);
      }
    } else {
      RecordStep(w, step, kind);
      TallyStep(w, step, kind, quota);
    }
  }

  lemma {:induction false} PeriodRun(w: World, steps: seq<Step>, kind: Kind, quota: int, regime: Regime)
    requires Sane(w) && OnRecord(w, kind) && TallyHolds(w, kind, quota) && ValidRun(w, steps, regime)
    requires Ruled(w, Quota(kind), quota) && kind in regime.aligned
    requires forall i :: 0 <= i < |steps| ==> EditWithin(steps[i], Quota(kind), quota)
    ensures Sane(Run(w, steps)) && OnRecord(Run(w, steps), kind) && TallyHolds(Run(w, steps), kind, quota)
    decreases |steps|
  {
    if steps != [] {
      SaneStep(w, steps[0], regime);
      PeriodStep(w, steps[0], kind, quota, regime);
      RuledStep(w, steps[0], Quota(kind), quota);
      PeriodRun(After(w, steps[0]), steps[1..], kind, quota, regime);
    }
  }

  /**
   * However usage is logged and dated and the quota is edited up to `quota`, the grants made while
   * one period stays tracked are within it less the usage first reported, but for the records of
   * earlier periods that came in after that report; reservations carried over from earlier periods
   * make up for as many of those.
   */
  lemma GrantsPerPeriod(start: World, steps: seq<Step>, kind: Kind, quota: int, regime: Regime)
    requires Start(start) && ValidRun(start, steps, regime) && EditsWithin(start, steps, Quota(kind), quota)
    requires kind in regime.aligned
    ensures var w := Run(start, steps); var t := TallyOf(w, kind);
      w.key.initialized ==>
        && UsageOf(w.key, kind).period.Some? && 0 <= Late(w, kind)
        && (t.grants > 0 ==>
              && t.firstUsed + t.grants + t.carried <= quota + Late(w, kind)
              && (Late(w, kind) <= t.carried ==> t.firstUsed + t.grants <= quota))
  {
    PeriodRun(start, steps, kind, quota, regime);
  }

  // ---------- records dated when they are committed are never late ----------

  ghost predicate Punctual(w: World, kind: Kind) {
    && (forall s :: s in w.snaps ==> OnTime(w, kind, SnapFigure(s, kind).period, s.total - SnapUsed(s, kind)))
    && (w.key.initialized ==>
          && UsageOf(w.key, kind).period.Some?
          && OnTime(w, kind, UsageOf(w.key, kind).period.value,
                    TallyOf(w, kind).firstTotal - TallyOf(w, kind).firstUsed))
  }

  ghost predicate OnTime(w: World, kind: Kind, period: int, before: int) {
    period <= Current(w, kind) && before == CountBefore(w.monthOf, w.log, kind, period)
  }

  lemma StaysOnTime(w: World, step: Step, kind: Kind, period: int, before: int)
    requires Sane(w) && Enabled(w, step) && DatedToday(w, step) && !step.Visit? && OnTime(w, kind, period, before)
    ensures OnTime(After(w, step), kind, period, before)
  {
    UsedStep(w, step, kind);
    if step.Log? { CountAppend(w.monthOf, w.log, kind, step.day); }
  }

  lemma VisitIsPunctual(w: World, snap: Snapshot, now: int, kind: Kind)
    requires Sane(w) && Punctual(w, kind) && snap in w.snaps && NoExpiry(w, Visit(snap, now))
    ensures Punctual(AfterVisit(w, snap, now), kind)
  {
    AppliedView(w, snap, now, kind);
    assert OnTime(w, kind, SnapFigure(snap, kind).period, snap.total - SnapUsed(snap, kind));
    hide Checked, CountBefore, OnTime, Usable;
    forall f: Figure, before | OnTime(w, kind, f.period, before)
      ensures OnTime(AfterVisit(w, snap, now), kind, f.period, before) {
      VisitLeavesLog(w, snap, now, kind, f.period, before);
    }
  }

  lemma VisitLeavesLog(w: World, snap: Snapshot, now: int, kind: Kind, period: int, before: int)
    ensures OnTime(w, kind, period, before) == OnTime(AfterVisit(w, snap, now), kind, period, before)
  {
  }

  lemma PunctualStep(w: World, step: Step, kind: Kind, regime: Regime)
    requires Sane(w) && Punctual(w, kind) && Allowed(w, step, regime)
    requires regime.logging.AnyNumberDatedToday? && kind in regime.aligned
    ensures Punctual(After(w, step), kind)
  {
    hide OnTime;
    if step.Visit? {
      VisitIsPunctual(w, step.snap, step.now, kind);
    } else {
      OthersPunctual(w, step, kind);
    }
  }

  lemma OthersPunctual(w: World, step: Step, kind: Kind)
    requires Sane(w) && Punctual(w, kind) && !step.Visit?
    requires Enabled(w, step) && DatedToday(w, step) && Aligned(w, step, kind)
    ensures Punctual(After(w, step), kind)
  {
    var w' := After(w, step);
    if step.Read? { SnapshotIsConsistent(w, step.day, kind); }
    forall s | s in w.snaps ensures OnTime(w', kind, SnapFigure(s, kind).period, s.total - SnapUsed(s, kind)) {
      StaysOnTime(w, step, kind, SnapFigure(s, kind).period, s.total - SnapUsed(s, kind));
    }
    if w.key.initialized {
      var t := TallyOf(w, kind);
      StaysOnTime(w, step, kind, UsageOf(w.key, kind).period.value, t.firstTotal - t.firstUsed);
    }
  }

  lemma {:induction false} PunctualRun(w: World, steps: seq<Step>, kind: Kind, regime: Regime)
    requires Sane(w) && Punctual(w, kind) && ValidRun(w, steps, regime)
    requires regime.logging.AnyNumberDatedToday? && kind in regime.aligned
    ensures Punctual(Run(w, steps), kind)
    decreases |steps|
  {
    if steps != [] {
      SaneStep(w, steps[0], regime);
      PunctualStep(w, steps[0], kind, regime);
      PunctualRun(After(w, steps[0]), steps[1..], kind, regime);
    }
  }

  /**
   * Where every record carries the date of its commit, none is ever late: the grants of a period
   * stay within the quota, even if followers of a shared search log the same grant several times.
   */
  lemma GrantsPerPeriodDatedToday(start: World, steps: seq<Step>, kind: Kind, quota: int, regime: Regime)
    requires Start(start) && ValidRun(start, steps, regime)
    requires regime.logging.AnyNumberDatedToday? && kind in regime.aligned
    requires EditsWithin(start, steps, Quota(kind), quota)
    ensures var w := Run(start, steps); var t := TallyOf(w, kind);
      w.key.initialized ==>
        && UsageOf(w.key, kind).period.Some? && Late(w, kind) == 0
        && (t.grants > 0 ==> t.firstUsed + t.grants + t.carried <= quota)
  {
    PunctualRun(start, steps, kind, regime);
    GrantsPerPeriod(start, steps, kind, quota, regime);
  }

  // ---------- requests per minute and concurrency ----------

  ghost predicate Paced(w: World, rpm: nat) {
    && Consistent(w.key.window, w.marks, rpm, MINUTE)
    && (forall i :: 0 <= i < |w.marks| ==> w.marks[i].time <= w.clock)
    && w.key.window.start <= w.clock
  }

  lemma AppliedKeepsPaced(w: World, snap: Snapshot, now: int, rpm: nat)
    requires Paced(w, rpm) && w.clock <= now
    ensures Paced(Applied(w, snap, now), rpm)
  {
    RollKeepsConsistent(w.key.window, w.marks, rpm, MINUTE, now);
    hide Consistent;
  }

  lemma GrantKeepsPaced(w: World, rpm: nat)
    requires Paced(w, rpm) && w.key.window.count < rpm && w.clock < w.key.window.start + MINUTE
    ensures Paced(Grant(w), rpm)
  {
    AdmitKeepsConsistent(w.key.window, w.marks, rpm, MINUTE, w.clock);
    hide Consistent;
  }

  lemma PacedStep(w: World, step: Step, rpm: nat, regime: Regime)
    requires Paced(w, rpm) && Ruled(w, PerMinute, rpm) && Allowed(w, step, regime)
    ensures Paced(After(w, step), rpm)
  {
    if step.Visit? {
      AppliedKeepsPaced(w, step.snap, step.now, rpm);
      if Usable(w.key, RowOf(step.snap), ClockOf(w, step.now)) {
        UsableRespectsPace(w, step.snap, step.now);
        GrantKeepsPaced(Applied(w, step.snap, step.now), rpm);
      }
    }
    hide Consistent, Checked, Usable;
  }

  lemma UsableRespectsPace(w: World, snap: Snapshot, now: int)
    requires Usable(w.key, RowOf(snap), ClockOf(w, now)) && w.clock <= now && w.key.window.start <= w.clock
    ensures var k := Applied(w, snap, now).key;
      snap.limits.rpm > 0 ==> k.window.count < snap.limits.rpm && k.window.start <= now < k.window.start + MINUTE
  {
  }

  lemma {:induction false} PacedRun(w: World, steps: seq<Step>, rpm: nat, regime: Regime)
    requires Paced(w, rpm) && Ruled(w, PerMinute, rpm) && ValidRun(w, steps, regime)
    requires forall i :: 0 <= i < |steps| ==> EditWithin(steps[i], PerMinute, rpm)
    ensures Paced(Run(w, steps), rpm)
    decreases |steps|
  {
    if steps != [] {
      PacedStep(w, steps[0], rpm, regime);
      RuledStep(w, steps[0], PerMinute, rpm);
      PacedRun(After(w, steps[0]), steps[1..], rpm, regime);
    }
  }

  /** Any minute whatever holds at most twice the per-minute limit, however it is edited up to `rpm`. */
  lemma GrantsPerMinute(start: World, steps: seq<Step>, rpm: nat, regime: Regime, from: int)
    requires Start(start) && ValidRun(start, steps, regime) && EditsWithin(start, steps, PerMinute, rpm)
    ensures Within(Run(start, steps).marks, from, MINUTE) <= 2 * rpm
  {
    PacedRun(start, steps, rpm, regime);
    SlidingBound(Run(start, steps).marks, from, MINUTE, rpm, rpm);
  }

  lemma CountedStep(w: World, step: Step, most: nat, regime: Regime)
    requires w.key.active <= most && Ruled(w, AtOnce, most) && Allowed(w, step, regime)
    ensures After(w, step).key.active <= most
  {
  }

  /** No more requests are under way at once than the concurrency cap, however it is edited up to `most`. */
  lemma {:induction false} GrantsAtOnce(w: World, steps: seq<Step>, most: nat, regime: Regime)
    requires w.key.active <= most && Ruled(w, AtOnce, most) && ValidRun(w, steps, regime)
    requires forall i :: 0 <= i < |steps| ==> EditWithin(steps[i], AtOnce, most)
    ensures Run(w, steps).key.active <= most
    decreases |steps|
  {
    if steps != [] {
      CountedStep(w, steps[0], most, regime);
      RuledStep(w, steps[0], AtOnce, most);
      GrantsAtOnce(After(w, steps[0]), steps[1..], most, regime);
    }
  }
}
