/** Runs of the quota protocol that reach its bounds: what `QuotaRuns` proves cannot be improved. */
module QuotaWitnesses {
  import opened Wrappers
  import opened FixedWindow
  import opened KeyStates
  import opened QuotaRuns

  /** Any calendar, with two days in different months. */
  datatype Calendar = Calendar(monthOf: int -> int, first: int, next: int) {
    ghost predicate Good() { Monotone(monthOf) && monthOf(first) < monthOf(next) }

    function Period(kind: Kind, day: int): int { PeriodOf(monthOf, kind, day) }
  }

  /** The limits of a key with one quota of the given kind. */
  function OneQuota(kind: Kind, quota: nat): Limits {
    if kind.Daily? then Limits(0, quota, 0, 0) else Limits(0, 0, quota, 0)
  }

  /** `n` records of one day. */
  function Records(day: int, n: nat): seq<int> {
    if n == 0 then [] else Records(day, n - 1) + [day]
  }

  ghost function StartOf(c: Calendar, limits: Limits, log: seq<int>): World {
    World(Fresh(0), limits, c.monthOf, log, c.first, 0, {}, |log|, 0, 0, 0, Tally(0, 0, 0, 0), Tally(0, 0, 0, 0), [])
  }

  lemma {:induction false} CountRecords(monthOf: int -> int, day: int, n: nat, kind: Kind, p: int)
    ensures |Records(day, n)| == n
    ensures CountIn(monthOf, Records(day, n), kind, p) == if p == PeriodOf(monthOf, kind, day) then n else 0
    ensures CountFrom(monthOf, Records(day, n), kind, p) == if p <= PeriodOf(monthOf, kind, day) then n else 0
    ensures CountBefore(monthOf, Records(day, n), kind, p) == if p > PeriodOf(monthOf, kind, day) then n else 0
    ensures forall d :: d in Records(day, n) ==> d == day
  {
    if n > 0 {
      CountRecords(monthOf, day, n - 1, kind, p);
      OneMore(monthOf, Records(day, n - 1), day, kind, p);
      hide CountIn, CountFrom, CountBefore;
    }
  }

  /** A listing dated no earlier than all records is aligned. */
  lemma RecordsAligned(w: World, day: int, today: int)
    requires w.log == Records(day, |w.log|) && day <= today && Monotone(w.monthOf)
    ensures Aligned(w, Read(today), Daily) && Aligned(w, Read(today), Monthly)
  {
    CountRecords(w.monthOf, day, |w.log|, Daily, day);
  }

  lemma OneMore(monthOf: int -> int, older: seq<int>, day: int, kind: Kind, p: int)
    ensures var period, log := PeriodOf(monthOf, kind, day), older + [day];
      && CountIn(monthOf, log, kind, p) == CountIn(monthOf, older, kind, p) + (if p == period then 1 else 0)
      && CountFrom(monthOf, log, kind, p) == CountFrom(monthOf, older, kind, p) + (if p <= period then 1 else 0)
      && CountBefore(monthOf, log, kind, p) == CountBefore(monthOf, older, kind, p) + (if p > period then 1 else 0)
  {
    assert (older + [day])[..|older + [day]| - 1] == older;
  }

  /** Usage is logged in any way; listings are aligned. */
  const ANY := Regime(AnyLogging, {Daily, Monthly})

  /** A run in which no limit is edited. */
  ghost predicate Plain(w: World, steps: seq<Step>, regime: Regime) {
    ValidRun(w, steps, regime) && forall i :: 0 <= i < |steps| ==> !steps[i].SetLimits?
  }

  /** Then every limit stays as it is. */
  lemma PlainIsWithin(w: World, steps: seq<Step>, rule: Rule, regime: Regime)
    requires Plain(w, steps, regime) && LimitOf(w.limits, rule) > 0
    ensures ValidRun(w, steps, regime) && EditsWithin(w, steps, rule, LimitOf(w.limits, rule))
  {
  }

  lemma {:induction false} ExtendRun(w: World, steps: seq<Step>, step: Step, regime: Regime)
    requires Plain(w, steps, regime) && Allowed(Run(w, steps), step, regime) && !step.SetLimits?
    ensures Plain(w, steps + [step], regime)
    ensures Run(w, steps + [step]) == After(Run(w, steps), step)
    decreases |steps|
  {
    if steps == [] {
      assert ([] + [step])[1..] == [];
    } else {
      ExtendRun(After(w, steps[0]), steps[1..], step, regime);
      assert (steps + [step])[1..] == steps[1..] + [step];
    }
  }

  // ---------- a key with one quota, whose usage is all of the first day ----------

  ghost predicate Ready(c: Calendar, w: World, kind: Kind, quota: nat) {
    && quota > 0 && w.limits == OneQuota(kind, quota) && w.monthOf == c.monthOf && c.Good() && w.clock == 0
    && w.log == Records(c.first, |w.log|) && (w.today == c.next || (w.today == c.first && w.log == []))
    && w.key.pendingLast in {None, Some(0)}
    && (!w.key.initialized ==> w.key.pending == 0 && UsageOf(w.key, kind).period.None?)
    && (w.key.initialized ==>
          && 0 <= w.key.observed <= |w.log|
          && UsageOf(w.key, kind).period.Some? && UsageOf(w.key, kind).period.value <= Current(w, kind)
          && UsageOf(w.key, kind).observed == 0)
  }

  /** The reservations left, and the tally, once a fresh listing has been applied. */
  function PendingThen(w: World): nat {
    if !w.key.initialized || w.key.pending <= |w.log| - w.key.observed then 0
    else if w.key.observed <= |w.log| then w.key.pending - (|w.log| - w.key.observed)
    else w.key.pending
  }

  function TallyThen(w: World, kind: Kind): Tally {
    if UsageOf(w.key, kind).period == Some(Current(w, kind)) then TallyOf(w, kind)
    else Tally(0, |w.log|, PendingThen(w), 0)
  }

  /** The world after a fresh listing was applied, and a grant made if there was room. */
  ghost predicate Listed(c: Calendar, w: World, w': World, kind: Kind, quota: nat) {
    var p, t := PendingThen(w), TallyThen(w, kind);
    && Ready(c, w', kind, quota) && w'.today == w.today && w'.log == w.log
    && w'.key.initialized && w'.key.observed == |w.log| && UsageOf(w'.key, kind) == Usage(Some(Current(w, kind)), 0)
    && w'.key.pending == (if p < quota then p + 1 else p)
    && TallyOf(w', kind) == (if p < quota then t.(grants := t.grants + 1) else t)
  }

  /** Today's listing, which has no usage. */
  function FreshOf(w: World): Snapshot {
    Snapshot(w.limits, w.today, 0, w.monthOf(w.today), 0, |w.log|)
  }

  lemma FreshListing(c: Calendar, w: World, kind: Kind, quota: nat)
    requires Ready(c, w, kind, quota)
    ensures TakeSnapshot(w, w.today) == FreshOf(w)
  {
    CountRecords(w.monthOf, c.first, |w.log|, Daily, w.today);
    CountRecords(w.monthOf, c.first, |w.log|, Monthly, w.monthOf(w.today));
  }

  lemma VisitOnFresh(c: Calendar, w: World, kind: Kind, quota: nat)
    requires Ready(c, w, kind, quota)
    ensures var snap := FreshOf(w);
      NoExpiry(w, Visit(snap, 0)) && Listed(c, w, AfterVisit(w, snap, 0), kind, quota)
  {
    var snap := FreshOf(w);
    AppliedFresh(c, w, kind, quota, snap);
    UsableSaid(w.key, RowOf(snap), ClockOf(w, 0));
    assert Usable(w.key, RowOf(snap), ClockOf(w, 0)) <==> PendingThen(w) < quota;
    hide Usable, Applied;
  }

  lemma AppliedFresh(c: Calendar, w: World, kind: Kind, quota: nat, snap: Snapshot)
    requires Ready(c, w, kind, quota) && snap == FreshOf(w)
    ensures NoExpiry(w, Visit(snap, 0))
    ensures var w' := Applied(w, snap, 0);
      && Ready(c, w', kind, quota) && w'.today == w.today && w'.log == w.log && w'.limits == w.limits
      && w'.key.initialized && w'.key.observed == |w.log| && UsageOf(w'.key, kind) == Usage(Some(Current(w, kind)), 0)
      && w'.key.pending == PendingThen(w) && TallyOf(w', kind) == TallyThen(w, kind)
    ensures Checked(w.key, RowOf(snap), ClockOf(w, 0)) == Applied(w, snap, 0).key
  {
  }

  /** Reading today's listing leaves the key ready for it. */
  lemma FreshRead(c: Calendar, w: World, kind: Kind, quota: nat)
    requires Ready(c, w, kind, quota)
    ensures Allowed(w, Read(w.today), ANY)
    ensures var read := After(w, Read(w.today));
      && Ready(c, read, kind, quota)
      && FreshOf(read) == TakeSnapshot(w, w.today) && TakeSnapshot(w, w.today) in read.snaps
      && forall w' :: Listed(c, read, w', kind, quota) ==> Listed(c, w, w', kind, quota)
  {
    FreshListing(c, w, kind, quota);
    RecordsAligned(w, c.first, w.today);
    ReadKeepsReady(c, w, kind, quota);
    hide TakeSnapshot, Records, Ready;
  }

  lemma ReadKeepsReady(c: Calendar, w: World, kind: Kind, quota: nat)
    requires Ready(c, w, kind, quota)
    ensures Ready(c, After(w, Read(w.today)), kind, quota)
  {
    hide TakeSnapshot, Records;
  }

  lemma ListAndVisit(c: Calendar, start: World, steps: seq<Step>, kind: Kind, quota: nat) returns (longer: seq<Step>)
    requires Plain(start, steps, ANY) && Ready(c, Run(start, steps), kind, quota)
    ensures Plain(start, longer, ANY) && Listed(c, Run(start, steps), Run(start, longer), kind, quota)
  {
    var w := Run(start, steps);
    var snap, read := TakeSnapshot(w, w.today), After(w, Read(w.today));
    FreshRead(c, w, kind, quota);
    VisitOnFresh(c, read, kind, quota);
    hide Plain, Run, AfterVisit, Ready, Listed, FreshOf, TakeSnapshot, Aligned;
    ExtendRun(start, steps, Read(w.today), ANY);
    ExtendRun(start, steps + [Read(w.today)], Visit(snap, 0), ANY);
    longer := steps + [Read(w.today)] + [Visit(snap, 0)];
  }

  // ---------- late records are worth exactly as many grants as they outnumber the reservations carried over ----------

  /** The key is up to date on today's listing. */
  ghost predicate UpToDate(c: Calendar, w: World, kind: Kind, quota: nat, today: int, seen: nat, pending: nat,
                           t: Tally) {
    && Ready(c, w, kind, quota) && w.today == today && |w.log| == seen
    && w.key.initialized && w.key.observed == seen && w.key.pending == pending
    && UsageOf(w.key, kind) == Usage(Some(c.Period(kind, today)), 0) && TallyOf(w, kind) == t
  }

  /** Grants are made as long as the quota has room. */
  lemma {:induction false} FillUp(c: Calendar, start: World, steps: seq<Step>, kind: Kind, quota: nat, today: int,
                                  pending: nat, t: Tally, n: nat)
    returns (longer: seq<Step>)
    requires Plain(start, steps, ANY) && UpToDate(c, Run(start, steps), kind, quota, today, 0, pending, t)
    requires pending + n <= quota
    ensures Plain(start, longer, ANY)
    ensures UpToDate(c, Run(start, longer), kind, quota, today, 0, pending + n, t.(grants := t.grants + n))
    decreases n
  {
    longer := steps;
    if n > 0 {
      longer := ListAndVisit(c, start, steps, kind, quota);
      longer := FillUp(c, start, longer, kind, quota, today, pending + 1, t.(grants := t.grants + 1), n - 1);
    }
  }

  /** Each late record retires a reservation, and a grant takes its place. */
  lemma {:induction false} ComeLate(c: Calendar, start: World, steps: seq<Step>, kind: Kind, quota: nat, seen: nat,
                                    t: Tally, n: nat)
    returns (longer: seq<Step>)
    requires Plain(start, steps, ANY) && UpToDate(c, Run(start, steps), kind, quota, c.next, seen, quota, t)
      && quota > 0
    ensures Plain(start, longer, ANY)
    ensures UpToDate(c, Run(start, longer), kind, quota, c.next, seen + n, quota, t.(grants := t.grants + n))
    decreases n
  {
    longer := steps;
    if n > 0 {
      ExtendRun(start, steps, Log(c.first), ANY);
      assert Records(c.first, seen + 1) == Records(c.first, seen) + [c.first];
      longer := ListAndVisit(c, start, steps + [Log(c.first)], kind, quota);
      longer := ComeLate(c, start, longer, kind, quota, seen + 1, t.(grants := t.grants + 1), n - 1);
    }
  }

  /** `carried` grants are made on the first day and none of them is logged on that day. */
  lemma DayZero(c: Calendar, kind: Kind, quota: nat, carried: nat) returns (start: World, steps: seq<Step>)
    requires 0 < quota && carried <= quota && c.Good()
    ensures Start(start) && start.monthOf == c.monthOf && start.limits == OneQuota(kind, quota)
    ensures Plain(start, steps, ANY)
    ensures var w := Run(start, steps);
      && Ready(c, w, kind, quota) && w.today == c.next && w.log == [] && PendingThen(w) == carried
      && TallyThen(w, kind) == Tally(0, 0, carried, 0)
  {
    start := StartOf(c, OneQuota(kind, quota), []);
    steps := [];
    if carried > 0 {
      steps := ListAndVisit(c, start, [], kind, quota);
      steps := FillUp(c, start, steps, kind, quota, c.first, 1, Tally(0, 0, 0, 1), carried - 1);
    }
    ExtendRun(start, steps, NextDay(c.next), ANY);
    steps := steps + [NextDay(c.next)];
  }

  /**
   * The bound on the grants of a period is reached: for every quota, every number of reservations
   * carried over and every number of late records, by a run that makes as many grants as it allows.
   */
  lemma PeriodBoundIsReached(c: Calendar, kind: Kind, quota: nat, carried: nat, late: nat)
    requires 0 < quota && carried <= quota && c.Good()
    ensures exists start: World, steps: seq<Step> ::
      && Start(start) && ValidRun(start, steps, ANY) && EditsWithin(start, steps, Quota(kind), quota)
      && start.monthOf == c.monthOf
      && var w := Run(start, steps);
      && w.key.initialized && UsageOf(w.key, kind).period == Some(c.Period(kind, c.next)) && Late(w, kind) == late
      && TallyOf(w, kind) == Tally(0, 0, carried, quota + late - carried)
  {
    hide Plain, Run, Records, Ready, Late, Start;
    var start, steps := DayZero(c, kind, quota, carried);
    steps := ListAndVisit(c, start, steps, kind, quota);
    var t := Tally(0, 0, carried, 0);
    if carried < quota {
      steps := FillUp(c, start, steps, kind, quota, c.next, carried + 1, t.(grants := 1), quota - carried - 1);
    }
    steps := ComeLate(c, start, steps, kind, quota, 0, t.(grants := quota - carried), late);
    LateThen(c, Run(start, steps), kind, quota, late, t.(grants := quota - carried + late));
    PlainIsWithin(start, steps, Quota(kind), ANY);
    hide EditsWithin;
  }

  lemma LateThen(c: Calendar, w: World, kind: Kind, quota: nat, late: nat, t: Tally)
    requires UpToDate(c, w, kind, quota, c.next, late, quota, t) && t.firstTotal == t.firstUsed
    ensures Late(w, kind) == late
  {
    CountRecords(w.monthOf, c.first, late, kind, c.Period(kind, c.next));
  }

  /** So without the condition on late records a quota is exceeded by any number of grants. */
  lemma LateRecordsExceedQuota(c: Calendar, kind: Kind, quota: nat, carried: nat, n: nat)
    requires 0 < quota && carried <= quota && n >= 1 && c.Good()
    ensures exists start: World, steps: seq<Step> ::
      && Start(start) && ValidRun(start, steps, ANY) && EditsWithin(start, steps, Quota(kind), quota)
      && start.monthOf == c.monthOf
      && var w := Run(start, steps);
      && w.key.initialized && UsageOf(w.key, kind).period == Some(c.Period(kind, c.next))
      && Late(w, kind) - TallyOf(w, kind).carried == n && TallyOf(w, kind).carried == carried
      && TallyOf(w, kind).firstUsed + TallyOf(w, kind).grants == quota + n
  {
    PeriodBoundIsReached(c, kind, quota, carried, carried + n);
  }

  /**
   * The same with a daily quota of one and yesterday's grant logged twice, both times after today's
   * first listing: the first record retires the reservation carried over, the second one today's.
   */
  lemma LateDuplicateExceedsQuota(c: Calendar)
    requires c.Good()
    ensures exists start: World, steps: seq<Step> ::
      && Start(start) && ValidRun(start, steps, ANY) && EditsWithin(start, steps, Quota(Daily), 1)
      && start.monthOf == c.monthOf
      && Run(start, steps).key.daily.period == Some(c.next)
      && Run(start, steps).daily.firstUsed == 0 && Run(start, steps).daily.carried == 1
        && Run(start, steps).daily.grants == 2
  {
    PeriodBoundIsReached(c, Daily, 1, 1, 2);
  }

  // ---------- twice the per-minute limit ----------

  /** A key whose quota was used up on the first day; on the next it has been granted `grants` times. */
  ghost predicate Pacing(c: Calendar, w: World, rpm: nat, snap: Snapshot, grants: nat) {
    && rpm > 0 && w.limits == Limits(rpm, 2 * rpm, 0, 0) && w.clock >= 0
    && snap in w.snaps && snap.limits == w.limits && snap.day == c.next && snap.dayUsed == 0
    && w.key.initialized && snap.total <= w.key.observed && w.key.pending == grants
    && (w.key.pendingLast.Some? ==> w.key.pendingLast.value >= 0)
    && w.key.daily.period.Some? && w.key.daily.period.value <= c.next
    && (w.key.daily.period.value == c.next ==> w.key.daily.observed == 0)
  }

  lemma PacedVisit(c: Calendar, w: World, rpm: nat, snap: Snapshot, grants: nat, now: int)
    requires Pacing(c, w, rpm, snap, grants) && w.clock <= now <= MINUTE && grants < 2 * rpm
    requires Roll(w.key.window, now, MINUTE).count < rpm
    ensures Allowed(w, Visit(snap, now), ANY)
    ensures var w' := AfterVisit(w, snap, now); var window := Roll(w.key.window, now, MINUTE);
      && Pacing(c, w', rpm, snap, grants + 1) && w'.clock == now
      && w'.key.window == window.(count := window.count + 1)
      && w'.marks == w.marks + [Mark(now, window.start)]
  {
  }

  /** As many grants in one instant as the window has room for. */
  lemma {:induction false} Burst(c: Calendar, start: World, steps: seq<Step>, rpm: nat, snap: Snapshot, grants: nat,
                                 now: int, n: nat, from: int)
    returns (longer: seq<Step>)
    requires Plain(start, steps, ANY)
    requires var w := Run(start, steps);
      && Pacing(c, w, rpm, snap, grants) && w.clock <= now <= MINUTE && w.key.window.start <= now
      && Roll(w.key.window, now, MINUTE).count + n <= rpm && grants + n <= 2 * rpm
    requires from <= now < from + MINUTE
    ensures Plain(start, longer, ANY)
    ensures var w, w' := Run(start, steps), Run(start, longer); var window := Roll(w.key.window, now, MINUTE);
      && Pacing(c, w', rpm, snap, grants + n) && w'.clock <= now
      && Within(w'.marks, from, MINUTE) == Within(w.marks, from, MINUTE) + n
      && Roll(w'.key.window, now, MINUTE) == window.(count := window.count + n)
      && (n > 0 ==> w'.key.window.start == window.start)
    decreases n
  {
    longer := steps;
    if n > 0 {
      hide Pacing, Within, Plain, Run;
      var w := Run(start, steps);
      PacedVisit(c, w, rpm, snap, grants, now);
      AppendMark(w.marks, Mark(now, Roll(w.key.window, now, MINUTE).start));
      ExtendRun(start, steps, Visit(snap, now), ANY);
      longer := Burst(c, start, steps + [Visit(snap, now)], rpm, snap, grants + 1, now, n - 1, from);
    }
  }

  /** The key after a refused visit at time 0 of the first day. */
  ghost predicate Refused(c: Calendar, w: World, rpm: nat) {
    && w.limits == Limits(rpm, 2 * rpm, 0, 0) && w.monthOf == c.monthOf && w.log == Records(c.first, 2 * rpm)
    && w.clock == 0 && w.marks == [] && w.today == c.first
    && w.key.initialized && w.key.observed == 2 * rpm && w.key.pending == 0 && w.key.pendingLast == None
    && w.key.window == Window(0, 0) && w.key.daily == Usage(Some(c.first), 2 * rpm)
  }

  /** The day's usage has filled the quota, and a visit at time 0 is refused. */
  lemma RefusedToday(c: Calendar, rpm: nat) returns (start: World, steps: seq<Step>)
    requires rpm > 0 && c.Good()
    ensures Start(start) && start.monthOf == c.monthOf && start.limits == Limits(rpm, 2 * rpm, 0, 0)
    ensures Plain(start, steps, ANY)
    ensures Refused(c, Run(start, steps), rpm)
  {
    hide Plain, Run, CountIn, CountFrom, Records, AfterVisit;
    start := StartOf(c, Limits(rpm, 2 * rpm, 0, 0), Records(c.first, 2 * rpm));
    NoSteps(start);
    CountRecords(start.monthOf, c.first, 2 * rpm, Daily, c.first);
    var snap := TakeSnapshot(start, start.today);
    RecordsAligned(start, c.first, c.first);
    ExtendRun(start, [], Read(c.first), ANY);
    RefusedVisit(c, After(start, Read(c.first)), rpm, snap);
    ExtendRun(start, [] + [Read(c.first)], Visit(snap, 0), ANY);
    steps := [] + [Read(c.first)] + [Visit(snap, 0)];
  }

  /** Then the day changes. */
  lemma RefusedFirst(c: Calendar, rpm: nat) returns (start: World, steps: seq<Step>, snap: Snapshot)
    requires rpm > 0 && c.Good()
    ensures Start(start) && start.monthOf == c.monthOf && start.limits == Limits(rpm, 2 * rpm, 0, 0)
    ensures Plain(start, steps, ANY)
    ensures var w := Run(start, steps);
      Pacing(c, w, rpm, snap, 0) && w.clock == 0 && w.key.window == Window(0, 0) && w.marks == []
  {
    hide Plain, Run, CountIn, CountFrom, Records, Start;
    start, steps := RefusedToday(c, rpm);
    var refused := Run(start, steps);
    ExtendRun(start, steps, NextDay(c.next), ANY);
    var next := After(refused, NextDay(c.next));
    CountRecords(next.monthOf, c.first, 2 * rpm, Daily, c.next);
    RecordsAligned(next, c.first, c.next);
    ExtendRun(start, steps + [NextDay(c.next)], Read(c.next), ANY);
    steps := steps + [NextDay(c.next)] + [Read(c.next)];
    snap := TakeSnapshot(next, next.today);
  }

  lemma NoSteps(w: World)
    ensures Run(w, []) == w && Plain(w, [], ANY)
  {
  }

  lemma RefusedVisit(c: Calendar, w: World, rpm: nat, snap: Snapshot)
    requires rpm > 0 && snap.limits == Limits(rpm, 2 * rpm, 0, 0) && w.key == Fresh(0) && snap.day == c.first
      && snap.dayUsed == 2 * rpm
    ensures NoExpiry(w, Visit(snap, 0))
    ensures var w' := AfterVisit(w, snap, 0);
      && w'.key.window == Window(0, 0) && w'.marks == w.marks && w'.clock == 0 && w'.log == w.log
        && w'.monthOf == w.monthOf
      && w'.limits == w.limits && w'.snaps == w.snaps && w'.today == w.today
      && w'.key.initialized && w'.key.observed == snap.total && w'.key.pending == 0 && w'.key.pendingLast == None
      && w'.key.daily == Usage(Some(c.first), 2 * rpm)
  {
  }

  /**
   * Twice the per-minute limit is reached for every limit: half of it at the end of one window, half at
   * the start of the next.
   */
  lemma MinuteBoundIsReached(c: Calendar, rpm: nat)
    requires rpm > 0 && c.Good()
    ensures exists start: World, steps: seq<Step>, from: int ::
      && Start(start) && ValidRun(start, steps, ANY) && EditsWithin(start, steps, PerMinute, rpm)
      && start.monthOf == c.monthOf
      && Within(Run(start, steps).marks, from, MINUTE) == 2 * rpm
  {
    var from := MINUTE - 1;
    var start, steps, snap := RefusedFirst(c, rpm);
    hide Plain, Run, Start, Pacing;
    assert Within([], from, MINUTE) == 0;
    steps := Burst(c, start, steps, rpm, snap, 0, from, rpm, from);
    steps := Burst(c, start, steps, rpm, snap, rpm, MINUTE, rpm, from);
    assert Within(Run(start, steps).marks, from, MINUTE) == 2 * rpm;
    PlainIsWithin(start, steps, PerMinute, ANY);
    hide EditsWithin;
  }

  // ---------- listings dated before their data ----------

  /** Each grant is logged once, but listings may count records of later days. */
  const MISDATED := Regime(OnceEach, {})

  /** The key has been granted on the second day and `n` of its grants, all but the last, are logged. */
  ghost predicate Misled(c: Calendar, w: World, kind: Kind, quota: nat, n: nat) {
    && quota > 0 && c.Good() && w.limits == OneQuota(kind, quota) && w.monthOf == c.monthOf && w.clock == 0
    && w.today == c.next && w.log == Records(c.next, n) && |w.log| == n && w.granted == n + 1 && w.logged == n
    && w.key.initialized && w.key.observed == n && w.key.pending == 1 && w.key.pendingLast == Some(0)
    && UsageOf(w.key, kind) == Usage(Some(c.Period(kind, c.next)), 0)
  }

  /** The first grant, on a listing of its own day. */
  lemma MisledOnce(c: Calendar, kind: Kind, quota: nat) returns (start: World, steps: seq<Step>)
    requires quota > 0 && c.Good()
    ensures Start(start) && start.limits == OneQuota(kind, quota) && start.monthOf == c.monthOf && start.log == []
    ensures start.today == c.first && Plain(start, steps, MISDATED) && Misled(c, Run(start, steps), kind, quota, 0)
  {
    start := StartOf(c, OneQuota(kind, quota), []);
    assert Plain(start, [], MISDATED);
    ExtendRun(start, [], NextDay(c.next), MISDATED);
    ExtendRun(start, [] + [NextDay(c.next)], Read(c.next), MISDATED);
    var listed := Run(start, [] + [NextDay(c.next)] + [Read(c.next)]);
    var snap := Snapshot(start.limits, c.next, 0, c.monthOf(c.next), 0, 0);
    assert snap in listed.snaps;
    ExtendRun(start, [] + [NextDay(c.next)] + [Read(c.next)], Visit(snap, 0), MISDATED);
    steps := [] + [NextDay(c.next)] + [Read(c.next)] + [Visit(snap, 0)];
  }

  /** A listing that is dated the day before counts the record but not its use of today's quota. */
  lemma MisdatedVisit(c: Calendar, w: World, kind: Kind, quota: nat, n: nat, snap: Snapshot)
    requires quota > 0 && c.Good() && w.limits == OneQuota(kind, quota) && w.clock == 0
    requires w.key.initialized && w.key.observed == n && w.key.pending == 1 && w.key.pendingLast == Some(0)
    requires UsageOf(w.key, kind) == Usage(Some(c.Period(kind, c.next)), 0)
    requires snap.limits == w.limits && SnapPeriod(snap, kind) == c.Period(kind, c.first) && snap.total == n + 1
    ensures NoExpiry(w, Visit(snap, 0))
    ensures var w' := AfterVisit(w, snap, 0);
      && w'.granted == w.granted + 1 && w'.clock == 0 && w'.limits == w.limits && w'.monthOf == w.monthOf
      && w'.today == w.today && w'.log == w.log && w'.logged == w.logged
      && w'.key.initialized && w'.key.observed == n + 1 && w'.key.pending == 1 && w'.key.pendingLast == Some(0)
      && UsageOf(w'.key, kind) == Usage(Some(c.Period(kind, c.next)), 0)
  {
  }

  /** One more record, a listing that misdates it, and a grant on that listing. */
  lemma MisledStep(c: Calendar, w: World, kind: Kind, quota: nat, n: nat) returns (snap: Snapshot)
    requires Misled(c, w, kind, quota, n)
    ensures var logged := After(w, Log(c.next)); var read := After(logged, Read(c.first));
      && Allowed(w, Log(c.next), MISDATED) && Allowed(logged, Read(c.first), MISDATED)
      && Allowed(read, Visit(snap, 0), MISDATED) && Misled(c, After(read, Visit(snap, 0)), kind, quota, n + 1)
  {
    var logged := After(w, Log(c.next));
    snap := TakeSnapshot(logged, c.first);
    CountRecords(c.monthOf, c.next, n + 1, Daily, 0);
    assert Records(c.next, n + 1) == Records(c.next, n) + [c.next];
    MisdatedVisit(c, After(logged, Read(c.first)), kind, quota, n, snap);
    hide AfterVisit, CountIn, CountFrom, Records;
  }

  lemma {:induction false} MisledOn(c: Calendar, start: World, steps: seq<Step>, kind: Kind, quota: nat, n: nat,
                                    more: nat)
    returns (longer: seq<Step>)
    requires Plain(start, steps, MISDATED) && Misled(c, Run(start, steps), kind, quota, n)
    ensures Plain(start, longer, MISDATED) && Misled(c, Run(start, longer), kind, quota, n + more)
    decreases more
  {
    longer := steps;
    if more > 0 {
      var w := Run(start, steps);
      var snap := MisledStep(c, w, kind, quota, n);
      hide Plain, Run, Misled, Allowed, After;
      ExtendRun(start, steps, Log(c.next), MISDATED);
      ExtendRun(start, steps + [Log(c.next)], Read(c.first), MISDATED);
      ExtendRun(start, steps + [Log(c.next)] + [Read(c.first)], Visit(snap, 0), MISDATED);
      longer := steps + [Log(c.next)] + [Read(c.first)] + [Visit(snap, 0)];
      longer := MisledOn(c, start, longer, kind, quota, n + 1, more - 1);
    }
  }

  /**
   * Without aligned listings every quota is exceeded by any number, though each grant is logged
   * once and on its own day: a listing begun before midnight counts a record of the new day in its
   * total, which retires the reservation, and not in the usage of the new day.
   */
  lemma MisdatedListingsExceedQuota(c: Calendar, kind: Kind, quota: nat, n: nat)
    requires quota > 0 && n > 0 && c.Good()
    ensures exists start: World, steps: seq<Step> ::
      && Start(start) && ValidRun(start, steps, MISDATED) && EditsWithin(start, steps, Quota(kind), quota)
      && start.monthOf == c.monthOf && start.log == []
      && Demand(Run(start, steps), kind) == quota + n
  {
    hide Plain, Run, Start, EditsWithin;
    var start, steps := MisledOnce(c, kind, quota);
    steps := MisledOn(c, start, steps, kind, quota, 0, quota + n - 1);
    CountRecords(c.monthOf, c.next, quota + n - 1, kind, c.Period(kind, c.next));
    PlainIsWithin(start, steps, Quota(kind), MISDATED);
  }
}
