/**
 * The per-key state of the key pool: what one visit by `Acquire` does to it.
 * Times are nanoseconds, calendar days and months are ordinal numbers.
 */
module KeyStates {
  import opened Wrappers
  import opened FixedWindow

  const MINUTE := 60 * 1_000_000_000
  const MAX_PENDING_RESERVATION_AGE := 60 * MINUTE

  /** A row of the available-keys listing: the limits of a key and its usage when the query ran. */
  datatype KeyRow = KeyRow(
    id: int, weight: int, rpmLimit: int, dailyQuota: int, monthlyQuota: int, maxConcurrency: int,
    dailyPeriod: Option<int>, dailyUsed: int, monthlyPeriod: Option<int>, monthlyUsed: int,
    usageTotal: int, totalSuccesses: int, totalFailures: int, lastUsedAt: int)

  /** The process clock and the calendar periods it falls in. */
  datatype Clock = Clock(now: int, day: int, month: int)

  /** A quota period and the highest usage seen in it. */
  datatype Usage = Usage(period: Option<int>, observed: int)

  /** The value of a key state. */
  datatype KeyView = KeyView(
    active: nat, window: Window, initialized: bool, observed: int, pending: nat,
    pendingLast: Option<int>, daily: Usage, monthly: Usage)

  function Fresh(now: int): KeyView {
    KeyView(0, Window(now, 0), false, 0, 0, None, Usage(None, 0), Usage(None, 0))
  }

  function NonNegative(value: int): nat {
    if value < 0 then 0 else value
  }

  /** The lifetime total of a listing retires as many reservations as the total advanced. */
  function TotalReconciled(k: KeyView, total: int): KeyView {
    var total := NonNegative(total);
    if !k.initialized then k.(initialized := true, observed := total)
    else if total <= k.observed then k
    else if total - k.observed >= k.pending then k.(observed := total, pending := 0, pendingLast := None)
    else k.(observed := total, pending := k.pending - (total - k.observed))
  }

  function UsageReconciled(u: Usage, next: int, used: int): Usage {
    var used := NonNegative(used);
    if u.period.None? then Usage(Some(next), used)
    else if next == u.period.value then if used > u.observed then u.(observed := used) else u
    else if next < u.period.value then u
    else Usage(Some(next), used)
  }

  /** No request is running and the newest reservation is an hour old: its usage log is lost. */
  predicate ReservationStale(k: KeyView, now: int) {
    k.pending > 0 && k.active == 0 && k.pendingLast.Some? && now - k.pendingLast.value >= MAX_PENDING_RESERVATION_AGE
  }

  function ReservationsExpired(k: KeyView, total: int): KeyView {
    k.(pending := 0, pendingLast := None, initialized := true, observed := NonNegative(total))
  }

  function PeriodOr(period: Option<int>, fallback: int): int {
    match period case Some(p) => p case None => fallback
  }

  function Synced(k: KeyView, row: KeyRow, clock: Clock): KeyView {
    var k := TotalReconciled(k, row.usageTotal);
    var k := if ReservationStale(k, clock.now) then ReservationsExpired(k, row.usageTotal) else k;
    k.(daily := UsageReconciled(k.daily, PeriodOr(row.dailyPeriod, clock.day), row.dailyUsed),
       monthly := UsageReconciled(k.monthly, PeriodOr(row.monthlyPeriod, clock.month), row.monthlyUsed))
  }

  predicate AtConcurrencyCap(k: KeyView, row: KeyRow) {
    row.maxConcurrency > 0 && k.active >= row.maxConcurrency
  }

  /** The state that a visit leaves behind before any grant. */
  function Checked(k: KeyView, row: KeyRow, clock: Clock): KeyView {
    var k := Synced(k, row, clock);
    if !AtConcurrencyCap(k, row) && row.rpmLimit > 0 then k.(window := Roll(k.window, clock.now, MINUTE)) else k
  }

  predicate Usable(k: KeyView, row: KeyRow, clock: Clock) {
    var k := Checked(k, row, clock);
    && !AtConcurrencyCap(k, row)
    && !(row.rpmLimit > 0 && k.window.count >= row.rpmLimit)
    && !(row.dailyQuota > 0 && k.daily.observed + k.pending >= row.dailyQuota)
    && !(row.monthlyQuota > 0 && k.monthly.observed + k.pending >= row.monthlyQuota)
  }

  function Granted(k: KeyView, now: int): KeyView {
    k.(active := k.active + 1, window := k.window.(count := k.window.count + 1),
       pending := k.pending + 1, pendingLast := Some(now))
  }

  function Released(k: KeyView): KeyView {
    if k.active > 0 then k.(active := k.active - 1) else k
  }

  /** A whole visit: a usable key is granted at once. */
  function Visited(k: KeyView, row: KeyRow, clock: Clock): KeyView {
    if Usable(k, row, clock) then Granted(Checked(k, row, clock), clock.now) else Checked(k, row, clock)
  }

  /**
   * What the period reconciliation computes, said without its cases: of all the listings
   * applied so far, the newest period and the highest usage reported for that period.
   */
  ghost predicate NewestPeak(u: Usage, reports: seq<(int, nat)>) {
    && (reports == [] ==> u.period.None?)
    && (reports != [] ==>
          && u.period.Some?
          && (u.period.value, u.observed) in reports
          && (forall r :: r in reports ==> r.0 <= u.period.value)
          && (forall r :: r in reports && r.0 == u.period.value ==> r.1 <= u.observed))
  }

  ghost function UsageAfter(reports: seq<(int, nat)>): Usage {
    if reports == [] then Usage(None, 0)
    else UsageReconciled(UsageAfter(reports[..|reports| - 1]), reports[|reports| - 1].0, reports[|reports| - 1].1)
  }

  lemma {:induction false} UsageAfterIsNewestPeak(reports: seq<(int, nat)>)
    ensures NewestPeak(UsageAfter(reports), reports)
  {
    if reports != [] {
      var older := reports[..|reports| - 1];
      UsageAfterIsNewestPeak(older);
      assert reports == older + [reports[|reports| - 1]];
    }
  }

  /** Listings that arrive in another order lead to the same period and the same usage. */
  lemma UsageOrderIrrelevant(reports: seq<(int, nat)>, shuffled: seq<(int, nat)>)
    requires multiset(reports) == multiset(shuffled)
    ensures UsageAfter(reports) == UsageAfter(shuffled)
  {
    UsageAfterIsNewestPeak(reports);
    UsageAfterIsNewestPeak(shuffled);
    assert forall r :: r in reports <==> r in multiset(reports);
    assert forall r :: r in shuffled <==> r in multiset(shuffled);
  }

  /**
   * What expiry is for: an idle key whose newest reservation is an hour old owes nothing any more, so
   * that the usage reported is all that its quotas count; any other key keeps the reservations that
   * the listing does not retire.
   */
  lemma ExpiryForgives(k: KeyView, row: KeyRow, clock: Clock)
    requires k.initialized
    ensures var left := TotalReconciled(k, row.usageTotal); var c := Checked(k, row, clock);
      if left.pending > 0 && k.active == 0 && left.pendingLast.Some?
         && clock.now - left.pendingLast.value >= 60 * 60 * 1_000_000_000
      then
        && c.pending == 0 && c.pendingLast == None && c.observed == NonNegative(row.usageTotal)
        && (Usable(k, row, clock) <==>
              && (row.rpmLimit > 0 ==> c.window.count < row.rpmLimit)
              && (row.dailyQuota > 0 ==> c.daily.observed < row.dailyQuota)
              && (row.monthlyQuota > 0 ==> c.monthly.observed < row.monthlyQuota))
      else c.pending == left.pending && c.pendingLast == left.pendingLast && c.observed == left.observed
    ensures var c := Checked(k, row, clock);
      && c.daily
         == UsageReconciled(k.daily, if row.dailyPeriod.Some? then row.dailyPeriod.value else clock.day, row.dailyUsed)
      && c.monthly
         == UsageReconciled(k.monthly, if row.monthlyPeriod.Some? then row.monthlyPeriod.value else clock.month,
                            row.monthlyUsed)
  {
  }

  /** A reservation does not expire within an hour of the newest grant, nor while a request is running. */
  lemma GrantsLastAnHour(k: KeyView, granted: int, row: KeyRow, clock: Clock)
    requires k.initialized
    ensures var g := Granted(k, granted);
      && g.pending == k.pending + 1 && g.active == k.active + 1
      && (clock.now - granted < 60 * 60 * 1_000_000_000 ==>
            Checked(Released(g), row, clock).pending == TotalReconciled(g, row.usageTotal).pending)
      && Checked(g, row, clock).pending == TotalReconciled(g, row.usageTotal).pending
  {
  }

  /** The state the pool keeps for one key, updated in place. */
  class KeyState {
    /** The key this is the state of; the map of states is keyed by it. */
    ghost const id: int
    var active: nat
    var windowStart: int
    var windowCount: nat
    var usageInitialized: bool
    var usageObserved: int
    var pendingReservations: nat
    var pendingLast: Option<int>
    var dailyPeriod: Option<int>
    var dailyObserved: int
    var monthlyPeriod: Option<int>
    var monthlyObserved: int

    function View(): KeyView
      reads this
    {
      KeyView(active, Window(windowStart, windowCount), usageInitialized, usageObserved, pendingReservations,
              pendingLast, Usage(dailyPeriod, dailyObserved), Usage(monthlyPeriod, monthlyObserved))
    }

    constructor (ghost id: int, now: int)
      ensures View() == Fresh(now) && this.id == id
    {
      this.id := id;
      active, windowStart, windowCount := 0, now, 0;
      usageInitialized, usageObserved := false, 0;
      pendingReservations, pendingLast := 0, None;
      dailyPeriod, dailyObserved := None, 0;
      monthlyPeriod, monthlyObserved := None, 0;
    }

    method ReconcileReservationSnapshot(total: int)
      modifies this
      ensures View() == TotalReconciled(old(View()), total)
    {
      var snapshot := NonNegative(total);
      if !usageInitialized {
        usageInitialized := true;
        usageObserved := snapshot;
        return;
      }
      if snapshot <= usageObserved {
        return;
      }
      var delta := snapshot - usageObserved;
      usageObserved := snapshot;
      if delta >= pendingReservations {
        pendingReservations := 0;
        pendingLast := None;
        return;
      }
      pendingReservations := pendingReservations - delta;
    }

    method SyncQuotaState(row: KeyRow, clock: Clock)
      modifies this
      ensures View() == Synced(old(View()), row, clock)
    {
      ReconcileReservationSnapshot(row.usageTotal);
      if pendingReservations > 0 && active == 0 && pendingLast.Some?
         && clock.now - pendingLast.value >= MAX_PENDING_RESERVATION_AGE
      {
        pendingReservations := 0;
        pendingLast := None;
        usageInitialized := true;
        usageObserved := NonNegative(row.usageTotal);
      }
      dailyPeriod, dailyObserved :=
        ReconcileUsagePeriod(dailyPeriod, dailyObserved, PeriodOr(row.dailyPeriod, clock.day), row.dailyUsed);
      monthlyPeriod, monthlyObserved :=
        ReconcileUsagePeriod(monthlyPeriod, monthlyObserved, PeriodOr(row.monthlyPeriod, clock.month), row.monthlyUsed);
    }

    method CanUse(row: KeyRow, clock: Clock) returns (ok: bool)
      modifies this
      ensures ok == Usable(old(View()), row, clock)
      ensures View() == Checked(old(View()), row, clock)
      ensures active == old(active)
    {
      SyncQuotaState(row, clock);
      if row.maxConcurrency > 0 && active >= row.maxConcurrency {
        return false;
      }
      if row.rpmLimit > 0 {
        if clock.now - windowStart >= MINUTE {
          windowStart := clock.now;
          windowCount := 0;
        }
        if windowCount >= row.rpmLimit {
          return false;
        }
      }
      if row.dailyQuota > 0 && dailyObserved + pendingReservations >= row.dailyQuota {
        return false;
      }
      if row.monthlyQuota > 0 && monthlyObserved + pendingReservations >= row.monthlyQuota {
        return false;
      }
      return true;
    }

    /** The bookkeeping of a grant, including the quota reservation. */
    method Grant(now: int)
      modifies this
      ensures View() == Granted(old(View()), now)
    {
      active := active + 1;
      windowCount := windowCount + 1;
      pendingReservations := pendingReservations + 1;
      pendingLast := Some(now);
    }
  }

  /** What the source passes by reference, as parameters and results. */
  method ReconcileUsagePeriod(period: Option<int>, observed: int, next: int, currentUsed: int)
      returns (period': Option<int>, observed': int)
    ensures Usage(period', observed') == UsageReconciled(Usage(period, observed), next, currentUsed)
  {
    period', observed' := period, observed;
    var used := NonNegative(currentUsed);
    if period.None? {
      return Some(next), used;
    }
    if next == period.value {
      if used > observed {
        observed' := used;
      }
      return;
    }
    if next < period.value {
      return;
    }
    return Some(next), used;
  }
}
