/**
 * The login limiter: a bounded table of buckets, reserved before the account lookup, counting
 * failures, and locked for a while once a bucket is full.
 */
module LoginLimiter {
  import opened Wrappers
  import opened FixedWindow

  /** `maxAttempts` below zero disables the limiter. */
  datatype Config = Config(maxAttempts: int, maxWindows: nat, window: int, lockout: int)

  datatype Bucket = Bucket(startedAt: int, count: nat, lockedUntil: Option<int>)

  type Table = map<string, Bucket>

  predicate LockedAt(b: Bucket, now: int) { b.lockedUntil.Some? && b.lockedUntil.value > now }

  /** A lock outlives the window of its bucket; without a lock the window decides. */
  predicate Expired(cfg: Config, b: Bucket, now: int) {
    match b.lockedUntil
    case Some(until) => until <= now
    case None => b.startedAt + cfg.window <= now
  }

  function Pruned(cfg: Config, table: Table, now: int): Table {
    map k | k in table && !Expired(cfg, table[k], now) :: table[k]
  }

  /** Whether a key is refused, and the table that leaves; a new key reserves a bucket. */
  function AfterAdmission(cfg: Config, table: Table, key: string, now: int): (Table, bool) {
    if cfg.maxAttempts < 0 then (table, false)
    else
      var t := Pruned(cfg, table, now);
      if key in t then (t, LockedAt(t[key], now))
      else if |t| >= cfg.maxWindows then (t, true)
      else (t[key := Bucket(now, 0, None)], false)
  }

  /** The failures are counted; the bucket that reaches the limit is locked. */
  function Counted(cfg: Config, b: Bucket, now: int): Bucket {
    var b := b.(count := b.count + 1);
    if b.count >= cfg.maxAttempts then b.(lockedUntil := Some(now + cfg.lockout)) else b
  }

  /** Whether a failure is counted at all, by the table after pruning. */
  predicate Counts(cfg: Config, t: Table, key: string, now: int) {
    if key in t then !LockedAt(t[key], now) else |t| < cfg.maxWindows
  }

  function AfterFailure(cfg: Config, table: Table, key: string, now: int): (Table, bool) {
    if cfg.maxAttempts < 0 then (table, false)
    else
      var t := Pruned(cfg, table, now);
      if !Counts(cfg, t, key, now) then (t, true)
      else
        var b := Counted(cfg, if key in t then t[key] else Bucket(now, 0, None), now);
        (t[key := b], b.lockedUntil.Some?)
  }

  /** By what the table says: there is no bucket for the key, or it is locked until some later time. */
  predicate Barred(table: Table, key: string, now: int) {
    key !in table || (table[key].lockedUntil.Some? && now < table[key].lockedUntil.value)
  }

  class AuthService {
    const cfg: Config
    var loginWindows: Table

    /** Zero attempts and nonpositive durations, in minutes times `minute`, use the defaults. */
    constructor (loginMaxAttempts: int, maxLoginWindows: nat, loginWindow: int, loginLockout: int, minute: int)
      requires minute > 0
      ensures loginWindows == map[] && cfg.maxWindows == maxLoginWindows
      ensures cfg.maxAttempts == (if loginMaxAttempts == 0 then 5 else loginMaxAttempts)
      ensures cfg.window == (if loginWindow > 0 then loginWindow else 5 * minute) && cfg.window > 0
      ensures cfg.lockout == (if loginLockout > 0 then loginLockout else 15 * minute) && cfg.lockout > 0
    {
      cfg := Config(if loginMaxAttempts == 0 then 5 else loginMaxAttempts, maxLoginWindows,
                    if loginWindow <= 0 then 5 * minute else loginWindow,
                    if loginLockout <= 0 then 15 * minute else loginLockout);
      loginWindows := map[];
    }

    method PruneLoginWindows(now: int)
      modifies this
      ensures loginWindows == Pruned(cfg, old(loginWindows), now)
    {
      var rest := loginWindows.Keys;
      while rest != {}
        invariant rest <= old(loginWindows).Keys
        invariant loginWindows == map k | k in old(loginWindows)
          && (k in rest || !Expired(cfg, old(loginWindows)[k], now)) :: old(loginWindows)[k]
        decreases rest
      {
        var key :| key in rest;
        rest := rest - {key};
        var window := loginWindows[key];
        if window.lockedUntil.Some? {
          if !(window.lockedUntil.value > now) {
            loginWindows := loginWindows - {key};
          }
        } else if !(window.startedAt + cfg.window > now) {
          loginWindows := loginWindows - {key};
        }
      }
    }

    method LoginLocked(key: string, now: int) returns (locked: bool)
      modifies this
      ensures (loginWindows, locked) == AfterAdmission(cfg, old(loginWindows), key, now)
      // Refused are a key with a live lock and one for which there is no bucket.
      ensures cfg.maxAttempts >= 0 ==> (locked <==> Barred(loginWindows, key, now))
      ensures locked && key !in loginWindows ==> |loginWindows| >= cfg.maxWindows
      ensures cfg.maxAttempts < 0 ==> !locked && loginWindows == old(loginWindows)
    {
      if cfg.maxAttempts < 0 {
        return false;
      }
      PruneLoginWindows(now);
      if key in loginWindows {
        return LockedAt(loginWindows[key], now);
      }
      if |loginWindows| >= cfg.maxWindows {
        return true;
      }
      loginWindows := loginWindows[key := Bucket(now, 0, None)];
      return false;
    }

    method RecordLoginFailure(key: string, now: int) returns (limited: bool)
      modifies this
      ensures (loginWindows, limited) == AfterFailure(cfg, old(loginWindows), key, now)
      ensures cfg.maxAttempts >= 0 && cfg.lockout > 0 ==> (limited <==> Barred(loginWindows, key, now))
      ensures limited && key !in loginWindows ==> |loginWindows| >= cfg.maxWindows
      ensures cfg.maxAttempts < 0 ==> !limited && loginWindows == old(loginWindows)
    {
      if cfg.maxAttempts < 0 {
        return false;
      }
      PruneLoginWindows(now);
      var known := key in loginWindows;
      var window := if known then loginWindows[key] else Bucket(0, 0, None);
      if LockedAt(window, now) || (!known && |loginWindows| >= cfg.maxWindows) {
        return true;
      }
      if !known {
        window := Bucket(now, 0, None);
      }
      window := window.(count := window.count + 1);
      if window.count >= cfg.maxAttempts {
        window := window.(lockedUntil := Some(now + cfg.lockout));
        loginWindows := loginWindows[key := window];
        return true;
      }
      loginWindows := loginWindows[key := window];
      return false;
    }

    /** What a successful login does to the table. */
    method ClearLogin(key: string)
      modifies this
      ensures loginWindows == old(loginWindows) - {key}
    {
      loginWindows := loginWindows - {key};
    }
  }

  // ---------- logins as interleaved steps ----------

  /** A login that was admitted and is at the account lookup or the password check. */
  datatype Flight = Flight(key: string, at: nat)

  /** What the limiter told a login, and how the table stood then. */
  datatype Verdict = Verdict(key: string, refused: bool, table: Table, at: int)

  /**
   * `steps` numbers the steps; `lockedAt` remembers the step that set each lock in the table;
   * `failures` the counted failures of each key since its last success; `verdicts` are the limiter's
   * answers in order.
   */
  datatype World = World(
    cfg: Config, table: Table, now: int, flights: map<nat, Flight>, steps: nat,
    lockedAt: map<string, nat>, failures: map<string, seq<Mark>>, verdicts: seq<Verdict>)

  datatype Step =
    | Attempt(id: nat, key: string, now: int)   // a login asks to be admitted
    | Fail(id: nat, now: int)                   // an admitted login fails its lookup or its password check
    | Succeed(id: nat)                          // an admitted login succeeds
    | Abandon(id: nat)                          // an admitted login ends without a verdict

  predicate Enabled(w: World, step: Step) {
    match step
    case Attempt(id, key, now) => id !in w.flights && w.now <= now
    case Fail(id, now) => id in w.flights && w.now <= now
    case Succeed(id) => id in w.flights
    case Abandon(id) => id in w.flights
  }

  function History(w: World, key: string): seq<Mark> {
    if key in w.failures then w.failures[key] else []
  }

  function BucketOf(t: Table, key: string): Option<Bucket> {
    if key in t then Some(t[key]) else None
  }

  /** The mark of a failure counted at `now`: it belongs to the bucket's window, or to a new one. */
  function MarkOf(t: Table, key: string, now: int): Mark {
    Mark(now, if key in t then t[key].startedAt else now)
  }

  function After(w: World, step: Step): World
    requires Enabled(w, step)
  {
    match step
    case Attempt(id, key, now) =>
      var (table, locked) := AfterAdmission(w.cfg, w.table, key, now);
      w.(steps := w.steps + 1, table := table, now := now,
         verdicts := w.verdicts + [Verdict(key, locked, table, now)],
         flights := if locked then w.flights else w.flights[id := Flight(key, w.steps)])
    case Fail(id, now) =>
      var key := w.flights[id].key;
      var t := Pruned(w.cfg, w.table, now);
      var counted := w.cfg.maxAttempts >= 0 && Counts(w.cfg, t, key, now);
      var (table, limited) := AfterFailure(w.cfg, w.table, key, now);
      w.(steps := w.steps + 1, table := table, now := now,
         verdicts := w.verdicts + [Verdict(key, limited, table, now)],
         flights := w.flights - {id},
         lockedAt := if counted then w.lockedAt[key := w.steps] else w.lockedAt,
         failures := if counted then w.failures[key := History(w, key) + [MarkOf(t, key, now)]] else w.failures)
    case Succeed(id) =>
      var key := w.flights[id].key;
      w.(steps := w.steps + 1, table := w.table - {key}, flights := w.flights - {id}, failures := w.failures - {key})
    case Abandon(id) => w.(steps := w.steps + 1, flights := w.flights - {id})
  }

  predicate ValidRun(w: World, steps: seq<Step>)
    decreases |steps|
  {
    steps == [] || (Enabled(w, steps[0]) && ValidRun(After(w, steps[0]), steps[1..]))
  }

  function Run(w: World, steps: seq<Step>): World
    requires ValidRun(w, steps)
    decreases |steps|
  {
    if steps == [] then w else Run(After(w, steps[0]), steps[1..])
  }

  ghost predicate Start(w: World) {
    && w.table == map[] && w.flights == map[] && w.lockedAt == map[] && w.failures == map[]
    && w.verdicts == []
  }

  // ---------- the table stays within its bound ----------

  lemma SubmapSize(a: Table, b: Table)
    requires a.Keys <= b.Keys
    ensures |a| <= |b|
  {
    SubsetSize(a.Keys, b.Keys);
    assert |a| == |a.Keys| && |b| == |b.Keys|;
  }

  lemma {:induction false} SubsetSize<T>(a: set<T>, b: set<T>)
    requires a <= b
    ensures |a| <= |b|
  {
    if a != {} {
      var x :| x in a;
      SubsetSize(a - {x}, b - {x});
    }
  }

  lemma {:induction false} TableBounded(w: World, steps: seq<Step>)
    requires |w.table| <= w.cfg.maxWindows && ValidRun(w, steps)
    ensures |Run(w, steps).table| <= w.cfg.maxWindows
    decreases |steps|
  {
    if steps != [] {
      TableBoundedStep(w, steps[0]);
      TableBounded(After(w, steps[0]), steps[1..]);
    }
  }

  lemma TableBoundedStep(w: World, step: Step)
    requires |w.table| <= w.cfg.maxWindows && Enabled(w, step)
    ensures |After(w, step).table| <= w.cfg.maxWindows
  {
    if step.Attempt? || step.Fail? { SubmapSize(Pruned(w.cfg, w.table, step.now), w.table); }
    if step.Succeed? { SubmapSize(w.table - {w.flights[step.id].key}, w.table); }
  }

  // ---------- the verdicts ----------

  /** A refusal has a cause in the table, and nobody with such a cause is let through. */
  ghost predicate Justified(cfg: Config, v: Verdict) {
    && (v.refused <==> cfg.maxAttempts >= 0 && Barred(v.table, v.key, v.at))
    && (v.refused && v.key !in v.table ==> |v.table| >= cfg.maxWindows)
  }

  lemma VerdictJustified(w: World, step: Step)
    requires Enabled(w, step) && w.cfg.lockout > 0 && (step.Attempt? || step.Fail?)
    ensures var w' := After(w, step);
      && |w'.verdicts| == |w.verdicts| + 1 && w'.verdicts[..|w.verdicts|] == w.verdicts
      && Justified(w.cfg, w'.verdicts[|w.verdicts|])
      && w'.verdicts[|w.verdicts|].table == w'.table && w'.verdicts[|w.verdicts|].at == w'.now
  {
  }

  /**
   * Over any run: an attempt to log in and a failed login are refused exactly if, as the table is
   * then, the key has no bucket or a live lock; without a bucket only if the table is full; and never
   * if the limiter is disabled.
   */
  lemma {:induction false} VerdictsJustified(w: World, steps: seq<Step>)
    requires ValidRun(w, steps) && w.cfg.lockout > 0
    requires forall i :: 0 <= i < |w.verdicts| ==> Justified(w.cfg, w.verdicts[i])
    ensures var w' := Run(w, steps);
      && forall i :: 0 <= i < |w'.verdicts| ==>
           (w'.verdicts[i].refused <==>
              w.cfg.maxAttempts >= 0 && Barred(w'.verdicts[i].table, w'.verdicts[i].key, w'.verdicts[i].at))
           && (w'.verdicts[i].refused && w'.verdicts[i].key !in w'.verdicts[i].table ==>
                 |w'.verdicts[i].table| >= w.cfg.maxWindows)
    decreases |steps|
  {
    if steps != [] {
      VerdictsStep(w, steps[0]);
      VerdictsJustified(After(w, steps[0]), steps[1..]);
      assert Run(w, steps) == Run(After(w, steps[0]), steps[1..]);
      hide After, Barred;
    }
  }

  lemma VerdictsStep(w: World, step: Step)
    requires Enabled(w, step) && w.cfg.lockout > 0
    requires forall i :: 0 <= i < |w.verdicts| ==> Justified(w.cfg, w.verdicts[i])
    ensures var next := After(w, step);
      next.cfg == w.cfg && forall i :: 0 <= i < |next.verdicts| ==> Justified(w.cfg, next.verdicts[i])
  {
    if step.Attempt? || step.Fail? {
      VerdictJustified(w, step);
      var n, next := |w.verdicts|, After(w, step);
      assert forall i :: 0 <= i < n ==> next.verdicts[i] == next.verdicts[..n][i];
    }
    hide Justified, AfterAdmission, AfterFailure;
  }

  // ---------- a live lock holds ----------

  /** Every login still in flight on a locked key was admitted before the lock was set. */
  ghost predicate LocksLast(w: World) {
    && (w.cfg.maxAttempts >= 0 || w.table == map[])
    && (forall id :: id in w.flights ==> w.flights[id].at < w.steps)
    && (forall k :: k in w.table && w.table[k].lockedUntil.Some? ==> k in w.lockedAt && w.lockedAt[k] < w.steps)
    && (forall id :: id in w.flights && w.flights[id].key in w.table && w.table[w.flights[id].key].lockedUntil.Some? ==>
          w.flights[id].at < w.lockedAt[w.flights[id].key])
  }

  lemma AttemptLocksLast(w: World, id: nat, key: string, now: int)
    requires LocksLast(w) && Enabled(w, Attempt(id, key, now))
    ensures LocksLast(After(w, Attempt(id, key, now)))
  {
  }

  lemma FailLocksLast(w: World, id: nat, now: int)
    requires LocksLast(w) && Enabled(w, Fail(id, now))
    ensures LocksLast(After(w, Fail(id, now)))
  {
  }

  lemma LocksLastStep(w: World, step: Step)
    requires LocksLast(w) && Enabled(w, step)
    ensures LocksLast(After(w, step))
  {
    hide AfterAdmission, AfterFailure, Pruned, Counts;
    match step
    case Attempt(id, key, now) => AttemptLocksLast(w, id, key, now);
    case Fail(id, now) => FailLocksLast(w, id, now);
    case _ =>
  }

  lemma {:induction false} LocksLastRun(w: World, steps: seq<Step>)
    requires LocksLast(w) && ValidRun(w, steps)
    ensures LocksLast(Run(w, steps))
    decreases |steps|
  {
    if steps != [] {
      LocksLastStep(w, steps[0]);
      LocksLastRun(After(w, steps[0]), steps[1..]);
    }
  }

  /** The logins in flight on a key. */
  ghost function On(w: World, key: string): map<nat, Flight> {
    map id | id in w.flights && w.flights[id].key == key :: w.flights[id]
  }

  /** One step leaves a live lock as it is, and admits nobody on its key, unless it is a success on that key. */
  lemma LockHoldsStep(w: World, step: Step, key: string, until: int)
    requires LocksLast(w) && Enabled(w, step) && After(w, step).now < until
    requires key in w.table && w.table[key].lockedUntil == Some(until)
    requires !(step.Succeed? && w.flights[step.id].key == key)
    ensures key in After(w, step).table && After(w, step).table[key] == w.table[key]
    ensures key in After(w, step).lockedAt && key in w.lockedAt && After(w, step).lockedAt[key] == w.lockedAt[key]
    ensures On(After(w, step), key).Items <= On(w, key).Items
    ensures w.verdicts <= After(w, step).verdicts && |After(w, step).verdicts| <= |w.verdicts| + 1
    ensures forall i :: |w.verdicts| <= i < |After(w, step).verdicts| && After(w, step).verdicts[i].key == key ==>
      After(w, step).verdicts[i].refused
  {
  }

  /** Whoever asks on the key is refused. */
  ghost predicate AllRefused(verdicts: seq<Verdict>, from: nat, key: string) {
    forall i :: from <= i < |verdicts| && verdicts[i].key == key ==> verdicts[i].refused
  }

  lemma {:induction false} VerdictsGrow(w: World, steps: seq<Step>)
    requires ValidRun(w, steps)
    ensures w.verdicts <= Run(w, steps).verdicts
    decreases |steps|
  {
    if steps != [] { VerdictsGrow(After(w, steps[0]), steps[1..]); }
  }

  lemma {:induction false} TimeMoves(w: World, steps: seq<Step>)
    requires ValidRun(w, steps)
    ensures w.now <= Run(w, steps).now
    decreases |steps|
  {
    if steps != [] { TimeMoves(After(w, steps[0]), steps[1..]); }
  }

  function LoginOf(w: World, id: nat): Flight {
    if id in w.flights then w.flights[id] else Flight("", w.steps)
  }

  /** The world before step `i` of a run. */
  function WorldAt(w: World, steps: seq<Step>, i: nat): World
    requires ValidRun(w, steps) && i <= |steps|
    decreases i
  {
    if i == 0 then w else WorldAt(After(w, steps[0]), steps[1..], i - 1)
  }

  /**
   * Step `i` is the success, on `key`, of a login that was in flight already at the start of the run:
   * that login, not its id.
   */
  ghost predicate SucceedsEarlier(w: World, steps: seq<Step>, key: string, i: nat)
    requires ValidRun(w, steps) && i < |steps|
  {
    steps[i].Succeed? && (steps[i].id, LoginOf(WorldAt(w, steps, i), steps[i].id)) in On(w, key).Items
  }

  ghost predicate EarlierSuccess(w: World, steps: seq<Step>, key: string)
    requires ValidRun(w, steps)
  {
    exists i :: 0 <= i < |steps| && SucceedsEarlier(w, steps, key, i)
  }

  /**
   * From any point of any run at which a lock is live, and for as long as it is: either its bucket
   * is untouched, no login on its key has been admitted and all were told so, or a login that was admitted before
   * the lock was set has succeeded.
   */
  lemma {:induction false} LiveLockHolds(w: World, steps: seq<Step>, key: string, until: int)
    requires LocksLast(w) && ValidRun(w, steps) && Run(w, steps).now < until
    requires key in w.table && w.table[key].lockedUntil == Some(until)
    ensures var w' := Run(w, steps);
      || (key in w'.table && w'.table[key] == w.table[key] && On(w', key).Items <= On(w, key).Items
          && AllRefused(w'.verdicts, |w.verdicts|, key))
      || EarlierSuccess(w, steps, key)
    ensures key in w.lockedAt && forall id ::
      id in w.flights && w.flights[id].key == key ==> w.flights[id].at < w.lockedAt[key]
    decreases |steps|
  {
    if steps != [] {
      var step, next := steps[0], After(w, steps[0]);
      TimeMoves(next, steps[1..]);
      if !(step.Succeed? && w.flights[step.id].key == key) {
        LocksLastStep(w, step);
        LockHoldsStep(w, step, key, until);
        LiveLockHolds(next, steps[1..], key, until);
        if EarlierSuccess(next, steps[1..], key) {
          var i :| 0 <= i < |steps[1..]| && SucceedsEarlier(next, steps[1..], key, i);
          assert SucceedsEarlier(w, steps, key, i + 1);
        } else {
          VerdictsGrow(next, steps[1..]);
          assert forall i :: |w.verdicts| <= i < |next.verdicts| ==>
            Run(next, steps[1..]).verdicts[i] == next.verdicts[i];
        }
      } else {
        assert SucceedsEarlier(w, steps, key, 0);
      }
    }
  }

  /** The same from the start of a process, with the bound on the table: no attempt slips past a live lock. */
  lemma LoginLimiterSafety(start: World, before: seq<Step>, during: seq<Step>, key: string, until: int)
    requires Start(start) && ValidRun(start, before) && ValidRun(Run(start, before), during)
    requires var w := Run(start, before); key in w.table && w.table[key].lockedUntil == Some(until)
    requires Run(Run(start, before), during).now < until
    ensures var w := Run(start, before); var w' := Run(w, during);
      && |w'.table| <= start.cfg.maxWindows
      && ((key in w'.table && w'.table[key] == w.table[key] && On(w', key).Items <= On(w, key).Items
           && AllRefused(w'.verdicts, |w.verdicts|, key))
          || EarlierSuccess(w, during, key))
      && key in w.lockedAt
        && (forall id :: id in w.flights && w.flights[id].key == key ==> w.flights[id].at < w.lockedAt[key])
  {
    LocksLastRun(start, before);
    ConfigFixed(start, before);
    TableBounded(start, before);
    TableBounded(Run(start, before), during);
    LiveLockHolds(Run(start, before), during, key, until);
  }

  lemma {:induction false} ConfigFixed(w: World, steps: seq<Step>)
    requires ValidRun(w, steps)
    ensures Run(w, steps).cfg == w.cfg
    decreases |steps|
  {
    if steps != [] { ConfigFixed(After(w, steps[0]), steps[1..]); }
  }
}
