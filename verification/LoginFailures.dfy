/**
 * What the login limiter promises of one bucket over a whole run: how many failures it can count
 * in any stretch of time one window long.
 */
module LoginFailures {
  import opened Wrappers
  import opened FixedWindow
  import opened LoginLimiter

  /** A failure that can no longer share a window's length with one counted in a bucket started at `t`. */
  ghost predicate Closed(cfg: Config, h: seq<Mark>, m: Mark, t: int) {
    m.start + cfg.window <= t && (AdmittedBy(h, m.start) >= cfg.maxAttempts ==> m.time + cfg.window <= t)
  }

  /** The failures counted since the last success, by themselves. */
  ghost predicate HistoryKept(cfg: Config, h: seq<Mark>, now: int) {
    && Spaced(h, cfg.window)
    && (forall i :: 0 <= i < |h| ==> h[i].time <= now)
    && (forall s :: AdmittedBy(h, s) <= cfg.maxAttempts)
    && (forall i, j :: 0 <= i < j < |h| && h[i].start != h[j].start ==> Closed(cfg, h, h[i], h[j].start))
  }

  /** The failures together with the bucket they are counted in. */
  ghost predicate BucketKept(cfg: Config, b: Option<Bucket>, h: seq<Mark>, now: int) {
    match b
    case None => forall i :: 0 <= i < |h| ==> Closed(cfg, h, h[i], now)
    case Some(b) =>
      && b.startedAt <= now
      && AdmittedBy(h, b.startedAt) == b.count
      && (forall i :: 0 <= i < |h| ==> h[i].start == b.startedAt || Closed(cfg, h, h[i], b.startedAt))
      && (if b.lockedUntil.None? then b.count < cfg.maxAttempts
          else forall i :: 0 <= i < |h| && h[i].start == b.startedAt ==> h[i].time + cfg.lockout <= b.lockedUntil.value)
  }

  ghost predicate Kept(cfg: Config, b: Option<Bucket>, h: seq<Mark>, now: int) {
    HistoryKept(cfg, h, now) && BucketKept(cfg, b, h, now)
  }

  predicate Limiting(cfg: Config) {
    cfg.maxAttempts > 0 && 0 < cfg.window <= cfg.lockout
  }

  lemma TimePasses(cfg: Config, b: Option<Bucket>, h: seq<Mark>, now: int, later: int)
    requires Kept(cfg, b, h, now) && now <= later
    ensures Kept(cfg, b, h, later)
  {
  }

  /** Pruning an expired bucket closes every failure it counted. */
  lemma ExpiryKeeps(cfg: Config, b: Bucket, h: seq<Mark>, now: int)
    requires Limiting(cfg) && Kept(cfg, Some(b), h, now) && Expired(cfg, b, now)
    ensures Kept(cfg, None, h, now)
  {
  }

  lemma ReserveKeeps(cfg: Config, h: seq<Mark>, now: int)
    requires Limiting(cfg) && Kept(cfg, None, h, now)
    ensures Kept(cfg, Some(Bucket(now, 0, None)), h, now)
  {
    NoneAdmitted(h, now);
  }

  lemma EmptyKeeps(cfg: Config, now: int)
    requires Limiting(cfg)
    ensures Kept(cfg, None, [], now)
  {
  }

  lemma CountKeeps(cfg: Config, b: Bucket, h: seq<Mark>, now: int)
    requires Limiting(cfg) && Kept(cfg, Some(b), h, now)
    requires b.lockedUntil.None? && !Expired(cfg, b, now)
    ensures Kept(cfg, Some(Counted(cfg, b, now)), h + [Mark(now, b.startedAt)], now)
  {
    var m := Mark(now, b.startedAt);
    AppendMark(h, m);
    var g := h + [m];
    forall i, j | 0 <= i < j < |g| && g[i].start != g[j].start ensures Closed(cfg, g, g[i], g[j].start) {
      if j < |h| {
        assert Closed(cfg, h, h[i], h[j].start);
        assert h[j].start == b.startedAt || Closed(cfg, h, h[j], b.startedAt);
      } else {
        assert Closed(cfg, h, h[i], b.startedAt);
      }
    }
  }

  ghost predicate AllKept(w: World) {
    forall k :: Kept(w.cfg, BucketOf(w.table, k), History(w, k), w.now)
  }

  lemma PruneKeeps(w: World, now: int, key: string)
    requires Limiting(w.cfg) && AllKept(w) && w.now <= now
    ensures Kept(w.cfg, BucketOf(Pruned(w.cfg, w.table, now), key), History(w, key), now)
  {
    hide Kept;
    TimePasses(w.cfg, BucketOf(w.table, key), History(w, key), w.now, now);
    if key in w.table && Expired(w.cfg, w.table[key], now) {
      ExpiryKeeps(w.cfg, w.table[key], History(w, key), now);
    }
  }

  lemma FailKeeps(w: World, id: nat, now: int)
    requires Limiting(w.cfg) && AllKept(w) && Enabled(w, Fail(id, now))
    ensures var key := w.flights[id].key; var w' := After(w, Fail(id, now));
      Kept(w.cfg, BucketOf(w'.table, key), History(w', key), now)
  {
    hide Kept;
    var key := w.flights[id].key;
    var t := Pruned(w.cfg, w.table, now);
    PruneKeeps(w, now, key);
    if Counts(w.cfg, t, key, now) {
      if key in t {
        CountKeeps(w.cfg, t[key], History(w, key), now);
      } else {
        ReserveKeeps(w.cfg, History(w, key), now);
        CountKeeps(w.cfg, Bucket(now, 0, None), History(w, key), now);
      }
    }
  }

  lemma AttemptKeeps(w: World, id: nat, key: string, now: int, k: string)
    requires Limiting(w.cfg) && AllKept(w) && Enabled(w, Attempt(id, key, now))
    ensures var w' := After(w, Attempt(id, key, now)); Kept(w.cfg, BucketOf(w'.table, k), History(w', k), now)
  {
    hide Kept, Pruned;
    PruneKeeps(w, now, k);
    if k == key && k !in Pruned(w.cfg, w.table, now) { ReserveKeeps(w.cfg, History(w, k), now); }
  }

  lemma OtherKeeps(w: World, id: nat, now: int, k: string)
    requires Limiting(w.cfg) && AllKept(w) && Enabled(w, Fail(id, now)) && k != w.flights[id].key
    ensures var w' := After(w, Fail(id, now)); Kept(w.cfg, BucketOf(w'.table, k), History(w', k), now)
  {
    hide Kept, Pruned, Counts, Counted;
    PruneKeeps(w, now, k);
    var t, w' := Pruned(w.cfg, w.table, now), After(w, Fail(id, now));
    assert BucketOf(w'.table, k) == BucketOf(t, k) && History(w', k) == History(w, k);
  }

  lemma KeptStep(w: World, step: Step)
    requires Limiting(w.cfg) && AllKept(w) && Enabled(w, step)
    ensures AllKept(After(w, step))
  {
    hide Kept, Pruned, Counts, Counted, AfterAdmission, AfterFailure;
    var w' := After(w, step);
    forall k ensures Kept(w'.cfg, BucketOf(w'.table, k), History(w', k), w'.now) {
      assert Kept(w.cfg, BucketOf(w.table, k), History(w, k), w.now);
      match step {
        case Attempt(id, key, now) => AttemptKeeps(w, id, key, now, k);
        case Fail(id, now) => if k == w.flights[id].key { FailKeeps(w, id, now); } else { OtherKeeps(w, id, now, k); }
        case Succeed(id) => if k == w.flights[id].key { EmptyKeeps(w.cfg, w.now); }
        case Abandon(id) =>
      }
    }
  }

  lemma {:induction false} KeptRun(w: World, steps: seq<Step>)
    requires Limiting(w.cfg) && AllKept(w) && ValidRun(w, steps)
    ensures AllKept(Run(w, steps))
    decreases |steps|
  {
    if steps != [] {
      KeptStep(w, steps[0]);
      KeptRun(After(w, steps[0]), steps[1..]);
    }
  }

  lemma FailureBound(cfg: Config, h: seq<Mark>, now: int, from: int)
    requires Limiting(cfg) && HistoryKept(cfg, h, now)
    ensures Within(h, from, cfg.window) <= 2 * cfg.maxAttempts - 1
  {
    forall i, j | 0 <= i < |h| && 0 <= j < |h| && h[i].start < h[j].start && Inside(h[i], from, cfg.window)
      && Inside(h[j], from, cfg.window)
      ensures AdmittedBy(h, h[i].start) <= cfg.maxAttempts - 1
    {
      if i < j { assert Closed(cfg, h, h[i], h[j].start); }
    }
    SlidingBound(h, from, cfg.window, cfg.maxAttempts - 1, cfg.maxAttempts);
  }

  /** Over any run: between two successes, a key has at most 2 * max - 1 counted failures in any one window's length. */
  lemma FailuresPerWindow(start: World, steps: seq<Step>, key: string, from: int)
    requires Start(start) && Limiting(start.cfg) && ValidRun(start, steps)
    ensures Within(History(Run(start, steps), key), from, start.cfg.window) <= 2 * start.cfg.maxAttempts - 1
  {
    forall k ensures Kept(start.cfg, BucketOf(start.table, k), History(start, k), start.now) {}
    KeptRun(start, steps);
    ConfigFixed(start, steps);
    var w := Run(start, steps);
    assert Kept(w.cfg, BucketOf(w.table, key), History(w, key), w.now);
    FailureBound(w.cfg, History(w, key), w.now, from);
  }

  // ---------- the bound needs the lock to outlast the window ----------

  /** `n` logins on `key` at `now`, each failing before the next one starts. */
  function Failing(key: string, now: int, n: nat): seq<Step> {
    if n == 0 then [] else [Attempt(0, key, now), Fail(0, now)] + Failing(key, now, n - 1)
  }

  /** Nothing is in flight and the table holds just the failures of `key`, `c` of them, all at `now`. */
  ghost predicate Ready(w: World, key: string, now: int, c: nat) {
    && w.flights == map[] && w.now <= now
    && (if c == 0 then Pruned(w.cfg, w.table, now) == map[] else w.table == map[key := Bucket(now, c, None)])
  }

  /** The bucket of `key` is full and locked since `now`. */
  ghost predicate LockedOut(cfg: Config, w: World, key: string, now: int) {
    && cfg.maxAttempts > 0 && w.cfg == cfg && w.flights == map[] && w.now == now
    && w.table == map[key := Bucket(now, cfg.maxAttempts, Some(now + cfg.lockout))]
  }

  lemma AdmittedOnce(w: World, key: string, now: int, c: nat)
    requires Ready(w, key, now, c) && c < w.cfg.maxAttempts && w.cfg.maxWindows > 0 && w.cfg.window > 0
    ensures var v := After(w, Attempt(0, key, now));
      && v.cfg == w.cfg && v.now == now && v.flights.Keys == {0} && v.flights[0].key == key
      && v.table == map[key := Bucket(now, c, None)] && v.failures == w.failures
  {
    if c > 0 { assert Pruned(w.cfg, w.table, now) == w.table; }
  }

  lemma FailOnce(w: World, key: string, now: int, c: nat)
    requires Ready(w, key, now, c) && c < w.cfg.maxAttempts && w.cfg.maxWindows > 0 && w.cfg.window > 0
    ensures Enabled(w, Attempt(0, key, now)) && Enabled(After(w, Attempt(0, key, now)), Fail(0, now))
    ensures var w' := After(After(w, Attempt(0, key, now)), Fail(0, now));
      && w'.cfg == w.cfg && History(w', key) == History(w, key) + [Mark(now, now)]
      && (if c + 1 == w.cfg.maxAttempts then LockedOut(w.cfg, w', key, now) else Ready(w', key, now, c + 1))
  {
    AdmittedOnce(w, key, now, c);
    FailNext(After(w, Attempt(0, key, now)), key, now, c);
  }

  lemma FailNext(v: World, key: string, now: int, c: nat)
    requires v.now == now && v.flights.Keys == {0} && v.flights[0].key == key
      && v.table == map[key := Bucket(now, c, None)]
    requires c < v.cfg.maxAttempts && v.cfg.window > 0
    ensures var w' := After(v, Fail(0, now));
      && w'.cfg == v.cfg && History(w', key) == History(v, key) + [Mark(now, now)]
      && (if c + 1 == v.cfg.maxAttempts then LockedOut(v.cfg, w', key, now) else Ready(w', key, now, c + 1))
  {
    assert Pruned(v.cfg, v.table, now) == v.table;
  }

  lemma TwoSteps(w: World, a: Step, f: Step, rest: seq<Step>)
    requires Enabled(w, a) && Enabled(After(w, a), f) && ValidRun(After(After(w, a), f), rest)
    ensures ValidRun(w, [a, f] + rest) && Run(w, [a, f] + rest) == Run(After(After(w, a), f), rest)
  {
    hide Enabled, After;
    var steps := [a, f] + rest;
    assert steps[1..] == [f] + rest && ([f] + rest)[1..] == rest;
  }

  /** The bucket fills up and locks, whatever is on record already. */
  lemma {:induction false} FailUntilLocked(w: World, key: string, now: int, c: nat, from: int)
    requires Ready(w, key, now, c) && c < w.cfg.maxAttempts && w.cfg.maxWindows > 0 && w.cfg.window > 0
    requires from <= now < from + w.cfg.window
    ensures ValidRun(w, Failing(key, now, w.cfg.maxAttempts - c))
    ensures LockedOut(w.cfg, Run(w, Failing(key, now, w.cfg.maxAttempts - c)), key, now)
    ensures Within(History(Run(w, Failing(key, now, w.cfg.maxAttempts - c)), key), from, w.cfg.window)
         == Within(History(w, key), from, w.cfg.window) + w.cfg.maxAttempts - c
    decreases w.cfg.maxAttempts - c
  {
    hide Ready, LockedOut, Enabled, After, History, Within;
    FailOnce(w, key, now, c);
    AppendMark(History(w, key), Mark(now, now));
    var a, f := Attempt(0, key, now), Fail(0, now);
    if c + 1 < w.cfg.maxAttempts { FailUntilLocked(After(After(w, a), f), key, now, c + 1, from); }
    TwoSteps(w, a, f, Failing(key, now, w.cfg.maxAttempts - c - 1));
  }

  lemma LockRunsOut(cfg: Config, w: World, key: string, now: int)
    requires LockedOut(cfg, w, key, now) && cfg.lockout > 0
    ensures Ready(w, key, now + cfg.lockout, 0)
  {
  }

  /**
   * The bound holds of every run exactly when a lock lasts at least one window: with a shorter
   * lock, a key can fail 2 * max times within one window's length.
   */
  lemma ShortLockoutBreaksBound(start: World, key: string)
    requires Start(start) && start.cfg.maxAttempts > 0 && start.cfg.maxWindows > 0
    requires 0 < start.cfg.lockout < start.cfg.window
    ensures exists steps, from ::
      ValidRun(start, steps)
        && Within(History(Run(start, steps), key), from, start.cfg.window) > 2 * start.cfg.maxAttempts - 1
  {
    hide After, History, ValidRun, Run, Failing;
    var cfg, t := start.cfg, start.now;
    var first, second := Failing(key, t, cfg.maxAttempts), Failing(key, t + cfg.lockout, cfg.maxAttempts);
    FailUntilLocked(start, key, t, 0, t);
    var middle := Run(start, first);
    LockRunsOut(cfg, middle, key, t);
    FailUntilLocked(middle, key, t + cfg.lockout, 0, t);
    RunsJoin(start, first, second);
    assert ValidRun(start, first + second)
      && Within(History(Run(start, first + second), key), t, cfg.window) > 2 * cfg.maxAttempts - 1;
  }

  lemma {:induction false} RunsJoin(w: World, first: seq<Step>, second: seq<Step>)
    requires ValidRun(w, first) && ValidRun(Run(w, first), second)
    ensures ValidRun(w, first + second) && Run(w, first + second) == Run(Run(w, first), second)
    decreases |first|
  {
    if first == [] {
      assert first + second == second;
    } else {
      RunsJoin(After(w, first[0]), first[1..], second);
      assert (first + second)[1..] == first[1..] + second;
    }
  }
}
