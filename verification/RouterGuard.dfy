/**
 * The navigation guard of the admin pages and the recovery of an expired session, on top of the
 * session store's probes.
 */
module RouterGuard {
  import opened Wrappers
  import opened SessionProbe

  datatype Route = Route(fullPath: string, isPublic: bool, matched: bool, redirectQuery: string)

  datatype Decision = Cancelled | ToLogin(redirect: string) | Redirected(path: string) | Admitted

  /** A navigation waits for its first probe, then possibly for one more, and is decided once. */
  datatype Phase = First(promise: nat) | Second(promise: nat) | Decided(decision: Decision)

  datatype Navigation = Navigation(to: Route, phase: Phase)

  datatype Recovery = Recovery(revision: nat, target: string)

  /** Navigations are known by their attempt number; `recoveries` holds the unsettled recoveries. */
  datatype Guard = Guard(
    session: Session, guardAttempt: nat, navigations: map<nat, Navigation>,
    pendingRecovery: Option<Pending>, recoveries: map<nat, Recovery>, promises: nat)

  /** `loginRedirect` validates a return target; `loginPath` writes the login page's path with or without one. */
  datatype Routes = Routes(loginRedirect: string -> string, loginPath: Option<string> -> string)

  function Begun(g: Guard, to: Route): Guard {
    g.(session := Checked(g.session), guardAttempt := g.guardAttempt + 1,
       navigations := g.navigations[g.guardAttempt + 1 := Navigation(to, First(CheckPromise(g.session)))])
  }

  /** What a current, newest navigation comes to, given the status of its probe. */
  function Decide(to: Route, status: Status, routes: Routes): Decision {
    if status == Unknown then Cancelled
    else if !to.isPublic && status == Anonymous then ToLogin(routes.loginRedirect(to.fullPath))
    else if to.isPublic && status == Authenticated then Redirected(routes.loginRedirect(to.redirectQuery))
    else if !to.matched then Redirected("/playground")
    else Admitted
  }

  predicate CanResume(g: Guard, attempt: nat) {
    attempt in g.navigations &&
      match g.navigations[attempt].phase
      case First(p) => p in g.session.results
      case Second(p) => p in g.session.results
      case Decided(_) => false
  }

  function PromiseOf(g: Guard, attempt: nat): nat
    requires CanResume(g, attempt)
  {
    g.navigations[attempt].phase.promise
  }

  function WithPhase(g: Guard, attempt: nat, phase: Phase): Guard
    requires attempt in g.navigations
  {
    g.(navigations := g.navigations[attempt := g.navigations[attempt].(phase := phase)])
  }

  function Resumed(g: Guard, attempt: nat, routes: Routes): Guard
    requires CanResume(g, attempt)
  {
    var nav, result := g.navigations[attempt], g.session.results[PromiseOf(g, attempt)];
    if attempt != g.guardAttempt then WithPhase(g, attempt, Decided(Cancelled))
    else if result.revision == g.session.revision then
      var g' := WithPhase(g, attempt, Decided(Decide(nav.to, result.status, routes)));
      if result.status == Unknown then g'.(session := g.session.(retryTarget := nav.to.fullPath)) else g'
    else if nav.phase.First? then WithPhase(g, attempt, Second(CheckPromise(g.session))).(session := Checked(g.session))
    else WithPhase(g, attempt, Decided(Cancelled))
  }

  /** Whether a report of an expired session, or a logout, is acted upon. */
  predicate Recovers(g: Guard, requestRevision: nat, explicitLogout: bool, route: Route) {
    requestRevision == g.session.revision && (explicitLogout || !route.isPublic)
  }

  function Rechecked(g: Guard, requestRevision: nat, explicitLogout: bool, route: Route, routes: Routes): Guard {
    if !Recovers(g, requestRevision, explicitLogout, route)
      || (g.pendingRecovery.Some? && g.pendingRecovery.value.revision == requestRevision) then g
    else
      var target := routes.loginPath(if explicitLogout then None else Some(routes.loginRedirect(route.fullPath)));
      g.(pendingRecovery := Some(Pending(requestRevision, g.promises)), promises := g.promises + 1,
         recoveries := g.recoveries[g.promises := Recovery(requestRevision, target)])
  }

  /** The navigation of a recovery has ended, by itself or with an error. */
  function RecoveryEnded(g: Guard, promise: nat, failure: Option<string>): Guard
    requires promise in g.recoveries
  {
    var r := g.recoveries[promise];
    g.(session := if failure.Some? && r.revision == g.session.revision then
                    g.session.(error := Message(failure.value), retryTarget := r.target)
                  else g.session,
       pendingRecovery := if g.pendingRecovery.Some? && g.pendingRecovery.value.promise == promise then None
         else g.pendingRecovery,
       recoveries := g.recoveries - {promise})
  }

  class Router {
    const session: SessionStore
    const routes: Routes
    var guardAttempt: nat
    var navigations: map<nat, Navigation>
    var pendingRecovery: Option<Pending>
    var recoveries: map<nat, Recovery>
    var promises: nat

    function View(): Guard
      reads this, session
    {
      Guard(session.View(), guardAttempt, navigations, pendingRecovery, recoveries, promises)
    }

    constructor (session: SessionStore, routes: Routes)
      ensures this.session == session && this.routes == routes
      ensures View() == Guard(session.View(), 0, map[], None, map[], 0)
    {
      this.session, this.routes := session, routes;
      guardAttempt, navigations, pendingRecovery, recoveries, promises := 0, map[], None, map[], 0;
    }

    /** The guard up to its first wait. */
    method BeforeEach(to: Route) returns (attempt: nat)
      modifies this, session
      ensures View() == Begun(old(View()), to) && attempt == guardAttempt
    {
      guardAttempt := guardAttempt + 1;
      attempt := guardAttempt;
      var promise := session.Check();
      navigations := navigations[attempt := Navigation(to, First(promise))];
    }

    /** The guard from a wait on, to the next one or to its decision. */
    method Resume(attempt: nat)
      requires CanResume(View(), attempt)
      modifies this, session
      ensures View() == Resumed(old(View()), attempt, routes)
    {
      var nav := navigations[attempt];
      var result := session.results[nav.phase.promise];
      var to := nav.to;
      var decision := Admitted;
      if attempt != guardAttempt {
        navigations := navigations[attempt := nav.(phase := Decided(Cancelled))];
        return;
      }
      if result.revision != session.revision {
        if nav.phase.First? {
          var promise := session.Check();
          navigations := navigations[attempt := nav.(phase := Second(promise))];
        } else {
          navigations := navigations[attempt := nav.(phase := Decided(Cancelled))];
        }
        return;
      }
      if result.status == Unknown {
        session.retryTarget := to.fullPath;
        decision := Cancelled;
      } else if !to.isPublic && result.status == Anonymous {
        decision := ToLogin(routes.loginRedirect(to.fullPath));
      } else if to.isPublic && result.status == Authenticated {
        decision := Redirected(routes.loginRedirect(to.redirectQuery));
      } else if !to.matched {
        decision := Redirected("/playground");
      }
      navigations := navigations[attempt := nav.(phase := Decided(decision))];
    }

    method RecheckSession(requestRevision: nat, explicitLogout: bool, route: Route) returns (promise: Option<nat>)
      modifies this
      ensures View() == Rechecked(old(View()), requestRevision, explicitLogout, route, routes)
      ensures promise.Some? <==> Recovers(old(View()), requestRevision, explicitLogout, route)
      ensures promise.Some? ==> pendingRecovery == Some(Pending(requestRevision, promise.value))
    {
      if requestRevision != session.revision || (!explicitLogout && route.isPublic) {
        return None;
      }
      if pendingRecovery.Some? && pendingRecovery.value.revision == requestRevision {
        return Some(pendingRecovery.value.promise);
      }
      var target := routes.loginPath(if explicitLogout then None else Some(routes.loginRedirect(route.fullPath)));
      promise := Some(promises);
      recoveries := recoveries[promises := Recovery(requestRevision, target)];
      pendingRecovery := Some(Pending(requestRevision, promises));
      promises := promises + 1;
    }

    method EndRecovery(promise: nat, failure: Option<string>)
      requires promise in recoveries
      modifies this, session
      ensures View() == RecoveryEnded(old(View()), promise, failure)
    {
      var r := recoveries[promise];
      if failure.Some? && r.revision == session.revision {
        session.error := if failure.value != "" then failure.value else UNCONFIRMED;
        session.retryTarget := r.target;
      }
      if pendingRecovery.Some? && pendingRecovery.value.promise == promise {
        pendingRecovery := None;
      }
      recoveries := recoveries - {promise};
    }
  }

  // ---------- any interleaving ----------

  datatype Event =
    | Store(step: SessionProbe.Step)   // a revision advance, a check or the end of a probe
    | Begin(to: Route)
    | Continue(attempt: nat)
    | Expired(requestRevision: nat, explicitLogout: bool, route: Route)
    | End(promise: nat, failure: Option<string>)

  /** How things stood when a navigation was admitted; `begun` and `settled` number the events. */
  datatype Admission = Admission(attempt: nat, newest: nat, to: Route, result: SessionCheck, answer: Option<Answer>,
                                 revision: nat, begun: nat, settled: nat)

  /** The guard with a record of its past: when each navigation began and each probe settled, and the answer it got. */
  datatype World = World(guard: Guard, events: nat, begunAt: map<nat, nat>, settledAt: map<nat, nat>,
                         answers: map<nat, Answer>, admissions: seq<Admission>)

  predicate Enabled(w: World, event: Event) {
    match event
    case Store(step) => SessionProbe.Enabled(w.guard.session, step)
    case Begin(_) => true
    case Continue(attempt) => CanResume(w.guard, attempt)
    case Expired(_, _, _) => true
    case End(promise, _) => promise in w.guard.recoveries
  }

  function GuardAfter(g: Guard, event: Event, routes: Routes): Guard
    requires match event
      case Store(step) => SessionProbe.Enabled(g.session, step)
      case Continue(attempt) => CanResume(g, attempt)
      case End(promise, _) => promise in g.recoveries
      case _ => true
  {
    match event
    case Store(step) => g.(session := SessionProbe.After(g.session, step))
    case Begin(to) => Begun(g, to)
    case Continue(attempt) => Resumed(g, attempt, routes)
    case Expired(revision, explicitLogout, route) => Rechecked(g, revision, explicitLogout, route, routes)
    case End(promise, failure) => RecoveryEnded(g, promise, failure)
  }

  function NumberOf(numbers: map<nat, nat>, k: nat, unknown: nat): nat {
    if k in numbers then numbers[k] else unknown
  }

  function AnswerTo(answers: map<nat, Answer>, promise: nat): Option<Answer> {
    if promise in answers then Some(answers[promise]) else None
  }

  function After(w: World, event: Event, routes: Routes): World
    requires Enabled(w, event)
  {
    var g, g' := w.guard, GuardAfter(w.guard, event, routes);
    World(g', w.events + 1,
          if event.Begin? then w.begunAt[g'.guardAttempt := w.events] else w.begunAt,
          if event.Store? && event.step.Settle? then w.settledAt[event.step.promise := w.events] else w.settledAt,
          if event.Store? && event.step.Settle? then w.answers[event.step.promise := event.step.answer] else w.answers,
          if event.Continue? && g'.navigations[event.attempt].phase == Decided(Admitted) then
            var p := PromiseOf(g, event.attempt);
            w.admissions
              + [Admission(event.attempt, g.guardAttempt, g.navigations[event.attempt].to, g.session.results[p],
                           AnswerTo(w.answers, p), g.session.revision, NumberOf(w.begunAt, event.attempt, w.events),
                                      NumberOf(w.settledAt, p, 0))]
          else w.admissions)
  }

  /** The slot holds the one recovery of the current revision that is still under way, if any. */
  ghost predicate RecoveriesKept(pending: Option<Pending>, recoveries: map<nat, Recovery>, promises: nat,
                                 revision: nat) {
    && (pending.Some? ==>
        pending.value.promise in recoveries && recoveries[pending.value.promise].revision == pending.value.revision)
    && (forall p :: p in recoveries ==> p < promises && recoveries[p].revision <= revision)
    && (forall p :: p in recoveries && recoveries[p].revision == revision ==> pending == Some(Pending(revision, p)))
    && (forall p, q :: p in recoveries && q in recoveries && recoveries[p].revision == recoveries[q].revision ==>
      p == q)
  }

  ghost predicate GuardKept(g: Guard) {
    && Kept(g.session)
    && (forall n :: n in g.navigations ==> n <= g.guardAttempt)
    && RecoveriesKept(g.pendingRecovery, g.recoveries, g.promises, g.session.revision)
  }

  /** A navigation waits for a probe that was unsettled when the navigation began. */
  ghost predicate Waits(w: World, n: nat)
    requires n in w.guard.navigations
  {
    w.guard.navigations[n].phase.Decided? ||
      var p := w.guard.navigations[n].phase.promise;
      n in w.begunAt && w.begunAt[n] < w.events &&
        if p in w.settledAt then p in w.guard.session.results
          && w.begunAt[n] < w.settledAt[p] else p in w.guard.session.live
  }

  /** An admission to a protected page: the newest navigation, on a current, authenticated and fresh answer. */
  ghost predicate Sound(a: Admission) {
    && a.attempt == a.newest && a.result.revision == a.revision && a.begun < a.settled
    && a.result.status == (if a.to.isPublic then Anonymous else Authenticated) && a.to.matched
    && a.answer.Some? && (if a.to.isPublic then a.answer.value.Nobody? else a.answer.value.Found?)
  }

  /** Every probe that has settled came to what its answer says. */
  ghost predicate Answered(results: map<nat, SessionCheck>, answers: map<nat, Answer>) {
    forall p :: p in results ==>
      && p in answers
      && (results[p].status == Authenticated <==> answers[p].Found?)
      && (results[p].status == Anonymous <==> answers[p].Nobody?)
  }

  ghost predicate WorldKept(w: World) {
    && GuardKept(w.guard)
    && (forall p :: p in w.settledAt <==> p in w.guard.session.results)
    && (forall p :: p in w.settledAt ==> w.settledAt[p] < w.events)
    && Answered(w.guard.session.results, w.answers)
    && (forall n :: n in w.guard.navigations ==> Waits(w, n))
    && (forall i :: 0 <= i < |w.admissions| ==> Sound(w.admissions[i]))
  }

  lemma SessionStepKeeps(g: Guard, step: SessionProbe.Step)
    requires GuardKept(g) && SessionProbe.Enabled(g.session, step)
    ensures GuardKept(g.(session := SessionProbe.After(g.session, step)))
  {
    KeptStep(g.session, step);
    hide Kept;
  }

  /** Other fields of the store than its promises may change without harm. */
  lemma ShownFieldsKeep(s: Session, error: string, retryTarget: string)
    requires Kept(s)
    ensures Kept(s.(error := error, retryTarget := retryTarget))
  {
  }

  lemma CheckIsCurrent(s: Session)
    ensures Checked(s).revision == s.revision
  {
  }

  lemma ContinueKeeps(g: Guard, attempt: nat, routes: Routes)
    requires GuardKept(g) && CanResume(g, attempt)
    ensures GuardKept(Resumed(g, attempt, routes))
  {
    hide Kept, RecoveriesKept, Checked, Decide;
    CheckKeeps(g.session);
    CheckIsCurrent(g.session);
    ShownFieldsKeep(g.session, g.session.error, g.navigations[attempt].to.fullPath);
  }

  lemma RecheckKeeps(g: Guard, revision: nat, explicitLogout: bool, route: Route, routes: Routes)
    requires GuardKept(g)
    ensures GuardKept(Rechecked(g, revision, explicitLogout, route, routes))
  {
    hide Kept;
  }

  lemma SlotFreed(pending: Option<Pending>, recoveries: map<nat, Recovery>, promises: nat, revision: nat, promise: nat)
    requires RecoveriesKept(pending, recoveries, promises, revision) && promise in recoveries
    ensures RecoveriesKept(if pending.Some? && pending.value.promise == promise then None
                           else pending, recoveries - {promise}, promises, revision)
  {
  }

  lemma EndKeeps(g: Guard, promise: nat, failure: Option<string>)
    requires GuardKept(g) && promise in g.recoveries
    ensures GuardKept(RecoveryEnded(g, promise, failure))
  {
    hide Kept, RecoveriesKept;
    if failure.Some? { ShownFieldsKeep(g.session, Message(failure.value), g.recoveries[promise].target); }
    SlotFreed(g.pendingRecovery, g.recoveries, g.promises, g.session.revision, promise);
  }

  lemma GuardKeptStep(w: World, event: Event, routes: Routes)
    requires GuardKept(w.guard) && Enabled(w, event)
    ensures GuardKept(After(w, event, routes).guard)
  {
    hide Kept, RecoveriesKept, Resumed, Rechecked, RecoveryEnded;
    var g := w.guard;
    match event
    case Store(step) => SessionStepKeeps(g, step);
    case Begin(_) => SessionStepKeeps(g, Check);
    case Continue(attempt) => ContinueKeeps(g, attempt, routes);
    case Expired(revision, explicitLogout, route) => RecheckKeeps(g, revision, explicitLogout, route, routes);
    case End(promise, failure) => EndKeeps(g, promise, failure);
  }

  // ---------- what the guard lets through ----------

  /** How a probe stands after an event: settled for good, or as live as before. */
  lemma ProbesAfter(w: World, event: Event, routes: Routes, p: nat)
    requires GuardKept(w.guard) && Enabled(w, event)
    ensures var s, s' := w.guard.session, After(w, event, routes).guard.session;
      && (p in s.results ==> p in s'.results && s'.results[p] == s.results[p])
      && (p in s.live && !(event.Store? && event.step.Settle? && event.step.promise == p) ==> p in s'.live)
      && (p in s'.results <==> p in s.results || (event.Store? && event.step.Settle? && event.step.promise == p))
  {
  }

  lemma ProbesKept(w: World, event: Event, routes: Routes)
    requires WorldKept(w) && Enabled(w, event)
    ensures var w' := After(w, event, routes);
      && (forall p :: p in w'.settledAt <==> p in w'.guard.session.results)
      && (forall p :: p in w'.settledAt ==> w'.settledAt[p] < w'.events)
  {
    hide GuardKept, Waits, Sound, GuardAfter;
    forall p ensures p in After(w, event, routes).settledAt <==> p in After(w, event, routes).guard.session.results {
      ProbesAfter(w, event, routes, p);
    }
  }

  /** A navigation that was waiting already, and still is. */
  lemma StillWaits(w: World, event: Event, routes: Routes, n: nat)
    requires WorldKept(w) && Enabled(w, event)
    requires n in w.guard.navigations && n in After(w, event, routes).guard.navigations
    requires After(w, event, routes).guard.navigations[n].phase == w.guard.navigations[n].phase && n in w.begunAt
    requires !(event.Begin? && n == w.guard.guardAttempt + 1)
    ensures Waits(After(w, event, routes), n)
  {
    assert Waits(w, n);
    if !w.guard.navigations[n].phase.Decided? {
      ProbesAfter(w, event, routes, w.guard.navigations[n].phase.promise);
    }
    hide GuardAfter, GuardKept, Sound;
  }

  lemma BeginWaits(w: World, to: Route, routes: Routes)
    requires WorldKept(w)
    ensures Waits(After(w, Begin(to), routes), w.guard.guardAttempt + 1)
  {
    CheckIsFresh(w.guard.session);
    hide GuardKept, Sound, Checked, CheckPromise;
  }

  lemma ContinueWaits(w: World, attempt: nat, routes: Routes)
    requires WorldKept(w) && CanResume(w.guard, attempt)
    requires !Resumed(w.guard, attempt, routes).navigations[attempt].phase.Decided?
    ensures Waits(After(w, Continue(attempt), routes), attempt)
  {
    CheckIsFresh(w.guard.session);
    assert Waits(w, attempt);
    hide GuardKept, Sound, Checked, CheckPromise, Decide;
  }

  /** A navigation that has just asked for a probe. */
  lemma NowWaits(w: World, event: Event, routes: Routes, n: nat)
    requires WorldKept(w) && Enabled(w, event) && n in After(w, event, routes).guard.navigations
    requires !After(w, event, routes).guard.navigations[n].phase.Decided?
    requires n in w.guard.navigations ==>
      w.guard.navigations[n].phase != After(w, event, routes).guard.navigations[n].phase
    ensures Waits(After(w, event, routes), n)
  {
    hide WorldKept, Waits;
    if event.Begin? { BeginWaits(w, event.to, routes); }
    if event.Continue? { ContinueWaits(w, n, routes); }
  }

  lemma WaitsKept(w: World, event: Event, routes: Routes, n: nat)
    requires WorldKept(w) && Enabled(w, event) && n in After(w, event, routes).guard.navigations
    ensures Waits(After(w, event, routes), n)
  {
    var w' := After(w, event, routes);
    if !w'.guard.navigations[n].phase.Decided? {
      if n in w.guard.navigations && w.guard.navigations[n].phase == w'.guard.navigations[n].phase {
        assert Waits(w, n);
        StillWaits(w, event, routes, n);
      } else {
        NowWaits(w, event, routes, n);
      }
    }
  }

  lemma AdmissionSound(w: World, event: Event, routes: Routes, i: nat)
    requires WorldKept(w) && Enabled(w, event) && i < |After(w, event, routes).admissions|
    ensures Sound(After(w, event, routes).admissions[i])
  {
  }

  lemma AnswersKept(w: World, event: Event, routes: Routes)
    requires GuardKept(w.guard) && Answered(w.guard.session.results, w.answers) && Enabled(w, event)
    ensures Answered(After(w, event, routes).guard.session.results, After(w, event, routes).answers)
  {
    var w' := After(w, event, routes);
    forall p | p in w'.guard.session.results
      ensures p in w'.answers && (w'.guard.session.results[p].status == Authenticated <==> w'.answers[p].Found?)
      ensures w'.guard.session.results[p].status == Anonymous <==> w'.answers[p].Nobody? {
      ProbesAfter(w, event, routes, p);
    }
  }

  lemma WorldKeptStep(w: World, event: Event, routes: Routes)
    requires WorldKept(w) && Enabled(w, event)
    ensures WorldKept(After(w, event, routes))
  {
    hide GuardKept, Waits, Sound, After;
    var w' := After(w, event, routes);
    GuardKeptStep(w, event, routes);
    ProbesKept(w, event, routes);
    AnswersKept(w, event, routes);
    forall n | n in w'.guard.navigations ensures Waits(w', n) { WaitsKept(w, event, routes, n); }
    forall i | 0 <= i < |w'.admissions| ensures Sound(w'.admissions[i]) { AdmissionSound(w, event, routes, i); }
  }

  predicate ValidRun(w: World, events: seq<Event>, routes: Routes)
    decreases |events|
  {
    events == [] || (Enabled(w, events[0]) && ValidRun(After(w, events[0], routes), events[1..], routes))
  }

  function Run(w: World, events: seq<Event>, routes: Routes): World
    requires ValidRun(w, events, routes)
    decreases |events|
  {
    if events == [] then w else Run(After(w, events[0], routes), events[1..], routes)
  }

  lemma {:induction false} WorldKeptRun(w: World, events: seq<Event>, routes: Routes)
    requires WorldKept(w) && ValidRun(w, events, routes)
    ensures WorldKept(Run(w, events, routes))
    decreases |events|
  {
    if events != [] {
      WorldKeptStep(w, events[0], routes);
      WorldKeptRun(After(w, events[0], routes), events[1..], routes);
    }
  }

  ghost predicate Start(w: World) {
    && SessionProbe.Start(w.guard.session) && w.guard.navigations == map[] && w.guard.pendingRecovery == None
    && w.guard.recoveries == map[] && w.settledAt == map[] && w.answers == map[] && w.admissions == []
  }

  /**
   * Over any interleaving of navigations, probes, logins, logouts and recoveries: a protected page
   * is only ever shown to the newest navigation, on an answer of the server that found a user,
   * that was asked for in the revision current at that moment, and that came in after the
   * navigation began. And there is at most one recovery of a revision under way at a time.
   */
  lemma GuardSafety(start: World, events: seq<Event>, routes: Routes)
    requires Start(start) && ValidRun(start, events, routes)
    ensures forall i :: 0 <= i < |Run(start, events, routes).admissions| ==>
      var a := Run(start, events, routes).admissions[i];
      && a.attempt == a.newest && a.result.revision == a.revision && a.begun < a.settled
      && a.result.status == (if a.to.isPublic then Anonymous else Authenticated) && a.to.matched
      && a.answer.Some? && (if a.to.isPublic then a.answer.value.Nobody? else a.answer.value.Found?)
    ensures var r := Run(start, events, routes).guard.recoveries;
      forall p, q :: p in r && q in r && r[p].revision == r[q].revision ==> p == q
  {
    WorldKeptRun(start, events, routes);
  }

  /** Exactly when a resumed navigation to a protected page is admitted. */
  lemma AdmittedExactly(g: Guard, attempt: nat, routes: Routes)
    requires CanResume(g, attempt) && !g.navigations[attempt].to.isPublic
    ensures var result := g.session.results[PromiseOf(g, attempt)];
      Resumed(g, attempt, routes).navigations[attempt].phase == Decided(Admitted) <==>
        attempt == g.guardAttempt && result.revision == g.session.revision && result.status == Authenticated
        && g.navigations[attempt].to.matched
  {
  }

  /** Exactly who is sent to log in, who is redirected and where to, and who is shown a public page. */
  lemma DecidedExactly(g: Guard, attempt: nat, routes: Routes)
    requires CanResume(g, attempt)
    ensures var result, to := g.session.results[PromiseOf(g, attempt)], g.navigations[attempt].to;
      var phase := Resumed(g, attempt, routes).navigations[attempt].phase;
      var newest := attempt == g.guardAttempt && result.revision == g.session.revision;
      && (forall target :: phase == Decided(ToLogin(target)) <==>
            newest && result.status == Anonymous && !to.isPublic && target == routes.loginRedirect(to.fullPath))
      && (forall path :: phase == Decided(Redirected(path)) <==>
            && newest
            && ((result.status == Authenticated && to.isPublic && path == routes.loginRedirect(to.redirectQuery))
                || (!to.matched && path == "/playground"
                    && ((result.status == Authenticated && !to.isPublic)
                        || (result.status == Anonymous && to.isPublic)))))
      && (to.isPublic ==> (phase == Decided(Admitted) <==> newest && result.status == Anonymous && to.matched))
      && (phase == Decided(Cancelled) <==>
            || attempt != g.guardAttempt
            || (newest && result.status == Unknown)
            || (result.revision != g.session.revision && !g.navigations[attempt].phase.First?))
      // An answer that never came leaves the target to try again; nothing else is left in the store.
      && (newest && result.status == Unknown ==>
            Resumed(g, attempt, routes).session == g.session.(retryTarget := to.fullPath))
      && (phase.Decided? && !(newest && result.status == Unknown) ==> Resumed(g, attempt, routes).session == g.session)
  {
  }

  /** A resumed navigation is decided, or waits for a second probe, after which it is decided: there are never three. */
  lemma TwoProbesAtMost(g: Guard, attempt: nat, routes: Routes)
    requires CanResume(g, attempt)
    ensures var phase := Resumed(g, attempt, routes).navigations[attempt].phase;
      && !phase.First?
      && (phase.Second? ==>
            && g.navigations[attempt].phase.First? && attempt == g.guardAttempt
            && g.session.results[PromiseOf(g, attempt)].revision != g.session.revision)
  {
  }

  /** What starts a recovery, which page it goes to, and that a report of an earlier revision starts none. */
  lemma RecoveryStarts(g: Guard, requestRevision: nat, explicitLogout: bool, route: Route, routes: Routes)
    requires GuardKept(g)
    ensures var g' := Rechecked(g, requestRevision, explicitLogout, route, routes);
      && (requestRevision != g.session.revision || (route.isPublic && !explicitLogout) ==> g' == g)
      && (requestRevision == g.session.revision && (explicitLogout || !route.isPublic) ==>
            && g'.pendingRecovery.Some? && g'.pendingRecovery.value.revision == g.session.revision
            && var p := g'.pendingRecovery.value.promise;
            && p in g'.recoveries
            && (g.pendingRecovery.Some? && g.pendingRecovery.value.revision == g.session.revision ==> g' == g)
            && (p !in g.recoveries ==>
                  g'.recoveries[p].target == if explicitLogout then routes.loginPath(None)
                    else routes.loginPath(Some(routes.loginRedirect(route.fullPath)))))
  {
  }

  /** A current recovery that fails shows why, and where to try again. */
  lemma RecoveryReports(g: Guard, promise: nat, failure: Option<string>)
    requires promise in g.recoveries && g.recoveries[promise].revision == g.session.revision
    ensures var s, s' := g.session, RecoveryEnded(g, promise, failure).session;
      && (failure.None? ==> s' == s)
      && (failure.Some? ==>
            && s'.retryTarget == g.recoveries[promise].target
            && s'.error == if failure.value == "" then UNCONFIRMED else failure.value)
  {
  }

  /** A recovery of a superseded revision ends without touching what the pages show or the newer recovery's slot. */
  lemma StaleRecoveryIsSilent(g: Guard, promise: nat, failure: Option<string>)
    requires GuardKept(g) && promise in g.recoveries && g.recoveries[promise].revision != g.session.revision
    ensures RecoveryEnded(g, promise, failure).session == g.session
    ensures g.pendingRecovery.Some? && g.pendingRecovery.value.revision == g.session.revision ==>
      RecoveryEnded(g, promise, failure).pendingRecovery == g.pendingRecovery
  {
  }
}
