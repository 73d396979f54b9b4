/**
 * The session store of the admin pages: probes of the server's answer to "who am I", tagged with
 * the auth revision that they were started in.
 */
module SessionProbe {
  import opened Wrappers

  datatype Status = Authenticated | Anonymous | Unknown

  datatype SessionCheck = SessionCheck(revision: nat, status: Status)

  /** A slot for shared work: a promise and the revision it belongs to. */
  datatype Pending = Pending(revision: nat, promise: nat)

  /** How reading the profile ends; a profile stands for itself. */
  datatype Answer = Found(profile: nat) | Nobody | Broken(message: string)

  /**
   * The store, with its promises: `live` gives the revision of each unsettled probe and `results`
   * what each settled one came to. Promises are numbered in the order of their creation.
   */
  datatype Session = Session(
    revision: nat, profile: Option<nat>, checking: bool, error: string, retryTarget: string, pending: Option<Pending>,
    promises: nat, live: map<nat, nat>, results: map<nat, SessionCheck>)

  const UNCONFIRMED :=
    "\U{65e0}\U{6cd5}\U{786e}\U{8ba4}\U{767b}\U{5f55}\U{72b6}\U{6001}\U{ff0c}\U{8bf7}\U{91cd}\U{8bd5}"

  function Message(cause: string): string {
    if cause == "" then UNCONFIRMED else cause
  }

  function StatusOf(answer: Answer): Status {
    match answer case Found(_) => Authenticated case Nobody => Anonymous case Broken(_) => Unknown
  }

  function Advanced(s: Session): Session {
    s.(revision := s.revision + 1, pending := None, checking := false, error := "", retryTarget := "")
  }

  /** Whether a check joins the probe that is pending. */
  predicate Joins(s: Session) {
    s.pending.Some? && s.pending.value.revision == s.revision
  }

  function Checked(s: Session): Session {
    if Joins(s) then s
    else s.(checking := true, error := "", retryTarget := "", promises := s.promises + 1,
            live := s.live[s.promises := s.revision], pending := Some(Pending(s.revision, s.promises)))
  }

  /** The promise that a check returns. */
  function CheckPromise(s: Session): nat {
    if Joins(s) then s.pending.value.promise else s.promises
  }

  function Settled(s: Session, promise: nat, answer: Answer): Session
    requires promise in s.live
  {
    var revision := s.live[promise];
    var current, mine := revision == s.revision, s.pending.Some? && s.pending.value.revision == revision;
    s.(profile := if !current || answer.Broken? then s.profile else if answer.Found? then Some(answer.profile)
       else None,
       error := if current && answer.Broken? then Message(answer.message) else s.error,
       pending := if mine then None else s.pending, checking := if mine then false else s.checking,
       live := s.live - {promise}, results := s.results[promise := SessionCheck(revision, StatusOf(answer))])
  }

  class SessionStore {
    var revision: nat
    var profile: Option<nat>
    var checking: bool
    var error: string
    var retryTarget: string
    var pending: Option<Pending>
    var promises: nat
    var live: map<nat, nat>
    var results: map<nat, SessionCheck>

    function View(): Session
      reads this
    {
      Session(revision, profile, checking, error, retryTarget, pending, promises, live, results)
    }

    constructor ()
      ensures View() == Session(0, None, false, "", "", None, 0, map[], map[])
    {
      revision, profile, checking, error, retryTarget := 0, None, false, "", "";
      pending, promises, live, results := None, 0, map[], map[];
    }

    method AdvanceRevision() returns (next: nat)
      modifies this
      ensures View() == Advanced(old(View())) && next == revision
    {
      revision := revision + 1;
      pending := None;
      checking := false;
      error := "";
      retryTarget := "";
      return revision;
    }

    /** Up to the point where the profile is being read. */
    method Check() returns (promise: nat)
      modifies this
      ensures View() == Checked(old(View())) && promise == CheckPromise(old(View()))
    {
      if pending.Some? && pending.value.revision == revision {
        return pending.value.promise;
      }
      var checkRevision := revision;
      checking := true;
      error := "";
      retryTarget := "";
      promise := promises;
      promises := promises + 1;
      live := live[promise := checkRevision];
      pending := Some(Pending(checkRevision, promise));
    }

    /** The rest of a check, once the profile has been read. */
    method Settle(promise: nat, answer: Answer)
      requires promise in live
      modifies this
      ensures View() == Settled(old(View()), promise, answer)
      // Who has a profile is logged in, who is known to have none is not, and otherwise nothing is known.
      ensures promise in results && results[promise].revision == old(live[promise])
      ensures results[promise].status == Authenticated <==> answer.Found?
      ensures results[promise].status == Anonymous <==> answer.Nobody?
      ensures results[promise].status == Unknown <==> answer.Broken?
      ensures profile ==
        if old(live[promise]) != old(revision) || answer.Broken? then old(profile)
        else if answer.Found? then Some(answer.profile) else None
    {
      var checkRevision := live[promise];
      var status := Unknown;
      match answer {
        case Broken(message) =>
          if checkRevision == revision {
            error := if message != "" then message else UNCONFIRMED;
          }
        case Found(currentProfile) =>
          if checkRevision == revision {
            profile := Some(currentProfile);
          }
          status := Authenticated;
        case Nobody =>
          if checkRevision == revision {
            profile := None;
          }
          status := Anonymous;
      }
      if pending.Some? && pending.value.revision == checkRevision {
        pending := None;
        checking := false;
      }
      live := live - {promise};
      results := results[promise := SessionCheck(checkRevision, status)];
    }
  }

  // ---------- the protocol ----------

  /** A check that joins a probe changes nothing; another one shows that it is checking, and nothing of before. */
  lemma CheckShown(s: Session)
    ensures var s' := Checked(s);
      && s'.profile == s.profile && s'.revision == s.revision
      && (s.pending.Some? && s.pending.value.revision == s.revision ==> s' == s)
      && (!(s.pending.Some? && s.pending.value.revision == s.revision) ==>
            && s'.checking && s'.error == "" && s'.retryTarget == ""
            && s'.pending == Some(Pending(s.revision, s.promises)))
  {
  }

  /** What the answer to a current probe makes of the store. */
  lemma AnswerShown(s: Session, promise: nat, answer: Answer)
    requires promise in s.live && s.live[promise] == s.revision
    ensures var s' := Settled(s, promise, answer);
      && (answer.Found? ==> s'.profile == Some(answer.profile) && s'.results[promise].status == Authenticated)
      && (answer.Nobody? ==> s'.profile == None && s'.results[promise].status == Anonymous)
      && (answer.Broken? ==>
            && s'.profile == s.profile && s'.results[promise].status == Unknown
            && s'.error == if answer.message == "" then UNCONFIRMED else answer.message)
      && (!answer.Broken? ==> s'.error == s.error)
  {
  }

  /** What every interleaving of checks, settlements and revision advances keeps. */
  ghost predicate Kept(s: Session) {
    && (s.checking <==> s.pending.Some?)
    && (s.pending.Some? ==>
          var p := s.pending.value; p.revision == s.revision && p.promise in s.live && s.live[p.promise] == s.revision)
    && (forall p :: p in s.live ==> p < s.promises && p !in s.results && s.live[p] <= s.revision)
    && (forall p :: p in s.results ==> p < s.promises && s.results[p].revision <= s.revision)
    && (forall p :: p in s.live && s.live[p] == s.revision ==> s.pending == Some(Pending(s.revision, p)))
    && (forall p, q :: p in s.live && q in s.live && s.live[p] == s.live[q] ==> p == q)
  }

  datatype Step = Advance | Check | Settle(promise: nat, answer: Answer)

  predicate Enabled(s: Session, step: Step) {
    step.Settle? ==> step.promise in s.live
  }

  function After(s: Session, step: Step): Session
    requires Enabled(s, step)
  {
    match step
    case Advance => Advanced(s)
    case Check => Checked(s)
    case Settle(promise, answer) => Settled(s, promise, answer)
  }

  predicate ValidRun(s: Session, steps: seq<Step>)
    decreases |steps|
  {
    steps == [] || (Enabled(s, steps[0]) && ValidRun(After(s, steps[0]), steps[1..]))
  }

  function Run(s: Session, steps: seq<Step>): Session
    requires ValidRun(s, steps)
    decreases |steps|
  {
    if steps == [] then s else Run(After(s, steps[0]), steps[1..])
  }

  ghost predicate Start(s: Session) {
    s.live == map[] && s.results == map[] && s.pending == None && !s.checking
  }

  lemma CheckKeeps(s: Session)
    requires Kept(s)
    ensures Kept(Checked(s))
  {
  }

  lemma SettleKeeps(s: Session, promise: nat, answer: Answer)
    requires Kept(s) && promise in s.live
    ensures Kept(Settled(s, promise, answer))
  {
  }

  lemma KeptStep(s: Session, step: Step)
    requires Kept(s) && Enabled(s, step)
    ensures Kept(After(s, step))
  {
    match step
    case Advance =>
    case Check => CheckKeeps(s);
    case Settle(promise, answer) => SettleKeeps(s, promise, answer);
  }

  lemma {:induction false} KeptRun(s: Session, steps: seq<Step>)
    requires Kept(s) && ValidRun(s, steps)
    ensures Kept(Run(s, steps))
    decreases |steps|
  {
    if steps != [] {
      KeptStep(s, steps[0]);
      KeptRun(After(s, steps[0]), steps[1..]);
    }
  }

  /**
   * Over any interleaving: there is at most one live probe of a revision, the page shows that it
   * is checking exactly while the probe of the current revision is live, and that is the one
   * that further checks join.
   */
  lemma ProbeProtocol(start: Session, steps: seq<Step>)
    requires Start(start) && ValidRun(start, steps)
    ensures var s := Run(start, steps);
      && (forall p, q :: p in s.live && q in s.live && s.live[p] == s.live[q] ==> p == q)
      && (s.checking <==> exists p :: p in s.live && s.live[p] == s.revision)
      && (forall p :: p in s.live && s.live[p] == s.revision ==> Checked(s) == s && CheckPromise(s) == p)
      && (s.checking <==> s.pending.Some?)
  {
    KeptRun(start, steps);
  }

  /** The probe that a check returns is of the current revision and unsettled: a settled result is never shared. */
  lemma CheckIsFresh(s: Session)
    requires Kept(s)
    ensures var p := CheckPromise(s); p !in s.results && p in Checked(s).live && Checked(s).live[p] == s.revision
  {
  }

  /** An advance supersedes every probe there is, clears what they left on the pages and keeps the profile. */
  lemma AdvanceSupersedes(s: Session)
    requires Kept(s)
    ensures var s' := Advanced(s);
      && (forall p :: p in s.live ==> p in s'.live && s'.live[p] < s'.revision)
      && s'.profile == s.profile && !s'.checking && s'.error == "" && s'.retryTarget == ""
      && s'.pending == None && CheckPromise(s') == s.promises
  {
  }

  /** A superseded probe still settles, but changes nothing that the pages show, and leaves the newer probe pending. */
  lemma SupersededIsSilent(s: Session, promise: nat, answer: Answer)
    requires Kept(s) && promise in s.live && s.live[promise] != s.revision
    ensures var s' := Settled(s, promise, answer);
      && s'.profile == s.profile && s'.error == s.error && s'.retryTarget == s.retryTarget
      && s'.checking == s.checking && s'.pending == s.pending && s'.revision == s.revision
      && s'.results[promise] == SessionCheck(s.live[promise], StatusOf(answer))
  {
  }

  ghost predicate Lasts(s: Session, s': Session, promise: nat) {
    && (promise in s.results ==> promise in s'.results && s'.results[promise] == s.results[promise])
    && (promise in s.live ==>
          if promise in s'.live then s'.live[promise] == s.live[promise]
          else promise in s'.results && s'.results[promise].revision == s.live[promise])
    && s.revision <= s'.revision
  }

  lemma StepLasts(s: Session, step: Step, promise: nat)
    requires Kept(s) && Enabled(s, step)
    ensures Lasts(s, After(s, step), promise)
  {
  }

  lemma LastsOn(s: Session, t: Session, u: Session, promise: nat)
    requires Lasts(s, t, promise) && Lasts(t, u, promise) && Kept(u)
    ensures Lasts(s, u, promise)
  {
  }

  lemma {:induction false} RunLasts(s: Session, steps: seq<Step>, promise: nat)
    requires Kept(s) && ValidRun(s, steps)
    ensures Lasts(s, Run(s, steps), promise)
    decreases |steps|
  {
    if steps != [] {
      var t := After(s, steps[0]);
      KeptStep(s, steps[0]);
      KeptRun(t, steps[1..]);
      StepLasts(s, steps[0], promise);
      RunLasts(t, steps[1..], promise);
      LastsOn(s, t, Run(t, steps[1..]), promise);
      hide Lasts, Kept, After, Enabled;
    }
  }

  /** What a run leaves of a probe: its revision never changes and its result is never rewritten. */
  lemma ResultsLast(s: Session, steps: seq<Step>, promise: nat)
    requires Kept(s) && ValidRun(s, steps)
    ensures promise in s.results ==>
      promise in Run(s, steps).results && Run(s, steps).results[promise] == s.results[promise]
    ensures promise in s.live ==>
      var s' := Run(s, steps);
      if promise in s'.live then s'.live[promise] == s.live[promise]
      else promise in s'.results && s'.results[promise].revision == s.live[promise]
    ensures s.revision <= Run(s, steps).revision
  {
    RunLasts(s, steps, promise);
  }
}
