/** What the outcomes of upstream calls do to the row of a provider key. */
module KeyStatus {
  import opened Wrappers

  datatype Status = Enabled | Cooling | Exhausted | Disabled

  /** The columns that an outcome changes; `cooldownUntil` may be NULL. */
  datatype Row = Row(status: Status, cooldownUntil: Option<int>, currentFailures: nat, totalSuccesses: nat,
                     totalFailures: nat)

  /** One finished call: its outcome, the database time of the update and the time of the server that reports it. */
  datatype Outcome = Outcome(success: bool, errorType: string, dbNow: int, appNow: int)

  const COOLDOWN: int := 900_000_000_000

  function Rank(s: Status): nat {
    match s case Enabled => 0 case Cooling => 1 case Exhausted => 2 case Disabled => 3
  }

  function Join(a: Status, b: Status): Status {
    if Rank(a) < Rank(b) then b else a
  }

  /** The status that an outcome asks for. */
  function Asked(o: Outcome): Status {
    if o.success then Enabled
    else if o.errorType == "auth" then Disabled
    else if o.errorType == "quota_exhausted" then Exhausted
    else if o.errorType == "rate_limited" then Cooling
    else Enabled
  }

  predicate Live(r: Row, now: int) {
    r.status == Cooling && r.cooldownUntil.Some? && r.cooldownUntil.value > now
  }

  function Recorded(r: Row, o: Outcome): Row {
    var asked, until := Asked(o), o.appNow + COOLDOWN;
    Row(
      if r.status == Disabled || (r.status == Exhausted && asked != Disabled)
        || (Live(r, o.dbNow) && asked == Enabled) then r.status
      else asked,
      if asked == Cooling && r.status in {Enabled, Cooling} then
        Some(if r.cooldownUntil.Some? && r.cooldownUntil.value > until then r.cooldownUntil.value else until)
      else if asked == Enabled && !Live(r, o.dbNow) && r.status in {Enabled, Cooling} then None
      else r.cooldownUntil,
      if o.success then 0 else r.currentFailures + 1,
      if o.success then r.totalSuccesses + 1 else r.totalSuccesses,
      if o.success then r.totalFailures else r.totalFailures + 1)
  }

  class ProviderKey {
    var status: Status
    var cooldownUntil: Option<int>
    var currentFailures: nat
    var totalSuccesses: nat
    var totalFailures: nat

    function Columns(): Row
      reads this
    {
      Row(status, cooldownUntil, currentFailures, totalSuccesses, totalFailures)
    }

    constructor (r: Row)
      ensures Columns() == r
    {
      status, cooldownUntil, currentFailures := r.status, r.cooldownUntil, r.currentFailures;
      totalSuccesses, totalFailures := r.totalSuccesses, r.totalFailures;
    }

    /** All columns are computed from the row as it was. */
    method RecordKeyResult(success: bool, errorType: string, dbNow: int, appNow: int)
      modifies this
      ensures Columns() == Recorded(old(Columns()), Outcome(success, errorType, dbNow, appNow))
    {
      var asked := Enabled;
      var cooldown := None;
      if !success {
        match errorType {
          case "auth" => asked := Disabled;
          case "quota_exhausted" => asked := Exhausted;
          case "rate_limited" =>
            asked := Cooling;
            cooldown := Some(appNow + COOLDOWN);
          case _ => asked := Enabled;
        }
      }
      var live := status == Cooling && cooldownUntil.Some? && cooldownUntil.value > dbNow;
      var settled := status == Disabled || status == Exhausted;
      var newStatus := asked;
      if status == Disabled {
        newStatus := status;
      } else if status == Exhausted && asked != Disabled {
        newStatus := status;
      } else if live && asked == Enabled {
        newStatus := status;
      }
      var newCooldown := cooldownUntil;
      if asked == Cooling && !settled {
        newCooldown := if cooldownUntil.Some? && cooldownUntil.value > cooldown.value then cooldownUntil else cooldown;
      } else if asked == Enabled && !live && !settled {
        newCooldown := None;
      }
      currentFailures := if success then 0 else currentFailures + 1;
      totalSuccesses := if success then totalSuccesses + 1 else totalSuccesses;
      totalFailures := if success then totalFailures else totalFailures + 1;
      status, cooldownUntil := newStatus, newCooldown;
    }
  }

  // ---------- one outcome ----------

  /** An outcome only ever raises the status, exactly unless it clears a cooldown that has run out. */
  lemma RecordedJoins(r: Row, o: Outcome)
    ensures Recorded(r, o).status == Join(r.status, Asked(o))
       <==> !(r.status == Cooling && !Live(r, o.dbNow) && Asked(o) == Enabled)
  {
  }

  /** What each outcome does to a row, in terms of its columns. */
  lemma OutcomeMeans(r: Row, o: Outcome)
    ensures var r' := Recorded(r, o);
      // A key that is refused is disabled, whatever it was.
      && (!o.success && o.errorType == "auth" ==> r'.status == Disabled)
      // A key without quota is exhausted, unless it is disabled.
      && (!o.success && o.errorType == "quota_exhausted" ==>
            r'.status == if r.status == Disabled then Disabled else Exhausted)
      // A key that is limited cools down for fifteen minutes at least.
      && (!o.success && o.errorType == "rate_limited" && (r.status == Enabled || r.status == Cooling) ==>
            && r'.status == Cooling && r'.cooldownUntil.Some?
            && r'.cooldownUntil.value >= o.appNow + 15 * 60 * 1_000_000_000
            && (r.cooldownUntil.None? ==> r'.cooldownUntil.value == o.appNow + 15 * 60 * 1_000_000_000)
            && (r.cooldownUntil.Some? ==>
                  r'.cooldownUntil.value in {r.cooldownUntil.value, o.appNow + 15 * 60 * 1_000_000_000}
                  && r'.cooldownUntil.value >= r.cooldownUntil.value))
      && (!o.success && o.errorType == "rate_limited" && (r.status == Exhausted || r.status == Disabled) ==>
            r'.status == r.status && r'.cooldownUntil == r.cooldownUntil)
      // A success, or a failure of another kind, enables a key that is not cooling down and not put aside.
      && (o.success || o.errorType !in ["auth", "quota_exhausted", "rate_limited"] ==>
            if r.status == Exhausted || r.status == Disabled
               || (r.status == Cooling && r.cooldownUntil.Some? && r.cooldownUntil.value > o.dbNow)
            then r'.status == r.status && r'.cooldownUntil == r.cooldownUntil
            else r'.status == Enabled && r'.cooldownUntil == None)
  {
  }

  // ---------- any number of outcomes ----------

  function Processed(r: Row, outcomes: seq<Outcome>): Row {
    if outcomes == [] then r else Recorded(Processed(r, outcomes[..|outcomes| - 1]), outcomes[|outcomes| - 1])
  }

  function Highest(s: Status, outcomes: seq<Outcome>): Status {
    if outcomes == [] then s else Join(Highest(s, outcomes[..|outcomes| - 1]), Asked(outcomes[|outcomes| - 1]))
  }

  /** Until `horizon` no cooldown runs out: neither the one on record nor one that these outcomes start. */
  ghost predicate CoolsThrough(r: Row, outcomes: seq<Outcome>, horizon: int) {
    && (r.status == Cooling ==> Live(r, horizon))
    && (forall i :: 0 <= i < |outcomes| ==> outcomes[i].dbNow <= horizon)
    && (forall i :: 0 <= i < |outcomes| && Asked(outcomes[i]) == Cooling ==> horizon < outcomes[i].appNow + COOLDOWN)
  }

  lemma {:induction false} StatusIsHighest(r: Row, outcomes: seq<Outcome>, horizon: int)
    requires CoolsThrough(r, outcomes, horizon)
    ensures Processed(r, outcomes).status == Highest(r.status, outcomes)
    ensures Processed(r, outcomes).status == Cooling ==> Live(Processed(r, outcomes), horizon)
  {
    if outcomes != [] {
      StatusIsHighest(r, outcomes[..|outcomes| - 1], horizon);
      RecordedJoins(Processed(r, outcomes[..|outcomes| - 1]), outcomes[|outcomes| - 1]);
    }
  }

  /** The highest status is at least every status asked for, and is one of them. */
  lemma {:induction false} HighestIsMaximum(s: Status, outcomes: seq<Outcome>)
    ensures Rank(s) <= Rank(Highest(s, outcomes))
    ensures forall i :: 0 <= i < |outcomes| ==> Rank(Asked(outcomes[i])) <= Rank(Highest(s, outcomes))
    ensures Highest(s, outcomes) == s || exists o :: o in outcomes && Asked(o) == Highest(s, outcomes)
  {
    if outcomes != [] {
      var before, last := outcomes[..|outcomes| - 1], outcomes[|outcomes| - 1];
      HighestIsMaximum(s, before);
      assert last in outcomes;
      if o :| o in before && Asked(o) == Highest(s, before) { assert o in outcomes; }
    }
  }

  lemma HighestBelow(s: Status, a: seq<Outcome>, b: seq<Outcome>)
    requires forall o :: o in a ==> o in b
    ensures Rank(Highest(s, a)) <= Rank(Highest(s, b))
  {
    HighestIsMaximum(s, a);
    HighestIsMaximum(s, b);
    if o :| o in a && Asked(o) == Highest(s, a) {
      var i :| 0 <= i < |b| && b[i] == o;
    }
  }

  /** The order in which outcomes arrive does not change the status they lead to. */
  lemma StatusIgnoresOrder(r: Row, a: seq<Outcome>, b: seq<Outcome>, horizon: int)
    requires multiset(a) == multiset(b) && CoolsThrough(r, a, horizon)
    ensures Processed(r, a).status == Processed(r, b).status == Highest(r.status, b)
    ensures Processed(r, a).totalSuccesses == Processed(r, b).totalSuccesses
    ensures Processed(r, a).totalFailures == Processed(r, b).totalFailures
  {
    forall o ensures o in a <==> o in b { assert o in a <==> o in multiset(a); assert o in b <==> o in multiset(b); }
    assert CoolsThrough(r, b, horizon) by {
      forall i | 0 <= i < |b|
        ensures b[i].dbNow <= horizon && (Asked(b[i]) == Cooling ==> horizon < b[i].appNow + COOLDOWN) {
        assert b[i] in a;
      }
    }
    StatusIsHighest(r, a, horizon);
    StatusIsHighest(r, b, horizon);
    HighestBelow(r.status, a, b);
    HighestBelow(r.status, b, a);
    CountersAddUp(r, a);
    CountersAddUp(r, b);
    SuccessesByMultiset(a, b);
  }

  // ---------- without any condition on clocks ----------

  /** The status is never above the highest one asked for, and reaches it if that is exhausted or disabled. */
  lemma {:induction false} SevereIsHighest(r: Row, outcomes: seq<Outcome>)
    ensures Rank(Processed(r, outcomes).status) <= Rank(Highest(r.status, outcomes))
    ensures Rank(Highest(r.status, outcomes)) >= 2 ==> Processed(r, outcomes).status == Highest(r.status, outcomes)
  {
    if outcomes != [] { SevereIsHighest(r, outcomes[..|outcomes| - 1]); }
  }

  /** Until when a cooldown lasts that was on record (`i` is -1) or that outcome `i` asked for. */
  function Deadline(r: Row, outcomes: seq<Outcome>, i: int): Option<int>
    requires -1 <= i < |outcomes|
  {
    if i == -1 then r.cooldownUntil else Some(outcomes[i].appNow + COOLDOWN)
  }

  predicate Outlasts(deadline: Option<int>, now: int) {
    deadline.Some? && deadline.value > now
  }

  /**
   * A cooldown that holds to the end: it was on record, or asked for, and every later outcome that
   * would end it comes before its deadline. One left on the record of an enabled key counts again
   * if the first outcome asks for a cooldown.
   */
  ghost predicate Holds(r: Row, outcomes: seq<Outcome>, i: int)
    requires -1 <= i < |outcomes|
  {
    && (if i == -1 then r.status == Cooling || (outcomes != [] && Asked(outcomes[0]) == Cooling)
        else Asked(outcomes[i]) == Cooling)
    && (forall j :: i < j < |outcomes| && Asked(outcomes[j]) == Enabled ==>
      Outlasts(Deadline(r, outcomes, i), outcomes[j].dbNow))
  }

  ghost predicate Mild(r: Row, outcomes: seq<Outcome>) {
    Rank(r.status) <= 1 && forall i :: 0 <= i < |outcomes| ==> Rank(Asked(outcomes[i])) <= 1
  }

  /** The row is cooling until the last of the deadlines that hold. */
  ghost predicate CoolsUntilLast(r: Row, outcomes: seq<Outcome>, s: Row) {
    && Rank(s.status) <= 1
    && (outcomes != [] && s.status == Enabled ==> s.cooldownUntil == None)
    && (s.status == Cooling ==>
        exists i :: -1 <= i < |outcomes| && Holds(r, outcomes, i) && Deadline(r, outcomes, i) == s.cooldownUntil)
    && (forall i :: -1 <= i < |outcomes| && Holds(r, outcomes, i) ==>
          && s.status == Cooling
          && (Deadline(r, outcomes, i).Some? ==>
                s.cooldownUntil.Some? && Deadline(r, outcomes, i).value <= s.cooldownUntil.value))
  }

  lemma HoldsAppend(r: Row, before: seq<Outcome>, o: Outcome, i: int)
    requires -1 <= i < |before| && before != []
    ensures Deadline(r, before + [o], i) == Deadline(r, before, i)
    ensures Holds(r, before + [o], i) <==>
      Holds(r, before, i) && (Asked(o) == Enabled ==> Outlasts(Deadline(r, before, i), o.dbNow))
  {
    var all := before + [o];
    assert all[|before|] == o;
    assert forall j :: 0 <= j < |before| ==> all[j] == before[j];
  }

  lemma CoolsNext(r: Row, before: seq<Outcome>, o: Outcome, s: Row)
    requires before != [] && CoolsUntilLast(r, before, s) && Rank(Asked(o)) <= 1
    ensures CoolsUntilLast(r, before + [o], Recorded(s, o))
  {
    var all := before + [o];
    forall i | -1 <= i < |before|
      ensures Deadline(r, all, i) == Deadline(r, before, i)
      ensures Holds(r, all, i) <==>
        Holds(r, before, i) && (Asked(o) == Enabled ==> Outlasts(Deadline(r, before, i), o.dbNow))
    {
      HoldsAppend(r, before, o, i);
    }
    assert Deadline(r, all, |before|) == Some(o.appNow + COOLDOWN);
    assert Asked(o) == Cooling ==> Holds(r, all, |before|);
    hide Deadline, Holds;
    if Asked(o) == Enabled { NotAsked(r, before, o); }
    if s.status == Cooling {
      var i :| -1 <= i < |before| && Holds(r, before, i) && Deadline(r, before, i) == s.cooldownUntil;
      assert Holds(r, all, i) || Asked(o) == Enabled;
    }
  }

  lemma NotAsked(r: Row, before: seq<Outcome>, o: Outcome)
    requires Asked(o) != Cooling
    ensures !Holds(r, before + [o], |before|)
  {
    assert (before + [o])[|before|] == o;
  }

  lemma {:induction false} CoolsRun(r: Row, outcomes: seq<Outcome>)
    requires Mild(r, outcomes)
    ensures CoolsUntilLast(r, outcomes, Processed(r, outcomes))
  {
    if outcomes == [] {
      assert r.status == Cooling ==> Holds(r, outcomes, -1);
    } else if |outcomes| == 1 {
      assert outcomes[..0] == [] && Processed(r, []) == r;
      assert Holds(r, outcomes, 0) <==> Asked(outcomes[0]) == Cooling;
      assert Deadline(r, outcomes, 0) == Some(outcomes[0].appNow + COOLDOWN)
        && Deadline(r, outcomes, -1) == r.cooldownUntil;
    } else {
      var n := |outcomes| - 1;
      CoolsRun(r, outcomes[..n]);
      CoolsNext(r, outcomes[..n], outcomes[n], Processed(r, outcomes[..n]));
      assert outcomes[..n] + [outcomes[n]] == outcomes;
    }
  }

  lemma {:induction false} MildIfLow(r: Row, outcomes: seq<Outcome>)
    requires Rank(Highest(r.status, outcomes)) <= 1
    ensures Mild(r, outcomes)
  {
    HighestIsMaximum(r.status, outcomes);
  }

  /**
   * Any outcomes in any order at any times: the status ends up as the highest one asked for, except
   * exactly if that is a cooldown and none holds to the end.
   */
  lemma ProcessedIsHighestExactly(r: Row, outcomes: seq<Outcome>)
    ensures Processed(r, outcomes).status == Highest(r.status, outcomes) <==>
      (Highest(r.status, outcomes) == Cooling ==> exists i :: -1 <= i < |outcomes| && Holds(r, outcomes, i))
  {
    SevereIsHighest(r, outcomes);
    if Rank(Highest(r.status, outcomes)) <= 1 {
      MildIfLow(r, outcomes);
      CoolsRun(r, outcomes);
      hide Holds, Deadline;
    }
  }

  /** Exhausted and disabled keys do not depend on clocks or on the order of outcomes at all. */
  lemma SevereIgnoresOrder(r: Row, a: seq<Outcome>, b: seq<Outcome>)
    requires multiset(a) == multiset(b) && Rank(Highest(r.status, a)) >= 2
    ensures Processed(r, a).status == Processed(r, b).status == Highest(r.status, a)
  {
    forall o ensures o in a <==> o in b { assert o in a <==> o in multiset(a); assert o in b <==> o in multiset(b); }
    HighestBelow(r.status, a, b);
    HighestBelow(r.status, b, a);
    SevereIsHighest(r, a);
    SevereIsHighest(r, b);
  }

  /** Without that condition the order matters: a rate limit and, once it has run out, a success. */
  lemma ExpiredCooldownBreaksOrder()
    ensures exists r, a: Outcome, b: Outcome :: Processed(r, [a, b]).status != Processed(r, [b, a]).status
  {
    var r := Row(Enabled, None, 0, 0, 0);
    var a, b := Outcome(false, "rate_limited", 0, 0), Outcome(true, "", COOLDOWN, COOLDOWN);
    ProcessedTwo(r, a, b);
    ProcessedTwo(r, b, a);
    hide Processed;
    assert Recorded(Recorded(r, a), b).status == Enabled && Recorded(Recorded(r, b), a).status == Cooling;
  }

  lemma ProcessedTwo(r: Row, a: Outcome, b: Outcome)
    ensures Processed(r, [a, b]) == Recorded(Recorded(r, a), b)
  {
    hide Recorded;
    assert [a, b][..1] == [a] && [a][..0] == [];
    assert Processed(r, [a]) == Recorded(r, a);
  }

  /** A deadline that is live at every update only moves later, whatever happens to the status meanwhile. */
  lemma {:induction false} DeadlineNeverEarlier(r: Row, outcomes: seq<Outcome>)
    requires r.status != Enabled && r.cooldownUntil.Some?
    requires r.status == Cooling ==> forall i :: 0 <= i < |outcomes| ==> outcomes[i].dbNow < r.cooldownUntil.value
    ensures var r' := Processed(r, outcomes);
      r'.status != Enabled && r'.cooldownUntil.Some? && r'.cooldownUntil.value >= r.cooldownUntil.value
        && (r'.status == Cooling ==> r.status == Cooling)
  {
    if outcomes != [] { DeadlineNeverEarlier(r, outcomes[..|outcomes| - 1]); }
  }

  function Successes(outcomes: seq<Outcome>): nat {
    if outcomes == [] then 0
    else Successes(outcomes[..|outcomes| - 1]) + if outcomes[|outcomes| - 1].success then 1 else 0
  }

  /** How many failures came after the last success. */
  function FailureStreak(before: nat, outcomes: seq<Outcome>): nat {
    if outcomes == [] then before
    else if outcomes[|outcomes| - 1].success then 0
    else FailureStreak(before, outcomes[..|outcomes| - 1]) + 1
  }

  /** Every outcome is counted once, in any circumstances. */
  lemma {:induction false} CountersAddUp(r: Row, outcomes: seq<Outcome>)
    ensures var r' := Processed(r, outcomes);
      && r'.totalSuccesses == r.totalSuccesses + Successes(outcomes)
      && r'.totalSuccesses + r'.totalFailures == r.totalSuccesses + r.totalFailures + |outcomes|
      && r'.currentFailures == FailureStreak(r.currentFailures, outcomes)
  {
    if outcomes != [] { CountersAddUp(r, outcomes[..|outcomes| - 1]); }
  }

  lemma RestMatches(a: seq<Outcome>, b: seq<Outcome>, i: nat)
    requires a != [] && multiset(a) == multiset(b) && i < |b| && b[i] == a[|a| - 1]
    ensures multiset(a[..|a| - 1]) == multiset(b[..i] + b[i + 1..])
  {
    var x := b[i];
    assert b == b[..i] + [x] + b[i + 1..];
    assert multiset(b) == multiset(b[..i]) + multiset{x} + multiset(b[i + 1..]);
    assert a == a[..|a| - 1] + [x];
    assert multiset(a) == multiset(a[..|a| - 1]) + multiset{x};
    assert multiset(b[..i] + b[i + 1..]) == multiset(b[..i]) + multiset(b[i + 1..]);
    assert multiset(a[..|a| - 1]) == multiset(a) - multiset{x};
    assert multiset(b[..i]) + multiset(b[i + 1..]) == multiset(b) - multiset{x};
  }

  lemma {:induction false} SuccessesByMultiset(a: seq<Outcome>, b: seq<Outcome>)
    requires multiset(a) == multiset(b)
    ensures Successes(a) == Successes(b) && |a| == |b|
  {
    assert |a| == |multiset(a)| && |b| == |multiset(b)|;
    if a != [] {
      assert a[|a| - 1] in multiset(a) && a[|a| - 1] in multiset(b);
      var i :| 0 <= i < |b| && b[i] == a[|a| - 1];
      RestMatches(a, b, i);
      SuccessesByMultiset(a[..|a| - 1], b[..i] + b[i + 1..]);
      SuccessesWithout(b, i);
    }
  }

  lemma {:induction false} SuccessesWithout(s: seq<Outcome>, i: nat)
    requires i < |s|
    ensures Successes(s) == Successes(s[..i] + s[i + 1..]) + if s[i].success then 1 else 0
  {
    if i == |s| - 1 {
      assert s[..i] + s[i + 1..] == s[..|s| - 1];
    } else {
      var before := s[..|s| - 1];
      SuccessesWithout(before, i);
      assert (s[..i] + s[i + 1..])[..|s| - 2] == before[..i] + before[i + 1..];
    }
  }
}
