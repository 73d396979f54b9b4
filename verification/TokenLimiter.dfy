/** The per-minute limiter of API tokens. */
module TokenLimiter {
  import opened FixedWindow

  type Windows = map<int, Window>

  /** One call of a token: its id, its limit as read for this call, and the clock. */
  datatype Call = Call(id: int, limit: int, now: int)

  const MINUTE: int := 60_000_000_000

  /** The window a call is counted in; a token without one starts one now. */
  function Current(table: Windows, call: Call): Window {
    if call.id in table then Roll(table[call.id], call.now, MINUTE) else Window(call.now, 0)
  }

  function AfterCall(table: Windows, call: Call): (Windows, bool) {
    if call.limit <= 0 then (table, true)
    else
      var w := Current(table, call);
      if w.count >= call.limit then (table[call.id := w], false) else (table[call.id := w.(count := w.count + 1)], true)
  }

  class AuthService {
    var rateWindows: Windows

    constructor ()
      ensures rateWindows == map[]
    {
      rateWindows := map[];
    }

    method AllowToken(call: Call) returns (allowed: bool)
      modifies this
      ensures (rateWindows, allowed) == AfterCall(old(rateWindows), call)
      ensures call.limit <= 0 ==> allowed && rateWindows == old(rateWindows)
      ensures call.limit > 0 ==> call.id in rateWindows && call.now - rateWindows[call.id].start < MINUTE
      ensures forall id :: id != call.id ==>
        && (id in rateWindows <==> id in old(rateWindows))
        && (id in rateWindows ==> rateWindows[id] == old(rateWindows)[id])
    {
      if call.limit <= 0 {
        return true;
      }
      var window := Window(call.now, 0);
      if call.id in rateWindows && call.now - rateWindows[call.id].start < MINUTE {
        window := rateWindows[call.id];
      }
      if window.count >= call.limit {
        rateWindows := rateWindows[call.id := window];
        return false;
      }
      window := window.(count := window.count + 1);
      rateWindows := rateWindows[call.id := window];
      return true;
    }
  }

  // ---------- runs ----------

  function Table(calls: seq<Call>): Windows {
    if calls == [] then map[] else AfterCall(Table(calls[..|calls| - 1]), calls[|calls| - 1]).0
  }

  /** The answer to the last call. */
  predicate Allowed(calls: seq<Call>)
    requires calls != []
  {
    AfterCall(Table(calls[..|calls| - 1]), calls[|calls| - 1]).1
  }

  /** The counted admissions of one token, each with the window that counted it. */
  ghost function Admissions(calls: seq<Call>, id: int): seq<Mark> {
    if calls == [] then []
    else
      var before, last := calls[..|calls| - 1], calls[|calls| - 1];
      Admissions(before, id) +
        if last.id == id && Allowed(calls) then [Mark(last.now, Current(Table(before), last).start)] else []
  }

  /** The clock never goes back, and every call of this token is limited to at most `limit`. */
  ghost predicate Limited(calls: seq<Call>, id: int, limit: int) {
    && (forall i, j :: 0 <= i < j < |calls| ==> calls[i].now <= calls[j].now)
    && (forall i :: 0 <= i < |calls| && calls[i].id == id ==> 0 < calls[i].limit <= limit)
  }

  /** Every window was opened by an admission at its very start. */
  ghost predicate Opened(h: seq<Mark>) {
    forall i :: 0 <= i < |h| ==> Mark(h[i].start, h[i].start) in h
  }

  ghost predicate Kept(table: Windows, h: seq<Mark>, id: int, limit: nat, now: int) {
    && Opened(h)
    && (forall i :: 0 <= i < |h| ==> h[i].time <= now)
    && (if id in table then
          table[id].start <= now && Consistent(table[id], h, limit, MINUTE)
            && Mark(table[id].start, table[id].start) in h
        else h == [])
  }

  lemma OpenedStays(h: seq<Mark>, m: Mark)
    requires Opened(h) && (Mark(m.start, m.start) in h || m.time == m.start)
    ensures Opened(h + [m]) && m in h + [m] && forall x :: x in h ==> x in h + [m]
  {
    var g := h + [m];
    forall x | x in h ensures x in g { var i :| 0 <= i < |h| && h[i] == x; assert g[i] == x; }
    assert g[|h|] == m;
    forall i | 0 <= i < |g| ensures Mark(g[i].start, g[i].start) in g {
      if i < |h| { assert g[i] == h[i]; }
    }
  }

  lemma NothingAdmitted(start: int, limit: nat)
    ensures Consistent(Window(start, 0), [], limit, MINUTE)
  {
  }

  lemma KeptCall(table: Windows, h: seq<Mark>, call: Call, limit: nat, before: int)
    requires Kept(table, h, call.id, limit, before) && before <= call.now && 0 < call.limit <= limit
    ensures var w := Current(table, call); var (table', allowed) := AfterCall(table, call);
      Kept(table', if allowed then h + [Mark(call.now, w.start)] else h, call.id, limit, call.now)
  {
    hide Consistent, Opened;
    var w := Current(table, call);
    if call.id in table {
      RollKeepsConsistent(table[call.id], h, limit, MINUTE, call.now);
    } else {
      NothingAdmitted(w.start, limit);
    }
    if w.count < call.limit {
      AdmitKeepsConsistent(w, h, limit, MINUTE, call.now);
      OpenedStays(h, Mark(call.now, w.start));
    } else {
      assert w == table[call.id];
    }
  }

  lemma KeptElsewhere(table: Windows, h: seq<Mark>, id: int, call: Call, limit: nat)
    requires Kept(table, h, id, limit, call.now) && call.id != id
    ensures Kept(AfterCall(table, call).0, h, id, limit, call.now)
  {
    hide Consistent, Opened;
  }

  lemma KeptLater(table: Windows, h: seq<Mark>, id: int, limit: nat, now: int, later: int)
    requires Kept(table, h, id, limit, now) && now <= later
    ensures Kept(table, h, id, limit, later)
  {
    hide Consistent, Opened;
  }

  lemma {:induction false} KeptRun(calls: seq<Call>, id: int, limit: nat, now: int)
    requires Limited(calls, id, limit) && (forall i :: 0 <= i < |calls| ==> calls[i].now <= now)
    ensures Kept(Table(calls), Admissions(calls, id), id, limit, now)
  {
    if calls == [] {
    } else {
      hide Kept, AfterCall, Current;
      var before, last := calls[..|calls| - 1], calls[|calls| - 1];
      KeptRun(before, id, limit, last.now);
      if last.id == id {
        KeptCall(Table(before), Admissions(before, id), last, limit, last.now);
        assert Admissions(before, id) + [] == Admissions(before, id);
      } else {
        KeptElsewhere(Table(before), Admissions(before, id), id, last, limit);
        assert Admissions(calls, id) == Admissions(before, id);
      }
      KeptLater(Table(calls), Admissions(calls, id), id, limit, last.now, now);
    }
  }

  /** A call is refused exactly if a window that has not run out has admitted as many as its limit allows. */
  lemma RefusedExactly(calls: seq<Call>, limit: nat)
    requires calls != [] && Limited(calls, calls[|calls| - 1].id, limit)
    ensures var last := calls[|calls| - 1]; var h := Admissions(calls[..|calls| - 1], last.id);
      !Allowed(calls) <==>
        exists i :: 0 <= i < |h| && last.now - h[i].start < MINUTE && AdmittedBy(h, h[i].start) >= last.limit
  {
    var before, last := calls[..|calls| - 1], calls[|calls| - 1];
    KeptRun(before, last.id, limit, last.now);
    hide Admissions, Table, Kept;
    RefusedByWindow(Table(before), Admissions(before, last.id), last, limit);
  }

  ghost predicate FullWindow(h: seq<Mark>, call: Call, i: nat)
    requires i < |h|
  {
    call.now - h[i].start < MINUTE && AdmittedBy(h, h[i].start) >= call.limit
  }

  lemma RefusedByWindow(table: Windows, h: seq<Mark>, call: Call, limit: nat)
    requires Kept(table, h, call.id, limit, call.now) && 0 < call.limit <= limit
    ensures !AfterCall(table, call).1 <==> exists i :: 0 <= i < |h| && FullWindow(h, call, i)
  {
    hide Opened, AdmittedBy, Spaced;
    if call.id in table {
      var w := table[call.id];
      var i :| 0 <= i < |h| && h[i] == Mark(w.start, w.start);
      assert FullWindow(h, call, i) <==> call.now - w.start < MINUTE && w.count >= call.limit;
    }
  }

  /** One admission of window `s` is outside the interval. */
  lemma {:induction false} CountAllButOne(h: seq<Mark>, from: int, s: int, t: int, opening: Mark)
    requires s != t && opening in h && opening.start == s && !Inside(opening, from, MINUTE)
    requires forall i :: 0 <= i < |h| && Inside(h[i], from, MINUTE) ==> h[i].start == s || h[i].start == t
    ensures Within(h, from, MINUTE) < AdmittedBy(h, s) + AdmittedBy(h, t)
  {
    var before := h[..|h| - 1];
    if opening in before {
      CountAllButOne(before, from, s, t, opening);
    } else {
      assert h == before + [h[|h| - 1]];
      CountTwo(before, from, MINUTE, s, t);
    }
  }

  lemma TwoWindows(h: seq<Mark>, from: int, limit: nat, i: nat, j: nat)
    requires Spaced(h, MINUTE) && Opened(h) && forall s :: AdmittedBy(h, s) <= limit
    requires i < |h| && j < |h| && Inside(h[i], from, MINUTE) && Inside(h[j], from, MINUTE) && h[i].start < h[j].start
    ensures Within(h, from, MINUTE) <= 2 * limit - 1
  {
    forall k | 0 <= k < |h| && Inside(h[k], from, MINUTE)
      ensures h[k].start == h[i].start || h[k].start == h[j].start
    {
      NoThreeWindows(h, from, MINUTE, i, j, k);
    }
    CountAllButOne(h, from, h[i].start, h[j].start, Mark(h[i].start, h[i].start));
  }

  /**
   * Over any run with a clock that does not go back, a token whose limit never exceeds `limit`
   * is admitted at most 2 * limit - 1 times in any half-open minute, however its limit is edited.
   */
  lemma AdmissionsPerMinute(calls: seq<Call>, id: int, limit: nat, from: int)
    requires Limited(calls, id, limit) && limit > 0
    ensures Within(Admissions(calls, id), from, MINUTE) <= 2 * limit - 1
  {
    if calls != [] {
      KeptRun(calls, id, limit, calls[|calls| - 1].now);
      var h := Admissions(calls, id);
      if i: nat, j: nat :|
        && i < |h| && j < |h| && h[i].start < h[j].start
        && Inside(h[i], from, MINUTE) && Inside(h[j], from, MINUTE)
      {
        TwoWindows(h, from, limit, i, j);
      } else if i: nat :| i < |h| && Inside(h[i], from, MINUTE) {
        CountOne(h, from, MINUTE, h[i].start);
      } else {
        CountNone(h, from, MINUTE);
      }
    }
  }

  // ---------- the bound is exact ----------

  function Repeated(call: Call, n: nat): seq<Call> {
    if n == 0 then [] else Repeated(call, n - 1) + [call]
  }

  lemma OneAdmitted(calls: seq<Call>, call: Call)
    requires call.limit > 0 && Current(Table(calls), call).count < call.limit
    ensures var w := Current(Table(calls), call); var all := calls + [call];
      && call.id in Table(all) && Table(all)[call.id] == w.(count := w.count + 1)
      && Current(Table(all), call) == w.(count := w.count + 1)
      && Admissions(all, call.id) == Admissions(calls, call.id) + [Mark(call.now, w.start)]
  {
    var all := calls + [call];
    assert all[..|all| - 1] == calls;
  }

  /** While its window has room for them, a burst of calls is admitted to the last one. */
  lemma {:induction false} BurstAdmitted(calls: seq<Call>, call: Call, n: nat, from: int)
    requires call.limit > 0 && n > 0 && Current(Table(calls), call).count + n <= call.limit
    ensures var w := Current(Table(calls), call); var all := calls + Repeated(call, n);
      && call.id in Table(all) && Table(all)[call.id] == Current(Table(all), call) == w.(count := w.count + n)
    ensures Within(Admissions(calls + Repeated(call, n), call.id), from, MINUTE)
         == Within(Admissions(calls, call.id), from, MINUTE) + if from <= call.now < from + MINUTE then n else 0
  {
    hide Within, Table, Admissions, Current;
    var before := calls + Repeated(call, n - 1);
    assert calls + Repeated(call, n) == before + [call];
    if n > 1 { BurstAdmitted(calls, call, n - 1, from); } else { assert before == calls; }
    OneAdmitted(before, call);
    AppendMark(Admissions(before, call.id), Mark(call.now, Current(Table(before), call).start));
  }

  lemma {:induction false} RepeatedIs(call: Call, n: nat)
    ensures |Repeated(call, n)| == n && forall i :: 0 <= i < n ==> Repeated(call, n)[i] == call
  {
    if n > 0 { RepeatedIs(call, n - 1); }
  }

  /** A window opened by one call, filled up in its last instant, and the next one filled at once. */
  function AcrossTheBorder(limit: nat): seq<Call>
    requires limit > 0
  {
    Repeated(Call(0, limit, 0), 1) + Repeated(Call(0, limit, MINUTE - 1), limit - 1)
      + Repeated(Call(0, limit, MINUTE), limit)
  }

  lemma AcrossIsLimited(limit: nat)
    requires limit > 0
    ensures Limited(AcrossTheBorder(limit), 0, limit)
  {
    RepeatedIs(Call(0, limit, 0), 1);
    RepeatedIs(Call(0, limit, MINUTE - 1), limit - 1);
    RepeatedIs(Call(0, limit, MINUTE), limit);
  }

  lemma NothingYet(call: Call, from: int)
    ensures Table([]) == map[] && Within(Admissions([], 0), from, MINUTE) == 0 && Repeated(call, 0) == []
  {
  }

  lemma BoundIsReached(limit: nat)
    requires limit > 0
    ensures exists calls, from ::
      Limited(calls, 0, limit) && Within(Admissions(calls, 0), from, MINUTE) == 2 * limit - 1
  {
    hide Limited, Repeated, Table, Admissions, Within;
    var from := MINUTE - 1;
    var opening, late, next := Call(0, limit, 0), Call(0, limit, from), Call(0, limit, MINUTE);
    var first := Repeated(opening, 1);
    var second := first + Repeated(late, limit - 1);
    NothingYet(late, from);
    BurstAdmitted([], opening, 1, from);
    assert [] + first == first;
    assert Table(first)[0] == Window(0, 1);
    if limit > 1 { BurstAdmitted(first, late, limit - 1, from); } else { assert second == first; }
    assert Table(second)[0] == Window(0, limit);
    BurstAdmitted(second, next, limit, from);
    AcrossIsLimited(limit);
    assert AcrossTheBorder(limit) == second + Repeated(next, limit);
  }
}
