/** The key pool: probing the keys of a provider, leases, and round-robin fairness. */
module KeyPool {
  import opened Wrappers
  import opened FixedWindow
  import opened KeyStates
  import opened KeyOrder
  import opened StableSort
  import opened Modular

  // ---------- the probe over values ----------

  type Views = map<int, KeyView>

  function StateOr(views: Views, id: int, now: int): KeyView {
    if id in views then views[id] else Fresh(now)
  }

  /** The index probed on the given attempt: (start + attempt) mod n. */
  function Index(start: nat, attempt: nat, n: nat): (i: nat)
    requires attempt < n
    ensures i < n
  {
    var i := start % n + attempt;
    if i < n then i else i - n
  }

  lemma IndexIsModulo(start: nat, attempt: nat, n: nat)
    requires attempt < n
    ensures Index(start, attempt, n) == (start + attempt) % n
  {
    WrapOnce(start, attempt, n);
  }

  /** The position after a grant at index `i`: (i + 1) mod n. */
  function Next(i: nat, n: nat): (p: nat)
    requires i < n
    ensures p < n
  {
    if i + 1 == n then 0 else i + 1
  }

  lemma NextIsModulo(i: nat, n: nat)
    requires i < n
    ensures Next(i, n) == (i + 1) % n
  {
    if i + 1 == n { ModSelf(n); } else { ModLess(i + 1, n); }
  }

  /** The listed keys in the order in which they are probed. */
  function Rotated(rows: seq<KeyRow>, start: nat): (cyclic: seq<KeyRow>)
    ensures |cyclic| == |rows|
    ensures forall a :: 0 <= a < |rows| ==> cyclic[a] == rows[Index(start, a, |rows|)]
  {
    seq(|rows|, a requires 0 <= a < |rows| => rows[Index(start, a, |rows|)])
  }

  /** The probe of keys in order, from `attempt` on: the states it leaves and the attempt that was granted. */
  function Probe(views: Views, cyclic: seq<KeyRow>, attempt: nat, clock: Clock): (r: (Views, Option<nat>))
    requires attempt <= |cyclic|
    ensures r.1.Some? ==> attempt <= r.1.value < |cyclic|
    decreases |cyclic| - attempt
  {
    if attempt == |cyclic| then (views, None)
    else
      var row := cyclic[attempt];
      var k := StateOr(views, row.id, clock.now);
      if Usable(k, row, clock) then (views[row.id := Visited(k, row, clock)], Some(attempt))
      else Probe(views[row.id := Checked(k, row, clock)], cyclic, attempt + 1, clock)
  }

  ghost predicate DistinctIds(rows: seq<KeyRow>) {
    forall i, j :: 0 <= i < j < |rows| ==> rows[i].id != rows[j].id
  }

  predicate UsableAt(views: Views, rows: seq<KeyRow>, i: nat, clock: Clock)
    requires i < |rows|
  {
    Usable(StateOr(views, rows[i].id, clock.now), rows[i], clock)
  }

  /** In cyclic order every index is met exactly once: on the attempt that is its distance from the start. */
  function Distance(start: nat, i: nat, n: nat): (d: nat)
    requires i < n
    ensures d < n && Index(start, d, n) == i
    ensures forall a :: 0 <= a < n && Index(start, a, n) == i ==> a == d
  {
    var s := start % n;
    if i >= s then i - s else i + n - s
  }

  /** What the probe did to the state of one listed key. */
  ghost function Outcome(views: Views, row: KeyRow, attempt: nat, granted: Option<nat>, clock: Clock): Option<KeyView> {
    var k := StateOr(views, row.id, clock.now);
    if granted.Some? && granted.value < attempt then if row.id in views then Some(views[row.id]) else None
    else if granted == Some(attempt) then Some(Visited(k, row, clock))
    else Some(Checked(k, row, clock))
  }

  ghost function Find(views: Views, id: int): Option<KeyView> {
    if id in views then Some(views[id]) else None
  }

  /** The probe from `attempt` on, said without recursion. */
  lemma {:induction false} ProbeFrom(views: Views, cyclic: seq<KeyRow>, attempt: nat, clock: Clock)
    requires attempt <= |cyclic| && DistinctIds(cyclic)
    ensures var (after, granted) := Probe(views, cyclic, attempt, clock);
      && (granted.Some? ==> attempt <= granted.value < |cyclic| && UsableAt(views, cyclic, granted.value, clock))
      && (forall a :: attempt <= a < |cyclic| && (granted.Some? ==> a < granted.value) ==>
        !UsableAt(views, cyclic, a, clock))
      && (forall a :: attempt <= a < |cyclic| ==>
        Find(after, cyclic[a].id) == Outcome(views, cyclic[a], a, granted, clock))
      && (forall id :: (forall a :: attempt <= a < |cyclic| ==> cyclic[a].id != id) ==>
        Find(after, id) == Find(views, id))
    decreases |cyclic| - attempt
  {
    hide Usable, Checked, Visited;
    if attempt < |cyclic| && !UsableAt(views, cyclic, attempt, clock) {
      var row := cyclic[attempt];
      var next := views[row.id := Checked(StateOr(views, row.id, clock.now), row, clock)];
      ProbeFrom(next, cyclic, attempt + 1, clock);
      assert forall a :: attempt < a < |cyclic| ==> Find(next, cyclic[a].id) == Find(views, cyclic[a].id);
      assert forall a :: attempt < a < |cyclic| ==>
        UsableAt(next, cyclic, a, clock) == UsableAt(views, cyclic, a, clock);
    }
  }

  lemma RotatedDistinct(rows: seq<KeyRow>, start: nat)
    requires DistinctIds(rows)
    ensures DistinctIds(Rotated(rows, start))
  {
    forall a, b | 0 <= a < b < |rows| ensures Rotated(rows, start)[a].id != Rotated(rows, start)[b].id {
      var i, j := Index(start, a, |rows|), Index(start, b, |rows|);
      assert Distance(start, i, |rows|) != Distance(start, j, |rows|);
      assert i < j || j < i;
    }
  }

  /**
   * The whole probe. The key granted is the usable one at the smallest cyclic distance from the
   * start; keys nearer than it are brought up to date, keys further on and keys not listed are
   * left alone; nothing is granted exactly when no listed key is usable.
   */
  lemma ProbeGrantsNearestUsable(views: Views, rows: seq<KeyRow>, start: nat, clock: Clock)
    requires DistinctIds(rows)
    ensures var (after, granted) := Probe(views, Rotated(rows, start), 0, clock);
      && (granted.None? <==> forall i :: 0 <= i < |rows| ==> !UsableAt(views, rows, i, clock))
      && (granted.Some? ==>
            var g := granted.value;
            && g < |rows| && UsableAt(views, rows, Index(start, g, |rows|), clock)
            && forall i :: 0 <= i < |rows| && UsableAt(views, rows, i, clock) ==> g <= Distance(start, i, |rows|))
      && (forall i :: 0 <= i < |rows| ==>
            Find(after, rows[i].id) == Outcome(views, rows[i], Distance(start, i, |rows|), granted, clock))
      && (forall id :: (forall i :: 0 <= i < |rows| ==> rows[i].id != id) ==> Find(after, id) == Find(views, id))
  {
    var cyclic := Rotated(rows, start);
    RotatedDistinct(rows, start);
    ProbeFrom(views, cyclic, 0, clock);
    assert forall i :: 0 <= i < |rows| ==> cyclic[Distance(start, i, |rows|)] == rows[i];
    assert forall i :: 0 <= i < |rows| ==>
      UsableAt(views, rows, i, clock) == UsableAt(views, cyclic, Distance(start, i, |rows|), clock);
  }

  /** From the start of the list the first usable key is granted. */
  lemma FirstUsableIsGranted(views: Views, rows: seq<KeyRow>, clock: Clock, i: nat)
    requires DistinctIds(rows) && i < |rows| && UsableAt(views, rows, i, clock)
    ensures var granted := Probe(views, Rotated(rows, 0), 0, clock).1;
      granted.Some? && granted.value <= i && Index(0, granted.value, |rows|) == granted.value
  {
    ProbeGrantsNearestUsable(views, rows, 0, clock);
    hide Probe, UsableAt, Find, Outcome, Rotated;
  }

  lemma SplitAt(rows: seq<KeyRow>, i: nat)
    requires i < |rows|
    ensures multiset(rows) == multiset(rows[..i]) + multiset{rows[i]} + multiset(rows[i + 1..])
  {
    assert rows == rows[..i] + [rows[i]] + rows[i + 1..];
  }

  lemma PermutedDistinct(rows: seq<KeyRow>, ordered: seq<KeyRow>)
    requires multiset(ordered) == multiset(rows) && DistinctIds(rows)
    ensures DistinctIds(ordered) && forall row :: row in ordered <==> row in rows
  {
    assert forall row :: row in ordered <==> row in multiset(ordered);
    assert forall row :: row in rows <==> row in multiset(rows);
    forall i, j | 0 <= i < j < |ordered| ensures ordered[i].id != ordered[j].id {
      var row := ordered[i];
      assert row in rows && ordered[j] in rows;
      if row.id == ordered[j].id {
        assert row == ordered[j];
        SplitAt(ordered, i);
        assert row in ordered[i + 1..] by { assert ordered[i + 1..][j - i - 1] == row; }
        assert multiset(ordered)[row] >= 2;
        var at :| 0 <= at < |rows| && rows[at] == row;
        SplitAt(rows, at);
        assert false;
      }
    }
  }

  // ---------- round-robin fairness ----------

  /** The nearest usable index from `start`, as an attempt number. */
  function Nearest(usable: seq<bool>, start: nat, attempt: nat): (a: Option<nat>)
    requires attempt <= |usable|
    ensures a.Some? ==> attempt <= a.value < |usable| && usable[Index(start, a.value, |usable|)]
    ensures forall b :: attempt <= b < |usable| && (a.Some? ==> b < a.value) ==> !usable[Index(start, b, |usable|)]
    decreases |usable| - attempt
  {
    if attempt == |usable| then None
    else if usable[Index(start, attempt, |usable|)] then Some(attempt)
    else Nearest(usable, start, attempt + 1)
  }

  /** The nearest usable index is determined by what it is. */
  lemma NearestUnique(usable: seq<bool>, start: nat, a: Option<nat>)
    requires a.Some? ==> a.value < |usable| && usable[Index(start, a.value, |usable|)]
    requires forall b :: 0 <= b < |usable| && (a.Some? ==> b < a.value) ==> !usable[Index(start, b, |usable|)]
    ensures a == Nearest(usable, start, 0)
  {
    var n := Nearest(usable, start, 0);
    hide Index, Nearest;
    if n.Some? { assert usable[Index(start, n.value, |usable|)]; }
  }

  lemma ProbeIsNearest(views: Views, rows: seq<KeyRow>, start: nat, clock: Clock, usable: seq<bool>)
    requires DistinctIds(rows) && |usable| == |rows|
    requires forall i :: 0 <= i < |rows| ==> usable[i] == UsableAt(views, rows, i, clock)
    ensures Probe(views, Rotated(rows, start), 0, clock).1 == Nearest(usable, start, 0)
  {
    var cyclic := Rotated(rows, start);
    RotatedDistinct(rows, start);
    var granted := ProbedFirst(views, cyclic, clock);
    forall a | 0 <= a < |rows| ensures usable[Index(start, a, |rows|)] == UsableAt(views, cyclic, a, clock) {
      RotatedUsable(views, rows, start, a, clock);
    }
    hide UsableAt, Probe, Rotated, Index, Nearest;
    NearestUnique(usable, start, granted);
  }

  lemma RotatedUsable(views: Views, rows: seq<KeyRow>, start: nat, a: nat, clock: Clock)
    requires a < |rows|
    ensures UsableAt(views, Rotated(rows, start), a, clock) == UsableAt(views, rows, Index(start, a, |rows|), clock)
  {
  }

  lemma ProbedFirst(views: Views, cyclic: seq<KeyRow>, clock: Clock) returns (granted: Option<nat>)
    requires DistinctIds(cyclic)
    ensures granted == Probe(views, cyclic, 0, clock).1
    ensures granted.Some? ==> granted.value < |cyclic| && UsableAt(views, cyclic, granted.value, clock)
    ensures forall a :: 0 <= a < |cyclic| && (granted.Some? ==> a < granted.value) ==>
      !UsableAt(views, cyclic, a, clock)
  {
    ProbeFrom(views, cyclic, 0, clock);
    granted := Probe(views, cyclic, 0, clock).1;
  }

  /**
   * One acquire in a run: what has become of the states since the last one, by releases and other
   * requests, and the listing and the clock that it works with.
   */
  datatype Round = Round(change: Views -> Views, rows: seq<KeyRow>, clock: Clock)

  /** The states after it, the next position, and the index of the key granted. */
  function Acquired(views: Views, position: nat, round: Round): (Views, nat, Option<nat>) {
    var n := |round.rows|;
    match Probe(round.change(views), Rotated(round.rows, position), 0, round.clock)
    case (after, None) => (after, position, None)
    case (after, Some(a)) => (after, Next(Index(position, a, n), n), Some(Index(position, a, n)))
  }

  /** The keys granted by successive round-robin acquires. */
  function Grants(views: Views, position: nat, rounds: seq<Round>): (grants: seq<Option<nat>>)
    ensures |grants| == |rounds|
    decreases |rounds|
  {
    if rounds == [] then []
    else
      var (after, next, granted) := Acquired(views, position, rounds[0]);
      [granted] + Grants(after, next, rounds[1..])
  }

  /** The listing has the same keys in the same order in every round. */
  ghost predicate SameList(rounds: seq<Round>, ids: seq<int>) {
    && (forall i, j :: 0 <= i < j < |ids| ==> ids[i] != ids[j])
    && (forall r :: 0 <= r < |rounds| ==>
          |rounds[r].rows| == |ids| && forall i :: 0 <= i < |ids| ==> rounds[r].rows[i].id == ids[i])
  }

  /** One listed key is usable whenever a round of the run starts to probe. */
  ghost predicate StaysUsable(views: Views, position: nat, rounds: seq<Round>, j: nat)
    decreases |rounds|
  {
    rounds == [] || (
      && j < |rounds[0].rows| && UsableAt(rounds[0].change(views), rounds[0].rows, j, rounds[0].clock)
      && var (after, next, _) := Acquired(views, position, rounds[0]);
      StaysUsable(after, next, rounds[1..], j))
  }

  /** A grant to a nearer key brings the position strictly closer. */
  lemma DistanceShrinks(position: nat, a: nat, j: nat, n: nat)
    requires j < n && a < Distance(position, j, n)
    ensures Distance(Next(Index(position, a, n), n), j, n) == Distance(position, j, n) - a - 1
  {
    ModLess(Next(Index(position, a, n), n), n);
  }

  /** The round grants the waiting key, or one nearer to the position. */
  lemma GrantIsNear(views: Views, position: nat, round: Round, j: nat)
    requires j < |round.rows| && DistinctIds(round.rows) && UsableAt(round.change(views), round.rows, j, round.clock)
    ensures var n := |round.rows|; var (_, next, granted) := Acquired(views, position, round);
      && granted.Some?
      && (granted == Some(j) || Distance(next, j, n) < Distance(position, j, n))
  {
    var n, v := |round.rows|, round.change(views);
    ProbeGrantsNearestUsable(v, round.rows, position, round.clock);
    var granted := Probe(v, Rotated(round.rows, position), 0, round.clock).1;
    if granted.value < Distance(position, j, n) { DistanceShrinks(position, granted.value, j, n); }
  }

  lemma FirstRound(rounds: seq<Round>, ids: seq<int>)
    requires SameList(rounds, ids) && rounds != []
    ensures |rounds[0].rows| == |ids| && DistinctIds(rounds[0].rows) && SameList(rounds[1..], ids)
  {
  }

  /**
   * Bounded waiting. Over an unchanged list of n keys, whatever else happens to their states between
   * the acquires, a key that is usable at every acquire is granted within n of them, and before its
   * cyclic distance from the position is used up.
   */
  lemma {:induction false} RoundRobinBoundedWaiting(views: Views, position: nat, rounds: seq<Round>, ids: seq<int>,
                                                    j: nat)
    requires j < |ids| && SameList(rounds, ids) && StaysUsable(views, position, rounds, j)
    requires |rounds| > Distance(position, j, |ids|)
    ensures exists r :: 0 <= r <= Distance(position, j, |ids|) < |ids| && Grants(views, position, rounds)[r] == Some(j)
    decreases |rounds|
  {
    var grants := Grants(views, position, rounds);
    FirstRound(rounds, ids);
    GrantIsNear(views, position, rounds[0], j);
    var (after, next, granted) := Acquired(views, position, rounds[0]);
    hide Acquired, UsableAt, Distance, SameList;
    if granted == Some(j) {
      assert grants[0] == Some(j);
    } else {
      RoundRobinBoundedWaiting(after, next, rounds[1..], ids, j);
      var r :| 0 <= r <= Distance(next, j, |ids|) && Grants(after, next, rounds[1..])[r] == Some(j);
      assert grants[r + 1] == Some(j);
    }
  }
}
