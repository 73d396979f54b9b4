/**
 * The fixed-window counter that the key pool (requests per minute) and the API
 * token limiter share, and the sliding-interval bound that it implies.
 */
module FixedWindow {

  datatype Window = Window(start: int, count: nat)

  /** A window older than `span` is replaced by an empty one that starts now. */
  function Roll(w: Window, now: int, span: int): Window {
    if now - w.start >= span then Window(now, 0) else w
  }

  /** One admission: when it happened and the start of the window that admitted it. */
  datatype Mark = Mark(time: int, start: int)

  /** How many admissions fall into the half-open interval [from, from + span). */
  ghost function Within(h: seq<Mark>, from: int, span: int): nat {
    if h == [] then 0
    else Within(h[..|h| - 1], from, span) + if Inside(h[|h| - 1], from, span) then 1 else 0
  }

  /** How many admissions the window starting at `start` made. */
  ghost function AdmittedBy(h: seq<Mark>, start: int): nat {
    if h == [] then 0
    else AdmittedBy(h[..|h| - 1], start) + if h[|h| - 1].start == start then 1 else 0
  }

  ghost predicate Inside(m: Mark, from: int, span: int) {
    from <= m.time < from + span
  }

  /** Admissions are in time order, inside their own windows, and windows are a full span apart. */
  ghost predicate Spaced(h: seq<Mark>, span: int) {
    && (forall i :: 0 <= i < |h| ==> h[i].start <= h[i].time < h[i].start + span)
    && (forall i, j :: 0 <= i < j < |h| ==>
          h[i].time <= h[j].time && (h[i].start == h[j].start || h[i].start + span <= h[j].start))
  }

  lemma AppendMark(h: seq<Mark>, m: Mark)
    ensures forall s :: AdmittedBy(h + [m], s) == AdmittedBy(h, s) + if m.start == s then 1 else 0
    ensures forall from, span ::
      Within(h + [m], from, span) == Within(h, from, span) + if Inside(m, from, span) then 1 else 0
  {
    assert (h + [m])[..|h + [m]| - 1] == h;
  }

  /** An interval of one span never meets three different windows. */
  lemma NoThreeWindows(h: seq<Mark>, from: int, span: int, i: nat, j: nat, k: nat)
    requires Spaced(h, span)
    requires i < |h| && j < |h| && k < |h|
    requires Inside(h[i], from, span) && Inside(h[j], from, span) && Inside(h[k], from, span)
    ensures h[i].start == h[j].start || h[i].start == h[k].start || h[j].start == h[k].start
  {
  }

  ghost function Max(a: int, b: int): int { if a < b then b else a }

  lemma {:induction false} CountOne(h: seq<Mark>, from: int, span: int, s: int)
    requires forall i :: 0 <= i < |h| && Inside(h[i], from, span) ==> h[i].start == s
    ensures Within(h, from, span) <= AdmittedBy(h, s)
  {
    if h != [] { CountOne(h[..|h| - 1], from, span, s); }
  }

  lemma {:induction false} CountTwo(h: seq<Mark>, from: int, span: int, s: int, t: int)
    requires s != t
    requires forall i :: 0 <= i < |h| && Inside(h[i], from, span) ==> h[i].start == s || h[i].start == t
    ensures Within(h, from, span) <= AdmittedBy(h, s) + AdmittedBy(h, t)
  {
    if h != [] { CountTwo(h[..|h| - 1], from, span, s, t); }
  }

  lemma {:induction false} CountNone(h: seq<Mark>, from: int, span: int)
    requires forall i :: 0 <= i < |h| ==> !Inside(h[i], from, span)
    ensures Within(h, from, span) == 0
  {
    if h != [] { CountNone(h[..|h| - 1], from, span); }
  }

  /**
   * The sliding bound. If every single window admits at most `cap` and, whenever two windows
   * both meet the interval, the earlier one admits at most `first`, then the interval holds
   * at most max(cap, first + cap) admissions.
   */
  lemma SlidingBound(h: seq<Mark>, from: int, span: int, first: nat, cap: nat)
    requires Spaced(h, span)
    requires forall s :: AdmittedBy(h, s) <= cap
    requires forall i, j | 0 <= i < |h| && 0 <= j < |h| && h[i].start < h[j].start
               && Inside(h[i], from, span) && Inside(h[j], from, span) :: AdmittedBy(h, h[i].start) <= first
    ensures Within(h, from, span) <= Max(cap, first + cap)
  {
    if i: nat :| i < |h| && Inside(h[i], from, span) {
      if j: nat :| j < |h| && Inside(h[j], from, span) && h[j].start != h[i].start {
        forall k | 0 <= k < |h| && Inside(h[k], from, span)
          ensures h[k].start == h[i].start || h[k].start == h[j].start
        {
          NoThreeWindows(h, from, span, i, j, k);
        }
        CountTwo(h, from, span, h[i].start, h[j].start);
      } else {
        CountOne(h, from, span, h[i].start);
      }
    } else {
      CountNone(h, from, span);
    }
  }

  /** The invariant that a window keeps with the history of the admissions counted in it. */
  ghost predicate Consistent(w: Window, h: seq<Mark>, limit: nat, span: int) {
    && Spaced(h, span)
    && (forall s :: AdmittedBy(h, s) <= limit)
    && AdmittedBy(h, w.start) == w.count
    && (forall i :: 0 <= i < |h| ==> h[i].start == w.start || h[i].start + span <= w.start)
  }

  lemma {:induction false} NoneAdmitted(h: seq<Mark>, s: int)
    requires forall i :: 0 <= i < |h| ==> h[i].start != s
    ensures AdmittedBy(h, s) == 0
  {
    if h != [] { NoneAdmitted(h[..|h| - 1], s); }
  }

  lemma RollKeepsConsistent(w: Window, h: seq<Mark>, limit: nat, span: int, now: int)
    requires span > 0 && Consistent(w, h, limit, span)
    ensures Consistent(Roll(w, now, span), h, limit, span)
  {
    if now - w.start >= span {
      forall i | 0 <= i < |h| ensures h[i].start + span <= now {}
      NoneAdmitted(h, now);
    }
  }

  /** Counting one more admission below the limit in an unexpired window. */
  lemma AdmitKeepsConsistent(w: Window, h: seq<Mark>, limit: nat, span: int, now: int)
    requires span > 0 && Consistent(w, h, limit, span)
    requires w.start <= now < w.start + span && w.count < limit
    requires forall i :: 0 <= i < |h| ==> h[i].time <= now
    ensures Consistent(w.(count := w.count + 1), h + [Mark(now, w.start)], limit, span)
  {
    AppendMark(h, Mark(now, w.start));
  }
}
