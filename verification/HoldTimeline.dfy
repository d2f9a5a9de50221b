/**
 A timeline of holds and the ticks it covers.

 A hold is pinned to some instances when it opens. A tick is covered for an
 instance when some hold pinned to it opened at or before the tick and no call
 had closed it by then: the union of the intervals of all its holds.
 */
module HoldTimeline {
  datatype Mark =
    | Opened(time: nat, pause: string, pins: seq<nat>)
    | Closed(time: nat, pause: string)
    | Other(time: nat)

  type Timeline = seq<Mark>

  function Last(m: Timeline): nat { if m == [] then 0 else m[|m| - 1].time }

  /** A clock that never goes back. */
  predicate Ordered(m: Timeline) { forall i, j | 0 <= i < j < |m| :: m[i].time <= m[j].time }

  predicate PinnedTo(k: Mark, id: nat) { k.Opened? && id in k.pins }

  predicate Closes(k: Mark, hold: Mark) { k.Closed? && hold.Opened? && k.pause == hold.pause }

  predicate ClosedBy(m: Timeline, i: nat, t: nat)
    requires i < |m|
  {
    exists j | i < j < |m| :: Closes(m[j], m[i]) && m[j].time <= t
  }

  predicate Covered(m: Timeline, id: nat, t: nat)
  {
    exists i: nat | i < |m| :: PinnedTo(m[i], id) && m[i].time <= t && !ClosedBy(m, i, t)
  }

  function CoveredTicks(m: Timeline, id: nat, now: nat): set<nat> { set t: nat | t < now && Covered(m, id, t) }

  function Measure(m: Timeline, id: nat, now: nat): nat { |CoveredTicks(m, id, now)| }

  function Move(k: Mark, before: set<string>, id: nat): set<string>
  {
    match k
    case Opened(_, pause, pins) => before + if id in pins then {pause} else {}
    case Closed(_, pause) => before - {pause}
    case Other(_) => before
  }

  /** The holds pinned to an instance that no call has closed. */
  function OpenNow(m: Timeline, id: nat): set<string>
  {
    if m == [] then {} else Move(m[|m| - 1], OpenNow(m[..|m| - 1], id), id)
  }

  lemma ClosedAppend(m: Timeline, k: Mark, i: nat, t: nat)
    requires i < |m|
    ensures ClosedBy(m + [k], i, t) <==> ClosedBy(m, i, t) || (Closes(k, m[i]) && k.time <= t)
  {
    var g := m + [k];
    assert g[|m|] == k;
    if ClosedBy(m, i, t) {
      var j :| i < j < |m| && Closes(m[j], m[i]) && m[j].time <= t;
      assert g[j] == m[j];
    }
    if ClosedBy(g, i, t) {
      var j :| i < j < |g| && Closes(g[j], g[i]) && g[j].time <= t;
      assert j < |m| ==> g[j] == m[j];
    }
  }

  /** A call changes no earlier tick. */
  lemma EarlierTicks(m: Timeline, k: Mark, id: nat, t: nat)
    requires t < k.time
    ensures Covered(m + [k], id, t) <==> Covered(m, id, t)
  {
    var g := m + [k];
    if Covered(m, id, t) {
      var i: nat :| i < |m| && PinnedTo(m[i], id) && m[i].time <= t && !ClosedBy(m, i, t);
      ClosedAppend(m, k, i, t);
      assert g[i] == m[i];
    }
    if Covered(g, id, t) {
      var i: nat :| i < |g| && PinnedTo(g[i], id) && g[i].time <= t && !ClosedBy(g, i, t);
      ClosedAppend(m, k, i, t);
    }
  }

  /** From the last call on, a tick is covered while some pinned hold is open. */
  lemma LaterTicks(m: Timeline, id: nat, t: nat)
    requires Ordered(m) && t >= Last(m)
    ensures Covered(m, id, t) <==> OpenNow(m, id) != {}
  {
    if Covered(m, id, t) {
      var i: nat :| i < |m| && PinnedTo(m[i], id) && m[i].time <= t && !ClosedBy(m, i, t);
      forall j | i < j < |m| ensures !Closes(m[j], m[i]) {
        assert m[j].time <= m[|m| - 1].time;
      }
      StaysOpen(m, i, id);
    }
    if OpenNow(m, id) != {} {
      var p :| p in OpenNow(m, id);
      var i := OpenedAt(m, id, p);
      assert m[i].time <= m[|m| - 1].time;
      assert !ClosedBy(m, i, t);
    }
  }

  lemma {:induction false} StaysOpen(m: Timeline, i: nat, id: nat)
    requires i < |m| && PinnedTo(m[i], id)
    requires forall j | i < j < |m| :: !Closes(m[j], m[i])
    ensures m[i].pause in OpenNow(m, id)
    decreases |m|
  {
    if i < |m| - 1 {
      var before := m[..|m| - 1];
      assert before[i] == m[i] && forall j | i < j < |before| :: before[j] == m[j];
      StaysOpen(before, i, id);
      assert !Closes(m[|m| - 1], m[i]);
    }
  }

  lemma {:induction false} OpenedAt(m: Timeline, id: nat, p: string) returns (i: nat)
    requires p in OpenNow(m, id)
    ensures i < |m| && PinnedTo(m[i], id) && m[i].pause == p
    ensures forall j | i < j < |m| :: !Closes(m[j], m[i])
    decreases |m|
  {
    var before, k := m[..|m| - 1], m[|m| - 1];
    if PinnedTo(k, id) && k.pause == p {
      i := |before|;
    } else {
      i := OpenedAt(before, id, p);
      assert m[i] == before[i] && forall j | 0 <= j < |before| :: m[j] == before[j];
    }
  }

  // ---- counting ticks ----

  function Ticks(a: nat, b: nat): (s: set<nat>)
    requires a <= b
    ensures |s| == b - a && forall t :: t in s <==> a <= t < b
  {
    if a == b then {} else Ticks(a, b - 1) + {b - 1}
  }

  lemma SubsetSize(a: set<nat>, b: set<nat>)
    requires a <= b
    ensures |a| <= |b|
  {
    assert b == a + (b - a);
  }

  /** After the last call the measure grows with the clock while a hold is open, and not otherwise. */
  lemma MeasureSplit(m: Timeline, id: nat, now: nat)
    requires Ordered(m) && now >= Last(m)
    ensures Measure(m, id, now) == Measure(m, id, Last(m)) + if OpenNow(m, id) != {} then now - Last(m) else 0
  {
    var tau := Last(m);
    var tail := Ticks(tau, now);
    forall t: nat | tau <= t ensures Covered(m, id, t) <==> OpenNow(m, id) != {} {
      LaterTicks(m, id, t);
    }
    var early := CoveredTicks(m, id, tau);
    if OpenNow(m, id) != {} {
      assert CoveredTicks(m, id, now) == early + tail;
      assert early !! tail;
    } else {
      assert CoveredTicks(m, id, now) == early;
    }
  }

  lemma MeasureAppend(m: Timeline, k: Mark, id: nat)
    ensures Measure(m + [k], id, k.time) == Measure(m, id, k.time)
  {
    forall t: nat | t < k.time ensures Covered(m + [k], id, t) <==> Covered(m, id, t) {
      EarlierTicks(m, k, id, t);
    }
    assert CoveredTicks(m + [k], id, k.time) == CoveredTicks(m, id, k.time);
  }

  /** Nothing is covered before the first hold that can be pinned. */
  lemma MeasureFrom(m: Timeline, id: nat, start: nat, now: nat)
    requires start <= now && forall i | 0 <= i < |m| && PinnedTo(m[i], id) :: m[i].time >= start
    ensures Measure(m, id, now) <= now - start
  {
    SubsetSize(CoveredTicks(m, id, now), Ticks(start, now));
  }
}
