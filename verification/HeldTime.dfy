/**
 What the ledger reports: the measure of the union of the intervals of all holds
 pinned to an instance (`HeldExact`), never more than the instance's own age
 (`HeldWithinAge`).
 */
module HeldTime {
  import opened Json
  import opened OrderedDict
  import opened HeldLedger
  import opened HoldTimeline

  datatype Op =
    | Start(run: string, node: string, name: string, parent: Option<string>)
    | Fail(run: string, node: string, of: Option<string>)
    | Finish(run: string, node: string, of: Option<string>)
    | Open(pause: string, run: string, node: string, point: Point)
    | Close(pause: string)

  datatype Event = Event(time: nat, op: Op)

  function Errored(l: Ledger, run: string, node: string, of: Option<string>): Ledger
  {
    var id := Pick(l, run, node, of);
    if id.Some? && id.value in l.info then MarkErrored(l, id.value, true) else l
  }

  function Finished(l: Ledger, run: string, node: string, of: Option<string>): Ledger
  {
    var id := Pick(l, run, node, of);
    if id.Some? && id.value in l.info then RemoveInstance(l, id.value) else l
  }

  function Step(l: Ledger, e: Event): Ledger
  {
    match e.op
    case Start(run, node, name, parent) => Started(l, run, node, name, parent)
    case Fail(run, node, of) => Errored(l, run, node, of)
    case Finish(run, node, of) => Finished(l, run, node, of)
    case Open(pause, run, node, point) => HoldOpened(l, pause, run, node, point, e.time)
    case Close(pause) => HoldClosed(l, pause, e.time)
  }

  function State(max: nat, h: seq<Event>): Ledger
  {
    if h == [] then Empty(max) else Step(State(max, h[..|h| - 1]), h[|h| - 1])
  }

  function MarkOf(l: Ledger, e: Event): (k: Mark)
    ensures k.time == e.time
  {
    match e.op
    case Open(pause, run, node, point) => Opened(e.time, pause, Pins(l, run, node, point))
    case Close(pause) => Closed(e.time, pause)
    case _ => Other(e.time)
  }

  /** The holds of a history, each with the instances it was pinned to when it opened. */
  function Marks(max: nat, h: seq<Event>): (m: Timeline)
    ensures |m| == |h| && forall i | 0 <= i < |h| :: m[i].time == h[i].time
  {
    if h == [] then [] else Marks(max, h[..|h| - 1]) + [MarkOf(State(max, h[..|h| - 1]), h[|h| - 1])]
  }

  /** A clock that never goes back, and pause ids that are never used twice. */
  predicate Sound(h: seq<Event>)
  {
    && (forall i, j | 0 <= i < j < |h| :: h[i].time <= h[j].time)
    && (forall i, j | 0 <= i < j < |h| && h[i].op.Open? && h[j].op.Open? :: h[i].op.pause != h[j].op.pause)
  }

  predicate OpenedBefore(h: seq<Event>, pause: string) { exists i | 0 <= i < |h| :: h[i].op.Open? && h[i].op.pause == pause }

  // ---- one call ----

  /** Every open instance's total at the clock, and the holds it counts, are the timeline's. */
  predicate Meters(l: Ledger, m: Timeline, now: nat)
  {
    forall id | id in l.info ::
      && Total(l.info[id], now) == Measure(m, id, now)
      && Pinning(l.holds, id) == OpenNow(m, id)
      && (l.info[id].open > 0 ==> l.info[id].since <= now)
  }

  /** Serial numbers are handed out once. */
  predicate PinsBelow(m: Timeline, next: Id)
  {
    forall i | 0 <= i < |m| && m[i].Opened? :: forall j | 0 <= j < |m[i].pins| :: m[i].pins[j] < next
  }

  lemma {:induction false} NeverPinned(m: Timeline, id: Id)
    requires forall i | 0 <= i < |m| :: !PinnedTo(m[i], id)
    ensures OpenNow(m, id) == {} && forall now :: Measure(m, id, now) == 0
  {
    forall now ensures Measure(m, id, now) == 0 {
      assert CoveredTicks(m, id, now) == {};
    }
    if m != [] {
      var before := m[..|m| - 1];
      assert forall i | 0 <= i < |before| :: before[i] == m[i];
      NeverPinned(before, id);
      assert !PinnedTo(m[|m| - 1], id);
    }
  }

  /** The clock moves on between calls. */
  lemma MetersLater(l: Ledger, m: Timeline, now: nat)
    requires Meters(l, m, Last(m)) && CountsAgree(l) && Ordered(m) && now >= Last(m)
    ensures Meters(l, m, now)
  {
    hide Measure, HoldsAgree, NodesAgree;
    forall id | id in l.info ensures Total(l.info[id], now) == Measure(m, id, now) {
      MeasureSplit(m, id, now);
      assert l.info[id].open == |Pinning(l.holds, id)|;
    }
  }

  /** The rest of a call's effect: every instance it keeps had its total and its holds moved with the timeline. */
  predicate Follows(l: Ledger, r: Ledger, k: Mark)
  {
    forall id | id in r.info && id in l.info ::
      && Total(r.info[id], k.time) == Total(l.info[id], k.time)
      && Pinning(r.holds, id) == Move(k, Pinning(l.holds, id), id)
      && (r.info[id].open > 0 ==> r.info[id].since <= k.time)
  }

  lemma OpenNowAppend(m: Timeline, k: Mark, id: Id)
    ensures OpenNow(m + [k], id) == Move(k, OpenNow(m, id), id)
  {
    assert (m + [k])[..|m|] == m;
  }

  lemma MetersStep(l: Ledger, r: Ledger, m: Timeline, k: Mark)
    requires Meters(l, m, k.time) && Follows(l, r, k)
    requires forall id | id in r.info && id !in l.info ::
               r.info[id].held == 0 && r.info[id].open == 0 && Pinning(r.holds, id) == {} && id >= l.next
    requires PinsBelow(m + [k], l.next)
    ensures Meters(r, m + [k], k.time)
  {
    forall id | id in r.info
      ensures Total(r.info[id], k.time) == Measure(m + [k], id, k.time) && Pinning(r.holds, id) == OpenNow(m + [k], id)
    {
      if id in l.info {
        MeasureAppend(m, k, id);
        OpenNowAppend(m, k, id);
      } else {
        NeverPinned(m + [k], id);
      }
    }
  }

  predicate Since(l: Ledger, now: nat) { forall id | id in l.info :: l.info[id].open > 0 ==> l.info[id].since <= now }

  /** Instances only go: those that stay keep their counters. */
  predicate Shrunk(l: Ledger, r: Ledger)
  {
    && r.info.Keys <= l.info.Keys && r.holds.Keys <= l.holds.Keys && r.next == l.next
    && forall x | x in r.info :: r.info[x] == l.info[x] && Pinning(r.holds, x) == Pinning(l.holds, x)
  }

  lemma RemoveShrinks(l: Ledger, id: Id)
    requires Indexed(l) && id in l.info
    ensures Shrunk(l, RemoveInstance(l, id))
  {
    RemoveHolds(l, id);
  }

  lemma ShrunkTwice(a: Ledger, b: Ledger, c: Ledger)
    requires Shrunk(a, b) && Shrunk(b, c)
    ensures Shrunk(a, c)
  {
  }

  lemma RoomShrinks(l: Ledger, key: InstanceKey)
    requires Indexed(l)
    ensures Shrunk(l, MakeRoom(l, key))
  {
    ForgetAbsent(l, key);
    var l1 := ForgetKey(l, key);
    if l1 != l {
      RemoveShrinks(l, Find(l.instances, key).value);
    }
    if MakeRoom(l, key) != l1 {
      RemoveShrinks(l1, l1.instances[0].1);
    }
    ShrunkTwice(l, l1, MakeRoom(l, key));
  }

  /** What MetersStep needs of a call. */
  ghost predicate Steps(l: Ledger, r: Ledger, k: Mark)
  {
    && Follows(l, r, k)
    && r.next >= l.next
    && (forall id | id in r.info && id !in l.info ::
          r.info[id].held == 0 && r.info[id].open == 0 && Pinning(r.holds, id) == {} && id >= l.next)
    && (forall p | p in r.holds && p !in l.holds :: k.Opened? && p == k.pause)
  }

  lemma FreshUnpinned(l: Ledger)
    requires Indexed(l)
    ensures l.next !in l.info && Pinning(l.holds, l.next) == {}
  {
    hide NodesAgree, RootsAgree, CountsAgree;
    assert l.next !in l.info;
  }

  /** A new instance among those that were left. */
  lemma AddedSteps(l: Ledger, roomy: Ledger, r: Ledger, time: nat)
    requires Since(l, time) && Shrunk(l, roomy) && Pinning(roomy.holds, l.next) == {} && l.next !in l.info
    requires r.next == l.next + 1 && r.holds == roomy.holds && r.info.Keys == roomy.info.Keys + {l.next}
    requires forall x | x in roomy.info :: r.info[x] == roomy.info[x]
    requires r.info[l.next].held == 0 && r.info[l.next].open == 0
    ensures Steps(l, r, Other(time))
  {
    hide Measure, Pinning;
  }

  lemma StartSteps(l: Ledger, e: Event)
    requires Indexed(l) && l.max > 0 && |l.instances| <= l.max && Since(l, e.time) && e.op.Start?
    ensures Steps(l, Step(l, e), MarkOf(l, e))
  {
    hide Serial, InstancesAgree, NodesAgree, RootsAgree, HoldsAgree, CountsAgree, MakeRoom, Since, Shrunk, Steps, Put, Siblings;
    var key := (e.op.run, e.op.node, e.op.name);
    RoomShrinks(l, key);
    RoomMade(l, key);
    var roomy := MakeRoom(l, key);
    FreshUnpinned(l);
    FreshUnpinned(roomy);
    RoomNext(l, roomy);
    AddedSteps(l, roomy, Step(l, e), e.time);
  }

  lemma RoomNext(l: Ledger, roomy: Ledger)
    requires Shrunk(l, roomy)
    ensures roomy.next == l.next
  {
  }

  /** A change of marks only. */
  lemma MarkedSteps(l: Ledger, r: Ledger, time: nat)
    requires Since(l, time) && r.next == l.next && r.holds == l.holds && r.info.Keys == l.info.Keys
    requires forall x | x in l.info :: r.info[x] == l.info[x].(errored := r.info[x].errored)
    ensures Steps(l, r, Other(time))
  {
  }

  lemma FailSteps(l: Ledger, e: Event)
    requires Indexed(l) && Since(l, e.time) && e.op.Fail?
    ensures Steps(l, Step(l, e), MarkOf(l, e)) && Indexed(Step(l, e)) && Step(l, e).instances == l.instances
  {
    hide Serial, InstancesAgree, NodesAgree, RootsAgree, HoldsAgree, CountsAgree, Find, Steps, Since;
    var id := Pick(l, e.op.run, e.op.node, e.op.of);
    if id.Some? && id.value in l.info {
      MarkIndexed(l, id.value, true);
    }
    MarkedSteps(l, Step(l, e), e.time);
  }

  lemma FinishSteps(l: Ledger, e: Event)
    requires Indexed(l) && Since(l, e.time) && e.op.Finish?
    ensures Steps(l, Step(l, e), MarkOf(l, e)) && Indexed(Step(l, e)) && |Step(l, e).instances| <= |l.instances|
  {
    hide Serial, InstancesAgree, NodesAgree, RootsAgree, HoldsAgree, CountsAgree, Find;
    var id := Pick(l, e.op.run, e.op.node, e.op.of);
    if id.Some? && id.value in l.info {
      RemoveShrinks(l, id.value);
      RemoveIndexed(l, id.value);
      RemoveLength(l, id.value);
    }
  }

  lemma PinTotal(i: Instance, now: nat)
    requires i.open > 0 ==> i.since <= now
    ensures Total(Pin(i, now), now) == Total(i, now) && Pin(i, now).since <= now
    ensures i.open > 0 ==> Total(Release(i, now), now) == Total(i, now) && Release(i, now).since <= now
  {
  }

  lemma PinnedSteps(l: Ledger, u: Ledger, r: Ledger, time: nat, pause: string, pins: seq<Id>)
    requires Since(l, time) && pause !in l.holds && u.info.Keys == l.info.Keys
    requires forall x | x in l.info :: u.info[x] == l.info[x].(errored := u.info[x].errored)
    requires r.next == l.next && r.info == PinEach(u.info, pins, time)
    requires r.holds == l.holds[pause := pins]
    ensures Steps(l, r, Opened(time, pause, pins))
  {
    forall id | id in l.info
      ensures Total(r.info[id], time) == Total(l.info[id], time) && (r.info[id].open > 0 ==> r.info[id].since <= time)
      ensures Pinning(r.holds, id) == Move(Opened(time, pause, pins), Pinning(l.holds, id), id)
    {
      PinTotal(u.info[id], time);
      PinningOpened(l.holds, pause, pins, id);
    }
  }

  lemma UnpinnedSteps(l: Ledger, r: Ledger, time: nat, pause: string)
    requires Steps(l, r, Other(time))
    ensures Steps(l, r, Opened(time, pause, []))
  {
  }

  lemma OpenSteps(l: Ledger, e: Event)
    requires Indexed(l) && Since(l, e.time) && e.op.Open? && e.op.pause !in l.holds
    ensures Steps(l, Step(l, e), MarkOf(l, e))
  {
    hide Serial, InstancesAgree, NodesAgree, RootsAgree, HoldsAgree, CountsAgree, Steps, PinEach, Target, Ancestors;
    var op := e.op;
    var pins := Pins(l, op.run, op.node, op.point);
    var unmarked := Unmark(l, op.run, op.node, op.point);
    UnmarkIndexed(l, op.run, op.node, op.point);
    if pins == [] {
      MarkedSteps(l, unmarked, e.time);
      UnpinnedSteps(l, unmarked, e.time, op.pause);
    } else {
      PinnedSteps(l, unmarked, Step(l, e), e.time, op.pause, pins);
    }
  }

  lemma CloseSteps(l: Ledger, e: Event)
    requires Indexed(l) && Since(l, e.time) && e.op.Close?
    ensures Steps(l, Step(l, e), MarkOf(l, e))
  {
    hide Serial, InstancesAgree, NodesAgree, RootsAgree, CountsAgree;
    var pause := e.op.pause;
    var r := Step(l, e);
    forall id | id in l.info
      ensures Total(r.info[id], e.time) == Total(l.info[id], e.time) && (r.info[id].open > 0 ==> r.info[id].since <= e.time)
      ensures Pinning(r.holds, id) == Pinning(l.holds, id) - {pause}
    {
      PinTotal(l.info[id], e.time);
      if pause in l.holds {
        PinningClosed(l.holds, pause, id);
      }
    }
  }

  /** The whole ledger's invariant after every history. */
  ghost predicate Kept(max: nat, l: Ledger, h: seq<Event>, m: Timeline)
  {
    && Indexed(l) && l.max == max && |l.instances| <= max
    && Meters(l, m, Last(m)) && PinsBelow(m, l.next) && Ordered(m)
    && forall p | p in l.holds :: OpenedBefore(h, p)
  }

  lemma StepKept(max: nat, l: Ledger, h: seq<Event>, m: Timeline, e: Event)
    requires Kept(max, l, h, m) && max > 0 && e.time >= Last(m)
    requires e.op.Open? ==> !OpenedBefore(h, e.op.pause)
    ensures Kept(max, Step(l, e), h + [e], m + [MarkOf(l, e)])
  {
    hide Serial, InstancesAgree, NodesAgree, RootsAgree, HoldsAgree, CountsAgree, Step, Pins, Measure;
    var k := MarkOf(l, e);
    var r := Step(l, e);
    MetersLater(l, m, e.time);
    StepSteps(max, l, h, e);
    PinsStayBelow(l, e, m, r.next);
    PinsStayBelow(l, e, m, l.next);
    MetersStep(l, r, m, k);
    forall p | p in r.holds ensures OpenedBefore(h + [e], p) {
      if p in l.holds {
        var i :| 0 <= i < |h| && h[i].op.Open? && h[i].op.pause == p;
        assert (h + [e])[i] == h[i];
      } else {
        assert (h + [e])[|h|] == e;
      }
    }
  }

  lemma PinsStayBelow(l: Ledger, e: Event, m: Timeline, next: Id)
    requires Indexed(l) && PinsBelow(m, l.next) && next >= l.next
    ensures PinsBelow(m + [MarkOf(l, e)], next)
  {
    if e.op.Open? {
      PinsKnown(l, e.op.run, e.op.node, e.op.point);
    }
  }

  lemma RemoveMax(l: Ledger, id: Id)
    requires id in l.info
    ensures RemoveInstance(l, id).max == l.max
  {
    hide Remove, UnpinAll, Without;
  }

  lemma RoomMax(l: Ledger, key: InstanceKey)
    ensures MakeRoom(l, key).max == l.max
  {
    hide Find, RemoveInstance;
    var existing := Find(l.instances, key);
    if existing.Some? && existing.value in l.info {
      RemoveMax(l, existing.value);
    }
    var l1 := ForgetKey(l, key);
    if l1.instances != [] && l1.instances[0].1 in l1.info {
      RemoveMax(l1, l1.instances[0].1);
    }
  }

  lemma StepShape(l: Ledger, e: Event)
    ensures Step(l, e).max == l.max
    ensures e.op.Fail? || e.op.Open? || e.op.Close? ==> Step(l, e).instances == l.instances
  {
    hide Find, Siblings, Pick, RemoveInstance, MakeRoom, PinEach, ReleaseEach, Target, Put, Pins;
    match e.op
    case Start(run, node, name, _) => RoomMax(l, (run, node, name));
    case Fail(_, _, _) =>
    case Finish(run, node, of) =>
      var id := Pick(l, run, node, of);
      if id.Some? && id.value in l.info {
        RemoveMax(l, id.value);
      }
    case Open(_, _, _, _) =>
    case Close(_) =>
  }

  lemma StepSteps(max: nat, l: Ledger, h: seq<Event>, e: Event)
    requires Indexed(l) && l.max == max && max > 0 && |l.instances| <= max && Since(l, e.time)
    requires e.op.Open? ==> e.op.pause !in l.holds
    ensures Indexed(Step(l, e)) && Step(l, e).max == max && |Step(l, e).instances| <= max
    ensures Steps(l, Step(l, e), MarkOf(l, e))
  {
    hide Serial, InstancesAgree, NodesAgree, RootsAgree, HoldsAgree, CountsAgree, Started, Errored, Finished, HoldOpened, HoldClosed, Since, Steps, Pins;
    StepShape(l, e);
    match e.op
    case Start(run, node, name, parent) =>
      StartSteps(l, e);
      StartedIndexed(l, run, node, name, parent);
    case Fail(run, node, of) => FailSteps(l, e);
    case Finish(run, node, of) => FinishSteps(l, e);
    case Open(pause, run, node, point) =>
      OpenSteps(l, e);
      HoldOpenedIndexed(l, pause, run, node, point, e.time);
    case Close(pause) =>
      CloseSteps(l, e);
      HoldClosedIndexed(l, pause, e.time);
  }

  lemma StateAfter(max: nat, h: seq<Event>)
    requires h != []
    ensures var before := h[..|h| - 1];
            && State(max, h) == Step(State(max, before), h[|h| - 1])
            && Marks(max, h) == Marks(max, before) + [MarkOf(State(max, before), h[|h| - 1])]
            && h == before + [h[|h| - 1]]
  {
    hide Step, MarkOf;
  }

  lemma KeptInitially(max: nat)
    ensures Kept(max, State(max, []), [], Marks(max, []))
  {
  }

  /** The last call of a history: later than those before it, and a hold it opens is new. */
  lemma SoundLast(max: nat, h: seq<Event>)
    requires Sound(h) && h != []
    ensures var before, e := h[..|h| - 1], h[|h| - 1];
            Sound(before) && e.time >= Last(Marks(max, before)) && (e.op.Open? ==> !OpenedBefore(before, e.op.pause))
  {
    hide State, MarkOf;
  }

  lemma {:induction false} HistoryKept(max: nat, h: seq<Event>)
    requires max > 0 && Sound(h)
    ensures Kept(max, State(max, h), h, Marks(max, h))
    decreases |h|
  {
    hide Kept, Step, State, Marks, MarkOf, Sound, OpenedBefore;
    if h == [] {
      KeptInitially(max);
    } else {
      var before, e := h[..|h| - 1], h[|h| - 1];
      SoundLast(max, h);
      HistoryKept(max, before);
      StateAfter(max, h);
      StepKept(max, State(max, before), before, Marks(max, before), e);
    }
  }

  // ---- the main results ----

  /** What finished and peek report for an open instance. */
  function Report(l: Ledger, run: string, node: string, of: Option<string>, now: nat): Option<nat>
  {
    var id := Pick(l, run, node, of);
    if id.Some? && id.value in l.info then Some(Total(l.info[id.value], now)) else None
  }

  /** A call that names an open instance gets one of the node's own, by its id or the newest. */
  lemma PickExact(l: Ledger, run: string, node: string, of: Option<string>)
    requires Indexed(l)
    ensures var id := Pick(l, run, node, of);
            && (id.Some? ==> id.value in l.info && l.info[id.value].run == run && l.info[id.value].node == node
                             && (of.Some? ==> l.info[id.value].name == of.value))
            && (id.Some? && of.None? ==> forall x | x in l.info && l.info[x].run == run && l.info[x].node == node :: x <= id.value)
            && (id.None? ==> forall x | x in l.info && l.info[x].run == run && l.info[x].node == node ::
                               of.Some? && l.info[x].name != of.value)
  {
    hide Serial, InstancesAgree, NodesAgree, RootsAgree, HoldsAgree, CountsAgree, Find;
    var id := Pick(l, run, node, of);
    if id.Some? && of.None? {
      SiblingsKnown(l, (run, node), id.value);
    }
    if of.Some? {
      NamedExactly(l, (run, node, of.value));
    }
    forall x | x in l.info && l.info[x].run == run && l.info[x].node == node
      ensures x in Siblings(l, (run, node)) && (id.Some? && of.None? ==> x <= id.value)
      ensures id.None? ==> of.Some? && l.info[x].name != of.value
    {
      IsSibling(l, x);
      NewestSibling(l, (run, node), x);
    }
  }

  lemma NewestSibling(l: Ledger, key: NodeKey, x: Id)
    requires Serial(l.instances) && NodesAgree(l) && x in Siblings(l, key)
    ensures var ids := Siblings(l, key); x <= ids[|ids| - 1]
  {
    hide Serial;
    NewestLast(l.instances, key, x);
  }

  /** The instance found under a key is the one that has it. */
  lemma NamedExactly(l: Ledger, key: InstanceKey)
    requires InstancesAgree(l)
    ensures var id := Find(l.instances, key);
            && (id.Some? ==> id.value in l.info && l.info[id.value].Key() == key)
            && (id.None? ==> forall x | x in l.info :: l.info[x].Key() != key)
  {
    var id := Find(l.instances, key);
    if id.Some? {
      var i :| 0 <= i < |l.instances| && l.instances[i] == (key, id.value);
    }
  }

  lemma IsSibling(l: Ledger, x: Id)
    requires InstancesAgree(l) && NodesAgree(l) && x in l.info
    ensures x in Siblings(l, l.info[x].NodeKey())
  {
    var i :| 0 <= i < |l.instances| && l.instances[i] == (l.info[x].Key(), x);
    OfNodeMembers(l.instances, l.info[x].NodeKey(), x);
  }

  /** The reported total is the measure of the union of the intervals of all holds pinned to the instance. */
  lemma HeldExact(max: nat, h: seq<Event>, run: string, node: string, of: Option<string>, now: nat)
    requires max > 0 && Sound(h) && now >= Last(Marks(max, h))
    ensures var l := State(max, h);
            var id := Pick(l, run, node, of);
            Report(l, run, node, of, now) == if id.None? then None else Some(Measure(Marks(max, h), id.value, now))
  {
    HistoryKept(max, h);
    var l := State(max, h);
    PickExact(l, run, node, of);
    MetersLater(l, Marks(max, h), now);
  }

  lemma NoneStarted(max: nat)
    ensures State(max, []).next == 0
  {
  }

  lemma {:induction false} StartOf(max: nat, h: seq<Event>, id: Id) returns (i: nat)
    requires max > 0 && Sound(h) && id < State(max, h).next
    ensures i < |h| && h[i].op.Start? && State(max, h[..i]).next == id
    decreases |h|
  {
    hide Step, State, Marks, Sound;
    if h == [] {
      NoneStarted(max);
      assert false;
    }
    var before, e := h[..|h| - 1], h[|h| - 1];
    SoundLast(max, h);
    StateAfter(max, h);
    NextStep(State(max, before), e);
    if id < State(max, before).next {
      i := StartOf(max, before, id);
      assert h[..i] == before[..i];
    } else {
      i := |before|;
    }
  }

  lemma NextStep(l: Ledger, e: Event)
    ensures Step(l, e).next == if e.op.Start? then l.next + 1 else l.next
  {
    hide Find, Siblings, Pick, PinEach, ReleaseEach, Target, Ancestors, Remove, Put, UnpinAll, Without, Pins;
  }

  lemma {:induction false} MarksPrefix(max: nat, h: seq<Event>, i: nat)
    requires i < |h|
    ensures Marks(max, h)[i] == MarkOf(State(max, h[..i]), h[i])
  {
    hide MarkOf, State, Step, Marks;
    var before := h[..|h| - 1];
    StateAfter(max, h);
    if i < |before| {
      MarksPrefix(max, before, i);
      assert h[..i] == before[..i];
    }
  }

  lemma {:induction false} NextMonotone(max: nat, h: seq<Event>, i: nat)
    requires i <= |h|
    ensures State(max, h[..i]).next <= State(max, h).next
    decreases |h|
  {
    hide Step;
    if i < |h| {
      var before := h[..|h| - 1];
      assert h[..i] == before[..i];
      NextMonotone(max, before, i);
      NextStep(State(max, before), h[|h| - 1]);
    } else {
      assert h[..i] == h;
    }
  }

  /** An instance is pinned only by holds that open after it started. */
  lemma PinnedAfterStart(max: nat, h: seq<Event>, start: nat, i: nat, id: Id)
    requires max > 0 && Sound(h) && start < |h| && h[start].op.Start? && State(max, h[..start]).next == id
    requires i < |h| && PinnedTo(Marks(max, h)[i], id)
    ensures i > start
  {
    hide Serial, InstancesAgree, NodesAgree, RootsAgree, HoldsAgree, CountsAgree, Step, Meters, Pins;
    MarksPrefix(max, h, i);
    SoundPrefix(h, i);
    HistoryKept(max, h[..i]);
    var l := State(max, h[..i]);
    PinsStayBelow(l, h[i], [], l.next);
    assert ([] + [MarkOf(l, h[i])])[0] == MarkOf(l, h[i]);
    assert id < l.next;
    if i <= start {
      assert h[..start][..i] == h[..i];
      NextMonotone(max, h[..start], i);
    }
  }

  /** Held time lies between zero and the instance's age. */
  lemma HeldWithinAge(max: nat, h: seq<Event>, id: Id, now: nat) returns (start: nat)
    requires max > 0 && Sound(h) && id in State(max, h).info && now >= Last(Marks(max, h))
    ensures start < |h| && h[start].op.Start? && State(max, h[..start]).next == id && h[start].time <= now
    ensures 0 <= Total(State(max, h).info[id], now) <= now - h[start].time
  {
    HistoryKept(max, h);
    var l, m := State(max, h), Marks(max, h);
    start := StartOf(max, h, id);
    assert h[start].time <= h[|h| - 1].time;
    forall i | 0 <= i < |m| && PinnedTo(m[i], id) ensures m[i].time >= h[start].time {
      PinnedAfterStart(max, h, start, i, id);
    }
    MetersLater(l, m, now);
    MeasureFrom(m, id, h[start].time, now);
  }

  lemma SoundPrefix(h: seq<Event>, n: nat)
    requires Sound(h) && n <= |h|
    ensures Sound(h[..n])
  {
  }

  // ---- the root index ----

  /** The last instance started in a run under the run's own id. */
  function NewestRoot(max: nat, h: seq<Event>, run: string): Option<Id>
  {
    if h == [] then None
    else
      var op := h[|h| - 1].op;
      if op.Start? && op.run == run && op.name == run then Some(State(max, h[..|h| - 1]).next)
      else NewestRoot(max, h[..|h| - 1], run)
  }

  predicate RootIs(l: Ledger, run: string, newest: Option<Id>)
  {
    && (run in l.roots <==> newest.Some? && newest.value in l.info)
    && (run in l.roots ==> l.roots[run] == newest.value)
    && (newest.Some? ==> newest.value < l.next)
  }

  lemma RemoveKeepsRoot(l: Ledger, id: Id, run: string, newest: Option<Id>)
    requires RootsAgree(l) && RootIs(l, run, newest) && id in l.info
    ensures RootIs(RemoveInstance(l, id), run, newest)
  {
  }

  lemma RoomKeepsRoot(l: Ledger, key: InstanceKey, run: string, newest: Option<Id>)
    requires Indexed(l) && RootIs(l, run, newest)
    ensures RootIs(MakeRoom(l, key), run, newest)
  {
    ForgetAbsent(l, key);
    var l1 := ForgetKey(l, key);
    if l1 != l {
      RemoveKeepsRoot(l, Find(l.instances, key).value, run, newest);
    }
    if MakeRoom(l, key) != l1 {
      RemoveKeepsRoot(l1, l1.instances[0].1, run, newest);
    }
  }

  function NewestAfter(l: Ledger, e: Event, run: string, newest: Option<Id>): Option<Id>
  {
    if e.op.Start? && e.op.run == run && e.op.name == run then Some(l.next) else newest
  }

  lemma AddRoot(l: Ledger, r: string, node: string, name: string, run: string, newest: Option<Id>)
    requires RootIs(l, run, newest) && l.next !in l.info
    ensures RootIs(AddInstance(l, r, node, name), run, if r == run && name == run then Some(l.next) else newest)
  {
  }

  lemma StartRoot(l: Ledger, e: Event, run: string, newest: Option<Id>)
    requires Indexed(l) && RootIs(l, run, newest) && e.op.Start?
    ensures RootIs(Step(l, e), run, NewestAfter(l, e, run, newest))
  {
    hide NodesAgree, RootsAgree, HoldsAgree, CountsAgree, MakeRoom;
    var key := (e.op.run, e.op.node, e.op.name);
    RoomShrinks(l, key);
    RoomKeepsRoot(l, key, run, newest);
    var learned := LearnParent(MakeRoom(l, key), e.op.run, e.op.node, e.op.parent);
    assert l.next !in l.info;
    AddRoot(learned, e.op.run, e.op.node, e.op.name, run, newest);
  }

  lemma SameRoots(l: Ledger, r: Ledger, run: string, newest: Option<Id>)
    requires RootIs(l, run, newest) && r.roots == l.roots && r.info.Keys == l.info.Keys && r.next == l.next
    ensures RootIs(r, run, newest)
  {
  }

  lemma UnmarkShape(l: Ledger, run: string, node: string, point: Point)
    ensures var u := Unmark(l, run, node, point);
            u.roots == l.roots && u.info.Keys == l.info.Keys && u.next == l.next && u.instances == l.instances && u.max == l.max
  {
  }

  lemma OpenShape(l: Ledger, pause: string, run: string, node: string, point: Point, now: nat)
    ensures var r := HoldOpened(l, pause, run, node, point, now);
            r.roots == l.roots && r.info.Keys == l.info.Keys && r.next == l.next && r.instances == l.instances && r.max == l.max
  {
    UnmarkShape(l, run, node, point);
  }

  lemma HoldRoot(l: Ledger, e: Event, run: string, newest: Option<Id>)
    requires RootIs(l, run, newest) && (e.op.Open? || e.op.Close?)
    ensures RootIs(Step(l, e), run, newest)
  {
    if e.op.Open? {
      OpenShape(l, e.op.pause, e.op.run, e.op.node, e.op.point, e.time);
    }
    SameRoots(l, Step(l, e), run, newest);
  }

  lemma FinishRoot(l: Ledger, r: string, node: string, of: Option<string>, run: string, newest: Option<Id>)
    requires Indexed(l) && RootIs(l, run, newest)
    ensures RootIs(Finished(l, r, node, of), run, newest)
  {
    var id := Pick(l, r, node, of);
    if id.Some? && id.value in l.info {
      RemoveKeepsRoot(l, id.value, run, newest);
    }
  }

  lemma StepRoot(l: Ledger, e: Event, run: string, newest: Option<Id>)
    requires Indexed(l) && RootIs(l, run, newest)
    ensures RootIs(Step(l, e), run, NewestAfter(l, e, run, newest))
  {
    hide Indexed, Started, Finished, HoldOpened, HoldClosed, RootIs;
    if e.op.Start? {
      StartRoot(l, e, run, newest);
    } else if e.op.Fail? {
      SameRoots(l, Step(l, e), run, newest);
    } else if e.op.Finish? {
      FinishRoot(l, e.op.run, e.op.node, e.op.of, run, newest);
    } else {
      HoldRoot(l, e, run, newest);
    }
  }

  /**
   A run's root is the newest instance started under the run's id, and only while
   that one is open: an older one that outlives it is never the root again.
   */
  lemma {:induction false} RootExact(max: nat, h: seq<Event>, run: string)
    requires max > 0 && Sound(h)
    ensures var l := State(max, h);
            var newest := NewestRoot(max, h, run);
            && (run in l.roots <==> newest.Some? && newest.value in l.info)
            && (run in l.roots ==> l.roots[run] == newest.value && l.info[newest.value].run == run && l.info[newest.value].name == run)
    ensures RootIs(State(max, h), run, NewestRoot(max, h, run))
    decreases |h|
  {
    hide Step, InstancesAgree, NodesAgree, HoldsAgree, CountsAgree;
    HistoryKept(max, h);
    if h != [] {
      var before := h[..|h| - 1];
      RootExact(max, before, run);
      HistoryKept(max, before);
      StepRoot(State(max, before), h[|h| - 1], run, NewestRoot(max, before, run));
    }
  }
}
