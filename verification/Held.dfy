/**
 The held-time ledger as an object: five dictionaries changed in place, each
 method proved equal to its step.
 */
module Held {
  import opened Json
  import opened OrderedDict
  import opened HeldLedger
  import opened HeldTime

  lemma AncestorsStep(l: Ledger, run: string, current: NodeKey, seen: set<NodeKey>, left: nat, parent: NodeKey, siblings: seq<Id>)
    requires left > 0 && current in l.parents && parent == (run, l.parents[current]) && parent !in seen
    requires siblings == Siblings(l, parent)
    ensures Ancestors(l, run, current, seen, left) ==
            (if siblings == [] then [] else [siblings[|siblings| - 1]]) + Ancestors(l, run, parent, seen + {parent}, left - 1)
  {
  }

  class Ledgers {
    const max: nat
    var instances: Dict<InstanceKey, Id>
    var info: map<Id, Instance>
    var byNode: map<NodeKey, seq<Id>>
    var parents: map<NodeKey, string>
    var roots: map<string, Id>
    var holds: map<string, seq<Id>>
    var next: Id

    function Value(): Ledger
      reads this
    {
      Ledger(max, instances, info, byNode, parents, roots, holds, next)
    }

    ghost predicate Valid()
      reads this
    {
      max > 0 && |instances| <= max && Indexed(Value())
    }

    constructor (max: int)
      ensures Valid() && Value() == Empty(if max < 1 then 1 else max)
    {
      this.max := if max < 1 then 1 else max;
      instances, info, byNode, parents, roots, holds, next := [], map[], map[], map[], map[], map[], 0;
    }

    /** Unpins one instance from every hold; a hold pinned to nothing else goes. */
    method Unpin(id: Id)
      modifies this`holds
      ensures holds == UnpinAll(old(holds), id)
    {
      var todo := holds.Keys;
      while todo != {}
        invariant todo <= holds.Keys <= old(holds).Keys
        invariant forall p | p in todo :: holds[p] == old(holds)[p]
        invariant forall p | p in old(holds) && p !in todo ::
                    p in holds <==> (id in old(holds)[p] ==> Without(old(holds)[p], id) != [])
        invariant forall p | p in holds && p !in todo :: holds[p] == Without(old(holds)[p], id)
        decreases |todo|
      {
        var p :| p in todo;
        todo := todo - {p};
        if id in holds[p] {
          var left := Without(holds[p], id);
          holds := if left == [] then holds - {p} else holds[p := left];
        } else {
          WithoutAbsent(holds[p], id);
        }
      }
    }

    method RemoveOne(id: Id)
      requires id in info
      modifies this
      ensures Value() == RemoveInstance(old(Value()), id)
    {
      var i := info[id];
      instances := Remove(instances, i.Key());
      if i.run in roots && roots[i.run] == id {
        roots := roots - {i.run};
      }
      var siblings := if i.NodeKey() in byNode then Without(byNode[i.NodeKey()], id) else [];
      byNode := if siblings == [] then byNode - {i.NodeKey()} else byNode[i.NodeKey() := siblings];
      if i.open > 0 {
        Unpin(id);
      }
      info := info - {id};
    }

    /** No instance with this key is left, and there is room for one more. */
    method MakeRoomFor(key: InstanceKey)
      requires Valid()
      modifies this
      ensures Value() == MakeRoom(old(Value()), key)
    {
      ForgetAbsent(Value(), key);
      var existing := Find(instances, key);
      if existing.Some? {
        RemoveOne(existing.value);
      }
      if |instances| >= max {
        RemoveOne(instances[0].1);
      }
    }

    method Learn(run: string, node: string, parent: Option<string>)
      modifies this`parents
      ensures Value() == LearnParent(old(Value()), run, node, parent)
    {
      if |parents| >= max * 4 {
        parents := map[];
      }
      if parent.Some? && parent.value != node {
        parents := parents[(run, node) := parent.value];
      }
    }

    method Add(run: string, node: string, name: string)
      modifies this
      ensures Value() == AddInstance(old(Value()), run, node, name)
    {
      var id := next;
      next := next + 1;
      info := info[id := Instance(run, node, name, 0, 0, 0, false)];
      instances := Put(instances, (run, node, name), id);
      if name == run {
        roots := roots[run := id];
      }
      byNode := byNode[(run, node) := (if (run, node) in byNode then byNode[(run, node)] else []) + [id]];
    }

    method Start(run: string, node: string, name: string, parent: Option<string>)
      requires Valid()
      modifies this
      ensures Valid() && Value() == Started(old(Value()), run, node, name, parent)
    {
      hide Serial, InstancesAgree, NodesAgree, RootsAgree, HoldsAgree, CountsAgree, MakeRoom, LearnParent, AddInstance;
      StartedIndexed(Value(), run, node, name, parent);
      MakeRoomFor((run, node, name));
      Learn(run, node, parent);
      Add(run, node, name);
    }

    method PickOne(run: string, node: string, of: Option<string>) returns (id: Option<Id>)
      requires Valid()
      ensures id == Pick(Value(), run, node, of)
      ensures id.Some? ==> id.value in info
    {
      hide Serial, InstancesAgree, NodesAgree, RootsAgree, HoldsAgree, CountsAgree, Find;
      PickExact(Value(), run, node, of);
      if (run, node) !in byNode || byNode[(run, node)] == [] {
        return None;
      }
      var siblings := byNode[(run, node)];
      if of.Some? {
        return Find(instances, (run, node, of.value));
      }
      return Some(siblings[|siblings| - 1]);
    }

    method Fail(run: string, node: string, of: Option<string>)
      requires Valid()
      modifies this
      ensures Valid() && Value() == Errored(old(Value()), run, node, of)
    {
      var id := PickOne(run, node, of);
      if id.Some? {
        MarkIndexed(Value(), id.value, true);
        info := info[id.value := info[id.value].(errored := true)];
      }
    }

    method Peek(run: string, node: string, of: Option<string>, now: nat) returns (held: Option<nat>)
      requires Valid()
      ensures held == Report(Value(), run, node, of, now)
    {
      var id := PickOne(run, node, of);
      if id.None? {
        return None;
      }
      return Some(Total(info[id.value], now));
    }

    method Finish(run: string, node: string, of: Option<string>, now: nat) returns (held: Option<nat>)
      requires Valid()
      modifies this
      ensures Valid() && Value() == Finished(old(Value()), run, node, of)
      ensures held == Report(old(Value()), run, node, of, now)
    {
      hide Serial, InstancesAgree, NodesAgree, RootsAgree, HoldsAgree, CountsAgree, RemoveInstance, Find;
      var id := PickOne(run, node, of);
      if id.None? {
        return None;
      }
      RemoveIndexed(Value(), id.value);
      RemoveLength(Value(), id.value);
      held := Some(Total(info[id.value], now));
      RemoveOne(id.value);
    }

    method NewestErrored(siblings: seq<Id>) returns (found: Option<Id>)
      requires forall i | 0 <= i < |siblings| :: siblings[i] in info
      ensures found == LastErrored(Value(), siblings)
    {
      ghost var l := Value();
      var i := |siblings|;
      assert siblings[..i] == siblings;
      while i > 0
        invariant 0 <= i <= |siblings|
        invariant LastErrored(l, siblings) == LastErrored(l, siblings[..i])
      {
        i := i - 1;
        assert siblings[..i + 1][..i] == siblings[..i];
        if info[siblings[i]].errored {
          return Some(siblings[i]);
        }
      }
      return None;
    }

    /** The instance a hold is pinned to first. */
    method TargetOf(run: string, node: string, point: Point) returns (target: Option<Id>)
      requires Valid()
      ensures target == Target(Value(), Siblings(Value(), (run, node)), point)
    {
      hide Serial, InstancesAgree, NodesAgree, RootsAgree, HoldsAgree, CountsAgree;
      var siblings := if (run, node) in byNode then byNode[(run, node)] else [];
      if siblings == [] {
        return None;
      }
      if point == After {
        return Some(siblings[0]);
      }
      if point == Error {
        forall i | 0 <= i < |siblings| ensures siblings[i] in info {
          SiblingsKnown(Value(), (run, node), siblings[i]);
        }
        var errored := NewestErrored(siblings);
        if errored.Some? {
          return errored;
        }
      }
      return Some(siblings[|siblings| - 1]);
    }

    /** The newest open instance of each parent up the chain, at most 64 links. */
    method AncestorsOf(run: string, node: string) returns (above: seq<Id>)
      ensures above == Ancestors(Value(), run, (run, node), {(run, node)}, MAX_DEPTH)
    {
      ghost var l := Value();
      ghost var all := Ancestors(l, run, (run, node), {(run, node)}, MAX_DEPTH);
      above := [];
      var current := (run, node);
      var seen := {current};
      var left := MAX_DEPTH;
      while left > 0
        invariant 0 <= left <= MAX_DEPTH
        invariant all == above + Ancestors(l, run, current, seen, left)
      {
        if current !in parents {
          break;
        }
        var parent := (run, parents[current]);
        if parent in seen {
          break;
        }
        var siblings := if parent in byNode then byNode[parent] else [];
        AncestorsStep(l, run, current, seen, left, parent, siblings);
        seen := seen + {parent};
        if siblings != [] {
          above := above + [siblings[|siblings| - 1]];
        }
        current := parent;
        left := left - 1;
      }
      assert above + [] == above;
    }

    method PinList(run: string, node: string, target: Option<Id>) returns (pinned: seq<Id>)
      ensures forall point | target == Target(Value(), Siblings(Value(), (run, node)), point) ::
                pinned == Pins(Value(), run, node, point)
    {
      var above := AncestorsOf(run, node);
      pinned := (if target.Some? then [target.value] else []) + above;
      if run in roots && roots[run] !in pinned {
        pinned := pinned + [roots[run]];
      }
    }

    method UnmarkTarget(target: Option<Id>, run: string, node: string, point: Point)
      requires Valid() && target == Target(Value(), Siblings(Value(), (run, node)), point)
      modifies this`info
      ensures Value() == Unmark(old(Value()), run, node, point) && info.Keys == old(info).Keys
    {
      TargetKnown(Value(), run, node, point);
      if point == Error && target.Some? {
        info := info[target.value := info[target.value].(errored := false)];
      }
    }

    method OpenHold(pause: string, run: string, node: string, point: Point, now: nat)
      requires Valid() && pause !in holds
      modifies this
      ensures Valid() && Value() == HoldOpened(old(Value()), pause, run, node, point, now)
    {
      hide Serial, InstancesAgree, NodesAgree, RootsAgree, HoldsAgree, CountsAgree, PinEach, Pins, Target;
      HoldOpenedIndexed(Value(), pause, run, node, point, now);
      OpenShape(Value(), pause, run, node, point, now);
      PinsKnown(Value(), run, node, point);
      var target := TargetOf(run, node, point);
      var pinned := PinList(run, node, target);
      UnmarkTarget(target, run, node, point);
      Charge(pause, pinned, now);
    }

    /** Pins a hold to each of these instances. */
    method Charge(pause: string, pinned: seq<Id>, now: nat)
      requires Distinct(pinned) && forall i | 0 <= i < |pinned| :: pinned[i] in info
      modifies this`info, this`holds
      ensures pinned == [] ==> Value() == old(Value())
      ensures pinned != [] ==>
                Value() == old(Value()).(info := PinEach(old(info), pinned, now), holds := old(holds)[pause := pinned])
    {
      if pinned == [] {
        return;
      }
      PinAll(pinned, now);
      holds := holds[pause := pinned];
    }

    method PinAll(pinned: seq<Id>, now: nat)
      requires Distinct(pinned) && forall i | 0 <= i < |pinned| :: pinned[i] in info
      modifies this`info
      ensures info == PinEach(old(info), pinned, now)
    {
      var i := 0;
      while i < |pinned|
        invariant i <= |pinned| && info == PinEach(old(info), pinned[..i], now)
      {
        var id := pinned[i];
        assert id !in pinned[..i];
        if info[id].open == 0 {
          info := info[id := info[id].(since := now)];
        }
        info := info[id := info[id].(open := info[id].open + 1)];
        assert pinned[..i + 1] == pinned[..i] + [id];
        i := i + 1;
      }
      assert pinned[..i] == pinned;
    }

    method CloseHold(pause: string, now: nat)
      requires Valid()
      modifies this
      ensures Valid() && Value() == HoldClosed(old(Value()), pause, now)
    {
      hide Serial, InstancesAgree, NodesAgree, RootsAgree, CountsAgree, ReleaseEach;
      HoldClosedIndexed(Value(), pause, now);
      if pause !in holds {
        return;
      }
      var pinned := holds[pause];
      ReleaseAll(pinned, now);
      holds := holds - {pause};
    }

    method ReleaseAll(pinned: seq<Id>, now: nat)
      requires Distinct(pinned) && forall i | 0 <= i < |pinned| :: pinned[i] in info
      modifies this`info
      ensures info == ReleaseEach(old(info), pinned, now)
    {
      var i := 0;
      while i < |pinned|
        invariant i <= |pinned| && info == ReleaseEach(old(info), pinned[..i], now)
      {
        var id := pinned[i];
        assert id !in pinned[..i];
        if info[id].open > 0 {
          info := info[id := info[id].(open := info[id].open - 1)];
          if info[id].open == 0 {
            info := info[id := info[id].(held := info[id].held + Max0(now - info[id].since))];
          }
        }
        assert pinned[..i + 1] == pinned[..i] + [id];
        i := i + 1;
      }
      assert pinned[..i] == pinned;
    }
  }
}
