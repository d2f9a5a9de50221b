/**
 The held-time ledger as dictionaries: what each call does, and the invariant
 that ties its indexes together.

 An instance is named by a serial number, so that two instances with the same
 fields stay apart. Times are whole clock ticks.
 */
module HeldLedger {
  import opened Json
  import opened OrderedDict

  type Id = nat
  type NodeKey = (string, string)             // run, node
  type InstanceKey = (string, string, string) // run, node, instance

  const MAX_DEPTH := 64

  datatype Point = Before | After | Error

  datatype Instance = Instance(run: string, node: string, name: string, held: nat, open: nat, since: nat, errored: bool)
  {
    function Key(): InstanceKey { (run, node, name) }
    function NodeKey(): NodeKey { (run, node) }
  }

  datatype Ledger = Ledger(
    max: nat,
    instances: Dict<InstanceKey, Id>,   // oldest first
    info: map<Id, Instance>,
    byNode: map<NodeKey, seq<Id>>,
    parents: map<NodeKey, string>,
    roots: map<string, Id>,             // the open instance whose id is its run's
    holds: map<string, seq<Id>>,        // every instance a pause is pinned to
    next: Id)

  function Empty(max: nat): Ledger { Ledger(max, [], map[], map[], map[], map[], map[], 0) }

  // ---- time ----

  function Max0(n: int): nat { if n > 0 then n else 0 }

  function Total(i: Instance, now: nat): nat { i.held + if i.open > 0 then Max0(now - i.since) else 0 }

  function Release(i: Instance, now: nat): Instance
  {
    if i.open == 0 then i
    else if i.open == 1 then i.(open := 0, held := i.held + Max0(now - i.since))
    else i.(open := i.open - 1)
  }

  function Pin(i: Instance, now: nat): Instance { if i.open == 0 then i.(open := 1, since := now) else i.(open := i.open + 1) }

  // ---- instances ----

  /** list.remove: the first occurrence goes. */
  function Without(s: seq<Id>, id: Id): (r: seq<Id>)
    ensures |r| <= |s|
  {
    if s == [] then [] else if s[0] == id then s[1..] else [s[0]] + Without(s[1..], id)
  }

  function UnpinAll(holds: map<string, seq<Id>>, id: Id): map<string, seq<Id>>
  {
    map p | p in holds && (id in holds[p] ==> Without(holds[p], id) != []) :: Without(holds[p], id)
  }

  function RemoveInstance(l: Ledger, id: Id): Ledger
    requires id in l.info
  {
    var i := l.info[id];
    var siblings := if i.NodeKey() in l.byNode then Without(l.byNode[i.NodeKey()], id) else [];
    l.(instances := Remove(l.instances, i.Key()),
       info := l.info - {id},
       byNode := if siblings == [] then l.byNode - {i.NodeKey()} else l.byNode[i.NodeKey() := siblings],
       roots := if i.run in l.roots && l.roots[i.run] == id then l.roots - {i.run} else l.roots,
       holds := if i.open > 0 then UnpinAll(l.holds, id) else l.holds)
  }

  function Siblings(l: Ledger, key: NodeKey): seq<Id> { if key in l.byNode then l.byNode[key] else [] }

  function AddInstance(l: Ledger, run: string, node: string, name: string): Ledger
  {
    var i := Instance(run, node, name, 0, 0, 0, false);
    l.(instances := Put(l.instances, i.Key(), l.next),
       info := l.info[l.next := i],
       byNode := l.byNode[i.NodeKey() := Siblings(l, i.NodeKey()) + [l.next]],
       roots := if name == run then l.roots[run := l.next] else l.roots,
       next := l.next + 1)
  }

  /** A start with the key of an open instance replaces it. */
  function ForgetKey(l: Ledger, key: InstanceKey): Ledger
  {
    var existing := Find(l.instances, key);
    if existing.Some? && existing.value in l.info then RemoveInstance(l, existing.value) else l
  }

  function DropOldest(l: Ledger): Ledger
  {
    if |l.instances| >= l.max && l.instances != [] && l.instances[0].1 in l.info then RemoveInstance(l, l.instances[0].1) else l
  }

  function MakeRoom(l: Ledger, key: InstanceKey): Ledger { DropOldest(ForgetKey(l, key)) }

  function LearnParent(l: Ledger, run: string, node: string, parent: Option<string>): Ledger
  {
    var known := if |l.parents| >= l.max * 4 then map[] else l.parents;
    l.(parents := if parent.Some? && parent.value != node then known[(run, node) := parent.value] else known)
  }

  function Started(l: Ledger, run: string, node: string, name: string, parent: Option<string>): Ledger
  {
    AddInstance(LearnParent(MakeRoom(l, (run, node, name)), run, node, parent), run, node, name)
  }

  /** The instance a call names: an unknown instance id is not the newest one. */
  function Pick(l: Ledger, run: string, node: string, name: Option<string>): Option<Id>
  {
    var siblings := Siblings(l, (run, node));
    if siblings == [] then None
    else if name.Some? then Find(l.instances, (run, node, name.value))
    else Some(siblings[|siblings| - 1])
  }

  function MarkErrored(l: Ledger, id: Id, errored: bool): Ledger
    requires id in l.info
  {
    l.(info := l.info[id := l.info[id].(errored := errored)])
  }

  // ---- the invariant ----

  /** The open instances of a node, oldest first. */
  function OfNode(instances: Dict<InstanceKey, Id>, key: NodeKey): seq<Id>
  {
    if instances == [] then []
    else
      (if (instances[0].0.0, instances[0].0.1) == key then [instances[0].1] else []) + OfNode(instances[1..], key)
  }

  predicate Distinct(s: seq<Id>) { forall i, j | 0 <= i < j < |s| :: s[i] != s[j] }

  /** The holds pinned to an instance. */
  function Pinning(holds: map<string, seq<Id>>, id: Id): set<string> { set p | p in holds && id in holds[p] }

  predicate InstancesAgree(l: Ledger)
  {
    && Unique(l.instances)
    && (forall i | 0 <= i < |l.instances| :: l.instances[i].1 in l.info && l.info[l.instances[i].1].Key() == l.instances[i].0)
    && (forall id | id in l.info :: id < l.next && Find(l.instances, l.info[id].Key()) == Some(id))
  }

  ghost predicate NodesAgree(l: Ledger)
  {
    forall key :: Siblings(l, key) == OfNode(l.instances, key) && (key in l.byNode ==> l.byNode[key] != [])
  }

  predicate RootsAgree(l: Ledger)
  {
    forall run | run in l.roots :: l.roots[run] in l.info && l.info[l.roots[run]].run == run && l.info[l.roots[run]].name == run
  }

  predicate HoldsAgree(l: Ledger)
  {
    && (forall p | p in l.holds :: l.holds[p] != [] && Distinct(l.holds[p]))
    && (forall p, i | p in l.holds && 0 <= i < |l.holds[p]| :: l.holds[p][i] in l.info)
  }

  /** Each instance counts exactly the live holds pinned to it. */
  predicate CountsAgree(l: Ledger) { forall id | id in l.info :: l.info[id].open == |Pinning(l.holds, id)| }

  /** The instances stand in the order they started in. */
  predicate Serial(instances: Dict<InstanceKey, Id>) { forall i, j | 0 <= i < j < |instances| :: instances[i].1 < instances[j].1 }

  ghost predicate Indexed(l: Ledger)
  {
    Serial(l.instances) && InstancesAgree(l) && NodesAgree(l) && RootsAgree(l) && HoldsAgree(l) && CountsAgree(l)
  }

  // ---- removing an instance keeps it ----

  lemma {:induction false} WithoutMembers(s: seq<Id>, id: Id, x: Id)
    requires Distinct(s)
    ensures x in Without(s, id) <==> x in s && x != id
    ensures Distinct(Without(s, id))
  {
    if s != [] {
      assert s == [s[0]] + s[1..];
      assert forall i | 0 <= i < |s[1..]| :: s[1..][i] == s[i + 1];
      WithoutMembers(s[1..], id, x);
      if s[0] != id {
        WithoutMembers(s[1..], id, s[0]);
      }
    }
  }

  lemma {:induction false} WithoutAbsent(s: seq<Id>, id: Id)
    requires id !in s
    ensures Without(s, id) == s
  {
    if s != [] {
      WithoutAbsent(s[1..], id);
    }
  }

  lemma UnpinOthers(holds: map<string, seq<Id>>, id: Id, x: Id)
    requires forall p | p in holds :: Distinct(holds[p])
    requires x != id
    ensures Pinning(UnpinAll(holds, id), x) == Pinning(holds, x)
  {
    forall p | p in holds ensures p in Pinning(UnpinAll(holds, id), x) <==> p in Pinning(holds, x) {
      WithoutMembers(holds[p], id, x);
      if id !in holds[p] {
        WithoutAbsent(holds[p], id);
      }
    }
  }

  lemma {:induction false} OfNodeMembers(instances: Dict<InstanceKey, Id>, key: NodeKey, x: Id)
    ensures x in OfNode(instances, key) <==>
            exists i | 0 <= i < |instances| :: instances[i].1 == x && (instances[i].0.0, instances[i].0.1) == key
  {
    if instances != [] {
      OfNodeMembers(instances[1..], key, x);
      assert forall i | 0 < i < |instances| :: instances[i] == instances[1..][i - 1];
      assert forall i | 0 <= i < |instances[1..]| :: instances[1..][i] == instances[i + 1];
    }
  }

  /** The instance and its key name each other. */
  predicate Names(instances: Dict<InstanceKey, Id>, k: InstanceKey, id: Id)
  {
    forall i | 0 <= i < |instances| :: instances[i].1 == id <==> instances[i].0 == k
  }

  lemma NamesTail(instances: Dict<InstanceKey, Id>, k: InstanceKey, id: Id, key: NodeKey)
    requires instances != [] && Unique(instances) && Names(instances, k, id)
    ensures Unique(instances[1..]) && Names(instances[1..], k, id) && (instances[0].1 == id <==> instances[0].0 == k)
    ensures instances[0].0 == k ==> !Has(instances[1..], k) && id !in OfNode(instances[1..], key)
  {
    assert forall i | 0 <= i < |instances[1..]| :: instances[1..][i] == instances[i + 1];
    OfNodeMembers(instances[1..], key, id);
  }

  lemma {:induction false} OfNodeRemove(instances: Dict<InstanceKey, Id>, k: InstanceKey, id: Id, key: NodeKey)
    requires Unique(instances) && Names(instances, k, id)
    ensures OfNode(Remove(instances, k), key) == Without(OfNode(instances, key), id)
  {
    hide Unique, Names, Has;
    if instances != [] {
      NamesTail(instances, k, id, key);
      var tail := OfNode(instances[1..], key);
      assert ([instances[0].1] + tail)[1..] == tail && [] + tail == tail;
      if instances[0].0 == k {
        RemoveAbsent(instances[1..], k);
        WithoutAbsent(tail, id);
        assert Remove(instances, k) == instances[1..];
      } else {
        OfNodeRemove(instances[1..], k, id, key);
        var rest := Remove(instances[1..], k);
        assert ([instances[0]] + rest)[1..] == rest;
      }
    }
  }

  lemma SerialTail(d: Dict<InstanceKey, Id>)
    requires d != [] && Serial(d)
    ensures Serial(d[1..]) && forall p | p in d[1..] :: d[0].1 < p.1
  {
  }

  /** The last of a node's instances is its newest. */
  lemma {:induction false} NewestLast(d: Dict<InstanceKey, Id>, key: NodeKey, x: Id)
    requires Serial(d) && x in OfNode(d, key)
    ensures var ids := OfNode(d, key); x <= ids[|ids| - 1]
  {
    hide Serial;
    SerialTail(d);
    var rest := OfNode(d[1..], key);
    if x in rest {
      NewestLast(d[1..], key, x);
    } else if rest != [] {
      var last := rest[|rest| - 1];
      OfNodeMembers(d[1..], key, last);
      var i :| 0 <= i < |d[1..]| && d[1..][i].1 == last;
      assert d[1..][i] in d[1..];
    }
  }

  lemma IdsDistinct(l: Ledger, id: Id)
    requires InstancesAgree(l) && id in l.info
    ensures forall i | 0 <= i < |l.instances| :: l.instances[i].1 == id <==> l.instances[i].0 == l.info[id].Key()
  {
    forall i | 0 <= i < |l.instances| ensures l.instances[i].1 == id <==> l.instances[i].0 == l.info[id].Key() {
      FindAt(l.instances, i);
    }
  }

  lemma RemoveInstances(l: Ledger, id: Id)
    requires InstancesAgree(l) && id in l.info
    ensures InstancesAgree(RemoveInstance(l, id))
  {
    var r := RemoveInstance(l, id);
    var k := l.info[id].Key();
    IdsDistinct(l, id);
    RemoveUnique(l.instances, k);
    forall i | 0 <= i < |r.instances| ensures r.instances[i].1 in r.info && r.info[r.instances[i].1].Key() == r.instances[i].0 {
      RemoveMembers(l.instances, k, r.instances[i]);
      assert r.instances[i] in l.instances;
    }
    forall x | x in r.info ensures Find(r.instances, r.info[x].Key()) == Some(x) {
      FindRemove(l.instances, k, r.info[x].Key());
    }
  }

  lemma RemoveNodes(l: Ledger, id: Id)
    requires InstancesAgree(l) && NodesAgree(l) && id in l.info
    ensures NodesAgree(RemoveInstance(l, id))
  {
    hide OfNode, Remove;
    var r := RemoveInstance(l, id);
    var i := l.info[id];
    IdsDistinct(l, id);
    forall key ensures Siblings(r, key) == OfNode(r.instances, key) && (key in r.byNode ==> r.byNode[key] != []) {
      OfNodeRemove(l.instances, i.Key(), id, key);
      OfNodeMembers(l.instances, key, id);
      if key != i.NodeKey() {
        WithoutAbsent(OfNode(l.instances, key), id);
      }
    }
  }

  lemma RemoveHolds(l: Ledger, id: Id)
    requires HoldsAgree(l) && CountsAgree(l) && id in l.info
    ensures HoldsAgree(RemoveInstance(l, id)) && CountsAgree(RemoveInstance(l, id))
    ensures forall x | x in l.info && x != id :: Pinning(RemoveInstance(l, id).holds, x) == Pinning(l.holds, x)
  {
    var r := RemoveInstance(l, id);
    forall x | x in l.info && x != id ensures Pinning(r.holds, x) == Pinning(l.holds, x) {
      UnpinOthers(l.holds, id, x);
    }
    if l.info[id].open == 0 {
      assert Pinning(l.holds, id) == {};
      assert forall p | p in l.holds :: p in Pinning(l.holds, id) <==> id in l.holds[p];
    }
    forall p | p in r.holds ensures r.holds[p] != [] && Distinct(r.holds[p]) && forall i | 0 <= i < |r.holds[p]| :: r.holds[p][i] in r.info {
      WithoutMembers(l.holds[p], id, id);
      if id !in l.holds[p] {
        WithoutAbsent(l.holds[p], id);
      }
      forall i | 0 <= i < |r.holds[p]| ensures r.holds[p][i] in r.info {
        WithoutMembers(l.holds[p], id, r.holds[p][i]);
      }
    }
  }

  lemma RemoveRoots(l: Ledger, id: Id)
    requires RootsAgree(l) && id in l.info
    ensures RootsAgree(RemoveInstance(l, id))
  {
  }

  lemma RemoveLength(l: Ledger, id: Id)
    requires InstancesAgree(l) && id in l.info
    ensures |RemoveInstance(l, id).instances| == |l.instances| - 1
  {
    var k := l.info[id].Key();
    var i :| 0 <= i < |l.instances| && l.instances[i] == (k, id);
    RemoveAt(l.instances, i);
  }

  lemma SerialCons(first: (InstanceKey, Id), rest: Dict<InstanceKey, Id>)
    requires Serial(rest) && forall p | p in rest :: first.1 < p.1
    ensures Serial([first] + rest)
  {
    var d := [first] + rest;
    assert forall j | 0 < j < |d| :: d[j] == rest[j - 1] && d[j] in rest;
  }

  lemma {:induction false} SerialRemove(d: Dict<InstanceKey, Id>, k: InstanceKey)
    requires Serial(d)
    ensures Serial(Remove(d, k))
  {
    hide Serial;
    if d != [] {
      SerialTail(d);
      SerialRemove(d[1..], k);
      var rest := Remove(d[1..], k);
      if d[0].0 == k {
        assert [] + rest == rest;
      } else {
        forall p | p in rest ensures d[0].1 < p.1 {
          RemoveMembers(d[1..], k, p);
        }
        SerialCons(d[0], rest);
      }
    }
  }

  lemma RemoveIndexed(l: Ledger, id: Id)
    requires Indexed(l) && id in l.info
    ensures Indexed(RemoveInstance(l, id))
  {
    hide Serial, InstancesAgree, NodesAgree, RootsAgree, HoldsAgree, CountsAgree;
    SerialRemove(l.instances, l.info[id].Key());
    RemoveInstances(l, id);
    RemoveNodes(l, id);
    RemoveRoots(l, id);
    RemoveHolds(l, id);
  }

  // ---- starting an instance ----

  lemma {:induction false} OfNodeAppend(instances: Dict<InstanceKey, Id>, k: InstanceKey, id: Id, key: NodeKey)
    ensures OfNode(instances + [(k, id)], key) == OfNode(instances, key) + if (k.0, k.1) == key then [id] else []
  {
    if instances == [] {
      assert [] + [(k, id)] == [(k, id)];
    } else {
      assert (instances + [(k, id)])[1..] == instances[1..] + [(k, id)];
      OfNodeAppend(instances[1..], k, id, key);
    }
  }

  lemma AddInstances(l: Ledger, run: string, node: string, name: string)
    requires InstancesAgree(l) && !Has(l.instances, (run, node, name))
    ensures InstancesAgree(AddInstance(l, run, node, name))
  {
    hide Put, Find, Unique, Siblings;
    var r := AddInstance(l, run, node, name);
    var k := (run, node, name);
    PutAbsent(l.instances, k, l.next);
    PutUnique(l.instances, k, l.next);
    forall i | 0 <= i < |r.instances| ensures r.instances[i].1 in r.info && r.info[r.instances[i].1].Key() == r.instances[i].0 {
      assert i < |l.instances| ==> r.instances[i] == l.instances[i];
    }
    forall x | x in r.info ensures Find(r.instances, r.info[x].Key()) == Some(x) {
      FindPut(l.instances, k, l.next, r.info[x].Key());
      if x in l.info {
        assert Find(l.instances, l.info[x].Key()) == Some(x);
      }
    }
  }

  lemma AddNodes(l: Ledger, run: string, node: string, name: string)
    requires NodesAgree(l) && !Has(l.instances, (run, node, name))
    ensures NodesAgree(AddInstance(l, run, node, name))
  {
    var r := AddInstance(l, run, node, name);
    var k := (run, node, name);
    PutAbsent(l.instances, k, l.next);
    forall key ensures Siblings(r, key) == OfNode(r.instances, key) && (key in r.byNode ==> r.byNode[key] != []) {
      OfNodeAppend(l.instances, k, l.next, key);
    }
  }

  lemma AddHolds(l: Ledger, run: string, node: string, name: string)
    requires InstancesAgree(l) && HoldsAgree(l) && CountsAgree(l)
    ensures HoldsAgree(AddInstance(l, run, node, name)) && CountsAgree(AddInstance(l, run, node, name))
  {
    assert l.next !in l.info;
    assert Pinning(l.holds, l.next) == {};
  }

  lemma AddRoots(l: Ledger, run: string, node: string, name: string)
    requires InstancesAgree(l) && RootsAgree(l)
    ensures RootsAgree(AddInstance(l, run, node, name))
  {
    assert l.next !in l.info;
  }

  lemma SerialAppend(d: Dict<InstanceKey, Id>, k: InstanceKey, id: Id)
    requires Serial(d) && forall i | 0 <= i < |d| :: d[i].1 < id
    ensures Serial(d + [(k, id)])
  {
  }

  lemma AddIndexed(l: Ledger, run: string, node: string, name: string)
    requires Indexed(l) && !Has(l.instances, (run, node, name))
    ensures Indexed(AddInstance(l, run, node, name))
  {
    hide Serial, NodesAgree, RootsAgree, HoldsAgree, CountsAgree, Put;
    PutAbsent(l.instances, (run, node, name), l.next);
    SerialAppend(l.instances, (run, node, name), l.next);
    AddInstances(l, run, node, name);
    AddNodes(l, run, node, name);
    AddRoots(l, run, node, name);
    AddHolds(l, run, node, name);
  }

  lemma ForgetAbsent(l: Ledger, key: InstanceKey)
    requires Indexed(l)
    ensures var r := ForgetKey(l, key); Indexed(r) && !Has(r.instances, key) && |r.instances| <= |l.instances| && r.max == l.max
  {
    var existing := Find(l.instances, key);
    if existing.Some? {
      RemoveIndexed(l, existing.value);
      RemoveUnique(l.instances, key);
      RemoveLength(l, existing.value);
    }
  }

  /** There is room for one more instance, and none with this key. */
  lemma RoomMade(l: Ledger, key: InstanceKey)
    requires Indexed(l) && l.max > 0 && |l.instances| <= l.max
    ensures var r := MakeRoom(l, key); Indexed(r) && !Has(r.instances, key) && |r.instances| < l.max && r.max == l.max
  {
    ForgetAbsent(l, key);
    var l1 := ForgetKey(l, key);
    if |l1.instances| >= l.max {
      var id := l1.instances[0].1;
      RemoveIndexed(l1, id);
      RemoveLength(l1, id);
      FindRemove(l1.instances, l1.info[id].Key(), key);
    }
  }

  lemma SameIndexes(l: Ledger, parents: map<NodeKey, string>)
    requires Indexed(l)
    ensures Indexed(l.(parents := parents))
  {
    var r := l.(parents := parents);
    assert forall key :: Siblings(r, key) == Siblings(l, key);
  }

  lemma StartedIndexed(l: Ledger, run: string, node: string, name: string, parent: Option<string>)
    requires Indexed(l) && l.max > 0 && |l.instances| <= l.max
    ensures Indexed(Started(l, run, node, name, parent)) && |Started(l, run, node, name, parent).instances| <= l.max
    ensures Started(l, run, node, name, parent).max == l.max
  {
    var roomy := MakeRoom(l, (run, node, name));
    RoomMade(l, (run, node, name));
    var learned := LearnParent(roomy, run, node, parent);
    SameIndexes(roomy, learned.parents);
    AddIndexed(learned, run, node, name);
    PutUnique(roomy.instances, (run, node, name), roomy.next);
  }

  // ---- holds ----

  /** The newest of these instances that errored. */
  function LastErrored(l: Ledger, siblings: seq<Id>): Option<Id>
  {
    if siblings == [] then None
    else
      var id := siblings[|siblings| - 1];
      if id in l.info && l.info[id].errored then Some(id) else LastErrored(l, siblings[..|siblings| - 1])
  }

  function Target(l: Ledger, siblings: seq<Id>, point: Point): Option<Id>
  {
    if siblings == [] then None
    else if point == After then Some(siblings[0])
    else
      var errored := if point == Error then LastErrored(l, siblings) else None;
      if errored.Some? then errored else Some(siblings[|siblings| - 1])
  }

  /** The newest open instance of each parent up the chain. */
  function Ancestors(l: Ledger, run: string, current: NodeKey, seen: set<NodeKey>, depth: nat): seq<Id>
    decreases depth, run
  {
    if depth == 0 || current !in l.parents then []
    else
      var parent := (run, l.parents[current]);
      if parent in seen then []
      else
        var siblings := Siblings(l, parent);
        (if siblings == [] then [] else [siblings[|siblings| - 1]]) + Ancestors(l, run, parent, seen + {parent}, depth - 1)
  }

  /** Every instance a hold of this node is charged to. */
  function Pins(l: Ledger, run: string, node: string, point: Point): seq<Id>
  {
    var target := Target(l, Siblings(l, (run, node)), point);
    var pinned := (if target.Some? then [target.value] else []) + Ancestors(l, run, (run, node), {(run, node)}, MAX_DEPTH);
    if run in l.roots && l.roots[run] !in pinned then pinned + [l.roots[run]] else pinned
  }

  /** One hold per failure: the target of an error hold is no longer marked. */
  function Unmark(l: Ledger, run: string, node: string, point: Point): Ledger
  {
    var target := Target(l, Siblings(l, (run, node)), point);
    if point == Error && target.Some? && target.value in l.info then MarkErrored(l, target.value, false) else l
  }

  function PinEach(info: map<Id, Instance>, pins: seq<Id>, now: nat): map<Id, Instance>
  {
    map id | id in info :: if id in pins then Pin(info[id], now) else info[id]
  }

  function ReleaseEach(info: map<Id, Instance>, pins: seq<Id>, now: nat): map<Id, Instance>
  {
    map id | id in info :: if id in pins then Release(info[id], now) else info[id]
  }

  function HoldOpened(l: Ledger, pause: string, run: string, node: string, point: Point, now: nat): Ledger
  {
    var pins := Pins(l, run, node, point);
    var unmarked := Unmark(l, run, node, point);
    if pins == [] then unmarked
    else unmarked.(info := PinEach(unmarked.info, pins, now), holds := l.holds[pause := pins])
  }

  function HoldClosed(l: Ledger, pause: string, now: nat): Ledger
  {
    if pause !in l.holds then l
    else l.(info := ReleaseEach(l.info, l.holds[pause], now), holds := l.holds - {pause})
  }

  lemma {:induction false} LastErroredMember(l: Ledger, siblings: seq<Id>)
    ensures LastErrored(l, siblings).Some? ==> LastErrored(l, siblings).value in siblings
  {
    if siblings != [] {
      LastErroredMember(l, siblings[..|siblings| - 1]);
    }
  }

  lemma SiblingsKnown(l: Ledger, key: NodeKey, x: Id)
    requires InstancesAgree(l) && NodesAgree(l) && x in Siblings(l, key)
    ensures x in l.info && l.info[x].NodeKey() == key
  {
    OfNodeMembers(l.instances, key, x);
    var i :| 0 <= i < |l.instances| && l.instances[i].1 == x && (l.instances[i].0.0, l.instances[i].0.1) == key;
  }

  lemma TargetKnown(l: Ledger, run: string, node: string, point: Point)
    requires InstancesAgree(l) && NodesAgree(l)
    ensures var t := Target(l, Siblings(l, (run, node)), point);
            t.Some? ==> t.value in l.info && l.info[t.value].NodeKey() == (run, node)
  {
    var siblings := Siblings(l, (run, node));
    LastErroredMember(l, siblings);
    var t := Target(l, siblings, point);
    if t.Some? {
      SiblingsKnown(l, (run, node), t.value);
    }
  }

  ghost predicate OutsideNodes(l: Ledger, ids: seq<Id>, seen: set<NodeKey>)
  {
    Distinct(ids) && forall i | 0 <= i < |ids| :: ids[i] in l.info && l.info[ids[i]].NodeKey() !in seen
  }

  lemma PrependOutside(l: Ledger, x: Id, ids: seq<Id>, seen: set<NodeKey>, key: NodeKey)
    requires OutsideNodes(l, ids, seen + {key}) && x in l.info && l.info[x].NodeKey() == key && key !in seen
    ensures OutsideNodes(l, [x] + ids, seen)
  {
    assert forall i | 0 <= i < |ids| :: ids[i] != x;
  }

  /** Ancestors are open instances of different nodes, none seen before. */
  lemma {:induction false} AncestorsKnown(l: Ledger, run: string, current: NodeKey, seen: set<NodeKey>, depth: nat)
    requires InstancesAgree(l) && NodesAgree(l)
    ensures OutsideNodes(l, Ancestors(l, run, current, seen, depth), seen)
    decreases depth
  {
    hide InstancesAgree, NodesAgree;
    if depth > 0 && current in l.parents {
      var parent := (run, l.parents[current]);
      if parent !in seen {
        hide OutsideNodes;
        var siblings := Siblings(l, parent);
        var rest := Ancestors(l, run, parent, seen + {parent}, depth - 1);
        AncestorsKnown(l, run, parent, seen + {parent}, depth - 1);
        if siblings != [] {
          SiblingsKnown(l, parent, siblings[|siblings| - 1]);
          PrependOutside(l, siblings[|siblings| - 1], rest, seen, parent);
        } else {
          assert [] + rest == rest;
        }
      }
    }
  }

  ghost predicate KnownOnce(l: Ledger, ids: seq<Id>) { OutsideNodes(l, ids, {}) }

  lemma AppendKnown(l: Ledger, ids: seq<Id>, x: Id)
    requires KnownOnce(l, ids) && x in l.info && x !in ids
    ensures KnownOnce(l, ids + [x])
  {
  }

  lemma OutsideOne(l: Ledger, ids: seq<Id>, key: NodeKey)
    requires OutsideNodes(l, ids, {key})
    ensures KnownOnce(l, ids) && OutsideNodes(l, ids, {} + {key})
  {
    assert {} + {key} == {key};
  }

  /** A pin list names open instances, each once. */
  lemma PinsKnown(l: Ledger, run: string, node: string, point: Point)
    requires InstancesAgree(l) && NodesAgree(l) && RootsAgree(l)
    ensures KnownOnce(l, Pins(l, run, node, point))
  {
    hide Ancestors, Target, InstancesAgree, NodesAgree, OutsideNodes;
    var key := (run, node);
    var target := Target(l, Siblings(l, key), point);
    var above := Ancestors(l, run, key, {key}, MAX_DEPTH);
    TargetKnown(l, run, node, point);
    AncestorsKnown(l, run, key, {key}, MAX_DEPTH);
    OutsideOne(l, above, key);
    var pinned := (if target.Some? then [target.value] else []) + above;
    if target.Some? {
      PrependOutside(l, target.value, above, {}, key);
    } else {
      assert pinned == above;
    }
    if run in l.roots && l.roots[run] !in pinned {
      AppendKnown(l, pinned, l.roots[run]);
    }
  }

  /** A change of counters and marks only. */
  lemma SameShape(l: Ledger, r: Ledger)
    requires InstancesAgree(l) && NodesAgree(l) && RootsAgree(l)
    requires r.instances == l.instances && r.byNode == l.byNode && r.roots == l.roots && r.next == l.next
    requires r.info.Keys == l.info.Keys && forall x | x in l.info :: r.info[x].Key() == l.info[x].Key()
    ensures InstancesAgree(r) && NodesAgree(r) && RootsAgree(r)
  {
    assert forall key :: Siblings(r, key) == Siblings(l, key);
  }

  lemma MarkIndexed(l: Ledger, id: Id, errored: bool)
    requires Indexed(l) && id in l.info
    ensures Indexed(MarkErrored(l, id, errored))
  {
    SameShape(l, MarkErrored(l, id, errored));
  }

  lemma PinningOpened(holds: map<string, seq<Id>>, pause: string, pins: seq<Id>, x: Id)
    requires pause !in holds
    ensures Pinning(holds[pause := pins], x) == Pinning(holds, x) + if x in pins then {pause} else {}
    ensures |Pinning(holds[pause := pins], x)| == |Pinning(holds, x)| + if x in pins then 1 else 0
  {
  }

  lemma PinningClosed(holds: map<string, seq<Id>>, pause: string, x: Id)
    requires pause in holds
    ensures Pinning(holds - {pause}, x) == Pinning(holds, x) - {pause}
    ensures |Pinning(holds - {pause}, x)| == |Pinning(holds, x)| - if x in holds[pause] then 1 else 0
  {
    assert x in holds[pause] <==> pause in Pinning(holds, x);
  }

  lemma OpenedHolds(l: Ledger, pause: string, pins: seq<Id>, now: nat)
    requires HoldsAgree(l) && CountsAgree(l) && pause !in l.holds && pins != [] && KnownOnce(l, pins)
    ensures var r := l.(info := PinEach(l.info, pins, now), holds := l.holds[pause := pins]);
            HoldsAgree(r) && CountsAgree(r)
  {
    var r := l.(info := PinEach(l.info, pins, now), holds := l.holds[pause := pins]);
    forall x | x in r.info ensures r.info[x].open == |Pinning(r.holds, x)| {
      PinningOpened(l.holds, pause, pins, x);
    }
  }

  lemma UnmarkIndexed(l: Ledger, run: string, node: string, point: Point)
    requires Indexed(l)
    ensures var u := Unmark(l, run, node, point);
            && Indexed(u) && u.holds == l.holds && u.info.Keys == l.info.Keys
            && forall x | x in l.info :: u.info[x] == l.info[x].(errored := u.info[x].errored)
  {
    var target := Target(l, Siblings(l, (run, node)), point);
    if point == Error && target.Some? && target.value in l.info {
      MarkIndexed(l, target.value, false);
    }
  }

  lemma OpenedIndexed(l: Ledger, pause: string, pins: seq<Id>, now: nat)
    requires Indexed(l) && pause !in l.holds && pins != [] && KnownOnce(l, pins)
    ensures Indexed(l.(info := PinEach(l.info, pins, now), holds := l.holds[pause := pins]))
  {
    SameShape(l, l.(info := PinEach(l.info, pins, now), holds := l.holds[pause := pins]));
    OpenedHolds(l, pause, pins, now);
  }

  lemma KnownStill(l: Ledger, u: Ledger, ids: seq<Id>)
    requires KnownOnce(l, ids) && u.info.Keys == l.info.Keys
    ensures KnownOnce(u, ids)
  {
  }

  lemma HoldOpenedIndexed(l: Ledger, pause: string, run: string, node: string, point: Point, now: nat)
    requires Indexed(l) && pause !in l.holds
    ensures Indexed(HoldOpened(l, pause, run, node, point, now))
  {
    var pins := Pins(l, run, node, point);
    var unmarked := Unmark(l, run, node, point);
    PinsKnown(l, run, node, point);
    UnmarkIndexed(l, run, node, point);
    if pins != [] {
      KnownStill(l, unmarked, pins);
      OpenedIndexed(unmarked, pause, pins, now);
    }
  }

  lemma ClosedHolds(l: Ledger, pause: string, now: nat)
    requires HoldsAgree(l) && CountsAgree(l) && pause in l.holds
    ensures HoldsAgree(HoldClosed(l, pause, now)) && CountsAgree(HoldClosed(l, pause, now))
  {
    var r := HoldClosed(l, pause, now);
    forall x | x in r.info ensures r.info[x].open == |Pinning(r.holds, x)| {
      PinningClosed(l.holds, pause, x);
      assert l.info[x].open == |Pinning(l.holds, x)|;
      if x in l.holds[pause] {
        assert pause in Pinning(l.holds, x);
      }
    }
  }

  lemma HoldClosedIndexed(l: Ledger, pause: string, now: nat)
    requires Indexed(l)
    ensures Indexed(HoldClosed(l, pause, now))
  {
    if pause in l.holds {
      SameShape(l, HoldClosed(l, pause, now));
      ClosedHolds(l, pause, now);
    }
  }
}
