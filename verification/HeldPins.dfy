/**
 Who a hold is charged to, said from the open instances alone.

 A hold counts against the instance it stops, against the newest open instance
 of every node up the recorded parent chain, and against the run's root.
 */
module HeldPins {
  import opened Json
  import opened OrderedDict
  import opened HeldLedger
  import opened HoldTimeline
  import opened HeldTime

  // ---- instances of a node ----

  predicate OfKey(l: Ledger, key: NodeKey, x: Id) { x in l.info && l.info[x].NodeKey() == key }

  predicate IsNewest(l: Ledger, key: NodeKey, x: Id) { OfKey(l, key, x) && forall y | y in l.info && OfKey(l, key, y) :: y <= x }

  predicate IsOldest(l: Ledger, key: NodeKey, x: Id) { OfKey(l, key, x) && forall y | y in l.info && OfKey(l, key, y) :: x <= y }

  predicate IsNewestErrored(l: Ledger, key: NodeKey, x: Id)
  {
    OfKey(l, key, x) && l.info[x].errored && forall y | y in l.info && OfKey(l, key, y) && l.info[y].errored :: y <= x
  }

  predicate AnyErrored(l: Ledger, key: NodeKey) { exists y | y in l.info :: OfKey(l, key, y) && l.info[y].errored }

  lemma SiblingExactly(l: Ledger, key: NodeKey, x: Id)
    requires InstancesAgree(l) && NodesAgree(l)
    ensures x in Siblings(l, key) <==> OfKey(l, key, x)
  {
    if x in Siblings(l, key) {
      SiblingsKnown(l, key, x);
    }
    if OfKey(l, key, x) {
      IsSibling(l, x);
    }
  }

  predicate Ascending(s: seq<Id>) { forall i, j | 0 <= i < j < |s| :: s[i] < s[j] }

  lemma {:induction false} OfNodeAscending(d: Dict<InstanceKey, Id>, key: NodeKey)
    requires Serial(d)
    ensures Ascending(OfNode(d, key))
  {
    if d != [] {
      SerialTail(d);
      OfNodeAscending(d[1..], key);
      var rest := OfNode(d[1..], key);
      forall i | 0 <= i < |rest| ensures d[0].1 < rest[i] {
        OfNodeMembers(d[1..], key, rest[i]);
        var k :| 0 <= k < |d[1..]| && d[1..][k].1 == rest[i];
        assert d[1..][k] in d[1..];
      }
    }
  }

  /** A node's own list: its open instances, oldest first. */
  lemma SiblingsExactly(l: Ledger, key: NodeKey)
    requires Indexed(l)
    ensures Ascending(Siblings(l, key)) && forall x :: x in Siblings(l, key) <==> OfKey(l, key, x)
  {
    hide Serial, Ascending, OfKey, InstancesAgree, RootsAgree, HoldsAgree, CountsAgree;
    OfNodeAscending(l.instances, key);
    forall x ensures x in Siblings(l, key) <==> OfKey(l, key, x) {
      SiblingExactly(l, key, x);
    }
  }

  lemma EndsExactly(l: Ledger, key: NodeKey, x: Id)
    requires Indexed(l)
    ensures var s := Siblings(l, key);
            && (s != [] && s[|s| - 1] == x <==> IsNewest(l, key, x))
            && (s != [] && s[0] == x <==> IsOldest(l, key, x))
  {
    hide Indexed, Siblings;
    SiblingsExactly(l, key);
    var s := Siblings(l, key);
    if s != [] {
      assert s[0] in s && s[|s| - 1] in s;
    }
    if IsNewest(l, key, x) {
      var i :| 0 <= i < |s| && s[i] == x;
      assert s[|s| - 1] <= x;
    }
    if IsOldest(l, key, x) {
      var i :| 0 <= i < |s| && s[i] == x;
      assert x <= s[0];
    }
  }

  // ---- the target ----

  /** Stopped after a call: its oldest instance. At an error: its newest that errored. Otherwise its newest. */
  predicate IsTarget(l: Ledger, key: NodeKey, point: Point, x: Id)
  {
    if point == After then IsOldest(l, key, x)
    else if point == Error && AnyErrored(l, key) then IsNewestErrored(l, key, x)
    else IsNewest(l, key, x)
  }

  lemma {:induction false} LastErroredExactly(l: Ledger, s: seq<Id>)
    requires Ascending(s) && forall i | 0 <= i < |s| :: s[i] in l.info
    ensures var r := LastErrored(l, s);
            && (r.Some? ==> r.value in s && l.info[r.value].errored && forall i | 0 <= i < |s| && l.info[s[i]].errored :: s[i] <= r.value)
            && (r.None? ==> forall i | 0 <= i < |s| :: !l.info[s[i]].errored)
  {
    if s != [] {
      var front := s[..|s| - 1];
      assert forall i | 0 <= i < |front| :: front[i] == s[i];
      LastErroredExactly(l, front);
    }
  }

  lemma NewestErroredExactly(l: Ledger, key: NodeKey, x: Id)
    requires Indexed(l)
    ensures var r := LastErrored(l, Siblings(l, key));
            && (r == Some(x) <==> IsNewestErrored(l, key, x))
            && (r.Some? <==> AnyErrored(l, key))
  {
    hide Indexed, Siblings;
    SiblingsExactly(l, key);
    var s := Siblings(l, key);
    forall i | 0 <= i < |s| ensures s[i] in l.info {
      assert s[i] in s;
    }
    LastErroredExactly(l, s);
    var r := LastErrored(l, s);
    if IsNewestErrored(l, key, x) {
      var i :| 0 <= i < |s| && s[i] == x;
    }
    if AnyErrored(l, key) {
      var y :| y in l.info && OfKey(l, key, y) && l.info[y].errored;
      var i :| 0 <= i < |s| && s[i] == y;
    }
    forall y | y in l.info && OfKey(l, key, y) ensures exists i :: 0 <= i < |s| && s[i] == y {
      assert y in s;
    }
  }

  lemma TargetExactly(l: Ledger, key: NodeKey, point: Point, x: Id)
    requires Indexed(l)
    ensures Target(l, Siblings(l, key), point) == Some(x) <==> IsTarget(l, key, point, x)
  {
    hide Indexed, Siblings, OfKey, IsNewest, IsOldest, IsNewestErrored, AnyErrored, LastErrored;
    EndsExactly(l, key, x);
    NewestErroredExactly(l, key, x);
    NoneErrored(l, Siblings(l, key));
  }

  lemma NoneErrored(l: Ledger, s: seq<Id>)
    ensures s == [] ==> LastErrored(l, s).None?
  {
  }

  // ---- the chain of parents ----

  /** Nodes linked by recorded parents, none twice. */
  predicate Climb(l: Ledger, run: string, path: seq<string>)
  {
    && path != []
    && (forall k | 0 <= k < |path| - 1 :: (run, path[k]) in l.parents && l.parents[(run, path[k])] == path[k + 1])
    && (forall i, j | 0 <= i < j < |path| :: path[i] != path[j])
  }

  /** Above a node: reached by at least one and at most 64 links. */
  predicate Above(l: Ledger, run: string, node: string, path: seq<string>)
  {
    Climb(l, run, path) && path[0] == node && 2 <= |path| <= 65
  }

  predicate Clear(run: string, path: seq<string>, seen: set<NodeKey>) { forall k | 0 < k < |path| :: (run, path[k]) !in seen }

  lemma ClimbTail(l: Ledger, run: string, path: seq<string>, seen: set<NodeKey>)
    requires Climb(l, run, path) && |path| >= 2 && Clear(run, path, seen)
    ensures Climb(l, run, path[1..]) && Clear(run, path[1..], seen + {(run, path[1])})
  {
    assert forall k | 0 <= k < |path| - 1 :: path[1..][k] == path[k + 1];
  }

  lemma ClimbCons(l: Ledger, run: string, node: string, path: seq<string>, seen: set<NodeKey>)
    requires Climb(l, run, path) && Clear(run, path, seen + {(run, path[0])}) && (run, node) in seen && (run, path[0]) !in seen
    requires (run, node) in l.parents && l.parents[(run, node)] == path[0]
    ensures Climb(l, run, [node] + path) && Clear(run, [node] + path, seen)
  {
    var p := [node] + path;
    assert forall k | 0 < k < |p| :: p[k] == path[k - 1];
    forall k | 0 < k < |p| ensures (run, p[k]) !in seen {
      if k > 1 {
        assert (run, path[k - 1]) !in seen + {(run, path[0])};
      }
    }
  }

  /** Each ancestor is the newest instance of a node some climb ends in. */
  lemma {:induction false} AncestorClimb(l: Ledger, run: string, node: string, seen: set<NodeKey>, depth: nat, x: Id) returns (path: seq<string>)
    requires Indexed(l) && (run, node) in seen && x in Ancestors(l, run, (run, node), seen, depth)
    ensures Climb(l, run, path) && path[0] == node && 2 <= |path| <= depth + 1 && Clear(run, path, seen)
    ensures IsNewest(l, (run, path[|path| - 1]), x)
    decreases depth
  {
    hide Indexed, Siblings, IsNewest, Climb, Clear;
    var up := l.parents[(run, node)];
    var parent := (run, up);
    var siblings := Siblings(l, parent);
    if siblings != [] && siblings[|siblings| - 1] == x {
      EndsExactly(l, parent, x);
      OneStep(l, run, up, seen + {parent});
      ClimbCons(l, run, node, [up], seen);
      path := [node] + [up];
    } else {
      var rest := AncestorClimb(l, run, up, seen + {parent}, depth - 1, x);
      ClimbCons(l, run, node, rest, seen);
      path := [node] + rest;
      assert path[|path| - 1] == rest[|rest| - 1];
    }
  }

  lemma OneStep(l: Ledger, run: string, node: string, seen: set<NodeKey>)
    ensures Climb(l, run, [node]) && Clear(run, [node], seen)
  {
  }

  lemma {:induction false} ClimbAncestor(l: Ledger, run: string, path: seq<string>, seen: set<NodeKey>, depth: nat, x: Id)
    requires Indexed(l) && Climb(l, run, path) && 2 <= |path| <= depth + 1 && Clear(run, path, seen)
    requires IsNewest(l, (run, path[|path| - 1]), x)
    ensures x in Ancestors(l, run, (run, path[0]), seen, depth)
    decreases depth
  {
    hide Indexed, Siblings, IsNewest;
    var parent := (run, path[1]);
    ClimbTail(l, run, path, seen);
    if |path| == 2 {
      EndsExactly(l, parent, x);
    } else {
      assert path[1..][|path| - 2] == path[|path| - 1];
      ClimbAncestor(l, run, path[1..], seen + {parent}, depth - 1, x);
    }
  }

  /** The newest open instance of a node above. */
  ghost predicate IsAncestor(l: Ledger, run: string, node: string, x: Id)
  {
    x in l.info && exists path | Above(l, run, node, path) :: IsNewest(l, (run, path[|path| - 1]), x)
  }

  lemma AncestorExactly(l: Ledger, run: string, node: string, x: Id)
    requires Indexed(l)
    ensures x in Ancestors(l, run, (run, node), {(run, node)}, MAX_DEPTH) <==> IsAncestor(l, run, node, x)
  {
    hide Indexed, Ancestors, IsNewest;
    if x in Ancestors(l, run, (run, node), {(run, node)}, MAX_DEPTH) {
      var path := AncestorClimb(l, run, node, {(run, node)}, MAX_DEPTH, x);
      assert Above(l, run, node, path);
      NewestOpen(l, (run, path[|path| - 1]), x);
    }
    if IsAncestor(l, run, node, x) {
      var path :| Above(l, run, node, path) && IsNewest(l, (run, path[|path| - 1]), x);
      ClimbAncestor(l, run, path, {(run, node)}, MAX_DEPTH, x);
    }
  }

  lemma NewestOpen(l: Ledger, key: NodeKey, x: Id)
    requires IsNewest(l, key, x)
    ensures x in l.info
  {
  }

  // ---- who is charged ----

  /** A hold of this node is charged to this instance. */
  ghost predicate Charged(l: Ledger, run: string, node: string, point: Point, x: Id)
  {
    || (run in l.roots && l.roots[run] == x)
    || IsAncestor(l, run, node, x)
    || IsTarget(l, (run, node), point, x)
  }

  lemma PinsExactly(l: Ledger, run: string, node: string, point: Point, x: Id)
    requires Indexed(l)
    ensures x in Pins(l, run, node, point) <==> Charged(l, run, node, point, x)
  {
    hide Indexed, Siblings, Target, Ancestors, IsTarget, IsAncestor;
    TargetExactly(l, (run, node), point, x);
    AncestorExactly(l, run, node, x);
  }

  /** After an opened hold: it is charged to the run's root, the ancestors and the target, and to nothing else; other holds stay. */
  lemma HoldCharges(l: Ledger, pause: string, run: string, node: string, point: Point, now: nat, x: Id)
    requires Indexed(l) && pause !in l.holds
    ensures var r := HoldOpened(l, pause, run, node, point, now);
            && ((pause in r.holds && x in r.holds[pause]) <==> Charged(l, run, node, point, x))
            && (forall p | p != pause :: (p in r.holds <==> p in l.holds) && (p in l.holds ==> r.holds[p] == l.holds[p]))
  {
    hide Indexed, Pins, Charged, PinEach, Target;
    PinsExactly(l, run, node, point, x);
  }

  /** Over a whole history: what the reported time of an instance counts are the holds charged to it when they opened. */
  lemma CountedHolds(max: nat, h: seq<Event>, i: nat, x: Id)
    requires max > 0 && Sound(h) && i < |h| && h[i].op.Open?
    ensures var l, op := State(max, h[..i]), h[i].op;
            && (PinnedTo(Marks(max, h)[i], x) <==>
                  || (NewestRoot(max, h[..i], op.run) == Some(x) && x in l.info)
                  || IsAncestor(l, op.run, op.node, x)
                  || IsTarget(l, (op.run, op.node), op.point, x))
  {
    hide Indexed, Pins, IsAncestor, IsTarget, State, Marks, NewestRoot, Meters, Sound;
    SoundPrefix(h, i);
    HistoryKept(max, h[..i]);
    MarksPrefix(max, h, i);
    RootExact(max, h[..i], h[i].op.run);
    PinsExactly(State(max, h[..i]), h[i].op.run, h[i].op.node, h[i].op.point, x);
  }

  // ---- what the other calls change ----

  /** At an error hold the target is no longer marked; nothing else is unmarked. */
  lemma MarkConsumed(l: Ledger, pause: string, run: string, node: string, point: Point, now: nat, x: Id)
    requires Indexed(l) && pause !in l.holds && x in l.info
    ensures var r := HoldOpened(l, pause, run, node, point, now);
            && x in r.info
            && (r.info[x].errored <==> l.info[x].errored && !(point == Error && IsTarget(l, (run, node), point, x)))
  {
    hide Indexed, Siblings, Pins, IsTarget, Target;
    TargetExactly(l, (run, node), point, x);
    PinsDistinct(l, run, node, point);
    UnmarkKeeps(l, run, node, point);
    PinsUnmarked(Unmark(l, run, node, point).info, Pins(l, run, node, point), now, x);
  }

  lemma PinsDistinct(l: Ledger, run: string, node: string, point: Point)
    requires Indexed(l)
    ensures Distinct(Pins(l, run, node, point)) && forall i | 0 <= i < |Pins(l, run, node, point)| :: Pins(l, run, node, point)[i] in l.info
  {
    PinsKnown(l, run, node, point);
  }

  lemma UnmarkKeeps(l: Ledger, run: string, node: string, point: Point)
    ensures Unmark(l, run, node, point).info.Keys == l.info.Keys
  {
  }

  lemma PinsUnmarked(info: map<Id, Instance>, pins: seq<Id>, now: nat, x: Id)
    requires x in info
    ensures var r := PinEach(info, pins, now); x in r && r[x].errored == info[x].errored
  {
  }

  /** A failure marks the instance the call names, and no other. */
  lemma FailMarks(l: Ledger, run: string, node: string, of: Option<string>, x: Id)
    requires Indexed(l) && x in l.info
    ensures var r := Errored(l, run, node, of);
            && x in r.info
            && (r.info[x].errored <==>
                  l.info[x].errored || (if of.None? then IsNewest(l, (run, node), x) else l.info[x].Key() == (run, node, of.value)))
  {
    hide Indexed, IsNewest, Pick;
    PickNamed(l, run, node, of, x);
  }

  lemma PickNamed(l: Ledger, run: string, node: string, of: Option<string>, x: Id)
    requires Indexed(l) && x in l.info
    ensures Pick(l, run, node, of) == Some(x) <==>
            if of.None? then IsNewest(l, (run, node), x) else l.info[x].Key() == (run, node, of.value)
  {
    hide Serial, InstancesAgree, NodesAgree, RootsAgree, HoldsAgree, CountsAgree, Siblings, IsNewest, Find;
    EndsExactly(l, (run, node), x);
    SiblingExactly(l, (run, node), x);
    if of.Some? {
      NamedExactly(l, (run, node, of.value));
      FindsOwn(l, x);
    }
  }

  lemma FindsOwn(l: Ledger, x: Id)
    requires InstancesAgree(l) && x in l.info
    ensures Find(l.instances, l.info[x].Key()) == Some(x)
  {
  }

  /** A start records the parent it declares, unless it is the node itself; the table starts over at four times the limit. */
  lemma ParentRecorded(l: Ledger, run: string, node: string, name: string, parent: Option<string>, key: NodeKey)
    ensures var r := Started(l, run, node, name, parent);
            if key == (run, node) && parent.Some? && parent.value != node then key in r.parents && r.parents[key] == parent.value
            else if |l.parents| >= l.max * 4 then key !in r.parents
            else (key in r.parents <==> key in l.parents) && (key in l.parents ==> r.parents[key] == l.parents[key])
  {
    hide Find, RemoveInstance, Put, Siblings;
    RoomParents(l, (run, node, name));
  }

  lemma RoomParents(l: Ledger, key: InstanceKey)
    ensures MakeRoom(l, key).parents == l.parents && MakeRoom(l, key).max == l.max
  {
    hide Find, Remove, UnpinAll, Without;
  }

  /** Who stays at a start: all but an instance with the same key, and, when that leaves no room, the oldest. */
  lemma StartEvicts(l: Ledger, run: string, node: string, name: string, parent: Option<string>, x: Id)
    requires Indexed(l) && l.max > 0 && |l.instances| <= l.max && x in l.info
    ensures var key := (run, node, name);
            var full := |l.instances| >= l.max && !Has(l.instances, key);
            x in Started(l, run, node, name, parent).info <==>
            l.info[x].Key() != key && !(full && forall y | y in l.info :: x <= y)
  {
    hide Serial, InstancesAgree, NodesAgree, RootsAgree, HoldsAgree, CountsAgree, Put, Find, Remove, Unique, Has, MakeRoom;
    RoomKeeps(l, (run, node, name), x);
    NextUnused(l, x);
    RoomShrinks(l, (run, node, name));
    RoomNext(l, MakeRoom(l, (run, node, name)));
  }

  lemma NextUnused(l: Ledger, x: Id)
    requires InstancesAgree(l) && x in l.info
    ensures x < l.next
  {
  }

  lemma RoomKeeps(l: Ledger, key: InstanceKey, x: Id)
    requires Indexed(l) && l.max > 0 && |l.instances| <= l.max && x in l.info
    ensures var full := |l.instances| >= l.max && !Has(l.instances, key);
            x in MakeRoom(l, key).info <==> l.info[x].Key() != key && !(full && forall y | y in l.info :: x <= y)
  {
    hide Serial, NodesAgree, RootsAgree, HoldsAgree, CountsAgree, Remove, Unique, Has, UnpinAll, InstancesAgree, Find;
    NamedExactly(l, key);
    HasFound(l.instances, key);
    FindsOwn(l, x);
    if Find(l.instances, key).Some? {
      ForgetAbsent(l, key);
      RemoveLength(l, Find(l.instances, key).value);
    } else {
      OldestFirst(l, x);
    }
  }

  lemma HasFound(d: Dict<InstanceKey, Id>, key: InstanceKey)
    ensures Find(d, key).Some? <==> Has(d, key)
  {
  }

  lemma OldestFirst(l: Ledger, x: Id)
    requires Indexed(l) && x in l.info
    ensures l.instances != [] && l.instances[0].1 in l.info
    ensures x == l.instances[0].1 <==> forall y | y in l.info :: x <= y
  {
    hide NodesAgree, RootsAgree, HoldsAgree, CountsAgree;
    forall y | y in l.info ensures l.instances != [] && l.instances[0].1 <= y {
      var i :| 0 <= i < |l.instances| && l.instances[i] == (l.info[y].Key(), y);
    }
  }
}
