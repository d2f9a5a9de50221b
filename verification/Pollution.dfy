/**
 The search for a prototype-pollution path in a proposed input.

 The input is a finite graph of objects, cycles allowed: an object is a mapping,
 a list, or anything else. The worklist search visits each container once.
 */
module Pollution {
  import opened Json

  type Id = nat

  datatype Node = Mapping(entries: seq<(string, Id)>) | List(items: seq<Id>) | Other

  /** Every object an entry or an item names is in the graph. */
  type Graph = map<Id, Node>

  function Children(n: Node): seq<Id>
  {
    match n
    case Mapping(entries) => seq(|entries|, i requires 0 <= i < |entries| => entries[i].1)
    case List(items) => items
    case Other => []
  }

  ghost predicate Closed(g: Graph)
  {
    forall id | id in g :: forall i | 0 <= i < |Children(g[id])| :: Children(g[id])[i] in g
  }

  predicate HasKey(n: Node, key: string) { n.Mapping? && exists i | 0 <= i < |n.entries| :: n.entries[i].0 == key }

  function Lookup(entries: seq<(string, Id)>, key: string): (r: Option<Id>)
    ensures r.Some? <==> exists i | 0 <= i < |entries| :: entries[i].0 == key
    ensures r.Some? ==> exists i | 0 <= i < |entries| :: entries[i] == (key, r.value)
  {
    if entries == [] then None
    else if entries[0].0 == key then assert entries[0] == (key, entries[0].1); Some(entries[0].1)
    else
      var r := Lookup(entries[1..], key);
      assert forall i | 0 <= i < |entries[1..]| :: entries[1..][i] == entries[i + 1];
      assert (exists i | 0 <= i < |entries| :: entries[i].0 == key) ==> exists i | 0 <= i < |entries[1..]| :: entries[1..][i].0 == key by {
        if i :| 0 <= i < |entries| && entries[i].0 == key { assert entries[1..][i - 1].0 == key; }
      }
      r
  }

  const PROTO := "__proto__"
  const CONSTRUCTOR := "constructor"
  const PROTOTYPE := "prototype"

  /** A mapping with a constructor that is a mapping with a prototype. */
  predicate CarriesPrototype(g: Graph, id: Id)
  {
    id in g && g[id].Mapping? &&
    var c := Lookup(g[id].entries, CONSTRUCTOR);
    c.Some? && c.value in g && HasKey(g[c.value], PROTOTYPE)
  }

  predicate CarriesProto(g: Graph, id: Id) { id in g && HasKey(g[id], PROTO) }

  predicate Polluted(g: Graph, id: Id) { CarriesProto(g, id) || CarriesPrototype(g, id) }

  predicate Edge(g: Graph, a: Id, b: Id) { a in g && b in Children(g[a]) }

  /** A chain of objects, each named by the one before it. */
  predicate Walk(g: Graph, p: seq<Id>)
  {
    p != [] && forall i | 0 <= i < |p| - 1 :: Edge(g, p[i], p[i + 1])
  }

  ghost predicate Reachable(g: Graph, root: Id, id: Id)
  {
    exists p :: Walk(g, p) && p[0] == root && p[|p| - 1] == id
  }

  lemma ReachesRoot(g: Graph, root: Id)
    ensures Reachable(g, root, root)
  {
    assert Walk(g, [root]);
  }

  lemma ReachesNext(g: Graph, root: Id, a: Id, b: Id)
    requires Reachable(g, root, a) && Edge(g, a, b)
    ensures Reachable(g, root, b)
  {
    var p :| Walk(g, p) && p[0] == root && p[|p| - 1] == a;
    var q := p + [b];
    forall i | 0 <= i < |q| - 1 ensures Edge(g, q[i], q[i + 1]) {
      assert i < |p| - 1 ==> q[i + 1] == p[i + 1];
    }
    assert Walk(g, q) && q[|q| - 1] == b;
  }

  /** Seen objects and those on the stack: whatever a seen one names is seen, waiting, or not a container. */
  ghost predicate Frontier(g: Graph, seen: set<Id>, stack: seq<Id>)
  {
    forall a, b | a in seen && Edge(g, a, b) :: b in seen || b in stack || (b in g && g[b].Other?)
  }

  /** Nothing polluted is left when the search has emptied its stack. */
  lemma SearchComplete(g: Graph, root: Id, seen: set<Id>, p: seq<Id>)
    requires Closed(g) && root in seen && Frontier(g, seen, []) && seen <= g.Keys
    requires Walk(g, p) && p[0] == root
    ensures p[|p| - 1] in g && (p[|p| - 1] in seen || g[p[|p| - 1]].Other?)
    decreases |p|
  {
    if |p| > 1 {
      var front := p[..|p| - 1];
      forall i | 0 <= i < |front| - 1 ensures Edge(g, front[i], front[i + 1]) {
        assert Edge(g, p[i], p[i + 1]);
      }
      SearchComplete(g, root, seen, front);
      assert Edge(g, p[|p| - 2], p[|p| - 1]);
    }
  }

  /** The containers among some objects, in order. */
  function Containers(g: Graph, ids: seq<Id>): (r: seq<Id>)
    requires forall i | 0 <= i < |ids| :: ids[i] in g
    ensures forall x :: x in r <==> x in ids && x in g && !g[x].Other?
  {
    if ids == [] then [] else (if g[ids[0]].Other? then [] else [ids[0]]) + Containers(g, ids[1..])
  }

  lemma FrontierStep(g: Graph, seen: set<Id>, stack: seq<Id>, id: Id)
    requires Closed(g) && id in g && Frontier(g, seen, stack + [id])
    ensures Frontier(g, seen + {id}, stack + Containers(g, Children(g[id])))
  {
    var found := Containers(g, Children(g[id]));
    forall a, b | a in seen + {id} && Edge(g, a, b)
      ensures b in seen + {id} || b in stack + found || (b in g && g[b].Other?)
    {
      if a == id {
        assert b in g && (g[b].Other? || b in found);
      } else {
        assert b in seen || b in stack + [id] || (b in g && g[b].Other?);
      }
    }
  }

  lemma FrontierSeen(g: Graph, seen: set<Id>, stack: seq<Id>, id: Id)
    requires id in seen && Frontier(g, seen, stack + [id])
    ensures Frontier(g, seen, stack)
  {
    forall a, b | a in seen && Edge(g, a, b) ensures b in seen || b in stack || (b in g && g[b].Other?) {
      assert b in seen || b in stack + [id] || (b in g && g[b].Other?);
    }
  }

  /** What one object says: the path it carries, if any. */
  method Inspect(g: Graph, id: Id) returns (path: Option<string>)
    requires Closed(g) && id in g
    ensures path == if CarriesProto(g, id) then Some(PROTO)
                    else if CarriesPrototype(g, id) then Some("constructor.prototype") else None
  {
    var node := g[id];
    if !node.Mapping? {
      return None;
    }
    if Lookup(node.entries, PROTO).Some? {
      return Some(PROTO);
    }
    var ctor := Lookup(node.entries, CONSTRUCTOR);
    if ctor.Some? {
      ChildOf(g, id, ctor.value);
      if g[ctor.value].Mapping? && Lookup(g[ctor.value].entries, PROTOTYPE).Some? {
        return Some("constructor.prototype");
      }
    }
    return None;
  }

  /** Nothing reachable is polluted once the stack is empty. */
  lemma SearchDone(g: Graph, root: Id, seen: set<Id>)
    requires Closed(g) && root in seen && Frontier(g, seen, []) && seen <= g.Keys
    requires forall id | id in seen :: !Polluted(g, id)
    ensures forall id :: Reachable(g, root, id) ==> !Polluted(g, id)
  {
    forall id | Reachable(g, root, id) ensures !Polluted(g, id) {
      var p :| Walk(g, p) && p[0] == root && p[|p| - 1] == id;
      SearchComplete(g, root, seen, p);
    }
  }

  lemma FoundReachable(g: Graph, root: Id, id: Id)
    requires Closed(g) && id in g && Reachable(g, root, id)
    ensures forall b | b in Containers(g, Children(g[id])) :: Reachable(g, root, b)
  {
    forall b | b in Containers(g, Children(g[id])) ensures Reachable(g, root, b) {
      ReachesNext(g, root, id, b);
    }
  }

  ghost predicate AllReachable(g: Graph, root: Id, ids: seq<Id>)
  {
    forall i | 0 <= i < |ids| :: ids[i] in g && Reachable(g, root, ids[i])
  }

  lemma MoreReachable(g: Graph, root: Id, stack: seq<Id>, id: Id)
    requires Closed(g) && AllReachable(g, root, stack) && id in g && Reachable(g, root, id)
    ensures AllReachable(g, root, stack + Containers(g, Children(g[id])))
  {
    FoundReachable(g, root, id);
    var found := Containers(g, Children(g[id]));
    forall i | 0 <= i < |stack + found| ensures (stack + found)[i] in g && Reachable(g, root, (stack + found)[i]) {
      assert i >= |stack| ==> found[i - |stack|] in found;
    }
  }

  /** Terminates on every finite graph, and finds a path exactly when some reachable mapping is polluted. */
  method PollutionPath(g: Graph, root: Id) returns (path: Option<string>)
    requires Closed(g) && root in g
    ensures path.Some? <==> exists id :: Reachable(g, root, id) && Polluted(g, id)
    ensures path == Some(PROTO) ==> exists id :: Reachable(g, root, id) && CarriesProto(g, id)
    ensures path.Some? && path != Some(PROTO) ==>
              path == Some("constructor.prototype") && exists id :: Reachable(g, root, id) && CarriesPrototype(g, id)
  {
    var seen: set<Id> := {};
    var stack := [root];
    ReachesRoot(g, root);
    while stack != []
      invariant seen <= g.Keys && AllReachable(g, root, stack)
      invariant forall id | id in seen :: !Polluted(g, id)
      invariant Frontier(g, seen, stack) && (root in seen || root in stack)
      decreases |g.Keys - seen|, |stack|
    {
      var id := stack[|stack| - 1];
      ghost var before := stack;
      stack := stack[..|stack| - 1];
      assert before == stack + [id];
      assert AllReachable(g, root, stack);
      if id in seen {
        FrontierSeen(g, seen, stack, id);
        continue;
      }
      path := Inspect(g, id);
      if path.Some? {
        return;
      }
      Advance(g, seen, stack, id);
      FrontierStep(g, seen, stack, id);
      MoreReachable(g, root, stack, id);
      seen := seen + {id};
      stack := stack + Containers(g, Children(g[id]));
    }
    SearchDone(g, root, seen);
    return None;
  }

  lemma ChildOf(g: Graph, id: Id, c: Id)
    requires Closed(g) && id in g && g[id].Mapping? && exists i | 0 <= i < |g[id].entries| :: g[id].entries[i].1 == c
    ensures c in g
  {
    var i :| 0 <= i < |g[id].entries| && g[id].entries[i].1 == c;
    assert Children(g[id])[i] == c;
  }

  /** Taking an unseen object off the stack leaves fewer to see. */
  lemma Advance(g: Graph, seen: set<Id>, stack: seq<Id>, id: Id)
    requires id in g && id !in seen
    ensures |g.Keys - (seen + {id})| < |g.Keys - seen|
  {
    assert g.Keys - (seen + {id}) == (g.Keys - seen) - {id};
  }
}
