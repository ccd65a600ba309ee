/**
  Hop-by-hop forwarding: every node picks the next hop from its own table, computed from its own
  copy of the link-state map.  The tables of nodes whose maps agree compose into loop-free shortest
  paths.
 */
module Forwarding {
  import opened Graph
  import opened RouteSearch

  type Tables = map<NodeId, Routes>

  predicate HasHop(tables: Tables, at: NodeId, dest: NodeId) {
    at in tables && dest in tables[at].nextHop
  }

  /**
    The nodes a packet for dest visits in its first k transmissions, starting at src; it stays where
    it arrives or gets stuck.
   */
  function Walk(tables: Tables, src: NodeId, dest: NodeId, k: nat): Path {
    if k == 0 then Start(src)
    else
      var p := Walk(tables, src, dest, k - 1);
      if p.node == dest || !HasHop(tables, p.node, dest) then p
      else Step(p, tables[p.node].nextHop[dest])
  }

  /**
    Each live node holds the true map of the live nodes, whatever it believes of others, and has
    exact routes for the map it holds.
   */
  ghost predicate Converged(truth: ConnectionMap, live: set<NodeId>, maps: map<NodeId, ConnectionMap>, tables: Tables) {
    && Positive(truth)
    && live <= maps.Keys && live <= tables.Keys
    && forall n :: n in live ==> AgreesOn(truth, maps[n], live) && Exact(maps[n], n, tables[n])
  }

  lemma SameReachable(g: ConnectionMap, h: ConnectionMap, live: set<NodeId>, u: NodeId, v: NodeId)
    requires AgreesOn(g, h, live) && u in live
    ensures Reachable(g, u, v) <==> Reachable(h, u, v)
    ensures Reachable(g, u, v) ==> v in live
  {
    forall p | First(p) == u
      ensures PathBetween(g, p, u, v) <==> PathBetween(h, p, u, v)
      ensures PathBetween(g, p, u, v) ==> v in live
    {
      SamePaths(g, h, live, p);
    }
  }

  lemma SameShortest(g: ConnectionMap, h: ConnectionMap, live: set<NodeId>, p: Path, u: NodeId, v: NodeId)
    requires AgreesOn(g, h, live) && u in live && IsShortest(h, p, u, v)
    ensures IsShortest(g, p, u, v) && Cost(g, p) == Cost(h, p)
  {
    SamePaths(g, h, live, p);
    forall q | PathBetween(g, q, u, v)
      ensures Cost(g, p) <= Cost(g, q)
    {
      SamePaths(g, h, live, q);
    }
  }

  /** Exactness for the map a node holds is exactness for the true map. */
  lemma TrueDistance(truth: ConnectionMap, live: set<NodeId>, maps: map<NodeId, ConnectionMap>, tables: Tables,
                     n: NodeId, dest: NodeId)
    requires Converged(truth, live, maps, tables) && n in live && Reachable(truth, n, dest)
    ensures dest in live && dest in tables[n].pathCost
    ensures tables[n].pathCost[dest].Finite? && IsDistance(truth, n, dest, tables[n].pathCost[dest].value)
  {
    var h := maps[n];
    SameReachable(truth, h, live, n, dest);
    assert ExactLabel(h, n, dest, tables[n].pathCost[dest]);
    var p :| IsShortest(h, p, n, dest) && Cost(h, p) == tables[n].pathCost[dest].value;
    SameShortest(truth, h, live, p, n, dest);
  }

  /** What is left of the way from n to dest. */
  function Remaining(tables: Tables, n: NodeId, dest: NodeId): real {
    if n in tables && dest in tables[n].pathCost && tables[n].pathCost[dest].Finite?
    then tables[n].pathCost[dest].value
    else 0.0
  }

  /** A hop stays among live nodes and uses up exactly its own cost of the remaining distance. */
  lemma HopProgress(truth: ConnectionMap, live: set<NodeId>, maps: map<NodeId, ConnectionMap>, tables: Tables,
                    n: NodeId, dest: NodeId)
    requires Converged(truth, live, maps, tables) && n in live && Reachable(truth, n, dest) && n != dest
    ensures HasHop(tables, n, dest)
    ensures var hop := tables[n].nextHop[dest];
            && IsEdge(truth, n, hop) && hop in live && Reachable(truth, hop, dest)
            && Remaining(tables, n, dest) == truth[n][hop] + Remaining(tables, hop, dest)
            && Remaining(tables, hop, dest) < Remaining(tables, n, dest)
  {
    var h := maps[n];
    SameReachable(truth, h, live, n, dest);
    var hop := tables[n].nextHop[dest];
    assert GoodHop(h, n, hop, dest);
    var q :| IsPath(h, q) && ShortestVia(h, n, hop, q, dest);
    SamePaths(truth, h, live, q);
    assert PathBetween(truth, q, hop, dest);
    TrueDistance(truth, live, maps, tables, n, dest);
    TrueDistance(truth, live, maps, tables, hop, dest);
    assert truth[n][hop] > 0.0;
    HopSplitsDistance(truth, h, live, n, hop, q, dest, Remaining(tables, n, dest), Remaining(tables, hop, dest));
  }

  lemma HopSplitsDistance(truth: ConnectionMap, h: ConnectionMap, live: set<NodeId>, n: NodeId, hop: NodeId, q: Path,
                          dest: NodeId,
                          d: real, e: real)
    requires AgreesOn(truth, h, live) && n in live && IsEdge(truth, n, hop)
    requires PathBetween(truth, q, hop, dest) && ShortestVia(h, n, hop, q, dest)
    requires IsDistance(truth, n, dest, d) && IsDistance(truth, hop, dest, e)
    ensures d == truth[n][hop] + e
  {
    var edge := Step(Start(n), hop);
    assert First(edge) == First(Start(n)) == n && Cost(truth, Start(n)) == 0.0;
    SameShortest(truth, h, live, Join(edge, q), n, dest);
    JoinIsPath(truth, edge, q);
    assert IsDistance(truth, n, dest, Cost(truth, Join(edge, q)));
    DistanceUnique(truth, n, dest, d, Cost(truth, Join(edge, q)));
    var best :| IsShortest(truth, best, hop, dest) && Cost(truth, best) == e;
    JoinIsPath(truth, edge, best);
    assert PathBetween(truth, Join(edge, best), n, dest);
  }

  /** The cost so far and the remaining distance add up to the whole distance, and no node was visited twice. */
  ghost predicate OnTrack(truth: ConnectionMap, live: set<NodeId>, tables: Tables, src: NodeId, dest: NodeId, p: Path) {
    && PathBetween(truth, p, src, p.node) && Nodes(p) <= live && p.node in live && Reachable(truth, p.node, dest)
    && Cost(truth, p) + Remaining(tables, p.node, dest) == Remaining(tables, src, dest)
    && (forall x :: x in Nodes(p) ==> Remaining(tables, x, dest) >= Remaining(tables, p.node, dest))
    && Simple(p)
  }

  lemma ExtendTrack(truth: ConnectionMap, live: set<NodeId>, tables: Tables, src: NodeId, dest: NodeId, p: Path,
                    hop: NodeId)
    requires OnTrack(truth, live, tables, src, dest, p)
    requires IsEdge(truth, p.node, hop) && hop in live && Reachable(truth, hop, dest)
    requires Remaining(tables, p.node, dest) == truth[p.node][hop] + Remaining(tables, hop, dest)
    requires Remaining(tables, hop, dest) < Remaining(tables, p.node, dest)
    ensures OnTrack(truth, live, tables, src, dest, Step(p, hop))
  {
    var q := Step(p, hop);
    assert PathBetween(truth, q, src, hop) && Nodes(q) == Nodes(p) + {hop};
    assert hop !in Nodes(p);
  }

  lemma StepOnTrack(truth: ConnectionMap, live: set<NodeId>, maps: map<NodeId, ConnectionMap>, tables: Tables,
                    src: NodeId, dest: NodeId, p: Path)
    requires Converged(truth, live, maps, tables) && OnTrack(truth, live, tables, src, dest, p) && p.node != dest
    ensures HasHop(tables, p.node, dest)
    ensures OnTrack(truth, live, tables, src, dest, Step(p, tables[p.node].nextHop[dest]))
  {
    HopProgress(truth, live, maps, tables, p.node, dest);
    ExtendTrack(truth, live, tables, src, dest, p, tables[p.node].nextHop[dest]);
  }

  lemma {:induction false} WalkInvariant(truth: ConnectionMap, live: set<NodeId>, maps: map<NodeId, ConnectionMap>,
                                         tables: Tables,
                                         src: NodeId, dest: NodeId, k: nat)
    requires Converged(truth, live, maps, tables) && src in live && Reachable(truth, src, dest)
    ensures OnTrack(truth, live, tables, src, dest, Walk(tables, src, dest, k))
    ensures Walk(tables, src, dest, k).node == dest || Hops(Walk(tables, src, dest, k)) == k
  {
    if k == 0 {
      assert Cost(truth, Start(src)) == 0.0;
    } else {
      WalkInvariant(truth, live, maps, tables, src, dest, k - 1);
      var p := Walk(tables, src, dest, k - 1);
      if p.node != dest {
        StepOnTrack(truth, live, maps, tables, src, dest, p);
      }
    }
  }

  /** A packet never leaves its destination. */
  lemma {:induction false} WalkStops(tables: Tables, src: NodeId, dest: NodeId, k: nat)
    ensures dest in Nodes(Walk(tables, src, dest, k)) ==> Walk(tables, src, dest, k).node == dest
    ensures Hops(Walk(tables, src, dest, k)) <= k
  {
    if k > 0 {
      WalkStops(tables, src, dest, k - 1);
    }
  }

  /**
    Forwarding over independently computed tables delivers along one loop-free path whose cost is
    the shortest distance, in fewer hops than there are live nodes.
   */
  lemma ForwardingIsShortest(truth: ConnectionMap, live: set<NodeId>, maps: map<NodeId, ConnectionMap>, tables: Tables,
                             src: NodeId, dest: NodeId, k: nat)
    requires Converged(truth, live, maps, tables) && src in live && Reachable(truth, src, dest)
    requires k >= |live| - 1
    ensures Walk(tables, src, dest, k).node == dest
    ensures Simple(Walk(tables, src, dest, k)) && Hops(Walk(tables, src, dest, k)) < |live|
    ensures IsShortest(truth, Walk(tables, src, dest, k), src, dest)
  {
    var p := Walk(tables, src, dest, k);
    TrueDistance(truth, live, maps, tables, src, dest);
    WalkInvariant(truth, live, maps, tables, src, dest, k);
    LoopFreeArrives(live, tables, src, dest, k);
    AtDestination(truth, live, maps, tables, dest);
    var best :| IsShortest(truth, best, src, dest) && Cost(truth, best) == Remaining(tables, src, dest);
  }

  /** A loop-free walk as long as the number of live nodes has met the destination. */
  lemma LoopFreeArrives(live: set<NodeId>, tables: Tables, src: NodeId, dest: NodeId, k: nat)
    requires var p := Walk(tables, src, dest, k);
             Simple(p) && Nodes(p) <= live && (p.node == dest || Hops(p) == k)
    requires dest in live && k >= |live| - 1
    ensures Walk(tables, src, dest, k).node == dest && Hops(Walk(tables, src, dest, k)) < |live|
  {
    var p := Walk(tables, src, dest, k);
    SimplePathNodeCount(p);
    SubsetSize(Nodes(p), live);
    if p.node != dest {
      WalkStops(tables, src, dest, k);
      SubsetSize(Nodes(p), live - {dest});
    }
  }

  lemma AtDestination(truth: ConnectionMap, live: set<NodeId>, maps: map<NodeId, ConnectionMap>, tables: Tables,
                      dest: NodeId)
    requires Converged(truth, live, maps, tables) && dest in live
    ensures Remaining(tables, dest, dest) == 0.0
  {
    assert PathBetween(truth, Start(dest), dest, dest) && Cost(truth, Start(dest)) == 0.0;
    TrueDistance(truth, live, maps, tables, dest, dest);
    var best :| IsShortest(truth, best, dest, dest) && Cost(truth, best) == Remaining(tables, dest, dest);
    CostNonNegative(truth, best);
  }
}
