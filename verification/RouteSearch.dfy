/**
  The computation inside `updateRoutingTable`: a label-correcting search that may pop its queue in
  any order, followed by a walk along predecessors that extracts the next hop to every destination.
 */
module RouteSearch {
  import opened Graph

  /** `Infinite` stands for the initial label math.MaxFloat64. */
  datatype Label = Infinite | Finite(value: real)

  predicate Less(a: Label, b: Label) {
    a.Finite? && (b.Infinite? || a.value < b.value)
  }

  function Extend(a: Label, edgeCost: real): Label {
    if a.Infinite? then Infinite else Finite(a.value + edgeCost)
  }

  type Costs = map<NodeId, Label>
  type Predecessors = map<NodeId, NodeId>

  /** Reading a key that is not in the table yields zero. */
  function Read(cost: Costs, n: NodeId): Label {
    if n in cost then cost[n] else Finite(0.0)
  }

  /** What one node knows after `updateRoutingTable`: `routingTable` and `routingPathCosts`. */
  datatype Routes = Routes(nextHop: map<NodeId, NodeId>, pathCost: Costs)

  // ----- what the computation has to achieve

  ghost predicate ExactLabel(g: ConnectionMap, self: NodeId, v: NodeId, known: Label) {
    match known
    case Infinite => !Reachable(g, self, v)
    case Finite(d) => IsDistance(g, self, v, d)
  }

  ghost predicate ExactCosts(g: ConnectionMap, self: NodeId, cost: Costs) {
    cost.Keys == g.Keys && forall v :: v in g ==> ExactLabel(g, self, v, cost[v])
  }

  /** One hop to `hop` and then the path q is a cheapest path from self to dest. */
  ghost predicate ShortestVia(g: ConnectionMap, self: NodeId, hop: NodeId, q: Path, dest: NodeId) {
    && First(q) == hop
    && IsShortest(g, Join(Step(Start(self), hop), q), self, dest)
  }

  ghost predicate GoodHop(g: ConnectionMap, self: NodeId, hop: NodeId, dest: NodeId) {
    IsEdge(g, self, hop) && exists q :: IsPath(g, q) && ShortestVia(g, self, hop, q, dest)
  }

  /**
    Distances are exact, exactly the other reachable nodes have a route, and every next hop is a
    neighbour on a shortest path.
   */
  ghost predicate Exact(g: ConnectionMap, self: NodeId, r: Routes) {
    && ExactCosts(g, self, r.pathCost)
    && (forall v :: v in r.nextHop <==> v in g && v != self && Reachable(g, self, v))
    && (forall v :: v in r.nextHop ==> GoodHop(g, self, r.nextHop[v], v))
  }

  // ----- invariants of the search

  ghost predicate Dominated(g: ConnectionMap, cost: Costs, p: Path)
    requires IsPath(g, p) && cost.Keys == g.Keys
  {
    && cost[p.node].Finite? && cost[p.node].value <= Cost(g, p)
    && (p.Step? ==> Dominated(g, cost, p.prefix))
  }

  /**
    p explains the label of v: it is a simple path of that very cost, and no node on it has a label
    above its cost so far.
   */
  ghost predicate Witness(g: ConnectionMap, self: NodeId, cost: Costs, v: NodeId, p: Path)
    requires cost.Keys == g.Keys
  {
    && PathBetween(g, p, self, v) && Simple(p)
    && v in g && cost[v] == Finite(Cost(g, p))
    && Dominated(g, cost, p)
  }

  ghost predicate PredecessorOk(g: ConnectionMap, cost: Costs, v: NodeId, u: NodeId)
    requires cost.Keys == g.Keys && v in g
  {
    if u == NO_NODE then cost[v].Infinite?
    else
      && IsEdge(g, u, v) && cost[u].Finite? && cost[v].Finite?
      && cost[u].value + g[u][v] <= cost[v].value
  }

  ghost predicate Witnessed(g: ConnectionMap, self: NodeId, cost: Costs, tree: map<NodeId, Path>)
    requires cost.Keys == g.Keys
  {
    forall v {:trigger tree[v]} {:trigger v in tree} ::
      v in g && cost[v].Finite? ==> v in tree && Witness(g, self, cost, v, tree[v])
  }

  ghost predicate PredecessorsOk(g: ConnectionMap, self: NodeId, cost: Costs, prev: Predecessors)
    requires cost.Keys == g.Keys == prev.Keys
  {
    forall v :: v in g && v != self ==> PredecessorOk(g, cost, v, prev[v])
  }

  ghost predicate SearchInv(g: ConnectionMap, self: NodeId, cost: Costs, prev: Predecessors, tree: map<NodeId, Path>) {
    && cost.Keys == g.Keys && prev.Keys == g.Keys
    && (self in g ==> cost[self] == Finite(0.0) && prev[self] == NO_NODE)
    && Witnessed(g, self, cost, tree)
    && PredecessorsOk(g, self, cost, prev)
  }

  /** The edge from u to v cannot improve the label of v. */
  ghost predicate Tight(g: ConnectionMap, cost: Costs, u: NodeId, v: NodeId)
    requires cost.Keys == g.Keys && IsEdge(g, u, v)
  {
    cost[u].Finite? ==> cost[v].Finite? && cost[v].value <= cost[u].value + g[u][v]
  }

  ghost predicate AllTight(g: ConnectionMap, cost: Costs, u: NodeId)
    requires cost.Keys == g.Keys
  {
    forall v :: IsEdge(g, u, v) ==> Tight(g, cost, u, v)
  }

  /** The pairs of a node and a value its label may still come down to; every improvement removes one. */
  ghost function Slack(g: ConnectionMap, cost: Costs): set<(NodeId, real)>
    requires cost.Keys == g.Keys
  {
    set v, c | v in g && c in Sums(EdgeCosts(g), |g|) && Less(Finite(c), cost[v]) :: (v, c)
  }

  ghost predicate GraphOk(g: ConnectionMap, self: NodeId) {
    Positive(g) && NO_NODE !in g && self != NO_NODE
  }

  lemma {:induction false} DominatedBelowCost(g: ConnectionMap, cost: Costs, p: Path, n: NodeId)
    requires Positive(g) && cost.Keys == g.Keys && IsPath(g, p) && Dominated(g, cost, p)
    requires n in Nodes(p)
    ensures n in g && cost[n].Finite? && cost[n].value <= Cost(g, p)
  {
    PathNodesAreKeys(g, p);
    if p.Step? && n != p.node {
      DominatedBelowCost(g, cost, p.prefix, n);
    }
  }

  lemma {:induction false} DominatedAfterImprovement(g: ConnectionMap, cost: Costs, p: Path, v: NodeId, d: real)
    requires cost.Keys == g.Keys && IsPath(g, p) && Dominated(g, cost, p)
    requires v in g && Less(Finite(d), cost[v])
    ensures Dominated(g, cost[v := Finite(d)], p)
  {
    if p.Step? {
      DominatedAfterImprovement(g, cost, p.prefix, v, d);
    }
  }

  /** The label v gets when the edge from u improves it. */
  function Improved(g: ConnectionMap, cost: Costs, u: NodeId, v: NodeId): Label
    requires cost.Keys == g.Keys && IsEdge(g, u, v)
  {
    Extend(cost[u], g[u][v])
  }

  /** An improved node does not lie on the path it is improved through, since costs are positive. */
  lemma ImprovedNodeIsNew(g: ConnectionMap, cost: Costs, p: Path, v: NodeId)
    requires Positive(g) && cost.Keys == g.Keys && IsPath(g, p) && Dominated(g, cost, p)
    requires IsEdge(g, p.node, v) && cost[p.node] == Finite(Cost(g, p))
    requires Less(Improved(g, cost, p.node, v), cost[v])
    ensures v !in Nodes(p)
  {
    if v in Nodes(p) {
      DominatedBelowCost(g, cost, p, v);
    }
  }

  /** The path through u explains the improved label of v, and is again simple. */
  lemma ImprovementWitness(g: ConnectionMap, self: NodeId, cost: Costs, u: NodeId, p: Path, v: NodeId)
    requires Positive(g) && cost.Keys == g.Keys && Witness(g, self, cost, u, p) && IsEdge(g, u, v)
    requires Less(Improved(g, cost, u, v), cost[v])
    ensures Witness(g, self, cost[v := Improved(g, cost, u, v)], v, Step(p, v))
  {
    ImprovedNodeIsNew(g, cost, p, v);
    DominatedAfterImprovement(g, cost, p, v, Improved(g, cost, u, v).value);
  }

  lemma ImproveKeepsWitnesses(g: ConnectionMap, self: NodeId, cost: Costs, tree: map<NodeId, Path>, u: NodeId,
                              v: NodeId)
    requires Positive(g) && cost.Keys == g.Keys && Witnessed(g, self, cost, tree)
    requires IsEdge(g, u, v) && Less(Improved(g, cost, u, v), cost[v])
    ensures Witnessed(g, self, cost[v := Improved(g, cost, u, v)], tree[v := Step(tree[u], v)])
  {
    ImprovementWitness(g, self, cost, u, tree[u], v);
    var cost' := cost[v := Improved(g, cost, u, v)];
    forall w | w in g && w != v && cost'[w].Finite?
      ensures w in tree && Witness(g, self, cost', w, tree[w])
    {
      DominatedAfterImprovement(g, cost, tree[w], v, cost'[v].value);
    }
  }

  lemma ImproveKeepsPredecessors(g: ConnectionMap, self: NodeId, cost: Costs, prev: Predecessors, u: NodeId, v: NodeId)
    requires Positive(g) && NO_NODE !in g && cost.Keys == g.Keys == prev.Keys && PredecessorsOk(g, self, cost, prev)
    requires IsEdge(g, u, v) && Less(Improved(g, cost, u, v), cost[v])
    ensures PredecessorsOk(g, self, cost[v := Improved(g, cost, u, v)], prev[v := u])
  {
    var cost', prev' := cost[v := Improved(g, cost, u, v)], prev[v := u];
    assert g[u][v] > 0.0;
    forall w | w in g && w != self
      ensures PredecessorOk(g, cost', w, prev'[w])
    {
      assert PredecessorOk(g, cost, w, prev[w]);
    }
  }

  /** Neither the node itself, whose label is zero, nor the popped node can be improved. */
  lemma ImprovedIsOther(g: ConnectionMap, self: NodeId, cost: Costs, tree: map<NodeId, Path>, u: NodeId, v: NodeId)
    requires Positive(g) && cost.Keys == g.Keys && Witnessed(g, self, cost, tree)
    requires self in g ==> cost[self] == Finite(0.0)
    requires IsEdge(g, u, v) && Less(Improved(g, cost, u, v), cost[v])
    ensures v != u && v != self
  {
    assert g[u][v] > 0.0;
    CostNonNegative(g, tree[u]);
  }

  lemma ImproveKeepsInv(g: ConnectionMap, self: NodeId, cost: Costs, prev: Predecessors, tree: map<NodeId, Path>,
                        u: NodeId, v: NodeId)
    requires GraphOk(g, self) && SearchInv(g, self, cost, prev, tree)
    requires IsEdge(g, u, v) && Less(Improved(g, cost, u, v), cost[v])
    ensures v != u && v != self
    ensures SearchInv(g, self, cost[v := Improved(g, cost, u, v)], prev[v := u], tree[v := Step(tree[u], v)])
  {
    var cost', prev', tree' := cost[v := Improved(g, cost, u, v)], prev[v := u], tree[v := Step(tree[u], v)];
    ImprovedIsOther(g, self, cost, tree, u, v);
    ImproveKeepsWitnesses(g, self, cost, tree, u, v);
    ImproveKeepsPredecessors(g, self, cost, prev, u, v);
    SearchInvParts(g, self, cost', prev', tree');
  }

  lemma SearchInvParts(g: ConnectionMap, self: NodeId, cost: Costs, prev: Predecessors, tree: map<NodeId, Path>)
    requires cost.Keys == g.Keys == prev.Keys
    requires self in g ==> cost[self] == Finite(0.0) && prev[self] == NO_NODE
    requires Witnessed(g, self, cost, tree) && PredecessorsOk(g, self, cost, prev)
    ensures SearchInv(g, self, cost, prev, tree)
  {
  }

  lemma ImproveLowersSlack(g: ConnectionMap, self: NodeId, cost: Costs, u: NodeId, p: Path, v: NodeId)
    requires Positive(g) && cost.Keys == g.Keys && Witness(g, self, cost, u, p) && IsEdge(g, u, v)
    requires Less(Improved(g, cost, u, v), cost[v])
    ensures Slack(g, cost[v := Improved(g, cost, u, v)]) < Slack(g, cost)
  {
    var d := Improved(g, cost, u, v).value;
    ImprovementWitness(g, self, cost, u, p, v);
    SimplePathCostInStock(g, Step(p, v));
    assert (v, d) in Slack(g, cost);
    assert (v, d) !in Slack(g, cost[v := Finite(d)]);
    forall x | x in Slack(g, cost[v := Finite(d)])
      ensures x in Slack(g, cost)
    {
    }
  }

  lemma ImproveKeepsTight(g: ConnectionMap, cost: Costs, u: NodeId, v: NodeId, x: NodeId)
    requires cost.Keys == g.Keys && IsEdge(g, u, v) && Less(Improved(g, cost, u, v), cost[v])
    requires x != v && AllTight(g, cost, x)
    ensures AllTight(g, cost[v := Improved(g, cost, u, v)], x)
  {
    forall w | IsEdge(g, x, w)
      ensures Tight(g, cost[v := Improved(g, cost, u, v)], x, w)
    {
      assert Tight(g, cost, x, w);
    }
  }

  lemma ImprovedEdgeIsTight(g: ConnectionMap, cost: Costs, u: NodeId, v: NodeId, remaining: set<NodeId>)
    requires cost.Keys == g.Keys && u != v && IsEdge(g, u, v) && Less(Improved(g, cost, u, v), cost[v])
    requires forall w :: IsEdge(g, u, w) && w !in remaining + {v} ==> Tight(g, cost, u, w)
    ensures forall w :: IsEdge(g, u, w) && w !in remaining ==> Tight(g, cost[v := Improved(g, cost, u, v)], u, w)
  {
    forall w | IsEdge(g, u, w) && w !in remaining
      ensures Tight(g, cost[v := Improved(g, cost, u, v)], u, w)
    {
      assert w != v ==> Tight(g, cost, u, w);
    }
  }

  /** One improvement inside the inner loop, with everything it keeps. */
  method Improve(g: ConnectionMap, self: NodeId, u: NodeId, v: NodeId, cost0: Costs, prev0: Predecessors,
                 queue0: set<NodeId>,
                 ghost tree0: map<NodeId, Path>)
    returns (cost: Costs, prev: Predecessors, queue: set<NodeId>, ghost tree: map<NodeId, Path>)
    requires GraphOk(g, self) && SearchInv(g, self, cost0, prev0, tree0)
    requires IsEdge(g, u, v) && Less(Improved(g, cost0, u, v), cost0[v])
    requires forall x :: x in g && x !in queue0 && x != u ==> AllTight(g, cost0, x)
    ensures v != u && cost == cost0[v := Improved(g, cost0, u, v)] && queue == queue0 + {v}
    ensures SearchInv(g, self, cost, prev, tree)
    ensures forall x :: x in g && x !in queue && x != u ==> AllTight(g, cost, x)
    ensures Slack(g, cost) < Slack(g, cost0)
  {
    cost := cost0[v := Improved(g, cost0, u, v)];
    prev := prev0[v := u];
    queue := queue0 + {v};
    tree := tree0[v := Step(tree0[u], v)];
    ImproveKeepsInv(g, self, cost0, prev0, tree0, u, v);
    ImproveLowersSlack(g, self, cost0, u, tree0[u], v);
    forall x | x in g && x !in queue && x != u
      ensures AllTight(g, cost, x)
    {
      ImproveKeepsTight(g, cost0, u, v, x);
    }
  }

  /** An edge to a node that is not a key is never improved: labels are never negative. */
  lemma OnlyKeysImprove(g: ConnectionMap, self: NodeId, cost: Costs, prev: Predecessors, tree: map<NodeId, Path>,
                        u: NodeId, v: NodeId)
    requires GraphOk(g, self) && SearchInv(g, self, cost, prev, tree) && u in g && v in g[u]
    requires Less(Extend(Read(cost, u), g[u][v]), Read(cost, v))
    ensures IsEdge(g, u, v)
  {
    CostNonNegative(g, tree[u]);
    assert g[u][v] > 0.0;
  }

  /** What holds while the edges out of u to `remaining` are still to be relaxed. */
  ghost predicate RelaxInv(g: ConnectionMap, self: NodeId, u: NodeId, cost: Costs, prev: Predecessors,
                           queue: set<NodeId>,
                           tree: map<NodeId, Path>, remaining: set<NodeId>)
  {
    && SearchInv(g, self, cost, prev, tree)
    && queue <= g.Keys + {self}
    && (forall x :: x in g && x !in queue && x != u ==> AllTight(g, cost, x))
    && (forall v :: IsEdge(g, u, v) && v !in remaining ==> Tight(g, cost, u, v))
  }

  /** Either some label came down, or nothing happened. */
  ghost predicate Progress(g: ConnectionMap, cost0: Costs, queue0: set<NodeId>, cost: Costs, queue: set<NodeId>) {
    && cost0.Keys == g.Keys == cost.Keys
    && queue0 <= queue
    && (Slack(g, cost) < Slack(g, cost0) || (cost == cost0 && queue == queue0))
  }

  lemma ProgressTransitive(g: ConnectionMap, c0: Costs, q0: set<NodeId>, c1: Costs, q1: set<NodeId>, c2: Costs,
                           q2: set<NodeId>)
    requires Progress(g, c0, q0, c1, q1) && Progress(g, c1, q1, c2, q2)
    ensures Progress(g, c0, q0, c2, q2)
  {
  }

  /** One turn of the inner loop. */
  method RelaxEdge(g: ConnectionMap, self: NodeId, u: NodeId, neighbour: NodeId, cost0: Costs, prev0: Predecessors,
                   queue0: set<NodeId>, ghost tree0: map<NodeId, Path>, ghost remaining: set<NodeId>)
    returns (cost: Costs, prev: Predecessors, queue: set<NodeId>, ghost tree: map<NodeId, Path>)
    requires GraphOk(g, self) && u in g && neighbour in g[u]
    requires RelaxInv(g, self, u, cost0, prev0, queue0, tree0, remaining)
    ensures RelaxInv(g, self, u, cost, prev, queue, tree, remaining - {neighbour})
    ensures Progress(g, cost0, queue0, cost, queue)
  {
    cost, prev, queue, tree := cost0, prev0, queue0, tree0;
    var pathCost := Extend(Read(cost, u), g[u][neighbour]);
    if Less(pathCost, Read(cost, neighbour)) {
      OnlyKeysImprove(g, self, cost, prev, tree, u, neighbour);
      cost, prev, queue, tree := Improve(g, self, u, neighbour, cost, prev, queue, tree);
      ImprovedEdgeIsTight(g, cost0, u, neighbour, remaining - {neighbour});
    }
  }

  /** The inner loop: relaxes every edge out of the popped node u. */
  method RelaxNeighbours(g: ConnectionMap, self: NodeId, u: NodeId, cost0: Costs, prev0: Predecessors,
                         queue0: set<NodeId>,
                         ghost tree0: map<NodeId, Path>)
    returns (cost: Costs, prev: Predecessors, queue: set<NodeId>, ghost tree: map<NodeId, Path>)
    requires GraphOk(g, self)
    requires RelaxInv(g, self, u, cost0, prev0, queue0, tree0, if u in g then g[u].Keys else {})
    ensures RelaxInv(g, self, u, cost, prev, queue, tree, {})
    ensures Progress(g, cost0, queue0, cost, queue)
  {
    cost, prev, queue, tree := cost0, prev0, queue0, tree0;
    var remaining := if u in g then g[u].Keys else {};
    while remaining != {}
      invariant remaining <= if u in g then g[u].Keys else {}
      invariant RelaxInv(g, self, u, cost, prev, queue, tree, remaining)
      invariant Progress(g, cost0, queue0, cost, queue)
      decreases remaining
    {
      var neighbour :| neighbour in remaining;
      ghost var c1, q1 := cost, queue;
      cost, prev, queue, tree := RelaxEdge(g, self, u, neighbour, cost, prev, queue, tree, remaining);
      remaining := remaining - {neighbour};
      ProgressTransitive(g, cost0, queue0, c1, q1, cost, queue);
    }
  }

  /** Once every edge is tight, no path is cheaper than the label of its last node. */
  lemma {:induction false} TightBelowEveryPath(g: ConnectionMap, cost: Costs, p: Path)
    requires cost.Keys == g.Keys && IsPath(g, p)
    requires First(p) in g && cost[First(p)] == Finite(0.0)
    requires forall x :: x in g ==> AllTight(g, cost, x)
    ensures p.node in g && cost[p.node].Finite? && cost[p.node].value <= Cost(g, p)
  {
    if p.Step? {
      TightBelowEveryPath(g, cost, p.prefix);
      assert AllTight(g, cost, p.prefix.node);
      assert Tight(g, cost, p.prefix.node, p.node);
    }
  }

  /** The search is over: no edge improves any label. */
  ghost predicate Settled(g: ConnectionMap, self: NodeId, cost: Costs, prev: Predecessors, tree: map<NodeId, Path>) {
    && SearchInv(g, self, cost, prev, tree)
    && (forall x :: x in g ==> AllTight(g, cost, x))
    && ExactCosts(g, self, cost)
  }

  lemma TightIsExact(g: ConnectionMap, self: NodeId, cost: Costs, prev: Predecessors, tree: map<NodeId, Path>)
    requires SearchInv(g, self, cost, prev, tree)
    requires forall x :: x in g ==> AllTight(g, cost, x)
    ensures ExactCosts(g, self, cost)
  {
    forall v | v in g
      ensures ExactLabel(g, self, v, cost[v])
    {
      forall q | PathBetween(g, q, self, v)
        ensures cost[v].Finite? && cost[v].value <= Cost(g, q)
      {
        PathNodesAreKeys(g, q);
        TightBelowEveryPath(g, cost, q);
      }
      if cost[v].Finite? {
        assert IsShortest(g, tree[v], self, v);
      }
    }
  }

  /** Only the edges out of queued nodes may still improve a label. */
  ghost predicate QueueInv(g: ConnectionMap, self: NodeId, cost: Costs, prev: Predecessors, queue: set<NodeId>,
                           tree: map<NodeId, Path>)
  {
    && SearchInv(g, self, cost, prev, tree)
    && queue <= g.Keys + {self}
    && (forall x :: x in g && x !in queue ==> AllTight(g, cost, x))
  }

  lemma InitialInv(g: ConnectionMap, self: NodeId, cost: Costs, prev: Predecessors)
    requires GraphOk(g, self)
    requires cost == map n | n in g :: if n == self then Finite(0.0) else Infinite
    requires prev == map n | n in g :: NO_NODE
    ensures QueueInv(g, self, cost, prev, {self} + g.Keys, map[self := Start(self)])
  {
    assert First(Start(self)) == self;
  }

  lemma PopKeepsInv(g: ConnectionMap, self: NodeId, cost: Costs, prev: Predecessors, queue: set<NodeId>,
                    tree: map<NodeId, Path>, node: NodeId)
    requires QueueInv(g, self, cost, prev, queue, tree)
    ensures RelaxInv(g, self, node, cost, prev, queue - {node}, tree, if node in g then g[node].Keys else {})
  {
  }

  lemma RelaxedKeepsInv(g: ConnectionMap, self: NodeId, node: NodeId, cost: Costs, prev: Predecessors,
                        queue: set<NodeId>,
                        tree: map<NodeId, Path>)
    requires RelaxInv(g, self, node, cost, prev, queue, tree, {})
    ensures QueueInv(g, self, cost, prev, queue, tree)
  {
    assert node in g ==> AllTight(g, cost, node);
  }

  /** The search loop, for every order in which the queue may be popped. */
  method Search(g: ConnectionMap, self: NodeId) returns (cost: Costs, prev: Predecessors, ghost tree: map<NodeId, Path>)
    requires GraphOk(g, self)
    ensures ExactCosts(g, self, cost)
    ensures Settled(g, self, cost, prev, tree)
  {
    cost := map n | n in g :: if n == self then Finite(0.0) else Infinite;
    prev := map n | n in g :: NO_NODE;
    tree := map[self := Start(self)];
    var queue := {self} + g.Keys;
    InitialInv(g, self, cost, prev);
    while queue != {}
      invariant QueueInv(g, self, cost, prev, queue, tree)
      decreases Slack(g, cost), queue
    {
      var node :| node in queue;
      PopKeepsInv(g, self, cost, prev, queue, tree, node);
      cost, prev, queue, tree := RelaxNeighbours(g, self, node, cost, prev, queue - {node}, tree);
      RelaxedKeepsInv(g, self, node, cost, prev, queue, tree);
    }
    TightIsExact(g, self, cost, prev, tree);
  }

  // ----- next hops

  ghost function Closer(g: ConnectionMap, cost: Costs, p: NodeId): set<NodeId>
    requires cost.Keys == g.Keys && p in g
  {
    set x | x in g && Less(cost[x], cost[p])
  }

  /** q leads from p to dest and continues a cheapest path to p into a cheapest path to dest. */
  ghost predicate Remainder(g: ConnectionMap, cost: Costs, p: NodeId, q: Path, dest: NodeId)
    requires cost.Keys == g.Keys
  {
    && PathBetween(g, q, p, dest) && p in g && dest in g
    && cost[p].Finite? && cost[dest] == Finite(cost[p].value + Cost(g, q))
  }

  /** Going one edge back along a tight edge from the label of p. */
  lemma RemainderBack(g: ConnectionMap, cost: Costs, u: NodeId, p: NodeId, q: Path, dest: NodeId)
    requires cost.Keys == g.Keys && Remainder(g, cost, p, q, dest)
    requires IsEdge(g, u, p) && cost[u].Finite? && cost[p].value == cost[u].value + g[u][p]
    ensures Remainder(g, cost, u, Join(Step(Start(u), p), q), dest)
  {
    var edge := Step(Start(u), p);
    assert Cost(g, Start(u)) == 0.0 && First(edge) == First(Start(u)) == u;
    JoinIsPath(g, edge, q);
  }

  /** A predecessor lies on a tight edge and has a strictly smaller label. */
  lemma PredecessorIsCloser(g: ConnectionMap, self: NodeId, cost: Costs, prev: Predecessors, tree: map<NodeId, Path>,
                            p: NodeId)
    requires GraphOk(g, self) && Settled(g, self, cost, prev, tree)
    requires p in g && p != self && cost[p].Finite?
    ensures prev[p] in g && IsEdge(g, prev[p], p) && cost[prev[p]].Finite?
            && cost[p].value == cost[prev[p]].value + g[prev[p]][p]
    ensures g[prev[p]][p] > 0.0
  {
    var u := prev[p];
    assert PredecessorOk(g, cost, p, u);
    assert AllTight(g, cost, u);
    assert Tight(g, cost, u, p);
  }

  lemma CloserShrinks(g: ConnectionMap, cost: Costs, u: NodeId, p: NodeId)
    requires cost.Keys == g.Keys && u in g && p in g && Less(cost[u], cost[p])
    ensures Closer(g, cost, u) < Closer(g, cost, p)
  {
    assert u in Closer(g, cost, p) && u !in Closer(g, cost, u);
  }

  lemma PredecessorStep(g: ConnectionMap, self: NodeId, cost: Costs, prev: Predecessors, tree: map<NodeId, Path>,
                        p: NodeId, q: Path, dest: NodeId)
    requires GraphOk(g, self) && Settled(g, self, cost, prev, tree)
    requires Remainder(g, cost, p, q, dest) && p != self
    ensures prev[p] in g && IsEdge(g, prev[p], p)
    ensures Remainder(g, cost, prev[p], Join(Step(Start(prev[p]), p), q), dest)
    ensures Closer(g, cost, prev[p]) < Closer(g, cost, p)
  {
    PredecessorIsCloser(g, self, cost, prev, tree, p);
    RemainderBack(g, cost, prev[p], p, q, dest);
    CloserShrinks(g, cost, prev[p], p);
  }

  /** Where the walk stops, the node it stands on is the next hop. */
  lemma ReachedSelf(g: ConnectionMap, self: NodeId, cost: Costs, p: NodeId, q: Path, dest: NodeId)
    requires ExactCosts(g, self, cost) && self in g && cost[self] == Finite(0.0)
    requires First(q) == p && IsPath(g, q) && Remainder(g, cost, self, Join(Step(Start(self), p), q), dest)
    requires IsEdge(g, self, p)
    ensures GoodHop(g, self, p, dest)
  {
    var whole := Join(Step(Start(self), p), q);
    assert ExactLabel(g, self, dest, cost[dest]);
    var best :| IsShortest(g, best, self, dest) && Cost(g, best) == cost[dest].value;
    assert IsShortest(g, whole, self, dest);
    assert ShortestVia(g, self, p, q, dest);
  }

  /**
    The walk can only start, and goes on, where the label is finite; it ends at once for self and
    for unreachable nodes.
   */
  lemma PredecessorMark(g: ConnectionMap, self: NodeId, cost: Costs, prev: Predecessors, tree: map<NodeId, Path>,
                        p: NodeId)
    requires GraphOk(g, self) && Settled(g, self, cost, prev, tree) && p in g
    ensures prev[p] == NO_NODE <==> p == self || !Reachable(g, self, p)
    ensures Reachable(g, self, p) <==> cost[p].Finite?
  {
    assert p != self ==> PredecessorOk(g, cost, p, prev[p]);
    assert ExactLabel(g, self, p, cost[p]);
  }

  /** The walk back along the predecessors of one destination. */
  method NextHop(g: ConnectionMap, self: NodeId, cost: Costs, prev: Predecessors, dest: NodeId, ghost tree: map<NodeId,
                 Path>)
    returns (found: bool, hop: NodeId)
    requires GraphOk(g, self) && Settled(g, self, cost, prev, tree) && dest in g
    ensures found <==> dest != self && Reachable(g, self, dest)
    ensures found ==> GoodHop(g, self, hop, dest)
  {
    var p := dest;
    PredecessorMark(g, self, cost, prev, tree, dest);
    if prev[dest] == NO_NODE {
      return false, dest;
    }
    ghost var q := Start(dest);
    while prev[p] != self && prev[p] != NO_NODE
      invariant p in g && p != self && Remainder(g, cost, p, q, dest)
      decreases Closer(g, cost, p)
    {
      PredecessorStep(g, self, cost, prev, tree, p, q, dest);
      q := Join(Step(Start(prev[p]), p), q);
      p := prev[p];
    }
    PredecessorMark(g, self, cost, prev, tree, p);
    PredecessorStep(g, self, cost, prev, tree, p, q, dest);
    ReachedSelf(g, self, cost, p, q, dest);
    return true, p;
  }

  /** The loop that fills the routing table. */
  method NextHops(g: ConnectionMap, self: NodeId, cost: Costs, prev: Predecessors, ghost tree: map<NodeId, Path>)
    returns (table: map<NodeId, NodeId>)
    requires GraphOk(g, self) && Settled(g, self, cost, prev, tree)
    ensures Exact(g, self, Routes(table, cost))
  {
    table := map[];
    var remaining := g.Keys;
    while remaining != {}
      invariant remaining <= g.Keys
      invariant forall v :: v in table <==> v in g && v !in remaining && v != self && Reachable(g, self, v)
      invariant forall v :: v in table ==> GoodHop(g, self, table[v], v)
      decreases remaining
    {
      var dest :| dest in remaining;
      remaining := remaining - {dest};
      var found, hop := NextHop(g, self, cost, prev, dest, tree);
      if found {
        table := table[dest := hop];
      }
    }
  }
}
