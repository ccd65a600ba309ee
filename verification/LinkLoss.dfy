/** What tearing down the link to a peer does to a node's map and to the routes computed from it. */
module LinkLoss {
  import opened Graph
  import opened RouteSearch
  import opened RoutingProtocol

  /** The walk goes over the link between a and b, in one direction or the other. */
  predicate Uses(p: Path, a: NodeId, b: NodeId) {
    p.Step? && (Uses(p.prefix, a, b) || (p.prefix.node == a && p.node == b) || (p.prefix.node == b && p.node == a))
  }

  /** The two maps agree on every edge but those between a and b, which are in the first only. */
  ghost predicate LinkCut(before: ConnectionMap, after: ConnectionMap, a: NodeId, b: NodeId) {
    && after.Keys == before.Keys
    && forall u, v :: u in after && u in before ==>
         && (v in after[u] <==> v in before[u] && !(u == a && v == b) && !(u == b && v == a))
         && (v in after[u] ==> after[u][v] == before[u][v])
  }

  lemma DisconnectedCutsLink(n: Node, peer: NodeId)
    requires peer != NO_NODE
    ensures var n' := Disconnected(n, peer);
            && LinkCut(n.costs, n'.costs, n.id, peer)
            && n' == n.(connections := n.connections - {peer}, costs := n'.costs)
            && !IsEdge(n'.costs, n.id, peer) && !IsEdge(n'.costs, peer, n.id)
  {
  }

  /** The walks left are those that did not go over the link, at their old cost. */
  lemma {:induction false} CutPaths(before: ConnectionMap, after: ConnectionMap, a: NodeId, b: NodeId, p: Path)
    requires LinkCut(before, after, a, b)
    ensures IsPath(after, p) <==> IsPath(before, p) && !Uses(p, a, b)
    ensures IsPath(after, p) ==> Cost(after, p) == Cost(before, p)
  {
    if p.Step? {
      CutPaths(before, after, a, b, p.prefix);
    }
  }

  // ----- edges that an update denies

  /** The walk goes directly from a to b somewhere. */
  predicate Takes(p: Path, a: NodeId, b: NodeId) {
    p.Step? && (Takes(p.prefix, a, b) || (p.prefix.node == a && p.node == b))
  }

  /** The walk goes over an edge that the update denies. */
  predicate TakesDenied(p: Path, self: NodeId, u: RoutingUpdate) {
    p.Step? && (TakesDenied(p.prefix, self, u) || Denied(self, u, p.prefix.node, p.node))
  }

  /**
    The walks of the rewritten map are those of the old map with the origin's new entry that go over no
    denied edge, at the same cost.
   */
  lemma {:induction false} RewrittenPaths(before: ConnectionMap, after: ConnectionMap, self: NodeId, u: RoutingUpdate,
                                          p: Path)
    requires Rewritten(before, after, self, u)
    ensures IsPath(after, p) <==> IsPath(before[u.nodeID := u.connections], p) && !TakesDenied(p, self, u)
    ensures IsPath(after, p) ==> Cost(after, p) == Cost(before[u.nodeID := u.connections], p)
  {
    if p.Step? {
      RewrittenPaths(before, after, self, u, p.prefix);
    }
  }

  /** No walk in the rewritten map goes directly from a node to an origin that denies the link. */
  lemma {:induction false} DeniedIsNotTaken(before: ConnectionMap, after: ConnectionMap, self: NodeId, u: RoutingUpdate,
                                            p: Path, c: NodeId)
    requires Rewritten(before, after, self, u) && IsPath(after, p) && Denied(self, u, c, u.nodeID)
    ensures !Takes(p, c, u.nodeID)
  {
    if p.Step? {
      DeniedIsNotTaken(before, after, self, u, p.prefix, c);
    }
  }

  /**
    After an update that is news and differs from what was known, no walk of the new map, and so no
    route recomputed from it, goes directly from a node to the origin that no longer lists it.
   */
  lemma LostEdgeIsNotUsed(n: Node, u: RoutingUpdate, recvConn: NodeId, freshID: UpdateId, p: Path, c: NodeId)
    requires IsNews(n, u) && !(u.nodeID in n.costs && n.costs[u.nodeID] == u.connections)
    requires c != n.id && c != u.nodeID && c !in u.connections
    requires IsPath(Handle(n, u, recvConn, freshID).node.costs, p)
    ensures !Takes(p, c, u.nodeID)
  {
    UpdateRewritesMap(n, u, recvConn, freshID);
    DeniedIsNotTaken(n.costs, Handle(n, u, recvConn, freshID).node.costs, n.id, u, p, c);
  }

  // ----- the graph stays one that routes can be computed from

  lemma CutKeepsGraph(before: ConnectionMap, after: ConnectionMap, a: NodeId, b: NodeId, self: NodeId)
    requires LinkCut(before, after, a, b) && GraphOk(before, self)
    ensures GraphOk(after, self)
  {
  }

  /** A walk between two nodes that keeps off the link, and costs no more than any other such walk. */
  ghost predicate CheapestDetour(g: ConnectionMap, p: Path, u: NodeId, v: NodeId, a: NodeId, b: NodeId) {
    && PathBetween(g, p, u, v) && !Uses(p, a, b)
    && forall q :: PathBetween(g, q, u, v) && !Uses(q, a, b) ==> Cost(g, p) <= Cost(g, q)
  }

  lemma ShortestIsDetour(before: ConnectionMap, after: ConnectionMap, a: NodeId, b: NodeId, p: Path, u: NodeId,
                         v: NodeId)
    requires LinkCut(before, after, a, b) && IsShortest(after, p, u, v)
    ensures CheapestDetour(before, p, u, v, a, b) && Cost(before, p) == Cost(after, p)
  {
    CutPaths(before, after, a, b, p);
    forall q | PathBetween(before, q, u, v) && !Uses(q, a, b) ensures Cost(before, p) <= Cost(before, q) {
      CutPaths(before, after, a, b, q);
      assert PathBetween(after, q, u, v);
    }
  }

  /**
    What the node knows of v after recomputing: the cost of a cheapest way round the lost link, or
    that there is none.
   */
  ghost predicate KnowsDetour(g: ConnectionMap, self: NodeId, v: NodeId, peer: NodeId, known: Label) {
    match known
    case Infinite => forall p :: PathBetween(g, p, self, v) ==> Uses(p, self, peer)
    case Finite(d) => exists p :: CheapestDetour(g, p, self, v, self, peer) && Cost(g, p) == d
  }

  /**
    After a link is torn down, routes recomputed from the node's map are the cheapest ones that the
    old map had without that link, and none of them begins with the lost peer.
   */
  lemma RoutesAvoidLink(n: Node, peer: NodeId, r: Routes)
    requires GraphOk(n.costs, n.id) && peer != NO_NODE && Exact(Disconnected(n, peer).costs, n.id, r)
    ensures GraphOk(Disconnected(n, peer).costs, n.id)
    ensures forall v :: v in r.nextHop ==> r.nextHop[v] != peer
    ensures r.pathCost.Keys == n.costs.Keys
            && forall v :: v in n.costs ==> KnowsDetour(n.costs, n.id, v, peer, r.pathCost[v])
  {
    var after := Disconnected(n, peer).costs;
    DisconnectedCutsLink(n, peer);
    CutKeepsGraph(n.costs, after, n.id, peer, n.id);
    forall v | v in n.costs ensures KnowsDetour(n.costs, n.id, v, peer, r.pathCost[v]) {
      assert ExactLabel(after, n.id, v, r.pathCost[v]);
      match r.pathCost[v]
      case Infinite =>
        forall p | PathBetween(n.costs, p, n.id, v) ensures Uses(p, n.id, peer) {
          CutPaths(n.costs, after, n.id, peer, p);
          assert !PathBetween(after, p, n.id, v);
        }
      case Finite(d) =>
        var p :| IsShortest(after, p, n.id, v) && Cost(after, p) == d;
        ShortestIsDetour(n.costs, after, n.id, peer, p, n.id, v);
    }
  }
}
