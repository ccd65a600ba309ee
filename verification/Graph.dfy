/**
  The link-state map every node keeps (`knownConnectionCosts`), paths through it and what it
  means for a number to be the distance between two nodes.

  Only keys of the map are nodes: an edge to a neighbour that is not itself a key is never used
  by the route computation, because a missing entry of its cost table reads as zero.
 */
module Graph {

  type NodeId = string
  type Neighbours = map<NodeId, real>
  type ConnectionMap = map<NodeId, Neighbours>

  /** The mark for "no predecessor"; never the ID of a node. */
  const NO_NODE: NodeId := ""

  ghost predicate Positive(g: ConnectionMap) {
    forall u, v :: u in g && v in g[u] ==> g[u][v] > 0.0
  }

  predicate IsEdge(g: ConnectionMap, u: NodeId, v: NodeId) {
    u in g && v in g && v in g[u]
  }

  /** A walk, written as its last step appended to a shorter walk. */
  datatype Path = Start(node: NodeId) | Step(prefix: Path, node: NodeId)

  function First(p: Path): NodeId {
    match p
    case Start(n) => n
    case Step(q, _) => First(q)
  }

  function Hops(p: Path): nat {
    match p
    case Start(_) => 0
    case Step(q, _) => Hops(q) + 1
  }

  function Nodes(p: Path): set<NodeId> {
    match p
    case Start(n) => {n}
    case Step(q, n) => Nodes(q) + {n}
  }

  /** No node occurs twice. */
  predicate Simple(p: Path) {
    match p
    case Start(_) => true
    case Step(q, n) => n !in Nodes(q) && Simple(q)
  }

  predicate IsPath(g: ConnectionMap, p: Path) {
    match p
    case Start(n) => n in g
    case Step(q, n) => IsPath(g, q) && IsEdge(g, q.node, n)
  }

  function Cost(g: ConnectionMap, p: Path): real
    requires IsPath(g, p)
  {
    match p
    case Start(_) => 0.0
    case Step(q, n) => Cost(g, q) + g[q.node][n]
  }

  /** The walk p followed by the walk q, where q starts at the node p ends at. */
  function Join(p: Path, q: Path): (r: Path)
    requires p.node == First(q)
    ensures r.node == q.node && First(r) == First(p)
    ensures Hops(r) == Hops(p) + Hops(q)
  {
    match q
    case Start(_) => p
    case Step(q', n) => Step(Join(p, q'), n)
  }

  ghost predicate PathBetween(g: ConnectionMap, p: Path, u: NodeId, v: NodeId) {
    IsPath(g, p) && First(p) == u && p.node == v
  }

  ghost predicate Reachable(g: ConnectionMap, u: NodeId, v: NodeId) {
    exists p :: PathBetween(g, p, u, v)
  }

  /** p is a cheapest path from u to v. */
  ghost predicate IsShortest(g: ConnectionMap, p: Path, u: NodeId, v: NodeId) {
    && PathBetween(g, p, u, v)
    && forall q :: PathBetween(g, q, u, v) ==> Cost(g, p) <= Cost(g, q)
  }

  ghost predicate IsDistance(g: ConnectionMap, u: NodeId, v: NodeId, d: real) {
    exists p :: IsShortest(g, p, u, v) && Cost(g, p) == d
  }

  // ----- facts about paths

  lemma {:induction false} PathNodesAreKeys(g: ConnectionMap, p: Path)
    requires IsPath(g, p)
    ensures Nodes(p) <= g.Keys && p.node in Nodes(p) && First(p) in Nodes(p)
  {
    if p.Step? {
      PathNodesAreKeys(g, p.prefix);
    }
  }

  lemma {:induction false} JoinIsPath(g: ConnectionMap, p: Path, q: Path)
    requires IsPath(g, p) && IsPath(g, q) && p.node == First(q)
    ensures IsPath(g, Join(p, q))
    ensures Cost(g, Join(p, q)) == Cost(g, p) + Cost(g, q)
  {
    if q.Step? {
      JoinIsPath(g, p, q.prefix);
    }
  }

  lemma {:induction false} CostNonNegative(g: ConnectionMap, p: Path)
    requires Positive(g) && IsPath(g, p)
    ensures Cost(g, p) >= 0.0
    ensures p.Step? ==> Cost(g, p) > 0.0
  {
    if p.Step? {
      CostNonNegative(g, p.prefix);
    }
  }

  lemma DistanceUnique(g: ConnectionMap, u: NodeId, v: NodeId, d: real, e: real)
    requires IsDistance(g, u, v, d) && IsDistance(g, u, v, e)
    ensures d == e
  {
    var p :| IsShortest(g, p, u, v) && Cost(g, p) == d;
    var q :| IsShortest(g, q, u, v) && Cost(g, q) == e;
    assert PathBetween(g, p, u, v) && PathBetween(g, q, u, v);
  }

  /** A walk without repeats has fewer hops than there are nodes. */
  lemma SimplePathIsShort(g: ConnectionMap, p: Path)
    requires IsPath(g, p) && Simple(p)
    ensures Hops(p) < |g|
  {
    PathNodesAreKeys(g, p);
    SimplePathNodeCount(p);
    SubsetSize(Nodes(p), g.Keys);
  }

  lemma {:induction false} SimplePathNodeCount(p: Path)
    requires Simple(p)
    ensures |Nodes(p)| == Hops(p) + 1
  {
    if p.Step? {
      SimplePathNodeCount(p.prefix);
    }
  }

  lemma {:induction false} SubsetSize<T>(a: set<T>, b: set<T>)
    requires a <= b
    ensures |a| <= |b|
  {
    if a != {} {
      var x :| x in a;
      SubsetSize(a - {x}, b - {x});
    }
  }

  // ----- sums of edge costs, the finite stock of values a label can take

  ghost function EdgeCosts(g: ConnectionMap): set<real> {
    set u, v | u in g && v in g[u] :: g[u][v]
  }

  function Add(c: real, w: real): real {
    c + w
  }

  ghost function Extended(sums: set<real>, weights: set<real>): set<real> {
    set c, w | c in sums && w in weights :: Add(c, w)
  }

  /** All sums of at most n edge costs. */
  ghost function Sums(weights: set<real>, n: nat): set<real> {
    if n == 0 then {0.0} else Sums(weights, n - 1) + Extended(Sums(weights, n - 1), weights)
  }

  lemma {:induction false} SumsGrow(weights: set<real>, m: nat, n: nat)
    requires m <= n
    ensures Sums(weights, m) <= Sums(weights, n)
  {
    if m < n {
      SumsGrow(weights, m, n - 1);
      assert Sums(weights, n - 1) <= Sums(weights, n);
    }
  }

  lemma SumOfOneMore(weights: set<real>, n: nat, c: real, w: real)
    requires c in Sums(weights, n) && w in weights
    ensures c + w in Sums(weights, n + 1)
  {
    assert Add(c, w) in Extended(Sums(weights, n), weights);
  }

  lemma {:induction false} CostIsSum(g: ConnectionMap, p: Path)
    requires IsPath(g, p)
    ensures Cost(g, p) in Sums(EdgeCosts(g), Hops(p))
  {
    if p.Step? {
      CostIsSum(g, p.prefix);
      assert g[p.prefix.node][p.node] in EdgeCosts(g);
      SumOfOneMore(EdgeCosts(g), Hops(p.prefix), Cost(g, p.prefix), g[p.prefix.node][p.node]);
    }
  }

  lemma SimplePathCostInStock(g: ConnectionMap, p: Path)
    requires IsPath(g, p) && Simple(p)
    ensures Cost(g, p) in Sums(EdgeCosts(g), |g|)
  {
    SimplePathIsShort(g, p);
    CostIsSum(g, p);
    SumsGrow(EdgeCosts(g), Hops(p), |g|);
  }

  // ----- maps that agree on a closed set of nodes

  /** h gives n the same neighbours as g, all of them in `live`. */
  ghost predicate AgreesAt(g: ConnectionMap, h: ConnectionMap, live: set<NodeId>, n: NodeId) {
    n in g && n in h && h[n] == g[n] && g[n].Keys <= live
  }

  /** No edge leaves `live`, and h gives its members the same neighbours as g. */
  ghost predicate AgreesOn(g: ConnectionMap, h: ConnectionMap, live: set<NodeId>) {
    forall n :: n in live ==> AgreesAt(g, h, live, n)
  }

  lemma {:induction false} SamePaths(g: ConnectionMap, h: ConnectionMap, live: set<NodeId>, p: Path)
    requires AgreesOn(g, h, live) && First(p) in live
    ensures IsPath(g, p) <==> IsPath(h, p)
    ensures IsPath(g, p) ==> p.node in live && Cost(g, p) == Cost(h, p)
  {
    if p.Step? {
      SamePaths(g, h, live, p.prefix);
      assert p.prefix.node in live ==> AgreesAt(g, h, live, p.prefix.node);
      assert p.node in live ==> AgreesAt(g, h, live, p.node);
    } else {
      assert AgreesAt(g, h, live, p.node);
    }
  }
}
