/**
  Routing updates and what a node does with one, on values: the specification of the methods of
  class `Netceptor` and the steps of the meshes in `Flooding` and `DuplicateNodes`.
 */
module RoutingProtocol {
  import opened Graph

  type UpdateId = string

  /** The age of an update: epochs first, then sequence numbers. */
  datatype Stamp = Stamp(epoch: nat, sequence: nat)

  predicate Older(a: Stamp, b: Stamp) {
    a.epoch < b.epoch || (a.epoch == b.epoch && a.sequence < b.sequence)
  }

  predicate AtMost(a: Stamp, b: Stamp) {
    a == b || Older(a, b)
  }

  datatype RoutingUpdate = RoutingUpdate(
    nodeID: NodeId,
    updateID: UpdateId,
    stamp: Stamp,
    connections: Neighbours,
    forwardingNode: NodeId,
    suspectedDuplicate: nat
  )

  /** The part of a Netceptor that routing updates read and change; `filed` are the names it was made to remember. */
  datatype Node = Node(
    id: NodeId,
    epoch: nat,
    sequence: nat,
    connections: Neighbours,
    known: map<NodeId, Stamp>,
    seen: set<UpdateId>,
    costs: ConnectionMap,
    filed: seq<NodeId>,
    running: bool
  )

  /** An update on its way over the link between two neighbours. */
  datatype Packet = Packet(from: NodeId, to: NodeId, update: RoutingUpdate)

  /** The node after a step and the packets it hands to its connections. */
  datatype Reaction = Reaction(node: Node, sends: set<Packet>)

  function Flood(n: Node, u: RoutingUpdate, exclude: NodeId): set<Packet> {
    set c | c in n.connections && c != exclude :: Packet(n.id, c, u)
  }

  function Made(n: Node, suspected: nat, updateID: UpdateId): RoutingUpdate {
    RoutingUpdate(n.id, updateID, Stamp(n.epoch, n.sequence + 1), n.connections, n.id, suspected)
  }

  /** A node without connections sends nothing and keeps its sequence number. */
  function Announce(n: Node, suspected: nat, updateID: UpdateId): Reaction {
    if n.connections == map[] then Reaction(n, {})
    else
      var n' := n.(sequence := n.sequence + 1);
      Reaction(n', Flood(n', Made(n, suspected, updateID), NO_NODE))
  }

  /** Removes the edges to `origin` of the nodes that `origin` does not list, except from this node's own entry. */
  function DropReverse(costs: ConnectionMap, self: NodeId, origin: NodeId, connections: Neighbours): ConnectionMap {
    map c | c in costs :: if c == self || c in connections then costs[c] else costs[c] - {origin}
  }

  function Learnt(costs: ConnectionMap, self: NodeId, u: RoutingUpdate): ConnectionMap {
    if u.nodeID in costs && costs[u.nodeID] == u.connections then costs
    else DropReverse(costs[u.nodeID := u.connections], self, u.nodeID, u.connections)
  }

  predicate News(n: Node, u: RoutingUpdate) {
    u.nodeID in n.known ==> Older(n.known[u.nodeID], u.stamp)
  }

  /** An update carrying this node's own ID. */
  function HandleOwn(n: Node, u: RoutingUpdate, freshID: UpdateId): Reaction {
    if u.stamp.epoch == n.epoch then Reaction(n, {})
    else if u.suspectedDuplicate == n.epoch then Reaction(n.(running := false), {})
    else if u.stamp.epoch > n.epoch then Announce(n, u.stamp.epoch, freshID)
    else Reaction(n, {})
  }

  function Corrected(n: Node, u: RoutingUpdate): Node {
    if u.nodeID in n.known && n.known[u.nodeID].epoch == u.suspectedDuplicate
    then n.(known := n.known[u.nodeID := u.stamp])
    else n
  }

  /** The name of a node is filed when its first update is accepted. */
  function Accepted(n: Node, u: RoutingUpdate): Node {
    n.(known := n.known[u.nodeID := u.stamp], costs := Learnt(n.costs, n.id, u),
       filed := if u.nodeID in n.known then n.filed else n.filed + [u.nodeID])
  }

  /** The reaction to an update with another node's ID that is not in the table of seen updates. */
  function HandleUnseen(n: Node, u: RoutingUpdate, recvConn: NodeId): Reaction {
    if u.suspectedDuplicate == 0 && !News(n, u) then Reaction(n, {})
    else
      var n' := if u.suspectedDuplicate != 0 then Corrected(n, u) else Accepted(n, u);
      Reaction(n', Flood(n', u.(forwardingNode := n.id), recvConn))
  }

  function Handle(n: Node, u: RoutingUpdate, recvConn: NodeId, freshID: UpdateId): Reaction {
    if u.nodeID == NO_NODE then Reaction(n, {})
    else if u.nodeID == n.id then HandleOwn(n, u, freshID)
    else if u.updateID in n.seen then Reaction(n, {})
    else HandleUnseen(n.(seen := n.seen + {u.updateID}), u, recvConn)
  }

  /** Tearing down the link to a peer. */
  function Disconnected(n: Node, peer: NodeId): Node {
    if peer == NO_NODE then n
    else
      var c1 := if peer in n.costs then n.costs[peer := n.costs[peer] - {n.id}] else n.costs;
      var c2 := if n.id in c1 then c1[n.id := c1[n.id] - {peer}] else c1;
      n.(connections := n.connections - {peer}, costs := c2)
  }

  /** The checks an established link makes before it processes an update. */
  predicate LinkAccepts(n: Node, peer: NodeId, u: RoutingUpdate) {
    && u.forwardingNode == peer
    && (u.nodeID == peer ==>
          n.id in u.connections && peer in n.connections && u.connections[n.id] == n.connections[peer])
  }

  /**
    Whatever the state of a node and whatever the update, short of a notice: the node's own entry stays as it
    is, the stamp of an origin only changes to a strictly newer one, and only then is anything passed on.
   */
  lemma HandleOnlyRaises(n: Node, u: RoutingUpdate, recvConn: NodeId, freshID: UpdateId, o: NodeId)
    requires u.suspectedDuplicate == 0 && u.nodeID != n.id
    ensures var r := Handle(n, u, recvConn, freshID);
            && (n.id in r.node.costs <==> n.id in n.costs) && (n.id in n.costs ==> r.node.costs[n.id] == n.costs[n.id])
            && (o in n.known ==> o in r.node.known && AtMost(n.known[o], r.node.known[o]))
            && (r.sends != {} || r.node.costs != n.costs ==>
                  u.nodeID in r.node.known && r.node.known[u.nodeID] == u.stamp
                  && (u.nodeID in n.known ==> Older(n.known[u.nodeID], u.stamp)))
  {
  }

  /**
    The edge from c to d is gone by the word of u: d is the origin of u, and u does not list c; own
    edges are never dropped.
   */
  predicate Denied(self: NodeId, u: RoutingUpdate, c: NodeId, d: NodeId) {
    d == u.nodeID && c != u.nodeID && c != self && c !in u.connections
  }

  /** The entry of the origin is what it says, the edges it denies are gone, and every other edge is as it was. */
  ghost predicate Rewritten(before: ConnectionMap, after: ConnectionMap, self: NodeId, u: RoutingUpdate) {
    && after.Keys == before.Keys + {u.nodeID} && after[u.nodeID] == u.connections
    && forall c, d :: c in before && c in after && c != u.nodeID ==>
         && (d in after[c] <==> d in before[c] && !Denied(self, u, c, d))
         && (d in after[c] ==> after[c][d] == before[c][d])
  }

  /** The update comes from another node, was not seen before, is no notice, and is newer than what is known. */
  predicate IsNews(n: Node, u: RoutingUpdate) {
    && u.nodeID != NO_NODE && u.nodeID != n.id && u.updateID !in n.seen && u.suspectedDuplicate == 0
    && (u.nodeID in n.known ==>
          || n.known[u.nodeID].epoch < u.stamp.epoch
          || (n.known[u.nodeID].epoch == u.stamp.epoch && n.known[u.nodeID].sequence < u.stamp.sequence))
  }

  /**
    What an update does to the map of a node: if it is news and differs from what the map says of its
    origin, the map is rewritten by it; otherwise the map stays as it is.
   */
  lemma UpdateRewritesMap(n: Node, u: RoutingUpdate, recvConn: NodeId, freshID: UpdateId)
    ensures var costs := Handle(n, u, recvConn, freshID).node.costs;
            if IsNews(n, u) && !(u.nodeID in n.costs && n.costs[u.nodeID] == u.connections)
            then Rewritten(n.costs, costs, n.id, u)
            else costs == n.costs
  {
    if IsNews(n, u) {
      LearntRewrites(n.costs, n.id, u);
    }
  }

  lemma LearntRewrites(costs: ConnectionMap, self: NodeId, u: RoutingUpdate)
    requires u.nodeID != self
    ensures if u.nodeID in costs && costs[u.nodeID] == u.connections then Learnt(costs, self, u) == costs
            else Rewritten(costs, Learnt(costs, self, u), self, u)
  {
  }

  /**
    An announcement goes to every connection and carries all of them under the next sequence number; a
    node without connections stays as it is.
   */
  lemma AnnouncementIs(n: Node, suspected: nat, updateID: UpdateId, c: NodeId)
    requires c != NO_NODE
    ensures var r := Announce(n, suspected, updateID);
            var u := RoutingUpdate(n.id, updateID, Stamp(n.epoch, n.sequence + 1), n.connections, n.id, suspected);
            && (Packet(n.id, c, u) in r.sends <==> c in n.connections)
            && (forall p :: p in r.sends ==> p.from == n.id && p.update == u)
            && r.node == if n.connections == map[] then n else n.(sequence := n.sequence + 1)
  {
  }

  /** A notice that is new to a node leaves on every connection but the one it came from, and on no other. */
  lemma NoticeIsPassedOn(n: Node, u: RoutingUpdate, recvConn: NodeId, freshID: UpdateId, c: NodeId)
    requires u.nodeID != NO_NODE && u.nodeID != n.id && u.updateID !in n.seen && u.suspectedDuplicate != 0
    ensures var r := Handle(n, u, recvConn, freshID);
            && (Packet(n.id, c, u.(forwardingNode := n.id)) in r.sends <==> c in n.connections && c != recvConn)
            && (forall p :: p in r.sends ==> p.from == n.id && p.update == u.(forwardingNode := n.id))
            && (if u.nodeID in n.known && n.known[u.nodeID].epoch == u.suspectedDuplicate
                then r.node.known == n.known[u.nodeID := u.stamp]
                else r.node.known == n.known)
            && r.node.costs == n.costs && r.node.connections == n.connections && r.node.running == n.running
  {
  }

  /**
    An update of another node is passed on, to every connection but the one it came from, if and
    only if it is news.
   */
  lemma NewsIsPassedOn(n: Node, u: RoutingUpdate, recvConn: NodeId, freshID: UpdateId, c: NodeId)
    requires u.nodeID != n.id && u.suspectedDuplicate == 0
    ensures var r := Handle(n, u, recvConn, freshID);
            && (Packet(n.id, c, u.(forwardingNode := n.id)) in r.sends <==>
                  IsNews(n, u) && c in n.connections && c != recvConn)
            && (forall p :: p in r.sends ==> p.from == n.id && p.update == u.(forwardingNode := n.id))
            && r.node.known == (if IsNews(n, u) then n.known[u.nodeID := u.stamp] else n.known)
  {
  }

  /**
    A node reacts to an update of another node at most once, whoever it comes from, until it forgets
    having seen it.
   */
  lemma SecondTimeIsIgnored(n: Node, u: RoutingUpdate, from: NodeId, again: NodeId, forwarder: NodeId, id: UpdateId)
    requires u.nodeID != n.id
    ensures var once := Handle(n, u, from, id).node;
            Handle(once, u.(forwardingNode := forwarder), again, id) == Reaction(once, {})
  {
  }

  /** The node has filed its own name, those of its neighbours and those of all nodes it has heard from. */
  ghost predicate NamesFiled(n: Node) {
    && n.id in n.filed
    && (forall c :: c in n.connections ==> c in n.filed)
    && (forall o :: o in n.known ==> o in n.filed)
  }

  /** No update and no lost link takes that away. */
  lemma HandleKeepsNames(n: Node, u: RoutingUpdate, recvConn: NodeId, freshID: UpdateId)
    requires NamesFiled(n)
    ensures NamesFiled(Handle(n, u, recvConn, freshID).node)
  {
  }

  lemma DisconnectedKeepsNames(n: Node, peer: NodeId)
    requires NamesFiled(n)
    ensures NamesFiled(Disconnected(n, peer))
  {
  }
}
