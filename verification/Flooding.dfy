/**
  Routing updates flooding through a mesh whose links are stable and lossless.  Packets in flight
  form a multiset, so nothing is assumed about their order; node IDs are unique and every update
  gets an update ID that was not issued before.
 */
module Flooding {
  import opened Graph
  import opened RoutingProtocol
  import opened LinkLoss

  /** `issued` and `sent` are history: every update made so far by its ID, and every packet handed to a link so far. */
  datatype Mesh = Mesh(
    nodes: map<NodeId, Node>,
    inflight: multiset<Packet>,
    issued: map<UpdateId, RoutingUpdate>,
    sent: set<Packet>
  )

  /**
    What is fixed while the links are stable: the true neighbours of every node, and the stamp of
    every node when the phase began.
   */
  datatype Phase = Phase(truth: ConnectionMap, base: map<NodeId, Stamp>)

  ghost predicate PhaseOk(ph: Phase) {
    && NO_NODE !in ph.truth && ph.base.Keys == ph.truth.Keys
    && Positive(ph.truth)
    && (forall u :: u in ph.truth ==> ph.truth[u] != map[] && u !in ph.truth[u])
    && (forall u, v :: u in ph.truth && v in ph.truth[u] ==>
                         v in ph.truth && u in ph.truth[v] && ph.truth[v][u] == ph.truth[u][v])
  }

  // ----- steps

  datatype Event =
    | Originate(node: NodeId, updateID: UpdateId)
    | Deliver(packet: Packet, freshID: UpdateId)
    | Expire(node: NodeId, forgotten: set<UpdateId>)

  predicate Enabled(m: Mesh, e: Event) {
    match e
    case Originate(n, id) => n in m.nodes && m.nodes[n].running && id !in m.issued
    case Deliver(p, id) => p in m.inflight && p.to in m.nodes && m.nodes[p.to].running && id !in m.issued
    case Expire(n, _) => n in m.nodes
  }

  /** The node reacts, its packets enter the links. */
  function After(m: Mesh, n: NodeId, r: Reaction): Mesh {
    m.(nodes := m.nodes[n := r.node], inflight := m.inflight + multiset(r.sends), sent := m.sent + r.sends)
  }

  /** Whether the node answers with a notice that suspects a duplicate. */
  predicate StartsNotice(n: Node, u: RoutingUpdate) {
    u.nodeID == n.id && u.stamp.epoch > n.epoch && u.suspectedDuplicate != n.epoch
  }

  function Received(m: Mesh, p: Packet, freshID: UpdateId): Mesh
    requires p.to in m.nodes
  {
    var n := m.nodes[p.to];
    if !LinkAccepts(n, p.from, p.update) then
      m.(nodes := m.nodes[p.to := Disconnected(n, p.from)])
    else
      var m' := After(m, p.to, Handle(n, p.update, p.from, freshID));
      if StartsNotice(n, p.update)
      then m'.(issued := m.issued[freshID := Made(n, p.update.stamp.epoch, freshID)])
      else m'
  }

  function Apply(m: Mesh, e: Event): Mesh
    requires Enabled(m, e)
  {
    match e
    case Originate(n, id) =>
      After(m, n, Announce(m.nodes[n], 0, id)).(issued := m.issued[id := Made(m.nodes[n], 0, id)])
    case Deliver(p, id) =>
      Received(m.(inflight := m.inflight - multiset{p}), p, id)
    case Expire(n, ids) =>
      m.(nodes := m.nodes[n := m.nodes[n].(seen := m.nodes[n].seen - ids)])
  }

  // ----- invariant

  function Own(n: Node): Stamp {
    Stamp(n.epoch, n.sequence)
  }

  predicate KnowsOf(m: Mesh, u: NodeId, origin: NodeId) {
    u in m.nodes && (u == origin || origin in m.nodes[u].known)
  }

  function StampAt(m: Mesh, u: NodeId, origin: NodeId): Stamp
    requires KnowsOf(m, u, origin)
  {
    if u == origin then Own(m.nodes[u]) else m.nodes[u].known[origin]
  }

  /** u has taken in everything about `origin` up to stamp k. */
  predicate Reached(m: Mesh, u: NodeId, origin: NodeId, k: Stamp) {
    KnowsOf(m, u, origin) && AtMost(k, StampAt(m, u, origin))
  }

  ghost predicate NodeOk(ph: Phase, m: Mesh, n: NodeId)
    requires n in m.nodes && n in ph.truth
  {
    var node := m.nodes[n];
    node.id == n && node.connections == ph.truth[n] && node.running
  }

  ghost predicate NodesOk(ph: Phase, m: Mesh) {
    && m.nodes.Keys == ph.truth.Keys == ph.base.Keys
    && forall n :: n in m.nodes ==> NodeOk(ph, m, n)
  }

  /** No node is ahead of an origin about that origin's own updates. */
  ghost predicate StampsOk(ph: Phase, m: Mesh) {
    && (forall n :: n in m.nodes && n in ph.base ==> AtMost(ph.base[n], Own(m.nodes[n])))
    && (forall v, o :: v in m.nodes && o in m.nodes && KnowsOf(m, v, o) ==> AtMost(StampAt(m, v, o), Own(m.nodes[o])))
  }

  /**
    A packet travels along a link, carries an issued update that its sender has taken in itself, and
    tells the truth.
   */
  ghost predicate PacketOk(ph: Phase, m: Mesh, p: Packet) {
    var u := p.update;
    && p.from in ph.truth && p.to in ph.truth[p.from]
    && u.forwardingNode == p.from && u.suspectedDuplicate == 0 && u.nodeID != NO_NODE
    && u.updateID in m.issued && m.issued[u.updateID].(forwardingNode := p.from) == u
    && Reached(m, p.from, u.nodeID, u.stamp)
    && (u.nodeID in ph.truth ==> u.connections == ph.truth[u.nodeID])
  }

  ghost predicate SentOk(ph: Phase, m: Mesh) {
    forall p :: p in m.sent ==> PacketOk(ph, m, p)
  }

  ghost predicate FlightOk(m: Mesh) {
    forall p :: p in m.inflight ==> p in m.sent && m.inflight[p] == 1
  }

  /** The update with this ID was issued and v has taken it in. */
  ghost predicate Absorbed(m: Mesh, v: NodeId, id: UpdateId) {
    id in m.issued && Reached(m, v, m.issued[id].nodeID, m.issued[id].stamp)
  }

  ghost predicate SeenOk(m: Mesh) {
    forall v, id :: v in m.nodes && id in m.nodes[v].seen ==> Absorbed(m, v, id)
  }

  ghost predicate Carries(p: Packet, u: NodeId, v: NodeId, origin: NodeId, k: Stamp) {
    p.from == u && p.to == v && p.update.nodeID == origin && p.update.stamp == k
  }

  /** Across the link from u to v: v is not behind u about `origin`, or u's update is still in flight to v. */
  ghost predicate LinkClause(ph: Phase, m: Mesh, u: NodeId, v: NodeId, origin: NodeId)
    requires origin in ph.base
  {
    KnowsOf(m, u, origin) && Older(ph.base[origin], StampAt(m, u, origin)) ==>
      || Reached(m, v, origin, StampAt(m, u, origin))
      || exists p :: p in m.inflight && Carries(p, u, v, origin, StampAt(m, u, origin))
  }

  ghost predicate LinksOk(ph: Phase, m: Mesh) {
    forall u, v, o {:trigger LinkClause(ph, m, u, v, o)} ::
      u in ph.truth && v in ph.truth[u] && o in ph.base && o != v ==> LinkClause(ph, m, u, v, o)
  }

  /** Everything learnt about an origin since the phase began is exact, and so is the node's own entry. */
  ghost predicate CostsExact(ph: Phase, m: Mesh, v: NodeId, origin: NodeId)
    requires origin in ph.base && origin in ph.truth
  {
    v in m.nodes && KnowsOf(m, v, origin) && (v == origin || Older(ph.base[origin], StampAt(m, v, origin))) ==>
      origin in m.nodes[v].costs && m.nodes[v].costs[origin] == ph.truth[origin]
  }

  ghost predicate CostsOk(ph: Phase, m: Mesh) {
    forall v, o {:trigger CostsExact(ph, m, v, o)} ::
      v in ph.truth && o in ph.truth && o in ph.base ==> CostsExact(ph, m, v, o)
  }

  ghost predicate Inv(ph: Phase, m: Mesh) {
    && NodesOk(ph, m) && StampsOk(ph, m) && SentOk(ph, m) && FlightOk(m) && SeenOk(m)
    && LinksOk(ph, m) && CostsOk(ph, m)
  }

  /**
    The phase begins: whatever nodes remember from before is no newer than the origin's current
    stamp, own entries are right, and the packets still in flight tell the truth.
   */
  ghost predicate Begins(ph: Phase, m: Mesh) {
    && NodesOk(ph, m) && StampsOk(ph, m) && SentOk(ph, m) && FlightOk(m) && SeenOk(m)
    && (forall n :: n in m.nodes ==> ph.base[n] == Own(m.nodes[n]))
    && (forall n :: n in m.nodes ==> n in m.nodes[n].costs && m.nodes[n].costs[n] == ph.truth[n])
  }

  lemma OlderIsStrict(a: Stamp, b: Stamp)
    requires Older(a, b)
    ensures !AtMost(b, a)
  {
  }

  lemma BeginsInv(ph: Phase, m: Mesh)
    requires PhaseOk(ph) && Begins(ph, m)
    ensures Inv(ph, m)
  {
    forall v, o | v in m.nodes && o in m.nodes && KnowsOf(m, v, o)
      ensures !Older(ph.base[o], StampAt(m, v, o))
    {
      assert AtMost(StampAt(m, v, o), Own(m.nodes[o]));
    }
  }

  // ----- every step keeps the invariant

  /** Nodes only learn, and issued updates stay what they are. */
  ghost predicate Grows(m: Mesh, m': Mesh) {
    && m.nodes.Keys == m'.nodes.Keys
    && (forall v, o :: KnowsOf(m, v, o) ==> KnowsOf(m', v, o) && AtMost(StampAt(m, v, o), StampAt(m', v, o)))
    && (forall id :: id in m.issued ==> id in m'.issued && m'.issued[id] == m.issued[id])
  }

  lemma GrowsReached(m: Mesh, m': Mesh, v: NodeId, o: NodeId, k: Stamp)
    requires Grows(m, m') && Reached(m, v, o, k)
    ensures Reached(m', v, o, k)
  {
  }

  lemma GrowsSent(ph: Phase, m: Mesh, m': Mesh)
    requires Grows(m, m') && SentOk(ph, m)
    ensures forall p :: p in m.sent ==> PacketOk(ph, m', p)
  {
    forall p | p in m.sent
      ensures PacketOk(ph, m', p)
    {
      GrowsReached(m, m', p.from, p.update.nodeID, p.update.stamp);
    }
  }

  lemma GrowsAbsorbed(m: Mesh, m': Mesh, v: NodeId, id: UpdateId)
    requires Grows(m, m') && Absorbed(m, v, id)
    ensures Absorbed(m', v, id)
  {
    GrowsReached(m, m', v, m.issued[id].nodeID, m.issued[id].stamp);
  }

  /** m' differs from m only in packets in flight and in what nodes have seen. */
  ghost predicate SameKnowledge(m: Mesh, m': Mesh) {
    && m.nodes.Keys == m'.nodes.Keys && m.issued == m'.issued && m.sent == m'.sent
    && forall v :: v in m.nodes ==> m'.nodes[v] == m.nodes[v].(seen := m'.nodes[v].seen)
  }

  lemma SameKnowledgeGrows(m: Mesh, m': Mesh)
    requires SameKnowledge(m, m')
    ensures Grows(m, m')
    ensures forall v, o :: KnowsOf(m', v, o) ==> KnowsOf(m, v, o) && StampAt(m', v, o) == StampAt(m, v, o)
  {
  }

  lemma SameKnowledgeKeeps(ph: Phase, m: Mesh, m': Mesh)
    requires SameKnowledge(m, m') && NodesOk(ph, m) && StampsOk(ph, m) && SentOk(ph, m)
    ensures NodesOk(ph, m') && StampsOk(ph, m') && SentOk(ph, m')
  {
    SameKnowledgeGrows(m, m');
    GrowsSent(ph, m, m');
    forall n | n in m'.nodes
      ensures NodeOk(ph, m', n)
    {
      assert NodeOk(ph, m, n);
    }
  }

  lemma SameKnowledgeCosts(ph: Phase, m: Mesh, m': Mesh)
    requires SameKnowledge(m, m') && CostsOk(ph, m)
    ensures CostsOk(ph, m')
  {
    SameKnowledgeGrows(m, m');
    forall v, o | v in ph.truth && o in ph.truth && o in ph.base
      ensures CostsExact(ph, m', v, o)
    {
      assert CostsExact(ph, m, v, o);
    }
  }

  /** Changing what one node has seen keeps the invariant if all it has seen is reflected in its stamps. */
  lemma SeenChange(ph: Phase, m: Mesh, n: NodeId, seen: set<UpdateId>)
    requires Inv(ph, m) && n in m.nodes
    requires forall id :: id in seen ==> Absorbed(m, n, id)
    ensures Inv(ph, m.(nodes := m.nodes[n := m.nodes[n].(seen := seen)]))
  {
    var m' := m.(nodes := m.nodes[n := m.nodes[n].(seen := seen)]);
    SameKnowledgeGrows(m, m');
    SameKnowledgeKeeps(ph, m, m');
    SameKnowledgeCosts(ph, m, m');
    SameKnowledgeSeen(m, m');
    SameKnowledgeLinks(ph, m, m');
  }

  lemma SameKnowledgeSeen(m: Mesh, m': Mesh)
    requires SameKnowledge(m, m') && SeenOk(m)
    requires forall v, id :: v in m.nodes && id in m'.nodes[v].seen ==> id in m.nodes[v].seen || Absorbed(m, v, id)
    ensures SeenOk(m')
  {
    SameKnowledgeGrows(m, m');
    forall v, id | v in m'.nodes && id in m'.nodes[v].seen
      ensures Absorbed(m', v, id)
    {
      assert id in m.nodes[v].seen ==> Absorbed(m, v, id);
      GrowsAbsorbed(m, m', v, id);
    }
  }

  lemma SameKnowledgeLinks(ph: Phase, m: Mesh, m': Mesh)
    requires SameKnowledge(m, m') && m.inflight == m'.inflight && LinksOk(ph, m)
    ensures LinksOk(ph, m')
  {
    SameKnowledgeGrows(m, m');
    forall u, v, o | u in ph.truth && v in ph.truth[u] && o in ph.base && o != v
      ensures LinkClause(ph, m', u, v, o)
    {
      assert LinkClause(ph, m, u, v, o);
    }
  }

  /** A packet may leave the link once its content is reflected at the receiver. */
  lemma DropPacket(ph: Phase, m: Mesh, p: Packet)
    requires Inv(ph, m) && p in m.inflight
    requires p.update.nodeID == p.to || Reached(m, p.to, p.update.nodeID, p.update.stamp)
    ensures Inv(ph, m.(inflight := m.inflight - multiset{p}))
  {
    var m' := m.(inflight := m.inflight - multiset{p});
    SameKnowledgeGrows(m, m');
    SameKnowledgeKeeps(ph, m, m');
    SameKnowledgeCosts(ph, m, m');
    SameKnowledgeSeen(m, m');
    forall u, v, o | u in ph.truth && v in ph.truth[u] && o in ph.base && o != v
      ensures LinkClause(ph, m', u, v, o)
    {
      DropKeepsLink(ph, m, p, u, v, o);
    }
  }

  lemma DropKeepsLink(ph: Phase, m: Mesh, p: Packet, u: NodeId, v: NodeId, o: NodeId)
    requires o in ph.base && o != v && LinkClause(ph, m, u, v, o)
    requires p.update.nodeID == p.to || Reached(m, p.to, p.update.nodeID, p.update.stamp)
    ensures LinkClause(ph, m.(inflight := m.inflight - multiset{p}), u, v, o)
  {
    var m' := m.(inflight := m.inflight - multiset{p});
    if KnowsOf(m, u, o) && Older(ph.base[o], StampAt(m, u, o)) && !Reached(m, v, o, StampAt(m, u, o)) {
      var q :| q in m.inflight && Carries(q, u, v, o, StampAt(m, u, o));
      assert q in m'.inflight;
    }
  }

  // ----- acceptance of an update

  /** The mesh after v has accepted u from w and passed it on; the packet that brought it is not removed yet. */
  function Spread(m: Mesh, v: NodeId, u: RoutingUpdate, w: NodeId): Mesh
    requires v in m.nodes
  {
    var n' := Accepted(m.nodes[v], u);
    After(m, v, Reaction(n', Flood(n', u.(forwardingNode := v), w)))
  }

  /** The receiver v of packet p finds it to be news. */
  ghost predicate Acceptable(ph: Phase, m: Mesh, p: Packet) {
    && PhaseOk(ph) && Inv(ph, m) && p in m.inflight && p.to in m.nodes
    && p.update.nodeID != p.to && News(m.nodes[p.to], p.update)
  }

  lemma SpreadNodes(ph: Phase, m: Mesh, v: NodeId, u: RoutingUpdate, w: NodeId)
    requires NodesOk(ph, m) && v in m.nodes
    ensures NodesOk(ph, Spread(m, v, u, w))
  {
    forall n | n in m.nodes
      ensures NodeOk(ph, Spread(m, v, u, w), n)
    {
      assert NodeOk(ph, m, n);
    }
  }

  lemma SpreadLearns(m: Mesh, v: NodeId, u: RoutingUpdate, w: NodeId)
    requires v in m.nodes && u.nodeID != v && News(m.nodes[v], u)
    ensures Grows(m, Spread(m, v, u, w))
    ensures Reached(Spread(m, v, u, w), v, u.nodeID, u.stamp)
  {
  }

  lemma SpreadGrows(ph: Phase, m: Mesh, p: Packet)
    requires Acceptable(ph, m, p)
    ensures Grows(m, Spread(m, p.to, p.update, p.from))
    ensures NodesOk(ph, Spread(m, p.to, p.update, p.from))
    ensures Reached(Spread(m, p.to, p.update, p.from), p.to, p.update.nodeID, p.update.stamp)
  {
    SpreadNodes(ph, m, p.to, p.update, p.from);
    SpreadLearns(m, p.to, p.update, p.from);
  }

  /** An accepted update strictly raises the stored stamp, so none of its packets can have left v before. */
  lemma NeverResent(ph: Phase, m: Mesh, p: Packet)
    requires Acceptable(ph, m, p)
    ensures Flood(Accepted(m.nodes[p.to], p.update), p.update.(forwardingNode := p.to), p.from) !! m.sent
  {
    var v, u := p.to, p.update;
    assert NodeOk(ph, m, v);
    forall x | x in Flood(Accepted(m.nodes[v], u), u.(forwardingNode := v), p.from)
      ensures x !in m.sent
    {
      if x in m.sent {
        assert PacketOk(ph, m, x);
        OlderIsStrict(StampAt(m, v, u.nodeID), u.stamp);
      }
    }
  }

  lemma SpreadStamps(ph: Phase, m: Mesh, p: Packet)
    requires Acceptable(ph, m, p)
    ensures StampsOk(ph, Spread(m, p.to, p.update, p.from))
  {
    var m' := Spread(m, p.to, p.update, p.from);
    assert PacketOk(ph, m, p);
    forall v, o | v in m'.nodes && o in m'.nodes && KnowsOf(m', v, o)
      ensures AtMost(StampAt(m', v, o), Own(m'.nodes[o]))
    {
      if v == p.to && o == p.update.nodeID {
        assert AtMost(StampAt(m, p.from, o), Own(m.nodes[o]));
      } else {
        assert KnowsOf(m, v, o);
      }
    }
  }

  lemma SpreadPackets(ph: Phase, m: Mesh, p: Packet)
    requires Acceptable(ph, m, p)
    ensures SentOk(ph, Spread(m, p.to, p.update, p.from)) && FlightOk(Spread(m, p.to, p.update, p.from))
  {
    var m' := Spread(m, p.to, p.update, p.from);
    var sends := Flood(Accepted(m.nodes[p.to], p.update), p.update.(forwardingNode := p.to), p.from);
    SpreadGrows(ph, m, p);
    GrowsSent(ph, m, m');
    assert PacketOk(ph, m, p) && NodeOk(ph, m, p.to);
    forall x | x in sends
      ensures PacketOk(ph, m', x)
    {
    }
    NeverResent(ph, m, p);
  }

  lemma SpreadSeen(ph: Phase, m: Mesh, p: Packet)
    requires Acceptable(ph, m, p)
    ensures SeenOk(Spread(m, p.to, p.update, p.from))
  {
    var m' := Spread(m, p.to, p.update, p.from);
    SpreadGrows(ph, m, p);
    forall v, id | v in m'.nodes && id in m'.nodes[v].seen
      ensures Absorbed(m', v, id)
    {
      assert id in m.nodes[v].seen && Absorbed(m, v, id);
      GrowsAbsorbed(m, m', v, id);
    }
  }

  lemma LinkMonotone(ph: Phase, m: Mesh, m': Mesh, u: NodeId, v: NodeId, o: NodeId)
    requires Grows(m, m') && m.inflight <= m'.inflight && o in ph.base && LinkClause(ph, m, u, v, o)
    requires KnowsOf(m', u, o) ==> KnowsOf(m, u, o) && StampAt(m', u, o) == StampAt(m, u, o)
    ensures LinkClause(ph, m', u, v, o)
  {
    if KnowsOf(m, u, o) && Older(ph.base[o], StampAt(m, u, o)) {
      if Reached(m, v, o, StampAt(m, u, o)) {
        GrowsReached(m, m', v, o, StampAt(m, u, o));
      } else {
        var q :| q in m.inflight && Carries(q, u, v, o, StampAt(m, u, o));
        assert q in m'.inflight;
      }
    }
  }

  lemma SpreadLink(ph: Phase, m: Mesh, p: Packet, u: NodeId, v: NodeId, o: NodeId)
    requires Acceptable(ph, m, p)
    requires u in ph.truth && v in ph.truth[u] && o in ph.base && o != v
    ensures LinkClause(ph, Spread(m, p.to, p.update, p.from), u, v, o)
  {
    var m' := Spread(m, p.to, p.update, p.from);
    SpreadGrows(ph, m, p);
    assert PacketOk(ph, m, p);
    if u == p.to && o == p.update.nodeID {
      if v == p.from {
        GrowsReached(m, m', v, o, p.update.stamp);
      } else {
        assert NodeOk(ph, m, u);
        var x := Packet(u, v, p.update.(forwardingNode := u));
        assert x in m'.inflight && Carries(x, u, v, o, StampAt(m', u, o));
      }
    } else {
      assert LinkClause(ph, m, u, v, o);
      LinkMonotone(ph, m, m', u, v, o);
    }
  }

  /** With true and symmetric maps, learning about one origin does not disturb what is known of another. */
  lemma LearntKeepsExact(ph: Phase, costs: ConnectionMap, self: NodeId, u: RoutingUpdate, o: NodeId)
    requires PhaseOk(ph) && o in ph.truth && o in costs && costs[o] == ph.truth[o]
    requires u.nodeID in ph.truth ==> u.connections == ph.truth[u.nodeID]
    requires u.nodeID != self
    ensures o in Learnt(costs, self, u) && Learnt(costs, self, u)[o] == ph.truth[o]
  {
    if o == u.nodeID {
      LearntIsExact(ph, costs, self, u);
    } else if o != self && o !in u.connections {
      assert u.nodeID !in ph.truth[o];
      assert costs[o] - {u.nodeID} == costs[o];
    }
  }

  lemma LearntIsExact(ph: Phase, costs: ConnectionMap, self: NodeId, u: RoutingUpdate)
    requires PhaseOk(ph) && u.nodeID in ph.truth && u.connections == ph.truth[u.nodeID]
    ensures u.nodeID in Learnt(costs, self, u) && Learnt(costs, self, u)[u.nodeID] == ph.truth[u.nodeID]
  {
    assert u.connections - {u.nodeID} == u.connections;
  }

  /** The map after accepting the updates one after the other. */
  function LearntAll(costs: ConnectionMap, self: NodeId, updates: seq<RoutingUpdate>): ConnectionMap {
    if updates == [] then costs
    else Learnt(LearntAll(costs, self, updates[..|updates| - 1]), self, updates[|updates| - 1])
  }

  /**
    From any map, one true update per origin in any order, with any repetition, makes the entry of
    every origin exact.
   */
  lemma {:induction false} AnyOrderIsExact(ph: Phase, costs: ConnectionMap, self: NodeId, updates: seq<RoutingUpdate>,
                                           i: nat)
    requires PhaseOk(ph) && i < |updates| && updates[i].nodeID in ph.truth
    requires forall j :: 0 <= j < |updates| ==>
               && updates[j].nodeID != self
               && (updates[j].nodeID in ph.truth ==> updates[j].connections == ph.truth[updates[j].nodeID])
    ensures var r := LearntAll(costs, self, updates);
            updates[i].nodeID in r && r[updates[i].nodeID] == ph.truth[updates[i].nodeID]
  {
    var last := |updates| - 1;
    var before := LearntAll(costs, self, updates[..last]);
    if i == last {
      LearntIsExact(ph, before, self, updates[last]);
    } else {
      AnyOrderIsExact(ph, costs, self, updates[..last], i);
      LearntKeepsExact(ph, before, self, updates[last], updates[i].nodeID);
    }
  }

  lemma SpreadCosts(ph: Phase, m: Mesh, p: Packet, v: NodeId, o: NodeId)
    requires Acceptable(ph, m, p)
    requires v in ph.truth && o in ph.truth && o in ph.base
    ensures CostsExact(ph, Spread(m, p.to, p.update, p.from), v, o)
  {
    assert PacketOk(ph, m, p) && NodeOk(ph, m, p.to);
    assert CostsExact(ph, m, v, o);
    if v == p.to {
      if o == p.update.nodeID {
        LearntIsExact(ph, m.nodes[v].costs, v, p.update);
      } else if o in m.nodes[v].costs && m.nodes[v].costs[o] == ph.truth[o] {
        LearntKeepsExact(ph, m.nodes[v].costs, v, p.update, o);
      }
    }
  }

  lemma SpreadKeepsInv(ph: Phase, m: Mesh, p: Packet)
    requires Acceptable(ph, m, p)
    ensures Inv(ph, Spread(m, p.to, p.update, p.from))
  {
    var m' := Spread(m, p.to, p.update, p.from);
    SpreadGrows(ph, m, p);
    SpreadStamps(ph, m, p);
    SpreadPackets(ph, m, p);
    SpreadSeen(ph, m, p);
    forall u, v, o | u in ph.truth && v in ph.truth[u] && o in ph.base && o != v
      ensures LinkClause(ph, m', u, v, o)
    {
      SpreadLink(ph, m, p, u, v, o);
    }
    forall v, o | v in ph.truth && o in ph.truth && o in ph.base
      ensures CostsExact(ph, m', v, o)
    {
      SpreadCosts(ph, m, p, v, o);
    }
  }

  // ----- a node announces itself

  /** What an announcement changes: the node's sequence number, and one packet on each of its links. */
  ghost predicate Originated(m: Mesh, n: NodeId, id: UpdateId, m': Mesh)
    requires n in m.nodes
  {
    var node := m.nodes[n];
    var sends := Flood(node, Made(node, 0, id), NO_NODE);
    && m'.nodes == m.nodes[n := node.(sequence := node.sequence + 1)]
    && m'.inflight == m.inflight + multiset(sends) && m'.sent == m.sent + sends
    && m'.issued == m.issued[id := Made(node, 0, id)]
  }

  lemma OriginateChanges(m: Mesh, n: NodeId, id: UpdateId)
    requires Enabled(m, Originate(n, id)) && m.nodes[n].connections != map[]
    ensures Originated(m, n, id, Apply(m, Originate(n, id)))
  {
    var node := m.nodes[n];
    assert Flood(node.(sequence := node.sequence + 1), Made(node, 0, id), NO_NODE) ==
           Flood(node, Made(node, 0, id), NO_NODE);
  }

  lemma OriginateEffect(ph: Phase, m: Mesh, n: NodeId, id: UpdateId)
    requires PhaseOk(ph) && NodesOk(ph, m) && SentOk(ph, m) && Enabled(m, Originate(n, id))
    ensures var m' := Apply(m, Originate(n, id));
            && Originated(m, n, id, m') && Grows(m, m') && NodesOk(ph, m')
            && Flood(m.nodes[n], Made(m.nodes[n], 0, id), NO_NODE) !! m.sent
  {
    assert NodeOk(ph, m, n);
    OriginateChanges(m, n, id);
    forall x | x in Flood(m.nodes[n], Made(m.nodes[n], 0, id), NO_NODE)
      ensures x !in m.sent
    {
      assert x in m.sent ==> PacketOk(ph, m, x);
    }
  }

  lemma OriginateSent(ph: Phase, m: Mesh, n: NodeId, id: UpdateId, m': Mesh)
    requires PhaseOk(ph) && NodesOk(ph, m) && SentOk(ph, m) && n in m.nodes && Originated(m, n, id, m') && Grows(m, m')
    ensures SentOk(ph, m')
  {
    GrowsSent(ph, m, m');
    assert NodeOk(ph, m, n);
    forall x | x in Flood(m.nodes[n], Made(m.nodes[n], 0, id), NO_NODE)
      ensures PacketOk(ph, m', x)
    {
    }
  }

  lemma OriginateFlight(m: Mesh, n: NodeId, id: UpdateId, m': Mesh)
    requires FlightOk(m) && n in m.nodes && Originated(m, n, id, m')
    requires Flood(m.nodes[n], Made(m.nodes[n], 0, id), NO_NODE) !! m.sent
    ensures FlightOk(m')
  {
  }

  lemma OriginateStamps(ph: Phase, m: Mesh, n: NodeId, id: UpdateId, m': Mesh)
    requires StampsOk(ph, m) && n in m.nodes && Originated(m, n, id, m')
    ensures StampsOk(ph, m')
  {
    forall v, o | v in m'.nodes && o in m'.nodes && KnowsOf(m', v, o)
      ensures AtMost(StampAt(m', v, o), Own(m'.nodes[o]))
    {
      assert AtMost(StampAt(m, v, o), Own(m.nodes[o]));
    }
  }

  lemma OriginateSeen(m: Mesh, n: NodeId, id: UpdateId, m': Mesh)
    requires SeenOk(m) && n in m.nodes && Originated(m, n, id, m') && Grows(m, m')
    ensures SeenOk(m')
  {
    forall v, i | v in m'.nodes && i in m'.nodes[v].seen
      ensures Absorbed(m', v, i)
    {
      assert i in m.nodes[v].seen;
      GrowsAbsorbed(m, m', v, i);
    }
  }

  lemma OriginateLink(ph: Phase, m: Mesh, n: NodeId, id: UpdateId, u: NodeId, v: NodeId, o: NodeId)
    requires Enabled(m, Originate(n, id)) && o in ph.base && LinkClause(ph, m, u, v, o)
    requires m.nodes[n].id == n && v in m.nodes && (u == n ==> v in m.nodes[n].connections && v != NO_NODE)
    requires Grows(m, Apply(m, Originate(n, id)))
    ensures LinkClause(ph, Apply(m, Originate(n, id)), u, v, o)
  {
    var m' := Apply(m, Originate(n, id));
    if u == n && o == n {
      var x := Packet(n, v, Made(m.nodes[n], 0, id));
      assert x in m'.inflight && Carries(x, u, v, o, StampAt(m', u, o));
    } else {
      LinkMonotone(ph, m, m', u, v, o);
    }
  }

  lemma OriginateLinks(ph: Phase, m: Mesh, n: NodeId, id: UpdateId)
    requires PhaseOk(ph) && NodesOk(ph, m) && LinksOk(ph, m) && Enabled(m, Originate(n, id))
    requires Grows(m, Apply(m, Originate(n, id)))
    ensures LinksOk(ph, Apply(m, Originate(n, id)))
  {
    var m' := Apply(m, Originate(n, id));
    assert NodeOk(ph, m, n);
    forall u, v, o | u in ph.truth && v in ph.truth[u] && o in ph.base && o != v
      ensures LinkClause(ph, m', u, v, o)
    {
      assert LinkClause(ph, m, u, v, o);
      OriginateLink(ph, m, n, id, u, v, o);
    }
  }

  lemma OriginateCosts(ph: Phase, m: Mesh, n: NodeId, id: UpdateId)
    requires CostsOk(ph, m) && Enabled(m, Originate(n, id))
    ensures CostsOk(ph, Apply(m, Originate(n, id)))
  {
    var m' := Apply(m, Originate(n, id));
    forall v, o | v in ph.truth && o in ph.truth && o in ph.base
      ensures CostsExact(ph, m', v, o)
    {
      assert CostsExact(ph, m, v, o);
    }
  }

  lemma OriginateKeepsInv(ph: Phase, m: Mesh, n: NodeId, id: UpdateId)
    requires PhaseOk(ph) && Inv(ph, m) && Enabled(m, Originate(n, id))
    ensures Inv(ph, Apply(m, Originate(n, id)))
  {
    OriginateEffect(ph, m, n, id);
    var m' := Apply(m, Originate(n, id));
    OriginateSent(ph, m, n, id, m');
    OriginateFlight(m, n, id, m');
    OriginateStamps(ph, m, n, id, m');
    OriginateSeen(m, n, id, m');
    OriginateLinks(ph, m, n, id);
    OriginateCosts(ph, m, n, id);
  }

  // ----- a packet is delivered

  /** The packet is one the link and the node treat as an ordinary update. */
  ghost predicate Ordinary(m: Mesh, p: Packet) {
    && p.to in m.nodes && m.nodes[p.to].id == p.to && p.update.nodeID != NO_NODE && p.update.suspectedDuplicate == 0
    && LinkAccepts(m.nodes[p.to], p.from, p.update) && !StartsNotice(m.nodes[p.to], p.update)
    && (p.update.nodeID == p.to ==> forall id :: HandleOwn(m.nodes[p.to], p.update, id) == Reaction(m.nodes[p.to], {}))
  }

  /** Stable links carry only updates that pass their checks, and nobody suspects a duplicate. */
  lemma DeliveryIsOrdinary(ph: Phase, m: Mesh, p: Packet)
    requires PhaseOk(ph) && Inv(ph, m) && p in m.inflight
    ensures Ordinary(m, p) && PacketOk(ph, m, p)
  {
    assert PacketOk(ph, m, p);
    assert p.to in ph.truth;
    assert NodeOk(ph, m, p.to);
    if p.update.nodeID == p.to {
      assert AtMost(StampAt(m, p.from, p.to), Own(m.nodes[p.to]));
    }
  }

  function Seeing(m: Mesh, n: NodeId, id: UpdateId): Mesh
    requires n in m.nodes
  {
    m.(nodes := m.nodes[n := m.nodes[n].(seen := m.nodes[n].seen + {id})])
  }

  function Without(m: Mesh, p: Packet): Mesh {
    m.(inflight := m.inflight - multiset{p})
  }

  lemma IgnoredEffect(m: Mesh, p: Packet, id: UpdateId)
    requires Ordinary(m, p) && (p.update.nodeID == p.to || p.update.updateID in m.nodes[p.to].seen)
    ensures Received(Without(m, p), p, id) ==
            Without(m, p)
  {
    var n, m1 := m.nodes[p.to], Without(m, p);
    assert Handle(n, p.update, p.from, id) == Reaction(n, {});
    assert m1.nodes[p.to := n] == m1.nodes;
    assert m1.inflight + multiset({}) == m1.inflight && m1.sent + {} == m1.sent;
  }

  lemma StaleEffect(m: Mesh, p: Packet, id: UpdateId)
    requires Ordinary(m, p) && p.update.nodeID != p.to && p.update.updateID !in m.nodes[p.to].seen
    requires !News(m.nodes[p.to], p.update)
    ensures Received(Without(m, p), p, id) ==
            Without(Seeing(m, p.to, p.update.updateID), p)
  {
    var n, m1 := m.nodes[p.to], Without(m, p);
    var n1 := n.(seen := n.seen + {p.update.updateID});
    assert Handle(n, p.update, p.from, id) == HandleUnseen(n1, p.update, p.from) == Reaction(n1, {});
    assert m1.inflight + multiset({}) == m1.inflight && m1.sent + {} == m1.sent;
  }

  lemma AcceptEffect(m: Mesh, p: Packet, id: UpdateId)
    requires Ordinary(m, p) && p.update.nodeID != p.to && p.update.updateID !in m.nodes[p.to].seen
    requires News(m.nodes[p.to], p.update) && p in m.inflight
    ensures Received(Without(m, p), p, id) ==
            Without(Seeing(Spread(m, p.to, p.update, p.from), p.to, p.update.updateID), p)
  {
    var n, u, m1 := m.nodes[p.to], p.update, Without(m, p);
    var n1 := n.(seen := n.seen + {u.updateID});
    var sends := Flood(Accepted(n, u), u.(forwardingNode := p.to), p.from);
    assert Accepted(n1, u) == Accepted(n, u).(seen := n.seen + {u.updateID});
    assert Flood(Accepted(n1, u), u.(forwardingNode := p.to), p.from) == sends;
    assert Handle(n, u, p.from, id) == HandleUnseen(n1, u, p.from) == Reaction(Accepted(n1, u), sends);
    assert (m.inflight - multiset{p}) + multiset(sends) == (m.inflight + multiset(sends)) - multiset{p};
    assert m1.nodes[p.to := Accepted(n1, u)] == Seeing(Spread(m, p.to, u, p.from), p.to, u.updateID).nodes;
  }

  lemma SeeingKeepsInv(ph: Phase, m: Mesh, p: Packet)
    requires Inv(ph, m) && PacketOk(ph, m, p) && p.to in m.nodes
    requires Reached(m, p.to, p.update.nodeID, p.update.stamp)
    ensures Inv(ph, Seeing(m, p.to, p.update.updateID))
    ensures Reached(Seeing(m, p.to, p.update.updateID), p.to, p.update.nodeID, p.update.stamp)
  {
    var seen := m.nodes[p.to].seen + {p.update.updateID};
    forall id | id in seen
      ensures Absorbed(m, p.to, id)
    {
      if id != p.update.updateID {
        assert id in m.nodes[p.to].seen;
      }
    }
    SeenChange(ph, m, p.to, seen);
  }

  lemma AcceptKeepsInv(ph: Phase, m: Mesh, p: Packet)
    requires Acceptable(ph, m, p)
    ensures Inv(ph, Without(Seeing(Spread(m, p.to, p.update, p.from), p.to, p.update.updateID), p))
  {
    SpreadKeepsInv(ph, m, p);
    SpreadGrows(ph, m, p);
    var m1 := Spread(m, p.to, p.update, p.from);
    assert p in m1.sent && PacketOk(ph, m1, p);
    SeeingKeepsInv(ph, m1, p);
    DropPacket(ph, Seeing(m1, p.to, p.update.updateID), p);
  }

  lemma IgnoredKeepsInv(ph: Phase, m: Mesh, p: Packet)
    requires Inv(ph, m) && p in m.inflight && p.to in m.nodes && PacketOk(ph, m, p)
    requires p.update.nodeID == p.to || p.update.updateID in m.nodes[p.to].seen
    ensures Inv(ph, Without(m, p))
  {
    assert p.update.updateID in m.nodes[p.to].seen ==> Absorbed(m, p.to, p.update.updateID);
    DropPacket(ph, m, p);
  }

  lemma StaleKeepsInv(ph: Phase, m: Mesh, p: Packet)
    requires Inv(ph, m) && p in m.inflight && p.to in m.nodes && PacketOk(ph, m, p)
    requires p.update.nodeID != p.to && !News(m.nodes[p.to], p.update)
    ensures Inv(ph, Without(Seeing(m, p.to, p.update.updateID), p))
  {
    SeeingKeepsInv(ph, m, p);
    DropPacket(ph, Seeing(m, p.to, p.update.updateID), p);
  }

  lemma DeliverKeepsInv(ph: Phase, m: Mesh, p: Packet, id: UpdateId)
    requires PhaseOk(ph) && Inv(ph, m) && Enabled(m, Deliver(p, id))
    ensures Inv(ph, Apply(m, Deliver(p, id)))
  {
    DeliveryIsOrdinary(ph, m, p);
    assert Apply(m, Deliver(p, id)) == Received(Without(m, p), p, id);
    if p.update.nodeID == p.to || p.update.updateID in m.nodes[p.to].seen {
      IgnoredEffect(m, p, id);
      IgnoredKeepsInv(ph, m, p);
    } else if !News(m.nodes[p.to], p.update) {
      StaleEffect(m, p, id);
      StaleKeepsInv(ph, m, p);
    } else {
      AcceptEffect(m, p, id);
      AcceptKeepsInv(ph, m, p);
    }
  }

  lemma ExpireKeepsInv(ph: Phase, m: Mesh, n: NodeId, ids: set<UpdateId>)
    requires PhaseOk(ph) && Inv(ph, m) && n in m.nodes
    ensures Inv(ph, Apply(m, Expire(n, ids)))
  {
    SeenChange(ph, m, n, m.nodes[n].seen - ids);
  }

  lemma StepKeepsInv(ph: Phase, m: Mesh, e: Event)
    requires PhaseOk(ph) && Inv(ph, m) && Enabled(m, e)
    ensures Inv(ph, Apply(m, e))
  {
    match e
    case Originate(n, id) => OriginateKeepsInv(ph, m, n, id);
    case Deliver(p, id) => DeliverKeepsInv(ph, m, p, id);
    case Expire(n, ids) => ExpireKeepsInv(ph, m, n, ids);
  }

  // ----- links that do not agree

  /**
    The link is torn down, with both edges between its ends and nothing else, if and only if the update
    names another forwarding node than the peer, or is the peer's own and does not list this node, or
    lists it at another cost; otherwise the node handles the update.
   */
  lemma LinkIsTornDownIff(m: Mesh, p: Packet, freshID: UpdateId)
    requires p.to in m.nodes && p.from in m.nodes[p.to].connections && p.from != NO_NODE
    ensures var n, u, m' := m.nodes[p.to], p.update, Received(m, p, freshID);
            var bad := || u.forwardingNode != p.from
                       || (u.nodeID == p.from && n.id !in u.connections)
                       || (u.nodeID == p.from && n.id in u.connections && u.connections[n.id] != n.connections[p.from]);
            && m'.nodes.Keys == m.nodes.Keys
            && (bad <==> p.from !in m'.nodes[p.to].connections)
            && (bad ==>
                  && m'.nodes[p.to].connections == n.connections - {p.from}
                  && LinkCut(n.costs, m'.nodes[p.to].costs, n.id, p.from)
                  && m'.inflight == m.inflight && m'.sent == m.sent)
            && (!bad ==> m'.nodes[p.to] == Handle(n, u, p.from, freshID).node)
  {
    var n := m.nodes[p.to];
    DisconnectedCutsLink(n, p.from);
    HandleKeepsConnections(n, p.update, p.from, freshID);
  }

  lemma HandleKeepsConnections(n: Node, u: RoutingUpdate, recvConn: NodeId, freshID: UpdateId)
    ensures Handle(n, u, recvConn, freshID).node.connections == n.connections
  {
  }

  // ----- runs

  predicate Runs(m: Mesh, events: seq<Event>)
    decreases |events|
  {
    events == [] || (Enabled(m, events[0]) && Runs(Apply(m, events[0]), events[1..]))
  }

  function Run(m: Mesh, events: seq<Event>): Mesh
    requires Runs(m, events)
    decreases |events|
  {
    if events == [] then m else Run(Apply(m, events[0]), events[1..])
  }

  lemma {:induction false} RunKeepsInv(ph: Phase, m: Mesh, events: seq<Event>)
    requires PhaseOk(ph) && Inv(ph, m) && Runs(m, events)
    ensures Inv(ph, Run(m, events))
    decreases |events|
  {
    if events != [] {
      StepKeepsInv(ph, m, events[0]);
      RunKeepsInv(ph, Apply(m, events[0]), events[1..]);
    }
  }

  /** v holds exactly the origin's latest update. */
  ghost predicate UpToDate(ph: Phase, m: Mesh, v: NodeId, origin: NodeId) {
    && v in m.nodes && origin in m.nodes && origin in ph.truth
    && KnowsOf(m, v, origin) && StampAt(m, v, origin) == Own(m.nodes[origin])
    && origin in m.nodes[v].costs && m.nodes[v].costs[origin] == ph.truth[origin]
  }

  /**
    With nothing in flight, every node connected to an origin that flooded since the phase began
    holds the origin's latest update and true neighbours.
   */
  lemma {:induction false} QuietAgreement(ph: Phase, m: Mesh, origin: NodeId, p: Path)
    requires PhaseOk(ph) && Inv(ph, m) && m.inflight == multiset{}
    requires origin in m.nodes && Older(ph.base[origin], Own(m.nodes[origin]))
    requires IsPath(ph.truth, p) && First(p) == origin
    ensures UpToDate(ph, m, p.node, origin)
  {
    assert CostsExact(ph, m, p.node, origin);
    if p.Step? {
      QuietAgreement(ph, m, origin, p.prefix);
      if p.node != origin {
        assert LinkClause(ph, m, p.prefix.node, p.node, origin);
        assert AtMost(StampAt(m, p.node, origin), Own(m.nodes[origin]));
      }
    }
  }
}
