/**
  Flooding, route computation and forwarding together: once every node of a stable mesh has
  announced itself and the network is quiet, the tables that the nodes compute on their own deliver
  every packet along a loop-free shortest path of the true topology.
 */
module Convergence {
  import opened Graph
  import opened RouteSearch
  import opened RoutingProtocol
  import opened Flooding
  import opened Forwarding

  // ----- announcing raises a node's stamp for good

  predicate Announces(events: seq<Event>, n: NodeId) {
    exists i :: 0 <= i < |events| && events[i].Originate? && events[i].node == n
  }

  lemma DeliveredOwn(m: Mesh, p: Packet, id: UpdateId, n: NodeId)
    requires Ordinary(m, p) && p in m.inflight && n in m.nodes
    ensures var m' := Received(Without(m, p), p, id);
            n in m'.nodes && Own(m'.nodes[n]) == Own(m.nodes[n])
  {
    if p.update.nodeID == p.to || p.update.updateID in m.nodes[p.to].seen {
      IgnoredEffect(m, p, id);
    } else if !News(m.nodes[p.to], p.update) {
      StaleEffect(m, p, id);
    } else {
      AcceptEffect(m, p, id);
    }
  }

  lemma StepKeepsStamp(ph: Phase, m: Mesh, e: Event, n: NodeId)
    requires PhaseOk(ph) && Inv(ph, m) && Enabled(m, e) && n in m.nodes
    ensures n in Apply(m, e).nodes && AtMost(Own(m.nodes[n]), Own(Apply(m, e).nodes[n]))
    ensures e.Originate? && e.node == n ==> Older(Own(m.nodes[n]), Own(Apply(m, e).nodes[n]))
  {
    match e
    case Originate(o, id) => OriginateEffect(ph, m, o, id);
    case Deliver(p, id) =>
      DeliveryIsOrdinary(ph, m, p);
      assert Apply(m, e) == Received(Without(m, p), p, id);
      DeliveredOwn(m, p, id, n);
    case Expire(o, ids) =>
  }

  lemma AnnouncesLater(events: seq<Event>, n: NodeId)
    requires events != [] && Announces(events, n)
    ensures (events[0].Originate? && events[0].node == n) || Announces(events[1..], n)
  {
    var i :| 0 <= i < |events| && events[i].Originate? && events[i].node == n;
    assert i > 0 ==> events[1..][i - 1] == events[i];
  }

  lemma {:induction false} RunRaisesStamp(ph: Phase, m: Mesh, events: seq<Event>, n: NodeId)
    requires PhaseOk(ph) && Inv(ph, m) && Runs(m, events) && n in m.nodes
    ensures n in Run(m, events).nodes && AtMost(Own(m.nodes[n]), Own(Run(m, events).nodes[n]))
    ensures Announces(events, n) ==> Older(Own(m.nodes[n]), Own(Run(m, events).nodes[n]))
    decreases |events|
  {
    if events != [] {
      StepKeepsInv(ph, m, events[0]);
      StepKeepsStamp(ph, m, events[0], n);
      RunRaisesStamp(ph, Apply(m, events[0]), events[1..], n);
      if Announces(events, n) {
        AnnouncesLater(events, n);
      }
    }
  }

  // ----- every node can compute its table at any time

  ghost predicate PositiveCosts(connections: Neighbours) {
    forall v :: v in connections ==> connections[v] > 0.0
  }

  ghost predicate Computable(m: Mesh) {
    && (forall n :: n in m.nodes ==> GraphOk(m.nodes[n].costs, n))
    && (forall p :: p in m.sent ==> PositiveCosts(p.update.connections))
  }

  lemma LearntKeepsGraphOk(costs: ConnectionMap, self: NodeId, u: RoutingUpdate)
    requires GraphOk(costs, self) && PositiveCosts(u.connections) && u.nodeID != NO_NODE
    ensures GraphOk(Learnt(costs, self, u), self)
  {
    var r := Learnt(costs, self, u);
    forall a, b | a in r && b in r[a]
      ensures r[a][b] > 0.0
    {
    }
  }

  lemma SpreadComputable(m: Mesh, p: Packet)
    requires Computable(m) && p in m.sent && p.to in m.nodes && m.nodes[p.to].id == p.to && p.update.nodeID != NO_NODE
    ensures Computable(Spread(m, p.to, p.update, p.from))
  {
    LearntKeepsGraphOk(m.nodes[p.to].costs, p.to, p.update);
  }

  ghost predicate SameCosts(m: Mesh, m': Mesh) {
    && m'.nodes.Keys == m.nodes.Keys && m'.sent == m.sent
    && forall n :: n in m.nodes ==> m'.nodes[n].costs == m.nodes[n].costs
  }

  lemma SameCostsComputable(m: Mesh, m': Mesh)
    requires Computable(m) && SameCosts(m, m')
    ensures Computable(m')
  {
  }

  lemma DeliveredCosts(m: Mesh, p: Packet, id: UpdateId)
    requires Ordinary(m, p) && p in m.inflight
    ensures SameCosts(m, Received(Without(m, p), p, id))
            || SameCosts(Spread(m, p.to, p.update, p.from), Received(Without(m, p), p, id))
  {
    if p.update.nodeID == p.to || p.update.updateID in m.nodes[p.to].seen {
      IgnoredEffect(m, p, id);
    } else if !News(m.nodes[p.to], p.update) {
      StaleEffect(m, p, id);
    } else {
      AcceptEffect(m, p, id);
    }
  }

  lemma DeliverComputable(m: Mesh, p: Packet, id: UpdateId)
    requires Computable(m) && Enabled(m, Deliver(p, id)) && Ordinary(m, p) && p in m.sent
    ensures Computable(Apply(m, Deliver(p, id)))
  {
    var m', spread := Apply(m, Deliver(p, id)), Spread(m, p.to, p.update, p.from);
    assert m' == Received(Without(m, p), p, id);
    DeliveredCosts(m, p, id);
    if SameCosts(m, m') {
      SameCostsComputable(m, m');
    } else {
      SpreadComputable(m, p);
      SameCostsComputable(spread, m');
    }
  }

  lemma OriginateComputable(ph: Phase, m: Mesh, n: NodeId, id: UpdateId)
    requires PhaseOk(ph) && Inv(ph, m) && Computable(m) && Enabled(m, Originate(n, id))
    ensures Computable(Apply(m, Originate(n, id)))
  {
    OriginateEffect(ph, m, n, id);
    assert NodeOk(ph, m, n);
  }

  lemma ExpireComputable(m: Mesh, n: NodeId, ids: set<UpdateId>)
    requires Computable(m) && n in m.nodes
    ensures Computable(Apply(m, Expire(n, ids)))
  {
    SameCostsComputable(m, Apply(m, Expire(n, ids)));
  }

  lemma StepComputable(ph: Phase, m: Mesh, e: Event)
    requires PhaseOk(ph) && Inv(ph, m) && Computable(m) && Enabled(m, e)
    ensures Computable(Apply(m, e))
  {
    match e
    case Originate(n, id) => OriginateComputable(ph, m, n, id);
    case Deliver(p, id) => DeliveryIsOrdinary(ph, m, p); DeliverComputable(m, p, id);
    case Expire(n, ids) => ExpireComputable(m, n, ids);
  }

  lemma {:induction false} RunComputable(ph: Phase, m: Mesh, events: seq<Event>)
    requires PhaseOk(ph) && Inv(ph, m) && Computable(m) && Runs(m, events)
    ensures Computable(Run(m, events))
    decreases |events|
  {
    if events != [] {
      StepKeepsInv(ph, m, events[0]);
      StepComputable(ph, m, events[0]);
      RunComputable(ph, Apply(m, events[0]), events[1..]);
    }
  }

  // ----- the part of the mesh connected to a node

  ghost function Component(truth: ConnectionMap, src: NodeId): set<NodeId> {
    set n | n in truth && Reachable(truth, src, n)
  }

  lemma {:induction false} ReversePath(ph: Phase, p: Path) returns (r: Path)
    requires PhaseOk(ph) && IsPath(ph.truth, p)
    ensures PathBetween(ph.truth, r, p.node, First(p))
  {
    if p.Start? {
      r := p;
    } else {
      var q := ReversePath(ph, p.prefix);
      var back := Step(Start(p.node), p.prefix.node);
      assert First(back) == First(Start(p.node)) == p.node;
      JoinIsPath(ph.truth, back, q);
      r := Join(back, q);
    }
  }

  lemma ComponentPath(ph: Phase, src: NodeId, u: NodeId, v: NodeId) returns (p: Path)
    requires PhaseOk(ph) && u in Component(ph.truth, src) && v in Component(ph.truth, src)
    ensures PathBetween(ph.truth, p, u, v)
  {
    var a :| PathBetween(ph.truth, a, src, u);
    var b :| PathBetween(ph.truth, b, src, v);
    var back := ReversePath(ph, a);
    JoinIsPath(ph.truth, back, b);
    p := Join(back, b);
  }

  lemma ComponentSize(truth: ConnectionMap, src: NodeId)
    requires src in truth
    ensures src in Component(truth, src) && |Component(truth, src)| <= |truth|
  {
    assert PathBetween(truth, Start(src), src, src);
    SubsetSize(Component(truth, src), truth.Keys);
  }

  lemma ComponentClosed(ph: Phase, src: NodeId, n: NodeId)
    requires PhaseOk(ph) && n in Component(ph.truth, src)
    ensures ph.truth[n].Keys <= Component(ph.truth, src)
  {
    var p :| PathBetween(ph.truth, p, src, n);
    forall x | x in ph.truth[n]
      ensures x in Component(ph.truth, src)
    {
      assert PathBetween(ph.truth, Step(p, x), src, x);
    }
  }

  // ----- the main theorem

  /** Every node has announced itself since the phase began and nothing is in flight. */
  ghost predicate Quiet(ph: Phase, m: Mesh) {
    && m.inflight == multiset{}
    && forall n :: n in m.nodes && n in ph.base ==> Older(ph.base[n], Own(m.nodes[n]))
  }

  /** In a quiet mesh every node knows the true neighbours of every node it is connected to. */
  lemma QuietEntry(ph: Phase, m: Mesh, src: NodeId, n: NodeId, o: NodeId)
    requires PhaseOk(ph) && Inv(ph, m) && Quiet(ph, m) && n in Component(ph.truth, src) && o in Component(ph.truth, src)
    ensures n in m.nodes && o in m.nodes[n].costs && m.nodes[n].costs[o] == ph.truth[o]
  {
    var p := ComponentPath(ph, src, o, n);
    QuietAgreement(ph, m, o, p);
  }

  lemma QuietMapsAgree(ph: Phase, m: Mesh, src: NodeId, n: NodeId)
    requires PhaseOk(ph) && Inv(ph, m) && Quiet(ph, m) && n in Component(ph.truth, src)
    ensures n in m.nodes && AgreesOn(ph.truth, m.nodes[n].costs, Component(ph.truth, src))
  {
    QuietEntry(ph, m, src, n, n);
    forall o | o in Component(ph.truth, src)
      ensures AgreesAt(ph.truth, m.nodes[n].costs, Component(ph.truth, src), o)
    {
      QuietEntry(ph, m, src, n, o);
      ComponentClosed(ph, src, o);
    }
  }

  function Maps(m: Mesh): map<NodeId, ConnectionMap> {
    map n | n in m.nodes :: m.nodes[n].costs
  }

  /** The routes each node computed from its own map. */
  ghost predicate Computed(m: Mesh, tables: Tables) {
    m.nodes.Keys <= tables.Keys && forall n :: n in m.nodes ==> Exact(m.nodes[n].costs, n, tables[n])
  }

  lemma QuietIsConverged(ph: Phase, m: Mesh, tables: Tables, src: NodeId)
    requires PhaseOk(ph) && Inv(ph, m) && Quiet(ph, m) && Computed(m, tables)
    ensures Converged(ph.truth, Component(ph.truth, src), Maps(m), tables)
  {
    assert Component(ph.truth, src) <= ph.truth.Keys == m.nodes.Keys == Maps(m).Keys;
    forall n | n in Component(ph.truth, src)
      ensures AgreesOn(ph.truth, Maps(m)[n], Component(ph.truth, src)) && Exact(Maps(m)[n], n, tables[n])
    {
      QuietMapsAgree(ph, m, src, n);
    }
  }

  lemma RunIsQuiet(ph: Phase, m: Mesh, events: seq<Event>)
    requires PhaseOk(ph) && Begins(ph, m) && Runs(m, events)
    requires Run(m, events).inflight == multiset{} && forall n :: n in m.nodes ==> Announces(events, n)
    ensures Inv(ph, Run(m, events)) && Quiet(ph, Run(m, events))
  {
    BeginsInv(ph, m);
    RunKeepsInv(ph, m, events);
    var m' := Run(m, events);
    forall n | n in m'.nodes && n in ph.base
      ensures Older(ph.base[n], Own(m'.nodes[n]))
    {
      RunRaisesStamp(ph, m, events, n);
    }
  }

  lemma QuietForwarding(ph: Phase, m: Mesh, tables: Tables, src: NodeId, dest: NodeId, k: nat)
    requires PhaseOk(ph) && Inv(ph, m) && Quiet(ph, m) && Computed(m, tables)
    requires src in ph.truth && Reachable(ph.truth, src, dest) && k >= |ph.truth| - 1
    ensures Walk(tables, src, dest, k).node == dest
    ensures Simple(Walk(tables, src, dest, k)) && Hops(Walk(tables, src, dest, k)) < |ph.truth|
    ensures IsShortest(ph.truth, Walk(tables, src, dest, k), src, dest)
  {
    QuietIsConverged(ph, m, tables, src);
    ComponentSize(ph.truth, src);
    ForwardingIsShortest(ph.truth, Component(ph.truth, src), Maps(m), tables, src, dest, k);
  }

  /**
    For every run of the stable mesh in which each node announced itself and which ended quiet, and
    for routes computed by each node on its own: a packet reaches every destination its source is
    connected to, along a loop-free path whose cost is the true shortest distance.
   */
  lemma MeshConverges(ph: Phase, m: Mesh, events: seq<Event>, tables: Tables, src: NodeId, dest: NodeId, k: nat)
    requires PhaseOk(ph) && Begins(ph, m) && Runs(m, events)
    requires Run(m, events).inflight == multiset{} && forall n :: n in m.nodes ==> Announces(events, n)
    requires Computed(Run(m, events), tables)
    requires src in ph.truth && Reachable(ph.truth, src, dest) && k >= |ph.truth| - 1
    ensures Walk(tables, src, dest, k).node == dest
    ensures Simple(Walk(tables, src, dest, k)) && Hops(Walk(tables, src, dest, k)) < |ph.truth|
    ensures IsShortest(ph.truth, Walk(tables, src, dest, k), src, dest)
  {
    RunIsQuiet(ph, m, events);
    QuietForwarding(ph, Run(m, events), tables, src, dest, k);
  }
}
