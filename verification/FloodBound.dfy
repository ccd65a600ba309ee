/**
  A flood is finite on every topology, cycles included: an update crosses each link at most once in
  each direction, even after its ID has been forgotten by the nodes that saw it.
 */
module FloodBound {
  import opened Graph
  import opened RoutingProtocol
  import opened Flooding

  type Link = (NodeId, NodeId)

  ghost function Links(truth: ConnectionMap): set<Link> {
    set u, v | u in truth && v in truth[u] :: (u, v)
  }

  function OnLink(l: Link, u: RoutingUpdate): Packet {
    Packet(l.0, l.1, u.(forwardingNode := l.0))
  }

  ghost function EverywhereOn(links: set<Link>, u: RoutingUpdate): set<Packet> {
    set l | l in links :: OnLink(l, u)
  }

  /** All packets that carry an issued update over a link. */
  ghost function Possible(ph: Phase, m: Mesh): set<Packet> {
    set l, id | l in Links(ph.truth) && id in m.issued :: OnLink(l, m.issued[id])
  }

  /** The deliveries still to come if no node announces itself again: packets in flight and packets never sent yet. */
  ghost function Potential(ph: Phase, m: Mesh): nat {
    |m.inflight| + |Possible(ph, m) - m.sent|
  }

  lemma {:induction false} EverywhereSize(links: set<Link>, u: RoutingUpdate)
    ensures |EverywhereOn(links, u)| <= |links|
  {
    if links != {} {
      var l :| l in links;
      EverywhereSize(links - {l}, u);
      assert EverywhereOn(links, u) == EverywhereOn(links - {l}, u) + {OnLink(l, u)};
    }
  }

  lemma {:induction false} MultisetOfSet<T>(s: set<T>)
    ensures |multiset(s)| == |s|
  {
    if s != {} {
      var x :| x in s;
      MultisetOfSet(s - {x});
      assert multiset(s) == multiset(s - {x}) + multiset{x};
    }
  }

  lemma RemoveSubset<T>(a: set<T>, b: set<T>)
    requires b <= a
    ensures |a - b| == |a| - |b|
  {
    assert a == (a - b) + b;
  }

  lemma FloodedIsPossible(ph: Phase, m: Mesh, p: Packet)
    requires Acceptable(ph, m, p)
    ensures Flood(Accepted(m.nodes[p.to], p.update), p.update.(forwardingNode := p.to), p.from) <= Possible(ph, m)
  {
    assert PacketOk(ph, m, p) && NodeOk(ph, m, p.to);
    forall x | x in Flood(Accepted(m.nodes[p.to], p.update), p.update.(forwardingNode := p.to), p.from)
      ensures x in Possible(ph, m)
    {
      var l := (x.from, x.to);
      assert l in Links(ph.truth);
      assert x == OnLink(l, m.issued[p.update.updateID]);
    }
  }

  /** Packets that leave the unsent ones enter flight, and one leaves flight. */
  lemma Transfer(inflight: multiset<Packet>, possible: set<Packet>, sent: set<Packet>, sends: set<Packet>, p: Packet)
    requires sends <= possible && sends !! sent && p in inflight
    ensures |inflight + multiset(sends) - multiset{p}| + |possible - (sent + sends)| ==
            |inflight| + |possible - sent| - 1
  {
    MultisetOfSet(sends);
    assert |inflight + multiset(sends)| == |inflight| + |sends|;
    assert possible - (sent + sends) == (possible - sent) - sends;
    RemoveSubset(possible - sent, sends);
  }

  lemma AcceptLowersPotential(ph: Phase, m: Mesh, p: Packet)
    requires Acceptable(ph, m, p)
    ensures Potential(ph, Without(Seeing(Spread(m, p.to, p.update, p.from), p.to, p.update.updateID), p)) ==
            Potential(ph, m) - 1
  {
    var sends := Flood(Accepted(m.nodes[p.to], p.update), p.update.(forwardingNode := p.to), p.from);
    var m' := Without(Seeing(Spread(m, p.to, p.update, p.from), p.to, p.update.updateID), p);
    NeverResent(ph, m, p);
    FloodedIsPossible(ph, m, p);
    assert Possible(ph, m') == Possible(ph, m);
    Transfer(m.inflight, Possible(ph, m), m.sent, sends, p);
  }

  lemma LossLowersPotential(ph: Phase, m: Mesh, m': Mesh, p: Packet)
    requires p in m.inflight && m'.inflight == m.inflight - multiset{p} && m'.issued == m.issued && m'.sent == m.sent
    ensures Potential(ph, m') == Potential(ph, m) - 1
  {
    assert Possible(ph, m') == Possible(ph, m);
  }

  lemma DeliverLowersPotential(ph: Phase, m: Mesh, p: Packet, id: UpdateId)
    requires PhaseOk(ph) && Inv(ph, m) && Enabled(m, Deliver(p, id))
    ensures Potential(ph, Apply(m, Deliver(p, id))) == Potential(ph, m) - 1
  {
    DeliveryIsOrdinary(ph, m, p);
    var m' := Apply(m, Deliver(p, id));
    assert m' == Received(Without(m, p), p, id);
    if p.update.nodeID == p.to || p.update.updateID in m.nodes[p.to].seen {
      IgnoredEffect(m, p, id);
      LossLowersPotential(ph, m, m', p);
    } else if !News(m.nodes[p.to], p.update) {
      StaleEffect(m, p, id);
      LossLowersPotential(ph, m, m', p);
    } else {
      AcceptEffect(m, p, id);
      AcceptLowersPotential(ph, m, p);
    }
  }

  lemma IssuePossible(ph: Phase, m: Mesh, m': Mesh, id: UpdateId, u: RoutingUpdate)
    requires id !in m.issued && m'.issued == m.issued[id := u]
    ensures Possible(ph, m') == Possible(ph, m) + EverywhereOn(Links(ph.truth), u)
  {
    var links := Links(ph.truth);
    forall x | x in EverywhereOn(links, u)
      ensures x in Possible(ph, m')
    {
      var l :| l in links && x == OnLink(l, u);
      assert id in m'.issued && x == OnLink(l, m'.issued[id]);
    }
    forall x | x in Possible(ph, m)
      ensures x in Possible(ph, m')
    {
      var l, i :| l in links && i in m.issued && x == OnLink(l, m.issued[i]);
      assert i in m'.issued && x == OnLink(l, m'.issued[i]);
    }
    forall x | x in Possible(ph, m')
      ensures x in Possible(ph, m) + EverywhereOn(links, u)
    {
      var l, i :| l in links && i in m'.issued && x == OnLink(l, m'.issued[i]);
      assert i != id ==> i in m.issued && x == OnLink(l, m.issued[i]);
    }
  }

  lemma AnnouncedIsPossible(ph: Phase, n: Node, id: UpdateId)
    requires n.id in ph.truth && n.connections == ph.truth[n.id]
    ensures Flood(n, Made(n, 0, id), NO_NODE) <= EverywhereOn(Links(ph.truth), Made(n, 0, id))
  {
    var u := Made(n, 0, id);
    forall x | x in Flood(n, u, NO_NODE)
      ensures x in EverywhereOn(Links(ph.truth), u)
    {
      var l := (x.from, x.to);
      assert l in Links(ph.truth) && x == OnLink(l, u);
    }
  }

  lemma OriginateRaisesPotential(ph: Phase, m: Mesh, n: NodeId, id: UpdateId)
    requires PhaseOk(ph) && Inv(ph, m) && Enabled(m, Originate(n, id))
    ensures Potential(ph, Apply(m, Originate(n, id))) <= Potential(ph, m) + |Links(ph.truth)|
  {
    var u, m' := Made(m.nodes[n], 0, id), Apply(m, Originate(n, id));
    OriginateEffect(ph, m, n, id);
    assert NodeOk(ph, m, n);
    IssuePossible(ph, m, m', id, u);
    AnnouncedIsPossible(ph, m.nodes[n], id);
    EverywhereSize(Links(ph.truth), u);
    Accounting(m.inflight, Possible(ph, m), m.sent, Flood(m.nodes[n], u, NO_NODE), EverywhereOn(Links(ph.truth), u));
  }

  /** Of the newly possible packets `all`, the ones sent go in flight and the others stay unsent. */
  lemma Accounting(inflight: multiset<Packet>, possible: set<Packet>, sent: set<Packet>, sends: set<Packet>,
                   all: set<Packet>)
    requires sends <= all
    ensures |inflight + multiset(sends)| + |(possible + all) - (sent + sends)| <= |inflight| + |possible - sent| + |all|
  {
    MultisetOfSet(sends);
    RemoveSubset(all, sends);
    SubsetSize((possible + all) - (sent + sends), (possible - sent) + (all - sends));
    UnionSize(possible - sent, all - sends);
  }

  lemma UnionSize<T>(a: set<T>, b: set<T>)
    ensures |a + b| <= |a| + |b|
  {
    assert a + b == a + (b - a);
    SubsetSize(b - a, b);
  }

  function Deliveries(events: seq<Event>): nat {
    if events == [] then 0 else (if events[0].Deliver? then 1 else 0) + Deliveries(events[1..])
  }

  function Originations(events: seq<Event>): nat {
    if events == [] then 0 else (if events[0].Originate? then 1 else 0) + Originations(events[1..])
  }

  lemma StepPotential(ph: Phase, m: Mesh, e: Event)
    requires PhaseOk(ph) && Inv(ph, m) && Enabled(m, e)
    ensures (if e.Deliver? then 1 else 0) + Potential(ph, Apply(m, e)) <=
            Potential(ph, m) + (if e.Originate? then |Links(ph.truth)| else 0)
  {
    match e
    case Originate(n, id) => OriginateRaisesPotential(ph, m, n, id);
    case Deliver(p, id) => DeliverLowersPotential(ph, m, p, id);
    case Expire(n, ids) => assert Possible(ph, Apply(m, e)) == Possible(ph, m);
  }

  /** What the announcements among the events add to the bound. */
  function Allowance(events: seq<Event>, links: nat): nat {
    if events == [] then 0 else (if events[0].Originate? then links else 0) + Allowance(events[1..], links)
  }

  lemma {:induction false} AllowanceIsProduct(events: seq<Event>, links: nat)
    ensures Allowance(events, links) == Originations(events) * links
  {
    if events != [] {
      AllowanceIsProduct(events[1..], links);
    }
  }

  lemma {:induction false} RunPotential(ph: Phase, m: Mesh, events: seq<Event>)
    requires PhaseOk(ph) && Inv(ph, m) && Runs(m, events)
    ensures Deliveries(events) + Potential(ph, Run(m, events)) <=
            Potential(ph, m) + Allowance(events, |Links(ph.truth)|)
    decreases |events|
  {
    if events != [] {
      StepKeepsInv(ph, m, events[0]);
      StepPotential(ph, m, events[0]);
      RunPotential(ph, Apply(m, events[0]), events[1..]);
    }
  }

  /**
    In every run the number of deliveries is bounded by one per link and announcement, plus what was
    pending at the start.
   */
  lemma FloodIsFinite(ph: Phase, m: Mesh, events: seq<Event>)
    requires PhaseOk(ph) && Inv(ph, m) && Runs(m, events)
    ensures Deliveries(events) + Potential(ph, Run(m, events)) <=
            Potential(ph, m) + Originations(events) * |Links(ph.truth)|
  {
    RunPotential(ph, m, events);
    AllowanceIsProduct(events, |Links(ph.truth)|);
  }

  /** From a clean start each announcement costs at most one delivery per link. */
  lemma FloodFromRest(ph: Phase, m: Mesh, events: seq<Event>)
    requires PhaseOk(ph) && Begins(ph, m) && Runs(m, events)
    requires m.inflight == multiset{} && m.issued == map[]
    ensures Deliveries(events) <= Originations(events) * |Links(ph.truth)|
  {
    BeginsInv(ph, m);
    FloodIsFinite(ph, m, events);
    assert Possible(ph, m) == {};
  }
}
