/**
  From routing updates to delivered messages.  Flooding makes every node file the names of the nodes
  it hears from, so that once the mesh is quiet the packets of data messages can be read wherever
  they come along, and what is proved of converged meshes holds of the nodes as the run left them.
 */
module Delivery {
  import opened Bytes
  import opened Graph
  import opened Names
  import opened RouteSearch
  import opened Forwarding
  import opened RoutingProtocol
  import opened Flooding
  import opened Convergence
  import Settling
  import Messages
  import Traceroute

  // ----- names over whole runs

  ghost predicate NodesNamed(m: Mesh) {
    forall n :: n in m.nodes ==> NamesFiled(m.nodes[n])
  }

  lemma OneNodeChanges(m: Mesh, m': Mesh, n: NodeId, node: Node)
    requires NodesNamed(m) && m'.nodes == m.nodes[n := node] && NamesFiled(node)
    ensures NodesNamed(m')
  {
  }

  lemma ReceivedKeepsNames(m: Mesh, p: Packet, id: UpdateId)
    requires NodesNamed(m) && p.to in m.nodes
    ensures NodesNamed(Received(m, p, id))
  {
    var n := m.nodes[p.to];
    if LinkAccepts(n, p.from, p.update) {
      HandleKeepsNames(n, p.update, p.from, id);
      OneNodeChanges(m, Received(m, p, id), p.to, Handle(n, p.update, p.from, id).node);
    } else {
      DisconnectedKeepsNames(n, p.from);
      OneNodeChanges(m, Received(m, p, id), p.to, Disconnected(n, p.from));
    }
  }

  lemma StepKeepsNames(m: Mesh, e: Event)
    requires NodesNamed(m) && Enabled(m, e)
    ensures NodesNamed(Apply(m, e))
  {
    match e
    case Originate(n, id) => OneNodeChanges(m, Apply(m, e), n, Announce(m.nodes[n], 0, id).node);
    case Deliver(p, id) => ReceivedKeepsNames(m.(inflight := m.inflight - multiset{p}), p, id);
    case Expire(n, ids) => OneNodeChanges(m, Apply(m, e), n, m.nodes[n].(seen := m.nodes[n].seen - ids));
  }

  /** In every run every node has filed the names of all nodes it has heard from. */
  lemma {:induction false} RunKeepsNames(m: Mesh, events: seq<Event>)
    requires NodesNamed(m) && Runs(m, events)
    ensures NodesNamed(Run(m, events))
    decreases |events|
  {
    if events != [] {
      StepKeepsNames(m, events[0]);
      RunKeepsNames(Apply(m, events[0]), events[1..]);
    }
  }

  /** In a quiet mesh every node has filed the name of every node it is connected to, however far away. */
  lemma QuietNames(ph: Phase, m: Mesh, src: NodeId, n: NodeId, o: NodeId)
    requires PhaseOk(ph) && Inv(ph, m) && Quiet(ph, m) && NodesNamed(m)
    requires n in Component(ph.truth, src) && o in Component(ph.truth, src)
    ensures n in m.nodes && o in m.nodes[n].filed
  {
    var p := ComponentPath(ph, src, o, n);
    QuietAgreement(ph, m, o, p);
    assert NodeOk(ph, m, n);
  }

  /** Nodes that have filed their own names and those of the neighbours they connected to start with names in order. */
  lemma NewMeshIsNamed(truth: ConnectionMap, epochs: map<NodeId, nat>, filed: map<NodeId, seq<NodeId>>)
    requires epochs.Keys == truth.Keys == filed.Keys
    requires forall n, x :: n in truth && (x == n || x in truth[n]) ==> x in filed[n]
    ensures NodesNamed(Settling.NewMesh(truth, epochs, filed))
  {
  }

  // ----- the hosts that the nodes of a mesh are

  /**
    A host with the state of a node: it forwards by the table it computed, over its connections, and
    has filed at least the names that routing updates made it file.
   */
  ghost predicate HostOf(node: Node, routes: Routes, hash: NodeId -> UInt64, h: Messages.Host) {
    && h.id == node.id && h.hash == hash && h.table == routes.nextHop && h.links == node.connections.Keys
    && |h.rules| == 0 && |h.cancelled| == 0 && |h.closing| == 0
    && forall x :: x in node.filed ==> x in h.filed
  }

  /** Nothing that the host has filed has the hash of one of the names and is another name. */
  ghost predicate Distinguishes(h: Messages.Host, names: set<NodeId>) {
    forall x, y :: x in names && y in h.filed && HashOf(Messages.NamingOf(h), y) == h.hash(x) ==>
                     Canonical(Messages.NamingOf(h), y) == x
  }

  /** The nodes of a mesh as hosts with one hash function that keeps their names apart; no name is an alias. */
  ghost predicate Embodied(m: Mesh, tables: Tables, live: set<NodeId>, hash: NodeId -> UInt64, hosts: Messages.Mesh) {
    && live <= m.nodes.Keys && live <= tables.Keys && live <= hosts.Keys
    && forall n :: n in live ==>
         && HostOf(m.nodes[n], tables[n], hash, hosts[n]) && Distinguishes(hosts[n], live) && !IsLocalhost(n)
  }

  lemma FiledNameCrosses(a: Messages.Host, b: Messages.Host, names: set<NodeId>, x: NodeId)
    requires a.hash == b.hash && Distinguishes(b, names) && x in names && x in b.filed && !IsLocalhost(x)
    ensures Messages.NameCrosses(a, b, x)
  {
    var nm, h := Messages.NamingOf(b), b.hash(x);
    var k: nat :| k < |b.filed| && b.filed[k] == x;
    assert HashOf(nm, b.filed[k]) == h;
    var i := FirstExists(nm, b.filed, h);
    assert b.filed[i] in b.filed;
    assert Canonical(nm, b.filed[i]) == x;
  }

  function Restricted(tables: Tables, live: set<NodeId>): Tables
    requires live <= tables.Keys
  {
    map n | n in live :: tables[n]
  }

  lemma NextHopIsNeighbour(ph: Phase, m: Mesh, tables: Tables, src: NodeId, n: NodeId, d: NodeId)
    requires PhaseOk(ph) && Inv(ph, m) && Quiet(ph, m) && Computed(m, tables)
    requires n in Component(ph.truth, src) && n in m.nodes && n in tables && d in tables[n].nextHop
    ensures tables[n].nextHop[d] in m.nodes[n].connections && tables[n].nextHop[d] in Component(ph.truth, src)
  {
    var hop := tables[n].nextHop[d];
    QuietEntry(ph, m, src, n, n);
    assert GoodHop(m.nodes[n].costs, n, hop, d);
    assert NodeOk(ph, m, n);
    ComponentClosed(ph, src, n);
  }

  /**
    What the run left behind meets the conditions of the theorems about messages: in particular all
    names can be read.
   */
  lemma QuietIsPlain(ph: Phase, m: Mesh, tables: Tables, src: NodeId, hash: NodeId -> UInt64, hosts: Messages.Mesh)
    requires PhaseOk(ph) && Inv(ph, m) && Quiet(ph, m) && NodesNamed(m) && Computed(m, tables)
    requires Embodied(m, tables, Component(ph.truth, src), hash, hosts)
    ensures Traceroute.Plain(hosts, Restricted(tables, Component(ph.truth, src)))
  {
    var live := Component(ph.truth, src);
    var local := Restricted(tables, live);
    forall n | n in local
      ensures Traceroute.FitHost(hosts, local, n)
    {
      assert NodeOk(ph, m, n);
      assert HostOf(m.nodes[n], tables[n], hash, hosts[n]);
      forall d | d in local[n].nextHop
        ensures local[n].nextHop[d] in hosts[n].links && local[n].nextHop[d] in local
      {
        NextHopIsNeighbour(ph, m, tables, src, n, d);
      }
    }
    forall a, b, x | a in local && b in local && x in local && a in hosts && b in hosts
      ensures Messages.NameCrosses(hosts[a], hosts[b], x)
    {
      assert HostOf(m.nodes[a], tables[a], hash, hosts[a]) && HostOf(m.nodes[b], tables[b], hash, hosts[b]);
      QuietNames(ph, m, src, b, x);
      FiledNameCrosses(hosts[a], hosts[b], live, x);
    }
  }

  lemma RestrictedConverged(ph: Phase, m: Mesh, tables: Tables, src: NodeId)
    requires PhaseOk(ph) && Inv(ph, m) && Quiet(ph, m) && Computed(m, tables) && Component(ph.truth, src) <= tables.Keys
    ensures Converged(ph.truth, Component(ph.truth, src), Maps(m), Restricted(tables, Component(ph.truth, src)))
  {
    QuietIsConverged(ph, m, tables, src);
  }

  // ----- end to end

  /**
    A run of a stable mesh that begins with names in order, in which every node announces itself,
    and that ends quiet.
   */
  ghost predicate Settles(ph: Phase, m: Mesh, events: seq<Event>) {
    && PhaseOk(ph) && Begins(ph, m) && NodesNamed(m) && Runs(m, events)
    && Run(m, events).inflight == multiset{} && forall n :: n in m.nodes ==> Announces(events, n)
  }

  lemma SettledState(ph: Phase, m: Mesh, events: seq<Event>)
    requires Settles(ph, m, events)
    ensures var m' := Run(m, events);
            Inv(ph, m') && Quiet(ph, m') && NodesNamed(m')
  {
    RunIsQuiet(ph, m, events);
    RunKeepsNames(m, events);
  }

  /**
    For every run that settles, and the hosts that it leaves: a message with enough hops arrives,
    under its own names and with its data, at the service it is addressed to on any node its source
    is connected to.
   */
  lemma SettledMeshDelivers(ph: Phase, m: Mesh, events: seq<Event>, tables: Tables, hash: NodeId -> UInt64,
                            hosts: Messages.Mesh, src: NodeId, md: Messages.Message) returns (length: nat)
    requires Settles(ph, m, events) && Computed(Run(m, events), tables)
    requires Embodied(Run(m, events), tables, Component(ph.truth, src), hash, hosts)
    requires src in ph.truth && Reachable(ph.truth, src, md.toNode)
    requires md.fromNode == src && Traceroute.Addressed(hosts, md) && md.hopsToLive >= |ph.truth| - 1
    ensures Traceroute.Delivers(hosts, src, md, length)
  {
    var m', live := Run(m, events), Component(ph.truth, src);
    SettledState(ph, m, events);
    QuietIsPlain(ph, m', tables, src, hash, hosts);
    RestrictedConverged(ph, m', tables, src);
    ComponentSize(ph.truth, src);
    length := Traceroute.ConvergedDelivers(ph.truth, live, Maps(m'), Restricted(tables, live), hosts, src, md);
  }

  /**
    For every run that settles, and the hosts that it leaves: a traceroute to any node the source is
    connected to reports the nodes of the forwarding path in order, without failure.
   */
  lemma SettledMeshTraces(ph: Phase, m: Mesh, events: seq<Event>, tables: Tables, hash: NodeId -> UInt64,
                          hosts: Messages.Mesh, src: NodeId, service: Messages.Service, target: NodeId,
                          results: seq<Traceroute.HopResult>) returns (L: nat)
    requires Settles(ph, m, events) && Computed(Run(m, events), tables)
    requires Embodied(Run(m, events), tables, Component(ph.truth, src), hash, hosts)
    requires src in ph.truth && Reachable(ph.truth, src, target) && src in hosts
    requires forall n :: n in Component(ph.truth, src) && n in hosts ==> hosts[n].maxForwardingHops >= |ph.truth| - 1
    requires Traceroute.PlainName(service)
    requires Traceroute.TraceOf(Traceroute.PingerAt(hosts, src, service, target), hosts[src].maxForwardingHops, results)
    ensures Component(ph.truth, src) <= tables.Keys
    ensures var local := Restricted(tables, Component(ph.truth, src));
            && |results| == L + 1 && Traceroute.Route(local, src, target, L)
            && Traceroute.ReportsWalk(local, src, target, results)
  {
    var m', live := Run(m, events), Component(ph.truth, src);
    var local := Restricted(tables, live);
    SettledState(ph, m, events);
    QuietIsPlain(ph, m', tables, src, hash, hosts);
    RestrictedConverged(ph, m', tables, src);
    ComponentSize(ph.truth, src);
    forall u, v | u in live && v in live
      ensures Reachable(ph.truth, u, v)
    {
      var p := ComponentPath(ph, src, u, v);
    }
    L := Traceroute.ConvergedIsTraceable(ph.truth, live, Maps(m'), local, hosts, src, target);
    Traceroute.TraceIsWalk(hosts, local, src, service, target, L, results);
  }
}
