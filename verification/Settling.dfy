/**
  The quiet state that `Convergence` speaks of can always be reached: from every state of a stable
  mesh the packets in flight can be delivered until none is left, and every topology has a state
  from which a phase begins.
 */
module Settling {
  import opened Graph
  import opened RoutingProtocol
  import opened Flooding
  import opened FloodBound
  import opened Convergence

  // ----- fresh update IDs

  lemma {:induction false} LengthBound(ids: set<UpdateId>) returns (n: nat)
    ensures forall id :: id in ids ==> |id| < n
  {
    if ids == {} {
      n := 0;
    } else {
      var x :| x in ids;
      n := LengthBound(ids - {x});
      n := if n > |x| then n else |x| + 1;
    }
  }

  lemma FreshId(ids: set<UpdateId>) returns (id: UpdateId)
    ensures id !in ids
  {
    var n := LengthBound(ids);
    id := seq(n, i => 'x');
  }

  // ----- runs in sequence

  lemma {:induction false} RunConcat(m: Mesh, a: seq<Event>, b: seq<Event>)
    requires Runs(m, a) && Runs(Run(m, a), b)
    ensures Runs(m, a + b) && Run(m, a + b) == Run(Run(m, a), b)
    decreases |a|
  {
    if a == [] {
      assert a + b == b;
    } else {
      assert (a + b)[0] == a[0] && (a + b)[1..] == a[1..] + b;
      RunConcat(Apply(m, a[0]), a[1..], b);
    }
  }

  lemma RunFirst(m: Mesh, e: Event, rest: seq<Event>)
    requires Enabled(m, e) && Runs(Apply(m, e), rest)
    ensures Runs(m, [e] + rest) && Run(m, [e] + rest) == Run(Apply(m, e), rest)
  {
    assert ([e] + rest)[0] == e && ([e] + rest)[1..] == rest;
  }

  // ----- delivering until nothing is in flight

  ghost predicate OnlyDeliveries(events: seq<Event>) {
    forall i :: 0 <= i < |events| ==> events[i].Deliver?
  }

  lemma CanDeliver(ph: Phase, m: Mesh, p: Packet, id: UpdateId)
    requires PhaseOk(ph) && Inv(ph, m) && p in m.inflight && id !in m.issued
    ensures Enabled(m, Deliver(p, id))
  {
    DeliveryIsOrdinary(ph, m, p);
    assert NodeOk(ph, m, p.to);
  }

  lemma DeliverOne(ph: Phase, m: Mesh) returns (e: Event)
    requires PhaseOk(ph) && Inv(ph, m) && m.inflight != multiset{}
    ensures e.Deliver? && Enabled(m, e) && Inv(ph, Apply(m, e))
    ensures Potential(ph, Apply(m, e)) < Potential(ph, m)
  {
    var p :| p in m.inflight;
    var id := FreshId(m.issued.Keys);
    e := Deliver(p, id);
    CanDeliver(ph, m, p, id);
    StepKeepsInv(ph, m, e);
    DeliverLowersPotential(ph, m, p, id);
  }

  lemma DeliveryFirst(e: Event, rest: seq<Event>)
    requires e.Deliver? && OnlyDeliveries(rest)
    ensures OnlyDeliveries([e] + rest)
  {
  }

  /** From every reachable state, deliveries alone lead to a state with nothing in flight. */
  lemma {:induction false} Settle(ph: Phase, m: Mesh) returns (events: seq<Event>)
    requires PhaseOk(ph) && Inv(ph, m)
    ensures Runs(m, events) && OnlyDeliveries(events) && Run(m, events).inflight == multiset{}
    decreases Potential(ph, m)
  {
    if m.inflight == multiset{} {
      events := [];
    } else {
      var e := DeliverOne(ph, m);
      var rest := Settle(ph, Apply(m, e));
      RunFirst(m, e, rest);
      DeliveryFirst(e, rest);
      events := [e] + rest;
    }
  }

  ghost predicate AnnouncedBy(events: seq<Event>, nodes: set<NodeId>) {
    forall n :: n in nodes ==> Announces(events, n)
  }

  lemma AnnounceOne(ph: Phase, m: Mesh, n: NodeId) returns (e: Event)
    requires PhaseOk(ph) && Inv(ph, m) && n in m.nodes
    ensures e.Originate? && e.node == n && Enabled(m, e) && Inv(ph, Apply(m, e))
    ensures Apply(m, e).nodes.Keys == m.nodes.Keys
  {
    var id := FreshId(m.issued.Keys);
    e := Originate(n, id);
    assert NodeOk(ph, m, n);
    StepKeepsInv(ph, m, e);
  }

  /** Every node of a set can announce itself, one after the other. */
  lemma {:induction false} AnnounceAll(ph: Phase, m: Mesh, todo: set<NodeId>) returns (events: seq<Event>)
    requires PhaseOk(ph) && Inv(ph, m) && todo <= m.nodes.Keys
    ensures Runs(m, events) && AnnouncedBy(events, todo)
    decreases todo
  {
    if todo == {} {
      events := [];
    } else {
      var n :| n in todo;
      var e := AnnounceOne(ph, m, n);
      var rest := AnnounceAll(ph, Apply(m, e), todo - {n});
      RunFirst(m, e, rest);
      AnnouncedFirst(e, rest, todo);
      events := [e] + rest;
    }
  }

  lemma AnnouncedFirst(e: Event, rest: seq<Event>, todo: set<NodeId>)
    requires e.Originate? && AnnouncedBy(rest, todo - {e.node})
    ensures AnnouncedBy([e] + rest, todo)
  {
    forall n | n in todo
      ensures Announces([e] + rest, n)
    {
      AnnouncesFirst(e, rest, n);
    }
  }

  lemma AnnouncesFirst(e: Event, rest: seq<Event>, n: NodeId)
    requires (e.Originate? && e.node == n) || Announces(rest, n)
    ensures Announces([e] + rest, n)
  {
    if e.Originate? && e.node == n {
      assert ([e] + rest)[0] == e;
    } else {
      var i :| 0 <= i < |rest| && rest[i].Originate? && rest[i].node == n;
      assert ([e] + rest)[i + 1] == rest[i];
    }
  }

  lemma AnnouncesLonger(a: seq<Event>, b: seq<Event>, n: NodeId)
    requires Announces(a, n)
    ensures Announces(a + b, n)
  {
    var i :| 0 <= i < |a| && a[i].Originate? && a[i].node == n;
    assert (a + b)[i] == a[i];
  }

  /**
    Every phase has a run in which all nodes announce themselves and that ends quiet, as the
    convergence theorem asks.
   */
  lemma QuietIsReachable(ph: Phase, m: Mesh) returns (events: seq<Event>)
    requires PhaseOk(ph) && Begins(ph, m)
    ensures Runs(m, events) && Run(m, events).inflight == multiset{}
            && forall n :: n in m.nodes ==> Announces(events, n)
  {
    BeginsInv(ph, m);
    var a := AnnounceAll(ph, m, m.nodes.Keys);
    RunKeepsInv(ph, m, a);
    var b := Settle(ph, Run(m, a));
    RunConcat(m, a, b);
    events := a + b;
    forall n | n in m.nodes
      ensures Announces(events, n)
    {
      AnnouncesLonger(a, b, n);
    }
  }

  // ----- every topology has a beginning

  function NewNode(truth: ConnectionMap, n: NodeId, epoch: nat, filed: seq<NodeId>): Node
    requires n in truth
  {
    Node(n, epoch, 0, truth[n], map[], {}, map[n := truth[n]], filed, true)
  }

  /** Nodes that have just connected to their neighbours, with any epochs and any names filed. */
  function NewMesh(truth: ConnectionMap, epochs: map<NodeId, nat>, filed: map<NodeId, seq<NodeId>>): Mesh
    requires epochs.Keys == truth.Keys == filed.Keys
  {
    Mesh(map n | n in truth :: NewNode(truth, n, epochs[n], filed[n]), multiset{}, map[], {})
  }

  /** For every topology a phase can begin, and every node can compute its table from the start. */
  lemma NewMeshBegins(ph: Phase, epochs: map<NodeId, nat>, filed: map<NodeId, seq<NodeId>>)
    requires PhaseOk(ph) && epochs.Keys == ph.truth.Keys == filed.Keys
    requires forall n :: n in ph.truth ==> ph.base[n] == Stamp(epochs[n], 0)
    ensures Begins(ph, NewMesh(ph.truth, epochs, filed)) && Computable(NewMesh(ph.truth, epochs, filed))
  {
    NewMeshNodes(ph, epochs, filed);
    var m := NewMesh(ph.truth, epochs, filed);
    forall v, o | v in m.nodes && o in m.nodes && KnowsOf(m, v, o)
      ensures AtMost(StampAt(m, v, o), Own(m.nodes[o]))
    {
      assert v == o;
    }
  }

  lemma NewMeshNodes(ph: Phase, epochs: map<NodeId, nat>, filed: map<NodeId, seq<NodeId>>)
    requires PhaseOk(ph) && epochs.Keys == ph.truth.Keys == filed.Keys
    ensures NodesOk(ph, NewMesh(ph.truth, epochs, filed)) && Computable(NewMesh(ph.truth, epochs, filed))
  {
    var m := NewMesh(ph.truth, epochs, filed);
    forall n | n in m.nodes
      ensures NodeOk(ph, m, n)
    {
    }
  }
}
