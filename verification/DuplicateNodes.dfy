/**
  Several running nodes that share a node ID.  Every update ever sent stays available for delivery
  to anybody, any number of times and in any order, so the results hold for every topology and for
  every loss, delay, repetition and reordering of updates.
 */
module DuplicateNodes {
  import opened Graph
  import opened RoutingProtocol

  type Instance = nat

  datatype Fleet = Fleet(instances: map<Instance, Node>, wire: set<RoutingUpdate>)

  datatype Event =
    | Tick(i: Instance, updateID: UpdateId)
    | Receive(i: Instance, update: RoutingUpdate, recvConn: NodeId, freshID: UpdateId)
    | Relink(i: Instance, connections: Neighbours)

  predicate Enabled(f: Fleet, e: Event) {
    && e.i in f.instances && f.instances[e.i].running
    && (e.Receive? ==> e.update in f.wire)
  }

  function Reacted(f: Fleet, i: Instance, r: Reaction): Fleet {
    Fleet(f.instances[i := r.node], f.wire + set p | p in r.sends :: p.update)
  }

  function Apply(f: Fleet, e: Event): Fleet
    requires Enabled(f, e)
  {
    var n := f.instances[e.i];
    match e
    case Tick(i, id) => Reacted(f, i, Announce(n, 0, id))
    case Receive(i, u, recvConn, id) => Reacted(f, i, Handle(n, u, recvConn, id))
    case Relink(i, connections) => f.(instances := f.instances[i := n.(connections := connections)])
  }

  predicate Runs(f: Fleet, events: seq<Event>)
    decreases |events|
  {
    events == [] || (Enabled(f, events[0]) && Runs(Apply(f, events[0]), events[1..]))
  }

  function Run(f: Fleet, events: seq<Event>): Fleet
    requires Runs(f, events)
    decreases |events|
  {
    if events == [] then f else Run(Apply(f, events[0]), events[1..])
  }

  /** The update was made by some instance, and if it is a notice it names an epoch larger than its maker's. */
  ghost predicate UpdateOk(f: Fleet, u: RoutingUpdate) {
    && (exists i :: i in f.instances && f.instances[i].id == u.nodeID && f.instances[i].epoch == u.stamp.epoch)
    && (u.suspectedDuplicate == 0 || u.suspectedDuplicate > u.stamp.epoch)
  }

  /** Some other instance with the same ID has a smaller epoch. */
  ghost predicate HasElder(f: Fleet, i: Instance)
    requires i in f.instances
  {
    exists j :: j in f.instances && f.instances[j].id == f.instances[i].id
      && f.instances[j].epoch < f.instances[i].epoch
  }

  ghost predicate Inv(f: Fleet) {
    && (forall i :: i in f.instances ==> f.instances[i].epoch != 0)
    && (forall u :: u in f.wire ==> UpdateOk(f, u))
    && (forall i :: i in f.instances && !f.instances[i].running ==> HasElder(f, i))
  }

  /** IDs and epochs never change. */
  ghost predicate SameIdentities(f: Fleet, f': Fleet) {
    && f.instances.Keys == f'.instances.Keys
    && forall i :: i in f.instances ==>
         f'.instances[i].id == f.instances[i].id && f'.instances[i].epoch == f.instances[i].epoch
  }

  lemma IdentitiesKeepUpdates(f: Fleet, f': Fleet, u: RoutingUpdate)
    requires SameIdentities(f, f') && UpdateOk(f, u)
    ensures UpdateOk(f', u)
  {
    var i :| i in f.instances && f.instances[i].id == u.nodeID && f.instances[i].epoch == u.stamp.epoch;
    assert i in f'.instances && f'.instances[i].id == u.nodeID;
  }

  lemma IdentitiesKeepElders(f: Fleet, f': Fleet, i: Instance)
    requires SameIdentities(f, f') && i in f.instances && HasElder(f, i)
    ensures HasElder(f', i)
  {
    var j :| j in f.instances && f.instances[j].id == f.instances[i].id && f.instances[j].epoch < f.instances[i].epoch;
    assert j in f'.instances && f'.instances[j].id == f'.instances[i].id;
  }

  /** What an instance sends in reaction to an update is an update it heard, or one of its own naming a larger epoch. */
  lemma HandledSends(f: Fleet, i: Instance, u: RoutingUpdate, recvConn: NodeId, id: UpdateId)
    requires i in f.instances && UpdateOk(f, u)
    ensures forall p :: p in Handle(f.instances[i], u, recvConn, id).sends ==> UpdateOk(f, p.update)
  {
    var n := f.instances[i];
    forall p | p in Handle(n, u, recvConn, id).sends
      ensures UpdateOk(f, p.update)
    {
      if u.nodeID == n.id {
        assert p.update == Made(n, u.stamp.epoch, id);
      } else {
        assert p.update == u.(forwardingNode := n.id);
      }
    }
  }

  /** An instance stops only on a notice, and a notice that reaches it comes from an elder. */
  lemma StoppedHasElder(f: Fleet, i: Instance, u: RoutingUpdate, recvConn: NodeId, id: UpdateId)
    requires i in f.instances && f.instances[i].running && f.instances[i].epoch != 0 && UpdateOk(f, u)
    requires !Handle(f.instances[i], u, recvConn, id).node.running
    ensures HasElder(f, i)
  {
    var j :| j in f.instances && f.instances[j].id == u.nodeID && f.instances[j].epoch == u.stamp.epoch;
    assert f.instances[j].id == f.instances[i].id;
  }

  lemma StepIdentities(f: Fleet, e: Event)
    requires Enabled(f, e)
    ensures SameIdentities(f, Apply(f, e))
  {
  }

  lemma StepKeepsWire(f: Fleet, e: Event)
    requires Inv(f) && Enabled(f, e)
    ensures forall u :: u in Apply(f, e).wire ==> UpdateOk(f, u)
  {
    var n := f.instances[e.i];
    match e
    case Tick(i, id) =>
      forall p | p in Announce(n, 0, id).sends
        ensures UpdateOk(f, p.update)
      {
        assert p.update == Made(n, 0, id);
      }
    case Receive(i, u, recvConn, id) => HandledSends(f, i, u, recvConn, id);
    case Relink(_, _) =>
  }

  lemma StepKeepsInv(f: Fleet, e: Event)
    requires Inv(f) && Enabled(f, e)
    ensures Inv(Apply(f, e)) && SameIdentities(f, Apply(f, e))
  {
    var f' := Apply(f, e);
    StepIdentities(f, e);
    StepKeepsWire(f, e);
    forall u | u in f'.wire
      ensures UpdateOk(f', u)
    {
      IdentitiesKeepUpdates(f, f', u);
    }
    forall i | i in f'.instances && !f'.instances[i].running
      ensures HasElder(f', i)
    {
      if f.instances[i].running {
        assert e.Receive? && e.i == i;
        StoppedHasElder(f, i, e.update, e.recvConn, e.freshID);
      }
      IdentitiesKeepElders(f, f', i);
    }
  }

  lemma {:induction false} RunKeepsInv(f: Fleet, events: seq<Event>)
    requires Inv(f) && Runs(f, events)
    ensures Inv(Run(f, events)) && SameIdentities(f, Run(f, events))
    decreases |events|
  {
    if events != [] {
      StepKeepsInv(f, events[0]);
      RunKeepsInv(Apply(f, events[0]), events[1..]);
    }
  }

  ghost predicate Fresh(f: Fleet) {
    f.wire == {} && forall i :: i in f.instances ==> f.instances[i].running && f.instances[i].epoch != 0
  }

  /** No run stops an instance whose epoch is the smallest among the instances with its ID. */
  lemma EldestSurvives(f: Fleet, events: seq<Event>, i: Instance)
    requires Fresh(f) && Runs(f, events) && i in f.instances
    requires forall j :: j in f.instances && f.instances[j].id == f.instances[i].id ==>
               f.instances[i].epoch <= f.instances[j].epoch
    ensures i in Run(f, events).instances && Run(f, events).instances[i].running
  {
    RunKeepsInv(f, events);
  }

  /** The other side: whenever a younger duplicate is heard by an elder and hears it back, it stops. */
  lemma YoungerCanBeStopped(f: Fleet, i: Instance, j: Instance, a: UpdateId, b: UpdateId)
    requires Fresh(f) && i in f.instances && j in f.instances
    requires f.instances[i].id == f.instances[j].id != NO_NODE && f.instances[i].epoch < f.instances[j].epoch
    requires (exists c :: c in f.instances[i].connections && c != NO_NODE)
             && (exists c :: c in f.instances[j].connections && c != NO_NODE)
    ensures exists events :: Runs(f, events) && j in Run(f, events).instances && !Run(f, events).instances[j].running
  {
    var e1 := Tick(j, a);
    var f1 := Apply(f, e1);
    var u := Made(f.instances[j], 0, a);
    var c :| c in f.instances[j].connections && c != NO_NODE;
    assert Packet(f.instances[j].id, c, u) in Announce(f.instances[j], 0, a).sends;
    var e2 := Receive(i, u, NO_NODE, b);
    var f2 := Apply(f1, e2);
    var notice := Made(f.instances[i], u.stamp.epoch, b);
    var d :| d in f.instances[i].connections && d != NO_NODE;
    assert Packet(f.instances[i].id, d, notice) in Announce(f.instances[i], u.stamp.epoch, b).sends;
    var e3 := Receive(j, notice, NO_NODE, b);
    assert notice in f2.wire && !Apply(f2, e3).instances[j].running;
    ThreeSteps(f, e1, e2, e3);
  }

  lemma ThreeSteps(f: Fleet, e1: Event, e2: Event, e3: Event)
    requires Enabled(f, e1) && Enabled(Apply(f, e1), e2) && Enabled(Apply(Apply(f, e1), e2), e3)
    ensures Runs(f, [e1, e2, e3]) && Run(f, [e1, e2, e3]) == Apply(Apply(Apply(f, e1), e2), e3)
  {
    var f1 := Apply(f, e1);
    var f2 := Apply(f1, e2);
    var f3 := Apply(f2, e3);
    assert Runs(f3, []) && Run(f3, []) == f3;
    assert [e3][1..] == [] && Runs(f2, [e3]) && Run(f2, [e3]) == f3;
    assert [e2, e3][1..] == [e3] && Runs(f1, [e2, e3]) && Run(f1, [e2, e3]) == f3;
    assert [e1, e2, e3][1..] == [e2, e3];
  }

  // ----- a notice on its way

  /** The node that comes after the relays handled so far. */
  function NextOf(relays: seq<Node>, younger: Node): Node {
    if relays == [] then younger else relays[0]
  }

  /**
    Every relay accepts the notice from its predecessor and hands it to the next node, and the younger
    instance at the end stops.
   */
  predicate HandedOn(relays: seq<Node>, younger: Node, from: NodeId, u: RoutingUpdate, id: UpdateId)
    decreases |relays|
  {
    LinkAccepts(NextOf(relays, younger), from, u) &&
    if relays == [] then !Handle(younger, u, from, id).node.running
    else
      var r, next, u' := relays[0], NextOf(relays[1..], younger).id, u.(forwardingNode := relays[0].id);
      Packet(r.id, next, u') in Handle(r, u, from, id).sends && HandedOn(relays[1..], younger, r.id, u', id)
  }

  /**
    Relays that are each connected to the next node, which is not the one the notice came from, and
    have not seen it.
   */
  predicate Linked(relays: seq<Node>, younger: Node, from: NodeId, origin: NodeId, updateID: UpdateId)
    decreases |relays|
  {
    relays == [] ||
    var r, next := relays[0], NextOf(relays[1..], younger).id;
    && r.id != origin && updateID !in r.seen && next in r.connections && next != from
    && Linked(relays[1..], younger, r.id, origin, updateID)
  }

  /**
    Over any path of relays, a notice that its sender hands to the first node reaches the younger
    instance it names and stops it.
   */
  lemma {:induction false} NoticeReachesYounger(relays: seq<Node>, younger: Node, from: NodeId, u: RoutingUpdate,
                                                id: UpdateId)
    requires u.nodeID != NO_NODE && u.suspectedDuplicate != 0 && LinkAccepts(NextOf(relays, younger), from, u)
    requires younger.id == u.nodeID && younger.epoch == u.suspectedDuplicate && u.stamp.epoch != younger.epoch
    requires Linked(relays, younger, from, u.nodeID, u.updateID)
    ensures HandedOn(relays, younger, from, u, id)
    decreases |relays|
  {
    if relays != [] {
      var r, next := relays[0], NextOf(relays[1..], younger).id;
      NoticeIsPassedOn(r, u, from, id, next);
      NoticeReachesYounger(relays[1..], younger, r.id, u.(forwardingNode := r.id), id);
    }
  }

  lemma TwoSteps(f: Fleet, e1: Event, e2: Event)
    requires Enabled(f, e1) && Enabled(Apply(f, e1), e2)
    ensures Runs(f, [e1, e2]) && Run(f, [e1, e2]) == Apply(Apply(f, e1), e2)
  {
    var f2 := Apply(Apply(f, e1), e2);
    assert Runs(f2, []) && Run(f2, []) == f2;
    assert [e2][1..] == [] && Runs(Apply(f, e1), [e2]) && Run(Apply(f, e1), [e2]) == f2;
    assert [e1, e2][1..] == [e2];
  }

  /**
    An instance that had taken the updates of the younger duplicate learns nothing from the elder's
    update u, unless the elder's notice has reached it first: then it takes the elder's connections.
   */
  lemma ElderIsHeardAgain(f: Fleet, k: Instance, notice: RoutingUpdate, u: RoutingUpdate, recvConn: NodeId,
                          id: UpdateId)
    requires k in f.instances && f.instances[k].running && notice in f.wire && u in f.wire
    requires notice.nodeID == u.nodeID && u.nodeID != NO_NODE && u.nodeID != f.instances[k].id
    requires notice.updateID !in f.instances[k].seen && u.updateID !in f.instances[k].seen
             && notice.updateID != u.updateID
    requires notice.suspectedDuplicate > notice.stamp.epoch && u.suspectedDuplicate == 0
    requires u.stamp.epoch == notice.stamp.epoch && u.stamp.sequence > notice.stamp.sequence
    requires u.nodeID in f.instances[k].known && f.instances[k].known[u.nodeID].epoch == notice.suspectedDuplicate
    ensures var hear, heed := Receive(k, u, recvConn, id), Receive(k, notice, recvConn, id);
            && Runs(f, [hear]) && Runs(f, [heed, hear])
            && Run(f, [hear]).instances == f.instances[k := f.instances[k].(seen := f.instances[k].seen + {u.updateID})]
            && k in Run(f, [heed, hear]).instances
            && (var n := Run(f, [heed, hear]).instances[k];
                && u.nodeID in n.known && n.known[u.nodeID] == u.stamp
                && u.nodeID in n.costs && n.costs[u.nodeID] == u.connections)
  {
    var hear, heed := Receive(k, u, recvConn, id), Receive(k, notice, recvConn, id);
    TwoSteps(f, heed, hear);
    assert [hear][1..] == [] && Runs(Apply(f, hear), []) && Run(f, [hear]) == Apply(f, hear);
  }
}
