/** The routing half of the Netceptor object, with the fields its methods update in place. */
module NetceptorNode {
  import opened Graph
  import opened RouteSearch
  import opened RoutingProtocol
  import opened LinkLoss

  class Netceptor {
    const nodeID: NodeId
    const epoch: nat
    var sequence: nat
    var connections: Neighbours
    var knownNodeInfo: map<NodeId, Stamp>
    var seenUpdates: map<UpdateId, int>
    var knownConnectionCosts: ConnectionMap
    var filed: seq<NodeId>  // the names handed to AddNameHash; `Codec.NameTable` is the table they make
    var routingTable: map<NodeId, NodeId>
    var routingPathCosts: Costs
    var running: bool

    constructor (nodeID: NodeId, epoch: nat)
      ensures this.nodeID == nodeID && this.epoch == epoch
      ensures State() == Node(nodeID, epoch, 0, map[], map[], {}, map[], [nodeID], true)
      ensures routingTable == map[] && routingPathCosts == map[]
    {
      this.nodeID, this.epoch := nodeID, epoch;
      sequence, connections, knownNodeInfo, seenUpdates, knownConnectionCosts := 0, map[], map[], map[], map[];
      filed, routingTable, routingPathCosts, running := [nodeID], map[], map[], true;
    }

    ghost function State(): Node
      reads this
    {
      Node(nodeID, epoch, sequence, connections, knownNodeInfo, seenUpdates.Keys, knownConnectionCosts, filed, running)
    }

    /** One packet to every connection but the excluded one. */
    method FloodMessage(update: RoutingUpdate, excludeConn: NodeId) returns (sends: set<Packet>)
      ensures sends == Flood(State(), update, excludeConn)
    {
      sends := {};
      var remaining := connections.Keys;
      while remaining != {}
        invariant remaining <= connections.Keys
        invariant sends == set c | c in connections && c !in remaining && c != excludeConn :: Packet(nodeID, c, update)
        decreases remaining
      {
        var conn :| conn in remaining;
        remaining := remaining - {conn};
        if conn != excludeConn {
          sends := sends + {Packet(nodeID, conn, update)};
        }
      }
    }

    method MakeRoutingUpdate(suspectedDuplicate: nat, updateID: UpdateId) returns (update: RoutingUpdate)
      modifies this`sequence
      ensures sequence == old(sequence) + 1
      ensures update == old(Made(State(), suspectedDuplicate, updateID))
    {
      sequence := sequence + 1;
      var conns := CopyConnections(connections);
      update := RoutingUpdate(nodeID, updateID, Stamp(epoch, sequence), conns, nodeID, suspectedDuplicate);
    }

    method SendRoutingUpdate(suspectedDuplicate: nat, updateID: UpdateId) returns (sends: set<Packet>)
      modifies this`sequence
      ensures Reaction(State(), sends) == old(Announce(State(), suspectedDuplicate, updateID))
    {
      if |connections| == 0 {
        return {};
      }
      var update := MakeRoutingUpdate(suspectedDuplicate, updateID);
      sends := FloodMessage(update, NO_NODE);
    }

    /**
      Processes an update received from a connection; `now` and `freshID` stand for the clock and
      the random source.
     */
    method HandleRoutingUpdate(ri: RoutingUpdate, recvConn: NodeId, now: int, freshID: UpdateId)
      returns (sends: set<Packet>)
      modifies this`sequence, this`knownNodeInfo, this`seenUpdates, this`knownConnectionCosts, this`filed, this`running
      ensures Reaction(State(), sends) == old(Handle(State(), ri, recvConn, freshID))
    {
      if ri.nodeID == NO_NODE {
        return {};
      }
      if ri.nodeID == nodeID {
        if ri.stamp.epoch == epoch {
          return {};
        }
        if ri.suspectedDuplicate == epoch {
          running := false;
          return {};
        }
        if ri.stamp.epoch > epoch {
          sends := SendRoutingUpdate(ri.stamp.epoch, freshID);
          return;
        }
        return {};
      }
      if ri.updateID in seenUpdates {
        return {};
      }
      seenUpdates := seenUpdates[ri.updateID := now];
      assert seenUpdates.Keys == old(seenUpdates.Keys) + {ri.updateID};
      if ri.suspectedDuplicate != 0 {
        if ri.nodeID in knownNodeInfo && knownNodeInfo[ri.nodeID].epoch == ri.suspectedDuplicate {
          knownNodeInfo := knownNodeInfo[ri.nodeID := ri.stamp];
        }
      } else {
        if ri.nodeID in knownNodeInfo {
          var ni := knownNodeInfo[ri.nodeID];
          if ri.stamp.epoch < ni.epoch {
            return {};
          }
          if ri.stamp.epoch == ni.epoch && ri.stamp.sequence <= ni.sequence {
            return {};
          }
        }
        var changed := !(ri.nodeID in knownConnectionCosts && knownConnectionCosts[ri.nodeID] == ri.connections);
        if ri.nodeID !in knownNodeInfo {
          filed := filed + [ri.nodeID];
        }
        knownNodeInfo := knownNodeInfo[ri.nodeID := ri.stamp];
        if changed {
          var conns := CopyConnections(ri.connections);
          knownConnectionCosts := knownConnectionCosts[ri.nodeID := conns];
          knownConnectionCosts := DeleteReverseEdges(knownConnectionCosts, nodeID, ri.nodeID, ri.connections);
        }
      }
      var forwarded := ri.(forwardingNode := nodeID);
      sends := FloodMessage(forwarded, recvConn);
    }

    /** Forgets the updates seen before the threshold, and no others. */
    method ExpireSeenUpdates(thresholdTime: int)
      modifies this`seenUpdates
      ensures seenUpdates == map id | id in old(seenUpdates)
              && old(seenUpdates)[id] >= thresholdTime :: old(seenUpdates)[id]
    {
      var remaining := seenUpdates.Keys;
      while remaining != {}
        invariant remaining <= old(seenUpdates).Keys
        invariant seenUpdates ==
                  map id | id in old(seenUpdates) && (id in remaining || old(seenUpdates)[id] >= thresholdTime) ::
                    old(seenUpdates)[id]
        decreases remaining
      {
        var id :| id in remaining;
        if seenUpdates[id] < thresholdTime {
          seenUpdates := seenUpdates - {id};
        }
        remaining := remaining - {id};
      }
    }

    /** Neither edge between this node and the peer is left, and nothing else changes; an empty name changes nothing. */
    method RemoveConnection(remoteNodeID: NodeId)
      modifies this`connections, this`knownConnectionCosts
      ensures State() == old(Disconnected(State(), remoteNodeID))
      ensures remoteNodeID != NO_NODE ==>
                && connections == old(connections) - {remoteNodeID}
                && LinkCut(old(knownConnectionCosts), knownConnectionCosts, nodeID, remoteNodeID)
    {
      if remoteNodeID != NO_NODE {
        connections := connections - {remoteNodeID};
        if remoteNodeID in knownConnectionCosts {
          knownConnectionCosts := knownConnectionCosts[remoteNodeID := knownConnectionCosts[remoteNodeID] - {nodeID}];
        }
        if nodeID in knownConnectionCosts {
          knownConnectionCosts := knownConnectionCosts[nodeID := knownConnectionCosts[nodeID] - {remoteNodeID}];
        }
      }
    }

    /** Recomputes routes from the current map; they are exact for it. */
    method UpdateRoutingTable()
      requires GraphOk(knownConnectionCosts, nodeID)
      modifies this`routingTable, this`routingPathCosts
      ensures Exact(knownConnectionCosts, nodeID, Routes(routingTable, routingPathCosts))
    {
      var cost, prev, tree := Search(knownConnectionCosts, nodeID);
      routingTable := NextHops(knownConnectionCosts, nodeID, cost, prev, tree);
      routingPathCosts := cost;
    }
  }

  method CopyConnections(source: Neighbours) returns (copy: Neighbours)
    ensures copy == source
  {
    copy := map[];
    var remaining := source.Keys;
    while remaining != {}
      invariant remaining <= source.Keys
      invariant copy == map k | k in source && k !in remaining :: source[k]
      decreases remaining
    {
      var k :| k in remaining;
      copy := copy[k := source[k]];
      remaining := remaining - {k};
    }
  }

  method DeleteReverseEdges(costs0: ConnectionMap, self: NodeId, origin: NodeId, connections: Neighbours)
    returns (costs: ConnectionMap)
    ensures costs == DropReverse(costs0, self, origin, connections)
    ensures costs.Keys == costs0.Keys
    ensures forall c, d :: c in costs && c in costs0 ==>
              && (d in costs[c] <==> d in costs0[c] && (d != origin || c == self || c in connections))
              && (d in costs[c] ==> costs[c][d] == costs0[c][d])
  {
    costs := costs0;
    var remaining := costs0.Keys;
    while remaining != {}
      invariant remaining <= costs0.Keys
      invariant costs == map c | c in costs0 ::
                           if c == self || c in connections || c in remaining then costs0[c] else costs0[c] - {origin}
      decreases remaining
    {
      var conn :| conn in remaining;
      remaining := remaining - {conn};
      if conn != self && conn !in connections {
        costs := costs[conn := costs[conn] - {origin}];
      }
    }
  }
}
