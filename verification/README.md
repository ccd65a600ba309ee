# Receptor mesh: a verified model

Receptor connects nodes into an overlay mesh. Every node floods its list of neighbours, keeps a
link-state map of what it hears, computes next hops from that map and forwards packets hop by hop
with a hop limit. On top of the mesh, work units stream their output between nodes and from
Kubernetes pods.

This project models that behaviour in Dafny and proves what it promises:

* **Routing** (`Graph`, `RouteSearch`, `NetceptorNode`, `LinkLoss`, `Forwarding`, `RoutingProtocol`,
  `Flooding`, `FloodBound`, `Convergence`, `Settling`). The route search is proved exact for every
  order in which its queue may be popped and for arbitrary positive real costs. Flooding is a state
  machine over a multiset of packets in flight; its invariant holds from any leftover state of the
  nodes. The two meet in `Convergence.MeshConverges`: after every run in which each node announced
  itself and the network fell quiet, the tables that the nodes compute independently deliver each
  packet along a loop-free shortest path of the true topology. `FloodBound` bounds the number of
  deliveries of every run, `Settling` shows that the quiet state can be reached from every state of
  every topology, and `LinkLoss` says what routes remain when a link is torn down.
* **Duplicate node IDs** (`DuplicateNodes`). Under any delivery of updates whatsoever, the instance
  with the smallest epoch is never shut down.
* **Data messages** (`Names`, `Messages`, `Endless`, `Traceroute`, `Delivery`, `Codec`, `Wire`,
  `Framing`, with `Bytes` and `Options`). `Messages.HandleInput` is one call of the handler, for a
  message made at the node or a packet read from a link; a packet carries hashes in place of node
  names, and a node that cannot look them up drops it. Journeys, the recursion at a node and the
  chain of all steps over a mesh are built on this step. Transmissions and consequences of a message
  are bounded whatever the tables do, it is known exactly which messages can be answered for ever
  and for which reasons one is lost, traceroute reports the forwarding path, forwarding changes
  nothing but the hop byte, and the framer recovers messages from any chunking. `Wire` proves that
  the bytes of `Codec` carry the packets of `Messages`. `Delivery` joins this to the routing half:
  after every run that settles, all names can be read everywhere, messages arrive and traceroutes
  are right on the hosts that the run leaves.
* **Resumable output** (`KubeLogs`, `RemoteStdout`, `Backoff`). Whole lines of a pod log and the
  bytes of a mirrored file come out exactly once over any pattern of disconnects; what happens to a
  line that the last stream cuts is stated below.
* **Concurrency helpers** (`JobContexts`, `Brokers`). State machines over all interleavings.

Code that updates state in place is modelled by classes and loops, each proved against a function on
values (`State()` of class `Netceptor` gives the value; `RoutingProtocol.Handle`, `Announce` and
`Disconnected` are the functions). Protocols are state machines: `Enabled` and `Apply` give the
steps, `Runs` and `Run` whole runs. Choices the program leaves open (queue order, map iteration
order, delivery order, goroutine scheduling, the byte at which a stream is cut) are arbitrary in the
model. Clocks, random update IDs, the hash function, the parser of time stamps, the JSON form of
message bodies and firewall rules are parameters.

Costs are real numbers and `math.MaxFloat64` is the label `Infinite`. Epochs, sequence numbers and
waitgroup counters are unbounded. The empty node ID is the mark for "no node", as in the code.

Where code and comments differ the model follows the code: the comment on `GetNextFibonacciValues`
speaks of a limit of 1000 and the code uses 400, which stops the sequence at 377; and the comments
on `stringFromFixedLenBytes` and `fixedLenBytesFromString` are interchanged.

Some promises hold only under a condition, which is proved to be exact:

* A framed message comes back if and only if its length fits the 16-bit header
  (`Framing.RoundTripIff`).
* An encoded message decodes to itself if and only if the receiver filed both node names before any
  other name with the same hash, the sender does not replace either of them by a name with another
  hash, and both service names fit their eight bytes (`Codec.RoundTripIff`).
* The recursion of the message handlers at a node ends if and only if the message is not a ping from
  the node's own ping service to itself that no rule stops (`Endless.RecursionEndsIff`;
  `Endless.SelfPingNeverReturns` is the input: local dispatch does not lower the hop count).
* The handling of a message comes to an end on every mesh if and only if the message is not
  `Perpetual`: both services "ping" once names have crossed a link, and hops left or a reply that can
  be addressed (`Endless.EndsEverywhereIff`). For a destination whose name is no alias of localhost,
  and for every hash that keeps three names apart, `Endless.PerpetualNeverEnds` gives linked hosts
  without any rule on which the handler steps go on for ever; for an alias the hosts of
  `Endless.AliasNeverEnds` have a colliding hash.
* A message that is no notice is not always accounted for. A node that has filed no name with one of
  its hashes drops it before the handler is called (`Messages.UnknownNameIsSwallowed`), and a relay
  without a route, a connection, or a connection that takes the packet drops it too
  (`Messages.RelayMaySwallow`); both only log the fact, so that the sender hears nothing.
  `Messages.LossIsClassified` gives the exact circumstances of each way to be lost or reported.
* A packet is read under the names that were meant if and only if both get across
  (`Messages.ReadsRelayedIff`). When another name with the same hash was filed first, the message goes
  on under that name (`Messages.ReadIff`), and a node whose own name it is takes it for its own
  (`Messages.CollisionMisdelivers`); the hashes themselves never change on the way.
* When a container has terminated, the output is what some first lines of the log say if and only if
  the last stream was cut at a harmless place (`KubeLogs.HarmlessCut`). A cut inside the text of an
  unwritten line writes the piece with a newline, and a cut inside a stamp writes the piece of the
  stamp even if the line was written before; `KubeLogs.StampCutRun` is such a run.

## Model

| member | source | states |
|---|---|---|
| RouteSearch.RelaxNeighbours | pkg/netceptor/netceptor.go:838-845 | relaxing all edges of a popped node keeps every label the cost of a simple path, leaves only edges of queued nodes improvable, and either lowers a label or changes nothing |
| RouteSearch.ImproveLowersSlack | pkg/netceptor/netceptor.go:839-844 | every improvement strictly shrinks a finite set of (node, sum of edge costs) pairs: termination for real costs despite re-insertion |
| RouteSearch.OnlyKeysImprove | pkg/netceptor/netceptor.go:839-840 | an edge to a neighbour that is not a key of the map, whose cost reads as zero, is never relaxed |
| RouteSearch.Search | pkg/netceptor/netceptor.go:822-846 | for every pop order the loop terminates with exact shortest distances, infinite exactly for unreachable nodes |
| RouteSearch.PredecessorIsCloser | pkg/netceptor/netceptor.go:842-860 | every reached node other than self has a predecessor on a tight edge with a strictly smaller label |
| RouteSearch.NextHop | pkg/netceptor/netceptor.go:851-861 | the predecessor walk terminates; it finds a hop if and only if the destination is another reachable node, and that hop is a neighbour on a shortest path |
| RouteSearch.NextHops | pkg/netceptor/netceptor.go:849-862 | the whole table is exact: route if and only if reachable, every next hop on a shortest path |
| NetceptorNode.Netceptor.UpdateRoutingTable | pkg/netceptor/netceptor.go:816-863 | the two table fields are exact for the current link-state map, and nothing else changes |
| Forwarding.HopProgress | pkg/netceptor/netceptor.go:1111-1122 | in a converged mesh every hop is an edge that uses up exactly its own cost of the remaining distance, which strictly decreases |
| Forwarding.WalkInvariant | pkg/netceptor/netceptor.go:1097-1137 | at every moment of a journey, cost so far plus remaining distance is the whole distance and no node was visited twice |
| Forwarding.ForwardingIsShortest | pkg/netceptor/netceptor.go:1097-1137 | independently computed tables compose: the packet arrives along a simple path whose cost is minimal, in fewer hops than live nodes |
| NetceptorNode.Netceptor.FloodMessage | pkg/netceptor/netceptor.go:908-922 | one packet to every connection except the excluded one |
| NetceptorNode.Netceptor.MakeRoutingUpdate | pkg/netceptor/netceptor.go:1208-1229 | the update carries the incremented sequence number and a copy of all connections |
| NetceptorNode.Netceptor.SendRoutingUpdate | pkg/netceptor/netceptor.go:1242-1264 | refines `Announce`: without connections nothing is sent and the sequence stays |
| NetceptorNode.Netceptor.HandleRoutingUpdate | pkg/netceptor/netceptor.go:1267-1380 | refines `Handle` in every branch, duplicates and notices included |
| NetceptorNode.Netceptor.ExpireSeenUpdates | pkg/netceptor/netceptor.go:797-813 | exactly the IDs seen before the threshold are forgotten |
| NetceptorNode.Netceptor.RemoveConnection | pkg/netceptor/netceptor.go:1675-1691 | neither edge between the node and the peer is left, every other edge and connection stays as it was |
| LinkLoss.CutPaths | pkg/netceptor/netceptor.go:1680-1688 | the paths left are exactly those that did not use the link, at their old cost |
| LinkLoss.RoutesAvoidLink | pkg/netceptor/netceptor.go:1675-1691 | the map stays one that routes can be computed from, no recomputed route begins with the lost peer, and every recomputed cost is that of a cheapest old path without the link |
| NetceptorNode.CopyConnections | pkg/netceptor/netceptor.go:1351-1354 | the copying loop yields an equal map |
| NetceptorNode.DeleteReverseEdges | pkg/netceptor/netceptor.go:1355-1363 | afterwards an edge to the origin is left only from nodes it lists and from the own entry; every other edge and every key is as before |
| RoutingProtocol.HandleOnlyRaises | pkg/netceptor/netceptor.go:1294-1379 | in any state, an ordinary update never touches the own entry, changes a stored stamp only to a strictly newer one, and is passed on or changes the map only if it did |
| RoutingProtocol.UpdateRewritesMap | pkg/netceptor/netceptor.go:1294-1363 | an update that is news and differs from the map sets the entry of its origin, removes exactly the edges to the origin that it denies and keeps all others at their cost; any other update leaves the map alone |
| LinkLoss.RewrittenPaths | pkg/netceptor/netceptor.go:1350-1363 | the paths of the new map are those of the old one with the new entry that use no denied edge, at the same cost |
| LinkLoss.LostEdgeIsNotUsed | pkg/netceptor/netceptor.go:1355-1363 | no path of the new map, and so no recomputed route, goes directly from a node to an origin that no longer lists it |
| RoutingProtocol.NewsIsPassedOn | pkg/netceptor/netceptor.go:1314-1379 | an ordinary update leaves on every connection but the one it came from if and only if it is news, and only then is its stamp stored |
| RoutingProtocol.NoticeIsPassedOn | pkg/netceptor/netceptor.go:1303-1379 | an unseen notice leaves on every connection but the one it came from, and corrects the stored stamp exactly when that has the suspected epoch |
| RoutingProtocol.SecondTimeIsIgnored | pkg/netceptor/netceptor.go:1294-1301 | a node does nothing with an update it has seen, whoever it comes from |
| RoutingProtocol.AnnouncementIs | pkg/netceptor/netceptor.go:1208-1264 | an announcement goes to every connection and carries all of them under the next sequence number; without connections nothing changes |
| Flooding.LinkIsTornDownIff | pkg/netceptor/netceptor.go:1755-1780 | a link is torn down, with its two edges and nothing else, if and only if the update names another forwarding node, or is the peer's own and does not list this node or lists it at another cost |
| Flooding.BeginsInv | pkg/netceptor/netceptor.go:1881-1893 | the invariant holds when links have become stable, whatever old stamps and maps nodes still hold |
| Flooding.DeliveryIsOrdinary | pkg/netceptor/netceptor.go:1748-1782 | on stable links no update fails the checks of the link and no node suspects a duplicate |
| Flooding.NeverResent | pkg/netceptor/netceptor.go:1316-1328 | an accepted update has never been sent by this node before, even if its ID was forgotten |
| Flooding.LearntIsExact | pkg/netceptor/netceptor.go:1341-1354 | a true update makes the entry of its origin exact, starting from any map |
| Flooding.LearntKeepsExact | pkg/netceptor/netceptor.go:1355-1363 | with symmetric true maps, an update does not disturb what is known of other origins |
| Flooding.AnyOrderIsExact | pkg/netceptor/netceptor.go:1341-1364 | one true update per origin in any order and with any repetition makes the entry of every origin exact |
| Flooding.SpreadKeepsInv | pkg/netceptor/netceptor.go:1339-1380 | accepting and reflooding keeps the invariant |
| Flooding.OriginateKeepsInv | pkg/netceptor/netceptor.go:1242-1264 | announcing keeps the invariant |
| Flooding.DeliverKeepsInv | pkg/netceptor/netceptor.go:1267-1380 | delivering any packet in flight keeps the invariant |
| Flooding.ExpireKeepsInv | pkg/netceptor/netceptor.go:797-813 | forgetting any seen IDs at any time keeps the invariant |
| Flooding.RunKeepsInv | pkg/netceptor/netceptor.go:1267-1380 | in every run: across each link the far node is not behind, or the update is still in flight to it; stored entries are exact |
| Flooding.QuietAgreement | pkg/netceptor/netceptor.go:1294-1380 | with nothing in flight, every node connected to an origin holds the origin's newest stamp and true neighbours |
| FloodBound.DeliverLowersPotential | pkg/netceptor/netceptor.go:1294-1380 | each delivery uses up exactly one of the packets in flight or still to be sent |
| FloodBound.OriginateRaisesPotential | pkg/netceptor/netceptor.go:1242-1264 | an announcement adds at most one packet per directed link |
| FloodBound.FloodIsFinite | pkg/netceptor/netceptor.go:908-922 | in every run over any topology the deliveries are bounded by announcements times directed links plus what was pending |
| FloodBound.FloodFromRest | pkg/netceptor/netceptor.go:1374-1379 | from rest, each announcement causes at most one delivery per directed link |
| Convergence.RunRaisesStamp | pkg/netceptor/netceptor.go:1211-1213 | stamps never fall and an announcement raises its origin's stamp for good |
| Convergence.RunComputable | pkg/netceptor/netceptor.go:1350-1372 | in every run every node's map stays one for which the route computation is defined |
| Convergence.QuietMapsAgree | pkg/netceptor/netceptor.go:1341-1364 | in a quiet mesh a node's map is the true one on everything it is connected to |
| Convergence.MeshConverges | pkg/netceptor/netceptor.go:816-1137 | for every run in which all nodes announced themselves and that ended quiet: own tables deliver along loop-free true shortest paths |
| Settling.Settle | pkg/netceptor/netceptor.go:1267-1380 | from every reachable state deliveries alone lead to a state with nothing in flight |
| Settling.QuietIsReachable | pkg/netceptor/netceptor.go:1242-1380 | every phase has a run in which all nodes announce themselves and that ends quiet |
| Settling.NewMeshBegins | pkg/netceptor/netceptor.go:1881-1893 | for every topology and all epochs, freshly connected nodes form a state in which a phase begins |
| DuplicateNodes.HandledSends | pkg/netceptor/netceptor.go:1272-1313 | every notice ever sent names an epoch larger than its maker's |
| DuplicateNodes.StoppedHasElder | pkg/netceptor/netceptor.go:1276-1281 | an instance that shuts down has an elder with the same ID |
| DuplicateNodes.RunKeepsInv | pkg/netceptor/netceptor.go:1267-1313 | the notice invariant holds over all runs with loss, repetition and reordering |
| DuplicateNodes.EldestSurvives | pkg/netceptor/netceptor.go:1272-1293 | no run shuts down the instance with the smallest epoch |
| DuplicateNodes.YoungerCanBeStopped | pkg/netceptor/netceptor.go:1276-1290 | a younger duplicate that is heard and hears the notice does shut down |
| DuplicateNodes.ElderIsHeardAgain | pkg/netceptor/netceptor.go:1303-1313 | a run in which a third node that followed the younger hears the elder's update teaches it nothing; the same run after the elder's notice makes it take the elder's stamp and connections |
| DuplicateNodes.NoticeReachesYounger | pkg/netceptor/netceptor.go:1374-1379 | over any path of relays that have not seen it, a notice is handed from node to node and stops the younger instance it names |
| Messages.CheckFirewall | pkg/netceptor/netceptor.go:1437-1443 | the result is what the first rule says that does not say Continue; if there is none it is Accept without rules and Continue with rules |
| Messages.FirewallSettles | pkg/netceptor/netceptor.go:1436-1465 | if the first rule to decide says Drop the message is lost, if it says Reject a notice quoting it goes to its source unless it is a notice itself, and if it says Accept it is handled as if there were no rules |
| Messages.UndecidedPasses | pkg/netceptor/netceptor.go:1436-1465 | a message on which no rule decides is handled as if there were no rules |
| Messages.StepLowers | pkg/netceptor/netceptor.go:1434-1504 | a message the handler makes ranks below the one it was made for and starts with the node's hop limit; one sent on has one hop less and never ranks higher, whatever names it is read under |
| Messages.ReadIff | pkg/netceptor/netceptor.go:1055-1079 | a packet is unreadable if and only if the node has filed no name under one of its hashes; otherwise each hash is read as the first name filed under it |
| Messages.ReadsRelayedIff | pkg/netceptor/netceptor.go:1055-1128 | the next node reads just the message that was meant, one hop less and service names cut, if and only if both node names get across |
| Messages.HashesKept | pkg/netceptor/netceptor.go:1082-1128 | a node sends a packet on with the hashes it came with, whatever names it read them as |
| Messages.CollisionMisdelivers | pkg/netceptor/netceptor.go:1014-1016 | a node whose own name comes first under the hash of the destination takes the message for its own |
| Messages.JourneyToLastPlace | pkg/netceptor/netceptor.go:1097-1137 | under any changing tables and names a message stops somewhere, having lost exactly as many hops as it was transmitted times, with its load and under the hashes it left with |
| Messages.LastStepIsClassified | pkg/netceptor/netceptor.go:1434-1504 | for every message but notices, readable or not: where it stops it is lost for a reason, or reported with a problem, if and only if the circumstances of that reason or problem hold there |
| Messages.LossIsClassified | pkg/netceptor/netceptor.go:1410-1504 | over whole journeys: arrived, published, answered or reported to the sender, or lost without a word at a known node for exactly one reason: rule, unreadable names, no route, no link, link cancelled, name too long, bad body, local service missing, listener closed, node gone |
| Messages.RelayMaySwallow | pkg/netceptor/netceptor.go:1111-1134 | a message with hops left that a node can read and should send on, but does not, is lost for want of a route, of a link, or of a link that takes it, and nobody is told |
| Messages.UnknownNameIsSwallowed | pkg/netceptor/netceptor.go:1735-1741 | a message sent to a node that has filed no name with the hash of its source or destination is lost there after one transmission, and nobody is told |
| Messages.JourneyIsBounded | pkg/netceptor/netceptor.go:1097-1137 | under arbitrary changing tables and firewalls a message is transmitted at most HopsToLive times and causes at most a ping reply and a notice, each within its own limit |
| Endless.RecursionEndsIff | pkg/netceptor/netceptor.go:1383-1504 | the mutual recursion of the handlers at a node ends if and only if the message does not make the node ping itself from its own ping service |
| Endless.SelfPingNeverReturns | pkg/netceptor/netceptor.go:1383-1385 | the failing input: a packet from and to the node's own ping service, with any hops and data, recurses to every depth |
| Endless.JourneyIsChain | pkg/netceptor/netceptor.go:1434-1504 | a journey ends where and how the chain of single handler steps does |
| Endless.PerpetualNeverEnds | pkg/netceptor/netceptor.go:1383-1385 | for every perpetual message to a name that is no alias, and every hash that keeps three names apart, no number of handler steps ends on linked hosts that know each other's names, have routes and no rules |
| Endless.AliasNeverEnds | pkg/netceptor/netceptor.go:1004-1019 | every perpetual message goes on for ever on hosts whose hash collides |
| Endless.NonPerpetualEnds | pkg/netceptor/netceptor.go:1434-1504 | every other message comes to an end from every node, whatever tables, links and rules do |
| Endless.EndsEverywhereIff | pkg/netceptor/netceptor.go:1383-1504 | the chain of handler steps ends on all meshes and from all nodes if and only if the message is not perpetual |
| Traceroute.JourneyAlong | pkg/netceptor/netceptor.go:1097-1137 | after k hops a message stands at the k-th node of the walk with k hops less to live |
| Traceroute.NoticeComesBack | pkg/netceptor/netceptor.go:1388-1421 | whatever the problem, rejected, expired or unknown service: where notices may pass, the notice is published at the source, comes from the node with the problem, quotes the message and names the problem |
| Traceroute.ReplyComesBack | pkg/netceptor/netceptor.go:1383-1385 | the reply of the target arrives at the pinging service |
| Traceroute.ShortPing | pkg/netceptor/ping.go:16-86 | a ping with i hops to a farther target reports expiry at the i-th node |
| Traceroute.LongPing | pkg/netceptor/ping.go:16-86 | a ping with exactly enough hops is answered by the target |
| Traceroute.PingWithoutRoute | pkg/netceptor/ping.go:68-71 | a ping that the source has no route or link for is an error at once |
| Traceroute.CreateTraceroute | pkg/netceptor/ping.go:100-127 | one result for each number of hops from zero to the first ping that does not expire, or to the hop limit; each names the node that answered and has failed unless that is the target or the hops ran out |
| Traceroute.TraceIsWalk | pkg/netceptor/ping.go:100-127 | for a target L hops away exactly L + 1 results, the i-th from the i-th node of the path, none failed |
| Traceroute.ConvergedIsTraceable | pkg/netceptor/ping.go:100-127 | every converged mesh within its hop limits meets the conditions of the traceroute theorem |
| Traceroute.ConvergedDelivers | pkg/netceptor/netceptor.go:1140-1159 | in a converged mesh where names get across, a message within its hop limit reaches the addressed listener unchanged but for its hops |
| RoutingProtocol.HandleKeepsNames | pkg/netceptor/netceptor.go:1345-1349 | under any update a node keeps on file its own name, its neighbours' and those of all nodes it has heard from |
| Delivery.RunKeepsNames | pkg/netceptor/netceptor.go:1267-1380 | in every run every node has filed the names of all nodes it has heard from |
| Delivery.QuietNames | pkg/netceptor/netceptor.go:1345-1349 | in a quiet mesh every node has filed the name of every node it is connected to, however far away |
| Delivery.NewMeshIsNamed | pkg/netceptor/netceptor.go:1881-1881 | nodes that have filed themselves and the neighbours they connected to start with names in order |
| Delivery.QuietIsPlain | pkg/netceptor/netceptor.go:1055-1137 | the hosts of a quiet mesh forward over their connections and read every name of their component, for every hash that keeps the filed names apart |
| Delivery.SettledMeshDelivers | pkg/netceptor/netceptor.go:1097-1164 | after every run that settles, a message with enough hops arrives under its own names at the service it is addressed to on any node its source is connected to |
| Delivery.SettledMeshTraces | pkg/netceptor/ping.go:100-127 | after every run that settles, a traceroute reports the nodes of the forwarding path in order, without failure |
| Framing.Framer.SendData | pkg/framer/framer.go:33-39 | refines `Frame`, wrapping lengths above 65535 |
| Framing.Framer.RecvData | pkg/framer/framer.go:42-46 | the chunk is appended to the buffer |
| Framing.Framer.MessageReady | pkg/framer/framer.go:49-65 | ready exactly when header and payload are complete |
| Framing.Framer.GetMessage | pkg/framer/framer.go:68-79 | the message framed again, followed by the new buffer, is the old buffer; without a message nothing changes |
| Framing.Drive | pkg/framer/framer.go:42-79 | a framer driven by any operations behaves like the reader on values |
| Framing.BytesConserved | pkg/framer/framer.go:42-79 | delivered messages framed again plus buffered bytes are the bytes fed |
| Framing.DeliveredIsPrefix | pkg/framer/framer.go:33-79 | for every chunking and interleaving the delivered messages are a prefix of those sent |
| Framing.AllDelivered | pkg/framer/framer.go:68-79 | once all bytes are in, a read fails if and only if all messages were delivered |
| Framing.RoundTripIff | pkg/framer/framer.go:33-39 | a frame gives back its message if and only if it has at most 65535 bytes |
| Codec.NameTable.constructor | pkg/netceptor/netceptor.go:319-344 | a new table is that of the node's own name filed |
| Codec.NameTable.AddNameHash | pkg/netceptor/netceptor.go:1004-1019 | the table stays what the sequence of filed names makes of it, extended by this name; the hash is that of the name, or of the own name for an alias of localhost |
| Codec.NameTable.TranslateDataToMessage | pkg/netceptor/netceptor.go:1055-1079 | refines `Decode`, failing on short packets and unknown hashes |
| Codec.NameTable.TranslateDataFromMessage | pkg/netceptor/netceptor.go:1082-1094 | refines `Encode` and files both node names |
| Codec.StringFromFixedLenBytes | pkg/netceptor/netceptor.go:1034-1044 | the loop removes exactly the trailing NULs |
| Codec.HeaderLayout | pkg/netceptor/netceptor.go:1082-1094 | type, hops, two spare bytes, both hashes with the high byte first, both services padded with NULs, the data |
| Codec.NameSurvivesIff | pkg/netceptor/netceptor.go:1034-1052 | a service name survives the fixed field if and only if it has at most 8 bytes and no trailing NUL |
| Codec.ReencodeIsTransparent | pkg/netceptor/netceptor.go:1055-1094 | decoding and encoding again keeps the hop byte and everything from byte 4 on, given only the table invariant |
| Codec.RelayIsTransparent | pkg/netceptor/netceptor.go:1123-1128 | over k stations with any filed names only the hop byte changes, by exactly k and without wrapping |
| Names.HashStandsForFirst | pkg/netceptor/netceptor.go:1004-1032 | after any sequence of names filed, a hash stands for the first of them that has it |
| Names.ReadAsIff | pkg/netceptor/netceptor.go:1022-1031 | a hash is read as a name if and only if it is the name's hash and the name was filed before any other with that hash |
| Names.AliasStandsForSelf | pkg/netceptor/netceptor.go:1005-1007 | any spelling of localhost is hashed as the node's own name, and any other name as itself |
| Codec.ArrivesIff | pkg/netceptor/netceptor.go:1055-1094 | decoding gives the message up to the cutting of service names if and only if both node names get across |
| Codec.RoundTripIff | pkg/netceptor/netceptor.go:1055-1094 | decoding gives back the message sent if and only if both node names were filed first under their hashes, neither is replaced by a name with another hash, and both service names fit |
| Names.CrossesIff | pkg/netceptor/netceptor.go:1004-1032 | where no other name has its hash, a name gets across if and only if the receiver filed it and it is no alias of the sender |
| Wire.DecodingIsReading | pkg/netceptor/netceptor.go:1055-1128 | decoding the bytes a node writes fails exactly when reading the packet fails, and otherwise gives the same message |
| Wire.NextHopDecodesIff | pkg/netceptor/netceptor.go:1055-1128 | the next node decodes the message that was meant if and only if both node names get across |
| KubeLogs.ProcessRendered | pkg/workceptor/kubernetes.go:1946-1967 | a stamped line is skipped exactly when it is not newer and nothing was written on this connection, otherwise its text and stamp come out |
| KubeLogs.ReadStream | pkg/workceptor/kubernetes.go:488-681 | the loop refines `ReadLines`: it processes the stream line by line and leaves the bytes after the last newline |
| KubeLogs.ReadLinesDelivers | pkg/workceptor/kubernetes.go:488-681 | for a stream from any earlier line, cut after any byte: exactly the whole lines not written before are written, and the fragment is the beginning of the line the cut is in |
| KubeLogs.WrittenIsUntil | pkg/workceptor/kubernetes.go:480-484 | asking for the log since the last stamp written is asking for the lines not yet written |
| KubeLogs.Follow | pkg/workceptor/kubernetes.go:477-490 | a reconnect that replays from any earlier line continues where the output ended |
| KubeLogs.Connect | pkg/workceptor/kubernetes.go:477-660 | one turn of the loop: it gives up on what cannot be recovered from, or when the breaks since the last session that wrote a line reach the number of retries; it completes on termination and connects again otherwise |
| KubeLogs.BreaksNext | pkg/workceptor/kubernetes.go:517-533 | a session that writes a line makes earlier breaks count no more, and one that breaks counts itself |
| KubeLogs.KubeLoggingWithReconnect | pkg/workceptor/kubernetes.go:430-685 | the loop connects again after every session until the first that terminates, cannot be recovered from or breaks once too often, and gives up or completes if and only if it is such; over any pattern of connections, each cut after any byte, the output is what the first lines of the log say, as many as some connection delivered whole; on completion it still is such a prefix if and only if the last cut is harmless |
| KubeLogs.TailIsLastPiece | pkg/workceptor/kubernetes.go:630-642 | what the fragment adds on termination, by the place of the cut |
| KubeLogs.PrefixIffHarmless | pkg/workceptor/kubernetes.go:630-642 | with that piece the output is what a prefix of the log says if and only if the cut is between lines, in a stamp that still reads as a time or spells the next text, in the text of a written line, or just after the space or just before the newline of an unwritten one |
| KubeLogs.UncutIsWhole | pkg/workceptor/kubernetes.go:630-642 | if the last connection delivered all there is, everything is written, with a newline after a last line that lacks one |
| KubeLogs.StampCutIsWritten | pkg/workceptor/kubernetes.go:630-642 | the failing cut: a replayed line cut inside its stamp puts out the piece of the stamp after the whole log |
| KubeLogs.StampCutRun | pkg/workceptor/kubernetes.go:630-642 | such a run put to the reader: its output is concrete and no prefix of what the log says |
| RemoteStdout.ServedIsPiece | pkg/workceptor/workceptor.go:581-604 | whatever the file and the reads do, the bytes served are a contiguous piece of the growing file from the start position on |
| RemoteStdout.ReadOnce | pkg/workceptor/workceptor.go:581-604 | a read returns exactly the bytes of the file at the position, as many as the read, the buffer of 65536 bytes and the file allow; the stream closes if and only if none are left, the unit is complete and the recorded size is reached |
| RemoteStdout.GetResults | pkg/workceptor/workceptor.go:546-621 | every turn sends all that its read returned; the stream closes with the first turn that meets the stop rule and with no other, and then all the file held and the recorded size have been sent |
| RemoteStdout.EnoughTurnsServeAll | pkg/workceptor/workceptor.go:562-604 | once a file has stopped growing, enough turns serve everything from the start position on |
| RemoteStdout.MonitorRound | pkg/workceptor/remote_work.go:499-613 | a turn appends exactly the part of the answer that arrived and keeps the local file a prefix; it finishes if and only if it is not cancelled, the unit is complete and the recorded size is held, and disconnects if and only if there is more to fetch and no connection |
| RemoteStdout.MonitorRemoteStdout | pkg/workceptor/remote_work.go:498-614 | over any disconnects the local file stays a prefix of the remote one, never shrinks and keeps all that arrives; the monitor stops with the first turn that says so, and stopping on completion means holding the recorded size |
| RemoteStdout.FinishedIsWhole | pkg/workceptor/remote_work.go:514-517 | if the recorded size is the final one, the finished mirror is the whole file |
| RemoteStdout.MirrorCompletes | pkg/workceptor/remote_work.go:498-614 | from any prefix there is a pattern of rounds in which the monitor finishes with the whole file |
| JobContexts.RunKeepsInv | pkg/utils/job_context.go:34-74 | the invariant tying waitgroups, workers, monitors and callers holds over all interleavings |
| JobContexts.NewJobWaitsForWorkers | pkg/utils/job_context.go:34-51 | a job is set up only when no worker of any earlier job is left |
| JobContexts.TrueMeansNewJob | pkg/utils/job_context.go:29-62 | in every run NewJob has answered true only if that very call took the lock when no worker of any job was left, and set up a new job with the context and workers it was given |
| JobContexts.FalseMeansRunning | pkg/utils/job_context.go:35-40 | in every run NewJob has answered false only if that very call asked for it and found a job running when it took the lock, and then nothing else changed |
| JobContexts.RunningMeansFalse | pkg/utils/job_context.go:35-40 | a call that asks to return if a job is running, and takes the lock while one is, answers false |
| JobContexts.WaitEndsWithWorkers | pkg/utils/job_context.go:41-44 | a call that waits for a job goes on only when no worker of that job is left |
| JobContexts.WorkersAreCounted | pkg/utils/job_context.go:64-66 | the workers a job has left are those it had less those that called WorkerDone since |
| JobContexts.EveryJobCanFinish | pkg/utils/job_context.go:46-66 | after any events, more events can bring the running job to its end |
| JobContexts.WorkerDoneHitsOwnJob | pkg/utils/job_context.go:64-66 | every WorkerDone counts against its own job and never drives a counter below zero |
| JobContexts.MonitorServesOwnJob | pkg/utils/job_context.go:52-58 | a monitor waits on, clears and cancels only the job it was started for |
| JobContexts.ContextsFollowJobs | pkg/utils/job_context.go:41-58 | the context of a job that is over, or that a caller had to wait for, is done; a job starts with a live context if and only if the context handed to NewJob is live |
| JobContexts.ContextEndsIff | pkg/utils/job_context.go:41-58 | a step ends the context of a job if and only if it cancels the job, ends its parent context, makes room for a new job or is the job's monitor |
| JobContexts.DoneForGood | pkg/utils/job_context.go:41-58 | over every run, a context once done stays done |
| Brokers.RunKeepsInv | pkg/utils/broker.go:37-67 | the broker invariant holds over all interleavings |
| Brokers.SubscriberSeesItsSlice | pkg/utils/broker.go:47-64 | until shutdown a subscriber has a prefix of its slice of the publish log, and all of it when the broker is idle |
| Brokers.RunHistory | pkg/utils/broker.go:47-64 | the log is the sequence of messages published, and a channel's part of it begins and ends with its subscription |
| Brokers.SubscriberSeesPublished | pkg/utils/broker.go:47-64 | whenever the broker is idle before shutdown, a subscriber has received exactly what was published since it subscribed |
| Brokers.HandOverCanFinish | pkg/utils/broker.go:51-63 | a message being handed over can reach every channel that waits for it, after which the broker is idle |
| Brokers.DoneIff | pkg/utils/broker.go:41-46 | the broker is shut down from the first shutdown on and not before |
| Brokers.ShutdownCanStop | pkg/utils/broker.go:41-46 | after a shutdown the broker can stop, and then every channel ever subscribed is closed |
| Brokers.ChannelsClosedOnce | pkg/utils/broker.go:41-60 | no run closes a channel twice or sends to a closed one |
| Backoff.DelaysAreFibonacci | pkg/workceptor/kubernetes.go:1362-1377 | from both starting pairs the k-th pair is a consecutive Fibonacci pair that stays at 233 and 377 |
| Backoff.SleepIsSafe | pkg/workceptor/kubernetes.go:302-316 | the product never overflows, sleeps grow with the multiplier and never exceed five minutes |
| Backoff.SleepIsProduct | pkg/workceptor/kubernetes.go:302-316 | the sleep is the product, or five minutes if the product is longer, even where it does not fit 64 bits |
| Backoff.NextIsSafe | pkg/workceptor/kubernetes.go:1362-1377 | a pair with a negative value starts over at 0 and 1, and any other moves on or stays without passing 400 |
| Backoff.StreamStdinWithRetry | pkg/workceptor/kubernetes.go:326-363 | at most the configured number of attempts, stopping at the first success or cancellation, with non-decreasing bounded delays |

## Left out

- Session set-up and tear-down in `runProtocol`: established links are given; a link that fails its checks is modelled, reconnection is not, nor the case in which a late initialisation request is ignored.
- Order-independence of the link-state map while neighbour lists are changing: deletion of reverse edges depends on arrival order then; all claims about maps are for phases in which updates in flight tell the truth.
- Service advertisements: their ordinary part repeats the flooding argument, and cancellations keep no record that such an argument could use.
- Goroutine-level detail of `flood` and of channel back-pressure: a packet handed to a connection is in flight until it is delivered.
- Floating-point rounding of path costs.
- 64-bit wrap-around of epochs and sequence numbers.
- JSON, HighwayHash, TLS, certificates, signatures, QUIC streams and the socket backends.
- Time-outs of pings: `Traceroute.Ping` assumes that an answer that is on its way is waited for.
- Write errors on the stdout file, log lines without a time stamp, logs with two equal stamps and rotated logs in `KubeLogs`.
- JobContexts.RunKeepsInv: takes the RunningLock as given, as in the JobContext that the repository shares between goroutines; two first calls of NewJob on an empty JobContext may each make their own lock.
- Names filed by sending data and by opening listeners: `Delivery` allows a host any further names, as long as no two of them share the hash of a live node.
- Liveness of `JobContext` and `Broker` under fair scheduling, beyond that they can always finish, and `Wait` called by goroutines other than `NewJob`.
- Control service, command line, configuration reload, proxies, work submission and the Python parts.
