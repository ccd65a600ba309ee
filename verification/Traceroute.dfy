/** Pings with a hop limit, and the traceroute built from them. */
module Traceroute {
  import opened Bytes
  import opened Graph
  import opened RouteSearch
  import opened Forwarding
  import opened Names
  import opened Messages
  import Options

  // ----- one ping

  datatype PingResult =
    | Reply(from: NodeId)
    | Error(from: NodeId, problem: Problem)
    | SendError(from: NodeId)
    | NoAnswer

  /** Names that a caller gets from `ListenPacket` and that survive the wire unchanged. */
  predicate PlainName(s: Service) {
    WireName(s) == s && s != PING && s != UNREACH
  }

  function Listening(hosts: Mesh, src: NodeId, service: Service): Mesh
    requires src in hosts
  {
    hosts[src := hosts[src].(listeners := hosts[src].listeners + {service})]
  }

  function PingMessage(src: NodeId, service: Service, target: NodeId, hopsToLive: Byte): Message {
    Message(src, service, if IsLocalhost(target) then src else target, PING, hopsToLive, Bytes([]))
  }

  function Heard(t: Tally, src: NodeId, service: Service): PingResult {
    if t.at != src then NoAnswer
    else match t.fate
      case Arrived(s, msg) => if s == service then Reply(msg.fromNode) else NoAnswer
      case Published(msg) =>
        if msg.data.Unreachable? && msg.data.fromNode == src && msg.data.fromService == service
        then Error(msg.fromNode, msg.data.problem)
        else NoAnswer
      case Lost(reason) =>
        if t.legs == [0] && reason != DroppedByRule && reason != ListenerClosed then SendError(src) else NoAnswer
  }

  function Ping(hosts: Mesh, src: NodeId, service: Service, target: NodeId, hopsToLive: Byte): PingResult
    requires src in hosts && PlainName(service)
  {
    var ping := Local(PingMessage(src, service, target, hopsToLive));
    Heard(Journey(Calm(Listening(hosts, src, service)), 0, src, ping), src, service)
  }

  // ----- messages on a mesh without firewalls

  /**
    Hosts forward by their tables, next hops are connected, nothing is being torn down, and every name
    gets across every link.
   */
  ghost predicate Fit(hosts: Mesh, tables: Tables) {
    (forall n :: n in tables ==> FitHost(hosts, tables, n)) && Legible(hosts, tables)
  }

  ghost predicate FitHost(hosts: Mesh, tables: Tables, n: NodeId)
    requires n in tables
  {
    && n in hosts && hosts[n].id == n && !IsLocalhost(n) && |hosts[n].cancelled| == 0 && |hosts[n].closing| == 0
    && hosts[n].table == tables[n].nextHop
    && forall d :: d in tables[n].nextHop ==> tables[n].nextHop[d] in hosts[n].links && tables[n].nextHop[d] in tables
  }

  /** And there are no rules anywhere. */
  ghost predicate Plain(hosts: Mesh, tables: Tables) {
    Fit(hosts, tables) && forall n :: n in tables && n in hosts ==> |hosts[n].rules| == 0
  }

  /** No firewall stops the message, whatever its hop count. */
  ghost predicate Lets(hosts: Mesh, tables: Tables, md: Message) {
    forall n :: n in tables && n in hosts ==> PassesAlways(hosts[n], md)
  }

  ghost predicate PassesAlways(h: Host, md: Message) {
    forall hops: Byte :: Passes(h, md.(hopsToLive := hops))
  }

  lemma PlainLets(hosts: Mesh, tables: Tables, md: Message)
    requires Plain(hosts, tables)
    ensures Lets(hosts, tables, md)
  {
  }

  ghost predicate Legible(hosts: Mesh, tables: Tables) {
    forall n, m, x {:trigger NameCrosses(hosts[n], hosts[m], x)} ::
      n in tables && m in tables && x in tables && n in hosts && m in hosts ==> NameCrosses(hosts[n], hosts[m], x)
  }

  function NodeAfter(tables: Tables, src: NodeId, dest: NodeId, k: nat): NodeId {
    Walk(tables, src, dest, k).node
  }

  /** The first k hops from src towards dest exist and do not start at dest. */
  ghost predicate Open(tables: Tables, src: NodeId, dest: NodeId, k: nat) {
    forall j :: 0 <= j < k ==>
      NodeAfter(tables, src, dest, j) != dest && HasHop(tables, NodeAfter(tables, src, dest, j), dest)
  }

  /** dest is exactly `length` hops away from src. */
  ghost predicate Route(tables: Tables, src: NodeId, dest: NodeId, length: nat) {
    Open(tables, src, dest, length) && NodeAfter(tables, src, dest, length) == dest
  }

  lemma {:induction false} RouteStaysInTables(hosts: Mesh, tables: Tables, src: NodeId, target: NodeId, k: nat)
    requires Fit(hosts, tables) && src in tables && Open(tables, src, target, k)
    ensures NodeAfter(tables, src, target, k) in tables
  {
    if k > 0 {
      RouteStaysInTables(hosts, tables, src, target, k - 1);
    }
  }

  predicate Clean(md: Message) {
    WireName(md.fromService) == md.fromService && WireName(md.toService) == md.toService
  }

  predicate SameEnd(a: Tally, b: Tally) {
    a.at == b.at && a.fate == b.fate
  }

  /** Two inputs that a node handles alike have the same journey. */
  lemma SameStepSameEnd(weather: Weather, time: nat, at: NodeId, a: Input, b: Input)
    requires !PingPong(a) && !PingPong(b) && StepAt(weather, time, at, a) == StepAt(weather, time, at, b)
    ensures SameEnd(Journey(weather, time, at, a), Journey(weather, time, at, b))
  {
    JourneyNext(weather, time, at, a);
    JourneyNext(weather, time, at, b);
  }

  /** The message at one node ends as the other does at the next node a moment later. */
  ghost predicate EndAlike(hosts: Mesh, time: nat, u: NodeId, md: Message, hop: NodeId, md': Message) {
    && !PingPong(Local(md)) && !PingPong(Local(md'))
    && SameEnd(Journey(Calm(hosts), time, u, Local(md)), Journey(Calm(hosts), time + 1, hop, Local(md')))
  }

  /** The message can make the hop from u. */
  ghost predicate Ready(hosts: Mesh, tables: Tables, u: NodeId, md: Message, hop: NodeId, md': Message) {
    && Fit(hosts, tables) && u in tables && Clean(md) && !PingPong(Local(md))
    && md.fromNode in tables && md.toNode in tables && u in hosts && Passes(hosts[u], md)
    && md.hopsToLive > 0 && u != md.toNode && HasHop(tables, u, md.toNode)
    && hop == tables[u].nextHop[md.toNode] && md' == md.(hopsToLive := md.hopsToLive - 1)
  }

  lemma JourneyHop(hosts: Mesh, tables: Tables, time: nat, u: NodeId, md: Message, hop: NodeId, md': Message)
    requires Ready(hosts, tables, u, md, hop, md')
    ensures EndAlike(hosts, time, u, md, hop, md')
  {
    assert FitHost(hosts, tables, u) && FitHost(hosts, tables, hop);
    var packet := Outgoing(hosts[u], md);
    assert HandleMessageData(hosts[u], md) == ForwardMessage(hosts[u], md) == Sent(hop, packet);
    assert NameCrosses(hosts[u], hosts[hop], md.fromNode) && NameCrosses(hosts[u], hosts[hop], md.toNode);
    ReadsRelayedIff(hosts[u], hosts[hop], md);
    assert Messages.Read(hosts[hop], packet) == Options.Some(md');
    JourneyNext(Calm(hosts), time, u, Local(md));
    SameStepSameEnd(Calm(hosts), time + 1, hop, Incoming(packet), Local(md'));
  }

  /** The end of the message after its i-th hop, seen from the i-th node of the walk. */
  function Ending(hosts: Mesh, tables: Tables, time: nat, u: NodeId, md: Message, i: nat): (NodeId, Fate)
    requires !PingPong(Local(md)) && i <= md.hopsToLive
  {
    var t := Journey(Calm(hosts), time + i, NodeAfter(tables, u, md.toNode, i),
                     Local(md.(hopsToLive := md.hopsToLive - i)));
    (t.at, t.fate)
  }

  ghost predicate EndingKept(hosts: Mesh, tables: Tables, time: nat, u: NodeId, md: Message, i: nat) {
    && !PingPong(Local(md)) && i < md.hopsToLive
    && Ending(hosts, tables, time, u, md, i) == Ending(hosts, tables, time, u, md, i + 1)
  }

  /** The message can make its first k hops from u. */
  ghost predicate Travels(hosts: Mesh, tables: Tables, u: NodeId, md: Message, k: nat) {
    && Fit(hosts, tables) && Lets(hosts, tables, md) && u in tables && Clean(md) && !PingPong(Local(md))
    && k <= md.hopsToLive && Open(tables, u, md.toNode, k) && md.fromNode in tables && md.toNode in tables
  }

  lemma WalkStep(hosts: Mesh, tables: Tables, u: NodeId, dest: NodeId, i: nat, k: nat)
    requires Fit(hosts, tables) && u in tables && Open(tables, u, dest, k) && i < k
    ensures var v := NodeAfter(tables, u, dest, i);
            && v in tables && v in hosts && v != dest && HasHop(tables, v, dest)
            && NodeAfter(tables, u, dest, i + 1) == tables[v].nextHop[dest]
  {
    RouteStaysInTables(hosts, tables, u, dest, i);
    assert FitHost(hosts, tables, NodeAfter(tables, u, dest, i));
  }

  lemma LetsAt(hosts: Mesh, tables: Tables, md: Message, n: NodeId, hops: Byte)
    requires Lets(hosts, tables, md) && n in tables && n in hosts
    ensures Passes(hosts[n], md.(hopsToLive := hops))
  {
    assert PassesAlways(hosts[n], md);
  }

  lemma NextIsReady(hosts: Mesh, tables: Tables, u: NodeId, md: Message, i: nat, k: nat)
    requires Travels(hosts, tables, u, md, k) && i < k
    ensures Ready(hosts, tables, NodeAfter(tables, u, md.toNode, i), md.(hopsToLive := md.hopsToLive - i),
                  NodeAfter(tables, u, md.toNode, i + 1), md.(hopsToLive := md.hopsToLive - (i + 1)))
  {
    WalkStep(hosts, tables, u, md.toNode, i, k);
    LetsAt(hosts, tables, md, NodeAfter(tables, u, md.toNode, i), md.hopsToLive - i);
  }

  lemma EndingNext(hosts: Mesh, tables: Tables, time: nat, u: NodeId, md: Message, i: nat)
    requires !PingPong(Local(md)) && i < md.hopsToLive
    requires Ready(hosts, tables, NodeAfter(tables, u, md.toNode, i), md.(hopsToLive := md.hopsToLive - i),
                   NodeAfter(tables, u, md.toNode, i + 1), md.(hopsToLive := md.hopsToLive - (i + 1)))
    ensures EndingKept(hosts, tables, time, u, md, i)
  {
    JourneyHop(hosts, tables, time + i, NodeAfter(tables, u, md.toNode, i), md.(hopsToLive := md.hopsToLive - i),
               NodeAfter(tables, u, md.toNode, i + 1), md.(hopsToLive := md.hopsToLive - (i + 1)));
  }

  lemma SameEnding(hosts: Mesh, tables: Tables, time: nat, u: NodeId, md: Message, k: nat)
    requires !PingPong(Local(md)) && k <= md.hopsToLive
    requires Ending(hosts, tables, time, u, md, 0) == Ending(hosts, tables, time, u, md, k)
    ensures SameEnd(Journey(Calm(hosts), time, u, Local(md)),
                    Journey(Calm(hosts), time + k, NodeAfter(tables, u, md.toNode, k),
                            Local(md.(hopsToLive := md.hopsToLive - k))))
  {
    assert md.(hopsToLive := md.hopsToLive - 0) == md;
  }

  lemma {:induction false} EndingConstant(hosts: Mesh, tables: Tables, time: nat, u: NodeId, md: Message, k: nat)
    requires !PingPong(Local(md)) && k <= md.hopsToLive
    requires forall i: nat :: i < k ==> EndingKept(hosts, tables, time, u, md, i)
    ensures Ending(hosts, tables, time, u, md, 0) == Ending(hosts, tables, time, u, md, k)
  {
    if k > 0 {
      assert EndingKept(hosts, tables, time, u, md, k - 1);
      EndingConstant(hosts, tables, time, u, md, k - 1);
    }
  }

  /** After k hops the message is at the k-th node of the walk, with k hops less to live. */
  lemma JourneyAlong(hosts: Mesh, tables: Tables, time: nat, u: NodeId, md: Message, k: nat)
    requires Travels(hosts, tables, u, md, k)
    ensures NodeAfter(tables, u, md.toNode, k) in tables
    ensures SameEnd(Journey(Calm(hosts), time, u, Local(md)),
                    Journey(Calm(hosts), time + k, NodeAfter(tables, u, md.toNode, k),
                            Local(md.(hopsToLive := md.hopsToLive - k))))
  {
    RouteStaysInTables(hosts, tables, u, md.toNode, k);
    forall i: nat | i < k
      ensures EndingKept(hosts, tables, time, u, md, i)
    {
      NextIsReady(hosts, tables, u, md, i, k);
      EndingNext(hosts, tables, time, u, md, i);
    }
    EndingConstant(hosts, tables, time, u, md, k);
    SameEnding(hosts, tables, time, u, md, k);
  }

  /** A message with enough hops to live ends at its destination, with the fate it has there. */
  lemma JourneyReaches(hosts: Mesh, tables: Tables, time: nat, u: NodeId, md: Message, length: nat)
    requires Fit(hosts, tables) && Lets(hosts, tables, md) && u in tables && Clean(md) && !PingPong(Local(md))
    requires Route(tables, u, md.toNode, length) && length <= md.hopsToLive && md.fromNode in tables
    ensures md.toNode in tables
    ensures SameEnd(Journey(Calm(hosts), time, u, Local(md)),
                    Journey(Calm(hosts), time + length, md.toNode, Local(md.(hopsToLive := md.hopsToLive - length))))
  {
    RouteStaysInTables(hosts, tables, u, md.toNode, length);
    JourneyAlong(hosts, tables, time, u, md, length);
  }

  /** The end of a message that is answered at once is the end of the answer. */
  lemma FirstAnswer(hosts: Mesh, time: nat, v: NodeId, md: Message, answer: Message)
    requires v in hosts && !PingPong(Local(md)) && !PingPong(Local(answer))
             && HandleMessageData(hosts[v], md) == Made(answer)
    ensures SameEnd(Journey(Calm(hosts), time, v, Local(md)), Journey(Calm(hosts), time + 1, v, Local(answer)))
  {
  }

  /** The firewalls let notices pass. */
  ghost predicate LetsNotices(hosts: Mesh, tables: Tables) {
    forall n, msg: Message :: n in tables && n in hosts && msg.fromService == UNREACH == msg.toService ==>
      Passes(hosts[n], msg)
  }

  /**
    Whatever the problem with a message at node v, be it rejected by a rule there, out of hops or
    for a service that is not there: if notices may pass, the message is reported to its source by a
    notice that comes from v, quotes the message and names the problem.
   */
  lemma NoticeComesBack(hosts: Mesh, tables: Tables, time: nat, v: NodeId, src: NodeId, md: Message, problem: Problem,
                        length: nat)
    requires Fit(hosts, tables) && LetsNotices(hosts, tables) && v in tables && !IsLocalhost(src)
    requires md.fromNode == src && md.fromService != UNREACH && !PingPong(Local(md))
    requires Route(tables, v, src, length) && v in hosts && length <= hosts[v].maxForwardingHops
    requires ReportedFor(hosts[v], md, problem)
    ensures var t := Journey(Calm(hosts), time, v, Local(md));
            && t.at == src && t.fate.Published? && t.fate.msg.fromNode == v
            && t.fate.msg.data == Unreachable(md.fromNode, md.toNode, md.fromService, md.toService, problem)
  {
    var notice := Notice(hosts[v], md, problem);
    ReservedNames();
    assert FitHost(hosts, tables, v);
    StopIsClassified(hosts[v], md, NoRoute, problem);
    FirstAnswer(hosts, time, v, md, notice);
    NoticeArrives(hosts, tables, time + 1, v, notice, length);
  }

  lemma NoticeArrives(hosts: Mesh, tables: Tables, time: nat, v: NodeId, notice: Message, length: nat)
    requires Fit(hosts, tables) && LetsNotices(hosts, tables) && v in tables && notice.fromNode == v
    requires notice.fromService == UNREACH == notice.toService && notice.data.Unreachable?
    requires Route(tables, v, notice.toNode, length) && length <= notice.hopsToLive
    ensures !PingPong(Local(notice))
    ensures var t := Journey(Calm(hosts), time, v, Local(notice));
            t.at == notice.toNode && t.fate == Published(notice.(hopsToLive := notice.hopsToLive - length))
  {
    ReservedNames();
    var src, last := notice.toNode, notice.(hopsToLive := notice.hopsToLive - length);
    JourneyReaches(hosts, tables, time, v, notice, length);
    assert FitHost(hosts, tables, src);
    assert HandleMessageData(hosts[src], last) == Ended(Published(last));
    JourneyNext(Calm(hosts), time + length, src, Local(last));
  }

  /** The reply to the ping, made at the target, arrives at the pinging service. */
  lemma ReplyComesBack(hosts: Mesh, tables: Tables, time: nat, target: NodeId, src: NodeId, md: Message, length: nat)
    requires Plain(hosts, tables) && target in tables && !IsLocalhost(src)
    requires md.fromNode == src && md.toNode == target && md.toService == PING && PlainName(md.fromService)
    requires Route(tables, target, src, length) && length <= hosts[target].maxForwardingHops
    requires src in hosts && md.fromService in hosts[src].listeners
    ensures var t := Journey(Calm(hosts), time, target, Local(md));
            t.at == src && t.fate.Arrived? && t.fate.service == md.fromService && t.fate.msg.fromNode == target
  {
    var reply := NewMessage(hosts[target], PING, src, md.fromService, Bytes([]));
    ReservedNames();
    assert HandleMessageData(hosts[target], md) == HandlePing(hosts[target], md) == Made(reply);
    FirstAnswer(hosts, time, target, md, reply);
    PlainLets(hosts, tables, reply);
    JourneyReaches(hosts, tables, time + 1, target, reply, length);
    var last := reply.(hopsToLive := reply.hopsToLive - length);
    assert HandleMessageData(hosts[src], last) == Ended(Arrived(md.fromService, last));
  }

  // ----- pings along a route

  /** Every node on the route can get a message back to the source within its hop limit. */
  ghost predicate Returns(hosts: Mesh, tables: Tables, src: NodeId, v: NodeId) {
    v in hosts && exists length :: 0 <= length <= hosts[v].maxForwardingHops && Route(tables, v, src, length)
  }

  /** The conditions of the traceroute theorem: target is L hops away, and every node on the way can answer. */
  ghost predicate Traceable(hosts: Mesh, tables: Tables, src: NodeId, target: NodeId, L: nat) {
    && Plain(hosts, tables) && src in tables
    && Route(tables, src, target, L) && L <= hosts[src].maxForwardingHops
    && forall i :: 0 <= i <= L ==> Returns(hosts, tables, src, NodeAfter(tables, src, target, i))
  }

  lemma ListeningLegible(hosts: Mesh, tables: Tables, src: NodeId, service: Service)
    requires Legible(hosts, tables) && src in hosts
    ensures Legible(Listening(hosts, src, service), tables)
  {
    var hosts' := Listening(hosts, src, service);
    forall n, m, x | n in tables && m in tables && x in tables && n in hosts' && m in hosts'
      ensures NameCrosses(hosts'[n], hosts'[m], x)
    {
      assert NameCrosses(hosts[n], hosts[m], x);
    }
  }

  lemma ListeningPlain(hosts: Mesh, tables: Tables, src: NodeId, service: Service)
    requires Plain(hosts, tables) && src in tables
    ensures Plain(Listening(hosts, src, service), tables)
  {
    ListeningLegible(hosts, tables, src, service);
    var hosts' := Listening(hosts, src, service);
    forall n | n in tables
      ensures FitHost(hosts', tables, n)
    {
      assert FitHost(hosts, tables, n);
    }
  }

  lemma ListeningTraceable(hosts: Mesh, tables: Tables, src: NodeId, service: Service, target: NodeId, L: nat)
    requires Traceable(hosts, tables, src, target, L)
    ensures Traceable(Listening(hosts, src, service), tables, src, target, L)
  {
    var hosts' := Listening(hosts, src, service);
    ListeningPlain(hosts, tables, src, service);
    forall i | 0 <= i <= L
      ensures Returns(hosts', tables, src, NodeAfter(tables, src, target, i))
    {
      var v := NodeAfter(tables, src, target, i);
      assert Returns(hosts, tables, src, v);
      var length :| 0 <= length <= hosts[v].maxForwardingHops && Route(tables, v, src, length);
      assert length <= hosts'[v].maxForwardingHops;
    }
  }

  /** A message with just enough hops gets to the node they take it to with none left. */
  lemma SpentJourney(hosts: Mesh, tables: Tables, src: NodeId, md: Message)
    requires Plain(hosts, tables) && src in tables && Open(tables, src, md.toNode, md.hopsToLive)
    requires PlainName(md.fromService) && md.toService == PING && md.fromNode in tables && md.toNode in tables
    ensures !PingPong(Local(md)) && !PingPong(Local(md.(hopsToLive := 0)))
    ensures SameEnd(Journey(Calm(hosts), 0, src, Local(md)),
                    Journey(Calm(hosts), md.hopsToLive, NodeAfter(tables, src, md.toNode, md.hopsToLive),
                            Local(md.(hopsToLive := 0))))
  {
    ReservedNames();
    PlainLets(hosts, tables, md);
    JourneyAlong(hosts, tables, 0, src, md, md.hopsToLive);
    assert md.(hopsToLive := md.hopsToLive - md.hopsToLive) == md.(hopsToLive := 0);
  }

  lemma ShortJourney(hosts: Mesh, tables: Tables, src: NodeId, v: NodeId, md: Message, length: nat)
    requires Plain(hosts, tables) && src in tables && v in tables && md.toNode in tables
    requires Open(tables, src, md.toNode, md.hopsToLive)
             && v == NodeAfter(tables, src, md.toNode, md.hopsToLive) != md.toNode
    requires length <= hosts[v].maxForwardingHops && Route(tables, v, src, length)
    requires md.fromNode == src && PlainName(md.fromService) && md.toService == PING
    ensures var t := Journey(Calm(hosts), 0, src, Local(md));
            && t.at == src && t.fate.Published? && t.fate.msg.fromNode == v
            && t.fate.msg.data == Unreachable(src, md.toNode, md.fromService, PING, ExpiredInTransit)
  {
    var spent := md.(hopsToLive := 0);
    SpentJourney(hosts, tables, src, md);
    assert FitHost(hosts, tables, v);
    NoticeComesBack(hosts, tables, md.hopsToLive, v, src, spent, ExpiredInTransit, length);
  }

  lemma OnRoute(hosts: Mesh, tables: Tables, src: NodeId, target: NodeId, L: nat, i: nat) returns (length: nat)
    requires Traceable(hosts, tables, src, target, L) && i <= L
    ensures var v := NodeAfter(tables, src, target, i);
            && v in tables && Open(tables, src, target, i) && (i < L ==> v != target)
            && length <= hosts[v].maxForwardingHops && Route(tables, v, src, length)
  {
    var v := NodeAfter(tables, src, target, i);
    assert Open(tables, src, target, i);
    RouteStaysInTables(hosts, tables, src, target, i);
    assert Returns(hosts, tables, src, v);
    length :| 0 <= length <= hosts[v].maxForwardingHops && Route(tables, v, src, length);
  }

  lemma ShortPing(hosts: Mesh, tables: Tables, src: NodeId, service: Service, target: NodeId, L: nat, i: Byte)
    requires Traceable(hosts, tables, src, target, L) && PlainName(service) && i < L
    ensures Ping(hosts, src, service, target, i) == Error(NodeAfter(tables, src, target, i), ExpiredInTransit)
  {
    ListeningTraceable(hosts, tables, src, service, target, L);
    TargetIsNoAlias(hosts, tables, src, target, L);
    var hosts' := Listening(hosts, src, service);
    var length := OnRoute(hosts', tables, src, target, L, i);
    ShortJourney(hosts', tables, src, NodeAfter(tables, src, target, i), PingMessage(src, service, target, i), length);
  }

  lemma LongJourney(hosts: Mesh, tables: Tables, src: NodeId, md: Message, length: nat)
    requires Plain(hosts, tables) && src in tables && md.toNode in tables
    requires Route(tables, src, md.toNode, md.hopsToLive)
    requires length <= hosts[md.toNode].maxForwardingHops && Route(tables, md.toNode, src, length)
    requires md.fromNode == src && PlainName(md.fromService) && md.toService == PING
             && md.fromService in hosts[src].listeners
    ensures var t := Journey(Calm(hosts), 0, src, Local(md));
            t.at == src && t.fate.Arrived? && t.fate.service == md.fromService && t.fate.msg.fromNode == md.toNode
  {
    SpentJourney(hosts, tables, src, md);
    ReplyComesBack(hosts, tables, md.hopsToLive, md.toNode, src, md.(hopsToLive := 0), length);
  }

  lemma LongPing(hosts: Mesh, tables: Tables, src: NodeId, service: Service, target: NodeId, L: nat)
    requires Traceable(hosts, tables, src, target, L) && PlainName(service)
    ensures Ping(hosts, src, service, target, L) == Reply(target)
  {
    ListeningTraceable(hosts, tables, src, service, target, L);
    TargetIsNoAlias(hosts, tables, src, target, L);
    var hosts' := Listening(hosts, src, service);
    var length := OnRoute(hosts', tables, src, target, L, L);
    LongJourney(hosts', tables, src, PingMessage(src, service, target, L), length);
  }

  /** A ping that the source itself cannot send is an error at once. */
  lemma PingWithoutRoute(hosts: Mesh, src: NodeId, service: Service, target: NodeId, hopsToLive: Byte)
    requires src in hosts && hosts[src].id == src && |hosts[src].rules| == 0 && PlainName(service)
    requires target != src && !IsLocalhost(target) && hopsToLive > 0
    requires target !in hosts[src].table || hosts[src].table[target] !in hosts[src].links
    ensures Ping(hosts, src, service, target, hopsToLive) == SendError(src)
  {
    ReservedNames();
  }

  lemma TargetIsNoAlias(hosts: Mesh, tables: Tables, src: NodeId, target: NodeId, L: nat)
    requires Traceable(hosts, tables, src, target, L)
    ensures target in tables && !IsLocalhost(target) && !IsLocalhost(src)
  {
    RouteStaysInTables(hosts, tables, src, target, L);
  }

  // ----- the traceroute

  datatype HopResult = HopResult(from: NodeId, failed: bool)

  function Sender(r: PingResult): NodeId {
    if r.NoAnswer? then NO_NODE else r.from
  }

  predicate Expired(r: PingResult) {
    r.Error? && r.problem == ExpiredInTransit
  }

  /** Pings a target with a given number of hops. */
  type Pinger = Byte -> PingResult

  function HopOf(r: PingResult): HopResult {
    HopResult(Sender(r), !r.Reply? && !Expired(r))
  }

  /**
    The result names the node that answered, and has failed unless that is the target or says that
    the hops ran out.
   */
  predicate IsHopOf(hop: HopResult, r: PingResult) {
    match r
    case Reply(from) => hop.from == from && !hop.failed
    case Error(from, problem) => hop.from == from && (hop.failed <==> problem != ExpiredInTransit)
    case SendError(from) => hop.from == from && hop.failed
    case NoAnswer => hop.failed
  }

  /** One result for each number of hops, from zero up to the first ping that does not expire, or to the hop limit. */
  ghost predicate TraceOf(pinger: Pinger, limit: Byte, results: seq<HopResult>) {
    && 0 < |results| <= limit + 1
    && (forall i: Byte :: i < |results| ==> results[i] == HopOf(pinger(i)) && IsHopOf(results[i], pinger(i)))
    && (forall i: Byte :: i < |results| - 1 ==> Expired(pinger(i)))
    && (|results| == limit + 1 || !Expired(pinger(|results| - 1)))
  }

  method CreateTraceroute(pinger: Pinger, limit: Byte) returns (results: seq<HopResult>)
    ensures TraceOf(pinger, limit, results)
  {
    results := [];
    var i := 0;
    while i <= limit
      invariant i == |results| <= limit + 1
      invariant forall j: Byte :: j < i ==> results[j] == HopOf(pinger(j)) && Expired(pinger(j))
    {
      var r := pinger(i);
      var failed := !r.Reply? && !Expired(r);
      results := results + [HopResult(Sender(r), failed)];
      if failed || r.Reply? {
        return;
      }
      i := i + 1;
    }
  }

  lemma TraceLength(pinger: Pinger, limit: Byte, results: seq<HopResult>, L: Byte)
    requires TraceOf(pinger, limit, results) && L <= limit
    requires !Expired(pinger(L)) && forall i: Byte :: i < L ==> Expired(pinger(i))
    ensures |results| == L + 1
  {
  }

  function PingerAt(hosts: Mesh, src: NodeId, service: Service, target: NodeId): Pinger
    requires src in hosts && PlainName(service)
  {
    (i: Byte) => Ping(hosts, src, service, target, i)
  }

  lemma TraceHop(hosts: Mesh, tables: Tables, src: NodeId, service: Service, target: NodeId, L: nat, i: Byte)
    requires Traceable(hosts, tables, src, target, L) && PlainName(service) && i <= L
    ensures var r := PingerAt(hosts, src, service, target)(i);
            HopOf(r) == HopResult(NodeAfter(tables, src, target, i), false) && (Expired(r) <==> i < L)
  {
    if i < L {
      ShortPing(hosts, tables, src, service, target, L, i);
    } else {
      LongPing(hosts, tables, src, service, target, L);
    }
  }

  /** The results name the nodes of the walk in order, each without failure. */
  ghost predicate ReportsWalk(tables: Tables, src: NodeId, target: NodeId, results: seq<HopResult>) {
    forall i :: 0 <= i < |results| ==> results[i] == HopResult(NodeAfter(tables, src, target, i), false)
  }

  /**
    For a target L hops away the traceroute reports the L + 1 nodes of the forwarding path in order,
    beginning with the source, and no failure.
   */
  lemma TraceIsWalk(hosts: Mesh, tables: Tables, src: NodeId, service: Service, target: NodeId, L: nat,
                    results: seq<HopResult>)
    requires Traceable(hosts, tables, src, target, L) && PlainName(service)
    requires TraceOf(PingerAt(hosts, src, service, target), hosts[src].maxForwardingHops, results)
    ensures |results| == L + 1 && ReportsWalk(tables, src, target, results)
  {
    var pinger := PingerAt(hosts, src, service, target);
    forall i: Byte | i <= L
      ensures HopOf(pinger(i)) == HopResult(NodeAfter(tables, src, target, i), false) && (Expired(pinger(i)) <==> i < L)
    {
      TraceHop(hosts, tables, src, service, target, L, i);
    }
    TraceLength(pinger, hosts[src].maxForwardingHops, results, L);
  }

  // ----- converged meshes are traceable

  lemma {:induction false} ConvergedRoute(truth: ConnectionMap, live: set<NodeId>, maps: map<NodeId, ConnectionMap>,
                                          tables: Tables,
                                          u: NodeId, dest: NodeId, k: nat) returns (length: nat)
    requires Converged(truth, live, maps, tables) && u in live && Reachable(truth, u, dest)
    requires NodeAfter(tables, u, dest, k) == dest
    ensures length <= k && Route(tables, u, dest, length)
    decreases k
  {
    if k > 0 && NodeAfter(tables, u, dest, k - 1) == dest {
      length := ConvergedRoute(truth, live, maps, tables, u, dest, k - 1);
    } else {
      length := k;
      forall j | 0 <= j < k
        ensures NodeAfter(tables, u, dest, j) != dest && HasHop(tables, NodeAfter(tables, u, dest, j), dest)
      {
        NotYetThere(tables, u, dest, j, k - 1);
        WalkInvariant(truth, live, maps, tables, u, dest, j);
        HopProgress(truth, live, maps, tables, NodeAfter(tables, u, dest, j), dest);
      }
    }
  }

  lemma {:induction false} NotYetThere(tables: Tables, u: NodeId, dest: NodeId, j: nat, k: nat)
    requires j <= k && NodeAfter(tables, u, dest, k) != dest
    ensures NodeAfter(tables, u, dest, j) != dest
    decreases k - j
  {
    if j < k {
      NotYetThere(tables, u, dest, j + 1, k);
    }
  }

  /**
    In a converged mesh without firewalls whose hop limits are not below the number of hops a simple
    path can have, traceroute works everywhere.
   */
  lemma ConvergedIsTraceable(truth: ConnectionMap, live: set<NodeId>, maps: map<NodeId, ConnectionMap>, tables: Tables,
                             hosts: Mesh, src: NodeId, target: NodeId) returns (L: nat)
    requires Converged(truth, live, maps, tables) && Plain(hosts, tables) && src in live && target in live
    requires forall u, v :: u in live && v in live ==> Reachable(truth, u, v)
    requires forall n :: n in live ==> hosts[n].maxForwardingHops >= |live| - 1
    ensures Traceable(hosts, tables, src, target, L)
  {
    var k := |live| - 1;
    ForwardingIsShortest(truth, live, maps, tables, src, target, k);
    L := ConvergedRoute(truth, live, maps, tables, src, target, k);
    forall i | 0 <= i <= L
      ensures Returns(hosts, tables, src, NodeAfter(tables, src, target, i))
    {
      var v := NodeAfter(tables, src, target, i);
      WalkInvariant(truth, live, maps, tables, src, target, i);
      ForwardingIsShortest(truth, live, maps, tables, v, src, k);
      var length := ConvergedRoute(truth, live, maps, tables, v, src, k);
    }
  }

  /** The message can be carried and is for a listener of its destination. */
  ghost predicate Addressed(hosts: Mesh, md: Message) {
    && Clean(md) && md.toService != PING && md.toService != UNREACH
    && md.toNode in hosts && md.toService in hosts[md.toNode].listeners
  }

  /** The message arrives where it is addressed to, unchanged but for its hops. */
  ghost predicate Delivers(hosts: Mesh, src: NodeId, md: Message, length: nat) {
    && !PingPong(Local(md)) && length <= md.hopsToLive
    && (var t := Journey(Calm(hosts), 0, src, Local(md));
        t.at == md.toNode && t.fate == Arrived(md.toService, md.(hopsToLive := md.hopsToLive - length)))
  }

  /** A message with enough hops for the route arrives at the listener it is addressed to. */
  lemma RouteDelivers(hosts: Mesh, tables: Tables, src: NodeId, md: Message, length: nat)
    requires Plain(hosts, tables) && src in tables && Route(tables, src, md.toNode, length) && length <= md.hopsToLive
    requires md.fromNode == src && Addressed(hosts, md)
    ensures Delivers(hosts, src, md, length)
  {
    PlainLets(hosts, tables, md);
    JourneyReaches(hosts, tables, 0, src, md, length);
    assert FitHost(hosts, tables, md.toNode);
    var last := md.(hopsToLive := md.hopsToLive - length);
    assert HandleMessageData(hosts[md.toNode], last) == Ended(Arrived(md.toService, last));
    JourneyNext(Calm(hosts), length, md.toNode, Local(last));
  }

  /**
    In a converged mesh without firewalls a message reaches the service it is addressed to, with its
    source and its data, if its hop limit is not below the number of hops a simple path can have.
   */
  lemma ConvergedDelivers(truth: ConnectionMap, live: set<NodeId>, maps: map<NodeId, ConnectionMap>, tables: Tables,
                          hosts: Mesh, src: NodeId, md: Message) returns (length: nat)
    requires Converged(truth, live, maps, tables) && Plain(hosts, tables) && src in live
             && Reachable(truth, src, md.toNode)
    requires md.fromNode == src && Addressed(hosts, md) && md.hopsToLive >= |live| - 1
    ensures Delivers(hosts, src, md, length)
  {
    var k := |live| - 1;
    ForwardingIsShortest(truth, live, maps, tables, src, md.toNode, k);
    length := ConvergedRoute(truth, live, maps, tables, src, md.toNode, k);
    RouteDelivers(hosts, tables, src, md, length);
  }
}
