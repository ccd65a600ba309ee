/**
  What a node does with a data message: reading the names in a packet, firewall, local dispatch,
  reserved services, forwarding with a hop limit, and the unreachable notices and ping replies this
  gives rise to.

  `HandleInput` is one call of the handler up to the point where it is done, calls itself with a
  message it made, or hands a packet to a connection.  JSON bodies are values of `Body`.
 */
module Messages {
  import opened Bytes
  import opened Options
  import opened Graph
  import opened Names

  type Service = string

  const PING: Service := "ping"
  const UNREACH: Service := "unreach"

  datatype Problem = ServiceUnknown | ExpiredInTransit | Rejected

  datatype Body =
    | Bytes(bytes: seq<Byte>)
    | Unreachable(fromNode: NodeId, toNode: NodeId, fromService: Service, toService: Service, problem: Problem)

  datatype Message = Message(
    fromNode: NodeId, fromService: Service, toNode: NodeId, toService: Service, hopsToLive: Byte, data: Body)

  /** A message on a link: hashes stand for the node names. */
  datatype Packet = Packet(
    from: UInt64, to: UInt64, fromService: Service, toService: Service, hopsToLive: Byte, data: Body)

  /** What the handler is called with: a message made at the node itself, or a packet from a connection. */
  datatype Input = Local(md: Message) | Incoming(packet: Packet)

  datatype Verdict = Continue | Accept | Reject | Drop

  type Rule = Message -> Verdict

  /**
    One node: the names it has filed, its routing table, its connections, its firewall and its
    listeners.  A cancelled link is one whose context is done when a packet is handed to it, and a
    closing listener one that goes away while a message waits for it.
   */
  datatype Host = Host(
    id: NodeId,
    maxForwardingHops: Byte,
    hash: NodeId -> UInt64,
    filed: seq<NodeId>,
    table: map<NodeId, NodeId>,
    links: set<NodeId>,
    cancelled: set<NodeId>,
    rules: seq<Rule>,
    listeners: set<Service>,
    closing: set<Service>
  )

  /** Why a message came to nothing. */
  datatype Loss =
    | DroppedByRule
    | UnreadableNames  // a packet with a hash under which the node has filed no name
    | NoRoute
    | NoLink
    | LinkCancelled
    | NameTooLong      // a ping whose reply could not be addressed
    | BadBody          // not the body of an unreachable message
    | NoSuchService    // a local caller is told at once
    | ListenerClosed
    | QuietNotice      // a notice that is rejected or expires is not answered
    | NodeGone

  datatype Fate =
    | Arrived(service: Service, msg: Message)
    | Published(msg: Message)
    | Lost(reason: Loss)

  /** What one call of the handler comes to. */
  datatype Step =
    | Ended(fate: Fate)
    | Made(msg: Message)
    | Sent(next: NodeId, packet: Packet)

  // ----- names

  /** A service name as it comes out of its eight-byte field. */
  function WireName(s: Service): (r: Service)
    ensures |r| <= 8 && (r == [] || r[|r| - 1] != '\0')
  {
    Strip(if |s| > 8 then s[..8] else s, '\0')
  }

  lemma WireNameTwice(s: Service)
    ensures WireName(WireName(s)) == WireName(s)
  {
    StripUnchanged(WireName(s), '\0');
  }

  lemma ReservedNames()
    ensures WireName(PING) == PING && WireName(UNREACH) == UNREACH
  {
    StripUnchanged(PING, '\0');
    StripUnchanged(UNREACH, '\0');
  }

  // ----- firewall

  /** The first verdict that is not Continue; a firewall that never decides lets the message pass. */
  function Decision(rules: seq<Rule>, md: Message): Verdict {
    if rules == [] then Accept
    else if rules[0](md) != Continue then rules[0](md)
    else Decision(rules[1..], md)
  }

  /** The i-th rule is the first that does not say Continue. */
  predicate Decides(rules: seq<Rule>, i: nat, md: Message) {
    i < |rules| && rules[i](md) != Continue && forall j :: 0 <= j < i ==> rules[j](md) == Continue
  }

  /** The loop over the rules; Continue from the last rule has no case of its own and is treated like Accept. */
  method CheckFirewall(rules: seq<Rule>, md: Message) returns (result: Verdict)
    ensures result == Decision(rules, md) || (result == Continue && Decision(rules, md) == Accept)
    ensures forall i: nat :: Decides(rules, i, md) ==> result == rules[i](md)
    ensures (forall i: nat :: !Decides(rules, i, md)) ==> result == if rules == [] then Accept else Continue
  {
    result := Accept;
    for i := 0 to |rules|
      invariant Decision(rules[i..], md) == Decision(rules, md)
      invariant forall j :: 0 <= j < i ==> rules[j](md) == Continue
      invariant i > 0 ==> result == Continue
      invariant i == 0 ==> result == Accept
    {
      result := rules[i](md);
      assert rules[i..][1..] == rules[i + 1..];
      if result != Continue {
        assert Decides(rules, i, md);
        return;
      }
    }
  }

  lemma {:induction false} FirstDecides(rules: seq<Rule>, i: nat, md: Message)
    requires Decides(rules, i, md)
    ensures Decision(rules, md) == rules[i](md)
  {
    if i > 0 {
      FirstDecides(rules[1..], i - 1, md);
    }
  }

  lemma {:induction false} NoneDecides(rules: seq<Rule>, md: Message)
    requires forall i: nat :: !Decides(rules, i, md)
    ensures Decision(rules, md) == Accept
  {
    if rules != [] {
      assert !Decides(rules, 0, md);
      forall i: nat
        ensures !Decides(rules[1..], i, md)
      {
        assert !Decides(rules, i + 1, md);
      }
      NoneDecides(rules[1..], md);
    }
  }

  predicate Passes(h: Host, md: Message) {
    Decision(h.rules, md) != Drop && Decision(h.rules, md) != Reject
  }

  // ----- the handlers

  function NamingOf(h: Host): Naming {
    Naming(h.id, h.hash)
  }

  function NewMessage(h: Host, fromService: Service, toNode: NodeId, toService: Service, data: Body): Message {
    Message(h.id, fromService, if IsLocalhost(toNode) then h.id else toNode, toService, h.maxForwardingHops, data)
  }

  /** The limit on names is checked before anything is sent. */
  function SendMessage(h: Host, fromService: Service, toNode: NodeId, toService: Service, data: Body): Step {
    if |fromService| > 8 || |toService| > 8 then Ended(Lost(NameTooLong))
    else Made(NewMessage(h, fromService, toNode, toService, data))
  }

  /** The notice that md cannot be delivered. */
  function Notice(h: Host, md: Message, problem: Problem): Message {
    NewMessage(h, UNREACH, md.fromNode, UNREACH,
               Unreachable(md.fromNode, md.toNode, md.fromService, md.toService, problem))
  }

  function SendUnreachable(h: Host, md: Message, problem: Problem): Step {
    var n := Notice(h, md, problem);
    SendMessage(h, n.fromService, md.fromNode, n.toService, n.data)
  }

  function HandlePing(h: Host, md: Message): Step {
    SendMessage(h, PING, md.fromNode, md.fromService, Bytes([]))
  }

  function HandleUnreachable(md: Message): Step {
    Ended(if md.data.Unreachable? then Published(md) else Lost(BadBody))
  }

  /** The packet that carries a message over its next link. */
  function Outgoing(h: Host, md: Message): Packet
    requires md.hopsToLive > 0
  {
    Packet(HashOf(NamingOf(h), md.fromNode), HashOf(NamingOf(h), md.toNode),
           WireName(md.fromService), WireName(md.toService), md.hopsToLive - 1, md.data)
  }

  function ForwardMessage(h: Host, md: Message): Step {
    if md.hopsToLive == 0 then
      if md.fromService != UNREACH then SendUnreachable(h, md, ExpiredInTransit) else Ended(Lost(QuietNotice))
    else if md.toNode !in h.table then Ended(Lost(NoRoute))
    else if h.table[md.toNode] !in h.links then Ended(Lost(NoLink))
    else if h.table[md.toNode] in h.cancelled then Ended(Lost(LinkCancelled))
    else Sent(h.table[md.toNode], Outgoing(h, md))
  }

  function HandleMessageData(h: Host, md: Message): Step {
    var verdict := Decision(h.rules, md);
    if verdict == Drop then Ended(Lost(DroppedByRule))
    else if verdict == Reject then
      if md.fromService != UNREACH then SendUnreachable(h, md, Rejected) else Ended(Lost(QuietNotice))
    else if md.toNode != h.id then ForwardMessage(h, md)
    else if md.toService == PING then HandlePing(h, md)
    else if md.toService == UNREACH then HandleUnreachable(md)
    else if md.toService !in h.listeners then
      if md.fromNode == h.id then Ended(Lost(NoSuchService)) else SendUnreachable(h, md, ServiceUnknown)
    else if md.toService in h.closing then Ended(Lost(ListenerClosed))
    else Ended(Arrived(md.toService, md))
  }

  /** The message in a packet, with the names that this node has filed under the hashes. */
  function Read(h: Host, p: Packet): Option<Message> {
    var table := Filed(NamingOf(h), h.filed);
    if p.from !in table || p.to !in table then None
    else Some(Message(table[p.from], p.fromService, table[p.to], p.toService, p.hopsToLive, p.data))
  }

  /** A packet that cannot be read is dropped before the handler sees it. */
  function HandleInput(h: Host, i: Input): Step {
    match i
    case Local(md) => HandleMessageData(h, md)
    case Incoming(p) =>
      match Read(h, p)
      case None => Ended(Lost(UnreadableNames))
      case Some(md) => HandleMessageData(h, md)
  }

  // ----- what the firewall does to a message

  /**
    The first rule that decides settles the message: Drop loses it, Reject makes a notice to its source
    that quotes it, or loses it if it is a notice itself, and Accept lets it through as if there were
    no rules.
   */
  lemma FirewallSettles(h: Host, md: Message, i: nat)
    requires Decides(h.rules, i, md)
    ensures match h.rules[i](md)
            case Drop => HandleMessageData(h, md) == Ended(Lost(DroppedByRule))
            case Reject =>
              if md.fromService == "unreach" then HandleMessageData(h, md) == Ended(Lost(QuietNotice))
              else HandleMessageData(h, md).Made? && Reports(h, md, Rejected, HandleMessageData(h, md).msg)
            case Accept => HandleMessageData(h, md) == HandleMessageData(h.(rules := []), md)
            case Continue => false
  {
    FirstDecides(h.rules, i, md);
    NoticeReports(h, md, Rejected);
  }

  lemma UndecidedPasses(h: Host, md: Message)
    requires forall i: nat :: !Decides(h.rules, i, md)
    ensures HandleMessageData(h, md) == HandleMessageData(h.(rules := []), md)
  {
    NoneDecides(h.rules, md);
  }

  /** A message from the node to the source of md, with a fresh hop count, that quotes md and names the problem. */
  predicate Reports(h: Host, md: Message, problem: Problem, msg: Message) {
    && msg.fromNode == h.id && msg.fromService == "unreach" == msg.toService
    && msg.toNode == (if IsLocalhost(md.fromNode) then h.id else md.fromNode) && msg.hopsToLive == h.maxForwardingHops
    && msg.data == Unreachable(md.fromNode, md.toNode, md.fromService, md.toService, problem)
  }

  lemma NoticeReports(h: Host, md: Message, problem: Problem)
    ensures SendUnreachable(h, md, problem).Made? && Reports(h, md, problem, SendUnreachable(h, md, problem).msg)
  {
  }

  // ----- reading names

  /** A message as the next hop decodes it, when both node names get across. */
  function Relayed(md: Message): Message
    requires md.hopsToLive > 0
  {
    md.(fromService := WireName(md.fromService), toService := WireName(md.toService), hopsToLive := md.hopsToLive - 1)
  }

  ghost predicate NameCrosses(sender: Host, receiver: Host, name: NodeId) {
    Crosses(NamingOf(sender), NamingOf(receiver), receiver.filed, name)
  }

  /** The next node reads the message that was meant if and only if both node names get across. */
  lemma ReadsRelayedIff(sender: Host, receiver: Host, md: Message)
    requires md.hopsToLive > 0
    ensures Read(receiver, Outgoing(sender, md)) == Some(Relayed(md)) <==>
              NameCrosses(sender, receiver, md.fromNode) && NameCrosses(sender, receiver, md.toNode)
  {
    ReadAsIff(NamingOf(receiver), receiver.filed, HashOf(NamingOf(sender), md.fromNode), md.fromNode);
    ReadAsIff(NamingOf(receiver), receiver.filed, HashOf(NamingOf(sender), md.toNode), md.toNode);
  }

  /** The node has filed no name under one of the two hashes. */
  ghost predicate Unreadable(h: Host, p: Packet) {
    Unfiled(NamingOf(h), h.filed, p.from) || Unfiled(NamingOf(h), h.filed, p.to)
  }

  /** Among the names filed, the first with the hash is the one the packet is read with. */
  ghost predicate ReadFirst(h: Host, hash: UInt64, name: NodeId) {
    h.hash(name) == hash && FiledFirst(NamingOf(h), h.filed, name)
  }

  lemma ReadIff(h: Host, p: Packet)
    ensures Read(h, p).None? <==> Unreadable(h, p)
    ensures Read(h, p).Some? ==>
              ReadFirst(h, p.from, Read(h, p).value.fromNode) && ReadFirst(h, p.to, Read(h, p).value.toNode)
  {
    var nm := NamingOf(h);
    forall x | x == p.from || x == p.to
      ensures x in Filed(nm, h.filed) <==> !Unfiled(nm, h.filed, x)
      ensures x in Filed(nm, h.filed) ==> ReadFirst(h, x, Filed(nm, h.filed)[x])
    {
      if Unfiled(nm, h.filed, x) {
        UnfiledIsAbsent(nm, h.filed, x);
      } else {
        var i := FirstExists(nm, h.filed, x);
        HashStandsForFirst(nm, h.filed, i, x);
        ReadAsIff(nm, h.filed, x, Filed(nm, h.filed)[x]);
      }
    }
  }

  /** A node sends a packet on with the hashes it came with, whatever names it read them as. */
  lemma HashesKept(h: Host, p: Packet)
    requires Read(h, p).Some? && p.hopsToLive > 0
    ensures var q := Outgoing(h, Read(h, p).value);
            q.from == p.from && q.to == p.to
  {
    FiledIsOk(NamingOf(h), h.filed);
  }

  /**
    What a collision does: if a node comes first under the hash of the destination, it takes a message
    that was meant for another node for its own.
   */
  lemma CollisionMisdelivers(h: Host, p: Packet)
    requires ReadFirst(h, p.to, h.id) && !Unfiled(NamingOf(h), h.filed, p.from)
    ensures Read(h, p).Some? && Read(h, p).value.toNode == h.id
  {
    ReadIff(h, p);
    ReadAsIff(NamingOf(h), h.filed, p.to, h.id);
  }

  // ----- how many messages a message can still give rise to

  function FromService(i: Input): Service {
    if i.Local? then i.md.fromService else i.packet.fromService
  }

  function ToService(i: Input): Service {
    if i.Local? then i.md.toService else i.packet.toService
  }

  function HopsToLive(i: Input): Byte {
    if i.Local? then i.md.hopsToLive else i.packet.hopsToLive
  }

  function Data(i: Input): Body {
    if i.Local? then i.md.data else i.packet.data
  }

  /** Both ends are the ping service once the names have crossed a link. */
  predicate PingPong(i: Input) {
    WireName(FromService(i)) == PING && WireName(ToService(i)) == PING
  }

  /** A ping can be answered and the answer can be undeliverable; a notice gives rise to nothing. */
  function Rank(i: Input): nat {
    if WireName(ToService(i)) == PING then 2
    else if FromService(i) == UNREACH && ToService(i) == UNREACH then 0
    else 1
  }

  lemma NoticeIsLast(h: Host, md: Message, problem: Problem)
    ensures !PingPong(Local(Notice(h, md, problem))) && Rank(Local(Notice(h, md, problem))) == 0
    ensures SendUnreachable(h, md, problem) == Made(Notice(h, md, problem))
  {
    ReservedNames();
  }

  lemma ReplyIsLess(h: Host, md: Message)
    requires !PingPong(Local(md)) && md.toService == PING
    ensures Rank(Local(md)) == 2
    ensures var s := HandlePing(h, md);
            s.Made? ==> !PingPong(Local(s.msg)) && Rank(Local(s.msg)) <= 1
  {
    ReservedNames();
  }

  lemma OutgoingIsNoMore(h: Host, md: Message)
    requires md.hopsToLive > 0
    ensures PingPong(Incoming(Outgoing(h, md))) <==> PingPong(Local(md))
    ensures Rank(Incoming(Outgoing(h, md))) <= Rank(Local(md))
  {
    WireNameTwice(md.fromService);
    WireNameTwice(md.toService);
    ReservedNames();
  }

  /** The only messages made are notices for messages that are no notices, and replies to pings. */
  lemma StepShape(h: Host, md: Message)
    ensures var s := HandleMessageData(h, md);
            && (s.Made? && s.msg.fromService == UNREACH ==>
                  && s.msg.data.Unreachable? && s.msg == Notice(h, md, s.msg.data.problem)
                  && !(md.fromService == UNREACH == md.toService))
            && (s.Made? && s.msg.fromService != UNREACH ==>
                  && Passes(h, md) && md.toNode == h.id && md.toService == PING
                  && s == HandlePing(h, md) && s.msg.fromService == PING)
            && (s.Sent? ==> md.hopsToLive > 0 && s.packet == Outgoing(h, md))
  {
  }

  ghost predicate Lowers(i: Input, s: Step, limit: Byte) {
    && (s.Made? ==> !PingPong(Local(s.msg)) && Rank(Local(s.msg)) < Rank(i) && s.msg.hopsToLive == limit)
    && (s.Made? ==> s.msg.fromService == UNREACH || (s.msg.fromService == PING && Rank(i) == 2))
    && (s.Sent? ==>
          && !PingPong(Incoming(s.packet)) && Rank(Incoming(s.packet)) <= Rank(i)
          && s.packet.hopsToLive + 1 == HopsToLive(i))
  }

  lemma MessageLowers(h: Host, md: Message)
    requires !PingPong(Local(md))
    ensures Lowers(Local(md), HandleMessageData(h, md), h.maxForwardingHops)
  {
    var s := HandleMessageData(h, md);
    StepShape(h, md);
    if s.Made? && s.msg.fromService == UNREACH {
      NoticeIsLast(h, md, s.msg.data.problem);
    } else if s.Made? {
      ReplyIsLess(h, md);
    } else if s.Sent? {
      OutgoingIsNoMore(h, md);
    }
  }

  /** A message made is worth less than the one it was made for, and a message sent on has one hop less. */
  lemma StepLowers(h: Host, i: Input)
    requires !PingPong(i)
    ensures Lowers(i, HandleInput(h, i), h.maxForwardingHops)
  {
    match i
    case Local(md) => MessageLowers(h, md);
    case Incoming(p) =>
      if Read(h, p).Some? {
        MessageLowers(h, Read(h, p).value);
      }
  }

  // ----- the whole journey of a message and of everything it gives rise to

  /** The mesh at a moment; names, tables, links, firewalls and listeners may all change between two steps. */
  type Mesh = map<NodeId, Host>
  type Weather = nat -> Mesh

  function Calm(hosts: Mesh): Weather {
    (time: nat) => hosts
  }

  function StepAt(weather: Weather, time: nat, at: NodeId, i: Input): Step {
    if at in weather(time) then HandleInput(weather(time)[at], i) else Ended(Lost(NodeGone))
  }

  lemma StepAtLowers(weather: Weather, time: nat, at: NodeId, i: Input)
    requires !PingPong(i)
    ensures Lowers(i, StepAt(weather, time, at, i),
                   if at in weather(time) then weather(time)[at].maxForwardingHops else 0)
    ensures StepAt(weather, time, at, i).Made? ==> at in weather(time)
  {
    if at in weather(time) {
      StepLowers(weather(time)[at], i);
    }
  }

  /**
    How often each message was transmitted (the original first, then every message made, in order),
    the messages made, and the end.
   */
  datatype Tally = Tally(legs: seq<nat>, created: seq<Message>, at: NodeId, fate: Fate)

  function Journey(weather: Weather, time: nat, at: NodeId, i: Input): (t: Tally)
    requires !PingPong(i)
    ensures |t.legs| == |t.created| + 1
    decreases HopsToLive(i) + 256 * Rank(i)
  {
    StepAtLowers(weather, time, at, i);
    match StepAt(weather, time, at, i)
    case Ended(fate) => Tally([0], [], at, fate)
    case Made(msg) =>
      var rest := Journey(weather, time + 1, at, Local(msg));
      Tally([0] + rest.legs, [msg] + rest.created, rest.at, rest.fate)
    case Sent(next, packet) =>
      var rest := Journey(weather, time + 1, next, Incoming(packet));
      Tally(rest.legs[0 := rest.legs[0] + 1], rest.created, rest.at, rest.fate)
  }

  /** Where the journey goes on after a step that does not end it. */
  function NextAt(at: NodeId, s: Step): NodeId
    requires !s.Ended?
  {
    if s.Sent? then s.next else at
  }

  function NextInput(s: Step): Input
    requires !s.Ended?
  {
    if s.Sent? then Incoming(s.packet) else Local(s.msg)
  }

  lemma JourneyNext(weather: Weather, time: nat, at: NodeId, i: Input)
    requires !PingPong(i)
    ensures var t, s := Journey(weather, time, at, i), StepAt(weather, time, at, i);
            if s.Ended? then t.at == at && t.fate == s.fate
            else
              && !PingPong(NextInput(s))
              && (var rest := Journey(weather, time + 1, NextAt(at, s), NextInput(s));
                  t.at == rest.at && t.fate == rest.fate)
  {
    StepAtLowers(weather, time, at, i);
  }

  /** The first message travels at most `first` times, every later one at most `limit` times. */
  ghost predicate Within(legs: seq<nat>, first: nat, limit: nat) {
    |legs| > 0 && legs[0] <= first && forall i :: 0 < i < |legs| ==> legs[i] <= limit
  }

  lemma WithinAfterMaking(legs: seq<nat>, first: nat, limit: nat)
    requires Within(legs, limit, limit)
    ensures Within([0] + legs, first, limit)
  {
  }

  lemma WithinAfterSending(legs: seq<nat>, first: nat, limit: nat)
    requires Within(legs, first, limit)
    ensures Within(legs[0 := legs[0] + 1], first + 1, limit)
  {
  }

  ghost predicate Limited(weather: Weather, limit: nat) {
    forall t: nat, n :: n in weather(t) ==> weather(t)[n].maxForwardingHops <= limit
  }

  ghost predicate LegsOk(weather: Weather, time: nat, at: NodeId, i: Input, limit: nat) {
    !PingPong(i) && Within(Journey(weather, time, at, i).legs, HopsToLive(i), limit)
  }

  lemma LegsAtEnd(weather: Weather, time: nat, at: NodeId, i: Input, limit: nat)
    requires !PingPong(i) && StepAt(weather, time, at, i).Ended?
    ensures LegsOk(weather, time, at, i, limit)
  {
  }

  lemma LegsAfterMaking(weather: Weather, time: nat, at: NodeId, i: Input, limit: nat)
    requires !PingPong(i) && StepAt(weather, time, at, i).Made? && StepAt(weather, time, at, i).msg.hopsToLive <= limit
    requires LegsOk(weather, time + 1, at, Local(StepAt(weather, time, at, i).msg), limit)
    ensures LegsOk(weather, time, at, i, limit)
  {
    StepAtLowers(weather, time, at, i);
    var rest := Journey(weather, time + 1, at, Local(StepAt(weather, time, at, i).msg));
    WithinAfterMaking(rest.legs, HopsToLive(i), limit);
  }

  lemma LegsAfterSending(weather: Weather, time: nat, at: NodeId, i: Input, limit: nat)
    requires !PingPong(i) && StepAt(weather, time, at, i).Sent?
    requires var s := StepAt(weather, time, at, i);
             LegsOk(weather, time + 1, s.next, Incoming(s.packet), limit)
    ensures LegsOk(weather, time, at, i, limit)
  {
    var s := StepAt(weather, time, at, i);
    StepAtLowers(weather, time, at, i);
    WithinAfterSending(Journey(weather, time + 1, s.next, Incoming(s.packet)).legs, s.packet.hopsToLive, limit);
  }

  lemma LegsNext(weather: Weather, time: nat, at: NodeId, i: Input, limit: nat)
    requires !PingPong(i) && Limited(weather, limit) && !StepAt(weather, time, at, i).Ended?
    requires var s := StepAt(weather, time, at, i);
             LegsOk(weather, time + 1, NextAt(at, s), NextInput(s), limit)
    ensures LegsOk(weather, time, at, i, limit)
  {
    StepAtLowers(weather, time, at, i);
    if StepAt(weather, time, at, i).Made? {
      assert weather(time)[at].maxForwardingHops <= limit;
      LegsAfterMaking(weather, time, at, i, limit);
    } else {
      LegsAfterSending(weather, time, at, i, limit);
    }
  }

  /** What bounds the number of steps. */
  function Measure(i: Input): nat {
    HopsToLive(i) + 256 * Rank(i)
  }

  lemma StepDecreases(weather: Weather, time: nat, at: NodeId, i: Input)
    requires !PingPong(i) && !StepAt(weather, time, at, i).Ended?
    ensures var next := NextInput(StepAt(weather, time, at, i));
            !PingPong(next) && Measure(next) < Measure(i)
  {
    StepAtLowers(weather, time, at, i);
  }

  lemma {:induction false} JourneyLegs(weather: Weather, time: nat, at: NodeId, i: Input, limit: nat)
    requires !PingPong(i) && Limited(weather, limit)
    ensures LegsOk(weather, time, at, i, limit)
    decreases Measure(i)
  {
    var s := StepAt(weather, time, at, i);
    if s.Ended? {
      LegsAtEnd(weather, time, at, i, limit);
    } else {
      StepDecreases(weather, time, at, i);
      JourneyLegs(weather, time + 1, NextAt(at, s), NextInput(s), limit);
      LegsNext(weather, time, at, i, limit);
    }
  }

  /** Every message made is a notice, except that the first may be a ping reply if the message is a ping. */
  ghost predicate Consequences(i: Input, created: seq<Message>) {
    && |created| <= Rank(i)
    && forall k :: 0 <= k < |created| ==>
         created[k].fromService == UNREACH || (k == 0 && created[k].fromService == PING && Rank(i) == 2)
  }

  lemma ConsequencesAfterMaking(i: Input, msg: Message, created: seq<Message>)
    requires Consequences(Local(msg), created) && Rank(Local(msg)) < Rank(i)
    requires msg.fromService == UNREACH || (msg.fromService == PING && Rank(i) == 2)
    ensures Consequences(i, [msg] + created)
  {
  }

  lemma {:induction false} JourneyConsequences(weather: Weather, time: nat, at: NodeId, i: Input)
    requires !PingPong(i)
    ensures Consequences(i, Journey(weather, time, at, i).created)
    decreases HopsToLive(i) + 256 * Rank(i)
  {
    StepAtLowers(weather, time, at, i);
    match StepAt(weather, time, at, i)
    case Ended(_) =>
    case Made(msg) =>
      JourneyConsequences(weather, time + 1, at, Local(msg));
      ConsequencesAfterMaking(i, msg, Journey(weather, time + 1, at, Local(msg)).created);
    case Sent(next, packet) => JourneyConsequences(weather, time + 1, next, Incoming(packet));
  }

  /**
    Whatever the tables and firewalls do, even while they loop or change, a message that is not a
    ping from the ping service itself is transmitted at most HopsToLive times; it gives rise to at
    most two messages, a ping reply and an unreachable notice, each transmitted within its own limit.
   */
  lemma JourneyIsBounded(weather: Weather, time: nat, at: NodeId, i: Input, limit: nat)
    requires !PingPong(i) && Limited(weather, limit)
    ensures var t := Journey(weather, time, at, i);
            && Within(t.legs, HopsToLive(i), limit)
            && |t.created| <= 2
            && Consequences(i, t.created)
  {
    JourneyLegs(weather, time, at, i, limit);
    JourneyConsequences(weather, time, at, i);
  }

  // ----- where a message stops and what its sender can learn of it

  /** The message on its way: at a node, not yet handled there. */
  datatype Place = Place(time: nat, at: NodeId, input: Input)

  /** The place from which the message is not sent on. */
  function LastPlace(weather: Weather, time: nat, at: NodeId, i: Input): Place
    decreases HopsToLive(i)
  {
    match StepAt(weather, time, at, i)
    case Sent(next, packet) =>
      assert packet.hopsToLive < HopsToLive(i);
      LastPlace(weather, time + 1, next, Incoming(packet))
    case _ => Place(time, at, i)
  }

  /** The same message up to node names, hops, and the part of a service name that is lost on the wire. */
  predicate SameLoad(a: Input, b: Input) {
    && Data(a) == Data(b)
    && WireName(FromService(a)) == WireName(FromService(b)) && WireName(ToService(a)) == WireName(ToService(b))
  }

  /** The hashes that stand for the node names when the message leaves this node. */
  function FromHash(h: Host, i: Input): UInt64 {
    if i.Local? then HashOf(NamingOf(h), i.md.fromNode) else i.packet.from
  }

  function ToHash(h: Host, i: Input): UInt64 {
    if i.Local? then HashOf(NamingOf(h), i.md.toNode) else i.packet.to
  }

  lemma SentKeepsLoad(h: Host, i: Input)
    requires HandleInput(h, i).Sent?
    ensures var p := HandleInput(h, i).packet;
            && SameLoad(i, Incoming(p)) && (PingPong(i) <==> PingPong(Incoming(p))) && p.hopsToLive + 1 == HopsToLive(i)
            && p.from == FromHash(h, i) && p.to == ToHash(h, i)
  {
    var md := if i.Local? then i.md else Read(h, i.packet).value;
    StepShape(h, md);
    WireNameTwice(md.fromService);
    WireNameTwice(md.toService);
    if i.Incoming? {
      HashesKept(h, i.packet);
    }
  }

  /** The message is at its starting point or has come over a link under the hashes it left with. */
  ghost predicate CameAlong(weather: Weather, time: nat, at: NodeId, i: Input, p: Place) {
    && SameLoad(i, p.input) && (PingPong(p.input) <==> PingPong(i)) && HopsToLive(p.input) <= HopsToLive(i)
    && (p == Place(time, at, i)
        || (at in weather(time) && p.input.Incoming?
            && p.input.packet.from == FromHash(weather(time)[at], i)
            && p.input.packet.to == ToHash(weather(time)[at], i)))
  }

  lemma {:induction false} LastPlaceStops(weather: Weather, time: nat, at: NodeId, i: Input)
    ensures var p := LastPlace(weather, time, at, i);
            CameAlong(weather, time, at, i, p) && !StepAt(weather, p.time, p.at, p.input).Sent?
    decreases HopsToLive(i)
  {
    var s := StepAt(weather, time, at, i);
    if s.Sent? {
      SentKeepsLoad(weather(time)[at], i);
      LastPlaceStops(weather, time + 1, s.next, Incoming(s.packet));
    }
  }

  /** One tally is the other with some transmissions of the first message before it. */
  predicate Preceded(t: Tally, u: Tally, transmissions: int)
    requires t.legs != [] && u.legs != []
  {
    t.legs[0] == u.legs[0] + transmissions && t.created == u.created && t.at == u.at && t.fate == u.fate
  }

  lemma JourneySent(weather: Weather, time: nat, at: NodeId, i: Input)
    requires !PingPong(i) && StepAt(weather, time, at, i).Sent?
    ensures var s := StepAt(weather, time, at, i);
            && !PingPong(Incoming(s.packet))
            && Preceded(Journey(weather, time, at, i), Journey(weather, time + 1, s.next, Incoming(s.packet)), 1)
  {
    StepAtLowers(weather, time, at, i);
  }

  /** The tally of a message that is not sent on begins with what this step comes to. */
  predicate Begins(t: Tally, at: NodeId, s: Step)
    requires !s.Sent?
  {
    if s.Ended? then t.created == [] && t.at == at && t.fate == s.fate else t.created != [] && t.created[0] == s.msg
  }

  lemma JourneyStays(weather: Weather, time: nat, at: NodeId, i: Input)
    requires !PingPong(i) && !StepAt(weather, time, at, i).Sent?
    ensures Begins(Journey(weather, time, at, i), at, StepAt(weather, time, at, i))
    ensures Journey(weather, time, at, i).legs[0] == 0
  {
    StepAtLowers(weather, time, at, i);
  }

  /**
    The message has lost as many hops as it was transmitted times, and nothing else but the part of a
    service name that is lost on the wire; it travels under the hashes it left with, whatever names
    the nodes on the way read them as; the rest of the tally begins where it stops.
   */
  lemma {:induction false} JourneyToLastPlace(weather: Weather, time: nat, at: NodeId, i: Input)
    requires !PingPong(i)
    ensures var t, p := Journey(weather, time, at, i), LastPlace(weather, time, at, i);
            && CameAlong(weather, time, at, i, p) && !StepAt(weather, p.time, p.at, p.input).Sent?
            && Preceded(t, Journey(weather, p.time, p.at, p.input), HopsToLive(i) - HopsToLive(p.input))
            && t.legs[0] == HopsToLive(i) - HopsToLive(p.input)
    decreases HopsToLive(i)
  {
    LastPlaceStops(weather, time, at, i);
    var s := StepAt(weather, time, at, i);
    if s.Sent? {
      JourneySent(weather, time, at, i);
      StepAtLowers(weather, time, at, i);
      JourneyToLastPlace(weather, time + 1, s.next, Incoming(s.packet));
    } else {
      JourneyStays(weather, time, at, i);
    }
  }

  /**
    The exact circumstances, at the node that handles it, in which a message that is no notice is
    lost for each reason.
   */
  predicate MessageLostFor(h: Host, md: Message, reason: Loss) {
    match reason
    case DroppedByRule => Decision(h.rules, md) == Drop
    case UnreadableNames => false
    case NoRoute => Passes(h, md) && md.toNode != h.id && md.hopsToLive > 0 && md.toNode !in h.table
    case NoLink =>
      && Passes(h, md) && md.toNode != h.id && md.hopsToLive > 0
      && md.toNode in h.table && h.table[md.toNode] !in h.links
    case LinkCancelled =>
      && Passes(h, md) && md.toNode != h.id && md.hopsToLive > 0
      && md.toNode in h.table && h.table[md.toNode] in h.links && h.table[md.toNode] in h.cancelled
    case NameTooLong => Passes(h, md) && md.toNode == h.id && md.toService == PING && |md.fromService| > 8
    case BadBody => Passes(h, md) && md.toNode == h.id && md.toService == UNREACH && !md.data.Unreachable?
    case NoSuchService =>
      && Passes(h, md) && md.toNode == h.id == md.fromNode
      && md.toService != PING && md.toService != UNREACH && md.toService !in h.listeners
    case ListenerClosed =>
      && Passes(h, md) && md.toNode == h.id
      && md.toService != PING && md.toService != UNREACH && md.toService in h.listeners && md.toService in h.closing
    case QuietNotice => false
    case NodeGone => false
  }

  /** The node has filed names for both hashes of a packet. */
  ghost predicate Readable(h: Host, i: Input) {
    i.Incoming? ==> !Unreadable(h, i.packet)
  }

  /** The message as the node sees it. */
  ghost function Seen(h: Host, i: Input): Message
    requires Readable(h, i)
  {
    if i.Local? then i.md else
      ReadIff(h, i.packet);
      Read(h, i.packet).value
  }

  ghost predicate LostFor(h: Host, i: Input, reason: Loss) {
    if Readable(h, i) then MessageLostFor(h, Seen(h, i), reason) else reason == UnreadableNames
  }

  /** The exact circumstances in which a notice is made for it. */
  predicate ReportedFor(h: Host, md: Message, problem: Problem) {
    match problem
    case Rejected => Decision(h.rules, md) == Reject
    case ExpiredInTransit => Passes(h, md) && md.toNode != h.id && md.hopsToLive == 0
    case ServiceUnknown =>
      && Passes(h, md) && md.toNode == h.id != md.fromNode
      && md.toService != PING && md.toService != UNREACH && md.toService !in h.listeners
  }

  lemma StopIsClassified(h: Host, md: Message, reason: Loss, problem: Problem)
    requires md.fromService != UNREACH && !HandleMessageData(h, md).Sent?
    ensures HandleMessageData(h, md) == Ended(Lost(reason)) <==> MessageLostFor(h, md, reason)
    ensures HandleMessageData(h, md) == Made(Notice(h, md, problem)) <==> ReportedFor(h, md, problem)
    ensures HandleMessageData(h, md).Made? && HandleMessageData(h, md).msg.fromService != UNREACH ==>
              HandleMessageData(h, md).msg == NewMessage(h, PING, md.fromNode, md.fromService, Bytes([]))
  {
  }

  lemma InputIsClassified(h: Host, i: Input, reason: Loss, problem: Problem)
    requires FromService(i) != UNREACH && !HandleInput(h, i).Sent?
    ensures HandleInput(h, i) == Ended(Lost(reason)) <==> LostFor(h, i, reason)
    ensures HandleInput(h, i).Made? ==> Readable(h, i)
    ensures Readable(h, i) ==>
              && HandleInput(h, i) == HandleMessageData(h, Seen(h, i))
              && (HandleInput(h, i) == Made(Notice(h, Seen(h, i), problem)) <==> ReportedFor(h, Seen(h, i), problem))
  {
    if i.Incoming? {
      ReadIff(h, i.packet);
    }
    if Readable(h, i) {
      StopIsClassified(h, Seen(h, i), reason, problem);
    }
  }

  /**
    For every message that is no notice, those that never come to rest included: at the node from which
    it is not sent on it is lost, or reported, exactly in the circumstances that belong to each reason.
   */
  lemma LastStepIsClassified(weather: Weather, time: nat, at: NodeId, i: Input, reason: Loss, problem: Problem)
    requires WireName(FromService(i)) != UNREACH
    ensures var p := LastPlace(weather, time, at, i);
            var s := StepAt(weather, p.time, p.at, p.input);
            && CameAlong(weather, time, at, i, p) && !s.Sent?
            && (s == Ended(Lost(reason)) <==>
                  if p.at in weather(p.time) then LostFor(weather(p.time)[p.at], p.input, reason)
                  else reason == NodeGone)
            && (p.at in weather(p.time) && Readable(weather(p.time)[p.at], p.input) ==>
                  var h := weather(p.time)[p.at];
                  s == Made(Notice(h, Seen(h, p.input), problem)) <==> ReportedFor(h, Seen(h, p.input), problem))
  {
    LastPlaceStops(weather, time, at, i);
    var p := LastPlace(weather, time, at, i);
    ReservedNames();
    if p.at in weather(p.time) {
      InputIsClassified(weather(p.time)[p.at], p.input, reason, problem);
    }
  }

  /** Nothing was made for the message and it neither arrived nor was published. */
  predicate LostSilently(t: Tally) {
    t.created == [] && t.fate.Lost?
  }

  /** What can be told of the journey from the place where the message stops. */
  ghost predicate Accounted(weather: Weather, t: Tally, p: Place, reason: Loss, problem: Problem) {
    if p.at !in weather(p.time) then t.created == [] && t.at == p.at && t.fate == Lost(NodeGone)
    else
      var h := weather(p.time)[p.at];
      && (LostSilently(t) && t.fate.reason == reason <==> LostFor(h, p.input, reason))
      && (t.created == [] ==> t.at == p.at)
      && (t.created != [] ==>
            && Readable(h, p.input)
            && (var md := Seen(h, p.input);
                && (t.created[0] == Notice(h, md, problem) <==> ReportedFor(h, md, problem))
                && (t.created[0].fromService != UNREACH ==>
                      t.created[0] == NewMessage(h, PING, md.fromNode, md.fromService, Bytes([])))))
      && (Readable(h, p.input) && ReportedFor(h, Seen(h, p.input), problem) ==> t.created != [])
  }

  /**
    For every weather: a message that is no notice arrives, is published, is answered by a ping reply
    or reported by a notice that quotes it, or is lost without a word at the node where it stopped;
    and it is so lost, for each reason, exactly in the circumstances that belong to the reason.
   */
  lemma LossIsClassified(weather: Weather, time: nat, at: NodeId, i: Input, reason: Loss, problem: Problem)
    requires !PingPong(i) && WireName(FromService(i)) != UNREACH
    ensures Accounted(weather, Journey(weather, time, at, i), LastPlace(weather, time, at, i), reason, problem)
  {
    ReservedNames();
    JourneyBegins(weather, time, at, i);
    StopIsAccounted(weather, LastPlace(weather, time, at, i), Journey(weather, time, at, i), reason, problem);
  }

  /** What a message comes to is what the step at its last place comes to. */
  lemma JourneyBegins(weather: Weather, time: nat, at: NodeId, i: Input)
    requires !PingPong(i)
    ensures var p := LastPlace(weather, time, at, i);
            && SameLoad(i, p.input) && !StepAt(weather, p.time, p.at, p.input).Sent?
            && Begins(Journey(weather, time, at, i), p.at, StepAt(weather, p.time, p.at, p.input))
  {
    var p := LastPlace(weather, time, at, i);
    JourneyToLastPlace(weather, time, at, i);
    JourneyStays(weather, p.time, p.at, p.input);
  }

  lemma StopIsAccounted(weather: Weather, p: Place, t: Tally, reason: Loss, problem: Problem)
    requires FromService(p.input) != UNREACH && !StepAt(weather, p.time, p.at, p.input).Sent?
    requires Begins(t, p.at, StepAt(weather, p.time, p.at, p.input))
    ensures Accounted(weather, t, p, reason, problem)
  {
    if p.at in weather(p.time) {
      var h := weather(p.time)[p.at];
      InputIsClassified(h, p.input, reason, problem);
      if Readable(h, p.input) {
        StopIsClassified(h, Seen(h, p.input), reason, problem);
      }
    }
  }

  /** The node has to send the message on: it can read it, no rule stops it, and it is for another node. */
  ghost predicate Relays(h: Host, i: Input) {
    && Readable(h, i)
    && (var md := Seen(h, i);
        md.toNode != h.id && md.hopsToLive > 0 && Passes(h, md))
  }

  lemma RelayStep(h: Host, i: Input)
    requires Relays(h, i)
    ensures var s := HandleInput(h, i);
            s.Sent? || (s.Ended? && s.fate in {Lost(NoRoute), Lost(NoLink), Lost(LinkCancelled)})
  {
    if i.Incoming? {
      ReadIff(h, i.packet);
    }
    assert HandleInput(h, i) == ForwardMessage(h, Seen(h, i));
  }

  /**
    In particular a relay without a route, or without a connection to the next hop that takes the
    packet, swallows a message: nobody is told.
   */
  lemma RelayMaySwallow(weather: Weather, time: nat, at: NodeId, i: Input)
    requires !PingPong(i)
    requires var p := LastPlace(weather, time, at, i);
             p.at in weather(p.time) && Relays(weather(p.time)[p.at], p.input)
    ensures LostSilently(Journey(weather, time, at, i))
    ensures Journey(weather, time, at, i).fate.reason in {NoRoute, NoLink, LinkCancelled}
  {
    var p := LastPlace(weather, time, at, i);
    JourneyBegins(weather, time, at, i);
    RelayStep(weather(p.time)[p.at], p.input);
  }

  /**
    And so does a node that has filed no name with the hash of the source or of the destination, as
    when a message overtakes the routing update that tells of its source.
   */
  lemma UnknownNameIsSwallowed(weather: Weather, time: nat, at: NodeId, md: Message)
    requires !PingPong(Local(md)) && WireName(md.fromService) != UNREACH && at in weather(time)
    requires var s := StepAt(weather, time, at, Local(md));
             && s.Sent? && s.next in weather(time + 1)
             && (var h, nm := weather(time + 1)[s.next], NamingOf(weather(time)[at]);
                 || Unfiled(NamingOf(h), h.filed, HashOf(nm, md.fromNode))
                 || Unfiled(NamingOf(h), h.filed, HashOf(nm, md.toNode)))
    ensures var t := Journey(weather, time, at, Local(md));
            t == Tally([1], [], StepAt(weather, time, at, Local(md)).next, Lost(UnreadableNames))
  {
    var s := StepAt(weather, time, at, Local(md));
    StepAtLowers(weather, time, at, Local(md));
    SentKeepsLoad(weather(time)[at], Local(md));
    ReadIff(weather(time + 1)[s.next], s.packet);
    assert StepAt(weather, time + 1, s.next, Incoming(s.packet)) == Ended(Lost(UnreadableNames));
  }
}
