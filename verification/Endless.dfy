/**
  When the handling of a message comes to an end.  The handler of a ping sends the reply through the
  handler itself, and a ping that comes from the ping service is answered by a ping; so both the
  recursion at one node and the exchange between nodes can go on for ever.  The conditions are exact.
 */
module Endless {
  import opened Bytes
  import opened Graph
  import opened Names
  import Options
  import opened Messages

  // ----- the recursion of the handler at one node

  /** The innermost call after n nested calls of the handler, if the recursion gets that deep. */
  datatype Call = Calling(md: Message) | Returned

  function Nested(h: Host, md: Message, n: nat): Call {
    if n == 0 then Calling(md)
    else
      var c := Nested(h, md, n - 1);
      if c.Calling? && HandleMessageData(h, c.md).Made? then Calling(HandleMessageData(h, c.md).msg) else Returned
  }

  /** The ping a node sends itself from its own ping service. */
  function SelfPing(h: Host): Message {
    NewMessage(h, PING, h.id, PING, Bytes([]))
  }

  /**
    A ping from this node's ping service to itself, under this node's ID or an alias, that no rule
    stops, nor the reply.
   */
  predicate Spins(h: Host, md: Message) {
    && md.toNode == h.id && (md.fromNode == h.id || IsLocalhost(md.fromNode))
    && md.fromService == PING && md.toService == PING
    && Passes(h, md) && Passes(h, SelfPing(h))
  }

  lemma {:induction false} SpinsForever(h: Host, md: Message, n: nat)
    requires Spins(h, md)
    ensures Nested(h, md, n) == Calling(if n == 0 then md else SelfPing(h))
  {
    if n > 0 {
      SpinsForever(h, md, n - 1);
    }
  }

  lemma NoticeMakesNothing(h: Host, md: Message)
    ensures md.fromService == UNREACH && md.toService == UNREACH ==> !HandleMessageData(h, md).Made?
  {
  }

  lemma NestedReturns(h: Host, md: Message)
    requires !Spins(h, md)
    ensures Nested(h, md, 3) == Returned
  {
    var c1 := Nested(h, md, 1);
    var c2 := Nested(h, md, 2);
    assert Nested(h, md, 0) == Calling(md);
    if c1.Calling? && c2.Calling? {
      assert c1.md == HandleMessageData(h, md).msg && c2.md == HandleMessageData(h, c1.md).msg;
      NoticeMakesNothing(h, c1.md);
      StepShape(h, md);
      StepShape(h, c1.md);
      assert c2.md.fromService != UNREACH ==> c1.md == SelfPing(h) && Spins(h, md);
      NoticeMakesNothing(h, c2.md);
    }
  }

  /**
    The recursion of the handlers at a node ends, after at most three nested calls, if and only if
    the message does not make the node ping itself.
   */
  lemma RecursionEndsIff(h: Host, md: Message)
    ensures (exists n: nat :: Nested(h, md, n) == Returned) <==> !Spins(h, md)
  {
    if Spins(h, md) {
      forall n: nat
        ensures Nested(h, md, n) != Returned
      {
        SpinsForever(h, md, n);
      }
    } else {
      NestedReturns(h, md);
    }
  }

  /**
    The input on which it does not end: a packet that claims to come from this node's own ping
    service, whatever its hops and its data.
   */
  lemma SelfPingNeverReturns(h: Host, hopsToLive: Byte, data: Body, n: nat)
    requires h.rules == []
    ensures Nested(h, Message(h.id, PING, h.id, PING, hopsToLive, data), n).Calling?
  {
    SpinsForever(h, Message(h.id, PING, h.id, PING, hopsToLive, data), n);
  }

  // ----- the chain of all steps over the mesh

  datatype Config = Going(time: nat, at: NodeId, input: Input) | Over(at: NodeId, fate: Fate)

  function Advance(weather: Weather, c: Config): Config {
    if c.Over? then c
    else
      var s := StepAt(weather, c.time, c.at, c.input);
      if s.Ended? then Over(c.at, s.fate) else Going(c.time + 1, NextAt(c.at, s), NextInput(s))
  }

  function Chain(weather: Weather, c: Config, n: nat): Config {
    if n == 0 then c else Advance(weather, Chain(weather, c, n - 1))
  }

  ghost predicate Ends(weather: Weather, c: Config) {
    exists n: nat :: Chain(weather, c, n).Over?
  }

  lemma {:induction false} ChainTail(weather: Weather, c: Config, n: nat)
    ensures Chain(weather, c, n + 1) == Chain(weather, Advance(weather, c), n)
  {
    if n > 0 {
      ChainTail(weather, c, n - 1);
    }
  }

  /** The chain from c comes to `end`. */
  ghost predicate Leads(weather: Weather, c: Config, end: Config) {
    exists n: nat :: Chain(weather, c, n) == end
  }

  lemma LeadsOn(weather: Weather, c: Config, end: Config)
    requires Leads(weather, Advance(weather, c), end)
    ensures Leads(weather, c, end)
  {
    var n: nat :| Chain(weather, Advance(weather, c), n) == end;
    ChainTail(weather, c, n);
  }

  lemma EndsLater(weather: Weather, c: Config)
    requires Ends(weather, Advance(weather, c))
    ensures Ends(weather, c)
  {
    var n: nat :| Chain(weather, Advance(weather, c), n).Over?;
    ChainTail(weather, c, n);
  }

  /** A chain that goes on for ever from the next step goes on for ever. */
  lemma GoesOnEarlier(weather: Weather, c: Config)
    requires c.Going? && !Ends(weather, Advance(weather, c))
    ensures !Ends(weather, c)
  {
    forall n: nat
      ensures !Chain(weather, c, n).Over?
    {
      if n > 0 {
        ChainTail(weather, c, n - 1);
      }
    }
  }

  /** Where and how the journey from c ends. */
  function EndOf(weather: Weather, c: Config): Config
    requires c.Going? && !PingPong(c.input)
  {
    var t := Journey(weather, c.time, c.at, c.input);
    Over(t.at, t.fate)
  }

  lemma EndOfNext(weather: Weather, c: Config)
    requires c.Going? && !PingPong(c.input)
    ensures var c' := Advance(weather, c);
            if c'.Over? then EndOf(weather, c) == c'
            else !PingPong(c'.input) && EndOf(weather, c) == EndOf(weather, c')
  {
    JourneyNext(weather, c.time, c.at, c.input);
    var s, t := StepAt(weather, c.time, c.at, c.input), Journey(weather, c.time, c.at, c.input);
    if !s.Ended? {
      var rest := Journey(weather, c.time + 1, NextAt(c.at, s), NextInput(s));
      assert t.at == rest.at && t.fate == rest.fate;
      assert Advance(weather, c) == Going(c.time + 1, NextAt(c.at, s), NextInput(s));
    }
  }

  function Weight(c: Config): nat {
    if c.Over? then 0 else 1 + HopsToLive(c.input) + 256 * Rank(c.input)
  }

  lemma AdvanceLowers(weather: Weather, c: Config)
    requires c.Going? && !PingPong(c.input)
    ensures Weight(Advance(weather, c)) < Weight(c)
  {
    StepAtLowers(weather, c.time, c.at, c.input);
  }

  /** A journey is the chain of its steps: the chain ends where and how the journey does. */
  lemma {:induction false} JourneyIsChain(weather: Weather, c: Config)
    requires c.Going? && !PingPong(c.input)
    ensures Leads(weather, c, EndOf(weather, c))
    decreases Weight(c)
  {
    var c' := Advance(weather, c);
    EndOfNext(weather, c);
    AdvanceLowers(weather, c);
    if c'.Over? {
      assert Chain(weather, c', 0) == c';
    } else {
      JourneyIsChain(weather, c');
    }
    LeadsOn(weather, c, EndOf(weather, c));
  }

  lemma JourneyEnds(weather: Weather, time: nat, at: NodeId, i: Input)
    requires !PingPong(i)
    ensures Ends(weather, Going(time, at, i))
  {
    var c := Going(time, at, i);
    JourneyIsChain(weather, c);
    var n: nat :| Chain(weather, c, n) == EndOf(weather, c);
  }

  // ----- exactly which messages can go on for ever

  /**
    Both ends are the ping service on the wire, and the message either can still be sent on, or is a
    ping as it stands whose reply can be addressed and keeps the exchange going.
   */
  predicate Perpetual(md: Message) {
    && PingPong(Local(md))
    && (md.hopsToLive > 0
        || (md.toService == PING && |md.fromService| <= 8
            && (md.fromService == PING || (md.fromNode != md.toNode && !IsLocalhost(md.fromNode)))))
  }

  /** Every host is filed under its own ID and has no link to itself. */
  ghost predicate Named(weather: Weather) {
    forall t: nat, n :: n in weather(t) ==> weather(t)[n].id == n && n !in weather(t)[n].links
  }

  // A mesh in which the exchange does not end: no rules, every player is linked to every other and
  // has filed the same names.

  function Player(n: NodeId, players: set<NodeId>, hash: NodeId -> UInt64, filed: seq<NodeId>): Host {
    Host(n, 255, hash, filed, map d | d in players :: d, players - {n}, {}, [], {}, {})
  }

  function Court(players: set<NodeId>, hash: NodeId -> UInt64, filed: seq<NodeId>): Mesh {
    map n | n in players :: Player(n, players, hash, filed)
  }

  function Answered(at: NodeId, md: Message): NodeId {
    if IsLocalhost(md.fromNode) then at else md.fromNode
  }

  /** Players whose names are no aliases, are filed, and have hashes of their own. */
  ghost predicate Fair(players: set<NodeId>, hash: NodeId -> UInt64, filed: seq<NodeId>) {
    && (forall n :: n in players ==> n in filed && !IsLocalhost(n))
    && (forall n :: n in filed ==> n in players)
    && (forall m, n :: m in players && n in players && hash(m) == hash(n) ==> m == n)
  }

  lemma FairNamesAreRead(players: set<NodeId>, hash: NodeId -> UInt64, filed: seq<NodeId>, at: NodeId, name: NodeId)
    requires Fair(players, hash, filed) && at in players && name in players
    ensures var table := Filed(Naming(at, hash), filed);
            hash(name) in table && table[hash(name)] == name
  {
    var nm, h := Naming(at, hash), hash(name);
    var k: nat :| k < |filed| && filed[k] == name;
    assert HashOf(nm, filed[k]) == h;
    var i := FirstExists(nm, filed, h);
    HashStandsForFirst(nm, filed, i, h);
  }

  /** The message is a ping at its destination that will be answered, or on its way there. */
  ghost predicate VolleyingMessage(players: set<NodeId>, at: NodeId, md: Message) {
    && PingPong(Local(md)) && md.toNode in players && (IsLocalhost(md.fromNode) || md.fromNode in players)
    && (if md.toNode == at
        then md.toService == PING && |md.fromService| <= 8 && (md.fromService == PING || Answered(at, md) != at)
        else md.hopsToLive > 0)
  }

  ghost predicate VolleyingPacket(players: set<NodeId>, hash: NodeId -> UInt64, at: NodeId, p: Packet) {
    && p.fromService == PING == p.toService && p.to == hash(at)
    && exists n :: n in players && p.from == hash(n)
  }

  ghost predicate Volleying(players: set<NodeId>, hash: NodeId -> UInt64, c: Config) {
    && c.Going? && c.at in players
    && match c.input
       case Local(md) => VolleyingMessage(players, c.at, md)
       case Incoming(p) => VolleyingPacket(players, hash, c.at, p)
  }

  lemma MessageGoesOn(players: set<NodeId>, hash: NodeId -> UInt64, filed: seq<NodeId>, time: nat, at: NodeId,
                      md: Message)
    requires Fair(players, hash, filed) && at in players && VolleyingMessage(players, at, md)
    ensures var s := HandleMessageData(Player(at, players, hash, filed), md);
            !s.Ended? && Volleying(players, hash, Going(time + 1, NextAt(at, s), NextInput(s)))
  {
    var h := Player(at, players, hash, filed);
    ReservedNames();
    WireNameTwice(md.fromService);
    if md.toNode == at {
      assert HandleMessageData(h, md) == Made(NewMessage(h, PING, md.fromNode, md.fromService, Bytes([])));
    } else {
      assert HandleMessageData(h, md) == Sent(md.toNode, Outgoing(h, md));
      assert Outgoing(h, md).from == hash(if IsLocalhost(md.fromNode) then at else md.fromNode);
    }
  }

  lemma VolleyGoesOn(players: set<NodeId>, hash: NodeId -> UInt64, filed: seq<NodeId>, c: Config)
    requires Fair(players, hash, filed) && Volleying(players, hash, c)
    ensures Volleying(players, hash, Advance(Calm(Court(players, hash, filed)), c))
  {
    match c.input
    case Local(md) => MessageGoesOn(players, hash, filed, c.time, c.at, md);
    case Incoming(p) =>
      var n :| n in players && p.from == hash(n);
      FairNamesAreRead(players, hash, filed, c.at, n);
      FairNamesAreRead(players, hash, filed, c.at, c.at);
      ReservedNames();
      var md := Message(n, PING, c.at, PING, p.hopsToLive, p.data);
      assert Read(Player(c.at, players, hash, filed), p) == Options.Some(md);
      MessageGoesOn(players, hash, filed, c.time, c.at, md);
  }

  lemma {:induction false} VolleyNeverEnds(players: set<NodeId>, hash: NodeId -> UInt64, filed: seq<NodeId>, c: Config,
                                           n: nat)
    requires Fair(players, hash, filed) && Volleying(players, hash, c)
    ensures Volleying(players, hash, Chain(Calm(Court(players, hash, filed)), c, n))
  {
    if n > 0 {
      VolleyNeverEnds(players, hash, filed, c, n - 1);
      VolleyGoesOn(players, hash, filed, Chain(Calm(Court(players, hash, filed)), c, n - 1));
    }
  }

  /** The nodes of the message, and one more. */
  function Bystander(md: Message): NodeId {
    md.toNode + "x"
  }

  function Players(md: Message): set<NodeId> {
    {md.toNode, Bystander(md)} + if IsLocalhost(md.fromNode) then {} else {md.fromNode}
  }

  function Squad(md: Message): seq<NodeId> {
    [md.toNode, Bystander(md)] + if IsLocalhost(md.fromNode) then [] else [md.fromNode]
  }

  function StartOf(md: Message): NodeId {
    if md.hopsToLive > 0 then Bystander(md) else md.toNode
  }

  /**
    For every such message to a node whose name is no alias, and for every hash that keeps three
    names apart, there are linked hosts without any rule, which know each other's names, on which the
    chain of handler steps never ends.
   */
  lemma PerpetualNeverEnds(md: Message, hash: NodeId -> UInt64)
    requires Perpetual(md) && !IsLocalhost(md.toNode)
    requires forall m, n :: m in Players(md) && n in Players(md) && hash(m) == hash(n) ==> m == n
    ensures Named(Calm(Court(Players(md), hash, Squad(md))))
    ensures !Ends(Calm(Court(Players(md), hash, Squad(md))), Going(0, StartOf(md), Local(md)))
  {
    var players, filed, c := Players(md), Squad(md), Going(0, StartOf(md), Local(md));
    assert Bystander(md)[|Bystander(md)| - 1] == 'x' && Fold('x') == 'x';
    assert !IsLocalhost(Bystander(md));
    assert Fair(players, hash, filed);
    assert Volleying(players, hash, c);
    forall n: nat
      ensures !Chain(Calm(Court(players, hash, filed)), c, n).Over?
    {
      VolleyNeverEnds(players, hash, filed, c, n);
    }
  }

  lemma MadeNoticeEnds(weather: Weather, c: Config, problem: Problem)
    requires c.Going? && c.input.Local? && c.at in weather(c.time)
    requires var h := weather(c.time)[c.at];
             HandleMessageData(h, c.input.md) == Made(Notice(h, c.input.md, problem))
    ensures Ends(weather, c)
  {
    var notice := Notice(weather(c.time)[c.at], c.input.md, problem);
    NoticeIsLast(weather(c.time)[c.at], c.input.md, problem);
    JourneyEnds(weather, c.time + 1, c.at, Local(notice));
    EndsLater(weather, c);
  }

  lemma EndedEnds(weather: Weather, c: Config)
    requires c.Going? && StepAt(weather, c.time, c.at, c.input).Ended?
    ensures Ends(weather, c)
  {
    assert Chain(weather, c, 0) == c;
    assert Chain(weather, c, 1).Over?;
  }

  /**
    A message without hops that is not answered as a ping where it is ends with this call or the
    next, or in a notice.
   */
  lemma UnansweredEnds(weather: Weather, time: nat, at: NodeId, md: Message)
    requires PingPong(Local(md)) && md.hopsToLive == 0 && !(md.toNode == at && md.toService == PING)
    requires Named(weather)
    ensures Ends(weather, Going(time, at, Local(md)))
  {
    var c := Going(time, at, Local(md));
    ReservedNames();
    if at !in weather(time) || HandleMessageData(weather(time)[at], md).Ended? {
      EndedEnds(weather, c);
    } else {
      StepShape(weather(time)[at], md);
      MadeNoticeEnds(weather, c, HandleMessageData(weather(time)[at], md).msg.data.problem);
    }
  }

  lemma NonPerpetualEnds(weather: Weather, time: nat, at: NodeId, md: Message)
    requires Named(weather) && !Perpetual(md)
    ensures Ends(weather, Going(time, at, Local(md)))
  {
    var c := Going(time, at, Local(md));
    if !PingPong(Local(md)) {
      JourneyEnds(weather, time, at, Local(md));
    } else if !(md.toNode == at && md.toService == PING) {
      UnansweredEnds(weather, time, at, md);
    } else if at !in weather(time) || HandleMessageData(weather(time)[at], md).Ended? {
      EndedEnds(weather, c);
    } else {
      StepShape(weather(time)[at], md);
      ReservedNames();
      var msg := HandleMessageData(weather(time)[at], md).msg;
      if msg.fromService == UNREACH {
        MadeNoticeEnds(weather, c, msg.data.problem);
      } else {
        SelfReplyEnds(weather, time + 1, at, msg);
        EndsLater(weather, c);
      }
    }
  }

  /** The reply a node sends itself under a name that is not "ping" is no ping and ends. */
  lemma SelfReplyEnds(weather: Weather, time: nat, at: NodeId, md: Message)
    requires Named(weather) && md.toNode == at == md.fromNode && md.toService != PING && WireName(md.toService) == PING
    requires md.fromService == PING
    ensures Ends(weather, Going(time, at, Local(md)))
  {
    var c := Going(time, at, Local(md));
    ReservedNames();
    if at !in weather(time) || HandleMessageData(weather(time)[at], md).Ended? {
      EndedEnds(weather, c);
    } else {
      StepShape(weather(time)[at], md);
      MadeNoticeEnds(weather, c, HandleMessageData(weather(time)[at], md).msg.data.problem);
    }
  }

  // ----- a destination that is an alias, on a mesh whose hashes collide

  /** A host that takes every packet for one from itself to itself. */
  function Confused(n: NodeId, players: set<NodeId>): Host {
    Player(n, players, (m: NodeId) => 0, [n])
  }

  function ConfusedCourt(players: set<NodeId>): Mesh {
    map n | n in players :: Confused(n, players)
  }

  lemma ConfusedReads(n: NodeId, players: set<NodeId>, p: Packet)
    requires p.from == 0 == p.to
    ensures Read(Confused(n, players), p) ==
            Options.Some(Message(n, p.fromService, n, p.toService, p.hopsToLive, p.data))
  {
    var nm := NamingOf(Confused(n, players));
    assert [n][..0] == [];
    assert Filed(nm, []) == map[];
    assert Filed(nm, [n]) == map[0 := Canonical(nm, n)];
  }

  /** The node pings itself, or reads a packet as a ping from itself. */
  ghost predicate Spinning(players: set<NodeId>, c: Config) {
    && c.Going? && c.at in players && FromService(c.input) == PING == ToService(c.input)
    && match c.input
       case Local(md) => md.toNode == c.at && (md.fromNode == c.at || IsLocalhost(md.fromNode))
       case Incoming(p) => p.from == 0 == p.to
  }

  lemma SpinningGoesOn(players: set<NodeId>, c: Config)
    requires Spinning(players, c)
    ensures Spinning(players, Advance(Calm(ConfusedCourt(players)), c))
  {
    var h := Confused(c.at, players);
    if c.input.Incoming? {
      ConfusedReads(c.at, players, c.input.packet);
    }
    var md := if c.input.Local? then c.input.md else Read(h, c.input.packet).value;
    assert HandleMessageData(h, md) == Made(NewMessage(h, PING, md.fromNode, PING, Bytes([])));
  }

  lemma {:induction false} SpinningNeverEnds(players: set<NodeId>, c: Config, n: nat)
    requires Spinning(players, c)
    ensures Spinning(players, Chain(Calm(ConfusedCourt(players)), c, n))
  {
    if n > 0 {
      SpinningNeverEnds(players, c, n - 1);
      SpinningGoesOn(players, Chain(Calm(ConfusedCourt(players)), c, n - 1));
    }
  }

  lemma SpinningDoesNotEnd(players: set<NodeId>, c: Config)
    requires Spinning(players, c)
    ensures !Ends(Calm(ConfusedCourt(players)), c)
  {
    forall n: nat
      ensures !Chain(Calm(ConfusedCourt(players)), c, n).Over?
    {
      SpinningNeverEnds(players, c, n);
    }
  }

  /** A message between two players that leaves the node is read as a ping of the next node to itself. */
  lemma LeavingSpins(players: set<NodeId>, time: nat, at: NodeId, md: Message)
    requires PingPong(Local(md)) && at in players && md.toNode in players && md.toNode != at && md.hopsToLive > 0
    ensures !Ends(Calm(ConfusedCourt(players)), Going(time, at, Local(md)))
  {
    var weather, c, h := Calm(ConfusedCourt(players)), Going(time, at, Local(md)), Confused(at, players);
    assert HandleMessageData(h, md) == Sent(md.toNode, Outgoing(h, md));
    SpinningDoesNotEnd(players, Advance(weather, c));
    GoesOnEarlier(weather, c);
  }

  lemma AliasNeverEnds(md: Message)
    requires Perpetual(md)
    ensures var players := {md.toNode, md.fromNode, Bystander(md)};
            && Named(Calm(ConfusedCourt(players)))
            && !Ends(Calm(ConfusedCourt(players)), Going(0, StartOf(md), Local(md)))
  {
    var players := {md.toNode, md.fromNode, Bystander(md)};
    var weather, c := Calm(ConfusedCourt(players)), Going(0, StartOf(md), Local(md));
    assert Bystander(md) != md.toNode;
    if md.hopsToLive > 0 {
      LeavingSpins(players, 0, c.at, md);
    } else if Spinning(players, c) {
      SpinningDoesNotEnd(players, c);
    } else {
      var h := Confused(c.at, players);
      var reply := NewMessage(h, PING, md.fromNode, md.fromService, Bytes([]));
      ReservedNames();
      assert HandleMessageData(h, md) == Made(reply);
      LeavingSpins(players, 1, c.at, reply);
      GoesOnEarlier(weather, c);
    }
  }

  /**
    The handling of a message comes to an end on every mesh, from every node, under every change of
    names, tables and rules, if and only if the message is not perpetual.
   */
  lemma EndsEverywhereIff(md: Message)
    ensures (forall weather: Weather, at: NodeId :: Named(weather) ==> Ends(weather, Going(0, at, Local(md)))) <==>
              !Perpetual(md)
  {
    if Perpetual(md) {
      var hash := (n: NodeId) => if n == md.toNode then 0 else if n == md.fromNode then 1 else 2;
      var weather := if IsLocalhost(md.toNode) then Calm(ConfusedCourt({md.toNode, md.fromNode, Bystander(md)}))
                     else Calm(Court(Players(md), hash, Squad(md)));
      if IsLocalhost(md.toNode) {
        AliasNeverEnds(md);
      } else {
        PerpetualNeverEnds(md, hash);
      }
      assert Named(weather) && !Ends(weather, Going(0, StartOf(md), Local(md)));
    } else {
      forall weather: Weather, at: NodeId | Named(weather)
        ensures Ends(weather, Going(0, at, Local(md)))
      {
        NonPerpetualEnds(weather, 0, at, md);
      }
    }
  }
}
