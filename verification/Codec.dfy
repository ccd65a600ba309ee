/**
  The wire format of data messages: a 36-byte header in which node names are replaced by 64-bit
  hashes and service names are padded to eight bytes.
 */
module Codec {
  import opened Bytes
  import opened Options
  import opened Graph
  import opened Names

  /** The name of a service, as bytes; node names occur only through their hashes. */
  type Name = seq<Byte>

  datatype MessageData = MessageData(
    fromNode: NodeId, fromService: Name, toNode: NodeId, toService: Name, hopsToLive: Byte, data: seq<Byte>)

  // ----- big-endian numbers

  function BigEndian(n: nat, width: nat): (r: seq<Byte>)
    ensures |r| == width
  {
    if width == 0 then [] else BigEndian(n / 256, width - 1) + [n % 256]
  }

  function Number(bytes: seq<Byte>): nat {
    if bytes == [] then 0 else 256 * Number(bytes[..|bytes| - 1]) + bytes[|bytes| - 1] as int
  }

  function Power256(width: nat): nat {
    if width == 0 then 1 else 256 * Power256(width - 1)
  }

  lemma {:induction false} NumberOfBigEndian(n: nat, width: nat)
    requires n < Power256(width)
    ensures Number(BigEndian(n, width)) == n
  {
    if width > 0 {
      NumberOfBigEndian(n / 256, width - 1);
      assert BigEndian(n, width)[..width - 1] == BigEndian(n / 256, width - 1);
    }
  }

  lemma {:induction false} BigEndianOfNumber(bytes: seq<Byte>)
    ensures BigEndian(Number(bytes), |bytes|) == bytes
    ensures Number(bytes) < Power256(|bytes|)
  {
    if bytes != [] {
      var front := bytes[..|bytes| - 1];
      BigEndianOfNumber(front);
      assert Number(bytes) / 256 == Number(front) && Number(bytes) % 256 == bytes[|bytes| - 1];
    }
  }

  lemma EightBytes()
    ensures Power256(8) == 0x1_0000_0000_0000_0000
  {
    assert Power256(4) == 0x1_0000_0000;
  }

  function HashAt(bytes: seq<Byte>): UInt64
    requires |bytes| == 8
  {
    BigEndianOfNumber(bytes);
    EightBytes();
    Number(bytes)
  }

  // ----- fixed-length names

  /** Cut or padded with NULs to length l. */
  function Padded(name: Name, l: nat): (r: seq<Byte>)
    ensures |r| == l
  {
    if |name| >= l then name[..l] else name + seq(l - |name|, i => 0)
  }

  /** A service name the format can carry. */
  predicate Carried(name: Name) {
    |name| <= 8 && (name == [] || name[|name| - 1] != 0)
  }

  lemma PaddedStrip(bytes: seq<Byte>)
    ensures Padded(Strip(bytes, 0), |bytes|) == bytes
  {
  }

  /** A service name as it comes out of its eight bytes. */
  function OnWire(name: Name): Name {
    Strip(Padded(name, 8), 0)
  }

  lemma {:induction false} StripPadded(name: Name, l: nat)
    ensures Strip(Padded(name, l), 0) == Strip(if |name| > l then name[..l] else name, 0)
    decreases l
  {
    if l > |name| {
      assert Padded(name, l)[..l - 1] == Padded(name, l - 1);
      StripPadded(name, l - 1);
    } else if l == |name| {
      assert Padded(name, l) == name;
    }
  }

  /** The eight bytes determine a name exactly when it is carried. */
  lemma NameSurvivesIff(name: Name)
    ensures OnWire(name) == name <==> Carried(name)
  {
    StripPadded(name, 8);
    StripUnchanged(name, 0);
  }

  // ----- messages

  function Encode(nm: Naming, m: MessageData): (r: seq<Byte>)
    ensures |r| == 36 + |m.data|
  {
    [0, m.hopsToLive, 0, 0]
    + BigEndian(HashOf(nm, m.fromNode), 8) + BigEndian(HashOf(nm, m.toNode), 8)
    + Padded(m.fromService, 8) + Padded(m.toService, 8) + m.data
  }

  function Decode(table: Table, bytes: seq<Byte>): Option<MessageData> {
    if |bytes| < 36 then None
    else
      var from, to := HashAt(bytes[4..12]), HashAt(bytes[12..20]);
      if from !in table || to !in table then None
      else
        var fromService, toService := Strip(bytes[20..28], 0), Strip(bytes[28..36], 0);
        Some(MessageData(table[from], fromService, table[to], toService, bytes[1], bytes[36..]))
  }

  lemma EncodeParts(nm: Naming, m: MessageData)
    ensures var r := Encode(nm, m);
            && r[4..12] == BigEndian(HashOf(nm, m.fromNode), 8) && r[12..20] == BigEndian(HashOf(nm, m.toNode), 8)
            && r[20..28] == Padded(m.fromService, 8) && r[28..36] == Padded(m.toService, 8) && r[36..] == m.data
            && r[0] == 0 && r[1] == m.hopsToLive
  {
  }

  lemma FirstByte(n: nat, width: nat)
    requires width >= 3
    ensures BigEndian(n, width)[0] == BigEndian(n / 65536, width - 2)[0]
  {
    assert n / 256 / 256 == n / 65536;
    assert BigEndian(n, width)[0] == BigEndian(n / 256, width - 1)[0];
  }

  lemma FirstAndLastByte(n: UInt64)
    ensures BigEndian(n, 8)[0] == n / 0x100_0000_0000_0000 && BigEndian(n, 8)[7] == n % 256
  {
    var n2, n4, n6 := n / 65536, n / 0x1_0000_0000, n / 0x1_0000_0000_0000;
    FirstByte(n, 8);
    FirstByte(n2, 6);
    FirstByte(n4, 4);
    assert n2 / 65536 == n4 && n4 / 65536 == n6;
    assert BigEndian(n6, 2)[0] == BigEndian(n6 / 256, 1)[0] == n6 / 256 % 256;
    assert n6 / 256 == n / 0x100_0000_0000_0000;
  }

  /** The layout: type, hops, two spare bytes, both hashes with the high byte first, both services, the data. */
  lemma HeaderLayout(nm: Naming, m: MessageData, i: nat)
    requires i < 8
    ensures var r, from, to := Encode(nm, m), HashOf(nm, m.fromNode), HashOf(nm, m.toNode);
            && r[0] == 0 && r[1] == m.hopsToLive && r[2] == 0 == r[3]
            && Number(r[4..12]) == from && r[4] == from / 0x100_0000_0000_0000 && r[11] == from % 256
            && Number(r[12..20]) == to && r[12] == to / 0x100_0000_0000_0000 && r[19] == to % 256
            && r[20 + i] == (if i < |m.fromService| then m.fromService[i] else 0)
            && r[28 + i] == (if i < |m.toService| then m.toService[i] else 0)
            && r[36..] == m.data
  {
    var r, from, to := Encode(nm, m), HashOf(nm, m.fromNode), HashOf(nm, m.toNode);
    EncodeParts(nm, m);
    FirstAndLastByte(from);
    FirstAndLastByte(to);
    EightBytes();
    NumberOfBigEndian(from, 8);
    NumberOfBigEndian(to, 8);
    assert r[4..12][0] == r[4] && r[4..12][7] == r[11] && r[12..20][0] == r[12] && r[12..20][7] == r[19];
    assert r[20..28][i] == r[20 + i] && r[28..36][i] == r[28 + i];
  }

  lemma Parts(a: seq<Byte>, b: seq<Byte>)
    requires |a| >= 36 && |b| >= 36 && a[4..12] == b[4..12] && a[12..20] == b[12..20] && a[20..28] == b[20..28]
             && a[28..36] == b[28..36]
    requires a[36..] == b[36..]
    ensures a[4..] == b[4..]
  {
    assert forall x: seq<Byte> {:trigger x[4..]} :: |x| >= 36 ==>
      x[4..] == x[4..12] + x[12..20] + x[20..28] + x[28..36] + x[36..];
  }

  /** Decoding a packet and encoding it again gives back its hop byte and everything from byte 4 on. */
  lemma ReencodeIsTransparent(nm: Naming, table: Table, bytes: seq<Byte>)
    requires TableOk(nm, table) && Decode(table, bytes).Some?
    ensures var r := Encode(nm, Decode(table, bytes).value);
            r[4..] == bytes[4..] && r[1] == bytes[1]
  {
    var m := Decode(table, bytes).value;
    EncodeParts(nm, m);
    BigEndianOfNumber(bytes[4..12]);
    BigEndianOfNumber(bytes[12..20]);
    PaddedStrip(bytes[20..28]);
    PaddedStrip(bytes[28..36]);
    Parts(Encode(nm, m), bytes);
  }

  /** What arrives of a message whose node names get across: the service names may have been cut. */
  function AsCarried(m: MessageData): MessageData {
    m.(fromService := OnWire(m.fromService), toService := OnWire(m.toService))
  }

  lemma DecodeEncoded(nm: Naming, table: Table, m: MessageData)
    ensures var from, to := HashOf(nm, m.fromNode), HashOf(nm, m.toNode);
            Decode(table, Encode(nm, m)) ==
            if from !in table || to !in table then None
            else Some(AsCarried(m).(fromNode := table[from], toNode := table[to]))
  {
    EncodeParts(nm, m);
    EightBytes();
    NumberOfBigEndian(HashOf(nm, m.fromNode), 8);
    NumberOfBigEndian(HashOf(nm, m.toNode), 8);
  }

  /** The receiver gets the message up to the cutting of service names if and only if both node names get across. */
  lemma ArrivesIff(sender: Naming, receiver: Naming, names: seq<NodeId>, m: MessageData)
    ensures Decode(Filed(receiver, names), Encode(sender, m)) == Some(AsCarried(m)) <==>
              Crosses(sender, receiver, names, m.fromNode) && Crosses(sender, receiver, names, m.toNode)
  {
    DecodeEncoded(sender, Filed(receiver, names), m);
    ReadAsIff(receiver, names, HashOf(sender, m.fromNode), m.fromNode);
    ReadAsIff(receiver, names, HashOf(sender, m.toNode), m.toNode);
  }

  /**
    The receiver gets back the very message sent if and only if both node names get across and both
    service names fit.
   */
  lemma RoundTripIff(sender: Naming, receiver: Naming, names: seq<NodeId>, m: MessageData)
    ensures Decode(Filed(receiver, names), Encode(sender, m)) == Some(m) <==>
              && Crosses(sender, receiver, names, m.fromNode) && Crosses(sender, receiver, names, m.toNode)
              && Carried(m.fromService) && Carried(m.toService)
  {
    DecodeEncoded(sender, Filed(receiver, names), m);
    ArrivesIff(sender, receiver, names, m);
    NameSurvivesIff(m.fromService);
    NameSurvivesIff(m.toService);
  }

  // ----- forwarding over several hops

  /** The bytes a node writes to a connection: the encoded message with its hop byte lowered. */
  function Forwarded(nm: Naming, m: MessageData): seq<Byte>
    requires m.hopsToLive > 0
  {
    Encode(nm, m)[1 := m.hopsToLive - 1]
  }

  lemma ForwardedIsEncoded(nm: Naming, m: MessageData)
    requires m.hopsToLive > 0
    ensures Forwarded(nm, m) == Encode(nm, m.(hopsToLive := m.hopsToLive - 1))
  {
  }

  /** A node a packet passes through: how it hashes names and the names it has filed. */
  datatype Station = Station(naming: Naming, filed: seq<NodeId>)

  /** What a station sends on: nothing if it cannot decode the packet or its hops are used up. */
  function PassedOn(s: Station, bytes: seq<Byte>): Option<seq<Byte>> {
    var d := Decode(Filed(s.naming, s.filed), bytes);
    if d.None? || d.value.hopsToLive == 0 then None
    else
      Some(Forwarded(s.naming, d.value))
  }

  function PassedThrough(stations: seq<Station>, bytes: seq<Byte>): Option<seq<Byte>> {
    if stations == [] then Some(bytes)
    else
      var r := PassedThrough(stations[..|stations| - 1], bytes);
      if r.None? then None else PassedOn(stations[|stations| - 1], r.value)
  }

  /**
    Over any number of hops, whatever each station knows, only the hop byte changes, by exactly one
    per hop and without wrapping.
   */
  lemma {:induction false} RelayIsTransparent(stations: seq<Station>, bytes: seq<Byte>)
    requires |bytes| >= 36
    requires PassedThrough(stations, bytes).Some?
    ensures var r := PassedThrough(stations, bytes).value;
            |r| >= 36 && r[4..] == bytes[4..] && r[1] + |stations| == bytes[1]
  {
    if stations != [] {
      var n := |stations| - 1;
      RelayIsTransparent(stations[..n], bytes);
      var r := PassedThrough(stations[..n], bytes).value;
      var s := stations[n];
      var table := Filed(s.naming, s.filed);
      FiledIsOk(s.naming, s.filed);
      ReencodeIsTransparent(s.naming, table, r);
      var m := Decode(table, r).value;
      assert Forwarded(s.naming, m)[4..] == Encode(s.naming, m)[4..];
    }
  }

  // ----- the object

  class NameTable {
    const naming: Naming
    var nameHashes: Table
    ghost var filed: seq<NodeId>

    /** The table is what the names filed so far make of it. */
    ghost predicate Valid()
      reads this
    {
      nameHashes == Filed(naming, filed)
    }

    constructor (naming: Naming)
      ensures this.naming == naming && Valid() && filed == [naming.self]
    {
      this.naming := naming;
      nameHashes := map[naming.hash(naming.self) := naming.self];
      filed := [naming.self];
      assert [naming.self][..0] == [];
    }

    method AddNameHash(name: NodeId) returns (hv: UInt64)
      requires Valid()
      modifies this
      ensures Valid() && filed == old(filed) + [name]
      ensures hv == HashOf(naming, name) && hv in nameHashes
    {
      var n := name;
      if IsLocalhost(name) {
        n := naming.self;
      }
      hv := naming.hash(n);
      filed := filed + [name];
      assert filed[..|filed| - 1] == old(filed);
      if hv !in nameHashes {
        nameHashes := nameHashes[hv := n];
      }
    }

    method TranslateDataToMessage(data: seq<Byte>) returns (md: Option<MessageData>)
      requires Valid()
      ensures md == Decode(Filed(naming, filed), data)
    {
      if |data| < 36 {
        return None;
      }
      var from, to := HashAt(data[4..12]), HashAt(data[12..20]);
      if from !in nameHashes || to !in nameHashes {
        return None;
      }
      var fromService := StringFromFixedLenBytes(data[20..28]);
      var toService := StringFromFixedLenBytes(data[28..36]);
      md := Some(MessageData(nameHashes[from], fromService, nameHashes[to], toService, data[1], data[36..]));
    }

    /** Encoding also files both names. */
    method TranslateDataFromMessage(msg: MessageData) returns (buf: seq<Byte>)
      requires Valid()
      modifies this
      ensures Valid() && buf == Encode(naming, msg)
      ensures filed == old(filed) + [msg.fromNode, msg.toNode]
    {
      buf := [0, msg.hopsToLive, 0, 0];
      var h := AddNameHash(msg.fromNode);
      buf := buf + BigEndian(h, 8);
      h := AddNameHash(msg.toNode);
      buf := buf + BigEndian(h, 8);
      buf := buf + Padded(msg.fromService, 8) + Padded(msg.toService, 8) + msg.data;
    }
  }

  /** The loop that drops trailing NULs. */
  method StringFromFixedLenBytes(bytes: seq<Byte>) returns (s: Name)
    ensures s == Strip(bytes, 0)
  {
    var p := |bytes| - 1;
    while p >= 0 && bytes[p] == 0
      invariant -1 <= p < |bytes|
      invariant Strip(bytes[..p + 1], 0) == Strip(bytes, 0)
    {
      assert bytes[..p + 1][..p] == bytes[..p];
      p := p - 1;
    }
    assert p == |bytes| - 1 ==> bytes[..p + 1] == bytes;
    s := bytes[..p + 1];
  }
}
