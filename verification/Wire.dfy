/**
  The two views of a data message put together: the bytes that `Codec` writes to a connection carry
  the packets of `Messages`.  A service name is a string of bytes, and how a body is written as bytes
  is a parameter.
 */
module Wire {
  import opened Bytes
  import opened Options
  import opened Graph
  import opened Names
  import Codec
  import Messages

  type Packing = Messages.Body -> seq<Byte>

  predicate IsBytes(s: string) {
    forall i :: 0 <= i < |s| ==> s[i] as int < 256
  }

  function AsBytes(s: string): (r: seq<Byte>)
    requires IsBytes(s)
    ensures |r| == |s| && forall i :: 0 <= i < |s| ==> r[i] == s[i] as int
  {
    seq(|s|, i requires 0 <= i < |s| => s[i] as int)
  }

  predicate ServicesAreBytes(md: Messages.Message) {
    IsBytes(md.fromService) && IsBytes(md.toService)
  }

  function OnTheWire(pack: Packing, md: Messages.Message): Codec.MessageData
    requires ServicesAreBytes(md)
  {
    Codec.MessageData(md.fromNode, AsBytes(md.fromService), md.toNode, AsBytes(md.toService),
                      md.hopsToLive, pack(md.data))
  }

  lemma {:induction false} StripBytes(s: string)
    requires IsBytes(s)
    ensures IsBytes(Strip(s, '\0')) && AsBytes(Strip(s, '\0')) == Strip(AsBytes(s), 0)
  {
    if s != "" && s[|s| - 1] == '\0' {
      assert AsBytes(s)[..|s| - 1] == AsBytes(s[..|s| - 1]);
      StripBytes(s[..|s| - 1]);
    }
  }

  lemma WireNameBytes(s: Messages.Service)
    requires IsBytes(s)
    ensures IsBytes(Messages.WireName(s)) && AsBytes(Messages.WireName(s)) == Codec.OnWire(AsBytes(s))
  {
    var cut := if |s| > 8 then s[..8] else s;
    StripBytes(cut);
    Codec.StripPadded(AsBytes(s), 8);
    assert AsBytes(cut) == if |s| > 8 then AsBytes(s)[..8] else AsBytes(s);
  }

  /** The bytes that a host writes to a connection for a message. */
  function Written(pack: Packing, h: Messages.Host, md: Messages.Message): seq<Byte>
    requires ServicesAreBytes(md) && md.hopsToLive > 0
  {
    Codec.Forwarded(Messages.NamingOf(h), OnTheWire(pack, md))
  }

  /**
    Decoding the bytes of a message at the next node is reading its packet there: it fails in the same
    cases, and otherwise gives the same message.
   */
  lemma DecodingIsReading(pack: Packing, sender: Messages.Host, receiver: Messages.Host, md: Messages.Message)
    requires ServicesAreBytes(md) && md.hopsToLive > 0
    ensures var r := Messages.Read(receiver, Messages.Outgoing(sender, md));
            var d := Codec.Decode(Filed(Messages.NamingOf(receiver), receiver.filed), Written(pack, sender, md));
            && (r.None? <==> d.None?)
            && (r.Some? ==> ServicesAreBytes(r.value) && d == Some(OnTheWire(pack, r.value)))
  {
    WireNameBytes(md.fromService);
    WireNameBytes(md.toService);
    var m := OnTheWire(pack, md);
    Codec.ForwardedIsEncoded(Messages.NamingOf(sender), m);
    Codec.DecodeEncoded(Messages.NamingOf(sender), Filed(Messages.NamingOf(receiver), receiver.filed),
                        m.(hopsToLive := m.hopsToLive - 1));
  }

  /** The next node decodes the message that was meant if and only if both node names get across. */
  lemma NextHopDecodesIff(pack: Packing, sender: Messages.Host, receiver: Messages.Host, md: Messages.Message)
    requires ServicesAreBytes(md) && md.hopsToLive > 0
    ensures ServicesAreBytes(Messages.Relayed(md))
    ensures Codec.Decode(Filed(Messages.NamingOf(receiver), receiver.filed), Written(pack, sender, md))
            == Some(OnTheWire(pack, Messages.Relayed(md)))
            <==>
            Messages.NameCrosses(sender, receiver, md.fromNode) && Messages.NameCrosses(sender, receiver, md.toNode)
  {
    WireNameBytes(md.fromService);
    WireNameBytes(md.toService);
    var m := OnTheWire(pack, md);
    var lowered := m.(hopsToLive := m.hopsToLive - 1);
    Codec.ForwardedIsEncoded(Messages.NamingOf(sender), m);
    Codec.ArrivesIff(Messages.NamingOf(sender), Messages.NamingOf(receiver), receiver.filed, lowered);
    assert Codec.AsCarried(lowered) == OnTheWire(pack, Messages.Relayed(md));
  }
}
