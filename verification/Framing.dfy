/** Framing of messages over a byte stream: a two-byte little-endian length before every message. */
module Framing {
  import opened Bytes

  type Msg = seq<Byte>

  /** The largest length the header can carry. */
  const MAX_LENGTH := 65535

  /** The header holds the length as an unsigned 16-bit number, so larger lengths wrap around. */
  function Frame(data: Msg): seq<Byte> {
    [|data| % 256, |data| / 256 % 256] + data
  }

  /** The two length bytes hold the length modulo 65536. */
  lemma LengthBytes(n: nat)
    ensures n % 65536 % 256 == n % 256 && n % 65536 / 256 == n / 256 % 256
    ensures n % 256 + 256 * (n / 256 % 256) == n % 65536
  {
    var q, r := n / 65536, n % 65536;
    assert n / 256 == 256 * q + r / 256;
  }

  lemma HeaderOf(data: Msg, rest: seq<Byte>)
    ensures Header(Frame(data) + rest) == |data| % 65536
    ensures |data| <= MAX_LENGTH ==> Header(Frame(data) + rest) == |data| && Ready(Frame(data) + rest)
  {
    LengthBytes(|data|);
    var buffer := Frame(data) + rest;
    assert buffer[0] == |data| % 256 && buffer[1] == |data| / 256 % 256;
  }

  function Header(buffer: seq<Byte>): nat
    requires |buffer| >= 2
  {
    buffer[0] as int + 256 * buffer[1] as int
  }

  predicate Ready(buffer: seq<Byte>) {
    |buffer| >= 2 && |buffer| >= Header(buffer) + 2
  }

  class Framer {
    var buffer: seq<Byte>

    constructor ()
      ensures buffer == []
    {
      buffer := [];
    }

    method SendData(data: Msg) returns (framed: seq<Byte>)
      ensures framed == Frame(data)
    {
      var size := |data| % 65536;
      LengthBytes(|data|);
      framed := [size % 256, size / 256] + data;
    }

    method RecvData(buf: seq<Byte>)
      modifies this
      ensures buffer == old(buffer) + buf
    {
      buffer := buffer + buf;
    }

    method MessageReady() returns (msgSize: nat, ready: bool)
      ensures ready == Ready(buffer)
      ensures |buffer| >= 2 ==> msgSize == Header(buffer)
    {
      if |buffer| < 2 {
        return 0, false;
      }
      msgSize := buffer[0] as int + 256 * buffer[1] as int;
      ready := |buffer| >= msgSize + 2;
    }

    /** A complete message is cut off the front of the buffer; without one the buffer stays as it is. */
    method GetMessage() returns (ok: bool, data: Msg)
      modifies this
      ensures ok == old(Ready(buffer))
      ensures ok ==> Frame(data) + buffer == old(buffer) && |data| <= MAX_LENGTH
      ensures !ok ==> buffer == old(buffer)
    {
      var msgSize, ready := MessageReady();
      if !ready {
        return false, [];
      }
      data := buffer[2..msgSize + 2];
      buffer := buffer[msgSize + 2..];
      HeaderOfFrame(old(buffer), data);
      return true, data;
    }
  }

  lemma HeaderOfFrame(buffer: seq<Byte>, data: Msg)
    requires Ready(buffer) && data == buffer[2..Header(buffer) + 2]
    ensures Frame(data) + buffer[Header(buffer) + 2..] == buffer
  {
    assert |data| % 256 == buffer[0] && |data| / 256 % 256 == buffer[1];
  }

  // ----- a reader fed in arbitrary chunks

  /** A chunk arrives, or the reader tries to take a message. */
  datatype Op = Feed(chunk: seq<Byte>) | Read

  datatype Reader = Reader(buffer: seq<Byte>, delivered: seq<Msg>)

  function Perform(r: Reader, op: Op): Reader {
    match op
    case Feed(chunk) => r.(buffer := r.buffer + chunk)
    case Read =>
      if !Ready(r.buffer) then r
      else
        var size := Header(r.buffer);
        Reader(r.buffer[size + 2..], r.delivered + [r.buffer[2..size + 2]])
  }

  function PerformAll(ops: seq<Op>): Reader {
    if ops == [] then Reader([], []) else Perform(PerformAll(ops[..|ops| - 1]), ops[|ops| - 1])
  }

  function Fed(ops: seq<Op>): seq<Byte> {
    if ops == [] then []
    else
      var last := ops[|ops| - 1];
      Fed(ops[..|ops| - 1]) + if last.Feed? then last.chunk else []
  }

  function Frames(msgs: seq<Msg>): seq<Byte> {
    if msgs == [] then [] else Frames(msgs[..|msgs| - 1]) + Frame(msgs[|msgs| - 1])
  }

  predicate Sendable(msgs: seq<Msg>) {
    forall i :: 0 <= i < |msgs| ==> |msgs[i]| <= MAX_LENGTH
  }

  /** A run of operations on a real framer does what `PerformAll` says. */
  method Drive(ops: seq<Op>) returns (delivered: seq<Msg>, left: seq<Byte>)
    ensures Reader(left, delivered) == PerformAll(ops)
  {
    var f := new Framer();
    delivered := [];
    for i := 0 to |ops|
      invariant Reader(f.buffer, delivered) == PerformAll(ops[..i])
    {
      assert ops[..i + 1][..i] == ops[..i];
      match ops[i]
      case Feed(chunk) => f.RecvData(chunk);
      case Read =>
        ghost var before := f.buffer;
        var ok, data := f.GetMessage();
        if ok {
          CutIsUnique(before, data, f.buffer);
          delivered := delivered + [data];
        }
    }
    assert ops[..|ops|] == ops;
    left := f.buffer;
  }

  lemma CutIsUnique(before: seq<Byte>, data: Msg, rest: seq<Byte>)
    requires Ready(before) && Frame(data) + rest == before && |data| <= MAX_LENGTH
    ensures data == before[2..Header(before) + 2] && rest == before[Header(before) + 2..]
  {
    HeaderOf(data, rest);
    assert before[2..|data| + 2] == data;
  }

  lemma ReadConserves(r: Reader)
    requires Ready(r.buffer)
    ensures Frames(Perform(r, Read).delivered) + Perform(r, Read).buffer == Frames(r.delivered) + r.buffer
    ensures |Perform(r, Read).delivered[|r.delivered|]| <= MAX_LENGTH
  {
    var r' := Perform(r, Read);
    var data := r.buffer[2..Header(r.buffer) + 2];
    HeaderOfFrame(r.buffer, data);
    assert r'.delivered[..|r.delivered|] == r.delivered;
    assert Frames(r'.delivered) == Frames(r.delivered) + Frame(data);
    assert (Frames(r.delivered) + Frame(data)) + r'.buffer == Frames(r.delivered) + (Frame(data) + r'.buffer);
  }

  lemma PerformConserves(r: Reader, op: Op)
    requires Sendable(r.delivered)
    ensures Frames(Perform(r, op).delivered) + Perform(r, op).buffer ==
            Frames(r.delivered) + r.buffer + if op.Feed? then op.chunk else []
    ensures Sendable(Perform(r, op).delivered)
  {
    if op.Feed? {
      assert Frames(r.delivered) + (r.buffer + op.chunk) == (Frames(r.delivered) + r.buffer) + op.chunk;
    } else if Ready(r.buffer) {
      ReadConserves(r);
    }
  }

  /**
    Nothing is lost or invented: the messages delivered, framed again, and the bytes still buffered
    are the bytes fed.
   */
  lemma {:induction false} BytesConserved(ops: seq<Op>)
    ensures Frames(PerformAll(ops).delivered) + PerformAll(ops).buffer == Fed(ops)
    ensures Sendable(PerformAll(ops).delivered)
  {
    if ops != [] {
      BytesConserved(ops[..|ops| - 1]);
      PerformConserves(PerformAll(ops[..|ops| - 1]), ops[|ops| - 1]);
    }
  }

  // ----- parsing is unambiguous

  lemma {:induction false} FramesFront(msgs: seq<Msg>)
    requires msgs != []
    ensures Frames(msgs) == Frame(msgs[0]) + Frames(msgs[1..])
  {
    if |msgs| == 1 {
      assert msgs[..0] == [] && msgs[1..] == [];
      assert Frames(msgs) == [] + Frame(msgs[0]);
    } else {
      var n := |msgs|;
      FramesFront(msgs[..n - 1]);
      assert msgs[..n - 1][1..] == msgs[1..][..n - 2];
      assert Frames(msgs[1..]) == Frames(msgs[1..][..n - 2]) + Frame(msgs[n - 1]);
      assert (Frame(msgs[0]) + Frames(msgs[1..][..n - 2])) + Frame(msgs[n - 1]) ==
             Frame(msgs[0]) + (Frames(msgs[1..][..n - 2]) + Frame(msgs[n - 1]));
    }
  }

  lemma FirstFrame(a: Msg, x: seq<Byte>, b: Msg, y: seq<Byte>)
    requires |a| <= MAX_LENGTH && |b| <= MAX_LENGTH
    requires Frame(a) + x <= Frame(b) + y
    ensures a == b && x <= y
  {
    var short, long := Frame(a) + x, Frame(b) + y;
    HeaderOf(a, x);
    HeaderOf(b, y);
    assert short[0] == long[0] && short[1] == long[1];
    assert |a| == |b|;
    assert short[2..|a| + 2] == a && long[2..|b| + 2] == b;
    assert short[|a| + 2..] == x && long[|b| + 2..] == y;
  }

  /** Whatever can be cut off the front of a framed sequence of messages is a prefix of that sequence. */
  lemma {:induction false} PrefixOfFrames(got: seq<Msg>, rest: seq<Byte>, msgs: seq<Msg>)
    requires Sendable(got) && Sendable(msgs) && Frames(got) + rest <= Frames(msgs)
    ensures got <= msgs && rest <= Frames(msgs[|got|..])
  {
    if got == [] {
      assert Frames(got) + rest == rest;
      assert msgs[0..] == msgs;
    } else {
      FramesFront(got);
      assert |Frames(got)| >= 2;
      assert msgs != [];
      FramesFront(msgs);
      var x, y := Frames(got[1..]) + rest, Frames(msgs[1..]);
      assert Frames(got) + rest == Frame(got[0]) + x;
      FirstFrame(got[0], x, msgs[0], y);
      PrefixOfFrames(got[1..], rest, msgs[1..]);
      assert got == [got[0]] + got[1..] && msgs == [msgs[0]] + msgs[1..];
      assert msgs[1..][|got| - 1..] == msgs[|got|..];
    }
  }

  // ----- the promises of the framer

  /** For every chunking and every interleaving of reads, what has been delivered is a prefix of what was sent. */
  lemma DeliveredIsPrefix(msgs: seq<Msg>, ops: seq<Op>)
    requires Sendable(msgs) && Fed(ops) <= Frames(msgs)
    ensures PerformAll(ops).delivered <= msgs
    ensures PerformAll(ops).buffer <= Frames(msgs[|PerformAll(ops).delivered|..])
  {
    BytesConserved(ops);
    PrefixOfFrames(PerformAll(ops).delivered, PerformAll(ops).buffer, msgs);
  }

  lemma PendingIsReady(msgs: seq<Msg>)
    requires Sendable(msgs) && msgs != []
    ensures Ready(Frames(msgs))
  {
    FramesFront(msgs);
    HeaderOf(msgs[0], Frames(msgs[1..]));
  }

  /** A read fails only if every message whose bytes are in has been delivered. */
  lemma AllDelivered(msgs: seq<Msg>, ops: seq<Op>)
    requires Sendable(msgs) && Fed(ops) == Frames(msgs)
    ensures PerformAll(ops).delivered == msgs <==> !Ready(PerformAll(ops).buffer)
  {
    DeliveredIsPrefix(msgs, ops);
    BytesConserved(ops);
    var got := PerformAll(ops).delivered;
    RestIsFrames(got, PerformAll(ops).buffer, msgs);
    if |got| < |msgs| {
      PendingIsReady(msgs[|got|..]);
    } else {
      assert msgs[|got|..] == [] && got == msgs;
    }
  }

  lemma {:induction false} RestIsFrames(got: seq<Msg>, rest: seq<Byte>, msgs: seq<Msg>)
    requires got <= msgs && Frames(got) + rest == Frames(msgs)
    ensures rest == Frames(msgs[|got|..])
  {
    if got == [] {
      assert msgs[0..] == msgs && Frames(got) + rest == rest;
    } else {
      FramesFront(got);
      FramesFront(msgs);
      assert Frames(got) + rest == Frame(got[0]) + (Frames(got[1..]) + rest);
      assert (Frame(got[0]) + (Frames(got[1..]) + rest))[|got[0]| + 2..] == Frames(got[1..]) + rest;
      assert (Frame(msgs[0]) + Frames(msgs[1..]))[|got[0]| + 2..] == Frames(msgs[1..]);
      RestIsFrames(got[1..], rest, msgs[1..]);
      assert msgs[1..][|got| - 1..] == msgs[|got|..];
    }
  }

  /** A message comes back whole from its own frame if and only if its length fits the header. */
  lemma RoundTripIff(data: Msg)
    ensures Perform(Reader(Frame(data), []), Read) == Reader([], [data]) <==> |data| <= MAX_LENGTH
  {
    var buffer := Frame(data);
    HeaderOf(data, []);
    assert buffer + [] == buffer;
    if |data| <= MAX_LENGTH {
      assert buffer[2..|data| + 2] == data && buffer[|data| + 2..] == [];
    } else {
      assert |buffer[2..Header(buffer) + 2]| < |data|;
    }
  }
}
