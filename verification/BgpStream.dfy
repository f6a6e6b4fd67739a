/** BGP packets and the receive loop that cuts them out of a byte stream. */
module BgpStream {
  import opened Bytes

  const BGP_HEAD_LEN := 19
  const BGP_MARKER_LEN := 16
  const OPEN: byte := 1
  const UPDATE: byte := 2
  const KEEPALIVE: byte := 4

  // ---------------------------------------------------------------- packets

  function Marker(): (r: seq<byte>)
    ensures |r| == BGP_MARKER_LEN
  {
    seq(BGP_MARKER_LEN, _ => 255)
  }

  /** Marker, length modulo 2^16, type and body. */
  function BgpPacket(kind: byte, body: seq<byte>): (r: seq<byte>)
    ensures |r| == BGP_HEAD_LEN + |body|
  {
    Marker() + U16(BGP_HEAD_LEN + |body|) + [kind] + body
  }

  lemma PacketHeader(kind: byte, body: seq<byte>, more: seq<byte>)
    ensures var s := BgpPacket(kind, body) + more;
            ReadU16(s[16], s[17]) == (BGP_HEAD_LEN + |body|) % 0x1_0000 && s[18] == kind
  {
    ReadBackU16(BGP_HEAD_LEN + |body|);
    var p := BgpPacket(kind, body);
    assert p[16] == U16(BGP_HEAD_LEN + |body|)[0] && p[17] == U16(BGP_HEAD_LEN + |body|)[1] && p[18] == kind;
  }

  /** The form of section 4.1 of RFC 4271: sixteen octets of ones, the length of the whole message, its type and the
      body. */
  lemma PacketForm(kind: byte, body: seq<byte>)
    requires 19 + |body| <= 65535
    ensures var p := BgpPacket(kind, body);
            && |p| == 19 + |body| && (forall i :: 0 <= i < 16 ==> p[i] == 255)
            && ReadU16(p[16], p[17]) == |p| && p[18] == kind && p[19..] == body
  {
    PacketHeader(kind, body, []);
    assert BgpPacket(kind, body) + [] == BgpPacket(kind, body);
  }

  // ----------------------------------------------------------- receive loop

  /** What the handler sees of a packet: the type octet of the header and the octets cut out. */
  datatype Received = Received(kind: byte, packet: seq<byte>)

  /** Packets cut out, octets kept, and whether the loop spins on a header of length zero. */
  datatype Drained = Drained(packets: seq<Received>, rest: seq<byte>, spinning: bool)

  function Drain(buffer: seq<byte>): Drained
    decreases |buffer|
  {
    if |buffer| < BGP_HEAD_LEN then Drained([], buffer, false)
    else
      var length := ReadU16(buffer[16], buffer[17]);
      if |buffer| < length then Drained([], buffer, false)
      else if length == 0 then Drained([], buffer, true)
      else Cons(Received(buffer[18], buffer[..length]), Drain(buffer[length..]))
  }

  function Cons(r: Received, d: Drained): Drained {
    d.(packets := [r] + d.packets)
  }

  function Join(packets: seq<Received>, d: Drained): Drained {
    d.(packets := packets + d.packets)
  }

  lemma DrainPacket(packet: seq<byte>, more: seq<byte>)
    requires |packet| >= 1 && |packet + more| >= BGP_HEAD_LEN
    requires ReadU16((packet + more)[16], (packet + more)[17]) == |packet|
    ensures Drain(packet + more) == Cons(Received((packet + more)[18], packet), Drain(more))
  {
    var s := packet + more;
    assert s[..|packet|] == packet && s[|packet|..] == more;
  }

  lemma JoinAssociative(r: Received, packets: seq<Received>, d: Drained)
    ensures Cons(r, Join(packets, d)) == Join([r] + packets, d)
    ensures Join([], d) == d
  {
    assert [r] + (packets + d.packets) == [r] + packets + d.packets;
    assert [] + d.packets == d.packets;
  }

  /** Cutting packets out early makes no difference to what follows. */
  ghost predicate AppendLaw(a: seq<byte>, b: seq<byte>) {
    var d := Drain(a);
    if d.spinning then Drain(a + b) == Drained(d.packets, d.rest + b, true)
    else Drain(a + b) == Join(d.packets, Drain(d.rest + b))
  }

  lemma {:induction false} DrainAppend(a: seq<byte>, b: seq<byte>)
    ensures AppendLaw(a, b)
    decreases |a|
  {
    if |a| < BGP_HEAD_LEN || |a| < ReadU16(a[16], a[17]) {
      JoinAssociative(Received(0, []), [], Drain(a + b));
    } else {
      var length := ReadU16(a[16], a[17]);
      if length > 0 {
        DrainAppend(a[length..], b);
        AppendLawStep(a[..length], a[length..], b);
        assert a == a[..length] + a[length..];
      }
    }
  }

  lemma AppendLawStep(packet: seq<byte>, a: seq<byte>, b: seq<byte>)
    requires |packet| >= 1 && |packet + a| >= BGP_HEAD_LEN
    requires ReadU16((packet + a)[16], (packet + a)[17]) == |packet|
    requires AppendLaw(a, b)
    ensures AppendLaw(packet + a, b)
  {
    var inner, r := Drain(a), Received((packet + a)[18], packet);
    DrainPacket(packet, a);
    assert packet + a + b == packet + (a + b);
    DrainPacket(packet, a + b);
    JoinAssociative(r, inner.packets, Drain(inner.rest + b));
  }

  function Flatten(chunks: seq<seq<byte>>): seq<byte> {
    if chunks == [] then [] else Flatten(chunks[..|chunks| - 1]) + chunks[|chunks| - 1]
  }

  /** The handler run on one chunk after another; once it spins it never returns. */
  function Feed(chunks: seq<seq<byte>>): Drained
    decreases |chunks|
  {
    if chunks == [] then Drained([], [], false)
    else
      var before := Feed(chunks[..|chunks| - 1]);
      if before.spinning then before else Join(before.packets, Drain(before.rest + chunks[|chunks| - 1]))
  }

  /** However the stream is split, the loop delivers the packets of the whole stream and keeps its incomplete
      tail. */
  lemma {:induction false} ChunkingDoesNotMatter(chunks: seq<seq<byte>>)
    ensures var all := Drain(Flatten(chunks));
            && Feed(chunks).packets == all.packets && Feed(chunks).spinning == all.spinning
            && (!all.spinning ==> Feed(chunks) == all)
    decreases |chunks|
  {
    if chunks != [] {
      var init, last := chunks[..|chunks| - 1], chunks[|chunks| - 1];
      ChunkingDoesNotMatter(init);
      DrainAppend(Flatten(init), last);
    }
  }

  // -------------------------------------------------------------- round trip

  datatype Packet = Packet(kind: byte, body: seq<byte>)

  const MAX_BODY := 65535 - BGP_HEAD_LEN

  function Stream(packets: seq<Packet>): seq<byte> {
    if packets == [] then [] else BgpPacket(packets[0].kind, packets[0].body) + Stream(packets[1..])
  }

  function AsReceived(packets: seq<Packet>): seq<Received> {
    seq(|packets|, i requires 0 <= i < |packets| =>
          Received(packets[i].kind, BgpPacket(packets[i].kind, packets[i].body)))
  }

  /** Not yet a whole packet. */
  predicate Incomplete(tail: seq<byte>) {
    |tail| < BGP_HEAD_LEN || |tail| < ReadU16(tail[16], tail[17])
  }

  lemma StreamCons(packets: seq<Packet>, tail: seq<byte>)
    requires packets != []
    ensures Stream(packets) + tail
            == BgpPacket(packets[0].kind, packets[0].body) + (Stream(packets[1..]) + tail)
  {
  }

  lemma ReceivedCons(packets: seq<Packet>)
    requires packets != []
    ensures AsReceived(packets)
            == [Received(packets[0].kind, BgpPacket(packets[0].kind, packets[0].body))] + AsReceived(packets[1..])
  {
  }

  lemma FirstPacket(p: Packet, more: seq<byte>)
    requires |p.body| <= MAX_BODY
    ensures Drain(BgpPacket(p.kind, p.body) + more) == Cons(Received(p.kind, BgpPacket(p.kind, p.body)), Drain(more))
  {
    PacketHeader(p.kind, p.body, more);
    DrainPacket(BgpPacket(p.kind, p.body), more);
  }

  lemma {:induction false} StreamRoundTrip(packets: seq<Packet>, tail: seq<byte>)
    requires forall p :: p in packets ==> |p.body| <= MAX_BODY
    requires Incomplete(tail)
    ensures Drain(Stream(packets) + tail) == Drained(AsReceived(packets), tail, false)
    decreases |packets|
  {
    if packets == [] {
      assert Stream(packets) + tail == tail;
    } else {
      var p, rest := packets[0], packets[1..];
      calc {
        Drain(Stream(packets) + tail);
        { StreamCons(packets, tail); }
        Drain(BgpPacket(p.kind, p.body) + (Stream(rest) + tail));
        { FirstPacket(p, Stream(rest) + tail); }
        Cons(Received(p.kind, BgpPacket(p.kind, p.body)), Drain(Stream(rest) + tail));
        { StreamRoundTrip(rest, tail); }
        Cons(Received(p.kind, BgpPacket(p.kind, p.body)), Drained(AsReceived(rest), tail, false));
        { ReceivedCons(packets); }
        Drained(AsReceived(packets), tail, false);
      }
    }
  }

  /** For every list of packets, every tail and every split into chunks, exactly the packets come out. */
  lemma ReassemblyIsExact(packets: seq<Packet>, tail: seq<byte>, chunks: seq<seq<byte>>)
    requires forall p :: p in packets ==> |p.body| <= MAX_BODY
    requires Incomplete(tail) && Flatten(chunks) == Stream(packets) + tail
    ensures Feed(chunks) == Drained(AsReceived(packets), tail, false)
  {
    StreamRoundTrip(packets, tail);
    ChunkingDoesNotMatter(chunks);
  }

  /** A packet comes out whole exactly when its length fits the header field. */
  lemma PacketSurvivesIff(p: Packet)
    ensures Drain(BgpPacket(p.kind, p.body)) == Drained(AsReceived([p]), [], false) <==> |p.body| <= MAX_BODY
  {
    var s := BgpPacket(p.kind, p.body);
    PacketHeader(p.kind, p.body, []);
    assert s + [] == s;
    if |p.body| <= MAX_BODY {
      assert Stream([p]) + [] == s;
      StreamRoundTrip([p], []);
    } else {
      assert AsReceived([p])[0].packet == s;
    }
  }

  // ---------------------------------------------------------------- no progress

  /** Cutting off whole packets, each as long as its header says, brings the loop to octet `n`. */
  predicate CutsTo(buffer: seq<byte>, n: nat)
    decreases |buffer|
  {
    n == 0 ||
    (|buffer| >= BGP_HEAD_LEN
     && var length := ReadU16(buffer[16], buffer[17]);
        0 < length <= |buffer| && length <= n && CutsTo(buffer[length..], n - length))
  }

  /** A complete header at octet `n` gives the length zero. */
  predicate ZeroLengthAt(buffer: seq<byte>, n: nat) {
    n + BGP_HEAD_LEN <= |buffer| && ReadU16(buffer[n + 16], buffer[n + 17]) == 0
  }

  /** The loop makes no progress exactly when some cut brings it to a complete header of length zero. */
  lemma {:induction false} SpinsIff(buffer: seq<byte>)
    ensures Drain(buffer).spinning <==> exists n: nat :: CutsTo(buffer, n) && ZeroLengthAt(buffer, n)
    decreases |buffer|
  {
    if |buffer| >= BGP_HEAD_LEN && 0 < ReadU16(buffer[16], buffer[17]) <= |buffer| {
      var length := ReadU16(buffer[16], buffer[17]);
      var rest := buffer[length..];
      SpinsIff(rest);
      forall n: nat | CutsTo(rest, n) && ZeroLengthAt(rest, n)
        ensures CutsTo(buffer, length + n) && ZeroLengthAt(buffer, length + n)
      {
        assert length + n - length == n;
      }
      forall n: nat | CutsTo(buffer, n) && ZeroLengthAt(buffer, n) ensures n >= length && CutsTo(rest, n - length)
        ensures n >= length && ZeroLengthAt(rest, n - length)
      {
      }
    } else if |buffer| >= BGP_HEAD_LEN && ReadU16(buffer[16], buffer[17]) == 0 {
      assert CutsTo(buffer, 0) && ZeroLengthAt(buffer, 0);
    } else {
      assert forall n: nat :: CutsTo(buffer, n) ==> n == 0;
    }
  }

  /** A body of 65517 octets makes the length field zero: nothing is cut out, now or with more octets behind it. */
  lemma FullWrapSpins(kind: byte, body: seq<byte>, more: seq<byte>)
    requires |body| == 65517
    ensures Drain(BgpPacket(kind, body) + more) == Drained([], BgpPacket(kind, body) + more, true)
  {
    PacketHeader(kind, body, more);
  }

  /** A stream of built packets with an incomplete tail stops making progress only if some body is too long for
      its header. */
  lemma SpinsOnlyOnLongBody(packets: seq<Packet>, tail: seq<byte>)
    requires Incomplete(tail) && Drain(Stream(packets) + tail).spinning
    ensures exists p :: p in packets && |p.body| > MAX_BODY
  {
    if forall p :: p in packets ==> |p.body| <= MAX_BODY {
      StreamRoundTrip(packets, tail);
    }
  }

  lemma JoinOne(done: seq<Received>, r: Received, d: Drained)
    ensures Join(done, Cons(r, d)) == Join(done + [r], d)
  {
    assert done + ([r] + d.packets) == done + [r] + d.packets;
  }

  // ------------------------------------------------------------------ source

  /** Message types as in section 4.1 of RFC 4271: 1 is OPEN, 2 UPDATE and 4 KEEPALIVE. */
  predicate SawOpen(packets: seq<Received>) {
    exists r | r in packets :: r.kind == 1
  }

  predicate SawKeepalive(packets: seq<Received>) {
    exists r | r in packets :: r.kind == 4
  }

  function Updates(packets: seq<Received>): nat {
    if packets == [] then 0 else (if packets[0].kind == 2 then 1 else 0) + Updates(packets[1..])
  }

  lemma {:induction false} OneMoreUpdate(packets: seq<Received>, r: Received)
    ensures Updates(packets + [r]) == Updates(packets) + if r.kind == UPDATE then 1 else 0
  {
    var more := packets + [r];
    if packets == [] {
      assert more == [r] && more[1..] == [];
    } else {
      assert more[1..] == packets[1..] + [r];
      OneMoreUpdate(packets[1..], r);
    }
  }

  lemma OneMore(packets: seq<Received>, r: Received)
    ensures SawOpen(packets + [r]) == (SawOpen(packets) || r.kind == OPEN)
    ensures SawKeepalive(packets + [r]) == (SawKeepalive(packets) || r.kind == KEEPALIVE)
    ensures Updates(packets + [r]) == Updates(packets) + if r.kind == UPDATE then 1 else 0
  {
    OneMoreUpdate(packets, r);
    assert r in packets + [r];
    assert forall x :: x in packets + [r] <==> x in packets || x == r;
  }

  /** The client's receive side: the buffer, the flags and the counter its data handler updates. */
  class BgpClient {
    var packetBuffer: seq<byte>
    var keepaliveSent: bool
    var established: bool
    var updateCount: nat
    var spinning: bool
    ghost var received: seq<Received>

    /** Flags and counter say which packets have been received. */
    ghost predicate Valid()
      reads this
    {
      keepaliveSent == SawOpen(received) && established == SawKeepalive(received) && updateCount == Updates(received)
    }

    constructor ()
      ensures Valid() && received == [] && packetBuffer == [] && !spinning
    {
      packetBuffer, keepaliveSent, established, updateCount, spinning := [], false, false, 0, false;
      received := [];
    }

    method Handle(r: Received)
      requires Valid()
      modifies this
      ensures Valid() && received == old(received) + [r]
      ensures packetBuffer == old(packetBuffer) && spinning == old(spinning)
    {
      ghost var more := received + [r];
      OneMore(received, r);
      received := more;
      if r.kind == OPEN {
        keepaliveSent := true;
      } else if r.kind == KEEPALIVE {
        established := true;
      } else if r.kind == UPDATE {
        updateCount := updateCount + 1;
      }
    }

    method OnData(chunk: seq<byte>)
      requires Valid() && !spinning
      modifies this
      ensures Valid()
      ensures var d := Drain(old(packetBuffer) + chunk);
              received == old(received) + d.packets && packetBuffer == d.rest && spinning == d.spinning
    {
      packetBuffer := packetBuffer + chunk;
      ghost var all, done := Drain(packetBuffer), [];
      while |packetBuffer| >= BGP_HEAD_LEN
        invariant Valid() && !spinning
        invariant received == old(received) + done
        invariant all == Join(done, Drain(packetBuffer))
        decreases |packetBuffer|
      {
        var length := ReadU16(packetBuffer[16], packetBuffer[17]);
        var kind := packetBuffer[18];
        if |packetBuffer| < length {
          break;
        }
        if length == 0 {
          spinning := true;
          return;
        }
        var r := Received(kind, packetBuffer[..length]);
        packetBuffer := packetBuffer[length..];
        JoinOne(done, r, Drain(packetBuffer));
        done := done + [r];
        Handle(r);
      }
    }
  }
}
