/** RADIUS packets back to back on a byte stream, delimited by their Length field (section 3 of RFC 2865). */
module Framing {
  import opened Wrappers
  import opened Octets
  import opened Radius

  const MIN_RADIUS_LEN := 20
  const MAX_RADIUS_LEN := 4096
  const RADIUS_HEADER_LEN := 4

  datatype FrameError = Io | BadFrameLength(len: nat) | Undecodable

  datatype Read = Read(rest: Bytes, r: Result<Packet, FrameError>)

  function DeclaredLength(header: Bytes): nat
    requires |header| >= RADIUS_HEADER_LEN
  {
    FromBe16(header[2], header[3])
  }

  /** Read one packet off the front of `input`; a short read drains the stream. */
  function ReadOne(codec: Codec, input: Bytes): Read {
    if |input| < RADIUS_HEADER_LEN then Read([], Err(Io))
    else
      var len := DeclaredLength(input);
      if len < MIN_RADIUS_LEN || len > MAX_RADIUS_LEN then Read(input[RADIUS_HEADER_LEN..], Err(BadFrameLength(len)))
      else if |input| < len then Read([], Err(Io))
      else
        match codec.decode(input[..len])
        case None => Read(input[len..], Err(Undecodable))
        case Some(p) => Read(input[len..], Ok(p))
  }

  // ---- the stream ends ----

  class Stream {
    var data: Bytes

    constructor (data: Bytes)
      ensures this.data == data
    {
      this.data := data;
    }

    method ReadExact(n: nat) returns (r: Result<Bytes, FrameError>)
      modifies this
      ensures if n <= |old(data)| then r == Ok(old(data)[..n]) && data == old(data)[n..] else r == Err(Io) && data == []
    {
      if n <= |data| {
        r := Ok(data[..n]);
        data := data[n..];
      } else {
        r := Err(Io);
        data := [];
      }
    }

    method ReadPacket(codec: Codec) returns (r: Result<Packet, FrameError>)
      modifies this
      ensures Read(data, r) == ReadOne(codec, old(data))
    {
      var header := ReadExact(RADIUS_HEADER_LEN);
      if header.Err? {
        return Err(header.error);
      }
      var len := DeclaredLength(header.value);
      if len < MIN_RADIUS_LEN || len > MAX_RADIUS_LEN {
        return Err(BadFrameLength(len));
      }
      var body := ReadExact(len - RADIUS_HEADER_LEN);
      if body.Err? {
        return Err(body.error);
      }
      assert header.value + body.value == old(data)[..len];
      var p := codec.decode(header.value + body.value);
      r := if p.None? then Err(Undecodable) else Ok(p.value);
    }

    /** `fault` is the number of octets the writer takes before it fails, if it does; a failed flush comes after all. */
    method WritePacket(codec: Codec, p: Packet, fault: Option<nat>) returns (r: Result<(), FrameError>)
      modifies this
      ensures match codec.encode(p)
              case None => r == Err(Undecodable) && data == old(data)
              case Some(bytes) =>
                if fault.None? then r == Ok(()) && data == old(data) + bytes
                else r == Err(Io) && data == old(data) + if fault.value < |bytes| then bytes[..fault.value] else bytes
    {
      var bytes := codec.encode(p);
      if bytes.None? {
        return Err(Undecodable);
      }
      if fault.Some? {
        data := data + if fault.value < |bytes.value| then bytes.value[..fault.value] else bytes.value;
        return Err(Io);
      }
      data := data + bytes.value;
      r := Ok(());
    }
  }

  // ---- self-delimitation ----

  /** The octets of one packet, if it encodes. */
  function Frame(codec: Codec, p: Packet): Bytes {
    match codec.encode(p)
    case Some(b) => b
    case None => []
  }

  /** `p` encodes to a frame of legal size that states its own length and decodes back. */
  ghost predicate WellFramed(codec: Codec, p: Packet) {
    && codec.encode(p) == Some(Frame(codec, p))
    && MIN_RADIUS_LEN <= |Frame(codec, p)| <= MAX_RADIUS_LEN
    && DeclaredLength(Frame(codec, p)) == |Frame(codec, p)|
    && codec.decode(Frame(codec, p)) == Some(p)
  }

  ghost predicate AllFramed(codec: Codec, ps: seq<Packet>) {
    ps == [] || (WellFramed(codec, ps[0]) && AllFramed(codec, ps[1..]))
  }

  /** The octets of `ps`, back to back. */
  function Wire(codec: Codec, ps: seq<Packet>): Bytes {
    if ps == [] then [] else Frame(codec, ps[0]) + Wire(codec, ps[1..])
  }

  datatype Received = Received(packets: seq<Packet>, stopped: Option<FrameError>)

  /** Read packets until the stream is used up or a read fails. */
  function ReadAll(codec: Codec, input: Bytes): Received
    decreases |input|
  {
    if input == [] then Received([], None)
    else
      var one := ReadOne(codec, input);
      match one.r
      case Err(e) => Received([], Some(e))
      case Ok(p) =>
        var more := ReadAll(codec, one.rest);
        Received([p] + more.packets, more.stopped)
  }

  /** Reading takes a frame off the front of any stream that starts with it. */
  lemma ReadFrame(codec: Codec, p: Packet, tail: Bytes)
    requires WellFramed(codec, p)
    ensures ReadOne(codec, Frame(codec, p) + tail) == Read(tail, Ok(p))
  {
    var b := Frame(codec, p);
    assert (b + tail)[..|b|] == b && (b + tail)[|b|..] == tail;
  }

  /** Whatever follows, a successful read depends only on the octets it consumed, and it consumes the declared length. */
  lemma ReadDelimits(codec: Codec, input: Bytes, tail: Bytes)
    requires ReadOne(codec, input).r.Ok?
    ensures var one := ReadOne(codec, input);
            var n := |input| - |one.rest|;
            && MIN_RADIUS_LEN <= n == DeclaredLength(input) <= MAX_RADIUS_LEN
            && input == input[..n] + one.rest
            && ReadOne(codec, input[..n] + tail) == Read(tail, one.r)
  {
    var n := DeclaredLength(input);
    assert (input[..n] + tail)[..n] == input[..n] && (input[..n] + tail)[n..] == tail;
  }

  lemma ReadAllFrame(codec: Codec, p: Packet, tail: Bytes)
    requires WellFramed(codec, p)
    ensures var more := ReadAll(codec, tail);
            ReadAll(codec, Frame(codec, p) + tail) == Received([p] + more.packets, more.stopped)
  {
    ReadFrame(codec, p, tail);
  }

  lemma WireCons(codec: Codec, ps: seq<Packet>, tail: Bytes)
    requires ps != []
    ensures Wire(codec, ps) + tail == Frame(codec, ps[0]) + (Wire(codec, ps[1..]) + tail)
  {
    assert (Frame(codec, ps[0]) + Wire(codec, ps[1..])) + tail == Frame(codec, ps[0]) + (Wire(codec, ps[1..]) + tail);
  }

  lemma Refold<T>(s: seq<T>, t: seq<T>)
    requires s != []
    ensures [s[0]] + (s[1..] + t) == s + t
  {
    assert [s[0]] + s[1..] == s;
  }

  /** Whole frames are read off any stream, whatever follows them. */
  lemma {:induction false} ReadAllWire(codec: Codec, ps: seq<Packet>, tail: Bytes)
    requires AllFramed(codec, ps)
    ensures ReadAll(codec, Wire(codec, ps) + tail)
         == Received(ps + ReadAll(codec, tail).packets, ReadAll(codec, tail).stopped)
  {
    if ps == [] {
      assert Wire(codec, ps) + tail == tail;
    } else {
      var after := ReadAll(codec, tail).packets;
      ReadAllWire(codec, ps[1..], tail);
      ReadAllFrame(codec, ps[0], Wire(codec, ps[1..]) + tail);
      WireCons(codec, ps, tail);
      Refold(ps, after);
    }
  }

  /** Self-delimiting: the packets written are the packets read, and all of the stream is used. */
  lemma StreamRoundTrip(codec: Codec, ps: seq<Packet>)
    requires AllFramed(codec, ps)
    ensures ReadAll(codec, Wire(codec, ps)) == Received(ps, None)
  {
    ReadAllWire(codec, ps, []);
    assert Wire(codec, ps) + [] == Wire(codec, ps);
  }

  /** A truncated last frame is an error rather than a packet, and the packets before it are read. */
  lemma TruncatedTail(codec: Codec, ps: seq<Packet>, last: Packet, cut: nat)
    requires AllFramed(codec, ps) && WellFramed(codec, last) && 0 < cut < |Frame(codec, last)|
    ensures ReadAll(codec, Wire(codec, ps) + Frame(codec, last)[..cut]) == Received(ps, Some(Io))
  {
    var tail := Frame(codec, last)[..cut];
    ReadAllWire(codec, ps, tail);
    assert ReadOne(codec, tail).r == Err(Io);
  }
}
