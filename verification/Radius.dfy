/**
 RADIUS packets as the client builds and reads them: EAP-Message fragments
 (section 3.1 of RFC 3579), the Message-Authenticator (section 3.2) and replies.
 The wire codec, the HMAC and the Response Authenticator check belong to another
 library: they are arbitrary functions here.
 */
module Radius {
  import opened Wrappers
  import opened Octets
  import opened PaeTypes

  const USER_NAME: Byte := 1
  const NAS_IP_ADDRESS: Byte := 4
  const NAS_PORT: Byte := 5
  const SERVICE_TYPE: Byte := 6
  const FILTER_ID: Byte := 11
  const STATE: Byte := 24
  const CLASS: Byte := 25
  const SESSION_TIMEOUT: Byte := 27
  const CALLED_STATION_ID: Byte := 30
  const CALLING_STATION_ID: Byte := 31
  const NAS_IDENTIFIER: Byte := 32
  const NAS_PORT_TYPE: Byte := 61
  const TUNNEL_TYPE: Byte := 64
  const TUNNEL_MEDIUM_TYPE: Byte := 65
  const EAP_MESSAGE: Byte := 79
  const MESSAGE_AUTHENTICATOR: Byte := 80
  const TUNNEL_PRIVATE_GROUP_ID: Byte := 81
  const NAS_PORT_ID: Byte := 87

  const MAX_ATTR_VALUE := 253
  const SERVICE_TYPE_FRAMED: U32 := 2
  const SERVICE_TYPE_CALL_CHECK: U32 := 10
  const NAS_PORT_TYPE_ETHERNET: U32 := 15
  const TUNNEL_TYPE_VLAN := 13
  const TUNNEL_MEDIUM_802 := 6
  const MAX_TAG_OCTET := 0x1F

  datatype Code = RequestCode | AcceptCode | RejectCode | ChallengeCode | OtherCode(octet: Byte)

  datatype Attr = Attr(kind: Byte, value: Bytes)

  datatype Packet = Packet(code: Code, identifier: Byte, authenticator: Digest, attrs: seq<Attr>)

  /** The library the client relies on, as deterministic but otherwise arbitrary functions. */
  datatype Codec = Codec(
    attrOk: (Byte, Bytes) -> bool,
    encode: Packet -> Option<Bytes>,
    decode: Bytes -> Option<Packet>,
    hmac: (Bytes, Bytes) -> Digest,
    responseOk: (Packet, Digest, Bytes) -> bool,
    userNameOk: Bytes -> bool,
    text: Bytes -> string)

  datatype RadiusError =
    | Proto | InvalidUserName | UnexpectedReplyCode | MissingEapMessage | EmptyEapRelay | MalformedVlanAssignment

  // ---- attributes ----

  function FindAttr(attrs: seq<Attr>, kind: Byte): Option<Bytes> {
    if attrs == [] then None else if attrs[0].kind == kind then Some(attrs[0].value) else FindAttr(attrs[1..], kind)
  }

  function Count(attrs: seq<Attr>, kind: Byte): nat {
    if attrs == [] then 0 else (if attrs[0].kind == kind then 1 else 0) + Count(attrs[1..], kind)
  }

  predicate AllOk(codec: Codec, attrs: seq<Attr>) {
    forall i :: 0 <= i < |attrs| ==> codec.attrOk(attrs[i].kind, attrs[i].value)
  }

  function Be32(n: U32): Bytes {
    [n / 0x100_0000, n / 0x1_0000 % 256, n / 256 % 256, n % 256]
  }

  function FromBe32(a: Byte, b: Byte, c: Byte, d: Byte): U32 {
    a * 0x100_0000 + b * 0x1_0000 + c * 256 + d
  }

  function HexDigit(n: int): Byte
    requires 0 <= n < 16
  {
    if n < 10 then 48 + n else 55 + n
  }

  /** `AA-BB-CC-DD-EE-FF`. */
  function FormatMac(mac: Bytes): Bytes {
    if mac == [] then []
    else
      var octet := [HexDigit(mac[0] / 16), HexDigit(mac[0] % 16)];
      if |mac| == 1 then octet else octet + [45] + FormatMac(mac[1..])
  }

  // ---- EAP-Message ----

  /** `eap` cut into chunks of at most 253 octets. */
  function Fragments(eap: Bytes): seq<Bytes> {
    if eap == [] then []
    else if |eap| <= MAX_ATTR_VALUE then [eap]
    else [eap[..MAX_ATTR_VALUE]] + Fragments(eap[MAX_ATTR_VALUE..])
  }

  function EapAttrs(chunks: seq<Bytes>): seq<Attr> {
    seq(|chunks|, i requires 0 <= i < |chunks| => Attr(EAP_MESSAGE, chunks[i]))
  }

  /** Every EAP-Message value, in order. */
  function Reassemble(attrs: seq<Attr>): Bytes {
    if attrs == [] then []
    else (if attrs[0].kind == EAP_MESSAGE then attrs[0].value else []) + Reassemble(attrs[1..])
  }

  // ---- the Message-Authenticator ----

  const ZEROS: Digest := [0, 0, 0, 0, 0, 0, 0, 0, 0, 0, 0, 0, 0, 0, 0, 0]

  function SetMa(attrs: seq<Attr>, v: Bytes): seq<Attr> {
    seq(|attrs|, i requires 0 <= i < |attrs| =>
      if attrs[i].kind == MESSAGE_AUTHENTICATOR then Attr(MESSAGE_AUTHENTICATOR, v) else attrs[i])
  }

  predicate HasMa(attrs: seq<Attr>) {
    exists i :: 0 <= i < |attrs| && attrs[i].kind == MESSAGE_AUTHENTICATOR
  }

  /** The attributes with a placeholder in place, as they are encoded for the HMAC. */
  function BlankAttrs(attrs: seq<Attr>): seq<Attr> {
    SetMa(if HasMa(attrs) then attrs else attrs + [Attr(MESSAGE_AUTHENTICATOR, ZEROS)], ZEROS)
  }

  function WithAttrs(p: Packet, attrs: seq<Attr>): Packet {
    Packet(p.code, p.identifier, p.authenticator, attrs)
  }

  function Seal(codec: Codec, p: Packet, secret: Bytes): Result<Packet, RadiusError> {
    if !HasMa(p.attrs) && !codec.attrOk(MESSAGE_AUTHENTICATOR, ZEROS) then Err(Proto)
    else
      match codec.encode(WithAttrs(p, BlankAttrs(p.attrs)))
      case None => Err(Proto)
      case Some(bytes) => Ok(WithAttrs(p, SetMa(BlankAttrs(p.attrs), codec.hmac(bytes, secret))))
  }

  function VerifyMa(codec: Codec, reply: Packet, requestAuth: Digest, secret: Bytes): bool {
    match FindAttr(reply.attrs, MESSAGE_AUTHENTICATOR)
    case None => FindAttr(reply.attrs, EAP_MESSAGE).None?
    case Some(received) =>
      |received| == 16 &&
      match codec.encode(Packet(reply.code, reply.identifier, requestAuth, SetMa(reply.attrs, ZEROS)))
      case None => false
      case Some(bytes) => codec.hmac(bytes, secret) == received
  }

  function VerifyReply(codec: Codec, reply: Packet, requestAuth: Digest, secret: Bytes): bool {
    codec.responseOk(reply, requestAuth, secret) && VerifyMa(codec, reply, requestAuth, secret)
  }

  // ---- requests ----

  datatype RequestContext = RequestContext(
    nasIp: Option<Bytes>,
    nasIdentifier: Bytes,
    nasPortId: Bytes,
    nasPort: Option<U32>,
    callingStation: Mac,
    calledStation: Mac)

  function IfSome(kind: Byte, v: Option<Bytes>): seq<Attr> {
    if v.Some? then [Attr(kind, v.value)] else []
  }

  function NasAttrs(ctx: RequestContext): seq<Attr> {
    IfSome(NAS_IP_ADDRESS, ctx.nasIp)
    + [Attr(NAS_IDENTIFIER, ctx.nasIdentifier),
       Attr(NAS_PORT_ID, ctx.nasPortId),
       Attr(NAS_PORT_TYPE, Be32(NAS_PORT_TYPE_ETHERNET))]
    + IfSome(NAS_PORT, if ctx.nasPort.Some? then Some(Be32(ctx.nasPort.value)) else None)
    + [Attr(CALLING_STATION_ID, FormatMac(ctx.callingStation)),
       Attr(CALLED_STATION_ID, FormatMac(ctx.calledStation))]
  }

  /** Everything of an EAP Access-Request before the EAP-Message fragments. */
  function EapPreamble(ctx: RequestContext, identity: Option<Bytes>, state: Option<Bytes>): seq<Attr> {
    IfSome(USER_NAME, identity)
    + [Attr(SERVICE_TYPE, Be32(SERVICE_TYPE_FRAMED))]
    + IfSome(STATE, state)
    + NasAttrs(ctx)
  }

  function MabPreamble(ctx: RequestContext): seq<Attr> {
    [Attr(USER_NAME, FormatMac(ctx.callingStation)),
     Attr(SERVICE_TYPE, Be32(SERVICE_TYPE_CALL_CHECK))]
    + NasAttrs(ctx)
  }

  function SealedRequest(codec: Codec, identifier: Byte, auth: Digest, attrs: seq<Attr>, secret: Bytes): Result<Packet, RadiusError> {
    if !AllOk(codec, attrs) then Err(Proto)
    else Seal(codec, Packet(RequestCode, identifier, auth, attrs), secret)
  }

  function EapRequest(codec: Codec, ctx: RequestContext, identifier: Byte, auth: Digest,
                      identity: Option<Bytes>, state: Option<Bytes>, eap: Bytes, secret: Bytes): Result<Packet, RadiusError>
  {
    if eap == [] then Err(EmptyEapRelay)
    else if identity.Some? && !codec.userNameOk(identity.value) then Err(InvalidUserName)
    else SealedRequest(codec, identifier, auth, EapPreamble(ctx, identity, state) + EapAttrs(Fragments(eap)), secret)
  }

  function MabRequest(codec: Codec, ctx: RequestContext, identifier: Byte, auth: Digest, secret: Bytes): Result<Packet, RadiusError> {
    SealedRequest(codec, identifier, auth, MabPreamble(ctx), secret)
  }

  // ---- replies ----

  function ReadTagged(v: Option<Bytes>): Option<int> {
    if v.Some? && |v.value| == 4 then Some(FromBe32(0, v.value[1], v.value[2], v.value[3])) else None
  }

  function ParseVlan(codec: Codec, attrs: seq<Attr>, group: Bytes): Result<string, RadiusError> {
    if ReadTagged(FindAttr(attrs, TUNNEL_TYPE)) != Some(TUNNEL_TYPE_VLAN)
       || ReadTagged(FindAttr(attrs, TUNNEL_MEDIUM_TYPE)) != Some(TUNNEL_MEDIUM_802)
    then Err(MalformedVlanAssignment)
    else
      var body := if group != [] && 1 <= group[0] <= MAX_TAG_OCTET then group[1..] else group;
      if body == [] then Err(MalformedVlanAssignment) else Ok(codec.text(body))
  }

  function ParseVlanAssignment(codec: Codec, attrs: seq<Attr>): Result<Option<string>, RadiusError> {
    match FindAttr(attrs, TUNNEL_PRIVATE_GROUP_ID)
    case None => Ok(None)
    case Some(group) =>
      match ParseVlan(codec, attrs, group)
      case Ok(vlan) => Ok(Some(vlan))
      case Err(e) => Err(e)
  }

  function ReadU32(v: Option<Bytes>): Option<U32> {
    if v.Some? && |v.value| == 4 then Some(FromBe32(v.value[0], v.value[1], v.value[2], v.value[3])) else None
  }

  function ReadText(codec: Codec, v: Option<Bytes>): Option<string> {
    if v.Some? then Some(codec.text(v.value)) else None
  }

  function ParseAuthorization(codec: Codec, attrs: seq<Attr>): Result<Authorization, RadiusError> {
    match ParseVlanAssignment(codec, attrs)
    case Err(e) => Err(e)
    case Ok(vlan) =>
      Ok(Authorization(vlan, ReadText(codec, FindAttr(attrs, FILTER_ID)), ReadU32(FindAttr(attrs, SESSION_TIMEOUT)),
                       FindAttr(attrs, CLASS)))
  }

  function NonEmpty(v: Bytes): Option<Bytes> {
    if v == [] then None else Some(v)
  }

  function ParseReply(codec: Codec, reply: Packet): Result<Event, RadiusError> {
    match reply.code
    case ChallengeCode =>
      var eap := Reassemble(reply.attrs);
      if eap == [] then Err(MissingEapMessage) else Ok(AccessChallenge(eap))
    case AcceptCode =>
      var a := ParseAuthorization(codec, reply.attrs);
      if a.Err? then Err(a.error) else Ok(AccessAccept(a.value, NonEmpty(Reassemble(reply.attrs))))
    case RejectCode => Ok(AccessReject(NonEmpty(Reassemble(reply.attrs))))
    case _ => Err(UnexpectedReplyCode)
  }

  // ---- the builders, which append to a packet in place ----

  class PacketBuilder {
    var packet: Packet

    constructor (code: Code, identifier: Byte, authenticator: Digest)
      ensures packet == Packet(code, identifier, authenticator, [])
    {
      packet := Packet(code, identifier, authenticator, []);
    }

    method Add(codec: Codec, kind: Byte, value: Bytes) returns (ok: bool)
      modifies this
      ensures ok == codec.attrOk(kind, value)
      ensures packet == if ok then old(packet).(attrs := old(packet).attrs + [Attr(kind, value)]) else old(packet)
    {
      ok := codec.attrOk(kind, value);
      if ok {
        packet := packet.(attrs := packet.attrs + [Attr(kind, value)]);
      }
    }

    /** Append `more` in order, stopping at the first refused attribute. */
    method AddAll(codec: Codec, more: seq<Attr>) returns (ok: bool)
      modifies this
      ensures ok == AllOk(codec, more)
      ensures ok ==> packet == old(packet).(attrs := old(packet).attrs + more)
    {
      for i := 0 to |more|
        invariant AllOk(codec, more[..i])
        invariant packet == old(packet).(attrs := old(packet).attrs + more[..i])
      {
        assert more[..i + 1] == more[..i] + [more[i]];
        ok := Add(codec, more[i].kind, more[i].value);
        if !ok {
          return false;
        }
      }
      assert more[..|more|] == more;
      ok := true;
    }

    /** Append one EAP-Message per chunk of at most 253 octets. */
    method FragmentInto(codec: Codec, eap: Bytes) returns (ok: bool)
      modifies this
      ensures ok == AllOk(codec, EapAttrs(Fragments(eap)))
      ensures ok ==> packet == old(packet).(attrs := old(packet).attrs + EapAttrs(Fragments(eap)))
    {
      var rest := eap;
      ghost var done: seq<Bytes> := [];
      while rest != []
        invariant done + Fragments(rest) == Fragments(eap)
        invariant AllOk(codec, EapAttrs(done))
        invariant packet == old(packet).(attrs := old(packet).attrs + EapAttrs(done))
        decreases |rest|
      {
        var chunk := if |rest| <= MAX_ATTR_VALUE then rest else rest[..MAX_ATTR_VALUE];
        assert Fragments(rest) == [chunk] + Fragments(rest[|chunk|..]);
        ok := Add(codec, EAP_MESSAGE, chunk);
        if !ok {
          assert EapAttrs(Fragments(eap))[|done|] == Attr(EAP_MESSAGE, chunk);
          return;
        }
        assert EapAttrs(done + [chunk]) == EapAttrs(done) + [Attr(EAP_MESSAGE, chunk)];
        done := done + [chunk];
        rest := rest[|chunk|..];
      }
      assert done == Fragments(eap);
      ok := true;
    }

    method WriteMa(v: Bytes)
      modifies this
      ensures packet == old(packet).(attrs := SetMa(old(packet).attrs, v))
    {
      for i := 0 to |packet.attrs|
        invariant packet.(attrs := []) == old(packet).(attrs := [])
        invariant |packet.attrs| == |old(packet).attrs|
        invariant forall j :: 0 <= j < |packet.attrs| ==>
                    packet.attrs[j] == if j < i then SetMa(old(packet).attrs, v)[j] else old(packet).attrs[j]
      {
        if packet.attrs[i].kind == MESSAGE_AUTHENTICATOR {
          packet := packet.(attrs := packet.attrs[i := Attr(MESSAGE_AUTHENTICATOR, v)]);
        }
      }
      assert packet.attrs == SetMa(old(packet).attrs, v);
    }

    /**
     Placeholder, encode, HMAC, write back. A refused placeholder leaves the packet as it was; a
     packet that does not encode is left with its placeholder in place.
     */
    method SealIt(codec: Codec, secret: Bytes) returns (r: Result<(), RadiusError>)
      modifies this
      ensures match Seal(codec, old(packet), secret)
              case Ok(sealed) => r == Ok(()) && packet == sealed
              case Err(e) =>
                && r == Err(e)
                && packet == if !HasMa(old(packet).attrs) && !codec.attrOk(MESSAGE_AUTHENTICATOR, ZEROS) then old(packet)
                             else WithAttrs(old(packet), BlankAttrs(old(packet).attrs))
    {
      if !HasMa(packet.attrs) {
        var added := Add(codec, MESSAGE_AUTHENTICATOR, ZEROS);
        if !added {
          return Err(Proto);
        }
      }
      WriteMa(ZEROS);
      var encoded := codec.encode(packet);
      if encoded.None? {
        return Err(Proto);
      }
      WriteMa(codec.hmac(encoded.value, secret));
      r := Ok(());
    }
  }

  lemma AllOkAppend(codec: Codec, a: seq<Attr>, b: seq<Attr>)
    ensures AllOk(codec, a + b) <==> AllOk(codec, a) && AllOk(codec, b)
  {
    if AllOk(codec, a + b) {
      forall i | 0 <= i < |a|
        ensures codec.attrOk(a[i].kind, a[i].value)
      {
        assert (a + b)[i] == a[i];
      }
      forall i | 0 <= i < |b|
        ensures codec.attrOk(b[i].kind, b[i].value)
      {
        assert (a + b)[|a| + i] == b[i];
      }
    }
  }

  method AccessRequestEap(codec: Codec, ctx: RequestContext, identifier: Byte, auth: Digest,
                          identity: Option<Bytes>, state: Option<Bytes>, eap: Bytes, secret: Bytes)
    returns (r: Result<Packet, RadiusError>)
    ensures r == EapRequest(codec, ctx, identifier, auth, identity, state, eap, secret)
  {
    if eap == [] {
      return Err(EmptyEapRelay);
    }
    if identity.Some? && !codec.userNameOk(identity.value) {
      return Err(InvalidUserName);
    }
    var b := new PacketBuilder(RequestCode, identifier, auth);
    ghost var before, after := EapPreamble(ctx, identity, state), EapAttrs(Fragments(eap));
    AllOkAppend(codec, before, after);
    var ok := b.AddAll(codec, EapPreamble(ctx, identity, state));
    if !ok {
      return Err(Proto);
    }
    assert b.packet.attrs == before;
    ok := b.FragmentInto(codec, eap);
    if !ok {
      return Err(Proto);
    }
    var sealed := b.SealIt(codec, secret);
    r := if sealed.Ok? then Ok(b.packet) else Err(sealed.error);
  }

  method AccessRequestMab(codec: Codec, ctx: RequestContext, identifier: Byte, auth: Digest, secret: Bytes)
    returns (r: Result<Packet, RadiusError>)
    ensures r == MabRequest(codec, ctx, identifier, auth, secret)
  {
    var b := new PacketBuilder(RequestCode, identifier, auth);
    var ok := b.AddAll(codec, MabPreamble(ctx));
    if !ok {
      return Err(Proto);
    }
    assert b.packet.attrs == MabPreamble(ctx);
    var sealed := b.SealIt(codec, secret);
    r := if sealed.Ok? then Ok(b.packet) else Err(sealed.error);
  }
}
