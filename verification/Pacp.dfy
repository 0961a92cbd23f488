/**
 EAPOL over Ethernet II (section 11.3 of IEEE 802.1X-2020) and the EAP header
 view (section 4 of RFC 3748). Decoders are functions; encoders append to a buffer.
 */
module Pacp {
  import opened Wrappers
  import opened Octets

  const ETHERTYPE_EAPOL: U16 := 0x888E
  const ETHERNET_HEADER_LEN := 14
  const EAPOL_HEADER_LEN := 4
  const EAP_HEADER_LEN := 4

  datatype PacpError =
    | TruncatedEthernet(available: nat)
    | NotEapol(ethertype: U16)
    | TruncatedEapolHeader(available: nat)
    | TruncatedEapolBody(declared: nat, available: nat)
    | TruncatedEapHeader(available: nat)
    | EapLengthMismatch(declared: nat, available: nat)
    | EapTooShort(code: Byte, declared: nat)
    | BodyTooLong(len: nat)

  // ---- EAPOL PDU ----

  datatype PacketType =
    | Eap | EapolStartType | Logoff | Key | EncapsulatedAsfAlert | Mka
    | AnnouncementGeneric | AnnouncementSpecific | AnnouncementReq
    | UnknownType(octet: Byte)

  function TypeToOctet(t: PacketType): Byte {
    match t
    case Eap => 0
    case EapolStartType => 1
    case Logoff => 2
    case Key => 3
    case EncapsulatedAsfAlert => 4
    case Mka => 5
    case AnnouncementGeneric => 6
    case AnnouncementSpecific => 7
    case AnnouncementReq => 8
    case UnknownType(v) => v
  }

  function TypeFromOctet(v: Byte): PacketType {
    if v == 0 then Eap
    else if v == 1 then EapolStartType
    else if v == 2 then Logoff
    else if v == 3 then Key
    else if v == 4 then EncapsulatedAsfAlert
    else if v == 5 then Mka
    else if v == 6 then AnnouncementGeneric
    else if v == 7 then AnnouncementSpecific
    else if v == 8 then AnnouncementReq
    else UnknownType(v)
  }

  /** `UnknownType` never spells an assigned octet. */
  predicate CanonicalType(t: PacketType) {
    t.UnknownType? ==> t.octet > 8
  }

  datatype EapolPdu = EapolPdu(version: Byte, packetType: PacketType, body: Bytes)

  function DecodePdu(buf: Bytes): Result<EapolPdu, PacpError> {
    if |buf| < EAPOL_HEADER_LEN then Err(TruncatedEapolHeader(|buf|))
    else
      var declared := FromBe16(buf[2], buf[3]);
      if EAPOL_HEADER_LEN + declared > |buf| then Err(TruncatedEapolBody(declared, |buf| - EAPOL_HEADER_LEN))
      else Ok(EapolPdu(buf[0], TypeFromOctet(buf[1]), buf[EAPOL_HEADER_LEN..EAPOL_HEADER_LEN + declared]))
  }

  function EncodePdu(pdu: EapolPdu): Result<Bytes, PacpError> {
    if |pdu.body| > 0xFFFF then Err(BodyTooLong(|pdu.body|))
    else Ok([pdu.version, TypeToOctet(pdu.packetType)] + ToBe16(|pdu.body|) + pdu.body)
  }

  // ---- Ethernet II ----

  datatype EthernetHeader = EthernetHeader(dst: Mac, src: Mac, ethertype: U16)

  datatype EthernetFrame = EthernetFrame(header: EthernetHeader, payload: Bytes)

  function EncodeHeader(h: EthernetHeader): Bytes {
    h.dst + h.src + ToBe16(h.ethertype)
  }

  function DecodeEthernet(buf: Bytes): Result<EthernetFrame, PacpError> {
    if |buf| < ETHERNET_HEADER_LEN then Err(TruncatedEthernet(|buf|))
    else Ok(EthernetFrame(EthernetHeader(buf[..6], buf[6..12], FromBe16(buf[12], buf[13])), buf[14..]))
  }

  function DecodeEapolEthernet(buf: Bytes): Result<EthernetFrame, PacpError> {
    match DecodeEthernet(buf)
    case Err(e) => Err(e)
    case Ok(frame) =>
      if frame.header.ethertype != ETHERTYPE_EAPOL then Err(NotEapol(frame.header.ethertype)) else Ok(frame)
  }

  datatype EapolFrame = EapolFrame(ethernet: EthernetHeader, pdu: EapolPdu)

  function DecodeFrame(buf: Bytes): Result<EapolFrame, PacpError> {
    match DecodeEapolEthernet(buf)
    case Err(e) => Err(e)
    case Ok(frame) =>
      match DecodePdu(frame.payload)
      case Err(e) => Err(e)
      case Ok(pdu) => Ok(EapolFrame(frame.header, pdu))
  }

  /** The octets of a full frame carrying `pdu`. */
  function EncodeFrame(pdu: EapolPdu, dst: Mac, src: Mac): Result<Bytes, PacpError> {
    match EncodePdu(pdu)
    case Err(e) => Err(e)
    case Ok(bytes) => Ok(EncodeHeader(EthernetHeader(dst, src, ETHERTYPE_EAPOL)) + bytes)
  }

  // ---- the appending encoders ----

  class OctetBuffer {
    var data: Bytes

    constructor ()
      ensures data == []
    {
      data := [];
    }

    method Push(b: Byte)
      modifies this
      ensures data == old(data) + [b]
    {
      data := data + [b];
    }

    method Extend(bs: Bytes)
      modifies this
      ensures data == old(data) + bs
    {
      data := data + bs;
    }
  }

  method EncodeHeaderInto(h: EthernetHeader, out: OctetBuffer)
    modifies out
    ensures out.data == old(out.data) + EncodeHeader(h)
  {
    out.Extend(h.dst);
    out.Extend(h.src);
    out.Extend(ToBe16(h.ethertype));
  }

  /** A refused body appends nothing. */
  method EncodePduInto(pdu: EapolPdu, out: OctetBuffer) returns (r: Result<(), PacpError>)
    modifies out
    ensures match EncodePdu(pdu)
            case Ok(bytes) => r == Ok(()) && out.data == old(out.data) + bytes
            case Err(e) => r == Err(e) && out.data == old(out.data)
  {
    if |pdu.body| > 0xFFFF {
      return Err(BodyTooLong(|pdu.body|));
    }
    out.Push(pdu.version);
    out.Push(TypeToOctet(pdu.packetType));
    out.Extend(ToBe16(|pdu.body|));
    out.Extend(pdu.body);
    return Ok(());
  }

  method BuildFrame(pdu: EapolPdu, dst: Mac, src: Mac) returns (r: Result<Bytes, PacpError>)
    ensures r == EncodeFrame(pdu, dst, src)
  {
    var out := new OctetBuffer();
    var header := EthernetHeader(dst, src, ETHERTYPE_EAPOL);
    EncodeHeaderInto(header, out);
    assert out.data == EncodeHeader(header);
    var appended := EncodePduInto(pdu, out);
    r := if appended.Ok? then Ok(out.data) else Err(appended.error);
  }

  // ---- frame round trips ----

  /** Both octet/type conversions are inverse, on canonical types. */
  lemma TypeRoundTrip(v: Byte, t: PacketType)
    ensures TypeToOctet(TypeFromOctet(v)) == v && CanonicalType(TypeFromOctet(v))
    ensures CanonicalType(t) <==> TypeFromOctet(TypeToOctet(t)) == t
  {
  }

  lemma PduRoundTrip(pdu: EapolPdu, padding: Bytes)
    ensures EncodePdu(pdu).Ok? <==> |pdu.body| <= 0xFFFF
    ensures EncodePdu(pdu).Ok? ==>
            DecodePdu(EncodePdu(pdu).value + padding) ==
            Ok(pdu.(packetType := TypeFromOctet(TypeToOctet(pdu.packetType))))
  {
    if |pdu.body| <= 0xFFFF {
      var wire := EncodePdu(pdu).value + padding;
      Be16RoundTrip(|pdu.body|);
      assert wire[2] == ToBe16(|pdu.body|)[0] && wire[3] == ToBe16(|pdu.body|)[1];
      assert wire[4..4 + |pdu.body|] == pdu.body;
    }
  }

  /**
   A PDU encodes exactly when its body fits the length field. Decoding the encoded
   frame followed by any padding then gives back the MACs and the PDU exactly when
   the packet type is canonical.
   */
  lemma FrameRoundTrip(pdu: EapolPdu, dst: Mac, src: Mac, padding: Bytes)
    ensures EncodeFrame(pdu, dst, src).Ok? <==> |pdu.body| <= 0xFFFF
    ensures EncodeFrame(pdu, dst, src).Ok? ==>
            (DecodeFrame(EncodeFrame(pdu, dst, src).value + padding)
             == Ok(EapolFrame(EthernetHeader(dst, src, ETHERTYPE_EAPOL), pdu))
             <==> CanonicalType(pdu.packetType))
  {
    PduRoundTrip(pdu, padding);
    TypeRoundTrip(0, pdu.packetType);
    if |pdu.body| <= 0xFFFF {
      var wire := EncodeFrame(pdu, dst, src).value + padding;
      assert wire[..6] == dst && wire[6..12] == src;
      assert wire[14..] == EncodePdu(pdu).value + padding;
    }
  }

  /** Whatever decodes re-encodes to a prefix of the input: only padding is dropped. */
  lemma FrameReencodes(buf: Bytes)
    requires DecodeFrame(buf).Ok?
    ensures var f := DecodeFrame(buf).value;
            && CanonicalType(f.pdu.packetType)
            && EncodeFrame(f.pdu, f.ethernet.dst, f.ethernet.src).Ok?
            && EncodeFrame(f.pdu, f.ethernet.dst, f.ethernet.src).value <= buf
  {
    var f := DecodeFrame(buf).value;
    var wire := EncodeFrame(f.pdu, f.ethernet.dst, f.ethernet.src).value;
    Be16Canonical(buf[12], buf[13]);
    Be16Canonical(buf[16], buf[17]);
    TypeRoundTrip(buf[15], f.pdu.packetType);
    assert buf[14..][4..4 + |f.pdu.body|] == f.pdu.body;
    assert wire == buf[..6] + buf[6..12] + buf[12..14] + buf[14..16] + buf[16..18] + buf[18..18 + |f.pdu.body|];
  }

  /** Exactly which frames are accepted. */
  lemma FrameAcceptance(buf: Bytes)
    ensures DecodeFrame(buf).Ok? <==>
            && |buf| >= 18
            && buf[12] == 0x88 && buf[13] == 0x8E
            && |buf| >= 18 + FromBe16(buf[16], buf[17])
  {
    if |buf| >= 18 {
      assert buf[14..][2] == buf[16] && buf[14..][3] == buf[17];
    }
  }

  // ---- EAP header view ----

  datatype EapCode = EapRequest | EapResponse | EapSuccess | EapFailure | UnknownCode(octet: Byte)

  datatype EapType = Identity | Notification | Nak | Tls | Teap | Other(octet: Byte)

  function CodeFromOctet(v: Byte): EapCode {
    if v == 1 then EapRequest
    else if v == 2 then EapResponse
    else if v == 3 then EapSuccess
    else if v == 4 then EapFailure
    else UnknownCode(v)
  }

  function EapTypeFromOctet(v: Byte): EapType {
    if v == 1 then Identity
    else if v == 2 then Notification
    else if v == 3 then Nak
    else if v == 13 then Tls
    else if v == 55 then Teap
    else Other(v)
  }

  datatype EapPacket = EapPacket(code: EapCode, identifier: Byte, eapType: Option<EapType>, typeData: Bytes)

  function DecodeEap(buf: Bytes): Result<EapPacket, PacpError> {
    if |buf| < EAP_HEADER_LEN then Err(TruncatedEapHeader(|buf|))
    else
      var declared := FromBe16(buf[2], buf[3]);
      if declared != |buf| then Err(EapLengthMismatch(declared, |buf|))
      else
        var code := CodeFromOctet(buf[0]);
        match code
        case EapRequest | EapResponse =>
          if declared < 5 then Err(EapTooShort(buf[0], declared))
          else Ok(EapPacket(code, buf[1], Some(EapTypeFromOctet(buf[4])), buf[5..]))
        case EapSuccess | EapFailure =>
          if declared != 4 then Err(EapTooShort(buf[0], declared))
          else Ok(EapPacket(code, buf[1], None, []))
        case UnknownCode(_) => Ok(EapPacket(code, buf[1], None, []))
  }

  function IdentityOf(p: EapPacket): Option<Bytes> {
    if p.code == EapResponse && p.eapType == Some(Identity) then Some(p.typeData) else None
  }

  function RequestIdentity(identifier: Byte): Bytes { [1, identifier, 0, 5, 1] }

  /** The `User-Name` candidate carried by a relayed EAP packet. */
  function EapIdentity(eap: Bytes): Option<Bytes> {
    match DecodeEap(eap)
    case Ok(p) => IdentityOf(p)
    case Err(_) => None
  }

  /** A Response/Identity packet. */
  function ResponseIdentity(identifier: Byte, id: Bytes): Bytes {
    [2, identifier] + ToBe16((5 + |id|) % 0x1_0000) + [1] + id
  }

  lemma ResponseIdentityAt(identifier: Byte, id: Bytes)
    ensures var eap := ResponseIdentity(identifier, id);
            && |eap| == 5 + |id| && eap[0] == 2 && eap[1] == identifier && eap[4] == 1 && eap[5..] == id
            && [eap[2], eap[3]] == ToBe16((5 + |id|) % 0x1_0000)
  {
  }

  lemma IdentityFound(identifier: Byte, id: Bytes)
    requires 5 + |id| <= 0xFFFF
    ensures EapIdentity(ResponseIdentity(identifier, id)) == Some(id)
  {
    ResponseIdentityAt(identifier, id);
    Be16RoundTrip(5 + |id|);
  }

  lemma IdentityOnlyThere(eap: Bytes)
    requires EapIdentity(eap).Some?
    ensures 5 <= |eap| <= 0xFFFF && eap == ResponseIdentity(eap[1], EapIdentity(eap).value)
  {
    ResponseIdentityAt(eap[1], eap[5..]);
    Be16Canonical(eap[2], eap[3]);
  }

  /**
   An identity is found exactly in a well-formed Response/Identity, and then it is
   every octet after the five fixed ones: nothing of the packet is lost.
   */
  lemma IdentityExtraction(eap: Bytes, id: Bytes)
    ensures EapIdentity(eap) == Some(id)
       <==> |eap| <= 0xFFFF && exists identifier: Byte :: eap == ResponseIdentity(identifier, id)
  {
    if EapIdentity(eap) == Some(id) {
      IdentityOnlyThere(eap);
    }
    if identifier: Byte :| eap == ResponseIdentity(identifier, id) {
      ResponseIdentityAt(identifier, id);
      if |eap| <= 0xFFFF {
        IdentityFound(identifier, id);
      }
    }
  }

  /** The one EAP packet the authenticator originates is itself well formed. */
  lemma RequestIdentityDecodes(identifier: Byte)
    ensures DecodeEap(RequestIdentity(identifier)) == Ok(EapPacket(EapRequest, identifier, Some(Identity), []))
  {
    assert RequestIdentity(identifier)[5..] == [];
  }
}
