/** Verbatim EAP relay, and sealing against verification, for any codec and HMAC. */
module RadiusTheorems {
  import opened Wrappers
  import opened Octets
  import opened Radius

  // ---- EAP-Message ----

  lemma {:induction false} AppendFacts(a: seq<Attr>, b: seq<Attr>, k: Byte)
    ensures Reassemble(a + b) == Reassemble(a) + Reassemble(b)
    ensures Count(a + b, k) == Count(a, k) + Count(b, k)
    ensures FindAttr(a + b, k) == if FindAttr(a, k).Some? then FindAttr(a, k) else FindAttr(b, k)
  {
    if a == [] {
      assert a + b == b;
    } else {
      assert (a + b)[1..] == a[1..] + b;
      AppendFacts(a[1..], b, k);
    }
  }

  predicate Lacks(attrs: seq<Attr>, kind: Byte) {
    forall i :: 0 <= i < |attrs| ==> attrs[i].kind != kind
  }

  lemma {:induction false} LacksFacts(attrs: seq<Attr>, kind: Byte)
    requires Lacks(attrs, kind)
    ensures Count(attrs, kind) == 0 && FindAttr(attrs, kind).None?
    ensures kind == EAP_MESSAGE ==> Reassemble(attrs) == []
  {
    if attrs == [] {
    } else {
      LacksFacts(attrs[1..], kind);
    }
  }

  /** Cutting and joining are inverse; there are ceil(n / 253) chunks, each of 1 to 253 octets. */
  lemma {:induction false} FragmentsReassemble(eap: Bytes)
    ensures Reassemble(EapAttrs(Fragments(eap))) == eap
    ensures |Fragments(eap)| == (|eap| + MAX_ATTR_VALUE - 1) / MAX_ATTR_VALUE
    ensures forall i :: 0 <= i < |Fragments(eap)| ==> 1 <= |Fragments(eap)[i]| <= MAX_ATTR_VALUE
    ensures Count(EapAttrs(Fragments(eap)), EAP_MESSAGE) == |Fragments(eap)|
  {
    if eap == [] {
    } else {
      var head := if |eap| <= MAX_ATTR_VALUE then eap else eap[..MAX_ATTR_VALUE];
      var rest := eap[|head|..];
      assert Fragments(eap) == [head] + Fragments(rest);
      assert EapAttrs(Fragments(eap))[1..] == EapAttrs(Fragments(rest));
      FragmentsReassemble(rest);
      assert head + rest == eap;
    }
  }

  // ---- sealing ----

  /** Nothing but Message-Authenticator values differs, position by position. */
  predicate SameButMa(a: seq<Attr>, b: seq<Attr>) {
    && |a| == |b|
    && forall i :: 0 <= i < |a| ==>
         a[i].kind == b[i].kind && (a[i].kind != MESSAGE_AUTHENTICATOR ==> a[i] == b[i])
  }

  lemma {:induction false} SameButMaFacts(a: seq<Attr>, b: seq<Attr>, k: Byte)
    requires SameButMa(a, b)
    ensures Reassemble(a) == Reassemble(b)
    ensures Count(a, k) == Count(b, k)
    ensures k != MESSAGE_AUTHENTICATOR ==> FindAttr(a, k) == FindAttr(b, k)
  {
    if a == [] {
    } else {
      SameButMaFacts(a[1..], b[1..], k);
    }
  }

  lemma SetMaFacts(attrs: seq<Attr>, v: Bytes, w: Bytes)
    ensures SameButMa(SetMa(attrs, v), attrs)
    ensures SetMa(SetMa(attrs, v), w) == SetMa(attrs, w)
    ensures HasMa(SetMa(attrs, v)) == HasMa(attrs)
  {
    if i :| 0 <= i < |attrs| && attrs[i].kind == MESSAGE_AUTHENTICATOR {
      assert SetMa(attrs, v)[i].kind == MESSAGE_AUTHENTICATOR;
    }
  }

  lemma {:induction false} FindMa(attrs: seq<Attr>, v: Bytes)
    ensures FindAttr(SetMa(attrs, v), MESSAGE_AUTHENTICATOR) == if HasMa(attrs) then Some(v) else None
    ensures FindAttr(attrs, MESSAGE_AUTHENTICATOR).Some? <==> HasMa(attrs)
  {
    if attrs == [] {
    } else {
      assert SetMa(attrs, v)[1..] == SetMa(attrs[1..], v);
      FindMa(attrs[1..], v);
      assert HasMa(attrs) <==> attrs[0].kind == MESSAGE_AUTHENTICATOR || HasMa(attrs[1..]) by {
        if HasMa(attrs[1..]) {
          var i :| 0 <= i < |attrs[1..]| && attrs[1..][i].kind == MESSAGE_AUTHENTICATOR;
          assert attrs[i + 1].kind == MESSAGE_AUTHENTICATOR;
        }
        if attrs[0].kind != MESSAGE_AUTHENTICATOR && HasMa(attrs) {
          var i :| 0 <= i < |attrs| && attrs[i].kind == MESSAGE_AUTHENTICATOR;
          assert attrs[1..][i - 1].kind == MESSAGE_AUTHENTICATOR;
        }
      }
    }
  }

  lemma BlankFacts(attrs: seq<Attr>)
    ensures HasMa(BlankAttrs(attrs))
    ensures SetMa(BlankAttrs(attrs), ZEROS) == BlankAttrs(attrs)
  {
    var base := if HasMa(attrs) then attrs else attrs + [Attr(MESSAGE_AUTHENTICATOR, ZEROS)];
    assert HasMa(base) by {
      if !HasMa(attrs) {
        assert base[|attrs|].kind == MESSAGE_AUTHENTICATOR;
      }
    }
    SetMaFacts(base, ZEROS, ZEROS);
  }

  /**
   Sealing changes no other attribute and no order: it overwrites the
   Message-Authenticators in place, or appends one if there is none.
   */
  lemma SealFrame(codec: Codec, p: Packet, secret: Bytes)
    requires Seal(codec, p, secret).Ok?
    ensures var q := Seal(codec, p, secret).value;
            && q == WithAttrs(p, q.attrs)
            && SameButMa(q.attrs, if HasMa(p.attrs) then p.attrs else p.attrs + [Attr(MESSAGE_AUTHENTICATOR, ZEROS)])
  {
    var base := if HasMa(p.attrs) then p.attrs else p.attrs + [Attr(MESSAGE_AUTHENTICATOR, ZEROS)];
    SetMaFacts(base, ZEROS, codec.hmac(codec.encode(WithAttrs(p, BlankAttrs(p.attrs))).value, secret));
  }

  /** A sealed packet verifies under its own authenticator. */
  lemma SealVerifies(codec: Codec, p: Packet, secret: Bytes)
    requires Seal(codec, p, secret).Ok?
    ensures VerifyMa(codec, Seal(codec, p, secret).value, p.authenticator, secret)
  {
    var blank := BlankAttrs(p.attrs);
    var mac := codec.hmac(codec.encode(WithAttrs(p, blank)).value, secret);
    BlankFacts(p.attrs);
    FindMa(blank, mac);
    SetMaFacts(blank, mac, ZEROS);
  }

  /** Sealing twice is sealing once. */
  lemma SealIdempotent(codec: Codec, p: Packet, secret: Bytes)
    requires Seal(codec, p, secret).Ok?
    ensures Seal(codec, Seal(codec, p, secret).value, secret) == Seal(codec, p, secret)
  {
    var blank := BlankAttrs(p.attrs);
    var mac := codec.hmac(codec.encode(WithAttrs(p, blank)).value, secret);
    BlankFacts(p.attrs);
    SetMaFacts(blank, mac, ZEROS);
    assert BlankAttrs(SetMa(blank, mac)) == blank;
  }

  /** Every Message-Authenticator carries the value of the first. */
  predicate UniformMa(attrs: seq<Attr>) {
    var first := FindAttr(attrs, MESSAGE_AUTHENTICATOR);
    first.Some? && SetMa(attrs, first.value) == attrs
  }

  /**
   Verification under a packet's own authenticator recognises exactly the packets
   that sealing leaves alone, among those whose Message-Authenticators all agree.
   */
  lemma VerifiedIffSealed(codec: Codec, p: Packet, secret: Bytes)
    ensures HasMa(p.attrs) <==> FindAttr(p.attrs, MESSAGE_AUTHENTICATOR).Some?
    ensures Seal(codec, p, secret) == Ok(p)
       <==> HasMa(p.attrs) && UniformMa(p.attrs) && VerifyMa(codec, p, p.authenticator, secret)
  {
    FindMa(p.attrs, ZEROS);
    SetMaFacts(p.attrs, ZEROS, ZEROS);
    if Seal(codec, p, secret) == Ok(p) {
      SealVerifies(codec, p, secret);
      var blank := BlankAttrs(p.attrs);
      var mac := codec.hmac(codec.encode(WithAttrs(p, blank)).value, secret);
      BlankFacts(p.attrs);
      FindMa(blank, mac);
      SetMaFacts(blank, mac, mac);
    }
    if HasMa(p.attrs) && UniformMa(p.attrs) && VerifyMa(codec, p, p.authenticator, secret) {
      var received := FindAttr(p.attrs, MESSAGE_AUTHENTICATOR).value;
      SetMaFacts(p.attrs, ZEROS, received);
      assert BlankAttrs(p.attrs) == SetMa(p.attrs, ZEROS);
    }
  }

  // ---- a packet that verifies and is not sealed ----

  /** A library that accepts everything. */
  function Lenient(): Codec {
    Codec((k, v) => true, p => Some([]), b => None, (b, s) => ZEROS, (p, d, s) => true, u => true, t => "")
  }

  /** Two Message-Authenticators of which only the first is right. */
  function SecondForged(identifier: Byte): Packet {
    Packet(AcceptCode, identifier, ZEROS, [Attr(MESSAGE_AUTHENTICATOR, ZEROS), Attr(MESSAGE_AUTHENTICATOR, [1])])
  }

  /** Verification reads the first one, so it accepts a packet that sealing would change. */
  lemma FirstDecides(identifier: Byte, secret: Bytes)
    ensures var p := SecondForged(identifier);
            VerifyMa(Lenient(), p, p.authenticator, secret) && Seal(Lenient(), p, secret) != Ok(p)
  {
    var attrs := SecondForged(identifier).attrs;
    assert FindAttr(attrs, MESSAGE_AUTHENTICATOR) == Some(ZEROS);
    assert SetMa(attrs, ZEROS)[1].value == ZEROS && attrs[1].value != ZEROS;
    VerifiedIffSealed(Lenient(), SecondForged(identifier), secret);
  }

  // ---- requests ----

  lemma LacksAppend(a: seq<Attr>, b: seq<Attr>, kind: Byte)
    requires Lacks(a, kind) && Lacks(b, kind)
    ensures Lacks(a + b, kind)
  {
  }

  lemma NasLacks(ctx: RequestContext, kind: Byte)
    requires kind in {USER_NAME, STATE, EAP_MESSAGE, MESSAGE_AUTHENTICATOR}
    ensures Lacks(NasAttrs(ctx), kind)
  {
    var a := IfSome(NAS_IP_ADDRESS, ctx.nasIp);
    var b := [Attr(NAS_IDENTIFIER, ctx.nasIdentifier), Attr(NAS_PORT_ID, ctx.nasPortId),
              Attr(NAS_PORT_TYPE, Be32(NAS_PORT_TYPE_ETHERNET))];
    var c := IfSome(NAS_PORT, if ctx.nasPort.Some? then Some(Be32(ctx.nasPort.value)) else None);
    var d := [Attr(CALLING_STATION_ID, FormatMac(ctx.callingStation)),
              Attr(CALLED_STATION_ID, FormatMac(ctx.calledStation))];
    LacksAppend(a, b, kind);
    LacksAppend(a + b, c, kind);
    LacksAppend(a + b + c, d, kind);
  }

  lemma PreambleLacks(ctx: RequestContext, identity: Option<Bytes>, state: Option<Bytes>, kind: Byte)
    requires kind in {EAP_MESSAGE, MESSAGE_AUTHENTICATOR}
    ensures Lacks(EapPreamble(ctx, identity, state), kind) && Lacks(MabPreamble(ctx), kind)
  {
    NasLacks(ctx, kind);
    var a, b := IfSome(USER_NAME, identity), [Attr(SERVICE_TYPE, Be32(SERVICE_TYPE_FRAMED))];
    LacksAppend(a, b, kind);
    LacksAppend(a + b, IfSome(STATE, state), kind);
    LacksAppend(a + b + IfSome(STATE, state), NasAttrs(ctx), kind);
  }

  lemma PreambleState(ctx: RequestContext, identity: Option<Bytes>, state: Option<Bytes>)
    ensures FindAttr(EapPreamble(ctx, identity, state), STATE) == state
  {
    var a, b := IfSome(USER_NAME, identity), [Attr(SERVICE_TYPE, Be32(SERVICE_TYPE_FRAMED))];
    NasLacks(ctx, STATE);
    LacksFacts(NasAttrs(ctx), STATE);
    LacksAppend(a, b, STATE);
    LacksFacts(a + b, STATE);
    AppendFacts(a + b, IfSome(STATE, state), STATE);
    AppendFacts(a + b + IfSome(STATE, state), NasAttrs(ctx), STATE);
  }

  /** What follows the User-Name in an EAP request's preamble. */
  function AfterUser(ctx: RequestContext, state: Option<Bytes>): seq<Attr> {
    [Attr(SERVICE_TYPE, Be32(SERVICE_TYPE_FRAMED))] + IfSome(STATE, state) + NasAttrs(ctx)
  }

  lemma AfterUserLacks(ctx: RequestContext, state: Option<Bytes>)
    ensures Lacks(AfterUser(ctx, state), USER_NAME)
  {
    var b := [Attr(SERVICE_TYPE, Be32(SERVICE_TYPE_FRAMED))];
    NasLacks(ctx, USER_NAME);
    LacksAppend(b, IfSome(STATE, state), USER_NAME);
    LacksAppend(b + IfSome(STATE, state), NasAttrs(ctx), USER_NAME);
  }

  lemma Reassociate<T>(a: seq<T>, b: seq<T>, c: seq<T>, d: seq<T>)
    ensures a + b + c + d == a + (b + c + d)
  {
  }

  lemma UserFirst(identity: Option<Bytes>, rest: seq<Attr>)
    requires Lacks(rest, USER_NAME)
    ensures FindAttr(IfSome(USER_NAME, identity) + rest, USER_NAME) == identity
  {
    LacksFacts(rest, USER_NAME);
    AppendFacts(IfSome(USER_NAME, identity), rest, USER_NAME);
  }

  lemma PreambleUser(ctx: RequestContext, identity: Option<Bytes>, state: Option<Bytes>)
    ensures FindAttr(EapPreamble(ctx, identity, state), USER_NAME) == identity
  {
    AfterUserLacks(ctx, state);
    UserFirst(identity, AfterUser(ctx, state));
    Reassociate(IfSome(USER_NAME, identity), [Attr(SERVICE_TYPE, Be32(SERVICE_TYPE_FRAMED))], IfSome(STATE, state), NasAttrs(ctx));
  }

  lemma SealOnce(codec: Codec, p: Packet, secret: Bytes, k: Byte)
    requires Seal(codec, p, secret).Ok? && Lacks(p.attrs, MESSAGE_AUTHENTICATOR) && k != MESSAGE_AUTHENTICATOR
    ensures var q := Seal(codec, p, secret).value;
            && q == WithAttrs(p, q.attrs)
            && Reassemble(q.attrs) == Reassemble(p.attrs)
            && Count(q.attrs, MESSAGE_AUTHENTICATOR) == 1
            && Count(q.attrs, k) == Count(p.attrs, k) && FindAttr(q.attrs, k) == FindAttr(p.attrs, k)
            && VerifyMa(codec, q, p.authenticator, secret)
  {
    var q, last := Seal(codec, p, secret).value, [Attr(MESSAGE_AUTHENTICATOR, ZEROS)];
    SealFrame(codec, p, secret);
    SealVerifies(codec, p, secret);
    SameButMaFacts(q.attrs, p.attrs + last, k);
    SameButMaFacts(q.attrs, p.attrs + last, MESSAGE_AUTHENTICATOR);
    AppendFacts(p.attrs, last, k);
    AppendFacts(p.attrs, last, MESSAGE_AUTHENTICATOR);
    LacksFacts(p.attrs, MESSAGE_AUTHENTICATOR);
    assert last[1..] == [];
  }

  /** Every EAP-Message holds 1 to 253 octets. */
  predicate EapSized(attrs: seq<Attr>) {
    forall i :: 0 <= i < |attrs| && attrs[i].kind == EAP_MESSAGE ==> 1 <= |attrs[i].value| <= MAX_ATTR_VALUE
  }

  lemma SealKeepsSizes(codec: Codec, p: Packet, secret: Bytes)
    requires Seal(codec, p, secret).Ok? && EapSized(p.attrs)
    ensures EapSized(Seal(codec, p, secret).value.attrs)
  {
    SealFrame(codec, p, secret);
  }

  /**
   Every EAP Access-Request that is built relays its EAP packet octet for octet, in
   ceil(n / 253) fragments of 1 to 253 octets, with exactly one Message-Authenticator,
   which verifies, and with the given State and User-Name or none.
   */
  lemma RelayIsVerbatim(codec: Codec, ctx: RequestContext, identifier: Byte, auth: Digest,
                        identity: Option<Bytes>, state: Option<Bytes>, eap: Bytes, secret: Bytes)
    requires EapRequest(codec, ctx, identifier, auth, identity, state, eap, secret).Ok?
    ensures var q := EapRequest(codec, ctx, identifier, auth, identity, state, eap, secret).value;
            && q.identifier == identifier && q.authenticator == auth
            && Reassemble(q.attrs) == eap
            && Count(q.attrs, EAP_MESSAGE) == (|eap| + MAX_ATTR_VALUE - 1) / MAX_ATTR_VALUE
            && EapSized(q.attrs)
            && Count(q.attrs, MESSAGE_AUTHENTICATOR) == 1
            && FindAttr(q.attrs, STATE) == state
            && FindAttr(q.attrs, USER_NAME) == identity
            && VerifyMa(codec, q, auth, secret)
  {
    var pre, post := EapPreamble(ctx, identity, state), EapAttrs(Fragments(eap));
    var p := Packet(RequestCode, identifier, auth, pre + post);
    PreambleLacks(ctx, identity, state, EAP_MESSAGE);
    PreambleLacks(ctx, identity, state, MESSAGE_AUTHENTICATOR);
    PreambleState(ctx, identity, state);
    PreambleUser(ctx, identity, state);
    LacksFacts(pre, EAP_MESSAGE);
    FragmentsReassemble(eap);
    AppendFacts(pre, post, EAP_MESSAGE);
    LacksFacts(post, STATE);
    LacksFacts(post, USER_NAME);
    AppendFacts(pre, post, STATE);
    AppendFacts(pre, post, USER_NAME);
    LacksAppend(pre, post, MESSAGE_AUTHENTICATOR);
    assert EapSized(p.attrs);
    SealKeepsSizes(codec, p, secret);
    SealOnce(codec, p, secret, EAP_MESSAGE);
    SealOnce(codec, p, secret, STATE);
    SealOnce(codec, p, secret, USER_NAME);
  }

  /** A MAB request carries no EAP, is keyed by the MAC and has exactly one Message-Authenticator. */
  lemma MabCarriesNoEap(codec: Codec, ctx: RequestContext, identifier: Byte, auth: Digest, secret: Bytes)
    requires MabRequest(codec, ctx, identifier, auth, secret).Ok?
    ensures var q := MabRequest(codec, ctx, identifier, auth, secret).value;
            && Reassemble(q.attrs) == [] && Count(q.attrs, EAP_MESSAGE) == 0
            && Count(q.attrs, MESSAGE_AUTHENTICATOR) == 1
            && FindAttr(q.attrs, USER_NAME) == Some(FormatMac(ctx.callingStation))
            && VerifyMa(codec, q, auth, secret)
  {
    PreambleLacks(ctx, None, None, EAP_MESSAGE);
    PreambleLacks(ctx, None, None, MESSAGE_AUTHENTICATOR);
    LacksFacts(MabPreamble(ctx), EAP_MESSAGE);
    SealOnce(codec, Packet(RequestCode, identifier, auth, MabPreamble(ctx)), secret, EAP_MESSAGE);
    SealOnce(codec, Packet(RequestCode, identifier, auth, MabPreamble(ctx)), secret, USER_NAME);
  }
}
