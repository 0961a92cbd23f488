/**
 RADIUS correlation for one supplicant: Identifiers, the outstanding request, and
 what is carried from round to round (sections 3 and 5.24 of RFC 2865).
 */
module Correlation {
  import opened Wrappers
  import opened Octets
  import Pacp
  import opened PaeTypes
  import opened Radius
  import opened RadiusTheorems

  datatype AuthdError =
    | RadiusFailed(cause: RadiusError)
    | NoPendingRequest
    | ReplyVerificationFailed
    | TransportFailed
    | EnforceFailed

  datatype Pending = Pending(identifier: Byte, auth: Digest)

  datatype Rs = Rs(
    nextId: Byte,
    nextAcctId: Byte,
    lastState: Option<Bytes>,
    userName: Option<Bytes>,
    pending: Option<Pending>,
    class_: Option<Bytes>)

  const FRESH := Rs(0, 0, None, None, None, None)

  datatype Build = Build(rs: Rs, r: Result<Packet, AuthdError>)

  datatype Reply = Reply(rs: Rs, r: Result<Event, AuthdError>)

  function Fail<T>(r: Result<T, RadiusError>): Result<T, AuthdError> {
    if r.Ok? then Ok(r.value) else Err(RadiusFailed(r.error))
  }

  /** Allocate an Identifier and leave the request outstanding. */
  function Issue(rs: Rs, auth: Digest): Rs {
    rs.(nextId := WrappingNext(rs.nextId), pending := Some(Pending(rs.nextId, auth)))
  }

  function BuildEap(codec: Codec, rs: Rs, ctx: RequestContext, identity: Option<Bytes>, eap: Bytes, auth: Digest, secret: Bytes): Build {
    var user := if identity.Some? then identity else rs.userName;
    Build(Issue(rs, auth).(userName := user),
          Fail(EapRequest(codec, ctx, rs.nextId, auth, user, rs.lastState, eap, secret)))
  }

  function BuildMab(codec: Codec, rs: Rs, ctx: RequestContext, auth: Digest, secret: Bytes): Build {
    Build(Issue(rs, auth), Fail(MabRequest(codec, ctx, rs.nextId, auth, secret)))
  }

  function TakeReply(codec: Codec, rs: Rs, reply: Packet, secret: Bytes): Reply {
    var taken := rs.(pending := None);
    match rs.pending
    case None => Reply(taken, Err(NoPendingRequest))
    case Some(p) =>
      if reply.identifier != p.identifier || !VerifyReply(codec, reply, p.auth, secret)
      then Reply(taken, Err(ReplyVerificationFailed))
      else
        var r := Fail(ParseReply(codec, reply));
        Reply(taken.(lastState := FindAttr(reply.attrs, STATE),
                     class_ := if r.Ok? && r.value.AccessAccept? then r.value.authorization.class_ else rs.class_), r)
  }

  // ---- the session that is updated in place ----

  class RadiusSession {
    var nextId: Byte
    var nextAcctId: Byte
    var lastState: Option<Bytes>
    var userName: Option<Bytes>
    var pending: Option<Pending>
    var class_: Option<Bytes>

    function View(): Rs
      reads this
    {
      Rs(nextId, nextAcctId, lastState, userName, pending, class_)
    }

    constructor ()
      ensures View() == FRESH
    {
      nextId, nextAcctId, lastState, userName, pending, class_ := 0, 0, None, None, None, None;
    }

    constructor Load(rs: Rs)
      ensures View() == rs
    {
      nextId, nextAcctId, lastState := rs.nextId, rs.nextAcctId, rs.lastState;
      userName, pending, class_ := rs.userName, rs.pending, rs.class_;
    }

    method NextIdentifier() returns (id: Byte)
      modifies this`nextId
      ensures id == old(nextId) && nextId == WrappingNext(id)
    {
      id := nextId;
      nextId := WrappingNext(nextId);
    }

    method NextAccountingIdentifier() returns (id: Byte)
      modifies this`nextAcctId
      ensures id == old(nextAcctId) && nextAcctId == WrappingNext(id)
    {
      id := nextAcctId;
      nextAcctId := WrappingNext(nextAcctId);
    }

    method BuildEapRequest(codec: Codec, ctx: RequestContext, identity: Option<Bytes>, eap: Bytes, auth: Digest, secret: Bytes)
      returns (r: Result<Packet, AuthdError>)
      modifies this
      ensures Build(View(), r) == BuildEap(codec, old(View()), ctx, identity, eap, auth, secret)
    {
      if identity.Some? {
        userName := Some(identity.value);
      }
      var identifier := NextIdentifier();
      pending := Some(Pending(identifier, auth));
      var built := AccessRequestEap(codec, ctx, identifier, auth, userName, lastState, eap, secret);
      r := Fail(built);
    }

    method BuildMabRequest(codec: Codec, ctx: RequestContext, auth: Digest, secret: Bytes)
      returns (r: Result<Packet, AuthdError>)
      modifies this
      ensures Build(View(), r) == BuildMab(codec, old(View()), ctx, auth, secret)
    {
      var identifier := NextIdentifier();
      pending := Some(Pending(identifier, auth));
      var built := AccessRequestMab(codec, ctx, identifier, auth, secret);
      r := Fail(built);
    }

    method HandleReply(codec: Codec, reply: Packet, secret: Bytes) returns (r: Result<Event, AuthdError>)
      modifies this
      ensures Reply(View(), r) == TakeReply(codec, old(View()), reply, secret)
    {
      var taken := pending;
      pending := None;
      if taken.None? {
        return Err(NoPendingRequest);
      }
      if reply.identifier != taken.value.identifier {
        return Err(ReplyVerificationFailed);
      }
      if !VerifyReply(codec, reply, taken.value.auth, secret) {
        return Err(ReplyVerificationFailed);
      }
      lastState := FindAttr(reply.attrs, STATE);
      r := Fail(ParseReply(codec, reply));
      if r.Ok? && r.value.AccessAccept? {
        class_ := r.value.authorization.class_;
      }
    }
  }

  // ---- any sequence of calls ----

  datatype Call =
    | EapCall(ctx: RequestContext, identity: Option<Bytes>, eap: Bytes, auth: Digest, secret: Bytes)
    | MabCall(ctx: RequestContext, auth: Digest, secret: Bytes)
    | ReplyCall(reply: Packet, secret: Bytes)
    | AcctCall

  datatype Answer = Built(request: Result<Packet, AuthdError>) | Replied(event: Result<Event, AuthdError>) | AcctId(id: Byte)

  datatype After = After(rs: Rs, answer: Answer)

  function Perform(codec: Codec, rs: Rs, call: Call): After {
    match call
    case EapCall(ctx, identity, eap, auth, secret) =>
      var b := BuildEap(codec, rs, ctx, identity, eap, auth, secret);
      After(b.rs, Built(b.r))
    case MabCall(ctx, auth, secret) =>
      var b := BuildMab(codec, rs, ctx, auth, secret);
      After(b.rs, Built(b.r))
    case ReplyCall(reply, secret) =>
      var t := TakeReply(codec, rs, reply, secret);
      After(t.rs, Replied(t.r))
    case AcctCall =>
      After(rs.(nextAcctId := WrappingNext(rs.nextAcctId)), AcctId(rs.nextAcctId))
  }

  /** The state after the first `n` calls. */
  function StateAt(codec: Codec, calls: seq<Call>, n: nat): Rs
    requires n <= |calls|
  {
    if n == 0 then FRESH else Perform(codec, StateAt(codec, calls, n - 1), calls[n - 1]).rs
  }

  function AnswerAt(codec: Codec, calls: seq<Call>, i: nat): Answer
    requires i < |calls|
  {
    Perform(codec, StateAt(codec, calls, i), calls[i]).answer
  }

  // ---- what the calls alone determine ----

  predicate IsRequest(c: Call) { c.EapCall? || c.MabCall? }

  /** How many Access-Requests were attempted in the first `n` calls. */
  function Attempts(calls: seq<Call>, n: nat): nat
    requires n <= |calls|
  {
    if n == 0 then 0 else Attempts(calls, n - 1) + if IsRequest(calls[n - 1]) then 1 else 0
  }

  /** The most recent request, unless some reply has been presented since. */
  function Outstanding(calls: seq<Call>, n: nat): (k: Option<nat>)
    requires n <= |calls|
    ensures k.Some? ==> k.value < n && IsRequest(calls[k.value])
    ensures k.Some? ==> forall j :: k.value < j < n ==> calls[j].AcctCall?
  {
    if n == 0 then None
    else if IsRequest(calls[n - 1]) then Some(n - 1)
    else if calls[n - 1].ReplyCall? then None
    else Outstanding(calls, n - 1)
  }

  /** Call `i` is a reply bound to the outstanding request: same Identifier, and it verifies. */
  predicate Verified(codec: Codec, calls: seq<Call>, i: nat)
    requires i < |calls|
  {
    && calls[i].ReplyCall?
    && Outstanding(calls, i).Some?
    && var k := Outstanding(calls, i).value;
       && calls[i].reply.identifier == Attempts(calls, k) % 256
       && VerifyReply(codec, calls[i].reply, calls[k].auth, calls[i].secret)
  }

  /** The State attribute of the last verified reply among the first `n` calls. */
  function EchoedState(codec: Codec, calls: seq<Call>, n: nat): Option<Bytes>
    requires n <= |calls|
  {
    if n == 0 then None
    else if Verified(codec, calls, n - 1) then FindAttr(calls[n - 1].reply.attrs, STATE)
    else EchoedState(codec, calls, n - 1)
  }

  /** The identity of the last EAP round that carried one. */
  function LastIdentity(calls: seq<Call>, n: nat): Option<Bytes>
    requires n <= |calls|
  {
    if n == 0 then None
    else if calls[n - 1].EapCall? && calls[n - 1].identity.Some? then calls[n - 1].identity
    else LastIdentity(calls, n - 1)
  }

  /** What an Access-Accept grants, if the reply is one that parses. */
  function Accepted(codec: Codec, reply: Packet): Option<Authorization> {
    var parsed := ParseReply(codec, reply);
    if parsed.Ok? && parsed.value.AccessAccept? then Some(parsed.value.authorization) else None
  }

  /** The Class of the last accepted Access-Accept among the first `n` calls. */
  function KeptClass(codec: Codec, calls: seq<Call>, n: nat): Option<Bytes>
    requires n <= |calls|
  {
    if n == 0 then None
    else if Verified(codec, calls, n - 1) && Accepted(codec, calls[n - 1].reply).Some?
    then Accepted(codec, calls[n - 1].reply).value.class_
    else KeptClass(codec, calls, n - 1)
  }

  /** How many accounting Identifiers were allocated in the first `n` calls. */
  function AcctCalls(calls: seq<Call>, n: nat): nat
    requires n <= |calls|
  {
    if n == 0 then 0 else AcctCalls(calls, n - 1) + if calls[n - 1].AcctCall? then 1 else 0
  }

  // ---- the state is what the calls determine ----

  /** The reply answers the outstanding request: same Identifier, and it verifies under that request's nonce. */
  predicate Binds(codec: Codec, rs: Rs, reply: Packet, secret: Bytes) {
    && rs.pending.Some? && reply.identifier == rs.pending.value.identifier
    && VerifyReply(codec, reply, rs.pending.value.auth, secret)
  }

  /** What a call does to the state it finds. */
  lemma CallMoves(codec: Codec, rs: Rs, call: Call)
    ensures var after := Perform(codec, rs, call).rs;
            match call
            case ReplyCall(reply, secret) =>
              var accepted := if Binds(codec, rs, reply, secret) then Accepted(codec, reply) else None;
              after == rs.(pending := None,
                           lastState := if Binds(codec, rs, reply, secret) then FindAttr(reply.attrs, STATE) else rs.lastState,
                           class_ := if accepted.Some? then accepted.value.class_ else rs.class_)
            case AcctCall => after == rs.(nextAcctId := WrappingNext(rs.nextAcctId))
            case EapCall(_, identity, _, auth, _) =>
              after == Issue(rs, auth).(userName := if identity.Some? then identity else rs.userName)
            case MabCall(_, auth, _) => after == Issue(rs, auth)
  {
  }

  lemma CountWraps(k: nat)
    ensures WrappingNext(k % 256) == (k + 1) % 256
  {
  }

  lemma {:induction false} IdentifierTracks(codec: Codec, calls: seq<Call>, n: nat)
    requires n <= |calls|
    ensures StateAt(codec, calls, n).nextId == Attempts(calls, n) % 256
  {
    if n == 0 {
    } else {
      IdentifierTracks(codec, calls, n - 1);
      CallMoves(codec, StateAt(codec, calls, n - 1), calls[n - 1]);
      CountWraps(Attempts(calls, n - 1));
    }
  }

  lemma {:induction false} UserTracks(codec: Codec, calls: seq<Call>, n: nat)
    requires n <= |calls|
    ensures StateAt(codec, calls, n).userName == LastIdentity(calls, n)
  {
    if n == 0 {
    } else {
      UserTracks(codec, calls, n - 1);
      CallMoves(codec, StateAt(codec, calls, n - 1), calls[n - 1]);
    }
  }

  function PendingFor(calls: seq<Call>, n: nat): Option<Pending>
    requires n <= |calls|
  {
    match Outstanding(calls, n)
    case None => None
    case Some(k) => Some(Pending(Attempts(calls, k) % 256, calls[k].auth))
  }

  lemma {:induction false} PendingTracks(codec: Codec, calls: seq<Call>, n: nat)
    requires n <= |calls|
    ensures StateAt(codec, calls, n).pending == PendingFor(calls, n)
  {
    if n == 0 {
    } else {
      PendingTracks(codec, calls, n - 1);
      IdentifierTracks(codec, calls, n - 1);
      CallMoves(codec, StateAt(codec, calls, n - 1), calls[n - 1]);
    }
  }

  lemma {:induction false} EchoTracks(codec: Codec, calls: seq<Call>, n: nat)
    requires n <= |calls|
    ensures StateAt(codec, calls, n).lastState == EchoedState(codec, calls, n)
  {
    if n == 0 {
    } else {
      EchoTracks(codec, calls, n - 1);
      PendingTracks(codec, calls, n - 1);
      CallMoves(codec, StateAt(codec, calls, n - 1), calls[n - 1]);
    }
  }

  /** The Class kept for accounting is that of the last Access-Accept that was accepted. */
  lemma {:induction false} ClassTracks(codec: Codec, calls: seq<Call>, n: nat)
    requires n <= |calls|
    ensures StateAt(codec, calls, n).class_ == KeptClass(codec, calls, n)
  {
    if n == 0 {
    } else {
      ClassTracks(codec, calls, n - 1);
      PendingTracks(codec, calls, n - 1);
      CallMoves(codec, StateAt(codec, calls, n - 1), calls[n - 1]);
    }
  }

  lemma {:induction false} AcctTracks(codec: Codec, calls: seq<Call>, n: nat)
    requires n <= |calls|
    ensures StateAt(codec, calls, n).nextAcctId == AcctCalls(calls, n) % 256
  {
    if n == 0 {
    } else {
      AcctTracks(codec, calls, n - 1);
      CallMoves(codec, StateAt(codec, calls, n - 1), calls[n - 1]);
      CountWraps(AcctCalls(calls, n - 1));
    }
  }

  /** The whole state, field by field, is determined by the calls alone. */
  lemma {:induction false} StateTracks(codec: Codec, calls: seq<Call>, n: nat)
    requires n <= |calls|
    ensures StateAt(codec, calls, n) ==
            Rs(Attempts(calls, n) % 256, AcctCalls(calls, n) % 256, EchoedState(codec, calls, n), LastIdentity(calls, n),
               PendingFor(calls, n), KeptClass(codec, calls, n))
  {
    IdentifierTracks(codec, calls, n);
    AcctTracks(codec, calls, n);
    UserTracks(codec, calls, n);
    PendingTracks(codec, calls, n);
    EchoTracks(codec, calls, n);
    ClassTracks(codec, calls, n);
  }

  /** The k-th Access-Request attempt, counting from 0, carries Identifier k mod 256 and its own nonce. */
  lemma IdentifiersCount(codec: Codec, calls: seq<Call>, i: nat)
    requires i < |calls| && IsRequest(calls[i]) && AnswerAt(codec, calls, i).request.Ok?
    ensures var q := AnswerAt(codec, calls, i).request.value;
            q.identifier == Attempts(calls, i) % 256 && q.authenticator == calls[i].auth
  {
    StateTracks(codec, calls, i);
  }

  /** A reply is accepted exactly when it is bound to the outstanding request and parses. */
  lemma ReplyAcceptance(codec: Codec, calls: seq<Call>, i: nat)
    requires i < |calls| && calls[i].ReplyCall?
    ensures AnswerAt(codec, calls, i).event.Ok? <==>
            Verified(codec, calls, i) && ParseReply(codec, calls[i].reply).Ok?
    ensures AnswerAt(codec, calls, i).event.Ok? ==>
            AnswerAt(codec, calls, i).event.value == ParseReply(codec, calls[i].reply).value
  {
    StateTracks(codec, calls, i);
  }

  /** Once any reply has been presented for a request, that request is never outstanding again. */
  lemma {:induction false} OneReplyPerRequest(codec: Codec, calls: seq<Call>, i: nat, j: nat)
    requires i < j < |calls| && calls[i].ReplyCall? && Outstanding(calls, i).Some?
    ensures Outstanding(calls, j).Some? ==> Outstanding(calls, j).value > i
    ensures AnswerAt(codec, calls, i).Replied? && AnswerAt(codec, calls, j).Replied? && AnswerAt(codec, calls, j).event.Ok? ==>
            exists k :: i < k < j && IsRequest(calls[k]) && Outstanding(calls, j) == Some(k)
    decreases j
  {
    if j == i + 1 {
    } else {
      OneReplyPerRequest(codec, calls, i, j - 1);
    }
    StateTracks(codec, calls, j);
  }

  /** An EAP request echoes the State of the last verified reply, relays the EAP verbatim and repeats the identity. */
  lemma StateEchoed(codec: Codec, calls: seq<Call>, i: nat)
    requires i < |calls| && calls[i].EapCall? && AnswerAt(codec, calls, i).request.Ok?
    ensures var q := AnswerAt(codec, calls, i).request.value;
            && FindAttr(q.attrs, STATE) == EchoedState(codec, calls, i)
            && FindAttr(q.attrs, USER_NAME) == LastIdentity(calls, i + 1)
            && Reassemble(q.attrs) == calls[i].eap
  {
    StateTracks(codec, calls, i);
    var rs, c := StateAt(codec, calls, i), calls[i];
    RelayIsVerbatim(codec, c.ctx, rs.nextId, c.auth, LastIdentity(calls, i + 1), rs.lastState, c.eap, c.secret);
  }

  // ---- requests that carry no State ----

  /** The last verified reply among the first `n` calls. */
  function LastVerified(codec: Codec, calls: seq<Call>, n: nat): Option<nat>
    requires n <= |calls|
  {
    if n == 0 then None
    else if Verified(codec, calls, n - 1) then Some(n - 1)
    else LastVerified(codec, calls, n - 1)
  }

  /** It was verified, none after it was, and its State is the one echoed. */
  lemma {:induction false} EchoIsLastVerified(codec: Codec, calls: seq<Call>, n: nat)
    requires n <= |calls|
    ensures match LastVerified(codec, calls, n)
            case None => EchoedState(codec, calls, n) == None && forall j :: 0 <= j < n ==> !Verified(codec, calls, j)
            case Some(k) =>
              && k < n && Verified(codec, calls, k) && (forall j :: k < j < n ==> !Verified(codec, calls, j))
              && EchoedState(codec, calls, n) == FindAttr(calls[k].reply.attrs, STATE)
  {
    if n == 0 {
    } else {
      EchoIsLastVerified(codec, calls, n - 1);
    }
  }

  /**
   An EAP request, the first of its conversation or not, carries no State if and only if no
   reply was ever verified for this MAC, or the last one that was carried none.
   */
  lemma NoStateIff(codec: Codec, calls: seq<Call>, i: nat)
    requires i < |calls| && calls[i].EapCall? && AnswerAt(codec, calls, i).request.Ok?
    ensures FindAttr(AnswerAt(codec, calls, i).request.value.attrs, STATE).None? <==>
            match LastVerified(codec, calls, i)
            case None => true
            case Some(k) => k < i && calls[k].ReplyCall? && FindAttr(calls[k].reply.attrs, STATE).None?
  {
    StateEchoed(codec, calls, i);
    EchoIsLastVerified(codec, calls, i);
  }

  // ---- a history in which a new conversation carries the State of the last ----

  const UNFINISHED: Packet :=
    Packet(ChallengeCode, 0, ZEROS,
           [Attr(STATE, [7]), Attr(EAP_MESSAGE, Pacp.RequestIdentity(1)), Attr(MESSAGE_AUTHENTICATOR, ZEROS)])

  /** A Response/Identity, a Challenge that is never answered, and later another Response/Identity. */
  function TwoConversations(ctx: RequestContext, id: Bytes, secret: Bytes): seq<Call> {
    [EapCall(ctx, Some(id), Pacp.ResponseIdentity(0, id), ZEROS, secret),
     ReplyCall(UNFINISHED, secret),
     EapCall(ctx, Some(id), Pacp.ResponseIdentity(9, id), ZEROS, secret)]
  }

  lemma UnfinishedVerifies(secret: Bytes)
    ensures VerifyReply(Lenient(), UNFINISHED, ZEROS, secret)
    ensures FindAttr(UNFINISHED.attrs, STATE) == Some([7])
  {
    var attrs := UNFINISHED.attrs;
    assert attrs[1..] == [Attr(EAP_MESSAGE, Pacp.RequestIdentity(1)), Attr(MESSAGE_AUTHENTICATOR, ZEROS)];
    assert attrs[1..][1..] == [Attr(MESSAGE_AUTHENTICATOR, ZEROS)];
    assert FindAttr(attrs[1..], MESSAGE_AUTHENTICATOR) == FindAttr(attrs[1..][1..], MESSAGE_AUTHENTICATOR) == Some(ZEROS);
  }

  /** The second conversation's first request carries the State of the first conversation. */
  lemma StaleStateWitness(ctx: RequestContext, id: Bytes, secret: Bytes)
    ensures var calls := TwoConversations(ctx, id, secret);
            && Pacp.EapIdentity(calls[2].eap).Some? == (5 + |id| <= 0xFFFF)
            && AnswerAt(Lenient(), calls, 2).request.Ok?
            && FindAttr(AnswerAt(Lenient(), calls, 2).request.value.attrs, STATE) == Some([7])
  {
    var calls := TwoConversations(ctx, id, secret);
    Pacp.IdentityExtraction(calls[2].eap, id);
    if Pacp.EapIdentity(calls[2].eap).Some? {
      Pacp.IdentityOnlyThere(calls[2].eap);
    }
    Pacp.ResponseIdentityAt(9, id);
    UnfinishedVerifies(secret);
    assert Outstanding(calls, 1) == Some(0) && Attempts(calls, 0) == 0;
    assert Verified(Lenient(), calls, 1);
    StateEchoed(Lenient(), calls, 2);
    EchoIsLastVerified(Lenient(), calls, 2);
  }
}
