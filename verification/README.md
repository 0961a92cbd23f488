# IEEE 802.1X authenticator: a Dafny model

This project models an IEEE 802.1X-2020 network access server and proves what it does
over whole runs. `dafny verify dfyconfig.toml` checks everything.

The stack is modelled layer by layer, and the last modules put the layers together.

| file | layer |
|---|---|
| `Octets.dfy`, `Wrappers.dfy` | octets, MACs, `Option` and `Result` |
| `Pacp.dfy` | Ethernet and EAPOL framing, the EAP header view |
| `PaeTypes.dfy`, `PaeSession.dfy` | the per-supplicant state machine, on values and as an object updated in place |
| `PaeRuns.dfy`, `PaeTheorems.dfy` | what a session's effects add up to over every event sequence |
| `PaePort.dfy`, `PortTheorems.dfy`, `PortAccounting.dfy` | the per-port multiplexer, its invariant, non-interference and accounting |
| `Radius.dfy`, `RadiusTheorems.dfy` | request building, sealing, fragmentation, reply parsing |
| `Correlation.dfy` | Identifiers, the outstanding request, State and User-Name carry-over |
| `Framing.dfy` | length-delimited RADIUS packets on a byte stream |
| `Schema.dfy`, `SchemaTheorems.dfy` | SONiC delta plans and the meaning of each database operation |
| `Enforcer.dfy` | the enforcer that remembers postures, and when its record is truthful |
| `PartialWrites.dfy`, `Recovery.dfy` | what a failing backend leaves behind, and what puts it right |
| `Dispatch.dfy`, `DispatchTheorems.dfy` | the orchestrator and its RADIUS feedback loop |
| `Worker.dfy`, `Serving.dfy` | serving a port from bring-up on, and the same run without its loop |
| `EndToEnd.dfy`, `Expiry.dfy`, `CriticalVlan.dfy` | what a served run leaves in the database and the schedule, and what it never enters |
| `Conversation.dfy`, `History.dfy` | what one conversation leaves to the next, and the calls that determine it |

## How it is modelled

Each object that the program updates in place is a class. Its methods are proved equal to a
function on values (`Step`, `Handle`, `Drain`, `ApplyPosture`, `Exec` and so on), and the
theorems are about those functions. What the program cannot see is a parameter. The RADIUS
codec and HMAC are arbitrary functions (`Codec`). The server's answers, the success of each
send, the request nonces and the database faults are arbitrary functions of how many
boundary calls came before (`Env`), and so are the calls that other ports' workers make on the
shared enforcer in between. Timer events may arrive at any time, late or unasked.

A run's effects are folded into a `Shadow`: the posture last commanded, the timers left armed
and the accounting triggers sent. `Sound` relates the shadow to the session's own fields.

## What the model shows about the code

- `Enable` on a session with accounting open clears the flag and sends no Stop. Accounting is
  balanced if and only if that never happens, for one session (`AccountingBalanced`) and for
  each MAC of a port (`PortAccountingBalanced`). `EnableLosesStopWitness` is a run where it does.
- In MultiHost the posture is directed at the port, so the orchestrator keeps no
  Session-Timeout. The session arms its timer and nothing is scheduled (`GrantScheduled`). In
  every other host mode the schedule is exactly the armed set (`ScheduleIsArmed`), and a session
  timeout has the duration of the latest Accept (`ExpiryIsLatestAccept`).
- Bring-up closes the gate and records a closed posture but removes no VLAN or Filter-Id
  binding. The record is truthful if and only if there was none (`TrapAgreesIff`).
- A posture that fails after some of its writes leaves the record as it was. It is still
  truthful only if what landed is harmless (`FailedApplyKeepsIff`). An opening of which one
  write landed leaves a port recorded closed without its deny rule, and no later closing writes
  anything (`HalfOpened`, `StuckOpen`). Bring-up closes it again (`TrapRecovers`).
- The correlation state of a MAC outlives its session. A conversation broken off after a
  Challenge leaves its State, and the first request of the next one echoes it
  (`StaleStateEchoed`; `StaleStateWitness` is a history), although the comment on `access_request_eap`
  (`crates/radius-client/src/request.rs:11-20`) says a first request carries none. `NoStateIff`
  says exactly when it carries none.
- Reply verification reads the first Message-Authenticator only. Under its own authenticator a
  packet verifies exactly when sealing leaves it unchanged, provided all of them agree
  (`VerifiedIffSealed`). `FirstDecides` is a packet whose second one is wrong.
- A critical VLAN is never entered, although `DESIGN.md:122` and `DESIGN.md:146` promise it. A
  server that does not answer ends the service with an error (`UnansweredStops`), and between
  inputs no session awaits the server (`CriticalNeverEntered`).
- A service that stops with an error leaves the port as it was last performed, open or closed
  (`DatabaseAtStop`), although `DESIGN.md:127` has a failure return it to unauthorized.
- Every accounting session of a MAC carries the same Acct-Session-Id (`SecondStartReusesId`,
  `AccountingIdIsPerMac`).
- VLAN ids are programmed as they are spelled: `+10` and `010` are accepted and make keys other
  than `Vlan10` (`SpellingsDiffer`). `CanonicalVlanIff` says when an id is its number.
- A packet type held as `Unknown` with the octet of a known type does not survive a round
  trip. Every canonical one does (`FrameRoundTrip`).

## Assumptions of the database theorems

Port names are non-empty and contain no comma and no bar. Filter-Ids, from the server, from a
CoA or in other ports' calls, do not start with `DOT1X_`, the prefix of the deny tables, and
neither do those recorded at the start. Bring-up finds a port without bindings. Other ports'
calls may do anything else and may fail anywhere. A service ends at its first error.
`DatabaseAtStop` covers runs that ended with an error other than the enforcer's own, for which
`FailedApplyKeepsIff` says what is left; `DatabaseIsImage` and `DenyRuleGuards` are about runs in
which every call of this port returned Ok. `SuccessMeansClosed` asks of its start only that this
port has no deny rule without the permit and the table, and `ClosedAfterBringUp` not even that.
The backend keeps one posture per port and the last writer wins, so only SingleHost and
MultiHost tie the database to one session (`DenyRuleGuards`). The theorems about timers and
waiting sessions assume only the Ok returns and, for timers, that nothing was scheduled before.

## Model

| member | source | states |
|---|---|---|
| `PaeSession.PortSession.PerformStep` | crates/pae/src/session.rs:106-131 | one event updates the fields and emits, in order, exactly what `Step` says, whatever the state |
| `PaeSession.PortSession.PerformEnableSession` | crates/pae/src/session.rs:135-144 | enabling: unauthorized first, then a fresh solicitation; the grant, the accounting flag and the kind are reset without a Stop |
| `PaeSession.PortSession.PerformInConnecting` | crates/pae/src/session.rs:146-169 | Connecting: resend, count expiries up to the limit, give up, relay a Response, or log off |
| `PaeSession.PortSession.PerformInAuthServer` | crates/pae/src/session.rs:171-189 | AuthServer: challenge, accept, reject, unreachable server, log-off |
| `PaeSession.PortSession.PerformInAuthenticating` | crates/pae/src/session.rs:191-217 | Authenticating: relay, supplicant timeout, restart without resetting the count, log-off |
| `PaeSession.PortSession.PerformInAuthenticated` | crates/pae/src/session.rs:222-239 | Authenticated: re-authenticate, log off, or expire and solicit anew |
| `PaeSession.PortSession.PerformInHeld` | crates/pae/src/session.rs:242-253 | Held: leave on HeldPeriod or EAPOL-Start only |
| `PaeSession.PortSession.PerformInFallback` | crates/pae/src/session.rs:256-274 | Fallback: leave on EAPOL-Start, and on ServerTimeout only from the critical VLAN |
| `PaeSession.PortSession.PerformSendIdentity` | crates/pae/src/session.rs:279-285 | a new EAP identifier, wrapping at 256, one Request/Identity and TxPeriod armed |
| `PaeSession.PortSession.PerformNoSupplicant` | crates/pae/src/session.rs:289-310 | no supplicant: close an open session, else MAB, else guest VLAN, else hold, in that order |
| `PaeSession.PortSession.PerformAuthorize` | crates/pae/src/session.rs:312-339 | relay, open, Start only when accounting was closed, then arm Reauth and SessionTimeout as configured and granted |
| `PaeSession.PortSession.PerformReject` | crates/pae/src/session.rs:341-358 | relay, then close an open session, else auth-fail VLAN, else hold |
| `PaeSession.PortSession.PerformUnreachable` | crates/pae/src/session.rs:360-382 | an unreachable server keeps an open session open, else critical VLAN, else hold |
| `PaeSession.PortSession.PerformBeginReauth` | crates/pae/src/session.rs:385-391 | re-authentication cancels Reauth and solicits, keeping grant and accounting |
| `PaeSession.PortSession.PerformCoaAuthorized` | crates/pae/src/session.rs:393-401 | a CoA replaces the grant of an Authenticated session only, and arms nothing |
| `PaeSession.PortSession.PerformEnterFallback` | crates/pae/src/session.rs:405-414 | entering a fallback cancels every timer and commands its VLAN |
| `PaeSession.PortSession.PerformHold` | crates/pae/src/session.rs:417-424 | holding cancels every timer, closes, and arms HeldPeriod alone |
| `PaeSession.PortSession.PerformTeardown` | crates/pae/src/session.rs:428-444 | teardown: Stop when accounting was open, then no timers, closed, New; nothing at all in New |
| `PaeRuns.AfterAuthorize` | crates/pae/src/session.rs:312-339 | a grant leaves exactly its posture, the Reauth and SessionTimeout timers that apply and at most one new Start behind |
| `PaeRuns.AfterTeardown` | crates/pae/src/session.rs:428-444 | a teardown leaves the port closed, no timer, and one Stop if accounting was open |
| `PaeRuns.AfterUnreachable` | crates/pae/src/session.rs:360-382 | an unreachable server leaves an open session's posture and accounting alone |
| `PaeRuns.AfterNoSupplicant` | crates/pae/src/session.rs:289-310 | giving up leaves exactly one of: closed and stopped, MAB awaited, guest VLAN, held |
| `PaeRuns.AfterReject` | crates/pae/src/session.rs:341-358 | a reject leaves exactly one of: closed and stopped, auth-fail VLAN, held |
| `PaeRuns.AdvanceSound` | crates/pae/src/session.rs:106-445 | the main inductive step: every event in every state keeps posture, timers and transmit count in step with the session, moves accounting only with the flag, and changes the posture only by a grant, a closing or a fallback entered with accounting closed |
| `PaeTheorems.PostureMirror` | crates/pae/src/session.rs:106-131 | over every run the last posture is Authorized(a) iff the session holds a, accounting is open iff it holds anything; New and Held are closed, Authenticated is open, and a fallback state shows its own configured VLAN |
| `PaeTheorems.NoStateStranded` | crates/pae/src/session.rs:135-285 | over every run each waiting state has its timer armed; Held has HeldPeriod only, the critical fallback ServerTimeout only, New and the other fallbacks none |
| `PaeTheorems.AccountingBalanced` | crates/pae/src/session.rs:326-351 | over every run triggers alternate Start, Stop and end in Start iff open, if and only if no Enable arrived while accounting was open |
| `PaeTheorems.EnableBreaksBalance` | crates/pae/src/session.rs:135-138 | after any run that leaves accounting open, an Enable unbalances the log for good, whatever events follow |
| `PaeTheorems.EnableLosesStopWitness` | crates/pae/src/session.rs:135-138 | the run on which it happens: Enable, Response, Access-Accept, Enable ends with the log [Start] and accounting closed |
| `PaeTheorems.ForwardingJustified` | crates/pae/src/session.rs:181-184 | the port forwards with a iff the latest Accept or CoA granted a and it has forwarded since; then an Access-Accept consumed in AuthServer opened that stretch |
| `PaeTheorems.FallbackJustified` | crates/pae/src/session.rs:289-413 | a fallback posture carries the VLAN configured for its reason, was entered with accounting closed and has stood since |
| `PaeTheorems.RelayIsFaithful` | crates/pae/src/session.rs:171-341 | every step sends the supplicant exactly the EAP of the reply it consumes, or one identity request with the next identifier, or nothing |
| `PaeTheorems.IdentifiersAdvance` | crates/pae/src/session.rs:279-285 | over every run the identity requests carry identifiers 1, 2, 3 and so on, modulo 256, whatever else is relayed in between |
| `PaeTheorems.StepJustified` | crates/pae/src/session.rs:106-445 | every posture a step commands is closed, the grant its event carries, or the fallback state it ends in |
| `PaeTheorems.TransmissionsBounded` | crates/pae/src/session.rs:208-213 | outside New the transmit count stays in 1..max(1, max_reauth_req) over every run |
| `PaeTheorems.StayBounded` | crates/pae/src/session.rs:146-156 | one stay in Connecting survives at most max_reauth_req minus its entry count of TxPeriod expiries, none if negative, and counts each one |
| `PaePort.PortPae.HandleEvent` | crates/pae/src/port.rs:68-83 | an event steps its session, admits a new one if there is room, or is dropped; New sessions are pruned |
| `PaePort.PortPae.FindSession` | crates/pae/src/port.rs:69-72 | the first session of the MAC |
| `PaePort.PortPae.AdmitSession` | crates/pae/src/port.rs:109-119 | a first contact is bootstrapped with Enable, then given its event unless that is Enable or EAPOL-Start |
| `PaePort.PortPae.HasRoom` | crates/pae/src/port.rs:122-129 | room by host mode, counting sessions that are not New |
| `PaePort.PortPae.LinkDownAll` | crates/pae/src/port.rs:86-103 | link loss tears every session down, directing its effects at its MAC, and closes the port last |
| `PaePort.PortPae.PruneSessions` | crates/pae/src/port.rs:132-134 | exactly the sessions not in New stay, in order |
| `PaePort.DecorateAll` | crates/pae/src/port.rs:143-154 | effects keep their order; only a MultiHost posture loses its MAC |
| `PortTheorems.HandleFacts` | crates/pae/src/port.rs:68-83 | an accepted event moves exactly its own MAC's entry (update, create, drop); a refused one changes nothing; the structural invariant is kept |
| `PortTheorems.AdmissionAgrees` | crates/pae/src/port.rs:122-129 | admission stops exactly at the host mode's capacity |
| `PortTheorems.LinkLostCovers` | crates/pae/src/port.rs:86-103 | after link loss no session and no timer is left, and every target is closed |
| `PortTheorems.AdmitSound` | crates/pae/src/port.rs:109-119 | a first contact from a clean slate ends in a session that mirrors its effects, even if its event is a spurious expiry |
| `PortTheorems.PortInvariant` | crates/pae/src/port.rs:68-154 | over every interleaving: distinct MACs, none New, capacity kept and deciding admission, each live session mirrored by what was directed at it, and no timer and no open posture for a target without one |
| `PortAccounting.PortAccountingBalanced` | crates/pae/src/port.rs:68-134 | over every interleaving, per MAC and through every session it has had, triggers alternate and end in Start iff its live session is open, if and only if no Enable fed for it found accounting open |
| `PortTheorems.PortStepIsLone` | crates/pae/src/port.rs:68-134 | one input moves a MultiAuth port's view of a MAC exactly as a machine knowing that MAC alone |
| `PortTheorems.NonInterference` | crates/pae/src/port.rs:68-134 | over every interleaving in MultiAuth, state kept for m and effects directed at m are those of a lone create-on-contact, prune-at-New machine fed only the inputs of m |
| `Pacp.TypeRoundTrip` | crates/pacp/src/pdu.rs:49-81 | octet and packet type convert back and forth, exactly for canonical types |
| `Pacp.EncodeHeaderInto` | crates/pacp/src/ethernet.rs:62-66 | the Ethernet header is appended, nothing else changes |
| `Pacp.EncodePduInto` | crates/pacp/src/pdu.rs:144-153 | the PDU is appended with its length, or refused with the buffer unchanged when the body is too long |
| `Pacp.BuildFrame` | crates/pacp/src/pdu.rs:169-183 | the built frame is the Ethernet header followed by the PDU |
| `Pacp.PduRoundTrip` | crates/pacp/src/pdu.rs:116-153 | a PDU encodes iff its body fits 16 bits, and then decodes back under any padding, up to canonical type |
| `Pacp.FrameRoundTrip` | crates/pacp/src/lib.rs:45-52 | a frame followed by any padding decodes to the same MACs and PDU iff its packet type is canonical |
| `Pacp.FrameReencodes` | crates/pacp/src/lib.rs:45-52 | whatever decodes re-encodes to a prefix of its input |
| `Pacp.FrameAcceptance` | crates/pacp/src/ethernet.rs:91-127 | exactly which octet strings are accepted as EAPOL frames |
| `Pacp.IdentityExtraction` | crates/pacp/src/eap.rs:130-210 | an identity is found iff the packet is a well-formed Response/Identity, and it is every octet after the fixed five |
| `Pacp.RequestIdentityDecodes` | crates/pacp/src/eap.rs:94-96 | the one EAP packet the authenticator originates is well formed |
| `Radius.PacketBuilder.FragmentInto` | crates/radius-client/src/eap_message.rs:17-22 | the fragments of the EAP packet are appended in order |
| `Radius.PacketBuilder.SealIt` | crates/radius-client/src/request.rs:90-113 | the packet in place becomes its sealed form; a refused placeholder leaves it as it was, and one that does not encode is left with its placeholder zeroed |
| `Radius.AccessRequestEap` | crates/radius-client/src/request.rs:26-56 | the request built is the specified one, with its error cases |
| `Radius.AccessRequestMab` | crates/radius-client/src/request.rs:63-81 | the MAB request built is the specified one, with its error cases |
| `RadiusTheorems.FragmentsReassemble` | crates/radius-client/src/eap_message.rs:17-33 | fragments reassemble to the packet; there are ceil(n/253), each of 1 to 253 octets |
| `RadiusTheorems.SealFrame` | crates/radius-client/src/request.rs:90-113 | sealing changes no other attribute and no order |
| `RadiusTheorems.SealVerifies` | crates/radius-client/src/reply.rs:33-62 | a sealed packet verifies under its own authenticator |
| `RadiusTheorems.SealIdempotent` | crates/radius-client/src/request.rs:90-113 | sealing twice is sealing once |
| `RadiusTheorems.VerifiedIffSealed` | crates/radius-client/src/reply.rs:33-62 | a packet is left alone by sealing iff it carries equal Message-Authenticators that verify |
| `RadiusTheorems.FirstDecides` | crates/radius-client/src/reply.rs:33-62 | a packet with two Message-Authenticators of which only the first is right verifies and is not sealed |
| `RadiusTheorems.RelayIsVerbatim` | crates/radius-client/src/request.rs:26-56 | every EAP request built reassembles to exactly the input, in ceil(n/253) EAP-Messages of 1 to 253 octets each, with one Message-Authenticator that verifies, and carries the State and User-Name given |
| `RadiusTheorems.MabCarriesNoEap` | crates/radius-client/src/request.rs:63-81 | a MAB request carries no EAP, the MAC as User-Name and one Message-Authenticator that verifies |
| `Correlation.RadiusSession.BuildEapRequest` | crates/authd/src/session.rs:75-104 | builds the request, remembers identity, Identifier and nonce, also when building fails |
| `Correlation.RadiusSession.BuildMabRequest` | crates/authd/src/session.rs:110-123 | builds the MAB request and leaves it outstanding |
| `Correlation.RadiusSession.HandleReply` | crates/authd/src/session.rs:132-148 | takes the outstanding request, verifies, parses and remembers State and Class |
| `Correlation.RadiusSession.NextAccountingIdentifier` | crates/authd/src/session.rs:63-67 | accounting Identifiers advance and wrap on their own |
| `Correlation.StateTracks` | crates/authd/src/session.rs:56-148 | after any calls the whole state is determined by the call history alone: both next Identifiers, carried State, identity, outstanding request and Class |
| `Correlation.ClassTracks` | crates/authd/src/session.rs:132-148 | the Class kept for accounting is that of the last Access-Accept that was accepted |
| `Correlation.IdentifiersCount` | crates/authd/src/session.rs:56-60 | the k-th Access-Request attempt carries Identifier k mod 256 and its own nonce, over any call sequence |
| `Correlation.ReplyAcceptance` | crates/authd/src/session.rs:132-148 | a reply is accepted iff it matches the most recent unanswered request's Identifier, verifies under its nonce, and parses |
| `Correlation.OneReplyPerRequest` | crates/authd/src/session.rs:132-148 | once any reply was presented for a request, a later reply is accepted only for a later request |
| `Correlation.StateEchoed` | crates/authd/src/session.rs:75-104 | the State echoed in a request is that of the last verified reply, and the User-Name that of the last identity seen |
| `Correlation.NoStateIff` | crates/authd/src/session.rs:75-104 | a request, the first of its conversation or not, carries no State iff no reply was ever verified for its MAC or the last one verified carried none |
| `Correlation.StaleStateWitness` | crates/authd/src/session.rs:75-148 | a history where it does: Response, Challenge with State, and the next conversation's first request carries that State |
| `Conversation.StaleStateEchoed` | crates/authd/src/dispatch.rs:210-223 | in the service, accounting open or not: a Response answered by a Challenge, supplicant timeout, held period, a new Response; the new request carries the State of that Challenge |
| `Conversation.ChallengeServed` | crates/authd/src/dispatch.rs:144-223 | a Challenge is taken in: the session waits for the supplicant and the State kept is the Challenge's |
| `Conversation.UnansweredStops` | crates/authd/src/dispatch.rs:210-223 | a request that is not answered ends the service with a transport error while its session still waits |
| `History.ServiceIsHistory` | crates/authd/src/dispatch.rs:210-235 | after every served run, ended by an error or not, each MAC's correlation state is that of the calls the service made for it |
| `History.ServiceRequest` | crates/authd/src/session.rs:75-104 | the next request of the service carries the Identifier that counts its MAC's attempts modulo 256, the State of the last reply verified for it, the last identity, and the EAP verbatim |
| `History.RepliesMeetRequests` | crates/authd/src/dispatch.rs:210-235 | in every served run each reply meets the request made just before it |
| `History.SecondStartReusesId` | crates/authd/src/dispatch.rs:110-123 | two accounting requests of a MAC carry the same session id, whatever is dispatched between them |
| `History.AccountingIdIsPerMac` | crates/authd/src/dispatch.rs:110-123 | over every service of a port an id never changes, and two accounted sessions carry different ids iff they belong to different MACs |
| `Conversation.LinkLossKeeps` | crates/pae/src/port.rs:86-103 | losing the link drops every session and keeps every MAC's State and User-Name |
| `Framing.Stream.ReadPacket` | crates/radsec/src/framing.rs:31-46 | reads one packet off the stream, with the source's errors for short reads, bad lengths and undecodable octets |
| `Framing.Stream.WritePacket` | crates/radsec/src/framing.rs:53-61 | appends exactly the packet's octets; a writer that fails has taken a prefix of them, and a packet that does not encode writes nothing |
| `Framing.ReadDelimits` | crates/radsec/src/framing.rs:19-46 | a read consumes exactly the declared length, in 20..4096, and depends on nothing after it |
| `Framing.StreamRoundTrip` | crates/radsec/src/framing.rs:19-61 | any list of well-framed packets is read back exactly and all of the stream is used |
| `Framing.TruncatedTail` | crates/radsec/src/framing.rs:31-46 | a truncated last frame is an error rather than a packet, and the packets before it are read |
| `Schema.PlanTransition` | crates/enforce-sonic/src/schema.rs:100-153 | the ops pushed branch by branch are the specified plan |
| `Schema.RedisDb.Apply` | crates/enforce-sonic/src/redis_conn.rs:56-90 | ops take effect in order on keys, fields and comma-separated lists, up to the op that fails |
| `SchemaTheorems.ItemsOfJoin` | crates/enforce-sonic/src/redis_conn.rs:56-90 | splitting a joined list gives back its items, so list edits work on the string |
| `SchemaTheorems.VlanKeyInjective` | crates/enforce-sonic/src/schema.rs:60-62 | VLAN membership keys of different VLANs or ports differ |
| `SchemaTheorems.RuleKeysInjective` | crates/enforce-sonic/src/schema.rs:66-80 | rule keys of different ports differ, and deny and permit rules differ |
| `SchemaTheorems.KindsApart` | crates/enforce-sonic/src/schema.rs:60-80 | keys of different kinds never coincide |
| `SchemaTheorems.VlanMoves` | crates/enforce-sonic/src/schema.rs:103-117 | the VLAN part moves membership from the old VLAN to the new one |
| `SchemaTheorems.FilterMoves` | crates/enforce-sonic/src/schema.rs:119-141 | the Filter-Id part moves the port between the bound lists of two tables, editing the comma-separated strings |
| `SchemaTheorems.CloseEstablishes` | crates/enforce-sonic/src/schema.rs:182-217 | closing installs the deny and permit rules with their actions and priorities |
| `SchemaTheorems.TransitionCorrect` | crates/enforce-sonic/src/schema.rs:100-153 | from a database that agrees with the old posture the plan reaches one that agrees with the new, and no other port sees a difference |
| `SchemaTheorems.TransitionComposes` | crates/enforce-sonic/src/schema.rs:100-153 | going through any intermediate posture agrees with going straight, for the port and for every other |
| `SchemaTheorems.ValidVlanFits` | crates/enforce-sonic/src/schema.rs:223-225 | a VLAN that passes validation fits in a key |
| `SchemaTheorems.CanonicalVlanIff` | crates/enforce-sonic/src/schema.rs:219-225 | an accepted VLAN id is the decimal of its number iff it has no sign and no leading zero |
| `SchemaTheorems.SpellingsDiffer` | crates/enforce-sonic/src/schema.rs:60-62 | 10, +10 and 010 are accepted, stand for the same VLAN and make different membership keys |
| `Enforcer.SonicEnforcer.EnsureEapolTrap` | crates/enforce-sonic/src/enforcer.rs:85-95 | bring-up: write trap and closed gate, confirm both, record closed; failures record nothing |
| `Enforcer.SonicEnforcer.Apply` | crates/enforce-sonic/src/enforcer.rs:97-143 | validate, check the table, write the delta from the recorded posture, confirm the load-bearing key, record; failures record nothing |
| `Enforcer.ApplyKeeps` | crates/enforce-sonic/src/enforcer.rs:97-143 | a call that succeeds, or fails its pre-checks, keeps the record truthful for all ports at once |
| `Enforcer.TrapAgreesIff` | crates/enforce-sonic/src/enforcer.rs:85-95 | for every database: after bring-up it agrees with the recorded closed posture iff the port had no VLAN or Filter-Id binding |
| `Enforcer.TrapKeepsIff` | crates/enforce-sonic/src/enforcer.rs:85-95 | bring-up keeps the record truthful for all ports iff its own port had no binding |
| `Enforcer.CacheAgreesAlways` | crates/enforce-sonic/src/enforcer.rs:35-143 | over any run whose calls succeed or fail only in the pre-checks, the record agrees with the database for all ports at once |
| `Enforcer.ApplySucceedsIff` | crates/enforce-sonic/src/enforcer.rs:97-143 | from such a state, with the backend up, a posture is applied iff its VLAN is valid and its table exists, and then the database agrees with it |
| `PartialWrites.PartFrame` | crates/enforce-sonic/src/redis_conn.rs:56-90 | however few ops of a port's plan land, no other port sees a difference |
| `PartialWrites.PartAgreesIff` | crates/enforce-sonic/src/schema.rs:100-153 | a port whose plan landed only in part still agrees with its old posture iff no op landed, or only the table of a mere closing |
| `PartialWrites.PartGated` | crates/enforce-sonic/src/schema.rs:172-217 | however few ops of a plan land, a deny rule is never without its EAPOL permit and their table |
| `Recovery.CallFrame` | crates/enforce-sonic/src/enforcer.rs:85-143 | a call for one port, even one that fails halfway, changes neither keys nor record of another port |
| `Recovery.FailedApplyKeepsIff` | crates/enforce-sonic/src/enforcer.rs:97-143 | after a posture that failed the record is truthful for all ports iff it failed its pre-checks or what landed is harmless |
| `Recovery.SuccessMeansClosed` | crates/enforce-sonic/src/enforcer.rs:97-143 | over any history of calls of any ports, failing anywhere, from a start where this port has no deny rule without the rest: Ok for Unauthorized implies the whole closed gate is in place |
| `Recovery.ClosedAfterBringUp` | crates/enforce-sonic/src/enforcer.rs:85-143 | the same from any start at all, once a bring-up of the port has succeeded |
| `Recovery.ClosingSucceedsIff` | crates/enforce-sonic/src/enforcer.rs:97-143 | with the backend up, closing succeeds iff the record says open or the deny rule is there already |
| `Recovery.StuckOpen` | crates/enforce-sonic/src/enforcer.rs:97-143 | a port recorded closed whose deny rule is gone stays so: closing fails and writes nothing, whatever fails |
| `Recovery.HalfOpened` | crates/enforce-sonic/src/enforcer.rs:97-143 | the failure that leads there: an opening of which one write landed; bring-up makes the record truthful again |
| `Recovery.TrapRecovers` | crates/enforce-sonic/src/enforcer.rs:85-95 | bring-up closes the gate from any state at all |
| `Dispatch.Orchestrator.HandleEvent` | crates/authd/src/dispatch.rs:130-164 | the queue loop with its step guard computes `Drain`, stopping at the first error |
| `Dispatch.Orchestrator.ApplyEffects` | crates/authd/src/dispatch.rs:170-188 | port-level effects in order, stopping at the first error |
| `Dispatch.Orchestrator.Perform` | crates/authd/src/dispatch.rs:192-277 | one effect against the link, the server, the enforcer or the scheduler, by target |
| `Dispatch.Orchestrator.SetPosture` | crates/authd/src/dispatch.rs:237-249 | the session timeout is kept only for a posture directed at a MAC, then the posture is enforced |
| `Dispatch.Orchestrator.RelayEap` | crates/authd/src/dispatch.rs:210-223 | identity, request, answer and reply of one EAP round trip, keeping the correlation state through failures |
| `Dispatch.Orchestrator.TryMab` | crates/authd/src/dispatch.rs:225-235 | the MAB round trip |
| `Dispatch.Orchestrator.Account` | crates/authd/src/dispatch.rs:110-123 | one stable session id per MAC, a new counter value only on first use |
| `DispatchTheorems.StepCalls` | crates/pae/src/session.rs:157-188 | a step calls the server exactly when it newly enters AuthServer, once, as its second effect, with the supplicant's Response unaltered or with MAB for its own MAC; and a reply always takes a session out of AuthServer |
| `DispatchTheorems.RequestFeedsBack` | crates/authd/src/dispatch.rs:210-235 | a round trip that succeeds feeds back a Challenge, an Accept or a Reject, to its own session |
| `DispatchTheorems.FeedbackBounded` | crates/authd/src/dispatch.rs:144-164 | for every event on every port the loop takes one turn, and a second exactly when the session newly waits for the server; the queue never exceeds one entry and the 64-step guard never triggers |
| `DispatchTheorems.NoSessionLeftWaiting` | crates/authd/src/dispatch.rs:130-164 | after an Ok return, whoever is in AuthServer was there before, unchanged |
| `DispatchTheorems.PortBatchesQuiet` | crates/authd/src/dispatch.rs:166-188 | enable and link-down batches never yield a follow-up |
| `Worker.RunPort` | crates/authd/src/worker.rs:161-200 | bring-up, then inputs until the first error: the objects together compute `ServeAll` |
| `Worker.OpenService` | crates/authd/src/worker.rs:161-192 | the trap first, then the port commanded closed |
| `EndToEnd.BringUpSucceeds` | crates/authd/src/worker.rs:161-192 | with the backend up, bring-up succeeds from every state with programmable records, bindings or not, and leaves the deny rule in place |
| `Serving.ServeIsHear` | crates/authd/src/dispatch.rs:144-188 | the service loop adds nothing: every run, ended by an error or not, is the port fed its inputs and the replies they caused, one after another, with the effects performed in order |
| `EndToEnd.DatabaseAtStop` | crates/authd/src/dispatch.rs:130-188 | after every served run that the enforcer did not itself stop, finished or ended by a failed send or exchange: the database is the image of the posture performed last, so a port that was open stays open |
| `EndToEnd.DatabaseIsImage` | crates/authd/src/dispatch.rs:237-249 | after every served run, with other ports' calls interleaved between and after its own and failing anywhere, the port's VLAN membership, ACL binding and rules are exactly the image of the last posture commanded on it, and the deny rule is absent iff that posture forwards |
| `EndToEnd.DenyRuleGuards` | crates/pae/src/session.rs:312-445 | SingleHost and MultiHost with no fallback VLAN, other ports interleaved: the deny rule is absent iff the one session holds a granted authorization |
| `EndToEnd.ScheduleServes` | crates/authd/src/dispatch.rs:250-266 | in every host mode the schedule serves each live session's state and holds nothing for a MAC without one |
| `Serving.NobodyWaits` | crates/authd/src/dispatch.rs:144-164 | between inputs of every run that succeeds no session is in AuthServer |
| `CriticalVlan.CriticalNeverEntered` | crates/authd/src/dispatch.rs:144-235 | no served run that succeeds leaves a session in the critical fallback or commands the critical VLAN, whatever is configured |
| `Expiry.ScheduleIsArmed` | crates/authd/src/dispatch.rs:283-292 | the kinds scheduled are exactly those left armed, except that MultiHost never schedules SessionTimeout |
| `Expiry.ExpiryIsLatestAccept` | crates/authd/src/dispatch.rs:283-292 | over every run a scheduled session timeout has the duration of the latest Accept its MAC consumed, re-grants and CoA in between included; in MultiHost there is none |
| `Expiry.GrantScheduled` | crates/authd/src/dispatch.rs:237-242 | one grant from any state: outside MultiHost its Session-Timeout replaces what was kept and scheduled; in MultiHost it is not kept |

## Left out

- `crates/eapol-io`, `crates/radsec/src/client.rs`, `tls.rs`, `fips.rs`: sockets, readiness loops and TLS.
- `radius_proto`: not part of this model. Packets are a code, Identifier, authenticator and attributes, and encoding, decoding, HMAC and Response-Authenticator checking are arbitrary deterministic functions. That a framed packet decodes back is assumed only in the stream round trip.
- `crates/authd/src/config.rs`: checks the configuration once at start. The theorems hold for every `PaeConfig`, so none depends on what it accepts, except that it refuses two ports of one name, which is why other ports' calls carry other names here.
- `crates/authd/src/main.rs`: asserts the cryptographic policy and prints; it serves no port.
- `crates/radius-client/src/sanitize.rs`: decides which identities may become a User-Name. That decision is an arbitrary predicate of the identity (`userNameOk`), and no theorem turns on which identities it refuses.
- `crates/kat`: hexadecimal decoding for test vectors, which no modelled code calls.
- `crates/authd/src/worker.rs`: tasks, channels and the socket loop. Its order of bring-up and its stop at the first error are kept. Losing the link is included as an input although the worker does not produce it.
- Accounting packets: only the Identifier, the session id and whether the send succeeded are modelled. A build failure counts as a failed send.
- The text of an accounting session id: kept as port, MAC and counter.
- Redis connections, database indices and `Display` texts: only what each operation does to the keys and fields.
- Containers: the session vector, the session map and the enforcer's map hold session values, which a class takes out, updates and puts back. Aliasing inside a container does not arise in the original, which owns its elements.
- Concurrency: awaits are sequential calls. Calls of other ports' workers on the shared enforcer are interleaved between this port's enforcer calls, not between the writes of one call.
- Per-MAC isolation in MultiAuth and MultiDomain on SONiC: the backend documents that it has none.
- The causes of a failed reply beyond the kinds in `AuthdError`: error payloads of the RADIUS crate are reduced to their variants.
- Enforcer.SonicEnforcer.Apply: target MACs are not among its arguments, because the backend ignores them.
