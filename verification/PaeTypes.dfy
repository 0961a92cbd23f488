/** Configuration, events and effects of the authenticator PAE. */
module PaeTypes {
  import opened Wrappers
  import opened Octets
  import opened Pacp

  datatype HostMode = SingleHost | MultiHost | MultiAuth | MultiDomain

  datatype Timers = Timers(txPeriod: U32, heldPeriod: U32, reauthPeriod: U32, serverTimeout: U32, suppTimeout: U32)

  datatype TimerKind = TxPeriod | HeldPeriod | Reauth | ServerTimeout | SuppTimeout | SessionTimeout

  datatype PaeConfig = PaeConfig(
    hostMode: HostMode,
    timers: Timers,
    maxReauthReq: U32,
    reauthEnabled: bool,
    mabEnabled: bool,
    guestVlan: Option<string>,
    authFailVlan: Option<string>,
    criticalVlan: Option<string>)

  datatype Authorization = Authorization(
    vlan: Option<string>,
    filterId: Option<string>,
    sessionTimeout: Option<U32>,
    class_: Option<Bytes>)

  datatype FallbackReason = Guest | AuthFail | Critical

  datatype PortAuthorization =
    | Authorized(granted: Authorization)
    | Unauthorized
    | FallbackVlan(reason: FallbackReason, vlan: Option<string>)

  datatype TerminateCause = SupplicantLogoff | PortLinkDown | SessionExpired | AdminReset | ReauthFailure

  datatype AcctTrigger = Start | Stop(cause: TerminateCause)

  datatype Effect =
    | TxEapToSupplicant(eap: Bytes)
    | ToAuthServer(relay: Bytes)
    | StartMab(mac: Mac)
    | SetAuthorization(posture: PortAuthorization)
    | ArmTimer(kind: TimerKind)
    | CancelTimer(kind: TimerKind)
    | CancelAllTimers
    | Accounting(trigger: AcctTrigger)

  datatype InboundEap = InboundEap(code: EapCode, identifier: Byte, eapType: Option<EapType>, packet: Bytes)

  datatype Event =
    | Enable
    | LinkUp
    | LinkDown
    | EapolStart
    | EapolLogoff
    | EapFromSupplicant(inbound: InboundEap)
    | AccessChallenge(challenge: Bytes)
    | AccessAccept(authorization: Authorization, success: Option<Bytes>)
    | AccessReject(failure: Option<Bytes>)
    | ServerUnreachable
    | TimerFired(timer: TimerKind)
    | CoaDisconnect
    | CoaReauthenticate
    | CoaAuthorize(change: Authorization)

  /** The VLAN configured for a fallback reason. */
  function FallbackVlanFor(cfg: PaeConfig, reason: FallbackReason): Option<string> {
    match reason
    case Guest => cfg.guestVlan
    case AuthFail => cfg.authFailVlan
    case Critical => cfg.criticalVlan
  }
}
