/**
 The per-supplicant authenticator state machine. `Step` gives the meaning of one
 event on a session value; `PortSession` is the machine that updates its fields in
 place and is proved to compute it.
 */
module PaeSession {
  import opened Wrappers
  import opened Octets
  import opened Pacp
  import opened PaeTypes

  datatype AuthKind = Dot1x | Mab

  datatype State =
    | New | Connecting | AuthServer | Authenticating | Authenticated | Held
    | Fallback(reason: FallbackReason)

  datatype Session = Session(
    mac: Mac,
    state: State,
    kind: AuthKind,
    eapId: Byte,
    txCount: U32,
    authz: Option<Authorization>,
    acctOpen: bool)

  function NewSession(mac: Mac): Session {
    Session(mac, New, Dot1x, 0, 0, None, false)
  }

  /** The session and the ordered effects one transition leaves behind. */
  datatype Out = Out(s: Session, fx: seq<Effect>)

  function SaturatingNext(n: U32): U32 {
    if n == 0xFFFF_FFFF then n else n + 1
  }

  // ---- shared transitions ----

  function SendIdentity(s: Session): Out {
    var id := WrappingNext(s.eapId);
    Out(s.(eapId := id), [TxEapToSupplicant(RequestIdentity(id)), ArmTimer(TxPeriod)])
  }

  /** Solicit an identity from `Connecting`, after the effects `first`. */
  function Solicit(s: Session, tx: U32, first: seq<Effect>): Out {
    var o := SendIdentity(s.(state := Connecting, txCount := tx));
    Out(o.s, first + o.fx)
  }

  function EnterFallback(s: Session, reason: FallbackReason, vlan: string): Out {
    Out(s.(state := Fallback(reason)), [CancelAllTimers, SetAuthorization(FallbackVlan(reason, Some(vlan)))])
  }

  function Hold(s: Session): Out {
    Out(s.(state := Held), [CancelAllTimers, SetAuthorization(Unauthorized), ArmTimer(HeldPeriod)])
  }

  function Teardown(s: Session, cause: TerminateCause): Out {
    if s.state == New then Out(s, [])
    else Out(s.(state := New, kind := Dot1x, txCount := 0, authz := None, acctOpen := false),
             (if s.acctOpen then [Accounting(Stop(cause))] else [])
             + [CancelAllTimers, SetAuthorization(Unauthorized)])
  }

  function Relay(eap: Option<Bytes>): seq<Effect> {
    if eap.Some? then [TxEapToSupplicant(eap.value)] else []
  }

  function When(cond: bool, e: Effect): seq<Effect> {
    if cond then [e] else []
  }

  function Authorize(s: Session, a: Authorization, eap: Option<Bytes>, cfg: PaeConfig): Out {
    Out(s.(state := Authenticated, authz := Some(a), acctOpen := true),
        Relay(eap)
        + ([CancelAllTimers, SetAuthorization(Authorized(a))]
           + When(!s.acctOpen, Accounting(Start))
           + When(cfg.reauthEnabled, ArmTimer(Reauth))
           + When(a.sessionTimeout.Some?, ArmTimer(SessionTimeout))))
  }

  function Reject(s: Session, eap: Option<Bytes>, cfg: PaeConfig): Out {
    var o := if s.acctOpen then Teardown(s, ReauthFailure)
             else if cfg.authFailVlan.Some? then EnterFallback(s, AuthFail, cfg.authFailVlan.value)
             else Hold(s);
    Out(o.s, Relay(eap) + o.fx)
  }

  function Unreachable(s: Session, cfg: PaeConfig): Out {
    if s.acctOpen then
      Out(s.(state := Authenticated),
          [CancelTimer(ServerTimeout)] + (if cfg.reauthEnabled then [ArmTimer(Reauth)] else []))
    else if cfg.criticalVlan.Some? then
      var o := EnterFallback(s, Critical, cfg.criticalVlan.value);
      Out(o.s, o.fx + [ArmTimer(ServerTimeout)])
    else Hold(s)
  }

  function NoSupplicant(s: Session, cfg: PaeConfig): Out {
    if s.acctOpen then Teardown(s, ReauthFailure)
    else if cfg.mabEnabled then
      Out(s.(state := AuthServer, kind := Mab),
          [CancelTimer(TxPeriod), StartMab(s.mac), ArmTimer(ServerTimeout)])
    else if cfg.guestVlan.Some? then EnterFallback(s, Guest, cfg.guestVlan.value)
    else Hold(s)
  }

  function ToServer(s: Session, kind: AuthKind, awaited: TimerKind, eap: Bytes): Out {
    Out(s.(state := AuthServer, kind := kind),
        [CancelTimer(awaited), ToAuthServer(eap), ArmTimer(ServerTimeout)])
  }

  // ---- one event ----

  function EnableSession(s: Session): Out {
    Solicit(s.(authz := None, acctOpen := false, kind := Dot1x), 1, [SetAuthorization(Unauthorized)])
  }

  function BeginReauth(s: Session): Out {
    Solicit(s, 1, [CancelTimer(Reauth)])
  }

  function Ignored(s: Session): Out {
    Out(s, [])
  }

  function CoaAuthorized(s: Session, a: Authorization): Out {
    if s.state != Authenticated then Ignored(s)
    else Out(s.(authz := Some(a)), [SetAuthorization(Authorized(a))])
  }

  function InConnecting(s: Session, ev: Event, cfg: PaeConfig): Out {
    match ev
    case EapolStart | LinkUp => SendIdentity(s)
    case TimerFired(TxPeriod) =>
      if s.txCount < cfg.maxReauthReq then SendIdentity(s.(txCount := SaturatingNext(s.txCount)))
      else NoSupplicant(s, cfg)
    case EapFromSupplicant(eap) =>
      if eap.code == EapResponse then ToServer(s, Dot1x, TxPeriod, eap.packet) else Ignored(s)
    case EapolLogoff => Teardown(s, SupplicantLogoff)
    case _ => Ignored(s)
  }

  function InAuthServer(s: Session, ev: Event, cfg: PaeConfig): Out {
    match ev
    case AccessChallenge(eap) =>
      Out(s.(state := Authenticating),
          [CancelTimer(ServerTimeout), TxEapToSupplicant(eap), ArmTimer(SuppTimeout)])
    case AccessAccept(a, eap) => Authorize(s, a, eap, cfg)
    case AccessReject(eap) => Reject(s, eap, cfg)
    case ServerUnreachable | TimerFired(ServerTimeout) => Unreachable(s, cfg)
    case EapolLogoff => Teardown(s, SupplicantLogoff)
    case _ => Ignored(s)
  }

  function InAuthenticating(s: Session, ev: Event): Out {
    match ev
    case EapFromSupplicant(eap) =>
      if eap.code == EapResponse then ToServer(s, s.kind, SuppTimeout, eap.packet) else Ignored(s)
    case TimerFired(SuppTimeout) => if s.acctOpen then Teardown(s, ReauthFailure) else Hold(s)
    case EapolStart => Solicit(s, s.txCount, [CancelTimer(SuppTimeout)])
    case EapolLogoff => Teardown(s, SupplicantLogoff)
    case _ => Ignored(s)
  }

  function InAuthenticated(s: Session, ev: Event): Out {
    match ev
    case TimerFired(Reauth) | EapolStart => BeginReauth(s)
    case EapolLogoff => Teardown(s, SupplicantLogoff)
    case TimerFired(SessionTimeout) =>
      var closed := Teardown(s, SessionExpired);
      Solicit(closed.s, 1, closed.fx)
    case _ => Ignored(s)
  }

  function InHeld(s: Session, ev: Event): Out {
    match ev
    case TimerFired(HeldPeriod) | EapolStart => Solicit(s, 1, [CancelTimer(HeldPeriod)])
    case _ => Ignored(s)
  }

  function InFallback(s: Session, ev: Event): Out {
    match ev
    case EapolStart => Solicit(s, 1, [])
    case TimerFired(ServerTimeout) => if s.state == Fallback(Critical) then Solicit(s, 1, []) else Ignored(s)
    case _ => Ignored(s)
  }

  function Step(s: Session, ev: Event, cfg: PaeConfig): Out {
    match ev
    case LinkDown => Teardown(s, PortLinkDown)
    case CoaDisconnect => Teardown(s, AdminReset)
    case CoaAuthorize(a) => CoaAuthorized(s, a)
    case CoaReauthenticate => if s.state == Authenticated then BeginReauth(s) else Ignored(s)
    case Enable => EnableSession(s)
    case _ =>
      match s.state
      case Connecting => InConnecting(s, ev, cfg)
      case AuthServer => InAuthServer(s, ev, cfg)
      case Authenticating => InAuthenticating(s, ev)
      case Authenticated => InAuthenticated(s, ev)
      case Held => InHeld(s, ev)
      case Fallback(_) => InFallback(s, ev)
      case New => Ignored(s)
  }

  lemma StepKeepsMac(s: Session, ev: Event, cfg: PaeConfig)
    ensures Step(s, ev, cfg).s.mac == s.mac
  {
  }

  // ---- the machine ----

  class PortSession {
    const mac: Mac
    var state: State
    var kind: AuthKind
    var eapId: Byte
    var txCount: U32
    var authz: Option<Authorization>
    var acctOpen: bool

    function View(): Session
      reads this
    {
      Session(mac, state, kind, eapId, txCount, authz, acctOpen)
    }

    constructor (mac: Mac)
      ensures View() == NewSession(mac)
    {
      this.mac := mac;
      state, kind, eapId, txCount, authz, acctOpen := New, Dot1x, 0, 0, None, false;
    }

    /** Move a stored session into place to be stepped. */
    constructor Load(s: Session)
      ensures View() == s
    {
      mac := s.mac;
      state, kind, eapId, txCount, authz, acctOpen := s.state, s.kind, s.eapId, s.txCount, s.authz, s.acctOpen;
    }

    method PerformSendIdentity() returns (fx: seq<Effect>)
      modifies this`eapId
      ensures Out(View(), fx) == SendIdentity(old(View()))
    {
      eapId := WrappingNext(eapId);
      fx := [TxEapToSupplicant(RequestIdentity(eapId)), ArmTimer(TxPeriod)];
    }

    method PerformEnableSession() returns (fx: seq<Effect>)
      modifies this
      ensures Out(View(), fx) == EnableSession(old(View()))
    {
      authz := None;
      acctOpen := false;
      kind := Dot1x;
      txCount := 1;
      state := Connecting;
      fx := [SetAuthorization(Unauthorized)];
      var more := PerformSendIdentity();
      fx := fx + more;
    }

    method PerformEnterFallback(reason: FallbackReason, vlan: string) returns (fx: seq<Effect>)
      modifies this`state
      ensures Out(View(), fx) == EnterFallback(old(View()), reason, vlan)
    {
      state := Fallback(reason);
      fx := [CancelAllTimers, SetAuthorization(FallbackVlan(reason, Some(vlan)))];
    }

    method PerformHold() returns (fx: seq<Effect>)
      modifies this`state
      ensures Out(View(), fx) == Hold(old(View()))
    {
      state := Held;
      fx := [CancelAllTimers, SetAuthorization(Unauthorized), ArmTimer(HeldPeriod)];
    }

    method PerformTeardown(cause: TerminateCause) returns (fx: seq<Effect>)
      modifies this
      ensures Out(View(), fx) == Teardown(old(View()), cause)
    {
      fx := [];
      if state == New {
        return;
      }
      if acctOpen {
        fx := fx + [Accounting(Stop(cause))];
        acctOpen := false;
      }
      fx := fx + [CancelAllTimers];
      fx := fx + [SetAuthorization(Unauthorized)];
      state := New;
      authz := None;
      kind := Dot1x;
      txCount := 0;
    }

    method PerformNoSupplicant(cfg: PaeConfig) returns (fx: seq<Effect>)
      modifies this
      ensures Out(View(), fx) == NoSupplicant(old(View()), cfg)
    {
      if acctOpen {
        fx := PerformTeardown(ReauthFailure);
      } else if cfg.mabEnabled {
        kind := Mab;
        state := AuthServer;
        fx := [CancelTimer(TxPeriod), StartMab(mac), ArmTimer(ServerTimeout)];
      } else if cfg.guestVlan.Some? {
        fx := PerformEnterFallback(Guest, cfg.guestVlan.value);
      } else {
        fx := PerformHold();
      }
    }

    method PerformInConnecting(ev: Event, cfg: PaeConfig) returns (fx: seq<Effect>)
      requires state == Connecting
      modifies this
      ensures Out(View(), fx) == InConnecting(old(View()), ev, cfg)
    {
      fx := [];
      match ev {
        case EapolStart | LinkUp => fx := PerformSendIdentity();
        case TimerFired(TxPeriod) =>
          if txCount < cfg.maxReauthReq {
            txCount := SaturatingNext(txCount);
            fx := PerformSendIdentity();
          } else {
            fx := PerformNoSupplicant(cfg);
          }
        case EapFromSupplicant(eap) =>
          if eap.code == EapResponse {
            kind := Dot1x;
            state := AuthServer;
            fx := [CancelTimer(TxPeriod), ToAuthServer(eap.packet), ArmTimer(ServerTimeout)];
          }
        case EapolLogoff => fx := PerformTeardown(SupplicantLogoff);
        case _ =>
      }
    }

    method PerformAuthorize(a: Authorization, eap: Option<Bytes>, cfg: PaeConfig) returns (fx: seq<Effect>)
      modifies this
      ensures Out(View(), fx) == Authorize(old(View()), a, eap, cfg)
    {
      fx := [CancelAllTimers, SetAuthorization(Authorized(a))];
      fx := fx + When(!acctOpen, Accounting(Start));
      acctOpen := true;
      fx := fx + When(cfg.reauthEnabled, ArmTimer(Reauth));
      fx := fx + When(a.sessionTimeout.Some?, ArmTimer(SessionTimeout));
      fx := Relay(eap) + fx;
      authz := Some(a);
      state := Authenticated;
    }

    method PerformReject(eap: Option<Bytes>, cfg: PaeConfig) returns (fx: seq<Effect>)
      modifies this
      ensures Out(View(), fx) == Reject(old(View()), eap, cfg)
    {
      var first := Relay(eap);
      if acctOpen {
        fx := PerformTeardown(ReauthFailure);
      } else if cfg.authFailVlan.Some? {
        fx := PerformEnterFallback(AuthFail, cfg.authFailVlan.value);
      } else {
        fx := PerformHold();
      }
      fx := first + fx;
    }

    method PerformUnreachable(cfg: PaeConfig) returns (fx: seq<Effect>)
      modifies this
      ensures Out(View(), fx) == Unreachable(old(View()), cfg)
    {
      if acctOpen {
        state := Authenticated;
        fx := [CancelTimer(ServerTimeout)];
        if cfg.reauthEnabled {
          fx := fx + [ArmTimer(Reauth)];
        }
      } else if cfg.criticalVlan.Some? {
        fx := PerformEnterFallback(Critical, cfg.criticalVlan.value);
        fx := fx + [ArmTimer(ServerTimeout)];
      } else {
        fx := PerformHold();
      }
    }

    method PerformInAuthServer(ev: Event, cfg: PaeConfig) returns (fx: seq<Effect>)
      requires state == AuthServer
      modifies this
      ensures Out(View(), fx) == InAuthServer(old(View()), ev, cfg)
    {
      fx := [];
      match ev {
        case AccessChallenge(eap) =>
          state := Authenticating;
          fx := [CancelTimer(ServerTimeout), TxEapToSupplicant(eap), ArmTimer(SuppTimeout)];
        case AccessAccept(a, eap) => fx := PerformAuthorize(a, eap, cfg);
        case AccessReject(eap) => fx := PerformReject(eap, cfg);
        case ServerUnreachable | TimerFired(ServerTimeout) => fx := PerformUnreachable(cfg);
        case EapolLogoff => fx := PerformTeardown(SupplicantLogoff);
        case _ =>
      }
    }

    method PerformInAuthenticating(ev: Event) returns (fx: seq<Effect>)
      requires state == Authenticating
      modifies this
      ensures Out(View(), fx) == InAuthenticating(old(View()), ev)
    {
      fx := [];
      match ev {
        case EapFromSupplicant(eap) =>
          if eap.code == EapResponse {
            state := AuthServer;
            fx := [CancelTimer(SuppTimeout), ToAuthServer(eap.packet), ArmTimer(ServerTimeout)];
          }
        case TimerFired(SuppTimeout) =>
          if acctOpen {
            fx := PerformTeardown(ReauthFailure);
          } else {
            fx := PerformHold();
          }
        case EapolStart =>
          state := Connecting;
          fx := PerformSendIdentity();
          fx := [CancelTimer(SuppTimeout)] + fx;
        case EapolLogoff => fx := PerformTeardown(SupplicantLogoff);
        case _ =>
      }
    }

    method PerformBeginReauth() returns (fx: seq<Effect>)
      modifies this
      ensures Out(View(), fx) == BeginReauth(old(View()))
    {
      state := Connecting;
      txCount := 1;
      fx := PerformSendIdentity();
      fx := [CancelTimer(Reauth)] + fx;
    }

    method PerformInAuthenticated(ev: Event) returns (fx: seq<Effect>)
      requires state == Authenticated
      modifies this
      ensures Out(View(), fx) == InAuthenticated(old(View()), ev)
    {
      fx := [];
      match ev {
        case TimerFired(Reauth) | EapolStart => fx := PerformBeginReauth();
        case EapolLogoff => fx := PerformTeardown(SupplicantLogoff);
        case TimerFired(SessionTimeout) =>
          fx := PerformTeardown(SessionExpired);
          txCount := 1;
          state := Connecting;
          var more := PerformSendIdentity();
          fx := fx + more;
        case _ =>
      }
    }

    method PerformInHeld(ev: Event) returns (fx: seq<Effect>)
      requires state == Held
      modifies this
      ensures Out(View(), fx) == InHeld(old(View()), ev)
    {
      fx := [];
      if ev == TimerFired(HeldPeriod) || ev == EapolStart {
        txCount := 1;
        state := Connecting;
        fx := PerformSendIdentity();
        fx := [CancelTimer(HeldPeriod)] + fx;
      }
    }

    method PerformInFallback(ev: Event) returns (fx: seq<Effect>)
      requires state.Fallback?
      modifies this
      ensures Out(View(), fx) == InFallback(old(View()), ev)
    {
      fx := [];
      if ev == EapolStart || (ev == TimerFired(ServerTimeout) && state == Fallback(Critical)) {
        txCount := 1;
        state := Connecting;
        fx := PerformSendIdentity();
        assert [] + fx == fx;
      }
    }

    method PerformCoaAuthorized(a: Authorization) returns (fx: seq<Effect>)
      modifies this
      ensures Out(View(), fx) == CoaAuthorized(old(View()), a)
    {
      if state != Authenticated {
        return [];
      }
      authz := Some(a);
      fx := [SetAuthorization(Authorized(a))];
    }

    method PerformStep(ev: Event, cfg: PaeConfig) returns (fx: seq<Effect>)
      modifies this
      ensures Out(View(), fx) == Step(old(View()), ev, cfg)
    {
      match ev {
        case LinkDown => fx := PerformTeardown(PortLinkDown); return;
        case CoaDisconnect => fx := PerformTeardown(AdminReset); return;
        case CoaAuthorize(a) => fx := PerformCoaAuthorized(a); return;
        case CoaReauthenticate =>
          if state == Authenticated {
            fx := PerformBeginReauth();
          } else {
            fx := [];
          }
          return;
        case Enable => fx := PerformEnableSession(); return;
        case _ =>
      }
      match state {
        case Connecting => fx := PerformInConnecting(ev, cfg);
        case AuthServer => fx := PerformInAuthServer(ev, cfg);
        case Authenticating => fx := PerformInAuthenticating(ev);
        case Authenticated => fx := PerformInAuthenticated(ev);
        case Held => fx := PerformInHeld(ev);
        case Fallback(_) => fx := PerformInFallback(ev);
        case New => fx := [];
      }
    }
  }
}
