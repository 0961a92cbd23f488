/**
 What a session's effects add up to over whole runs: the posture last commanded,
 the timers left armed and the accounting triggers sent.
 */
module PaeRuns {
  import opened Wrappers
  import opened Octets
  import opened Pacp
  import opened PaeTypes
  import opened PaeSession

  // ---- folding effects ----

  function ArmOne(armed: set<TimerKind>, e: Effect): set<TimerKind> {
    match e
    case ArmTimer(k) => armed + {k}
    case CancelTimer(k) => armed - {k}
    case CancelAllTimers => {}
    case _ => armed
  }

  /** What a run has left behind: posture commanded last, timers armed, accounting triggers sent. */
  datatype Shadow = Shadow(posture: Option<PortAuthorization>, armed: set<TimerKind>, log: seq<AcctTrigger>)

  function ObserveOne(m: Shadow, e: Effect): Shadow {
    match e
    case SetAuthorization(p) => m.(posture := Some(p))
    case Accounting(t) => m.(log := m.log + [t])
    case _ => m.(armed := ArmOne(m.armed, e))
  }

  function Observe(m: Shadow, fx: seq<Effect>): Shadow
    decreases |fx|
  {
    if fx == [] then m else Observe(ObserveOne(m, fx[0]), fx[1..])
  }

  lemma {:induction false} ObserveAppend(m: Shadow, a: seq<Effect>, b: seq<Effect>)
    ensures Observe(m, a + b) == Observe(Observe(m, a), b)
    decreases |a|
  {
    if a == [] {
      assert a + b == b;
    } else {
      assert (a + b)[1..] == a[1..] + b;
      ObserveAppend(ObserveOne(m, a[0]), a[1..], b);
    }
  }

  lemma ObserveSingle(m: Shadow, e: Effect)
    ensures Observe(m, [e]) == ObserveOne(m, e)
  {
    assert [e][1..] == [];
  }

  lemma ObservePair(m: Shadow, d: Effect, e: Effect)
    ensures Observe(m, [d, e]) == ObserveOne(ObserveOne(m, d), e)
  {
    assert [d, e] == [d] + [e];
    ObserveAppend(m, [d], [e]);
    ObserveSingle(m, d);
    ObserveSingle(ObserveOne(m, d), e);
  }

  lemma ObserveTriple(m: Shadow, c: Effect, d: Effect, e: Effect)
    ensures Observe(m, [c, d, e]) == ObserveOne(ObserveOne(ObserveOne(m, c), d), e)
  {
    assert [c, d, e] == [c, d] + [e];
    ObserveAppend(m, [c, d], [e]);
    ObservePair(m, c, d);
    ObserveSingle(ObserveOne(ObserveOne(m, c), d), e);
  }

  lemma ObserveWhen(m: Shadow, fx: seq<Effect>, cond: bool, e: Effect)
    ensures Observe(m, fx + When(cond, e)) == if cond then ObserveOne(Observe(m, fx), e) else Observe(m, fx)
  {
    ObserveAppend(m, fx, When(cond, e));
    ObserveSingle(Observe(m, fx), e);
  }

  // ---- what each shared transition leaves behind ----

  lemma AfterSendIdentity(m: Shadow, s: Session)
    ensures Observe(m, SendIdentity(s).fx) == m.(armed := m.armed + {TxPeriod})
  {
    ObservePair(m, TxEapToSupplicant(RequestIdentity(WrappingNext(s.eapId))), ArmTimer(TxPeriod));
  }

  lemma AfterSolicit(m: Shadow, s: Session, tx: U32, first: seq<Effect>)
    ensures var n := Observe(m, first);
            Observe(m, Solicit(s, tx, first).fx) == n.(armed := n.armed + {TxPeriod})
  {
    var t := s.(state := Connecting, txCount := tx);
    ObserveAppend(m, first, SendIdentity(t).fx);
    AfterSendIdentity(Observe(m, first), t);
  }

  lemma AfterRelay(m: Shadow, eap: Option<Bytes>, rest: seq<Effect>)
    ensures Observe(m, Relay(eap) + rest) == Observe(m, rest)
  {
    ObserveAppend(m, Relay(eap), rest);
    if eap.Some? {
      ObserveSingle(m, Relay(eap)[0]);
    }
  }

  lemma AfterTeardown(m: Shadow, s: Session, cause: TerminateCause)
    requires s.state != New
    ensures Observe(m, Teardown(s, cause).fx) ==
            Shadow(Some(Unauthorized), {}, if s.acctOpen then m.log + [Stop(cause)] else m.log)
  {
    var last := [CancelAllTimers, SetAuthorization(Unauthorized)];
    if s.acctOpen {
      ObserveAppend(m, [Accounting(Stop(cause))], last);
      ObserveSingle(m, Accounting(Stop(cause)));
      ObservePair(Observe(m, [Accounting(Stop(cause))]), last[0], last[1]);
    } else {
      assert Teardown(s, cause).fx == last;
      ObservePair(m, last[0], last[1]);
    }
  }

  lemma AfterHold(m: Shadow, s: Session)
    ensures Observe(m, Hold(s).fx) == Shadow(Some(Unauthorized), {HeldPeriod}, m.log)
  {
    ObserveTriple(m, Hold(s).fx[0], Hold(s).fx[1], Hold(s).fx[2]);
  }

  lemma AfterFallback(m: Shadow, s: Session, reason: FallbackReason, vlan: string)
    ensures Observe(m, EnterFallback(s, reason, vlan).fx) ==
            Shadow(Some(FallbackVlan(reason, Some(vlan))), {}, m.log)
  {
    var fx := EnterFallback(s, reason, vlan).fx;
    ObservePair(m, fx[0], fx[1]);
  }

  lemma AfterAuthorize(m: Shadow, s: Session, a: Authorization, eap: Option<Bytes>, cfg: PaeConfig)
    ensures Observe(m, Authorize(s, a, eap, cfg).fx) ==
            Shadow(Some(Authorized(a)),
                   (if cfg.reauthEnabled then {Reauth} else {}) + (if a.sessionTimeout.Some? then {SessionTimeout} else {}),
                   if s.acctOpen then m.log else m.log + [Start])
  {
    var open := [CancelAllTimers, SetAuthorization(Authorized(a))];
    var start := When(!s.acctOpen, Accounting(Start));
    var reauth := When(cfg.reauthEnabled, ArmTimer(Reauth));
    var expiry := When(a.sessionTimeout.Some?, ArmTimer(SessionTimeout));
    AfterRelay(m, eap, open + start + reauth + expiry);
    ObservePair(m, open[0], open[1]);
    ObserveWhen(m, open, !s.acctOpen, Accounting(Start));
    ObserveWhen(m, open + start, cfg.reauthEnabled, ArmTimer(Reauth));
    ObserveWhen(m, open + start + reauth, a.sessionTimeout.Some?, ArmTimer(SessionTimeout));
  }

  lemma AfterReject(m: Shadow, s: Session, eap: Option<Bytes>, cfg: PaeConfig)
    requires s.state != New
    ensures Observe(m, Reject(s, eap, cfg).fx) ==
            if s.acctOpen then Shadow(Some(Unauthorized), {}, m.log + [Stop(ReauthFailure)])
            else if cfg.authFailVlan.Some? then Shadow(Some(FallbackVlan(AuthFail, cfg.authFailVlan)), {}, m.log)
            else Shadow(Some(Unauthorized), {HeldPeriod}, m.log)
  {
    if s.acctOpen {
      AfterRelay(m, eap, Teardown(s, ReauthFailure).fx);
      AfterTeardown(m, s, ReauthFailure);
    } else if cfg.authFailVlan.Some? {
      AfterRelay(m, eap, EnterFallback(s, AuthFail, cfg.authFailVlan.value).fx);
      AfterFallback(m, s, AuthFail, cfg.authFailVlan.value);
    } else {
      AfterRelay(m, eap, Hold(s).fx);
      AfterHold(m, s);
    }
  }

  lemma AfterUnreachable(m: Shadow, s: Session, cfg: PaeConfig)
    ensures Observe(m, Unreachable(s, cfg).fx) ==
            if s.acctOpen then m.(armed := m.armed - {ServerTimeout} + (if cfg.reauthEnabled then {Reauth} else {}))
            else if cfg.criticalVlan.Some? then Shadow(Some(FallbackVlan(Critical, cfg.criticalVlan)), {ServerTimeout}, m.log)
            else Shadow(Some(Unauthorized), {HeldPeriod}, m.log)
  {
    if s.acctOpen {
      if cfg.reauthEnabled {
        assert Unreachable(s, cfg).fx == [CancelTimer(ServerTimeout), ArmTimer(Reauth)];
        ObservePair(m, CancelTimer(ServerTimeout), ArmTimer(Reauth));
      } else {
        assert Unreachable(s, cfg).fx == [CancelTimer(ServerTimeout)];
        ObserveSingle(m, CancelTimer(ServerTimeout));
      }
    } else if cfg.criticalVlan.Some? {
      var fx := EnterFallback(s, Critical, cfg.criticalVlan.value).fx;
      AfterFallback(m, s, Critical, cfg.criticalVlan.value);
      ObserveAppend(m, fx, [ArmTimer(ServerTimeout)]);
      ObserveSingle(Observe(m, fx), ArmTimer(ServerTimeout));
    } else {
      AfterHold(m, s);
    }
  }

  lemma AfterNoSupplicant(m: Shadow, s: Session, cfg: PaeConfig)
    requires s.state != New
    ensures Observe(m, NoSupplicant(s, cfg).fx) ==
            if s.acctOpen then Shadow(Some(Unauthorized), {}, m.log + [Stop(ReauthFailure)])
            else if cfg.mabEnabled then m.(armed := m.armed - {TxPeriod} + {ServerTimeout})
            else if cfg.guestVlan.Some? then Shadow(Some(FallbackVlan(Guest, cfg.guestVlan)), {}, m.log)
            else Shadow(Some(Unauthorized), {HeldPeriod}, m.log)
  {
    if s.acctOpen {
      AfterTeardown(m, s, ReauthFailure);
    } else if cfg.mabEnabled {
      ObserveTriple(m, CancelTimer(TxPeriod), StartMab(s.mac), ArmTimer(ServerTimeout));
    } else if cfg.guestVlan.Some? {
      AfterFallback(m, s, Guest, cfg.guestVlan.value);
    } else {
      AfterHold(m, s);
    }
  }

  // ---- the invariant ----

  /** The posture on the wire mirrors the session. */
  predicate PostureMirrors(cfg: PaeConfig, s: Session, posture: Option<PortAuthorization>) {
    && s.acctOpen == s.authz.Some?
    && (s.authz.Some? ==> posture == Some(Authorized(s.authz.value)))
    && (s.authz.None? ==> posture.None? || !posture.value.Authorized?)
    && (s.state == New ==> s.authz.None? && (posture.None? || posture == Some(Unauthorized)))
    && (s.state != New ==> posture.Some?)
    && (s.state == Held ==> posture == Some(Unauthorized))
    && (s.state == Authenticated ==> s.acctOpen)
    && (s.state.Fallback? ==> posture.value.FallbackVlan? && posture.value.reason == s.state.reason)
    && (posture.Some? && posture.value.FallbackVlan? ==>
          posture.value.vlan.Some? && posture.value.vlan == FallbackVlanFor(cfg, posture.value.reason))
  }

  /** No state waits on a timer that is not armed, and resting states leave none behind. */
  predicate TimersServe(cfg: PaeConfig, state: State, armed: set<TimerKind>) {
    match state
    case New => armed == {}
    case Connecting => TxPeriod in armed
    case AuthServer => ServerTimeout in armed
    case Authenticating => SuppTimeout in armed
    case Authenticated => cfg.reauthEnabled ==> Reauth in armed
    case Held => armed == {HeldPeriod}
    case Fallback(reason) => armed == if reason == Critical then {ServerTimeout} else {}
  }

  function Max(a: int, b: int): int { if a < b then b else a }

  predicate TxBounded(cfg: PaeConfig, s: Session) {
    if s.state == New then s.txCount == 0 else 1 <= s.txCount <= Max(1, cfg.maxReauthReq)
  }

  /** A delivered timer is no longer armed. */
  function Deliver(m: Shadow, ev: Event): Shadow {
    if ev.TimerFired? then m.(armed := m.armed - {ev.timer}) else m
  }

  predicate Sound(cfg: PaeConfig, s: Session, m: Shadow) {
    && PostureMirrors(cfg, s, m.posture)
    && TimersServe(cfg, s.state, m.armed)
    && TxBounded(cfg, s)
  }

  /** A session together with what its effects have left behind. */
  datatype Trail = Trail(s: Session, m: Shadow)

  function Advance(cfg: PaeConfig, t: Trail, ev: Event): Trail {
    var o := Step(t.s, ev, cfg);
    Trail(o.s, Observe(Deliver(t.m, ev), o.fx))
  }

  /** The authorization an event grants to the session it reaches, if it grants one. */
  function Granted(s: Session, ev: Event): Option<Authorization> {
    match ev
    case AccessAccept(a, _) => if s.state == AuthServer then Some(a) else None
    case CoaAuthorize(a) => if s.state == Authenticated then Some(a) else None
    case _ => None
  }

  /** Accounting moves only with the open flag; `Enable` clears the flag without a Stop. */
  predicate AccountingDelta(t: Trail, ev: Event, u: Trail) {
    if ev.Enable? then u.m.log == t.m.log && !u.s.acctOpen
    else if u.s.acctOpen == t.s.acctOpen then u.m.log == t.m.log
    else if u.s.acctOpen then u.m.log == t.m.log + [Start]
    else exists cause :: u.m.log == t.m.log + [Stop(cause)]
  }

  /** A posture changes to forwarding only by a grant, and to a fallback only with accounting closed. */
  predicate PostureDelta(t: Trail, ev: Event, u: Trail) {
    match Granted(t.s, ev)
    case Some(a) => u.m.posture == Some(Authorized(a))
    case None =>
      || u.m.posture == t.m.posture
      || u.m.posture == Some(Unauthorized)
      || (u.s.state.Fallback? && !t.s.acctOpen
          && u.m.posture.Some? && u.m.posture.value.FallbackVlan?)
  }

  /** What one step must establish. */
  predicate Good(cfg: PaeConfig, t: Trail, ev: Event, u: Trail) {
    Sound(cfg, u.s, u.m) && AccountingDelta(t, ev, u) && PostureDelta(t, ev, u)
  }

  lemma EmptyEffects(m: Shadow)
    ensures Observe(m, []) == m
  {
  }

  lemma ExpirySound(cfg: PaeConfig, t: Trail)
    requires Sound(cfg, t.s, t.m) && t.s.state == Connecting
    ensures var ev := TimerFired(TxPeriod);
            var o := InConnecting(t.s, ev, cfg); Good(cfg, t, ev, Trail(o.s, Observe(Deliver(t.m, ev), o.fx)))
  {
    var s, m := t.s, Deliver(t.m, TimerFired(TxPeriod));
    if s.txCount < cfg.maxReauthReq {
      AfterSendIdentity(m, s.(txCount := SaturatingNext(s.txCount)));
    } else {
      AfterNoSupplicant(m, s, cfg);
    }
  }

  /** The events that apply in almost any state. */
  predicate Global(ev: Event) {
    ev.LinkDown? || ev.CoaDisconnect? || ev.CoaAuthorize? || ev.CoaReauthenticate? || ev.Enable?
  }

  lemma ConnectingSound(cfg: PaeConfig, t: Trail, ev: Event)
    requires Sound(cfg, t.s, t.m) && t.s.state == Connecting && !Global(ev)
    ensures var o := InConnecting(t.s, ev, cfg); Good(cfg, t, ev, Trail(o.s, Observe(Deliver(t.m, ev), o.fx)))
  {
    var s, m := t.s, Deliver(t.m, ev);
    EmptyEffects(m);
    match ev {
      case EapolStart | LinkUp => AfterSendIdentity(m, s);
      case TimerFired(TxPeriod) => ExpirySound(cfg, t);
      case EapFromSupplicant(eap) =>
        ObserveTriple(m, CancelTimer(TxPeriod), ToAuthServer(eap.packet), ArmTimer(ServerTimeout));
      case EapolLogoff => AfterTeardown(m, s, SupplicantLogoff);
      case _ =>
    }
  }

  lemma UnreachableSound(cfg: PaeConfig, t: Trail, ev: Event)
    requires Sound(cfg, t.s, t.m) && t.s.state == AuthServer && (ev.ServerUnreachable? || ev == TimerFired(ServerTimeout))
    ensures var o := Unreachable(t.s, cfg); Good(cfg, t, ev, Trail(o.s, Observe(Deliver(t.m, ev), o.fx)))
  {
    AfterUnreachable(Deliver(t.m, ev), t.s, cfg);
  }

  lemma AuthServerSound(cfg: PaeConfig, t: Trail, ev: Event)
    requires Sound(cfg, t.s, t.m) && t.s.state == AuthServer && !Global(ev)
    ensures var o := InAuthServer(t.s, ev, cfg); Good(cfg, t, ev, Trail(o.s, Observe(Deliver(t.m, ev), o.fx)))
  {
    var s, m := t.s, Deliver(t.m, ev);
    EmptyEffects(m);
    match ev {
      case AccessChallenge(eap) =>
        ObserveTriple(m, CancelTimer(ServerTimeout), TxEapToSupplicant(eap), ArmTimer(SuppTimeout));
      case AccessAccept(a, eap) => AfterAuthorize(m, s, a, eap, cfg);
      case AccessReject(eap) => AfterReject(m, s, eap, cfg);
      case ServerUnreachable => UnreachableSound(cfg, t, ev);
      case TimerFired(ServerTimeout) => UnreachableSound(cfg, t, ev);
      case EapolLogoff => AfterTeardown(m, s, SupplicantLogoff);
      case _ =>
    }
  }

  lemma AuthenticatingSound(cfg: PaeConfig, t: Trail, ev: Event)
    requires Sound(cfg, t.s, t.m) && t.s.state == Authenticating && !Global(ev)
    ensures var o := InAuthenticating(t.s, ev); Good(cfg, t, ev, Trail(o.s, Observe(Deliver(t.m, ev), o.fx)))
  {
    var s, m := t.s, Deliver(t.m, ev);
    EmptyEffects(m);
    match ev {
      case EapFromSupplicant(eap) =>
        ObserveTriple(m, CancelTimer(SuppTimeout), ToAuthServer(eap.packet), ArmTimer(ServerTimeout));
      case TimerFired(SuppTimeout) =>
        AfterTeardown(m, s, ReauthFailure);
        AfterHold(m, s);
      case EapolStart =>
        AfterSolicit(m, s, s.txCount, [CancelTimer(SuppTimeout)]);
        ObserveSingle(m, CancelTimer(SuppTimeout));
      case EapolLogoff => AfterTeardown(m, s, SupplicantLogoff);
      case _ =>
    }
  }

  lemma ReauthSound(cfg: PaeConfig, s: Session, m: Shadow)
    requires PostureMirrors(cfg, s, m.posture) && s.state == Authenticated
    ensures Sound(cfg, BeginReauth(s).s, Observe(m, BeginReauth(s).fx))
    ensures Observe(m, BeginReauth(s).fx).posture == m.posture && Observe(m, BeginReauth(s).fx).log == m.log
  {
    AfterSolicit(m, s, 1, [CancelTimer(Reauth)]);
    ObserveSingle(m, CancelTimer(Reauth));
  }

  lemma AuthenticatedSound(cfg: PaeConfig, t: Trail, ev: Event)
    requires Sound(cfg, t.s, t.m) && t.s.state == Authenticated && !Global(ev)
    ensures var o := InAuthenticated(t.s, ev); Good(cfg, t, ev, Trail(o.s, Observe(Deliver(t.m, ev), o.fx)))
  {
    var s, m := t.s, Deliver(t.m, ev);
    EmptyEffects(m);
    match ev {
      case TimerFired(Reauth) | EapolStart => ReauthSound(cfg, s, m);
      case EapolLogoff => AfterTeardown(m, s, SupplicantLogoff);
      case TimerFired(SessionTimeout) =>
        var closed := Teardown(s, SessionExpired);
        AfterTeardown(m, s, SessionExpired);
        AfterSolicit(m, closed.s, 1, closed.fx);
      case _ =>
    }
  }

  lemma RestingSound(cfg: PaeConfig, t: Trail, ev: Event)
    requires Sound(cfg, t.s, t.m) && (t.s.state == Held || t.s.state.Fallback?) && !Global(ev)
    ensures var o := if t.s.state == Held then InHeld(t.s, ev) else InFallback(t.s, ev);
            Good(cfg, t, ev, Trail(o.s, Observe(Deliver(t.m, ev), o.fx)))
  {
    var s, m := t.s, Deliver(t.m, ev);
    EmptyEffects(m);
    AfterSolicit(m, s, 1, [CancelTimer(HeldPeriod)]);
    ObserveSingle(m, CancelTimer(HeldPeriod));
    AfterSolicit(m, s, 1, []);
  }

  lemma GlobalSound(cfg: PaeConfig, t: Trail, ev: Event)
    requires Sound(cfg, t.s, t.m) && Global(ev)
    ensures Good(cfg, t, ev, Advance(cfg, t, ev))
  {
    var s, m := t.s, t.m;
    EmptyEffects(m);
    match ev {
      case LinkDown => if s.state != New { AfterTeardown(m, s, PortLinkDown); }
      case CoaDisconnect => if s.state != New { AfterTeardown(m, s, AdminReset); }
      case CoaAuthorize(a) => ObserveSingle(m, SetAuthorization(Authorized(a)));
      case CoaReauthenticate => if s.state == Authenticated { ReauthSound(cfg, s, m); }
      case Enable =>
        AfterSolicit(m, s.(authz := None, acctOpen := false, kind := Dot1x), 1, [SetAuthorization(Unauthorized)]);
        ObserveSingle(m, SetAuthorization(Unauthorized));
      case _ =>
    }
  }

  /** Every event, delivered in any state, keeps the invariant. */
  lemma AdvanceSound(cfg: PaeConfig, t: Trail, ev: Event)
    requires Sound(cfg, t.s, t.m)
    ensures Good(cfg, t, ev, Advance(cfg, t, ev))
  {
    if Global(ev) {
      GlobalSound(cfg, t, ev);
    } else {
      match t.s.state {
        case Connecting => ConnectingSound(cfg, t, ev);
        case AuthServer => AuthServerSound(cfg, t, ev);
        case Authenticating => AuthenticatingSound(cfg, t, ev);
        case Authenticated => AuthenticatedSound(cfg, t, ev);
        case Held => RestingSound(cfg, t, ev);
        case Fallback(_) => RestingSound(cfg, t, ev);
        case New => EmptyEffects(Deliver(t.m, ev));
      }
    }
  }
}
