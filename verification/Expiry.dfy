/**
 The session timeout: where the server's Session-Timeout is kept, and whether its
 timer is really scheduled.
 */
module Expiry {
  import opened Wrappers
  import opened Octets
  import opened PaeTypes
  import opened PaeSession
  import opened PaeRuns
  import opened PaePort
  import opened PortTheorems
  import opened Dispatch
  import opened DispatchTheorems
  import opened Worker
  import opened Serving
  import opened EndToEnd

  /** The value kept for a session, and the duration its timer is scheduled with. */
  datatype Expires = Expires(kept: Option<U32>, due: Option<U32>)

  function ExpiresAt(w: World, mac: Mac): Expires {
    Expires(StateOf(w.sessions, mac).timeout,
            if (mac, SessionTimeout) in w.armed then Some(w.armed[(mac, SessionTimeout)]) else None)
  }

  /** What an effect does to it; `own` says whether the effect's posture is directed at the MAC. */
  function ExpireOne(x: Expires, own: bool, e: Effect): Expires {
    match e
    case SetAuthorization(p) => if p.Authorized? && own then x.(kept := p.granted.sessionTimeout) else x
    case ArmTimer(k) => if k == SessionTimeout && x.kept.Some? then x.(due := x.kept) else x
    case CancelTimer(k) => if k == SessionTimeout then x.(due := None) else x
    case CancelAllTimers => x.(due := None)
    case _ => x
  }

  function Expire(x: Expires, own: bool, fx: seq<Effect>): Expires
    decreases |fx|
  {
    if fx == [] then x else Expire(ExpireOne(x, own, fx[0]), own, fx[1..])
  }

  lemma {:induction false} ExpireAppend(x: Expires, own: bool, a: seq<Effect>, b: seq<Effect>)
    ensures Expire(x, own, a + b) == Expire(Expire(x, own, a), own, b)
    decreases |a|
  {
    if a == [] {
      assert a + b == b;
    } else {
      assert (a + b)[1..] == a[1..] + b;
      ExpireAppend(ExpireOne(x, own, a[0]), own, a[1..], b);
    }
  }

  lemma ExpireSingle(x: Expires, own: bool, e: Effect)
    ensures Expire(x, own, [e]) == ExpireOne(x, own, e)
  {
    assert [e][1..] == [];
  }

  /** What one effect does, for its own MAC and for any other. */
  predicate Expired(env: Env, w: World, m: Mac, mode: HostMode, mac: Mac, e: Effect, x: Mac) {
    ExpiresAt(BatchOne(env, w, m, DirectOne(mode, mac, e)).w, x) ==
    if x == mac then ExpireOne(ExpiresAt(w, x), mode != MultiHost, e) else ExpiresAt(w, x)
  }

  lemma RequestExpires(env: Env, w: World, m: Mac, mode: HostMode, mac: Mac, e: Effect, x: Mac)
    requires CallsServer(e)
    ensures Expired(env, w, m, mode, mac, e, x)
  {
    RequestFrame(env, w, m, DirectOne(mode, mac, e), x);
  }

  lemma PostureExpires(env: Env, w: World, m: Mac, mode: HostMode, mac: Mac, p: PortAuthorization, x: Mac)
    ensures Expired(env, w, m, mode, mac, SetAuthorization(p), x)
  {
  }

  lemma TimerExpires(env: Env, w: World, m: Mac, mode: HostMode, mac: Mac, e: Effect, x: Mac)
    requires TouchesTimers(e)
    ensures Expired(env, w, m, mode, mac, e, x)
  {
  }

  lemma SendExpires(env: Env, w: World, m: Mac, mode: HostMode, mac: Mac, e: Effect, x: Mac)
    requires e.TxEapToSupplicant? || e.Accounting?
    ensures Expired(env, w, m, mode, mac, e, x)
  {
  }

  lemma DispatchExpires(env: Env, w: World, m: Mac, mode: HostMode, mac: Mac, e: Effect, x: Mac)
    ensures Expired(env, w, m, mode, mac, e, x)
  {
    if CallsServer(e) {
      RequestExpires(env, w, m, mode, mac, e, x);
    } else if TouchesTimers(e) {
      TimerExpires(env, w, m, mode, mac, e, x);
    } else if e.SetAuthorization? {
      PostureExpires(env, w, m, mode, mac, e.posture, x);
    } else {
      SendExpires(env, w, m, mode, mac, e, x);
    }
  }

  lemma {:induction false} BatchExpires(env: Env, w: World, m: Mac, mode: HostMode, mac: Mac, fx: seq<Effect>, x: Mac)
    requires DispatchAll(env, w, m, Decorate(mode, mac, fx)).r.Ok?
    ensures var after := DispatchAll(env, w, m, Decorate(mode, mac, fx)).w;
            ExpiresAt(after, x) == if x == mac then Expire(ExpiresAt(w, x), mode != MultiHost, fx) else ExpiresAt(w, x)
    decreases |fx|
  {
    if fx == [] {
    } else {
      assert Decorate(mode, mac, fx)[1..] == Decorate(mode, mac, fx[1..]);
      DispatchExpires(env, w, m, mode, mac, fx[0], x);
      BatchExpires(env, BatchOne(env, w, m, DirectOne(mode, mac, fx[0])).w, m, mode, mac, fx[1..], x);
    }
  }

  // ---- the schedule agrees with what was armed, except in MultiHost ----

  /**
   Where postures are directed at the MAC, the timer is scheduled exactly while it is armed, and
   with the duration of the latest Accept. Elsewhere nothing is ever kept or scheduled.
   */
  predicate InStep(own: bool, x: Expires, armed: set<TimerKind>, latest: Option<Authorization>) {
    if own then
      && (x.due.Some? <==> SessionTimeout in armed)
      && (x.due.Some? ==> latest.Some? && x.due == latest.value.sessionTimeout)
    else x == Expires(None, None)
  }

  /** The latest Accept that a session consumed, after one more event. */
  function Renewed(latest: Option<Authorization>, so: Option<Session>, ev: Event): Option<Authorization> {
    if so.Some? && so.value.state == AuthServer && ev.AccessAccept? then Some(ev.authorization) else latest
  }

  predicate ArmsNoExpiry(fx: seq<Effect>) {
    ArmTimer(SessionTimeout) !in fx
  }

  /** A posture that is never directed at the MAC leaves nothing to schedule, whatever is armed. */
  lemma {:induction false} NeverKept(x: Expires, fx: seq<Effect>)
    requires x == Expires(None, None)
    ensures Expire(x, false, fx) == x
    decreases |fx|
  {
    if fx == [] {
    } else {
      NeverKept(ExpireOne(x, false, fx[0]), fx[1..]);
    }
  }

  lemma {:induction false} UnarmedInStep(x: Expires, sh: Shadow, fx: seq<Effect>, latest: Option<Authorization>)
    requires InStep(true, x, sh.armed, latest) && ArmsNoExpiry(fx)
    ensures InStep(true, Expire(x, true, fx), Observe(sh, fx).armed, latest)
    decreases |fx|
  {
    if fx == [] {
    } else {
      UnarmedInStep(ExpireOne(x, true, fx[0]), ObserveOne(sh, fx[0]), fx[1..], latest);
    }
  }

  /** A grant that carries a timeout schedules what is kept by then; any grant replaces the schedule. */
  lemma GrantExpires(x: Expires, own: bool, s: Session, a: Authorization, eap: Option<Bytes>, cfg: PaeConfig)
    ensures var kept := if own then a.sessionTimeout else x.kept;
            Expire(x, own, Authorize(s, a, eap, cfg).fx) == Expires(kept, if a.sessionTimeout.Some? then kept else None)
  {
    var open := [CancelAllTimers, SetAuthorization(Authorized(a))];
    var start, reauth := When(!s.acctOpen, Accounting(Start)), When(cfg.reauthEnabled, ArmTimer(Reauth));
    var expiry := When(a.sessionTimeout.Some?, ArmTimer(SessionTimeout));
    ExpireAppend(x, own, Relay(eap), open + start + reauth + expiry);
    var y := Expire(x, own, Relay(eap));
    ExpireAppend(y, own, open + start + reauth, expiry);
    ExpireAppend(y, own, open + start, reauth);
    ExpireAppend(y, own, open, start);
    ExpireAppend(y, own, [CancelAllTimers], [SetAuthorization(Authorized(a))]);
    ExpireSingle(y, own, CancelAllTimers);
    ExpireSingle(y.(due := None), own, SetAuthorization(Authorized(a)));
    assert open == [CancelAllTimers] + [SetAuthorization(Authorized(a))];
    var z := Expires(if own then a.sessionTimeout else x.kept, None);
    ExpireSingle(z, own, Accounting(Start));
    ExpireSingle(z, own, ArmTimer(Reauth));
    ExpireSingle(z, own, ArmTimer(SessionTimeout));
  }

  /** Only a grant arms the session timeout. */
  lemma StepArms(s: Session, ev: Event, cfg: PaeConfig)
    requires !(s.state == AuthServer && ev.AccessAccept?)
    ensures ArmsNoExpiry(Step(s, ev, cfg).fx)
  {
    if Global(ev) {
    } else {
      match s.state {
        case Connecting => assert ArmsNoExpiry(InConnecting(s, ev, cfg).fx);
        case AuthServer => assert ArmsNoExpiry(InAuthServer(s, ev, cfg).fx);
        case Authenticating => assert ArmsNoExpiry(InAuthenticating(s, ev).fx);
        case Authenticated => assert ArmsNoExpiry(InAuthenticated(s, ev).fx);
        case _ =>
      }
    }
  }

  lemma StepInStep(own: bool, x: Expires, sh: Shadow, s: Session, ev: Event, cfg: PaeConfig, latest: Option<Authorization>)
    requires InStep(own, x, sh.armed, latest)
    ensures var fx := Step(s, ev, cfg).fx;
            InStep(own, Expire(x, own, fx), Observe(sh, fx).armed, Renewed(latest, Some(s), ev))
  {
    if !own {
      NeverKept(x, Step(s, ev, cfg).fx);
    } else if s.state == AuthServer && ev.AccessAccept? {
      GrantExpires(x, true, s, ev.authorization, ev.success, cfg);
      AfterAuthorize(sh, s, ev.authorization, ev.success, cfg);
    } else {
      StepArms(s, ev, cfg);
      UnarmedInStep(x, sh, Step(s, ev, cfg).fx, latest);
    }
  }

  lemma ServeInStep(own: bool, x: Expires, sh: Shadow, cfg: PaeConfig, mac: Mac, so: Option<Session>, ev: Event, latest: Option<Authorization>)
    requires InStep(own, x, sh.armed, latest)
    ensures var fx := Serve(cfg, mac, so, ev).fx;
            InStep(own, Expire(x, own, fx), Observe(sh, fx).armed, Renewed(latest, so, ev))
  {
    if so.Some? {
      StepInStep(own, x, sh, so.value, ev, cfg, latest);
    } else {
      var o := Step(NewSession(mac), Enable, cfg);
      StepInStep(own, x, sh, NewSession(mac), Enable, cfg, latest);
      if !ev.Enable? && !ev.EapolStart? {
        var p := Step(o.s, ev, cfg);
        StepInStep(own, Expire(x, own, o.fx), Observe(sh, o.fx), o.s, ev, cfg, latest);
        ExpireAppend(x, own, o.fx, p.fx);
        ObserveAppend(sh, o.fx, p.fx);
      }
    }
  }

  // ---- over every run ----

  /** Whether postures are directed at the MAC they are for. */
  predicate Own(cfg: PaeConfig) { cfg.hostMode != MultiHost }

  /** The timers a run left armed for `x`. */
  function ArmedFor(cfg: PaeConfig, heard: seq<PortInput>, x: Mac): set<TimerKind> {
    PortShadow(cfg, !Own(cfg), heard, x).armed
  }

  function AcceptedNext(cfg: PaeConfig, ss: seq<Session>, latest: Option<Authorization>, input: PortInput, x: Mac): Option<Authorization> {
    match input
    case Feed(mac, ev) => if mac == x then Renewed(latest, Lookup(ss, x), ev) else latest
    case LinkLost => latest
  }

  /** The latest Accept that a session of `x` consumed while it awaited the server. */
  function LatestAccept(cfg: PaeConfig, heard: seq<PortInput>, x: Mac): Option<Authorization>
    decreases |heard|
  {
    if heard == [] then None
    else
      var n := |heard| - 1;
      AcceptedNext(cfg, PortRun(cfg, heard[..n]), LatestAccept(cfg, heard[..n], x), heard[n], x)
  }

  lemma FeedInStep(env: Env, cfg: PaeConfig, ss: seq<Session>, w: World, x: Mac, sh: Shadow, mac: Mac, ev: Event, latest: Option<Authorization>)
    requires Shape(cfg, ss) && InStep(Own(cfg), ExpiresAt(w, x), Delivered(sh, x, Feed(mac, ev)).armed, latest)
    requires DispatchAll(env, w, mac, Handle(cfg, ss, mac, ev).out).r.Ok?
    ensures var out := Handle(cfg, ss, mac, ev).out;
            InStep(Own(cfg), ExpiresAt(DispatchAll(env, w, mac, out).w, x),
                   WatchStep(!Own(cfg), x, sh, Feed(mac, ev), out).armed, AcceptedNext(cfg, ss, latest, Feed(mac, ev), x))
  {
    HandleFacts(cfg, ss, mac, ev, x);
    if Accepts(cfg, ss, mac) {
      var so := Lookup(ss, mac);
      var fx := Serve(cfg, mac, so, ev).fx;
      BatchExpires(env, w, mac, cfg.hostMode, mac, fx, x);
      if x == mac {
        WatchOwn(Deliver(sh, ev), cfg.hostMode, !Own(cfg), mac, fx);
        ServeInStep(Own(cfg), ExpiresAt(w, x), Deliver(sh, ev), cfg, mac, so, ev, latest);
      } else {
        WatchOther(sh, cfg.hostMode, !Own(cfg), mac, x, fx, sh);
      }
    }
  }

  lemma {:induction false} DirectAllIsOwn(mac: Mac, fx: seq<Effect>)
    ensures DirectAll(mac, fx) == Decorate(SingleHost, mac, fx)
  {
    if fx == [] {
    } else {
      DirectAllIsOwn(mac, fx[1..]);
    }
  }

  lemma TeardownExpires(x: Expires, s: Session, cause: TerminateCause)
    requires s.state != New
    ensures Expire(x, true, Teardown(s, cause).fx) == x.(due := None)
  {
    var last := [CancelAllTimers] + [SetAuthorization(Unauthorized)];
    assert [CancelAllTimers, SetAuthorization(Unauthorized)] == last;
    ExpireAppend(x, true, if s.acctOpen then [Accounting(Stop(cause))] else [], last);
    ExpireSingle(x, true, Accounting(Stop(cause)));
    ExpireAppend(x, true, [CancelAllTimers], [SetAuthorization(Unauthorized)]);
    ExpireSingle(x, true, CancelAllTimers);
    ExpireSingle(x.(due := None), true, SetAuthorization(Unauthorized));
  }

  lemma {:induction false} LostExpires(env: Env, cfg: PaeConfig, w: World, ss: seq<Session>, x: Mac)
    requires NoneNew(ss) && DispatchAll(env, w, NO_MAC, LinkDownEach(cfg, ss).out).r.Ok?
    ensures var was, now := ExpiresAt(w, x), ExpiresAt(DispatchAll(env, w, NO_MAC, LinkDownEach(cfg, ss).out).w, x);
            now == if Lookup(ss, x).Some? then was.(due := None) else was
    decreases |ss|
  {
    if ss == [] {
    } else {
      var fx := Step(ss[0], LinkDown, cfg).fx;
      var head := DirectAll(ss[0].mac, fx);
      DirectAllIsOwn(ss[0].mac, fx);
      DispatchAppend(env, w, NO_MAC, head, LinkDownEach(cfg, ss[1..]).out);
      BatchExpires(env, w, NO_MAC, SingleHost, ss[0].mac, fx, x);
      TeardownExpires(ExpiresAt(w, x), ss[0], PortLinkDown);
      LostExpires(env, cfg, DispatchAll(env, w, NO_MAC, head).w, ss[1..], x);
    }
  }

  lemma ClosedKeepsExpiry(env: Env, w: World, x: Mac)
    ensures ExpiresAt(DispatchAll(env, w, NO_MAC, [PORT_CLOSED]).w, x) == ExpiresAt(w, x)
  {
    assert [PORT_CLOSED][1..] == [];
  }

  lemma ReachedInStep(w: World, own: bool, sh: Shadow, x: Mac, input: PortInput, latest: Option<Authorization>)
    requires InStep(own, ExpiresAt(w, x), sh.armed, latest)
    ensures InStep(own, ExpiresAt(Reached(w, input), x), Delivered(sh, x, input).armed, latest)
  {
  }

  lemma {:induction false} RunInStep(env: Env, cfg: PaeConfig, w: World, heard: seq<PortInput>, x: Mac)
    requires w.armed == map[] && w.sessions == map[] && HearAll(env, cfg, w, heard).r.Ok?
    ensures InStep(Own(cfg), ExpiresAt(HearAll(env, cfg, w, heard).w, x), ArmedFor(cfg, heard, x), LatestAccept(cfg, heard, x))
    decreases |heard|
  {
    if heard == [] {
      ClosedKeepsExpiry(env, Trapped(env, w), x);
      WatchSingle(Shadow(None, {}, []), !Own(cfg), x, PORT_CLOSED);
    } else {
      var init, input := heard[..|heard| - 1], heard[|heard| - 1];
      RunInStep(env, cfg, w, init, x);
      HearIsPortRun(env, cfg, w, init);
      RunCovers(cfg, !Own(cfg), init, x, x);
      var v, sh, latest := HearAll(env, cfg, w, init), PortShadow(cfg, !Own(cfg), init, x), LatestAccept(cfg, init, x);
      ReachedInStep(v.w, Own(cfg), sh, x, input, latest);
      match input {
        case Feed(mac, ev) => FeedInStep(env, cfg, v.ss, Reached(v.w, input), x, sh, mac, ev, latest);
        case LinkLost =>
          var each := LinkDownEach(cfg, v.ss);
          LinkLostCovers(cfg, !Own(cfg), v.ss, x, sh);
          DispatchAppend(env, v.w, NO_MAC, each.out, [PORT_CLOSED]);
          LostExpires(env, cfg, v.w, v.ss, x);
          ClosedKeepsExpiry(env, DispatchAll(env, v.w, NO_MAC, each.out).w, x);
      }
    }
  }

  /**
   The timers really scheduled for a MAC are exactly the ones its session left armed,
   except in MultiHost, where the session timeout is never among them: its posture is
   directed at the port, so no value is kept to arm it with.
   */
  lemma ScheduleIsArmed(env: Env, cfg: PaeConfig, w: World, inputs: seq<PortInput>, x: Mac)
    requires w.armed == map[] && w.sessions == map[] && ServeAll(env, cfg, w, inputs).r.Ok?
    ensures var armed := ArmedFor(cfg, Heard(env, cfg, w, inputs), x);
            ScheduledKinds(ServeAll(env, cfg, w, inputs).w, x) ==
            if cfg.hostMode == MultiHost then armed - {SessionTimeout} else armed
  {
    var heard, after := Heard(env, cfg, w, inputs), ServeAll(env, cfg, w, inputs).w;
    ServeIsHear(env, cfg, w, inputs);
    RunScheduled(env, cfg, !Own(cfg), w, heard, x);
    RunInStep(env, cfg, w, heard, x);
    KindsBetween(after, x, ArmedFor(cfg, heard, x));
    assert SessionTimeout in ScheduledKinds(after, x) <==> ExpiresAt(after, x).due.Some?;
  }

  /** Outside MultiHost a session expires after the Session-Timeout of the latest Accept it consumed, re-grants included. */
  lemma ExpiryIsLatestAccept(env: Env, cfg: PaeConfig, w: World, inputs: seq<PortInput>, x: Mac)
    requires w.armed == map[] && w.sessions == map[] && ServeAll(env, cfg, w, inputs).r.Ok?
    requires (x, SessionTimeout) in ServeAll(env, cfg, w, inputs).w.armed
    ensures var latest := LatestAccept(cfg, Heard(env, cfg, w, inputs), x);
            && cfg.hostMode != MultiHost && latest.Some?
            && latest.value.sessionTimeout == Some(ServeAll(env, cfg, w, inputs).w.armed[(x, SessionTimeout)])
  {
    ServeIsHear(env, cfg, w, inputs);
    RunInStep(env, cfg, w, Heard(env, cfg, w, inputs), x);
  }

  /**
   One grant, performed: outside MultiHost the server's Session-Timeout replaces whatever was
   kept and scheduled, first grant or not. In MultiHost it is not kept: the session arms its
   timer, and what is scheduled is whatever had been kept before, which is nothing.
   */
  lemma GrantScheduled(env: Env, w: World, mac: Mac, s: Session, a: Authorization, eap: Option<Bytes>, cfg: PaeConfig, sh: Shadow)
    requires DispatchAll(env, w, mac, Decorate(cfg.hostMode, mac, Authorize(s, a, eap, cfg).fx)).r.Ok?
    ensures var fx := Authorize(s, a, eap, cfg).fx;
            var kept := if Own(cfg) then a.sessionTimeout else ExpiresAt(w, mac).kept;
            && (SessionTimeout in Observe(sh, fx).armed <==> a.sessionTimeout.Some?)
            && ExpiresAt(DispatchAll(env, w, mac, Decorate(cfg.hostMode, mac, fx)).w, mac)
               == Expires(kept, if a.sessionTimeout.Some? then kept else None)
  {
    BatchExpires(env, w, mac, cfg.hostMode, mac, Authorize(s, a, eap, cfg).fx, mac);
    AfterAuthorize(sh, s, a, eap, cfg);
    GrantExpires(ExpiresAt(w, mac), Own(cfg), s, a, eap, cfg);
  }
}
