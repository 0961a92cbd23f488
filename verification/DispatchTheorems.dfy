/** The feedback loop: how many turns it takes, and what it leaves waiting. */
module DispatchTheorems {
  import opened Wrappers
  import opened Octets
  import opened Pacp
  import opened PaeTypes
  import opened PaeSession
  import opened PaeRuns
  import opened PaePort
  import opened PortTheorems
  import opened Radius
  import opened Correlation
  import opened Dispatch

  // ---- which effects cause a RADIUS round trip ----

  predicate CallsServer(e: Effect) { e.ToAuthServer? || e.StartMab? }

  predicate Quiet(fx: seq<Effect>) {
    forall i :: 0 <= i < |fx| ==> !CallsServer(fx[i])
  }

  predicate IsReply(ev: Event) { ev.AccessChallenge? || ev.AccessAccept? || ev.AccessReject? }

  /** At most one request, and it is the effect at position `at`. */
  predicate OneCall(fx: seq<Effect>, at: nat) {
    at < |fx| && CallsServer(fx[at]) && Quiet(fx[..at]) && Quiet(fx[at + 1..])
  }

  lemma QuietAppend(a: seq<Effect>, b: seq<Effect>)
    requires Quiet(a) && Quiet(b)
    ensures Quiet(a + b)
  {
  }

  lemma TeardownQuiet(s: Session, cause: TerminateCause)
    ensures Quiet(Teardown(s, cause).fx)
  {
  }

  lemma AuthorizeQuiet(s: Session, a: Authorization, eap: Option<Bytes>, cfg: PaeConfig)
    ensures Quiet(Authorize(s, a, eap, cfg).fx)
  {
    var open := [CancelAllTimers, SetAuthorization(Authorized(a))];
    var start, reauth := When(!s.acctOpen, Accounting(Start)), When(cfg.reauthEnabled, ArmTimer(Reauth));
    QuietAppend(open, start);
    QuietAppend(open + start, reauth);
    QuietAppend(open + start + reauth, When(a.sessionTimeout.Some?, ArmTimer(SessionTimeout)));
    QuietAppend(Relay(eap), open + start + reauth + When(a.sessionTimeout.Some?, ArmTimer(SessionTimeout)));
  }

  lemma RejectQuiet(s: Session, eap: Option<Bytes>, cfg: PaeConfig)
    ensures Quiet(Reject(s, eap, cfg).fx)
  {
    TeardownQuiet(s, ReauthFailure);
    QuietAppend(Relay(eap), if s.acctOpen then Teardown(s, ReauthFailure).fx
                            else if cfg.authFailVlan.Some? then EnterFallback(s, AuthFail, cfg.authFailVlan.value).fx
                            else Hold(s).fx);
  }

  lemma SolicitQuiet(s: Session, tx: U32, first: seq<Effect>)
    requires Quiet(first)
    ensures Quiet(Solicit(s, tx, first).fx)
  {
    QuietAppend(first, SendIdentity(s.(state := Connecting, txCount := tx)).fx);
  }

  /** From the server's side: a reply always takes the session out of `AuthServer`, and nothing there calls the server. */
  lemma AuthServerQuiet(s: Session, ev: Event, cfg: PaeConfig)
    requires s.state == AuthServer
    ensures Quiet(InAuthServer(s, ev, cfg).fx)
    ensures InAuthServer(s, ev, cfg).s.state == AuthServer ==> !IsReply(ev) && InAuthServer(s, ev, cfg).s == s
  {
    match ev {
      case AccessAccept(a, eap) => AuthorizeQuiet(s, a, eap, cfg);
      case AccessReject(eap) => RejectQuiet(s, eap, cfg);
      case EapolLogoff => TeardownQuiet(s, SupplicantLogoff);
      case _ =>
    }
  }

  /** What a handler owes: one call, as its second effect, exactly on entering `AuthServer`. */
  predicate CallsOnEntry(s: Session, o: Out) {
    if o.s.state == AuthServer && s.state != AuthServer then OneCall(o.fx, 1) else Quiet(o.fx)
  }

  lemma GlobalQuiet(s: Session, ev: Event, cfg: PaeConfig)
    requires Global(ev)
    ensures Quiet(Step(s, ev, cfg).fx)
    ensures Step(s, ev, cfg).s.state == AuthServer ==> Step(s, ev, cfg).s == s
  {
    TeardownQuiet(s, PortLinkDown);
    TeardownQuiet(s, AdminReset);
    SolicitQuiet(s.(authz := None, acctOpen := false, kind := Dot1x), 1, [SetAuthorization(Unauthorized)]);
    SolicitQuiet(s, 1, [CancelTimer(Reauth)]);
  }

  lemma ConnectingCalls(s: Session, ev: Event, cfg: PaeConfig)
    requires s.state == Connecting
    ensures CallsOnEntry(s, InConnecting(s, ev, cfg))
  {
    TeardownQuiet(s, ReauthFailure);
    TeardownQuiet(s, SupplicantLogoff);
  }

  lemma AuthenticatingCalls(s: Session, ev: Event)
    requires s.state == Authenticating
    ensures CallsOnEntry(s, InAuthenticating(s, ev))
  {
    TeardownQuiet(s, ReauthFailure);
    TeardownQuiet(s, SupplicantLogoff);
    SolicitQuiet(s, s.txCount, [CancelTimer(SuppTimeout)]);
  }

  lemma AuthenticatedQuiet(s: Session, ev: Event)
    requires s.state == Authenticated
    ensures InAuthenticated(s, ev).s.state != AuthServer && Quiet(InAuthenticated(s, ev).fx)
  {
    TeardownQuiet(s, SupplicantLogoff);
    TeardownQuiet(s, SessionExpired);
    SolicitQuiet(s, 1, [CancelTimer(Reauth)]);
    SolicitQuiet(Teardown(s, SessionExpired).s, 1, Teardown(s, SessionExpired).fx);
  }

  lemma RestingQuiet(s: Session, ev: Event)
    requires s.state == Held || s.state.Fallback?
    ensures var o := if s.state == Held then InHeld(s, ev) else InFallback(s, ev);
            o.s.state != AuthServer && Quiet(o.fx)
  {
    SolicitQuiet(s, 1, []);
    SolicitQuiet(s, 1, [CancelTimer(HeldPeriod)]);
  }

  /**
   A step calls the server exactly when it enters `AuthServer`, and then once, as its second
   effect: with the supplicant's Response unaltered, or with MAB for the session's own MAC.
   */
  lemma StepCalls(s: Session, ev: Event, cfg: PaeConfig)
    ensures CallsOnEntry(s, Step(s, ev, cfg))
    ensures var o := Step(s, ev, cfg);
            o.s.state == AuthServer && s.state != AuthServer ==>
              if ev.EapFromSupplicant? then ev.inbound.code == EapResponse && o.fx[1] == ToAuthServer(ev.inbound.packet)
              else o.fx[1] == StartMab(s.mac) && o.s.kind == Mab && cfg.mabEnabled
    ensures s.state == AuthServer && Step(s, ev, cfg).s.state == AuthServer ==> !IsReply(ev) && Step(s, ev, cfg).s == s
  {
    if Global(ev) {
      GlobalQuiet(s, ev, cfg);
    } else {
      match s.state {
        case Connecting => ConnectingCalls(s, ev, cfg);
        case AuthServer => AuthServerQuiet(s, ev, cfg);
        case Authenticating => AuthenticatingCalls(s, ev);
        case Authenticated => AuthenticatedQuiet(s, ev);
        case Held => RestingQuiet(s, ev);
        case Fallback(_) => RestingQuiet(s, ev);
        case New =>
      }
    }
  }

  /** Serving a MAC calls the server exactly when its session newly awaits the server, and then once. */
  lemma ServeCalls(cfg: PaeConfig, mac: Mac, so: Option<Session>, ev: Event) returns (at: nat)
    ensures var o := Serve(cfg, mac, so, ev);
            if o.s.state == AuthServer && (so.None? || so.value.state != AuthServer) then OneCall(o.fx, at) else Quiet(o.fx)
    ensures var o := Serve(cfg, mac, so, ev);
            so.Some? && so.value.state == AuthServer && o.s.state == AuthServer ==> !IsReply(ev) && o.s == so.value
  {
    at := 1;
    if so.Some? {
      StepCalls(so.value, ev, cfg);
    } else {
      var o := Step(NewSession(mac), Enable, cfg);
      StepCalls(NewSession(mac), Enable, cfg);
      if !ev.Enable? && !ev.EapolStart? {
        var p := Step(o.s, ev, cfg);
        StepCalls(o.s, ev, cfg);
        if OneCall(p.fx, 1) {
          at := |o.fx| + 1;
          assert (o.fx + p.fx)[..at] == o.fx + p.fx[..1];
          assert (o.fx + p.fx)[at + 1..] == p.fx[2..];
          QuietAppend(o.fx, p.fx[..1]);
        } else {
          QuietAppend(o.fx, p.fx);
        }
      }
    }
  }

  // ---- what a batch feeds back ----

  predicate QuietOut(out: seq<Directed>) {
    forall i :: 0 <= i < |out| ==> !CallsServer(out[i].effect)
  }

  lemma {:induction false} DecorateAt(mode: HostMode, mac: Mac, fx: seq<Effect>)
    ensures |Decorate(mode, mac, fx)| == |fx|
    ensures forall i :: 0 <= i < |fx| ==> Decorate(mode, mac, fx)[i] == DirectOne(mode, mac, fx[i])
  {
    if fx == [] {
    } else {
      DecorateAt(mode, mac, fx[1..]);
    }
  }

  /** Only a RADIUS round trip feeds an event back. */
  lemma {:induction false} QuietBatch(env: Env, w: World, m: Mac, out: seq<Directed>)
    requires QuietOut(out)
    ensures DispatchAll(env, w, m, out).follows == []
    decreases |out|
  {
    if out == [] {
    } else {
      QuietBatch(env, BatchOne(env, w, m, out[0]).w, m, out[1..]);
    }
  }

  /** A round trip touches correlation state only, and what it feeds back is a parsed reply to the request sent. */
  lemma ExchangeFacts(env: Env, w: World, mac: Mac, b: Build, x: Mac)
    ensures var d := Exchange(env, w, mac, b);
            && d.w == w.(sessions := d.w.sessions, calls := d.w.calls)
            && StateOf(d.w.sessions, x).timeout == StateOf(w.sessions, x).timeout
            && (d.r.Ok? ==>
                  && b.r.Ok? && env.answer(w.calls, b.r.value).Some?
                  && ParseReply(env.codec, env.answer(w.calls, b.r.value).value).Ok?
                  && d.r.value == Some(ParseReply(env.codec, env.answer(w.calls, b.r.value).value).value))
  {
  }

  predicate Asks(de: Directed) {
    de.effect.StartMab? || (de.effect.ToAuthServer? && de.mac.Some?)
  }

  lemma DispatchCons(env: Env, w: World, m: Mac, a: Directed, rest: seq<Directed>)
    ensures var d := BatchOne(env, w, m, a);
            var more := DispatchAll(env, d.w, m, rest);
            DispatchAll(env, w, m, [a] + rest) == if d.r.Err? then d else Batch(more.w, d.follows + more.follows, more.r)
  {
    assert ([a] + rest)[1..] == rest;
  }

  lemma BatchOfOne(env: Env, w: World, m: Mac, de: Directed)
    ensures var b, one := DispatchAll(env, w, m, [de]), BatchOne(env, w, m, de); b.w == one.w && b.r == one.r
  {
    assert [de][1..] == [];
  }

  lemma RequestIsExchange(env: Env, w: World, de: Directed) returns (mac: Mac, b: Build)
    requires Asks(de)
    ensures DispatchOne(env, w, de) == Exchange(env, w, mac, b)
  {
    if de.effect.StartMab? {
      mac := de.effect.mac;
      b := BuildMab(env.codec, StateOf(w.sessions, mac).radius, ContextFor(w, mac), env.nonce(w.calls), env.secret);
    } else {
      mac := de.mac.value;
      b := BuildEap(env.codec, StateOf(w.sessions, mac).radius, ContextFor(w, mac), EapIdentity(de.effect.relay),
                    de.effect.relay, env.nonce(w.calls), env.secret);
    }
  }

  /** A round trip that succeeds feeds back a Challenge, an Accept or a Reject, to its own session. */
  lemma RequestFeedsBack(env: Env, w: World, m: Mac, de: Directed)
    requires CallsServer(de.effect) && de.mac == Some(m)
    ensures var b := BatchOne(env, w, m, de);
            if b.r.Ok? then |b.follows| == 1 && b.follows[0].0 == m && IsReply(b.follows[0].1) else b.follows == []
  {
    var mac, b := RequestIsExchange(env, w, de);
    ExchangeFacts(env, w, mac, b, m);
  }

  /** What no round trip touches. */
  lemma RequestFrame(env: Env, w: World, m: Mac, de: Directed, x: Mac)
    requires Asks(de)
    ensures var u := BatchOne(env, w, m, de).w;
            && u.port == w.port && u.es == w.es && u.armed == w.armed
            && StateOf(u.sessions, x).timeout == StateOf(w.sessions, x).timeout
  {
    var mac, b := RequestIsExchange(env, w, de);
    ExchangeFacts(env, w, mac, b, x);
  }

  lemma DecoratedQuiet(mode: HostMode, m: Mac, fx: seq<Effect>, at: nat)
    requires OneCall(fx, at)
    ensures var out := Decorate(mode, m, fx);
            && |out| == |fx| && QuietOut(out[..at]) && QuietOut(out[at + 1..])
            && CallsServer(out[at].effect) && out[at].mac == Some(m)
  {
    var out := Decorate(mode, m, fx);
    DecorateAt(mode, m, fx);
    var rest, more := out[at + 1..], fx[at + 1..];
    assert forall i :: 0 <= i < at ==> out[i].effect == fx[..at][i];
    assert forall i :: 0 <= i < |rest| ==> rest[i].effect == more[i];
  }

  lemma Around<T>(s: seq<T>, at: nat)
    requires at < |s|
    ensures s == s[..at] + ([s[at]] + s[at + 1..])
  {
  }

  /** A request followed by quiet effects. */
  lemma CallThenQuiet(env: Env, w: World, m: Mac, de: Directed, rest: seq<Directed>)
    requires CallsServer(de.effect) && de.mac == Some(m) && QuietOut(rest)
    ensures var b := DispatchAll(env, w, m, [de] + rest);
            && |b.follows| <= 1
            && (b.r.Ok? ==> |b.follows| == 1)
            && (b.follows != [] ==> b.follows[0].0 == m && IsReply(b.follows[0].1))
  {
    DispatchCons(env, w, m, de, rest);
    RequestFeedsBack(env, w, m, de);
    QuietBatch(env, BatchOne(env, w, m, de).w, m, rest);
  }

  lemma OneCallBatch(env: Env, w: World, mode: HostMode, m: Mac, fx: seq<Effect>, at: nat)
    requires OneCall(fx, at)
    ensures var b := DispatchAll(env, w, m, Decorate(mode, m, fx));
            && |b.follows| <= 1
            && (b.r.Ok? ==> |b.follows| == 1)
            && (b.follows != [] ==> b.follows[0].0 == m && IsReply(b.follows[0].1))
  {
    var out := Decorate(mode, m, fx);
    DecoratedQuiet(mode, m, fx, at);
    Around(out, at);
    QuietBatch(env, w, m, out[..at]);
    DispatchAppend(env, w, m, out[..at], [out[at]] + out[at + 1..]);
    CallThenQuiet(env, DispatchAll(env, w, m, out[..at]).w, m, out[at], out[at + 1..]);
  }

  // ---- one turn, and the loop ----

  predicate Waiting(ss: seq<Session>, x: Mac) {
    Lookup(ss, x).Some? && Lookup(ss, x).value.state == AuthServer
  }

  /** What serving an accepted event feeds back. */
  lemma ServeFeedsBack(env: Env, cfg: PaeConfig, w: World, mac: Mac, so: Option<Session>, ev: Event)
    ensures var o := Serve(cfg, mac, so, ev);
            var b := DispatchAll(env, w, mac, Decorate(cfg.hostMode, mac, o.fx));
            var waited, waits := so.Some? && so.value.state == AuthServer, o.s.state == AuthServer;
            && |b.follows| <= 1
            && (b.follows != [] ==> b.follows[0].0 == mac && IsReply(b.follows[0].1) && waits && !waited)
            && (b.r.Ok? && b.follows == [] && waits ==> waited && !IsReply(ev) && o.s == so.value)
            && (waited && IsReply(ev) ==> !waits)
  {
    var fx := Serve(cfg, mac, so, ev).fx;
    var at := ServeCalls(cfg, mac, so, ev);
    if Quiet(fx) {
      DecorateAt(cfg.hostMode, mac, fx);
      QuietBatch(env, w, mac, Decorate(cfg.hostMode, mac, fx));
    } else {
      OneCallBatch(env, w, cfg.hostMode, mac, fx, at);
    }
  }

  /** A turn on `mac`'s event feeds back at most a reply for `mac`, and then exactly when `mac` came to wait for it. */
  lemma TurnFacts(env: Env, cfg: PaeConfig, l: Loop, mac: Mac, ev: Event)
    requires Shape(cfg, l.ss) && l.queue == [(mac, ev)] && l.r.Ok? && l.steps < MAX_TURNS
    ensures var t := Turn(env, cfg, l);
            && Shape(cfg, t.ss) && |t.queue| <= 1
            && (t.queue != [] ==> t.queue[0].0 == mac && IsReply(t.queue[0].1) && Waiting(t.ss, mac) && !Waiting(l.ss, mac))
            && (t.r.Ok? && t.queue == [] && Waiting(t.ss, mac) ==>
                  (Waiting(l.ss, mac) ==> !IsReply(ev)) && Lookup(t.ss, mac) == Lookup(l.ss, mac))
            && (Waiting(l.ss, mac) && IsReply(ev) ==> !Waiting(t.ss, mac))
    ensures forall x :: x != mac ==> Lookup(Turn(env, cfg, l).ss, x) == Lookup(l.ss, x)
  {
    forall x
      ensures x != mac ==> Lookup(Handle(cfg, l.ss, mac, ev).sessions, x) == Lookup(l.ss, x)
    {
      HandleFacts(cfg, l.ss, mac, ev, x);
    }
    HandleFacts(cfg, l.ss, mac, ev, mac);
    ServeFeedsBack(env, cfg, l.w, mac, Lookup(l.ss, mac), ev);
  }

  /** The event, and the reply it feeds back if there is one: two turns at most. */
  function TwoTurns(env: Env, cfg: PaeConfig, l: Loop): Loop
    requires !Finished(l)
  {
    var t := Turn(env, cfg, l);
    if Finished(t) then t else Turn(env, cfg, t)
  }

  /**
   For every event on every port: the loop is its first turn and, when that fed a reply
   back, one more; the second turn happens exactly when the event made the session wait
   for the server. The queue never holds more than one entry, an Ok return leaves it
   empty, and the guard is never reached.
   */
  lemma FeedbackBounded(env: Env, cfg: PaeConfig, w: World, ss: seq<Session>, mac: Mac, ev: Event)
    requires Shape(cfg, ss)
    ensures var start := Started(w, ss, mac, ev);
            var l := Drain(env, cfg, start);
            && l == TwoTurns(env, cfg, start)
            && l.steps <= 2 < MAX_TURNS
            && |Turn(env, cfg, start).queue| <= 1 && |l.queue| <= 1
            && (l.r.Ok? ==> l.queue == [])
            && (l.r.Ok? ==> (l.steps == 2 <==> Waiting(Turn(env, cfg, start).ss, mac) && !Waiting(ss, mac)))
            && Shape(cfg, l.ss)
  {
    var start := Started(w, ss, mac, ev);
    var t := Turn(env, cfg, start);
    TurnFacts(env, cfg, start, mac, ev);
    if !Finished(t) {
      TurnFacts(env, cfg, t, mac, t.queue[0].1);
      var u := Turn(env, cfg, t);
      assert Finished(u);
      assert Drain(env, cfg, u) == u;
    }
    assert Drain(env, cfg, start) == Drain(env, cfg, t);
  }

  /**
   An Ok return leaves no session newly waiting for the server: whoever waits
   afterwards was waiting before, and its session has not changed.
   */
  lemma NoSessionLeftWaiting(env: Env, cfg: PaeConfig, w: World, ss: seq<Session>, mac: Mac, ev: Event, x: Mac)
    requires Shape(cfg, ss) && Drain(env, cfg, Started(w, ss, mac, ev)).r.Ok?
    ensures var l := Drain(env, cfg, Started(w, ss, mac, ev));
            Waiting(l.ss, x) ==> Lookup(l.ss, x) == Lookup(ss, x)
  {
    var start := Started(w, ss, mac, ev);
    FeedbackBounded(env, cfg, w, ss, mac, ev);
    var t := Turn(env, cfg, start);
    TurnFacts(env, cfg, start, mac, ev);
    if !Finished(t) {
      TurnFacts(env, cfg, t, mac, t.queue[0].1);
    }
  }

  // ---- port-level batches ----

  lemma {:induction false} DirectAllAt(mac: Mac, fx: seq<Effect>)
    ensures |DirectAll(mac, fx)| == |fx|
    ensures forall i :: 0 <= i < |fx| ==> DirectAll(mac, fx)[i] == Directed(Some(mac), fx[i])
  {
    if fx == [] {
    } else {
      DirectAllAt(mac, fx[1..]);
    }
  }

  lemma {:induction false} LinkDownQuiet(cfg: PaeConfig, ss: seq<Session>)
    ensures QuietOut(LinkDownEach(cfg, ss).out)
  {
    if ss == [] {
    } else {
      LinkDownQuiet(cfg, ss[1..]);
      TeardownQuiet(ss[0], PortLinkDown);
      DirectAllAt(ss[0].mac, Step(ss[0], LinkDown, cfg).fx);
    }
  }

  lemma PortDownQuiet(cfg: PaeConfig, ss: seq<Session>)
    ensures QuietOut(LinkDownPort(cfg, ss).out)
  {
    LinkDownQuiet(cfg, ss);
  }

  /** Enabling a port or losing its link never causes a follow-up, so ignoring follow-ups loses nothing. */
  lemma PortBatchesQuiet(env: Env, cfg: PaeConfig, w: World, ss: seq<Session>, m: Mac)
    ensures DispatchAll(env, w, m, [PORT_CLOSED]).follows == []
    ensures DispatchAll(env, w, m, LinkDownPort(cfg, ss).out).follows == []
  {
    PortDownQuiet(cfg, ss);
    QuietBatch(env, w, m, [PORT_CLOSED]);
    QuietBatch(env, w, m, LinkDownPort(cfg, ss).out);
  }
}
