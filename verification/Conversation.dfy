/**
 What one EAP conversation hands on to the next: the correlation state of a MAC outlives its
 session, so the State of an unfinished conversation is echoed in the first request of a new one.
 */
module Conversation {
  import opened Wrappers
  import opened Octets
  import opened Pacp
  import opened PaeTypes
  import opened PaeSession
  import opened PaeRuns
  import opened PaePort
  import opened PortTheorems
  import opened Radius
  import opened RadiusTheorems
  import opened Correlation
  import opened Dispatch
  import opened DispatchTheorems
  import opened Worker
  import opened Serving

  // ---- what ends a session leaves the conversation ----

  predicate SameConversation(w: World, u: World, x: Mac) {
    var a, b := StateOf(w.sessions, x).radius, StateOf(u.sessions, x).radius;
    a.lastState == b.lastState && a.userName == b.userName
  }

  lemma QuietOneKeeps(env: Env, w: World, m: Mac, de: Directed, x: Mac)
    requires !CallsServer(de.effect)
    ensures SameConversation(w, BatchOne(env, w, m, de).w, x)
  {
  }

  /** Timeouts, teardowns, postures and accounting leave every MAC's State and User-Name. */
  lemma {:induction false} QuietKeeps(env: Env, w: World, m: Mac, out: seq<Directed>, x: Mac)
    requires QuietOut(out)
    ensures SameConversation(w, DispatchAll(env, w, m, out).w, x)
    decreases |out|
  {
    if out == [] {
    } else {
      QuietOneKeeps(env, w, m, out[0], x);
      QuietKeeps(env, BatchOne(env, w, m, out[0]).w, m, out[1..], x);
    }
  }

  /** Losing the link drops every session, and no conversation. */
  lemma LinkLossKeeps(env: Env, cfg: PaeConfig, v: Service, x: Mac)
    requires Shape(cfg, v.ss)
    ensures Hear(env, cfg, v, LinkLost).ss == []
    ensures SameConversation(v.w, Hear(env, cfg, v, LinkLost).w, x)
  {
    PortDownQuiet(cfg, v.ss);
    LinkDownFacts(cfg, v.ss, Shadow(None, {}, []), false, x);
    QuietKeeps(env, v.w, NO_MAC, LinkDownPort(cfg, v.ss).out, x);
  }

  /** An event whose session does not come to await the server keeps the conversation and moves the session. */
  lemma QuietHearKeeps(env: Env, cfg: PaeConfig, v: Service, mac: Mac, ev: Event)
    requires Shape(cfg, v.ss) && Accepts(cfg, v.ss, mac)
    requires Serve(cfg, mac, Lookup(v.ss, mac), ev).s.state != AuthServer
    ensures var u := Hear(env, cfg, v, Feed(mac, ev));
            && SameConversation(v.w, u.w, mac) && Shape(cfg, u.ss)
            && Lookup(u.ss, mac) == Live(Serve(cfg, mac, Lookup(v.ss, mac), ev).s)
  {
    var so := Lookup(v.ss, mac);
    var at := ServeCalls(cfg, mac, so, ev);
    HandleFacts(cfg, v.ss, mac, ev, mac);
    DecorateAt(cfg.hostMode, mac, Serve(cfg, mac, so, ev).fx);
    QuietKeeps(env, Fired(v.w, mac, ev), mac, Handle(cfg, v.ss, mac, ev).out, mac);
  }

  /** Such an event feeds nothing back, so serving it is hearing it. */
  lemma QuietServed(env: Env, cfg: PaeConfig, v: Service, mac: Mac, ev: Event)
    requires Shape(cfg, v.ss) && Accepts(cfg, v.ss, mac)
    requires Serve(cfg, mac, Lookup(v.ss, mac), ev).s.state != AuthServer
    ensures var u := ServeInput(env, cfg, v, Feed(mac, ev));
            && u.ss == Handle(cfg, v.ss, mac, ev).sessions
            && SameConversation(v.w, u.w, mac) && Shape(cfg, u.ss)
            && Lookup(u.ss, mac) == Live(Serve(cfg, mac, Lookup(v.ss, mac), ev).s)
  {
    LoopIsHear(env, cfg, v, mac, ev);
    QuietHearKeeps(env, cfg, v, mac, ev);
    HandleFacts(cfg, v.ss, mac, ev, mac);
    TurnFacts(env, cfg, Started(Fired(v.w, mac, ev), v.ss, mac, ev), mac, ev);
  }

  // ---- a conversation that breaks off ----

  /** A supplicant that answers no more: its timeout, and the end of the held period. */
  function Abandoned(env: Env, cfg: PaeConfig, v: Service, mac: Mac): Service {
    ServeInput(env, cfg, ServeInput(env, cfg, v, Feed(mac, TimerFired(SuppTimeout))), Feed(mac, TimerFired(HeldPeriod)))
  }

  /** With accounting closed the timeout holds the session, with accounting open it ends it; either way it is solicited next. */
  lemma TimeoutSolicits(s: Session, cfg: PaeConfig)
    requires s.state == Authenticating
    ensures var out := Step(s, TimerFired(SuppTimeout), cfg).s;
            && out.state == (if s.acctOpen then New else Held)
            && (out.state == Held ==> Step(out, TimerFired(HeldPeriod), cfg).s.state == Connecting)
    ensures Admit(cfg, s.mac, TimerFired(HeldPeriod)).s.state == Connecting
  {
  }

  lemma {:induction false} PruneOne(ss: seq<Session>, s: Session)
    requires NoneNew(ss) && s.state == New && Lookup(ss, s.mac).Some?
    ensures |Prune(Replace(ss, s))| == |ss| - 1
  {
    if ss[0].mac == s.mac {
      PruneNothing(ss[1..]);
      assert Replace(ss, s)[1..] == ss[1..];
    } else {
      PruneOne(ss[1..], s);
      assert Replace(ss, s)[1..] == Replace(ss[1..], s);
    }
  }

  /** A MAC whose session went has made room for itself. */
  lemma RoomAgain(cfg: PaeConfig, ss: seq<Session>, mac: Mac, ev: Event)
    requires Shape(cfg, ss) && Lookup(ss, mac).Some? && Step(Lookup(ss, mac).value, ev, cfg).s.state == New
    ensures Accepts(cfg, Handle(cfg, ss, mac, ev).sessions, mac)
  {
    var s := Step(Lookup(ss, mac).value, ev, cfg).s;
    LookupSome(ss, mac);
    StepKeepsMac(Lookup(ss, mac).value, ev, cfg);
    PruneOne(ss, s);
    HandleFacts(cfg, ss, mac, ev, mac);
    AdmissionAgrees(cfg, Handle(cfg, ss, mac, ev).sessions);
  }

  lemma AbandonedKeeps(env: Env, cfg: PaeConfig, v: Service, mac: Mac)
    requires Shape(cfg, v.ss) && Lookup(v.ss, mac).Some? && Lookup(v.ss, mac).value.state == Authenticating
    ensures var u := Abandoned(env, cfg, v, mac);
            && SameConversation(v.w, u.w, mac)
            && Lookup(u.ss, mac).Some? && Lookup(u.ss, mac).value.state == Connecting
  {
    var s := Lookup(v.ss, mac).value;
    LookupSome(v.ss, mac);
    TimeoutSolicits(s, cfg);
    QuietServed(env, cfg, v, mac, TimerFired(SuppTimeout));
    if s.acctOpen {
      RoomAgain(cfg, v.ss, mac, TimerFired(SuppTimeout));
    }
    QuietServed(env, cfg, ServeInput(env, cfg, v, Feed(mac, TimerFired(SuppTimeout))), mac, TimerFired(HeldPeriod));
  }

  // ---- the request a Response makes, and what its answer leaves ----

  /** The request that relaying `eap` for `mac` makes in world `w`. */
  function RequestFor(env: Env, w: World, mac: Mac, eap: Bytes): Build {
    BuildEap(env.codec, StateOf(w.sessions, mac).radius, ContextFor(w, mac), EapIdentity(eap), eap, env.nonce(w.calls), env.secret)
  }

  lemma RequestEchoes(env: Env, w: World, mac: Mac, eap: Bytes)
    requires RequestFor(env, w, mac, eap).r.Ok?
    ensures FindAttr(RequestFor(env, w, mac, eap).r.value.attrs, STATE) == StateOf(w.sessions, mac).radius.lastState
  {
    var rs, identity := StateOf(w.sessions, mac).radius, EapIdentity(eap);
    RelayIsVerbatim(env.codec, ContextFor(w, mac), rs.nextId, env.nonce(w.calls),
                    if identity.Some? then identity else rs.userName, rs.lastState, eap, env.secret);
  }

  /** What the server answers to it. */
  function AnswerTo(env: Env, w: World, mac: Mac, eap: Bytes): Option<Packet> {
    var b := RequestFor(env, w, mac, eap);
    if b.r.Ok? then env.answer(w.calls, b.r.value) else None
  }

  lemma ExchangeKeeps(env: Env, w: World, mac: Mac, b: Build)
    requires Exchange(env, w, mac, b).r.Ok?
    ensures var d := Exchange(env, w, mac, b);
            && b.r.Ok? && env.answer(w.calls, b.r.value).Some?
            && var reply := env.answer(w.calls, b.r.value).value;
               && ParseReply(env.codec, reply).Ok? && d.r.value == Some(ParseReply(env.codec, reply).value)
               && StateOf(d.w.sessions, mac).radius.lastState == FindAttr(reply.attrs, STATE)
  {
  }

  lemma ResponseAsks(s: Session, inbound: InboundEap, cfg: PaeConfig)
    requires s.state == Connecting && inbound.code == EapResponse
    ensures var o := Step(s, EapFromSupplicant(inbound), cfg);
            && o.s.state == AuthServer
            && o.fx == [CancelTimer(TxPeriod), ToAuthServer(inbound.packet), ArmTimer(ServerTimeout)]
  {
  }

  /** A batch of three, the first of which succeeds and feeds nothing back. */
  lemma BatchOfThree(env: Env, w: World, m: Mac, a: Directed, b: Directed, c: Directed)
    requires BatchOne(env, w, m, a).r.Ok? && BatchOne(env, w, m, a).follows == []
    ensures var two := BatchOne(env, BatchOne(env, w, m, a).w, m, b);
            var three := BatchOne(env, two.w, m, c);
            var all := DispatchAll(env, w, m, [a, b, c]);
            if two.r.Err? then all.r == two.r
            else all.w == three.w && all.r == three.r && all.follows == two.follows + three.follows
  {
    assert [a, b, c][1..] == [b, c] && [b, c][1..] == [c] && [c][1..] == [];
    var one := BatchOne(env, w, m, a);
    var two := BatchOne(env, one.w, m, b);
    var three := BatchOne(env, two.w, m, c);
    DispatchCons(env, w, m, a, [b, c]);
    DispatchCons(env, one.w, m, b, [c]);
    DispatchCons(env, two.w, m, c, []);
    assert three.follows + [] == three.follows;
  }

  function CancelledTx(w: World, mac: Mac): World {
    w.(armed := w.armed - {(mac, TxPeriod)})
  }

  lemma AskOne(env: Env, w: World, mac: Mac, eap: Bytes)
    ensures var d := Exchange(env, CancelledTx(w, mac), mac, RequestFor(env, w, mac, eap));
            var b := BatchOne(env, CancelledTx(w, mac), mac, Directed(Some(mac), ToAuthServer(eap)));
            if d.r.Err? then b.r == Err(d.r.error) else b == Batch(d.w, [(mac, d.r.value.value)], Ok(()))
  {
    var d := Exchange(env, CancelledTx(w, mac), mac, RequestFor(env, w, mac, eap));
    if d.r.Ok? {
      ExchangeKeeps(env, CancelledTx(w, mac), mac, RequestFor(env, w, mac, eap));
    }
  }

  lemma TimerOnes(env: Env, w: World, mac: Mac)
    ensures BatchOne(env, w, mac, Directed(Some(mac), CancelTimer(TxPeriod))) == Batch(CancelledTx(w, mac), [], Ok(()))
    ensures var b := BatchOne(env, w, mac, Directed(Some(mac), ArmTimer(ServerTimeout)));
            b.r == Ok(()) && b.follows == [] && b.w.sessions == w.sessions
  {
  }

  /** The batch of a relayed Response is one exchange between two timer effects. */
  lemma AskBatch(env: Env, w: World, mode: HostMode, mac: Mac, eap: Bytes)
    ensures var d := Exchange(env, CancelledTx(w, mac), mac, RequestFor(env, w, mac, eap));
            var b := DispatchAll(env, w, mac, Decorate(mode, mac, [CancelTimer(TxPeriod), ToAuthServer(eap), ArmTimer(ServerTimeout)]));
            if d.r.Err? then b.r == Err(d.r.error)
            else b.r.Ok? && b.follows == [(mac, d.r.value.value)] && b.w.sessions == d.w.sessions
  {
    var fx := [CancelTimer(TxPeriod), ToAuthServer(eap), ArmTimer(ServerTimeout)];
    var d := Exchange(env, CancelledTx(w, mac), mac, RequestFor(env, w, mac, eap));
    DecorateAt(mode, mac, fx);
    assert Decorate(mode, mac, fx) == [Directed(Some(mac), fx[0]), Directed(Some(mac), fx[1]), Directed(Some(mac), fx[2])];
    TimerOnes(env, w, mac);
    AskOne(env, w, mac, eap);
    TimerOnes(env, d.w, mac);
    BatchOfThree(env, w, mac, Directed(Some(mac), fx[0]), Directed(Some(mac), fx[1]), Directed(Some(mac), fx[2]));
  }

  /** A Response that is relayed: no answer ends the service, and an accepted answer leaves its State and is what is heard next. */
  lemma ResponseServed(env: Env, cfg: PaeConfig, v: Service, mac: Mac, inbound: InboundEap)
    requires Shape(cfg, v.ss) && Lookup(v.ss, mac).Some? && Lookup(v.ss, mac).value.state == Connecting
    requires inbound.code == EapResponse
    ensures var u := Hear(env, cfg, v, Feed(mac, EapFromSupplicant(inbound)));
            var d := Exchange(env, CancelledTx(v.w, mac), mac, RequestFor(env, v.w, mac, inbound.packet));
            var t := Turn(env, cfg, Started(v.w, v.ss, mac, EapFromSupplicant(inbound)));
            && (d.r.Err? ==> u.r == Err(d.r.error))
            && (d.r.Ok? ==>
                  && u.r.Ok? && Lookup(u.ss, mac).Some? && Lookup(u.ss, mac).value.state == AuthServer
                  && FedBack(t) == [Feed(mac, d.r.value.value)]
                  && StateOf(u.w.sessions, mac) == StateOf(d.w.sessions, mac))
  {
    var s := Lookup(v.ss, mac).value;
    ResponseAsks(s, inbound, cfg);
    HandleFacts(cfg, v.ss, mac, EapFromSupplicant(inbound), mac);
    AskBatch(env, v.w, cfg.hostMode, mac, inbound.packet);
  }

  lemma ChallengeMoves(s: Session, ev: Event, cfg: PaeConfig)
    requires s.state == AuthServer && ev.AccessChallenge?
    ensures Step(s, ev, cfg).s.state == Authenticating
  {
  }

  lemma ChallengeHeard(env: Env, cfg: PaeConfig, v: Service, mac: Mac, inbound: InboundEap)
    requires Shape(cfg, v.ss) && Lookup(v.ss, mac).Some? && Lookup(v.ss, mac).value.state == Connecting
    requires inbound.code == EapResponse && Hear(env, cfg, v, Feed(mac, EapFromSupplicant(inbound))).r.Ok?
    requires var answer := AnswerTo(env, v.w, mac, inbound.packet); answer.Some? && answer.value.code == ChallengeCode
    ensures var once, answer := Hear(env, cfg, v, Feed(mac, EapFromSupplicant(inbound))), AnswerTo(env, v.w, mac, inbound.packet).value;
            var t := Turn(env, cfg, Started(v.w, v.ss, mac, EapFromSupplicant(inbound)));
            && Shape(cfg, once.ss) && Lookup(once.ss, mac).Some? && Lookup(once.ss, mac).value.state == AuthServer
            && StateOf(once.w.sessions, mac).radius.lastState == FindAttr(answer.attrs, STATE)
            && FedBack(t) == [Feed(mac, AccessChallenge(Reassemble(answer.attrs)))]
  {
    ResponseServed(env, cfg, v, mac, inbound);
    ExchangeKeeps(env, CancelledTx(v.w, mac), mac, RequestFor(env, v.w, mac, inbound.packet));
    PortStepShape(cfg, v.ss, Feed(mac, EapFromSupplicant(inbound)));
  }

  /** An Access-Challenge is taken in: the session waits for the supplicant, and the State is the Challenge's. */
  lemma ChallengeServed(env: Env, cfg: PaeConfig, v: Service, mac: Mac, inbound: InboundEap)
    requires Shape(cfg, v.ss) && Lookup(v.ss, mac).Some? && Lookup(v.ss, mac).value.state == Connecting
    requires inbound.code == EapResponse && ServeInput(env, cfg, v, Feed(mac, EapFromSupplicant(inbound))).r.Ok?
    requires var answer := AnswerTo(env, v.w, mac, inbound.packet); answer.Some? && answer.value.code == ChallengeCode
    ensures var c := ServeInput(env, cfg, v, Feed(mac, EapFromSupplicant(inbound)));
            && Shape(cfg, c.ss) && Lookup(c.ss, mac).Some? && Lookup(c.ss, mac).value.state == Authenticating
            && StateOf(c.w.sessions, mac).radius.lastState
               == FindAttr(AnswerTo(env, v.w, mac, inbound.packet).value.attrs, STATE)
  {
    var once := Hear(env, cfg, v, Feed(mac, EapFromSupplicant(inbound)));
    var challenge := AccessChallenge(Reassemble(AnswerTo(env, v.w, mac, inbound.packet).value.attrs));
    LoopIsHear(env, cfg, v, mac, EapFromSupplicant(inbound));
    ChallengeHeard(env, cfg, v, mac, inbound);
    ChallengeMoves(Lookup(once.ss, mac).value, challenge, cfg);
    QuietHearKeeps(env, cfg, once, mac, challenge);
  }

  /**
   In the service itself, from the first Response on: it is answered by a Challenge, the
   supplicant falls silent, its timers run out, and it responds anew. The first request of
   that new conversation carries the State of the Challenge that was never answered.
   */
  lemma StaleStateEchoed(env: Env, cfg: PaeConfig, v: Service, mac: Mac, first: InboundEap, second: InboundEap)
    requires Shape(cfg, v.ss) && Lookup(v.ss, mac).Some? && Lookup(v.ss, mac).value.state == Connecting
    requires first.code == EapResponse && ServeInput(env, cfg, v, Feed(mac, EapFromSupplicant(first))).r.Ok?
    requires second.code == EapResponse
    requires var answer := AnswerTo(env, v.w, mac, first.packet); answer.Some? && answer.value.code == ChallengeCode
    ensures var u := Abandoned(env, cfg, ServeInput(env, cfg, v, Feed(mac, EapFromSupplicant(first))), mac);
            && Lookup(u.ss, mac).Some? && Lookup(u.ss, mac).value.state == Connecting
            && Step(Lookup(u.ss, mac).value, EapFromSupplicant(second), cfg).fx
               == [CancelTimer(TxPeriod), ToAuthServer(second.packet), ArmTimer(ServerTimeout)]
            && (RequestFor(env, u.w, mac, second.packet).r.Ok? ==>
                  FindAttr(RequestFor(env, u.w, mac, second.packet).r.value.attrs, STATE)
                  == FindAttr(AnswerTo(env, v.w, mac, first.packet).value.attrs, STATE))
  {
    var c := ServeInput(env, cfg, v, Feed(mac, EapFromSupplicant(first)));
    var u := Abandoned(env, cfg, c, mac);
    ChallengeServed(env, cfg, v, mac, first);
    AbandonedKeeps(env, cfg, c, mac);
    ResponseAsks(Lookup(u.ss, mac).value, second, cfg);
    if RequestFor(env, u.w, mac, second.packet).r.Ok? {
      RequestEchoes(env, u.w, mac, second.packet);
    }
  }

  /** A request that is not answered ends the service with a transport error, and tells no session that the server is gone. */
  lemma UnansweredStops(env: Env, cfg: PaeConfig, v: Service, mac: Mac, inbound: InboundEap)
    requires Shape(cfg, v.ss) && Lookup(v.ss, mac).Some? && Lookup(v.ss, mac).value.state == Connecting
    requires inbound.code == EapResponse && RequestFor(env, v.w, mac, inbound.packet).r.Ok?
    requires AnswerTo(env, v.w, mac, inbound.packet).None?
    ensures var u := ServeInput(env, cfg, v, Feed(mac, EapFromSupplicant(inbound)));
            u.r == Err(TransportFailed) && Waiting(u.ss, mac)
  {
    LoopIsHear(env, cfg, v, mac, EapFromSupplicant(inbound));
    ResponseServed(env, cfg, v, mac, inbound);
    ResponseAsks(Lookup(v.ss, mac).value, inbound, cfg);
    HandleFacts(cfg, v.ss, mac, EapFromSupplicant(inbound), mac);
  }
}
