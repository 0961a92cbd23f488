/**
 The orchestrator: it performs the port's effects against the supplicant link, the
 RADIUS server, the enforcer and the timer scheduler, and feeds each RADIUS reply
 back into the port. What the outside world answers is an arbitrary function of how
 many boundary calls were made before.
 */
module Dispatch {
  import opened Wrappers
  import opened Octets
  import opened Pacp
  import opened PaeTypes
  import opened PaeSession
  import opened PaePort
  import opened Radius
  import opened Correlation
  import opened Enforcer

  /** A stable accounting session id. */
  datatype AcctSessionId = AcctSessionId(port: string, mac: Mac, serial: nat)

  /**
   Everything the orchestrator cannot see, and the configuration it is given. The enforcer
   is shared: `others` are the calls that other ports' workers made on it since.
   */
  datatype Env = Env(
    codec: Codec,
    secret: Bytes,
    timers: Timers,
    sendOk: (nat, Mac, Bytes) -> bool,
    answer: (nat, Packet) -> Option<Packet>,
    acctOk: (nat, Mac, AcctTrigger, AcctSessionId, Byte) -> bool,
    nonce: nat -> Digest,
    faults: nat -> Faults,
    others: nat -> seq<EnforcerCall>)

  datatype SessionState = SessionState(radius: Rs, timeout: Option<U32>, acctId: Option<AcctSessionId>)

  const FRESH_STATE := SessionState(FRESH, None, None)

  type Schedule = map<(Mac, TimerKind), U32>

  /** The orchestrator's own state, the enforcer's, the armed timers and the count of boundary calls. */
  datatype World = World(
    port: string,
    ctx: RequestContext,
    sessions: map<Mac, SessionState>,
    acctCounter: nat,
    es: Es,
    armed: Schedule,
    calls: nat)

  function StateOf(sessions: map<Mac, SessionState>, mac: Mac): SessionState {
    if mac in sessions then sessions[mac] else FRESH_STATE
  }

  function Duration(timers: Timers, kind: TimerKind): Option<U32> {
    match kind
    case TxPeriod => Some(timers.txPeriod)
    case HeldPeriod => Some(timers.heldPeriod)
    case Reauth => Some(timers.reauthPeriod)
    case ServerTimeout => Some(timers.serverTimeout)
    case SuppTimeout => Some(timers.suppTimeout)
    case SessionTimeout => None
  }

  /** Configured kinds from the configuration; SessionTimeout only from the session's own value. */
  function TimerDuration(sessions: map<Mac, SessionState>, timers: Timers, mac: Mac, kind: TimerKind): Option<U32> {
    if Duration(timers, kind).Some? then Duration(timers, kind) else StateOf(sessions, mac).timeout
  }

  function CancelAllFor(armed: Schedule, mac: Mac): Schedule {
    map k | k in armed && k.0 != mac :: armed[k]
  }

  // ---- one effect ----

  datatype Dispatched = Dispatched(w: World, r: Result<Option<Event>, AuthdError>)

  function SetRadius(w: World, mac: Mac, rs: Rs): World {
    w.(sessions := w.sessions[mac := StateOf(w.sessions, mac).(radius := rs)])
  }

  /** Send the request that was built, take the reply and turn it into an event. */
  function Exchange(env: Env, w: World, mac: Mac, b: Build): Dispatched {
    var built := SetRadius(w, mac, b.rs);
    if b.r.Err? then Dispatched(built, Err(b.r.error))
    else
      var sent := built.(calls := built.calls + 1);
      match env.answer(w.calls, b.r.value)
      case None => Dispatched(sent, Err(TransportFailed))
      case Some(reply) =>
        var t := TakeReply(env.codec, b.rs, reply, env.secret);
        Dispatched(SetRadius(sent, mac, t.rs), if t.r.Ok? then Ok(Some(t.r.value)) else Err(t.r.error))
  }

  function ContextFor(w: World, mac: Mac): RequestContext {
    w.ctx.(callingStation := mac)
  }

  function SendEap(env: Env, w: World, mac: Mac, eap: Bytes): Dispatched {
    Dispatched(w.(calls := w.calls + 1), if env.sendOk(w.calls, mac, eap) then Ok(None) else Err(TransportFailed))
  }

  /** The session timeout is kept only for a posture directed at a MAC. */
  function KeepTimeout(w: World, mac: Option<Mac>, p: PortAuthorization): World {
    if p.Authorized? && mac.Some?
    then w.(sessions := w.sessions[mac.value := StateOf(w.sessions, mac.value).(timeout := p.granted.sessionTimeout)])
    else w
  }

  function Enforce(env: Env, w: World, p: PortAuthorization): Dispatched {
    var out := ApplyPosture(EnforcerRun(w.es, env.others(w.calls)), w.port, p, env.faults(w.calls));
    Dispatched(w.(es := out.es, calls := w.calls + 1), if out.r.Ok? then Ok(None) else Err(EnforceFailed))
  }

  function Arm(env: Env, w: World, mac: Mac, kind: TimerKind): World {
    var d := TimerDuration(w.sessions, env.timers, mac, kind);
    if d.Some? then w.(armed := w.armed[(mac, kind) := d.value]) else w
  }

  function NextSerial(w: World): nat {
    (w.acctCounter + 1) % 0x1_0000_0000_0000_0000
  }

  /** The accounting session id of a MAC: the one it has, or a new one. */
  function AcctIdFor(w: World, mac: Mac): AcctSessionId {
    var s := StateOf(w.sessions, mac);
    if s.acctId.Some? then s.acctId.value else AcctSessionId(w.port, mac, NextSerial(w))
  }

  function SendAccounting(env: Env, w: World, mac: Mac, trigger: AcctTrigger): Dispatched {
    var s, id := StateOf(w.sessions, mac), AcctIdFor(w, mac);
    var rs := s.radius.(nextAcctId := WrappingNext(s.radius.nextAcctId));
    Dispatched(w.(sessions := w.sessions[mac := SessionState(rs, s.timeout, Some(id))],
                  acctCounter := if s.acctId.Some? then w.acctCounter else NextSerial(w),
                  calls := w.calls + 1),
               if env.acctOk(w.calls, mac, trigger, id, s.radius.nextAcctId) then Ok(None) else Err(TransportFailed))
  }

  function DispatchOne(env: Env, w: World, de: Directed): Dispatched {
    match de.effect
    case TxEapToSupplicant(eap) => if de.mac.Some? then SendEap(env, w, de.mac.value, eap) else Dispatched(w, Ok(None))
    case ToAuthServer(eap) =>
      if de.mac.None? then Dispatched(w, Ok(None))
      else
        var mac := de.mac.value;
        Exchange(env, w, mac, BuildEap(env.codec, StateOf(w.sessions, mac).radius, ContextFor(w, mac), EapIdentity(eap), eap,
                                       env.nonce(w.calls), env.secret))
    case StartMab(mac) =>
      Exchange(env, w, mac, BuildMab(env.codec, StateOf(w.sessions, mac).radius, ContextFor(w, mac),
                                     env.nonce(w.calls), env.secret))
    case SetAuthorization(p) => Enforce(env, KeepTimeout(w, de.mac, p), p)
    case ArmTimer(kind) => Dispatched(if de.mac.Some? then Arm(env, w, de.mac.value, kind) else w, Ok(None))
    case CancelTimer(kind) =>
      Dispatched(if de.mac.Some? then w.(armed := w.armed - {(de.mac.value, kind)}) else w, Ok(None))
    case CancelAllTimers =>
      Dispatched(if de.mac.Some? then w.(armed := CancelAllFor(w.armed, de.mac.value)) else w, Ok(None))
    case Accounting(t) => if de.mac.Some? then SendAccounting(env, w, de.mac.value, t) else Dispatched(w, Ok(None))
  }

  // ---- a batch, and the feedback loop ----

  datatype Batch = Batch(w: World, follows: seq<(Mac, Event)>, r: Result<(), AuthdError>)

  /** One effect of a batch, with its follow-up addressed to the session that caused it. */
  function BatchOne(env: Env, w: World, m: Mac, de: Directed): Batch {
    var d := DispatchOne(env, w, de);
    if d.r.Err? then Batch(d.w, [], Err(d.r.error))
    else Batch(d.w, if d.r.value.Some? then [(if de.mac.Some? then de.mac.value else m, d.r.value.value)] else [], Ok(()))
  }

  /** Dispatch in order, stopping at the first error; collect the follow-up events. */
  function DispatchAll(env: Env, w: World, m: Mac, out: seq<Directed>): Batch
    decreases |out|
  {
    if out == [] then Batch(w, [], Ok(()))
    else
      var d := BatchOne(env, w, m, out[0]);
      if d.r.Err? then d
      else
        var rest := DispatchAll(env, d.w, m, out[1..]);
        Batch(rest.w, d.follows + rest.follows, rest.r)
  }

  lemma {:induction false} DispatchAppend(env: Env, w: World, m: Mac, a: seq<Directed>, b: seq<Directed>)
    ensures var first := DispatchAll(env, w, m, a);
            DispatchAll(env, w, m, a + b) ==
            if first.r.Err? then first
            else
              var rest := DispatchAll(env, first.w, m, b);
              Batch(rest.w, first.follows + rest.follows, rest.r)
    decreases |a|
  {
    if a == [] {
      assert a + b == b;
      var rest := DispatchAll(env, w, m, b);
      assert [] + rest.follows == rest.follows;
    } else {
      assert (a + b)[1..] == a[1..] + b;
      var d := BatchOne(env, w, m, a[0]);
      if d.r.Ok? {
        DispatchAppend(env, d.w, m, a[1..], b);
        var tail := DispatchAll(env, d.w, m, a[1..]);
        var rest := DispatchAll(env, tail.w, m, b);
        assert d.follows + tail.follows + rest.follows == d.follows + (tail.follows + rest.follows);
      }
    }
  }

  /** After the effect at `i` and what it fed back, the rest of the batch. */
  lemma DispatchNext(env: Env, w: World, m: Mac, out: seq<Directed>, i: nat, follows: seq<(Mac, Event)>)
    requires i < |out|
    ensures var d, all := BatchOne(env, w, m, out[i]), DispatchAll(env, w, m, out[i..]);
            var rest := DispatchAll(env, d.w, m, out[i + 1..]);
            if d.r.Err? then all == d && follows + d.follows == follows
            else all.w == rest.w && all.r == rest.r && follows + all.follows == follows + d.follows + rest.follows
  {
    assert out[i..][1..] == out[i + 1..];
    var d := BatchOne(env, w, m, out[i]);
    var rest := DispatchAll(env, d.w, m, out[i + 1..]);
    assert follows + (d.follows + rest.follows) == follows + d.follows + rest.follows;
  }

  const MAX_TURNS := 64

  datatype Loop = Loop(w: World, ss: seq<Session>, queue: seq<(Mac, Event)>, steps: nat, r: Result<(), AuthdError>)

  predicate Finished(l: Loop) {
    l.queue == [] || l.r.Err? || l.steps > MAX_TURNS
  }

  /** One turn of the loop: count it, stop at the guard, otherwise feed the event and dispatch its effects. */
  function Turn(env: Env, cfg: PaeConfig, l: Loop): Loop
    requires !Finished(l)
  {
    var steps := l.steps + 1;
    if steps > MAX_TURNS then Loop(l.w, l.ss, l.queue[1..], steps, l.r)
    else
      var p := Handle(cfg, l.ss, l.queue[0].0, l.queue[0].1);
      var b := DispatchAll(env, l.w, l.queue[0].0, p.out);
      Loop(b.w, p.sessions, l.queue[1..] + b.follows, steps, b.r)
  }

  function Drain(env: Env, cfg: PaeConfig, l: Loop): Loop
    decreases MAX_TURNS + 1 - l.steps
  {
    if Finished(l) then l else Drain(env, cfg, Turn(env, cfg, l))
  }

  function Started(w: World, ss: seq<Session>, mac: Mac, ev: Event): Loop {
    Loop(w, ss, [(mac, ev)], 0, Ok(()))
  }

  // ---- the orchestrator object ----

  /** The boundary implementations: answers of the outside, the scheduler and the enforcer. */
  class Deps {
    const env: Env
    const enforcer: SonicEnforcer
    var armed: Schedule
    var calls: nat

    constructor (env: Env, enforcer: SonicEnforcer)
      ensures this.env == env && this.enforcer == enforcer && armed == map[] && calls == 0
    {
      this.env := env;
      this.enforcer := enforcer;
      armed, calls := map[], 0;
    }
  }

  class Orchestrator {
    const port: string
    const ctx: RequestContext
    var sessions: map<Mac, SessionState>
    var acctCounter: nat

    constructor (port: string, ctx: RequestContext)
      ensures this.port == port && this.ctx == ctx && sessions == map[] && acctCounter == 0
    {
      this.port := port;
      this.ctx := ctx;
      sessions, acctCounter := map[], 0;
    }

    function View(deps: Deps): World
      reads this, deps, deps.enforcer, deps.enforcer.conn
    {
      World(port, ctx, sessions, acctCounter, deps.enforcer.View(), deps.armed, deps.calls)
    }

    method EnforceNow(p: PortAuthorization, deps: Deps) returns (r: Result<Option<Event>, AuthdError>)
      modifies deps, deps.enforcer, deps.enforcer.conn
      ensures Dispatched(View(deps), r) == Enforce(deps.env, old(View(deps)), p)
    {
      deps.enforcer.Meanwhile(deps.env.others(deps.calls));
      ghost var out := ApplyPosture(deps.enforcer.View(), port, p, deps.env.faults(deps.calls));
      var applied := deps.enforcer.Apply(port, p, deps.env.faults(deps.calls));
      assert deps.enforcer.View() == out.es && applied == out.r;
      deps.calls := deps.calls + 1;
      r := if applied.Ok? then Ok(None) else Err(EnforceFailed);
    }

    method SetPosture(mac: Option<Mac>, p: PortAuthorization, deps: Deps) returns (r: Result<Option<Event>, AuthdError>)
      modifies this, deps, deps.enforcer, deps.enforcer.conn
      ensures Dispatched(View(deps), r) == Enforce(deps.env, KeepTimeout(old(View(deps)), mac, p), p)
    {
      if p.Authorized? && mac.Some? {
        var s := StateOf(sessions, mac.value);
        sessions := sessions[mac.value := s.(timeout := p.granted.sessionTimeout)];
      }
      r := EnforceNow(p, deps);
    }

    /** Send, await the reply, and write the correlation state back. */
    method RoundTrip(mac: Mac, radius: RadiusSession, request: Result<Packet, AuthdError>, deps: Deps)
      returns (r: Result<Option<Event>, AuthdError>)
      modifies this, deps, radius
      ensures Dispatched(View(deps), r) == Exchange(deps.env, old(View(deps)), mac, Build(old(radius.View()), request))
    {
      sessions := sessions[mac := StateOf(sessions, mac).(radius := radius.View())];
      if request.Err? {
        return Err(request.error);
      }
      var reply := deps.env.answer(deps.calls, request.value);
      deps.calls := deps.calls + 1;
      if reply.None? {
        return Err(TransportFailed);
      }
      var event := radius.HandleReply(deps.env.codec, reply.value, deps.env.secret);
      sessions := sessions[mac := StateOf(sessions, mac).(radius := radius.View())];
      r := if event.Ok? then Ok(Some(event.value)) else Err(event.error);
    }

    method RelayEap(mac: Mac, eap: Bytes, deps: Deps) returns (r: Result<Option<Event>, AuthdError>)
      modifies this, deps
      ensures Dispatched(View(deps), r) == DispatchOne(deps.env, old(View(deps)), Directed(Some(mac), ToAuthServer(eap)))
    {
      var radius := new RadiusSession.Load(StateOf(sessions, mac).radius);
      var request := radius.BuildEapRequest(deps.env.codec, ctx.(callingStation := mac), EapIdentity(eap), eap,
                                            deps.env.nonce(deps.calls), deps.env.secret);
      r := RoundTrip(mac, radius, request, deps);
    }

    method TryMab(mac: Mac, deps: Deps) returns (r: Result<Option<Event>, AuthdError>)
      modifies this, deps
      ensures forall de: Directed :: de.effect == StartMab(mac) ==>
                Dispatched(View(deps), r) == DispatchOne(deps.env, old(View(deps)), de)
    {
      var radius := new RadiusSession.Load(StateOf(sessions, mac).radius);
      var request := radius.BuildMabRequest(deps.env.codec, ctx.(callingStation := mac),
                                            deps.env.nonce(deps.calls), deps.env.secret);
      r := RoundTrip(mac, radius, request, deps);
    }

    method Account(mac: Mac, trigger: AcctTrigger, deps: Deps) returns (r: Result<Option<Event>, AuthdError>)
      modifies this, deps
      ensures Dispatched(View(deps), r) == SendAccounting(deps.env, old(View(deps)), mac, trigger)
    {
      var s := StateOf(sessions, mac);
      if s.acctId.None? {
        acctCounter := (acctCounter + 1) % 0x1_0000_0000_0000_0000;
        s := s.(acctId := Some(AcctSessionId(port, mac, acctCounter)));
      }
      var radius := new RadiusSession.Load(s.radius);
      var id := radius.NextAccountingIdentifier();
      sessions := sessions[mac := s.(radius := radius.View())];
      r := if deps.env.acctOk(deps.calls, mac, trigger, s.acctId.value, id) then Ok(None) else Err(TransportFailed);
      deps.calls := deps.calls + 1;
    }

    method Perform(de: Directed, deps: Deps) returns (r: Result<Option<Event>, AuthdError>)
      modifies this, deps, deps.enforcer, deps.enforcer.conn
      ensures Dispatched(View(deps), r) == DispatchOne(deps.env, old(View(deps)), de)
    {
      r := Ok(None);
      match de.effect {
        case TxEapToSupplicant(eap) =>
          if de.mac.Some? {
            r := if deps.env.sendOk(deps.calls, de.mac.value, eap) then Ok(None) else Err(TransportFailed);
            deps.calls := deps.calls + 1;
          }
        case ToAuthServer(eap) =>
          if de.mac.Some? {
            r := RelayEap(de.mac.value, eap, deps);
          }
        case StartMab(mac) =>
          r := TryMab(mac, deps);
        case SetAuthorization(p) =>
          r := SetPosture(de.mac, p, deps);
        case ArmTimer(kind) =>
          if de.mac.Some? {
            var d := TimerDuration(sessions, deps.env.timers, de.mac.value, kind);
            if d.Some? {
              deps.armed := deps.armed[(de.mac.value, kind) := d.value];
            }
          }
        case CancelTimer(kind) =>
          if de.mac.Some? {
            deps.armed := deps.armed - {(de.mac.value, kind)};
          }
        case CancelAllTimers =>
          if de.mac.Some? {
            deps.armed := CancelAllFor(deps.armed, de.mac.value);
          }
        case Accounting(t) =>
          if de.mac.Some? {
            r := Account(de.mac.value, t, deps);
          }
      }
    }

    method PerformOne(m: Mac, de: Directed, deps: Deps) returns (follows: seq<(Mac, Event)>, r: Result<(), AuthdError>)
      modifies this, deps, deps.enforcer, deps.enforcer.conn
      ensures Batch(View(deps), follows, r) == BatchOne(deps.env, old(View(deps)), m, de)
    {
      var d := Perform(de, deps);
      if d.Err? {
        return [], Err(d.error);
      }
      follows := if d.value.Some? then [(if de.mac.Some? then de.mac.value else m, d.value.value)] else [];
      r := Ok(());
    }

    /** Perform a batch in order; the first error stops it. */
    method PerformAll(m: Mac, out: seq<Directed>, deps: Deps) returns (follows: seq<(Mac, Event)>, r: Result<(), AuthdError>)
      modifies this, deps, deps.enforcer, deps.enforcer.conn
      ensures Batch(View(deps), follows, r) == DispatchAll(deps.env, old(View(deps)), m, out)
    {
      follows := [];
      r := Ok(());
      ghost var goal := DispatchAll(deps.env, View(deps), m, out);
      for i := 0 to |out|
        invariant r == Ok(())
        invariant var rest := DispatchAll(deps.env, View(deps), m, out[i..]);
                  goal == Batch(rest.w, follows + rest.follows, rest.r)
      {
        DispatchNext(deps.env, View(deps), m, out, i, follows);
        var more;
        more, r := PerformOne(m, out[i], deps);
        follows := follows + more;
        if r.Err? {
          return;
        }
      }
      assert out[|out|..] == [] && follows + [] == follows;
    }

    /** One event: the port's effects, performed. */
    method Feed(pae: PortPae, m: Mac, e: Event, deps: Deps) returns (follows: seq<(Mac, Event)>, r: Result<(), AuthdError>)
      modifies this, pae, deps, deps.enforcer, deps.enforcer.conn
      ensures var p := Handle(pae.cfg, old(pae.sessions), m, e);
              && pae.sessions == p.sessions
              && Batch(View(deps), follows, r) == DispatchAll(deps.env, old(View(deps)), m, p.out)
    {
      var out := pae.HandleEvent(m, e);
      follows, r := PerformAll(m, out, deps);
    }

    /** Feed an event to the port and perform the effects, looping over RADIUS replies. */
    method HandleEvent(pae: PortPae, mac: Mac, ev: Event, deps: Deps) returns (r: Result<(), AuthdError>)
      modifies this, pae, deps, deps.enforcer, deps.enforcer.conn
      ensures var l := Drain(deps.env, pae.cfg, Started(old(View(deps)), old(pae.sessions), mac, ev));
              View(deps) == l.w && pae.sessions == l.ss && r == l.r
    {
      var queue := [(mac, ev)];
      var steps := 0;
      r := Ok(());
      ghost var goal := Drain(deps.env, pae.cfg, Started(View(deps), pae.sessions, mac, ev));
      ghost var l := Started(View(deps), pae.sessions, mac, ev);
      while queue != []
        invariant steps <= MAX_TURNS && r.Ok?
        invariant l == Loop(View(deps), pae.sessions, queue, steps, r)
        invariant Drain(deps.env, pae.cfg, l) == goal
        decreases MAX_TURNS - steps
      {
        var (m, e) := queue[0];
        queue := queue[1..];
        steps := steps + 1;
        l := Turn(deps.env, pae.cfg, l);
        if steps > MAX_TURNS {
          break;
        }
        var follows;
        follows, r := Feed(pae, m, e, deps);
        queue := queue + follows;
        if r.Err? {
          return;
        }
      }
    }

    /** Port-level batches: enabling the port, losing its link. Follow-ups are ignored. */
    method ApplyEffects(m: Mac, out: seq<Directed>, deps: Deps) returns (r: Result<(), AuthdError>)
      modifies this, deps, deps.enforcer, deps.enforcer.conn
      ensures var b := DispatchAll(deps.env, old(View(deps)), m, out); View(deps) == b.w && r == b.r
    {
      var follows;
      follows, r := PerformAll(m, out, deps);
    }
  }
}
