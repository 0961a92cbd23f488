/**
 From bring-up to the database and the schedule: the orchestrator, the port and the
 enforcer together, over every run whose calls all succeed. The service loop ends at the
 first error.
 */
module EndToEnd {
  import opened Wrappers
  import opened Octets
  import opened PaeTypes
  import opened PaeSession
  import opened PaeRuns
  import opened PaeTheorems
  import opened PaePort
  import opened PortTheorems
  import opened Radius
  import opened Correlation
  import opened Schema
  import opened SchemaTheorems
  import opened Enforcer
  import opened Recovery
  import opened Dispatch
  import opened DispatchTheorems
  import opened Worker
  import opened Serving

  // ---- Filter-Ids ----

  predicate PermittedFilter(a: Authorization) {
    a.filterId.Some? ==> !Reserved(a.filterId.value)
  }

  /** Authorizations that enter through an event do not name deny tables. */
  predicate Permitted(ev: Event) {
    match ev
    case AccessAccept(a, _) => PermittedFilter(a)
    case CoaAuthorize(a) => PermittedFilter(a)
    case _ => true
  }

  /** Nor do those in the server's replies. */
  ghost predicate TrustedFilters(env: Env) {
    forall n, request :: env.answer(n, request).Some? ==>
      var parsed := ParseReply(env.codec, env.answer(n, request).value);
      parsed.Ok? ==> Permitted(parsed.value)
  }

  predicate Fine(fx: seq<Effect>) {
    forall i :: 0 <= i < |fx| && fx[i].SetAuthorization? ==> FilterOk(fx[i].posture)
  }

  predicate FineOut(out: seq<Directed>) {
    forall i :: 0 <= i < |out| && out[i].effect.SetAuthorization? ==> FilterOk(out[i].effect.posture)
  }

  lemma FineAppend(a: seq<Effect>, b: seq<Effect>)
    requires Fine(a) && Fine(b)
    ensures Fine(a + b)
  {
  }

  lemma JustifiedFine(granted: Option<Authorization>, to: State, fx: seq<Effect>)
    requires AllJustified(granted, to, fx) && (granted.Some? ==> PermittedFilter(granted.value))
    ensures Fine(fx)
  {
  }

  /** Filter-Ids reach the enforcer only from the events that carry them. */
  lemma StepFine(s: Session, ev: Event, cfg: PaeConfig)
    requires Permitted(ev)
    ensures Fine(Step(s, ev, cfg).fx)
  {
    StepJustified(s, ev, cfg);
    JustifiedFine(Granted(s, ev), Step(s, ev, cfg).s.state, Step(s, ev, cfg).fx);
  }

  lemma HandleFine(cfg: PaeConfig, ss: seq<Session>, mac: Mac, ev: Event)
    requires Permitted(ev)
    ensures FineOut(Handle(cfg, ss, mac, ev).out)
  {
    match Lookup(ss, mac) {
      case Some(s) =>
        StepFine(s, ev, cfg);
        DecorateAt(cfg.hostMode, mac, Step(s, ev, cfg).fx);
      case None =>
        var o := Step(NewSession(mac), Enable, cfg);
        StepFine(NewSession(mac), Enable, cfg);
        StepFine(o.s, ev, cfg);
        FineAppend(o.fx, Step(o.s, ev, cfg).fx);
        DecorateAt(cfg.hostMode, mac, Admit(cfg, mac, ev).fx);
    }
  }

  lemma {:induction false} LinkDownFine(cfg: PaeConfig, ss: seq<Session>)
    ensures FineOut(LinkDownEach(cfg, ss).out)
  {
    if ss == [] {
    } else {
      LinkDownFine(cfg, ss[1..]);
      StepFine(ss[0], LinkDown, cfg);
      DirectAllAt(ss[0].mac, Step(ss[0], LinkDown, cfg).fx);
    }
  }

  lemma {:induction false} FollowsPermitted(env: Env, w: World, m: Mac, out: seq<Directed>)
    requires TrustedFilters(env)
    ensures forall i :: 0 <= i < |DispatchAll(env, w, m, out).follows| ==> Permitted(DispatchAll(env, w, m, out).follows[i].1)
    decreases |out|
  {
    if out == [] {
    } else {
      if Asks(out[0]) {
        var mac, b := RequestIsExchange(env, w, out[0]);
        ExchangeFacts(env, w, mac, b, m);
      }
      FollowsPermitted(env, BatchOne(env, w, m, out[0]).w, m, out[1..]);
    }
  }

  // ---- the schedule follows what was armed ----

  /** The schedule holds for `mac` the timers left armed; only SessionTimeout may lack a duration. */
  predicate Scheduled(w: World, mac: Mac, armed: set<TimerKind>) {
    && (forall k :: (mac, k) in w.armed ==> k in armed)
    && (forall k :: k in armed && k != SessionTimeout ==> (mac, k) in w.armed)
  }

  predicate TouchesTimers(e: Effect) {
    e.ArmTimer? || e.CancelTimer? || e.CancelAllTimers?
  }

  lemma TimerFollows(env: Env, w: World, shared: bool, mac: Mac, sh: Shadow, m: Mac, de: Directed)
    requires Scheduled(w, mac, sh.armed) && TouchesTimers(de.effect)
    ensures Scheduled(BatchOne(env, w, m, de).w, mac, WatchOne(sh, shared, mac, de).armed)
  {
  }

  lemma OthersLeaveTimers(env: Env, w: World, shared: bool, mac: Mac, sh: Shadow, m: Mac, de: Directed)
    requires !TouchesTimers(de.effect)
    ensures BatchOne(env, w, m, de).w.armed == w.armed && WatchOne(sh, shared, mac, de).armed == sh.armed
  {
    if Asks(de) {
      RequestFrame(env, w, m, de, mac);
    }
  }

  lemma {:induction false} BatchScheduled(env: Env, w: World, shared: bool, mac: Mac, sh: Shadow, m: Mac, out: seq<Directed>)
    requires Scheduled(w, mac, sh.armed) && DispatchAll(env, w, m, out).r.Ok?
    ensures Scheduled(DispatchAll(env, w, m, out).w, mac, Watch(sh, shared, mac, out).armed)
    decreases |out|
  {
    if out == [] {
    } else {
      if TouchesTimers(out[0].effect) {
        TimerFollows(env, w, shared, mac, sh, m, out[0]);
      } else {
        OthersLeaveTimers(env, w, shared, mac, sh, m, out[0]);
      }
      BatchScheduled(env, BatchOne(env, w, m, out[0]).w, shared, mac, WatchOne(sh, shared, mac, out[0]), m, out[1..]);
    }
  }

  /** What is left behind for `x` once the input itself has been delivered. */
  function Delivered(sh: Shadow, x: Mac, input: PortInput): Shadow {
    if input.Feed? && input.mac == x then Deliver(sh, input.ev) else sh
  }

  lemma ReachedScheduled(w: World, x: Mac, sh: Shadow, input: PortInput)
    requires Scheduled(w, x, sh.armed)
    ensures Scheduled(Reached(w, input), x, Delivered(sh, x, input).armed)
  {
  }

  lemma {:induction false} RunScheduled(env: Env, cfg: PaeConfig, shared: bool, w: World, heard: seq<PortInput>, x: Mac)
    requires w.armed == map[] && HearAll(env, cfg, w, heard).r.Ok?
    ensures Scheduled(HearAll(env, cfg, w, heard).w, x, PortShadow(cfg, shared, heard, x).armed)
    decreases |heard|
  {
    if heard == [] {
      var idle := Shadow(None, {}, []);
      BatchScheduled(env, Trapped(env, w), shared, x, idle, NO_MAC, [PORT_CLOSED]);
      WatchSingle(idle, shared, x, PORT_CLOSED);
    } else {
      var init, input := heard[..|heard| - 1], heard[|heard| - 1];
      RunScheduled(env, cfg, shared, w, init, x);
      HearIsPortRun(env, cfg, w, init);
      var v, sh := HearAll(env, cfg, w, init), PortShadow(cfg, shared, init, x);
      ReachedScheduled(v.w, x, sh, input);
      BatchScheduled(env, Reached(v.w, input), shared, x, Delivered(sh, x, input), Addressee(input),
                     PortStep(cfg, v.ss, input).out);
    }
  }

  /** The kinds scheduled for a MAC. */
  function ScheduledKinds(w: World, mac: Mac): set<TimerKind> {
    set key | key in w.armed && key.0 == mac :: key.1
  }

  lemma KindsBetween(w: World, x: Mac, armed: set<TimerKind>)
    requires Scheduled(w, x, armed)
    ensures armed - {SessionTimeout} <= ScheduledKinds(w, x) <= armed
  {
    assert forall k :: k in armed && k != SessionTimeout ==> (x, k) in w.armed && k in ScheduledKinds(w, x);
  }

  /**
   In every host mode: the schedule itself, not only the effects, serves every live
   session's state, and nothing is scheduled for a MAC without one.
   */
  lemma ScheduleServes(env: Env, cfg: PaeConfig, w: World, inputs: seq<PortInput>, x: Mac)
    requires w.armed == map[] && ServeAll(env, cfg, w, inputs).r.Ok?
    ensures var v := ServeAll(env, cfg, w, inputs);
            match Lookup(v.ss, x)
            case Some(s) => TimersServe(cfg, s.state, ScheduledKinds(v.w, x))
            case None => ScheduledKinds(v.w, x) == {}
  {
    var shared := cfg.hostMode == MultiHost;
    var v, heard := ServeAll(env, cfg, w, inputs), Heard(env, cfg, w, inputs);
    ServeIsHear(env, cfg, w, inputs);
    ServeIsPortRun(env, cfg, w, inputs);
    RunScheduled(env, cfg, shared, w, heard, x);
    PortInvariant(cfg, shared, heard, x);
    KindsBetween(v.w, x, PortShadow(cfg, shared, heard, x).armed);
  }

  // ---- the record and the database follow what was commanded ----

  /** The enforcer has recorded, and the database carries, the posture last commanded. */
  ghost predicate Enforced(es: Es, port: string, posture: PortAuthorization) {
    && PortName(port) && RecordsOk(es) && PortAgrees(es, port)
    && port in es.applied && es.applied[port] == FromAuthorization(posture)
  }

  /** Other ports' calls are well named; they may fail in any way. */
  predicate Neighbours(calls: seq<EnforcerCall>, port: string) {
    forall i :: 0 <= i < |calls| ==> Admissible(calls[i]) && calls[i].port != port
  }

  /** Whatever other ports do, this one's keys and record stay. */
  lemma {:induction false} NeighboursFrame(es: Es, calls: seq<EnforcerCall>, port: string)
    requires RecordsOk(es) && Neighbours(calls, port)
    ensures var after := EnforcerRun(es, calls);
            && RecordsOk(after) && SamePort(es.db, after.db, port)
            && (port in after.applied <==> port in es.applied) && Previous(after, port) == Previous(es, port)
    decreases |calls|
  {
    if calls == [] {
    } else {
      var next := PerformCall(es, calls[0]).es;
      CallKeepsRecords(es, calls[0]);
      CallFrame(es, calls[0], port);
      NeighboursFrame(next, calls[1..], port);
      SamePortTwice(es.db, next.db, EnforcerRun(next, calls[1..]).db, port);
    }
  }

  lemma OwnApply(es: Es, port: string, was: PortAuthorization, p: PortAuthorization, faults: Faults)
    requires Enforced(es, port, was) && FilterOk(p) && ApplyPosture(es, port, p, faults).r.Ok?
    ensures Enforced(ApplyPosture(es, port, p, faults).es, port, p)
  {
    var d := FromAuthorization(p);
    CheckedProgrammable(es, p, faults.check);
    ApplyWrites(es, port, p, faults);
    ApplyLands(es, port, p, faults);
    TransitionCorrect(es.db, port, es.applied[port], d, port);
    CallKeepsRecords(es, ApplyCall(port, p, faults));
  }

  /** Only a posture reaches the enforcer. */
  lemma OthersLeaveEnforcer(env: Env, w: World, m: Mac, de: Directed)
    ensures BatchOne(env, w, m, de).w.port == w.port
    ensures !de.effect.SetAuthorization? ==> BatchOne(env, w, m, de).w.es == w.es
    ensures de.effect.SetAuthorization? ==>
              var out := ApplyPosture(EnforcerRun(w.es, env.others(w.calls)), w.port, de.effect.posture, env.faults(w.calls));
              && BatchOne(env, w, m, de).w.es == out.es
              && BatchOne(env, w, m, de).r == if out.r.Ok? then Ok(()) else Err(EnforceFailed)
  {
    if Asks(de) {
      RequestFrame(env, w, m, de, NO_MAC);
    }
  }

  ghost predicate Neighbourly(env: Env, port: string) {
    forall n :: Neighbours(env.others(n), port)
  }

  function Next(was: PortAuthorization, de: Directed): PortAuthorization {
    if de.effect.SetAuthorization? then de.effect.posture else was
  }

  /** The last posture in a stretch of directed effects, wherever it is directed; `was` before any. */
  function LastPosture(was: PortAuthorization, out: seq<Directed>): PortAuthorization
    decreases |out|
  {
    if out == [] then was
    else LastPosture(Next(was, out[0]), out[1..])
  }

  lemma {:induction false} LastPostureAppend(was: PortAuthorization, a: seq<Directed>, b: seq<Directed>)
    ensures LastPosture(was, a + b) == LastPosture(LastPosture(was, a), b)
    decreases |a|
  {
    if a == [] {
      assert a + b == b;
    } else {
      assert (a + b)[1..] == a[1..] + b;
      LastPostureAppend(Next(was, a[0]), a[1..], b);
    }
  }

  /** The effects of a batch that were performed: all of them, or those before the first error. */
  function Performed(env: Env, w: World, m: Mac, out: seq<Directed>): seq<Directed>
    decreases |out|
  {
    if out == [] then []
    else
      var d := BatchOne(env, w, m, out[0]);
      if d.r.Err? then [] else [out[0]] + Performed(env, d.w, m, out[1..])
  }

  lemma {:induction false} AllPerformed(env: Env, w: World, m: Mac, out: seq<Directed>)
    requires DispatchAll(env, w, m, out).r.Ok?
    ensures Performed(env, w, m, out) == out
    decreases |out|
  {
    if out == [] {
    } else {
      AllPerformed(env, BatchOne(env, w, m, out[0]).w, m, out[1..]);
    }
  }

  /** Not stopped by the enforcer itself. */
  predicate NotRefused(r: Result<(), AuthdError>) {
    r.Ok? || r.error != EnforceFailed
  }

  lemma OneEnforced(env: Env, w: World, m: Mac, was: PortAuthorization, de: Directed)
    requires Enforced(w.es, w.port, was) && Neighbourly(env, w.port) && NotRefused(BatchOne(env, w, m, de).r)
    requires de.effect.SetAuthorization? ==> FilterOk(de.effect.posture)
    ensures var d := BatchOne(env, w, m, de);
            d.w.port == w.port && Enforced(d.w.es, w.port, if d.r.Ok? then Next(was, de) else was)
  {
    OthersLeaveEnforcer(env, w, m, de);
    if de.effect.SetAuthorization? {
      var es := EnforcerRun(w.es, env.others(w.calls));
      NeighboursFrame(w.es, env.others(w.calls), w.port);
      SameAgrees(w.es, es, w.port);
      OwnApply(es, w.port, was, de.effect.posture, env.faults(w.calls));
    }
  }

  lemma PerformedLast(env: Env, w: World, m: Mac, was: PortAuthorization, out: seq<Directed>)
    requires out != [] && BatchOne(env, w, m, out[0]).r.Ok?
    ensures LastPosture(was, Performed(env, w, m, out))
         == LastPosture(Next(was, out[0]), Performed(env, BatchOne(env, w, m, out[0]).w, m, out[1..]))
  {
    var rest := Performed(env, BatchOne(env, w, m, out[0]).w, m, out[1..]);
    assert ([out[0]] + rest)[1..] == rest;
  }

  lemma {:induction false} BatchEnforced(env: Env, w: World, m: Mac, was: PortAuthorization, out: seq<Directed>)
    requires Enforced(w.es, w.port, was) && Neighbourly(env, w.port) && FineOut(out)
    requires NotRefused(DispatchAll(env, w, m, out).r)
    ensures DispatchAll(env, w, m, out).w.port == w.port
    ensures Enforced(DispatchAll(env, w, m, out).w.es, w.port, LastPosture(was, Performed(env, w, m, out)))
    decreases |out|
  {
    if out == [] {
    } else {
      var d := BatchOne(env, w, m, out[0]);
      OneEnforced(env, w, m, was, out[0]);
      if d.r.Ok? {
        BatchEnforced(env, d.w, m, Next(was, out[0]), out[1..]);
        PerformedLast(env, w, m, was, out);
      }
    }
  }

  // ---- over every run ----

  /** A usable name, no binding of the port yet, and nothing recorded that could not be programmed. */
  ghost predicate CleanStart(w: World) {
    PortName(w.port) && RecordsOk(w.es) && Unbound(w.es.db, w.port)
  }

  lemma TrapRecords(es: Es, port: string, faults: Faults)
    requires InstallTrap(es, port, faults).r.Ok?
    ensures InstallTrap(es, port, faults).es == Es(Exec(es.db, PlanTrap() + PlanClose(port)), es.applied[port := CLOSED])
  {
  }

  lemma TrapEnforces(env: Env, w: World)
    requires CleanStart(w) && Neighbourly(env, w.port) && Trap(env, w).r.Ok?
    ensures Enforced(Trapped(env, w).es, w.port, Unauthorized)
  {
    var es := EnforcerRun(w.es, env.others(w.calls));
    NeighboursFrame(w.es, env.others(w.calls), w.port);
    SameVlanAgrees(w.es.db, es.db, w.port, None);
    TrapAgreesIff(es.db, w.port);
    CallKeepsRecords(es, TrapCall(w.port, env.faults(w.calls)));
    TrapRecords(es, w.port, env.faults(w.calls));
  }

  lemma ClosedLast(was: PortAuthorization)
    ensures LastPosture(was, [PORT_CLOSED]) == Unauthorized && FineOut([PORT_CLOSED])
  {
    assert [PORT_CLOSED][1..] == [];
  }

  lemma BringUpEnforces(env: Env, w: World)
    requires CleanStart(w) && Neighbourly(env, w.port) && BringUp(env, w).r.Ok?
    ensures BringUp(env, w).w.port == w.port && Enforced(BringUp(env, w).w.es, w.port, Unauthorized)
  {
    TrapEnforces(env, w);
    ClosedLast(Unauthorized);
    AllPerformed(env, Trapped(env, w), NO_MAC, [PORT_CLOSED]);
    BatchEnforced(env, Trapped(env, w), NO_MAC, Unauthorized, [PORT_CLOSED]);
  }

  lemma StepOutFine(cfg: PaeConfig, ss: seq<Session>, input: PortInput)
    requires input.Feed? ==> Permitted(input.ev)
    ensures FineOut(PortStep(cfg, ss, input).out)
  {
    match input {
      case Feed(mac, ev) => HandleFine(cfg, ss, mac, ev);
      case LinkLost => LinkDownFine(cfg, ss);
    }
  }

  predicate AllPermitted(inputs: seq<PortInput>) {
    forall i :: 0 <= i < |inputs| && inputs[i].Feed? ==> Permitted(inputs[i].ev)
  }

  /** Bring-up fails by the enforcer or not at all. */
  lemma BringUpRefused(env: Env, w: World)
    ensures NotRefused(BringUp(env, w).r) ==> BringUp(env, w).r.Ok?
  {
    OthersLeaveEnforcer(env, Trapped(env, w), NO_MAC, PORT_CLOSED);
    BatchOfOne(env, Trapped(env, w), NO_MAC, PORT_CLOSED);
  }

  /** Everything performed in a run, up to its first error if it has one. */
  function Done(env: Env, cfg: PaeConfig, w: World, heard: seq<PortInput>): seq<Directed>
    decreases |heard|
  {
    if heard == [] then []
    else
      var init, input := heard[..|heard| - 1], heard[|heard| - 1];
      var v := HearAll(env, cfg, w, init);
      if v.r.Err? then Done(env, cfg, w, init)
      else
        Done(env, cfg, w, init)
        + Performed(env, Reached(v.w, input), Addressee(input), PortStep(cfg, v.ss, input).out)
  }

  /** A run that succeeds performed all that the port directed. */
  lemma {:induction false} AllDone(env: Env, cfg: PaeConfig, w: World, heard: seq<PortInput>)
    requires HearAll(env, cfg, w, heard).r.Ok?
    ensures Done(env, cfg, w, heard) == PortLog(cfg, heard)
    decreases |heard|
  {
    if heard == [] {
    } else {
      var init, input := heard[..|heard| - 1], heard[|heard| - 1];
      var v := HearAll(env, cfg, w, init);
      AllDone(env, cfg, w, init);
      HearIsPortRun(env, cfg, w, init);
      AllPerformed(env, Reached(v.w, input), Addressee(input), PortStep(cfg, v.ss, input).out);
    }
  }

  lemma {:induction false} RunEnforces(env: Env, cfg: PaeConfig, w: World, heard: seq<PortInput>)
    requires CleanStart(w) && Neighbourly(env, w.port) && AllPermitted(heard)
    requires NotRefused(HearAll(env, cfg, w, heard).r)
    ensures HearAll(env, cfg, w, heard).w.port == w.port
    ensures Enforced(HearAll(env, cfg, w, heard).w.es, w.port, LastPosture(Unauthorized, Done(env, cfg, w, heard)))
    decreases |heard|
  {
    if heard == [] {
      BringUpRefused(env, w);
      BringUpEnforces(env, w);
    } else {
      var init, input := heard[..|heard| - 1], heard[|heard| - 1];
      var v := HearAll(env, cfg, w, init);
      RunEnforces(env, cfg, w, init);
      if v.r.Ok? {
        var u, out := Reached(v.w, input), PortStep(cfg, v.ss, input).out;
        var was := LastPosture(Unauthorized, Done(env, cfg, w, init));
        StepOutFine(cfg, v.ss, input);
        BatchEnforced(env, u, Addressee(input), was, out);
        LastPostureAppend(Unauthorized, Done(env, cfg, w, init), Performed(env, u, Addressee(input), out));
      }
    }
  }

  lemma TurnPermitted(env: Env, cfg: PaeConfig, v: Service, mac: Mac, ev: Event)
    requires TrustedFilters(env)
    ensures AllPermitted(FedBack(Turn(env, cfg, Started(Fired(v.w, mac, ev), v.ss, mac, ev))))
  {
    FollowsPermitted(env, Fired(v.w, mac, ev), mac, Handle(cfg, v.ss, mac, ev).out);
  }

  lemma {:induction false} HeardPermitted(env: Env, cfg: PaeConfig, w: World, inputs: seq<PortInput>)
    requires TrustedFilters(env) && AllPermitted(inputs)
    ensures AllPermitted(Heard(env, cfg, w, inputs))
    decreases |inputs|
  {
    if inputs == [] {
    } else {
      var n := |inputs| - 1;
      var v := ServeAll(env, cfg, w, inputs[..n]);
      HeardPermitted(env, cfg, w, inputs[..n]);
      match inputs[n] {
        case Feed(mac, ev) => TurnPermitted(env, cfg, v, mac, ev);
        case LinkLost =>
      }
    }
  }

  // ---- the database ----

  /** What the database theorems assume of the outside. */
  ghost predicate Trusted(env: Env, port: string, inputs: seq<PortInput>) {
    TrustedFilters(env) && AllPermitted(inputs) && Neighbourly(env, port)
  }

  /** The posture the port commanded last. */
  function Commanded(env: Env, cfg: PaeConfig, w: World, inputs: seq<PortInput>): PortAuthorization {
    LastPosture(Unauthorized, PortLog(cfg, Heard(env, cfg, w, inputs)))
  }

  /**
   After every served run that the enforcer did not itself stop, finished or ended by a failed
   send or a failed RADIUS exchange, and whatever calls other ports' workers make on the shared
   enforcer during it and `later`, failures included: the database carries exactly the image of
   the posture performed last, and the deny rule is absent if and only if that posture
   forwards. A port that was open when its service stopped stays open.
   */
  lemma DatabaseAtStop(env: Env, cfg: PaeConfig, w: World, inputs: seq<PortInput>, later: seq<EnforcerCall>)
    requires Trusted(env, w.port, inputs) && CleanStart(w) && Neighbours(later, w.port)
    requires NotRefused(ServeAll(env, cfg, w, inputs).r)
    ensures var last := LastPosture(Unauthorized, Done(env, cfg, w, Heard(env, cfg, w, inputs)));
            var db := EnforcerRun(ServeAll(env, cfg, w, inputs).w.es, later).db;
            && Agrees(db, w.port, FromAuthorization(last))
            && (DenyRuleKey(w.port) !in db <==> last != Unauthorized)
  {
    var es := ServeAll(env, cfg, w, inputs).w.es;
    ServeIsHear(env, cfg, w, inputs);
    HeardPermitted(env, cfg, w, inputs);
    RunEnforces(env, cfg, w, Heard(env, cfg, w, inputs));
    NeighboursFrame(es, later, w.port);
    SameAgrees(es, EnforcerRun(es, later), w.port);
  }

  /** After every served run that succeeds, the posture performed last is the one the port commanded last. */
  lemma DatabaseIsImage(env: Env, cfg: PaeConfig, w: World, inputs: seq<PortInput>, later: seq<EnforcerCall>)
    requires Trusted(env, w.port, inputs) && CleanStart(w) && Neighbours(later, w.port)
    requires ServeAll(env, cfg, w, inputs).r.Ok?
    ensures var last := Commanded(env, cfg, w, inputs);
            var db := EnforcerRun(ServeAll(env, cfg, w, inputs).w.es, later).db;
            && Agrees(db, w.port, FromAuthorization(last))
            && (DenyRuleKey(w.port) !in db <==> last != Unauthorized)
  {
    ServeIsHear(env, cfg, w, inputs);
    AllDone(env, cfg, w, Heard(env, cfg, w, inputs));
    DatabaseAtStop(env, cfg, w, inputs, later);
  }

  // ---- the posture last commanded, read off the port ----

  lemma {:induction false} WatchedPosture(sh: Shadow, x: Mac, was: PortAuthorization, out: seq<Directed>)
    requires sh.posture == Some(was)
    ensures Watch(sh, true, x, out).posture == Some(LastPosture(was, out))
    decreases |out|
  {
    if out == [] {
    } else {
      WatchedPosture(WatchOne(sh, true, x, out[0]), x, Next(was, out[0]), out[1..]);
    }
  }

  lemma PostureSnoc(cfg: PaeConfig, heard: seq<PortInput>, input: PortInput, x: Mac)
    requires PortShadow(cfg, true, heard, x).posture == Some(LastPosture(Unauthorized, PortLog(cfg, heard)))
    ensures PortShadow(cfg, true, heard + [input], x).posture == Some(LastPosture(Unauthorized, PortLog(cfg, heard + [input])))
  {
    var sh, out := PortShadow(cfg, true, heard, x), PortStep(cfg, PortRun(cfg, heard), input).out;
    assert (heard + [input])[..|heard|] == heard;
    RunSnoc(cfg, true, heard, input, x);
    WatchedPosture(Delivered(sh, x, input), x, LastPosture(Unauthorized, PortLog(cfg, heard)), out);
    LastPostureAppend(Unauthorized, PortLog(cfg, heard), out);
  }

  lemma {:induction false} ShadowPosture(cfg: PaeConfig, heard: seq<PortInput>, x: Mac)
    ensures PortShadow(cfg, true, heard, x).posture == Some(LastPosture(Unauthorized, PortLog(cfg, heard)))
    decreases |heard|
  {
    if heard == [] {
      WatchSingle(Shadow(None, {}, []), true, x, PORT_CLOSED);
    } else {
      var init, last := heard[..|heard| - 1], heard[|heard| - 1];
      assert heard == init + [last];
      ShadowPosture(cfg, init, x);
      PostureSnoc(cfg, init, last, x);
    }
  }

  predicate Holds(ss: seq<Session>) {
    exists i :: 0 <= i < |ss| && ss[i].authz.Some?
  }

  /** A sound session forwards exactly when it holds a grant, unless a fallback VLAN is configured. */
  lemma ForwardsWithGrant(cfg: PaeConfig, s: Session, m: Shadow)
    requires Sound(cfg, s, m) && s.state != New
    requires cfg.guestVlan.None? && cfg.authFailVlan.None? && cfg.criticalVlan.None?
    ensures m.posture != Some(Unauthorized) <==> s.authz.Some?
  {
  }

  lemma OneLookup(ss: seq<Session>)
    requires |ss| == 1
    ensures Lookup(ss, ss[0].mac) == Some(ss[0]) && (Holds(ss) <==> ss[0].authz.Some?)
  {
  }

  /** On a one-session port without fallback VLANs, the last posture forwards exactly when the session holds a grant. */
  lemma ForwardsIffHolds(cfg: PaeConfig, heard: seq<PortInput>)
    requires MaxSessions(cfg.hostMode) == Some(1)
    requires cfg.guestVlan.None? && cfg.authFailVlan.None? && cfg.criticalVlan.None?
    ensures LastPosture(Unauthorized, PortLog(cfg, heard)) != Unauthorized <==> Holds(PortRun(cfg, heard))
  {
    var ss := PortRun(cfg, heard);
    if ss == [] {
      ShadowPosture(cfg, heard, NO_MAC);
      PortInvariant(cfg, true, heard, NO_MAC);
    } else {
      var x := ss[0].mac;
      ShadowPosture(cfg, heard, x);
      PortInvariant(cfg, true, heard, x);
      OneLookup(ss);
      ForwardsWithGrant(cfg, ss[0], PortShadow(cfg, true, heard, x));
    }
  }

  /** In SingleHost and MultiHost with no fallback VLAN: the deny rule is absent if and only if the session holds a grant. */
  lemma DenyRuleGuards(env: Env, cfg: PaeConfig, w: World, inputs: seq<PortInput>, later: seq<EnforcerCall>)
    requires MaxSessions(cfg.hostMode) == Some(1)
    requires cfg.guestVlan.None? && cfg.authFailVlan.None? && cfg.criticalVlan.None?
    requires Trusted(env, w.port, inputs) && CleanStart(w) && Neighbours(later, w.port)
    requires ServeAll(env, cfg, w, inputs).r.Ok?
    ensures var v := ServeAll(env, cfg, w, inputs);
            DenyRuleKey(w.port) !in EnforcerRun(v.w.es, later).db <==> Holds(v.ss)
  {
    ServeIsPortRun(env, cfg, w, inputs);
    DatabaseIsImage(env, cfg, w, inputs, later);
    ForwardsIffHolds(cfg, Heard(env, cfg, w, inputs));
  }

  // ---- bring-up ----

  lemma ClosingSucceeds(env: Env, w: World)
    requires PortName(w.port) && RecordsOk(w.es) && Neighbourly(env, w.port) && env.faults(w.calls) == NO_FAULTS
    requires Previous(w.es, w.port) == CLOSED && DenyRuleKey(w.port) in w.es.db
    ensures var b := DispatchAll(env, w, NO_MAC, [PORT_CLOSED]); b.r.Ok? && DenyRuleKey(w.port) in b.w.es.db
  {
    var es := EnforcerRun(w.es, env.others(w.calls));
    NeighboursFrame(w.es, env.others(w.calls), w.port);
    ClosingSucceedsIff(es, w.port);
    ClosedMeansDenied(es, w.port, NO_FAULTS);
    OthersLeaveEnforcer(env, w, NO_MAC, PORT_CLOSED);
    BatchOfOne(env, w, NO_MAC, PORT_CLOSED);
  }

  lemma TrapSucceedsToo(env: Env, w: World)
    requires PortName(w.port) && RecordsOk(w.es) && Neighbourly(env, w.port) && env.faults(w.calls) == NO_FAULTS
    ensures Trap(env, w).r.Ok? && RecordsOk(Trapped(env, w).es)
    ensures Previous(Trapped(env, w).es, w.port) == CLOSED && DenyRuleKey(w.port) in Trapped(env, w).es.db
  {
    var es := EnforcerRun(w.es, env.others(w.calls));
    NeighboursFrame(w.es, env.others(w.calls), w.port);
    TrapRecovers(es, w.port);
    CallKeepsRecords(es, TrapCall(w.port, NO_FAULTS));
  }

  /** With the backend up, bring-up succeeds from any state and leaves the deny rule in place. */
  lemma BringUpSucceeds(env: Env, w: World)
    requires PortName(w.port) && RecordsOk(w.es) && Neighbourly(env, w.port)
    requires env.faults(w.calls) == NO_FAULTS && env.faults(w.calls + 1) == NO_FAULTS
    ensures BringUp(env, w).r.Ok? && DenyRuleKey(w.port) in BringUp(env, w).w.es.db
  {
    TrapSucceedsToo(env, w);
    ClosingSucceeds(env, Trapped(env, w));
  }
}
