/** The service loop of one port: bring-up, then inputs until the first error. */
module Worker {
  import opened Wrappers
  import opened Octets
  import opened PaeTypes
  import opened PaeSession
  import opened PaePort
  import opened Correlation
  import opened Enforcer
  import opened Dispatch

  datatype Service = Service(w: World, ss: seq<Session>, r: Result<(), AuthdError>)

  /** A timer that is delivered is no longer scheduled. */
  function Fired(w: World, mac: Mac, ev: Event): World {
    if ev.TimerFired? then w.(armed := w.armed - {(mac, ev.timer)}) else w
  }

  /** Port-level batches have no session of their own; nothing in them is addressed by this. */
  const NO_MAC: Mac := [0, 0, 0, 0, 0, 0]

  /** One input: an event through the feedback loop, or the loss of the link. */
  function ServeInput(env: Env, cfg: PaeConfig, v: Service, input: PortInput): Service {
    match input
    case Feed(mac, ev) =>
      var l := Drain(env, cfg, Started(Fired(v.w, mac, ev), v.ss, mac, ev));
      Service(l.w, l.ss, l.r)
    case LinkLost =>
      var p := LinkDownPort(cfg, v.ss);
      var b := DispatchAll(env, v.w, NO_MAC, p.out);
      Service(b.w, p.sessions, b.r)
  }

  function Trap(env: Env, w: World): EsOut {
    InstallTrap(EnforcerRun(w.es, env.others(w.calls)), w.port, env.faults(w.calls))
  }

  function Trapped(env: Env, w: World): World {
    w.(es := Trap(env, w).es, calls := w.calls + 1)
  }

  /** Trap first, then the port commanded closed. */
  function BringUp(env: Env, w: World): Service {
    if Trap(env, w).r.Err? then Service(Trapped(env, w), [], Err(EnforceFailed))
    else
      var b := DispatchAll(env, Trapped(env, w), NO_MAC, [PORT_CLOSED]);
      Service(b.w, [], b.r)
  }

  /** Serve inputs in order, stopping at the first error. */
  function ServeAll(env: Env, cfg: PaeConfig, w: World, inputs: seq<PortInput>): Service
    decreases |inputs|
  {
    if inputs == [] then BringUp(env, w)
    else
      var v := ServeAll(env, cfg, w, inputs[..|inputs| - 1]);
      if v.r.Err? then v else ServeInput(env, cfg, v, inputs[|inputs| - 1])
  }

  method RaiseTrap(orch: Orchestrator, deps: Deps) returns (ok: bool)
    modifies deps, deps.enforcer, deps.enforcer.conn
    ensures orch.View(deps) == Trapped(deps.env, old(orch.View(deps)))
    ensures ok == Trap(deps.env, old(orch.View(deps))).r.Ok?
  {
    deps.enforcer.Meanwhile(deps.env.others(deps.calls));
    var trap := deps.enforcer.EnsureEapolTrap(orch.port, deps.env.faults(deps.calls));
    deps.calls := deps.calls + 1;
    ok := trap.Ok?;
  }

  method OpenService(pae: PortPae, orch: Orchestrator, deps: Deps) returns (r: Result<(), AuthdError>)
    requires pae.sessions == []
    modifies orch, deps, deps.enforcer, deps.enforcer.conn
    ensures Service(orch.View(deps), pae.sessions, r) == BringUp(deps.env, old(orch.View(deps)))
  {
    var trapped := RaiseTrap(orch, deps);
    if !trapped {
      return Err(EnforceFailed);
    }
    var out := pae.EnablePort();
    r := orch.ApplyEffects(NO_MAC, out, deps);
  }

  method ServeOne(pae: PortPae, orch: Orchestrator, deps: Deps, input: PortInput, ghost was: Service)
    returns (r: Result<(), AuthdError>)
    requires was.w == orch.View(deps) && was.ss == pae.sessions
    modifies pae, orch, deps, deps.enforcer, deps.enforcer.conn
    ensures Service(orch.View(deps), pae.sessions, r) == ServeInput(deps.env, pae.cfg, was, input)
  {
    match input {
      case Feed(mac, ev) =>
        if ev.TimerFired? {
          deps.armed := deps.armed - {(mac, ev.timer)};
        }
        r := orch.HandleEvent(pae, mac, ev, deps);
      case LinkLost =>
        var out := pae.LinkDownAll();
        r := orch.ApplyEffects(NO_MAC, out, deps);
    }
  }

  /** Bring a port into service and serve it until an error or the end of the inputs. */
  method RunPort(pae: PortPae, orch: Orchestrator, deps: Deps, inputs: seq<PortInput>)
    returns (served: nat, r: Result<(), AuthdError>)
    requires pae.sessions == []
    modifies pae, orch, deps, deps.enforcer, deps.enforcer.conn
    ensures served <= |inputs| && (r.Ok? ==> served == |inputs|)
    ensures Service(orch.View(deps), pae.sessions, r) == ServeAll(deps.env, pae.cfg, old(orch.View(deps)), inputs[..served])
  {
    ghost var w := orch.View(deps);
    served := 0;
    r := OpenService(pae, orch, deps);
    ghost var v := Service(orch.View(deps), pae.sessions, r);
    while r.Ok? && served < |inputs|
      invariant served <= |inputs|
      invariant v == Service(orch.View(deps), pae.sessions, r)
      invariant v == ServeAll(deps.env, pae.cfg, w, inputs[..served])
      decreases |inputs| - served
    {
      assert inputs[..served + 1][..served] == inputs[..served];
      r := ServeOne(pae, orch, deps, inputs[served], v);
      v := Service(orch.View(deps), pae.sessions, r);
      served := served + 1;
    }
  }
}
