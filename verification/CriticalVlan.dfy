/**
 The critical VLAN. A session enters it only if it hears of an unreachable server while it
 awaits one, and between inputs of a served run nobody awaits the server.
 */
module CriticalVlan {
  import opened Wrappers
  import opened Octets
  import opened PaeTypes
  import opened PaeSession
  import opened PaeRuns
  import opened PaeTheorems
  import opened PaePort
  import opened PortTheorems
  import opened Dispatch
  import opened DispatchTheorems
  import opened Worker
  import opened Serving
  import opened EndToEnd

  /** The events that tell a waiting session that its server is gone. */
  predicate SaysGone(ev: Event) {
    ev.ServerUnreachable? || ev == TimerFired(ServerTimeout)
  }

  predicate IsCritical(e: Effect) {
    e.SetAuthorization? && e.posture.FallbackVlan? && e.posture.reason == Critical
  }

  predicate Free(fx: seq<Effect>) {
    forall i :: 0 <= i < |fx| ==> !IsCritical(fx[i])
  }

  predicate FreeOut(out: seq<Directed>) {
    forall i :: 0 <= i < |out| ==> !IsCritical(out[i].effect)
  }

  ghost predicate CriticalFree(ss: seq<Session>) {
    forall x :: Lookup(ss, x).Some? ==> Lookup(ss, x).value.state != Fallback(Critical)
  }

  lemma FreeAppend(a: seq<Effect>, b: seq<Effect>)
    requires Free(a) && Free(b)
    ensures Free(a + b)
  {
  }

  lemma JustifiedFree(granted: Option<Authorization>, to: State, fx: seq<Effect>)
    requires AllJustified(granted, to, fx) && to != Fallback(Critical)
    ensures Free(fx)
  {
  }

  lemma OneWayIn(s: Session, ev: Event, cfg: PaeConfig)
    requires s.state != Fallback(Critical) && !(s.state == AuthServer && SaysGone(ev))
    ensures Step(s, ev, cfg).s.state != Fallback(Critical)
  {
  }

  /** The one way in is to hear that the server is gone while awaiting it. */
  lemma StepFree(s: Session, ev: Event, cfg: PaeConfig)
    requires s.state != Fallback(Critical) && !(s.state == AuthServer && SaysGone(ev))
    ensures var o := Step(s, ev, cfg); o.s.state != Fallback(Critical) && Free(o.fx)
  {
    StepJustified(s, ev, cfg);
    OneWayIn(s, ev, cfg);
    JustifiedFree(Granted(s, ev), Step(s, ev, cfg).s.state, Step(s, ev, cfg).fx);
  }

  lemma ServeFree(cfg: PaeConfig, mac: Mac, so: Option<Session>, ev: Event)
    requires so.Some? ==> so.value.state != Fallback(Critical) && !(so.value.state == AuthServer && SaysGone(ev))
    ensures var o := Serve(cfg, mac, so, ev); o.s.state != Fallback(Critical) && Free(o.fx)
  {
    if so.Some? {
      StepFree(so.value, ev, cfg);
    } else {
      StepFree(NewSession(mac), Enable, cfg);
      StepFree(Step(NewSession(mac), Enable, cfg).s, ev, cfg);
      FreeAppend(Step(NewSession(mac), Enable, cfg).fx, Step(Step(NewSession(mac), Enable, cfg).s, ev, cfg).fx);
    }
  }

  lemma HandleFree(cfg: PaeConfig, ss: seq<Session>, mac: Mac, ev: Event)
    requires Shape(cfg, ss) && CriticalFree(ss) && !(Waiting(ss, mac) && SaysGone(ev))
    ensures CriticalFree(Handle(cfg, ss, mac, ev).sessions) && FreeOut(Handle(cfg, ss, mac, ev).out)
  {
    ServeFree(cfg, mac, Lookup(ss, mac), ev);
    DecorateAt(cfg.hostMode, mac, Serve(cfg, mac, Lookup(ss, mac), ev).fx);
    HandleFacts(cfg, ss, mac, ev, mac);
    forall x
      ensures Lookup(Handle(cfg, ss, mac, ev).sessions, x).Some? ==>
                Lookup(Handle(cfg, ss, mac, ev).sessions, x).value.state != Fallback(Critical)
    {
      HandleFacts(cfg, ss, mac, ev, x);
    }
  }

  lemma {:induction false} LinkDownFree(cfg: PaeConfig, ss: seq<Session>)
    ensures FreeOut(LinkDownEach(cfg, ss).out)
  {
    if ss == [] {
    } else {
      LinkDownFree(cfg, ss[1..]);
      DirectAllAt(ss[0].mac, Step(ss[0], LinkDown, cfg).fx);
    }
  }

  /** Nobody hears that the server is gone while awaiting it. */
  predicate Answered(cfg: PaeConfig, heard: seq<PortInput>)
    decreases |heard|
  {
    heard == [] ||
    var init, input := heard[..|heard| - 1], heard[|heard| - 1];
    && Answered(cfg, init)
    && (input.Feed? ==> !(Waiting(PortRun(cfg, init), input.mac) && SaysGone(input.ev)))
  }

  lemma {:induction false} AnsweredFree(cfg: PaeConfig, heard: seq<PortInput>)
    requires Answered(cfg, heard)
    ensures Shape(cfg, PortRun(cfg, heard)) && CriticalFree(PortRun(cfg, heard)) && FreeOut(PortLog(cfg, heard))
    decreases |heard|
  {
    if heard == [] {
    } else {
      var init, input := heard[..|heard| - 1], heard[|heard| - 1];
      var ss := PortRun(cfg, init);
      AnsweredFree(cfg, init);
      PortStepShape(cfg, ss, input);
      match input {
        case Feed(mac, ev) => HandleFree(cfg, ss, mac, ev);
        case LinkLost =>
          LinkDownFree(cfg, ss);
          LinkDownFacts(cfg, ss, Shadow(None, {}, []), false, NO_MAC);
      }
    }
  }

  lemma AnsweredSnoc(cfg: PaeConfig, heard: seq<PortInput>, input: PortInput)
    requires Answered(cfg, heard)
    requires input.Feed? ==> !(Waiting(PortRun(cfg, heard), input.mac) && SaysGone(input.ev))
    ensures Answered(cfg, heard + [input])
  {
    assert (heard + [input])[..|heard|] == heard;
  }

  lemma AnsweredOnce(env: Env, cfg: PaeConfig, v: Service, heard: seq<PortInput>, mac: Mac, ev: Event)
    requires Answered(cfg, heard) && v.ss == PortRun(cfg, heard) && Shape(cfg, v.ss) && !Waiting(v.ss, mac)
    ensures Answered(cfg, heard + HeardOnce(env, cfg, v, Feed(mac, ev)))
  {
    var start := Started(Fired(v.w, mac, ev), v.ss, mac, ev);
    var once, fed := heard + [Feed(mac, ev)], FedBack(Turn(env, cfg, start));
    AnsweredSnoc(cfg, heard, Feed(mac, ev));
    TurnFacts(env, cfg, start, mac, ev);
    assert heard + HeardOnce(env, cfg, v, Feed(mac, ev)) == once + fed;
    if fed == [] {
      assert once + fed == once;
    } else {
      AnsweredSnoc(cfg, once, fed[0]);
    }
  }

  lemma {:induction false} ServedAnswered(env: Env, cfg: PaeConfig, w: World, inputs: seq<PortInput>)
    requires ServeAll(env, cfg, w, inputs).r.Ok?
    ensures Answered(cfg, Heard(env, cfg, w, inputs))
    decreases |inputs|
  {
    if inputs == [] {
    } else {
      var n := |inputs| - 1;
      var v, heard := ServeAll(env, cfg, w, inputs[..n]), Heard(env, cfg, w, inputs[..n]);
      ServedAnswered(env, cfg, w, inputs[..n]);
      ServeIsPortRun(env, cfg, w, inputs[..n]);
      match inputs[n] {
        case LinkLost => AnsweredSnoc(cfg, heard, LinkLost);
        case Feed(mac, ev) =>
          NobodyWaits(env, cfg, w, inputs[..n], mac);
          AnsweredOnce(env, cfg, v, heard, mac, ev);
      }
    }
  }

  lemma {:induction false} LastNotCritical(was: PortAuthorization, out: seq<Directed>)
    requires FreeOut(out) && !(was.FallbackVlan? && was.reason == Critical)
    ensures var last := LastPosture(was, out); !(last.FallbackVlan? && last.reason == Critical)
    decreases |out|
  {
    if out == [] {
    } else {
      LastNotCritical(Next(was, out[0]), out[1..]);
    }
  }

  /**
   Whatever is configured, no served run that succeeds ever leaves a session in the critical
   fallback or commands the critical VLAN.
   */
  lemma CriticalNeverEntered(env: Env, cfg: PaeConfig, w: World, inputs: seq<PortInput>, x: Mac)
    requires ServeAll(env, cfg, w, inputs).r.Ok?
    ensures Lookup(ServeAll(env, cfg, w, inputs).ss, x).Some? ==>
              Lookup(ServeAll(env, cfg, w, inputs).ss, x).value.state != Fallback(Critical)
    ensures var last := Commanded(env, cfg, w, inputs); !(last.FallbackVlan? && last.reason == Critical)
  {
    ServedAnswered(env, cfg, w, inputs);
    ServeIsPortRun(env, cfg, w, inputs);
    AnsweredFree(cfg, Heard(env, cfg, w, inputs));
    LastNotCritical(Unauthorized, PortLog(cfg, Heard(env, cfg, w, inputs)));
  }
}
