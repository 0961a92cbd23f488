/**
 The service of a port, loop and all, is the port fed one input after another: the inputs
 themselves and the replies they cause, each with its effects performed in order.
 */
module Serving {
  import opened Wrappers
  import opened Octets
  import opened PaeTypes
  import opened PaeSession
  import opened PaeRuns
  import opened PaePort
  import opened PortTheorems
  import opened Dispatch
  import opened DispatchTheorems
  import opened Worker

  // ---- what the port hears ----

  /** The reply a turn fed back, as the input the port hears next. */
  function FedBack(l: Loop): seq<PortInput> {
    if l.queue == [] then [] else [Feed(l.queue[0].0, l.queue[0].1)]
  }

  /** What one input makes the port hear: itself, and the reply it feeds back. */
  function HeardOnce(env: Env, cfg: PaeConfig, v: Service, input: PortInput): seq<PortInput> {
    match input
    case LinkLost => [input]
    case Feed(mac, ev) =>
      [input] + FedBack(Turn(env, cfg, Started(Fired(v.w, mac, ev), v.ss, mac, ev)))
  }

  /** Everything the port hears in a run, replies included. */
  function Heard(env: Env, cfg: PaeConfig, w: World, inputs: seq<PortInput>): seq<PortInput>
    decreases |inputs|
  {
    if inputs == [] then []
    else
      var n := |inputs| - 1;
      Heard(env, cfg, w, inputs[..n]) + HeardOnce(env, cfg, ServeAll(env, cfg, w, inputs[..n]), inputs[n])
  }

  // ---- hearing one input after another, with no loop ----

  function Reached(w: World, input: PortInput): World {
    match input
    case Feed(mac, ev) => Fired(w, mac, ev)
    case LinkLost => w
  }

  function Addressee(input: PortInput): Mac {
    match input
    case Feed(mac, _) => mac
    case LinkLost => NO_MAC
  }

  /** The port steps once and its effects are performed. Nothing is fed back. */
  function Hear(env: Env, cfg: PaeConfig, v: Service, input: PortInput): Service {
    var p := PortStep(cfg, v.ss, input);
    var b := DispatchAll(env, Reached(v.w, input), Addressee(input), p.out);
    Service(b.w, p.sessions, b.r)
  }

  function HearAll(env: Env, cfg: PaeConfig, w: World, heard: seq<PortInput>): Service
    decreases |heard|
  {
    if heard == [] then BringUp(env, w)
    else
      var v := HearAll(env, cfg, w, heard[..|heard| - 1]);
      if v.r.Err? then v else Hear(env, cfg, v, heard[|heard| - 1])
  }

  lemma HearSnoc(env: Env, cfg: PaeConfig, w: World, heard: seq<PortInput>, input: PortInput)
    ensures var v := HearAll(env, cfg, w, heard);
            HearAll(env, cfg, w, heard + [input]) == if v.r.Err? then v else Hear(env, cfg, v, input)
  {
    assert (heard + [input])[..|heard|] == heard;
  }

  lemma RunSnoc(cfg: PaeConfig, shared: bool, heard: seq<PortInput>, input: PortInput, x: Mac)
    ensures var p := PortStep(cfg, PortRun(cfg, heard), input);
            && PortRun(cfg, heard + [input]) == p.sessions
            && PortShadow(cfg, shared, heard + [input], x) == WatchStep(shared, x, PortShadow(cfg, shared, heard, x), input, p.out)
  {
    assert (heard + [input])[..|heard|] == heard;
  }

  /** The sessions are those of the port alone. */
  lemma {:induction false} HearIsPortRun(env: Env, cfg: PaeConfig, w: World, heard: seq<PortInput>)
    requires HearAll(env, cfg, w, heard).r.Ok?
    ensures HearAll(env, cfg, w, heard).ss == PortRun(cfg, heard)
    decreases |heard|
  {
    if heard == [] {
    } else {
      HearIsPortRun(env, cfg, w, heard[..|heard| - 1]);
    }
  }

  // ---- the loop adds nothing else ----

  lemma TurnIsHear(env: Env, cfg: PaeConfig, l: Loop, v: Service, mac: Mac, ev: Event)
    requires l.queue == [(mac, ev)] && l.r.Ok? && l.steps < MAX_TURNS
    requires l.ss == v.ss && l.w == Fired(v.w, mac, ev)
    ensures var t := Turn(env, cfg, l); Service(t.w, t.ss, t.r) == Hear(env, cfg, v, Feed(mac, ev))
  {
  }

  /** An event heard, and then the reply it fed back, if it did. */
  function HearFed(env: Env, cfg: PaeConfig, v: Service, mac: Mac, ev: Event): Service {
    var once, fed := Hear(env, cfg, v, Feed(mac, ev)), FedBack(Turn(env, cfg, Started(Fired(v.w, mac, ev), v.ss, mac, ev)));
    if fed == [] || once.r.Err? then once else Hear(env, cfg, once, fed[0])
  }

  /** The loop's turns are its event heard, and then the reply. */
  lemma LoopIsHear(env: Env, cfg: PaeConfig, v: Service, mac: Mac, ev: Event)
    requires Shape(cfg, v.ss)
    ensures ServeInput(env, cfg, v, Feed(mac, ev)) == HearFed(env, cfg, v, mac, ev)
  {
    var start := Started(Fired(v.w, mac, ev), v.ss, mac, ev);
    var t := Turn(env, cfg, start);
    FeedbackBounded(env, cfg, start.w, v.ss, mac, ev);
    TurnFacts(env, cfg, start, mac, ev);
    TurnIsHear(env, cfg, start, v, mac, ev);
    if !Finished(t) {
      TurnIsHear(env, cfg, t, Service(t.w, t.ss, t.r), mac, t.queue[0].1);
    }
  }

  lemma HeardFed(env: Env, cfg: PaeConfig, w: World, heard: seq<PortInput>, mac: Mac, ev: Event)
    requires HearAll(env, cfg, w, heard).r.Ok?
    ensures var v := HearAll(env, cfg, w, heard);
            HearAll(env, cfg, w, heard + HeardOnce(env, cfg, v, Feed(mac, ev))) == HearFed(env, cfg, v, mac, ev)
  {
    var v := HearAll(env, cfg, w, heard);
    var once, fed := heard + [Feed(mac, ev)], FedBack(Turn(env, cfg, Started(Fired(v.w, mac, ev), v.ss, mac, ev)));
    HearSnoc(env, cfg, w, heard, Feed(mac, ev));
    assert heard + ([Feed(mac, ev)] + fed) == once + fed;
    if fed == [] {
      assert once + fed == once;
    } else {
      HearSnoc(env, cfg, w, once, fed[0]);
    }
  }

  lemma PortStepShape(cfg: PaeConfig, ss: seq<Session>, input: PortInput)
    requires Shape(cfg, ss)
    ensures Shape(cfg, PortStep(cfg, ss, input).sessions)
  {
    match input {
      case Feed(mac, ev) => HandleFacts(cfg, ss, mac, ev, mac);
      case LinkLost => LinkDownFacts(cfg, ss, Shadow(None, {}, []), false, NO_MAC);
    }
  }

  lemma {:induction false} HearShape(env: Env, cfg: PaeConfig, w: World, heard: seq<PortInput>)
    ensures Shape(cfg, HearAll(env, cfg, w, heard).ss)
    decreases |heard|
  {
    if heard == [] {
    } else {
      var init := heard[..|heard| - 1];
      HearShape(env, cfg, w, init);
      PortStepShape(cfg, HearAll(env, cfg, w, init).ss, heard[|heard| - 1]);
    }
  }

  lemma SplitLast<T>(s: seq<T>, t: seq<T>)
    requires t != []
    ensures s + t == s + t[..|t| - 1] + [t[|t| - 1]]
  {
  }

  lemma StuckSnoc(env: Env, cfg: PaeConfig, w: World, heard: seq<PortInput>, input: PortInput)
    requires HearAll(env, cfg, w, heard).r.Err?
    ensures HearAll(env, cfg, w, heard + [input]) == HearAll(env, cfg, w, heard)
  {
    HearSnoc(env, cfg, w, heard, input);
  }

  /** Nothing is heard after an error. */
  lemma {:induction false} HearStuck(env: Env, cfg: PaeConfig, w: World, heard: seq<PortInput>, more: seq<PortInput>)
    requires HearAll(env, cfg, w, heard).r.Err?
    ensures HearAll(env, cfg, w, heard + more) == HearAll(env, cfg, w, heard)
    decreases |more|
  {
    if more == [] {
      assert heard + more == heard;
    } else {
      var init := more[..|more| - 1];
      HearStuck(env, cfg, w, heard, init);
      StuckSnoc(env, cfg, w, heard + init, more[|more| - 1]);
      SplitLast(heard, more);
    }
  }

  /** Serving is hearing: every run, stopped by an error or not, is the plain run over what the port heard. */
  lemma {:induction false} ServeIsHear(env: Env, cfg: PaeConfig, w: World, inputs: seq<PortInput>)
    ensures HearAll(env, cfg, w, Heard(env, cfg, w, inputs)) == ServeAll(env, cfg, w, inputs)
    decreases |inputs|
  {
    if inputs == [] {
    } else {
      var n := |inputs| - 1;
      var v, heard := ServeAll(env, cfg, w, inputs[..n]), Heard(env, cfg, w, inputs[..n]);
      ServeIsHear(env, cfg, w, inputs[..n]);
      if v.r.Err? {
        HearStuck(env, cfg, w, heard, HeardOnce(env, cfg, v, inputs[n]));
      } else {
        HearShape(env, cfg, w, heard);
        match inputs[n] {
          case Feed(mac, ev) =>
            LoopIsHear(env, cfg, v, mac, ev);
            HeardFed(env, cfg, w, heard, mac, ev);
          case LinkLost => HearSnoc(env, cfg, w, heard, LinkLost);
        }
      }
    }
  }

  /** A run that succeeds leaves the sessions of the port alone. */
  lemma ServeIsPortRun(env: Env, cfg: PaeConfig, w: World, inputs: seq<PortInput>)
    requires ServeAll(env, cfg, w, inputs).r.Ok?
    ensures ServeAll(env, cfg, w, inputs).ss == PortRun(cfg, Heard(env, cfg, w, inputs))
    ensures Shape(cfg, ServeAll(env, cfg, w, inputs).ss)
  {
    ServeIsHear(env, cfg, w, inputs);
    HearIsPortRun(env, cfg, w, Heard(env, cfg, w, inputs));
    HearShape(env, cfg, w, Heard(env, cfg, w, inputs));
  }

  /** Between inputs nobody is left waiting for the server. */
  lemma {:induction false} NobodyWaits(env: Env, cfg: PaeConfig, w: World, inputs: seq<PortInput>, x: Mac)
    requires ServeAll(env, cfg, w, inputs).r.Ok?
    ensures !Waiting(ServeAll(env, cfg, w, inputs).ss, x)
    decreases |inputs|
  {
    if inputs == [] {
    } else {
      var n := |inputs| - 1;
      var v := ServeAll(env, cfg, w, inputs[..n]);
      NobodyWaits(env, cfg, w, inputs[..n], x);
      ServeIsPortRun(env, cfg, w, inputs[..n]);
      match inputs[n] {
        case Feed(mac, ev) => NoSessionLeftWaiting(env, cfg, Fired(v.w, mac, ev), v.ss, mac, ev, x);
        case LinkLost => LinkDownFacts(cfg, v.ss, Shadow(None, {}, []), false, x);
      }
    }
  }
}
