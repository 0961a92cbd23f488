/**
 The per-port multiplexer: which session an event reaches, how many sessions the
 host mode admits, and where each effect is directed.
 */
module PaePort {
  import opened Wrappers
  import opened Octets
  import opened PaeTypes
  import opened PaeSession

  /** An effect and its target: a MAC, or the whole port. */
  datatype Directed = Directed(mac: Option<Mac>, effect: Effect)

  datatype PortOut = PortOut(sessions: seq<Session>, out: seq<Directed>)

  function MaxSessions(mode: HostMode): Option<nat> {
    match mode
    case SingleHost | MultiHost => Some(1)
    case MultiDomain => Some(2)
    case MultiAuth => None
  }

  function Lookup(ss: seq<Session>, mac: Mac): Option<Session> {
    if ss == [] then None else if ss[0].mac == mac then Some(ss[0]) else Lookup(ss[1..], mac)
  }

  /** `ss` with its first session for `s.mac` replaced by `s`. */
  function Replace(ss: seq<Session>, s: Session): seq<Session> {
    if ss == [] then [] else if ss[0].mac == s.mac then [s] + ss[1..] else [ss[0]] + Replace(ss[1..], s)
  }

  function Prune(ss: seq<Session>): seq<Session> {
    if ss == [] then [] else (if ss[0].state == New then [] else [ss[0]]) + Prune(ss[1..])
  }

  function Active(ss: seq<Session>): nat {
    |Prune(ss)|
  }

  predicate CanAdmit(mode: HostMode, ss: seq<Session>) {
    match mode
    case MultiAuth => true
    case SingleHost | MultiHost => Active(ss) == 0
    case MultiDomain => Active(ss) < 2
  }

  function DirectOne(mode: HostMode, mac: Mac, e: Effect): Directed {
    Directed(if mode == MultiHost && e.SetAuthorization? then None else Some(mac), e)
  }

  function Decorate(mode: HostMode, mac: Mac, fx: seq<Effect>): seq<Directed> {
    if fx == [] then [] else [DirectOne(mode, mac, fx[0])] + Decorate(mode, mac, fx[1..])
  }

  function DirectAll(mac: Mac, fx: seq<Effect>): seq<Directed> {
    if fx == [] then [] else [Directed(Some(mac), fx[0])] + DirectAll(mac, fx[1..])
  }

  /** A first contact: bootstrap the session, then apply the triggering event. */
  function Admit(cfg: PaeConfig, mac: Mac, ev: Event): Out {
    var o := Step(NewSession(mac), Enable, cfg);
    if ev.Enable? || ev.EapolStart? then o
    else
      var p := Step(o.s, ev, cfg);
      Out(p.s, o.fx + p.fx)
  }

  function Handle(cfg: PaeConfig, ss: seq<Session>, mac: Mac, ev: Event): PortOut {
    match Lookup(ss, mac)
    case Some(s) =>
      var o := Step(s, ev, cfg);
      PortOut(Prune(Replace(ss, o.s)), Decorate(cfg.hostMode, mac, o.fx))
    case None =>
      if CanAdmit(cfg.hostMode, ss) then
        var o := Admit(cfg, mac, ev);
        PortOut(Prune(ss + [o.s]), Decorate(cfg.hostMode, mac, o.fx))
      else PortOut(Prune(ss), [])
  }

  const PORT_CLOSED := Directed(None, SetAuthorization(Unauthorized))

  function LinkDownEach(cfg: PaeConfig, ss: seq<Session>): PortOut {
    if ss == [] then PortOut([], [])
    else
      var o := Step(ss[0], LinkDown, cfg);
      var rest := LinkDownEach(cfg, ss[1..]);
      PortOut([o.s] + rest.sessions, DirectAll(ss[0].mac, o.fx) + rest.out)
  }

  function LinkDownPort(cfg: PaeConfig, ss: seq<Session>): PortOut {
    var each := LinkDownEach(cfg, ss);
    PortOut(Prune(each.sessions), each.out + [PORT_CLOSED])
  }

  /** What happens to a port: an event for a MAC, or the loss of its link. */
  datatype PortInput = Feed(mac: Mac, ev: Event) | LinkLost

  function PortStep(cfg: PaeConfig, ss: seq<Session>, input: PortInput): PortOut {
    match input
    case Feed(mac, ev) => Handle(cfg, ss, mac, ev)
    case LinkLost => LinkDownPort(cfg, ss)
  }

  lemma PruneFrom(ss: seq<Session>, i: nat)
    requires i < |ss|
    ensures Prune(ss[i..]) == if ss[i].state == New then Prune(ss[i + 1..]) else [ss[i]] + Prune(ss[i + 1..])
  {
    assert ss[i..][1..] == ss[i + 1..];
  }

  lemma {:induction false} LookupAt(ss: seq<Session>, mac: Mac, i: nat)
    requires i <= |ss| && (forall j :: 0 <= j < i ==> ss[j].mac != mac)
    requires i < |ss| ==> ss[i].mac == mac
    ensures Lookup(ss, mac) == if i < |ss| then Some(ss[i]) else None
  {
    if i == 0 {
    } else {
      LookupAt(ss[1..], mac, i - 1);
    }
  }

  lemma {:induction false} ReplaceAt(ss: seq<Session>, s: Session, i: nat)
    requires i < |ss| && (forall j :: 0 <= j < i ==> ss[j].mac != ss[i].mac)
    ensures s.mac == ss[i].mac ==> Replace(ss, s) == ss[i := s]
  {
    if i == 0 {
    } else {
      ReplaceAt(ss[1..], s, i - 1);
    }
  }

  // ---- the authenticator for one port ----

  method DecorateAll(mode: HostMode, mac: Mac, fx: seq<Effect>) returns (out: seq<Directed>)
    ensures out == Decorate(mode, mac, fx)
  {
    out := [];
    for i := 0 to |fx|
      invariant out + Decorate(mode, mac, fx[i..]) == Decorate(mode, mac, fx)
    {
      assert fx[i..][1..] == fx[i + 1..];
      var portWide := mode == MultiHost && fx[i].SetAuthorization?;
      out := out + [Directed(if portWide then None else Some(mac), fx[i])];
    }
  }

  method DirectEach(mac: Mac, fx: seq<Effect>) returns (out: seq<Directed>)
    ensures out == DirectAll(mac, fx)
  {
    out := [];
    for i := 0 to |fx|
      invariant out + DirectAll(mac, fx[i..]) == DirectAll(mac, fx)
    {
      assert fx[i..][1..] == fx[i + 1..];
      out := out + [Directed(Some(mac), fx[i])];
    }
  }

  class PortPae {
    const cfg: PaeConfig
    var sessions: seq<Session>

    constructor (cfg: PaeConfig)
      ensures this.cfg == cfg && sessions == []
    {
      this.cfg := cfg;
      sessions := [];
    }

    method EnablePort() returns (out: seq<Directed>)
      ensures out == [PORT_CLOSED]
    {
      out := [Directed(None, SetAuthorization(Unauthorized))];
    }

    /** The position of the first session for `mac`, or the number of sessions. */
    method FindSession(mac: Mac) returns (i: nat)
      ensures i <= |sessions|
      ensures forall j :: 0 <= j < i ==> sessions[j].mac != mac
      ensures i < |sessions| ==> sessions[i].mac == mac
    {
      i := 0;
      while i < |sessions| && sessions[i].mac != mac
        invariant i <= |sessions|
        invariant forall j :: 0 <= j < i ==> sessions[j].mac != mac
      {
        i := i + 1;
      }
    }

    method StepSession(i: nat, ev: Event) returns (out: seq<Directed>)
      requires i < |sessions|
      modifies this
      ensures var o := Step(old(sessions)[i], ev, cfg);
              && sessions == old(sessions)[i := o.s]
              && out == Decorate(cfg.hostMode, old(sessions)[i].mac, o.fx)
      ensures Step(old(sessions)[i], ev, cfg).s.mac == old(sessions)[i].mac
    {
      var session := new PortSession.Load(sessions[i]);
      var fx := session.PerformStep(ev, cfg);
      out := DecorateAll(cfg.hostMode, session.mac, fx);
      StepKeepsMac(sessions[i], ev, cfg);
      sessions := sessions[i := session.View()];
    }

    method AdmitSession(mac: Mac, ev: Event) returns (out: seq<Directed>)
      modifies this
      ensures sessions == old(sessions) + [Admit(cfg, mac, ev).s]
      ensures out == Decorate(cfg.hostMode, mac, Admit(cfg, mac, ev).fx)
    {
      var session := new PortSession(mac);
      var fx := session.PerformStep(Enable, cfg);
      if !ev.Enable? && !ev.EapolStart? {
        var more := session.PerformStep(ev, cfg);
        fx := fx + more;
      }
      sessions := sessions + [session.View()];
      out := DecorateAll(cfg.hostMode, mac, fx);
    }

    method HasRoom() returns (room: bool)
      ensures room == CanAdmit(cfg.hostMode, sessions)
    {
      var active := 0;
      for i := 0 to |sessions|
        invariant active + Active(sessions[i..]) == Active(sessions)
      {
        assert sessions[i..][1..] == sessions[i + 1..];
        if sessions[i].state != New {
          active := active + 1;
        }
      }
      match cfg.hostMode {
        case MultiAuth => room := true;
        case SingleHost | MultiHost => room := active == 0;
        case MultiDomain => room := active < 2;
      }
    }

    method PruneSessions()
      modifies this
      ensures sessions == Prune(old(sessions))
    {
      var kept: seq<Session> := [];
      for i := 0 to |sessions|
        invariant sessions == old(sessions)
        invariant kept + Prune(sessions[i..]) == Prune(sessions)
      {
        PruneFrom(sessions, i);
        if sessions[i].state != New {
          assert kept + ([sessions[i]] + Prune(sessions[i + 1..])) == kept + [sessions[i]] + Prune(sessions[i + 1..]);
          kept := kept + [sessions[i]];
        }
      }
      sessions := kept;
    }

    method HandleEvent(mac: Mac, ev: Event) returns (out: seq<Directed>)
      modifies this
      ensures PortOut(sessions, out) == Handle(cfg, old(sessions), mac, ev)
    {
      var i := FindSession(mac);
      LookupAt(sessions, mac, i);
      if i < |sessions| {
        ReplaceAt(sessions, Step(sessions[i], ev, cfg).s, i);
        out := StepSession(i, ev);
      } else {
        var room := HasRoom();
        if room {
          out := AdmitSession(mac, ev);
        } else {
          out := [];
        }
      }
      PruneSessions();
    }

    method LinkDownOne(s: Session) returns (down: Session, out: seq<Directed>)
      ensures down == Step(s, LinkDown, cfg).s && out == DirectAll(s.mac, Step(s, LinkDown, cfg).fx)
    {
      var session := new PortSession.Load(s);
      var fx := session.PerformStep(LinkDown, cfg);
      down := session.View();
      out := DirectEach(session.mac, fx);
    }

    method LinkDownAll() returns (out: seq<Directed>)
      modifies this
      ensures PortOut(sessions, out) == LinkDownPort(cfg, old(sessions))
    {
      out := [];
      ghost var whole := LinkDownEach(cfg, sessions);
      var closed: seq<Session> := [];
      for i := 0 to |sessions|
        invariant sessions == old(sessions)
        invariant closed + LinkDownEach(cfg, sessions[i..]).sessions == whole.sessions
        invariant out + LinkDownEach(cfg, sessions[i..]).out == whole.out
      {
        assert sessions[i..][1..] == sessions[i + 1..];
        var down, directed := LinkDownOne(sessions[i]);
        closed := closed + [down];
        out := out + directed;
      }
      assert sessions[|sessions|..] == [];
      assert closed == whole.sessions && out == whole.out;
      sessions := closed;
      out := out + [Directed(None, SetAuthorization(Unauthorized))];
      PruneSessions();
    }
  }
}
