/** What holds of a whole port after every interleaving of events and link losses. */
module PortTheorems {
  import opened Wrappers
  import opened Octets
  import opened PaeTypes
  import opened PaeSession
  import opened PaeRuns
  import opened PaePort

  // ---- the session list as a table keyed by MAC ----

  predicate Distinct(ss: seq<Session>) {
    forall i, j :: 0 <= i < j < |ss| ==> ss[i].mac != ss[j].mac
  }

  predicate NoneNew(ss: seq<Session>) {
    forall i :: 0 <= i < |ss| ==> ss[i].state != New
  }

  /** A session that torn down to `New` is dropped from the table. */
  function Live(s: Session): Option<Session> {
    if s.state == New then None else Some(s)
  }

  lemma {:induction false} LookupSome(ss: seq<Session>, x: Mac)
    ensures Lookup(ss, x).Some? ==> Lookup(ss, x).value.mac == x && Lookup(ss, x).value in ss
    ensures Lookup(ss, x).None? <==> forall i :: 0 <= i < |ss| ==> ss[i].mac != x
  {
    if ss == [] {
    } else {
      LookupSome(ss[1..], x);
      assert forall i :: 0 < i < |ss| ==> ss[i] == ss[1..][i - 1];
    }
  }

  lemma {:induction false} ReplaceFacts(ss: seq<Session>, s: Session, x: Mac)
    ensures |Replace(ss, s)| == |ss| && forall i :: 0 <= i < |ss| ==> Replace(ss, s)[i].mac == ss[i].mac
    ensures Lookup(Replace(ss, s), x) == if x == s.mac && Lookup(ss, x).Some? then Some(s) else Lookup(ss, x)
  {
    if ss == [] {
    } else {
      ReplaceFacts(ss[1..], s, x);
      if ss[0].mac == s.mac {
        assert Replace(ss, s)[1..] == ss[1..];
      } else {
        assert Replace(ss, s)[1..] == Replace(ss[1..], s);
      }
    }
  }

  lemma {:induction false} LookupAppend(ss: seq<Session>, s: Session, x: Mac)
    ensures Lookup(ss + [s], x) ==
            if Lookup(ss, x).Some? then Lookup(ss, x) else if s.mac == x then Some(s) else None
  {
    if ss == [] {
      assert ss + [s] == [s];
    } else {
      assert (ss + [s])[1..] == ss[1..] + [s];
      LookupAppend(ss[1..], s, x);
    }
  }

  lemma {:induction false} PruneKeeps(ss: seq<Session>)
    ensures NoneNew(Prune(ss)) && |Prune(ss)| <= |ss|
    ensures forall s :: s in Prune(ss) ==> s in ss
  {
    if ss == [] {
    } else {
      PruneKeeps(ss[1..]);
    }
  }

  lemma {:induction false} PruneDistinct(ss: seq<Session>)
    requires Distinct(ss)
    ensures Distinct(Prune(ss))
  {
    if ss == [] {
    } else {
      var rest := Prune(ss[1..]);
      PruneDistinct(ss[1..]);
      PruneKeeps(ss[1..]);
      forall j | 0 <= j < |rest|
        ensures rest[j].mac != ss[0].mac
      {
        assert rest[j] in ss[1..];
      }
    }
  }

  lemma {:induction false} PruneLookup(ss: seq<Session>, x: Mac)
    requires Distinct(ss)
    ensures Lookup(Prune(ss), x) == if Lookup(ss, x).Some? then Live(Lookup(ss, x).value) else None
  {
    if ss == [] {
    } else {
      PruneLookup(ss[1..], x);
      if ss[0].state != New {
        assert Prune(ss)[1..] == Prune(ss[1..]);
      } else {
        LookupSome(ss[1..], x);
        assert Prune(ss) == Prune(ss[1..]);
      }
    }
  }

  lemma PruneFacts(ss: seq<Session>, x: Mac)
    requires Distinct(ss)
    ensures Distinct(Prune(ss)) && NoneNew(Prune(ss)) && |Prune(ss)| <= |ss|
    ensures Lookup(Prune(ss), x) == if Lookup(ss, x).Some? then Live(Lookup(ss, x).value) else None
  {
    PruneKeeps(ss);
    PruneDistinct(ss);
    PruneLookup(ss, x);
  }

  lemma {:induction false} PruneNothing(ss: seq<Session>)
    requires NoneNew(ss)
    ensures Prune(ss) == ss
  {
    if ss == [] {
    } else {
      PruneNothing(ss[1..]);
    }
  }

  // ---- serving one MAC ----

  /** What the port does for a MAC whose event it accepts. */
  function Serve(cfg: PaeConfig, mac: Mac, so: Option<Session>, ev: Event): Out {
    match so
    case Some(s) => Step(s, ev, cfg)
    case None => Admit(cfg, mac, ev)
  }

  predicate Accepts(cfg: PaeConfig, ss: seq<Session>, mac: Mac) {
    Lookup(ss, mac).Some? || CanAdmit(cfg.hostMode, ss)
  }

  /** The port's structural invariant. */
  predicate Shape(cfg: PaeConfig, ss: seq<Session>) {
    && Distinct(ss) && NoneNew(ss)
    && (MaxSessions(cfg.hostMode).Some? ==> |ss| <= MaxSessions(cfg.hostMode).value)
  }

  lemma LookupNotNew(ss: seq<Session>, x: Mac)
    requires NoneNew(ss)
    ensures Lookup(ss, x).Some? ==> Lookup(ss, x).value.state != New
  {
    LookupSome(ss, x);
  }

  lemma StepTable(cfg: PaeConfig, ss: seq<Session>, s: Session, x: Mac)
    requires Shape(cfg, ss) && Lookup(ss, s.mac).Some?
    ensures Shape(cfg, Prune(Replace(ss, s)))
    ensures Lookup(Prune(Replace(ss, s)), x) == if x == s.mac then Live(s) else Lookup(ss, x)
  {
    ReplaceFacts(ss, s, x);
    PruneFacts(Replace(ss, s), x);
    LookupNotNew(ss, x);
  }

  lemma AdmitTable(cfg: PaeConfig, ss: seq<Session>, s: Session, x: Mac)
    requires Shape(cfg, ss) && Lookup(ss, s.mac).None? && CanAdmit(cfg.hostMode, ss)
    ensures Shape(cfg, Prune(ss + [s]))
    ensures Lookup(Prune(ss + [s]), x) == if x == s.mac then Live(s) else Lookup(ss, x)
  {
    LookupSome(ss, s.mac);
    PruneNothing(ss);
    LookupAppend(ss, s, x);
    PruneFacts(ss + [s], x);
    LookupNotNew(ss, x);
  }

  lemma ServeKeepsMac(cfg: PaeConfig, mac: Mac, so: Option<Session>, ev: Event)
    requires so.Some? ==> so.value.mac == mac
    ensures Serve(cfg, mac, so, ev).s.mac == mac
  {
    if so.Some? {
      StepKeepsMac(so.value, ev, cfg);
    } else {
      StepKeepsMac(NewSession(mac), Enable, cfg);
      StepKeepsMac(Step(NewSession(mac), Enable, cfg).s, ev, cfg);
    }
  }

  /**
   Exactly one table entry moves: an accepted event updates, creates or drops the
   entry of its own MAC, and a refused one changes nothing.
   */
  lemma HandleFacts(cfg: PaeConfig, ss: seq<Session>, mac: Mac, ev: Event, x: Mac)
    requires Shape(cfg, ss)
    ensures Shape(cfg, Handle(cfg, ss, mac, ev).sessions)
    ensures Accepts(cfg, ss, mac) ==>
              var p, o := Handle(cfg, ss, mac, ev), Serve(cfg, mac, Lookup(ss, mac), ev);
              && p.out == Decorate(cfg.hostMode, mac, o.fx)
              && Lookup(p.sessions, x) == if x == mac then Live(o.s) else Lookup(ss, x)
    ensures !Accepts(cfg, ss, mac) ==> Handle(cfg, ss, mac, ev) == PortOut(ss, [])
  {
    PruneNothing(ss);
    LookupSome(ss, mac);
    var o := Serve(cfg, mac, Lookup(ss, mac), ev);
    ServeKeepsMac(cfg, mac, Lookup(ss, mac), ev);
    if Lookup(ss, mac).Some? {
      StepTable(cfg, ss, o.s, x);
    } else if CanAdmit(cfg.hostMode, ss) {
      AdmitTable(cfg, ss, o.s, x);
    }
  }

  // ---- what the effects directed at one MAC leave behind ----

  /**
   Watching `mac`: timers and accounting are read where they are directed at the MAC.
   A posture is read there too, or (`shared`) wherever on the port it is commanded.
   */
  function WatchOne(sh: Shadow, shared: bool, mac: Mac, d: Directed): Shadow {
    if d.mac == Some(mac) || (shared && d.effect.SetAuthorization?) then ObserveOne(sh, d.effect) else sh
  }

  function Watch(sh: Shadow, shared: bool, mac: Mac, out: seq<Directed>): Shadow
    decreases |out|
  {
    if out == [] then sh else Watch(WatchOne(sh, shared, mac, out[0]), shared, mac, out[1..])
  }

  /** A posture may be read port-wide on a one-session port, and must be in MultiHost. */
  predicate Fits(mode: HostMode, shared: bool) {
    (mode == MultiHost ==> shared) && (shared ==> MaxSessions(mode) == Some(1))
  }

  lemma {:induction false} WatchAppend(sh: Shadow, shared: bool, mac: Mac, a: seq<Directed>, b: seq<Directed>)
    ensures Watch(sh, shared, mac, a + b) == Watch(Watch(sh, shared, mac, a), shared, mac, b)
    decreases |a|
  {
    if a == [] {
      assert a + b == b;
    } else {
      assert (a + b)[1..] == a[1..] + b;
      WatchAppend(WatchOne(sh, shared, mac, a[0]), shared, mac, a[1..], b);
    }
  }

  lemma WatchSingle(sh: Shadow, shared: bool, mac: Mac, d: Directed)
    ensures Watch(sh, shared, mac, [d]) == WatchOne(sh, shared, mac, d)
  {
    assert [d][1..] == [];
  }

  /** A session's own decorated effects are all seen. */
  lemma {:induction false} WatchOwn(sh: Shadow, mode: HostMode, shared: bool, mac: Mac, fx: seq<Effect>)
    requires Fits(mode, shared)
    ensures Watch(sh, shared, mac, Decorate(mode, mac, fx)) == Observe(sh, fx)
    decreases |fx|
  {
    if fx == [] {
    } else {
      assert Decorate(mode, mac, fx)[1..] == Decorate(mode, mac, fx[1..]);
      WatchOwn(ObserveOne(sh, fx[0]), mode, shared, mac, fx[1..]);
    }
  }

  /** Another MAC's decorated effects are invisible, except a shared posture. */
  lemma {:induction false} WatchOther(sh: Shadow, mode: HostMode, shared: bool, mac: Mac, x: Mac, fx: seq<Effect>, own: Shadow)
    requires x != mac
    ensures var w := Watch(sh, shared, x, Decorate(mode, mac, fx));
            && (!shared ==> w == sh)
            && w.armed == sh.armed && w.log == sh.log
            && (shared && sh.posture == own.posture ==> w.posture == Observe(own, fx).posture)
    decreases |fx|
  {
    if fx == [] {
    } else {
      assert Decorate(mode, mac, fx)[1..] == Decorate(mode, mac, fx[1..]);
      WatchOther(WatchOne(sh, shared, x, DirectOne(mode, mac, fx[0])), mode, shared, mac, x, fx[1..], ObserveOne(own, fx[0]));
    }
  }

  lemma {:induction false} WatchDirectAll(sh: Shadow, shared: bool, mac: Mac, x: Mac, fx: seq<Effect>)
    ensures x == mac ==> Watch(sh, shared, x, DirectAll(mac, fx)) == Observe(sh, fx)
    ensures x != mac ==> var w := Watch(sh, shared, x, DirectAll(mac, fx)); w.armed == sh.armed && w.log == sh.log
    ensures x != mac && !shared ==> Watch(sh, shared, x, DirectAll(mac, fx)) == sh
    decreases |fx|
  {
    if fx == [] {
    } else {
      assert DirectAll(mac, fx)[1..] == DirectAll(mac, fx[1..]);
      WatchDirectAll(WatchOne(sh, shared, x, Directed(Some(mac), fx[0])), shared, mac, x, fx[1..]);
    }
  }

  // ---- losing the link ----

  lemma {:induction false} LinkDownFacts(cfg: PaeConfig, ss: seq<Session>, sh: Shadow, shared: bool, x: Mac)
    requires Distinct(ss) && NoneNew(ss)
    ensures Prune(LinkDownEach(cfg, ss).sessions) == []
    ensures var w := Watch(sh, shared, x, LinkDownEach(cfg, ss).out);
            && w.armed == (if Lookup(ss, x).Some? then {} else sh.armed)
            && w.log == (if Lookup(ss, x).Some? && Lookup(ss, x).value.acctOpen then sh.log + [Stop(PortLinkDown)] else sh.log)
            && (!shared ==> w.posture == if Lookup(ss, x).Some? then Some(Unauthorized) else sh.posture)
  {
    if ss == [] {
    } else {
      var fx := Step(ss[0], LinkDown, cfg).fx;
      var head, rest := DirectAll(ss[0].mac, fx), LinkDownEach(cfg, ss[1..]);
      WatchAppend(sh, shared, x, head, rest.out);
      LinkDownFacts(cfg, ss[1..], Watch(sh, shared, x, head), shared, x);
      assert LinkDownEach(cfg, ss).sessions[1..] == rest.sessions;
      WatchDirectAll(sh, shared, ss[0].mac, x, fx);
      AfterTeardown(sh, ss[0], PortLinkDown);
      LookupSome(ss[1..], ss[0].mac);
      assert forall i :: 0 <= i < |ss[1..]| ==> ss[1..][i] == ss[i + 1];
    }
  }

  // ---- the invariant over every run ----

  predicate Closed(posture: Option<PortAuthorization>) {
    posture.None? || posture == Some(Unauthorized)
  }

  /** A live session mirrors what was commanded for it; a MAC without one has nothing left behind. */
  predicate Covers(cfg: PaeConfig, shared: bool, ss: seq<Session>, mac: Mac, sh: Shadow) {
    match Lookup(ss, mac)
    case Some(s) => Sound(cfg, s, sh)
    case None => sh.armed == {} && (!shared || ss == [] ==> Closed(sh.posture))
  }

  /** A shared posture is the same for every MAC. */
  predicate Agree(shared: bool, a: Shadow, b: Shadow) {
    shared ==> a.posture == b.posture
  }

  function WatchStep(shared: bool, mac: Mac, sh: Shadow, input: PortInput, out: seq<Directed>): Shadow {
    Watch(if input.Feed? && input.mac == mac then Deliver(sh, input.ev) else sh, shared, mac, out)
  }

  /** An expiry that finds its own timer freshly armed leaves the same behind as one that does not. */
  lemma SpuriousExpiry(cfg: PaeConfig, s: Session, m: Shadow, ev: Event)
    requires s.state == Connecting && m.armed == {TxPeriod}
    ensures var fx := InConnecting(s, ev, cfg).fx; Observe(m, fx) == Observe(Deliver(m, ev), fx)
  {
    if ev == TimerFired(TxPeriod) {
      if s.txCount < cfg.maxReauthReq {
        var next := s.(txCount := SaturatingNext(s.txCount));
        AfterSendIdentity(m, next);
        AfterSendIdentity(Deliver(m, ev), next);
      } else {
        AfterNoSupplicant(m, s, cfg);
        AfterNoSupplicant(Deliver(m, ev), s, cfg);
      }
    }
  }

  /** A first contact from a clean slate ends in a session that mirrors its effects, and moves accounting as one step does. */
  lemma AdmitSound(cfg: PaeConfig, mac: Mac, ev: Event, sh: Shadow)
    requires sh.armed == {} && Closed(sh.posture)
    ensures var u := Trail(Admit(cfg, mac, ev).s, Observe(Deliver(sh, ev), Admit(cfg, mac, ev).fx));
            Sound(cfg, u.s, u.m) && AccountingDelta(Trail(NewSession(mac), sh), ev, u)
  {
    var start := Trail(NewSession(mac), sh);
    var t := Advance(cfg, start, Enable);
    AdvanceSound(cfg, start, Enable);
    AfterSolicit(sh, start.s, 1, [SetAuthorization(Unauthorized)]);
    ObserveSingle(sh, SetAuthorization(Unauthorized));
    assert Deliver(sh, ev) == sh;
    if !ev.Enable? && !ev.EapolStart? {
      AdvanceSound(cfg, t, ev);
      ObserveAppend(sh, Step(start.s, Enable, cfg).fx, Step(t.s, ev, cfg).fx);
      if ev.TimerFired? {
        SpuriousExpiry(cfg, t.s, t.m, ev);
      }
    }
  }

  lemma ServeSound(cfg: PaeConfig, mac: Mac, so: Option<Session>, ev: Event, sh: Shadow)
    requires if so.Some? then Sound(cfg, so.value, sh) else sh.armed == {} && Closed(sh.posture)
    ensures var t := Trail(if so.Some? then so.value else NewSession(mac), sh);
            var u := Trail(Serve(cfg, mac, so, ev).s, Observe(Deliver(sh, ev), Serve(cfg, mac, so, ev).fx));
            Sound(cfg, u.s, u.m) && AccountingDelta(t, ev, u)
  {
    if so.Some? {
      AdvanceSound(cfg, Trail(so.value, sh), ev);
    } else {
      AdmitSound(cfg, mac, ev, sh);
    }
  }

  /** All of an accepted MAC's own effects are seen. */
  lemma FeedWatched(cfg: PaeConfig, shared: bool, ss: seq<Session>, mac: Mac, ev: Event, own: Shadow)
    requires Fits(cfg.hostMode, shared) && Shape(cfg, ss) && Accepts(cfg, ss, mac)
    ensures WatchStep(shared, mac, own, Feed(mac, ev), Handle(cfg, ss, mac, ev).out)
         == Observe(Deliver(own, ev), Serve(cfg, mac, Lookup(ss, mac), ev).fx)
  {
    HandleFacts(cfg, ss, mac, ev, mac);
    WatchOwn(Deliver(own, ev), cfg.hostMode, shared, mac, Serve(cfg, mac, Lookup(ss, mac), ev).fx);
  }

  /** What a live session mirrors; a session in `New` leaves nothing behind. */
  lemma SoundLive(cfg: PaeConfig, s: Session, m: Shadow)
    requires Sound(cfg, s, m)
    ensures if Live(s).Some? then Sound(cfg, Live(s).value, m) else m.armed == {} && Closed(m.posture)
  {
  }

  /** The accepted MAC's own shadow follows its session. */
  lemma FeedOwn(cfg: PaeConfig, shared: bool, ss: seq<Session>, mac: Mac, ev: Event, own: Shadow)
    requires Fits(cfg.hostMode, shared) && Shape(cfg, ss) && Covers(cfg, shared, ss, mac, own) && Accepts(cfg, ss, mac)
    ensures var p := Handle(cfg, ss, mac, ev);
            var w := WatchStep(shared, mac, own, Feed(mac, ev), p.out);
            && w == Observe(Deliver(own, ev), Serve(cfg, mac, Lookup(ss, mac), ev).fx)
            && (if Lookup(p.sessions, mac).Some? then Sound(cfg, Lookup(p.sessions, mac).value, w)
                else w.armed == {} && Closed(w.posture))
  {
    var so := Lookup(ss, mac);
    var o := Serve(cfg, mac, so, ev);
    PruneNothing(ss);
    HandleFacts(cfg, ss, mac, ev, mac);
    ServeSound(cfg, mac, so, ev, own);
    FeedWatched(cfg, shared, ss, mac, ev, own);
    SoundLive(cfg, o.s, Observe(Deliver(own, ev), o.fx));
  }

  lemma OneSession(ss: seq<Session>, a: Mac, b: Mac)
    requires |ss| <= 1 && a != b
    ensures Lookup(ss, a).None? || Lookup(ss, b).None?
  {
    LookupSome(ss, a);
    LookupSome(ss, b);
  }

  lemma FeedOther(cfg: PaeConfig, shared: bool, ss: seq<Session>, mac: Mac, ev: Event, own: Shadow, x: Mac, sh: Shadow)
    requires Fits(cfg.hostMode, shared) && Shape(cfg, ss) && Covers(cfg, shared, ss, mac, own) && Accepts(cfg, ss, mac)
    requires Covers(cfg, shared, ss, x, sh) && x != mac && Agree(shared, own, sh)
    ensures var p, input := Handle(cfg, ss, mac, ev), Feed(mac, ev);
            && Covers(cfg, shared, p.sessions, x, WatchStep(shared, x, sh, input, p.out))
            && Agree(shared, WatchStep(shared, mac, own, input, p.out), WatchStep(shared, x, sh, input, p.out))
  {
    var p, fx := Handle(cfg, ss, mac, ev), Serve(cfg, mac, Lookup(ss, mac), ev).fx;
    FeedOwn(cfg, shared, ss, mac, ev, own);
    HandleFacts(cfg, ss, mac, ev, x);
    WatchOther(sh, cfg.hostMode, shared, mac, x, fx, Deliver(own, ev));
    if shared {
      PruneNothing(ss);
      OneSession(ss, mac, x);
      assert p.sessions == [] ==> Lookup(p.sessions, mac).None?;
    }
  }

  lemma FeedCovers(cfg: PaeConfig, shared: bool, ss: seq<Session>, mac: Mac, ev: Event, own: Shadow, x: Mac, sh: Shadow)
    requires Fits(cfg.hostMode, shared) && Shape(cfg, ss)
    requires Covers(cfg, shared, ss, mac, own) && Covers(cfg, shared, ss, x, sh)
    requires Agree(shared, own, sh) && (x == mac ==> sh == own)
    ensures var p, input := Handle(cfg, ss, mac, ev), Feed(mac, ev);
            && Covers(cfg, shared, p.sessions, x, WatchStep(shared, x, sh, input, p.out))
            && Agree(shared, WatchStep(shared, mac, own, input, p.out), WatchStep(shared, x, sh, input, p.out))
  {
    if !Accepts(cfg, ss, mac) {
      HandleFacts(cfg, ss, mac, ev, x);
    } else if x == mac {
      FeedOwn(cfg, shared, ss, mac, ev, own);
    } else {
      FeedOther(cfg, shared, ss, mac, ev, own, x, sh);
    }
  }

  lemma LinkLostCovers(cfg: PaeConfig, shared: bool, ss: seq<Session>, x: Mac, sh: Shadow)
    requires Fits(cfg.hostMode, shared) && Shape(cfg, ss) && Covers(cfg, shared, ss, x, sh)
    ensures var p := LinkDownPort(cfg, ss);
            var w := WatchStep(shared, x, sh, LinkLost, p.out);
            && p.sessions == []
            && w.armed == {} && Closed(w.posture)
            && (shared ==> w.posture == Some(Unauthorized))
  {
    var each := LinkDownEach(cfg, ss);
    LinkDownFacts(cfg, ss, sh, shared, x);
    WatchAppend(sh, shared, x, each.out, [PORT_CLOSED]);
    WatchSingle(Watch(sh, shared, x, each.out), shared, x, PORT_CLOSED);
  }

  /** The port's sessions after `inputs`, from bring-up. */
  function PortRun(cfg: PaeConfig, inputs: seq<PortInput>): seq<Session>
    decreases |inputs|
  {
    if inputs == [] then []
    else PortStep(cfg, PortRun(cfg, inputs[..|inputs| - 1]), inputs[|inputs| - 1]).sessions
  }

  /** What the run has left behind for `mac`; bring-up commands the port closed. */
  function PortShadow(cfg: PaeConfig, shared: bool, inputs: seq<PortInput>, mac: Mac): Shadow
    decreases |inputs|
  {
    if inputs == [] then Watch(Shadow(None, {}, []), shared, mac, [PORT_CLOSED])
    else
      var n := |inputs| - 1;
      WatchStep(shared, mac, PortShadow(cfg, shared, inputs[..n], mac), inputs[n],
                PortStep(cfg, PortRun(cfg, inputs[..n]), inputs[n]).out)
  }

  lemma {:induction false} RunCovers(cfg: PaeConfig, shared: bool, inputs: seq<PortInput>, x: Mac, y: Mac)
    requires Fits(cfg.hostMode, shared)
    ensures Shape(cfg, PortRun(cfg, inputs))
    ensures Covers(cfg, shared, PortRun(cfg, inputs), x, PortShadow(cfg, shared, inputs, x))
    ensures Agree(shared, PortShadow(cfg, shared, inputs, x), PortShadow(cfg, shared, inputs, y))
    decreases |inputs|
  {
    if inputs == [] {
      WatchSingle(Shadow(None, {}, []), shared, x, PORT_CLOSED);
      WatchSingle(Shadow(None, {}, []), shared, y, PORT_CLOSED);
    } else {
      var n := |inputs| - 1;
      var ss, input := PortRun(cfg, inputs[..n]), inputs[n];
      var sx, sy := PortShadow(cfg, shared, inputs[..n], x), PortShadow(cfg, shared, inputs[..n], y);
      match input {
        case Feed(mac, ev) =>
          var own := PortShadow(cfg, shared, inputs[..n], mac);
          RunCovers(cfg, shared, inputs[..n], mac, x);
          RunCovers(cfg, shared, inputs[..n], x, mac);
          RunCovers(cfg, shared, inputs[..n], y, mac);
          HandleFacts(cfg, ss, mac, ev, x);
          FeedCovers(cfg, shared, ss, mac, ev, own, x, sx);
          FeedCovers(cfg, shared, ss, mac, ev, own, y, sy);
        case LinkLost =>
          RunCovers(cfg, shared, inputs[..n], x, y);
          RunCovers(cfg, shared, inputs[..n], y, x);
          LinkLostCovers(cfg, shared, ss, x, sx);
          LinkLostCovers(cfg, shared, ss, y, sy);
      }
    }
  }

  /** Admission stops exactly at the capacity of the host mode. */
  lemma AdmissionAgrees(cfg: PaeConfig, ss: seq<Session>)
    requires Shape(cfg, ss)
    ensures CanAdmit(cfg.hostMode, ss) <==>
            (MaxSessions(cfg.hostMode).Some? ==> |ss| < MaxSessions(cfg.hostMode).value)
  {
    PruneNothing(ss);
  }

  /**
   After every run: MACs are pairwise distinct, no session is New, capacity holds and
   decides admission; each live session mirrors the posture and timers commanded for
   it; and a target without a live session was last told Unauthorized, or nothing.
   The target is the MAC, or the whole port when its posture is read as shared.
   */
  lemma PortInvariant(cfg: PaeConfig, shared: bool, inputs: seq<PortInput>, mac: Mac)
    requires Fits(cfg.hostMode, shared)
    ensures var ss, sh := PortRun(cfg, inputs), PortShadow(cfg, shared, inputs, mac);
            && Distinct(ss) && NoneNew(ss)
            && (MaxSessions(cfg.hostMode).Some? ==> |ss| <= MaxSessions(cfg.hostMode).value)
            && (CanAdmit(cfg.hostMode, ss) <==>
                (MaxSessions(cfg.hostMode).Some? ==> |ss| < MaxSessions(cfg.hostMode).value))
            && (Lookup(ss, mac).Some? ==> Sound(cfg, Lookup(ss, mac).value, sh))
            && (Lookup(ss, mac).None? ==> sh.armed == {})
            && (Lookup(ss, mac).None? && (!shared || ss == []) ==> Closed(sh.posture))
  {
    RunCovers(cfg, shared, inputs, mac, mac);
    AdmissionAgrees(cfg, PortRun(cfg, inputs));
  }

  // ---- non-interference in MultiAuth ----

  /** The effects directed at `mac`, in order. */
  function EffectsFor(out: seq<Directed>, mac: Mac): seq<Effect> {
    if out == [] then [] else (if out[0].mac == Some(mac) then [out[0].effect] else []) + EffectsFor(out[1..], mac)
  }

  /** A machine that knows one MAC only: created on contact, dropped at `New`. */
  datatype Lone = Lone(session: Option<Session>, fx: seq<Effect>)

  function LoneStep(cfg: PaeConfig, mac: Mac, so: Option<Session>, input: PortInput): Lone {
    match input
    case Feed(_, ev) =>
      var o := Serve(cfg, mac, so, ev);
      Lone(Live(o.s), o.fx)
    case LinkLost =>
      Lone(None, if so.Some? then Step(so.value, LinkDown, cfg).fx else [])
  }

  /** The inputs that concern `mac`. */
  predicate Concerns(input: PortInput, mac: Mac) {
    input.LinkLost? || input.mac == mac
  }

  function LoneRun(cfg: PaeConfig, mac: Mac, inputs: seq<PortInput>): Lone
    decreases |inputs|
  {
    if inputs == [] then Lone(None, [])
    else
      var was := LoneRun(cfg, mac, inputs[..|inputs| - 1]);
      var now := LoneStep(cfg, mac, was.session, inputs[|inputs| - 1]);
      Lone(now.session, was.fx + now.fx)
  }

  function Only(inputs: seq<PortInput>, mac: Mac): seq<PortInput>
    decreases |inputs|
  {
    if inputs == [] then []
    else
      var n := |inputs| - 1;
      Only(inputs[..n], mac) + (if Concerns(inputs[n], mac) then [inputs[n]] else [])
  }

  /** Everything a port has directed, in order. */
  function PortLog(cfg: PaeConfig, inputs: seq<PortInput>): seq<Directed>
    decreases |inputs|
  {
    if inputs == [] then []
    else
      var n := |inputs| - 1;
      PortLog(cfg, inputs[..n]) + PortStep(cfg, PortRun(cfg, inputs[..n]), inputs[n]).out
  }

  lemma {:induction false} EffectsForAppend(a: seq<Directed>, b: seq<Directed>, mac: Mac)
    ensures EffectsFor(a + b, mac) == EffectsFor(a, mac) + EffectsFor(b, mac)
  {
    if a == [] {
      assert a + b == b;
    } else {
      assert (a + b)[1..] == a[1..] + b;
      EffectsForAppend(a[1..], b, mac);
    }
  }

  lemma {:induction false} EffectsForDirected(mac: Mac, x: Mac, fx: seq<Effect>)
    ensures EffectsFor(DirectAll(mac, fx), x) == if x == mac then fx else []
    ensures Decorate(MultiAuth, mac, fx) == DirectAll(mac, fx)
  {
    if fx == [] {
    } else {
      assert DirectAll(mac, fx)[1..] == DirectAll(mac, fx[1..]);
      EffectsForDirected(mac, x, fx[1..]);
    }
  }

  lemma {:induction false} EffectsForLinkDown(cfg: PaeConfig, ss: seq<Session>, x: Mac)
    requires Distinct(ss)
    ensures EffectsFor(LinkDownEach(cfg, ss).out, x) ==
            if Lookup(ss, x).Some? then Step(Lookup(ss, x).value, LinkDown, cfg).fx else []
  {
    if ss == [] {
    } else {
      var fx := Step(ss[0], LinkDown, cfg).fx;
      EffectsForAppend(DirectAll(ss[0].mac, fx), LinkDownEach(cfg, ss[1..]).out, x);
      EffectsForDirected(ss[0].mac, x, fx);
      EffectsForLinkDown(cfg, ss[1..], x);
      LookupSome(ss[1..], ss[0].mac);
      assert forall i :: 0 <= i < |ss[1..]| ==> ss[1..][i] == ss[i + 1];
    }
  }

  /** One input moves a MultiAuth port's view of `mac` exactly as it moves the lone machine. */
  lemma PortStepIsLone(cfg: PaeConfig, ss: seq<Session>, input: PortInput, mac: Mac)
    requires cfg.hostMode == MultiAuth && Shape(cfg, ss)
    ensures var p := PortStep(cfg, ss, input);
            && Shape(cfg, p.sessions)
            && (if Concerns(input, mac) then
                  Lone(Lookup(p.sessions, mac), EffectsFor(p.out, mac)) == LoneStep(cfg, mac, Lookup(ss, mac), input)
                else Lookup(p.sessions, mac) == Lookup(ss, mac) && EffectsFor(p.out, mac) == [])
  {
    match input {
      case Feed(m, ev) =>
        HandleFacts(cfg, ss, m, ev, mac);
        EffectsForDirected(m, mac, Serve(cfg, m, Lookup(ss, m), ev).fx);
      case LinkLost =>
        LinkDownFacts(cfg, ss, Shadow(None, {}, []), false, mac);
        EffectsForLinkDown(cfg, ss, mac);
        EffectsForAppend(LinkDownEach(cfg, ss).out, [PORT_CLOSED], mac);
        assert [PORT_CLOSED][1..] == [];
    }
  }

  lemma OnlySnoc(inputs: seq<PortInput>, mac: Mac)
    requires inputs != []
    ensures var n := |inputs| - 1;
            Only(inputs, mac) == if Concerns(inputs[n], mac) then Only(inputs[..n], mac) + [inputs[n]] else Only(inputs[..n], mac)
  {
  }

  lemma LoneSnoc(cfg: PaeConfig, mac: Mac, inputs: seq<PortInput>, input: PortInput)
    ensures var was := LoneRun(cfg, mac, inputs);
            var now := LoneStep(cfg, mac, was.session, input);
            LoneRun(cfg, mac, inputs + [input]) == Lone(now.session, was.fx + now.fx)
  {
    assert (inputs + [input])[..|inputs|] == inputs;
  }

  /**
   Non-interference: over every interleaving, what a MultiAuth port keeps for `mac`
   and directs at it is what a lone machine fed only the inputs for `mac` would.
   */
  lemma {:induction false} NonInterference(cfg: PaeConfig, inputs: seq<PortInput>, mac: Mac)
    requires cfg.hostMode == MultiAuth
    ensures Shape(cfg, PortRun(cfg, inputs))
    ensures Lone(Lookup(PortRun(cfg, inputs), mac), EffectsFor(PortLog(cfg, inputs), mac)) ==
            LoneRun(cfg, mac, Only(inputs, mac))
    decreases |inputs|
  {
    if inputs == [] {
    } else {
      var n := |inputs| - 1;
      var ss := PortRun(cfg, inputs[..n]);
      NonInterference(cfg, inputs[..n], mac);
      PortStepIsLone(cfg, ss, inputs[n], mac);
      EffectsForAppend(PortLog(cfg, inputs[..n]), PortStep(cfg, ss, inputs[n]).out, mac);
      OnlySnoc(inputs, mac);
      LoneSnoc(cfg, mac, Only(inputs[..n], mac), inputs[n]);
    }
  }
}
