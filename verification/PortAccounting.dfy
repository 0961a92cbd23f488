/** Accounting per MAC, over every run of a whole port. */
module PortAccounting {
  import opened Wrappers
  import opened Octets
  import opened PaeTypes
  import opened PaeSession
  import opened PaeRuns
  import opened PaeTheorems
  import opened PaePort
  import opened PortTheorems

  /** Whether `x` has a live session with accounting open. */
  predicate OpenFor(ss: seq<Session>, x: Mac) {
    Lookup(ss, x).Some? && Lookup(ss, x).value.acctOpen
  }

  /** The live session of `x`, or the new one that a first contact would start from, with its shadow. */
  function Seen(ss: seq<Session>, x: Mac, sh: Shadow): Trail {
    Trail(if Lookup(ss, x).Some? then Lookup(ss, x).value else NewSession(x), sh)
  }

  /** Every `Enable` fed to the port for `x` found its accounting closed. */
  predicate EnablesClosed(cfg: PaeConfig, inputs: seq<PortInput>, x: Mac)
    decreases |inputs|
  {
    inputs == [] ||
    var n := |inputs| - 1;
    && EnablesClosed(cfg, inputs[..n], x)
    && (inputs[n] == Feed(x, Enable) ==> !OpenFor(PortRun(cfg, inputs[..n]), x))
  }

  /** An input for `x`, accepted or refused, moves its accounting as one step of a session does. */
  lemma OwnInputMoves(cfg: PaeConfig, shared: bool, ss: seq<Session>, x: Mac, ev: Event, sh: Shadow)
    requires Fits(cfg.hostMode, shared) && Shape(cfg, ss) && Covers(cfg, shared, ss, x, sh)
    ensures var p := Handle(cfg, ss, x, ev);
            AccountingDelta(Seen(ss, x, sh), ev, Seen(p.sessions, x, WatchStep(shared, x, sh, Feed(x, ev), p.out)))
  {
    HandleFacts(cfg, ss, x, ev, x);
    if Accepts(cfg, ss, x) {
      PruneNothing(ss);
      FeedOwn(cfg, shared, ss, x, ev, sh);
      ServeSound(cfg, x, Lookup(ss, x), ev, sh);
    }
  }

  lemma OtherInputStays(cfg: PaeConfig, shared: bool, ss: seq<Session>, mac: Mac, ev: Event, x: Mac, sh: Shadow)
    requires Shape(cfg, ss) && x != mac
    ensures var p := Handle(cfg, ss, mac, ev);
            && Lookup(p.sessions, x) == Lookup(ss, x)
            && WatchStep(shared, x, sh, Feed(mac, ev), p.out).log == sh.log
  {
    HandleFacts(cfg, ss, mac, ev, x);
    WatchOther(sh, cfg.hostMode, shared, mac, x, Serve(cfg, mac, Lookup(ss, mac), ev).fx, sh);
  }

  lemma LinkLostMoves(cfg: PaeConfig, shared: bool, ss: seq<Session>, x: Mac, sh: Shadow)
    requires Shape(cfg, ss)
    ensures var p := LinkDownPort(cfg, ss);
            AccountingDelta(Seen(ss, x, sh), LinkDown, Seen(p.sessions, x, WatchStep(shared, x, sh, LinkLost, p.out)))
  {
    var each := LinkDownEach(cfg, ss);
    LinkDownFacts(cfg, ss, sh, shared, x);
    WatchAppend(sh, shared, x, each.out, [PORT_CLOSED]);
    WatchSingle(Watch(sh, shared, x, each.out), shared, x, PORT_CLOSED);
  }

  predicate BalancedOrBroken(balanced: bool, t: Trail) {
    if balanced then Balanced(t.m.log, t.s.acctOpen) else Broken(t.m.log, t.s.acctOpen)
  }

  lemma BalanceMoves(balanced: bool, t: Trail, ev: Event, u: Trail)
    requires BalancedOrBroken(balanced, t) && AccountingDelta(t, ev, u)
    ensures BalancedOrBroken(balanced && !(ev.Enable? && t.s.acctOpen), u)
  {
    if balanced {
      BalanceStep(t, ev, u);
    } else {
      BrokenStays(t, ev, u);
    }
  }

  lemma {:induction false} BalancedUpToHere(cfg: PaeConfig, shared: bool, inputs: seq<PortInput>, x: Mac)
    requires Fits(cfg.hostMode, shared)
    ensures BalancedOrBroken(EnablesClosed(cfg, inputs, x), Seen(PortRun(cfg, inputs), x, PortShadow(cfg, shared, inputs, x)))
    decreases |inputs|
  {
    if inputs == [] {
      WatchSingle(Shadow(None, {}, []), shared, x, PORT_CLOSED);
    } else {
      var n := |inputs| - 1;
      var ss, sh := PortRun(cfg, inputs[..n]), PortShadow(cfg, shared, inputs[..n], x);
      var p, balanced := PortStep(cfg, ss, inputs[n]), EnablesClosed(cfg, inputs[..n], x);
      var t, u := Seen(ss, x, sh), Seen(p.sessions, x, WatchStep(shared, x, sh, inputs[n], p.out));
      BalancedUpToHere(cfg, shared, inputs[..n], x);
      RunCovers(cfg, shared, inputs[..n], x, x);
      match inputs[n] {
        case Feed(mac, ev) =>
          if mac == x {
            OwnInputMoves(cfg, shared, ss, x, ev, sh);
            BalanceMoves(balanced, t, ev, u);
          } else {
            OtherInputStays(cfg, shared, ss, mac, ev, x, sh);
          }
        case LinkLost =>
          LinkLostMoves(cfg, shared, ss, x, sh);
          BalanceMoves(balanced, t, LinkDown, u);
      }
    }
  }

  /**
   Over every interleaving, for every MAC, through every session it has had: the triggers
   directed at it alternate and end in Start exactly while its live session is open, if and
   only if no `Enable` fed for it found accounting open.
   */
  lemma PortAccountingBalanced(cfg: PaeConfig, shared: bool, inputs: seq<PortInput>, x: Mac)
    requires Fits(cfg.hostMode, shared)
    ensures Balanced(PortShadow(cfg, shared, inputs, x).log, OpenFor(PortRun(cfg, inputs), x))
       <==> EnablesClosed(cfg, inputs, x)
  {
    BalancedUpToHere(cfg, shared, inputs, x);
  }
}
