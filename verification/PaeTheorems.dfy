/** What holds of one supplicant session after every event sequence. */
module PaeTheorems {
  import opened Wrappers
  import opened Octets
  import opened Pacp
  import opened PaeTypes
  import opened PaeSession
  import opened PaeRuns

  /** The session and its shadow before the first event and after each one. */
  function Trails(cfg: PaeConfig, mac: Mac, evs: seq<Event>): (ts: seq<Trail>)
    ensures |ts| == |evs| + 1
    decreases |evs|
  {
    if evs == [] then [Trail(NewSession(mac), Shadow(None, {}, []))]
    else
      var ts := Trails(cfg, mac, evs[..|evs| - 1]);
      ts + [Advance(cfg, ts[|evs| - 1], evs[|evs| - 1])]
  }

  /** The session and its shadow after all of `evs`. */
  function Run(cfg: PaeConfig, mac: Mac, evs: seq<Event>): Trail {
    Trails(cfg, mac, evs)[|evs|]
  }

  /** Step by step, `ts` starts empty-handed and every step is good. */
  ghost predicate GoodTrails(cfg: PaeConfig, evs: seq<Event>, ts: seq<Trail>) {
    && |ts| == |evs| + 1
    && ts[0].m == Shadow(None, {}, [])
    && !ts[0].s.acctOpen
    && (forall i :: 0 <= i < |ts| ==> Sound(cfg, ts[i].s, ts[i].m))
    && (forall i :: 0 <= i < |evs| ==> Good(cfg, ts[i], evs[i], ts[i + 1]))
  }

  /** One more event adds one trail and leaves the earlier ones. */
  lemma TrailsFront(cfg: PaeConfig, mac: Mac, evs: seq<Event>, i: nat)
    requires i < |evs|
    ensures Trails(cfg, mac, evs)[i] == Trails(cfg, mac, evs[..|evs| - 1])[i]
  {
  }

  lemma RunSplit(cfg: PaeConfig, mac: Mac, evs: seq<Event>)
    requires evs != []
    ensures var n := |evs| - 1; Run(cfg, mac, evs) == Advance(cfg, Run(cfg, mac, evs[..n]), evs[n])
  {
  }

  lemma {:induction false} TrailsPrefix(cfg: PaeConfig, mac: Mac, evs: seq<Event>, i: nat)
    requires i <= |evs|
    ensures Trails(cfg, mac, evs)[i] == Run(cfg, mac, evs[..i])
    decreases |evs|
  {
    if i == |evs| {
      assert evs[..i] == evs;
    } else {
      var front := evs[..|evs| - 1];
      TrailsFront(cfg, mac, evs, i);
      TrailsPrefix(cfg, mac, front, i);
      assert front[..i] == evs[..i];
    }
  }

  lemma TrailsStep(cfg: PaeConfig, mac: Mac, evs: seq<Event>, i: nat)
    requires i < |evs|
    ensures var ts := Trails(cfg, mac, evs); ts[i + 1] == Advance(cfg, ts[i], evs[i])
  {
    TrailsPrefix(cfg, mac, evs, i);
    TrailsPrefix(cfg, mac, evs, i + 1);
    RunSplit(cfg, mac, evs[..i + 1]);
    assert evs[..i + 1][..i] == evs[..i];
  }

  lemma TrailsStart(cfg: PaeConfig, mac: Mac, evs: seq<Event>)
    ensures Trails(cfg, mac, evs)[0] == Trail(NewSession(mac), Shadow(None, {}, []))
  {
    TrailsPrefix(cfg, mac, evs, 0);
    assert evs[..0] == [];
  }

  /** Each trail makes the next one good. */
  lemma TrailGood(cfg: PaeConfig, mac: Mac, evs: seq<Event>, i: nat)
    requires i < |evs| && Sound(cfg, Trails(cfg, mac, evs)[i].s, Trails(cfg, mac, evs)[i].m)
    ensures Good(cfg, Trails(cfg, mac, evs)[i], evs[i], Trails(cfg, mac, evs)[i + 1])
  {
    TrailsStep(cfg, mac, evs, i);
    AdvanceSound(cfg, Trails(cfg, mac, evs)[i], evs[i]);
  }

  lemma {:induction false} TrailSound(cfg: PaeConfig, mac: Mac, evs: seq<Event>, i: nat)
    requires i <= |evs|
    ensures Sound(cfg, Trails(cfg, mac, evs)[i].s, Trails(cfg, mac, evs)[i].m)
    decreases i
  {
    if i == 0 {
      TrailsStart(cfg, mac, evs);
    } else {
      TrailSound(cfg, mac, evs, i - 1);
      TrailGood(cfg, mac, evs, i - 1);
    }
  }

  lemma TrailsGood(cfg: PaeConfig, mac: Mac, evs: seq<Event>)
    ensures GoodTrails(cfg, evs, Trails(cfg, mac, evs))
  {
    var ts := Trails(cfg, mac, evs);
    TrailsStart(cfg, mac, evs);
    forall i | 0 <= i < |ts|
      ensures Sound(cfg, ts[i].s, ts[i].m)
    {
      TrailSound(cfg, mac, evs, i);
    }
    forall i | 0 <= i < |evs|
      ensures Good(cfg, ts[i], evs[i], ts[i + 1])
    {
      TrailGood(cfg, mac, evs, i);
    }
  }

  /** The posture last commanded mirrors the session's own record, in every state. */
  lemma PostureMirror(cfg: PaeConfig, mac: Mac, evs: seq<Event>)
    ensures var t := Run(cfg, mac, evs);
            && (forall a :: t.m.posture == Some(Authorized(a)) <==> t.s.authz == Some(a))
            && (t.s.acctOpen <==> t.s.authz.Some?)
            && (t.s.state == New ==> t.m.posture.None? || t.m.posture == Some(Unauthorized))
            && (t.s.state == Held ==> t.m.posture == Some(Unauthorized))
            && (t.s.state == Authenticated ==> t.m.posture.Some? && t.m.posture.value.Authorized?)
            && (forall r :: t.s.state == Fallback(r) ==>
                  FallbackVlanFor(cfg, r).Some? && t.m.posture == Some(FallbackVlan(r, FallbackVlanFor(cfg, r))))
  {
    TrailsGood(cfg, mac, evs);
  }

  /** No waiting state is stranded, and resting states leave no timer behind. */
  lemma NoStateStranded(cfg: PaeConfig, mac: Mac, evs: seq<Event>)
    ensures var t := Run(cfg, mac, evs);
            && (t.s.state == Connecting ==> TxPeriod in t.m.armed)
            && (t.s.state == AuthServer ==> ServerTimeout in t.m.armed)
            && (t.s.state == Authenticating ==> SuppTimeout in t.m.armed)
            && (t.s.state == Authenticated && cfg.reauthEnabled ==> Reauth in t.m.armed)
            && (t.s.state == Held ==> t.m.armed == {HeldPeriod})
            && (t.s.state == Fallback(Critical) ==> t.m.armed == {ServerTimeout})
            && (t.s.state in {New, Fallback(Guest), Fallback(AuthFail)} ==> t.m.armed == {})
  {
    TrailsGood(cfg, mac, evs);
  }

  // ---- accounting ----

  /** Start, Stop, Start, and so on. */
  predicate Alternates(log: seq<AcctTrigger>) {
    forall i :: 0 <= i < |log| ==> (log[i] == Start <==> i % 2 == 0)
  }

  predicate Balanced(log: seq<AcctTrigger>, open: bool) {
    Alternates(log) && (open <==> |log| % 2 == 1)
  }

  /** Among the first `n` events, every `Enable` found accounting closed. */
  predicate EnabledOnlyClosed(evs: seq<Event>, ts: seq<Trail>, n: nat)
    requires n <= |evs| < |ts|
  {
    forall i :: 0 <= i < n && evs[i].Enable? ==> !ts[i].s.acctOpen
  }

  /** Once out of balance, always out of balance. */
  predicate Broken(log: seq<AcctTrigger>, open: bool) {
    !Alternates(log) || (|log| % 2 == 1 && !open)
  }

  lemma BrokenStays(t: Trail, ev: Event, u: Trail)
    requires AccountingDelta(t, ev, u) && Broken(t.m.log, t.s.acctOpen)
    ensures Broken(u.m.log, u.s.acctOpen)
  {
    assert |u.m.log| >= |t.m.log| && u.m.log[..|t.m.log|] == t.m.log;
    if !Alternates(t.m.log) {
      var i :| 0 <= i < |t.m.log| && !(t.m.log[i] == Start <==> i % 2 == 0);
      assert u.m.log[i] == t.m.log[i];
    } else if u.m.log != t.m.log {
      assert u.m.log[|t.m.log|] == Start;
    }
  }

  lemma BalanceStep(t: Trail, ev: Event, u: Trail)
    requires AccountingDelta(t, ev, u) && Balanced(t.m.log, t.s.acctOpen)
    ensures if ev.Enable? && t.s.acctOpen then Broken(u.m.log, u.s.acctOpen) else Balanced(u.m.log, u.s.acctOpen)
  {
  }

  lemma {:induction false} BalancedUpTo(cfg: PaeConfig, evs: seq<Event>, ts: seq<Trail>, n: nat)
    requires GoodTrails(cfg, evs, ts) && n <= |evs|
    ensures if EnabledOnlyClosed(evs, ts, n) then Balanced(ts[n].m.log, ts[n].s.acctOpen)
            else Broken(ts[n].m.log, ts[n].s.acctOpen)
  {
    if n == 0 {
    } else {
      BalancedUpTo(cfg, evs, ts, n - 1);
      assert Good(cfg, ts[n - 1], evs[n - 1], ts[n - 1 + 1]);
      if EnabledOnlyClosed(evs, ts, n - 1) {
        BalanceStep(ts[n - 1], evs[n - 1], ts[n]);
      } else {
        BrokenStays(ts[n - 1], evs[n - 1], ts[n]);
      }
    }
  }

  /**
   Triggers alternate and end in Start exactly while accounting is open, if and
   only if no `Enable` arrived while it was open. In particular a re-authentication
   never sends a second Start.
   */
  lemma AccountingBalanced(cfg: PaeConfig, mac: Mac, evs: seq<Event>)
    ensures var t := Run(cfg, mac, evs);
            Balanced(t.m.log, t.s.acctOpen) <==> EnabledOnlyClosed(evs, Trails(cfg, mac, evs), |evs|)
  {
    TrailsGood(cfg, mac, evs);
    BalancedUpTo(cfg, evs, Trails(cfg, mac, evs), |evs|);
  }

  /** `Enable` on an open session does lose the Stop: from there on the log is broken for good. */
  lemma EnableLosesStop(cfg: PaeConfig, t: Trail)
    requires Sound(cfg, t.s, t.m) && t.s.acctOpen && Balanced(t.m.log, true)
    ensures var u := Advance(cfg, t, Enable); u.m.log == t.m.log && !u.s.acctOpen && !Balanced(u.m.log, u.s.acctOpen)
  {
    AdvanceSound(cfg, t, Enable);
  }

  /** After any run that leaves accounting open, an `Enable` unbalances the log, whatever follows. */
  lemma EnableBreaksBalance(cfg: PaeConfig, mac: Mac, evs: seq<Event>, more: seq<Event>)
    requires Run(cfg, mac, evs).s.acctOpen
    ensures var t := Run(cfg, mac, evs + [Enable] + more); !Balanced(t.m.log, t.s.acctOpen)
  {
    var all := evs + [Enable] + more;
    assert all[..|evs|] == evs;
    TrailsPrefix(cfg, mac, all, |evs|);
    assert all[|evs|].Enable? && Trails(cfg, mac, all)[|evs|].s.acctOpen;
    AccountingBalanced(cfg, mac, all);
  }

  /** One supplicant admitted by an Access-Accept. */
  function AdmittedBy(packet: Bytes, a: Authorization): seq<Event> {
    [Enable, EapFromSupplicant(InboundEap(EapResponse, 0, Some(Identity), packet)), AccessAccept(a, None)]
  }

  lemma AdmittedOpens(cfg: PaeConfig, mac: Mac, packet: Bytes, a: Authorization)
    ensures var t := Run(cfg, mac, AdmittedBy(packet, a)); t.m.log == [Start] && t.s.acctOpen
  {
    var evs := AdmittedBy(packet, a);
    var ts := Trails(cfg, mac, evs);
    TrailsGood(cfg, mac, evs);
    TrailsStart(cfg, mac, evs);
    TrailsStep(cfg, mac, evs, 0);
    TrailsStep(cfg, mac, evs, 1);
    TrailsStep(cfg, mac, evs, 2);
    assert Good(cfg, ts[0], evs[0], ts[1]) && Good(cfg, ts[1], evs[1], ts[2]);
    assert ts[2].s.state == AuthServer && !ts[2].s.acctOpen;
    AfterAuthorize(ts[2].m, ts[2].s, a, None, cfg);
  }

  /** The run on which balance fails: an outside `Enable` on that session leaves a Start nothing will stop. */
  lemma EnableLosesStopWitness(cfg: PaeConfig, mac: Mac, packet: Bytes, a: Authorization)
    ensures var t := Run(cfg, mac, AdmittedBy(packet, a) + [Enable]);
            t.m.log == [Start] && !t.s.acctOpen && !Balanced(t.m.log, t.s.acctOpen)
  {
    var evs := AdmittedBy(packet, a);
    AdmittedOpens(cfg, mac, packet, a);
    TrailsGood(cfg, mac, evs);
    assert (evs + [Enable])[..|evs|] == evs;
    TrailsPrefix(cfg, mac, evs + [Enable], |evs|);
    TrailsStep(cfg, mac, evs + [Enable], |evs|);
    EnableLosesStop(cfg, Run(cfg, mac, evs));
  }

  // ---- justification ----

  predicate Forwarding(t: Trail) {
    t.m.posture.Some? && t.m.posture.value.Authorized?
  }

  /** The port has forwarded after every event from `i` up to the `n`th. */
  predicate ForwardingSince(ts: seq<Trail>, i: nat, n: nat)
    requires n < |ts|
  {
    forall j :: i < j <= n ==> Forwarding(ts[j])
  }

  /** Event `i` is the latest grant among the first `n`, it grants `a`, and the port has forwarded since. */
  predicate LatestGrant(evs: seq<Event>, ts: seq<Trail>, i: nat, n: nat, a: Authorization)
    requires i < n <= |evs| < |ts|
  {
    && Granted(ts[i].s, evs[i]) == Some(a)
    && (forall j :: i < j < n ==> Granted(ts[j].s, evs[j]).None?)
    && ForwardingSince(ts, i, n)
  }

  /** An Access-Accept consumed while awaiting the server opened the port and nothing closed it since. */
  predicate OpenedAt(evs: seq<Event>, ts: seq<Trail>, k: nat, n: nat)
    requires k < n <= |evs| < |ts|
  {
    evs[k].AccessAccept? && ts[k].s.state == AuthServer && ForwardingSince(ts, k, n)
  }

  lemma {:induction false} FindGrant(cfg: PaeConfig, evs: seq<Event>, ts: seq<Trail>, n: nat) returns (k: nat, i: nat)
    requires GoodTrails(cfg, evs, ts) && n <= |evs| && Forwarding(ts[n])
    ensures k <= i < n && OpenedAt(evs, ts, k, n)
    ensures LatestGrant(evs, ts, i, n, ts[n].m.posture.value.granted)
  {
    assert n > 0;
    assert Good(cfg, ts[n - 1], evs[n - 1], ts[n - 1 + 1]);
    if evs[n - 1].AccessAccept? && Granted(ts[n - 1].s, evs[n - 1]).Some? {
      k, i := n - 1, n - 1;
    } else {
      k, i := FindGrant(cfg, evs, ts, n - 1);
      if Granted(ts[n - 1].s, evs[n - 1]).Some? {
        i := n - 1;
      }
    }
  }

  /** Some event granted `a`, no later one granted anything, and the port forwarded ever since. */
  ghost predicate GrantStands(evs: seq<Event>, ts: seq<Trail>, n: nat, a: Authorization)
    requires n <= |evs| < |ts|
  {
    exists i :: 0 <= i < n && LatestGrant(evs, ts, i, n, a)
  }

  lemma GrantDecides(cfg: PaeConfig, evs: seq<Event>, ts: seq<Trail>, n: nat, a: Authorization)
    requires GoodTrails(cfg, evs, ts) && n <= |evs|
    ensures ts[n].m.posture == Some(Authorized(a)) <==> GrantStands(evs, ts, n, a)
  {
    if Forwarding(ts[n]) {
      var k, i := FindGrant(cfg, evs, ts, n);
      if j :| 0 <= j < n && LatestGrant(evs, ts, j, n, a) {
        assert j == i;
      }
    }
  }

  /**
   The port forwards with `a` exactly when some Accept or CoA granted `a`, no later
   event granted anything else and no step closed the port in between; and then an
   Access-Accept consumed in `AuthServer` lies at the start of that stretch.
   */
  lemma ForwardingJustified(cfg: PaeConfig, mac: Mac, evs: seq<Event>, a: Authorization)
    ensures Run(cfg, mac, evs).m.posture == Some(Authorized(a))
       <==> GrantStands(evs, Trails(cfg, mac, evs), |evs|, a)
    ensures Forwarding(Run(cfg, mac, evs)) ==>
            exists k :: 0 <= k < |evs| && OpenedAt(evs, Trails(cfg, mac, evs), k, |evs|)
  {
    var ts := Trails(cfg, mac, evs);
    TrailsGood(cfg, mac, evs);
    GrantDecides(cfg, evs, ts, |evs|, a);
    if Forwarding(ts[|evs|]) {
      var k, i := FindGrant(cfg, evs, ts, |evs|);
    }
  }

  /** Step `i` took a session with accounting closed into the fallback for `r`, which stands up to `n`. */
  predicate EnteredAt(cfg: PaeConfig, ts: seq<Trail>, i: nat, n: nat, r: FallbackReason)
    requires i < n < |ts|
  {
    && !ts[i].s.acctOpen
    && ts[i + 1].s.state == Fallback(r)
    && (forall j :: i < j <= n ==> ts[j].m.posture == Some(FallbackVlan(r, FallbackVlanFor(cfg, r))))
  }

  lemma {:induction false} FindEntry(cfg: PaeConfig, evs: seq<Event>, ts: seq<Trail>, n: nat, r: FallbackReason) returns (i: nat)
    requires GoodTrails(cfg, evs, ts) && n <= |evs|
    requires ts[n].m.posture == Some(FallbackVlan(r, FallbackVlanFor(cfg, r)))
    ensures i < n && EnteredAt(cfg, ts, i, n, r)
  {
    assert n > 0;
    assert Good(cfg, ts[n - 1], evs[n - 1], ts[n - 1 + 1]);
    if ts[n - 1].m.posture == ts[n].m.posture {
      i := FindEntry(cfg, evs, ts, n - 1, r);
    } else {
      i := n - 1;
    }
  }

  /**
   A fallback posture was entered at some step by a session with accounting closed,
   carries the VLAN configured for its reason and has stood ever since.
   */
  lemma FallbackJustified(cfg: PaeConfig, mac: Mac, evs: seq<Event>, r: FallbackReason, v: Option<string>)
    requires Run(cfg, mac, evs).m.posture == Some(FallbackVlan(r, v))
    ensures v.Some? && v == FallbackVlanFor(cfg, r)
    ensures exists i :: 0 <= i < |evs| && EnteredAt(cfg, Trails(cfg, mac, evs), i, |evs|, r)
  {
    TrailsGood(cfg, mac, evs);
    var i := FindEntry(cfg, evs, Trails(cfg, mac, evs), |evs|, r);
  }

  // ---- bounded solicitation ----

  lemma TransmissionsBounded(cfg: PaeConfig, mac: Mac, evs: seq<Event>)
    ensures var s := Run(cfg, mac, evs).s;
            s.state != New ==> 1 <= s.txCount <= Max(1, cfg.maxReauthReq)
  {
    TrailsGood(cfg, mac, evs);
  }

  /** The session after `evs`, from any session. */
  function Steps(cfg: PaeConfig, s: Session, evs: seq<Event>): Session
    decreases |evs|
  {
    if evs == [] then s else Steps(cfg, Step(s, evs[0], cfg).s, evs[1..])
  }

  function Expiries(evs: seq<Event>): nat {
    if evs == [] then 0 else (if evs[0] == TimerFired(TxPeriod) then 1 else 0) + Expiries(evs[1..])
  }

  /** One stay in `Connecting`: never left, never re-enabled. */
  predicate Stays(cfg: PaeConfig, s: Session, evs: seq<Event>)
    decreases |evs|
  {
    && s.state == Connecting
    && (evs != [] ==> !evs[0].Enable? && Stays(cfg, Step(s, evs[0], cfg).s, evs[1..]))
  }

  /**
   One stay in `Connecting` survives at most `maxReauthReq - txCount` expiries of
   TxPeriod, whatever EAPOL-Start or LinkUp events interleave; each one is counted.
   */
  lemma {:induction false} StayBounded(cfg: PaeConfig, s: Session, evs: seq<Event>)
    requires Stays(cfg, s, evs)
    ensures Expiries(evs) <= Max(0, cfg.maxReauthReq - s.txCount)
    ensures Steps(cfg, s, evs).txCount == s.txCount + Expiries(evs)
    decreases |evs|
  {
    if evs == [] {
    } else {
      StayBounded(cfg, Step(s, evs[0], cfg).s, evs[1..]);
    }
  }

  // ---- what is said ----

  /** The EAP packets sent to the supplicant, in order. */
  function Said(fx: seq<Effect>): seq<Bytes> {
    if fx == [] then [] else (if fx[0].TxEapToSupplicant? then [fx[0].eap] else []) + Said(fx[1..])
  }

  lemma {:induction false} SaidAppend(a: seq<Effect>, b: seq<Effect>)
    ensures Said(a + b) == Said(a) + Said(b)
  {
    if a == [] {
      assert a + b == b;
    } else {
      assert (a + b)[1..] == a[1..] + b;
      SaidAppend(a[1..], b);
    }
  }

  lemma {:induction false} SaidNothing(fx: seq<Effect>)
    requires forall i :: 0 <= i < |fx| ==> !fx[i].TxEapToSupplicant?
    ensures Said(fx) == []
  {
    if fx == [] {
    } else {
      SaidNothing(fx[1..]);
    }
  }

  lemma SaidOnce(before: seq<Effect>, eap: Bytes, after: seq<Effect>)
    requires forall i :: 0 <= i < |before| ==> !before[i].TxEapToSupplicant?
    requires forall i :: 0 <= i < |after| ==> !after[i].TxEapToSupplicant?
    ensures Said(before + [TxEapToSupplicant(eap)] + after) == [eap]
  {
    SaidNothing(before);
    SaidNothing(after);
    SaidAppend(before + [TxEapToSupplicant(eap)], after);
    SaidAppend(before, [TxEapToSupplicant(eap)]);
    assert [TxEapToSupplicant(eap)][1..] == [];
  }

  /** The EAP a reply carries to a session that awaits it. */
  function Carried(s: Session, ev: Event): Option<Bytes> {
    if s.state != AuthServer then None
    else
      match ev
      case AccessChallenge(eap) => Some(eap)
      case AccessAccept(_, eap) => eap
      case AccessReject(eap) => eap
      case _ => None
  }

  /** One effect list says the carried EAP, or the next identity request, or nothing. */
  predicate Says(s: Session, ev: Event, o: Out) {
    if o.s.eapId != s.eapId then
      o.s.eapId == WrappingNext(s.eapId) && Said(o.fx) == [RequestIdentity(o.s.eapId)] && Carried(s, ev).None?
    else
      Said(o.fx) == if Carried(s, ev).Some? then [Carried(s, ev).value] else []
  }

  lemma SolicitSays(s: Session, tx: U32, first: seq<Effect>)
    requires forall i :: 0 <= i < |first| ==> !first[i].TxEapToSupplicant?
    ensures var o := Solicit(s, tx, first);
            o.s.eapId == WrappingNext(s.eapId) != s.eapId && Said(o.fx) == [RequestIdentity(o.s.eapId)]
  {
    var id := WrappingNext(s.eapId);
    SaidOnce(first, RequestIdentity(id), [ArmTimer(TxPeriod)]);
    assert Solicit(s, tx, first).fx == first + [TxEapToSupplicant(RequestIdentity(id))] + [ArmTimer(TxPeriod)];
  }

  lemma RelaySays(eap: Option<Bytes>, rest: seq<Effect>)
    requires forall i :: 0 <= i < |rest| ==> !rest[i].TxEapToSupplicant?
    ensures Said(Relay(eap) + rest) == if eap.Some? then [eap.value] else []
  {
    SaidAppend(Relay(eap), rest);
    SaidNothing(rest);
    if eap.Some? {
      assert Relay(eap)[1..] == [];
    }
  }

  lemma ReplySays(s: Session, ev: Event, cfg: PaeConfig)
    requires s.state == AuthServer && !Global(ev)
    ensures Says(s, ev, InAuthServer(s, ev, cfg))
  {
    match ev {
      case AccessChallenge(eap) =>
        SaidOnce([CancelTimer(ServerTimeout)], eap, [ArmTimer(SuppTimeout)]);
        assert InAuthServer(s, ev, cfg).fx ==
               [CancelTimer(ServerTimeout)] + [TxEapToSupplicant(eap)] + [ArmTimer(SuppTimeout)];
      case AccessAccept(a, eap) =>
        RelaySays(eap, [CancelAllTimers, SetAuthorization(Authorized(a))] + When(!s.acctOpen, Accounting(Start))
                       + When(cfg.reauthEnabled, ArmTimer(Reauth)) + When(a.sessionTimeout.Some?, ArmTimer(SessionTimeout)));
      case AccessReject(eap) =>
        RelaySays(eap, if s.acctOpen then Teardown(s, ReauthFailure).fx
                       else if cfg.authFailVlan.Some? then EnterFallback(s, AuthFail, cfg.authFailVlan.value).fx
                       else Hold(s).fx);
      case _ => SaidNothing(InAuthServer(s, ev, cfg).fx);
    }
  }

  lemma SolicitingSays(s: Session, ev: Event, cfg: PaeConfig)
    requires s.state == Connecting && !Global(ev)
    ensures Says(s, ev, InConnecting(s, ev, cfg))
  {
    var o := InConnecting(s, ev, cfg);
    if o.s.eapId != s.eapId {
      SaidOnce([], RequestIdentity(o.s.eapId), [ArmTimer(TxPeriod)]);
      assert o.fx == [] + [TxEapToSupplicant(RequestIdentity(o.s.eapId))] + [ArmTimer(TxPeriod)];
    } else {
      SaidNothing(o.fx);
    }
  }

  lemma QuietSays(s: Session, ev: Event, o: Out)
    requires o.s.eapId == s.eapId && Carried(s, ev).None?
    requires forall i :: 0 <= i < |o.fx| ==> !o.fx[i].TxEapToSupplicant?
    ensures Says(s, ev, o)
  {
    SaidNothing(o.fx);
  }

  lemma GlobalSays(s: Session, ev: Event, cfg: PaeConfig)
    requires Global(ev)
    ensures Says(s, ev, Step(s, ev, cfg))
  {
    if ev.Enable? {
      SolicitSays(s.(authz := None, acctOpen := false, kind := Dot1x), 1, [SetAuthorization(Unauthorized)]);
    } else if ev.CoaReauthenticate? && s.state == Authenticated {
      SolicitSays(s, 1, [CancelTimer(Reauth)]);
    } else {
      QuietSays(s, ev, Step(s, ev, cfg));
    }
  }

  lemma RestSays(s: Session, ev: Event, cfg: PaeConfig)
    requires s.state != AuthServer && s.state != Connecting && !Global(ev)
    ensures Says(s, ev, Step(s, ev, cfg))
  {
    var o := Step(s, ev, cfg);
    if o.s.state == Connecting {
      match s.state {
        case Authenticating => SolicitSays(s, s.txCount, [CancelTimer(SuppTimeout)]);
        case Authenticated =>
          SolicitSays(s, 1, [CancelTimer(Reauth)]);
          SolicitSays(Teardown(s, SessionExpired).s, 1, Teardown(s, SessionExpired).fx);
        case Held => SolicitSays(s, 1, [CancelTimer(HeldPeriod)]);
        case Fallback(_) => SolicitSays(s, 1, []);
        case _ =>
      }
    } else {
      QuietSays(s, ev, o);
    }
  }

  /**
   Pass-through: a step sends the supplicant exactly the EAP of the reply it consumes,
   or one identity request with the next identifier, or nothing.
   */
  lemma RelayIsFaithful(s: Session, ev: Event, cfg: PaeConfig)
    ensures Says(s, ev, Step(s, ev, cfg))
  {
    if Global(ev) {
      GlobalSays(s, ev, cfg);
    } else if s.state == AuthServer {
      ReplySays(s, ev, cfg);
    } else if s.state == Connecting {
      SolicitingSays(s, ev, cfg);
    } else {
      RestSays(s, ev, cfg);
    }
  }

  /** The identity requests of a run, in order. */
  function Solicitations(cfg: PaeConfig, mac: Mac, evs: seq<Event>): seq<Bytes>
    decreases |evs|
  {
    if evs == [] then []
    else
      var n := |evs| - 1;
      var s := Run(cfg, mac, evs[..n]).s;
      var o := Step(s, evs[n], cfg);
      Solicitations(cfg, mac, evs[..n]) + if Carried(s, evs[n]).Some? then [] else Said(o.fx)
  }

  /** Identity requests numbered from 1, modulo 256, the last of them with identifier `id`. */
  predicate Numbered(asked: seq<Bytes>, id: Byte) {
    && id == |asked| % 256
    && forall i :: 0 <= i < |asked| ==> asked[i] == RequestIdentity((i + 1) % 256)
  }

  lemma NextNumbered(asked: seq<Bytes>, s: Session, ev: Event, o: Out)
    requires Numbered(asked, s.eapId) && Says(s, ev, o)
    ensures Numbered(asked + if Carried(s, ev).Some? then [] else Said(o.fx), o.s.eapId)
  {
    if o.s.eapId != s.eapId {
      assert WrappingNext(|asked| % 256) == (|asked| + 1) % 256;
    } else {
      assert asked + [] == asked;
    }
  }

  /** Apart from relayed EAP, a run says identity requests only, with identifiers 1, 2, 3 and so on, modulo 256. */
  lemma {:induction false} IdentifiersAdvance(cfg: PaeConfig, mac: Mac, evs: seq<Event>)
    ensures Numbered(Solicitations(cfg, mac, evs), Run(cfg, mac, evs).s.eapId)
    decreases |evs|
  {
    if evs == [] {
    } else {
      var n := |evs| - 1;
      var s := Run(cfg, mac, evs[..n]).s;
      IdentifiersAdvance(cfg, mac, evs[..n]);
      RelayIsFaithful(s, evs[n], cfg);
      RunSplit(cfg, mac, evs);
      NextNumbered(Solicitations(cfg, mac, evs[..n]), s, evs[n], Step(s, evs[n], cfg));
    }
  }

  // ---- what postures a step commands ----

  /** A grant is the one the event carries, and a fallback is the state the step ends in. */
  predicate Justified(granted: Option<Authorization>, to: State, e: Effect) {
    match e
    case SetAuthorization(p) =>
      (match p
       case Unauthorized => true
       case Authorized(a) => granted == Some(a)
       case FallbackVlan(r, _) => to == Fallback(r))
    case _ => true
  }

  predicate AllJustified(granted: Option<Authorization>, to: State, fx: seq<Effect>) {
    forall i :: 0 <= i < |fx| ==> Justified(granted, to, fx[i])
  }

  lemma JustifiedAppend(granted: Option<Authorization>, to: State, a: seq<Effect>, b: seq<Effect>)
    requires AllJustified(granted, to, a) && AllJustified(granted, to, b)
    ensures AllJustified(granted, to, a + b)
  {
  }

  lemma TeardownJustified(granted: Option<Authorization>, to: State, s: Session, cause: TerminateCause)
    ensures AllJustified(granted, to, Teardown(s, cause).fx)
  {
  }

  lemma SolicitJustified(granted: Option<Authorization>, to: State, s: Session, tx: U32, first: seq<Effect>)
    requires AllJustified(granted, to, first)
    ensures AllJustified(granted, to, Solicit(s, tx, first).fx)
  {
    JustifiedAppend(granted, to, first, SendIdentity(s.(state := Connecting, txCount := tx)).fx);
  }

  lemma AuthorizeJustified(to: State, s: Session, a: Authorization, eap: Option<Bytes>, cfg: PaeConfig)
    ensures AllJustified(Some(a), to, Authorize(s, a, eap, cfg).fx)
  {
    var open := [CancelAllTimers, SetAuthorization(Authorized(a))];
    var start, reauth := When(!s.acctOpen, Accounting(Start)), When(cfg.reauthEnabled, ArmTimer(Reauth));
    var expiry := When(a.sessionTimeout.Some?, ArmTimer(SessionTimeout));
    JustifiedAppend(Some(a), to, open, start);
    JustifiedAppend(Some(a), to, open + start, reauth);
    JustifiedAppend(Some(a), to, open + start + reauth, expiry);
    JustifiedAppend(Some(a), to, Relay(eap), open + start + reauth + expiry);
  }

  lemma RejectJustified(granted: Option<Authorization>, s: Session, eap: Option<Bytes>, cfg: PaeConfig)
    ensures AllJustified(granted, Reject(s, eap, cfg).s.state, Reject(s, eap, cfg).fx)
  {
    var to := Reject(s, eap, cfg).s.state;
    TeardownJustified(granted, to, s, ReauthFailure);
    JustifiedAppend(granted, to, Relay(eap),
                    if s.acctOpen then Teardown(s, ReauthFailure).fx
                    else if cfg.authFailVlan.Some? then EnterFallback(s, AuthFail, cfg.authFailVlan.value).fx
                    else Hold(s).fx);
  }

  lemma GlobalJustified(s: Session, ev: Event, cfg: PaeConfig)
    requires Global(ev)
    ensures AllJustified(Granted(s, ev), Step(s, ev, cfg).s.state, Step(s, ev, cfg).fx)
  {
    var to := Step(s, ev, cfg).s.state;
    TeardownJustified(None, to, s, PortLinkDown);
    TeardownJustified(None, to, s, AdminReset);
    SolicitJustified(None, to, s.(authz := None, acctOpen := false, kind := Dot1x), 1, [SetAuthorization(Unauthorized)]);
    SolicitJustified(None, to, s, 1, [CancelTimer(Reauth)]);
  }

  lemma AuthServerJustified(s: Session, ev: Event, cfg: PaeConfig)
    requires s.state == AuthServer && !Global(ev)
    ensures AllJustified(Granted(s, ev), InAuthServer(s, ev, cfg).s.state, InAuthServer(s, ev, cfg).fx)
  {
    match ev {
      case AccessAccept(a, eap) => AuthorizeJustified(Authenticated, s, a, eap, cfg);
      case AccessReject(eap) => RejectJustified(None, s, eap, cfg);
      case EapolLogoff => TeardownJustified(None, New, s, SupplicantLogoff);
      case _ =>
    }
  }

  lemma ConnectingJustified(s: Session, ev: Event, cfg: PaeConfig)
    requires s.state == Connecting
    ensures AllJustified(None, InConnecting(s, ev, cfg).s.state, InConnecting(s, ev, cfg).fx)
  {
    TeardownJustified(None, New, s, SupplicantLogoff);
    TeardownJustified(None, New, s, ReauthFailure);
  }

  lemma AuthenticatingJustified(s: Session, ev: Event)
    requires s.state == Authenticating
    ensures AllJustified(None, InAuthenticating(s, ev).s.state, InAuthenticating(s, ev).fx)
  {
    TeardownJustified(None, New, s, SupplicantLogoff);
    TeardownJustified(None, New, s, ReauthFailure);
    SolicitJustified(None, Connecting, s, s.txCount, [CancelTimer(SuppTimeout)]);
  }

  lemma AuthenticatedJustified(s: Session, ev: Event)
    requires s.state == Authenticated
    ensures AllJustified(None, InAuthenticated(s, ev).s.state, InAuthenticated(s, ev).fx)
  {
    var closed := Teardown(s, SessionExpired);
    TeardownJustified(None, New, s, SupplicantLogoff);
    TeardownJustified(None, Connecting, s, SessionExpired);
    SolicitJustified(None, Connecting, s, 1, [CancelTimer(Reauth)]);
    SolicitJustified(None, Connecting, closed.s, 1, closed.fx);
  }

  lemma RestingJustified(s: Session, ev: Event)
    requires s.state == Held || s.state.Fallback?
    ensures var o := if s.state == Held then InHeld(s, ev) else InFallback(s, ev); AllJustified(None, o.s.state, o.fx)
  {
    SolicitJustified(None, Connecting, s, 1, []);
    SolicitJustified(None, Connecting, s, 1, [CancelTimer(HeldPeriod)]);
  }

  /** A step commands no grant but the one its event carries, and no fallback but the state it ends in. */
  lemma StepJustified(s: Session, ev: Event, cfg: PaeConfig)
    ensures AllJustified(Granted(s, ev), Step(s, ev, cfg).s.state, Step(s, ev, cfg).fx)
  {
    if Global(ev) {
      GlobalJustified(s, ev, cfg);
    } else {
      match s.state {
        case Connecting => ConnectingJustified(s, ev, cfg);
        case AuthServer => AuthServerJustified(s, ev, cfg);
        case Authenticating => AuthenticatingJustified(s, ev);
        case Authenticated => AuthenticatedJustified(s, ev);
        case Held => RestingJustified(s, ev);
        case Fallback(_) => RestingJustified(s, ev);
        case New =>
      }
    }
  }
}
