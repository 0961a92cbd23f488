/** The enforcer when the backend fails: what its record is still worth, and what closes a port again. */
module Recovery {
  import opened Wrappers
  import opened PaeTypes
  import opened Schema
  import opened SchemaTheorems
  import opened PartialWrites
  import opened Enforcer

  // ---- what a call writes, whatever fails ----

  /** How many ops of a plan land. */
  function LandedCount(ops: seq<Op>, fault: Option<nat>): (n: nat)
    ensures n <= |ops| && Landed(ops, fault) == ops[..n]
  {
    |Landed(ops, fault)|
  }

  lemma CheckedProgrammable(es: Es, auth: PortAuthorization, fault: bool)
    requires PreCheck(es.db, FromAuthorization(auth), fault).Ok? && FilterOk(auth)
    ensures Programmable(FromAuthorization(auth))
  {
    var d := FromAuthorization(auth);
    if d.vlan.Some? {
      ValidVlanFits(d.vlan.value);
    }
  }

  lemma ApplyWrites(es: Es, port: string, auth: PortAuthorization, faults: Faults)
    requires PreCheck(es.db, FromAuthorization(auth), faults.check).Ok?
    ensures var out, d := ApplyPosture(es, port, auth, faults), FromAuthorization(auth);
            var ops := Transition(port, Previous(es, port), d);
            && out.es.db == Exec(es.db, ops[..LandedCount(ops, faults.writes)])
            && out.es.applied == if out.r.Ok? then es.applied[port := d] else es.applied
  {
  }

  /** The call names a usable port, and no Filter-Id is a deny table. */
  predicate Admissible(call: EnforcerCall) {
    PortName(call.port) && (call.ApplyCall? ==> FilterOk(call.auth))
  }

  lemma TrapPlanSpares(port: string, q: string)
    requires q != port
    ensures AllSpare(PlanTrap() + PlanClose(port), q)
  {
    GatePlanSpares(port, true, false, q);
    forall db: Db
      ensures SamePort(db, ExecOne(db, PlanTrap()[0]), q)
    {
      TrapFrame(db, q);
    }
    assert Spares(PlanTrap()[0], q);
  }

  /** Whether it succeeds or fails halfway, a call for one port changes nothing another port sees. */
  lemma CallFrame(es: Es, call: EnforcerCall, q: string)
    requires Admissible(call) && Programmable(Previous(es, call.port)) && q != call.port
    ensures var after := PerformCall(es, call).es;
            && SamePort(es.db, after.db, q)
            && (q in after.applied <==> q in es.applied) && Previous(after, q) == Previous(es, q)
  {
    match call {
      case TrapCall(port, faults) =>
        var ops := PlanTrap() + PlanClose(port);
        TrapPlanSpares(port, q);
        SparedByAll(es.db, ops[..LandedCount(ops, faults.writes)], q);
      case ApplyCall(port, auth, faults) =>
        var d := FromAuthorization(auth);
        if PreCheck(es.db, d, faults.check).Ok? {
          CheckedProgrammable(es, auth, faults.check);
          ApplyWrites(es, port, auth, faults);
          var ops := Transition(port, Previous(es, port), d);
          PartFrame(es.db, port, Previous(es, port), d, LandedCount(ops, faults.writes), q);
        }
    }
  }

  /** Every record can be programmed again. */
  predicate RecordsOk(es: Es) {
    forall p :: p in es.applied ==> Programmable(es.applied[p])
  }

  lemma CallKeepsRecords(es: Es, call: EnforcerCall)
    requires Admissible(call) && RecordsOk(es)
    ensures RecordsOk(PerformCall(es, call).es) && Programmable(Previous(es, call.port))
  {
    if call.ApplyCall? && PreCheck(es.db, FromAuthorization(call.auth), call.faults.check).Ok? {
      CheckedProgrammable(es, call.auth, call.faults.check);
      ApplyWrites(es, call.port, call.auth, call.faults);
    }
  }

  // ---- when a failure leaves the record truthful ----

  /** Every other port agrees with its record after a call if it did before. */
  lemma OthersAgree(es: Es, call: EnforcerCall, after: Es)
    requires CacheAgrees(es) && Admissible(call) && after == PerformCall(es, call).es
    ensures forall q :: PortName(q) && q != call.port ==> PortAgrees(after, q)
  {
    assert PortAgrees(es, call.port);
    forall q | PortName(q) && q != call.port
      ensures PortAgrees(after, q)
    {
      CallFrame(es, call, q);
      SameAgrees(es, after, q);
    }
  }

  /**
   After a posture that failed, the record is still truthful if and only if the failure
   came before the writes, or the ops that landed are harmless: none at all, or, for a
   mere closing, the table its rules go into.
   */
  lemma FailedApplyKeepsIff(es: Es, port: string, auth: PortAuthorization, faults: Faults)
    requires CacheAgrees(es) && PortName(port) && port in es.applied && FilterOk(auth)
    requires ApplyPosture(es, port, auth, faults).r.Err?
    ensures var d := FromAuthorization(auth);
            var landed := LandedCount(Transition(port, es.applied[port], d), faults.writes);
            CacheAgrees(ApplyPosture(es, port, auth, faults).es) <==>
            PreCheck(es.db, d, faults.check).Err? || Harmless(es.applied[port], d, landed)
  {
    var after, d := ApplyPosture(es, port, auth, faults).es, FromAuthorization(auth);
    if PreCheck(es.db, d, faults.check).Ok? {
      var was := es.applied[port];
      assert PortAgrees(es, port);
      CheckedProgrammable(es, auth, faults.check);
      ApplyWrites(es, port, auth, faults);
      PartAgreesIff(es.db, port, was, d, LandedCount(Transition(port, was, d), faults.writes));
      OthersAgree(es, ApplyCall(port, auth, faults), after);
      assert PortAgrees(after, port) <==> Agrees(after.db, port, was);
    }
  }

  // ---- a deny rule is never alone ----

  lemma TrapPartGated(db: Db, port: string, n: nat)
    requires Gated(db, port) && n <= |PlanTrap() + PlanClose(port)|
    ensures Gated(Exec(db, (PlanTrap() + PlanClose(port))[..n]), port)
  {
    var ops, trapped := PlanTrap() + PlanClose(port), ExecOne(db, PlanTrap()[0]);
    if n == 0 {
      assert ops[..n] == [];
    } else {
      TrapFrame(db, port);
      UntouchedGated(db, trapped, port);
      assert ops[..n][1..] == PlanClose(port)[..n - 1];
      ClosePartGated(trapped, port, n - 1);
    }
  }

  lemma OwnGated(es: Es, call: EnforcerCall)
    requires Admissible(call) && Programmable(Previous(es, call.port)) && Gated(es.db, call.port)
    ensures Gated(PerformCall(es, call).es.db, call.port)
  {
    match call {
      case TrapCall(port, faults) =>
        var ops := PlanTrap() + PlanClose(port);
        TrapPartGated(es.db, port, LandedCount(ops, faults.writes));
      case ApplyCall(port, auth, faults) =>
        var d := FromAuthorization(auth);
        if PreCheck(es.db, d, faults.check).Ok? {
          CheckedProgrammable(es, auth, faults.check);
          ApplyWrites(es, port, auth, faults);
          var ops := Transition(port, Previous(es, port), d);
          PartGated(es.db, port, Previous(es, port), d, LandedCount(ops, faults.writes));
        }
    }
  }

  lemma CallGated(es: Es, call: EnforcerCall, port: string)
    requires Admissible(call) && Programmable(Previous(es, call.port)) && Gated(es.db, port)
    ensures Gated(PerformCall(es, call).es.db, port)
  {
    if call.port == port {
      OwnGated(es, call);
    } else {
      CallFrame(es, call, port);
      UntouchedGated(es.db, PerformCall(es, call).es.db, port);
    }
  }

  predicate AllAdmissible(calls: seq<EnforcerCall>) {
    forall i :: 0 <= i < |calls| ==> Admissible(calls[i])
  }

  lemma {:induction false} GateNeverHalf(es: Es, calls: seq<EnforcerCall>, port: string)
    requires RecordsOk(es) && Gated(es.db, port) && AllAdmissible(calls)
    ensures RecordsOk(EnforcerRun(es, calls)) && Gated(EnforcerRun(es, calls).db, port)
    decreases |calls|
  {
    if calls == [] {
    } else {
      CallKeepsRecords(es, calls[0]);
      CallGated(es, calls[0], port);
      GateNeverHalf(PerformCall(es, calls[0]).es, calls[1..], port);
    }
  }

  /**
   Over any history at all, of any ports and with backend failures anywhere in it, an
   Unauthorized that reports success left the whole closed gate in place: the deny rule, the
   EAPOL permit above it and the table they are in. All the start owes is that this port has
   no deny rule without the rest.
   */
  lemma SuccessMeansClosed(es: Es, calls: seq<EnforcerCall>, port: string, faults: Faults)
    requires RecordsOk(es) && Gated(es.db, port) && AllAdmissible(calls) && PortName(port)
    requires ApplyPosture(EnforcerRun(es, calls), port, Unauthorized, faults).r.Ok?
    ensures GateAgrees(ApplyPosture(EnforcerRun(es, calls), port, Unauthorized, faults).es.db, port, false)
  {
    var before, call := EnforcerRun(es, calls), ApplyCall(port, Unauthorized, faults);
    GateNeverHalf(es, calls, port);
    CallKeepsRecords(before, call);
    OwnGated(before, call);
    ClosedMeansDenied(before, port, faults);
  }

  /** After a bring-up that reported success the start owes nothing. */
  lemma ClosedAfterBringUp(es: Es, trap: Faults, calls: seq<EnforcerCall>, port: string, faults: Faults)
    requires RecordsOk(es) && AllAdmissible(calls) && PortName(port) && InstallTrap(es, port, trap).r.Ok?
    requires ApplyPosture(EnforcerRun(InstallTrap(es, port, trap).es, calls), port, Unauthorized, faults).r.Ok?
    ensures GateAgrees(ApplyPosture(EnforcerRun(InstallTrap(es, port, trap).es, calls), port, Unauthorized, faults).es.db,
                       port, false)
  {
    TrapOwn(es.db, port);
    CallKeepsRecords(es, TrapCall(port, trap));
    SuccessMeansClosed(InstallTrap(es, port, trap).es, calls, port, faults);
  }

  // ---- closing again ----

  /** With the backend up, closing succeeds exactly when the record says open or the deny rule is there already. */
  lemma ClosingSucceedsIff(es: Es, port: string)
    requires PortName(port) && Programmable(Previous(es, port))
    ensures ApplyPosture(es, port, Unauthorized, NO_FAULTS).r.Ok? <==>
            Previous(es, port).authorized || DenyRuleKey(port) in es.db
  {
    var was, first := Previous(es, port), Bindings(port, Previous(es, port), CLOSED);
    var ops := Transition(port, was, CLOSED);
    assert first[..|first|] == first;
    BindingsKeepGate(es.db, port, was, CLOSED, |first|);
    if was.authorized {
      ExecAppend(es.db, first, PlanClose(port));
      CloseEstablishes(Exec(es.db, first), port);
    } else {
      assert ops == first;
    }
  }

  /** A port recorded closed whose deny rule is gone stays so: no closing writes anything, whatever fails. */
  lemma StuckOpen(es: Es, port: string, faults: Faults)
    requires Previous(es, port) == CLOSED && DenyRuleKey(port) !in es.db
    ensures ApplyPosture(es, port, Unauthorized, faults).r.Err?
    ensures ApplyPosture(es, port, Unauthorized, faults).es == es
  {
    assert Transition(port, CLOSED, CLOSED) == [];
    assert Exec(es.db, []) == es.db;
  }

  /** Bring-up closes the gate from any state at all. */
  lemma TrapRecovers(es: Es, port: string)
    ensures var out := InstallTrap(es, port, NO_FAULTS);
            out.r.Ok? && GateAgrees(out.es.db, port, false) && Previous(out.es, port) == CLOSED
  {
    TrapSucceeds(es, port);
    TrapOwn(es.db, port);
  }

  const PLAIN_GRANT := Authorized(Authorization(None, None, None, None))
  const AFTER_ONE_WRITE := Faults(false, Some(1), false, false)

  /** A single gate op that went wrong is put right by bring-up, if the record said closed. */
  lemma Reinstalled(es: Es, half: Es, port: string)
    requires CacheAgrees(es) && PortName(port) && port in es.applied && es.applied[port] == CLOSED
    requires half == Es(ExecOne(es.db, Del(DenyRuleKey(port))), es.applied)
    ensures InstallTrap(half, port, NO_FAULTS).r.Ok? && CacheAgrees(InstallTrap(half, port, NO_FAULTS).es)
  {
    var op, after := Del(DenyRuleKey(port)), InstallTrap(half, port, NO_FAULTS).es;
    assert PortAgrees(es, port);
    GateOpFrame(es.db, op, port, port);
    SameVlanAgrees(es.db, half.db, port, None);
    TrapRecovers(half, port);
    TrapAgreesIff(half.db, port);
    forall q | PortName(q)
      ensures PortAgrees(after, q)
    {
      if q != port {
        assert PortAgrees(es, q);
        GateOpFrame(es.db, op, port, q);
        SameAgrees(es, half, q);
        CallFrame(half, TrapCall(port, NO_FAULTS), q);
        SameAgrees(half, after, q);
      }
    }
  }

  /**
   The failure that matters: an opening of which only the first write landed. The deny rule
   is gone and the record still says closed, so every later closing fails and writes nothing,
   until bring-up makes the record truthful again.
   */
  lemma HalfOpened(es: Es, port: string, faults: Faults)
    requires CacheAgrees(es) && PortName(port) && port in es.applied && es.applied[port] == CLOSED
    ensures var half := ApplyPosture(es, port, PLAIN_GRANT, AFTER_ONE_WRITE);
            && half.r == Err(Backend) && DenyRuleKey(port) !in half.es.db && !CacheAgrees(half.es)
            && ApplyPosture(half.es, port, Unauthorized, faults).r.Err?
            && ApplyPosture(half.es, port, Unauthorized, faults).es == half.es
            && InstallTrap(half.es, port, NO_FAULTS).r.Ok?
            && CacheAgrees(InstallTrap(half.es, port, NO_FAULTS).es)
  {
    var half := ApplyPosture(es, port, PLAIN_GRANT, AFTER_ONE_WRITE).es;
    var d := FromAuthorization(PLAIN_GRANT);
    var ops := Transition(port, CLOSED, d);
    assert ops == PlanOpen(port) && ops[..1] == [Del(DenyRuleKey(port))];
    ExecTwo(es.db, ops[0], ops[0]);
    FailedApplyKeepsIff(es, port, PLAIN_GRANT, AFTER_ONE_WRITE);
    StuckOpen(half, port, faults);
    Reinstalled(es, half, port);
  }
}
