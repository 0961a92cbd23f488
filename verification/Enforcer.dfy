/**
 The SONiC enforcer: it remembers the last posture per port, plans the delta,
 applies it and confirms it. Backend failures are inputs of each call.
 */
module Enforcer {
  import opened Wrappers
  import opened PaeTypes
  import opened Schema
  import opened SchemaTheorems

  datatype SonicError = Backend | Unconfirmed(key: string) | InvalidVlan(vlan: string)

  type Outcome = Result<(), SonicError>

  /** Which backend calls fail: the pre-check read, the writes after some number of ops, the confirmations. */
  datatype Faults = Faults(check: bool, writes: Option<nat>, confirm: bool, confirmMore: bool)

  const NO_FAULTS := Faults(false, None, false, false)

  datatype Es = Es(db: Db, applied: map<string, Desired>)

  datatype EsOut = EsOut(es: Es, r: Outcome)

  function Previous(es: Es, port: string): Desired {
    if port in es.applied then es.applied[port] else CLOSED
  }

  function Require(db: Db, key: string, present: bool, fault: bool): Outcome {
    if fault then Err(Backend) else if (key in db) == present then Ok(()) else Err(Unconfirmed(key))
  }

  /** The checks made before anything is written. */
  function PreCheck(db: Db, d: Desired, fault: bool): Outcome {
    if d.vlan.Some? && !IsValidVlan(d.vlan.value) then Err(InvalidVlan(d.vlan.value))
    else if d.filterId.Some? then Require(db, AclTableKey(d.filterId.value), true, fault)
    else Ok(())
  }

  /** The load-bearing change, read back. */
  function PostCheck(db: Db, port: string, d: Desired, fault: bool): Outcome {
    if !d.authorized then Require(db, DenyRuleKey(port), true, fault)
    else if d.vlan.Some? then Require(db, VlanMemberKey(d.vlan.value, port), true, fault)
    else Require(db, DenyRuleKey(port), false, fault)
  }

  function Landed(ops: seq<Op>, fault: Option<nat>): seq<Op> {
    if fault.Some? && fault.value < |ops| then ops[..fault.value] else ops
  }

  function ApplyPosture(es: Es, port: string, auth: PortAuthorization, faults: Faults): EsOut {
    var d := FromAuthorization(auth);
    var pre := PreCheck(es.db, d, faults.check);
    if pre.Err? then EsOut(es, pre)
    else
      var ops := Transition(port, Previous(es, port), d);
      var db := Exec(es.db, Landed(ops, faults.writes));
      if Landed(ops, faults.writes) != ops then EsOut(Es(db, es.applied), Err(Backend))
      else
        var post := PostCheck(db, port, d, faults.confirm);
        if post.Err? then EsOut(Es(db, es.applied), post) else EsOut(Es(db, es.applied[port := d]), Ok(()))
  }

  function InstallTrap(es: Es, port: string, faults: Faults): EsOut {
    var ops := PlanTrap() + PlanClose(port);
    var db := Exec(es.db, Landed(ops, faults.writes));
    if Landed(ops, faults.writes) != ops then EsOut(Es(db, es.applied), Err(Backend))
    else
      var trap := Require(db, EAPOL_TRAP_KEY, true, faults.confirm);
      if trap.Err? then EsOut(Es(db, es.applied), trap)
      else
        var deny := Require(db, DenyRuleKey(port), true, faults.confirmMore);
        if deny.Err? then EsOut(Es(db, es.applied), deny) else EsOut(Es(db, es.applied[port := CLOSED]), Ok(()))
  }

  // ---- the calls of every port ----

  datatype EnforcerCall =
    | TrapCall(port: string, faults: Faults)
    | ApplyCall(port: string, auth: PortAuthorization, faults: Faults)

  function PerformCall(es: Es, call: EnforcerCall): EsOut {
    match call
    case TrapCall(port, faults) => InstallTrap(es, port, faults)
    case ApplyCall(port, auth, faults) => ApplyPosture(es, port, auth, faults)
  }

  function EnforcerRun(es: Es, calls: seq<EnforcerCall>): Es
    decreases |calls|
  {
    if calls == [] then es else EnforcerRun(PerformCall(es, calls[0]).es, calls[1..])
  }

  // ---- the enforcer object ----

  class SonicEnforcer {
    const conn: RedisDb
    var applied: map<string, Desired>

    function View(): Es
      reads this, conn
    {
      Es(conn.keys, applied)
    }

    constructor (conn: RedisDb)
      ensures this.conn == conn && applied == map[]
    {
      this.conn := conn;
      applied := map[];
    }

    method Last(port: string) returns (d: Desired)
      ensures d == Previous(View(), port)
    {
      d := if port in applied then applied[port] else CLOSED;
    }

    method Remember(port: string, d: Desired)
      modifies this
      ensures applied == old(applied)[port := d]
    {
      applied := applied[port := d];
    }

    method RequirePresent(key: string, fault: bool) returns (r: Outcome)
      ensures r == Require(conn.keys, key, true, fault)
    {
      var found := conn.Confirm(key, fault);
      r := if found.None? then Err(Backend) else if found.value then Ok(()) else Err(Unconfirmed(key));
    }

    method RequireAbsent(key: string, fault: bool) returns (r: Outcome)
      ensures r == Require(conn.keys, key, false, fault)
    {
      var found := conn.Confirm(key, fault);
      r := if found.None? then Err(Backend) else if found.value then Err(Unconfirmed(key)) else Ok(());
    }

    method EnsureEapolTrap(port: string, faults: Faults) returns (r: Outcome)
      modifies this, conn
      ensures EsOut(View(), r) == InstallTrap(old(View()), port, faults)
    {
      var ops := PlanTrap() + PlanClose(port);
      var written := conn.Apply(ops, faults.writes);
      if !written {
        return Err(Backend);
      }
      r := RequirePresent(EAPOL_TRAP_KEY, faults.confirm);
      if r.Err? {
        return;
      }
      r := RequirePresent(DenyRuleKey(port), faults.confirmMore);
      if r.Err? {
        return;
      }
      Remember(port, CLOSED);
    }

    method Apply(port: string, auth: PortAuthorization, faults: Faults) returns (r: Outcome)
      modifies this, conn
      ensures EsOut(View(), r) == ApplyPosture(old(View()), port, auth, faults)
    {
      var d := FromAuthorization(auth);
      if d.vlan.Some? && !IsValidVlan(d.vlan.value) {
        return Err(InvalidVlan(d.vlan.value));
      }
      if d.filterId.Some? {
        r := RequirePresent(AclTableKey(d.filterId.value), faults.check);
        if r.Err? {
          return;
        }
      }
      var was := Last(port);
      var ops := PlanTransition(port, was, d);
      var written := conn.Apply(ops, faults.writes);
      if !written {
        return Err(Backend);
      }
      if d.authorized {
        if d.vlan.Some? {
          r := RequirePresent(VlanMemberKey(d.vlan.value, port), faults.confirm);
        } else {
          r := RequireAbsent(DenyRuleKey(port), faults.confirm);
        }
      } else {
        r := RequirePresent(DenyRuleKey(port), faults.confirm);
      }
      if r.Err? {
        return;
      }
      Remember(port, d);
    }

    /** The calls that the workers of other ports make on the shared enforcer. */
    method Meanwhile(calls: seq<EnforcerCall>)
      modifies this, conn
      ensures View() == EnforcerRun(old(View()), calls)
    {
      for i := 0 to |calls|
        invariant EnforcerRun(View(), calls[i..]) == EnforcerRun(old(View()), calls)
      {
        assert calls[i..][1..] == calls[i + 1..];
        match calls[i] {
          case TrapCall(port, faults) => var r := EnsureEapolTrap(port, faults);
          case ApplyCall(port, auth, faults) => var r := Apply(port, auth, faults);
        }
      }
    }
  }

  // ---- the cache agrees with the database ----

  /** Filter-Ids that come from the server are not names of deny tables. */
  predicate FilterOk(auth: PortAuthorization) {
    var d := FromAuthorization(auth);
    d.filterId.Some? ==> !Reserved(d.filterId.value)
  }

  ghost predicate Unbound(db: Db, port: string) {
    VlanAgrees(db, port, None) && FilterAgrees(db, port, None)
  }

  /** The record of one port agrees with the database. */
  ghost predicate PortAgrees(es: Es, port: string) {
    if port in es.applied then Programmable(es.applied[port]) && Agrees(es.db, port, es.applied[port])
    else Unbound(es.db, port)
  }

  /** Recorded ports agree with their record; other ports have no bindings yet. */
  ghost predicate CacheAgrees(es: Es) {
    forall port :: PortName(port) ==> PortAgrees(es, port)
  }

  /** A port whose record and keys are the same agrees as before. */
  lemma SameAgrees(a: Es, b: Es, q: string)
    requires PortAgrees(a, q) && SamePort(a.db, b.db, q)
    requires q in a.applied <==> q in b.applied
    requires q in a.applied ==> a.applied[q] == b.applied[q]
    ensures PortAgrees(b, q)
  {
    SamePortAgrees(a.db, b.db, q, Previous(a, q));
    SameVlanAgrees(a.db, b.db, q, None);
  }

  lemma ApplyLands(es: Es, port: string, auth: PortAuthorization, faults: Faults)
    requires ApplyPosture(es, port, auth, faults).r.Ok?
    ensures var after, d := ApplyPosture(es, port, auth, faults).es, FromAuthorization(auth);
            && after == Es(Exec(es.db, Transition(port, Previous(es, port), d)), es.applied[port := d])
            && (d.vlan.Some? ==> IsValidVlan(d.vlan.value))
  {
  }

  lemma ApplyKeeps(es: Es, port: string, auth: PortAuthorization, faults: Faults)
    requires CacheAgrees(es) && PortName(port) && port in es.applied && FilterOk(auth)
    requires PreCheck(es.db, FromAuthorization(auth), faults.check).Err? || ApplyPosture(es, port, auth, faults).r.Ok?
    ensures CacheAgrees(ApplyPosture(es, port, auth, faults).es)
  {
    var after, d := ApplyPosture(es, port, auth, faults).es, FromAuthorization(auth);
    if PreCheck(es.db, d, faults.check).Ok? {
      ApplyLands(es, port, auth, faults);
      if d.vlan.Some? {
        ValidVlanFits(d.vlan.value);
      }
      forall q | PortName(q)
        ensures PortAgrees(after, q)
      {
        TransitionCorrect(es.db, port, es.applied[port], d, q);
        if q != port {
          SameAgrees(es, after, q);
        }
      }
    }
  }

  lemma TrapExec(db: Db, port: string)
    ensures Exec(db, PlanTrap() + PlanClose(port)) == Exec(ExecOne(db, PlanTrap()[0]), PlanClose(port))
    ensures forall k :: k != EAPOL_TRAP_KEY ==> Untouched(db, ExecOne(db, PlanTrap()[0]), k)
    ensures EAPOL_TRAP_KEY in Exec(db, PlanTrap() + PlanClose(port))
  {
    ExecAppend(db, PlanTrap(), PlanClose(port));
    ExecTwo(db, PlanTrap()[0], PlanTrap()[0]);
    KindsApart("", "", DenyTable(port), port);
    GateFrame(ExecOne(db, PlanTrap()[0]), port, true, true, EAPOL_TRAP_KEY);
  }

  /** The trap changes nothing but its own key, for every port. */
  lemma TrapFrame(db: Db, port: string)
    ensures SamePort(db, ExecOne(db, PlanTrap()[0]), port)
  {
    TrapExec(db, port);
    forall v
      ensures VlanMemberKey(v, port) != EAPOL_TRAP_KEY
    {
      KindsApart(v, port, "", port);
    }
    forall f
      ensures AclTableKey(f) != EAPOL_TRAP_KEY
    {
      KindsApart("", "", f, port);
    }
    KindsApart("", "", "", port);
  }

  lemma TrapOther(db: Db, port: string, q: string)
    requires q != port
    ensures SamePort(db, Exec(db, PlanTrap() + PlanClose(port)), q)
  {
    var trapped := ExecOne(db, PlanTrap()[0]);
    TrapExec(db, port);
    TrapFrame(db, q);
    GatePhaseFrame(trapped, port, true, true, q, Exec(trapped, PlanClose(port)));
  }

  lemma TrapOwn(db: Db, port: string)
    ensures var after := Exec(db, PlanTrap() + PlanClose(port));
            SameVlan(db, after, port) && SameFilter(db, after, port) && GateAgrees(after, port, false)
  {
    var trapped := ExecOne(db, PlanTrap()[0]);
    TrapExec(db, port);
    TrapFrame(db, port);
    GatePhaseFrame(trapped, port, true, true, port, Exec(trapped, PlanClose(port)));
    CloseEstablishes(trapped, port);
  }

  /**
   Bring-up reaches a database that agrees with the closed posture it records, if and
   only if the port carried no VLAN or Filter-Id binding: it closes the gate but removes
   no bindings.
   */
  lemma TrapAgreesIff(db: Db, port: string)
    requires PortName(port)
    ensures Agrees(Exec(db, PlanTrap() + PlanClose(port)), port, CLOSED) <==> Unbound(db, port)
  {
    TrapOwn(db, port);
    SameVlanAgrees(db, Exec(db, PlanTrap() + PlanClose(port)), port, None);
  }

  /** Bring-up keeps the record truthful for all ports if and only if its own port carried no binding. */
  lemma TrapKeepsIff(es: Es, port: string, faults: Faults)
    requires CacheAgrees(es) && PortName(port) && InstallTrap(es, port, faults).r.Ok?
    ensures CacheAgrees(InstallTrap(es, port, faults).es) <==> Unbound(es.db, port)
  {
    var after := InstallTrap(es, port, faults).es;
    TrapAgreesIff(es.db, port);
    assert PortAgrees(after, port) <==> Agrees(after.db, port, CLOSED);
    forall q | PortName(q) && q != port
      ensures PortAgrees(after, q)
    {
      TrapOther(es.db, port, q);
      SameAgrees(es, after, q);
    }
  }

  lemma TrapKeeps(es: Es, port: string, faults: Faults)
    requires CacheAgrees(es) && PortName(port) && InstallTrap(es, port, faults).r.Ok?
    requires Previous(es, port).vlan.None? && Previous(es, port).filterId.None?
    ensures CacheAgrees(InstallTrap(es, port, faults).es)
  {
    assert PortAgrees(es, port);
    TrapKeepsIff(es, port, faults);
  }

  /** With the backend up, bring-up always succeeds. */
  lemma TrapSucceeds(es: Es, port: string)
    ensures InstallTrap(es, port, NO_FAULTS).r.Ok?
  {
    TrapExec(es.db, port);
    TrapOwn(es.db, port);
  }

  // ---- any run ----

  /** Ports are brought up before use and only while they carry no binding; Filter-Ids are not deny tables. */
  predicate WellUsed(es: Es, call: EnforcerCall) {
    && PortName(call.port)
    && (call.TrapCall? ==> Previous(es, call.port).vlan.None? && Previous(es, call.port).filterId.None?)
    && (call.ApplyCall? ==> call.port in es.applied && FilterOk(call.auth))
  }

  /** The call succeeded, or failed before anything was written. */
  predicate Clean(es: Es, call: EnforcerCall) {
    || PerformCall(es, call).r.Ok?
    || (call.ApplyCall? && PreCheck(es.db, FromAuthorization(call.auth), call.faults.check).Err?)
  }

  predicate CleanRun(es: Es, calls: seq<EnforcerCall>)
    decreases |calls|
  {
    calls == [] || (WellUsed(es, calls[0]) && Clean(es, calls[0]) && CleanRun(PerformCall(es, calls[0]).es, calls[1..]))
  }

  /** The record agrees with the database for all ports at once, after every clean run. */
  lemma {:induction false} CacheAgreesAlways(es: Es, calls: seq<EnforcerCall>)
    requires CacheAgrees(es) && CleanRun(es, calls)
    ensures CacheAgrees(EnforcerRun(es, calls))
    decreases |calls|
  {
    if calls == [] {
    } else {
      match calls[0] {
        case TrapCall(port, faults) => TrapKeeps(es, port, faults);
        case ApplyCall(port, auth, faults) => ApplyKeeps(es, port, auth, faults);
      }
      CacheAgreesAlways(PerformCall(es, calls[0]).es, calls[1..]);
    }
  }

  /**
   From an agreeing state and with the backend up, a posture is applied if and only if
   its VLAN is a valid id and its Filter-Id table exists; then the database agrees with it.
   */
  lemma ApplySucceedsIff(es: Es, port: string, auth: PortAuthorization)
    requires CacheAgrees(es) && PortName(port) && port in es.applied && FilterOk(auth)
    ensures var d := FromAuthorization(auth);
            ApplyPosture(es, port, auth, NO_FAULTS).r.Ok? <==>
            && (d.vlan.Some? ==> IsValidVlan(d.vlan.value))
            && (d.filterId.Some? ==> AclTableKey(d.filterId.value) in es.db)
    ensures var out := ApplyPosture(es, port, auth, NO_FAULTS);
            out.r.Ok? ==> Agrees(out.es.db, port, FromAuthorization(auth))
  {
    var d := FromAuthorization(auth);
    if PreCheck(es.db, d, false).Ok? {
      if d.vlan.Some? {
        ValidVlanFits(d.vlan.value);
      }
      TransitionCorrect(es.db, port, es.applied[port], d, port);
    }
  }

  /** Whatever came before, an Unauthorized that reports success left the deny rule in place. */
  lemma ClosedMeansDenied(es: Es, port: string, faults: Faults)
    requires ApplyPosture(es, port, Unauthorized, faults).r.Ok?
    ensures DenyRuleKey(port) in ApplyPosture(es, port, Unauthorized, faults).es.db
  {
  }
}
