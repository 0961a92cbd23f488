/** What a plan leaves behind when the backend fails after some of its ops. */
module PartialWrites {
  import opened Wrappers
  import opened Schema
  import opened SchemaTheorems

  // ---- one op, one key ----

  lemma OpFrame(db: Db, op: Op, k: string)
    requires op.key != k
    ensures Untouched(db, ExecOne(db, op), k)
  {
  }

  lemma {:induction false} OpsFrame(db: Db, ops: seq<Op>, k: string)
    requires forall i :: 0 <= i < |ops| ==> ops[i].key != k
    ensures Untouched(db, Exec(db, ops), k)
    decreases |ops|
  {
    if ops == [] {
    } else {
      OpFrame(db, ops[0], k);
      OpsFrame(ExecOne(db, ops[0]), ops[1..], k);
    }
  }

  // ---- what another port sees ----

  /** Whatever the database, the op changes nothing that port `q` sees. */
  ghost predicate Spares(op: Op, q: string) {
    forall db: Db :: SamePort(db, ExecOne(db, op), q)
  }

  ghost predicate AllSpare(ops: seq<Op>, q: string) {
    forall i :: 0 <= i < |ops| ==> Spares(ops[i], q)
  }

  lemma {:induction false} SparedByAll(db: Db, ops: seq<Op>, q: string)
    requires AllSpare(ops, q)
    ensures SamePort(db, Exec(db, ops), q)
    decreases |ops|
  {
    if ops == [] {
    } else {
      var next := ExecOne(db, ops[0]);
      assert Spares(ops[0], q);
      assert AllSpare(ops[1..], q) by {
        assert forall i :: 0 <= i < |ops[1..]| ==> ops[1..][i] == ops[i + 1];
      }
      SparedByAll(next, ops[1..], q);
      SamePortTwice(db, next, Exec(next, ops[1..]), q);
    }
  }

  lemma VlanOpSpares(op: Op, v: string, port: string, q: string)
    requires NoBar(v) && q != port && (op == Del(VlanMemberKey(v, port)) || op == HSet(VlanMemberKey(v, port), UNTAGGED))
    ensures Spares(op, q)
  {
    forall db: Db
      ensures SamePort(db, ExecOne(db, op), q)
    {
      VlanPhaseFrame(db, port, Some(v), None, q);
      VlanPhaseFrame(db, port, None, Some(v), q);
      ExecTwo(db, op, op);
    }
  }

  lemma FilterOpSpares(op: Op, f: string, port: string, q: string)
    requires !Reserved(f) && Item(port) && q != port
    requires op == ListRemove(AclTableKey(f), "ports", port) || op == ListAdd(AclTableKey(f), "ports", port)
    ensures Spares(op, q)
  {
    forall db: Db
      ensures SamePort(db, ExecOne(db, op), q)
    {
      FilterPhaseFrame(db, port, Some(f), None, q);
      FilterPhaseFrame(db, port, None, Some(f), q);
      ExecTwo(db, op, op);
    }
  }

  lemma GateKeysApart(port: string, q: string)
    requires q != port
    ensures forall k :: GateKey(port, k) ==> !GateKey(q, k)
  {
    RuleKeysInjective(q, port);
    RuleKeysInjective(port, q);
    KindsApart("", "", DenyTable(port), q);
    KindsApart("", "", DenyTable(q), port);
    AclKeyInjective(q, port);
    AclKeyInjective(DenyTable(q), DenyTable(port));
  }

  /** An op on a key of port `port`'s gate changes no binding of any port, and no gate but its own. */
  lemma GateOpFrame(db: Db, op: Op, port: string, q: string)
    requires GateKey(port, op.key)
    ensures var after := ExecOne(db, op);
            SameVlan(db, after, q) && SameFilter(db, after, q) && (q != port ==> SameGate(db, after, q))
  {
    var after := ExecOne(db, op);
    forall v
      ensures Untouched(db, after, VlanMemberKey(v, q))
    {
      KindsApart(v, q, DenyTable(port), port);
      OpFrame(db, op, VlanMemberKey(v, q));
    }
    forall f | !Reserved(f)
      ensures Untouched(db, after, AclTableKey(f))
    {
      KindsApart("", "", f, port);
      AclKeyInjective(f, DenyTable(port));
      OpFrame(db, op, AclTableKey(f));
    }
    if q != port {
      GateKeysApart(port, q);
    }
  }

  lemma GateOpSpares(op: Op, port: string, q: string)
    requires GateKey(port, op.key) && q != port
    ensures Spares(op, q)
  {
    forall db: Db
      ensures SamePort(db, ExecOne(db, op), q)
    {
      GateOpFrame(db, op, port, q);
    }
  }

  lemma GatePlanKeys(port: string, was: bool, now: bool)
    ensures forall i :: 0 <= i < |PlanGate(port, was, now)| ==> GateKey(port, PlanGate(port, was, now)[i].key)
    ensures forall i :: 0 <= i < |PlanClose(port)| ==> GateKey(port, PlanClose(port)[i].key)
  {
  }

  lemma VlanPlanSpares(port: string, was: Option<string>, now: Option<string>, q: string)
    requires (was.Some? ==> NoBar(was.value)) && (now.Some? ==> NoBar(now.value)) && q != port
    ensures AllSpare(PlanVlan(port, was, now), q)
  {
    forall i | 0 <= i < |PlanVlan(port, was, now)|
      ensures Spares(PlanVlan(port, was, now)[i], q)
    {
      VlanOpSpares(PlanVlan(port, was, now)[i], if was.Some? && i == 0 then was.value else now.value, port, q);
    }
  }

  lemma FilterPlanSpares(port: string, was: Option<string>, now: Option<string>, q: string)
    requires (was.Some? ==> !Reserved(was.value)) && (now.Some? ==> !Reserved(now.value)) && Item(port) && q != port
    ensures AllSpare(PlanFilter(port, was, now), q)
  {
    forall i | 0 <= i < |PlanFilter(port, was, now)|
      ensures Spares(PlanFilter(port, was, now)[i], q)
    {
      FilterOpSpares(PlanFilter(port, was, now)[i], if was.Some? && i == 0 then was.value else now.value, port, q);
    }
  }

  lemma GatePlanSpares(port: string, was: bool, now: bool, q: string)
    requires q != port
    ensures AllSpare(PlanGate(port, was, now), q) && AllSpare(PlanClose(port), q)
  {
    GatePlanKeys(port, was, now);
    forall i | 0 <= i < |PlanGate(port, was, now)|
      ensures Spares(PlanGate(port, was, now)[i], q)
    {
      GateOpSpares(PlanGate(port, was, now)[i], port, q);
    }
    forall i | 0 <= i < |PlanClose(port)|
      ensures Spares(PlanClose(port)[i], q)
    {
      GateOpSpares(PlanClose(port)[i], port, q);
    }
  }

  /** However few of a port's ops land, no other port sees a difference. */
  lemma PartFrame(db: Db, port: string, was: Desired, now: Desired, n: nat, q: string)
    requires PortName(port) && Programmable(was) && Programmable(now) && q != port && n <= |Transition(port, was, now)|
    ensures SamePort(db, Exec(db, Transition(port, was, now)[..n]), q)
  {
    VlanPlanSpares(port, was.vlan, now.vlan, q);
    FilterPlanSpares(port, was.filterId, now.filterId, q);
    GatePlanSpares(port, was.authorized, now.authorized, q);
    assert AllSpare(Transition(port, was, now), q);
    SparedByAll(db, Transition(port, was, now)[..n], q);
  }

  // ---- what the port itself is left with ----

  /** The landed ops are none, or only the table that a closing port's rules will go into. */
  predicate Harmless(was: Desired, now: Desired, landed: nat) {
    || landed == 0
    || (landed == 1 && was.vlan == now.vlan && was.filterId == now.filterId && was.authorized && !now.authorized)
  }

  /** What the first op did to a key stands, when no later one writes that key. */
  lemma FirstOpStands(db: Db, ops: seq<Op>, n: nat, k: string)
    requires 1 <= n <= |ops| && forall i :: 1 <= i < |ops| ==> ops[i].key != k
    ensures Untouched(ExecOne(db, ops[0]), Exec(db, ops[..n]), k)
  {
    assert ops[..n][1..] == ops[1..n];
    OpsFrame(ExecOne(db, ops[0]), ops[1..n], k);
  }

  /** The key that the first op of a VLAN move writes. */
  function MovedVlanKey(port: string, was: Desired, now: Desired): string {
    VlanMemberKey(if was.vlan.Some? then was.vlan.value else if now.vlan.Some? then now.vlan.value else "", port)
  }

  lemma VlanKeyOnce(port: string, was: Desired, now: Desired, i: nat)
    requires Programmable(was) && Programmable(now) && was.vlan != now.vlan
    requires 1 <= i < |PlanVlan(port, was.vlan, now.vlan)|
    ensures PlanVlan(port, was.vlan, now.vlan)[i].key != MovedVlanKey(port, was, now)
  {
    var v, w := was.vlan.value, if now.vlan.Some? then now.vlan.value else "";
    if VlanMemberKey(w, port) == VlanMemberKey(v, port) {
      VlanKeyInjective(w, port, v, port);
    }
  }

  lemma LaterKeysApart(port: string, was: Desired, now: Desired, i: nat, k: string)
    requires |PlanVlan(port, was.vlan, now.vlan)| <= i < |Transition(port, was, now)|
    requires k == MovedVlanKey(port, was, now)
    ensures Transition(port, was, now)[i].key != k
  {
    var v := if was.vlan.Some? then was.vlan.value else if now.vlan.Some? then now.vlan.value else "";
    KindsApart(v, port, if was.filterId.Some? then was.filterId.value else "", port);
    KindsApart(v, port, if now.filterId.Some? then now.filterId.value else "", port);
    KindsApart(v, port, DenyTable(port), port);
  }

  lemma VlanPartBreaks(db: Db, port: string, was: Desired, now: Desired, n: nat)
    requires PortName(port) && Programmable(was) && Programmable(now) && VlanAgrees(db, port, was.vlan)
    requires was.vlan != now.vlan && 1 <= n <= |Transition(port, was, now)|
    ensures !VlanAgrees(Exec(db, Transition(port, was, now)[..n]), port, was.vlan)
  {
    var ops, k := Transition(port, was, now), MovedVlanKey(port, was, now);
    forall i | 1 <= i < |ops|
      ensures ops[i].key != k
    {
      if i < |PlanVlan(port, was.vlan, now.vlan)| {
        VlanKeyOnce(port, was, now, i);
      } else {
        LaterKeysApart(port, was, now, i, k);
      }
    }
    FirstOpStands(db, ops, n, k);
  }

  lemma FilterPartBreaks(db: Db, port: string, was: Desired, now: Desired, n: nat)
    requires PortName(port) && Programmable(was) && Programmable(now) && FilterAgrees(db, port, was.filterId)
    requires was.vlan == now.vlan && was.filterId != now.filterId && 1 <= n <= |Transition(port, was, now)|
    ensures !FilterAgrees(Exec(db, Transition(port, was, now)[..n]), port, was.filterId)
  {
    var ops := Transition(port, was, now);
    var f := if was.filterId.Some? then was.filterId.value else now.filterId.value;
    var k := AclTableKey(f);
    forall i | 1 <= i < |ops|
      ensures ops[i].key != k
    {
      if i < |PlanFilter(port, was.filterId, now.filterId)| {
        AclKeyInjective(f, now.filterId.value);
      } else {
        KindsApart("", "", f, port);
        AclKeyInjective(f, DenyTable(port));
      }
    }
    FirstOpStands(db, ops, n, k);
    UnbindOne(db, port, f, k);
    BindOne(db, port, f, k);
    WithoutFacts(ListAt(db, k, "ports"), port);
  }

  lemma OpenPartBreaks(db: Db, port: string, n: nat)
    requires 1 <= n <= 2
    ensures !GateAgrees(Exec(db, PlanOpen(port)[..n]), port, false)
  {
    RuleKeysInjective(port, port);
    FirstOpStands(db, PlanOpen(port), n, DenyRuleKey(port));
  }

  lemma ClosePartBreaks(db: Db, port: string, n: nat)
    requires 2 <= n <= 3
    ensures !GateAgrees(Exec(db, PlanClose(port)[..n]), port, true)
  {
    var ops := PlanClose(port);
    RuleKeysInjective(port, port);
    assert ops[..n][1..] == ops[1..n];
    assert ops[1..n] == ops[1..][..n - 1];
    FirstOpStands(ExecOne(db, ops[0]), ops[1..], n - 1, EapolPermitKey(port));
  }

  lemma CloseStarts(db: Db, port: string, d: Desired)
    requires Programmable(d) && d.authorized && Agrees(db, port, d)
    ensures Agrees(Exec(db, PlanClose(port)[..1]), port, d)
  {
    var op := PlanClose(port)[0];
    var after := ExecOne(db, op);
    assert PlanClose(port)[..1] == [op];
    ExecTwo(db, op, op);
    GateOpFrame(db, op, port, port);
    SameVlanAgrees(db, after, port, d.vlan);
    KindsApart("", "", DenyTable(port), port);
  }

  /** A plan of which only some ops landed leaves the port as it was exactly when they are harmless. */
  lemma PartAgreesIff(db: Db, port: string, was: Desired, now: Desired, n: nat)
    requires PortName(port) && Programmable(was) && Programmable(now) && Agrees(db, port, was)
    requires n <= |Transition(port, was, now)|
    ensures Agrees(Exec(db, Transition(port, was, now)[..n]), port, was) <==> Harmless(was, now, n)
  {
    var ops := Transition(port, was, now);
    if n == 0 {
      assert ops[..n] == [];
    } else if was.vlan != now.vlan {
      VlanPartBreaks(db, port, was, now, n);
    } else if was.filterId != now.filterId {
      FilterPartBreaks(db, port, was, now, n);
    } else if now.authorized {
      assert ops == PlanOpen(port);
      OpenPartBreaks(db, port, n);
    } else {
      assert ops == PlanClose(port);
      if n == 1 {
        CloseStarts(db, port, was);
      } else {
        ClosePartBreaks(db, port, n);
      }
    }
  }

  // ---- a deny rule is never alone ----

  /** Where there is a deny rule the whole closed gate is in place, EAPOL permit and table included. */
  predicate Gated(db: Db, port: string) {
    DenyRuleKey(port) in db ==> GateAgrees(db, port, false)
  }

  lemma UntouchedGated(a: Db, b: Db, port: string)
    requires SameGate(a, b, port) && Gated(a, port)
    ensures Gated(b, port)
  {
  }

  lemma ClosePartGated(db: Db, port: string, n: nat)
    requires n <= 3 && Gated(db, port)
    ensures Gated(Exec(db, PlanClose(port)[..n]), port)
  {
    var ops := PlanClose(port);
    if n == 0 {
      assert ops[..n] == [];
    } else if n == 3 {
      assert ops[..n] == ops;
      CloseEstablishes(db, port);
    } else {
      KindsApart("", "", DenyTable(port), port);
      RuleKeysInjective(port, port);
      SetFieldsThree(HashAt(db, ops[0].key), ("type", "L3"), ("stage", "ingress"), ("ports", port));
      SetFieldsThree(HashAt(ExecOne(db, ops[0]), ops[1].key), PERMIT_FIELDS[0], PERMIT_FIELDS[1], PERMIT_FIELDS[2]);
      ExecTwo(db, ops[0], ops[1]);
      assert ops[..1] == [ops[0]] && ops[..2] == [ops[0], ops[1]];
    }
  }

  lemma OpenPartGated(db: Db, port: string, n: nat)
    requires n <= 2 && Gated(db, port)
    ensures Gated(Exec(db, PlanOpen(port)[..n]), port)
  {
    if n == 0 {
      assert PlanOpen(port)[..n] == [];
    } else {
      RuleKeysInjective(port, port);
      FirstOpStands(db, PlanOpen(port), n, DenyRuleKey(port));
    }
  }

  /** The ops that come before a plan's gate ops. */
  function Bindings(port: string, was: Desired, now: Desired): seq<Op> {
    PlanVlan(port, was.vlan, now.vlan) + PlanFilter(port, was.filterId, now.filterId)
  }

  lemma BindingsKeepGate(db: Db, port: string, was: Desired, now: Desired, n: nat)
    requires Programmable(was) && Programmable(now) && n <= |Bindings(port, was, now)|
    ensures SameGate(db, Exec(db, Bindings(port, was, now)[..n]), port)
  {
    var ops := Bindings(port, was, now);
    forall i, k | 0 <= i < |ops| && GateKey(port, k)
      ensures ops[i].key != k
    {
      var a := |PlanVlan(port, was.vlan, now.vlan)|;
      if i < a {
        KindsApart(if was.vlan.Some? then was.vlan.value else "", port, DenyTable(port), port);
        KindsApart(if now.vlan.Some? then now.vlan.value else "", port, DenyTable(port), port);
      } else {
        var f := if was.filterId.Some? && i == a then was.filterId.value else now.filterId.value;
        KindsApart("", "", f, port);
        AclKeyInjective(f, DenyTable(port));
      }
    }
    assert GateKey(port, DenyRuleKey(port)) && GateKey(port, EapolPermitKey(port)) && GateKey(port, AclTableKey(DenyTable(port)));
    OpsFrame(db, ops[..n], DenyRuleKey(port));
    OpsFrame(db, ops[..n], EapolPermitKey(port));
    OpsFrame(db, ops[..n], AclTableKey(DenyTable(port)));
  }

  lemma GatePartGated(db: Db, port: string, was: bool, now: bool, n: nat)
    requires Gated(db, port) && n <= |PlanGate(port, was, now)|
    ensures Gated(Exec(db, PlanGate(port, was, now)[..n]), port)
  {
    if was == now {
      assert PlanGate(port, was, now)[..n] == [];
    } else if now {
      OpenPartGated(db, port, n);
    } else {
      ClosePartGated(db, port, n);
    }
  }

  /** A cut plan is cut bindings, or all of them and a cut gate plan. */
  lemma CutPlan(port: string, was: Desired, now: Desired, n: nat)
    requires n <= |Transition(port, was, now)|
    ensures var first, gate := Bindings(port, was, now), PlanGate(port, was.authorized, now.authorized);
            if n <= |first| then Transition(port, was, now)[..n] == first[..n]
            else n - |first| <= |gate| && Transition(port, was, now)[..n] == first + gate[..n - |first|]
  {
    assert Transition(port, was, now) == Bindings(port, was, now) + PlanGate(port, was.authorized, now.authorized);
  }

  lemma BindingsGated(db: Db, port: string, was: Desired, now: Desired, n: nat)
    requires Programmable(was) && Programmable(now) && Gated(db, port) && n <= |Bindings(port, was, now)|
    ensures Gated(Exec(db, Bindings(port, was, now)[..n]), port)
  {
    BindingsKeepGate(db, port, was, now, n);
    UntouchedGated(db, Exec(db, Bindings(port, was, now)[..n]), port);
  }

  /** However few of a port's ops land, a deny rule is never left alone. */
  lemma PartGated(db: Db, port: string, was: Desired, now: Desired, n: nat)
    requires Programmable(was) && Programmable(now) && Gated(db, port) && n <= |Transition(port, was, now)|
    ensures Gated(Exec(db, Transition(port, was, now)[..n]), port)
  {
    var first, gate := Bindings(port, was, now), PlanGate(port, was.authorized, now.authorized);
    CutPlan(port, was, now, n);
    if n <= |first| {
      BindingsGated(db, port, was, now, n);
    } else {
      var m := n - |first|;
      assert first[..|first|] == first;
      BindingsGated(db, port, was, now, |first|);
      ExecAppend(db, first, gate[..m]);
      GatePartGated(Exec(db, first), port, was.authorized, now.authorized, m);
    }
  }
}
