/** The delta planner moves a database that agrees with one posture to one that agrees with the next. */
module SchemaTheorems {
  import opened Wrappers
  import opened Schema

  // ---- comma-separated lists ----

  predicate NoComma(s: string) { ',' !in s }

  /** What may stand in a list: not empty, no comma. */
  predicate Item(s: string) { s != "" && NoComma(s) }

  lemma {:induction false} SplitParts(s: string)
    ensures forall i :: 0 <= i < |Split(s)| ==> NoComma(Split(s)[i])
  {
    if s == "" {
    } else {
      SplitParts(s[1..]);
    }
  }

  lemma {:induction false} NonEmptyPartsFacts(parts: seq<string>)
    requires forall i :: 0 <= i < |parts| ==> NoComma(parts[i])
    ensures forall i :: 0 <= i < |NonEmptyParts(parts)| ==> Item(NonEmptyParts(parts)[i])
  {
    if parts == [] {
    } else {
      NonEmptyPartsFacts(parts[1..]);
    }
  }

  lemma ItemsAreItems(s: string)
    ensures forall i :: 0 <= i < |Items(s)| ==> Item(Items(s)[i])
  {
    SplitParts(s);
    NonEmptyPartsFacts(Split(s));
  }

  lemma {:induction false} SplitItem(w: string, rest: string)
    requires NoComma(w)
    ensures Split(w) == [w]
    ensures Split(w + "," + rest) == [w] + Split(rest)
  {
    if w == "" {
      assert w + "," + rest == "," + rest && ("," + rest)[1..] == rest;
    } else {
      assert NoComma(w[1..]);
      SplitItem(w[1..], rest);
      assert (w + "," + rest)[1..] == w[1..] + "," + rest;
      assert [w[0]] + w[1..] == w;
    }
  }

  /** Joining a list and splitting it again gives the list back. */
  lemma {:induction false} ItemsOfJoin(items: seq<string>)
    requires forall i :: 0 <= i < |items| ==> Item(items[i])
    ensures Items(Join(items)) == items
  {
    if |items| == 1 {
      SplitItem(items[0], "");
      assert NonEmptyParts(items[1..]) == [];
    } else if |items| > 1 {
      SplitItem(items[0], Join(items[1..]));
      ItemsOfJoin(items[1..]);
      assert Split(Join(items))[1..] == Split(Join(items[1..]));
    }
  }

  lemma {:induction false} WithoutFacts(items: seq<string>, v: string)
    ensures forall x :: x in Without(items, v) <==> x in items && x != v
    ensures v !in items ==> Without(items, v) == items
  {
    if items == [] {
    } else {
      WithoutFacts(items[1..], v);
    }
  }

  lemma {:induction false} WithoutAppend(items: seq<string>, v: string)
    ensures Without(items + [v], v) == Without(items, v)
  {
    if items == [] {
      assert items + [v] == [v];
    } else {
      assert (items + [v])[1..] == items[1..] + [v];
      WithoutAppend(items[1..], v);
    }
  }

  // ---- keys never collide ----

  predicate NoBar(s: string) { '|' !in s }

  /** Port names are not empty and hold neither list nor key separators. */
  predicate PortName(port: string) { Item(port) && NoBar(port) }

  /** Names of the per-port deny tables, which no Filter-Id may use. */
  predicate Reserved(name: string) { "DOT1X_" <= name }

  lemma VlanKeyInjective(v: string, p: string, w: string, q: string)
    requires NoBar(v) && NoBar(w) && VlanMemberKey(v, p) == VlanMemberKey(w, q)
    ensures v == w && p == q
  {
    var a, b := v + "|" + p, w + "|" + q;
    var head := "VLAN_MEMBER|Vlan";
    assert VlanMemberKey(v, p) == head + a && VlanMemberKey(w, q) == head + b;
    assert a == (head + a)[|head|..] == (head + b)[|head|..] == b;
    assert a[|v|] == '|' && b[|w|] == '|';
    assert |v| == |w|;
    assert v == a[..|v|] && w == b[..|w|];
    assert p == a[|v| + 1..] && q == b[|w| + 1..];
  }

  lemma AclKeyInjective(f: string, g: string)
    ensures AclTableKey(f) == AclTableKey(g) ==> f == g
    ensures DenyTable(f) == DenyTable(g) ==> f == g
  {
    assert f == AclTableKey(f)[10..] && g == AclTableKey(g)[10..];
    assert f == DenyTable(f)[6..] && g == DenyTable(g)[6..];
  }

  lemma RuleKeysInjective(p: string, q: string)
    ensures DenyRuleKey(p) == DenyRuleKey(q) ==> p == q
    ensures EapolPermitKey(p) == EapolPermitKey(q) ==> p == q
    ensures DenyRuleKey(p) != EapolPermitKey(q)
  {
    assert p == DenyRuleKey(p)[15..|DenyRuleKey(p)| - 9] && q == DenyRuleKey(q)[15..|DenyRuleKey(q)| - 9];
    assert p == EapolPermitKey(p)[15..|EapolPermitKey(p)| - 12] && q == EapolPermitKey(q)[15..|EapolPermitKey(q)| - 12];
    var d, e := DenyRuleKey(p), EapolPermitKey(q);
    assert d[|d| - 2] == "|DENY_ALL"[7] == 'L';
    assert e[|e| - 2] == "|ALLOW_EAPOL"[10] == 'O';
  }

  /** The kinds of key are told apart by their first characters. */
  lemma KindsApart(v: string, p: string, f: string, q: string)
    ensures VlanMemberKey(v, p) !in {AclTableKey(f), DenyRuleKey(q), EapolPermitKey(q), EAPOL_TRAP_KEY}
    ensures AclTableKey(f) !in {DenyRuleKey(q), EapolPermitKey(q), EAPOL_TRAP_KEY}
    ensures DenyRuleKey(q) != EAPOL_TRAP_KEY && EapolPermitKey(q) != EAPOL_TRAP_KEY
  {
    assert VlanMemberKey(v, p)[0] == 'V' && EAPOL_TRAP_KEY[0] == 'C';
    assert AclTableKey(f)[0] == 'A' && AclTableKey(f)[4] == 'T';
    assert DenyRuleKey(q)[0] == 'A' && DenyRuleKey(q)[4] == 'R';
    assert EapolPermitKey(q)[0] == 'A' && EapolPermitKey(q)[4] == 'R';
  }

  // ---- agreement of a database with a posture ----

  function FieldAt(db: Db, key: string, field: string): Option<string> {
    if field in HashAt(db, key) then Some(HashAt(db, key)[field]) else None
  }

  /** The port is an untagged member of exactly this VLAN. */
  ghost predicate VlanAgrees(db: Db, port: string, vlan: Option<string>) {
    && (forall v :: NoBar(v) ==> (VlanMemberKey(v, port) in db <==> vlan == Some(v)))
    && (vlan.Some? ==> FieldAt(db, VlanMemberKey(vlan.value, port), "tagging_mode") == Some("untagged"))
  }

  /** Whether the port is listed in the named ACL table. */
  predicate BoundTo(db: Db, port: string, name: string) {
    port in ListAt(db, AclTableKey(name), "ports")
  }

  /** The port is bound to exactly this Filter-Id table. */
  ghost predicate FilterAgrees(db: Db, port: string, filter: Option<string>) {
    forall f :: !Reserved(f) ==> (BoundTo(db, port, f) <==> filter == Some(f))
  }

  /** Closed: everything but EAPOL is dropped on this port. Open: neither rule is there. */
  predicate GateAgrees(db: Db, port: string, open: bool) {
    && (DenyRuleKey(port) in db <==> !open)
    && (EapolPermitKey(port) in db <==> !open)
    && (!open ==>
          && FieldAt(db, DenyRuleKey(port), "PACKET_ACTION") == Some("DROP")
          && FieldAt(db, DenyRuleKey(port), "PRIORITY") == Some("1")
          && FieldAt(db, EapolPermitKey(port), "PACKET_ACTION") == Some("FORWARD")
          && FieldAt(db, EapolPermitKey(port), "PRIORITY") == Some("9999")
          && FieldAt(db, EapolPermitKey(port), "ETHER_TYPE") == Some("0x888E")
          && FieldAt(db, AclTableKey(DenyTable(port)), "ports") == Some(port))
  }

  ghost predicate Agrees(db: Db, port: string, d: Desired) {
    VlanAgrees(db, port, d.vlan) && FilterAgrees(db, port, d.filterId) && GateAgrees(db, port, d.authorized)
  }

  /** A posture that can be programmed: its VLAN fits in a key and its Filter-Id is not a deny table. */
  predicate Programmable(d: Desired) {
    && (d.vlan.Some? ==> NoBar(d.vlan.value))
    && (d.filterId.Some? ==> !Reserved(d.filterId.value))
  }

  predicate Untouched(a: Db, b: Db, key: string) {
    (key in a <==> key in b) && HashAt(a, key) == HashAt(b, key)
  }

  // ---- the VLAN delta ----

  lemma ExecTwo(db: Db, a: Op, b: Op)
    ensures Exec(db, [a]) == ExecOne(db, a)
    ensures Exec(db, [a, b]) == ExecOne(ExecOne(db, a), b)
  {
    assert [a][1..] == [];
    assert [a, b] == [a] + [b];
    ExecSnoc(db, [a], b);
  }

  lemma SetFieldsOne(h: Hash, a: (string, string))
    ensures SetFields(h, [a]) == h[a.0 := a.1]
  {
    assert [a][1..] == [];
  }

  /** Exactly the keys of the old and the new membership change. */
  lemma VlanDelta(db: Db, port: string, was: Option<string>, now: Option<string>, key: string)
    ensures var after := Exec(db, PlanVlan(port, was, now));
            var gone := was.Some? && key == VlanMemberKey(was.value, port);
            var made := now.Some? && key == VlanMemberKey(now.value, port);
            && (!gone && !made ==> Untouched(db, after, key))
            && (was != now && made ==> key in after && FieldAt(after, key, "tagging_mode") == Some("untagged"))
            && (was != now && gone && !made ==> key !in after)
  {
    if was != now {
      if was.Some? && now.Some? {
        assert PlanVlan(port, was, now) == [Del(VlanMemberKey(was.value, port)), HSet(VlanMemberKey(now.value, port), UNTAGGED)];
        ExecTwo(db, Del(VlanMemberKey(was.value, port)), HSet(VlanMemberKey(now.value, port), UNTAGGED));
      } else if was.Some? {
        assert PlanVlan(port, was, now) == [Del(VlanMemberKey(was.value, port))];
        ExecTwo(db, Del(VlanMemberKey(was.value, port)), Del(""));
      } else {
        assert PlanVlan(port, was, now) == [HSet(VlanMemberKey(now.value, port), UNTAGGED)];
        ExecTwo(db, HSet(VlanMemberKey(now.value, port), UNTAGGED), Del(""));
      }
      if now.Some? {
        SetFieldsOne(HashAt(db, key), UNTAGGED[0]);
        SetFieldsOne(map[], UNTAGGED[0]);
      }
    }
  }

  lemma VlanMoves(db: Db, port: string, was: Option<string>, now: Option<string>)
    requires VlanAgrees(db, port, was)
    requires (was.Some? ==> NoBar(was.value)) && (now.Some? ==> NoBar(now.value))
    ensures VlanAgrees(Exec(db, PlanVlan(port, was, now)), port, now)
  {
    var after := Exec(db, PlanVlan(port, was, now));
    forall v | NoBar(v)
      ensures VlanMemberKey(v, port) in after <==> now == Some(v)
    {
      var key := VlanMemberKey(v, port);
      VlanDelta(db, port, was, now, key);
      if was.Some? && key == VlanMemberKey(was.value, port) {
        VlanKeyInjective(v, port, was.value, port);
      }
      if now.Some? && key == VlanMemberKey(now.value, port) {
        VlanKeyInjective(v, port, now.value, port);
      }
    }
    if now.Some? && was != now {
      VlanDelta(db, port, was, now, VlanMemberKey(now.value, port));
    }
  }

  // ---- the Filter-Id delta ----

  lemma ListAtItems(db: Db, key: string, field: string)
    ensures forall i :: 0 <= i < |ListAt(db, key, field)| ==> Item(ListAt(db, key, field)[i])
  {
    if field in HashAt(db, key) {
      ItemsAreItems(HashAt(db, key)[field]);
    }
  }

  /** Binding adds the port to one list and leaves the rest of that list alone. */
  lemma BindOne(db: Db, port: string, name: string, k: string)
    requires Item(port)
    ensures var after, key := ExecOne(db, ListAdd(AclTableKey(name), "ports", port)), AclTableKey(name);
            && port in ListAt(after, key, "ports")
            && Without(ListAt(after, key, "ports"), port) == Without(ListAt(db, key, "ports"), port)
            && (k != key ==> Untouched(db, after, k))
            && (forall f :: f != "ports" ==> FieldAt(after, key, f) == FieldAt(db, key, f))
  {
    var key := AclTableKey(name);
    var items := ListAt(db, key, "ports");
    var wanted := if port in items then items else items + [port];
    ListAtItems(db, key, "ports");
    ItemsOfJoin(wanted);
    WithoutAppend(items, port);
  }

  lemma UnbindOne(db: Db, port: string, name: string, k: string)
    ensures var after, key := ExecOne(db, ListRemove(AclTableKey(name), "ports", port)), AclTableKey(name);
            && ListAt(after, key, "ports") == Without(ListAt(db, key, "ports"), port)
            && (k != key ==> Untouched(db, after, k))
            && (key in db <==> key in after)
            && (forall f :: f != "ports" ==> FieldAt(after, key, f) == FieldAt(db, key, f))
  {
    var key := AclTableKey(name);
    var items := ListAt(db, key, "ports");
    ListAtItems(db, key, "ports");
    WithoutFacts(items, port);
    forall i | 0 <= i < |Without(items, port)|
      ensures Item(Without(items, port)[i])
    {
      assert Without(items, port)[i] in items;
    }
    ItemsOfJoin(Without(items, port));
  }

  lemma FilterPlanExec(db: Db, port: string, was: Option<string>, now: Option<string>)
    requires was != now
    ensures var mid := if was.Some? then ExecOne(db, ListRemove(AclTableKey(was.value), "ports", port)) else db;
            Exec(db, PlanFilter(port, was, now)) ==
            if now.Some? then ExecOne(mid, ListAdd(AclTableKey(now.value), "ports", port)) else mid
  {
    if was.Some? && now.Some? {
      var a, b := ListRemove(AclTableKey(was.value), "ports", port), ListAdd(AclTableKey(now.value), "ports", port);
      assert PlanFilter(port, was, now) == [a, b];
      ExecTwo(db, a, b);
    } else if was.Some? {
      var a := ListRemove(AclTableKey(was.value), "ports", port);
      assert PlanFilter(port, was, now) == [a];
      ExecTwo(db, a, a);
    } else {
      var b := ListAdd(AclTableKey(now.value), "ports", port);
      assert PlanFilter(port, was, now) == [b];
      ExecTwo(db, b, b);
    }
  }

  /** Only the old and the new table change. */
  lemma FilterFrame(db: Db, port: string, was: Option<string>, now: Option<string>, k: string)
    requires Item(port)
    requires (was.None? || k != AclTableKey(was.value)) && (now.None? || k != AclTableKey(now.value))
    ensures Untouched(db, Exec(db, PlanFilter(port, was, now)), k)
  {
    if was != now {
      FilterPlanExec(db, port, was, now);
      var mid := if was.Some? then ExecOne(db, ListRemove(AclTableKey(was.value), "ports", port)) else db;
      if was.Some? {
        UnbindOne(db, port, was.value, k);
      }
      if now.Some? {
        BindOne(mid, port, now.value, k);
      }
    }
  }

  /** In any table the other ports stay; the port itself leaves the old one and enters the new one. */
  lemma FilterListed(db: Db, port: string, was: Option<string>, now: Option<string>, name: string)
    requires Item(port) && was != now
    ensures var after, key := Exec(db, PlanFilter(port, was, now)), AclTableKey(name);
            && Without(ListAt(after, key, "ports"), port) == Without(ListAt(db, key, "ports"), port)
            && (BoundTo(after, port, name) <==> now == Some(name) || (was != Some(name) && BoundTo(db, port, name)))
  {
    var key := AclTableKey(name);
    var mid := if was.Some? then ExecOne(db, ListRemove(AclTableKey(was.value), "ports", port)) else db;
    FilterPlanExec(db, port, was, now);
    if was.Some? {
      UnbindOne(db, port, was.value, key);
      AclKeyInjective(name, was.value);
      WithoutFacts(ListAt(db, key, "ports"), port);
      WithoutFacts(Without(ListAt(db, key, "ports"), port), port);
    }
    if now.Some? {
      BindOne(mid, port, now.value, key);
      AclKeyInjective(name, now.value);
    }
  }

  lemma FilterMoves(db: Db, port: string, was: Option<string>, now: Option<string>)
    requires Item(port) && FilterAgrees(db, port, was)
    ensures FilterAgrees(Exec(db, PlanFilter(port, was, now)), port, now)
  {
    var after := Exec(db, PlanFilter(port, was, now));
    forall f | !Reserved(f)
      ensures BoundTo(after, port, f) <==> now == Some(f)
    {
      if was != now {
        FilterListed(db, port, was, now, f);
      }
    }
  }

  // ---- the open/close delta ----

  lemma ExecThree(db: Db, a: Op, b: Op, c: Op)
    ensures Exec(db, [a, b, c]) == ExecOne(ExecOne(ExecOne(db, a), b), c)
  {
    ExecTwo(db, a, b);
    assert [a, b, c] == [a, b] + [c];
    ExecSnoc(db, [a, b], c);
  }

  lemma SetFieldsThree(h: Hash, a: (string, string), b: (string, string), c: (string, string))
    ensures SetFields(h, [a, b]) == h[a.0 := a.1][b.0 := b.1]
    ensures SetFields(h, [a, b, c]) == h[a.0 := a.1][b.0 := b.1][c.0 := c.1]
  {
    assert [a, b][1..] == [b] && [a, b, c][1..] == [b, c] && [b, c][1..] == [c];
    SetFieldsOne(h[a.0 := a.1], b);
    SetFieldsOne(h[a.0 := a.1][b.0 := b.1], c);
  }

  /** Closing establishes the closed gate from any database at all. */
  lemma CloseEstablishes(db: Db, port: string)
    ensures GateAgrees(Exec(db, PlanClose(port)), port, false)
  {
    var ops := PlanClose(port);
    ExecThree(db, ops[0], ops[1], ops[2]);
    KindsApart("", "", DenyTable(port), port);
    RuleKeysInjective(port, port);
    var tabled := ExecOne(db, ops[0]);
    var permitted := ExecOne(tabled, ops[1]);
    SetFieldsThree(HashAt(db, ops[0].key), ("type", "L3"), ("stage", "ingress"), ("ports", port));
    SetFieldsThree(HashAt(tabled, ops[1].key), PERMIT_FIELDS[0], PERMIT_FIELDS[1], PERMIT_FIELDS[2]);
    SetFieldsThree(HashAt(permitted, ops[2].key), DENY_FIELDS[0], DENY_FIELDS[1], DENY_FIELDS[0]);
  }

  lemma OpenEstablishes(db: Db, port: string)
    ensures GateAgrees(Exec(db, PlanOpen(port)), port, true)
  {
    var ops := PlanOpen(port);
    ExecTwo(db, ops[0], ops[1]);
  }

  predicate GateKey(port: string, k: string) {
    k == DenyRuleKey(port) || k == EapolPermitKey(port) || k == AclTableKey(DenyTable(port))
  }

  lemma GateFrame(db: Db, port: string, was: bool, now: bool, k: string)
    requires !GateKey(port, k)
    ensures Untouched(db, Exec(db, PlanGate(port, was, now)), k)
    ensures Untouched(db, Exec(db, PlanClose(port)), k)
  {
    var close, open := PlanClose(port), PlanOpen(port);
    ExecThree(db, close[0], close[1], close[2]);
    ExecTwo(db, open[0], open[1]);
  }

  // ---- what one port sees of another port's delta ----

  ghost predicate SameVlan(a: Db, b: Db, q: string) {
    forall v :: NoBar(v) ==> Untouched(a, b, VlanMemberKey(v, q))
  }

  ghost predicate SameFilter(a: Db, b: Db, q: string) {
    forall f :: !Reserved(f) ==> (BoundTo(a, q, f) <==> BoundTo(b, q, f))
  }

  /** The closed gate's own table is compared by what it binds. */
  predicate SameGate(a: Db, b: Db, q: string) {
    Untouched(a, b, DenyRuleKey(q)) && Untouched(a, b, EapolPermitKey(q)) && Untouched(a, b, AclTableKey(DenyTable(q)))
  }

  /** Nothing about port `q` differs. */
  ghost predicate SamePort(a: Db, b: Db, q: string) {
    SameVlan(a, b, q) && SameFilter(a, b, q) && SameGate(a, b, q)
  }

  lemma SameVlanAgrees(a: Db, b: Db, q: string, vlan: Option<string>)
    requires SameVlan(a, b, q) && (vlan.Some? ==> NoBar(vlan.value))
    ensures VlanAgrees(a, q, vlan) <==> VlanAgrees(b, q, vlan)
  {
  }

  lemma SamePortAgrees(a: Db, b: Db, q: string, d: Desired)
    requires SamePort(a, b, q) && Programmable(d)
    ensures Agrees(a, q, d) <==> Agrees(b, q, d)
  {
    SameVlanAgrees(a, b, q, d.vlan);
  }

  lemma VlanPhaseFrame(db: Db, port: string, was: Option<string>, now: Option<string>, q: string)
    requires (was.Some? ==> NoBar(was.value)) && (now.Some? ==> NoBar(now.value))
    ensures var after := Exec(db, PlanVlan(port, was, now));
            SameFilter(db, after, q) && SameGate(db, after, q) && (q != port ==> SameVlan(db, after, q))
  {
    var after := Exec(db, PlanVlan(port, was, now));
    var v, w := if was.Some? then was.value else "", if now.Some? then now.value else "";
    forall f
      ensures Untouched(db, after, AclTableKey(f))
    {
      KindsApart(v, port, f, q);
      KindsApart(w, port, f, q);
      VlanDelta(db, port, was, now, AclTableKey(f));
    }
    KindsApart(v, port, "", q);
    KindsApart(w, port, "", q);
    VlanDelta(db, port, was, now, DenyRuleKey(q));
    VlanDelta(db, port, was, now, EapolPermitKey(q));
    if q != port {
      forall x | NoBar(x)
        ensures Untouched(db, after, VlanMemberKey(x, q))
      {
        VlanDelta(db, port, was, now, VlanMemberKey(x, q));
        if VlanMemberKey(x, q) == VlanMemberKey(v, port) {
          VlanKeyInjective(x, q, v, port);
        }
        if VlanMemberKey(x, q) == VlanMemberKey(w, port) {
          VlanKeyInjective(x, q, w, port);
        }
      }
    }
  }

  lemma FilterPhaseFrame(db: Db, port: string, was: Option<string>, now: Option<string>, q: string)
    requires Item(port)
    requires (was.Some? ==> !Reserved(was.value)) && (now.Some? ==> !Reserved(now.value))
    ensures var after := Exec(db, PlanFilter(port, was, now));
            SameVlan(db, after, q) && SameGate(db, after, q) && (q != port ==> SameFilter(db, after, q))
  {
    var after := Exec(db, PlanFilter(port, was, now));
    var f, g := if was.Some? then was.value else "", if now.Some? then now.value else "";
    forall v
      ensures Untouched(db, after, VlanMemberKey(v, q))
    {
      KindsApart(v, q, f, q);
      KindsApart(v, q, g, q);
      FilterFrame(db, port, was, now, VlanMemberKey(v, q));
    }
    KindsApart("", "", f, q);
    KindsApart("", "", g, q);
    AclKeyInjective(f, DenyTable(q));
    AclKeyInjective(g, DenyTable(q));
    FilterFrame(db, port, was, now, DenyRuleKey(q));
    FilterFrame(db, port, was, now, EapolPermitKey(q));
    FilterFrame(db, port, was, now, AclTableKey(DenyTable(q)));
    if q != port && was != now {
      forall x | !Reserved(x)
        ensures BoundTo(db, q, x) <==> BoundTo(after, q, x)
      {
        FilterListed(db, port, was, now, x);
        WithoutFacts(ListAt(db, AclTableKey(x), "ports"), port);
        WithoutFacts(ListAt(after, AclTableKey(x), "ports"), port);
      }
    }
  }

  lemma GatePhaseFrame(db: Db, port: string, was: bool, now: bool, q: string, after: Db)
    requires after == Exec(db, PlanGate(port, was, now)) || after == Exec(db, PlanClose(port))
    ensures SameVlan(db, after, q) && SameFilter(db, after, q) && (q != port ==> SameGate(db, after, q))
  {
    forall v
      ensures Untouched(db, after, VlanMemberKey(v, q))
    {
      KindsApart(v, q, DenyTable(port), port);
      GateFrame(db, port, was, now, VlanMemberKey(v, q));
    }
    forall f | !Reserved(f)
      ensures Untouched(db, after, AclTableKey(f))
    {
      KindsApart("", "", f, port);
      AclKeyInjective(f, DenyTable(port));
      GateFrame(db, port, was, now, AclTableKey(f));
    }
    if q != port {
      RuleKeysInjective(q, port);
      RuleKeysInjective(port, q);
      KindsApart("", "", DenyTable(port), q);
      KindsApart("", "", DenyTable(q), port);
      AclKeyInjective(q, port);
      AclKeyInjective(DenyTable(q), DenyTable(port));
      GateFrame(db, port, was, now, DenyRuleKey(q));
      GateFrame(db, port, was, now, EapolPermitKey(q));
      GateFrame(db, port, was, now, AclTableKey(DenyTable(q)));
    }
  }

  function AfterVlan(db: Db, port: string, was: Desired, now: Desired): Db {
    Exec(db, PlanVlan(port, was.vlan, now.vlan))
  }

  function AfterFilter(db: Db, port: string, was: Desired, now: Desired): Db {
    Exec(AfterVlan(db, port, was, now), PlanFilter(port, was.filterId, now.filterId))
  }

  lemma TransitionPhases(db: Db, port: string, was: Desired, now: Desired)
    ensures Exec(db, Transition(port, was, now)) ==
            Exec(AfterFilter(db, port, was, now), PlanGate(port, was.authorized, now.authorized))
  {
    var v, f := PlanVlan(port, was.vlan, now.vlan), PlanFilter(port, was.filterId, now.filterId);
    ExecAppend(db, v, f);
    ExecAppend(db, v + f, PlanGate(port, was.authorized, now.authorized));
  }

  lemma GateMoves(db: Db, port: string, was: bool, now: bool)
    requires GateAgrees(db, port, was)
    ensures GateAgrees(Exec(db, PlanGate(port, was, now)), port, now)
  {
    CloseEstablishes(db, port);
    OpenEstablishes(db, port);
  }

  lemma VlanPhase(db: Db, port: string, was: Desired, vlan: Option<string>)
    requires PortName(port) && Programmable(was) && (vlan.Some? ==> NoBar(vlan.value)) && Agrees(db, port, was)
    ensures Agrees(Exec(db, PlanVlan(port, was.vlan, vlan)), port, was.(vlan := vlan))
  {
    VlanMoves(db, port, was.vlan, vlan);
    VlanPhaseFrame(db, port, was.vlan, vlan, port);
  }

  lemma FilterPhase(db: Db, port: string, was: Desired, filter: Option<string>)
    requires PortName(port) && Programmable(was) && (filter.Some? ==> !Reserved(filter.value)) && Agrees(db, port, was)
    ensures Agrees(Exec(db, PlanFilter(port, was.filterId, filter)), port, was.(filterId := filter))
  {
    var after := Exec(db, PlanFilter(port, was.filterId, filter));
    FilterMoves(db, port, was.filterId, filter);
    FilterPhaseFrame(db, port, was.filterId, filter, port);
    SameVlanAgrees(db, after, port, was.vlan);
  }

  lemma GatePhase(db: Db, port: string, was: Desired, open: bool)
    requires PortName(port) && Programmable(was) && Agrees(db, port, was)
    ensures Agrees(Exec(db, PlanGate(port, was.authorized, open)), port, was.(authorized := open))
  {
    var after := Exec(db, PlanGate(port, was.authorized, open));
    GatePhaseFrame(db, port, was.authorized, open, port, after);
    SameVlanAgrees(db, after, port, was.vlan);
    GateMoves(db, port, was.authorized, open);
  }

  lemma TransitionOwn(db: Db, port: string, was: Desired, now: Desired)
    requires PortName(port) && Programmable(was) && Programmable(now) && Agrees(db, port, was)
    ensures Agrees(Exec(db, Transition(port, was, now)), port, now)
  {
    TransitionPhases(db, port, was, now);
    VlanPhase(db, port, was, now.vlan);
    FilterPhase(AfterVlan(db, port, was, now), port, was.(vlan := now.vlan), now.filterId);
    GatePhase(AfterFilter(db, port, was, now), port, was.(vlan := now.vlan, filterId := now.filterId), now.authorized);
  }

  lemma SamePortTwice(a: Db, b: Db, c: Db, q: string)
    requires SamePort(a, b, q) && SamePort(b, c, q)
    ensures SamePort(a, c, q)
  {
  }

  lemma TransitionOther(db: Db, port: string, was: Desired, now: Desired, q: string)
    requires PortName(port) && Programmable(was) && Programmable(now) && q != port
    ensures SamePort(db, Exec(db, Transition(port, was, now)), q)
  {
    var a, b := AfterVlan(db, port, was, now), AfterFilter(db, port, was, now);
    var c := Exec(b, PlanGate(port, was.authorized, now.authorized));
    TransitionPhases(db, port, was, now);
    VlanPhaseFrame(db, port, was.vlan, now.vlan, q);
    FilterPhaseFrame(a, port, was.filterId, now.filterId, q);
    GatePhaseFrame(b, port, was.authorized, now.authorized, q, c);
    SamePortTwice(db, a, b, q);
    SamePortTwice(db, b, c, q);
  }

  /**
   Delta planning is correct and framed. From a database that agrees with `was`, the
   planned ops reach one that agrees with `now`, and no other port sees a difference.
   */
  lemma TransitionCorrect(db: Db, port: string, was: Desired, now: Desired, q: string)
    requires PortName(port) && Programmable(was) && Programmable(now) && Agrees(db, port, was)
    ensures Agrees(Exec(db, Transition(port, was, now)), port, now)
    ensures q != port ==> SamePort(db, Exec(db, Transition(port, was, now)), q)
  {
    TransitionOwn(db, port, was, now);
    if q != port {
      TransitionOther(db, port, was, now, q);
    }
  }

  /** Going through any intermediate posture agrees with going straight, for the port and for every other. */
  lemma TransitionComposes(db: Db, port: string, was: Desired, mid: Desired, now: Desired, q: string, d: Desired)
    requires PortName(port) && Programmable(was) && Programmable(mid) && Programmable(now) && Agrees(db, port, was)
    requires q != port && Programmable(d)
    ensures var straight := Exec(db, Transition(port, was, now));
            var around := Exec(db, Transition(port, was, mid) + Transition(port, mid, now));
            && Agrees(straight, port, now) && Agrees(around, port, now)
            && (Agrees(straight, q, d) <==> Agrees(around, q, d))
  {
    var half := Exec(db, Transition(port, was, mid));
    ExecAppend(db, Transition(port, was, mid), Transition(port, mid, now));
    TransitionCorrect(db, port, was, now, q);
    TransitionCorrect(db, port, was, mid, q);
    TransitionCorrect(half, port, mid, now, q);
    SamePortAgrees(db, Exec(db, Transition(port, was, now)), q, d);
    SamePortAgrees(db, half, q, d);
    SamePortAgrees(half, Exec(half, Transition(port, mid, now)), q, d);
  }

  /** A VLAN id that the enforcer accepts always fits in a key. */
  lemma ValidVlanFits(vlan: string)
    requires IsValidVlan(vlan)
    ensures NoBar(vlan)
  {
    forall i | 0 <= i < |vlan|
      ensures vlan[i] != '|'
    {
      if Unsigned(vlan) != vlan && i > 0 {
        assert vlan[i] == Unsigned(vlan)[i - 1];
      }
    }
  }

  // ---- how a VLAN id is spelled ----

  function Digit(n: nat): char
    requires n < 10
  {
    '0' + n as char
  }

  /** The decimal numeral of `n`, with no sign and no leading zero. */
  function Decimal(n: nat): string {
    if n < 10 then [Digit(n)] else Decimal(n / 10) + [Digit(n % 10)]
  }

  lemma {:induction false} DigitsGrow(s: string)
    requires s != "" && AllDigits(s) && s[0] != '0'
    ensures DecimalValue(s) >= 1 && (|s| > 1 ==> DecimalValue(s) >= 10)
  {
    if |s| == 1 {
      assert s[..0] == "";
    } else {
      DigitsGrow(s[..|s| - 1]);
    }
  }

  lemma {:induction false} DecimalOfDigits(s: string)
    requires s != "" && AllDigits(s) && s[0] != '0'
    ensures Decimal(DecimalValue(s)) == s
    decreases |s|
  {
    var front, d := s[..|s| - 1], s[|s| - 1] as int - '0' as int;
    assert s == front + [s[|s| - 1]];
    if |s| == 1 {
      assert front == "";
    } else {
      DecimalOfDigits(front);
      DigitsGrow(front);
      assert DecimalValue(s) / 10 == DecimalValue(front) && DecimalValue(s) % 10 == d;
    }
  }

  lemma {:induction false} DecimalStarts(n: nat)
    requires n >= 1
    ensures AllDigits(Decimal(n)) && Decimal(n) != "" && Decimal(n)[0] != '0'
  {
    if n < 10 {
    } else {
      DecimalStarts(n / 10);
    }
  }

  /** The number an accepted VLAN id stands for. */
  function VlanNumber(vlan: string): nat
    requires IsValidVlan(vlan)
  {
    DecimalValue(Unsigned(vlan))
  }

  /** An accepted id is the decimal of its number, so that its key is `Vlan<number>`, exactly when it has no sign and no leading zero. */
  lemma CanonicalVlanIff(vlan: string)
    requires IsValidVlan(vlan)
    ensures vlan == Decimal(VlanNumber(vlan)) <==> vlan[0] != '+' && vlan[0] != '0'
  {
    DecimalStarts(VlanNumber(vlan));
    if vlan[0] != '+' && vlan[0] != '0' {
      DecimalOfDigits(vlan);
    }
  }

  /** Three accepted spellings of VLAN 10, and three different memberships of one port. */
  lemma SpellingsDiffer(port: string)
    ensures IsValidVlan("10") && IsValidVlan("+10") && IsValidVlan("010")
    ensures VlanNumber("10") == VlanNumber("+10") == VlanNumber("010") == 10
    ensures VlanMemberKey("10", port) != VlanMemberKey("+10", port)
    ensures VlanMemberKey("10", port) != VlanMemberKey("010", port)
  {
    assert "1"[..0] == "" && "10"[..1] == "1" && "0"[..0] == "" && "01"[..1] == "0" && "010"[..2] == "01";
    assert "+10"[1..] == "10";
    assert DecimalValue("1") == 1 && DecimalValue("0") == 0 && DecimalValue("01") == 1;
    if VlanMemberKey("10", port) == VlanMemberKey("+10", port) {
      VlanKeyInjective("10", port, "+10", port);
    }
    if VlanMemberKey("10", port) == VlanMemberKey("010", port) {
      VlanKeyInjective("10", port, "010", port);
    }
  }
}
