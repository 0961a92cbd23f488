/**
 The SONiC CONFIG_DB mapping: postures, keys, the delta planner, and what each
 operation does to the key/field map, down to comma-separated list strings.
 */
module Schema {
  import opened Wrappers
  import opened PaeTypes

  type Hash = map<string, string>
  type Db = map<string, Hash>

  datatype Op =
    | HSet(key: string, fields: seq<(string, string)>)
    | Del(key: string)
    | ListAdd(key: string, field: string, value: string)
    | ListRemove(key: string, field: string, value: string)

  // ---- comma-separated lists ----

  /** `s` cut at every comma. */
  function Split(s: string): (parts: seq<string>)
    ensures |parts| > 0
  {
    if s == "" then [""]
    else if s[0] == ',' then [""] + Split(s[1..])
    else
      var rest := Split(s[1..]);
      [[s[0]] + rest[0]] + rest[1..]
  }

  function NonEmptyParts(parts: seq<string>): seq<string> {
    if parts == [] then [] else (if parts[0] == "" then [] else [parts[0]]) + NonEmptyParts(parts[1..])
  }

  function Items(s: string): seq<string> { NonEmptyParts(Split(s)) }

  function Join(items: seq<string>): string {
    if items == [] then "" else if |items| == 1 then items[0] else items[0] + "," + Join(items[1..])
  }

  function Without(items: seq<string>, v: string): seq<string> {
    if items == [] then [] else (if items[0] == v then [] else [items[0]]) + Without(items[1..], v)
  }

  // ---- operations ----

  function HashAt(db: Db, key: string): Hash {
    if key in db then db[key] else map[]
  }

  function SetFields(h: Hash, fields: seq<(string, string)>): Hash
    decreases |fields|
  {
    if fields == [] then h else SetFields(h[fields[0].0 := fields[0].1], fields[1..])
  }

  /** The list stored in a field; a missing field is an empty list. */
  function ListAt(db: Db, key: string, field: string): seq<string> {
    if field in HashAt(db, key) then Items(HashAt(db, key)[field]) else []
  }

  function ExecOne(db: Db, op: Op): Db {
    match op
    case HSet(key, fields) => db[key := SetFields(HashAt(db, key), fields)]
    case Del(key) => map k | k in db && k != key :: db[k]
    case ListAdd(key, field, value) =>
      var items := ListAt(db, key, field);
      db[key := HashAt(db, key)[field := Join(if value in items then items else items + [value])]]
    case ListRemove(key, field, value) =>
      if field in HashAt(db, key)
      then db[key := HashAt(db, key)[field := Join(Without(ListAt(db, key, field), value))]]
      else db
  }

  function Exec(db: Db, ops: seq<Op>): Db
    decreases |ops|
  {
    if ops == [] then db else Exec(ExecOne(db, ops[0]), ops[1..])
  }

  // ---- postures and keys ----

  datatype Desired = Desired(authorized: bool, vlan: Option<string>, filterId: Option<string>)

  const CLOSED := Desired(false, None, None)

  function FromAuthorization(auth: PortAuthorization): Desired {
    match auth
    case Authorized(a) => Desired(true, a.vlan, a.filterId)
    case FallbackVlan(_, vlan) => Desired(true, vlan, None)
    case Unauthorized => CLOSED
  }

  const EAPOL_TRAP_KEY := "COPP_TRAP|eapol"

  function VlanMemberKey(vlan: string, port: string): string { "VLAN_MEMBER|Vlan" + vlan + "|" + port }

  function AclTableKey(name: string): string { "ACL_TABLE|" + name }

  function DenyTable(port: string): string { "DOT1X_" + port }

  function DenyRuleKey(port: string): string { "ACL_RULE|DOT1X_" + port + "|DENY_ALL" }

  function EapolPermitKey(port: string): string { "ACL_RULE|DOT1X_" + port + "|ALLOW_EAPOL" }

  // ---- plans ----

  const UNTAGGED := [("tagging_mode", "untagged")]
  const PERMIT_FIELDS := [("PRIORITY", "9999"), ("ETHER_TYPE", "0x888E"), ("PACKET_ACTION", "FORWARD")]
  const DENY_FIELDS := [("PRIORITY", "1"), ("PACKET_ACTION", "DROP")]

  function PlanTrap(): seq<Op> {
    [HSet(EAPOL_TRAP_KEY, [("trap_ids", "eapol"), ("trap_group", "queue4_group1")])]
  }

  function PlanOpen(port: string): seq<Op> {
    [Del(DenyRuleKey(port)), Del(EapolPermitKey(port))]
  }

  function PlanClose(port: string): seq<Op> {
    [HSet(AclTableKey(DenyTable(port)), [("type", "L3"), ("stage", "ingress"), ("ports", port)]),
     HSet(EapolPermitKey(port), PERMIT_FIELDS),
     HSet(DenyRuleKey(port), DENY_FIELDS)]
  }

  function PlanVlan(port: string, old_: Option<string>, new_: Option<string>): seq<Op> {
    if old_ == new_ then []
    else (if old_.Some? then [Del(VlanMemberKey(old_.value, port))] else [])
         + (if new_.Some? then [HSet(VlanMemberKey(new_.value, port), UNTAGGED)] else [])
  }

  function PlanFilter(port: string, old_: Option<string>, new_: Option<string>): seq<Op> {
    if old_ == new_ then []
    else (if old_.Some? then [ListRemove(AclTableKey(old_.value), "ports", port)] else [])
         + (if new_.Some? then [ListAdd(AclTableKey(new_.value), "ports", port)] else [])
  }

  function PlanGate(port: string, was: bool, now: bool): seq<Op> {
    if was == now then [] else if now then PlanOpen(port) else PlanClose(port)
  }

  /** The ops that move `port` from posture `old_` to `new_`. */
  function Transition(port: string, old_: Desired, new_: Desired): seq<Op> {
    PlanVlan(port, old_.vlan, new_.vlan)
    + PlanFilter(port, old_.filterId, new_.filterId)
    + PlanGate(port, old_.authorized, new_.authorized)
  }

  /** The planner, pushing its ops one delta after another. */
  method PlanTransition(port: string, old_: Desired, new_: Desired) returns (ops: seq<Op>)
    ensures ops == Transition(port, old_, new_)
  {
    ops := [];
    if old_.vlan != new_.vlan {
      if old_.vlan.Some? {
        ops := ops + [Del(VlanMemberKey(old_.vlan.value, port))];
      }
      if new_.vlan.Some? {
        ops := ops + [HSet(VlanMemberKey(new_.vlan.value, port), UNTAGGED)];
      }
    }
    assert ops == PlanVlan(port, old_.vlan, new_.vlan);
    ghost var first := ops;
    if old_.filterId != new_.filterId {
      if old_.filterId.Some? {
        ops := ops + [ListRemove(AclTableKey(old_.filterId.value), "ports", port)];
      }
      if new_.filterId.Some? {
        ops := ops + [ListAdd(AclTableKey(new_.filterId.value), "ports", port)];
      }
    }
    assert ops == first + PlanFilter(port, old_.filterId, new_.filterId);
    if old_.authorized != new_.authorized {
      if new_.authorized {
        ops := ops + PlanOpen(port);
      } else {
        ops := ops + PlanClose(port);
      }
    }
  }

  // ---- VLAN ids ----

  predicate AllDigits(s: string) {
    forall i :: 0 <= i < |s| ==> '0' <= s[i] <= '9'
  }

  function DecimalValue(s: string): nat
    requires AllDigits(s)
    decreases |s|
  {
    if s == "" then 0 else DecimalValue(s[..|s| - 1]) * 10 + (s[|s| - 1] as int - '0' as int)
  }

  /** An unsigned decimal with an optional leading plus sign. */
  function Unsigned(s: string): string {
    if s != "" && s[0] == '+' then s[1..] else s
  }

  /** A decimal id in 1..=4094. */
  predicate IsValidVlan(vlan: string) {
    var digits := Unsigned(vlan);
    digits != "" && AllDigits(digits) && 1 <= DecimalValue(digits) <= 4094
  }

  // ---- the database connection ----

  lemma {:induction false} ExecAppend(db: Db, a: seq<Op>, b: seq<Op>)
    ensures Exec(db, a + b) == Exec(Exec(db, a), b)
    decreases |a|
  {
    if a == [] {
      assert a + b == b;
    } else {
      assert (a + b)[1..] == a[1..] + b;
      ExecAppend(ExecOne(db, a[0]), a[1..], b);
    }
  }

  lemma ExecSnoc(db: Db, a: seq<Op>, op: Op)
    ensures Exec(db, a + [op]) == ExecOne(Exec(db, a), op)
  {
    ExecAppend(db, a, [op]);
    assert [op][1..] == [];
  }

  /** The key/field map behind the connection, updated op by op. */
  class RedisDb {
    var keys: Db

    constructor (keys: Db)
      ensures this.keys == keys
    {
      this.keys := keys;
    }

    /** Apply in order; `fault` is the number of ops that land before the backend fails, if it does. */
    method Apply(ops: seq<Op>, fault: Option<nat>) returns (ok: bool)
      modifies this
      ensures ok == (fault.None? || fault.value >= |ops|)
      ensures keys == Exec(old(keys), if ok then ops else ops[..fault.value])
    {
      var i := 0;
      while i < |ops|
        invariant 0 <= i <= |ops| && (fault.Some? ==> i <= fault.value)
        invariant keys == Exec(old(keys), ops[..i])
      {
        if fault == Some(i) {
          return false;
        }
        ExecSnoc(old(keys), ops[..i], ops[i]);
        assert ops[..i + 1] == ops[..i] + [ops[i]];
        match ops[i] {
          case HSet(key, fields) => keys := keys[key := SetFields(HashAt(keys, key), fields)];
          case Del(key) => keys := map k | k in keys && k != key :: keys[k];
          case ListAdd(key, field, value) =>
            var items := ListAt(keys, key, field);
            if value !in items {
              items := items + [value];
            }
            keys := keys[key := HashAt(keys, key)[field := Join(items)]];
          case ListRemove(key, field, value) =>
            if field in HashAt(keys, key) {
              var items := Without(ListAt(keys, key, field), value);
              keys := keys[key := HashAt(keys, key)[field := Join(items)]];
            }
        }
        i := i + 1;
      }
      assert ops[..i] == ops;
      ok := true;
    }

    /** Whether `key` exists; `None` if the backend fails. */
    method Confirm(key: string, fault: bool) returns (r: Option<bool>)
      ensures r == if fault then None else Some(key in keys)
    {
      r := if fault then None else Some(key in keys);
    }
  }
}
