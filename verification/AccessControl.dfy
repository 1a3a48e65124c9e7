/** `accesscontrol/entry.go`: one policy per address key, over a default. */
module AccessControl {
  import opened Net
  import opened Vip

  /** The table as a value: the policies by key. */
  datatype Acl = Acl(defaultPolicy: bool, policies: map<Key, bool>) {
    function Upsert(ip: IP, policy: bool): Acl {
      this.(policies := policies[IP2Int(ip) := policy])
    }

    function Remove(ip: IP): Acl {
      this.(policies := policies - {IP2Int(ip)})
    }

    predicate Apply(ip: IP) {
      if IP2Int(ip) in policies then policies[IP2Int(ip)] else defaultPolicy
    }
  }

  datatype Op = Upsert(ip: IP, policy: bool) | Remove(ip: IP)

  function Do(a: Acl, op: Op): Acl {
    match op
    case Upsert(ip, policy) => a.Upsert(ip, policy)
    case Remove(ip) => a.Remove(ip)
  }

  function Replay(defaultPolicy: bool, ops: seq<Op>): (a: Acl)
    ensures a.defaultPolicy == defaultPolicy
  {
    if ops == [] then Acl(defaultPolicy, map[])
    else Do(Replay(defaultPolicy, ops[..|ops| - 1]), ops[|ops| - 1])
  }

  /** `i` is the last operation on the key of `ip`. */
  ghost predicate IsLastOn(ops: seq<Op>, i: nat, ip: IP) {
    i < |ops| && IP2Int(ops[i].ip) == IP2Int(ip) &&
    forall j | i < j < |ops| :: IP2Int(ops[j].ip) != IP2Int(ip)
  }

  /** The table answers with the last writer: the policy of the last upsert of the
      key if no operation on that key follows, else the default. */
  lemma {:induction false} ApplyIsLastWriter(defaultPolicy: bool, ops: seq<Op>, ip: IP)
    ensures forall i: nat | IsLastOn(ops, i, ip) ::
              Replay(defaultPolicy, ops).Apply(ip) == if ops[i].Upsert? then ops[i].policy else defaultPolicy
    ensures (forall i | 0 <= i < |ops| :: IP2Int(ops[i].ip) != IP2Int(ip)) ==>
            Replay(defaultPolicy, ops).Apply(ip) == defaultPolicy
  {
    if ops != [] {
      var n := |ops| - 1;
      ApplyIsLastWriter(defaultPolicy, ops[..n], ip);
      forall i: nat | IsLastOn(ops, i, ip)
        ensures Replay(defaultPolicy, ops).Apply(ip) == if ops[i].Upsert? then ops[i].policy else defaultPolicy
      {
        if i < n {
          assert IsLastOn(ops[..n], i, ip);
          assert IP2Int(ops[n].ip) != IP2Int(ip);
        }
      }
    }
  }

  /** The answer does not depend on how an address is spelled. */
  lemma ApplyIgnoresSpelling(a: Acl, ip: IP)
    ensures a.Apply(To16(ip)) == a.Apply(ip)
    ensures To4(ip) != [] ==> a.Apply(To4(ip)) == a.Apply(ip)
  {
    KeyOfSpellings(ip);
  }

  /** The source's table: a map of maps, updated in place. */
  class Entries {
    const defaultPolicy: bool
    var entries: map<U64, map<U64, bool>>
    ghost var Table: Acl

    ghost predicate Valid()
      reads this
    {
      Table.defaultPolicy == defaultPolicy &&
      (forall k: Key :: k in Table.policies <==> k.0 in entries && k.1 in entries[k.0]) &&
      (forall k: Key | k in Table.policies :: Table.policies[k] == entries[k.0][k.1])
    }

    constructor (defaultPolicy: bool)
      ensures Valid() && Table == Replay(defaultPolicy, [])
    {
      this.defaultPolicy := defaultPolicy;
      entries := map[];
      Table := Acl(defaultPolicy, map[]);
    }

    method Upsert(ip: IP, policy: bool)
      requires Valid()
      modifies this
      ensures Valid() && Table == old(Table).Upsert(ip, policy)
    {
      var (upper, lower) := IP2Int(ip);
      if upper !in entries {
        entries := entries[upper := map[]];
      }
      entries := entries[upper := entries[upper][lower := policy]];
      Table := Table.Upsert(ip, policy);
    }

    method Remove(ip: IP)
      requires Valid()
      modifies this
      ensures Valid() && Table == old(Table).Remove(ip)
    {
      var (upper, lower) := IP2Int(ip);
      if upper in entries {
        entries := entries[upper := entries[upper] - {lower}];
      }
      Table := Table.Remove(ip);
    }

    method Apply(ip: IP) returns (ok: bool)
      requires Valid()
      ensures ok == Table.Apply(ip)
    {
      var (upper, lower) := IP2Int(ip);
      if upper in entries {
        var v := entries[upper];
        if lower in v {
          return v[lower];
        }
      }
      return defaultPolicy;
    }
  }
}
