/**
 * The node descriptor every cluster builder produces: what a container is
 * configured with before anything is started.
 */
module Nodes {
  import AuthEnv

  /**
   * The node types of the cluster container (`NodeType`). The older revision's
   * `AGENCY`, `DATABASE` and `COORDINATOR` map to `Agent`, `DbServer` and
   * `Coordinator`; its builder's `AGENCY_LEADER` maps to `AgentLeader`.
   */
  datatype Role = AgentLeader | Agent | DbServer | Coordinator

  /** Declaration order of the enum, which `Comparator.comparing(getType)` sorts by. */
  function Ordinal(r: Role): nat
  {
    match r
    case AgentLeader => 0
    case Agent => 1
    case DbServer => 2
    case Coordinator => 3
  }

  predicate IsAgency(r: Role)
  {
    r == AgentLeader || r == Agent
  }

  /**
   * How the node's port is published: `Fixed(p)` binds host port `p`
   * (`withFixedPort`), `Mapped(p)` exposes container port `p` on a host port the
   * runtime picks (`addExposedPort`/`withExposedPorts`).
   */
  datatype Port = Fixed(host: int) | Mapped(container: int)

  /**
   * One server process: its type, network alias, the address other nodes use
   * to reach it, its port publication, its command-line arguments (as the
   * container library stores them, one argument per element), the aliases of
   * the nodes that must start first, and the authentication modes its
   * environment switches on.
   */
  datatype Node = Node(
    role: Role,
    alias: string,
    endpoint: string,
    port: Port,
    command: seq<string>,
    dependsOn: set<string>,
    authModes: set<AuthEnv.AuthMode>)

  predicate IsLeader(n: Node)
  {
    n.role == AgentLeader
  }

  function RoleKey(n: Node): nat
  {
    Ordinal(n.role)
  }

  /** `dependsOn(...)`: the container library adds to a set of prerequisites. */
  function WithDependencies(n: Node, aliases: set<string>): (r: Node)
    ensures r.dependsOn == n.dependsOn + aliases
    ensures r.(dependsOn := n.dependsOn) == n
  {
    n.(dependsOn := n.dependsOn + aliases)
  }

  function Aliases(ns: seq<Node>): (r: seq<string>)
    ensures |r| == |ns|
    ensures forall i :: 0 <= i < |ns| ==> r[i] == ns[i].alias
  {
    seq(|ns|, i requires 0 <= i < |ns| => ns[i].alias)
  }

  function Endpoints(ns: seq<Node>): (r: seq<string>)
    ensures |r| == |ns|
    ensures forall i :: 0 <= i < |ns| ==> r[i] == ns[i].endpoint
  {
    seq(|ns|, i requires 0 <= i < |ns| => ns[i].endpoint)
  }

  function AliasSet(ns: seq<Node>): (r: set<string>)
    ensures forall a :: a in r <==> exists i :: 0 <= i < |ns| && ns[i].alias == a
  {
    set i | 0 <= i < |ns| :: ns[i].alias
  }

  /** An alias of a slice is the alias of a node inside the slice's bounds. */
  lemma AliasSetSlice(ns: seq<Node>, lo: int, hi: int, x: string)
    requires 0 <= lo <= hi <= |ns| && x in AliasSet(ns[lo..hi])
    ensures exists j :: lo <= j < hi && ns[j].alias == x
  {
    var k :| 0 <= k < hi - lo && ns[lo..hi][k].alias == x;
    assert ns[lo + k].alias == x;
  }

  /** `flag v0 flag v1 ...`: one flag/value pair per value, in order. */
  function Pairs(flag: string, values: seq<string>): (r: seq<string>)
    ensures |r| == 2 * |values|
    ensures forall i :: 0 <= i < |values| ==> r[2 * i] == flag && r[2 * i + 1] == values[i]
  {
    if values == [] then []
    else
      var rest := Pairs(flag, values[1..]);
      var r := [flag, values[0]] + rest;
      assert forall i :: 1 <= i < |values| ==> r[2 * i] == flag && r[2 * i + 1] == values[i] by {
        forall i | 1 <= i < |values|
          ensures r[2 * i] == flag && r[2 * i + 1] == values[i]
        {
          var k := i - 1;
          assert values[1..][k] == values[i];
          assert rest[2 * k] == flag && rest[2 * k + 1] == values[1..][k];
          assert r[2 * i] == rest[2 * k] && r[2 * i + 1] == rest[2 * k + 1];
        }
      }
      r
  }

  /** The values given to `flag` in a command, in order (each flag takes the argument after it). */
  function FlagValues(command: seq<string>, flag: string): seq<string>
  {
    if |command| < 2 then []
    else if command[0] == flag then [command[1]] + FlagValues(command[2..], flag)
    else FlagValues(command[1..], flag)
  }

  lemma {:induction false} FlagValuesOfPairs(flag: string, values: seq<string>)
    ensures FlagValues(Pairs(flag, values), flag) == values
    decreases |values|
  {
    if values != [] {
      var p := Pairs(flag, values);
      assert p == [flag, values[0]] + Pairs(flag, values[1..]);
      assert p[2..] == Pairs(flag, values[1..]);
      FlagValuesOfPairs(flag, values[1..]);
    }
  }

  lemma {:induction false} FlagValuesSkip(base: seq<string>, rest: seq<string>, flag: string)
    requires flag !in base
    ensures FlagValues(base + rest, flag) == FlagValues(rest, flag)
    decreases |base|
  {
    if base != [] {
      var c := base + rest;
      assert c[0] == base[0] != flag;
      if |c| >= 2 {
        assert c[1..] == base[1..] + rest;
        FlagValuesSkip(base[1..], rest, flag);
      } else {
        assert rest == [];
        assert base[1..] + rest == [];
      }
    } else {
      assert base + rest == rest;
    }
  }

  /** Appending flag/value pairs to a command that never mentions the flag makes them its only values. */
  lemma FlagValuesAppended(base: seq<string>, flag: string, values: seq<string>)
    requires flag !in base
    ensures FlagValues(base + Pairs(flag, values), flag) == values
  {
    FlagValuesSkip(base, Pairs(flag, values), flag);
    FlagValuesOfPairs(flag, values);
  }

  /** Pairs mention nothing but their flag and their values. */
  lemma PairsAvoid(flag: string, values: seq<string>, other: string)
    requires other != flag && other !in values
    ensures other !in Pairs(flag, values)
  {
    var p := Pairs(flag, values);
    forall i | 0 <= i < |p|
      ensures p[i] != other
    {
      var k := i / 2;
      if i % 2 == 0 {
        assert p[2 * k] == flag;
      } else {
        assert p[2 * k + 1] == values[k];
      }
    }
  }

  /** Pairs followed by further arguments contribute their values first. */
  lemma {:induction false} FlagValuesPairsThen(flag: string, values: seq<string>, tail: seq<string>)
    ensures FlagValues(Pairs(flag, values) + tail, flag) == values + FlagValues(tail, flag)
    decreases |values|
  {
    if values != [] {
      var p := Pairs(flag, values);
      assert p == [flag, values[0]] + Pairs(flag, values[1..]);
      assert (p + tail)[2..] == Pairs(flag, values[1..]) + tail;
      FlagValuesPairsThen(flag, values[1..], tail);
    } else {
      assert Pairs(flag, values) + tail == tail;
    }
  }

  /** Pairs placed between arguments that never mention the flag are its only values. */
  lemma FlagValuesInside(base: seq<string>, flag: string, values: seq<string>, tail: seq<string>)
    requires flag !in base && flag !in tail
    ensures FlagValues(base + Pairs(flag, values) + tail, flag) == values
  {
    assert base + Pairs(flag, values) + tail == base + (Pairs(flag, values) + tail);
    FlagValuesSkip(base, Pairs(flag, values) + tail, flag);
    FlagValuesPairsThen(flag, values, tail);
    FlagValuesSkip(tail, [], flag);
    assert tail + [] == tail;
  }

  ghost predicate UniqueAliases(ns: seq<Node>)
  {
    forall i, j :: 0 <= i < j < |ns| ==> ns[i].alias != ns[j].alias
  }

  /**
   * Every prerequisite of a node is the alias of a node placed before it, so
   * the list order is a start order and the dependency graph has no cycle.
   */
  ghost predicate DependenciesPrecede(ns: seq<Node>)
  {
    forall i, d :: 0 <= i < |ns| && d in ns[i].dependsOn ==>
      exists j :: 0 <= j < i && ns[j].alias == d
  }

  /**
   * The start dependencies of a list of `a` agencies, `d` data servers and
   * then coordinators: agencies other than the first depend on the first
   * alone, data servers on every agency, and coordinators on every data
   * server but on no agency.
   */
  ghost predicate Layered(ns: seq<Node>, a: int, d: int)
  {
    0 <= a <= a + d <= |ns|
    && forall i :: 0 <= i < |ns| ==>
      ns[i].dependsOn ==
        (if i == 0 then {} else if i < a then {ns[0].alias}
         else if i < a + d then AliasSet(ns[..a]) else AliasSet(ns[a..a + d]))
  }

  /** Layered dependencies always point backwards. */
  lemma LayeredPrecede(ns: seq<Node>, a: int, d: int)
    requires Layered(ns, a, d)
    ensures DependenciesPrecede(ns)
  {
    forall i, x | 0 <= i < |ns| && x in ns[i].dependsOn
      ensures exists j :: 0 <= j < i && ns[j].alias == x
    {
      if i < a {
        assert x == ns[0].alias;
      } else if i < a + d {
        assert ns[..a] == ns[0..a];
        AliasSetSlice(ns, 0, a, x);
      } else {
        AliasSetSlice(ns, a, a + d, x);
      }
    }
  }
}
