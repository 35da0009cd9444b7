/**
 * `cluster/ArangoCluster`: a built node list viewed by node type. The
 * constructor splits the list into coordinators, agents (the leader
 * included) and data servers, each in list order; the getters read those
 * lists back.
 */
module ClusterView {
  import opened Wrappers
  import opened Lists
  import opened Nodes

  /** `IllegalArgumentException("Agent leader not found!")`. */
  datatype ViewError = LeaderNotFound

  datatype Cluster = Cluster(coordinators: seq<Node>, agents: seq<Node>, databases: seq<Node>)

  const AgentRoles: set<Role> := {AgentLeader, Agent}

  /** `stream().filter(type in roles).collect(toList())`: the nodes of those types, in list order. */
  function OfRoles(ns: seq<Node>, roles: set<Role>): (r: seq<Node>)
    ensures |r| <= |ns|
    ensures forall i :: 0 <= i < |r| ==> r[i].role in roles
    decreases |ns|
  {
    if ns == [] then []
    else (if ns[0].role in roles then [ns[0]] else []) + OfRoles(ns[1..], roles)
  }

  /** Filtering a concatenation filters each part and keeps the parts in order. */
  lemma {:induction false} OfRolesAppend(xs: seq<Node>, ys: seq<Node>, roles: set<Role>)
    ensures OfRoles(xs + ys, roles) == OfRoles(xs, roles) + OfRoles(ys, roles)
    decreases |xs|
  {
    if xs != [] {
      assert (xs + ys)[0] == xs[0];
      assert (xs + ys)[1..] == xs[1..] + ys;
      OfRolesAppend(xs[1..], ys, roles);
    } else {
      assert xs + ys == ys;
    }
  }

  /** A list whose nodes all have one of the types is kept whole. */
  lemma {:induction false} OfRolesAll(ns: seq<Node>, roles: set<Role>)
    requires forall i :: 0 <= i < |ns| ==> ns[i].role in roles
    ensures OfRoles(ns, roles) == ns
    decreases |ns|
  {
    if ns != [] {
      OfRolesAll(ns[1..], roles);
      assert ns == [ns[0]] + ns[1..];
    }
  }

  /** A list with none of the types filters to nothing. */
  lemma {:induction false} OfRolesNone(ns: seq<Node>, roles: set<Role>)
    requires forall i :: 0 <= i < |ns| ==> ns[i].role !in roles
    ensures OfRoles(ns, roles) == []
    decreases |ns|
  {
    if ns != [] {
      OfRolesNone(ns[1..], roles);
    }
  }

  /** `new ArangoCluster(containers)`. */
  function View(ns: seq<Node>): (v: Cluster)
    ensures forall i :: 0 <= i < |v.coordinators| ==> v.coordinators[i].role == Coordinator
    ensures forall i :: 0 <= i < |v.agents| ==> IsAgency(v.agents[i].role)
    ensures forall i :: 0 <= i < |v.databases| ==> v.databases[i].role == DbServer
  {
    Cluster(OfRoles(ns, {Coordinator}), OfRoles(ns, AgentRoles), OfRoles(ns, {DbServer}))
  }

  /** Filtering by two disjoint sets of types splits the filter by their union. */
  lemma {:induction false} OfRolesSplit(ns: seq<Node>, r1: set<Role>, r2: set<Role>)
    requires r1 !! r2
    ensures multiset(OfRoles(ns, r1 + r2)) == multiset(OfRoles(ns, r1)) + multiset(OfRoles(ns, r2))
    decreases |ns|
  {
    if ns != [] {
      OfRolesSplit(ns[1..], r1, r2);
      var x := ns[0];
      var h1, h2 := if x.role in r1 then [x] else [], if x.role in r2 then [x] else [];
      var h := if x.role in r1 + r2 then [x] else [];
      assert OfRoles(ns, r1) == h1 + OfRoles(ns[1..], r1);
      assert OfRoles(ns, r2) == h2 + OfRoles(ns[1..], r2);
      assert OfRoles(ns, r1 + r2) == h + OfRoles(ns[1..], r1 + r2);
      assert multiset(h) == multiset(h1) + multiset(h2);
      assert multiset(OfRoles(ns, r1 + r2)) == multiset(h) + multiset(OfRoles(ns[1..], r1 + r2));
      assert multiset(OfRoles(ns, r1)) == multiset(h1) + multiset(OfRoles(ns[1..], r1));
      assert multiset(OfRoles(ns, r2)) == multiset(h2) + multiset(OfRoles(ns[1..], r2));
    }
  }

  /** Every node lands in exactly one of the three lists, so the view loses and duplicates nothing. */
  lemma ViewPartitions(ns: seq<Node>)
    ensures var v := View(ns);
      multiset(v.agents) + multiset(v.coordinators) + multiset(v.databases) == multiset(ns)
  {
    var all := {AgentLeader, Agent, Coordinator, DbServer};
    assert AgentRoles + {Coordinator} + {DbServer} == all;
    OfRolesSplit(ns, AgentRoles, {Coordinator});
    OfRolesSplit(ns, AgentRoles + {Coordinator}, {DbServer});
    forall i | 0 <= i < |ns|
      ensures ns[i].role in all
    {
      match ns[i].role
      case AgentLeader =>
      case Agent =>
      case DbServer =>
      case Coordinator =>
    }
    OfRolesAll(ns, all);
  }

  /** `getNodes()`: agents, then coordinators, then data servers, each list in its own order. */
  function GetNodes(v: Cluster): (r: seq<Node>)
    ensures |r| == |v.agents| + |v.coordinators| + |v.databases|
    ensures forall i :: 0 <= i < |v.agents| ==> r[i] == v.agents[i]
    ensures forall i :: 0 <= i < |v.coordinators| ==> r[|v.agents| + i] == v.coordinators[i]
    ensures forall i :: 0 <= i < |v.databases| ==> r[|v.agents| + |v.coordinators| + i] == v.databases[i]
  {
    v.agents + v.coordinators + v.databases
  }

  /** The node list of a view is a permutation of the list it was made from. */
  lemma GetNodesPermutes(ns: seq<Node>)
    ensures |GetNodes(View(ns))| == |ns|
    ensures multiset(GetNodes(View(ns))) == multiset(ns)
  {
    ViewPartitions(ns);
    assert |multiset(GetNodes(View(ns)))| == |multiset(ns)|;
  }

  /** The first leader of a list of agents, if there is one. */
  function FirstLeader(agents: seq<Node>): (r: Option<nat>)
    ensures r.Some? <==> exists i :: 0 <= i < |agents| && agents[i].role == AgentLeader
    ensures r.Some? ==> r.value < |agents| && agents[r.value].role == AgentLeader
    ensures r.Some? ==> forall j :: 0 <= j < r.value ==> agents[j].role != AgentLeader
    decreases |agents|
  {
    if agents == [] then None
    else if agents[0].role == AgentLeader then Some(0)
    else
      var rest := FirstLeader(agents[1..]);
      assert (exists i :: 0 <= i < |agents| && agents[i].role == AgentLeader)
          <==> (exists i :: 0 <= i < |agents[1..]| && agents[1..][i].role == AgentLeader) by {
        forall i | 0 < i < |agents|
          ensures agents[i] == agents[1..][i - 1]
        {
        }
      }
      if rest.None? then None else Some(rest.value + 1)
  }

  /** `getAgentLeader()`: the first agent of the leader type, or an error when there is none. */
  function GetAgentLeader(v: Cluster): (r: Result<Node, ViewError>)
    ensures r.Failure? <==> forall i :: 0 <= i < |v.agents| ==> v.agents[i].role != AgentLeader
    ensures r.Success? ==> r.value.role == AgentLeader
    ensures r.Success? ==>
      exists i :: 0 <= i < |v.agents| && v.agents[i] == r.value && forall j :: 0 <= j < i ==> v.agents[j].role != AgentLeader
  {
    match FirstLeader(v.agents)
    case None => Failure(LeaderNotFound)
    case Some(i) => Success(v.agents[i])
  }

  /** `getAgentLeaderPort()`: the leader's host port, as the runtime reports it through `portOf`. */
  function GetAgentLeaderPort(v: Cluster, portOf: Node -> int): (r: Result<int, ViewError>)
    ensures r.Success? <==> GetAgentLeader(v).Success?
    ensures r.Success? ==> r.value == portOf(GetAgentLeader(v).value)
  {
    match GetAgentLeader(v)
    case Failure(e) => Failure(e)
    case Success(n) => Success(portOf(n))
  }

  /** `getCoordinator(i)`: coordinator `i`, or the index error of `List.get(i)`. */
  function GetCoordinator(v: Cluster, i: int): (r: Result<Node, IndexError>)
    ensures r.Success? <==> 0 <= i < |v.coordinators|
    ensures r.Success? ==> r.value == v.coordinators[i]
    ensures r.Failure? ==> r.error == IndexOutOfBounds(i, |v.coordinators|)
  {
    At(v.coordinators, i)
  }

  /** `getAgent(i)`: agent `i`, the leader included, or the index error of `List.get(i)`. */
  function GetAgent(v: Cluster, i: int): (r: Result<Node, IndexError>)
    ensures r.Success? <==> 0 <= i < |v.agents|
    ensures r.Success? ==> r.value == v.agents[i]
    ensures r.Failure? ==> r.error == IndexOutOfBounds(i, |v.agents|)
  {
    At(v.agents, i)
  }

  /** `getDatabase(i)`: data server `i`, or the index error of `List.get(i)`. */
  function GetDatabase(v: Cluster, i: int): (r: Result<Node, IndexError>)
    ensures r.Success? <==> 0 <= i < |v.databases|
    ensures r.Success? ==> r.value == v.databases[i]
    ensures r.Failure? ==> r.error == IndexOutOfBounds(i, |v.databases|)
  {
    At(v.databases, i)
  }

  /** `stream().map(getPort)`: one host port per node, in order. */
  function Ports(ns: seq<Node>, portOf: Node -> int): (r: seq<int>)
    ensures |r| == |ns| && forall i :: 0 <= i < |ns| ==> r[i] == portOf(ns[i])
  {
    seq(|ns|, i requires 0 <= i < |ns| => portOf(ns[i]))
  }

  /** `getCoordinatorPorts()`: one port per coordinator, in view order. */
  function GetCoordinatorPorts(v: Cluster, portOf: Node -> int): (r: seq<int>)
    ensures |r| == |v.coordinators|
    ensures forall i :: 0 <= i < |r| ==> r[i] == portOf(v.coordinators[i])
  {
    Ports(v.coordinators, portOf)
  }

  /** `getAgentPorts()` as written: it maps the coordinators. */
  function GetAgentPortsAsWritten(v: Cluster, portOf: Node -> int): (r: seq<int>)
    ensures r == GetCoordinatorPorts(v, portOf)
  {
    Ports(v.coordinators, portOf)
  }

  /** `getDatabasePorts()` as written: it maps the coordinators too. */
  function GetDatabasePortsAsWritten(v: Cluster, portOf: Node -> int): (r: seq<int>)
    ensures r == GetCoordinatorPorts(v, portOf)
  {
    Ports(v.coordinators, portOf)
  }

  /** `getAgentPorts()` as evidently intended: the agents' ports. */
  function GetAgentPorts(v: Cluster, portOf: Node -> int): (r: seq<int>)
    ensures |r| == |v.agents|
    ensures forall i :: 0 <= i < |r| ==> r[i] == portOf(v.agents[i])
  {
    Ports(v.agents, portOf)
  }

  /** `getDatabasePorts()` as evidently intended: the data servers' ports. */
  function GetDatabasePorts(v: Cluster, portOf: Node -> int): (r: seq<int>)
    ensures |r| == |v.databases|
    ensures forall i :: 0 <= i < |r| ==> r[i] == portOf(v.databases[i])
  {
    Ports(v.databases, portOf)
  }

  /** The corrected port getters report one port per node of their own type, in view order. */
  lemma PortsFollowTheirType(v: Cluster, portOf: Node -> int)
    ensures |GetAgentPorts(v, portOf)| == |v.agents|
    ensures forall i :: 0 <= i < |v.agents| ==> GetAgent(v, i).Success? && GetAgentPorts(v, portOf)[i] == portOf(GetAgent(v, i).value)
    ensures |GetDatabasePorts(v, portOf)| == |v.databases|
    ensures forall i :: 0 <= i < |v.databases| ==> GetDatabase(v, i).Success? && GetDatabasePorts(v, portOf)[i] == portOf(GetDatabase(v, i).value)
    ensures |GetCoordinatorPorts(v, portOf)| == |v.coordinators|
  {
  }

  /** A one-agent list used to exhibit the as-written getters. */
  function LoneAgent(): Node
  {
    Node(AgentLeader, "agent0", "tcp://agent0:8529", Mapped(8529), ["arangod"], {}, {})
  }

  /**
   * With one agent and no coordinators, the as-written getters report no
   * agent port and no data-server port, while the corrected agent getter
   * reports the agent's port.
   */
  lemma PortsAsWrittenReportCoordinators(portOf: Node -> int)
    ensures var v := View([LoneAgent()]);
      GetAgentPortsAsWritten(v, portOf) == [] && GetAgentPorts(v, portOf) == [portOf(LoneAgent())]
      && GetDatabasePortsAsWritten(v, portOf) == [] && GetAgentPortsAsWritten(v, portOf) != GetAgentPorts(v, portOf)
  {
    var v := View([LoneAgent()]);
    assert [LoneAgent()][1..] == [];
    assert v.coordinators == [] && v.agents == [LoneAgent()];
  }
}
