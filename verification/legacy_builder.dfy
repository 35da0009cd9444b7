/**
 * `containers/ArangoClusterImpBuilder`: the older cluster builder. Agency 0
 * leads, the other agencies follow it, every server knows every agency,
 * and the list comes back in construction order without a sort.
 */
module LegacyBuilder {
  import opened Wrappers
  import opened JavaInt
  import opened Text
  import opened Lists
  import opened Nodes
  import LN = LegacyNodes
  import CN = ClusterNodes
  import LegacyDefault
  import ClusterView
  import AuthEnv

  /** The builder's fields; each `with...` setter replaces one of them. */
  datatype Config = Config(
    agencyNodes: Int32,
    databaseNodes: Int32,
    coordinatorNodes: Int32,
    agencyPortFrom: Int32,
    databasePortFrom: Int32,
    coordinatorPortFrom: Int32,
    version: string)

  /** A fresh builder: the default counts and base ports, and the given image version. */
  function Builder(version: string): (c: Config)
    ensures c.agencyNodes == LegacyDefault.AgencyNodesDefault
    ensures c.databaseNodes == LegacyDefault.DatabaseNodesDefault
    ensures c.coordinatorNodes == LegacyDefault.CoordinatorNodesDefault
    ensures c.agencyPortFrom == LegacyDefault.AgencyPortDefault
    ensures c.databasePortFrom == LegacyDefault.DatabasePortDefault
    ensures c.coordinatorPortFrom == LegacyDefault.CoordinatorPortDefault
    ensures c.version == version
  {
    Config(LegacyDefault.AgencyNodesDefault, LegacyDefault.DatabaseNodesDefault,
           LegacyDefault.CoordinatorNodesDefault, LegacyDefault.AgencyPortDefault,
           LegacyDefault.DatabasePortDefault, LegacyDefault.CoordinatorPortDefault, version)
  }

  /** Why `build` throws: the two guards, a negative list capacity, or no leader among the agencies. */
  datatype BuildError = AgencyNodesNotOdd | BlankVersion | IllegalCapacity(capacity: int) | LeaderNotFound

  function AgencyAlias(i: int): string
  {
    LN.AliasOf(LN.Agency, i)
  }

  function DatabaseAlias(i: int): string
  {
    LN.AliasOf(LN.Database, i)
  }

  function CoordinatorAlias(i: int): string
  {
    LN.AliasOf(LN.Coordinator, i)
  }

  /** The leader's address, `agency0` at the first agency port. */
  function LeaderAddress(c: Config): string
  {
    LN.NodeAddress(AgencyAlias(0), Add32(c.agencyPortFrom, 0))
  }

  /**
   * Agency `i` as the loop creates it: agency 0 is made the leader and lists
   * its own address as agency endpoint; every other agency lists the
   * leader's address.
   */
  function AgencyNode(c: Config, i: nat): (r: Node)
    ensures r.role == (if i == 0 then AgentLeader else Agent)
    ensures r.alias == AgencyAlias(i)
    ensures r.endpoint == LN.NodeAddress(r.alias, Add32(c.agencyPortFrom, i))
    ensures r.port == Mapped(Add32(c.agencyPortFrom, i)) && r.dependsOn == {}
  {
    var alias, port := AgencyAlias(i), Add32(c.agencyPortFrom, i);
    var node := LN.AgencyNode(alias, port, []).(role := if i == 0 then AgentLeader else Agent);
    LN.AddAgencies(node, false, [if i == 0 then node.endpoint else LeaderAddress(c)])
  }

  /** Every agency's command is the agency command followed by one agency endpoint, the leader's. */
  lemma AgencyNodeCommand(c: Config, i: nat)
    ensures AgencyNode(c, i).command == LN.AgencyArgs(AgencyAlias(i), Add32(c.agencyPortFrom, i)) + Pairs(CN.AgencyEndpointFlag, [LeaderAddress(c)])
  {
    var alias, port := AgencyAlias(i), Add32(c.agencyPortFrom, i);
    var args := LN.AgencyArgs(alias, port);
    assert Pairs(CN.AgencyEndpointFlag, []) == [];
    assert args + [] == args;
  }

  /** The agencies before the leader lookup. */
  function NewAgencies(c: Config): (r: seq<Node>)
    requires c.agencyNodes >= 0
    ensures |r| == c.agencyNodes
    ensures forall i :: 0 <= i < |r| ==> r[i] == AgencyNode(c, i)
  {
    seq(c.agencyNodes, i requires 0 <= i < c.agencyNodes => AgencyNode(c, i))
  }

  /** `dependsOn(leadAgency)` for every agency that is not the leader. */
  function FollowLeader(agencies: seq<Node>, leader: Node): (r: seq<Node>)
    ensures |r| == |agencies|
    ensures forall i :: 0 <= i < |r| ==>
      r[i] == (if IsLeader(agencies[i]) then agencies[i] else WithDependencies(agencies[i], {leader.alias}))
  {
    seq(|agencies|, i requires 0 <= i < |agencies| =>
      if IsLeader(agencies[i]) then agencies[i] else WithDependencies(agencies[i], {leader.alias}))
  }

  /** Data server `i`: every agency endpoint, and a dependency on every agency. */
  function DatabaseNode(c: Config, i: nat, agencies: seq<Node>): (r: Node)
    ensures r.role == DbServer && r.alias == DatabaseAlias(i)
    ensures r.endpoint == LN.NodeAddress(r.alias, Add32(c.databasePortFrom, i))
    ensures r.port == Mapped(Add32(c.databasePortFrom, i)) && r.dependsOn == AliasSet(agencies)
  {
    WithDependencies(LN.DatabaseNode(DatabaseAlias(i), Add32(c.databasePortFrom, i), Endpoints(agencies)), AliasSet(agencies))
  }

  function Databases(c: Config, agencies: seq<Node>): (r: seq<Node>)
    requires c.databaseNodes >= 0
    ensures |r| == c.databaseNodes
    ensures forall i :: 0 <= i < |r| ==> r[i] == DatabaseNode(c, i, agencies)
  {
    seq(c.databaseNodes, i requires 0 <= i < c.databaseNodes => DatabaseNode(c, i, agencies))
  }

  /** Coordinator `i`: every agency endpoint, and a dependency on every data server. */
  function CoordinatorNode(c: Config, i: nat, agencies: seq<Node>, databases: seq<Node>): (r: Node)
    ensures r.role == Coordinator && r.alias == CoordinatorAlias(i)
    ensures r.endpoint == LN.NodeAddress(r.alias, Add32(c.coordinatorPortFrom, i))
    ensures r.port == Mapped(Add32(c.coordinatorPortFrom, i)) && r.dependsOn == AliasSet(databases)
  {
    WithDependencies(LN.CoordinatorNode(CoordinatorAlias(i), Add32(c.coordinatorPortFrom, i), Endpoints(agencies)), AliasSet(databases))
  }

  function Coordinators(c: Config, agencies: seq<Node>, databases: seq<Node>): (r: seq<Node>)
    requires c.coordinatorNodes >= 0
    ensures |r| == c.coordinatorNodes
    ensures forall i :: 0 <= i < |r| ==> r[i] == CoordinatorNode(c, i, agencies, databases)
  {
    seq(c.coordinatorNodes, i requires 0 <= i < c.coordinatorNodes => CoordinatorNode(c, i, agencies, databases))
  }

  /**
   * `build(network)`: the agency count must be odd under Java's `%` (so
   * positive), the version must not be blank, and a negative server or
   * coordinator count makes the list allocation throw. The agency list never
   * lacks a leader, so the not-found error cannot occur.
   */
  function Build(c: Config): (r: Result<seq<Node>, BuildError>)
    ensures r.Failure? <==>
      !(c.agencyNodes > 0 && c.agencyNodes % 2 == 1) || IsBlank(c.version)
      || c.databaseNodes < 0 || c.coordinatorNodes < 0
    ensures !(c.agencyNodes > 0 && c.agencyNodes % 2 == 1) ==> r == Failure(AgencyNodesNotOdd)
    ensures c.agencyNodes > 0 && c.agencyNodes % 2 == 1 && IsBlank(c.version) ==> r == Failure(BlankVersion)
    ensures r != Failure(LeaderNotFound)
    ensures r.Success? ==> |r.value| == c.agencyNodes + c.databaseNodes + c.coordinatorNodes
  {
    OddGuard(c.agencyNodes);
    if Rem(c.agencyNodes, 2) != 1 then Failure(AgencyNodesNotOdd)
    else if IsBlank(c.version) then Failure(BlankVersion)
    else if c.databaseNodes < 0 then Failure(IllegalCapacity(c.databaseNodes))
    else if c.coordinatorNodes < 0 then Failure(IllegalCapacity(c.coordinatorNodes))
    else
      var created := NewAgencies(c);
      assert created[0].role == AgentLeader;
      match ClusterView.FirstLeader(created)
      case None => Failure(LeaderNotFound)
      case Some(l) =>
        var agencies := FollowLeader(created, created[l]);
        var databases := Databases(c, agencies);
        Success(agencies + databases + Coordinators(c, agencies, databases))
  }

  ghost predicate Buildable(c: Config)
  {
    c.agencyNodes > 0 && c.databaseNodes >= 0 && c.coordinatorNodes >= 0
  }

  /** Agency `i` after the leader lookup: the leader unchanged, every follower depending on it. */
  function FollowedAgency(c: Config, i: nat): (r: Node)
    ensures r.role == (if i == 0 then AgentLeader else Agent)
    ensures r.alias == AgencyAlias(i)
    ensures r.endpoint == LN.NodeAddress(r.alias, Add32(c.agencyPortFrom, i))
    ensures r.port == Mapped(Add32(c.agencyPortFrom, i))
    ensures r.dependsOn == (if i == 0 then {} else {AgencyAlias(0)})
    ensures r.command == AgencyNode(c, i).command
  {
    if i == 0 then AgencyNode(c, 0) else WithDependencies(AgencyNode(c, i), {AgencyAlias(0)})
  }

  /** The agencies after the leader lookup. */
  function Agencies(c: Config): (r: seq<Node>)
    requires c.agencyNodes > 0
    ensures |r| == c.agencyNodes
  {
    seq(c.agencyNodes, i requires 0 <= i < c.agencyNodes => FollowedAgency(c, i))
  }

  /** After the lookup, created agency `i` has become `FollowedAgency(c, i)`. */
  lemma FollowLeaderAt(c: Config, i: int)
    requires c.agencyNodes > 0 && 0 <= i < c.agencyNodes as int
    ensures FollowLeader(NewAgencies(c), NewAgencies(c)[0])[i] == FollowedAgency(c, i)
  {
    var created := NewAgencies(c);
    var node := AgencyNode(c, i);
    assert created[i] == node && created[0].alias == AgencyAlias(0);
    assert IsLeader(node) <==> i == 0;
  }

  /** The lookup finds agency 0, and the `dependsOn` loop then makes every other agency follow it. */
  lemma FollowLeaderAgencies(c: Config)
    requires c.agencyNodes > 0
    ensures ClusterView.FirstLeader(NewAgencies(c)) == Some(0)
    ensures FollowLeader(NewAgencies(c), NewAgencies(c)[0]) == Agencies(c)
  {
    var created := NewAgencies(c);
    assert created[0].role == AgentLeader;
    var r := FollowLeader(created, created[0]);
    forall i | 0 <= i < |r|
      ensures r[i] == Agencies(c)[i]
    {
      FollowLeaderAt(c, i);
    }
  }

  /** The type of the node at position `i`: the leader, the other agencies, the data servers, the coordinators. */
  function RoleAt(c: Config, i: int): Role
  {
    var a, d := c.agencyNodes as int, c.databaseNodes as int;
    if i < a then (if i == 0 then AgentLeader else Agent) else if i < a + d then DbServer else Coordinator
  }

  /** The alias of node `i`: its type's stem and its number within the type. */
  function AliasAt(c: Config, i: int): string
  {
    var a, d := c.agencyNodes as int, c.databaseNodes as int;
    if i < a then AgencyAlias(i)
    else if i < a + d then DatabaseAlias(i - a)
    else CoordinatorAlias(i - a - d)
  }

  /** The container port of node `i`: its type's base port plus its number, wrapped to 32 bits. */
  function PortAt(c: Config, i: int): Int32
  {
    var a, d := c.agencyNodes as int, c.databaseNodes as int;
    if i < a then Add32(c.agencyPortFrom, i)
    else if i < a + d then Add32(c.databasePortFrom, i - a)
    else Add32(c.coordinatorPortFrom, i - a - d)
  }

  /** The addresses of all agencies, in agency order. */
  function AgencyEndpoints(c: Config): (r: seq<string>)
    requires c.agencyNodes >= 0
    ensures |r| == c.agencyNodes
  {
    seq(c.agencyNodes, k requires 0 <= k < c.agencyNodes => LN.NodeAddress(AgencyAlias(k), Add32(c.agencyPortFrom, k)))
  }

  function AgencyAliases(c: Config): set<string>
  {
    set k | 0 <= k < c.agencyNodes :: AgencyAlias(k)
  }

  function DatabaseAliases(c: Config): set<string>
  {
    set k | 0 <= k < c.databaseNodes :: DatabaseAlias(k)
  }

  /** What the node at position `i` depends on: nothing for the leader, the leader, every agency or every data server. */
  function DependenciesAt(c: Config, i: int): set<string>
  {
    var a, d := c.agencyNodes as int, c.databaseNodes as int;
    if i == 0 then {} else if i < a then {AgencyAlias(0)}
    else if i < a + d then AgencyAliases(c) else DatabaseAliases(c)
  }

  /**
   * The command of node `i`: an agency's template and the leader's address
   * under the agency flag, or a server's template with its role value and
   * every agency address under the cluster flag.
   */
  function CommandAt(c: Config, i: int): seq<string>
    requires c.agencyNodes >= 0
  {
    var a, d := c.agencyNodes as int, c.databaseNodes as int;
    if i < a then
      LN.AgencyArgs(AliasAt(c, i), PortAt(c, i)) + Pairs(CN.AgencyEndpointFlag, [LeaderAddress(c)])
    else
      var role := if i < a + d then "PRIMARY" else "COORDINATOR";
      LN.ServerArgs(AliasAt(c, i), PortAt(c, i), role) + Pairs(CN.ClusterAgencyEndpointFlag, AgencyEndpoints(c))
  }

  /** Node `i` described from its position alone, without the factories. */
  function NodeAt(c: Config, i: int): Node
    requires c.agencyNodes >= 0
  {
    Node(RoleAt(c, i), AliasAt(c, i), LN.NodeAddress(AliasAt(c, i), PortAt(c, i)), Mapped(PortAt(c, i)),
         CommandAt(c, i), DependenciesAt(c, i), {AuthEnv.NoAuth})
  }

  /** The positional description of a whole cluster. */
  function Assemble(c: Config): (r: seq<Node>)
    requires Buildable(c)
    ensures |r| == c.agencyNodes as int + c.databaseNodes as int + c.coordinatorNodes as int
  {
    var n := c.agencyNodes as int + c.databaseNodes as int + c.coordinatorNodes as int;
    seq(n, i requires 0 <= i < n => NodeAt(c, i))
  }

  /** Agency `k` as the builder makes it is positional node `k`. */
  lemma AgencyAt(c: Config, k: int)
    requires Buildable(c) && 0 <= k < c.agencyNodes as int
    ensures Assemble(c)[0 + k] == Agencies(c)[k]
  {
    assert Assemble(c)[k] == NodeAt(c, k);
    AgencyNodeCommand(c, k);
    var n := FollowedAgency(c, k);
    assert Agencies(c)[k] == n;
    assert n.authModes == {AuthEnv.NoAuth};
  }

  /** The builder's agencies advertise exactly the positional agency addresses. */
  lemma AgenciesEndpoints(c: Config)
    requires c.agencyNodes > 0
    ensures Endpoints(Agencies(c)) == AgencyEndpoints(c)
  {
    forall k | 0 <= k < c.agencyNodes as int
      ensures Endpoints(Agencies(c))[k] == AgencyEndpoints(c)[k]
    {
      assert Agencies(c)[k] == FollowedAgency(c, k);
    }
  }

  lemma AgenciesAliasSet(c: Config)
    requires c.agencyNodes > 0
    ensures AliasSet(Agencies(c)) == AgencyAliases(c)
  {
    var agencies := Agencies(c);
    forall x | x in AliasSet(agencies)
      ensures x in AgencyAliases(c)
    {
      var k :| 0 <= k < |agencies| && agencies[k].alias == x;
      assert agencies[k] == FollowedAgency(c, k);
    }
    forall x | x in AgencyAliases(c)
      ensures x in AliasSet(agencies)
    {
      var k :| 0 <= k < c.agencyNodes && x == AgencyAlias(k);
      assert agencies[k] == FollowedAgency(c, k);
    }
  }

  lemma DatabasesAliasSet(c: Config, agencies: seq<Node>)
    requires c.databaseNodes >= 0
    ensures AliasSet(Databases(c, agencies)) == DatabaseAliases(c)
  {
    var databases := Databases(c, agencies);
    forall x | x in AliasSet(databases)
      ensures x in DatabaseAliases(c)
    {
      var k :| 0 <= k < |databases| && databases[k].alias == x;
      assert databases[k].alias == DatabaseAlias(k);
    }
    forall x | x in DatabaseAliases(c)
      ensures x in AliasSet(databases)
    {
      var k :| 0 <= k < c.databaseNodes && x == DatabaseAlias(k);
      assert databases[k].alias == DatabaseAlias(k);
    }
  }

  /** Data server `k` as the builder makes it is the positional node `k` places after the agencies. */
  lemma DatabaseNodeAt(c: Config, k: int)
    requires Buildable(c) && 0 <= k < c.databaseNodes as int
    ensures DatabaseNode(c, k, Agencies(c)) == NodeAt(c, c.agencyNodes as int + k)
  {
    AgenciesEndpoints(c);
    AgenciesAliasSet(c);
    var n := DatabaseNode(c, k, Agencies(c));
    assert n.command == LN.ServerArgs(DatabaseAlias(k), Add32(c.databasePortFrom, k), "PRIMARY")
      + Pairs(CN.ClusterAgencyEndpointFlag, AgencyEndpoints(c));
  }

  lemma DatabaseAt(c: Config, k: int)
    requires Buildable(c) && 0 <= k < c.databaseNodes as int
    ensures Assemble(c)[c.agencyNodes as int + k] == Databases(c, Agencies(c))[k]
  {
    assert Assemble(c)[c.agencyNodes as int + k] == NodeAt(c, c.agencyNodes as int + k);
    assert Databases(c, Agencies(c))[k] == DatabaseNode(c, k, Agencies(c));
    DatabaseNodeAt(c, k);
  }

  /** Coordinator `k` as the builder makes it is the positional node `k` places after the data servers. */
  lemma CoordinatorNodeAt(c: Config, k: int)
    requires Buildable(c) && 0 <= k < c.coordinatorNodes as int
    ensures CoordinatorNode(c, k, Agencies(c), Databases(c, Agencies(c)))
      == NodeAt(c, c.agencyNodes as int + c.databaseNodes as int + k)
  {
    AgenciesEndpoints(c);
    DatabasesAliasSet(c, Agencies(c));
    var n := CoordinatorNode(c, k, Agencies(c), Databases(c, Agencies(c)));
    assert n.command == LN.ServerArgs(CoordinatorAlias(k), Add32(c.coordinatorPortFrom, k), "COORDINATOR")
      + Pairs(CN.ClusterAgencyEndpointFlag, AgencyEndpoints(c));
  }

  lemma CoordinatorAt(c: Config, k: int)
    requires Buildable(c) && 0 <= k < c.coordinatorNodes as int
    ensures Assemble(c)[c.agencyNodes as int + c.databaseNodes as int + k]
      == Coordinators(c, Agencies(c), Databases(c, Agencies(c)))[k]
  {
    var i := c.agencyNodes as int + c.databaseNodes as int + k;
    assert Assemble(c)[i] == NodeAt(c, i);
    assert Coordinators(c, Agencies(c), Databases(c, Agencies(c)))[k]
      == CoordinatorNode(c, k, Agencies(c), Databases(c, Agencies(c)));
    CoordinatorNodeAt(c, k);
  }

  lemma AssembleAgencies(c: Config)
    requires Buildable(c)
    ensures Assemble(c)[0..c.agencyNodes as int] == Agencies(c)
  {
    var ns, a := Assemble(c), c.agencyNodes as int;
    forall k | 0 <= k < a
      ensures ns[0 + k] == Agencies(c)[k]
    {
      AgencyAt(c, k);
    }
    SliceFromIndices(ns, 0, a, Agencies(c));
  }

  lemma AssembleDatabases(c: Config)
    requires Buildable(c)
    ensures var a := c.agencyNodes as int;
      Assemble(c)[a..a + c.databaseNodes as int] == Databases(c, Agencies(c))
  {
    var ns, a, d := Assemble(c), c.agencyNodes as int, c.databaseNodes as int;
    forall k | 0 <= k < d
      ensures ns[a + k] == Databases(c, Agencies(c))[k]
    {
      DatabaseAt(c, k);
    }
    SliceFromIndices(ns, a, d, Databases(c, Agencies(c)));
  }

  lemma AssembleCoordinators(c: Config)
    requires Buildable(c)
    ensures var a, d := c.agencyNodes as int, c.databaseNodes as int;
      Assemble(c)[a + d..a + d + c.coordinatorNodes as int] == Coordinators(c, Agencies(c), Databases(c, Agencies(c)))
  {
    var ns, a, d := Assemble(c), c.agencyNodes as int, c.databaseNodes as int;
    forall k | 0 <= k < c.coordinatorNodes as int
      ensures ns[a + d + k] == Coordinators(c, Agencies(c), Databases(c, Agencies(c)))[k]
    {
      CoordinatorAt(c, k);
    }
    SliceFromIndices(ns, a + d, c.coordinatorNodes as int, Coordinators(c, Agencies(c), Databases(c, Agencies(c))));
  }

  /** A successful build lists the followed agencies, then the data servers, then the coordinators. */
  lemma BuildConcatenates(c: Config)
    requires Build(c).Success?
    ensures Buildable(c)
    ensures var agencies := Agencies(c);
      Build(c).value == agencies + Databases(c, agencies) + Coordinators(c, agencies, Databases(c, agencies))
  {
    FollowLeaderAgencies(c);
  }

  lemma AssembleConcatenates(c: Config)
    requires Buildable(c)
    ensures var agencies := Agencies(c);
      Assemble(c) == agencies + Databases(c, agencies) + Coordinators(c, agencies, Databases(c, agencies))
  {
    AssembleAgencies(c);
    AssembleDatabases(c);
    AssembleCoordinators(c);
    var agencies := Agencies(c);
    var databases := Databases(c, agencies);
    SlicesConcat(Assemble(c), agencies, databases, Coordinators(c, agencies, databases));
  }

  /** A successful build is the positional description, node for node. */
  lemma BuildIsAssembled(c: Config)
    requires Build(c).Success?
    ensures Buildable(c) && Build(c).value == Assemble(c)
  {
    BuildConcatenates(c);
    AssembleConcatenates(c);
  }

  /**
   * Node types by position: the leader first and nowhere else, then the other
   * agencies, the data servers and the coordinators.
   */
  lemma BuildRoles(c: Config)
    requires Build(c).Success?
    ensures var ns, a, d := Build(c).value, c.agencyNodes as int, c.databaseNodes as int;
      forall i :: 0 <= i < |ns| ==>
        ns[i].role == (if i < a then (if i == 0 then AgentLeader else Agent) else if i < a + d then DbServer else Coordinator)
  {
    BuildIsAssembled(c);
    var ns := Build(c).value;
    forall i | 0 <= i < |ns|
      ensures ns[i].role == RoleAt(c, i)
    {
      assert ns[i] == NodeAt(c, i);
    }
  }

  /** Any list whose types follow the positions is sorted by type. */
  lemma RolesAtSorted(c: Config, ns: seq<Node>)
    requires forall i :: 0 <= i < |ns| ==> ns[i].role == RoleAt(c, i)
    ensures SortedBy(ns, RoleKey)
  {
    forall i, j | 0 <= i < j < |ns|
      ensures RoleKey(ns[i]) <= RoleKey(ns[j])
    {
    }
  }

  /** Construction order is already type order, although this builder does not sort. */
  lemma BuildSortedByType(c: Config)
    requires Build(c).Success?
    ensures SortedBy(Build(c).value, RoleKey)
  {
    BuildRoles(c);
    RolesAtSorted(c, Build(c).value);
  }

  /**
   * Node `i` of each type is named by its type's stem and number, exposes its
   * type's base port plus its number, and advertises that same port in its
   * address.
   */
  lemma BuildAddresses(c: Config)
    requires Build(c).Success?
    ensures var ns := Build(c).value;
      forall i :: 0 <= i < |ns| ==>
        ns[i].alias == AliasAt(c, i) && ns[i].port == Mapped(PortAt(c, i))
        && ns[i].endpoint == LN.NodeAddress(ns[i].alias, PortAt(c, i))
  {
    BuildIsAssembled(c);
    var ns := Build(c).value;
    forall i | 0 <= i < |ns|
      ensures ns[i].alias == AliasAt(c, i) && ns[i].port == Mapped(PortAt(c, i))
      ensures ns[i].endpoint == LN.NodeAddress(ns[i].alias, PortAt(c, i))
    {
      assert ns[i] == NodeAt(c, i);
    }
  }

  lemma AliasAtInjective(c: Config, i: int, j: int)
    requires 0 <= i < j
    ensures AliasAt(c, i) != AliasAt(c, j)
  {
    var a, d := c.agencyNodes as int, c.databaseNodes as int;
    var ki := if i < a then LN.Agency else if i < a + d then LN.Database else LN.Coordinator;
    var kj := if j < a then LN.Agency else if j < a + d then LN.Database else LN.Coordinator;
    var ni := if i < a then i else if i < a + d then i - a else i - a - d;
    var nj := if j < a then j else if j < a + d then j - a else j - a - d;
    assert AliasAt(c, i) == LN.AliasOf(ki, ni) && AliasAt(c, j) == LN.AliasOf(kj, nj);
    LN.AliasOfInjective(ki, ni, kj, nj);
  }

  /** No two nodes of a built cluster share an alias. */
  lemma BuildUniqueAliases(c: Config)
    requires Build(c).Success?
    ensures UniqueAliases(Build(c).value)
  {
    BuildAddresses(c);
    var ns := Build(c).value;
    forall i, j | 0 <= i < j < |ns|
      ensures ns[i].alias != ns[j].alias
    {
      AliasAtInjective(c, i, j);
    }
  }

  lemma AliasAtPlain(c: Config, i: int)
    ensures CN.PlainToken(AliasAt(c, i))
  {
    var a, d := c.agencyNodes as int, c.databaseNodes as int;
    if i < a {
      LN.AliasOfPlain(LN.Agency, i);
    } else if i < a + d {
      LN.AliasOfPlain(LN.Database, i - a);
    } else {
      LN.AliasOfPlain(LN.Coordinator, i - a - d);
    }
  }

  /** Read back from its command, positional agency `i` lists the leader's address and nothing else. */
  lemma AgencyCommandEndpoints(c: Config, i: int)
    requires 0 <= i < c.agencyNodes as int
    ensures FlagValues(CommandAt(c, i), CN.AgencyEndpointFlag) == [LeaderAddress(c)]
  {
    var args := LN.AgencyArgs(AliasAt(c, i), PortAt(c, i));
    AliasAtPlain(c, i);
    LN.TemplateTokensPlain();
    LN.TemplatesPlain(AliasAt(c, i), PortAt(c, i), "PRIMARY");
    CN.AllPlainNoFlags(args);
    FlagValuesAppended(args, CN.AgencyEndpointFlag, [LeaderAddress(c)]);
  }

  /** Every agency lists exactly one agency endpoint: the leader's address. */
  lemma BuildAgencyEndpoints(c: Config)
    requires Build(c).Success?
    ensures var ns := Build(c).value;
      forall i :: 0 <= i < c.agencyNodes ==> FlagValues(ns[i].command, CN.AgencyEndpointFlag) == [ns[0].endpoint]
  {
    BuildIsAssembled(c);
    var ns := Build(c).value;
    assert ns[0] == NodeAt(c, 0);
    forall i | 0 <= i < c.agencyNodes
      ensures FlagValues(ns[i].command, CN.AgencyEndpointFlag) == [ns[0].endpoint]
    {
      assert ns[i] == NodeAt(c, i);
      AgencyCommandEndpoints(c, i);
    }
  }

  /** Read back from its command, positional server `i` lists every agency address, in agency order. */
  lemma ServerCommandEndpoints(c: Config, i: int)
    requires c.agencyNodes >= 0 && c.agencyNodes as int <= i
    ensures FlagValues(CommandAt(c, i), CN.ClusterAgencyEndpointFlag) == AgencyEndpoints(c)
  {
    var role := if i < c.agencyNodes as int + c.databaseNodes as int then "PRIMARY" else "COORDINATOR";
    LN.TemplateTokensPlain();
    AliasAtPlain(c, i);
    LN.TemplatesPlain(AliasAt(c, i), PortAt(c, i), role);
    var args := LN.ServerArgs(AliasAt(c, i), PortAt(c, i), role);
    CN.AllPlainNoFlags(args);
    FlagValuesAppended(args, CN.ClusterAgencyEndpointFlag, AgencyEndpoints(c));
  }

  /** Every data server and every coordinator lists all agency addresses, in agency order. */
  lemma BuildServerEndpoints(c: Config)
    requires Build(c).Success?
    ensures var ns, a := Build(c).value, c.agencyNodes as int;
      a <= |ns| && forall i :: a <= i < |ns| ==> FlagValues(ns[i].command, CN.ClusterAgencyEndpointFlag) == Endpoints(ns[..a])
  {
    BuildIsAssembled(c);
    AssembleAgencies(c);
    AgenciesEndpoints(c);
    var ns, a := Build(c).value, c.agencyNodes as int;
    forall i | a <= i < |ns|
      ensures FlagValues(ns[i].command, CN.ClusterAgencyEndpointFlag) == Endpoints(ns[..a])
    {
      assert ns[i] == NodeAt(c, i);
      ServerCommandEndpoints(c, i);
    }
  }

  /** The dependencies of a built cluster are layered by node type. */
  lemma BuildDependencies(c: Config)
    requires Build(c).Success?
    ensures Layered(Build(c).value, c.agencyNodes as int, c.databaseNodes as int)
  {
    BuildIsAssembled(c);
    AssembleAgencies(c);
    AssembleDatabases(c);
    AgenciesAliasSet(c);
    DatabasesAliasSet(c, Agencies(c));
    var ns, a, d := Build(c).value, c.agencyNodes as int, c.databaseNodes as int;
    assert ns[0] == NodeAt(c, 0);
    forall i | 0 <= i < |ns|
      ensures ns[i].dependsOn ==
        (if i == 0 then {} else if i < a then {ns[0].alias}
         else if i < a + d then AliasSet(ns[..a]) else AliasSet(ns[a..a + d]))
    {
      assert ns[i] == NodeAt(c, i);
    }
  }

  /** Every prerequisite is built before its dependent, so the list is a valid start order. */
  lemma BuildDependenciesPrecede(c: Config)
    requires Build(c).Success?
    ensures DependenciesPrecede(Build(c).value)
  {
    BuildDependencies(c);
    LayeredPrecede(Build(c).value, c.agencyNodes as int, c.databaseNodes as int);
  }
}
