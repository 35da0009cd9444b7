/**
 * `cluster/ArangoClusterBuilder`: from node counts, base ports and an image
 * version to the list of node descriptors of one cluster. Agency 0 leads;
 * the other agencies follow it, every server knows every agency, and the
 * coordinators start after the servers.
 */
module ClusterBuilder {
  import opened Wrappers
  import opened JavaInt
  import opened Text
  import opened Lists
  import opened Nodes
  import CN = ClusterNodes
  import ClusterDefault

  /** The builder's fields; each `with...` setter replaces one of them. */
  datatype Config = Config(
    agencyNodes: Int32,
    databaseNodes: Int32,
    coordinatorNodes: Int32,
    agencyPortFrom: Int32,
    dbserverPortFrom: Int32,
    coordinatorPortFrom: Int32,
    version: string,
    exposeAgencyNodes: bool,
    exposeDBServerNodes: bool)

  /** A fresh builder for an image version: default counts and base ports, nothing exposed. */
  function Builder(version: string): (c: Config)
    ensures c.agencyNodes == ClusterDefault.AgencyNodesDefault
    ensures c.databaseNodes == ClusterDefault.DbServerNodesDefault
    ensures c.coordinatorNodes == ClusterDefault.CoordinatorNodesDefault
    ensures c.agencyPortFrom == ClusterDefault.AgencyPortDefault
    ensures c.dbserverPortFrom == ClusterDefault.DbServerPortDefault
    ensures c.coordinatorPortFrom == ClusterDefault.CoordinatorPortDefault
    ensures c.version == version && !c.exposeAgencyNodes && !c.exposeDBServerNodes
  {
    Config(ClusterDefault.AgencyNodesDefault, ClusterDefault.DbServerNodesDefault,
           ClusterDefault.CoordinatorNodesDefault, ClusterDefault.AgencyPortDefault,
           ClusterDefault.DbServerPortDefault, ClusterDefault.CoordinatorPortDefault,
           version, false, false)
  }

  /** Why `build` throws: the odd-count and version guards, or a negative list capacity. */
  datatype BuildError = AgencyNodesNotOdd | BlankVersion | IllegalCapacity(capacity: int)

  /** Every agency is an `AGENT` alias numbered from 0, the leader included. */
  function AgencyAlias(i: int): string
  {
    CN.AliasOf(Agent, i)
  }

  function LeaderEndpoint(): string
  {
    CN.Endpoint(AgencyAlias(0))
  }

  /**
   * Agency `i`: agency 0 is the leader; every other agency depends on the
   * leader. Agency 0 keeps the `AGENT` alias numbering, so it is `agent0`.
   */
  function AgencyNode(c: Config, i: nat): (r: Node)
    ensures r.role == (if i == 0 then AgentLeader else Agent)
    ensures r.alias == AgencyAlias(i) && r.endpoint == CN.Endpoint(r.alias)
    ensures r.port == (if c.exposeAgencyNodes then Fixed(Add32(c.agencyPortFrom, i)) else Mapped(CN.DefaultPort))
    ensures r.dependsOn == (if i == 0 then {} else {AgencyAlias(0)})
  {
    var alias := AgencyAlias(i);
    var node := CN.Agent(alias, Add32(c.agencyPortFrom, i), c.agencyNodes, i == 0, c.exposeAgencyNodes);
    var listed := CN.WithAgentEndpoints(node, [if i == 0 then node.endpoint else LeaderEndpoint()]);
    assert listed.(command := node.command) == node;
    if i == 0 then listed else WithDependencies(listed, {AgencyAlias(0)})
  }

  /**
   * Every agency's command is the agent command followed by exactly one
   * agency endpoint, the leader's: the leader lists itself.
   */
  lemma AgencyNodeCommand(c: Config, i: nat)
    ensures AgencyNode(c, i).command == CN.AgentArgs(AgencyAlias(i), c.agencyNodes) + Pairs(CN.AgencyEndpointFlag, [LeaderEndpoint()])
    ensures FlagValues(AgencyNode(c, i).command, CN.AgencyEndpointFlag) == [LeaderEndpoint()]
  {
    var alias := AgencyAlias(i);
    var node := CN.Agent(alias, Add32(c.agencyPortFrom, i), c.agencyNodes, i == 0, c.exposeAgencyNodes);
    assert node.command == CN.AgentArgs(alias, c.agencyNodes);
    assert CN.EndpointFlag(node.role) == CN.AgencyEndpointFlag;
  }

  function Agencies(c: Config): (r: seq<Node>)
    requires c.agencyNodes >= 0
    ensures |r| == c.agencyNodes
    ensures forall i :: 0 <= i < |r| ==> r[i] == AgencyNode(c, i)
  {
    seq(c.agencyNodes, i requires 0 <= i < c.agencyNodes => AgencyNode(c, i))
  }

  /** Data server `i`: depends on every agency. */
  function DatabaseNode(c: Config, i: nat, agencies: seq<Node>): (r: Node)
    ensures r.role == DbServer
    ensures r.alias == CN.AliasOf(DbServer, i) && r.endpoint == CN.Endpoint(r.alias)
    ensures r.port == (if c.exposeDBServerNodes then Fixed(Add32(c.dbserverPortFrom, i)) else Mapped(CN.DefaultPort))
    ensures r.dependsOn == AliasSet(agencies)
  {
    var alias := CN.AliasOf(DbServer, i);
    var node := CN.DbServer(alias, Add32(c.dbserverPortFrom, i), c.exposeDBServerNodes);
    WithDependencies(CN.WithAgentEndpoints(node, Endpoints(agencies)), AliasSet(agencies))
  }

  /** A data server's command is the server command followed by every agency endpoint, in agency order. */
  lemma DatabaseNodeCommand(c: Config, i: nat, agencies: seq<Node>)
    ensures DatabaseNode(c, i, agencies).command
         == CN.ClusterArgs(CN.AliasOf(DbServer, i), "DBSERVER") + Pairs(CN.ClusterAgencyEndpointFlag, Endpoints(agencies))
    ensures FlagValues(DatabaseNode(c, i, agencies).command, CN.ClusterAgencyEndpointFlag) == Endpoints(agencies)
  {
    var alias := CN.AliasOf(DbServer, i);
    var node := CN.DbServer(alias, Add32(c.dbserverPortFrom, i), c.exposeDBServerNodes);
    assert CN.PlainToken("DBSERVER");
    assert CN.ClusterAgencyEndpointFlag !in node.command && CN.EndpointFlag(node.role) == CN.ClusterAgencyEndpointFlag;
  }

  function Databases(c: Config, agencies: seq<Node>): (r: seq<Node>)
    requires c.databaseNodes >= 0
    ensures |r| == c.databaseNodes
    ensures forall i :: 0 <= i < |r| ==> r[i] == DatabaseNode(c, i, agencies)
  {
    seq(c.databaseNodes, i requires 0 <= i < c.databaseNodes => DatabaseNode(c, i, agencies))
  }

  /** Coordinator `i`: always on its fixed port, and depends on every data server (not on the agencies). */
  function CoordinatorNode(c: Config, i: nat, agencies: seq<Node>, databases: seq<Node>): (r: Node)
    ensures r.role == Coordinator
    ensures r.alias == CN.AliasOf(Coordinator, i) && r.endpoint == CN.Endpoint(r.alias)
    ensures r.port == Fixed(Add32(c.coordinatorPortFrom, i))
    ensures r.dependsOn == AliasSet(databases)
  {
    var alias := CN.AliasOf(Coordinator, i);
    var node := CN.Coordinator(alias, Add32(c.coordinatorPortFrom, i));
    WithDependencies(CN.WithAgentEndpoints(node, Endpoints(agencies)), AliasSet(databases))
  }

  /** A coordinator's command is the coordinator command followed by every agency endpoint, in agency order. */
  lemma CoordinatorNodeCommand(c: Config, i: nat, agencies: seq<Node>, databases: seq<Node>)
    ensures CoordinatorNode(c, i, agencies, databases).command
         == CN.ClusterArgs(CN.AliasOf(Coordinator, i), "COORDINATOR") + Pairs(CN.ClusterAgencyEndpointFlag, Endpoints(agencies))
    ensures FlagValues(CoordinatorNode(c, i, agencies, databases).command, CN.ClusterAgencyEndpointFlag) == Endpoints(agencies)
  {
    var alias := CN.AliasOf(Coordinator, i);
    var node := CN.Coordinator(alias, Add32(c.coordinatorPortFrom, i));
    assert CN.PlainToken("COORDINATOR");
    assert CN.ClusterAgencyEndpointFlag !in node.command && CN.EndpointFlag(node.role) == CN.ClusterAgencyEndpointFlag;
  }

  function Coordinators(c: Config, agencies: seq<Node>, databases: seq<Node>): (r: seq<Node>)
    requires c.coordinatorNodes >= 0
    ensures |r| == c.coordinatorNodes
    ensures forall i :: 0 <= i < |r| ==> r[i] == CoordinatorNode(c, i, agencies, databases)
  {
    seq(c.coordinatorNodes, i requires 0 <= i < c.coordinatorNodes => CoordinatorNode(c, i, agencies, databases))
  }

  ghost predicate CountsValid(c: Config)
  {
    c.agencyNodes >= 0 && c.databaseNodes >= 0 && c.coordinatorNodes >= 0
  }

  /** Agencies, then data servers, then coordinators, each in construction order. */
  function Assemble(c: Config): (r: seq<Node>)
    requires CountsValid(c)
    ensures |r| == c.agencyNodes + c.databaseNodes + c.coordinatorNodes
  {
    var agencies := Agencies(c);
    var databases := Databases(c, agencies);
    agencies + databases + Coordinators(c, agencies, databases)
  }

  /**
   * `build(network)`: the agency count must be positive and odd (Java's `%`
   * lets every negative count through to the throw as well), the version must
   * not be blank, and a negative server or coordinator count makes the list
   * allocation throw. The result is sorted by node type.
   */
  function Build(c: Config): (r: Result<seq<Node>, BuildError>)
    ensures r.Failure? <==>
      !(c.agencyNodes > 0 && c.agencyNodes % 2 == 1) || IsBlank(c.version)
      || c.databaseNodes < 0 || c.coordinatorNodes < 0
    ensures !(c.agencyNodes > 0 && c.agencyNodes % 2 == 1) ==> r == Failure(AgencyNodesNotOdd)
    ensures c.agencyNodes > 0 && c.agencyNodes % 2 == 1 && IsBlank(c.version) ==> r == Failure(BlankVersion)
    ensures r.Success? ==> |r.value| == c.agencyNodes + c.databaseNodes + c.coordinatorNodes
    ensures r.Success? ==> SortedBy(r.value, RoleKey)
  {
    OddGuard(c.agencyNodes);
    if Rem(c.agencyNodes, 2) != 1 then Failure(AgencyNodesNotOdd)
    else if IsBlank(c.version) then Failure(BlankVersion)
    else if c.databaseNodes < 0 then Failure(IllegalCapacity(c.databaseNodes))
    else if c.coordinatorNodes < 0 then Failure(IllegalCapacity(c.coordinatorNodes))
    else Success(SortBy(Assemble(c), RoleKey))
  }

  /** The node construction places at position `i`: agencies, then data servers, then coordinators. */
  function NodeAt(c: Config, i: int): Node
    requires CountsValid(c) && 0 <= i
  {
    var a, d := c.agencyNodes as int, c.databaseNodes as int;
    if i < a then AgencyNode(c, i)
    else if i < a + d then DatabaseNode(c, i - a, Agencies(c))
    else CoordinatorNode(c, i - a - d, Agencies(c), Databases(c, Agencies(c)))
  }

  /** The construction order, cut back into its agencies and data servers. */
  lemma AssembleSlices(c: Config)
    requires CountsValid(c)
    ensures var ns, a, d := Assemble(c), c.agencyNodes as int, c.databaseNodes as int;
      ns[..a] == Agencies(c) && ns[a..a + d] == Databases(c, Agencies(c))
  {
    var agencies := Agencies(c);
    var databases := Databases(c, agencies);
    ConcatParts(agencies, databases, Coordinators(c, agencies, databases));
  }

  lemma AssembleIndex(c: Config, i: int)
    requires CountsValid(c) && 0 <= i < |Assemble(c)|
    ensures Assemble(c)[i] == NodeAt(c, i)
  {
    var agencies := Agencies(c);
    var databases := Databases(c, agencies);
    ConcatParts(agencies, databases, Coordinators(c, agencies, databases));
  }

  /** Construction order is already type order: leader, followers, servers, coordinators. */
  lemma AssembleSorted(c: Config)
    requires CountsValid(c)
    ensures SortedBy(Assemble(c), RoleKey)
  {
    AssembleRoles(c);
    var ns := Assemble(c);
    forall i, j | 0 <= i < j < |ns|
      ensures RoleKey(ns[i]) <= RoleKey(ns[j])
    {
    }
  }

  /**
   * The stable sort by type leaves the constructed list as it is: the result
   * reads leader, followers, data servers, coordinators, each in construction
   * order.
   */
  lemma BuildKeepsConstructionOrder(c: Config)
    requires Build(c).Success?
    ensures CountsValid(c) && Build(c).value == Assemble(c)
  {
    AssembleSorted(c);
    SortBySortedIsIdentity(Assemble(c), RoleKey);
  }

  lemma NodeAtRole(c: Config, i: int)
    requires CountsValid(c) && 0 <= i
    ensures var a, d := c.agencyNodes as int, c.databaseNodes as int;
      NodeAt(c, i).role == (if i < a then (if i == 0 then AgentLeader else Agent) else if i < a + d then DbServer else Coordinator)
  {
  }

  /**
   * Node types by position in the construction order: the leader first and
   * nowhere else, then the other agencies, the data servers and the
   * coordinators.
   */
  lemma AssembleRoles(c: Config)
    requires CountsValid(c)
    ensures var ns, a, d := Assemble(c), c.agencyNodes as int, c.databaseNodes as int;
      forall i :: 0 <= i < |ns| ==>
        ns[i].role == (if i < a then (if i == 0 then AgentLeader else Agent) else if i < a + d then DbServer else Coordinator)
  {
    var ns, a, d := Assemble(c), c.agencyNodes as int, c.databaseNodes as int;
    forall i | 0 <= i < |ns|
      ensures ns[i].role == (if i < a then (if i == 0 then AgentLeader else Agent) else if i < a + d then DbServer else Coordinator)
    {
      AssembleIndex(c, i);
      NodeAtRole(c, i);
    }
  }

  /** The built list has the node types of the construction order. */
  lemma BuildRoles(c: Config)
    requires Build(c).Success?
    ensures var ns, a, d := Build(c).value, c.agencyNodes as int, c.databaseNodes as int;
      forall i :: 0 <= i < |ns| ==>
        ns[i].role == (if i < a then (if i == 0 then AgentLeader else Agent) else if i < a + d then DbServer else Coordinator)
  {
    BuildKeepsConstructionOrder(c);
    AssembleRoles(c);
  }

  lemma AssembleAgencyEndpoints(c: Config)
    requires CountsValid(c)
    ensures var ns := Assemble(c);
      forall i :: 0 <= i < c.agencyNodes ==> FlagValues(ns[i].command, CN.AgencyEndpointFlag) == [ns[0].endpoint]
  {
    var ns := Assemble(c);
    forall i | 0 <= i < c.agencyNodes
      ensures FlagValues(ns[i].command, CN.AgencyEndpointFlag) == [ns[0].endpoint]
    {
      AssembleIndex(c, 0);
      AssembleIndex(c, i);
      AgencyNodeCommand(c, i);
    }
  }

  /** Every agency lists exactly one agency endpoint: the leader's. */
  lemma BuildAgencyEndpoints(c: Config)
    requires Build(c).Success?
    ensures var ns := Build(c).value;
      forall i :: 0 <= i < c.agencyNodes ==> FlagValues(ns[i].command, CN.AgencyEndpointFlag) == [ns[0].endpoint]
  {
    BuildKeepsConstructionOrder(c);
    AssembleAgencyEndpoints(c);
  }

  lemma AssembleServerEndpoints(c: Config)
    requires CountsValid(c)
    ensures var ns, a := Assemble(c), c.agencyNodes as int;
      forall i :: a <= i < |ns| ==> FlagValues(ns[i].command, CN.ClusterAgencyEndpointFlag) == Endpoints(ns[..a])
  {
    AssembleSlices(c);
    var ns, a, d := Assemble(c), c.agencyNodes as int, c.databaseNodes as int;
    forall i | a <= i < |ns|
      ensures FlagValues(ns[i].command, CN.ClusterAgencyEndpointFlag) == Endpoints(ns[..a])
    {
      AssembleIndex(c, i);
      if i < a + d {
        DatabaseNodeCommand(c, i - a, Agencies(c));
      } else {
        CoordinatorNodeCommand(c, i - a - d, Agencies(c), Databases(c, Agencies(c)));
      }
    }
  }

  /** Every data server and every coordinator lists all agency endpoints, in agency order. */
  lemma BuildServerEndpoints(c: Config)
    requires Build(c).Success?
    ensures var ns, a := Build(c).value, c.agencyNodes as int;
      a <= |ns| && forall i :: a <= i < |ns| ==> FlagValues(ns[i].command, CN.ClusterAgencyEndpointFlag) == Endpoints(ns[..a])
  {
    BuildKeepsConstructionOrder(c);
    AssembleServerEndpoints(c);
  }

  /** The node at `i` depends on the leader, on every agency or on every data server, by type. */
  lemma NodeAtDependencies(c: Config, i: int)
    requires CountsValid(c) && 0 <= i
    ensures var a, d := c.agencyNodes as int, c.databaseNodes as int;
      NodeAt(c, i).dependsOn ==
        (if i == 0 then {} else if i < a then {AgencyAlias(0)}
         else if i < a + d then AliasSet(Agencies(c)) else AliasSet(Databases(c, Agencies(c))))
  {
  }

  lemma AssembleLayered(c: Config)
    requires CountsValid(c)
    ensures Layered(Assemble(c), c.agencyNodes as int, c.databaseNodes as int)
  {
    AssembleSlices(c);
    var ns, a, d := Assemble(c), c.agencyNodes as int, c.databaseNodes as int;
    forall i | 0 <= i < |ns|
      ensures ns[i].dependsOn ==
        (if i == 0 then {} else if i < a then {ns[0].alias}
         else if i < a + d then AliasSet(ns[..a]) else AliasSet(ns[a..a + d]))
    {
      AssembleIndex(c, i);
      NodeAtDependencies(c, i);
      if 0 < i < a {
        AssembleIndex(c, 0);
      }
    }
  }

  /** The dependencies of a built cluster are layered by node type. */
  lemma BuildDependencies(c: Config)
    requires Build(c).Success?
    ensures Layered(Build(c).value, c.agencyNodes as int, c.databaseNodes as int)
  {
    BuildKeepsConstructionOrder(c);
    AssembleLayered(c);
  }

  /** The alias of node `i` of the built list: its type's stem and its number within the type. */
  function AliasAt(c: Config, i: int): string
  {
    var a, d := c.agencyNodes as int, c.databaseNodes as int;
    if i < a then CN.AliasOf(Agent, i)
    else if i < a + d then CN.AliasOf(DbServer, i - a)
    else CN.AliasOf(Coordinator, i - a - d)
  }

  /**
   * Where node `i` is published: coordinators always on their type's base
   * port plus their number, agencies and data servers only when exposed.
   */
  function PublishedPort(c: Config, i: int): Port
  {
    var a, d := c.agencyNodes as int, c.databaseNodes as int;
    if i < a then (if c.exposeAgencyNodes then Fixed(Add32(c.agencyPortFrom, i)) else Mapped(CN.DefaultPort))
    else if i < a + d then (if c.exposeDBServerNodes then Fixed(Add32(c.dbserverPortFrom, i - a)) else Mapped(CN.DefaultPort))
    else Fixed(Add32(c.coordinatorPortFrom, i - a - d))
  }

  /** The node at `i` carries the alias and the publication of its position. */
  lemma NodeAtAddress(c: Config, i: int)
    requires CountsValid(c) && 0 <= i
    ensures NodeAt(c, i).alias == AliasAt(c, i) && NodeAt(c, i).port == PublishedPort(c, i)
    ensures NodeAt(c, i).endpoint == CN.Endpoint(NodeAt(c, i).alias)
  {
  }

  lemma AssembleAddresses(c: Config)
    requires CountsValid(c)
    ensures var ns := Assemble(c);
      forall i :: 0 <= i < |ns| ==>
        ns[i].alias == AliasAt(c, i) && ns[i].port == PublishedPort(c, i) && ns[i].endpoint == CN.Endpoint(ns[i].alias)
  {
    var ns := Assemble(c);
    forall i | 0 <= i < |ns|
      ensures ns[i].alias == AliasAt(c, i) && ns[i].port == PublishedPort(c, i) && ns[i].endpoint == CN.Endpoint(ns[i].alias)
    {
      AssembleIndex(c, i);
      NodeAtAddress(c, i);
    }
  }

  /**
   * Node `i` of each type is named by its type's stem and its number within
   * the type, is published from its type's base port plus that number
   * (coordinators always, agencies and data servers only when exposed), and
   * advertises the default database port in its endpoint.
   */
  lemma BuildAddresses(c: Config)
    requires Build(c).Success?
    ensures var ns := Build(c).value;
      forall i :: 0 <= i < |ns| ==>
        ns[i].alias == AliasAt(c, i) && ns[i].port == PublishedPort(c, i) && ns[i].endpoint == CN.Endpoint(ns[i].alias)
  {
    BuildKeepsConstructionOrder(c);
    AssembleAddresses(c);
  }

  lemma AliasAtInjective(c: Config, i: int, j: int)
    requires 0 <= i < j
    ensures AliasAt(c, i) != AliasAt(c, j)
  {
    var a, d := c.agencyNodes as int, c.databaseNodes as int;
    var ri := if i < a then Agent else if i < a + d then DbServer else Coordinator;
    var rj := if j < a then Agent else if j < a + d then DbServer else Coordinator;
    var ni := if i < a then i else if i < a + d then i - a else i - a - d;
    var nj := if j < a then j else if j < a + d then j - a else j - a - d;
    assert AliasAt(c, i) == CN.AliasOf(ri, ni) && AliasAt(c, j) == CN.AliasOf(rj, nj);
    CN.AliasOfInjective(ri, ni, rj, nj);
  }

  /** No two nodes of a built cluster share an alias. */
  lemma BuildUniqueAliases(c: Config)
    requires Build(c).Success?
    ensures UniqueAliases(Build(c).value)
  {
    BuildAddresses(c);
    var ns := Build(c).value;
    forall i, j | 0 <= i < j < |ns|
      ensures ns[i].alias != ns[j].alias
    {
      AliasAtInjective(c, i, j);
    }
  }

  /** Every prerequisite is built before its dependent, so the list is a valid start order. */
  lemma BuildDependenciesPrecede(c: Config)
    requires Build(c).Success?
    ensures DependenciesPrecede(Build(c).value)
  {
    BuildDependencies(c);
    LayeredPrecede(Build(c).value, c.agencyNodes as int, c.databaseNodes as int);
  }
}
