/**
 * `containers/ArangoClusterBuilder.getCluster()`: the older revision's fixed
 * cluster of three agencies, two data servers and two coordinators, with
 * every alias, port and command written out in the source.
 *
 * The source builds these as plain `ArangoContainer`s, which carry no node
 * type. The types given here (agent, data server, coordinator) are labels
 * read off each node's alias and command, so the statements about type order
 * and about the absence of a leader are statements about those labels.
 */
module LegacyFixture {
  import opened Text
  import opened Nodes
  import AuthEnv
  import opened Lists
  import CN = ClusterNodes
  import LN = LegacyNodes

  const Agency1 := "agency1"
  const Agency2 := "agency2"
  const Agency3 := "agency3"
  const Db1 := "db1"
  const Db2 := "db2"
  const Coordinator1 := "coordinator1"
  const Coordinator2 := "coordinator2"

  /** The agencies' addresses, in the order the commands list them. */
  function AgencyAddresses(): seq<string>
  {
    [LN.NodeAddress(Agency1, 5001), LN.NodeAddress(Agency2, 5002), LN.NodeAddress(Agency3, 5003)]
  }

  /** The agency arguments before the agency endpoints. */
  function AgencyHead(alias: string, port: int): seq<string>
  {
    ["arangod", "--server.authentication", "false", "--server.endpoint", LN.ServerEndpoint(port),
     "--agency.my-address=" + LN.NodeAddress(alias, port), "--agency.activate", "true", "--agency.size", "3"]
  }

  function AgencyTail(alias: string): seq<string>
  {
    ["--agency.supervision", "true", "--database.directory", alias]
  }

  /**
   * An agency command. Unlike the factories of the same revision it passes
   * `--server.authentication false` as two arguments, advertises itself with
   * `--agency.my-address=` and lists its agency endpoints before
   * `--agency.supervision`.
   */
  function AgencyArgs(alias: string, port: int, endpoints: seq<string>): seq<string>
  {
    AgencyHead(alias, port) + Pairs(CN.AgencyEndpointFlag, endpoints) + AgencyTail(alias)
  }

  /** The server arguments before the agency endpoints, ending with the role. */
  function ServerHead(alias: string, port: int, role: string): seq<string>
  {
    ["arangod", "--server.authentication=false", "--server.endpoint", LN.ServerEndpoint(port),
     "--cluster.my-address", LN.NodeAddress(alias, port), "--cluster.my-local-info", alias, "--cluster.my-role", role]
  }

  /** A data-server or coordinator command: it names its role and lists every agency before its data directory. */
  function ServerArgs(alias: string, port: int, role: string): seq<string>
  {
    ServerHead(alias, port, role) + Pairs(CN.ClusterAgencyEndpointFlag, AgencyAddresses()) + ["--database.directory", alias]
  }

  /**
   * `new ArangoContainer().withoutAuth()...withExposedPorts(port)
   * .withNetworkAliases(alias).dependsOn(...).withCommand(...)`: the address
   * other nodes use is `tcp://alias:port`, as the commands write it.
   */
  function Container(role: Role, alias: string, port: int, args: seq<string>, deps: set<string>): Node
  {
    Node(role, alias, LN.NodeAddress(alias, port), Mapped(port), args, deps, {AuthEnv.NoAuth})
  }

  /** The seven aliases and exposed ports, in the order the nodes are listed. */
  const FixtureAliases := [Agency1, Agency2, Agency3, Db1, Db2, Coordinator1, Coordinator2]
  const FixturePorts := [5001, 5002, 5003, 6001, 6002, 7001, 7002]

  /**
   * The `i`-th container of the list: the three agencies, of which only the
   * third is given agency endpoints and waits for the other two, then the two
   * data servers, which wait for every agency, then the two coordinators,
   * which wait for the data servers.
   */
  function NodeAt(i: nat): Node
    requires i < 7
  {
    var alias, port := FixtureAliases[i], FixturePorts[i];
    if i < 3 then
      Container(Agent, alias, port, AgencyArgs(alias, port, if i == 2 then AgencyAddresses() else []),
                if i == 2 then {Agency1, Agency2} else {})
    else if i < 5 then
      Container(DbServer, alias, port, ServerArgs(alias, port, "PRIMARY"), {Agency1, Agency2, Agency3})
    else
      Container(Coordinator, alias, port, ServerArgs(alias, port, "COORDINATOR"), {Db1, Db2})
  }

  /** `getCluster()`: `Arrays.asList(agency1, agency2, agency3, db1, db2, coordinator1, coordinator2)`. */
  function GetCluster(): (r: seq<Node>)
    ensures |r| == 7
  {
    seq(7, i requires 0 <= i < 7 => NodeAt(i))
  }

  /** The aliases are plain tokens. */
  lemma AliasesPlain()
    ensures CN.PlainToken(Agency1) && CN.PlainToken(Agency2) && CN.PlainToken(Agency3)
    ensures CN.PlainToken(Db1) && CN.PlainToken(Db2) && CN.PlainToken(Coordinator1) && CN.PlainToken(Coordinator2)
    ensures forall i :: 0 <= i < 7 ==> CN.PlainToken(FixtureAliases[i])
  {
    assert Agency1[0] == 'a' && Agency2[0] == 'a' && Agency3[0] == 'a';
    assert Db1[0] == 'd' && Db2[0] == 'd' && Coordinator1[0] == 'c' && Coordinator2[0] == 'c';
  }

  /** The agency addresses are plain tokens. */
  lemma AddressesPlain()
    ensures CN.AllPlain(AgencyAddresses())
  {
    AliasesPlain();
    LN.NodeAddressPlain(Agency1, 5001);
    LN.NodeAddressPlain(Agency2, 5002);
    LN.NodeAddressPlain(Agency3, 5003);
  }

  /** The arguments this fixture writes that the factories do not are plain tokens too. */
  lemma FixtureTokensPlain()
    ensures CN.PlainToken("--server.authentication") && CN.PlainToken("false")
  {
    assert "--server.authentication"[2] == 's';
  }

  lemma MyAddressPlain(alias: string, port: int)
    requires SpaceFree(alias)
    ensures CN.PlainToken("--agency.my-address=" + LN.NodeAddress(alias, port))
  {
    var t := "--agency.my-address=" + LN.NodeAddress(alias, port);
    assert t[9] == 'm' && CN.AgencyEndpointFlag[9] == 'e';
    assert t[2] == 'a' && CN.ClusterAgencyEndpointFlag[2] == 'c';
    LN.NodeAddressPlain(alias, port);
  }

  /** Every fixed part of both commands is made of plain tokens. */
  lemma PartsPlain(alias: string, port: int, role: string)
    requires CN.PlainToken(alias) && CN.PlainToken(role)
    ensures CN.AllPlain(AgencyHead(alias, port)) && CN.AllPlain(AgencyTail(alias))
    ensures CN.AllPlain(ServerHead(alias, port, role)) && CN.AllPlain(["--database.directory", alias])
  {
    LN.TemplateTokensPlain();
    FixtureTokensPlain();
    MyAddressPlain(alias, port);
    LN.NodeAddressPlain(alias, port);
    var ep := LN.ServerEndpoint(port);
    assert ep[0] == 't';
  }

  /**
   * Read back from an agency command, the agency endpoints are exactly the
   * ones it was given and no cluster endpoint appears; its arguments survive
   * the container library's split of the joined command.
   */
  lemma AgencyArgsEndpoints(alias: string, port: int, endpoints: seq<string>)
    requires CN.PlainToken(alias) && CN.AllPlain(endpoints)
    ensures FlagValues(AgencyArgs(alias, port, endpoints), CN.AgencyEndpointFlag) == endpoints
    ensures FlagValues(AgencyArgs(alias, port, endpoints), CN.ClusterAgencyEndpointFlag) == []
    ensures Split(Join(AgencyArgs(alias, port, endpoints))) == AgencyArgs(alias, port, endpoints)
  {
    var head, pairs, tail := AgencyHead(alias, port), Pairs(CN.AgencyEndpointFlag, endpoints), AgencyTail(alias);
    PartsPlain(alias, port, "3");
    CN.AllPlainNoFlags(head);
    CN.AllPlainNoFlags(tail);
    CN.AllPlainNoFlags(endpoints);
    FlagValuesInside(head, CN.AgencyEndpointFlag, endpoints, tail);
    PairsAvoid(CN.AgencyEndpointFlag, endpoints, CN.ClusterAgencyEndpointFlag);
    FlagValuesSkip(head + pairs + tail, [], CN.ClusterAgencyEndpointFlag);
    assert head + pairs + tail + [] == head + pairs + tail;
    LN.PairsSpaceFree(CN.AgencyEndpointFlag, endpoints);
    AllSpaceFreeAppend(head, pairs);
    AllSpaceFreeAppend(head + pairs, tail);
    SplitJoin(head + pairs + tail);
  }

  /**
   * Read back from a server command, the cluster agency endpoints are the
   * three agency addresses in agency order, no agency endpoint appears, and
   * the role is the tenth argument.
   */
  lemma ServerArgsEndpoints(alias: string, port: int, role: string)
    requires CN.PlainToken(alias) && CN.PlainToken(role)
    ensures FlagValues(ServerArgs(alias, port, role), CN.ClusterAgencyEndpointFlag) == AgencyAddresses()
    ensures FlagValues(ServerArgs(alias, port, role), CN.AgencyEndpointFlag) == []
    ensures ServerArgs(alias, port, role)[8] == "--cluster.my-role" && ServerArgs(alias, port, role)[9] == role
  {
    var head, pairs, tail := ServerHead(alias, port, role), Pairs(CN.ClusterAgencyEndpointFlag, AgencyAddresses()), ["--database.directory", alias];
    PartsPlain(alias, port, role);
    AddressesPlain();
    CN.AllPlainNoFlags(head);
    CN.AllPlainNoFlags(tail);
    CN.AllPlainNoFlags(AgencyAddresses());
    FlagValuesInside(head, CN.ClusterAgencyEndpointFlag, AgencyAddresses(), tail);
    PairsAvoid(CN.ClusterAgencyEndpointFlag, AgencyAddresses(), CN.AgencyEndpointFlag);
    FlagValuesSkip(head + pairs + tail, [], CN.AgencyEndpointFlag);
    assert head + pairs + tail + [] == head + pairs + tail;
  }

  /** A server command survives the container library's split of the joined string. */
  lemma ServerArgsTokenized(alias: string, port: int, role: string)
    requires CN.PlainToken(alias) && CN.PlainToken(role)
    ensures Split(Join(ServerArgs(alias, port, role))) == ServerArgs(alias, port, role)
  {
    var head, pairs, tail := ServerHead(alias, port, role), Pairs(CN.ClusterAgencyEndpointFlag, AgencyAddresses()), ["--database.directory", alias];
    PartsPlain(alias, port, role);
    AddressesPlain();
    CN.AllPlainNoFlags(head);
    CN.AllPlainNoFlags(tail);
    CN.AllPlainNoFlags(AgencyAddresses());
    LN.PairsSpaceFree(CN.ClusterAgencyEndpointFlag, AgencyAddresses());
    AllSpaceFreeAppend(head, pairs);
    AllSpaceFreeAppend(head + pairs, tail);
    SplitJoin(head + pairs + tail);
  }

  /** The agency addresses the commands list are the addresses of the first three nodes. */
  lemma AgencyAddressesAreEndpoints()
    ensures Endpoints(GetCluster()[..3]) == AgencyAddresses()
  {
    var r := GetCluster();
    assert Endpoints(r[..3])[0] == AgencyAddresses()[0];
  }

  /** The nodes come in the source's order: three agencies, two data servers, two coordinators. */
  lemma GetClusterAliases()
    ensures Aliases(GetCluster()) == FixtureAliases
  {
  }

  /** The list is already ordered by node type, as a stable sort by type would leave it. */
  lemma GetClusterSortedByType()
    ensures SortedBy(GetCluster(), RoleKey)
  {
    assert forall i, j :: 0 <= i < j < 7 ==> RoleKey(GetCluster()[i]) <= RoleKey(GetCluster()[j]);
  }

  /** No node of the fixed cluster is a leader: its agencies are all plain agencies. */
  lemma GetClusterWithoutLeader()
    ensures forall i :: 0 <= i < |GetCluster()| ==> !IsLeader(GetCluster()[i]) && GetCluster()[i].authModes == {AuthEnv.NoAuth}
  {
  }

  /** The seven aliases are pairwise different. */
  lemma DistinctAliases(ns: seq<Node>)
    requires Aliases(ns) == FixtureAliases
    ensures UniqueAliases(ns)
  {
    assert Agency1[6] == '1' && Agency2[6] == '2' && Agency3[6] == '3';
    assert Db1[2] == '1' && Db2[2] == '2' && Coordinator1[11] == '1' && Coordinator2[11] == '2';
    assert |Agency1| == 7 && |Db1| == 3 && |Coordinator1| == 12;
  }

  /** No two nodes share an alias. */
  lemma GetClusterUniqueAliases()
    ensures UniqueAliases(GetCluster())
  {
    GetClusterAliases();
    DistinctAliases(GetCluster());
  }

  /**
   * The start dependencies: the first two agencies have none, the third
   * depends on the other two, both data servers on all three agencies, and
   * both coordinators on the two data servers.
   */
  lemma GetClusterDependencies()
    ensures var r := GetCluster();
      r[0].dependsOn == {} && r[1].dependsOn == {} && r[2].dependsOn == {r[0].alias, r[1].alias}
      && r[3].dependsOn == {r[0].alias, r[1].alias, r[2].alias} && r[4].dependsOn == r[3].dependsOn
      && r[5].dependsOn == {r[3].alias, r[4].alias} && r[6].dependsOn == r[5].dependsOn
  {
    var r := GetCluster();
    forall i | 0 <= i < 7
      ensures r[i].alias == FixtureAliases[i]
    {
      assert r[i] == NodeAt(i);
    }
    assert r[2].dependsOn == {Agency1, Agency2} by { assert r[2] == NodeAt(2); }
    assert r[3].dependsOn == {Agency1, Agency2, Agency3} == r[4].dependsOn by { assert r[3] == NodeAt(3) && r[4] == NodeAt(4); }
    assert r[5].dependsOn == {Db1, Db2} == r[6].dependsOn by { assert r[5] == NodeAt(5) && r[6] == NodeAt(6); }
    assert r[0].dependsOn == {} == r[1].dependsOn by { assert r[0] == NodeAt(0) && r[1] == NodeAt(1); }
  }

  /** Those dependencies always point to an earlier node. */
  lemma DependenciesBackwards(ns: seq<Node>)
    requires |ns| == 7
    requires ns[0].dependsOn == {} && ns[1].dependsOn == {} && ns[2].dependsOn == {ns[0].alias, ns[1].alias}
    requires ns[3].dependsOn == {ns[0].alias, ns[1].alias, ns[2].alias} && ns[4].dependsOn == ns[3].dependsOn
    requires ns[5].dependsOn == {ns[3].alias, ns[4].alias} && ns[6].dependsOn == ns[5].dependsOn
    ensures DependenciesPrecede(ns)
  {
    forall i, x | 0 <= i < |ns| && x in ns[i].dependsOn
      ensures exists j :: 0 <= j < i && ns[j].alias == x
    {
      if x == ns[0].alias {
        assert ns[0].alias == x;
      } else if x == ns[1].alias {
        assert ns[1].alias == x;
      } else if x == ns[2].alias {
        assert ns[2].alias == x;
      } else if x == ns[3].alias {
        assert ns[3].alias == x;
      } else {
        assert ns[4].alias == x;
      }
    }
  }

  /** Every prerequisite of a fixture node precedes it, so the dependency graph has no cycle. */
  lemma GetClusterDependenciesPrecede()
    ensures DependenciesPrecede(GetCluster())
  {
    GetClusterDependencies();
    DependenciesBackwards(GetCluster());
  }

  /**
   * Only the third agency is given agency endpoints: all three agency
   * addresses, in agency order. No agency command names a cluster agency
   * endpoint, and each agency command survives the split of the joined string.
   */
  lemma GetClusterAgencyEndpoints()
    ensures forall i :: 0 <= i < 3 ==>
      FlagValues(GetCluster()[i].command, CN.AgencyEndpointFlag) == (if i == 2 then AgencyAddresses() else [])
      && FlagValues(GetCluster()[i].command, CN.ClusterAgencyEndpointFlag) == []
      && Split(Join(GetCluster()[i].command)) == GetCluster()[i].command
  {
    AliasesPlain();
    AddressesPlain();
    forall i | 0 <= i < 3
      ensures FlagValues(GetCluster()[i].command, CN.AgencyEndpointFlag) == (if i == 2 then AgencyAddresses() else [])
      ensures FlagValues(GetCluster()[i].command, CN.ClusterAgencyEndpointFlag) == []
      ensures Split(Join(GetCluster()[i].command)) == GetCluster()[i].command
    {
      var endpoints: seq<string> := if i == 2 then AgencyAddresses() else [];
      assert CN.AllPlain(endpoints);
      AgencyArgsEndpoints(FixtureAliases[i], FixturePorts[i], endpoints);
    }
  }

  /**
   * Data servers ask for the role `PRIMARY` and coordinators for
   * `COORDINATOR`; each lists the three agency addresses under the cluster
   * flag, in agency order, names no agency endpoint, and survives the split
   * of the joined string.
   */
  lemma GetClusterServerEndpoints()
    ensures forall i :: 3 <= i < 7 ==>
      FlagValues(GetCluster()[i].command, CN.ClusterAgencyEndpointFlag) == AgencyAddresses()
      && FlagValues(GetCluster()[i].command, CN.AgencyEndpointFlag) == []
      && Split(Join(GetCluster()[i].command)) == GetCluster()[i].command
      && GetCluster()[i].command[9] == (if i < 5 then "PRIMARY" else "COORDINATOR")
  {
    AliasesPlain();
    LN.TemplateTokensPlain();
    forall i | 3 <= i < 7
      ensures FlagValues(GetCluster()[i].command, CN.ClusterAgencyEndpointFlag) == AgencyAddresses()
      ensures FlagValues(GetCluster()[i].command, CN.AgencyEndpointFlag) == []
      ensures Split(Join(GetCluster()[i].command)) == GetCluster()[i].command
      ensures GetCluster()[i].command[9] == (if i < 5 then "PRIMARY" else "COORDINATOR")
    {
      ServerArgsEndpoints(FixtureAliases[i], FixturePorts[i], if i < 5 then "PRIMARY" else "COORDINATOR");
      ServerArgsTokenized(FixtureAliases[i], FixturePorts[i], if i < 5 then "PRIMARY" else "COORDINATOR");
    }
  }
}
