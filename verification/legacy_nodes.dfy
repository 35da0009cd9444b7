/**
 * `containers/ArangoClusterContainer`: the per-node factories of the older
 * cluster revision. A node advertises and listens on its own port, and its
 * agency endpoints are appended by `addAgencies`.
 */
module LegacyNodes {
  import opened Text
  import opened Nodes
  import AuthLate
  import AuthEnv
  import CN = ClusterNodes

  /** `NodeType` of this revision: it has no separate leader type. */
  datatype Kind = Agency | Database | Coordinator

  function Stem(k: Kind): string
  {
    match k
    case Agency => "agency"
    case Database => "database"
    case Coordinator => "coordinator"
  }

  /** The shared node type each kind stands for. */
  function RoleOf(k: Kind): Role
  {
    match k
    case Agency => Agent
    case Database => DbServer
    case Coordinator => Nodes.Coordinator
  }

  /** `getAlias(n)`: the stem followed by `n`, for every type alike. */
  function AliasOf(k: Kind, number: int): string
  {
    Stem(k) + IntToString(number)
  }

  /** An alias is a plain token: its type's stem followed by the printed number. */
  lemma AliasOfPlain(k: Kind, number: int)
    ensures CN.PlainToken(AliasOf(k, number))
    ensures |AliasOf(k, number)| > |Stem(k)| && AliasOf(k, number)[..|Stem(k)|] == Stem(k)
    ensures AliasOf(k, number)[|Stem(k)|..] == IntToString(number)
  {
    var r := AliasOf(k, number);
    assert r[0] != '-';
    assert r[..|Stem(k)|] == Stem(k);
  }

  /** Different types or numbers give different aliases. */
  lemma AliasOfInjective(k1: Kind, n1: int, k2: Kind, n2: int)
    ensures AliasOf(k1, n1) == AliasOf(k2, n2) <==> k1 == k2 && n1 == n2
  {
    var a1, a2 := AliasOf(k1, n1), AliasOf(k2, n2);
    if a1 == a2 {
      assert a1[0] == Stem(k1)[0] && a2[0] == Stem(k2)[0];
      assert k1 == k2;
      var k := |Stem(k1)|;
      assert a1[k..] == IntToString(n1) && a2[k..] == IntToString(n2);
      IntToStringInjective(n1, n2);
    }
  }

  /** The node address `tcp://alias:port`: unlike the newer revision, it carries the node's own port. */
  function NodeAddress(alias: string, port: int): string
  {
    "tcp://" + alias + ":" + IntToString(port)
  }

  /** An address reads back as the scheme, the alias, a colon and the printed port, in that order. */
  lemma NodeAddressParts(alias: string, port: int)
    ensures var r := NodeAddress(alias, port);
      |r| == |alias| + 7 + |IntToString(port)|
      && r[..6] == "tcp://" && r[6..6 + |alias|] == alias && r[6 + |alias|] == ':'
      && r[7 + |alias|..] == IntToString(port)
  {
  }

  /** The address of a space-free alias is a plain token that starts with the scheme. */
  lemma NodeAddressPlain(alias: string, port: int)
    requires SpaceFree(alias)
    ensures CN.PlainToken(NodeAddress(alias, port))
    ensures NodeAddress(alias, port)[..6] == "tcp://"
  {
    var r := NodeAddress(alias, port);
    assert r[0] == 't';
    assert r[..6] == "tcp://";
  }

  /** The newer revision's endpoint is this revision's address at the default port. */
  lemma EndpointIsDefaultPortAddress(alias: string)
    ensures CN.Endpoint(alias) == NodeAddress(alias, CN.DefaultPort)
  {
  }

  /** `--server.endpoint` value: listen on every interface at the node's port. */
  function ServerEndpoint(port: int): string
  {
    "tcp://0.0.0.0:" + IntToString(port)
  }

  /** The fixed arguments of both command templates are plain tokens. */
  lemma TemplateTokensPlain()
    ensures CN.PlainToken("arangod") && CN.PlainToken("--server.authentication=false")
    ensures CN.PlainToken("--server.endpoint") && CN.PlainToken("--cluster.my-address")
    ensures CN.PlainToken("--agency.activate") && CN.PlainToken("true")
    ensures CN.PlainToken("--agency.size") && CN.PlainToken("3") && CN.PlainToken("--agency.supervision")
    ensures CN.PlainToken("--database.directory") && CN.PlainToken("--cluster.my-local-info")
    ensures CN.PlainToken("--cluster.my-role") && CN.PlainToken("PRIMARY") && CN.PlainToken("COORDINATOR")
  {
    assert "--agency.activate"[9] != CN.AgencyEndpointFlag[9];
  }

  /** The arguments both command templates start with: listen on the node's port, advertise its address. */
  function CommonArgs(alias: string, port: int): seq<string>
  {
    ["arangod", "--server.authentication=false", "--server.endpoint", ServerEndpoint(port),
     "--cluster.my-address", NodeAddress(alias, port)]
  }

  /** The agency command: the agency size is always 3, whatever the cluster's agency count. */
  function AgencyArgs(alias: string, port: int): seq<string>
  {
    CommonArgs(alias, port)
      + ["--agency.activate", "true", "--agency.size", "3", "--agency.supervision", "true", "--database.directory", alias]
  }

  /** The data-server and coordinator command, which differ only in the role value. */
  function ServerArgs(alias: string, port: int, role: string): seq<string>
  {
    CommonArgs(alias, port) + ["--cluster.my-local-info", alias, "--cluster.my-role", role, "--database.directory", alias]
  }

  /**
   * Both templates begin with the common arguments; an agency always asks for
   * an agency of size 3 and stores its data under its alias, and a server
   * names its alias, its role and its data directory.
   */
  lemma TemplateLayout(alias: string, port: int, role: string)
    ensures var r := AgencyArgs(alias, port);
      |r| == 14
      && r[..6] == ["arangod", "--server.authentication=false", "--server.endpoint", ServerEndpoint(port),
                    "--cluster.my-address", NodeAddress(alias, port)]
      && r[6..] == ["--agency.activate", "true", "--agency.size", "3", "--agency.supervision", "true",
                    "--database.directory", alias]
    ensures var r := ServerArgs(alias, port, role);
      |r| == 12
      && r[..6] == ["arangod", "--server.authentication=false", "--server.endpoint", ServerEndpoint(port),
                    "--cluster.my-address", NodeAddress(alias, port)]
      && r[6..] == ["--cluster.my-local-info", alias, "--cluster.my-role", role, "--database.directory", alias]
  {
  }

  /** For a plain alias and role, every argument of both templates is a plain token. */
  lemma TemplatesPlain(alias: string, port: int, role: string)
    requires CN.PlainToken(alias) && CN.PlainToken(role)
    ensures CN.AllPlain(AgencyArgs(alias, port)) && CN.AllPlain(ServerArgs(alias, port, role))
  {
    TemplateTokensPlain();
    NodeAddressPlain(alias, port);
    var ep := ServerEndpoint(port);
    assert ep[0] == 't';
    var common := CommonArgs(alias, port);
    assert CN.AllPlain(common);
    CN.AllPlainAppend(common, ["--agency.activate", "true", "--agency.size", "3", "--agency.supervision", "true", "--database.directory", alias]);
    CN.AllPlainAppend(common, ["--cluster.my-local-info", alias, "--cluster.my-role", role, "--database.directory", alias]);
  }

  /** The agency-endpoint flag: the cluster flag for servers, the agency flag for agencies. */
  function AgenciesFlag(isCluster: bool): string
  {
    if isCluster then CN.ClusterAgencyEndpointFlag else CN.AgencyEndpointFlag
  }

  lemma PairsSpaceFree(flag: string, values: seq<string>)
    requires SpaceFree(flag) && AllSpaceFree(values)
    ensures AllSpaceFree(Pairs(flag, values))
  {
    var p := Pairs(flag, values);
    forall i | 0 <= i < |p|
      ensures SpaceFree(p[i])
    {
      var k := i / 2;
      if i % 2 == 0 {
        assert p[2 * k] == flag;
      } else {
        assert p[2 * k + 1] == values[k];
      }
    }
  }

  /**
   * `addAgencies`: one flag/value pair per endpoint is appended to the
   * current arguments; nothing else about the node changes. The source joins
   * the arguments with spaces and hands the string back to the container
   * library, which splits it again; the model keeps the list, which
   * `AddAgenciesTokenized` shows is what that round trip yields.
   */
  function AddAgencies(n: Node, isCluster: bool, endpoints: seq<string>): (r: Node)
    ensures |r.command| == |n.command| + 2 * |endpoints|
    ensures r.command[..|n.command|] == n.command
    ensures r.(command := n.command) == n
  {
    var cmd := n.command + Pairs(AgenciesFlag(isCluster), endpoints);
    assert cmd[..|n.command|] == n.command;
    n.(command := cmd)
  }

  /** Read back under the flag, the extended command lists exactly the given endpoints when the flag was not there before. */
  lemma AddAgenciesEndpoints(n: Node, isCluster: bool, endpoints: seq<string>)
    requires AgenciesFlag(isCluster) !in n.command
    ensures FlagValues(AddAgencies(n, isCluster, endpoints).command, AgenciesFlag(isCluster)) == endpoints
  {
    FlagValuesAppended(n.command, AgenciesFlag(isCluster), endpoints);
  }

  /** For space-free arguments and endpoints, joining and re-splitting the extended command gives the modelled command. */
  lemma AddAgenciesTokenized(n: Node, isCluster: bool, endpoints: seq<string>)
    requires n.command != [] && AllSpaceFree(n.command) && AllSpaceFree(endpoints)
    ensures Split(Join(n.command + Pairs(AgenciesFlag(isCluster), endpoints))) == AddAgencies(n, isCluster, endpoints).command
  {
    var flag := AgenciesFlag(isCluster);
    PairsSpaceFree(flag, endpoints);
    AllSpaceFreeAppend(n.command, Pairs(flag, endpoints));
    SplitJoin(n.command + Pairs(flag, endpoints));
  }

  /**
   * `build(cmd, alias, port)`: no authentication, the given port exposed for
   * the runtime to map, and the command taken as its arguments (the source
   * passes the command as one string that the container library splits;
   * `BuildNodeTokenized` relates the two).
   */
  function BuildNode(role: Role, args: seq<string>, alias: string, port: int): (r: Node)
    ensures r.role == role && r.alias == alias && r.endpoint == NodeAddress(alias, port)
    ensures r.port == Mapped(port) && r.dependsOn == {}
  {
    Node(role, alias, NodeAddress(alias, port), Mapped(port), args, {}, {AuthEnv.NoAuth})
  }

  /** For space-free arguments the container library's split of the joined command gives back the modelled arguments. */
  lemma BuildNodeTokenized(role: Role, args: seq<string>, alias: string, port: int)
    requires args != [] && AllSpaceFree(args)
    ensures Split(Join(args)) == BuildNode(role, args, alias, port).command
  {
    SplitJoin(args);
  }

  /** Every node runs with only the no-auth mode, as `withoutAuth()` leaves a fresh container, and passes `configure()`. */
  lemma BuildNodeRunsWithoutAuth(role: Role, args: seq<string>, alias: string, port: int)
    ensures BuildNode(role, args, alias, port).authModes == AuthEnv.PresentModes(AuthLate.WithoutAuth(AuthLate.Fresh()).env)
    ensures AuthLate.Configure(AuthLate.WithoutAuth(AuthLate.Fresh())).Pass?
  {
    AuthLate.WithoutAuthFreshPasses();
  }

  /** `agency(alias, port, endpoints)`. */
  function AgencyNode(alias: string, port: int, endpoints: seq<string>): (r: Node)
    ensures r.role == Agent && r.alias == alias && r.endpoint == NodeAddress(alias, port)
    ensures r.port == Mapped(port) && r.dependsOn == {}
  {
    AddAgencies(BuildNode(Agent, AgencyArgs(alias, port), alias, port), false, endpoints)
  }

  /** `database(alias, port, endpoints)`: role `PRIMARY`. */
  function DatabaseNode(alias: string, port: int, endpoints: seq<string>): (r: Node)
    ensures r.role == DbServer && r.alias == alias && r.endpoint == NodeAddress(alias, port)
    ensures r.port == Mapped(port) && r.dependsOn == {}
  {
    AddAgencies(BuildNode(DbServer, ServerArgs(alias, port, "PRIMARY"), alias, port), true, endpoints)
  }

  /** `coordinator(alias, port, endpoints)`: role `COORDINATOR`. */
  function CoordinatorNode(alias: string, port: int, endpoints: seq<string>): (r: Node)
    ensures r.role == Nodes.Coordinator && r.alias == alias && r.endpoint == NodeAddress(alias, port)
    ensures r.port == Mapped(port) && r.dependsOn == {}
  {
    AddAgencies(BuildNode(Nodes.Coordinator, ServerArgs(alias, port, "COORDINATOR"), alias, port), true, endpoints)
  }

  /**
   * Read back from the command, the agency endpoints of every factory are
   * exactly the ones it was given, under the flag of its type.
   */
  lemma FactoryEndpoints(alias: string, port: int, endpoints: seq<string>)
    requires CN.PlainToken(alias)
    ensures FlagValues(AgencyNode(alias, port, endpoints).command, CN.AgencyEndpointFlag) == endpoints
    ensures FlagValues(DatabaseNode(alias, port, endpoints).command, CN.ClusterAgencyEndpointFlag) == endpoints
    ensures FlagValues(CoordinatorNode(alias, port, endpoints).command, CN.ClusterAgencyEndpointFlag) == endpoints
  {
    TemplateTokensPlain();
    TemplatesPlain(alias, port, "PRIMARY");
    TemplatesPlain(alias, port, "COORDINATOR");
    CN.AllPlainNoFlags(AgencyArgs(alias, port));
    CN.AllPlainNoFlags(ServerArgs(alias, port, "PRIMARY"));
    CN.AllPlainNoFlags(ServerArgs(alias, port, "COORDINATOR"));
    FlagValuesAppended(AgencyArgs(alias, port), CN.AgencyEndpointFlag, endpoints);
    FlagValuesAppended(ServerArgs(alias, port, "PRIMARY"), CN.ClusterAgencyEndpointFlag, endpoints);
    FlagValuesAppended(ServerArgs(alias, port, "COORDINATOR"), CN.ClusterAgencyEndpointFlag, endpoints);
  }

  /** Splitting a joined command, appending space-free pairs, and joining and splitting again keeps every argument. */
  lemma DoubleRoundTrip(args: seq<string>, flag: string, endpoints: seq<string>)
    requires args != [] && AllSpaceFree(args) && SpaceFree(flag) && AllSpaceFree(endpoints)
    ensures Split(Join(Split(Join(args)) + Pairs(flag, endpoints))) == args + Pairs(flag, endpoints)
  {
    SplitJoin(args);
    PairsSpaceFree(flag, endpoints);
    AllSpaceFreeAppend(args, Pairs(flag, endpoints));
    SplitJoin(args + Pairs(flag, endpoints));
  }

  /**
   * The source builds each command string, lets the container library split
   * it, then joins the parts again with the endpoint pairs and has that split
   * once more. For a plain alias and space-free endpoints that double round
   * trip yields exactly the modelled command.
   */
  lemma FactoryTokenized(alias: string, port: int, endpoints: seq<string>)
    requires CN.PlainToken(alias) && AllSpaceFree(endpoints)
    ensures var args := AgencyArgs(alias, port);
      Split(Join(Split(Join(args)) + Pairs(CN.AgencyEndpointFlag, endpoints))) == AgencyNode(alias, port, endpoints).command
    ensures var args := ServerArgs(alias, port, "PRIMARY");
      Split(Join(Split(Join(args)) + Pairs(CN.ClusterAgencyEndpointFlag, endpoints))) == DatabaseNode(alias, port, endpoints).command
    ensures var args := ServerArgs(alias, port, "COORDINATOR");
      Split(Join(Split(Join(args)) + Pairs(CN.ClusterAgencyEndpointFlag, endpoints))) == CoordinatorNode(alias, port, endpoints).command
  {
    TemplateTokensPlain();
    TemplatesPlain(alias, port, "PRIMARY");
    TemplatesPlain(alias, port, "COORDINATOR");
    CN.AllPlainNoFlags(AgencyArgs(alias, port));
    CN.AllPlainNoFlags(ServerArgs(alias, port, "PRIMARY"));
    CN.AllPlainNoFlags(ServerArgs(alias, port, "COORDINATOR"));
    DoubleRoundTrip(AgencyArgs(alias, port), CN.AgencyEndpointFlag, endpoints);
    DoubleRoundTrip(ServerArgs(alias, port, "PRIMARY"), CN.ClusterAgencyEndpointFlag, endpoints);
    DoubleRoundTrip(ServerArgs(alias, port, "COORDINATOR"), CN.ClusterAgencyEndpointFlag, endpoints);
  }
}
