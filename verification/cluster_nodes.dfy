/**
 * `cluster/ArangoClusterContainer`: the per-node factories of the current
 * cluster revision. Every node advertises the default database port in its
 * endpoint; the `port` argument only decides the fixed host port.
 */
module ClusterNodes {
  import opened Wrappers
  import opened Text
  import opened Nodes
  import AuthLate
  import AuthEnv

  /** The database port every node listens on (`ArangoContainer.DEFAULT_PORT`). */
  const DefaultPort := 8529

  const AgencyEndpointFlag := "--agency.endpoint"
  const ClusterAgencyEndpointFlag := "--cluster.agency-endpoint"

  /**
   * A single command-line argument that is neither of the agency-endpoint
   * flags: it survives the join/split round trip and cannot be mistaken for
   * a flag when the endpoints are read back.
   */
  predicate PlainToken(s: string)
  {
    SpaceFree(s) && s != AgencyEndpointFlag && s != ClusterAgencyEndpointFlag
  }

  /** Every argument is a plain token. */
  predicate AllPlain(ts: seq<string>)
  {
    forall i :: 0 <= i < |ts| ==> PlainToken(ts[i])
  }

  /** A command of plain tokens survives the join/split round trip and mentions neither agency flag. */
  lemma AllPlainNoFlags(ts: seq<string>)
    requires AllPlain(ts)
    ensures AllSpaceFree(ts) && AgencyEndpointFlag !in ts && ClusterAgencyEndpointFlag !in ts
  {
  }

  lemma AllPlainAppend(xs: seq<string>, ys: seq<string>)
    requires AllPlain(xs) && AllPlain(ys)
    ensures AllPlain(xs + ys)
  {
    var zs := xs + ys;
    forall i | 0 <= i < |zs|
      ensures PlainToken(zs[i])
    {
      if i >= |xs| {
        assert zs[i] == ys[i - |xs|];
      }
    }
  }

  /** `NodeType.getAlias()`: the alias stem of each node type. */
  function Stem(role: Role): string
  {
    match role
    case AgentLeader => "agentLeader"
    case Agent => "agent"
    case DbServer => "dbserver"
    case Coordinator => "coordinator"
  }

  /** `NodeType.getAlias(n)`: the bare stem for the leader, the stem followed by `n` otherwise. */
  function AliasOf(role: Role, number: int): (r: string)
    ensures PlainToken(r)
    ensures role == AgentLeader ==> r == "agentLeader"
    ensures role != AgentLeader ==> |r| > |Stem(role)| && r[..|Stem(role)|] == Stem(role)
    ensures role != AgentLeader ==> r[|Stem(role)|..] == IntToString(number)
  {
    var r := if role == AgentLeader then Stem(role) else Stem(role) + IntToString(number);
    assert r[0] != '-';
    r
  }

  /** Numbered aliases never collide: different types or numbers give different aliases. */
  lemma AliasOfInjective(r1: Role, n1: int, r2: Role, n2: int)
    requires r1 != AgentLeader && r2 != AgentLeader
    ensures AliasOf(r1, n1) == AliasOf(r2, n2) <==> r1 == r2 && n1 == n2
  {
    var a1, a2 := AliasOf(r1, n1), AliasOf(r2, n2);
    if a1 == a2 {
      assert a1[0] == Stem(r1)[0] && a2[0] == Stem(r2)[0];
      assert r1 == r2;
      var k := |Stem(r1)|;
      assert a1[k..] == IntToString(n1) && a2[k..] == IntToString(n2);
      IntToStringInjective(n1, n2);
    }
  }

  /** `getEndpoint(alias)`: always the default port, whatever port the node is published on. */
  function Endpoint(alias: string): (r: string)
    ensures SpaceFree(alias) ==> PlainToken(r)
    ensures |r| > 6 && r[..6] == "tcp://"
  {
    var r := "tcp://" + alias + ":" + IntToString(DefaultPort);
    assert r[0] == 't';
    r
  }

  /** `--server.endpoint` value: listen on every interface at the default port. */
  function ServerEndpoint(): (r: string)
    ensures PlainToken(r)
  {
    "tcp://0.0.0.0:" + IntToString(DefaultPort)
  }

  /** `getCommonCommand`: the arguments every node starts with. */
  function CommonCommand(): (r: seq<string>)
    ensures |r| == 4 && r[0] == "arangod"
    ensures AllSpaceFree(r)
  {
    ["arangod", "--server.authentication=false", "--server.endpoint", ServerEndpoint()]
  }

  /** The agency-endpoint flag a node of this type understands (`withAgentEndpoints`). */
  function EndpointFlag(role: Role): string
  {
    if IsAgency(role) then AgencyEndpointFlag else ClusterAgencyEndpointFlag
  }

  datatype FactoryError = NoArgs

  /**
   * `build`: the arguments are joined with single spaces and handed over as one
   * command string, which the container library splits again; an empty
   * argument list is refused. Every node runs without authentication, and only
   * an exposed node gets a fixed host port.
   */
  function BuildNode(role: Role, args: seq<string>, alias: string, endpoint: string, port: int, expose: bool)
    : (r: Result<Node, FactoryError>)
    ensures r.Success? <==> args != []
    ensures r.Success? && AllSpaceFree(args) ==> r.value.command == args
    ensures r.Success? ==> r.value.port == (if expose then Fixed(port) else Mapped(DefaultPort))
    ensures r.Success? ==> r.value.role == role && r.value.alias == alias && r.value.endpoint == endpoint
    ensures r.Success? ==> r.value.dependsOn == {}
  {
    if args == [] then Failure(NoArgs)
    else
      assert AllSpaceFree(args) ==> Split(Join(args)) == args by {
        if AllSpaceFree(args) { SplitJoin(args); }
      }
      var port := if expose then Fixed(port) else Mapped(DefaultPort);
      Success(Node(role, alias, endpoint, port, Split(Join(args)), {}, {AuthEnv.NoAuth}))
  }

  /** Every node the factories build runs with authentication switched off, which `configure()` accepts. */
  lemma BuildNodeRunsWithoutAuth(role: Role, args: seq<string>, alias: string, endpoint: string, port: int, expose: bool)
    requires args != []
    ensures BuildNode(role, args, alias, endpoint, port, expose).value.authModes
      == AuthEnv.PresentModes(AuthLate.WithoutAuth(AuthLate.Fresh()).env)
    ensures AuthLate.Configure(AuthLate.WithoutAuth(AuthLate.Fresh())).Pass?
  {
    AuthLate.WithoutAuthFreshPasses();
  }

  /** A printed number is a plain token. */
  lemma NumberPlain(n: int)
    ensures PlainToken(IntToString(n))
  {
    var size := IntToString(n);
    assert AgencyEndpointFlag[2] == 'a' && ClusterAgencyEndpointFlag[2] == 'c';
    if |size| > 2 {
      assert IsDigit(size[2]) || size[2] == '-';
    }
  }

  /** The words of the agent command are plain tokens. */
  lemma AgentWordsPlain()
    ensures PlainToken("--agency.my-address") && PlainToken("--agency.activate") && PlainToken("true")
    ensures PlainToken("--agency.size") && PlainToken("--agency.supervision")
  {
    assert "--agency.activate"[9] != AgencyEndpointFlag[9];
  }

  /** The words of the server command are plain tokens. */
  lemma ServerWordsPlain()
    ensures PlainToken("--cluster.my-local-info") && PlainToken("--cluster.my-role") && PlainToken("--cluster.my-address")
  {
  }

  /** The common command is made of plain tokens. */
  lemma CommonCommandPlain()
    ensures AllPlain(CommonCommand())
  {
  }

  function AgentArgs(alias: string, totalAgentNodes: int): (r: seq<string>)
    ensures |r| == 12 && r[..4] == CommonCommand()
    ensures r[4..] == ["--agency.my-address", Endpoint(alias), "--agency.activate", "true",
                       "--agency.size", IntToString(totalAgentNodes), "--agency.supervision", "true"]
    ensures PlainToken(alias) ==> AllSpaceFree(r) && AgencyEndpointFlag !in r && ClusterAgencyEndpointFlag !in r
  {
    var tail := ["--agency.my-address", Endpoint(alias), "--agency.activate", "true",
                 "--agency.size", IntToString(totalAgentNodes), "--agency.supervision", "true"];
    assert PlainToken(alias) ==> AllPlain(CommonCommand() + tail) by {
      if PlainToken(alias) {
        NumberPlain(totalAgentNodes);
        AgentWordsPlain();
        CommonCommandPlain();
        AllPlainAppend(CommonCommand(), tail);
      }
    }
    assert PlainToken(alias) ==> (AllSpaceFree(CommonCommand() + tail)
        && AgencyEndpointFlag !in CommonCommand() + tail && ClusterAgencyEndpointFlag !in CommonCommand() + tail) by {
      if PlainToken(alias) {
        AllPlainNoFlags(CommonCommand() + tail);
      }
    }
    CommonCommand() + tail
  }

  /** `agent(...)`: an agency member; the leader flag only decides the node type. */
  function Agent(alias: string, port: int, totalAgentNodes: int, leader: bool, expose: bool): (r: Node)
    ensures r.role == (if leader then AgentLeader else Nodes.Agent)
    ensures r.alias == alias && r.endpoint == Endpoint(alias)
    ensures PlainToken(alias) ==> r.command == AgentArgs(alias, totalAgentNodes)
    ensures r.port == (if expose then Fixed(port) else Mapped(DefaultPort))
    ensures r.dependsOn == {}
  {
    BuildNode(if leader then AgentLeader else Nodes.Agent, AgentArgs(alias, totalAgentNodes),
              alias, Endpoint(alias), port, expose).value
  }

  function ClusterArgs(alias: string, role: string): (r: seq<string>)
    ensures |r| == 10 && r[..4] == CommonCommand()
    ensures r[4..] == ["--cluster.my-local-info", alias, "--cluster.my-role", role, "--cluster.my-address", Endpoint(alias)]
    ensures PlainToken(alias) && PlainToken(role) ==> AllSpaceFree(r) && AgencyEndpointFlag !in r && ClusterAgencyEndpointFlag !in r
  {
    var tail := ["--cluster.my-local-info", alias, "--cluster.my-role", role, "--cluster.my-address", Endpoint(alias)];
    assert PlainToken(alias) && PlainToken(role) ==> AllPlain(CommonCommand() + tail) by {
      if PlainToken(alias) && PlainToken(role) {
        ServerWordsPlain();
        CommonCommandPlain();
        AllPlainAppend(CommonCommand(), tail);
      }
    }
    assert PlainToken(alias) && PlainToken(role) ==> (AllSpaceFree(CommonCommand() + tail)
        && AgencyEndpointFlag !in CommonCommand() + tail && ClusterAgencyEndpointFlag !in CommonCommand() + tail) by {
      if PlainToken(alias) && PlainToken(role) {
        AllPlainNoFlags(CommonCommand() + tail);
      }
    }
    CommonCommand() + tail
  }

  /** `dbserver(...)`: a data server, published on a fixed port only when exposed. */
  function DbServer(alias: string, port: int, expose: bool): (r: Node)
    ensures r.role == Nodes.DbServer
    ensures r.alias == alias && r.endpoint == Endpoint(alias)
    ensures PlainToken(alias) ==> r.command == ClusterArgs(alias, "DBSERVER")
    ensures r.port == (if expose then Fixed(port) else Mapped(DefaultPort))
    ensures r.dependsOn == {}
  {
    BuildNode(Nodes.DbServer, ClusterArgs(alias, "DBSERVER"), alias, Endpoint(alias), port, expose).value
  }

  /** `coordinator(...)`: the client entry point, always published on its fixed port. */
  function Coordinator(alias: string, port: int): (r: Node)
    ensures r.role == Nodes.Coordinator
    ensures r.alias == alias && r.endpoint == Endpoint(alias)
    ensures PlainToken(alias) ==> r.command == ClusterArgs(alias, "COORDINATOR")
    ensures r.port == Fixed(port)
    ensures r.dependsOn == {}
  {
    BuildNode(Nodes.Coordinator, ClusterArgs(alias, "COORDINATOR"), alias, Endpoint(alias), port, true).value
  }

  /**
   * `withAgentEndpoints`: keeps the current arguments and appends one flag/value
   * pair per endpoint, in order; nothing else about the node changes.
   */
  function WithAgentEndpoints(n: Node, endpoints: seq<string>): (r: Node)
    ensures |r.command| == |n.command| + 2 * |endpoints|
    ensures r.command[..|n.command|] == n.command
    ensures forall i :: 0 <= i < |endpoints| ==>
      r.command[|n.command| + 2 * i] == EndpointFlag(n.role) && r.command[|n.command| + 2 * i + 1] == endpoints[i]
    ensures EndpointFlag(n.role) !in n.command ==> FlagValues(r.command, EndpointFlag(n.role)) == endpoints
    ensures r.(command := n.command) == n
  {
    var flag := EndpointFlag(n.role);
    assert flag !in n.command ==> FlagValues(n.command + Pairs(flag, endpoints), flag) == endpoints by {
      if flag !in n.command { FlagValuesAppended(n.command, flag, endpoints); }
    }
    n.(command := n.command + Pairs(flag, endpoints))
  }
}
