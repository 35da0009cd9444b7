# arangodb-testcontainers: cluster topology and authentication configuration

This project models the configuration logic of the ArangoDB testcontainers
library in Dafny. That logic is everything the library decides before any
container exists:

- **Node descriptors.** Each node has a type, a network alias, the address
  other nodes reach it at, how its port is published, its command-line
  arguments, the nodes it must start after, and its authentication mode
  (`Nodes`).
- **Newer per-node factories** (`cluster/ArangoClusterContainer`):
  `NodeType.getAlias`, `getEndpoint`, `getCommonCommand`, the `agent`,
  `dbserver` and `coordinator` factories, `withAgentEndpoints`, and the
  join-and-expose step `build` (`ClusterNodes`).
- **Older per-node factories** (`containers/ArangoClusterContainer`):
  aliases, node addresses, the command templates, and `addAgencies`
  (`LegacyNodes`).
- **The three cluster builders.**
  - The newer builder, with a leader agency and a stable sort by node type
    (`ClusterBuilder`).
  - The older builder, which finds the leader, wires the dependencies and
    concatenates without sorting (`LegacyBuilder`).
  - The fixed seven-node cluster (`LegacyFixture`).
- **The views over a built list.**
  - `ArangoCluster`, which partitions the list by type (`ClusterView`).
  - The newer `ArangoClusterDefault`, which swaps the leader to position 0
    (`ClusterDefault`).
  - The older `ArangoClusterDefault`, which sorts and then swaps the leader
    to position 2 (`LegacyDefault`).
  - How each view reads each builder's output (`Composition`).
- **Authentication-mode exclusivity** for the three environment switches.
  - The root password, no-auth and random-password variables (`AuthEnv`).
  - `ArangoContainer` checks them late, in `configure()` (`AuthLate`).
  - `ArangoDBContainer` checks them eagerly, in every setter (`AuthEager`).
- **Java semantics** that the code relies on.
  - `int` wrap-around and truncating `%` (`JavaInt`).
  - `Integer.toString`, `StringUtils.isBlank`, and the container library's
    split of a command string on single spaces (`Text`).
  - `List.get`, `Collections.swap`, and a stable sort (`Lists`).

Builders return `Result` values: every exception the source throws is an
error value with the same trigger. Ports are Java `int`s, so `portFrom + i`
wraps at 32 bits. Commands are lists of arguments. Where the source builds a
command string and the container library splits it again, lemmas show that
splitting gives back the modelled argument list.

## Model

| member | source | states |
|---|---|---|
| `JavaInt.Wrap32` | src/main/java/io/testcontainers/arangodb/cluster/ArangoClusterBuilder.java:153 | A Java `int` result keeps the exact value when it fits in 32 bits. Otherwise it differs from that value by a multiple of 2^32. |
| `JavaInt.Add32` | src/main/java/io/testcontainers/arangodb/cluster/ArangoClusterBuilder.java:178 | `portFrom + i` as Java computes it equals the true sum whenever the sum fits in an `int`. |
| `JavaInt.Rem` | src/main/java/io/testcontainers/arangodb/cluster/ArangoClusterBuilder.java:138 | Java's `%` agrees with the mathematical remainder for non-negative dividends. For negative dividends it is non-positive and above `-b`. |
| `JavaInt.OddGuard` | src/main/java/io/testcontainers/arangodb/cluster/ArangoClusterBuilder.java:138-139 | `agencyNodes % 2 != 1` holds exactly for counts that are not positive and odd: zero, every even count and every negative count. |
| `Text.IntToString` | src/main/java/io/testcontainers/arangodb/cluster/ArangoClusterContainer.java:36-40 | The number appended to an alias is non-empty, has no spaces, and is digits, with a leading minus sign for negative numbers. |
| `Text.IntValue` | src/main/java/io/testcontainers/arangodb/cluster/ArangoClusterContainer.java:36-40 | The printed number reads back, as a decimal with an optional leading minus, as exactly the number printed. A negative number prints as a minus sign before the digits of its magnitude. |
| `Text.NatValue` | src/main/java/io/testcontainers/arangodb/cluster/ArangoClusterContainer.java:36-40 | The digits printed for a non-negative number, read most significant first, stand for that number. |
| `Text.IntToStringInjective` | src/main/java/io/testcontainers/arangodb/cluster/ArangoClusterContainer.java:36-40 | Different numbers print differently. |
| `Text.Split` | src/main/java/io/testcontainers/arangodb/containers/ArangoClusterContainer.java:52 | The parts the container library makes from a command string: at least one part, none containing a space. Unlike Java's `split(" ")`, trailing empty parts are kept; no command built here ends in a space. |
| `Text.SplitJoin` | src/main/java/io/testcontainers/arangodb/cluster/ArangoClusterContainer.java:143-150 | Joining non-empty, space-free arguments with single spaces and splitting the result gives back exactly those arguments. |
| `Text.JoinSplit` | src/main/java/io/testcontainers/arangodb/containers/ArangoClusterContainer.java:51-57 | Re-joining the parts of a split command string rebuilds the string exactly. This is the inverse direction of `SplitJoin`. |
| `Text.IsBlankIffTrimEmpty` | src/main/java/io/testcontainers/arangodb/cluster/ArangoClusterBuilder.java:141-142 | `StringUtils.isBlank(version)` holds exactly when `version.trim()` is empty, with `trim()` written out independently as dropping the characters up to U+0020 at both ends. |
| `Lists.At` | src/main/java/io/testcontainers/arangodb/cluster/ArangoCluster.java:45-47 | `List.get(i)` succeeds exactly when `0 <= i < size`, returns element `i`, and otherwise fails with an index error naming `i` and the size. |
| `Lists.Swap` | src/main/java/io/testcontainers/arangodb/cluster/ArangoClusterDefault.java:81 | `Collections.swap` exchanges the two positions, leaves every other position as it was, and keeps the same elements. |
| `Lists.SortBy` | src/main/java/io/testcontainers/arangodb/cluster/ArangoClusterBuilder.java:201 | Sorting by type returns a permutation of the input that is ordered by the key. |
| `Lists.SortByIsStable` | src/main/java/io/testcontainers/arangodb/cluster/ArangoClusterBuilder.java:201 | The sort is stable: the elements with any one key keep their relative order. |
| `Lists.SortBySortedIsIdentity` | src/main/java/io/testcontainers/arangodb/containers/ArangoClusterDefault.java:39-41 | A list already in type order comes out of the sort unchanged. |
| `Nodes.WithDependencies` | src/main/java/io/testcontainers/arangodb/cluster/ArangoClusterBuilder.java:163 | `dependsOn(...)` adds the given aliases to a node's prerequisites and changes nothing else about the node. |
| `Nodes.Pairs` | src/main/java/io/testcontainers/arangodb/cluster/ArangoClusterContainer.java:62-65 | One flag/value pair per endpoint, in endpoint order. The flag is at each even position and its endpoint right after it. |
| `Nodes.FlagValuesOfPairs` | src/main/java/io/testcontainers/arangodb/cluster/ArangoClusterContainer.java:62-65 | Reading the flag's values back from the appended pairs gives exactly the endpoints, in order. It is the partner of `Pairs`. |
| `Nodes.FlagValuesAppended` | src/main/java/io/testcontainers/arangodb/cluster/ArangoClusterContainer.java:56-69 | If a command never mentions the flag, appending pairs makes their endpoints the flag's only values. |
| `Nodes.FlagValuesInside` | src/main/java/io/testcontainers/arangodb/containers/ArangoClusterBuilder.java:54-58 | Pairs placed between arguments that never mention the flag are still its only values. |
| `Nodes.LayeredPrecede` | src/main/java/io/testcontainers/arangodb/cluster/ArangoClusterBuilder.java:159-194 | Dependencies layered by type always name an earlier node. So the list is a valid start order and the dependency graph has no cycle. |
| `AuthEnv.KeyInjective` | src/main/java/io/testcontainers/arangodb/containers/ArangoContainer.java:22-24 | The three modes use three different environment variables. |
| `AuthEnv.PresentModes` | src/main/java/io/testcontainers/arangodb/containers/ArangoContainer.java:42-58 | A mode counts as requested exactly when its variable is a key of the environment, whatever its value. |
| `AuthEnv.PresentAfterSet` | src/main/java/io/testcontainers/arangodb/containers/ArangoContainer.java:71 | `withEnv` on a mode's variable adds exactly that mode to the requested ones. |
| `AuthEnv.ModesOf` | src/main/java/io/testcontainers/arangodb/containers/ArangoContainer.java:69-90 | The modes a chain of setter calls asks for: a mode is included exactly when some call in the chain asks for it. |
| `AuthLate.Fresh` | src/main/java/io/testcontainers/arangodb/containers/ArangoContainer.java:28-38 | A new container requests no mode and has no password (`null`). |
| `AuthLate.WithPassword` | src/main/java/io/testcontainers/arangodb/containers/ArangoContainer.java:69-72 | Remembers `p` and sets the root-password variable to `p`, replacing any earlier value. Adds the root-password mode and leaves every other variable as it was. |
| `AuthLate.WithoutAuth` | src/main/java/io/testcontainers/arangodb/containers/ArangoContainer.java:79-81 | Sets the no-auth switch to `"1"` without checking for conflicts and keeps the password. Adds the no-auth mode and leaves every other variable as it was. |
| `AuthLate.WithRandomPassword` | src/main/java/io/testcontainers/arangodb/containers/ArangoContainer.java:88-90 | Sets the random-password switch to `"1"` without checking for conflicts and keeps the password. Adds the random-password mode and leaves every other variable as it was. |
| `AuthLate.Configure` | src/main/java/io/testcontainers/arangodb/containers/ArangoContainer.java:41-61 | The start-time check throws exactly when two or more modes are requested. With at most one it passes. |
| `AuthLate.WithoutAuthFreshPasses` | src/main/java/io/testcontainers/arangodb/containers/ArangoClusterContainer.java:123-131 | A factory container requests the no-auth mode alone, and the start-time check accepts it. |
| `AuthLate.Apply` | src/main/java/io/testcontainers/arangodb/containers/ArangoContainer.java:69-90 | Every setter adds its own mode and refuses nothing. |
| `AuthLate.RunModes` | src/main/java/io/testcontainers/arangodb/containers/ArangoContainer.java:69-90 | After a chain of setters, the requested modes are those requested before plus every mode the chain asked for. |
| `AuthLate.ConfigureRejectsMixedCalls` | src/main/java/io/testcontainers/arangodb/containers/ArangoContainer.java:41-58 | After any chain of setter calls on a new container, starting it fails exactly when the chain asked for two different modes. |
| `AuthLate.PasswordIsLastGiven` | src/main/java/io/testcontainers/arangodb/containers/ArangoContainer.java:92-94 | `getPassword()` is the value of the last `withPassword` in the chain, or `null` when there was none. |
| `AuthLate.GetPassword` | src/main/java/io/testcontainers/arangodb/containers/ArangoContainer.java:92-94 | `getPassword()` returns the remembered password, and `null` (`None`) when none was remembered. |
| `AuthEager.New` | src/main/java/io/testcontainer/arangodb/ArangoDBContainer.java:30-39 | A new container requests no mode, remembers no password (`null`) and will bind port 8529. |
| `AuthEager.WithPassword` | src/main/java/io/testcontainer/arangodb/ArangoDBContainer.java:54-61 | Throws exactly when no-auth or random-password is requested, and a refused call changes nothing. Otherwise it sets the root password to `p`, remembers `p`, keeps the port, and leaves every other variable as it was. A repeated call simply overwrites, and the root password is then the only mode. |
| `AuthEager.WithoutAuthentication` | src/main/java/io/testcontainer/arangodb/ArangoDBContainer.java:68-74 | Throws exactly when a password mode is requested, and a refused call changes nothing. Otherwise it sets the no-auth switch to `"1"`, which is then the only mode, and leaves every other variable as it was. |
| `AuthEager.WithRandomPassword` | src/main/java/io/testcontainer/arangodb/ArangoDBContainer.java:81-87 | Throws exactly when the root password or no-auth is requested, and a refused call changes nothing. Otherwise it sets the random-password switch, which is then the only mode, and leaves every other variable as it was. |
| `AuthEager.ApplyKeepsOneMode` | src/main/java/io/testcontainer/arangodb/ArangoDBContainer.java:54-87 | Every setter keeps "at most one mode requested". It throws exactly when its mode would mix with another; otherwise it adds its mode. |
| `AuthEager.RunKeepsOneMode` | src/main/java/io/testcontainer/arangodb/ArangoDBContainer.java:54-87 | A chain of setters keeps at most one mode. It ends in an exception exactly when the modes it asks for, together with those already requested, mix. |
| `AuthEager.EagerAndLateRejectAlike` | src/main/java/io/testcontainer/arangodb/ArangoDBContainer.java:54-87 | The eager class throws during a chain of setters exactly when the older class, given the same chain, fails at start. |
| `AuthEager.ReachableStatesConfigure` | src/main/java/io/testcontainer/arangodb/ArangoDBContainer.java:54-87 | Every environment the eager class can reach passes the older class's start-time check. |
| `AuthEager.GetPort` | src/main/java/io/testcontainer/arangodb/ArangoDBContainer.java:93-95 | As written, `getPort()` is always 8529. |
| `AuthEager.SetPort` | src/main/java/io/testcontainer/arangodb/ArangoDBContainer.java:97-100 | `setPort(port)` makes `port` the host port and leaves the environment and the password as they were. |
| `AuthEager.Bind` | src/main/java/io/testcontainer/arangodb/ArangoDBContainer.java:42-43 | `configure()` forwards the chosen host port to the database port 8529 in the container. |
| `AuthEager.GetBoundPort` | src/main/java/io/testcontainer/arangodb/ArangoDBContainer.java:42-43 | The corrected `getPort()` reports the host port that `configure()` binds. |
| `AuthEager.GetPassword` | src/main/java/io/testcontainer/arangodb/ArangoDBContainer.java:89-91 | `getPassword()` returns the remembered password, or `null` (`None`) when there is none; `AuthEager.PasswordIsLastAccepted` says which password that is. |
| `AuthEager.PasswordIsLastAccepted` | src/main/java/io/testcontainer/arangodb/ArangoDBContainer.java:54-61 | After a chain of setter calls on a new container, `getPassword()` is the argument of the last `withPassword` the container accepted before the first refused call, and `null` when it accepted none. When no call is refused, that is the last `withPassword` of the whole chain. |
| `AuthEager.GetPortIgnoresSetPort` | src/main/java/io/testcontainer/arangodb/ArangoDBContainer.java:93-100 | After `setPort(port)` with any port other than 8529, the as-written getter reports a port other than the one `configure()` binds. For example, it reports 8529 after `setPort(8233)`. |
| `AuthEager.BoundPortFollowsSetPort` | src/main/java/io/testcontainer/arangodb/ArangoDBContainer.java:41-43 | The port the container binds is the one last given to `setPort`, or 8529 before any call. `setPort` touches neither the environment nor the password. |
| `ClusterNodes.AliasOf` | src/main/java/io/testcontainers/arangodb/cluster/ArangoClusterContainer.java:36-40 | The leader's alias is the bare `agentLeader`. Every other alias is its type's stem followed by the number, and is a plain token. |
| `ClusterNodes.AliasOfInjective` | src/main/java/io/testcontainers/arangodb/cluster/ArangoClusterContainer.java:36-40 | Numbered aliases are equal exactly when the types and the numbers are equal. |
| `ClusterNodes.Endpoint` | src/main/java/io/testcontainers/arangodb/cluster/ArangoClusterContainer.java:134-136 | The endpoint starts with `tcp://` and depends on the alias alone, never on the node's published port. For a space-free alias it is a single plain argument. |
| `ClusterNodes.ServerEndpoint` | src/main/java/io/testcontainers/arangodb/cluster/ArangoClusterContainer.java:130 | The listen address is a single plain argument. |
| `ClusterNodes.CommonCommand` | src/main/java/io/testcontainers/arangodb/cluster/ArangoClusterContainer.java:126-132 | Every node's command starts with the same four space-free arguments, the first being `arangod`. |
| `ClusterNodes.BuildNode` | src/main/java/io/testcontainers/arangodb/cluster/ArangoClusterContainer.java:138-155 | Fails ("No Args") exactly when the argument list is empty. Otherwise it keeps the type, alias, endpoint and (space-free) arguments. The port is fixed exactly when `expose` is set, and otherwise the default container port is exposed. There are no dependencies. |
| `ClusterNodes.BuildNodeRunsWithoutAuth` | src/main/java/io/testcontainers/arangodb/cluster/ArangoClusterContainer.java:148 | Every factory node requests exactly the mode `withoutAuth()` requests, which the start-time check accepts. |
| `ClusterNodes.AgentArgs` | src/main/java/io/testcontainers/arangodb/cluster/ArangoClusterContainer.java:82-86 | An agent command is the common command followed by exactly `--agency.my-address <endpoint of alias>`, `--agency.activate true`, `--agency.size <totalAgentNodes>` and `--agency.supervision true`: twelve arguments. For a plain alias it mentions neither agency-endpoint flag. |
| `ClusterNodes.Agent` | src/main/java/io/testcontainers/arangodb/cluster/ArangoClusterContainer.java:79-94 | The type is the leader type exactly when `leader` is set. Alias and endpoint come from the alias, the command is the agent command, the port is fixed only when exposed, and there are no dependencies. |
| `ClusterNodes.ClusterArgs` | src/main/java/io/testcontainers/arangodb/cluster/ArangoClusterContainer.java:96-101 | A server command is the common command followed by exactly `--cluster.my-local-info <alias>`, `--cluster.my-role <role>` and `--cluster.my-address <endpoint of alias>`: ten arguments. For a plain alias and role it mentions neither agency-endpoint flag. |
| `ClusterNodes.DbServer` | src/main/java/io/testcontainers/arangodb/cluster/ArangoClusterContainer.java:96-109 | A data server with role `DBSERVER` in its command. It is published on a fixed port only when exposed. |
| `ClusterNodes.Coordinator` | src/main/java/io/testcontainers/arangodb/cluster/ArangoClusterContainer.java:111-124 | A coordinator with role `COORDINATOR` in its command. It is always published on its fixed port. |
| `ClusterNodes.WithAgentEndpoints` | src/main/java/io/testcontainers/arangodb/cluster/ArangoClusterContainer.java:56-69 | Keeps the existing arguments and appends one flag/endpoint pair per endpoint, in order. The flag is the agency flag for agents and the cluster flag otherwise, and read back it yields exactly the endpoints. Nothing else about the node changes. |
| `ClusterBuilder.Builder` | src/main/java/io/testcontainers/arangodb/cluster/ArangoClusterBuilder.java:30-40 | A fresh builder uses counts 3/2/2 and base ports 8500/8515/8529, and exposes neither agencies nor data servers. |
| `ClusterBuilder.AgencyNode` | src/main/java/io/testcontainers/arangodb/cluster/ArangoClusterBuilder.java:151-165 | Agency `i` is the leader exactly when `i == 0`, and its alias is `agent<i>`. Its port is the wrapped `agencyPortFrom + i`, fixed only when exposed. It depends on nothing when it leads, and otherwise on the leader alone. |
| `ClusterBuilder.AgencyNodeCommand` | src/main/java/io/testcontainers/arangodb/cluster/ArangoClusterBuilder.java:154-162 | Every agency's command is the agent command followed by one agency endpoint, the leader's, and read back that endpoint is its only one. |
| `ClusterBuilder.Agencies` | src/main/java/io/testcontainers/arangodb/cluster/ArangoClusterBuilder.java:151-166 | The agency loop makes exactly `agencyNodes` agencies, agency `i` at position `i`. |
| `ClusterBuilder.DatabaseNode` | src/main/java/io/testcontainers/arangodb/cluster/ArangoClusterBuilder.java:176-182 | Data server `i` has alias `dbserver<i>` and port `dbserverPortFrom + i`, fixed only when exposed. It depends on every agency. |
| `ClusterBuilder.DatabaseNodeCommand` | src/main/java/io/testcontainers/arangodb/cluster/ArangoClusterBuilder.java:168-180 | A data server's command lists every agency endpoint, in agency construction order. |
| `ClusterBuilder.Databases` | src/main/java/io/testcontainers/arangodb/cluster/ArangoClusterBuilder.java:176-183 | The data-server loop makes exactly `databaseNodes` servers, in order. |
| `ClusterBuilder.CoordinatorNode` | src/main/java/io/testcontainers/arangodb/cluster/ArangoClusterBuilder.java:189-195 | Coordinator `i` has alias `coordinator<i>` and is always on fixed port `coordinatorPortFrom + i`. It depends on every data server and on no agency. |
| `ClusterBuilder.CoordinatorNodeCommand` | src/main/java/io/testcontainers/arangodb/cluster/ArangoClusterBuilder.java:189-193 | A coordinator's command lists the same agency endpoints as a data server, in agency order. |
| `ClusterBuilder.Coordinators` | src/main/java/io/testcontainers/arangodb/cluster/ArangoClusterBuilder.java:189-196 | The coordinator loop makes exactly `coordinatorNodes` coordinators, in order. |
| `ClusterBuilder.Assemble` | src/main/java/io/testcontainers/arangodb/cluster/ArangoClusterBuilder.java:198-200 | The concatenation before sorting has the sum of the three counts as its length. |
| `ClusterBuilder.Build` | src/main/java/io/testcontainers/arangodb/cluster/ArangoClusterBuilder.java:137-202 | Throws exactly for an agency count that is not positive and odd, a blank version, or a negative data-server or coordinator count. The odd-count check is made first, then the version check. On success it returns the sum of the counts in nodes, sorted by type. |
| `ClusterBuilder.AssembleSlices` | src/main/java/io/testcontainers/arangodb/cluster/ArangoClusterBuilder.java:198-199 | The concatenation cuts back into the agencies and the data servers. |
| `ClusterBuilder.AssembleIndex` | src/main/java/io/testcontainers/arangodb/cluster/ArangoClusterBuilder.java:198-199 | Position `i` of the concatenation is the node that construction places at `i`. |
| `ClusterBuilder.AssembleSorted` | src/main/java/io/testcontainers/arangodb/cluster/ArangoClusterBuilder.java:198-201 | Construction order is already type order. |
| `ClusterBuilder.BuildKeepsConstructionOrder` | src/main/java/io/testcontainers/arangodb/cluster/ArangoClusterBuilder.java:198-202 | Because the sort is stable and the input is already in type order, the built list is exactly the construction order. |
| `ClusterBuilder.NodeAtRole` | src/main/java/io/testcontainers/arangodb/cluster/ArangoClusterBuilder.java:151-196 | Position `i` holds the leader at 0, followers up to the agency count, then data servers, then coordinators. |
| `ClusterBuilder.AssembleRoles` | src/main/java/io/testcontainers/arangodb/cluster/ArangoClusterBuilder.java:151-199 | The concatenation's types follow that layout. |
| `ClusterBuilder.BuildRoles` | src/main/java/io/testcontainers/arangodb/cluster/ArangoClusterBuilder.java:198-202 | The built list reads leader, followers, data servers, coordinators, so agency 0 is the only leader. |
| `ClusterBuilder.AssembleAgencyEndpoints` | src/main/java/io/testcontainers/arangodb/cluster/ArangoClusterBuilder.java:154-162 | In the concatenation, every agency's only agency endpoint is the first node's endpoint. |
| `ClusterBuilder.BuildAgencyEndpoints` | src/main/java/io/testcontainers/arangodb/cluster/ArangoClusterBuilder.java:154-162 | In the built list, the leader lists its own endpoint and every follower lists the leader's, and nothing else. |
| `ClusterBuilder.AssembleServerEndpoints` | src/main/java/io/testcontainers/arangodb/cluster/ArangoClusterBuilder.java:168-193 | In the concatenation, every server lists the endpoints of the agency slice, in order. |
| `ClusterBuilder.BuildServerEndpoints` | src/main/java/io/testcontainers/arangodb/cluster/ArangoClusterBuilder.java:168-193 | In the built list, every data server and coordinator lists all agency endpoints, in agency order. |
| `ClusterBuilder.NodeAtDependencies` | src/main/java/io/testcontainers/arangodb/cluster/ArangoClusterBuilder.java:159-194 | The node at `i` depends on nothing if it leads. Otherwise it depends on the leader if it is an agency, on every agency if it is a data server, and on every data server if it is a coordinator. |
| `ClusterBuilder.AssembleLayered` | src/main/java/io/testcontainers/arangodb/cluster/ArangoClusterBuilder.java:159-194 | The concatenation's dependencies are layered by type. |
| `ClusterBuilder.BuildDependencies` | src/main/java/io/testcontainers/arangodb/cluster/ArangoClusterBuilder.java:159-194 | The built list's dependencies are layered by type: followers on the leader, data servers on all agencies, coordinators on all data servers. |
| `ClusterBuilder.NodeAtAddress` | src/main/java/io/testcontainers/arangodb/cluster/ArangoClusterBuilder.java:152-153 | The node at `i` carries its type's alias numbered within its type, and the publication of `rolePortFrom + i`. |
| `ClusterBuilder.AssembleAddresses` | src/main/java/io/testcontainers/arangodb/cluster/ArangoClusterBuilder.java:152-191 | Every node of the concatenation carries that alias, port and endpoint. |
| `ClusterBuilder.BuildAddresses` | src/main/java/io/testcontainers/arangodb/cluster/ArangoClusterBuilder.java:152-191 | Every node of the built list carries that alias, port and endpoint. |
| `ClusterBuilder.AliasAtInjective` | src/main/java/io/testcontainers/arangodb/cluster/ArangoClusterBuilder.java:152-190 | Different positions get different aliases. |
| `ClusterBuilder.BuildUniqueAliases` | src/main/java/io/testcontainers/arangodb/cluster/ArangoClusterBuilder.java:152-190 | No two nodes of a built cluster share an alias. |
| `ClusterBuilder.BuildDependenciesPrecede` | src/main/java/io/testcontainers/arangodb/cluster/ArangoClusterBuilder.java:159-202 | Every prerequisite of a built node appears before it, so the built list is a valid start order. |
| `ClusterView.OfRoles` | src/main/java/io/testcontainers/arangodb/cluster/ArangoCluster.java:22-24 | Filtering by type keeps only nodes of the given types and never grows the list. |
| `ClusterView.OfRolesAppend` | src/main/java/io/testcontainers/arangodb/cluster/ArangoCluster.java:22-32 | Filtering preserves order: filtering a concatenation filters each part. |
| `ClusterView.View` | src/main/java/io/testcontainers/arangodb/cluster/ArangoCluster.java:21-33 | The coordinator list holds only coordinators, the agent list only leaders and agents, and the data-server list only data servers. |
| `ClusterView.ViewPartitions` | src/main/java/io/testcontainers/arangodb/cluster/ArangoCluster.java:21-33 | Every input node lands in exactly one of the three lists: together they are the input as a multiset. |
| `ClusterView.GetNodesPermutes` | src/main/java/io/testcontainers/arangodb/cluster/ArangoCluster.java:35-39 | `getNodes()` has the input's length and is a permutation of the input. |
| `ClusterView.GetNodes` | src/main/java/io/testcontainers/arangodb/cluster/ArangoCluster.java:35-39 | `getNodes()` lists every agent, then every coordinator, then every data server, each group in its own order. |
| `ClusterView.GetCoordinator` | src/main/java/io/testcontainers/arangodb/cluster/ArangoCluster.java:45-47 | `getCoordinator(i)` succeeds exactly for `0 <= i <` the coordinator count and returns coordinator `i`. Otherwise it fails with the index error naming `i` and the count. |
| `ClusterView.GetAgent` | src/main/java/io/testcontainers/arangodb/cluster/ArangoCluster.java:64-66 | `getAgent(i)` succeeds exactly for `0 <= i <` the agent count and returns agent `i`. Otherwise it fails with the index error naming `i` and the count. |
| `ClusterView.GetDatabase` | src/main/java/io/testcontainers/arangodb/cluster/ArangoCluster.java:72-74 | `getDatabase(i)` succeeds exactly for `0 <= i <` the data-server count and returns data server `i`. Otherwise it fails with the index error naming `i` and the count. |
| `ClusterView.FirstLeader` | src/main/java/io/testcontainers/arangodb/cluster/ArangoCluster.java:50-52 | The first position holding a leader, found exactly when one exists. |
| `ClusterView.GetAgentLeader` | src/main/java/io/testcontainers/arangodb/cluster/ArangoCluster.java:49-54 | Throws exactly when no agent is a leader. Otherwise it returns the first leader among the agents. |
| `ClusterView.GetAgentLeaderPort` | src/main/java/io/testcontainers/arangodb/cluster/ArangoCluster.java:56-58 | Fails exactly when `getAgentLeader()` fails. Otherwise it is the leader's reported port. |
| `ClusterView.Ports` | src/main/java/io/testcontainers/arangodb/cluster/ArangoCluster.java:76-80 | One reported port per node, in list order. |
| `ClusterView.GetCoordinatorPorts` | src/main/java/io/testcontainers/arangodb/cluster/ArangoCluster.java:76-80 | One reported port per coordinator, in view order. |
| `ClusterView.GetAgentPortsAsWritten` | src/main/java/io/testcontainers/arangodb/cluster/ArangoCluster.java:82-86 | As written, `getAgentPorts()` returns exactly the coordinators' ports. |
| `ClusterView.GetDatabasePortsAsWritten` | src/main/java/io/testcontainers/arangodb/cluster/ArangoCluster.java:88-92 | As written, `getDatabasePorts()` returns exactly the coordinators' ports too. |
| `ClusterView.GetAgentPorts` | src/main/java/io/testcontainers/arangodb/cluster/ArangoCluster.java:82-86 | As corrected, `getAgentPorts()` gives one reported port per agent, in view order. |
| `ClusterView.GetDatabasePorts` | src/main/java/io/testcontainers/arangodb/cluster/ArangoCluster.java:88-92 | As corrected, `getDatabasePorts()` gives one reported port per data server, in view order. |
| `ClusterView.PortsFollowTheirType` | src/main/java/io/testcontainers/arangodb/cluster/ArangoCluster.java:76-92 | The corrected agent and data-server port getters report one port per node of their own type, matching `getAgent(i)` and `getDatabase(i)`. |
| `ClusterView.PortsAsWrittenReportCoordinators` | src/main/java/io/testcontainers/arangodb/cluster/ArangoCluster.java:82-92 | For one agent and no coordinator, the as-written `getAgentPorts()` and `getDatabasePorts()` are empty while the agent has a port. |
| `ClusterDefault.Make` | src/main/java/io/testcontainers/arangodb/cluster/ArangoClusterDefault.java:77-84 | The constructor fails with an index error exactly when the list has fewer than three nodes (index 1 below two nodes, else 2). Otherwise it yields a permutation of the input with positions from 3 on unchanged. |
| `ClusterDefault.LeaderMovesToFront` | src/main/java/io/testcontainers/arangodb/cluster/ArangoClusterDefault.java:80-83 | With exactly one leader among the first three positions, the leader ends at position 0 and positions 1 and 2 hold no leader. |
| `ClusterDefault.GetContainers` | src/main/java/io/testcontainers/arangodb/cluster/ArangoClusterDefault.java:86-88 | `getContainers()` returns a copy: the same nodes in the same order. |
| `ClusterDefault.GetAgentLeader` | src/main/java/io/testcontainers/arangodb/cluster/ArangoClusterDefault.java:90-92 | `getAgentLeader()` succeeds exactly on a non-empty list and returns position 0. Otherwise it fails with the index error for 0. |
| `ClusterDefault.GetAgent1` | src/main/java/io/testcontainers/arangodb/cluster/ArangoClusterDefault.java:94-96 | `getAgent1()` is `getAgentLeader()`. |
| `ClusterDefault.GetAgent2` | src/main/java/io/testcontainers/arangodb/cluster/ArangoClusterDefault.java:98-100 | `getAgent2()` succeeds exactly when there are two or more nodes and returns position 1. Otherwise it fails with the index error for 1. |
| `ClusterDefault.GetAgent3` | src/main/java/io/testcontainers/arangodb/cluster/ArangoClusterDefault.java:102-104 | `getAgent3()` succeeds exactly when there are three or more nodes and returns position 2. Otherwise it fails with the index error for 2. |
| `ClusterDefault.GetDatabase1` | src/main/java/io/testcontainers/arangodb/cluster/ArangoClusterDefault.java:106-108 | `getDatabase1()` succeeds exactly when there are four or more nodes and returns position 3. Otherwise it fails with the index error for 3. |
| `ClusterDefault.GetDatabase2` | src/main/java/io/testcontainers/arangodb/cluster/ArangoClusterDefault.java:110-112 | `getDatabase2()` succeeds exactly when there are five or more nodes and returns position 4. Otherwise it fails with the index error for 4. |
| `ClusterDefault.GetCoordinator1` | src/main/java/io/testcontainers/arangodb/cluster/ArangoClusterDefault.java:114-116 | `getCoordinator1()` succeeds exactly when there are six or more nodes and returns position 5. Otherwise it fails with the index error for 5. |
| `ClusterDefault.GetCoordinator2` | src/main/java/io/testcontainers/arangodb/cluster/ArangoClusterDefault.java:118-120 | `getCoordinator2()` succeeds exactly when there are seven or more nodes and returns position 6. Otherwise it fails with the index error for 6. |
| `LegacyDefault.MoveLeader` | src/main/java/io/testcontainers/arangodb/containers/ArangoClusterDefault.java:43-46 | The two guarded swaps succeed exactly for three or more nodes, or for two nodes with no leader. They fail with the index error Java reports and otherwise permute, leaving positions from 3 on alone. |
| `LegacyDefault.Make` | src/main/java/io/testcontainers/arangodb/containers/ArangoClusterDefault.java:38-47 | Sort, then swap. It succeeds exactly for three or more nodes, or two nodes with no leader, and otherwise reports the failing index. The result is a permutation of the input. |
| `LegacyDefault.LeaderSortsFirst` | src/main/java/io/testcontainers/arangodb/containers/ArangoClusterDefault.java:39-41 | After sorting, the first node is a leader exactly when the input holds one. |
| `LegacyDefault.SortedPair` | src/main/java/io/testcontainers/arangodb/containers/ArangoClusterDefault.java:39-46 | Sorting keeps a list's elements. A sorted pair holds a leader exactly when the input pair does. |
| `LegacyDefault.LeaderMovesToSlot2` | src/main/java/io/testcontainers/arangodb/containers/ArangoClusterDefault.java:43-46 | With one leader among the first three sorted positions, it ends at position 2 (`getAgency3()`). Positions 0 and 1 hold no leader, and positions from 3 on keep their sorted order. |
| `LegacyDefault.GetContainers` | src/main/java/io/testcontainers/arangodb/containers/ArangoClusterDefault.java:49-51 | `getContainers()` returns a copy: the same nodes in the same order. |
| `LegacyDefault.GetAgency1` | src/main/java/io/testcontainers/arangodb/containers/ArangoClusterDefault.java:53-55 | `getAgency1()` succeeds exactly on a non-empty list and returns position 0. Otherwise it fails with the index error for 0. |
| `LegacyDefault.GetAgency2` | src/main/java/io/testcontainers/arangodb/containers/ArangoClusterDefault.java:57-59 | `getAgency2()` succeeds exactly when there are two or more nodes and returns position 1. Otherwise it fails with the index error for 1. |
| `LegacyDefault.GetAgency3` | src/main/java/io/testcontainers/arangodb/containers/ArangoClusterDefault.java:61-63 | `getAgency3()` succeeds exactly when there are three or more nodes and returns position 2, where the constructor moves the leader. Otherwise it fails with the index error for 2. |
| `LegacyDefault.GetDatabase1` | src/main/java/io/testcontainers/arangodb/containers/ArangoClusterDefault.java:65-67 | `getDatabase1()` succeeds exactly when there are four or more nodes and returns position 3. Otherwise it fails with the index error for 3. |
| `LegacyDefault.GetDatabase2` | src/main/java/io/testcontainers/arangodb/containers/ArangoClusterDefault.java:69-71 | `getDatabase2()` succeeds exactly when there are five or more nodes and returns position 4. Otherwise it fails with the index error for 4. |
| `LegacyDefault.GetCoordinator1` | src/main/java/io/testcontainers/arangodb/containers/ArangoClusterDefault.java:73-75 | `getCoordinator1()` succeeds exactly when there are six or more nodes and returns position 5. Otherwise it fails with the index error for 5. |
| `LegacyDefault.GetCoordinator2` | src/main/java/io/testcontainers/arangodb/containers/ArangoClusterDefault.java:77-79 | `getCoordinator2()` succeeds exactly when there are seven or more nodes and returns position 6. Otherwise it fails with the index error for 6. |
| `LegacyNodes.AliasOfPlain` | src/main/java/io/testcontainers/arangodb/containers/ArangoClusterContainer.java:30-32 | `getAlias(n)` is its type's stem followed by the printed number, with no leader special case, and is a plain token. |
| `LegacyNodes.AliasOfInjective` | src/main/java/io/testcontainers/arangodb/containers/ArangoClusterContainer.java:30-32 | Aliases are equal exactly when the types and the numbers are equal. |
| `LegacyNodes.NodeAddressPlain` | src/main/java/io/testcontainers/arangodb/containers/ArangoClusterContainer.java:70 | A node address starts with `tcp://` and is one plain argument. |
| `LegacyNodes.NodeAddressParts` | src/main/java/io/testcontainers/arangodb/containers/ArangoClusterContainer.java:70 | `nodeAddress` reads back as the scheme `tcp://`, the alias, a colon and the printed port, in that order. |
| `LegacyNodes.EndpointIsDefaultPortAddress` | src/main/java/io/testcontainers/arangodb/cluster/ArangoClusterContainer.java:134-136 | The newer revision's endpoint is the older revision's address at the default port. The older one carries the node's own port. |
| `LegacyNodes.TemplateLayout` | src/main/java/io/testcontainers/arangodb/containers/ArangoClusterContainer.java:68-114 | Both commands start with `arangod --server.authentication=false --server.endpoint <listen address> --cluster.my-address <node address>`. The agency command then reads exactly `--agency.activate true --agency.size 3 --agency.supervision true --database.directory <alias>`: agency size is always `3`, whatever the cluster size. The server command then reads exactly `--cluster.my-local-info <alias> --cluster.my-role <role> --database.directory <alias>`. |
| `LegacyNodes.TemplatesPlain` | src/main/java/io/testcontainers/arangodb/containers/ArangoClusterContainer.java:68-114 | For a plain alias and role, every argument of both templates is a plain token. |
| `LegacyNodes.AddAgencies` | src/main/java/io/testcontainers/arangodb/containers/ArangoClusterContainer.java:46-58 | Keeps the existing arguments and appends two arguments per endpoint. Nothing else about the node changes. |
| `LegacyNodes.AddAgenciesEndpoints` | src/main/java/io/testcontainers/arangodb/containers/ArangoClusterContainer.java:46-58 | Read back under the cluster flag (when `isCluster`) or the agency flag, the extended command lists exactly the endpoints. |
| `LegacyNodes.AddAgenciesTokenized` | src/main/java/io/testcontainers/arangodb/containers/ArangoClusterContainer.java:51-57 | Joining the parts with the pairs and splitting again gives the modelled extended command. |
| `LegacyNodes.BuildNode` | src/main/java/io/testcontainers/arangodb/containers/ArangoClusterContainer.java:123-131 | A factory node exposes its own port. Its endpoint is the address at that port, and it has no dependencies. |
| `LegacyNodes.BuildNodeTokenized` | src/main/java/io/testcontainers/arangodb/containers/ArangoClusterContainer.java:123-130 | The library's split of the joined template gives back the modelled arguments. |
| `LegacyNodes.BuildNodeRunsWithoutAuth` | src/main/java/io/testcontainers/arangodb/containers/ArangoClusterContainer.java:125 | Every node requests exactly the mode `withoutAuth()` requests, which the start-time check accepts. |
| `LegacyNodes.AgencyNode` | src/main/java/io/testcontainers/arangodb/containers/ArangoClusterContainer.java:68-85 | An agency at its own port and address, with no dependencies. |
| `LegacyNodes.DatabaseNode` | src/main/java/io/testcontainers/arangodb/containers/ArangoClusterContainer.java:87-103 | A data server at its own port and address, with no dependencies. |
| `LegacyNodes.CoordinatorNode` | src/main/java/io/testcontainers/arangodb/containers/ArangoClusterContainer.java:105-121 | A coordinator at its own port and address, with no dependencies. |
| `LegacyNodes.FactoryEndpoints` | src/main/java/io/testcontainers/arangodb/containers/ArangoClusterContainer.java:68-121 | An agency's command lists exactly the given endpoints under the agency flag. A data server's and a coordinator's list them under the cluster flag. |
| `LegacyNodes.DoubleRoundTrip` | src/main/java/io/testcontainers/arangodb/containers/ArangoClusterContainer.java:51-57 | Split, append pairs, join and split again keeps every argument. |
| `LegacyNodes.FactoryTokenized` | src/main/java/io/testcontainers/arangodb/containers/ArangoClusterContainer.java:80-81 | For each factory, the string the container library finally receives splits into the modelled command. |
| `LegacyBuilder.Builder` | src/main/java/io/testcontainers/arangodb/containers/ArangoClusterImpBuilder.java:23-31 | A fresh builder uses counts 3/2/2, base ports 8500/8515/8530 and the given version. |
| `LegacyBuilder.AgencyNode` | src/main/java/io/testcontainers/arangodb/containers/ArangoClusterImpBuilder.java:92-104 | Agency `i` is the leader exactly when `i == 0`, and its alias is `agency<i>`. Its address is at its own wrapped port `agencyPortFrom + i`, which it exposes. |
| `LegacyBuilder.AgencyNodeCommand` | src/main/java/io/testcontainers/arangodb/containers/ArangoClusterImpBuilder.java:95-102 | Every agency's command is the agency template followed by one agency endpoint, the leader's address. |
| `LegacyBuilder.FollowLeader` | src/main/java/io/testcontainers/arangodb/containers/ArangoClusterImpBuilder.java:114-116 | Every agency that is not a leader gains a dependency on the leader, and leaders are left alone. |
| `LegacyBuilder.DatabaseNode` | src/main/java/io/testcontainers/arangodb/containers/ArangoClusterImpBuilder.java:126-132 | Data server `i` has alias `database<i>`: `DBSERVER.getAlias(i)` is read as the older enum's `DATABASE` stem, an assumed reading. It has its own port `databasePortFrom + i` and a dependency on every agency. |
| `LegacyBuilder.CoordinatorNode` | src/main/java/io/testcontainers/arangodb/containers/ArangoClusterImpBuilder.java:139-145 | Coordinator `i` has alias `coordinator<i>`, its own port `coordinatorPortFrom + i`, and a dependency on every data server. |
| `LegacyBuilder.Build` | src/main/java/io/testcontainers/arangodb/containers/ArangoClusterImpBuilder.java:78-151 | Throws exactly for an agency count that is not positive and odd, a blank version, or a negative capacity, with the odd-count check first. The leader lookup never throws. A successful build has the sum of the counts in nodes. |
| `LegacyBuilder.FollowedAgency` | src/main/java/io/testcontainers/arangodb/containers/ArangoClusterImpBuilder.java:92-116 | After the lookup, agency `i` keeps its command, address and port. It depends on nothing when it leads, and otherwise on agency 0. |
| `LegacyBuilder.Agencies` | src/main/java/io/testcontainers/arangodb/containers/ArangoClusterImpBuilder.java:108-116 | The wired agencies number exactly `agencyNodes`. |
| `LegacyBuilder.FollowLeaderAt` | src/main/java/io/testcontainers/arangodb/containers/ArangoClusterImpBuilder.java:114-116 | The dependency loop turns created agency `i` into the wired agency `i`. |
| `LegacyBuilder.FollowLeaderAgencies` | src/main/java/io/testcontainers/arangodb/containers/ArangoClusterImpBuilder.java:108-116 | The leader lookup finds agency 0, and the loop then yields exactly the wired agencies. |
| `LegacyBuilder.AgencyEndpoints` | src/main/java/io/testcontainers/arangodb/containers/ArangoClusterImpBuilder.java:118-120 | One address per agency. |
| `LegacyBuilder.AgenciesEndpoints` | src/main/java/io/testcontainers/arangodb/containers/ArangoClusterImpBuilder.java:118-120 | The addresses collected from the wired agencies are the agency addresses, in agency order. |
| `LegacyBuilder.Assemble` | src/main/java/io/testcontainers/arangodb/containers/ArangoClusterImpBuilder.java:148-151 | The positional description of a cluster has the sum of the counts in nodes. |
| `LegacyBuilder.BuildConcatenates` | src/main/java/io/testcontainers/arangodb/containers/ArangoClusterImpBuilder.java:148-151 | A successful build is the wired agencies, then the data servers, then the coordinators, with no reordering. |
| `LegacyBuilder.BuildIsAssembled` | src/main/java/io/testcontainers/arangodb/containers/ArangoClusterImpBuilder.java:148-151 | A successful build is the positional description, node for node. |
| `LegacyBuilder.BuildRoles` | src/main/java/io/testcontainers/arangodb/containers/ArangoClusterImpBuilder.java:92-145 | The built list reads leader, other agencies, data servers, coordinators, so agency 0 is the only leader. |
| `LegacyBuilder.BuildSortedByType` | src/main/java/io/testcontainers/arangodb/containers/ArangoClusterImpBuilder.java:148-151 | Although this builder does not sort, its output is already in type order. |
| `LegacyBuilder.BuildAddresses` | src/main/java/io/testcontainers/arangodb/containers/ArangoClusterImpBuilder.java:92-145 | Node `i` carries its type's alias numbered within its type. It is exposed on `rolePortFrom + i` (wrapped) and has its address at that port. |
| `LegacyBuilder.AliasAtInjective` | src/main/java/io/testcontainers/arangodb/containers/ArangoClusterImpBuilder.java:93-140 | Different positions get different aliases. |
| `LegacyBuilder.BuildUniqueAliases` | src/main/java/io/testcontainers/arangodb/containers/ArangoClusterImpBuilder.java:93-140 | No two nodes of a built cluster share an alias. |
| `LegacyBuilder.AgencyCommandEndpoints` | src/main/java/io/testcontainers/arangodb/containers/ArangoClusterImpBuilder.java:95-102 | Every agency's command lists the leader's address as its only agency endpoint. |
| `LegacyBuilder.BuildAgencyEndpoints` | src/main/java/io/testcontainers/arangodb/containers/ArangoClusterImpBuilder.java:95-102 | In the built list, the leader lists its own address and every other agency lists the leader's, and nothing else. |
| `LegacyBuilder.ServerCommandEndpoints` | src/main/java/io/testcontainers/arangodb/containers/ArangoClusterImpBuilder.java:118-143 | Every server's command lists all agency addresses, in agency order, under the cluster flag. |
| `LegacyBuilder.BuildServerEndpoints` | src/main/java/io/testcontainers/arangodb/containers/ArangoClusterImpBuilder.java:118-143 | In the built list, every data server and coordinator lists the endpoints of all agencies, in order. |
| `LegacyBuilder.BuildDependencies` | src/main/java/io/testcontainers/arangodb/containers/ArangoClusterImpBuilder.java:113-144 | The built list's dependencies are layered by type: agencies on the leader, data servers on all agencies, coordinators on all data servers. |
| `LegacyBuilder.BuildDependenciesPrecede` | src/main/java/io/testcontainers/arangodb/containers/ArangoClusterImpBuilder.java:113-151 | Every prerequisite of a built node appears before it, so the built list is a valid start order. |
| `LegacyFixture.GetCluster` | src/main/java/io/testcontainers/arangodb/containers/ArangoClusterBuilder.java:172 | The fixed cluster has exactly seven nodes. |
| `LegacyFixture.AgencyArgsEndpoints` | src/main/java/io/testcontainers/arangodb/containers/ArangoClusterBuilder.java:28-58 | An agency command lists exactly the endpoints written into it under the agency flag and none under the cluster flag, and it survives the library's split. |
| `LegacyFixture.ServerArgsEndpoints` | src/main/java/io/testcontainers/arangodb/containers/ArangoClusterBuilder.java:88-97 | A server command lists the three agency addresses under the cluster flag and none under the agency flag, and names its role after `--cluster.my-role`. |
| `LegacyFixture.ServerArgsTokenized` | src/main/java/io/testcontainers/arangodb/containers/ArangoClusterBuilder.java:88-118 | A server command survives the library's split of the joined string. |
| `LegacyFixture.AgencyAddressesAreEndpoints` | src/main/java/io/testcontainers/arangodb/containers/ArangoClusterBuilder.java:54-56 | The agency addresses the commands list are the addresses of the first three nodes. |
| `LegacyFixture.GetClusterAliases` | src/main/java/io/testcontainers/arangodb/containers/ArangoClusterBuilder.java:172 | The nodes come as agency1, agency2, agency3, db1, db2, coordinator1, coordinator2. |
| `LegacyFixture.GetClusterSortedByType` | src/main/java/io/testcontainers/arangodb/containers/ArangoClusterBuilder.java:172 | The list is in type order: agencies, then data servers, then coordinators. |
| `LegacyFixture.GetClusterWithoutLeader` | src/main/java/io/testcontainers/arangodb/containers/ArangoClusterBuilder.java:60-67 | No node is a leader, and every node runs with the no-auth mode alone. |
| `LegacyFixture.GetClusterUniqueAliases` | src/main/java/io/testcontainers/arangodb/containers/ArangoClusterBuilder.java:20-26 | The seven aliases are pairwise different. |
| `LegacyFixture.GetClusterDependencies` | src/main/java/io/testcontainers/arangodb/containers/ArangoClusterBuilder.java:60-170 | agency1 and agency2 depend on nothing, and agency3 depends on both. The data servers depend on the three agencies, and the coordinators on the two data servers. |
| `LegacyFixture.GetClusterDependenciesPrecede` | src/main/java/io/testcontainers/arangodb/containers/ArangoClusterBuilder.java:60-172 | Every prerequisite appears before its dependent, so the dependency graph has no cycle. |
| `LegacyFixture.GetClusterAgencyEndpoints` | src/main/java/io/testcontainers/arangodb/containers/ArangoClusterBuilder.java:28-58 | Only agency3's command carries agency endpoints: all three agency addresses, in order. No agency uses the cluster flag, and every agency command survives the split. |
| `LegacyFixture.GetClusterServerEndpoints` | src/main/java/io/testcontainers/arangodb/containers/ArangoClusterBuilder.java:88-150 | Every data-server and coordinator command lists the three agency addresses, in order, under the cluster flag and survives the split. The role is `PRIMARY` for data servers and `COORDINATOR` for coordinators. |
| `Composition.GroupedAgents` | src/main/java/io/testcontainers/arangodb/cluster/ArangoCluster.java:26-28 | On a list grouped by type, the agent filter returns the agency group exactly. |
| `Composition.GroupedDatabases` | src/main/java/io/testcontainers/arangodb/cluster/ArangoCluster.java:30-32 | On a grouped list, the data-server filter returns the middle group exactly. |
| `Composition.GroupedCoordinators` | src/main/java/io/testcontainers/arangodb/cluster/ArangoCluster.java:22-24 | On a grouped list, the coordinator filter returns the last group exactly. |
| `Composition.GroupedLeader` | src/main/java/io/testcontainers/arangodb/cluster/ArangoCluster.java:49-54 | On a grouped list, `getAgentLeader()` finds the first node. |
| `Composition.BuildGrouped` | src/main/java/io/testcontainers/arangodb/cluster/ArangoClusterBuilder.java:198-202 | A successful newer build is grouped by its agency and data-server counts. |
| `Composition.BuildView` | src/main/java/io/testcontainers/arangodb/cluster/ArangoCluster.java:21-33 | `ArangoCluster` over a newer build reads back the agencies, data servers and coordinators, each in construction order. |
| `Composition.BuildViewLeader` | src/main/java/io/testcontainers/arangodb/cluster/ArangoCluster.java:49-54 | The leader `ArangoCluster` finds in a built list is the first node, `agent0`. |
| `Composition.DefaultKeepsLeaderFirst` | src/main/java/io/testcontainers/arangodb/cluster/ArangoClusterDefault.java:80-83 | With the leader first and not at positions 1 or 2, the newer default view swaps nothing, and its leader is the first node. |
| `Composition.BuildDefault` | src/main/java/io/testcontainers/arangodb/cluster/ArangoClusterDefault.java:71-84 | Over a newer build of three or more nodes, the default view keeps the list as built. Its leader is the one `ArangoCluster` finds. |
| `Composition.DefaultGettersReadTheirTypes` | src/main/java/io/testcontainers/arangodb/cluster/ArangoClusterDefault.java:78-120 | Over a seven-node list grouped 3/2/2, the constructor keeps the list and `getContainers()` is that list. `getAgentLeader()` is the leader, `getAgent2`/`3` are agents, `getDatabase1`/`2` are data servers and `getCoordinator1`/`2` are coordinators. |
| `Composition.DefaultBuildIsGrouped` | src/main/java/io/testcontainers/arangodb/cluster/ArangoClusterDefault.java:71-75 | `build(coordinatorPortFrom, version)` with a non-blank version builds seven nodes grouped as three agents led by the first, two data servers and two coordinators, whatever the coordinator port. |
| `Composition.LegacyDefaultSwapsLeader` | src/main/java/io/testcontainers/arangodb/containers/ArangoClusterDefault.java:38-47 | Over a sorted list whose only leader is first, sorting changes nothing and the leader swaps into position 2. With fewer than three nodes the swap fails at index 2. |
| `Composition.LegacyBuildDefault` | src/main/java/io/testcontainers/arangodb/containers/ArangoClusterDefault.java:32-47 | The older default view over an older build succeeds exactly when the build has three or more nodes. Then the leader, agency 0, is `getAgency3()`. |
| `Composition.LegacyDefaultGettersReadTheirTypes` | src/main/java/io/testcontainers/arangodb/containers/ArangoClusterDefault.java:38-79 | Over a seven-node list grouped 3/2/2, `getContainers()` holds the same nodes and `getAgency3()` is the leader. `getAgency1`/`2` are the other agencies, `getDatabase1`/`2` are data servers and `getCoordinator1`/`2` are coordinators. |
| `Composition.LegacyDefaultBuildIsGrouped` | src/main/java/io/testcontainers/arangodb/containers/ArangoClusterDefault.java:32-36 | `build(version)` with a non-blank version builds seven nodes grouped as three agencies led by the first, two data servers and two coordinators. |
| `Composition.LegacyDefaultWithoutLeader` | src/main/java/io/testcontainers/arangodb/containers/ArangoClusterDefault.java:38-47 | Over a sorted list of three or more nodes without a leader, the older default view keeps the list as it is. |

## Left out

- Containers at run time are not modelled: networks, image pulls, port resolution (`getMappedPort`), `withFixedPort`/`addFixedExposedPort`, start-up waits and timeouts, log consumers, and image-name compatibility checks. A node records only the values passed in: its alias, exposed or fixed port, command, dependencies and authentication mode.
- Phased or concurrent start and stop is not modelled. The library starts nodes from the `dependsOn` sets, and the model only proves those sets point backwards.
- `ClusterView.GetAgentLeaderPort`: the port a node reports comes from the runtime, so it is a function parameter. The same applies to `ClusterView.Ports` and the port getters.
- The container library's `getCommandParts()` and `withCommand(String)` are modelled as a split on single spaces (`Text.Split`). Unlike Java's `String.split(" ")`, this split keeps trailing empty parts, so the two differ only on strings that end in a space; no command built here does. Commands are kept as argument lists. `SplitJoin` and the `Tokenized` lemmas show that this agrees with joining and re-splitting for the tokens that occur.
- Argument phrases such as `"--server.endpoint " + value` are modelled as two arguments. When joined with a space they give the same string.
- A node's environment is abstracted to the set of authentication modes it requests. Factory nodes request only no-auth.
- `Nodes.Node.dependsOn` is a set of aliases: the container library keeps a set of `Startable`s, so order and repeats do not matter.
- The newer builder calls `AGENCY.getAlias`, `agency(...)` and `withAgencyEndpoints`. The newer container class declares `AGENT.getAlias`, `agent(...)` and `withAgentEndpoints` instead. These are treated as the same operations, so the leader's alias is `agent0`: the builder never reaches the bare `agentLeader` branch.
- The older builder calls `agency(alias, port, version, n, leader)`, `dbserver`, `withAgencies`, `withAgenciesCluster` and `getEndpoint`. None of these is declared in the older container class.
  - They are modelled by its `agency`, `database` and `coordinator` templates and by `addAgencies(false | true, ...)`.
  - The first agency takes the `AGENCY_LEADER` type, which the older enum does not declare.
  - `DBSERVER.getAlias(i)` is not declared in the older enum either.
  - A node's endpoint is taken to be its `nodeAddress`.
- The fixed cluster (src/main/java/io/testcontainers/arangodb/containers/ArangoClusterBuilder.java:60-170) creates every node with the no-argument `new ArangoContainer()`, although `ArangoContainer` declares only its `String` and `DockerImageName` constructors, and calls `withoutStartAwait()` and `withPort(null)`, which `ArangoContainer` does not declare either. The model reads these as making a plain container with no port override; they concern start-up only.
- The older factory's `build` (src/main/java/io/testcontainers/arangodb/containers/ArangoClusterContainer.java:123-131) creates its container with the no-argument `new ArangoClusterContainer()`, whose `super()` has no matching `ArangoContainer` constructor, and calls `turnOffStart()` and `withPort(null)`, which `ArangoContainer` does not declare either. The model reads these as making a container with no port override that is not started on its own; they concern start-up only.
- `ArangoContainer.DEFAULT_PORT` and `VERSION_DEFAULT`, used by the newer classes, are not declared in the `ArangoContainer` source. The port is taken to be `PORT`, 8529. The default version is a builder parameter.
- The newer `ArangoClusterDefault` calls `ArangoClusterBuilder.builder(version)` and `buildContainers()`, which the newer builder does not declare. The view is modelled over `build()` of a builder with that version.
- Java `null` is modelled only for `getPassword()` (`None`). A `null` version or password argument is not modelled.
- `ArangoContainer.configure()` ends by calling the library's own `configure()`. That call is not modelled.
- `AuthEager.GetHost`, `AuthEager.GetUser` and `AuthLate.GetUser`: these return constants (`"localhost"` and `"root"`) and carry no contract beyond their body.
- `LegacyBuilder.DatabaseNode`: the older builder names data servers with `DBSERVER.getAlias(i)`, but the older enum declares only `AGENCY`, `DATABASE` and `COORDINATOR`. The model assumes the `database` stem of that enum, giving `database<i>`. The newer enum's `dbserver` stem would fit equally well, and the model does not decide between them.
- `LegacyDefault.Make`: the older view sorts by the ordinal of `AGENCY_LEADER`, which the older enum does not declare. The model assumes the leader type ranks before every other type, as `AGENT_LEADER` does in the newer enum. Under that assumption a leader sorts to position 0 before the swaps.
- `LegacyFixture.GetClusterSortedByType`, `LegacyFixture.GetClusterWithoutLeader`: the fixed cluster builds plain `ArangoContainer`s, which have no node type. The types in the model are labels read off each node's alias and command, so these lemmas speak about those labels.
- `ClusterNodes.Agent`, `ClusterNodes.DbServer`, `ClusterNodes.Coordinator`: the command is stated only for aliases that are plain tokens. An alias with a space would be cut apart by the container library's split.
- `ClusterNodes.BuildNode`: the arguments are stated to survive only when they contain no space, for the same reason.
- `LegacyFixture.GetCluster`: its contract states only the length. Aliases, order, dependencies and commands are stated by the `GetCluster...` lemmas.
- `LegacyFixture.AgencyAddresses`: the fixed cluster writes its addresses as literal text, such as `tcp://agency1:5001`. The model builds them with the same `tcp://alias:port` format, so no lemma compares them with the literal strings.
- The test classes are not modelled. Only their ordering claims are: the leader comes first and types stay grouped after a build.

## Findings

| source | as written | input that shows it | evidently intended | confidence | as-written member | corrected member |
|---|---|---|---|---|---|---|
| src/main/java/io/testcontainers/arangodb/cluster/ArangoCluster.java:82-92 | `getAgentPorts()` and `getDatabasePorts()` both map `getCoordinators()` | a cluster with agents and no coordinators: both getters return an empty list | map `getAgents()` and `getDatabases()` respectively | high, not executed | `ClusterView.PortsAsWrittenReportCoordinators` | `ClusterView.PortsFollowTheirType` |
| src/main/java/io/testcontainer/arangodb/ArangoDBContainer.java:93-100 | `getPort()` returns `PORT_DEFAULT` | `setPort(8233)`: the container binds host port 8233, but `getPort()` still reports 8529 | report the host port `configure()` binds, the one set by `setPort` | medium, not executed | `AuthEager.GetPortIgnoresSetPort` | `AuthEager.BoundPortFollowsSetPort` |
