/**
 * How the builders' lists read through the views the repository puts over
 * them: `ArangoCluster` and the newer `ArangoClusterDefault` over the newer
 * builder, the older `ArangoClusterDefault` over the older builder.
 */
module Composition {
  import opened Wrappers
  import opened JavaInt
  import opened Text
  import opened Lists
  import opened Nodes
  import CB = ClusterBuilder
  import ClusterView
  import ClusterDefault
  import LB = LegacyBuilder
  import LegacyDefault

  /** A list of `a` agencies led by the first, then `d` data servers, then coordinators. */
  ghost predicate Grouped(ns: seq<Node>, a: int, d: int)
  {
    0 < a && a + d <= |ns| && 0 <= d
    && forall i :: 0 <= i < |ns| ==>
      ns[i].role == (if i < a then (if i == 0 then AgentLeader else Agent) else if i < a + d then DbServer else Coordinator)
  }

  /** Filtering three consecutive parts filters each part. */
  lemma OfRolesThree(xs: seq<Node>, ys: seq<Node>, zs: seq<Node>, roles: set<Role>)
    ensures ClusterView.OfRoles(xs + ys + zs, roles)
         == ClusterView.OfRoles(xs, roles) + ClusterView.OfRoles(ys, roles) + ClusterView.OfRoles(zs, roles)
  {
    ClusterView.OfRolesAppend(xs + ys, zs, roles);
    ClusterView.OfRolesAppend(xs, ys, roles);
  }

  /** The parts of a grouped list, which put it back together. */
  lemma GroupedParts(ns: seq<Node>, a: int, d: int, xs: seq<Node>, ys: seq<Node>, zs: seq<Node>)
    requires Grouped(ns, a, d)
    requires xs == ns[..a] && ys == ns[a..a + d] && zs == ns[a + d..]
    ensures ns == xs + ys + zs
    ensures forall i :: 0 <= i < |xs| ==> xs[i].role in ClusterView.AgentRoles
    ensures forall i :: 0 <= i < |ys| ==> ys[i].role == DbServer
    ensures forall i :: 0 <= i < |zs| ==> zs[i].role == Coordinator
  {
    assert ns == xs + ys + zs;
    forall i | 0 <= i < |ys|
      ensures ys[i].role == DbServer
    {
      assert ys[i] == ns[a + i];
    }
    forall i | 0 <= i < |zs|
      ensures zs[i].role == Coordinator
    {
      assert zs[i] == ns[a + d + i];
    }
  }

  /** Filtering a grouped list for agents gives its agencies, in list order. */
  lemma GroupedAgents(ns: seq<Node>, a: int, d: int)
    requires Grouped(ns, a, d)
    ensures ClusterView.View(ns).agents == ns[..a]
  {
    var xs, ys, zs := ns[..a], ns[a..a + d], ns[a + d..];
    GroupedParts(ns, a, d, xs, ys, zs);
    OfRolesThree(xs, ys, zs, ClusterView.AgentRoles);
    ClusterView.OfRolesAll(xs, ClusterView.AgentRoles);
    ClusterView.OfRolesNone(ys, ClusterView.AgentRoles);
    ClusterView.OfRolesNone(zs, ClusterView.AgentRoles);
  }

  /** Filtering a grouped list for data servers gives its middle group, in list order. */
  lemma GroupedDatabases(ns: seq<Node>, a: int, d: int)
    requires Grouped(ns, a, d)
    ensures ClusterView.View(ns).databases == ns[a..a + d]
  {
    var xs, ys, zs := ns[..a], ns[a..a + d], ns[a + d..];
    GroupedParts(ns, a, d, xs, ys, zs);
    OfRolesThree(xs, ys, zs, {DbServer});
    ClusterView.OfRolesNone(xs, {DbServer});
    ClusterView.OfRolesAll(ys, {DbServer});
    ClusterView.OfRolesNone(zs, {DbServer});
  }

  /** Filtering a grouped list for coordinators gives its last group, in list order. */
  lemma GroupedCoordinators(ns: seq<Node>, a: int, d: int)
    requires Grouped(ns, a, d)
    ensures ClusterView.View(ns).coordinators == ns[a + d..]
  {
    var xs, ys, zs := ns[..a], ns[a..a + d], ns[a + d..];
    GroupedParts(ns, a, d, xs, ys, zs);
    OfRolesThree(xs, ys, zs, {Coordinator});
    ClusterView.OfRolesNone(xs, {Coordinator});
    ClusterView.OfRolesNone(ys, {Coordinator});
    ClusterView.OfRolesAll(zs, {Coordinator});
  }

  /** A grouped list's view finds its first node as the leader. */
  lemma GroupedLeader(ns: seq<Node>, a: int, d: int)
    requires Grouped(ns, a, d)
    ensures ClusterView.GetAgentLeader(ClusterView.View(ns)) == Success(ns[0])
  {
    GroupedAgents(ns, a, d);
    var agents := ClusterView.View(ns).agents;
    assert agents[0] == ns[0];
  }

  /** A successful newer build is grouped by its counts. */
  lemma BuildGrouped(c: CB.Config)
    requires CB.Build(c).Success?
    ensures Grouped(CB.Build(c).value, c.agencyNodes as int, c.databaseNodes as int)
  {
    CB.BuildRoles(c);
  }

  /**
   * `new ArangoCluster(build(...))` reads back the builder's agencies, data
   * servers and coordinators, each in construction order.
   */
  lemma BuildView(c: CB.Config)
    requires CB.Build(c).Success?
    ensures var ns, a, d := CB.Build(c).value, c.agencyNodes as int, c.databaseNodes as int;
      var v := ClusterView.View(ns);
      v.agents == ns[..a] && v.databases == ns[a..a + d] && v.coordinators == ns[a + d..]
  {
    var ns := CB.Build(c).value;
    BuildGrouped(c);
    GroupedAgents(ns, c.agencyNodes as int, c.databaseNodes as int);
    GroupedDatabases(ns, c.agencyNodes as int, c.databaseNodes as int);
    GroupedCoordinators(ns, c.agencyNodes as int, c.databaseNodes as int);
  }

  /** The leader `ArangoCluster` finds in a built list is agency 0, the first node. */
  lemma BuildViewLeader(c: CB.Config)
    requires CB.Build(c).Success?
    ensures var ns := CB.Build(c).value;
      ClusterView.GetAgentLeader(ClusterView.View(ns)) == Success(ns[0]) && ns[0].alias == CB.AgencyAlias(0)
  {
    var ns := CB.Build(c).value;
    BuildGrouped(c);
    GroupedLeader(ns, c.agencyNodes as int, c.databaseNodes as int);
    CB.BuildAddresses(c);
  }

  /** On a list whose second and third nodes do not lead, the newer default view swaps nothing. */
  lemma DefaultKeepsLeaderFirst(ns: seq<Node>)
    requires |ns| >= 3 && IsLeader(ns[0]) && !IsLeader(ns[1]) && !IsLeader(ns[2])
    ensures ClusterDefault.Make(ns) == Success(ClusterDefault.Default(ns))
    ensures ClusterDefault.GetAgentLeader(ClusterDefault.Make(ns).value) == Success(ns[0])
  {
  }

  /**
   * The newer default view over a newer build of at least three nodes keeps
   * the list as built, and its leader is the one `ArangoCluster` finds.
   */
  lemma BuildDefault(c: CB.Config)
    requires CB.Build(c).Success? && |CB.Build(c).value| >= 3
    ensures var ns := CB.Build(c).value;
      ClusterDefault.Make(ns) == Success(ClusterDefault.Default(ns))
      && ClusterDefault.GetAgentLeader(ClusterDefault.Default(ns)) == Success(ns[0])
      && ClusterView.GetAgentLeader(ClusterView.View(ns)) == Success(ns[0])
  {
    var ns := CB.Build(c).value;
    BuildGrouped(c);
    GroupedLeader(ns, c.agencyNodes as int, c.databaseNodes as int);
    DefaultKeepsLeaderFirst(ns);
  }

  /**
   * The newer default view over a seven-node list grouped as three agents,
   * two data servers and two coordinators: the constructor keeps the list,
   * `getContainers()` is that list, and every fixed-position getter returns a
   * node of the type its name promises.
   */
  lemma DefaultGettersReadTheirTypes(ns: seq<Node>)
    requires |ns| == 7 && Grouped(ns, 3, 2)
    ensures ClusterDefault.Make(ns) == Success(ClusterDefault.Default(ns))
    ensures var d := ClusterDefault.Default(ns);
      ClusterDefault.GetContainers(d) == ns
      && ClusterDefault.GetAgentLeader(d) == Success(ns[0]) && ns[0].role == AgentLeader
      && ClusterDefault.GetAgent2(d) == Success(ns[1]) && ns[1].role == Agent
      && ClusterDefault.GetAgent3(d) == Success(ns[2]) && ns[2].role == Agent
      && ClusterDefault.GetDatabase1(d) == Success(ns[3]) && ns[3].role == DbServer
      && ClusterDefault.GetDatabase2(d) == Success(ns[4]) && ns[4].role == DbServer
      && ClusterDefault.GetCoordinator1(d) == Success(ns[5]) && ns[5].role == Coordinator
      && ClusterDefault.GetCoordinator2(d) == Success(ns[6]) && ns[6].role == Coordinator
  {
    assert ns[0].role == AgentLeader && ns[1].role == Agent && ns[2].role == Agent;
    DefaultKeepsLeaderFirst(ns);
  }

  /**
   * `ArangoClusterDefault.build(coordinatorPortFrom, version)`: a fresh newer
   * builder with any coordinator base port and a non-blank version builds
   * seven nodes grouped 3/2/2.
   */
  lemma DefaultBuildIsGrouped(coordinatorPortFrom: Int32, version: string)
    requires !IsBlank(version)
    ensures CB.Build(CB.Builder(version).(coordinatorPortFrom := coordinatorPortFrom)).Success?
    ensures var ns := CB.Build(CB.Builder(version).(coordinatorPortFrom := coordinatorPortFrom)).value;
      |ns| == 7 && Grouped(ns, 3, 2)
  {
    BuildGrouped(CB.Builder(version).(coordinatorPortFrom := coordinatorPortFrom));
  }

  /**
   * The older default view over a sorted list that starts with its only
   * leader: sorting changes nothing, and the leader swaps into position 2
   * with the node there. With fewer than three nodes the swap reads a
   * missing position.
   */
  lemma LegacyDefaultSwapsLeader(ns: seq<Node>)
    requires SortedBy(ns, RoleKey) && |ns| >= 1 && IsLeader(ns[0])
    requires forall i :: 1 <= i < |ns| ==> !IsLeader(ns[i])
    ensures |ns| >= 3 ==> LegacyDefault.Make(ns) == Success(LegacyDefault.Default(Swap(ns, 0, 2)))
    ensures |ns| < 3 ==> LegacyDefault.Make(ns) == Failure(IndexOutOfBounds(2, |ns|))
  {
    SortBySortedIsIdentity(ns, RoleKey);
    if |ns| >= 3 {
      assert Swap(ns, 0, 2)[1] == ns[1];
    }
  }

  /**
   * The older default view over an older build: it succeeds exactly when the
   * build has at least three nodes, and then the leader, agency 0, ends in
   * position 2 (`getAgency3()`) while the node built third moves to the front.
   */
  lemma LegacyBuildDefault(c: LB.Config)
    requires LB.Build(c).Success?
    ensures var ns := LB.Build(c).value;
      LegacyDefault.Make(ns).Success? <==> |ns| >= 3
    ensures var ns := LB.Build(c).value;
      |ns| >= 3 ==>
        LegacyDefault.Make(ns) == Success(LegacyDefault.Default(Swap(ns, 0, 2)))
        && LegacyDefault.GetAgency3(LegacyDefault.Make(ns).value) == Success(ns[0]) && IsLeader(ns[0])
  {
    var ns := LB.Build(c).value;
    LB.BuildRoles(c);
    LB.BuildSortedByType(c);
    LegacyDefaultSwapsLeader(ns);
  }

  /**
   * The older default view over a seven-node list grouped as three agencies
   * led by the first, two data servers and two coordinators: the leader ends
   * as `getAgency3()`, the other two agencies come first, and the data-server
   * and coordinator getters return nodes of their types.
   */
  lemma LegacyDefaultGettersReadTheirTypes(ns: seq<Node>)
    requires |ns| == 7 && Grouped(ns, 3, 2)
    ensures LegacyDefault.Make(ns) == Success(LegacyDefault.Default(Swap(ns, 0, 2)))
    ensures var d := LegacyDefault.Default(Swap(ns, 0, 2));
      multiset(LegacyDefault.GetContainers(d)) == multiset(ns)
      && LegacyDefault.GetAgency1(d) == Success(ns[2]) && ns[2].role == Agent
      && LegacyDefault.GetAgency2(d) == Success(ns[1]) && ns[1].role == Agent
      && LegacyDefault.GetAgency3(d) == Success(ns[0]) && ns[0].role == AgentLeader
      && LegacyDefault.GetDatabase1(d) == Success(ns[3]) && ns[3].role == DbServer
      && LegacyDefault.GetDatabase2(d) == Success(ns[4]) && ns[4].role == DbServer
      && LegacyDefault.GetCoordinator1(d) == Success(ns[5]) && ns[5].role == Coordinator
      && LegacyDefault.GetCoordinator2(d) == Success(ns[6]) && ns[6].role == Coordinator
  {
    GroupedSorted(ns, 3, 2);
    LegacyDefaultSwapsLeader(ns);
    GroupedSevenRoles(ns);
    var t := Swap(ns, 0, 2);
    assert t[0] == ns[2] && t[1] == ns[1] && t[2] == ns[0];
    assert t[3] == ns[3] && t[4] == ns[4] && t[5] == ns[5] && t[6] == ns[6];
  }

  /** The types of a seven-node list grouped 3/2/2, position by position. */
  lemma GroupedSevenRoles(ns: seq<Node>)
    requires |ns| == 7 && Grouped(ns, 3, 2)
    ensures ns[0].role == AgentLeader && ns[1].role == Agent && ns[2].role == Agent
    ensures ns[3].role == DbServer && ns[4].role == DbServer
    ensures ns[5].role == Coordinator && ns[6].role == Coordinator
  {
  }

  /** A grouped list is in type order and has its only leader first. */
  lemma GroupedSorted(ns: seq<Node>, a: int, d: int)
    requires Grouped(ns, a, d)
    ensures SortedBy(ns, RoleKey) && IsLeader(ns[0])
    ensures forall i :: 1 <= i < |ns| ==> !IsLeader(ns[i])
  {
    forall i, j | 0 <= i <= j < |ns|
      ensures RoleKey(ns[i]) <= RoleKey(ns[j])
    {
    }
  }

  /** `ArangoClusterDefault.build(version)` in the older revision: a fresh older builder with a non-blank version builds seven nodes grouped 3/2/2. */
  lemma LegacyDefaultBuildIsGrouped(version: string)
    requires !IsBlank(version)
    ensures LB.Build(LB.Builder(version)).Success?
    ensures var ns := LB.Build(LB.Builder(version)).value;
      |ns| == 7 && Grouped(ns, 3, 2)
  {
    LB.BuildRoles(LB.Builder(version));
  }

  /** The older default view over a sorted list of at least three nodes without a leader keeps the list as it is. */
  lemma LegacyDefaultWithoutLeader(ns: seq<Node>)
    requires SortedBy(ns, RoleKey) && |ns| >= 3
    requires forall i :: 0 <= i < |ns| ==> !IsLeader(ns[i])
    ensures LegacyDefault.Make(ns) == Success(LegacyDefault.Default(ns))
  {
    SortBySortedIsIdentity(ns, RoleKey);
  }
}
