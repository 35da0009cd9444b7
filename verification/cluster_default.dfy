/**
 * `cluster/ArangoClusterDefault`: the default three-agent, two-server,
 * two-coordinator cluster and its fixed-position accessors. The constructor
 * moves the agent leader to the front of the list.
 */
module ClusterDefault {
  import opened Wrappers
  import opened Lists
  import opened Nodes

  const AgencyNodesDefault := 3
  const DbServerNodesDefault := 2
  const CoordinatorNodesDefault := 2

  /** The cluster is reached through the first coordinator on the database's usual port. */
  const CoordinatorPortDefault := 8529
  const DbServerPortDefault := 8515
  const AgencyPortDefault := 8500

  datatype Default = Default(containers: seq<Node>)

  /**
   * The constructor: reads positions 1 and 2 (an index error on a shorter
   * list) and swaps a leader found there into position 0.
   */
  function Make(cs: seq<Node>): (r: Result<Default, IndexError>)
    ensures r.Success? <==> |cs| >= 3
    ensures r.Failure? ==> r.error == IndexOutOfBounds(if |cs| < 2 then 1 else 2, |cs|)
    ensures r.Success? ==> |r.value.containers| == |cs| && multiset(r.value.containers) == multiset(cs)
    ensures r.Success? ==> forall k :: 3 <= k < |cs| ==> r.value.containers[k] == cs[k]
  {
    if |cs| < 2 then Failure(IndexOutOfBounds(1, |cs|))
    else
      var s1 := if IsLeader(cs[1]) then Swap(cs, 1, 0) else cs;
      if |s1| < 3 then Failure(IndexOutOfBounds(2, |s1|))
      else
        var s2 := if IsLeader(s1[2]) then Swap(s1, 2, 0) else s1;
        Success(Default(s2))
  }

  /**
   * With exactly one leader among the first three nodes, the constructor puts
   * it in position 0; positions 1 and 2 then hold agents that are not leaders.
   */
  lemma LeaderMovesToFront(cs: seq<Node>, j: nat)
    requires |cs| >= 3 && j < 3 && IsLeader(cs[j])
    requires forall k :: 0 <= k < 3 && k != j ==> !IsLeader(cs[k])
    ensures Make(cs).Success?
    ensures Make(cs).value.containers[0] == cs[j]
    ensures !IsLeader(Make(cs).value.containers[1]) && !IsLeader(Make(cs).value.containers[2])
  {
    var r := Make(cs).value.containers;
    if j == 0 {
      assert !IsLeader(cs[1]) && !IsLeader(cs[2]);
    } else if j == 1 {
      assert !IsLeader(cs[0]) && !IsLeader(cs[2]);
      assert r == Swap(cs, 1, 0);
    } else {
      assert !IsLeader(cs[0]) && !IsLeader(cs[1]);
      assert r == Swap(cs, 2, 0);
    }
  }

  /** `getContainers()`: a copy, so the same nodes in the same order. */
  function GetContainers(d: Default): (r: seq<Node>)
    ensures |r| == |d.containers| && forall k :: 0 <= k < |r| ==> r[k] == d.containers[k]
  {
    d.containers
  }

  /** `getAgentLeader()`: position 0, where the constructor puts the leader, or the index error of `List.get(0)` on an empty list. */
  function GetAgentLeader(d: Default): (r: Result<Node, IndexError>)
    ensures r.Success? <==> |d.containers| > 0
    ensures r.Success? ==> r.value == d.containers[0]
    ensures r.Failure? ==> r.error == IndexOutOfBounds(0, |d.containers|)
  {
    At(d.containers, 0)
  }

  /** `getAgent1()`: the same node as `getAgentLeader()`. */
  function GetAgent1(d: Default): (r: Result<Node, IndexError>)
    ensures r == GetAgentLeader(d)
    ensures r.Success? ==> r.value == d.containers[0]
  {
    GetAgentLeader(d)
  }

  /** `getAgent2()`: position 1, or the index error `List.get(1)` throws on a shorter list. */
  function GetAgent2(d: Default): (r: Result<Node, IndexError>)
    ensures r.Success? <==> |d.containers| > 1
    ensures r.Success? ==> r.value == d.containers[1]
    ensures r.Failure? ==> r.error == IndexOutOfBounds(1, |d.containers|)
  {
    At(d.containers, 1)
  }

  /** `getAgent3()`: position 2, or the index error `List.get(2)` throws on a shorter list. */
  function GetAgent3(d: Default): (r: Result<Node, IndexError>)
    ensures r.Success? <==> |d.containers| > 2
    ensures r.Success? ==> r.value == d.containers[2]
    ensures r.Failure? ==> r.error == IndexOutOfBounds(2, |d.containers|)
  {
    At(d.containers, 2)
  }

  /** `getDatabase1()`: position 3, or the index error `List.get(3)` throws on a shorter list. */
  function GetDatabase1(d: Default): (r: Result<Node, IndexError>)
    ensures r.Success? <==> |d.containers| > 3
    ensures r.Success? ==> r.value == d.containers[3]
    ensures r.Failure? ==> r.error == IndexOutOfBounds(3, |d.containers|)
  {
    At(d.containers, 3)
  }

  /** `getDatabase2()`: position 4, or the index error `List.get(4)` throws on a shorter list. */
  function GetDatabase2(d: Default): (r: Result<Node, IndexError>)
    ensures r.Success? <==> |d.containers| > 4
    ensures r.Success? ==> r.value == d.containers[4]
    ensures r.Failure? ==> r.error == IndexOutOfBounds(4, |d.containers|)
  {
    At(d.containers, 4)
  }

  /** `getCoordinator1()`: position 5, or the index error `List.get(5)` throws on a shorter list. */
  function GetCoordinator1(d: Default): (r: Result<Node, IndexError>)
    ensures r.Success? <==> |d.containers| > 5
    ensures r.Success? ==> r.value == d.containers[5]
    ensures r.Failure? ==> r.error == IndexOutOfBounds(5, |d.containers|)
  {
    At(d.containers, 5)
  }

  /** `getCoordinator2()`: position 6, or the index error `List.get(6)` throws on a shorter list. */
  function GetCoordinator2(d: Default): (r: Result<Node, IndexError>)
    ensures r.Success? <==> |d.containers| > 6
    ensures r.Success? ==> r.value == d.containers[6]
    ensures r.Failure? ==> r.error == IndexOutOfBounds(6, |d.containers|)
  {
    At(d.containers, 6)
  }
}
