/**
 * `containers/ArangoClusterDefault`: the older default cluster. The
 * constructor sorts the nodes by type and then moves the agency leader to
 * the third slot, where `getAgency3()` reads it.
 */
module LegacyDefault {
  import opened Wrappers
  import opened Lists
  import opened Nodes

  const AgencyNodesDefault := 3
  const DatabaseNodesDefault := 2
  const CoordinatorNodesDefault := 2

  /** Unlike the newer revision, the first coordinator is published on 8530. */
  const AgencyPortDefault := 8500
  const DatabasePortDefault := 8515
  const CoordinatorPortDefault := 8530

  datatype Default = Default(containers: seq<Node>)

  /**
   * The swaps of the constructor on an already sorted list: `swap(0, 2)` when
   * position 0 holds the leader, then `swap(1, 2)` when position 1 does.
   * Reading a missing position, or a swap whose second index is missing, is
   * an index error.
   */
  function MoveLeader(s: seq<Node>): (r: Result<seq<Node>, IndexError>)
    ensures r.Success? <==> |s| >= 3 || (|s| == 2 && !IsLeader(s[0]) && !IsLeader(s[1]))
    ensures |s| == 0 ==> r == Failure(IndexOutOfBounds(0, 0))
    ensures |s| == 1 ==> r == Failure(IndexOutOfBounds(if IsLeader(s[0]) then 2 else 1, 1))
    ensures |s| == 2 && r.Failure? ==> r == Failure(IndexOutOfBounds(2, 2))
    ensures r.Success? ==> |r.value| == |s| && multiset(r.value) == multiset(s)
    ensures r.Success? ==> forall k :: 3 <= k < |s| ==> r.value[k] == s[k]
  {
    if |s| < 1 then Failure(IndexOutOfBounds(0, |s|))
    else if IsLeader(s[0]) && |s| < 3 then Failure(IndexOutOfBounds(2, |s|))
    else
      var s1 := if IsLeader(s[0]) then Swap(s, 0, 2) else s;
      if |s1| < 2 then Failure(IndexOutOfBounds(1, |s1|))
      else if IsLeader(s1[1]) && |s1| < 3 then Failure(IndexOutOfBounds(2, |s1|))
      else Success(if IsLeader(s1[1]) then Swap(s1, 1, 2) else s1)
  }

  /**
   * The constructor: a stable sort by type, then the leader swaps. It fails
   * on fewer than three nodes unless there are two and neither leads.
   */
  function Make(cs: seq<Node>): (r: Result<Default, IndexError>)
    ensures r.Success? <==> |cs| >= 3 || (|cs| == 2 && forall i :: 0 <= i < |cs| ==> !IsLeader(cs[i]))
    ensures |cs| == 0 ==> r == Failure(IndexOutOfBounds(0, 0))
    ensures |cs| == 1 ==> r == Failure(IndexOutOfBounds(if IsLeader(cs[0]) then 2 else 1, 1))
    ensures |cs| == 2 && r.Failure? ==> r == Failure(IndexOutOfBounds(2, 2))
    ensures r.Success? ==> multiset(r.value.containers) == multiset(cs)
  {
    var s := SortBy(cs, RoleKey);
    SortedPair(cs);
    match MoveLeader(s)
    case Failure(e) => Failure(e)
    case Success(moved) => Success(Default(moved))
  }

  /** After sorting by type, a list with a leader starts with one. */
  lemma LeaderSortsFirst(cs: seq<Node>)
    ensures var s := SortBy(cs, RoleKey);
      (exists i :: 0 <= i < |cs| && IsLeader(cs[i])) <==> |s| > 0 && IsLeader(s[0])
  {
    var s := SortBy(cs, RoleKey);
    if i :| 0 <= i < |cs| && IsLeader(cs[i]) {
      assert cs[i] in multiset(s);
      var j :| 0 <= j < |s| && s[j] == cs[i];
      assert RoleKey(s[0]) <= RoleKey(s[j]);
    }
    if |s| > 0 && IsLeader(s[0]) {
      assert s[0] in multiset(cs);
    }
  }

  /** A sorted pair holds no leader exactly when the original pair holds none; a single node sorts to itself. */
  lemma SortedPair(cs: seq<Node>)
    ensures var s := SortBy(cs, RoleKey);
      |s| == |cs| && multiset(s) == multiset(cs)
      && (|cs| == 2 ==> (!IsLeader(s[0]) && !IsLeader(s[1]) <==> forall i :: 0 <= i < |cs| ==> !IsLeader(cs[i])))
      && (|cs| == 1 ==> s == cs)
  {
    var s := SortBy(cs, RoleKey);
    LeaderSortsFirst(cs);
    if |s| >= 2 {
      assert RoleKey(s[0]) <= RoleKey(s[1]);
    }
    if |cs| == 1 {
      assert s[0] in multiset(cs);
    }
  }

  /**
   * With exactly one leader among the first three sorted nodes, the
   * constructor leaves it in position 2; positions 0 and 1 then hold nodes
   * that are not leaders.
   */
  lemma LeaderMovesToSlot2(cs: seq<Node>, j: nat)
    requires var s := SortBy(cs, RoleKey);
      |s| >= 3 && j < 3 && IsLeader(s[j]) && forall k :: 0 <= k < 3 && k != j ==> !IsLeader(s[k])
    ensures Make(cs).Success?
    ensures Make(cs).value.containers[2] == SortBy(cs, RoleKey)[j]
    ensures !IsLeader(Make(cs).value.containers[0]) && !IsLeader(Make(cs).value.containers[1])
    ensures forall k :: 3 <= k < |cs| ==> Make(cs).value.containers[k] == SortBy(cs, RoleKey)[k]
  {
    var s := SortBy(cs, RoleKey);
    var r := MoveLeader(s).value;
    assert Make(cs).value.containers == r;
    if j == 0 {
      assert !IsLeader(s[1]) && !IsLeader(s[2]);
      assert r == Swap(s, 0, 2);
    } else if j == 1 {
      assert !IsLeader(s[0]) && !IsLeader(s[2]);
      assert r == Swap(s, 1, 2);
    } else {
      assert !IsLeader(s[0]) && !IsLeader(s[1]);
      assert r == s;
    }
  }

  /** `getContainers()`: a copy, so the same nodes in the same order. */
  function GetContainers(d: Default): (r: seq<Node>)
    ensures |r| == |d.containers| && forall k :: 0 <= k < |r| ==> r[k] == d.containers[k]
  {
    d.containers
  }

  /** `getAgency1()`: position 0, or the index error `List.get(0)` throws on a shorter list. */
  function GetAgency1(d: Default): (r: Result<Node, IndexError>)
    ensures r.Success? <==> |d.containers| > 0
    ensures r.Success? ==> r.value == d.containers[0]
    ensures r.Failure? ==> r.error == IndexOutOfBounds(0, |d.containers|)
  {
    At(d.containers, 0)
  }

  /** `getAgency2()`: position 1, or the index error `List.get(1)` throws on a shorter list. */
  function GetAgency2(d: Default): (r: Result<Node, IndexError>)
    ensures r.Success? <==> |d.containers| > 1
    ensures r.Success? ==> r.value == d.containers[1]
    ensures r.Failure? ==> r.error == IndexOutOfBounds(1, |d.containers|)
  {
    At(d.containers, 1)
  }

  /** `getAgency3()`: position 2, where the constructor puts the leader, or the index error of `List.get(2)` on a shorter list. */
  function GetAgency3(d: Default): (r: Result<Node, IndexError>)
    ensures r.Success? <==> |d.containers| > 2
    ensures r.Success? ==> r.value == d.containers[2]
    ensures r.Failure? ==> r.error == IndexOutOfBounds(2, |d.containers|)
  {
    At(d.containers, 2)
  }

  /** `getDatabase1()`: position 3, or the index error `List.get(3)` throws on a shorter list. */
  function GetDatabase1(d: Default): (r: Result<Node, IndexError>)
    ensures r.Success? <==> |d.containers| > 3
    ensures r.Success? ==> r.value == d.containers[3]
    ensures r.Failure? ==> r.error == IndexOutOfBounds(3, |d.containers|)
  {
    At(d.containers, 3)
  }

  /** `getDatabase2()`: position 4, or the index error `List.get(4)` throws on a shorter list. */
  function GetDatabase2(d: Default): (r: Result<Node, IndexError>)
    ensures r.Success? <==> |d.containers| > 4
    ensures r.Success? ==> r.value == d.containers[4]
    ensures r.Failure? ==> r.error == IndexOutOfBounds(4, |d.containers|)
  {
    At(d.containers, 4)
  }

  /** `getCoordinator1()`: position 5, or the index error `List.get(5)` throws on a shorter list. */
  function GetCoordinator1(d: Default): (r: Result<Node, IndexError>)
    ensures r.Success? <==> |d.containers| > 5
    ensures r.Success? ==> r.value == d.containers[5]
    ensures r.Failure? ==> r.error == IndexOutOfBounds(5, |d.containers|)
  {
    At(d.containers, 5)
  }

  /** `getCoordinator2()`: position 6, or the index error `List.get(6)` throws on a shorter list. */
  function GetCoordinator2(d: Default): (r: Result<Node, IndexError>)
    ensures r.Success? <==> |d.containers| > 6
    ensures r.Success? ==> r.value == d.containers[6]
    ensures r.Failure? ==> r.error == IndexOutOfBounds(6, |d.containers|)
  {
    At(d.containers, 6)
  }
}
