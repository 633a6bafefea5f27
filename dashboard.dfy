/**
 * The figures the worker dashboard shows (worker/internal/api/dashboard.go): the member
 * count, the cache's entry count and the gateway and worker counts, found by searching
 * each member's metadata for the role's name.
 */
module Dashboard {
  import opened Common
  import opened Membership
  import WorkerCache

  datatype DashboardData = DashboardData(
    ip: string, gatewayCount: nat, workerCount: nat, nodeCount: nat, imageCount: nat, meta: string, name: string)

  /** The members, in order, whose metadata contains `role` as a substring. */
  function WithRole(members: seq<Node>, role: string): seq<Node>
  {
    if members == [] then []
    else
      var last := members[|members| - 1];
      WithRole(members[..|members| - 1], role) + (if Contains(last.meta, role) then [last] else [])
  }

  /**
   * `HandleDashboard` up to the rendering: `local` is `ml.LocalNode()`, `members` the one
   * snapshot of `ml.Members()` that all three reads see.
   */
  method HandleDashboard(cache: WorkerCache.Cache, local: Node, members: seq<Node>) returns (data: DashboardData)
    ensures data.nodeCount == |members| && data.imageCount == |cache.m|
    ensures data.gatewayCount == |WithRole(members, "gateway")|
    ensures data.workerCount == |WithRole(members, "worker")|
    ensures data.ip == local.addr && data.meta == local.meta && data.name == local.name
  {
    var imageCount := cache.Count();
    data := DashboardData(local.addr, 0, 0, |members|, imageCount, local.meta, local.name);

    var gateways: seq<Node> := [];
    var i := 0;
    while i < |members|
      invariant 0 <= i <= |members|
      invariant gateways == WithRole(members[..i], "gateway")
    {
      var m := members[i];
      if Contains(m.meta, "gateway") {
        gateways := gateways + [m];
      }
      assert members[..i + 1][..i] == members[..i];
      i := i + 1;
    }
    assert members[..i] == members;
    data := data.(gatewayCount := |gateways|);

    var workers: seq<Node> := [];
    i := 0;
    while i < |members|
      invariant 0 <= i <= |members|
      invariant workers == WithRole(members[..i], "worker")
    {
      var m := members[i];
      if Contains(m.meta, "worker") {
        workers := workers + [m];
      }
      assert members[..i + 1][..i] == members[..i];
      i := i + 1;
    }
    assert members[..i] == members;
    data := data.(workerCount := |workers|);
  }

  /** A member is counted for a role exactly when its metadata contains the role's name. */
  lemma {:induction false} WithRoleMembers(members: seq<Node>, role: string, n: Node)
    ensures n in WithRole(members, role) <==> n in members && Contains(n.meta, role)
  {
    if members != [] {
      var init := members[..|members| - 1];
      WithRoleMembers(init, role, n);
      assert members == init + [members[|members| - 1]];
    }
  }

  /** Each role count is at most the member count. */
  lemma {:induction false} WithRoleBounded(members: seq<Node>, role: string)
    ensures |WithRole(members, role)| <= |members|
  {
    if members != [] {
      WithRoleBounded(members[..|members| - 1], role);
    }
  }

  /** The worker metadata counts only as a worker. */
  lemma WorkerMetaIsWorkerOnly()
    ensures Contains(WorkerMeta, "worker") && !Contains(WorkerMeta, "gateway")
  {
    ContainsInfix(LabelOpen, "worker", LabelClose);
    assert !Contains(WorkerMeta, "gateway") by {
      ContainsChars(WorkerMeta, "gateway", 0);
      assert 'g' !in LabelOpen && 'g' !in "worker" && 'g' !in LabelClose;
    }
  }

  /** The gateway metadata counts only as a gateway. */
  lemma GatewayMetaIsGatewayOnly()
    ensures Contains(GatewayMeta, "gateway") && !Contains(GatewayMeta, "worker")
  {
    ContainsInfix(LabelOpen, "gateway", LabelClose);
    assert !Contains(GatewayMeta, "worker") by {
      ContainsChars(GatewayMeta, "worker", 1);
      assert 'o' !in LabelOpen && 'o' !in "gateway" && 'o' !in LabelClose;
    }
  }

  /** When every member names exactly one of the two roles, the counts add up to the member count. */
  lemma {:induction false} RoleCountsPartition(members: seq<Node>)
    requires forall i :: 0 <= i < |members| ==> Contains(members[i].meta, "gateway") != Contains(members[i].meta, "worker")
    ensures |WithRole(members, "gateway")| + |WithRole(members, "worker")| == |members|
  {
    if members != [] {
      var init := members[..|members| - 1];
      assert forall i :: 0 <= i < |init| ==> init[i] == members[i];
      RoleCountsPartition(init);
    }
  }

  /** A cluster whose members all advertise the standard role metadata is partitioned by the counts. */
  lemma StandardRolesPartition(members: seq<Node>)
    requires forall i :: 0 <= i < |members| ==> members[i].meta == WorkerMeta || members[i].meta == GatewayMeta
    ensures |WithRole(members, "gateway")| + |WithRole(members, "worker")| == |members|
  {
    forall i | 0 <= i < |members|
      ensures Contains(members[i].meta, "gateway") != Contains(members[i].meta, "worker")
    {
      if members[i].meta == WorkerMeta {
        WorkerMetaIsWorkerOnly();
      } else {
        GatewayMetaIsGatewayOnly();
      }
    }
    RoleCountsPartition(members);
  }

  /** A member whose metadata names both roles counts twice; one that names neither, not at all. */
  lemma CountsNeedNotPartition(n: Node)
    ensures Contains(n.meta, "gateway") && Contains(n.meta, "worker") ==>
              |WithRole([n], "gateway")| + |WithRole([n], "worker")| == 2
    ensures !Contains(n.meta, "gateway") && !Contains(n.meta, "worker") ==>
              |WithRole([n], "gateway")| + |WithRole([n], "worker")| == 0
  {
    assert [n][..0] == [];
  }

  /** Metadata that names both roles exists: "gateway,worker". */
  lemma BothRolesPossible()
    ensures Contains("gateway" + "," + "worker", "gateway") && Contains("gateway" + "," + "worker", "worker")
  {
    ContainsInfix([], "gateway", "," + "worker");
    ContainsInfix("gateway" + ",", "worker", []);
    assert [] + "gateway" + ("," + "worker") == "gateway" + "," + "worker";
    assert "gateway" + "," + "worker" + [] == "gateway" + "," + "worker";
  }
}
