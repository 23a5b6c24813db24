/** Serverless probes: `get_gcp_cloud_functions`, `get_gcp_cloudrun_revisions` and the
    Autopilot arithmetic of `get_gcp_gke_clusters`. */
module Serverless {
  import opened Common
  import opened Paging
  import opened Ledger

  // ---------------------------------------------------------------------------------------
  // Cloud Functions: `count += len(response['functions'])`

  function FunctionsOutcome(w: Walked<nat>): Outcome {
    Single(w.completed, "Serverless Functions [Cloud Functions]", "", "Serverless Functions", w.acc)
  }

  /** The Cloud Functions probe reports, once the listing completes, every function listed on
      the pages it received, under Serverless Functions; it raises when a request raises. */
  lemma FunctionsCounted<T(!new)>(listing: Listing<T>)
    ensures var w := Walk(listing, 0, CountItems());
      var n := PageSizes(listing.replies[..Consumed(listing, w)]);
      FunctionsOutcome(w) == if w.completed
        then Finished([], [Report("Serverless Functions [Cloud Functions]", n, "", [Increment("Serverless Functions", n)])])
        else Raised([])
  {
    CountedItems(listing, 0);
  }

  // ---------------------------------------------------------------------------------------
  // Cloud Run revisions: healthy containers

  /** An entry of a revision's `status.conditions`. */
  datatype Condition = Condition(kind: string, status: string)

  datatype Revision = Revision(conditions: seq<Condition>)

  predicate IsHealthy(c: Condition) {
    c.kind == "ContainerHealthy" && c.status == "True"
  }

  /** `for container in item['status']['conditions']: if ...: count += 1`. */
  function HealthyIn(cs: seq<Condition>): nat {
    if |cs| == 0 then 0 else (if IsHealthy(cs[0]) then 1 else 0) + HealthyIn(cs[1..])
  }

  function Healthy(r: Revision): nat {
    HealthyIn(r.conditions)
  }

  /** The conditions of the revisions, in order. */
  function AllConditions(revs: seq<Revision>): seq<Condition> {
    if |revs| == 0 then [] else revs[0].conditions + AllConditions(revs[1..])
  }

  lemma {:induction false} HealthyInAppend(a: seq<Condition>, b: seq<Condition>)
    ensures HealthyIn(a + b) == HealthyIn(a) + HealthyIn(b)
    decreases |a|
  {
    if |a| == 0 {
      assert a + b == b;
    } else {
      assert (a + b)[1..] == a[1..] + b;
      HealthyInAppend(a[1..], b);
    }
  }

  /** The healthy count is at most the number of conditions, and is 0 exactly when no
      condition is a `ContainerHealthy` one with status `True`. */
  lemma {:induction false} HealthyInBounds(cs: seq<Condition>)
    ensures HealthyIn(cs) <= |cs|
    ensures HealthyIn(cs) == 0 <==> forall k :: 0 <= k < |cs| ==> !IsHealthy(cs[k])
    decreases |cs|
  {
    if |cs| > 0 {
      HealthyInBounds(cs[1..]);
      assert forall k :: 0 < k < |cs| ==> cs[k] == cs[1..][k - 1];
    }
  }

  lemma {:induction false} HealthyOfRevisions(revs: seq<Revision>)
    ensures Sum(revs, Healthy) == HealthyIn(AllConditions(revs))
    decreases |revs|
  {
    if |revs| > 0 {
      HealthyOfRevisions(revs[1..]);
      HealthyInAppend(revs[0].conditions, AllConditions(revs[1..]));
    }
  }

  function CloudRunOutcome(w: Walked<nat>): Outcome {
    Single(w.completed, "Serverless Containers [Cloud Run Revisions]", "", "Serverless Containers", w.acc)
  }

  /** The Cloud Run probe counts, over every revision received, the conditions of type
      `ContainerHealthy` with status `True`: never more than the conditions listed, and none
      when no condition is healthy. */
  lemma CloudRunCounted(listing: Listing<Revision>)
    ensures var w := Walk<Revision, nat>(listing, 0, Each(Adding(Healthy)));
      var cs := AllConditions(Received(listing, w));
      && w.acc == HealthyIn(cs)
      && w.acc <= |cs|
      && (w.acc == 0 <==> forall k :: 0 <= k < |cs| ==> !IsHealthy(cs[k]))
  {
    var w := Walk<Revision, nat>(listing, 0, Each(Adding(Healthy)));
    WalkSums(listing, Healthy);
    HealthyOfRevisions(Received(listing, w));
    HealthyInBounds(AllConditions(Received(listing, w)));
  }

  // ---------------------------------------------------------------------------------------
  // GKE Autopilot: nodes and containers

  /** A node pool: `currentNodeCount`, `initialNodeCount` and `config.maxPodsPerNode`, each
      None when absent. */
  datatype NodePool = NodePool(currentNodeCount: Option<nat>, initialNodeCount: Option<nat>, maxPodsPerNode: Option<nat>)

  /** A cluster: `autopilot.enabled` (None when either key is absent) and its node pools
      (empty when absent). */
  datatype Cluster = Cluster(autopilotEnabled: Option<bool>, nodePools: seq<NodePool>)

  function NodeCount(p: NodePool): nat {
    p.currentNodeCount.GetOr(p.initialNodeCount.GetOr(0))
  }

  function PodsPerNode(p: NodePool): nat {
    p.maxPodsPerNode.GetOr(0)
  }

  /** `gke_nodes_count` and `gke_containers_count`. */
  datatype Capacity = Capacity(nodes: nat, containers: nat)

  function AddPools(c: Capacity, pools: seq<NodePool>): Capacity
    decreases |pools|
  {
    if |pools| == 0 then c
    else
      var p := pools[0];
      AddPools(Capacity(c.nodes + NodeCount(p), c.containers + NodeCount(p) * PodsPerNode(p)), pools[1..])
  }

  function OnCluster(c: Capacity, k: Cluster): Step<Capacity> {
    if k.autopilotEnabled == Some(true) then Continue(AddPools(c, k.nodePools)) else Continue(c)
  }

  function ClusterStep(): (Capacity, Cluster) -> Step<Capacity> {
    (c: Capacity, k: Cluster) => OnCluster(c, k)
  }

  /** The node pools of the clusters whose `autopilot.enabled` is exactly true, in order. */
  function AutopilotPools(clusters: seq<Cluster>): seq<NodePool> {
    if |clusters| == 0 then []
    else (if clusters[0].autopilotEnabled == Some(true) then clusters[0].nodePools else []) + AutopilotPools(clusters[1..])
  }

  function Containers(p: NodePool): nat {
    NodeCount(p) * PodsPerNode(p)
  }

  lemma {:induction false} AddPoolsSums(c: Capacity, pools: seq<NodePool>)
    ensures AddPools(c, pools) == Capacity(c.nodes + Sum(pools, NodeCount), c.containers + Sum(pools, Containers))
    decreases |pools|
  {
    if |pools| > 0 {
      var p := pools[0];
      AddPoolsSums(Capacity(c.nodes + NodeCount(p), c.containers + NodeCount(p) * PodsPerNode(p)), pools[1..]);
    }
  }

  lemma {:induction false} ClustersFold(c: Capacity, clusters: seq<Cluster>)
    ensures Fold(c, clusters, ClusterStep()) ==
      Continue(Capacity(c.nodes + Sum(AutopilotPools(clusters), NodeCount),
                        c.containers + Sum(AutopilotPools(clusters), Containers)))
    decreases |clusters|
  {
    if |clusters| > 0 {
      var k := clusters[0];
      var own := if k.autopilotEnabled == Some(true) then k.nodePools else [];
      AddPoolsSums(c, own);
      ClustersFold(OnCluster(c, k).acc, clusters[1..]);
      SumAppend(own, AutopilotPools(clusters[1..]), NodeCount);
      SumAppend(own, AutopilotPools(clusters[1..]), Containers);
    }
  }

  /** Each pool adds no more containers than `pods` per node when its `maxPodsPerNode` is at
      most `pods`. */
  lemma {:induction false} ContainersBound(pools: seq<NodePool>, pods: nat)
    requires forall i :: 0 <= i < |pools| ==> PodsPerNode(pools[i]) <= pods
    ensures Sum(pools, Containers) <= pods * Sum(pools, NodeCount)
    decreases |pools|
  {
    if |pools| > 0 {
      var p := pools[0];
      assert NodeCount(p) * PodsPerNode(p) <= NodeCount(p) * pods by {
        assert PodsPerNode(p) <= pods;
      }
      assert forall i :: 0 <= i < |pools[1..]| ==> pools[1..][i] == pools[i + 1];
      ContainersBound(pools[1..], pods);
    }
  }

  function AutopilotOutcome(w: Walked<Capacity>): Outcome {
    if !w.completed then Raised([])
    else Finished([], [
      Report("Kubernetes Sensors [GKE Autopilot]", w.acc.nodes, "", [Increment("Kubernetes Sensors", w.acc.nodes)]),
      Report("Serverless Containers [GKE Autopilot]", w.acc.containers, "", [Increment("Serverless Containers", w.acc.containers)])])
  }

  /** Only the node pools of clusters whose `autopilot.enabled` is exactly true count: each
      adds its node count (`currentNodeCount`, else `initialNodeCount`, else 0) to the nodes
      and node count times `maxPodsPerNode` (0 when absent) to the containers; when no pool
      allows more than `pods` pods per node, the containers are at most `pods` per node. */
  lemma AutopilotCounted(listing: Listing<Cluster>, pods: nat)
    ensures var w := Walk(listing, Capacity(0, 0), Each(ClusterStep()));
      var pools := AutopilotPools(Received(listing, w));
      && w.acc == Capacity(Sum(pools, NodeCount), Sum(pools, Containers))
      && ((forall i :: 0 <= i < |pools| ==> PodsPerNode(pools[i]) <= pods) ==> w.acc.containers <= pods * w.acc.nodes)
  {
    var w := Walk(listing, Capacity(0, 0), Each(ClusterStep()));
    WalkFolds(listing, Capacity(0, 0), ClusterStep());
    ClustersFold(Capacity(0, 0), Received(listing, w));
    var pools := AutopilotPools(Received(listing, w));
    if forall i :: 0 <= i < |pools| ==> PodsPerNode(pools[i]) <= pods {
      ContainersBound(pools, pods);
    }
  }

  /** Clusters whose `autopilot.enabled` is missing or false add nothing, whatever their pools. */
  lemma {:induction false} StandardClustersIgnored(clusters: seq<Cluster>)
    requires forall i :: 0 <= i < |clusters| ==> clusters[i].autopilotEnabled != Some(true)
    ensures AutopilotPools(clusters) == []
    decreases |clusters|
  {
    if |clusters| > 0 {
      assert forall i :: 0 <= i < |clusters[1..]| ==> clusters[1..][i] == clusters[i + 1];
      StandardClustersIgnored(clusters[1..]);
    }
  }

  /** A pool with three current nodes (initially five) and 32 pods per node, in an Autopilot
      cluster, adds 3 nodes and 96 containers. */
  lemma OnePool()
    ensures OnCluster(Capacity(0, 0), Cluster(Some(true), [NodePool(Some(3), Some(5), Some(32))])) == Continue(Capacity(3, 96))
  {
    var pools := [NodePool(Some(3), Some(5), Some(32))];
    assert AddPools(Capacity(3, 96), pools[1..]) == Capacity(3, 96);
  }
}
