// Retrieval plans: kernel/plan.go.
module PlanModel {
  import opened Graph

  datatype PlanOp =
    | PlanResolve | PlanSearch | PlanQuery | PlanFetch | PlanExpand
    | PlanMerge | PlanDedup | PlanRank | PlanLimit | PlanProject | PlanMapFetch

  // NodeUnset is Go's zero value "", the state of a result nobody has written.
  datatype NodeState =
    | NodeUnset | NodePlanned | NodeBlocked | NodeReady | NodeRunning | NodeSucceeded | NodePartial
    | NodeEmpty | NodeRetryWait | NodeFailed | NodeSkipped | NodeCancelled

  datatype RetryPolicy = RetryPolicy(maxAttempts: int, backoffMs: int, maxBackoffMs: int)

  // The decoded request of a node. Fields that no modelled code reads are folded into `valid`.
  datatype NodeRequest =
    | SearchRequest(source: string, sources: seq<string>, sourceQueries: map<string, string>,
                    query: string, filters: string, limit: int, limitPerSource: int, valid: bool)
    | MapFetchRequest(topK: int, maxItems: int, projection: string)
    | OtherRequest(valid: bool)

  datatype PlanNode = PlanNode(
    id: Id, op: PlanOp, dependsOn: seq<Id>, request: NodeRequest,
    priority: real, optional: bool, maxItems: int, retry: RetryPolicy)

  datatype Plan = Plan(version: string, session: string, nodes: seq<PlanNode>, output: seq<Id>)

  predicate IsTerminal(s: NodeState) {
    s.NodeSucceeded? || s.NodePartial? || s.NodeEmpty? || s.NodeFailed? || s.NodeSkipped? || s.NodeCancelled?
  }

  // A dependency in one of these states lets a node run only if the node tolerates it.
  predicate IsBad(s: NodeState) {
    s.NodeFailed? || s.NodeCancelled? || s.NodeSkipped?
  }

  predicate AcceptsPartial(op: PlanOp) {
    op.PlanMerge? || op.PlanDedup? || op.PlanRank? || op.PlanLimit? || op.PlanProject? || op.PlanMapFetch?
  }

  predicate Tolerant(n: PlanNode) {
    n.optional || AcceptsPartial(n.op)
  }

  // Operations that go to a provider; the others only rework what is there.
  predicate AsksProvider(op: PlanOp) {
    !(op.PlanMerge? || op.PlanDedup? || op.PlanRank? || op.PlanLimit? || op.PlanProject?)
  }

  function MaxAttempts(n: PlanNode): (k: nat)
    ensures k >= 1
    ensures n.retry.maxAttempts > 0 ==> k == n.retry.maxAttempts
    ensures n.retry.maxAttempts <= 0 ==> k == if AsksProvider(n.op) then 2 else 1
  {
    if n.retry.maxAttempts > 0 then n.retry.maxAttempts
    else if n.op.PlanResolve? || n.op.PlanSearch? || n.op.PlanQuery? || n.op.PlanFetch? || n.op.PlanExpand?
      || n.op.PlanMapFetch? then 2
    else 1
  }

  // The map from ids to nodes that the source builds by assigning in plan order.
  function NodeMap(nodes: seq<PlanNode>): map<Id, PlanNode> {
    if nodes == [] then map[]
    else NodeMap(nodes[..|nodes| - 1])[nodes[|nodes| - 1].id := nodes[|nodes| - 1]]
  }

  function Dependencies(m: map<Id, PlanNode>): Edges {
    map id | id in m :: m[id].dependsOn
  }

  ghost predicate UniqueIds(nodes: seq<PlanNode>) {
    forall i, j :: 0 <= i < j < |nodes| ==> nodes[i].id != nodes[j].id
  }

  ghost predicate KnownDependencies(nodes: seq<PlanNode>) {
    forall i, d :: 0 <= i < |nodes| && d in nodes[i].dependsOn ==> d in NodeMap(nodes)
  }

  lemma NodeMapKeys(nodes: seq<PlanNode>)
    ensures forall id :: id in NodeMap(nodes) <==> exists i :: 0 <= i < |nodes| && nodes[i].id == id
    ensures forall id :: id in NodeMap(nodes) ==> NodeMap(nodes)[id] in nodes && NodeMap(nodes)[id].id == id
  {
    if nodes != [] {
      NodeMapKeys(nodes[..|nodes| - 1]);
      assert nodes == nodes[..|nodes| - 1] + [nodes[|nodes| - 1]];
    }
  }

  lemma NodeMapUnique(nodes: seq<PlanNode>)
    requires UniqueIds(nodes)
    ensures forall i :: 0 <= i < |nodes| ==> nodes[i].id in NodeMap(nodes) && NodeMap(nodes)[nodes[i].id] == nodes[i]
    ensures |NodeMap(nodes)| == |nodes|
  {
    if nodes != [] {
      var front, last := nodes[..|nodes| - 1], nodes[|nodes| - 1];
      assert nodes == front + [last];
      NodeMapUnique(front);
      NodeMapKeys(front);
      assert last.id !in NodeMap(front);
      assert NodeMap(nodes) == NodeMap(front)[last.id := last];
      hide NodeMap;
      assert NodeMap(nodes).Keys == NodeMap(front).Keys + {last.id};
    }
  }

  // The ids in plan order.
  function PlanIds(nodes: seq<PlanNode>): (ids: seq<Id>)
    ensures |ids| == |nodes| && forall i :: 0 <= i < |nodes| ==> ids[i] == nodes[i].id
  {
    seq(|nodes|, i requires 0 <= i < |nodes| => nodes[i].id)
  }

  lemma PlanIdsAreKeys(nodes: seq<PlanNode>)
    ensures forall id :: id in NodeMap(nodes) <==> id in PlanIds(nodes)
  {
    NodeMapKeys(nodes);
    forall id | id in NodeMap(nodes)
      ensures id in PlanIds(nodes)
    {
      var i :| 0 <= i < |nodes| && nodes[i].id == id;
      assert PlanIds(nodes)[i] == id;
    }
  }

  lemma KnownIsClosed(nodes: seq<PlanNode>)
    requires KnownDependencies(nodes)
    ensures Closed(Dependencies(NodeMap(nodes)))
  {
    NodeMapKeys(nodes);
  }
}
