// The two plan validators: internal/planvalidate/validate.go and validatePlan in
// internal/planexec/executor.go.
module PlanValidate {
  import opened Wrappers
  import opened Graph
  import opened PlanModel
  import Text

  datatype PlanError =
    | DuplicateNode(id: Id)
    | BadRequest(id: Id)
    | SelfDependency(id: Id)
    | EmptyDependency(id: Id, at: nat)
    | EmptyId(index: nat)
    | UnknownDependency(id: Id, dependency: Id)
    | UnknownOutput(output: Id)
    | Cycle(id: Id)
    | UnsupportedVersion
    | NoNodes
    | TooManyNodes

  const PLAN_VERSION := "retrieval-plan/v1"
  const MAX_NODES := 200

  // ---- Request shapes (validateNodeRequest) ----

  predicate RequestOk(n: PlanNode) {
    match n.op
    case PlanSearch =>
      && n.request.SearchRequest? && n.request.valid
      && Text.TrimSpace(n.request.query) != ""
      && !(n.request.source != "" && |n.request.sources| > 0)
    case PlanMapFetch =>
      && n.request.MapFetchRequest?
      && 0 <= n.request.topK <= 100 && 0 <= n.request.maxItems <= 100
    case _ => n.request.OtherRequest? && n.request.valid
  }

  // ---- Three-colour depth-first search ----

  datatype Colour = Visiting | Visited

  // `stack` lists the nodes being visited, outermost first; `finished` the visited ones in the
  // order in which they were finished.
  ghost predicate Colouring(g: Edges, states: map<Id, Colour>, stack: seq<Id>, finished: seq<Id>) {
    && (forall x :: x in states ==> x in g)
    && (forall x :: x in states && states[x] == Visiting <==> x in stack)
    && (forall x :: x in states && states[x] == Visited <==> x in finished)
    && (stack != [] ==> Path(g, stack))
    && (forall i, j :: 0 <= i < j < |stack| ==> stack[i] != stack[j])
    && Topological(g, finished)
  }

  lemma StackIsCycle(g: Edges, stack: seq<Id>, id: Id)
    requires stack != [] && Path(g, stack) && id in stack
    requires Edge(g, stack[|stack| - 1], id)
    ensures Reaches(g, id, id)
  {
    var k :| 0 <= k < |stack| && stack[k] == id;
    PathSuffix(g, stack, k);
    var p := stack[k..] + [id];
    PathExtend(g, stack[k..], id);
    assert PathFromTo(g, p, id, id);
  }

  lemma PushKeepsColouring(g: Edges, states: map<Id, Colour>, stack: seq<Id>, finished: seq<Id>, id: Id)
    requires Colouring(g, states, stack, finished) && id in g && id !in states
    requires stack != [] ==> Edge(g, stack[|stack| - 1], id)
    ensures Colouring(g, states[id := Visiting], stack + [id], finished)
  {
    var inner := stack + [id];
    PathExtend(g, stack, id);
    assert forall x :: x in inner <==> x in stack || x == id;
  }

  lemma FinishKeepsColouring(g: Edges, states: map<Id, Colour>, stack: seq<Id>, finished: seq<Id>, id: Id)
    requires Colouring(g, states, stack + [id], finished) && id in g
    requires forall d :: d in g[id] ==> d in finished
    ensures Colouring(g, states[id := Visited], stack, finished + [id])
  {
    var inner := stack + [id];
    assert inner[|stack|] == id;
    assert forall x :: x in inner <==> x in stack || x == id;
    assert forall i :: 0 <= i < |stack| ==> inner[i] == stack[i];
    assert id !in stack;
    assert id !in finished;
    if stack != [] {
      PathFront(g, stack, id);
    }
    TopologicalAppend(g, finished, id);
  }

  class DepthFirst {
    const edges: Edges
    var states: map<Id, Colour>
    ghost var finished: seq<Id>

    constructor (edges: Edges)
      ensures this.edges == edges && states == map[] && Valid([])
    {
      this.edges := edges;
      states := map[];
      finished := [];
    }

    ghost predicate Valid(stack: seq<Id>)
      reads this
    {
      Colouring(edges, states, stack, finished)
    }

    // Nothing finished is ever undone, and a node is entered at most once: the set of
    // uncoloured nodes only shrinks, which is why the search ends on every graph.
    method Visit(id: Id, ghost stack: seq<Id>) returns (cycle: Option<Id>)
      requires Closed(edges) && Valid(stack) && id in edges
      requires stack != [] ==> Edge(edges, stack[|stack| - 1], id)
      modifies this
      ensures cycle.Some? ==> Reaches(edges, cycle.value, cycle.value)
      ensures cycle.None? ==> Valid(stack) && id in finished && old(finished) <= finished
      ensures old(states.Keys) <= states.Keys
      decreases edges.Keys - states.Keys
    {
      if id in states && states[id] == Visiting {
        StackIsCycle(edges, stack, id);
        return Some(id);
      }
      if id in states && states[id] == Visited {
        return None;
      }
      ghost var before, done := states.Keys, finished;
      PushKeepsColouring(edges, states, stack, finished, id);
      states := states[id := Visiting];
      var deps := edges[id];
      for k := 0 to |deps|
        invariant Valid(stack + [id])
        invariant before + {id} <= states.Keys
        invariant done <= finished
        invariant forall m :: 0 <= m < k ==> deps[m] in finished
      {
        assert Edge(edges, id, deps[k]);
        assert edges.Keys - states.Keys < edges.Keys - before by {
          assert id in edges.Keys - before && id !in edges.Keys - states.Keys;
        }
        var c := Visit(deps[k], stack + [id]);
        if c.Some? {
          return c;
        }
      }
      FinishKeepsColouring(edges, states, stack, finished, id);
      states := states[id := Visited];
      finished := finished + [id];
      return None;
    }

    // planvalidate: roots in plan order, each only while unvisited.
    method CheckInPlanOrder(ids: seq<Id>) returns (cycle: Option<Id>)
      requires Closed(edges) && Valid([])
      requires forall id :: id in edges <==> id in ids
      modifies this
      ensures cycle.None? <==> Acyclic(edges)
      ensures cycle.Some? ==> Reaches(edges, cycle.value, cycle.value)
    {
      for k := 0 to |ids|
        invariant Valid([])
        invariant forall m :: 0 <= m < k ==> ids[m] in finished
      {
        if ids[k] !in states {
          var c := Visit(ids[k], []);
          if c.Some? {
            return c;
          }
        }
      }
      TopologicalIsAcyclic(edges, finished);
      return None;
    }

    // validatePlan: roots in the arbitrary order of a map, each visited unconditionally.
    method CheckInMapOrder() returns (cycle: Option<Id>)
      requires Closed(edges) && Valid([])
      modifies this
      ensures cycle.None? <==> Acyclic(edges)
      ensures cycle.Some? ==> Reaches(edges, cycle.value, cycle.value)
    {
      var todo := edges.Keys;
      while todo != {}
        invariant Valid([]) && todo <= edges.Keys
        invariant forall id :: id in edges && id !in todo ==> id in finished
        decreases |todo|
      {
        var id :| id in todo;
        todo := todo - {id};
        var c := Visit(id, []);
        if c.Some? {
          return c;
        }
      }
      TopologicalIsAcyclic(edges, finished);
      return None;
    }
  }

  // ---- validateSemantics ----

  ghost predicate NodeOk(n: PlanNode) {
    && RequestOk(n)
    && Text.TrimSpace(n.id) != ""
    && forall d :: d in n.dependsOn ==> d != n.id && Text.TrimSpace(d) != ""
  }

  ghost predicate SemanticallyValid(p: Plan) {
    && UniqueIds(p.nodes)
    && (forall i :: 0 <= i < |p.nodes| ==> NodeOk(p.nodes[i]))
    && KnownDependencies(p.nodes)
    && (forall o :: o in p.output ==> o in NodeMap(p.nodes))
    && Acyclic(Dependencies(NodeMap(p.nodes)))
  }

  // What each error message claims about the plan.
  ghost predicate Justified(p: Plan, e: PlanError) {
    match e
    case DuplicateNode(id) => !UniqueIds(p.nodes)
    case BadRequest(id) => exists i :: 0 <= i < |p.nodes| && p.nodes[i].id == id && !RequestOk(p.nodes[i])
    case SelfDependency(id) => exists i :: 0 <= i < |p.nodes| && p.nodes[i].id == id && id in p.nodes[i].dependsOn
    case EmptyDependency(id, at) =>
      exists i :: 0 <= i < |p.nodes| && p.nodes[i].id == id && at < |p.nodes[i].dependsOn|
        && Text.TrimSpace(p.nodes[i].dependsOn[at]) == ""
    case EmptyId(index) => index < |p.nodes| && Text.TrimSpace(p.nodes[index].id) == ""
    case UnknownDependency(id, d) =>
      exists i :: 0 <= i < |p.nodes| && p.nodes[i].id == id && d in p.nodes[i].dependsOn && d !in NodeMap(p.nodes)
    case UnknownOutput(o) => o in p.output && o !in NodeMap(p.nodes)
    case Cycle(id) => Reaches(Dependencies(NodeMap(p.nodes)), id, id)
    case UnsupportedVersion => p.version != "" && p.version != PLAN_VERSION
    case NoNodes => p.nodes == []
    case TooManyNodes => |p.nodes| > MAX_NODES
  }

  method CheckNode(p: Plan, i: nat) returns (err: Option<PlanError>)
    requires i < |p.nodes|
    ensures err.None? <==> NodeOk(p.nodes[i])
    ensures err.Some? ==> Justified(p, err.value)
  {
    var n := p.nodes[i];
    if !RequestOk(n) {
      return Some(BadRequest(n.id));
    }
    for j := 0 to |n.dependsOn|
      invariant forall m :: 0 <= m < j ==> n.dependsOn[m] != n.id && Text.TrimSpace(n.dependsOn[m]) != ""
    {
      if n.dependsOn[j] == n.id {
        return Some(SelfDependency(n.id));
      }
      if Text.TrimSpace(n.dependsOn[j]) == "" {
        return Some(EmptyDependency(n.id, j));
      }
    }
    if Text.TrimSpace(n.id) == "" {
      return Some(EmptyId(i));
    }
    return None;
  }

  method CheckKnown(p: Plan, m: map<Id, PlanNode>) returns (err: Option<PlanError>)
    requires m == NodeMap(p.nodes)
    ensures err.None? <==> KnownDependencies(p.nodes)
    ensures err.Some? ==> Justified(p, err.value)
  {
    for i := 0 to |p.nodes|
      invariant forall k, d :: 0 <= k < i && d in p.nodes[k].dependsOn ==> d in m
    {
      var deps := p.nodes[i].dependsOn;
      for j := 0 to |deps|
        invariant forall k :: 0 <= k < j ==> deps[k] in m
      {
        if deps[j] !in m {
          return Some(UnknownDependency(p.nodes[i].id, deps[j]));
        }
      }
    }
    return None;
  }

  method CheckOutput(p: Plan, m: map<Id, PlanNode>) returns (err: Option<PlanError>)
    requires m == NodeMap(p.nodes)
    ensures err.None? <==> forall o :: o in p.output ==> o in m
    ensures err.Some? ==> Justified(p, err.value)
  {
    for i := 0 to |p.output|
      invariant forall k :: 0 <= k < i ==> p.output[k] in m
    {
      if p.output[i] !in m {
        return Some(UnknownOutput(p.output[i]));
      }
    }
    return None;
  }

  // One more node into the id map.
  lemma NodeMapStep(nodes: seq<PlanNode>, i: nat)
    requires i < |nodes| && UniqueIds(nodes[..i])
    ensures nodes[i].id in NodeMap(nodes[..i]) ==> !UniqueIds(nodes)
    ensures nodes[i].id !in NodeMap(nodes[..i]) ==> UniqueIds(nodes[..i + 1])
    ensures NodeMap(nodes[..i + 1]) == NodeMap(nodes[..i])[nodes[i].id := nodes[i]]
  {
    var front := nodes[..i];
    NodeMapKeys(front);
    assert nodes[..i + 1] == front + [nodes[i]];
    assert nodes[..i + 1][..i] == front;
    if nodes[i].id !in NodeMap(front) {
      forall a, b | 0 <= a < b < i + 1
        ensures nodes[a].id != nodes[b].id
      {
        assert front[a] == nodes[a];
        if b < i {
          assert front[b] == nodes[b];
        }
      }
    }
  }

  method CheckNodes(p: Plan) returns (err: Option<PlanError>, nodes: map<Id, PlanNode>)
    ensures err.None? <==> UniqueIds(p.nodes) && forall i :: 0 <= i < |p.nodes| ==> NodeOk(p.nodes[i])
    ensures err.Some? ==> Justified(p, err.value)
    ensures err.None? ==> nodes == NodeMap(p.nodes)
  {
    nodes := map[];
    for i := 0 to |p.nodes|
      invariant nodes == NodeMap(p.nodes[..i]) && UniqueIds(p.nodes[..i])
      invariant forall k :: 0 <= k < i ==> NodeOk(p.nodes[k])
    {
      NodeMapStep(p.nodes, i);
      if p.nodes[i].id in nodes {
        return Some(DuplicateNode(p.nodes[i].id)), nodes;
      }
      nodes := nodes[p.nodes[i].id := p.nodes[i]];
      err := CheckNode(p, i);
      if err.Some? {
        return;
      }
    }
    assert p.nodes[..|p.nodes|] == p.nodes;
    err := None;
  }

  method ValidateSemantics(p: Plan) returns (err: Option<PlanError>)
    ensures err.None? <==> SemanticallyValid(p)
    ensures err.Some? ==> Justified(p, err.value)
  {
    var nodes;
    err, nodes := CheckNodes(p);
    if err.Some? {
      return;
    }
    err := CheckKnown(p, nodes);
    if err.Some? {
      return;
    }
    err := CheckOutput(p, nodes);
    if err.Some? {
      return;
    }
    KnownIsClosed(p.nodes);
    PlanIdsAreKeys(p.nodes);
    var search := new DepthFirst(Dependencies(nodes));
    var cycle := search.CheckInPlanOrder(PlanIds(p.nodes));
    err := if cycle.Some? then Some(Cycle(cycle.value)) else None;
  }

  // ---- validatePlan ----

  ghost predicate Executable(p: Plan) {
    && (p.version == "" || p.version == PLAN_VERSION)
    && 0 < |p.nodes| <= MAX_NODES
    && (forall i :: 0 <= i < |p.nodes| ==> p.nodes[i].id != "")
    && UniqueIds(p.nodes)
    && KnownDependencies(p.nodes)
    && Acyclic(Dependencies(NodeMap(p.nodes)))
  }

  method ValidatePlan(p: Plan) returns (err: Option<PlanError>)
    ensures err.None? <==> Executable(p)
    ensures err.Some? ==> Justified(p, err.value)
  {
    if p.version != "" && p.version != PLAN_VERSION {
      return Some(UnsupportedVersion);
    }
    if |p.nodes| == 0 {
      return Some(NoNodes);
    }
    if |p.nodes| > MAX_NODES {
      return Some(TooManyNodes);
    }
    var nodes: map<Id, PlanNode> := map[];
    for i := 0 to |p.nodes|
      invariant nodes == NodeMap(p.nodes[..i]) && UniqueIds(p.nodes[..i])
      invariant forall k :: 0 <= k < i ==> p.nodes[k].id != ""
    {
      var n := p.nodes[i];
      if n.id == "" {
        return Some(EmptyId(i));
      }
      NodeMapStep(p.nodes, i);
      if n.id in nodes {
        return Some(DuplicateNode(n.id));
      }
      nodes := nodes[n.id := n];
    }
    assert p.nodes[..|p.nodes|] == p.nodes;
    var e := CheckKnown(p, nodes);
    if e.Some? {
      return e;
    }
    KnownIsClosed(p.nodes);
    var search := new DepthFirst(Dependencies(nodes));
    var cycle := search.CheckInMapOrder();
    return if cycle.Some? then Some(Cycle(cycle.value)) else None;
  }

  // A plan the schema-level validator accepts is one the executor accepts, given the size and
  // version bounds only the executor checks. The converse needs the request and blank-id checks.
  lemma ValidatorsAgree(p: Plan)
    ensures SemanticallyValid(p) && 0 < |p.nodes| <= MAX_NODES && (p.version == "" || p.version == PLAN_VERSION)
            <==> Executable(p) && (forall i :: 0 <= i < |p.nodes| ==> NodeOk(p.nodes[i]))
                 && (forall o :: o in p.output ==> o in NodeMap(p.nodes))
  {
    forall i | 0 <= i < |p.nodes| && NodeOk(p.nodes[i])
      ensures p.nodes[i].id != ""
    {
      assert Text.TrimSpace("") == "";
    }
  }
}
