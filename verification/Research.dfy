// What a planner may ask for: internal/research/service.go:180-372, 406-434.
module Research {
  import opened Wrappers
  import opened Graph
  import opened PlanModel
  import opened PlanValidate
  import Ledger

  // ---- Is there a search behind a node? (service.go:406-434) ----

  ghost predicate IsSearch(nodes: map<Id, PlanNode>, id: Id) {
    id in nodes && nodes[id].op.PlanSearch?
  }

  // A search at id or at one of its transitive dependencies.
  ghost predicate SearchFrom(nodes: map<Id, PlanNode>, id: Id) {
    exists s :: IsSearch(nodes, s) && (s == id || Reaches(Dependencies(nodes), id, s))
  }

  ghost predicate SearchBehind(nodes: map<Id, PlanNode>, deps: seq<Id>) {
    exists d :: d in deps && SearchFrom(nodes, d)
  }

  // Everything visited, apart from what is being visited, is no search and has visited dependencies.
  ghost predicate Explored(nodes: map<Id, PlanNode>, visited: set<Id>, open: set<Id>) {
    && open <= visited
    && (forall v :: v in visited ==> !IsSearch(nodes, v))
    && (forall v, d :: v in visited && v !in open && Edge(Dependencies(nodes), v, d) ==> d in visited)
  }

  lemma SearchAbove(nodes: map<Id, PlanNode>, id: Id, d: Id)
    requires Edge(Dependencies(nodes), id, d) && SearchFrom(nodes, d)
    ensures SearchFrom(nodes, id)
  {
    var g := Dependencies(nodes);
    var s :| IsSearch(nodes, s) && (s == d || Reaches(g, d, s));
    EdgeReaches(g, id, d);
    if s != d {
      ReachesTrans(g, id, d, s);
    }
  }

  // From visited nodes one gets to visited nodes only, none of which is a search.
  lemma {:induction false} WalkStaysVisited(nodes: map<Id, PlanNode>, visited: set<Id>, p: seq<Id>)
    requires Explored(nodes, visited, {}) && Path(Dependencies(nodes), p) && p[0] in visited
    ensures p[|p| - 1] in visited
    decreases |p|
  {
    if |p| > 1 {
      var g := Dependencies(nodes);
      assert Linked(g, p, 0);
      PathTail(g, p);
      WalkStaysVisited(nodes, visited, p[1..]);
    }
  }

  lemma NothingFound(nodes: map<Id, PlanNode>, visited: set<Id>, deps: seq<Id>)
    requires Explored(nodes, visited, {}) && forall d :: d in deps ==> d in visited
    ensures !SearchBehind(nodes, deps)
  {
    hide Path, Explored;
    forall d, s | d in deps && IsSearch(nodes, s)
      ensures s != d && !Reaches(Dependencies(nodes), d, s)
    {
      NoSearchVisited(nodes, visited);
      if Reaches(Dependencies(nodes), d, s) {
        var p :| PathFromTo(Dependencies(nodes), p, d, s) && |p| >= 2;
        assert p[0] in visited;
        PathOf(Dependencies(nodes), p, d, s);
        WalkStaysVisited(nodes, visited, p);
      }
    }
  }

  lemma PathOf(g: Edges, p: seq<Id>, a: Id, b: Id)
    requires PathFromTo(g, p, a, b)
    ensures Path(g, p)
  {
  }

  lemma NoSearchVisited(nodes: map<Id, PlanNode>, visited: set<Id>)
    requires Explored(nodes, visited, {})
    ensures forall v :: v in visited ==> !IsSearch(nodes, v)
  {
  }

  // The recursive closure `visit` with its shared `visited` set. The graph may have cycles, shared
  // ancestors and ids that no node has.
  class AncestorSearch {
    const nodes: map<Id, PlanNode>
    var visited: set<Id>

    constructor (nodes: map<Id, PlanNode>)
      ensures this.nodes == nodes && visited == {}
    {
      this.nodes := nodes;
      visited := {};
    }

    method Visit(id: Id, ghost open: set<Id>) returns (found: bool)
      requires Explored(nodes, visited, open)
      modifies this
      ensures found ==> SearchFrom(nodes, id)
      ensures !found ==> Explored(nodes, visited, open) && id in visited
      ensures old(visited) <= visited
      decreases nodes.Keys - visited
    {
      if id in visited {
        return false;
      }
      ghost var before := visited;
      if id !in nodes {
        visited := visited + {id};
        return false;
      }
      if nodes[id].op.PlanSearch? {
        visited := visited + {id};
        assert IsSearch(nodes, id);
        return true;
      }
      visited := visited + {id};
      var parents := nodes[id].dependsOn;
      for k := 0 to |parents|
        invariant Explored(nodes, visited, open + {id}) && before + {id} <= visited
        invariant forall d :: d in parents[..k] ==> d in visited
      {
        assert parents[..k + 1] == parents[..k] + [parents[k]];
        var hit := Visit(parents[k], open + {id});
        if hit {
          assert Edge(Dependencies(nodes), id, parents[k]);
          SearchAbove(nodes, id, parents[k]);
          return true;
        }
      }
      assert parents[..|parents|] == parents;
      Close(nodes, visited, open, id);
      return false;
    }
  }

  // A node all of whose dependencies have been visited is done.
  lemma Close(nodes: map<Id, PlanNode>, visited: set<Id>, open: set<Id>, id: Id)
    requires Explored(nodes, visited, open + {id}) && id in nodes
               && forall d :: d in nodes[id].dependsOn ==> d in visited
    ensures Explored(nodes, visited, open)
  {
  }

  // True if and only if a search can be reached through dependencies, for any graph.
  method HasRetrievalAncestor(node: PlanNode, nodes: map<Id, PlanNode>) returns (found: bool)
    ensures found <==> SearchBehind(nodes, node.dependsOn)
  {
    hide Explored, SearchFrom;
    var search := new AncestorSearch(nodes);
    NothingExplored(nodes);
    for k := 0 to |node.dependsOn|
      invariant Explored(nodes, search.visited, {}) && forall d :: d in node.dependsOn[..k] ==> d in search.visited
    {
      assert node.dependsOn[..k + 1] == node.dependsOn[..k] + [node.dependsOn[k]];
      var hit := search.Visit(node.dependsOn[k], {});
      if hit {
        assert node.dependsOn[k] in node.dependsOn;
        return true;
      }
    }
    assert node.dependsOn[..|node.dependsOn|] == node.dependsOn;
    NothingFound(nodes, search.visited, node.dependsOn);
    return false;
  }

  lemma NothingExplored(nodes: map<Id, PlanNode>)
    ensures Explored(nodes, {}, {})
  {
  }

  // ---- Constraining a plan (service.go:180-301) ----

  datatype UserRequest = UserRequest(
    query: string, filters: string, sources: seq<string>, limit: int, fetchTopK: int, deep: bool, identity: string,
      budget: Ledger.Spec)

  datatype Capability = Capability(source: string, operations: set<string>, ok: bool, operationsOk: set<string>)

  datatype RetrievalPlan = RetrievalPlan(plan: Plan, identity: string, budget: Ledger.Spec)

  datatype Verdict = Accepted(plan: RetrievalPlan) | Unauthorized(node: Id)

  const RESEARCH_PROJECTION := "research"

  predicate OperationAllowed(op: PlanOp) {
    op.PlanSearch? || op.PlanMapFetch? || op.PlanMerge? || op.PlanDedup? || op.PlanRank? || op.PlanLimit?
      || op.PlanProject?
  }

  function Limit(r: UserRequest): int {
    if r.limit > 0 then r.limit else 40
  }

  function LimitPerSource(r: UserRequest): int {
    if Limit(r) < 8 then Limit(r) else 8
  }

  function FetchTopK(r: UserRequest, budget: Ledger.Spec): int {
    var limit := if r.fetchTopK <= 0 then 8 else r.fetchTopK;
    var max := Ledger.WithDefaults(budget).maxFetches;
    if max > 0 && limit > max then max else limit
  }

  function Clamp(value: int, max: int): int {
    if value <= 0 || value > max then max else value
  }

  function ClampBudget(b: Ledger.Spec, limit: Ledger.Spec): Ledger.Spec {
    Ledger.Spec(Clamp(b.deadlineMs, limit.deadlineMs), Clamp(b.maxCalls, limit.maxCalls),
                Clamp(b.maxPages, limit.maxPages),
                Clamp(b.maxFetches, limit.maxFetches), Clamp(b.maxExpanded, limit.maxExpanded),
                  Clamp(b.maxBytes, limit.maxBytes))
  }

  predicate SupportsBy(c: Capability, source: string, operation: string) {
    c.source == source && operation in c.operations && (c.ok || operation in c.operationsOk)
  }

  predicate Supports(caps: seq<Capability>, source: string, operation: string) {
    exists c :: c in caps && SupportsBy(c, source, operation)
  }

  // The sources a search names: one source takes precedence over a list.
  function NamedSources(r: NodeRequest): seq<string>
    requires r.SearchRequest?
  {
    if r.source != "" then [r.source] else r.sources
  }

  function AllowedSources(r: UserRequest): set<string> {
    set s | s in r.sources && s != ""
  }

  predicate SourceOk(r: UserRequest, caps: seq<Capability>, s: string) {
    s == "" || ((AllowedSources(r) == {} || s in AllowedSources(r)) && Supports(caps, s, "search"))
  }

  // A search that names no source is bound to the caller's.
  function Bound(r: UserRequest, q: NodeRequest): NodeRequest
    requires q.SearchRequest?
  {
    if AllowedSources(r) != {} && NamedSources(q) == [] then q.(sources := r.sources, source := "") else q
  }

  // What becomes of a node; None if it is not authorized.
  ghost function ConstrainedNode(n: PlanNode, nodes: map<Id, PlanNode>, r: UserRequest, caps: seq<Capability>,
                                 budget: Ledger.Spec)
    : Option<PlanNode>
  {
    if !OperationAllowed(n.op) then None
    else if n.op.PlanSearch? then ConstrainedSearch(n, r, caps)
    else if n.op.PlanMapFetch? then ConstrainedFetch(n, nodes, r, budget)
    else Some(n)
  }

  ghost function ConstrainedSearch(n: PlanNode, r: UserRequest, caps: seq<Capability>): Option<PlanNode> {
    if !n.request.SearchRequest? then None
    else
      var q := Bound(r, n.request);
      if AllowedSources(r) != {} && !(q.sourceQueries.Keys <= AllowedSources(r)) then None
      else if exists s :: s in NamedSources(q) && !SourceOk(r, caps, s) then None
      else Some(n.(request := q.(query := r.query, filters := r.filters, limit := Limit(r),
                                 limitPerSource := LimitPerSource(r))))
  }

  ghost function ConstrainedFetch(n: PlanNode, nodes: map<Id, PlanNode>, r: UserRequest,
                                  budget: Ledger.Spec): Option<PlanNode> {
    var most := FetchTopK(r, budget);
    if !SearchBehind(nodes, n.dependsOn) || !r.deep || !n.request.MapFetchRequest? then None
    else Some(n.(maxItems := Clamp(n.maxItems, most),
                 request := MapFetchRequest(Clamp(n.request.topK, most), Clamp(n.request.maxItems, most),
                                            RESEARCH_PROJECTION)))
  }

  method CapabilitySupports(caps: seq<Capability>, source: string, operation: string) returns (ok: bool)
    ensures ok == Supports(caps, source, operation)
  {
    for i := 0 to |caps|
      invariant forall c :: c in caps[..i] ==> !SupportsBy(c, source, operation)
    {
      assert caps[..i + 1] == caps[..i] + [caps[i]];
      var c := caps[i];
      if c.source != source || operation !in c.operations {
        continue;
      }
      if c.ok {
        assert c in caps && SupportsBy(c, source, operation);
        return true;
      }
      if operation in c.operationsOk {
        assert c in caps && SupportsBy(c, source, operation);
        return true;
      }
    }
    assert caps[..|caps|] == caps;
    return false;
  }

  // service.go:204-249, 288-298
  method ConstrainSearch(node: PlanNode, r: UserRequest, caps: seq<Capability>, allowed: set<string>)
    returns (out: Option<PlanNode>)
    requires node.op.PlanSearch? && allowed == AllowedSources(r)
    ensures out == ConstrainedSearch(node, r, caps)
  {
    hide Supports, AllowedSources;
    if !node.request.SearchRequest? {
      return None;
    }
    var q := node.request;
    var sources := if q.source != "" then [q.source] else q.sources;
    if allowed != {} && sources == [] {
      q := q.(sources := r.sources, source := "");
      sources := r.sources;
    }
    assert q == Bound(r, node.request) && sources == NamedSources(q);
    if allowed != {} && !(q.sourceQueries.Keys <= allowed) {
      return None;
    }
    for i := 0 to |sources|
      invariant forall s :: s in sources[..i] ==> SourceOk(r, caps, s)
    {
      assert sources[..i + 1] == sources[..i] + [sources[i]];
      assert sources[i] in sources;
      if sources[i] == "" {
        continue;
      }
      if allowed != {} && sources[i] !in allowed {
        return None;
      }
      var ok := CapabilitySupports(caps, sources[i], "search");
      if !ok {
        return None;
      }
    }
    assert sources[..|sources|] == sources;
    out := Some(node.(request := q.(query := r.query, filters := r.filters, limit := Limit(r),
                                    limitPerSource := LimitPerSource(r))));
  }

  ghost predicate Constrained(p: RetrievalPlan, r: UserRequest, caps: seq<Capability>, q: RetrievalPlan) {
    && q.identity == r.identity && q.budget == ClampBudget(p.budget, Ledger.WithDefaults(r.budget))
    && q.plan == p.plan.(nodes := q.plan.nodes) && |q.plan.nodes| == |p.plan.nodes|
    && forall i :: 0 <= i < |p.plan.nodes| ==>
      ConstrainedNode(p.plan.nodes[i], NodeMap(p.plan.nodes), r, caps, q.budget) == Some(q.plan.nodes[i])
  }

  ghost predicate Refused(p: RetrievalPlan, r: UserRequest, caps: seq<Capability>, i: nat)
    requires i < |p.plan.nodes|
  {
    ConstrainedNode(p.plan.nodes[i], NodeMap(p.plan.nodes), r, caps,
                    ClampBudget(p.budget, Ledger.WithDefaults(r.budget))) == None
  }

  // The nodes are rewritten one after the other; the first that is not authorized ends it.
  method ConstrainPlan(p: RetrievalPlan, r: UserRequest, caps: seq<Capability>) returns (v: Verdict)
    ensures v.Accepted? ==> Constrained(p, r, caps, v.plan)
    ensures v.Unauthorized? ==>
              exists i :: 0 <= i < |p.plan.nodes| && p.plan.nodes[i].id == v.node && Refused(p, r, caps, i)
  {
    hide ConstrainedSearch, ClampBudget, SearchBehind;
    var budget := ClampBudget(p.budget, Ledger.WithDefaults(r.budget));
    var allowed := set s | s in r.sources && s != "";
    var byId: map<Id, PlanNode> := map[];
    var nodes := p.plan.nodes;
    for i := 0 to |nodes|
      invariant byId == NodeMap(nodes[..i])
    {
      assert nodes[..i + 1][..i] == nodes[..i];
      byId := byId[nodes[i].id := nodes[i]];
    }
    assert nodes[..|nodes|] == nodes;
    for i := 0 to |nodes|
      invariant |nodes| == |p.plan.nodes| && forall j :: i <= j < |nodes| ==> nodes[j] == p.plan.nodes[j]
      invariant forall j :: 0 <= j < i ==> ConstrainedNode(p.plan.nodes[j], byId, r, caps, budget) == Some(nodes[j])
    {
      var node := nodes[i];
      var rewritten: Option<PlanNode> := Some(node);
      if !OperationAllowed(node.op) {
        rewritten := None;
      } else if node.op.PlanSearch? {
        rewritten := ConstrainSearch(node, r, caps, allowed);
      } else if node.op.PlanMapFetch? {
        var behind := HasRetrievalAncestor(node, byId);
        if !behind || !r.deep || !node.request.MapFetchRequest? {
          rewritten := None;
        } else {
          var most := FetchTopK(r, budget);
          var bounded := MapFetchRequest(Clamp(node.request.topK, most), Clamp(node.request.maxItems, most),
                                         RESEARCH_PROJECTION);
          rewritten := Some(node.(maxItems := Clamp(node.maxItems, most), request := bounded));
        }
      }
      assert rewritten == ConstrainedNode(node, byId, r, caps, budget);
      if rewritten == None {
        assert Refused(p, r, caps, i);
        return Unauthorized(node.id);
      }
      nodes := nodes[i := rewritten.value];
    }
    v := Accepted(RetrievalPlan(p.plan.(nodes := nodes), r.identity, budget));
  }

  // ---- What an accepted plan may do ----

  ghost predicate BudgetWithin(b: Ledger.Spec, limit: Ledger.Spec) {
    && 0 < b.deadlineMs <= limit.deadlineMs && 0 < b.maxCalls <= limit.maxCalls && 0 < b.maxPages <= limit.maxPages
    && 0 < b.maxFetches <= limit.maxFetches && 0 < b.maxExpanded <= limit.maxExpanded
    && 0 < b.maxBytes <= limit.maxBytes
  }

  // A search stays inside a non-empty caller source set, and never searches everywhere.
  ghost predicate SearchWithin(n: PlanNode, r: UserRequest) {
    n.request.SearchRequest? &&
    (AllowedSources(r) != {} ==>
       && NamedSources(n.request) != []
       && (forall s :: s in NamedSources(n.request) ==> s == "" || s in AllowedSources(r))
       && n.request.sourceQueries.Keys <= AllowedSources(r))
  }

  ghost predicate FetchWithin(n: PlanNode, budget: Ledger.Spec) {
    n.request.MapFetchRequest? && 0 < n.request.topK <= budget.maxFetches && 0 < n.request.maxItems <= budget.maxFetches
    && 0 < n.maxItems <= budget.maxFetches
  }

  lemma NodeIsWithin(n: PlanNode, nodes: map<Id, PlanNode>, r: UserRequest, caps: seq<Capability>, budget: Ledger.Spec,
                     m: PlanNode)
    requires ConstrainedNode(n, nodes, r, caps, budget) == Some(m) && budget.maxFetches > 0
    ensures m.id == n.id && m.op == n.op && m.dependsOn == n.dependsOn && m.priority == n.priority
              && m.optional == n.optional && m.retry == n.retry
    ensures OperationAllowed(m.op)
    ensures m.op.PlanSearch? ==> SearchWithin(m, r)
    ensures m.op.PlanMapFetch? ==> FetchWithin(m, budget) && r.deep && SearchBehind(nodes, m.dependsOn)
  {
    hide SearchBehind, Supports;
    if m.op.PlanSearch? {
      assert forall s :: s in NamedSources(m.request) ==> SourceOk(r, caps, s);
      if AllowedSources(r) != {} {
        var s :| s in AllowedSources(r);
        assert s in r.sources;
      }
    }
  }

  // An accepted plan has the ids, operations and dependencies it had; its budget is positive and at
  // most the caller's; its searches and fetches are bounded.
  lemma AcceptedPlanIsWithin(p: RetrievalPlan, r: UserRequest, caps: seq<Capability>, q: RetrievalPlan)
    requires Constrained(p, r, caps, q)
    ensures BudgetWithin(q.budget, Ledger.WithDefaults(r.budget))
    ensures Dependencies(NodeMap(q.plan.nodes)) == Dependencies(NodeMap(p.plan.nodes))
              && PlanIds(q.plan.nodes) == PlanIds(p.plan.nodes)
    ensures forall i :: 0 <= i < |q.plan.nodes| ==>
              var n := q.plan.nodes[i];
              && OperationAllowed(n.op) && n.op == p.plan.nodes[i].op && n.dependsOn == p.plan.nodes[i].dependsOn
              && (n.op.PlanSearch? ==> SearchWithin(n, r))
              && (n.op.PlanMapFetch? ==> FetchWithin(n, q.budget) && SearchBehind(NodeMap(q.plan.nodes), n.dependsOn))
  {
    hide ConstrainedNode, SearchBehind, SearchWithin, FetchWithin;
    assert BudgetWithin(q.budget, Ledger.WithDefaults(r.budget));
    SameShape(p, r, caps, q);
    SameGraph(p.plan.nodes, q.plan.nodes);
    forall i | 0 <= i < |q.plan.nodes|
      ensures var n := q.plan.nodes[i];
              && OperationAllowed(n.op) && n.op == p.plan.nodes[i].op && n.dependsOn == p.plan.nodes[i].dependsOn
              && (n.op.PlanSearch? ==> SearchWithin(n, r))
              && (n.op.PlanMapFetch? ==> FetchWithin(n, q.budget) && SearchBehind(NodeMap(q.plan.nodes), n.dependsOn))
    {
      NodeIsWithin(p.plan.nodes[i], NodeMap(p.plan.nodes), r, caps, q.budget, q.plan.nodes[i]);
      SameSearches(NodeMap(p.plan.nodes), NodeMap(q.plan.nodes), q.plan.nodes[i].dependsOn);
    }
  }

  ghost predicate SameNode(n: PlanNode, m: PlanNode) {
    m.id == n.id && m.op == n.op && m.dependsOn == n.dependsOn
  }

  lemma SameShape(p: RetrievalPlan, r: UserRequest, caps: seq<Capability>, q: RetrievalPlan)
    requires Constrained(p, r, caps, q)
    ensures |q.plan.nodes| == |p.plan.nodes|
              && forall i :: 0 <= i < |p.plan.nodes| ==> SameNode(p.plan.nodes[i], q.plan.nodes[i])
    ensures PlanIds(q.plan.nodes) == PlanIds(p.plan.nodes)
  {
    hide ConstrainedNode, ClampBudget;
    forall i | 0 <= i < |p.plan.nodes|
      ensures SameNode(p.plan.nodes[i], q.plan.nodes[i])
    {
      NodeKeepsShape(p.plan.nodes[i], NodeMap(p.plan.nodes), r, caps, q.budget, q.plan.nodes[i]);
    }
  }

  lemma NodeKeepsShape(n: PlanNode, nodes: map<Id, PlanNode>, r: UserRequest, caps: seq<Capability>,
                       budget: Ledger.Spec, m: PlanNode)
    requires ConstrainedNode(n, nodes, r, caps, budget) == Some(m)
    ensures SameNode(n, m)
  {
    hide SearchBehind, Supports;
  }

  lemma {:induction false} SameGraph(a: seq<PlanNode>, b: seq<PlanNode>)
    requires |a| == |b| && forall i :: 0 <= i < |a| ==> SameNode(a[i], b[i])
    ensures NodeMap(a).Keys == NodeMap(b).Keys
              && forall id :: id in NodeMap(a) ==> SameNode(NodeMap(a)[id], NodeMap(b)[id])
    ensures Dependencies(NodeMap(a)) == Dependencies(NodeMap(b))
  {
    if a != [] {
      SameGraph(a[..|a| - 1], b[..|b| - 1]);
    }
  }

  lemma SameSearches(a: map<Id, PlanNode>, b: map<Id, PlanNode>, deps: seq<Id>)
    requires a.Keys == b.Keys && forall id :: id in a ==> SameNode(a[id], b[id])
    ensures SearchBehind(a, deps) == SearchBehind(b, deps)
  {
    hide Reaches;
    assert Dependencies(a) == Dependencies(b);
    forall d
      ensures SearchFrom(a, d) == SearchFrom(b, d)
    {
      if s :| IsSearch(a, s) && (s == d || Reaches(Dependencies(a), d, s)) {
        assert s in a.Keys && IsSearch(b, s);
      }
      if s :| IsSearch(b, s) && (s == d || Reaches(Dependencies(b), d, s)) {
        assert s in a.Keys && IsSearch(a, s);
      }
    }
  }

  // ---- Constraining twice ----

  lemma SearchTwice(n: PlanNode, r: UserRequest, caps: seq<Capability>)
    requires n.op.PlanSearch? && ConstrainedSearch(n, r, caps).Some?
    ensures ConstrainedSearch(ConstrainedSearch(n, r, caps).value, r, caps) == ConstrainedSearch(n, r, caps)
  {
    hide Supports;
    var m := ConstrainedSearch(n, r, caps).value;
    if AllowedSources(r) != {} {
      var s :| s in AllowedSources(r);
      assert s in r.sources;
    }
    assert Bound(r, m.request) == m.request;
  }

  lemma FetchTwice(n: PlanNode, a: map<Id, PlanNode>, b: map<Id, PlanNode>, r: UserRequest, budget: Ledger.Spec)
    requires ConstrainedFetch(n, a, r, budget).Some? && SearchBehind(a, n.dependsOn) == SearchBehind(b, n.dependsOn)
               && budget.maxFetches > 0
    ensures ConstrainedFetch(ConstrainedFetch(n, a, r, budget).value, b, r, budget) == ConstrainedFetch(n, a, r, budget)
  {
    hide SearchBehind;
  }

  // Nothing is both refused and accepted, and there is one way to accept a plan.
  lemma VerdictIsUnique(p: RetrievalPlan, r: UserRequest, caps: seq<Capability>, q: RetrievalPlan, t: RetrievalPlan)
    requires Constrained(p, r, caps, q) && Constrained(p, r, caps, t)
    ensures q == t && forall i: nat :: i < |p.plan.nodes| ==> !Refused(p, r, caps, i)
  {
    hide ConstrainedNode;
    assert forall i :: 0 <= i < |p.plan.nodes| ==> q.plan.nodes[i] == t.plan.nodes[i];
    assert q.plan.nodes == t.plan.nodes;
  }

  // An accepted plan is accepted again and not changed.
  lemma ConstrainingTwiceIsOnce(p: RetrievalPlan, r: UserRequest, caps: seq<Capability>, q: RetrievalPlan)
    requires Constrained(p, r, caps, q)
    ensures Constrained(q, r, caps, q)
  {
    hide ConstrainedSearch, ConstrainedFetch, SearchBehind, Supports;
    SameShape(p, r, caps, q);
    SameGraph(p.plan.nodes, q.plan.nodes);
    forall i | 0 <= i < |q.plan.nodes|
      ensures ConstrainedNode(q.plan.nodes[i], NodeMap(q.plan.nodes), r, caps, q.budget) == Some(q.plan.nodes[i])
    {
      var n := p.plan.nodes[i];
      assert SameNode(n, q.plan.nodes[i]);
      if n.op.PlanSearch? {
        SearchTwice(n, r, caps);
      } else if n.op.PlanMapFetch? {
        SameSearches(NodeMap(p.plan.nodes), NodeMap(q.plan.nodes), n.dependsOn);
        FetchTwice(n, NodeMap(p.plan.nodes), NodeMap(q.plan.nodes), r, q.budget);
      }
    }
  }

  // What the executor accepts of the planner it accepts of the constrained plan, and nothing more.
  lemma ConstrainingKeepsExecutable(p: RetrievalPlan, r: UserRequest, caps: seq<Capability>, q: RetrievalPlan)
    requires Constrained(p, r, caps, q)
    ensures Executable(q.plan) <==> Executable(p.plan)
  {
    hide ConstrainedNode, ClampBudget, Acyclic;
    SameShape(p, r, caps, q);
    SameGraph(p.plan.nodes, q.plan.nodes);
    forall i | 0 <= i < |p.plan.nodes|
      ensures q.plan.nodes[i].id == p.plan.nodes[i].id && q.plan.nodes[i].dependsOn == p.plan.nodes[i].dependsOn
    {
      assert SameNode(p.plan.nodes[i], q.plan.nodes[i]);
    }
  }
}
