// What the visiting order of the dependency pass decides. A node visited before a dependency
// that the same pass skips stays blocked and can be caught by the final sweep, even if it
// tolerates skipped dependencies. When every pass visits dependencies first, this cannot happen;
// which nodes it can happen to at all is a matter of the plan (PlanExecRisk).
module PlanExecOrder {
  import opened Wrappers
  import opened Graph
  import opened PlanModel
  import opened PlanExec
  import opened PlanExecInv
  import opened PlanExecSteps
  import opened PlanExecRuns

  // A blocked node has a dependency that is not terminal; only intolerant nodes are skipped.
  ghost predicate WellPlaced(c: Config, rt: Table, id: Id)
    requires id in c.nodes && id in rt && KnownIn(c.nodes[id].dependsOn, rt)
  {
    && (rt[id].state == NodeBlocked ==> exists d :: d in c.nodes[id].dependsOn && !IsTerminal(rt[d].state))
    && (rt[id].state == NodeSkipped ==> !Tolerant(c.nodes[id]))
  }

  ghost predicate AllPlaced(c: Config, rt: Table)
    requires WiredTable(c, rt)
  {
    forall id {:trigger WellPlaced(c, rt, id)} :: id in c.nodes ==> WellPlaced(c, rt, id)
  }

  // Moving one node between states that are not terminal, or to its outcome, keeps the others placed.
  lemma PlacedUpdate(c: Config, rt: Table, id: Id, n: RuntimeNode, o: Id)
    requires WiredTable(c, rt) && id in c.nodes && o in c.nodes && WellPlaced(c, rt, o)
    requires !IsTerminal(rt[id].state) && n.state != NodeBlocked && n.state != NodeSkipped
    requires !IsTerminal(n.state) || id !in c.nodes[o].dependsOn
    ensures WellPlaced(c, rt[id := n], o)
  {
    if rt[id := n][o].state == NodeBlocked {
      var d :| d in c.nodes[o].dependsOn && !IsTerminal(rt[d].state);
      assert !IsTerminal(rt[id := n][d].state);
    }
  }

  // Visiting a node that no dependency list of o names leaves o placed.
  lemma VisitPlacesOthers(c: Config, s: State, id: Id, o: Id)
    requires Wired(c, s) && WiredTable(c, s.rt) && id in c.nodes && o in c.nodes && o != id
    requires id !in c.nodes[o].dependsOn && WellPlaced(c, s.rt, o)
    ensures WiredTable(c, Visit(c, s, id).rt) && WellPlaced(c, Visit(c, s, id).rt, o)
  {
    hide DependencyState;
    var t := Visit(c, s, id);
    forall d | d in c.nodes[o].dependsOn
      ensures t.rt[d] == s.rt[d]
    {
    }
  }

  lemma VisitPlaces(c: Config, s: State, id: Id)
    requires Wired(c, s) && WiredTable(c, s.rt) && id in c.nodes && id !in c.nodes[id].dependsOn
    requires s.rt[id].state == NodeSkipped ==> !Tolerant(c.nodes[id])
    ensures WiredTable(c, Visit(c, s, id).rt) && WellPlaced(c, Visit(c, s, id).rt, id)
  {
    DependencyStateMeaning(c.nodes[id], c.nodes[id].dependsOn, s.rt);
    var t := Visit(c, s, id);
    forall d | d in c.nodes[id].dependsOn
      ensures t.rt[d] == s.rt[d]
    {
    }
  }

  ghost predicate SkipsOk(c: Config, rt: Table, id: Id)
    requires id in c.nodes && id in rt
  {
    rt[id].state == NodeSkipped ==> !Tolerant(c.nodes[id])
  }

  lemma VisitSkipsOk(c: Config, s: State, visited: Id, id: Id)
    requires Wired(c, s) && visited in c.nodes && id in c.nodes && SkipsOk(c, s.rt, id)
    ensures id in Visit(c, s, visited).rt && SkipsOk(c, Visit(c, s, visited).rt, id)
  {
    DependencyStateMeaning(c.nodes[visited], c.nodes[visited].dependsOn, s.rt);
  }

  lemma {:induction false} PassSkipsOk(c: Config, s: State, order: seq<Id>, id: Id)
    requires Wired(c, s) && id in c.nodes && SkipsOk(c, s.rt, id) && forall x :: x in order ==> x in c.nodes
    ensures SkipsOk(c, Pass(c, s, order).rt, id)
  {
    if order != [] {
      hide SkipsOk, Visit, KnownIn;
      PassSkipsOk(c, s, order[..|order| - 1], id);
      VisitSkipsOk(c, Pass(c, s, order[..|order| - 1]), order[|order| - 1], id);
    }
  }

  // A pass that visits dependencies first places every node it visits.
  lemma {:induction false} OrderedPassPlaces(c: Config, s: State, order: seq<Id>, o: Id)
    requires Wired(c, s) && forall x :: x in order ==> x in c.nodes
    requires Topological(Dependencies(c.nodes), order) && o in order && SkipsOk(c, s.rt, o)
    ensures WiredTable(c, Pass(c, s, order).rt) && WellPlaced(c, Pass(c, s, order).rt, o)
  {
    var front, last := order[..|order| - 1], order[|order| - 1];
    OrderFront(Dependencies(c.nodes), order);
    var t := Pass(c, s, front);
    PassSkipsOk(c, s, front, o);
    if o == last {
      LastIsFresh(c, order);
      hide Topological, DependencyState, Pass;
      VisitPlaces(c, t, last);
    } else {
      OrderedPassPlaces(c, s, front, o);
      LaterIsNoDependency(c, order, o);
      hide Topological, DependencyState, WellPlaced, Visit;
      VisitPlacesOthers(c, t, last, o);
    }
  }

  lemma OrderFront(g: Edges, order: seq<Id>)
    requires Topological(g, order) && order != []
    ensures Topological(g, order[..|order| - 1])
    ensures forall o :: o in order ==> o in order[..|order| - 1] || o == order[|order| - 1]
  {
    var front := order[..|order| - 1];
    assert order == front + [order[|order| - 1]];
    forall i, d | 0 <= i < |front| && Edge(g, front[i], d)
      ensures d in front[..i]
    {
      assert front[..i] == order[..i] && front[i] == order[i];
    }
  }

  lemma LastIsFresh(c: Config, order: seq<Id>)
    requires Topological(Dependencies(c.nodes), order) && order != [] && order[|order| - 1] in c.nodes
    ensures order[|order| - 1] !in c.nodes[order[|order| - 1]].dependsOn
  {
    var k := |order| - 1;
    var last, before := order[k], order[..k];
    assert Edge(Dependencies(c.nodes), last, last) ==> last in before;
  }

  lemma LaterIsNoDependency(c: Config, order: seq<Id>, o: Id)
    requires Topological(Dependencies(c.nodes), order) && o in order && o in c.nodes && o != order[|order| - 1]
    ensures order[|order| - 1] !in c.nodes[o].dependsOn
  {
    var k := |order| - 1;
    var i :| 0 <= i < |order| && order[i] == o;
    var last, before := order[k], order[..i];
    assert Edge(Dependencies(c.nodes), o, last) ==> last in before;
  }

  // ---- Runs whose passes visit dependencies first ----

  ghost predicate DependenciesFirst(c: Config, e: Event) {
    e.Settle? ==> Topological(Dependencies(c.nodes), e.order)
  }

  ghost predicate OrderedRun(c: Config, events: seq<Event>) {
    forall i :: 0 <= i < |events| ==> DependenciesFirst(c, events[i])
  }

  // If only blocked nodes are left then none is: a blocked node would wait for another, and so
  // on round a circle.
  lemma {:induction false} BlockedChainEnds(c: Config, rt: Table, id: Id, seen: set<Id>)
    requires WiredTable(c, rt) && AllPlaced(c, rt) && Acyclic(Dependencies(c.nodes))
    requires forall o :: o in c.nodes && !IsTerminal(rt[o].state) ==> rt[o].state == NodeBlocked
    requires id in c.nodes && seen <= c.nodes.Keys && id !in seen
    requires forall x :: x in seen ==> Reaches(Dependencies(c.nodes), x, id)
    ensures rt[id].state != NodeBlocked
    decreases c.nodes.Keys - seen
  {
    var g := Dependencies(c.nodes);
    assert WellPlaced(c, rt, id);
    if rt[id].state == NodeBlocked {
      var d :| d in c.nodes[id].dependsOn && !IsTerminal(rt[d].state);
      EdgeReaches(g, id, d);
      assert d in rt;
      forall x | x in seen
        ensures Reaches(g, x, d)
      {
        ReachesTrans(g, x, id, d);
      }
      assert !Reaches(g, d, d);
      BlockedChainEnds(c, rt, d, seen + {id});
    }
  }

  lemma NoSweep(c: Config, s: State)
    requires ValidConfig(c) && Inv(c, s) && AllPlaced(c, s.rt) && !s.cancelled
    ensures !Enabled(c, s, Sweep)
  {
    hide Inv, AllPlaced;
    if Enabled(c, s, Sweep) {
      OnlyBlockedLeft(c, s);
      InvEnded(c, s);
      var id :| id in c.nodes && !(id in s.rt && IsTerminal(s.rt[id].state));
      InvNode(c, s, id);
      BlockedChainEnds(c, s.rt, id, {});
    }
  }

  lemma SettlePlaces(c: Config, s: State, order: seq<Id>)
    requires ValidConfig(c) && Inv(c, s) && WiredTable(c, s.rt) && AllPlaced(c, s.rt) && !s.cancelled
    requires Enabled(c, s, Settle(order)) && Topological(Dependencies(c.nodes), order)
    ensures WiredTable(c, Apply(c, s, Settle(order)).rt) && AllPlaced(c, Apply(c, s, Settle(order)).rt)
  {
    hide Inv, Pass, Topological, KnownIn, ValidConfig;
    SettledWired(c, s, order);
    InvHead(c, s);
    var t := SettleHead(s);
    assert forall x :: x in order <==> x in c.nodes;
    forall o | o in c.nodes
      ensures WellPlaced(c, s.rt, o) && SkipsOk(c, t.rt, o)
    {
      assert WellPlaced(c, s.rt, o);
    }
    hide Enabled, Apply;
    AllOrderedPlaces(c, t, order);
  }

  lemma AllOrderedPlaces(c: Config, s: State, order: seq<Id>)
    requires Wired(c, s) && (forall x :: x in order <==> x in c.nodes) && Topological(Dependencies(c.nodes), order)
    requires forall o {:trigger SkipsOk(c, s.rt, o)} :: o in c.nodes ==> SkipsOk(c, s.rt, o)
    ensures WiredTable(c, Pass(c, s, order).rt) && AllPlaced(c, Pass(c, s, order).rt)
  {
    hide Pass, Topological, KnownIn, SkipsOk;
    assert WiredTable(c, Pass(c, s, order).rt);
    forall o | o in c.nodes
      ensures WellPlaced(c, Pass(c, s, order).rt, o)
    {
      assert SkipsOk(c, s.rt, o);
      OrderedPassPlaces(c, s, order, o);
    }
  }

  lemma InvWired(c: Config, s: State)
    requires Inv(c, s)
    ensures WiredTable(c, s.rt)
  {
    hide Book, AllHeld, NodeInv, KnownIn;
  }

  lemma StepPlaces(c: Config, s: State, e: Event)
    requires ValidConfig(c) && Inv(c, s) && WiredTable(c, s.rt) && AllPlaced(c, s.rt) && Enabled(c, s, e)
    requires DependenciesFirst(c, e)
    ensures WiredTable(c, Apply(c, s, e).rt) && AllPlaced(c, Apply(c, s, e).rt)
  {
    hide Inv, KnownIn, Pass, ValidConfig, Topological;
    StepKeeps(c, s, e);
    InvWired(c, Apply(c, s, e));
    if s.cancelled {
      CancelledIsOver(c, s, e);
    } else if e.Settle? {
      SettlePlaces(c, s, e.order);
    } else if e.Sweep? {
      NoSweep(c, s);
    } else {
      if e.Retry? {
        InvHead(c, s);
      }
      forall o | o in c.nodes
        ensures WellPlaced(c, Apply(c, s, e).rt, o)
      {
        assert WellPlaced(c, s.rt, o);
        StepPlacesOne(c, s, e, o);
      }
    }
  }

  lemma StepPlacesOne(c: Config, s: State, e: Event, o: Id)
    requires Enabled(c, s, e) && !e.Settle? && !e.Sweep? && WiredTable(c, s.rt) && o in c.nodes
               && WellPlaced(c, s.rt, o)
    requires e.Retry? ==> s.rt[s.channel[0].id].state == NodeRunning
    ensures WiredTable(c, Apply(c, s, e).rt) ==> WellPlaced(c, Apply(c, s, e).rt, o)
  {
    hide KnownIn, Pass, DependencyState, TopReady, TopRetry, VisitsAll, ShouldRetry, MaxAttempts, RetryDelay, Tolerant;
    match e
    case Promote(r) => PlacedUpdate(c, s.rt, r.id, s.rt[r.id].(state := NodeReady), o);
    case Launch(item) =>
      PlacedUpdate(c, s.rt, item.id, s.rt[item.id].(state := NodeRunning, attempt := s.rt[item.id].attempt + 1), o);
    case Retry =>
      var id := s.channel[0].id;
      PlacedUpdate(c, s.rt, id, RuntimeNode(NodeRetryWait, ReceivedResult(s), s.rt[id].attempt), o);
    case _ =>
  }

  lemma {:induction false} OrderedRunPlaces(c: Config, s: State, events: seq<Event>)
    requires ValidConfig(c) && Inv(c, s) && WiredTable(c, s.rt) && AllPlaced(c, s.rt)
    requires CanRun(c, s, events) && OrderedRun(c, events)
    ensures WiredTable(c, After(c, s, events).rt) && AllPlaced(c, After(c, s, events).rt)
    decreases |events|
  {
    hide Inv, ValidConfig, Apply, Enabled, AllPlaced, WiredTable, DependenciesFirst;
    if events != [] {
      assert DependenciesFirst(c, events[0]);
      StepKeeps(c, s, events[0]);
      StepPlaces(c, s, events[0]);
      assert OrderedRun(c, events[1..]) by {
        forall i | 0 <= i < |events[1..]|
          ensures DependenciesFirst(c, events[1..][i])
        {
          assert DependenciesFirst(c, events[i + 1]);
        }
      }
      OrderedRunPlaces(c, Apply(c, s, events[0]), events[1..]);
    }
  }

  lemma InitPlaced(c: Config, order: seq<Id>, clock: int)
    requires ValidConfig(c) && VisitsAll(c, order)
    ensures WiredTable(c, Init(c, order, clock).rt) && AllPlaced(c, Init(c, order, clock).rt)
  {
    InitTable(c);
    var rt := FreshTable(c);
    forall id | id in c.nodes
      ensures WellPlaced(c, rt, id)
    {
      if c.nodes[id].dependsOn != [] {
        assert c.nodes[id].dependsOn[0] in c.nodes[id].dependsOn;
        assert !IsTerminal(rt[c.nodes[id].dependsOn[0]].state);
      }
    }
  }

  // When every pass visits dependencies first, the sweep never fires, no tolerant node is ever
  // skipped, and a run that ends uncancelled has executed every tolerant node.
  lemma OrderedPassesNeedNoSweep(c: Config, order: seq<Id>, clock: int, events: seq<Event>, s: State)
    requires Reached(c, order, clock, events, s) && OrderedRun(c, events) && !s.cancelled
    ensures !Enabled(c, s, Sweep)
    ensures forall id :: id in c.nodes && Tolerant(c.nodes[id]) ==> id in s.rt && s.rt[id].state != NodeSkipped
    ensures !Active(c, s) ==>
              forall id :: id in c.nodes && Tolerant(c.nodes[id]) ==> id in s.rt && IsOutcome(s.rt[id].state)
  {
    hide Inv, AllPlaced, WiredTable, OrderedRun;
    ReachedInv(c, order, clock, events, s);
    InitOk(c, order, clock);
    InitPlaced(c, order, clock);
    OrderedRunPlaces(c, Init(c, order, clock), events);
    hide Reached;
    NoSweep(c, s);
    PlacedSkips(c, s);
    InvEnded(c, s);
    forall id | id in c.nodes && !Active(c, s) && Tolerant(c.nodes[id])
      ensures id in s.rt && IsOutcome(s.rt[id].state)
    {
      InvNode(c, s, id);
    }
  }

  lemma PlacedSkips(c: Config, s: State)
    requires WiredTable(c, s.rt) && AllPlaced(c, s.rt)
    ensures forall id :: id in c.nodes && Tolerant(c.nodes[id]) ==> id in s.rt && s.rt[id].state != NodeSkipped
  {
    forall id | id in c.nodes && Tolerant(c.nodes[id])
      ensures id in s.rt && s.rt[id].state != NodeSkipped
    {
      assert WellPlaced(c, s.rt, id);
    }
  }

  // ---- Without that order ----

  function Node(id: Id, op: PlanOp, deps: seq<Id>): PlanNode {
    PlanNode(id, op, deps, OtherRequest(true), 0.0, false, 0, RetryPolicy(1, 0, 0))
  }

  // A search, a fetch of what it finds, and a merge of whatever the fetch brings.
  function OvertakenPlan(): Config {
    Config(map["a" := Node("a", PlanSearch, []), "b" := Node("b", PlanFetch, ["a"]),
               "c" := Node("c", PlanMerge, ["b"])],
           ["a", "b", "c"], 4, "session")
  }

  const BROKEN := NodeResult(NodeFailed, 0, Some(ErrorDetail(UpstreamPermanent, false)), "")

  lemma OvertakenPlanIsOrdered()
    ensures var g := Dependencies(OvertakenPlan().nodes);
            Topological(g, ["a", "b", "c"]) && Closed(g) && forall a :: a in g ==> a in ["a", "b", "c"]
  {
    var ids, g := ["a", "b", "c"], Dependencies(OvertakenPlan().nodes);
    assert g["a"] == [] && g["b"] == ["a"] && g["c"] == ["b"];
    assert "a" in ["a"] && "b" in ["a", "b"];
    assert ids[..0] == [] && ids[..1] == ["a"] && ids[..2] == ["a", "b"];
  }

  lemma OvertakenIds()
    ensures var c := OvertakenPlan();
            && VisitsAll(c, c.ids) && |c.ids| == |c.nodes| == 3 && c.ids == ["a", "b", "c"]
            && c.nodes["a"].id == "a" && c.nodes["b"].id == "b" && c.nodes["c"].id == "c"
            && forall id :: id in c.nodes ==> id == "a" || id == "b" || id == "c"
  {
    assert OvertakenPlan().nodes.Keys == {"a", "b", "c"};
  }

  lemma OvertakenPlanIsValid()
    ensures ValidConfig(OvertakenPlan())
  {
    hide Topological, Closed, Acyclic, Dependencies;
    OvertakenPlanIsOrdered();
    TopologicalIsAcyclic(Dependencies(OvertakenPlan().nodes), ["a", "b", "c"]);
    OvertakenIds();
  }

  const FRESH := NodeResult(NodeUnset, 0, None, "")

  // The state of the overtaken plan with the given entries for its three nodes.
  function Snapshot(a: RuntimeNode, b: RuntimeNode, ready: set<ReadyItem>, terminal: int): State {
    State(map["a" := a, "b" := b, "c" := RuntimeNode(NodeBlocked, FRESH, 0)], ready, {}, 0, terminal, 1, "session", 0,
          {}, [], false)
  }

  const ROOT := ReadyItem("a", 0.0, 0)
  const BROKEN_NODE := RuntimeNode(NodeFailed, BROKEN.(attempts := 1), 1)
  const BLOCKED_NODE := RuntimeNode(NodeBlocked, FRESH, 0)

  lemma OvertakenStart()
    ensures var c := OvertakenPlan();
            Init(c, c.ids, 0) == Snapshot(RuntimeNode(NodeReady, FRESH, 0), BLOCKED_NODE, {ROOT}, 0)
    ensures Wired(OvertakenPlan(), Init(OvertakenPlan(), OvertakenPlan().ids, 0))
  {
    var c := OvertakenPlan();
    assert c.ids[..2] == ["a", "b"] && ["a", "b"][..1] == ["a"] && ["a"][..0] == [];
    assert InitialPushes(c, []) == ({}, 0);
    assert InitialPushes(c, ["a"]) == ({ROOT}, 1) by {
      assert {} + {ROOT} == {ROOT};
      assert c.nodes["a"].dependsOn == [] && ["a"][0] == "a";
    }
    assert InitialPushes(c, ["a", "b"]) == ({ROOT}, 1);
    assert InitialPushes(c, c.ids) == ({ROOT}, 1);
  }

  lemma OvertakingVisits(s: State)
    requires s == Snapshot(BROKEN_NODE, BLOCKED_NODE, {}, 1)
    ensures var c := OvertakenPlan();
            && Wired(c, s) && "a" in c.nodes && "b" in c.nodes && "c" in c.nodes
            && Visit(c, s, "a") == s && Visit(c, s, "c") == s
            && Visit(c, s, "b") == Snapshot(BROKEN_NODE, Ended(BLOCKED_NODE, NodeSkipped, UpstreamPermanent), {}, 2)
  {
    var c := OvertakenPlan();
    assert DependencyState(c.nodes["c"], ["b"], s.rt) == Wait;
    assert DependencyState(c.nodes["b"], ["a"], s.rt) == Skip;
  }

  lemma OvertakingPass(s: State)
    requires s == Snapshot(BROKEN_NODE, BLOCKED_NODE, {}, 1)
    ensures Wired(OvertakenPlan(), s)
    ensures Pass(OvertakenPlan(), s, OVERTAKING)
            == Snapshot(BROKEN_NODE, Ended(BLOCKED_NODE, NodeSkipped, UpstreamPermanent), {}, 2)
  {
    var c := OvertakenPlan();
    assert OVERTAKING[..2] == ["a", "c"] && ["a", "c"][..1] == ["a"] && ["a"][..0] == [];
    OvertakingVisits(s);
    hide Visit, Wired, OvertakenPlan, Snapshot;
    assert Pass(c, s, []) == s;
    assert Pass(c, s, ["a"]) == s;
    assert Pass(c, s, ["a", "c"]) == s;
  }

  const DONE := Completion("a", BROKEN, "session")
  const OVERTAKING := ["a", "c", "b"]

  // Up to the point where the completion of the search is in the channel.
  lemma OvertakenSearch(s: State)
    requires s == Snapshot(RuntimeNode(NodeReady, FRESH, 0), BLOCKED_NODE, {ROOT}, 0)
    ensures var c := OvertakenPlan();
            && Enabled(c, s, Launch(ROOT)) && Enabled(c, Apply(c, s, Launch(ROOT)), Send(DONE))
            && Apply(c, Apply(c, s, Launch(ROOT)), Send(DONE))
               == Snapshot(RuntimeNode(NodeRunning, FRESH, 1), BLOCKED_NODE, {}, 0).(running := 1, channel := [DONE])
  {
    var c := OvertakenPlan();
    var s1 := Apply(c, s, Launch(ROOT));
    assert s1.ready == {} && s1.working == {"a"};
    assert Wired(c, s1);
    var s2 := Apply(c, s1, Send(DONE));
    assert s2.working == {} && s2.channel == [DONE];
  }

  lemma OvertakenCanSettle(s: State)
    requires s == Snapshot(RuntimeNode(NodeRunning, FRESH, 1), BLOCKED_NODE, {}, 0).(running := 1, channel := [DONE])
    ensures Enabled(OvertakenPlan(), s, Settle(OVERTAKING))
  {
    hide DependencyState;
  }

  lemma OvertakenSettle(s: State)
    requires s == Snapshot(RuntimeNode(NodeRunning, FRESH, 1), BLOCKED_NODE, {}, 0).(running := 1, channel := [DONE])
    ensures var c := OvertakenPlan();
            && Enabled(c, s, Settle(OVERTAKING))
            && Apply(c, s, Settle(OVERTAKING))
               == Snapshot(BROKEN_NODE, Ended(BLOCKED_NODE, NodeSkipped, UpstreamPermanent), {}, 2)
  {
    assert s.channel[1..] == [];
    assert SettleHead(s) == Snapshot(BROKEN_NODE, BLOCKED_NODE, {}, 1);
    OvertakenCanSettle(s);
    hide Pass, SettleHead, Enabled, Snapshot, Wired;
    OvertakingPass(SettleHead(s));
  }

  lemma OvertakenSweep(s: State)
    requires s == Snapshot(BROKEN_NODE, Ended(BLOCKED_NODE, NodeSkipped, UpstreamPermanent), {}, 2)
    ensures var c := OvertakenPlan();
            && Enabled(c, s, Sweep)
            && Apply(c, s, Sweep).rt == s.rt["c" := Ended(BLOCKED_NODE, NodeSkipped, Internal)]
            && Apply(c, s, Sweep).terminal == 3 && !Apply(c, s, Sweep).cancelled
  {
    assert TerminalIds(s.rt) == {"a", "b"};
    assert s.rt.Keys - TerminalIds(s.rt) == {"c"};
  }

  lemma FourSteps(c: Config, s: State, e0: Event, e1: Event, e2: Event, e3: Event)
    requires Enabled(c, s, e0) && Enabled(c, Apply(c, s, e0), e1)
    requires Enabled(c, Apply(c, Apply(c, s, e0), e1), e2)
    requires Enabled(c, Apply(c, Apply(c, Apply(c, s, e0), e1), e2), e3)
    ensures CanRun(c, s, [e0, e1, e2, e3])
    ensures After(c, s, [e0, e1, e2, e3]) == Apply(c, Apply(c, Apply(c, Apply(c, s, e0), e1), e2), e3)
  {
    hide Enabled, Apply;
    RunAppend(c, s, [], e0);
    RunAppend(c, s, [e0], e1);
    RunAppend(c, s, [e0, e1], e2);
    RunAppend(c, s, [e0, e1, e2], e3);
    assert [] + [e0] == [e0] && [e0] + [e1] == [e0, e1];
    assert [e0, e1] + [e2] == [e0, e1, e2] && [e0, e1, e2] + [e3] == [e0, e1, e2, e3];
  }

  // The search fails for good. The pass that follows visits the merge before the fetch: the
  // fetch is skipped, the merge has been looked at too early, and with nothing left to run the
  // sweep skips it, although a merge tolerates a skipped dependency.
  lemma TolerantNodeCanBeSwept() returns (c: Config, events: seq<Event>, s: State)
    ensures Reached(c, c.ids, 0, events, s) && !s.cancelled && !Active(c, s)
    ensures "c" in c.nodes && Tolerant(c.nodes["c"]) && c.nodes["c"].dependsOn == ["b"]
    ensures "c" in s.rt && s.rt["c"].state == NodeSkipped
              && s.rt["c"].result.error == Some(ErrorDetail(Internal, false))
    ensures "b" in s.rt && s.rt["b"].result.error == Some(ErrorDetail(UpstreamPermanent, false))
  {
    c, events, s := OvertakenRun();
    SweptNode(OvertakenSkipped());
  }

  function OvertakenSkipped(): State {
    Snapshot(BROKEN_NODE, Ended(BLOCKED_NODE, NodeSkipped, UpstreamPermanent), {}, 2)
  }

  lemma SweptNode(s: State)
    requires s == OvertakenSkipped()
    ensures Enabled(OvertakenPlan(), s, Sweep)
    ensures var t := Apply(OvertakenPlan(), s, Sweep);
            && !t.cancelled && !Active(OvertakenPlan(), t) && "b" in t.rt && "c" in t.rt
            && t.rt["c"].state == NodeSkipped && t.rt["c"].result.error == Some(ErrorDetail(Internal, false))
            && t.rt["b"].result.error == Some(ErrorDetail(UpstreamPermanent, false))
  {
    OvertakenSweep(s);
    hide Apply, Enabled;
    assert |OvertakenPlan().nodes| == 3 by {
      OvertakenIds();
    }
  }

  lemma OvertakenRun() returns (c: Config, events: seq<Event>, s: State)
    ensures c == OvertakenPlan() && Enabled(c, OvertakenSkipped(), Sweep) && s == Apply(c, OvertakenSkipped(), Sweep)
    ensures Reached(c, c.ids, 0, events, s)
  {
    hide Enabled, Apply, Init, ValidConfig, CanRun, After, VisitsAll, OvertakenPlan, Snapshot, Wired;
    c := OvertakenPlan();
    OvertakenPlanIsValid();
    OvertakenIds();
    OvertakenStart();
    var s0 := Init(c, c.ids, 0);
    OvertakenSearch(s0);
    var s2 := Apply(c, Apply(c, s0, Launch(ROOT)), Send(DONE));
    OvertakenSettle(s2);
    var s3 := Apply(c, s2, Settle(OVERTAKING));
    OvertakenSweep(s3);
    s := Apply(c, s3, Sweep);
    events := [Launch(ROOT), Send(DONE), Settle(OVERTAKING), Sweep];
    FourSteps(c, s0, Launch(ROOT), Send(DONE), Settle(OVERTAKING), Sweep);
  }
}
