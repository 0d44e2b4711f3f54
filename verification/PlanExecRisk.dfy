// Which nodes of a plan can end up skipped at all, whatever fails and in whatever order the passes
// visit the nodes: a condition on the plan alone.
module PlanExecRisk {
  import opened Wrappers
  import opened Graph
  import opened PlanModel
  import opened PlanExec
  import opened PlanExecInv
  import opened PlanExecSteps
  import opened PlanExecRuns
  import opened PlanExecProgress

  // A node that a dependency pass can skip: it waits for something and tolerates no failure.
  predicate Exposed(c: Config, id: Id) {
    id in c.nodes && !Tolerant(c.nodes[id]) && c.nodes[id].dependsOn != []
  }

  predicate Shielded(c: Config, id: Id) {
    id in c.nodes && Tolerant(c.nodes[id])
  }

  // From tolerant node to tolerant node down to an exposed one.
  ghost predicate RiskPath(c: Config, p: seq<Id>) {
    Path(Dependencies(c.nodes), p) && Exposed(c, p[|p| - 1]) && forall i :: 0 <= i < |p| - 1 ==> Shielded(c, p[i])
  }

  ghost predicate AtRisk(c: Config, id: Id) {
    exists p :: RiskPath(c, p) && p[0] == id
  }

  lemma ExposedIsAtRisk(c: Config, id: Id)
    requires Exposed(c, id)
    ensures AtRisk(c, id)
  {
    assert RiskPath(c, [id]);
  }

  lemma RiskPassesOn(c: Config, id: Id, d: Id)
    requires Shielded(c, id) && d in c.nodes[id].dependsOn && AtRisk(c, d)
    ensures AtRisk(c, id)
  {
    var g := Dependencies(c.nodes);
    var p :| RiskPath(c, p) && p[0] == d;
    var q := [id] + p;
    forall i | 0 <= i < |q| - 1
      ensures Linked(g, q, i) && Shielded(c, q[i])
    {
      if i > 0 {
        assert Linked(g, p, i - 1);
        assert q[i] == p[i - 1];
      }
    }
    assert RiskPath(c, q);
  }

  // A node at risk is exposed itself, or tolerant and above one at risk; no other is.
  lemma RiskComesFromBelow(c: Config, id: Id)
    ensures AtRisk(c, id) <==>
              Exposed(c, id) || (Shielded(c, id) && exists d :: d in c.nodes[id].dependsOn && AtRisk(c, d))
  {
    if AtRisk(c, id) {
      var p :| RiskPath(c, p) && p[0] == id;
      if |p| > 1 {
        assert Linked(Dependencies(c.nodes), p, 0);
        PathTail(Dependencies(c.nodes), p);
        assert RiskPath(c, p[1..]) && p[1..][0] == p[1];
        assert p[1] in c.nodes[id].dependsOn && AtRisk(c, p[1]);
      }
    }
    if Exposed(c, id) {
      ExposedIsAtRisk(c, id);
    } else if d :| Shielded(c, id) && d in c.nodes[id].dependsOn && AtRisk(c, d) {
      RiskPassesOn(c, id, d);
    }
  }

  // ---- Every event keeps to it ----

  ghost predicate OnlyAtRisk(c: Config, rt: Table) {
    forall id :: id in c.nodes && id in rt && rt[id].state == NodeSkipped ==> AtRisk(c, id)
  }

  lemma VisitSkipsExposed(c: Config, s: State, visited: Id)
    requires Wired(c, s) && visited in c.nodes && OnlyAtRisk(c, s.rt)
    ensures OnlyAtRisk(c, Visit(c, s, visited).rt)
  {
    hide AtRisk, KnownIn, DependencyState, IsTerminal, IsBad, Tolerant;
    DependencyStateMeaning(c.nodes[visited], c.nodes[visited].dependsOn, s.rt);
    if DependencyState(c.nodes[visited], c.nodes[visited].dependsOn, s.rt) == Skip {
      ExposedIsAtRisk(c, visited);
    }
  }

  lemma {:induction false} PassSkipsExposed(c: Config, s: State, order: seq<Id>)
    requires Wired(c, s) && OnlyAtRisk(c, s.rt) && forall x :: x in order ==> x in c.nodes
    ensures OnlyAtRisk(c, Pass(c, s, order).rt)
  {
    if order != [] {
      hide OnlyAtRisk, Visit, KnownIn;
      PassSkipsExposed(c, s, order[..|order| - 1]);
      VisitSkipsExposed(c, Pass(c, s, order[..|order| - 1]), order[|order| - 1]);
    }
  }

  // At the sweep a blocked node is held by others, down to one that was skipped or is exposed.
  lemma {:induction false} StuckIsAtRisk(c: Config, rt: Table, id: Id, seen: set<Id>)
    requires WiredTable(c, rt) && AllHeld(c, rt) && OnlyAtRisk(c, rt) && Acyclic(Dependencies(c.nodes))
    requires forall o :: o in c.nodes && !IsTerminal(rt[o].state) ==> rt[o].state == NodeBlocked
    requires id in c.nodes && rt[id].state == NodeBlocked && seen <= c.nodes.Keys && id !in seen
    requires forall x :: x in seen ==> Reaches(Dependencies(c.nodes), x, id)
    ensures AtRisk(c, id)
    decreases c.nodes.Keys - seen
  {
    hide AtRisk;
    var g := Dependencies(c.nodes);
    assert Held(c, rt, id);
    var d :| d in c.nodes[id].dependsOn && (!IsTerminal(rt[d].state) || rt[d].state == NodeSkipped);
    if Tolerant(c.nodes[id]) {
      EdgeReaches(g, id, d);
      assert d in rt;
      if rt[d].state != NodeSkipped {
        forall x | x in seen
          ensures Reaches(g, x, d)
        {
          ReachesTrans(g, x, id, d);
        }
        assert !Reaches(g, d, d);
        StuckIsAtRisk(c, rt, d, seen + {id});
      }
      RiskPassesOn(c, id, d);
    } else {
      ExposedIsAtRisk(c, id);
    }
  }

  lemma SweepSkipsAtRisk(c: Config, s: State)
    requires ValidConfig(c) && Inv(c, s) && !s.cancelled && OnlyAtRisk(c, s.rt) && Enabled(c, s, Sweep)
    ensures OnlyAtRisk(c, Apply(c, s, Sweep).rt)
  {
    hide AtRisk, Live, GoroutinesOk, NodeInv, KnownIn;
    OnlyBlockedLeft(c, s);
    forall id | id in c.nodes && !IsTerminal(s.rt[id].state)
      ensures AtRisk(c, id)
    {
      StuckIsAtRisk(c, s.rt, id, {});
    }
  }

  lemma OtherStepsSkipNothing(c: Config, s: State, e: Event)
    requires Enabled(c, s, e) && !e.Settle? && !e.Sweep? && OnlyAtRisk(c, s.rt)
    ensures OnlyAtRisk(c, Apply(c, s, e).rt)
  {
    hide AtRisk, KnownIn;
  }

  lemma SettleSkipsExposed(c: Config, s: State, order: seq<Id>)
    requires Inv(c, s) && !s.cancelled && OnlyAtRisk(c, s.rt) && Enabled(c, s, Settle(order))
    ensures OnlyAtRisk(c, Apply(c, s, Settle(order)).rt)
  {
    hide Inv, AtRisk, Pass, KnownIn;
    SettledWired(c, s, order);
    InvHead(c, s);
    PassSkipsExposed(c, SettleHead(s), order);
  }

  lemma StepSkipsAtRisk(c: Config, s: State, e: Event)
    requires ValidConfig(c) && Inv(c, s) && Enabled(c, s, e) && OnlyAtRisk(c, s.rt)
    ensures OnlyAtRisk(c, Apply(c, s, e).rt)
  {
    hide Inv, OnlyAtRisk, Enabled, Apply, ValidConfig;
    if s.cancelled {
      CancelledIsOver(c, s, e);
      OtherStepsSkipNothing(c, s, e);
    } else if e.Settle? {
      SettleSkipsExposed(c, s, e.order);
    } else if e.Sweep? {
      SweepSkipsAtRisk(c, s);
    } else {
      OtherStepsSkipNothing(c, s, e);
    }
  }

  lemma {:induction false} RunSkipsAtRisk(c: Config, s: State, events: seq<Event>)
    requires ValidConfig(c) && Inv(c, s) && CanRun(c, s, events) && OnlyAtRisk(c, s.rt)
    ensures OnlyAtRisk(c, After(c, s, events).rt)
    decreases |events|
  {
    hide Inv, ValidConfig, Apply, Enabled, OnlyAtRisk;
    if events != [] {
      StepKeeps(c, s, events[0]);
      StepSkipsAtRisk(c, s, events[0]);
      RunSkipsAtRisk(c, Apply(c, s, events[0]), events[1..]);
    }
  }

  lemma InitSkipsNothing(c: Config, order: seq<Id>, clock: int)
    requires VisitsAll(c, order)
    ensures OnlyAtRisk(c, Init(c, order, clock).rt)
  {
  }

  // ---- The theorems ----

  // In no run, cancelled or not, and with no order of the passes, is a node skipped that is not at
  // risk. A tolerant node is skipped only if some direct dependency of it is at risk.
  lemma SkippedOnlyAtRisk(c: Config, order: seq<Id>, clock: int, events: seq<Event>, s: State, id: Id)
    requires Reached(c, order, clock, events, s)
    requires id in c.nodes && id in s.rt && s.rt[id].state == NodeSkipped
    ensures AtRisk(c, id)
    ensures Tolerant(c.nodes[id]) ==> exists d :: d in c.nodes[id].dependsOn && AtRisk(c, d)
  {
    hide Inv, AtRisk;
    InitOk(c, order, clock);
    InitSkipsNothing(c, order, clock);
    RunSkipsAtRisk(c, Init(c, order, clock), events);
    RiskComesFromBelow(c, id);
  }

  // A run that ends uncancelled has executed every node that is not at risk, whatever failed.
  lemma SafeNodesAreExecuted(c: Config, order: seq<Id>, clock: int, events: seq<Event>, s: State, id: Id)
    requires Reached(c, order, clock, events, s) && !Active(c, s) && !s.cancelled && id in c.nodes && !AtRisk(c, id)
    ensures id in s.rt && IsOutcome(s.rt[id].state) && s.rt[id].attempt > 0
  {
    hide Reached, Inv, AtRisk;
    ReachedInv(c, order, clock, events, s);
    InvEnded(c, s);
    InvNode(c, s, id);
    if s.rt[id].state == NodeSkipped {
      SkippedOnlyAtRisk(c, order, clock, events, s, id);
    }
  }

  // A root or tolerant node all of whose transitive dependencies are roots or tolerant is not at
  // risk.
  lemma RootsAndTolerantNodesAreSafe(c: Config, id: Id)
    requires !Exposed(c, id) && forall d :: Reaches(Dependencies(c.nodes), id, d) ==> !Exposed(c, d)
    ensures !AtRisk(c, id)
  {
    hide Exposed;
    if p :| RiskPath(c, p) && p[0] == id {
      RiskEndsExposed(c, p);
    }
  }

  lemma RiskEndsExposed(c: Config, p: seq<Id>)
    requires RiskPath(c, p)
    ensures Exposed(c, p[0]) || exists d :: Reaches(Dependencies(c.nodes), p[0], d) && Exposed(c, d)
  {
    var last := p[|p| - 1];
    if |p| >= 2 {
      assert PathFromTo(Dependencies(c.nodes), p, p[0], last);
    }
  }

  // ---- A run in which one node fails ----

  // What a provider comes back with if `bad` fails for good and everything else succeeds.
  function Scripted(id: Id, bad: Id): NodeResult {
    if id == bad then NodeResult(NodeFailed, 0, Some(ErrorDetail(UpstreamPermanent, false)), "")
      else NodeResult(NodeSucceeded, 0, None, "")
  }

  // Nothing else has failed, and it has not succeeded.
  ghost predicate OnlyFails(s: State, bad: Id) {
    && (forall id :: id in s.rt && IsOutcome(s.rt[id].state) ==> (s.rt[id].state == NodeFailed <==> id == bad))
    && forall i :: 0 <= i < |s.channel| ==> s.channel[i].result == Scripted(s.channel[i].id, bad)
  }

  lemma VisitKeepsOutcomes(c: Config, s: State, visited: Id, bad: Id)
    requires Wired(c, s) && visited in c.nodes && OnlyFails(s, bad)
    ensures OnlyFails(Visit(c, s, visited), bad)
  {
    hide KnownIn, DependencyState;
  }

  lemma {:induction false} PassKeepsOutcomes(c: Config, s: State, order: seq<Id>, bad: Id)
    requires Wired(c, s) && OnlyFails(s, bad) && forall x :: x in order ==> x in c.nodes
    ensures OnlyFails(Pass(c, s, order), bad)
  {
    if order != [] {
      hide OnlyFails, Visit, KnownIn;
      PassKeepsOutcomes(c, s, order[..|order| - 1], bad);
      VisitKeepsOutcomes(c, Pass(c, s, order[..|order| - 1]), order[|order| - 1], bad);
    }
  }

  lemma HeadKeepsOutcomes(s: State, bad: Id)
    requires OnlyFails(s, bad) && s.channel != [] && s.channel[0].id in s.rt
    ensures OnlyFails(SettleHead(s), bad)
  {
  }

  lemma StepKeepsOutcomes(c: Config, s: State, e: Event, bad: Id)
    requires Enabled(c, s, e) && OnlyFails(s, bad) && !e.Cancel?
    requires e.Send? ==> e.done.result == Scripted(e.done.id, bad)
    ensures OnlyFails(Apply(c, s, e), bad)
  {
    hide KnownIn, Pass, DependencyState;
    if e.Settle? {
      SettledWired(c, s, e.order);
      HeadKeepsOutcomes(s, bad);
      hide OnlyFails, SettleHead;
      PassKeepsOutcomes(c, SettleHead(s), e.order, bad);
    }
  }

  // Some event goes on with such a run, possibly once the clock has reached the next retry.
  lemma ScriptedEvent(c: Config, s: State, bad: Id) returns (now: int, e: Event)
    requires ValidConfig(c) && Inv(c, s) && !s.cancelled && Active(c, s)
    ensures now >= s.clock && !e.Tick? && !e.Cancel? && Enabled(c, s.(clock := now), e)
    ensures e.Send? ==> e.done.result == Scripted(e.done.id, bad)
  {
    hide Inv, ValidConfig, KnownIn;
    now, e := NextEvent(c, s);
    if e.Send? {
      e := Send(Completion(e.done.id, Scripted(e.done.id, bad), ""));
    }
  }

  lemma NotCancelled(c: Config, s: State, e: Event)
    requires Enabled(c, s, e) && !s.cancelled && !e.Cancel?
    ensures !Apply(c, s, e).cancelled
  {
    hide KnownIn, Pass, DependencyState;
    if e.Settle? {
      SettledWired(c, s, e.order);
      PassIsNoCancel(c, SettleHead(s), e.order);
    }
  }

  lemma {:induction false} PassIsNoCancel(c: Config, s: State, order: seq<Id>)
    requires Wired(c, s) && forall x :: x in order ==> x in c.nodes
    ensures Pass(c, s, order).cancelled == s.cancelled
  {
    if order != [] {
      PassIsNoCancel(c, s, order[..|order| - 1]);
    }
  }

  // The run up to its end.
  lemma {:induction false} ScriptedRun(c: Config, s: State, bad: Id) returns (events: seq<Event>)
    requires ValidConfig(c) && Inv(c, s) && !s.cancelled && OnlyFails(s, bad)
    requires forall id :: id in c.ids ==> id in c.nodes && id in s.rt
    ensures CanRun(c, s, events)
    ensures var t := After(c, s, events);
            Inv(c, t) && !t.cancelled && !Active(c, t) && OnlyFails(t, bad)
    decreases Measure(c, s)
  {
    hide Inv, ValidConfig, Enabled, Apply, OnlyFails, Measure;
    if !Active(c, s) {
      return [];
    }
    var now, e := ScriptedEvent(c, s, bad);
    var ticked := TickTo(c, s, now, bad);
    var t := Apply(c, ticked, e);
    StepKeeps(c, ticked, e);
    MeasureFalls(c, ticked, e);
    StepKeepsOutcomes(c, ticked, e, bad);
    NotCancelled(c, ticked, e);
    InvIds(c, t);
    var rest := ScriptedRun(c, t, bad);
    events := [Tick(now), e] + rest;
    assert events[1..] == [e] + rest && events[1..][1..] == rest;
  }

  lemma TickTo(c: Config, s: State, now: int, bad: Id) returns (t: State)
    requires ValidConfig(c) && Inv(c, s) && !s.cancelled && OnlyFails(s, bad) && now >= s.clock
    requires forall id :: id in c.ids ==> id in c.nodes && id in s.rt
    ensures Enabled(c, s, Tick(now)) && t == Apply(c, s, Tick(now)) == s.(clock := now)
    ensures Inv(c, t) && OnlyFails(t, bad) && Measure(c, t) <= Measure(c, s)
  {
    hide Inv, ValidConfig, Measure, Enabled, Apply, OnlyFails;
    t := s.(clock := now);
    TickEnabled(c, s, now, bad);
    StepKeeps(c, s, Tick(now));
    MeasureFalls(c, s, Tick(now));
  }

  lemma TickEnabled(c: Config, s: State, now: int, bad: Id)
    requires Inv(c, s) && now >= s.clock && OnlyFails(s, bad)
    ensures Enabled(c, s, Tick(now)) && Apply(c, s, Tick(now)) == s.(clock := now) && OnlyFails(s.(clock := now), bad)
  {
    hide Book, AllHeld, NodeInv, KnownIn;
  }

  // The only node that failed did so itself, and what waits for it and does not tolerate that ends
  // skipped.
  lemma EndOfScript(c: Config, s: State, id: Id, bad: Id)
    requires ValidConfig(c) && Inv(c, s) && !s.cancelled && !Active(c, s) && OnlyFails(s, bad)
    requires Exposed(c, id) && bad in c.nodes[id].dependsOn
    ensures id in s.rt && s.rt[id].state == NodeSkipped
    ensures forall x :: x in s.rt && s.rt[x].state == NodeFailed <==> x == bad
  {
    hide Inv, OnlyFails;
    InvEnded(c, s);
    EdgeReaches(Dependencies(c.nodes), id, bad);
    NoCycle(c, bad);
    hide ValidConfig;
    EndedNode(c, s, bad, bad);
    EndedNode(c, s, id, bad);
    NodeWaitsFor(c, s.rt, id, bad);
    OnlyBadFailed(s, bad);
  }

  lemma NoCycle(c: Config, id: Id)
    requires ValidConfig(c)
    ensures !Reaches(Dependencies(c.nodes), id, id)
    ensures forall a, b :: a in c.nodes && b in c.nodes[a].dependsOn ==> b in c.nodes
  {
    hide VisitsAll, Reaches;
    forall a, b | a in c.nodes && b in c.nodes[a].dependsOn
      ensures b in c.nodes
    {
      assert Edge(Dependencies(c.nodes), a, b);
    }
  }

  lemma OnlyBadFailed(s: State, bad: Id)
    requires OnlyFails(s, bad) && bad in s.rt && s.rt[bad].state == NodeFailed
    ensures forall x :: x in s.rt && s.rt[x].state == NodeFailed <==> x == bad
  {
  }

  // A node that was started after a failed dependency tolerates that.
  lemma NodeWaitsFor(c: Config, rt: Table, id: Id, bad: Id)
    requires id in c.nodes && id in rt && KnownIn(c.nodes[id].dependsOn, rt) && NodeInv(c, rt, id)
    requires Exposed(c, id) && bad in c.nodes[id].dependsOn && bad in rt && rt[bad].state == NodeFailed
    ensures !IsOutcome(rt[id].state)
  {
    hide FailedAncestor;
  }

  lemma EndedNode(c: Config, s: State, id: Id, bad: Id)
    requires Inv(c, s) && id in c.nodes && OnlyFails(s, bad) && !s.cancelled && id in s.rt && IsTerminal(s.rt[id].state)
    ensures KnownIn(c.nodes[id].dependsOn, s.rt) && NodeInv(c, s.rt, id)
    ensures IsOutcome(s.rt[id].state) ==> (s.rt[id].state == NodeFailed <==> id == bad)
    ensures !IsOutcome(s.rt[id].state) ==> s.rt[id].state == NodeSkipped && Reaches(Dependencies(c.nodes), id, bad)
  {
    InvNode(c, s, id);
    hide Inv;
  }

  // Every exposed node is skipped in some run, with any first order and from any time: the one in which
  // one of its dependencies fails, and nothing else does. So of the nodes that are not tolerant exactly
  // those with dependencies can be skipped.
  lemma ExposedCanBeSkipped(c: Config, order: seq<Id>, clock: int, id: Id, bad: Id)
    returns (events: seq<Event>, s: State)
    requires ValidConfig(c) && VisitsAll(c, order) && Exposed(c, id) && bad in c.nodes[id].dependsOn
    ensures Reached(c, order, clock, events, s) && !s.cancelled && !Active(c, s)
    ensures id in s.rt && s.rt[id].state == NodeSkipped
    ensures forall x :: x in s.rt && s.rt[x].state == NodeFailed <==> x == bad
  {
    hide Inv, ValidConfig, OnlyFails, Measure, Exposed;
    var start := Init(c, order, clock);
    InitOk(c, order, clock);
    InvIds(c, start);
    NothingFailedYet(c, order, clock, bad);
    events := ScriptedRun(c, start, bad);
    s := After(c, start, events);
    EndOfScript(c, s, id, bad);
  }

  lemma NothingFailedYet(c: Config, order: seq<Id>, clock: int, bad: Id)
    requires VisitsAll(c, order)
    ensures OnlyFails(Init(c, order, clock), bad) && !Init(c, order, clock).cancelled
  {
  }
}
