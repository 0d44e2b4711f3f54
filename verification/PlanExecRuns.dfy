// What holds of every run of an accepted plan.
module PlanExecRuns {
  import opened Graph
  import opened PlanModel
  import opened PlanExec
  import opened PlanExecInv
  import opened PlanExecSteps

  // ---- The invariant over whole runs ----

  lemma {:induction false} RunKeeps(c: Config, s: State, events: seq<Event>)
    requires ValidConfig(c) && Inv(c, s) && CanRun(c, s, events)
    ensures Inv(c, After(c, s, events))
    ensures Frozen(s.rt, After(c, s, events).rt)
    decreases |events|
  {
    hide Inv, ValidConfig, Enabled, Apply;
    if events == [] {
    } else {
      var t := Apply(c, s, events[0]);
      StepKeeps(c, s, events[0]);
      RunKeeps(c, t, events[1..]);
      FrozenTrans(s.rt, t.rt, After(c, s, events).rt);
    }
  }

  lemma ReachedInv(c: Config, order: seq<Id>, clock: int, events: seq<Event>, s: State)
    requires Reached(c, order, clock, events, s)
    ensures Inv(c, s) && ValidConfig(c)
  {
    hide Inv;
    InitOk(c, order, clock);
    RunKeeps(c, Init(c, order, clock), events);
  }

  lemma InvNode(c: Config, s: State, id: Id)
    requires Inv(c, s) && id in c.nodes
    ensures s.rt.Keys == c.nodes.Keys && KnownIn(c.nodes[id].dependsOn, s.rt) && NodeInv(c, s.rt, id)
    ensures !s.cancelled ==> s.rt[id].state != NodeCancelled
  {
    hide ReadyHeapOk, RetryHeapOk, GoroutinesOk, SentIds, FailedAncestor, DepsDone, AllHeld;
    assert NodeInv(c, s.rt, id);
    assert s.rt[id].state == NodeCancelled ==> id in IdsIn(s.rt, NodeCancelled);
  }

  lemma InvReady(c: Config, s: State, id: Id)
    requires Inv(c, s) && id in c.nodes && id in s.rt && s.rt[id].state == NodeReady
    ensures KnownIn(c.nodes[id].dependsOn, s.rt) && DepsDone(c, s.rt, id)
  {
    hide Inv;
    InvNode(c, s, id);
  }

  lemma InvEnded(c: Config, s: State)
    requires Inv(c, s) && ValidConfig(c)
    ensures !Active(c, s) <==> forall id :: id in c.nodes ==> id in s.rt && IsTerminal(s.rt[id].state)
  {
    hide Live, GoroutinesOk, AllHeld, NodeInv, KnownIn, VisitsAll, Closed, Acyclic;
    var done := TerminalIds(s.rt);
    Complement(done, c.nodes.Keys);
    if !Active(c, s) {
      assert c.nodes.Keys - done == {};
    }
    if forall id :: id in c.nodes ==> id in s.rt && IsTerminal(s.rt[id].state) {
      assert done == c.nodes.Keys;
    }
  }

  // ---- Skipping ----

  // A node ends skipped only below a failed one, for every order in which the node table is
  // ranged over, and whether a dependency pass or the final sweep skipped it.
  lemma SkippedOnlyBelowFailure(c: Config, order: seq<Id>, clock: int, events: seq<Event>, s: State, id: Id)
    requires Reached(c, order, clock, events, s)
    requires id in c.nodes && id in s.rt && s.rt[id].state == NodeSkipped
    ensures exists f :: f in s.rt && s.rt[f].state == NodeFailed && Reaches(Dependencies(c.nodes), id, f)
  {
    ReachedInv(c, order, clock, events, s);
    hide Reached, Inv;
    InvNode(c, s, id);
  }

  // A run that has ended uncancelled and in which nothing failed has executed every node.
  lemma NoFailureRunsEverything(c: Config, order: seq<Id>, clock: int, events: seq<Event>, s: State)
    requires Reached(c, order, clock, events, s) && !Active(c, s) && !s.cancelled
    requires forall id :: id in s.rt ==> s.rt[id].state != NodeFailed
    ensures forall id :: id in c.nodes ==> id in s.rt && IsOutcome(s.rt[id].state) && s.rt[id].attempt > 0
  {
    hide Reached, Inv;
    ReachedInv(c, order, clock, events, s);
    InvEnded(c, s);
    forall id | id in c.nodes
      ensures id in s.rt && IsOutcome(s.rt[id].state) && s.rt[id].attempt > 0
    {
      InvNode(c, s, id);
      if s.rt[id].state == NodeSkipped {
        SkippedOnlyBelowFailure(c, order, clock, events, s, id);
      }
    }
  }

  // Whether a node survives a failure below it is decided by its own optional flag and operation.
  // The flag of the dependency that failed does not matter: docs/RETRIEVAL_PLAN.md:252 says that
  // dependents of a failed optional node may run, but one that is not tolerant is skipped.
  lemma OwnFlagDecides(c: Config, s: State, id: Id)
    requires Wired(c, s) && id in c.nodes && s.rt[id].state == NodeBlocked
    requires KnownIn(c.nodes[id].dependsOn, s.rt)
               && forall d :: d in c.nodes[id].dependsOn ==> IsTerminal(s.rt[d].state)
    ensures id in Visit(c, s, id).rt
    ensures Visit(c, s, id).rt[id].state == NodeSkipped <==>
              !Tolerant(c.nodes[id]) && exists d :: d in c.nodes[id].dependsOn && IsBad(s.rt[d].state)
    ensures Visit(c, s, id).rt[id].state == NodeSkipped || Visit(c, s, id).rt[id].state == NodeReady
  {
    hide IsTerminal, IsBad, Tolerant, KnownIn;
    DependencyStateMeaning(c.nodes[id], c.nodes[id].dependsOn, s.rt);
  }

  // The main loop ends exactly when every node is terminal.
  lemma EndedIsTerminal(c: Config, order: seq<Id>, clock: int, events: seq<Event>, s: State)
    requires Reached(c, order, clock, events, s)
    ensures !Active(c, s) <==> forall id :: id in c.nodes ==> id in s.rt && IsTerminal(s.rt[id].state)
  {
    hide Reached, Inv;
    ReachedInv(c, order, clock, events, s);
    InvEnded(c, s);
  }

  // ---- Starting ----

  // A node starts only when all its dependencies are terminal, and after a failed, skipped or
  // cancelled one only if it tolerates that. The results handed to it are the final ones: they
  // are the same in every later state of the run.
  lemma StartedOnFinalDependencies(
    c: Config, order: seq<Id>, clock: int, before: seq<Event>, s: State, item: ReadyItem, after: seq<Event>)
    requires Reached(c, order, clock, before, s) && Enabled(c, s, Launch(item))
    requires CanRun(c, Apply(c, s, Launch(item)), after)
    ensures item.id in c.nodes && KnownIn(c.nodes[item.id].dependsOn, s.rt)
    ensures forall d :: d in c.nodes[item.id].dependsOn ==>
              IsTerminal(s.rt[d].state) && (IsBad(s.rt[d].state) ==> Tolerant(c.nodes[item.id]))
    ensures var end := After(c, Apply(c, s, Launch(item)), after);
            && KnownIn(c.nodes[item.id].dependsOn, end.rt)
            && CollectDeps(c.nodes[item.id], s.rt) == CollectDeps(c.nodes[item.id], end.rt)
  {
    hide Inv, ValidConfig, After, CanRun;
    ReachedInv(c, order, clock, before, s);
    LaunchReady(c, s, item);
    InvReady(c, s, item.id);
    AfterStepFrozen(c, s, Launch(item), after);
    hide Enabled, Apply, Reached;
    FinalDependencies(c, s.rt, After(c, Apply(c, s, Launch(item)), after).rt, item.id);
  }

  lemma AfterStepFrozen(c: Config, s: State, e: Event, after: seq<Event>)
    requires ValidConfig(c) && Inv(c, s) && Enabled(c, s, e) && CanRun(c, Apply(c, s, e), after)
    ensures Frozen(s.rt, After(c, Apply(c, s, e), after).rt)
  {
    hide Inv, ValidConfig, After, CanRun, Enabled, Apply, Frozen;
    StepKeeps(c, s, e);
    var t := Apply(c, s, e);
    RunKeeps(c, t, after);
    FrozenTrans(s.rt, t.rt, After(c, t, after).rt);
  }

  lemma FinalDependencies(c: Config, rt: Table, rt': Table, id: Id)
    requires id in c.nodes && KnownIn(c.nodes[id].dependsOn, rt) && DepsDone(c, rt, id) && Frozen(rt, rt')
    ensures KnownIn(c.nodes[id].dependsOn, rt')
    ensures CollectDeps(c.nodes[id], rt) == CollectDeps(c.nodes[id], rt')
  {
  }

  lemma LaunchReady(c: Config, s: State, item: ReadyItem)
    requires Enabled(c, s, Launch(item))
    ensures item.id in c.nodes && item.id in s.rt && s.rt[item.id].state == NodeReady
  {
  }

  // A terminal node never changes again.
  lemma TerminalIsFinal(c: Config, order: seq<Id>, clock: int, before: seq<Event>, s: State, after: seq<Event>, id: Id)
    requires Reached(c, order, clock, before, s) && CanRun(c, s, after)
    requires id in s.rt && IsTerminal(s.rt[id].state)
    ensures id in After(c, s, after).rt && After(c, s, after).rt[id] == s.rt[id]
  {
    ReachedInv(c, order, clock, before, s);
    RunKeeps(c, s, after);
  }

  // ---- Attempts ----

  function Launches(events: seq<Event>, id: Id): nat {
    if events == [] then 0
    else (if events[0].Launch? && events[0].item.id == id then 1 else 0) + Launches(events[1..], id)
  }

  lemma VisitAttempt(c: Config, s: State, visited: Id, id: Id)
    requires Wired(c, s) && visited in c.nodes && id in c.nodes
    ensures id in Visit(c, s, visited).rt && Visit(c, s, visited).rt[id].attempt == s.rt[id].attempt
  {
  }

  lemma {:induction false} PassAttempt(c: Config, s: State, order: seq<Id>, id: Id)
    requires Wired(c, s) && id in c.nodes && forall o :: o in order ==> o in c.nodes
    ensures Pass(c, s, order).rt[id].attempt == s.rt[id].attempt
  {
    if order != [] {
      PassAttempt(c, s, order[..|order| - 1], id);
      VisitAttempt(c, Pass(c, s, order[..|order| - 1]), order[|order| - 1], id);
    }
  }

  lemma StepAttempt(c: Config, s: State, e: Event, id: Id)
    requires Enabled(c, s, e) && id in c.nodes
    ensures id in Apply(c, s, e).rt
    ensures Apply(c, s, e).rt[id].attempt == s.rt[id].attempt + if e.Launch? && e.item.id == id then 1 else 0
  {
    if e.Settle? {
      hide Pass, KnownIn;
      assert Wired(c, SettleHead(s)) by {
        assert SettleHead(s).rt.Keys == s.rt.Keys;
        assert forall o :: o in c.nodes ==> KnownIn(c.nodes[o].dependsOn, s.rt);
        forall o | o in c.nodes
          ensures KnownIn(c.nodes[o].dependsOn, SettleHead(s).rt)
        {
          KnownInKeys(c.nodes[o].dependsOn, s.rt, SettleHead(s).rt);
        }
      }
      PassAttempt(c, SettleHead(s), e.order, id);
    }
  }

  lemma KnownInKeys(deps: seq<Id>, rt: Table, rt': Table)
    requires KnownIn(deps, rt) && rt.Keys == rt'.Keys
    ensures KnownIn(deps, rt')
  {
  }

  lemma {:induction false} RunAttempts(c: Config, s: State, events: seq<Event>, id: Id)
    requires ValidConfig(c) && Inv(c, s) && CanRun(c, s, events) && id in c.nodes
    ensures id in s.rt && id in After(c, s, events).rt
    ensures After(c, s, events).rt[id].attempt == s.rt[id].attempt + Launches(events, id)
    decreases |events|
  {
    hide Enabled, Apply, Inv, ValidConfig;
    InvNode(c, s, id);
    if events != [] {
      StepKeeps(c, s, events[0]);
      StepAttempt(c, s, events[0], id);
      RunAttempts(c, Apply(c, s, events[0]), events[1..], id);
    }
  }

  // No node starts more often than its retry policy allows, and the attempts recorded for it
  // are exactly its starts.
  lemma StartsAreBounded(c: Config, order: seq<Id>, clock: int, events: seq<Event>, s: State, id: Id)
    requires Reached(c, order, clock, events, s) && id in c.nodes
    ensures id in s.rt && s.rt[id].attempt == Launches(events, id) <= MaxAttempts(c.nodes[id])
  {
    InitOk(c, order, clock);
    RunAttempts(c, Init(c, order, clock), events, id);
    ReachedInv(c, order, clock, events, s);
    hide Inv;
    InvNode(c, s, id);
  }

  // ---- Sessions and the channel ----

  lemma {:induction false} PassSession(c: Config, s: State, order: seq<Id>)
    requires Wired(c, s) && forall o :: o in order ==> o in c.nodes
    ensures Pass(c, s, order).session == s.session && Pass(c, s, order).clock == s.clock
    ensures Pass(c, s, order).retries == s.retries
  {
    if order != [] {
      PassSession(c, s, order[..|order| - 1]);
    }
  }

  lemma SettledWired(c: Config, s: State, order: seq<Id>)
    requires Enabled(c, s, Settle(order))
    ensures Wired(c, SettleHead(s))
  {
    forall o | o in c.nodes
      ensures KnownIn(c.nodes[o].dependsOn, SettleHead(s).rt)
    {
      assert KnownIn(c.nodes[o].dependsOn, s.rt);
      KnownInKeys(c.nodes[o].dependsOn, s.rt, SettleHead(s).rt);
    }
  }

  lemma StepSession(c: Config, s: State, e: Event)
    requires Enabled(c, s, e)
    ensures s.session != "" ==> Apply(c, s, e).session == s.session
    ensures Apply(c, s, e).clock >= s.clock
  {
    if e.Settle? {
      SettledWired(c, s, e.order);
      hide Pass, Wired;
      PassSession(c, SettleHead(s), e.order);
    }
  }

  // The first session id to be known is kept for the rest of the run.
  lemma {:induction false} SessionIsKept(c: Config, s: State, events: seq<Event>)
    requires CanRun(c, s, events)
    ensures s.session != "" ==> After(c, s, events).session == s.session
    ensures After(c, s, events).clock >= s.clock
    decreases |events|
  {
    hide Enabled, Apply;
    if events != [] {
      StepSession(c, s, events[0]);
      SessionIsKept(c, Apply(c, s, events[0]), events[1..]);
    }
  }

  // A goroutine that finishes always finds room in the completion channel.
  lemma ChannelHasRoom(c: Config, order: seq<Id>, clock: int, events: seq<Event>, s: State, id: Id)
    requires Reached(c, order, clock, events, s) && id in s.working
    ensures |s.channel| < |c.nodes|
  {
    ReachedInv(c, order, clock, events, s);
    var sent := SentIds(s.channel);
    SentIdsCount(s.channel);
    Complement(sent, c.nodes.Keys);
    assert id in c.nodes.Keys - sent;
  }

  // What the counters and heaps say about the node table in a state reached before a cancellation.
  lemma BooksBalance(c: Config, order: seq<Id>, clock: int, events: seq<Event>, s: State)
    requires Reached(c, order, clock, events, s) && !s.cancelled
    ensures s.running == |set id | id in s.rt && s.rt[id].state == NodeRunning| <= c.concurrency
    ensures s.terminal == |set id | id in s.rt && IsTerminal(s.rt[id].state)|
    ensures s.session == "" ==> s.running <= 1
    ensures (set it | it in s.ready :: it.id) == set id | id in s.rt && s.rt[id].state == NodeReady
    ensures (set it | it in s.retries :: it.id) == set id | id in s.rt && s.rt[id].state == NodeRetryWait
    ensures forall a, b :: a in s.ready && b in s.ready && a.id == b.id ==> a == b
    ensures forall a, b :: a in s.retries && b in s.retries && a.id == b.id ==> a == b
  {
    ReachedInv(c, order, clock, events, s);
  }
}
