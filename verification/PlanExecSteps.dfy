// Each event keeps the invariant of PlanExecInv.
module PlanExecSteps {
  import opened Graph
  import opened PlanModel
  import opened PlanExec
  import opened PlanExecInv

  // ---- The node table ----

  // A node that has been released by its dependencies moves to another state.
  lemma ReleasedUpdate(c: Config, rt: Table, id: Id, n: RuntimeNode)
    requires TableInv(c, rt) && id in c.nodes
    requires rt[id].state == NodeReady || rt[id].state == NodeRunning || rt[id].state == NodeRetryWait
    requires AttemptsInRange(c.nodes[id], n) && n.state != NodeSkipped && (IsOutcome(n.state) ==> n.attempt > 0)
    ensures TableInv(c, rt[id := n]) && Frozen(rt, rt[id := n])
  {
    assert NodeInv(c, rt, id);
    UpdateKeepsTable(c, rt, id, n);
  }

  lemma HeldUpdate(c: Config, rt: Table, id: Id, n: RuntimeNode)
    requires WiredTable(c, rt) && AllHeld(c, rt) && id in c.nodes
    requires !IsTerminal(rt[id].state) && !IsTerminal(n.state) && n.state != NodeBlocked
    ensures AllHeld(c, rt[id := n])
  {
    var rt' := rt[id := n];
    forall o | o in c.nodes
      ensures Held(c, rt', o)
    {
      assert Held(c, rt, o);
      if rt'[o].state == NodeBlocked {
        var d :| d in c.nodes[o].dependsOn && (!IsTerminal(rt[d].state) || rt[d].state == NodeSkipped);
        assert !IsTerminal(rt'[d].state) || rt'[d].state == NodeSkipped;
      }
    }
  }

  // ---- Promote, Launch, Send, Retry ----

  lemma PromoteLive(c: Config, s: State, r: RetryItem)
    requires Live(c, s) && Enabled(c, s, Promote(r))
    ensures Live(c, Apply(c, s, Promote(r)))
  {
    hide ReadyHeapOk, RetryHeapOk, GoroutinesOk, IdsIn, TerminalIds, SentIds, WiredTable, KnownIn;
    var id, t := r.id, Apply(c, s, Promote(r));
    CountUpdate(s.rt, id, s.rt[id].(state := NodeReady));
    Whereabouts(s.rt, id);
    RetryPopped(s.retries, IdsIn(s.rt, NodeRetryWait), s.seqNo, r);
    RetryLater(s.retries - {r}, IdsIn(s.rt, NodeRetryWait) - {id}, s.seqNo, s.seqNo + 1);
    ReadyPushed(c, s.ready, IdsIn(s.rt, NodeReady), s.seqNo, id);
    assert IdsIn(t.rt, NodeRunning) == IdsIn(s.rt, NodeRunning);
    assert IdsIn(t.rt, NodeCancelled) == {};
  }

  lemma LaunchLive(c: Config, s: State, item: ReadyItem)
    requires Live(c, s) && Enabled(c, s, Launch(item))
    ensures Live(c, Apply(c, s, Launch(item)))
  {
    hide ReadyHeapOk, RetryHeapOk, GoroutinesOk, IdsIn, TerminalIds, SentIds, WiredTable, KnownIn;
    var id, t := item.id, Apply(c, s, Launch(item));
    CountUpdate(s.rt, id, s.rt[id].(state := NodeRunning, attempt := s.rt[id].attempt + 1));
    Whereabouts(s.rt, id);
    ReadyPopped(c, s.ready, IdsIn(s.rt, NodeReady), s.seqNo, item);
    assert IdsIn(t.rt, NodeRunning) == IdsIn(s.rt, NodeRunning) + {id};
    assert IdsIn(t.rt, NodeRunning) == t.working + SentIds(t.channel);
    assert IdsIn(t.rt, NodeRetryWait) == IdsIn(s.rt, NodeRetryWait);
    assert IdsIn(t.rt, NodeCancelled) == {};
  }

  // A step that moves one node between states that are not terminal keeps the terminal count.
  lemma SameTerminal(rt: Table, id: Id, n: RuntimeNode)
    requires id in rt && !IsTerminal(rt[id].state) && !IsTerminal(n.state)
    ensures TerminalIds(rt[id := n]) == TerminalIds(rt)
  {
  }

  lemma PromoteKeeps(c: Config, s: State, r: RetryItem)
    requires Inv(c, s) && !s.cancelled && Enabled(c, s, Promote(r))
    ensures Inv(c, Apply(c, s, Promote(r))) && Frozen(s.rt, Apply(c, s, Promote(r)).rt)
  {
    hide Live, GoroutinesOk, Held, FailedAncestor, DepsDone, TerminalIds, Frozen, KnownIn;
    var n := s.rt[r.id].(state := NodeReady);
    assert NodeInv(c, s.rt, r.id);
    ReleasedUpdate(c, s.rt, r.id, n);
    HeldUpdate(c, s.rt, r.id, n);
    SameTerminal(s.rt, r.id, n);
    PromoteLive(c, s, r);
  }

  lemma LaunchKeeps(c: Config, s: State, item: ReadyItem)
    requires Inv(c, s) && !s.cancelled && Enabled(c, s, Launch(item))
    ensures Inv(c, Apply(c, s, Launch(item))) && Frozen(s.rt, Apply(c, s, Launch(item)).rt)
  {
    hide Live, Held, FailedAncestor, DepsDone, TerminalIds, IdsIn, Frozen, KnownIn, SentIds;
    var id := item.id;
    var n := s.rt[id].(state := NodeRunning, attempt := s.rt[id].attempt + 1);
    assert NodeInv(c, s.rt, id);
    ReleasedUpdate(c, s.rt, id, n);
    HeldUpdate(c, s.rt, id, n);
    SameTerminal(s.rt, id, n);
    LaunchLive(c, s, item);
    NotWorking(c, s, id);
  }

  // A node that does not run has no goroutine.
  lemma NotWorking(c: Config, s: State, id: Id)
    requires Live(c, s) && id in s.rt && s.rt[id].state != NodeRunning
    ensures id !in s.working && id !in SentIds(s.channel)
  {
    hide ReadyHeapOk, RetryHeapOk;
    assert id !in IdsIn(s.rt, NodeRunning);
  }

  lemma SendKeeps(c: Config, s: State, done: Completion)
    requires Inv(c, s) && Enabled(c, s, Send(done))
    ensures Inv(c, Apply(c, s, Send(done))) && Frozen(s.rt, Apply(c, s, Send(done)).rt)
  {
    hide ReadyHeapOk, RetryHeapOk, GoroutinesOk, IdsIn, TerminalIds, TableInv, AllHeld, SentIds, WiredTable, KnownIn;
    GoroutineSends(c.nodes.Keys, s.working, s.channel, done);
  }

  // Facts about the node at the head of the channel.
  lemma HeadFacts(c: Config, s: State)
    requires Book(c, s) && !s.cancelled && s.channel != []
    ensures s.channel[0].id in s.rt && s.rt[s.channel[0].id].state == NodeRunning
    ensures s.channel[0].id in c.nodes
    ensures IsOutcome(s.channel[0].result.state)
    ensures GoroutinesOk(c.nodes.Keys, s.working, s.channel[1..])
    ensures s.working + SentIds(s.channel[1..]) == IdsIn(s.rt, NodeRunning) - {s.channel[0].id}
  {
    hide ReadyHeapOk, RetryHeapOk, TerminalIds, SentIds, GoroutinesOk;
    ChannelHead(c.nodes.Keys, s.working, s.channel);
    assert s.channel[0].id in IdsIn(s.rt, NodeRunning);
  }

  // The node whose completion is at the head of the channel is running.
  lemma InvHead(c: Config, s: State)
    requires Inv(c, s) && !s.cancelled && s.channel != []
    ensures s.channel[0].id in s.rt && s.rt[s.channel[0].id].state == NodeRunning
    ensures s.channel[0].id in c.nodes && IsOutcome(s.channel[0].result.state)
  {
    hide Book, TableInv, AllHeld;
    HeadFacts(c, s);
  }

  lemma RunningCount(c: Config, s: State)
    requires Book(c, s) && !s.cancelled
    ensures s.running == |IdsIn(s.rt, NodeRunning)| && IdsIn(s.rt, NodeCancelled) == {}
  {
    hide ReadyHeapOk, RetryHeapOk, GoroutinesOk, IdsIn, TerminalIds, SentIds;
  }

  lemma HeadSets(rt: Table, id: Id, n: RuntimeNode)
    requires id in rt && rt[id].state == NodeRunning && n.state != NodeRunning && n.state != NodeReady
               && n.state != NodeCancelled
    requires IdsIn(rt, NodeCancelled) == {}
    ensures var rt' := rt[id := n];
            && IdsIn(rt', NodeRunning) == IdsIn(rt, NodeRunning) - {id}
            && |IdsIn(rt', NodeRunning)| == |IdsIn(rt, NodeRunning)| - 1
            && IdsIn(rt', NodeReady) == IdsIn(rt, NodeReady) && IdsIn(rt', NodeCancelled) == {}
            && id !in IdsIn(rt, NodeRetryWait)
            && IdsIn(rt', NodeRetryWait) == Moved(IdsIn(rt, NodeRetryWait), id, n.state == NodeRetryWait)
            && |TerminalIds(rt')| == |TerminalIds(rt)| + if IsTerminal(n.state) then 1 else 0
  {
    CountUpdate(rt, id, n);
    assert id in IdsIn(rt, NodeRunning) && id !in IdsIn(rt, NodeRetryWait) && id !in TerminalIds(rt);
    assert id !in IdsIn(rt, NodeReady) && id !in IdsIn(rt, NodeCancelled);
    hide IdsIn, TerminalIds, IsTerminal;
  }

  // The books after the head of the channel has been taken and its node has become n.
  lemma HeadTaken(c: Config, s: State, n: RuntimeNode)
    requires Book(c, s) && !s.cancelled && s.channel != [] && n.state != NodeRunning && n.state != NodeReady
               && n.state != NodeCancelled
    ensures s.channel[0].id in s.rt
    ensures var rt := s.rt[s.channel[0].id := n];
            && IdsIn(rt, NodeRunning) == s.working + SentIds(s.channel[1..])
            && s.running - 1 == |IdsIn(rt, NodeRunning)|
            && IdsIn(rt, NodeReady) == IdsIn(s.rt, NodeReady)
            && IdsIn(rt, NodeCancelled) == {}
            && s.channel[0].id !in IdsIn(s.rt, NodeRetryWait)
            && IdsIn(rt, NodeRetryWait) == Moved(IdsIn(s.rt, NodeRetryWait), s.channel[0].id, n.state == NodeRetryWait)
            && |TerminalIds(rt)| == |TerminalIds(s.rt)| + if IsTerminal(n.state) then 1 else 0
  {
    HeadFacts(c, s);
    RunningCount(c, s);
    var id := s.channel[0].id;
    hide *;
    Whereabouts(s.rt, id);
    HeadSets(s.rt, id, n);
  }

  lemma RetryLive(c: Config, s: State)
    requires Book(c, s) && !s.cancelled && Enabled(c, s, Retry)
    ensures Live(c, Apply(c, s, Retry))
  {
    hide ReadyHeapOk, RetryHeapOk, GoroutinesOk, IdsIn, TerminalIds, SentIds, WiredTable, KnownIn;
    var id := s.channel[0].id;
    HeadTaken(c, s, RuntimeNode(NodeRetryWait, ReceivedResult(s), s.rt[id].attempt));
    ReadyLater(c, s.ready, IdsIn(s.rt, NodeReady), s.seqNo, s.seqNo + 1);
    RetryPushed(s.retries, IdsIn(s.rt, NodeRetryWait), s.seqNo,
                RetryItem(id, s.clock + RetryDelay(c.nodes[id], s.rt[id].attempt), s.seqNo));
  }

  lemma RetryTable(c: Config, s: State)
    requires TableInv(c, s.rt) && AllHeld(c, s.rt) && Enabled(c, s, Retry)
    requires s.rt[s.channel[0].id].state == NodeRunning
    ensures TableInv(c, Apply(c, s, Retry).rt) && AllHeld(c, Apply(c, s, Retry).rt)
    ensures Frozen(s.rt, Apply(c, s, Retry).rt) && TerminalIds(Apply(c, s, Retry).rt) == TerminalIds(s.rt)
  {
    hide Held, FailedAncestor, DepsDone, TerminalIds, Frozen, KnownIn;
    var id := s.channel[0].id;
    var n := RuntimeNode(NodeRetryWait, ReceivedResult(s), s.rt[id].attempt);
    assert NodeInv(c, s.rt, id);
    ReleasedUpdate(c, s.rt, id, n);
    HeldUpdate(c, s.rt, id, n);
    SameTerminal(s.rt, id, n);
  }

  lemma RetryKeeps(c: Config, s: State)
    requires Inv(c, s) && !s.cancelled && Enabled(c, s, Retry)
    ensures Inv(c, Apply(c, s, Retry)) && Frozen(s.rt, Apply(c, s, Retry).rt)
  {
    hide Live, GoroutinesOk, TableInv, AllHeld, TerminalIds, Frozen, WiredTable, KnownIn, IdsIn, SentIds;
    HeadFacts(c, s);
    RetryLive(c, s);
    RetryTable(c, s);
  }

  // ---- The dependency pass ----

  // The invariant while a pass is under way: only the nodes visited so far need to be held.
  ghost predicate PassInv(c: Config, s: State, visited: seq<Id>) {
    && TableInv(c, s.rt) && Book(c, s) && !s.cancelled
    && forall id {:trigger Held(c, s.rt, id)} :: id in visited && id in c.nodes ==> Held(c, s.rt, id)
  }

  lemma SettleHeadBook(c: Config, s: State)
    requires Book(c, s) && !s.cancelled && s.channel != []
    ensures s.channel[0].id in s.rt && Book(c, SettleHead(s))
  {
    hide ReadyHeapOk, RetryHeapOk, GoroutinesOk, IdsIn, TerminalIds, SentIds;
    HeadFacts(c, s);
    var n := RuntimeNode(ReceivedResult(s).state, ReceivedResult(s), s.rt[s.channel[0].id].attempt);
    HeadTaken(c, s, n);
    var t := SettleHead(s);
    assert t.rt == s.rt[s.channel[0].id := n];
    assert IdsIn(t.rt, NodeRetryWait) == IdsIn(s.rt, NodeRetryWait);
    assert Live(c, t);
  }

  lemma SettleHeadKeeps(c: Config, s: State)
    requires Inv(c, s) && !s.cancelled && s.channel != []
    ensures s.channel[0].id in s.rt && Frozen(s.rt, SettleHead(s).rt)
    ensures PassInv(c, SettleHead(s), []) && Wired(c, SettleHead(s))
  {
    hide Book, Held, FailedAncestor, DepsDone, Frozen, KnownIn, IdsIn, SentIds;
    HeadFacts(c, s);
    SettleHeadBook(c, s);
    var id := s.channel[0].id;
    assert NodeInv(c, s.rt, id);
    ReleasedUpdate(c, s.rt, id, RuntimeNode(ReceivedResult(s).state, ReceivedResult(s), s.rt[id].attempt));
  }

  // Readying or skipping a node does not make a held one unheld.
  lemma HeldKept(c: Config, rt: Table, id: Id, n: RuntimeNode, o: Id)
    requires WiredTable(c, rt) && o in c.nodes && id in c.nodes && Held(c, rt, o)
    requires rt[id].state == NodeBlocked && (n.state == NodeSkipped || n.state == NodeReady)
    ensures Held(c, rt[id := n], o)
  {
    if rt[id := n][o].state == NodeBlocked {
      var d :| d in c.nodes[o].dependsOn && (!IsTerminal(rt[d].state) || rt[d].state == NodeSkipped);
      assert !IsTerminal(rt[id := n][d].state) || rt[id := n][d].state == NodeSkipped;
    }
  }

  lemma VisitReadies(c: Config, s: State, id: Id)
    requires Book(c, s) && !s.cancelled && id in c.nodes && id in s.rt && s.rt[id].state == NodeBlocked
    ensures Book(c, PushReady(c, s, id))
  {
    hide ReadyHeapOk, RetryHeapOk, GoroutinesOk, IdsIn, TerminalIds, SentIds, IsTerminal;
    var t := PushReady(c, s, id);
    ReadySets(s.rt, id, t.rt[id]);
    ReadyPushed(c, s.ready, IdsIn(s.rt, NodeReady), s.seqNo, id);
    RetryLater(s.retries, IdsIn(s.rt, NodeRetryWait), s.seqNo, s.seqNo + 1);
    assert Live(c, t);
  }

  lemma ReadySets(rt: Table, id: Id, n: RuntimeNode)
    requires id in rt && rt[id].state == NodeBlocked && n.state == NodeReady
    ensures var rt' := rt[id := n];
            && IdsIn(rt', NodeRunning) == IdsIn(rt, NodeRunning)
            && IdsIn(rt', NodeRetryWait) == IdsIn(rt, NodeRetryWait)
            && IdsIn(rt', NodeCancelled) == IdsIn(rt, NodeCancelled) && TerminalIds(rt') == TerminalIds(rt)
            && IdsIn(rt', NodeReady) == IdsIn(rt, NodeReady) + {id} && id !in IdsIn(rt, NodeReady)
  {
    CountUpdate(rt, id, n);
    Whereabouts(rt, id);
    hide IdsIn, TerminalIds;
  }

  lemma VisitSkips(c: Config, s: State, id: Id, n: RuntimeNode)
    requires Book(c, s) && !s.cancelled && id in c.nodes && id in s.rt && s.rt[id].state == NodeBlocked
    requires n.state == NodeSkipped
    ensures Book(c, s.(rt := s.rt[id := n], terminal := s.terminal + 1))
  {
    hide ReadyHeapOk, RetryHeapOk, GoroutinesOk, IdsIn, TerminalIds, SentIds;
    var t := s.(rt := s.rt[id := n], terminal := s.terminal + 1);
    CountUpdate(s.rt, id, n);
    Whereabouts(s.rt, id);
    assert IdsIn(t.rt, NodeReady) == IdsIn(s.rt, NodeReady);
    assert IdsIn(t.rt, NodeRunning) == IdsIn(s.rt, NodeRunning);
    assert IdsIn(t.rt, NodeRetryWait) == IdsIn(s.rt, NodeRetryWait);
    assert IdsIn(t.rt, NodeCancelled) == {};
    assert Live(c, t);
  }

  lemma VisitBook(c: Config, s: State, id: Id)
    requires Book(c, s) && !s.cancelled && Wired(c, s) && id in c.nodes
    ensures Book(c, Visit(c, s, id)) && !Visit(c, s, id).cancelled
  {
    hide Book, DependencyState, KnownIn;
    if s.rt[id].state == NodeBlocked {
      VisitReadies(c, s, id);
      VisitSkips(c, s, id, Ended(s.rt[id], NodeSkipped, UpstreamPermanent));
    }
  }

  // The first bad dependency of an intolerant node explains its skip: before a cancellation it
  // has failed, or was itself skipped below a failure.
  lemma SkipIsExplained(c: Config, rt: Table, id: Id)
    requires TableInv(c, rt) && id in c.nodes && IdsIn(rt, NodeCancelled) == {}
    requires DependencyState(c.nodes[id], c.nodes[id].dependsOn, rt) == Skip
    ensures FailedAncestor(c, rt, id)
  {
    var deps := c.nodes[id].dependsOn;
    DependencyStateMeaning(c.nodes[id], deps, rt);
    var i :| 0 <= i < |deps| && DecidesSkip(c.nodes[id], rt, deps, i);
    var d := deps[i];
    assert d in c.nodes && d !in IdsIn(rt, NodeCancelled);
    assert NodeInv(c, rt, d);
    FailedThroughDependency(c, rt, id, d);
  }

  lemma VisitTable(c: Config, s: State, id: Id)
    requires TableInv(c, s.rt) && IdsIn(s.rt, NodeCancelled) == {} && id in c.nodes
    ensures Wired(c, s) && TableInv(c, Visit(c, s, id).rt) && Frozen(s.rt, Visit(c, s, id).rt)
  {
    var node := c.nodes[id];
    var t := Visit(c, s, id);
    assert NodeInv(c, s.rt, id);
    if t != s {
      var n := t.rt[id];
      assert t.rt == s.rt[id := n];
      if n.state == NodeSkipped {
        SkipIsExplained(c, s.rt, id);
        FailedAncestorKept(c, s.rt, t.rt, id);
      } else {
        DependencyStateMeaning(node, node.dependsOn, s.rt);
      }
      UpdateKeepsTable(c, s.rt, id, n);
    }
  }

  lemma VisitHeld(c: Config, s: State, id: Id, o: Id)
    requires WiredTable(c, s.rt) && id in c.nodes && o in c.nodes
    requires o == id || Held(c, s.rt, o)
    ensures Wired(c, s) && WiredTable(c, Visit(c, s, id).rt) && Held(c, Visit(c, s, id).rt, o)
  {
    var t := Visit(c, s, id);
    DependencyStateMeaning(c.nodes[id], c.nodes[id].dependsOn, s.rt);
    if t != s && o != id {
      HeldKept(c, s.rt, id, t.rt[id], o);
      assert t.rt == s.rt[id := t.rt[id]];
    }
  }

  lemma VisitKeeps(c: Config, s: State, visited: seq<Id>, id: Id)
    requires PassInv(c, s, visited) && id in c.nodes
    ensures Wired(c, s) && Wired(c, Visit(c, s, id)) && PassInv(c, Visit(c, s, id), visited + [id])
    ensures Frozen(s.rt, Visit(c, s, id).rt)
  {
    VisitCancelled(c, s);
    VisitBook(c, s, id);
    VisitTable(c, s, id);
    hide Book, TableInv, Held, Frozen, DependencyState, KnownIn;
    var t := Visit(c, s, id);
    forall o | o in visited + [id] && o in c.nodes
      ensures Held(c, t.rt, o)
    {
      assert o in visited || o == id;
      VisitHeld(c, s, id, o);
    }
  }

  lemma VisitCancelled(c: Config, s: State)
    requires Book(c, s) && !s.cancelled
    ensures IdsIn(s.rt, NodeCancelled) == {}
  {
  }

  lemma {:induction false} PassKeeps(c: Config, s: State, order: seq<Id>)
    requires Wired(c, s) && PassInv(c, s, []) && forall id :: id in order ==> id in c.nodes
    ensures PassInv(c, Pass(c, s, order), order)
    ensures Frozen(s.rt, Pass(c, s, order).rt)
  {
    hide PassInv, Visit, Wired, KnownIn;
    if order != [] {
      hide Frozen;
      var front, last := order[..|order| - 1], order[|order| - 1];
      PassKeeps(c, s, front);
      VisitKeeps(c, Pass(c, s, front), front, last);
      FrozenTrans(s.rt, Pass(c, s, front).rt, Pass(c, s, order).rt);
      assert front + [last] == order;
    }
  }

  lemma SettleKeeps(c: Config, s: State, order: seq<Id>)
    requires Inv(c, s) && !s.cancelled && Enabled(c, s, Settle(order))
    ensures Inv(c, Apply(c, s, Settle(order))) && Frozen(s.rt, Apply(c, s, Settle(order)).rt)
  {
    hide Book, TableInv, Held, Frozen, KnownIn, Pass;
    SettleHeadKeeps(c, s);
    PassKeeps(c, SettleHead(s), order);
    FrozenTrans(s.rt, SettleHead(s).rt, Pass(c, SettleHead(s), order).rt);
  }

  // ---- Sweep and Cancel ----

  lemma EndAllIds(rt: Table, state: NodeState, kind: ErrorType, st: NodeState)
    requires IsTerminal(state)
    ensures IdsIn(EndAll(rt, state, kind), st) <= IdsIn(rt, st) + if st == state then rt.Keys else {}
    ensures !IsTerminal(st) ==> IdsIn(EndAll(rt, state, kind), st) == {}
  {
  }

  lemma Complement(part: set<Id>, all: set<Id>)
    requires part <= all
    ensures |part| + |all - part| == |all|
  {
    assert part + (all - part) == all;
  }

  lemma EndAllCounts(c: Config, rt: Table, state: NodeState, kind: ErrorType)
    requires rt.Keys == c.nodes.Keys && IsTerminal(state)
    ensures |TerminalIds(EndAll(rt, state, kind))| == |c.nodes|
    ensures |TerminalIds(rt)| + |rt.Keys - TerminalIds(rt)| == |c.nodes|
  {
    assert TerminalIds(EndAll(rt, state, kind)) == c.nodes.Keys;
    var done := TerminalIds(rt);
    Complement(done, c.nodes.Keys);
  }

  lemma EndAllKeepsTable(c: Config, rt: Table, state: NodeState, kind: ErrorType)
    requires TableInv(c, rt) && (state == NodeSkipped || state == NodeCancelled)
    requires state == NodeSkipped ==>
               forall id :: id in c.nodes && !IsTerminal(rt[id].state) ==>
                 FailedAncestor(c, rt, id) && rt[id].attempt == 0
    ensures TableInv(c, EndAll(rt, state, kind)) && Frozen(rt, EndAll(rt, state, kind))
              && AllHeld(c, EndAll(rt, state, kind))
  {
    var rt' := EndAll(rt, state, kind);
    forall id | id in c.nodes
      ensures NodeInv(c, rt', id) && Held(c, rt', id)
    {
      assert NodeInv(c, rt, id);
      EndAllKeepsNode(c, rt, state, kind, id);
    }
  }

  lemma EndAllKeepsNode(c: Config, rt: Table, state: NodeState, kind: ErrorType, id: Id)
    requires WiredTable(c, rt) && id in c.nodes && NodeInv(c, rt, id)
               && (state == NodeSkipped || state == NodeCancelled)
    requires state == NodeSkipped && !IsTerminal(rt[id].state) ==> FailedAncestor(c, rt, id) && rt[id].attempt == 0
    ensures WiredTable(c, EndAll(rt, state, kind)) && NodeInv(c, EndAll(rt, state, kind), id)
    ensures EndAll(rt, state, kind)[id].state != NodeBlocked
  {
    var rt' := EndAll(rt, state, kind);
    EndAllFrozen(c, rt, state, kind);
    assert rt'[id] == if IsTerminal(rt[id].state) then rt[id] else Ended(rt[id], state, kind);
    hide EndAll, FailedAncestor, Frozen, NodeInv, KnownIn;
    if FailedAncestor(c, rt, id) {
      FailedAncestorKept(c, rt, rt', id);
    }
    if IsTerminal(rt[id].state) {
      NodeInvKept(c, rt, rt', id);
    } else {
      NodeInvEnded(c, rt, rt', id, state, kind);
    }
  }

  lemma NodeInvEnded(c: Config, rt: Table, rt': Table, id: Id, state: NodeState, kind: ErrorType)
    requires id in c.nodes && id in rt && id in rt' && KnownIn(c.nodes[id].dependsOn, rt)
               && KnownIn(c.nodes[id].dependsOn, rt') && Frozen(rt, rt')
    requires NodeInv(c, rt, id) && rt'[id] == Ended(rt[id], state, kind)
               && (state == NodeSkipped || state == NodeCancelled)
    requires state == NodeSkipped ==> FailedAncestor(c, rt', id) && rt[id].attempt == 0
    ensures NodeInv(c, rt', id)
  {
    hide FailedAncestor;
    if DepsDone(c, rt, id) {
      DepsDoneKept(c, rt, rt', id);
    }
  }

  lemma DepsDoneKept(c: Config, rt: Table, rt': Table, id: Id)
    requires id in c.nodes && KnownIn(c.nodes[id].dependsOn, rt) && KnownIn(c.nodes[id].dependsOn, rt')
               && Frozen(rt, rt')
    requires DepsDone(c, rt, id)
    ensures DepsDone(c, rt', id)
  {
  }

  lemma EndAllFrozen(c: Config, rt: Table, state: NodeState, kind: ErrorType)
    requires WiredTable(c, rt)
    ensures WiredTable(c, EndAll(rt, state, kind)) && Frozen(rt, EndAll(rt, state, kind))
  {
    hide IsTerminal, Ended;
  }

  // With nothing ready, running or waiting for a retry, every remaining node sits above a
  // failure: the blocked dependencies of a blocked node cannot go round in a circle.
  lemma {:induction false} StuckHasFailedAncestor(c: Config, rt: Table, id: Id, seen: set<Id>)
    requires TableInv(c, rt) && AllHeld(c, rt) && Acyclic(Dependencies(c.nodes))
    requires forall o :: o in c.nodes && !IsTerminal(rt[o].state) ==> rt[o].state == NodeBlocked
    requires id in c.nodes && rt[id].state == NodeBlocked
    requires seen <= c.nodes.Keys && id !in seen
    requires forall x :: x in seen ==> Reaches(Dependencies(c.nodes), x, id)
    ensures FailedAncestor(c, rt, id)
    decreases c.nodes.Keys - seen
  {
    var g := Dependencies(c.nodes);
    assert Held(c, rt, id);
    var d :| d in c.nodes[id].dependsOn && (!IsTerminal(rt[d].state) || rt[d].state == NodeSkipped);
    EdgeReaches(g, id, d);
    assert d in rt;
    assert NodeInv(c, rt, d);
    if rt[d].state != NodeSkipped {
      forall x | x in seen
        ensures Reaches(g, x, d)
      {
        ReachesTrans(g, x, id, d);
      }
      assert !Reaches(g, d, d);
      StuckHasFailedAncestor(c, rt, d, seen + {id});
    }
    FailedThroughDependency(c, rt, id, d);
  }

  // At the sweep only blocked nodes are left.
  lemma OnlyBlockedLeft(c: Config, s: State)
    requires Inv(c, s) && !s.cancelled && s.running == 0 && s.ready == {} && s.retries == {}
    ensures forall o :: o in c.nodes && !IsTerminal(s.rt[o].state) ==> s.rt[o].state == NodeBlocked
  {
    forall o | o in c.nodes && !IsTerminal(s.rt[o].state)
      ensures s.rt[o].state == NodeBlocked
    {
      assert NodeInv(c, s.rt, o);
      assert o !in IdsIn(s.rt, NodeReady) && o !in IdsIn(s.rt, NodeRetryWait) && o !in IdsIn(s.rt, NodeRunning);
    }
  }

  lemma SweepKeeps(c: Config, s: State)
    requires Inv(c, s) && !s.cancelled && Acyclic(Dependencies(c.nodes)) && Enabled(c, s, Sweep)
    ensures Inv(c, Apply(c, s, Sweep)) && Frozen(s.rt, Apply(c, s, Sweep).rt)
  {
    OnlyBlockedLeft(c, s);
    forall id | id in c.nodes && !IsTerminal(s.rt[id].state)
      ensures FailedAncestor(c, s.rt, id) && s.rt[id].attempt == 0
    {
      StuckHasFailedAncestor(c, s.rt, id, {});
      assert NodeInv(c, s.rt, id);
    }
    EndAllKeepsTable(c, s.rt, NodeSkipped, Internal);
    EndAllBook(c, s, Sweep);
  }

  lemma EndAllBook(c: Config, s: State, e: Event)
    requires Book(c, s) && !s.cancelled && (e == Sweep || e == Cancel) && Enabled(c, s, e)
    ensures Book(c, Apply(c, s, e))
  {
    hide GoroutinesOk, SentIds, EndAll, TerminalIds, IdsIn, KnownIn;
    if e == Sweep {
      EndAllCounts(c, s.rt, NodeSkipped, Internal);
      EndAllIds(s.rt, NodeSkipped, Internal, NodeReady);
      EndAllIds(s.rt, NodeSkipped, Internal, NodeRunning);
      EndAllIds(s.rt, NodeSkipped, Internal, NodeRetryWait);
      EndAllIds(s.rt, NodeSkipped, Internal, NodeCancelled);
      assert IdsIn(s.rt, NodeReady) == {};
      assert IdsIn(s.rt, NodeRetryWait) == {};
    } else {
      EndAllCounts(c, s.rt, NodeCancelled, ErrorType.Cancelled);
    }
  }

  lemma CancelKeeps(c: Config, s: State)
    requires Inv(c, s) && !s.cancelled && Enabled(c, s, Cancel)
    ensures Inv(c, Apply(c, s, Cancel)) && Frozen(s.rt, Apply(c, s, Cancel).rt)
  {
    EndAllKeepsTable(c, s.rt, NodeCancelled, ErrorType.Cancelled);
    EndAllBook(c, s, Cancel);
  }

  // ---- Every event ----

  // Once cancelled, only goroutines that are still working and the clock move.
  lemma CancelledIsOver(c: Config, s: State, e: Event)
    requires ValidConfig(c) && Inv(c, s) && s.cancelled && Enabled(c, s, e)
    ensures e.Send? || e.Tick?
  {
  }

  lemma StepKeeps(c: Config, s: State, e: Event)
    requires ValidConfig(c) && Inv(c, s) && Enabled(c, s, e)
    ensures Inv(c, Apply(c, s, e))
    ensures Frozen(s.rt, Apply(c, s, e).rt)
  {
    if s.cancelled {
      CancelledIsOver(c, s, e);
    }
    match e
    case Tick(now) =>
    case Promote(r) => PromoteKeeps(c, s, r);
    case Launch(item) => LaunchKeeps(c, s, item);
    case Send(done) => SendKeeps(c, s, done);
    case Retry =>
      RetryKeeps(c, s);
      HeadFacts(c, s);
    case Settle(order) => SettleKeeps(c, s, order);
    case Sweep => SweepKeeps(c, s);
    case Cancel => CancelKeeps(c, s);
  }

  // ---- The first state ----

  ghost predicate InitialHeapOk(c: Config, order: seq<Id>, h: set<ReadyItem>, n: nat) {
    && (forall it :: it in h ==> it.id in order && it.id in c.nodes && c.nodes[it.id].dependsOn == [] &&
                                 it.priority == c.nodes[it.id].priority && it.seqNo < n)
    && (forall id :: id in order && id in c.nodes && c.nodes[id].dependsOn == [] ==> id in ReadyIds(h))
    && (forall a, b :: a in h && b in h && (a.id == b.id || a.seqNo == b.seqNo) ==> a == b)
  }

  lemma {:induction false} InitialPushesOk(c: Config, order: seq<Id>)
    requires Distinct(order) && forall id :: id in order ==> id in c.nodes
    ensures InitialHeapOk(c, order, InitialPushes(c, order).0, InitialPushes(c, order).1)
  {
    if order != [] {
      var front, last := order[..|order| - 1], order[|order| - 1];
      InitialPushesOk(c, front);
      var (h, n) := InitialPushes(c, front);
      assert order == front + [last];
      assert last !in front;
      if c.nodes[last].dependsOn == [] {
        var it := ReadyItem(last, c.nodes[last].priority, n);
        assert ReadyIds(h + {it}) == ReadyIds(h) + {last};
      }
    }
  }

  lemma InitTable(c: Config)
    requires ValidConfig(c)
    ensures TableInv(c, FreshTable(c)) && AllHeld(c, FreshTable(c))
  {
    var rt := FreshTable(c);
    forall id | id in c.nodes
      ensures KnownIn(c.nodes[id].dependsOn, rt)
    {
      forall d | d in c.nodes[id].dependsOn
        ensures d in rt
      {
        assert Edge(Dependencies(c.nodes), id, d);
      }
    }
    forall id | id in c.nodes
      ensures NodeInv(c, rt, id) && Held(c, rt, id)
    {
      if c.nodes[id].dependsOn != [] {
        assert c.nodes[id].dependsOn[0] in c.nodes[id].dependsOn;
        assert !IsTerminal(rt[c.nodes[id].dependsOn[0]].state);
      }
    }
  }

  function Roots(c: Config): set<Id> {
    set id | id in c.nodes && c.nodes[id].dependsOn == []
  }

  lemma InitSets(c: Config)
    ensures var rt := FreshTable(c);
            TerminalIds(rt) == {} && IdsIn(rt, NodeRunning) == {} && IdsIn(rt, NodeRetryWait) == {}
              && IdsIn(rt, NodeCancelled) == {}
    ensures IdsIn(FreshTable(c), NodeReady) == Roots(c)
  {
  }

  lemma InitHeap(c: Config, order: seq<Id>)
    requires VisitsAll(c, order)
    ensures var (h, n) := InitialPushes(c, order);
            ReadyHeapOk(c, h, Roots(c), n)
  {
    InitialPushesOk(c, order);
    var (h, n) := InitialPushes(c, order);
    assert ReadyIds(h) == Roots(c);
  }

  // The books of a state in which nothing has happened yet.
  lemma EmptyBook(c: Config, s: State)
    requires c.concurrency > 0 && s.terminal == 0 && s.running == 0 && s.retries == {} && s.working == {}
               && s.channel == [] && !s.cancelled
    requires TerminalIds(s.rt) == {} && IdsIn(s.rt, NodeRunning) == {} && IdsIn(s.rt, NodeRetryWait) == {}
               && IdsIn(s.rt, NodeCancelled) == {}
    requires ReadyHeapOk(c, s.ready, IdsIn(s.rt, NodeReady), s.seqNo)
    ensures Book(c, s)
  {
    hide ReadyHeapOk, IdsIn, TerminalIds;
    assert SentIds(s.channel) == {};
  }

  lemma InitOk(c: Config, order: seq<Id>, clock: int)
    requires ValidConfig(c) && VisitsAll(c, order)
    ensures Inv(c, Init(c, order, clock))
  {
    hide TableInv, AllHeld, InitialPushes, Acyclic, Closed, FreshTable, ReadyHeapOk, IdsIn, TerminalIds, Distinct,
      KnownIn, Book, Roots;
    InitTable(c);
    InitSets(c);
    InitHeap(c, order);
    EmptyBook(c, Init(c, order, clock));
  }
}
