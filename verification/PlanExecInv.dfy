// What every state of every run satisfies, and the proof that each event keeps it.
module PlanExecInv {
  import opened Graph
  import opened PlanModel
  import opened PlanExec

  // ---- The node table ----

  // All dependencies are terminal, and a bad one is tolerated.
  ghost predicate DepsDone(c: Config, rt: Table, id: Id)
    requires id in c.nodes && KnownIn(c.nodes[id].dependsOn, rt)
  {
    forall d :: d in c.nodes[id].dependsOn ==>
      IsTerminal(rt[d].state) && (IsBad(rt[d].state) ==> Tolerant(c.nodes[id]))
  }

  // Some transitive dependency failed.
  ghost predicate FailedAncestor(c: Config, rt: Table, id: Id) {
    exists f :: f in rt && rt[f].state == NodeFailed && Reaches(Dependencies(c.nodes), id, f)
  }

  ghost predicate AttemptsInRange(n: PlanNode, r: RuntimeNode) {
    match r.state
    case NodeBlocked => r.attempt == 0
    case NodeReady => r.attempt < MaxAttempts(n)
    case NodeRetryWait => 0 < r.attempt < MaxAttempts(n) && r.result.state == NodeFailed
    case NodeRunning => 0 < r.attempt <= MaxAttempts(n)
    case _ =>
      && IsTerminal(r.state) && r.attempt <= MaxAttempts(n)
      && r.result.state == r.state && r.result.attempts == r.attempt
  }

  ghost predicate NodeInv(c: Config, rt: Table, id: Id)
    requires id in c.nodes && id in rt && KnownIn(c.nodes[id].dependsOn, rt)
  {
    var r := rt[id];
    && AttemptsInRange(c.nodes[id], r)
    && (r.state == NodeReady || r.attempt > 0 ==> DepsDone(c, rt, id))
    && (r.state == NodeSkipped ==> FailedAncestor(c, rt, id) && r.attempt == 0)
    && (IsOutcome(r.state) ==> r.attempt > 0)
  }

  ghost predicate WiredTable(c: Config, rt: Table) {
    && rt.Keys == c.nodes.Keys
    && forall id :: id in c.nodes ==> KnownIn(c.nodes[id].dependsOn, rt)
  }

  ghost predicate TableInv(c: Config, rt: Table) {
    WiredTable(c, rt) && forall id {:trigger NodeInv(c, rt, id)} :: id in c.nodes ==> NodeInv(c, rt, id)
  }

  // A blocked node is waiting for something: a dependency that is not terminal, or one that was
  // skipped after this node was last looked at.
  ghost predicate Held(c: Config, rt: Table, id: Id)
    requires id in c.nodes && id in rt && KnownIn(c.nodes[id].dependsOn, rt)
  {
    rt[id].state == NodeBlocked ==>
      exists d :: d in c.nodes[id].dependsOn && (!IsTerminal(rt[d].state) || rt[d].state == NodeSkipped)
  }

  ghost predicate AllHeld(c: Config, rt: Table)
    requires WiredTable(c, rt)
  {
    forall id {:trigger Held(c, rt, id)} :: id in c.nodes ==> Held(c, rt, id)
  }

  // Terminal entries are the same in both tables.
  ghost predicate Frozen(rt: Table, rt': Table) {
    rt.Keys == rt'.Keys && forall id :: id in rt && IsTerminal(rt[id].state) ==> rt'[id] == rt[id]
  }

  lemma FrozenTrans(a: Table, b: Table, c: Table)
    requires Frozen(a, b) && Frozen(b, c)
    ensures Frozen(a, c)
  {
  }

  lemma FailedAncestorKept(c: Config, rt: Table, rt': Table, id: Id)
    requires Frozen(rt, rt') && FailedAncestor(c, rt, id)
    ensures FailedAncestor(c, rt', id)
  {
    var f :| f in rt && rt[f].state == NodeFailed && Reaches(Dependencies(c.nodes), id, f);
    assert rt'[f] == rt[f];
  }

  lemma NodeInvKept(c: Config, rt: Table, rt': Table, id: Id)
    requires WiredTable(c, rt) && WiredTable(c, rt') && Frozen(rt, rt')
    requires id in c.nodes && rt'[id] == rt[id] && NodeInv(c, rt, id)
    ensures NodeInv(c, rt', id)
  {
    if FailedAncestor(c, rt, id) {
      FailedAncestorKept(c, rt, rt', id);
    }
  }

  lemma UpdateKeepsTable(c: Config, rt: Table, id: Id, n: RuntimeNode)
    requires TableInv(c, rt) && id in c.nodes && !IsTerminal(rt[id].state)
    requires WiredTable(c, rt[id := n]) ==> NodeInv(c, rt[id := n], id)
    ensures TableInv(c, rt[id := n]) && Frozen(rt, rt[id := n])
  {
    var rt' := rt[id := n];
    forall o | o in c.nodes
      ensures NodeInv(c, rt', o)
    {
      if o != id {
        assert NodeInv(c, rt, o);
        NodeInvKept(c, rt, rt', o);
      }
    }
  }

  // A dependency's failed ancestor, or its own failure, is a failed ancestor of the node.
  lemma FailedThroughDependency(c: Config, rt: Table, id: Id, d: Id)
    requires WiredTable(c, rt) && id in c.nodes && d in c.nodes[id].dependsOn
    requires rt[d].state == NodeFailed || FailedAncestor(c, rt, d)
    ensures FailedAncestor(c, rt, id)
  {
    var g := Dependencies(c.nodes);
    EdgeReaches(g, id, d);
    if rt[d].state != NodeFailed {
      var f :| f in rt && rt[f].state == NodeFailed && Reaches(g, d, f);
      ReachesTrans(g, id, d, f);
    }
  }

  // ---- dependencyState, stated over all dependencies at once ----

  ghost predicate DecidesSkip(n: PlanNode, rt: Table, deps: seq<Id>, i: nat)
    requires i < |deps| && KnownIn(deps, rt)
  {
    && IsBad(rt[deps[i]].state) && !Tolerant(n)
    && forall j :: 0 <= j < i ==> IsTerminal(rt[deps[j]].state) && !IsBad(rt[deps[j]].state)
  }

  lemma {:induction false} DependencyStateMeaning(n: PlanNode, deps: seq<Id>, rt: Table)
    requires KnownIn(deps, rt)
    ensures DependencyState(n, deps, rt) == Go <==>
            forall d :: d in deps ==> IsTerminal(rt[d].state) && (IsBad(rt[d].state) ==> Tolerant(n))
    ensures DependencyState(n, deps, rt) == Skip <==> exists i :: 0 <= i < |deps| && DecidesSkip(n, rt, deps, i)
    ensures DependencyState(n, deps, rt) == Wait ==> exists d :: d in deps && !IsTerminal(rt[d].state)
  {
    if deps != [] {
      var rest := deps[1..];
      assert forall d :: d in deps <==> d == deps[0] || d in rest;
      DependencyStateMeaning(n, rest, rt);
      if IsTerminal(rt[deps[0]].state) && !(IsBad(rt[deps[0]].state) && !Tolerant(n)) {
        if DependencyState(n, rest, rt) == Skip {
          var i :| 0 <= i < |rest| && DecidesSkip(n, rt, rest, i);
          assert DecidesSkip(n, rt, deps, i + 1);
        }
        if exists i :: 0 <= i < |deps| && DecidesSkip(n, rt, deps, i) {
          var i :| 0 <= i < |deps| && DecidesSkip(n, rt, deps, i);
          assert i > 0;
          assert DecidesSkip(n, rt, rest, i - 1);
        }
      } else if IsTerminal(rt[deps[0]].state) {
        assert DecidesSkip(n, rt, deps, 0);
      }
    }
  }

  // ---- The books of the scheduler ----

  function ReadyIds(h: set<ReadyItem>): set<Id> {
    set it | it in h :: it.id
  }

  function RetryIds(h: set<RetryItem>): set<Id> {
    set it | it in h :: it.id
  }

  function SentIds(ch: seq<Completion>): set<Id> {
    set i | 0 <= i < |ch| :: ch[i].id
  }

  // The heap holds exactly the Ready nodes, once each, with distinct sequence numbers.
  ghost predicate ReadyHeapOk(c: Config, h: set<ReadyItem>, ids: set<Id>, seqNo: nat) {
    && ReadyIds(h) == ids
    && (forall it :: it in h ==> it.id in c.nodes && it.priority == c.nodes[it.id].priority && it.seqNo < seqNo)
    && (forall a, b :: a in h && b in h && (a.id == b.id || a.seqNo == b.seqNo) ==> a == b)
  }

  ghost predicate RetryHeapOk(h: set<RetryItem>, ids: set<Id>, seqNo: nat) {
    && RetryIds(h) == ids
    && (forall it :: it in h ==> it.seqNo < seqNo)
    && (forall a, b :: a in h && b in h && (a.id == b.id || a.seqNo == b.seqNo) ==> a == b)
  }

  ghost predicate DistinctIds(ch: seq<Completion>) {
    forall i, j :: 0 <= i < j < |ch| ==> ch[i].id != ch[j].id
  }

  ghost predicate Outcomes(ch: seq<Completion>) {
    forall i :: 0 <= i < |ch| ==> IsOutcome(ch[i].result.state)
  }

  // Every started goroutine is still working or has its completion in the channel, not both.
  ghost predicate GoroutinesOk(ids: set<Id>, working: set<Id>, ch: seq<Completion>) {
    working !! SentIds(ch) && DistinctIds(ch) && Outcomes(ch) && working + SentIds(ch) <= ids
  }

  // The counters and heaps agree with the node table; the limits are respected.
  ghost predicate Live(c: Config, s: State) {
    && IdsIn(s.rt, NodeRunning) == s.working + SentIds(s.channel)
    && s.running == |IdsIn(s.rt, NodeRunning)|
    && s.running <= c.concurrency
    && (s.session == "" ==> s.running <= 1)
    && ReadyHeapOk(c, s.ready, IdsIn(s.rt, NodeReady), s.seqNo)
    && RetryHeapOk(s.retries, IdsIn(s.rt, NodeRetryWait), s.seqNo)
    && IdsIn(s.rt, NodeCancelled) == {}
  }

  ghost predicate Book(c: Config, s: State) {
    && s.terminal == |TerminalIds(s.rt)|
    && GoroutinesOk(c.nodes.Keys, s.working, s.channel)
    && (!s.cancelled ==> Live(c, s))
    && (s.cancelled ==> s.terminal == |c.nodes|)
  }

  ghost predicate Inv(c: Config, s: State) {
    TableInv(c, s.rt) && Book(c, s) && AllHeld(c, s.rt)
  }

  // ---- Bookkeeping of single updates ----

  function Moved(ids: set<Id>, id: Id, enters: bool): set<Id> {
    if enters then ids + {id} else ids - {id}
  }

  lemma StateUpdate(rt: Table, id: Id, n: RuntimeNode, st: NodeState)
    requires id in rt
    ensures IdsIn(rt[id := n], st) == Moved(IdsIn(rt, st), id, n.state == st)
  {
  }

  // How the id sets change when one node does.
  lemma CountUpdate(rt: Table, id: Id, n: RuntimeNode)
    requires id in rt
    ensures TerminalIds(rt[id := n]) == Moved(TerminalIds(rt), id, IsTerminal(n.state))
    ensures IdsIn(rt[id := n], NodeRunning) == Moved(IdsIn(rt, NodeRunning), id, n.state == NodeRunning)
    ensures IdsIn(rt[id := n], NodeReady) == Moved(IdsIn(rt, NodeReady), id, n.state == NodeReady)
    ensures IdsIn(rt[id := n], NodeRetryWait) == Moved(IdsIn(rt, NodeRetryWait), id, n.state == NodeRetryWait)
    ensures IdsIn(rt[id := n], NodeCancelled) == Moved(IdsIn(rt, NodeCancelled), id, n.state == NodeCancelled)
  {
    StateUpdate(rt, id, n, NodeRunning);
    StateUpdate(rt, id, n, NodeReady);
    StateUpdate(rt, id, n, NodeRetryWait);
    StateUpdate(rt, id, n, NodeCancelled);
  }

  // Which id sets a node is in.
  lemma Whereabouts(rt: Table, id: Id)
    requires id in rt
    ensures id in TerminalIds(rt) <==> IsTerminal(rt[id].state)
    ensures id in IdsIn(rt, NodeRunning) <==> rt[id].state == NodeRunning
    ensures id in IdsIn(rt, NodeReady) <==> rt[id].state == NodeReady
    ensures id in IdsIn(rt, NodeRetryWait) <==> rt[id].state == NodeRetryWait
    ensures id in IdsIn(rt, NodeCancelled) <==> rt[id].state == NodeCancelled
  {
  }

  lemma ReadyPushed(c: Config, h: set<ReadyItem>, ids: set<Id>, seqNo: nat, id: Id)
    requires ReadyHeapOk(c, h, ids, seqNo) && id in c.nodes && id !in ids
    ensures ReadyHeapOk(c, h + {ReadyItem(id, c.nodes[id].priority, seqNo)}, ids + {id}, seqNo + 1)
  {
    var it := ReadyItem(id, c.nodes[id].priority, seqNo);
    assert ReadyIds(h + {it}) == ReadyIds(h) + {id};
  }

  lemma ReadyPopped(c: Config, h: set<ReadyItem>, ids: set<Id>, seqNo: nat, it: ReadyItem)
    requires ReadyHeapOk(c, h, ids, seqNo) && it in h
    ensures it.id in ids && ReadyHeapOk(c, h - {it}, ids - {it.id}, seqNo)
  {
    assert ReadyIds(h - {it}) == ReadyIds(h) - {it.id};
  }

  lemma RetryPushed(h: set<RetryItem>, ids: set<Id>, seqNo: nat, it: RetryItem)
    requires RetryHeapOk(h, ids, seqNo) && it.id !in ids && it.seqNo == seqNo
    ensures RetryHeapOk(h + {it}, ids + {it.id}, seqNo + 1)
  {
    assert RetryIds(h + {it}) == RetryIds(h) + {it.id};
  }

  lemma RetryPopped(h: set<RetryItem>, ids: set<Id>, seqNo: nat, it: RetryItem)
    requires RetryHeapOk(h, ids, seqNo) && it in h
    ensures it.id in ids && RetryHeapOk(h - {it}, ids - {it.id}, seqNo)
  {
    assert RetryIds(h - {it}) == RetryIds(h) - {it.id};
  }

  // A heap stays in order when later sequence numbers have been handed out.
  lemma ReadyLater(c: Config, h: set<ReadyItem>, ids: set<Id>, seqNo: nat, later: nat)
    requires ReadyHeapOk(c, h, ids, seqNo) && seqNo <= later
    ensures ReadyHeapOk(c, h, ids, later)
  {
  }

  lemma RetryLater(h: set<RetryItem>, ids: set<Id>, seqNo: nat, later: nat)
    requires RetryHeapOk(h, ids, seqNo) && seqNo <= later
    ensures RetryHeapOk(h, ids, later)
  {
  }

  lemma SentIdsAppend(ch: seq<Completion>, d: Completion)
    ensures SentIds(ch + [d]) == SentIds(ch) + {d.id}
    ensures DistinctIds(ch) && d.id !in SentIds(ch) ==> DistinctIds(ch + [d])
  {
    var all := ch + [d];
    forall i | 0 <= i < |all|
      ensures all[i].id in SentIds(ch) + {d.id}
    {
      assert i < |ch| ==> all[i] == ch[i];
    }
    forall i | 0 <= i < |ch|
      ensures ch[i].id in SentIds(all) && ch[i].id in SentIds(ch)
    {
      assert all[i] == ch[i];
    }
    assert all[|ch|].id in SentIds(all);
  }

  lemma SentIdsHead(ch: seq<Completion>)
    requires ch != []
    ensures ch[0].id in SentIds(ch)
    ensures SentIds(ch) == {ch[0].id} + SentIds(ch[1..])
    ensures DistinctIds(ch) ==> DistinctIds(ch[1..]) && ch[0].id !in SentIds(ch[1..])
  {
    forall x | x in SentIds(ch) && x != ch[0].id
      ensures x in SentIds(ch[1..])
    {
      var i :| 0 <= i < |ch| && ch[i].id == x;
      assert ch[1..][i - 1].id == x;
    }
  }

  // A goroutine puts its completion into the channel.
  lemma GoroutineSends(ids: set<Id>, working: set<Id>, ch: seq<Completion>, d: Completion)
    requires GoroutinesOk(ids, working, ch) && d.id in working && IsOutcome(d.result.state)
    ensures GoroutinesOk(ids, working - {d.id}, ch + [d])
    ensures working - {d.id} + SentIds(ch + [d]) == working + SentIds(ch)
  {
    SentIdsAppend(ch, d);
  }

  // The head of the channel is taken.
  lemma ChannelHead(ids: set<Id>, working: set<Id>, ch: seq<Completion>)
    requires GoroutinesOk(ids, working, ch) && ch != []
    ensures ch[0].id in working + SentIds(ch) && ch[0].id in ids && IsOutcome(ch[0].result.state)
    ensures GoroutinesOk(ids, working, ch[1..])
    ensures working + SentIds(ch[1..]) == working + SentIds(ch) - {ch[0].id}
  {
    SentIdsHead(ch);
  }

  lemma {:induction false} SentIdsCount(ch: seq<Completion>)
    requires DistinctIds(ch)
    ensures |SentIds(ch)| == |ch|
  {
    if ch != [] {
      SentIdsHead(ch);
      SentIdsCount(ch[1..]);
    }
  }
}
