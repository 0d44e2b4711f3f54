// The executor itself: internal/planexec/executor.go, function run, as an object whose fields are
// the local variables of that function. Each method performs events of the state machine of
// PlanExec, recorded in `events`; whatever the methods do is therefore a run in the sense of
// PlanExecRuns. The goroutines, the clock and the context are the environment: their choices are
// nondeterministic assignments.
module Executor {
  import opened Wrappers
  import opened Graph
  import opened PlanModel
  import opened PlanValidate
  import opened PlanExec
  import opened PlanExecInv
  import opened PlanExecSteps
  import opened PlanExecRuns
  import opened PlanExecProgress
  import opened PlanExecBackoff

  datatype PlanResult = PlanResult(session: string, nodes: map<Id, NodeResult>, output: map<Id, NodeResult>,
                                   partial: bool)

  datatype Choice = TimerFires | ContextDone | NodeDone

  function ConfigOf(p: Plan, requested: int): Config {
    Config(NodeMap(p.nodes), PlanIds(p.nodes), NewConcurrency(requested), p.session)
  }

  lemma ExecutableIsValid(p: Plan, requested: int)
    requires Executable(p)
    ensures ValidConfig(ConfigOf(p, requested))
  {
    NodeMapUnique(p.nodes);
    NodeMapKeys(p.nodes);
    PlanIdsAreKeys(p.nodes);
    KnownIsClosed(p.nodes);
  }

  // One more event.
  lemma Extend(c: Config, order: seq<Id>, clock: int, events: seq<Event>, s: State, e: Event)
    requires Reached(c, order, clock, events, s) && Enabled(c, s, e)
    ensures Reached(c, order, clock, events + [e], Apply(c, s, e))
    ensures Frozen(s.rt, Apply(c, s, e).rt)
  {
    hide Enabled, Apply, ValidConfig, Init, Inv;
    RunAppend(c, Init(c, order, clock), events, e);
    ReachedInv(c, order, clock, events, s);
    StepKeeps(c, s, e);
  }

  // The first state after one more node of the table has been ranged over.
  lemma InitGrows(c: Config, order: seq<Id>, id: Id, clock: int)
    requires id in c.nodes && forall o :: o in order ==> o in c.nodes
    ensures var s := Init(c, order, clock);
            Init(c, order + [id], clock)
            == if c.nodes[id].dependsOn == [] then
                 s.(ready := s.ready + {ReadyItem(id, c.nodes[id].priority, s.seqNo)}, seqNo := s.seqNo + 1)
               else s
    ensures id in Init(c, order, clock).rt
    ensures Init(c, order, clock).rt[id].state == NodeReady <==> c.nodes[id].dependsOn == []
  {
    var all := order + [id];
    assert all[..|all| - 1] == order;
  }

  lemma NoneVisited(c: Config)
    ensures Distinct([])
  {
  }

  lemma AllVisited(c: Config, order: seq<Id>)
    requires Distinct(order) && forall id :: id in order <==> id in c.nodes
    ensures VisitsAll(c, order)
  {
  }

  lemma DistinctGrows(order: seq<Id>, id: Id)
    requires Distinct(order) && id !in order
    ensures Distinct(order + [id])
    ensures forall o :: o in order + [id] <==> o in order || o == id
  {
  }

  // Which results were handed to started nodes, and that they are still the current ones.
  ghost predicate InputsOk(c: Config, rt: Table, inputs: map<Id, map<Id, NodeResult>>) {
    forall id :: id in inputs ==> InputOk(c, rt, id, inputs[id])
  }

  ghost predicate InputOk(c: Config, rt: Table, id: Id, input: map<Id, NodeResult>) {
    && id in c.nodes && KnownIn(c.nodes[id].dependsOn, rt)
    && DepsDone(c, rt, id) && input == CollectDeps(c.nodes[id], rt)
  }

  lemma InputsKept(c: Config, rt: Table, rt': Table, inputs: map<Id, map<Id, NodeResult>>)
    requires InputsOk(c, rt, inputs) && Frozen(rt, rt')
    ensures InputsOk(c, rt', inputs)
  {
    forall id | id in inputs
      ensures InputOk(c, rt', id, inputs[id])
    {
      assert InputOk(c, rt, id, inputs[id]);
      FinalDependencies(c, rt, rt', id);
    }
  }

  // dependencyState and collectDeps, which walk the dependency list.
  method CheckDependencies(n: PlanNode, rt: Table) returns (readyNow: bool, skip: bool)
    requires KnownIn(n.dependsOn, rt)
    ensures readyNow <==> DependencyState(n, n.dependsOn, rt) == Go
    ensures skip <==> DependencyState(n, n.dependsOn, rt) == Skip
  {
    var deps := n.dependsOn;
    for i := 0 to |deps|
      invariant DependencyState(n, deps, rt) == DependencyState(n, deps[i..], rt)
    {
      var d := rt[deps[i]];
      assert deps[i..][1..] == deps[i + 1..];
      if !IsTerminal(d.state) {
        return false, false;
      }
      if (d.state == NodeFailed || d.state == NodeCancelled || d.state == NodeSkipped) && !n.optional
        && !AcceptsPartial(n.op) {
        return false, true;
      }
    }
    return true, false;
  }

  method CollectDependencies(n: PlanNode, rt: Table) returns (out: map<Id, NodeResult>)
    requires KnownIn(n.dependsOn, rt)
    ensures out == CollectDeps(n, rt)
  {
    out := map[];
    for i := 0 to |n.dependsOn|
      invariant out == map d | d in n.dependsOn[..i] :: rt[d].result
    {
      var d := n.dependsOn[i];
      assert n.dependsOn[..i + 1] == n.dependsOn[..i] + [d];
      out := out[d := rt[d].result];
    }
    assert n.dependsOn[..|n.dependsOn|] == n.dependsOn;
  }

  // heap.Pop on each of the two heaps.
  method PopReady(h: set<ReadyItem>) returns (top: ReadyItem, rest: set<ReadyItem>)
    requires h != {} && forall a, b :: a in h && b in h && a.seqNo == b.seqNo ==> a == b
    ensures TopReady(h, top) && rest == h - {top}
  {
    top :| top in h;
    var todo := h - {top};
    while todo != {}
      invariant top in h && todo <= h && top !in todo
      invariant forall o :: o in h && o !in todo && o != top ==> ReadyBefore(top, o)
      decreases |todo|
    {
      var x :| x in todo;
      todo := todo - {x};
      if ReadyBefore(x, top) {
        top := x;
      }
    }
    rest := h - {top};
  }

  method PopRetry(h: set<RetryItem>) returns (top: RetryItem, rest: set<RetryItem>)
    requires h != {} && forall a, b :: a in h && b in h && a.seqNo == b.seqNo ==> a == b
    ensures TopRetry(h, top) && rest == h - {top}
  {
    top :| top in h;
    var todo := h - {top};
    while todo != {}
      invariant top in h && todo <= h && top !in todo
      invariant forall o :: o in h && o !in todo && o != top ==> RetryBefore(top, o)
      decreases |todo|
    {
      var x :| x in todo;
      todo := todo - {x};
      if RetryBefore(x, top) {
        top := x;
      }
    }
    rest := h - {top};
  }

  // The measure of PlanExecProgress, as a total function.
  ghost function Fuel(c: Config, s: State): nat {
    if forall id :: id in c.ids ==> id in c.nodes && id in s.rt then Measure(c, s) else 0
  }

  lemma FuelFalls(c: Config, s: State, e: Event)
    requires ValidConfig(c) && Inv(c, s) && Enabled(c, s, e)
    ensures Fuel(c, Apply(c, s, e)) <= Fuel(c, s)
    ensures !e.Tick? ==> Fuel(c, Apply(c, s, e)) < Fuel(c, s)
  {
    hide ValidConfig, Inv, Enabled, Apply, Measure;
    MeasureFalls(c, s, e);
  }

  lemma HeapsInOrder(c: Config, s: State)
    requires Inv(c, s) && !s.cancelled
    ensures forall a, b :: a in s.ready && b in s.ready && a.seqNo == b.seqNo ==> a == b
    ensures forall a, b :: a in s.retries && b in s.retries && a.seqNo == b.seqNo ==> a == b
    ensures forall it :: it in s.ready ==> it.id in c.nodes && it.id in s.rt && s.rt[it.id].state == NodeReady
    ensures forall it :: it in s.retries ==> it.id in s.rt && s.rt[it.id].state == NodeRetryWait
  {
    hide TableInv, AllHeld, GoroutinesOk, SentIds;
    forall it | it in s.ready
      ensures it.id in IdsIn(s.rt, NodeReady)
    {
      assert it.id in ReadyIds(s.ready);
    }
    forall it | it in s.retries
      ensures it.id in IdsIn(s.rt, NodeRetryWait)
    {
      assert it.id in RetryIds(s.retries);
    }
  }

  // The nodes of `done` ended.
  function EndSome(rt: Table, done: set<Id>, state: NodeState, kind: ErrorType): Table {
    map id | id in rt :: EndedIf(rt[id], id in done, state, kind)
  }

  function EndedIf(n: RuntimeNode, done: bool, state: NodeState, kind: ErrorType): RuntimeNode {
    if done && !IsTerminal(n.state) then Ended(n, state, kind) else n
  }

  lemma EndNone(rt: Table, state: NodeState, kind: ErrorType)
    ensures EndSome(rt, {}, state, kind) == rt
    ensures {} - TerminalIds(rt) == {}
  {
  }

  lemma EndOneMore(rt: Table, done: set<Id>, id: Id, state: NodeState, kind: ErrorType)
    requires id in rt && id !in done
    ensures EndSome(rt, done, state, kind).Keys == rt.Keys && EndSome(rt, done, state, kind)[id] == rt[id]
    ensures EndSome(rt, done + {id}, state, kind)
            == if IsTerminal(rt[id].state) then EndSome(rt, done, state, kind)
               else EndSome(rt, done, state, kind)[id := Ended(rt[id], state, kind)]
  {
    hide IsTerminal, Ended;
    var more, some := EndSome(rt, done + {id}, state, kind), EndSome(rt, done, state, kind);
    EndSomeAt(rt, done, id, state, kind);
    hide EndSome, EndedIf;
    EndedIfMeans(rt[id], state, kind);
    assert IsTerminal(rt[id].state) ==> more == some;
    assert !IsTerminal(rt[id].state) ==> more == some[id := Ended(rt[id], state, kind)];
  }

  lemma EndSomeAt(rt: Table, done: set<Id>, id: Id, state: NodeState, kind: ErrorType)
    requires id in rt && id !in done
    ensures var more, some := EndSome(rt, done + {id}, state, kind), EndSome(rt, done, state, kind);
            && more.Keys == some.Keys == rt.Keys && some[id] == rt[id] && more[id] == EndedIf(rt[id], true, state, kind)
            && forall x :: x in rt && x != id ==> more[x] == some[x]
  {
    hide Ended;
  }

  lemma EndedIfMeans(n: RuntimeNode, state: NodeState, kind: ErrorType)
    ensures EndedIf(n, true, state, kind) == if IsTerminal(n.state) then n else Ended(n, state, kind)
  {
  }

  lemma CountOneMore(rt: Table, done: set<Id>, id: Id)
    requires id in rt && id !in done
    ensures |(done + {id}) - TerminalIds(rt)| == |done - TerminalIds(rt)| + if IsTerminal(rt[id].state) then 0 else 1
  {
    var all := TerminalIds(rt);
    if IsTerminal(rt[id].state) {
      assert (done + {id}) - all == done - all;
    } else {
      assert (done + {id}) - all == (done - all) + {id};
    }
  }

  lemma EndEvery(rt: Table, done: set<Id>, state: NodeState, kind: ErrorType)
    requires done == rt.Keys
    ensures EndSome(rt, done, state, kind) == EndAll(rt, state, kind)
  {
  }

  // States that do not make the plan result partial.
  predicate Complete(s: NodeState) {
    !(s.NodeFailed? || s.NodePartial? || s.NodeSkipped? || s.NodeCancelled?)
  }

  class Executor {
    const c: Config
    var rt: Table
    var ready: set<ReadyItem>
    var retries: set<RetryItem>
    var running: int
    var terminal: int
    var seqNo: nat
    var session: string
    var clock: int
    var working: set<Id>
    var channel: seq<Completion>
    var cancelled: bool
    // The dependency results passed to the goroutine of each started node.
    var inputs: map<Id, map<Id, NodeResult>>

    ghost var firstOrder: seq<Id>
    ghost var firstClock: int
    ghost var events: seq<Event>

    ghost function View(): State
      reads this
    {
      State(rt, ready, retries, running, terminal, seqNo, session, clock, working, channel, cancelled)
    }

    ghost predicate Valid()
      reads this
    {
      Reached(c, firstOrder, firstClock, events, View()) && InputsOk(c, rt, inputs)
    }

    constructor (p: Plan, requested: int, now: int)
      requires Executable(p)
      ensures Valid() && c == ConfigOf(p, requested) && events == [] && !cancelled
    {
      c := ConfigOf(p, requested);
      rt := map[];
      ready, retries, running, terminal, seqNo := {}, {}, 0, 0, 0;
      session, clock, working, channel, cancelled := p.session, now, {}, [], false;
      inputs := map[];
      firstOrder, firstClock, events := [], now, [];
      new;
      ExecutableIsValid(p, requested);
      rt := FreshTable(c);
      PushRoots(now);
    }

    method PushRoot(id: Id, now: int)
      requires id in c.nodes && (forall o :: o in firstOrder ==> o in c.nodes) && View() == Init(c, firstOrder, now)
      modifies this`ready, this`seqNo, this`firstOrder
      ensures firstOrder == old(firstOrder) + [id] && View() == Init(c, firstOrder, now)
    {
      hide Init;
      InitGrows(c, firstOrder, id, now);
      if rt[id].state == NodeReady {
        ready := ready + {ReadyItem(id, c.nodes[id].priority, seqNo)};
        seqNo := seqNo + 1;
      }
      firstOrder := firstOrder + [id];
    }

    // The first range over the node table, in an arbitrary order.
    method PushRoots(now: int)
      requires ValidConfig(c) && View() == Init(c, [], now) && firstOrder == [] && firstClock == now
      requires events == [] && inputs == map[] && !cancelled
      modifies this
      ensures Valid() && events == [] && !cancelled
    {
      hide ValidConfig, Init, Inv, InputsOk, CanRun, After, Reached, Distinct, VisitsAll;
      var todo := c.nodes.Keys;
      NoneVisited(c);
      while todo != {}
        invariant todo <= c.nodes.Keys && Distinct(firstOrder)
        invariant forall id :: id in firstOrder <==> id in c.nodes && id !in todo
        invariant View() == Init(c, firstOrder, now)
        invariant events == [] && inputs == map[] && !cancelled && firstClock == now
        decreases |todo|
      {
        var id :| id in todo;
        todo := todo - {id};
        DistinctGrows(firstOrder, id);
        PushRoot(id, now);
      }
      AllVisited(c, firstOrder);
      NoEvents(c, firstOrder, now);
    }

    // ---- One event ----

    // The state of a run, as its invariants describe it.
    lemma Facts()
      requires Valid()
      ensures Inv(c, View()) && ValidConfig(c) && Wired(c, View())
    {
      hide Inv, ValidConfig, InputsOk;
      ReachedInv(c, firstOrder, firstClock, events, View());
      InvTable(c, View());
    }

    lemma Extended(e: Event)
      requires Valid() && Enabled(c, View(), e)
      ensures Reached(c, firstOrder, firstClock, events + [e], Apply(c, View(), e))
      ensures InputsOk(c, Apply(c, View(), e).rt, inputs)
      ensures Fuel(c, Apply(c, View(), e)) <= Fuel(c, View())
      ensures !e.Tick? ==> Fuel(c, Apply(c, View(), e)) < Fuel(c, View())
    {
      hide Inv, ValidConfig, Reached, Enabled, Apply, Fuel, InputsOk, Frozen;
      ReachedInv(c, firstOrder, firstClock, events, View());
      Extend(c, firstOrder, firstClock, events, View(), e);
      InputsKept(c, rt, Apply(c, View(), e).rt, inputs);
      FuelFalls(c, View(), e);
    }

    method AdvanceClock(now: int)
      requires Valid() && now >= clock
      modifies this`clock, this`events
      ensures Valid() && View() == old(View()).(clock := now)
      ensures events == old(events) + [Tick(now)]
      ensures Fuel(c, View()) <= Fuel(c, old(View()))
    {
      hide Inv, ValidConfig, InputsOk, Reached, KnownIn, Fuel;
      Facts();
      Extended(Tick(now));
      clock := now;
      events := events + [Tick(now)];
    }

    // Some time passes, or none.
    method PassTime()
      requires Valid()
      modifies this`clock, this`events
      ensures Valid() && View() == old(View()).(clock := clock) && clock >= old(clock)
      ensures events == old(events) + [Tick(clock)]
      ensures Fuel(c, View()) <= Fuel(c, old(View()))
      ensures old(RetryDue()) ==> RetryDue()
    {
      hide Inv, ValidConfig, InputsOk, Reached, KnownIn, Fuel;
      var elapsed: int :| elapsed >= 0;
      ghost var was := retries;
      AdvanceClock(clock + elapsed);
      assert View().retries == was;
    }

    // executor.go:134-142
    method PromoteOne(item: RetryItem, rest: set<RetryItem>)
      requires Valid() && Enabled(c, View(), Promote(item)) && rest == retries - {item}
      modifies this`rt, this`ready, this`retries, this`seqNo, this`events
      ensures Valid() && View() == Apply(c, old(View()), Promote(item))
      ensures events == old(events) + [Promote(item)]
      ensures Fuel(c, View()) < Fuel(c, old(View()))
    {
      hide Inv, ValidConfig, InputsOk, Reached, KnownIn, Fuel, Pass, EndAll, TopReady, VisitsAll, SettleHead,
        HeadRetries, RetryDelay, TerminalIds;
      Extended(Promote(item));
      retries := rest;
      rt := rt[item.id := rt[item.id].(state := NodeReady)];
      ready := ready + {ReadyItem(item.id, c.nodes[item.id].priority, seqNo)};
      seqNo := seqNo + 1;
      events := events + [Promote(item)];
    }

    // executor.go:150-163
    method LaunchOne(item: ReadyItem, rest: set<ReadyItem>)
      requires Valid() && Enabled(c, View(), Launch(item)) && rest == ready - {item}
      modifies this`rt, this`ready, this`running, this`working, this`inputs, this`events
      ensures Valid() && View() == Apply(c, old(View()), Launch(item))
      ensures events == old(events) + [Launch(item)]
      ensures item.id in c.nodes && KnownIn(c.nodes[item.id].dependsOn, rt)
      ensures inputs == old(inputs)[item.id := CollectDeps(c.nodes[item.id], rt)]
      ensures Fuel(c, View()) < Fuel(c, old(View()))
    {
      hide Inv, ValidConfig, Reached, Fuel;
      Facts();
      Extended(Launch(item));
      var id := item.id;
      ready := rest;
      rt := rt[id := rt[id].(state := NodeRunning, attempt := rt[id].attempt + 1)];
      running := running + 1;
      events := events + [Launch(item)];
      var deps := CollectDependencies(c.nodes[id], rt);
      working := working + {id};
      StartedInput(id);
      inputs := inputs[id := deps];
    }

    lemma StartedInput(id: Id)
      requires Reached(c, firstOrder, firstClock, events, View()) && id in c.nodes && id in rt
                 && rt[id].state == NodeRunning
      ensures KnownIn(c.nodes[id].dependsOn, rt) && InputOk(c, rt, id, CollectDeps(c.nodes[id], rt))
    {
      hide Inv, Reached;
      ReachedInv(c, firstOrder, firstClock, events, View());
      InvNode(c, View(), id);
    }

    // A goroutine returns from executeNode and sends its completion; executor.go:160-163.
    method SendOne(done: Completion)
      requires Valid() && Enabled(c, View(), Send(done))
      modifies this`working, this`channel, this`events
      ensures Valid() && View() == Apply(c, old(View()), Send(done))
      ensures events == old(events) + [Send(done)]
      ensures Fuel(c, View()) < Fuel(c, old(View()))
    {
      hide Inv, ValidConfig, InputsOk, Reached, KnownIn, Fuel;
      Extended(Send(done));
      working := working - {done.id};
      channel := channel + [done];
      events := events + [Send(done)];
    }

    // ---- The parts of the main loop ----

    // executor.go:133-142: every retry that has fallen due becomes ready.
    method PromoteDue()
      requires Valid() && !cancelled && Active(c, View())
      modifies this`rt, this`ready, this`retries, this`seqNo, this`events
      ensures Valid() && old(events) <= events
      ensures forall i :: |old(events)| <= i < |events| ==> events[i].Promote?
      ensures forall it :: it in retries ==> it.due > clock
      ensures Fuel(c, View()) <= Fuel(c, old(View()))
      ensures old(RetryDue()) ==> Fuel(c, View()) < Fuel(c, old(View()))
    {
      hide Inv, ValidConfig, InputsOk, Reached, KnownIn, Fuel;
      while retries != {}
        invariant Valid() && Active(c, View())
        invariant old(events) <= events
        invariant forall i :: |old(events)| <= i < |events| ==> events[i].Promote?
        invariant Fuel(c, View()) <= Fuel(c, old(View()))
        invariant retries == old(retries) || Fuel(c, View()) < Fuel(c, old(View()))
        decreases Fuel(c, View())
      {
        var more := PromoteNext();
        if !more {
          break;
        }
      }
    }

    // The retry due first is promoted, if it is due.
    method PromoteNext() returns (more: bool)
      requires Valid() && !cancelled && Active(c, View()) && retries != {}
      modifies this`rt, this`ready, this`retries, this`seqNo, this`events
      ensures Valid() && Active(c, View())
      ensures !more ==> View() == old(View()) && events == old(events) && forall it :: it in retries ==> it.due > clock
      ensures more ==> exists it :: events == old(events) + [Promote(it)]
      ensures more ==> Fuel(c, View()) < Fuel(c, old(View()))
    {
      hide Inv, ValidConfig, InputsOk, Reached, KnownIn, Fuel;
      Facts();
      HeapsInOrder(c, View());
      var top, rest := PopRetry(retries);
      more := top.due <= clock;
      if more {
        PromoteOne(top, rest);
      }
    }

    // executor.go:143-164: as many ready nodes start as the limits allow. Every item on the ready
    // heap belongs to a Ready node, so the source's check of the popped node never fails.
    method LaunchReady()
      requires Valid() && !cancelled && Active(c, View())
      modifies this`rt, this`ready, this`running, this`working, this`inputs, this`events
      ensures Valid() && old(events) <= events
      ensures forall i :: |old(events)| <= i < |events| ==> events[i].Launch?
      ensures running >= c.concurrency || ready == {} || (session == "" && running > 0)
      ensures running > 0 || (running == 0 && ready == {})
      ensures Fuel(c, View()) <= Fuel(c, old(View()))
    {
      hide Inv, ValidConfig, InputsOk, Reached, KnownIn, Fuel;
      while running < c.concurrency && ready != {}
        invariant Valid() && Active(c, View())
        invariant old(events) <= events
        invariant forall i :: |old(events)| <= i < |events| ==> events[i].Launch?
        invariant Fuel(c, View()) <= Fuel(c, old(View()))
        decreases Fuel(c, View())
      {
        if session == "" && running > 0 {
          break;
        }
        Facts();
        HeapsInOrder(c, View());
        var top, rest := PopReady(ready);
        LaunchOne(top, rest);
      }
      Facts();
      SomeConcurrency(c, View());
    }

    // The two loops that end every node that is not terminal; executor.go:165-175 and 190-201.
    method EndRemaining(state: NodeState, kind: ErrorType)
      requires IsTerminal(state)
      modifies this`rt, this`terminal
      ensures rt == EndAll(old(rt), state, kind)
      ensures terminal == old(terminal) + |old(rt).Keys - TerminalIds(old(rt))|
    {
      hide EndAll, TerminalIds, EndSome;
      ghost var before := rt;
      ghost var done := {};
      var todo := rt.Keys;
      EndNone(before, state, kind);
      while todo != {}
        invariant todo <= before.Keys && rt.Keys == before.Keys
        invariant forall id :: id in done <==> id in before && id !in todo
        invariant rt == EndSome(before, done, state, kind)
        invariant terminal == old(terminal) + |done - TerminalIds(before)|
        decreases |todo|
      {
        var id :| id in todo;
        todo := todo - {id};
        EndOneMore(before, done, id, state, kind);
        CountOneMore(before, done, id);
        if !IsTerminal(rt[id].state) {
          rt := rt[id := RuntimeNode(state, NodeResult(state, rt[id].attempt, Some(ErrorDetail(kind, false)), ""),
                                     rt[id].attempt)];
          terminal := terminal + 1;
        }
        done := done + {id};
      }
      assert done == before.Keys;
      EndEvery(before, done, state, kind);
    }

    method SweepRemaining()
      requires Valid() && !cancelled && Active(c, View()) && running == 0 && ready == {} && retries == {}
      modifies this`rt, this`terminal, this`events
      ensures Valid() && events == old(events) + [Sweep] && !Active(c, View())
      ensures rt == EndAll(old(rt), NodeSkipped, Internal)
    {
      hide Inv, ValidConfig, InputsOk, Reached, KnownIn, Fuel, EndAll;
      Facts();
      EndsAll(c, View(), Sweep);
      Extended(Sweep);
      EndRemaining(NodeSkipped, Internal);
      events := events + [Sweep];
    }

    method CancelRemaining()
      requires Valid() && !cancelled && Active(c, View())
      modifies this`rt, this`terminal, this`running, this`cancelled, this`events
      ensures Valid() && events == old(events) + [Cancel] && !Active(c, View()) && cancelled
      ensures rt == EndAll(old(rt), NodeCancelled, ErrorType.Cancelled)
      ensures Fuel(c, View()) < Fuel(c, old(View()))
    {
      hide Inv, ValidConfig, InputsOk, Reached, KnownIn, Fuel, EndAll, Pass, PushReady, TopReady, TopRetry, VisitsAll,
           SettleHead, HeadRetries, RetryHead, TerminalIds, CollectDeps;
      Facts();
      EndsAll(c, View(), Cancel);
      Extended(Cancel);
      EndRemaining(NodeCancelled, ErrorType.Cancelled);
      running := 0;
      cancelled := true;
      events := events + [Cancel];
    }

    // executor.go:235-250, one candidate of the dependency pass.
    method VisitNode(id: Id)
      requires Wired(c, View()) && id in c.nodes
      modifies this`rt, this`ready, this`terminal, this`seqNo
      ensures View() == Visit(c, old(View()), id)
    {
      hide KnownIn, DependencyState;
      if rt[id].state != NodeBlocked {
        return;
      }
      var readyNow, skip := CheckDependencies(c.nodes[id], rt);
      if skip {
        var skipped := NodeResult(NodeSkipped, rt[id].attempt, Some(ErrorDetail(UpstreamPermanent, false)), "");
        rt := rt[id := RuntimeNode(NodeSkipped, skipped, rt[id].attempt)];
        terminal := terminal + 1;
      } else if readyNow {
        rt := rt[id := rt[id].(state := NodeReady)];
        ready := ready + {ReadyItem(id, c.nodes[id].priority, seqNo)};
        seqNo := seqNo + 1;
      }
    }

    // executor.go:234-251: the node table is ranged over in an arbitrary order.
    method DependencyPass() returns (ghost order: seq<Id>)
      requires Wired(c, View())
      modifies this`rt, this`ready, this`terminal, this`seqNo
      ensures VisitsAll(c, order) && View() == Pass(c, old(View()), order)
    {
      hide KnownIn, Visit;
      order := [];
      ghost var before := View();
      var todo := rt.Keys;
      assert Distinct([]);
      while todo != {}
        invariant todo <= c.nodes.Keys && Distinct(order)
        invariant forall id :: id in order <==> id in c.nodes && id !in todo
        invariant Wired(c, View()) && View() == Pass(c, before, order)
        decreases |todo|
      {
        var id :| id in todo;
        todo := todo - {id};
        DistinctGrows(order, id);
        PassGrows(c, before, order, id);
        order := order + [id];
        VisitNode(id);
      }
    }

    // executor.go:213-221: the node goes back to wait for another attempt.
    method BackToWaiting(done: Completion, result: NodeResult)
      requires Valid() && !cancelled && Active(c, View()) && Wired(c, View())
      requires channel != [] && done == channel[0] && done.id in rt && done.id in c.nodes
      requires HeadRetries(c, View()) && result == ReceivedResult(View())
      modifies this
      ensures Valid() && events == old(events) + [Retry] && !cancelled
      ensures Fuel(c, View()) < Fuel(c, old(View()))
    {
      hide Inv, ValidConfig, InputsOk, Reached, Fuel, KnownIn, Pass, EndAll, PushReady, TopReady, TopRetry, VisitsAll,
        SettleHead, RetryHead,
           TerminalIds;
      Extended(Retry);
      MarkWaiting(done, result);
      events := events + [Retry];
    }

    method MarkWaiting(done: Completion, result: NodeResult)
      requires channel != [] && done == channel[0] && done.id in rt && done.id in c.nodes
                 && result == ReceivedResult(View())
      modifies this`session, this`running, this`channel, this`rt, this`retries, this`seqNo
      ensures View() == RetryHead(c, old(View()))
    {
      TakeHead(done);
      rt := rt[done.id := RuntimeNode(NodeRetryWait, result, rt[done.id].attempt)];
      var delay := ComputeRetryDelay(c.nodes[done.id], rt[done.id].attempt);
      retries := retries + {RetryItem(done.id, clock + delay, seqNo)};
      seqNo := seqNo + 1;
    }

    // executor.go:223-225: the node has ended.
    method MarkEnded(done: Completion, result: NodeResult)
      requires channel != [] && done == channel[0] && done.id in rt && result == ReceivedResult(View())
      modifies this`session, this`running, this`channel, this`rt, this`terminal
      ensures View() == SettleHead(old(View()))
    {
      TakeHead(done);
      rt := rt[done.id := RuntimeNode(result.state, result, rt[done.id].attempt)];
      terminal := terminal + 1;
    }

    // executor.go:223-251: the node has ended; its dependents are looked at.
    method EndNode(done: Completion, result: NodeResult) returns (ghost order: seq<Id>)
      requires Valid() && !cancelled && Active(c, View()) && Wired(c, View())
      requires channel != [] && done == channel[0] && done.id in rt && done.id in c.nodes
      requires !HeadRetries(c, View()) && result == ReceivedResult(View())
      modifies this
      ensures Valid() && events == old(events) + [Settle(order)] && VisitsAll(c, order) && !cancelled
      ensures Fuel(c, View()) < Fuel(c, old(View()))
    {
      hide Inv, ValidConfig, InputsOk, Reached, Fuel, KnownIn, Pass, SettleHead, Enabled, Apply, HeadRetries, Distinct;
      ghost var before := View();
      SettleWired(c, before);
      // Settle is enabled for every visiting order; the one taken is known after the pass.
      SettleAnyOrder(before);
      MarkEnded(done, result);
      order := DependencyPass();
      SettleIsPass(c, before, order);
      PassCancelled(c, SettleHead(before), order);
      SettleHeadCancelled(before);
      events := events + [Settle(order)];
    }

    // executor.go:202-251: the completion at the head of the channel.
    method ReceiveOne()
      requires Valid() && !cancelled && Active(c, View()) && channel != []
      modifies this
      ensures Valid() && !cancelled
      ensures old(events) < events && |events| == |old(events)| + 1
      ensures old(View()).channel[0].id in old(rt) && old(View()).channel[0].id in c.nodes
      ensures events[|old(events)|].Retry? <==> HeadRetries(c, old(View()))
      ensures events[|old(events)|].Retry? || events[|old(events)|].Settle?
      ensures Fuel(c, View()) < Fuel(c, old(View()))
    {
      hide Inv, ValidConfig, InputsOk, Reached, Fuel, KnownIn, Pass;
      Facts();
      InvHead(c, View());
      var done := channel[0];
      var node := c.nodes[done.id];
      var result := done.result.(attempts := rt[done.id].attempt);
      if done.result.state == NodeFailed && ShouldRetry(done.result.error) && rt[done.id].attempt < MaxAttempts(node) {
        BackToWaiting(done, result);
      } else {
        ghost var _ := EndNode(done, result);
      }
    }

    // The session is learnt, the running count falls, the completion leaves the channel.
    method TakeHead(done: Completion)
      requires channel != [] && channel[0] == done
      modifies this`session, this`running, this`channel
      ensures session == if old(session) == "" then done.session else old(session)
      ensures running == old(running) - 1 && channel == old(channel)[1..]
    {
      if session == "" && done.session != "" {
        session := done.session;
      }
      running := running - 1;
      channel := channel[1..];
    }

    lemma SettleAnyOrder(s: State)
      requires Valid() && s == View() && !s.cancelled && Active(c, s) && s.channel != []
      requires s.channel[0].id in s.rt && s.channel[0].id in c.nodes && !HeadRetries(c, s)
      ensures forall order {:trigger VisitsAll(c, order)} :: VisitsAll(c, order) ==>
                && Enabled(c, s, Settle(order))
                && Reached(c, firstOrder, firstClock, events + [Settle(order)], Apply(c, s, Settle(order)))
                && InputsOk(c, Apply(c, s, Settle(order)).rt, inputs)
                && Fuel(c, Apply(c, s, Settle(order))) < Fuel(c, s)
    {
      hide Inv, ValidConfig, InputsOk, Reached, Fuel, KnownIn, Pass, Distinct;
      Facts();
      forall order | VisitsAll(c, order)
        ensures Enabled(c, s, Settle(order))
        ensures Reached(c, firstOrder, firstClock, events + [Settle(order)], Apply(c, s, Settle(order)))
        ensures InputsOk(c, Apply(c, s, Settle(order)).rt, inputs)
        ensures Fuel(c, Apply(c, s, Settle(order))) < Fuel(c, s)
      {
        assert Enabled(c, s, Settle(order));
        hide Apply;
        Extended(Settle(order));
      }
    }

    // The environment lets goroutines finish until a completion can be received. Time passes: a
    // retry may fall due meanwhile.
    method AwaitCompletion()
      requires Valid() && !cancelled && running > 0
      modifies this`working, this`channel, this`clock, this`events
      ensures Valid() && channel != [] && old(events) <= events && clock >= old(clock)
      ensures forall i :: |old(events)| <= i < |events| ==> events[i].Send? || events[i].Tick?
      ensures Fuel(c, View()) <= Fuel(c, old(View()))
    {
      hide Inv, ValidConfig, InputsOk, Reached, Fuel, KnownIn, RetryDue;
      var more: bool := *;
      while channel == [] || (more && working != {})
        invariant Valid() && old(events) <= events && clock >= old(clock)
        invariant forall i :: |old(events)| <= i < |events| ==> events[i].Send? || events[i].Tick?
        invariant Fuel(c, View()) <= Fuel(c, old(View()))
        decreases working
      {
        PassTime();
        Facts();
        if channel == [] {
          SomeoneWorks(c, View());
        }
        var id :| id in working;
        assert IsOutcome(NodeFailed);
        var state :| IsOutcome(state);
        var error: Option<ErrorDetail> := *;
        var payload: string := *;
        var sid: string := *;
        var done := Completion(id, NodeResult(state, 0, error, payload), sid);
        RoomToSend(c, View(), id);
        SendOne(done);
        more := *;
      }
      PassTime();
    }

    ghost predicate RetryDue()
      reads this
    {
      exists it :: it in retries && it.due <= clock
    }

    // executor.go:178-189: the timer is set for the head of the retry heap, and fires when that is due
    // or later.
    method AwaitTimer()
      requires Valid() && !cancelled && retries != {}
      modifies this`clock, this`events
      ensures Valid() && old(events) <= events && clock >= old(clock)
      ensures RetryDue()
      ensures Fuel(c, View()) <= Fuel(c, old(View()))
    {
      hide Inv, ValidConfig, InputsOk, Reached, Fuel, KnownIn;
      Facts();
      HeapsInOrder(c, View());
      var top, _ := PopRetry(retries);
      ghost var was := retries;
      var late: int :| late >= 0;
      AdvanceClock((if top.due > clock then top.due else clock) + late);
      assert View().retries == was;
    }

    // executor.go:133-164: due retries are promoted and ready nodes launched.
    method StartRound()
      requires Valid() && !cancelled && Active(c, View())
      modifies this
      ensures Valid() && !cancelled && Active(c, View()) && old(events) <= events
      ensures running > 0 || (running == 0 && ready == {})
      ensures Fuel(c, View()) <= Fuel(c, old(View())) && (old(RetryDue()) ==> Fuel(c, View()) < Fuel(c, old(View())))
    {
      hide Inv, ValidConfig, InputsOk, Reached, Fuel, RetryDue;
      PassTime();
      PromoteDue();
      LaunchReady();
    }

    // executor.go:132-253.
    method RunLoop()
      requires Valid() && !cancelled
      modifies this
      ensures Valid() && !Active(c, View()) && old(events) <= events
    {
      hide Inv, ValidConfig, InputsOk, Reached, Fuel, RetryDue;
      ghost var timerFired := false;
      while terminal < |c.ids|
        invariant Valid() && old(events) <= events
        invariant Active(c, View()) ==> !cancelled
        invariant timerFired ==> RetryDue()
        decreases Fuel(c, View()), if timerFired then 0 else 1
      {
        StartRound();
        if running == 0 && ready == {} && retries == {} {
          SweepRemaining();
          break;
        }
        var choice: Choice := *;
        if choice.ContextDone? {
          CancelRemaining();
          timerFired := false;
        } else if retries != {} && (choice.TimerFires? || running == 0) {
          AwaitTimer();
          timerFired := true;
        } else {
          AwaitCompletion();
          ReceiveOne();
          timerFired := false;
        }
      }
    }

    // executor.go:254-274: the results of all nodes and the requested output.
    method BuildResult(output: seq<Id>) returns (r: PlanResult)
      ensures r.session == session
      ensures r.nodes == map id | id in rt :: rt[id].result
      ensures r.partial <==> exists id :: id in rt && !Complete(rt[id].result.state)
      ensures output == [] ==> r.output == r.nodes
      ensures output != [] ==> r.output == map id | id in output && id in rt :: rt[id].result
    {
      var nodes: map<Id, NodeResult> := map[];
      var partial := false;
      var todo := rt.Keys;
      while todo != {}
        invariant todo <= rt.Keys
        invariant nodes == map id | id in rt && id !in todo :: rt[id].result
        invariant partial <==> exists id :: id in rt && id !in todo && !Complete(rt[id].result.state)
        decreases |todo|
      {
        var id :| id in todo;
        todo := todo - {id};
        nodes := nodes[id := rt[id].result];
        if !Complete(rt[id].result.state) {
          partial := true;
        }
      }
      var out: map<Id, NodeResult> := map[];
      for i := 0 to |output|
        invariant out == map id | id in output[..i] && id in rt :: rt[id].result
      {
        assert output[..i + 1] == output[..i] + [output[i]];
        if output[i] in nodes {
          out := out[output[i] := nodes[output[i]]];
        }
      }
      assert output[..|output|] == output;
      if |output| == 0 {
        out := nodes;
      }
      r := PlanResult(session, nodes, out, partial);
    }

    // A whole run, from the first event to the plan result.
    method Run(output: seq<Id>) returns (r: PlanResult)
      requires Valid() && events == [] && !cancelled
      modifies this
      // The run is one of the state machine, and it has ended with every node terminal.
      ensures Reached(c, firstOrder, firstClock, events, View())
      ensures forall id :: id in c.nodes ==> id in rt && IsTerminal(rt[id].state)
      // Nodes are skipped only below failures; uncancelled and not partial, everything ran.
      ensures forall id :: id in c.nodes && rt[id].state == NodeSkipped ==> FailedAncestor(c, rt, id)
      ensures forall id :: id in c.nodes ==> rt[id].attempt == Launches(events, id) <= MaxAttempts(c.nodes[id])
      // What a started node was given is what the plan result says of its dependencies.
      ensures r.nodes == map id | id in rt :: rt[id].result
      ensures forall id :: id in inputs ==> InputOk(c, rt, id, inputs[id])
      ensures !cancelled && !r.partial ==>
                forall id :: id in c.nodes ==> IsOutcome(rt[id].state) && rt[id].state != NodeFailed
      ensures r.session == session && (output == [] ==> r.output == r.nodes)
    {
      hide Inv, ValidConfig, Reached, Fuel;
      RunLoop();
      ReachedInv(c, firstOrder, firstClock, events, View());
      InvEnded(c, View());
      r := BuildResult(output);
      forall id | id in c.nodes
        ensures rt[id].state == NodeSkipped ==> FailedAncestor(c, rt, id)
        ensures rt[id].attempt == Launches(events, id) <= MaxAttempts(c.nodes[id])
        ensures rt[id].result.state == rt[id].state
      {
        InvNode(c, View(), id);
        StartsAreBounded(c, firstOrder, firstClock, events, View(), id);
      }
      assert forall id :: id in rt ==> id in c.nodes by {
        TerminalAreNodes(c, View());
      }
    }
  }

  lemma SettleWired(c: Config, s: State)
    requires Wired(c, s) && s.channel != [] && s.channel[0].id in s.rt
    ensures Wired(c, SettleHead(s))
  {
    forall o | o in c.nodes
      ensures KnownIn(c.nodes[o].dependsOn, SettleHead(s).rt)
    {
      assert KnownIn(c.nodes[o].dependsOn, s.rt);
      KnownInKeys(c.nodes[o].dependsOn, s.rt, SettleHead(s).rt);
    }
  }

  lemma SomeConcurrency(c: Config, s: State)
    requires Inv(c, s) && ValidConfig(c) && !s.cancelled
    ensures c.concurrency > 0 && s.running >= 0
  {
    hide TableInv, AllHeld, ReadyHeapOk, RetryHeapOk, GoroutinesOk, SentIds, IdsIn;
  }

  lemma {:induction false} PassCancelled(c: Config, s: State, order: seq<Id>)
    requires Wired(c, s) && forall id :: id in order ==> id in c.nodes
    ensures Pass(c, s, order).cancelled == s.cancelled
  {
    if order != [] {
      PassCancelled(c, s, order[..|order| - 1]);
    }
  }

  lemma SettleHeadCancelled(s: State)
    requires s.channel != [] && s.channel[0].id in s.rt
    ensures SettleHead(s).cancelled == s.cancelled
  {
  }

  lemma SettleIsPass(c: Config, s: State, order: seq<Id>)
    requires Enabled(c, s, Settle(order))
    ensures s.channel != [] && s.channel[0].id in s.rt && Wired(c, SettleHead(s))
              && forall id :: id in order ==> id in c.nodes
    ensures Apply(c, s, Settle(order)) == Pass(c, SettleHead(s), order)
  {
    hide Pass, KnownIn;
    SettleWired(c, s);
  }

  lemma SomeoneWorks(c: Config, s: State)
    requires Inv(c, s) && !s.cancelled && s.running > 0 && s.channel == []
    ensures s.working != {}
  {
    hide TableInv, AllHeld, ReadyHeapOk, RetryHeapOk, GoroutinesOk;
    assert SentIds(s.channel) == {};
  }

  lemma RoomToSend(c: Config, s: State, id: Id)
    requires Inv(c, s) && ValidConfig(c) && id in s.working
    ensures |s.channel| < |c.ids|
  {
    hide TableInv, AllHeld, Live, IdsIn, TerminalIds;
    var sent := SentIds(s.channel);
    SentIdsCount(s.channel);
    Complement(sent, c.nodes.Keys);
    assert id in c.nodes.Keys - sent;
  }

  lemma TerminalAreNodes(c: Config, s: State)
    requires Inv(c, s)
    ensures TerminalIds(s.rt) <= c.nodes.Keys && s.rt.Keys == c.nodes.Keys
  {
    hide AllHeld, Book, NodeInv, KnownIn;
  }

  lemma EndsAll(c: Config, s: State, e: Event)
    requires Inv(c, s) && ValidConfig(c) && (e == Sweep || e == Cancel) && Enabled(c, s, e)
    ensures !Active(c, Apply(c, s, e))
  {
    hide AllHeld, TableInv, Live, GoroutinesOk, TerminalIds;
    TerminalAreNodes(c, s);
    Complement(TerminalIds(s.rt), c.nodes.Keys);
  }

  lemma PassGrows(c: Config, s: State, order: seq<Id>, id: Id)
    requires Wired(c, s) && id in c.nodes && forall o :: o in order ==> o in c.nodes
    ensures Pass(c, s, order + [id]) == Visit(c, Pass(c, s, order), id)
    ensures Wired(c, Visit(c, Pass(c, s, order), id))
  {
    hide Visit, KnownIn;
    var all := order + [id];
    assert all[..|all| - 1] == order && all[|all| - 1] == id;
    assert Wired(c, Pass(c, s, all));
  }

  lemma NoEvents(c: Config, order: seq<Id>, clock: int)
    requires ValidConfig(c) && VisitsAll(c, order)
    ensures Reached(c, order, clock, [], Init(c, order, clock))
    ensures InputsOk(c, Init(c, order, clock).rt, map[])
  {
  }

  lemma InvTable(c: Config, s: State)
    requires Inv(c, s)
    ensures Wired(c, s)
  {
    hide Book, AllHeld, NodeInv;
  }
}
