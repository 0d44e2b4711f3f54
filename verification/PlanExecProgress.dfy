// Runs end: a natural number falls at every event but a tick of the clock, and until every node
// is terminal some such event can happen. Back-off delays are respected.
module PlanExecProgress {
  import opened Wrappers
  import opened Graph
  import opened PlanModel
  import opened PlanExec
  import opened PlanExecInv
  import opened PlanExecSteps
  import opened PlanExecRuns

  // ---- The measure ----

  function AttemptsLeft(n: PlanNode, r: RuntimeNode): nat {
    if r.attempt <= MaxAttempts(n) then MaxAttempts(n) - r.attempt else 0
  }

  // How many events a node can still take part in.
  function NodeWeight(n: PlanNode, r: RuntimeNode): nat {
    match r.state
    case NodeBlocked => 4 * AttemptsLeft(n, r) + 1
    case NodeReady => 4 * AttemptsLeft(n, r)
    case NodeRunning => 4 * AttemptsLeft(n, r) + 2
    case NodeRetryWait => 4 * AttemptsLeft(n, r) + 1
    case _ => 0
  }

  function Weight(c: Config, s: State, id: Id): nat
    requires id in c.nodes && id in s.rt
  {
    NodeWeight(c.nodes[id], s.rt[id]) + if id in s.working then 1 else 0
  }

  function Total(c: Config, s: State, ids: seq<Id>): nat
    requires forall id :: id in ids ==> id in c.nodes && id in s.rt
  {
    if ids == [] then 0 else Weight(c, s, ids[0]) + Total(c, s, ids[1..])
  }

  function Measure(c: Config, s: State): nat
    requires forall id :: id in c.ids ==> id in c.nodes && id in s.rt
  {
    Total(c, s, c.ids)
  }

  ghost predicate NoHeavier(c: Config, s: State, t: State) {
    && s.rt.Keys == c.nodes.Keys && t.rt.Keys == c.nodes.Keys
    && forall id :: id in c.nodes ==> Weight(c, t, id) <= Weight(c, s, id)
  }

  lemma {:induction false} TotalFalls(c: Config, s: State, t: State, ids: seq<Id>, hit: Id)
    requires NoHeavier(c, s, t) && forall id :: id in ids ==> id in c.nodes
    ensures Total(c, t, ids) <= Total(c, s, ids)
    ensures hit in ids && Weight(c, t, hit) < Weight(c, s, hit) ==> Total(c, t, ids) < Total(c, s, ids)
  {
    if ids != [] {
      assert ids[0] in ids;
      TotalFalls(c, s, t, ids[1..], hit);
    }
  }

  lemma VisitWeight(c: Config, s: State, visited: Id, id: Id)
    requires Wired(c, s) && visited in c.nodes && id in c.nodes
    ensures id in Visit(c, s, visited).rt && Weight(c, Visit(c, s, visited), id) <= Weight(c, s, id)
  {
    hide DependencyState, KnownIn;
  }

  lemma {:induction false} PassWeight(c: Config, s: State, order: seq<Id>, id: Id)
    requires Wired(c, s) && id in c.nodes && forall o :: o in order ==> o in c.nodes
    ensures Weight(c, Pass(c, s, order), id) <= Weight(c, s, id)
  {
    if order != [] {
      hide Visit, Weight, KnownIn;
      PassWeight(c, s, order[..|order| - 1], id);
      VisitWeight(c, Pass(c, s, order[..|order| - 1]), order[|order| - 1], id);
    }
  }

  // Ending every node that is left frees at least one while the loop is active.
  lemma SomeoneLeft(c: Config, s: State) returns (hit: Id)
    requires Inv(c, s) && ValidConfig(c) && Active(c, s)
    ensures hit in c.nodes && hit in s.rt && !IsTerminal(s.rt[hit].state)
  {
    InvEnded(c, s);
    hide Inv;
    if forall id :: id in c.nodes ==> id in s.rt && IsTerminal(s.rt[id].state) {
      assert false;
    }
    var id :| id in c.nodes && !(id in s.rt && IsTerminal(s.rt[id].state));
    hit := id;
    InvNode(c, s, hit);
  }

  lemma EndAllWeight(c: Config, s: State, e: Event, id: Id)
    requires Enabled(c, s, e) && (e == Sweep || e == Cancel) && id in c.nodes
    ensures id in Apply(c, s, e).rt && Weight(c, Apply(c, s, e), id) <= Weight(c, s, id)
    ensures !IsTerminal(s.rt[id].state) && AttemptsInRange(c.nodes[id], s.rt[id]) ==>
              Weight(c, Apply(c, s, e), id) < Weight(c, s, id)
  {
    hide KnownIn;
  }

  lemma SettleWeight(c: Config, s: State, order: seq<Id>, id: Id)
    requires Inv(c, s) && !s.cancelled && Enabled(c, s, Settle(order)) && id in c.nodes
    ensures id in Apply(c, s, Settle(order)).rt && Weight(c, Apply(c, s, Settle(order)), id) <= Weight(c, s, id)
    ensures id == s.channel[0].id ==> Weight(c, Apply(c, s, Settle(order)), id) < Weight(c, s, id)
  {
    hide Inv, KnownIn, Pass;
    SettledWired(c, s, order);
    InvHead(c, s);
    PassWeight(c, SettleHead(s), order, id);
  }

  // The weight of one node at one event; `Mover` names a node whose weight falls.
  ghost function Mover(s: State, e: Event): Id {
    match e
    case Promote(r) => r.id
    case Launch(item) => item.id
    case Send(done) => done.id
    case _ => if s.channel != [] then s.channel[0].id else ""
  }

  lemma StepWeight(c: Config, s: State, e: Event, id: Id)
    requires ValidConfig(c) && Inv(c, s) && Enabled(c, s, e) && id in c.nodes
    ensures id in s.rt && id in Apply(c, s, e).rt && Weight(c, Apply(c, s, e), id) <= Weight(c, s, id)
    ensures (e.Promote? || e.Launch? || e.Send? || e.Retry? || e.Settle?) && id == Mover(s, e) ==>
              Weight(c, Apply(c, s, e), id) < Weight(c, s, id)
  {
    hide Inv, KnownIn, ValidConfig;
    InvNode(c, s, id);
    if s.cancelled {
      CancelledIsOver(c, s, e);
    }
    match e
    case Settle(order) => SettleWeight(c, s, order, id);
    case Sweep => EndAllWeight(c, s, e, id);
    case Cancel => EndAllWeight(c, s, e, id);
    case Retry => InvHead(c, s);
    case Launch(item) => InvIdle(c, s, item.id);
    case _ =>
  }

  // A node that is not running has no working goroutine.
  lemma InvIdle(c: Config, s: State, id: Id)
    requires Inv(c, s) && !s.cancelled && id in s.rt && s.rt[id].state != NodeRunning
    ensures id !in s.working
  {
    hide TableInv, AllHeld, GoroutinesOk;
    NotWorking(c, s, id);
  }

  lemma InvMover(c: Config, s: State, e: Event)
    requires ValidConfig(c) && Inv(c, s) && Enabled(c, s, e)
    requires e.Promote? || e.Launch? || e.Send? || e.Retry? || e.Settle?
    ensures Mover(s, e) in c.nodes
  {
    hide AllHeld, TableInv, ReadyHeapOk, RetryHeapOk, IdsIn;
    if s.cancelled {
      CancelledIsOver(c, s, e);
    } else if e.Retry? || e.Settle? {
      InvHead(c, s);
    }
    if e.Send? {
      assert e.done.id in s.working + SentIds(s.channel);
    }
  }

  // The measure falls at every launch, completion, promotion, sweep and cancellation.
  lemma MeasureFalls(c: Config, s: State, e: Event)
    requires ValidConfig(c) && Inv(c, s) && Enabled(c, s, e)
    ensures forall id :: id in c.ids ==> id in c.nodes && id in s.rt && id in Apply(c, s, e).rt
    ensures Measure(c, Apply(c, s, e)) <= Measure(c, s)
    ensures !e.Tick? ==> Measure(c, Apply(c, s, e)) < Measure(c, s)
  {
    var t := Apply(c, s, e);
    hide Inv, Apply, Weight;
    StepKeys(c, s, e);
    forall id | id in c.nodes
      ensures Weight(c, t, id) <= Weight(c, s, id)
    {
      StepWeight(c, s, e, id);
    }
    var hit := "";
    if e.Sweep? || e.Cancel? {
      hit := SomeoneLeft(c, s);
      InvNode(c, s, hit);
      EndAllWeight(c, s, e, hit);
    } else if !e.Tick? {
      InvMover(c, s, e);
      hit := Mover(s, e);
      StepWeight(c, s, e, hit);
    }
    TotalFalls(c, s, t, c.ids, hit);
  }

  lemma StepKeys(c: Config, s: State, e: Event)
    requires ValidConfig(c) && Inv(c, s) && Enabled(c, s, e)
    ensures s.rt.Keys == c.nodes.Keys && Apply(c, s, e).rt.Keys == c.nodes.Keys
  {
    hide Book, AllHeld, NodeInv, KnownIn, Apply, Enabled;
    StepKeeps(c, s, e);
  }

  function WorkEvents(events: seq<Event>): nat {
    if events == [] then 0 else (if events[0].Tick? then 0 else 1) + WorkEvents(events[1..])
  }

  lemma {:induction false} RunSpendsMeasure(c: Config, s: State, events: seq<Event>)
    requires ValidConfig(c) && Inv(c, s) && CanRun(c, s, events)
    ensures forall id :: id in c.ids ==> id in c.nodes && id in s.rt && id in After(c, s, events).rt
    ensures WorkEvents(events) + Measure(c, After(c, s, events)) <= Measure(c, s)
    decreases |events|
  {
    hide Inv, Apply, Enabled, Measure;
    if events != [] {
      StepKeeps(c, s, events[0]);
      MeasureFalls(c, s, events[0]);
      RunSpendsMeasure(c, Apply(c, s, events[0]), events[1..]);
    } else {
      InvIds(c, s);
    }
  }

  lemma InvIds(c: Config, s: State)
    requires ValidConfig(c) && Inv(c, s)
    ensures forall id :: id in c.ids ==> id in c.nodes && id in s.rt
  {
    hide Book, AllHeld, NodeInv, KnownIn;
  }

  // No run goes on for ever: apart from ticks it has at most as many events as its first
  // state's measure, which depends on the plan alone.
  lemma RunsAreFinite(c: Config, order: seq<Id>, clock: int, events: seq<Event>, s: State)
    requires Reached(c, order, clock, events, s)
    ensures forall id :: id in c.ids ==> id in c.nodes && id in Init(c, order, clock).rt
    ensures WorkEvents(events) <= Measure(c, Init(c, order, clock))
  {
    InitOk(c, order, clock);
    hide Inv, Measure, Init;
    RunSpendsMeasure(c, Init(c, order, clock), events);
  }

  // ---- Progress ----

  lemma FirstReady(h: set<ReadyItem>) returns (top: ReadyItem)
    requires h != {} && forall a, b :: a in h && b in h && a.seqNo == b.seqNo ==> a == b
    ensures TopReady(h, top)
    decreases |h|
  {
    var x :| x in h;
    if h == {x} {
      top := x;
    } else {
      assert h == {x} + (h - {x});
      var rest := FirstReady(h - {x});
      top := if ReadyBefore(rest, x) then rest else x;
      forall o | o in h && o != top
        ensures ReadyBefore(top, o)
      {
        assert o == x || o in h - {x};
      }
    }
  }

  lemma FirstRetry(h: set<RetryItem>) returns (top: RetryItem)
    requires h != {} && forall a, b :: a in h && b in h && a.seqNo == b.seqNo ==> a == b
    ensures TopRetry(h, top)
    decreases |h|
  {
    var x :| x in h;
    if h == {x} {
      top := x;
    } else {
      assert h == {x} + (h - {x});
      var rest := FirstRetry(h - {x});
      top := if RetryBefore(rest, x) then rest else x;
      forall o | o in h && o != top
        ensures RetryBefore(top, o)
      {
        assert o == x || o in h - {x};
      }
    }
  }

  // Before a cancellation, while some node is not terminal, an event that is neither a tick nor
  // a cancellation can happen, possibly once the clock has reached the next retry.
  lemma NeverStuck(c: Config, order: seq<Id>, clock: int, events: seq<Event>, s: State)
    requires Reached(c, order, clock, events, s) && !s.cancelled && Active(c, s)
    ensures exists now: int, e: Event :: now >= s.clock && !e.Tick? && !e.Cancel? && Enabled(c, s.(clock := now), e)
  {
    ReachedInv(c, order, clock, events, s);
    var now, e := NextEvent(c, s);
    assert now >= s.clock && !e.Tick? && !e.Cancel? && Enabled(c, s.(clock := now), e);
  }

  lemma NextEvent(c: Config, s: State) returns (now: int, e: Event)
    requires ValidConfig(c) && Inv(c, s) && !s.cancelled && Active(c, s)
    ensures now >= s.clock && !e.Tick? && !e.Cancel? && Enabled(c, s.(clock := now), e)
  {
    now := s.clock;
    assert s.(clock := now) == s;
    if s.channel != [] {
      InvHead(c, s);
      if HeadRetries(c, s) {
        e := Retry;
      } else {
        e := Settle(c.ids);
      }
    } else if s.working != {} {
      var id :| id in s.working;
      e := Send(Completion(id, NodeResult(NodeSucceeded, 0, None, ""), ""));
    } else {
      now, e := QuietEvent(c, s);
    }
  }

  lemma QuietEvent(c: Config, s: State) returns (now: int, e: Event)
    requires ValidConfig(c) && Inv(c, s) && !s.cancelled && Active(c, s) && s.working == {} && s.channel == []
    ensures now >= s.clock && !e.Tick? && !e.Cancel? && Enabled(c, s.(clock := now), e)
  {
    now := s.clock;
    assert s.(clock := now) == s;
    assert SentIds(s.channel) == {};
    assert s.running == 0;
    if s.ready != {} {
      var top := FirstReady(s.ready);
      assert top.id in IdsIn(s.rt, NodeReady);
      e := Launch(top);
    } else if s.retries != {} {
      var top := FirstRetry(s.retries);
      assert top.id in IdsIn(s.rt, NodeRetryWait);
      now := if top.due > s.clock then top.due else s.clock;
      e := Promote(top);
    } else {
      e := Sweep;
    }
  }
}
