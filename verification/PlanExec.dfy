// The plan executor as a state machine: internal/planexec/executor.go, function run.
// Every nondeterministic choice (clock, goroutine completions, the order of a range over the
// node table, which select branch fires) is carried by an Event, so that a run is a sequence of
// events and a statement about all runs is a statement about all sequences.
module PlanExec {
  import opened Wrappers
  import opened Graph
  import opened PlanModel

  datatype ErrorType = RateLimited | UpstreamTransient | UpstreamPermanent | Cancelled | Internal | OtherError

  datatype ErrorDetail = ErrorDetail(kind: ErrorType, retryable: bool)

  // `payload` stands for the candidates, artifacts, relations and value of a result.
  datatype NodeResult = NodeResult(state: NodeState, attempts: nat, error: Option<ErrorDetail>, payload: string)

  datatype RuntimeNode = RuntimeNode(state: NodeState, result: NodeResult, attempt: nat)

  type Table = map<Id, RuntimeNode>

  datatype ReadyItem = ReadyItem(id: Id, priority: real, seqNo: nat)

  datatype RetryItem = RetryItem(id: Id, due: int, seqNo: nat)

  datatype Completion = Completion(id: Id, result: NodeResult, session: string)

  // What a run is started with: the nodes by id, their ids in plan order, the concurrency
  // limit and the session named by the plan ("" when it names none).
  datatype Config = Config(nodes: map<Id, PlanNode>, ids: seq<Id>, concurrency: nat, session: string)

  // `working` holds the nodes whose goroutine has not yet sent its completion;
  // `channel` is the buffered completion channel.
  datatype State = State(
    rt: Table, ready: set<ReadyItem>, retries: set<RetryItem>, running: int, terminal: int,
    seqNo: nat, session: string, clock: int, working: set<Id>, channel: seq<Completion>, cancelled: bool)

  datatype Event =
    | Tick(now: int)
    | Promote(retry: RetryItem)
    | Launch(item: ReadyItem)
    | Send(done: Completion)
    | Retry
    | Settle(order: seq<Id>)
    | Sweep
    | Cancel

  // ---- Configurations ----

  ghost predicate Distinct(ids: seq<Id>) {
    forall i, j :: 0 <= i < j < |ids| ==> ids[i] != ids[j]
  }

  // `order` visits every node exactly once, as a range over the node table does.
  ghost predicate VisitsAll(c: Config, order: seq<Id>) {
    Distinct(order) && forall id :: id in order <==> id in c.nodes
  }

  ghost predicate ValidConfig(c: Config) {
    && c.concurrency > 0
    && |c.nodes| > 0
    && VisitsAll(c, c.ids)
    && |c.ids| == |c.nodes|
    && Closed(Dependencies(c.nodes))
    && Acyclic(Dependencies(c.nodes))
    && forall id :: id in c.nodes ==> c.nodes[id].id == id
  }

  function NewConcurrency(requested: int): (k: nat)
    ensures k > 0
    ensures requested > 0 ==> k == requested
  {
    if requested <= 0 then 4 else requested
  }

  ghost predicate KnownIn(deps: seq<Id>, rt: Table) {
    forall d :: d in deps ==> d in rt
  }

  // ---- Small decisions ----

  predicate ShouldRetry(e: Option<ErrorDetail>) {
    e.Some? && (e.value.retryable || e.value.kind.RateLimited? || e.value.kind.UpstreamTransient?)
  }

  datatype Verdict = Wait | Skip | Go

  // dependencyState, which stops at the first dependency that decides.
  function DependencyState(n: PlanNode, deps: seq<Id>, rt: Table): Verdict
    requires KnownIn(deps, rt)
  {
    if deps == [] then Go
    else if !IsTerminal(rt[deps[0]].state) then Wait
    else if IsBad(rt[deps[0]].state) && !Tolerant(n) then Skip
    else DependencyState(n, deps[1..], rt)
  }

  function CollectDeps(n: PlanNode, rt: Table): (out: map<Id, NodeResult>)
    requires KnownIn(n.dependsOn, rt)
  {
    map d | d in n.dependsOn :: rt[d].result
  }

  function Pow2(k: nat): nat {
    if k == 0 then 1 else 2 * Pow2(k - 1)
  }

  function Min(a: int, b: int): int {
    if a <= b then a else b
  }

  function BaseBackoff(n: PlanNode): int {
    if n.retry.backoffMs <= 0 then 200 else n.retry.backoffMs
  }

  function MaxBackoff(n: PlanNode): int {
    if n.retry.maxBackoffMs <= 0 then 2000 else n.retry.maxBackoffMs
  }

  // The back-off after `completed` attempts, in milliseconds: base, 2 base, 4 base, ... capped.
  function RetryDelay(n: PlanNode, completed: nat): int {
    Min(MaxBackoff(n), BaseBackoff(n) * Pow2(if completed == 0 then 0 else completed - 1))
  }

  // ---- Heap order ----

  predicate ReadyBefore(a: ReadyItem, b: ReadyItem) {
    if a.priority == b.priority then a.seqNo < b.seqNo else a.priority > b.priority
  }

  predicate RetryBefore(a: RetryItem, b: RetryItem) {
    if a.due == b.due then a.seqNo < b.seqNo else a.due < b.due
  }

  ghost predicate TopReady(ready: set<ReadyItem>, item: ReadyItem) {
    item in ready && forall o :: o in ready && o != item ==> ReadyBefore(item, o)
  }

  ghost predicate TopRetry(retries: set<RetryItem>, item: RetryItem) {
    item in retries && forall o :: o in retries && o != item ==> RetryBefore(item, o)
  }

  // ---- State changes ----

  function SetNode(rt: Table, id: Id, state: NodeState): Table
    requires id in rt
  {
    rt[id := rt[id].(state := state)]
  }

  function Ended(n: RuntimeNode, state: NodeState, kind: ErrorType): RuntimeNode {
    RuntimeNode(state, NodeResult(state, n.attempt, Some(ErrorDetail(kind, false)), ""), n.attempt)
  }

  function PushReady(c: Config, s: State, id: Id): State
    requires id in c.nodes && id in s.rt
  {
    s.(rt := SetNode(s.rt, id, NodeReady),
       ready := s.ready + {ReadyItem(id, c.nodes[id].priority, s.seqNo)},
       seqNo := s.seqNo + 1)
  }

  // One candidate of the dependency pass.
  function Visit(c: Config, s: State, id: Id): State
    requires Wired(c, s) && id in c.nodes
  {
    if s.rt[id].state != NodeBlocked then s
    else
      match DependencyState(c.nodes[id], c.nodes[id].dependsOn, s.rt)
      case Wait => s
      case Skip => s.(rt := s.rt[id := Ended(s.rt[id], NodeSkipped, UpstreamPermanent)], terminal := s.terminal + 1)
      case Go => PushReady(c, s, id)
  }

  // The table has an entry for every node and every dependency.
  ghost predicate Wired(c: Config, s: State) {
    && s.rt.Keys == c.nodes.Keys
    && forall id :: id in c.nodes ==> KnownIn(c.nodes[id].dependsOn, s.rt)
  }

  function Pass(c: Config, s: State, order: seq<Id>): (t: State)
    requires Wired(c, s) && forall id :: id in order ==> id in c.nodes
    ensures Wired(c, t)
  {
    if order == [] then s else Visit(c, Pass(c, s, order[..|order| - 1]), order[|order| - 1])
  }

  function EndAll(rt: Table, state: NodeState, kind: ErrorType): Table {
    map id | id in rt :: if IsTerminal(rt[id].state) then rt[id] else Ended(rt[id], state, kind)
  }

  function TerminalIds(rt: Table): set<Id> {
    set id | id in rt && IsTerminal(rt[id].state)
  }

  function IdsIn(rt: Table, state: NodeState): set<Id> {
    set id | id in rt && rt[id].state == state
  }

  // The guard of the main loop.
  predicate Active(c: Config, s: State) {
    s.terminal < |c.ids|
  }

  // Whether the completion at the head of the channel sends its node back to wait for a retry.
  predicate HeadRetries(c: Config, s: State)
    requires s.channel != [] && s.channel[0].id in s.rt && s.channel[0].id in c.nodes
  {
    var done := s.channel[0];
    && done.result.state == NodeFailed
    && ShouldRetry(done.result.error)
    && s.rt[done.id].attempt < MaxAttempts(c.nodes[done.id])
  }

  // Taking the head of the channel, up to the point where the two branches part.
  function Receive(s: State): State
    requires s.channel != [] && s.channel[0].id in s.rt
  {
    var done := s.channel[0];
    s.(session := if s.session == "" then done.session else s.session,
       running := s.running - 1,
       channel := s.channel[1..])
  }

  function ReceivedResult(s: State): NodeResult
    requires s.channel != [] && s.channel[0].id in s.rt
  {
    s.channel[0].result.(attempts := s.rt[s.channel[0].id].attempt)
  }

  // The terminal branch before its dependency pass.
  function SettleHead(s: State): State
    requires s.channel != [] && s.channel[0].id in s.rt
  {
    var id, r := s.channel[0].id, ReceivedResult(s);
    Receive(s).(rt := s.rt[id := RuntimeNode(r.state, r, s.rt[id].attempt)], terminal := s.terminal + 1)
  }

  function RetryHead(c: Config, s: State): State
    requires s.channel != [] && s.channel[0].id in s.rt && s.channel[0].id in c.nodes
  {
    var id, r := s.channel[0].id, ReceivedResult(s);
    Receive(s).(
      rt := s.rt[id := RuntimeNode(NodeRetryWait, r, s.rt[id].attempt)],
      retries := s.retries + {RetryItem(id, s.clock + RetryDelay(c.nodes[id], s.rt[id].attempt), s.seqNo)},
      seqNo := s.seqNo + 1)
  }

  // What a provider call can come back with.
  predicate IsOutcome(s: NodeState) {
    s.NodeSucceeded? || s.NodePartial? || s.NodeEmpty? || s.NodeFailed?
  }

  ghost predicate Enabled(c: Config, s: State, e: Event) {
    && Wired(c, s)
    && match e
       case Tick(now) => now >= s.clock
       case Promote(r) =>
         && Active(c, s) && TopRetry(s.retries, r) && r.due <= s.clock
         && r.id in s.rt && s.rt[r.id].state == NodeRetryWait
       case Launch(item) =>
         && Active(c, s) && s.running < c.concurrency
         && !(s.session == "" && s.running > 0)
         && TopReady(s.ready, item) && item.id in s.rt && s.rt[item.id].state == NodeReady
       case Send(done) => done.id in s.working && IsOutcome(done.result.state) && |s.channel| < |c.ids|
       case Retry => Active(c, s) && s.channel != [] && s.channel[0].id in s.rt && HeadRetries(c, s)
       case Settle(order) =>
         && Active(c, s) && s.channel != [] && s.channel[0].id in s.rt
         && !HeadRetries(c, s) && VisitsAll(c, order)
       case Sweep => Active(c, s) && s.running == 0 && s.ready == {} && s.retries == {}
       case Cancel => Active(c, s)
  }

  function Apply(c: Config, s: State, e: Event): State
    requires Enabled(c, s, e)
  {
    match e
    case Tick(now) => s.(clock := now)
    case Promote(r) => PushReady(c, s.(retries := s.retries - {r}), r.id)
    case Launch(item) =>
      s.(rt := s.rt[item.id := s.rt[item.id].(state := NodeRunning, attempt := s.rt[item.id].attempt + 1)],
         ready := s.ready - {item}, running := s.running + 1, working := s.working + {item.id})
    case Send(done) => s.(working := s.working - {done.id}, channel := s.channel + [done])
    case Retry => RetryHead(c, s)
    case Settle(order) => Pass(c, SettleHead(s), order)
    case Sweep =>
      s.(rt := EndAll(s.rt, NodeSkipped, Internal), terminal := s.terminal + |s.rt.Keys - TerminalIds(s.rt)|)
    case Cancel =>
      s.(rt := EndAll(s.rt, NodeCancelled, ErrorType.Cancelled),
         terminal := s.terminal + |s.rt.Keys - TerminalIds(s.rt)|,
         running := 0, cancelled := true)
  }

  // ---- The first state ----

  function FreshTable(c: Config): Table {
    map id | id in c.nodes ::
      RuntimeNode(if c.nodes[id].dependsOn == [] then NodeReady else NodeBlocked, NodeResult(NodeUnset, 0, None, ""), 0)
  }

  // The ready nodes pushed while ranging over `order`.
  function InitialPushes(c: Config, order: seq<Id>): (q: (set<ReadyItem>, nat))
    requires forall id :: id in order ==> id in c.nodes
  {
    if order == [] then ({}, 0)
    else
      var (h, n) := InitialPushes(c, order[..|order| - 1]);
      var id := order[|order| - 1];
      if c.nodes[id].dependsOn == [] then (h + {ReadyItem(id, c.nodes[id].priority, n)}, n + 1) else (h, n)
  }

  function Init(c: Config, order: seq<Id>, clock: int): State
    requires forall id :: id in order ==> id in c.nodes
  {
    var (h, n) := InitialPushes(c, order);
    State(FreshTable(c), h, {}, 0, 0, n, c.session, clock, {}, [], false)
  }

  // ---- Runs ----

  ghost predicate CanRun(c: Config, s: State, events: seq<Event>)
    decreases |events|
  {
    events == [] || (Enabled(c, s, events[0]) && CanRun(c, Apply(c, s, events[0]), events[1..]))
  }

  ghost function After(c: Config, s: State, events: seq<Event>): State
    requires CanRun(c, s, events)
    decreases |events|
  {
    if events == [] then s else After(c, Apply(c, s, events[0]), events[1..])
  }

  // s is reached from the start of a run in which the map of nodes was first ranged over in `order`.
  ghost predicate Reached(c: Config, order: seq<Id>, clock: int, events: seq<Event>, s: State) {
    && ValidConfig(c) && VisitsAll(c, order)
    && CanRun(c, Init(c, order, clock), events)
    && s == After(c, Init(c, order, clock), events)
  }

  lemma {:induction false} RunAppend(c: Config, s: State, events: seq<Event>, e: Event)
    requires CanRun(c, s, events) && Enabled(c, After(c, s, events), e)
    ensures CanRun(c, s, events + [e])
    ensures After(c, s, events + [e]) == Apply(c, After(c, s, events), e)
    decreases |events|
  {
    var all := events + [e];
    if events == [] {
      assert all[1..] == [];
    } else {
      assert all[0] == events[0] && all[1..] == events[1..] + [e];
      RunAppend(c, Apply(c, s, events[0]), events[1..], e);
    }
  }

  lemma {:induction false} RunConcat(c: Config, s: State, first: seq<Event>, second: seq<Event>)
    requires CanRun(c, s, first) && CanRun(c, After(c, s, first), second)
    ensures CanRun(c, s, first + second)
    ensures After(c, s, first + second) == After(c, After(c, s, first), second)
    decreases |first|
  {
    var all := first + second;
    if first == [] {
      assert all == second;
    } else {
      assert all[0] == first[0] && all[1..] == first[1..] + second;
      RunConcat(c, Apply(c, s, first[0]), first[1..], second);
    }
  }
}
