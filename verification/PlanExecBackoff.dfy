// Back-off: retryDelay, and the promise that a node is not started again before it has waited.
module PlanExecBackoff {
  import opened Graph
  import opened PlanModel
  import opened PlanExec
  import opened PlanExecInv
  import opened PlanExecSteps
  import opened PlanExecRuns

  // retryDelay: doubling stops as soon as the cap is reached.
  method ComputeRetryDelay(n: PlanNode, completed: nat) returns (delay: int)
    ensures delay == RetryDelay(n, completed)
  {
    var base := if n.retry.backoffMs <= 0 then 200 else n.retry.backoffMs;
    var max := if n.retry.maxBackoffMs <= 0 then 2000 else n.retry.maxBackoffMs;
    var shift := completed - 1;
    if shift < 0 {
      shift := 0;
    }
    delay := base;
    var i := 0;
    while i < shift && delay < max
      invariant 0 <= i <= shift
      invariant delay == base * Pow2(i)
    {
      DoubleStep(base, i);
      delay := delay * 2;
      i := i + 1;
    }
    Pow2Monotone(base, i, shift);
    if delay > max {
      delay := max;
    }
  }

  lemma DoubleStep(base: int, i: nat)
    ensures base * Pow2(i + 1) == base * Pow2(i) * 2
  {
    assert Pow2(i + 1) == 2 * Pow2(i);
  }

  lemma {:induction false} Pow2Monotone(base: int, i: nat, j: nat)
    requires base > 0 && i <= j
    ensures 0 < base * Pow2(i) <= base * Pow2(j)
    decreases j - i
  {
    if i < j {
      Pow2Monotone(base, i, j - 1);
      DoubleStep(base, j - 1);
    } else {
      Pow2Positive(i);
    }
  }

  lemma Pow2Positive(i: nat)
    ensures Pow2(i) > 0
  {
  }

  // Each delay is positive, at most the cap, at least the one before, and twice it until the cap.
  lemma BackoffShape(n: PlanNode, k: nat)
    requires k >= 1
    ensures 0 < RetryDelay(n, k) <= MaxBackoff(n)
    ensures RetryDelay(n, k + 1) == Min(MaxBackoff(n), 2 * RetryDelay(n, k))
  {
    Pow2Monotone(BaseBackoff(n), 0, k - 1);
    DoubleStep(BaseBackoff(n), k - 1);
  }

  // ---- Waiting ----

  // The node is over, or still waits with this item, or the item has fallen due.
  ghost predicate Waited(s: State, it: RetryItem) {
    it.id in s.rt &&
    (s.clock >= it.due || IsTerminal(s.rt[it.id].state) || (s.rt[it.id].state == NodeRetryWait && it in s.retries))
  }

  lemma {:induction false} PassWaited(c: Config, s: State, order: seq<Id>, it: RetryItem)
    requires Wired(c, s) && Waited(s, it) && forall o :: o in order ==> o in c.nodes
    ensures Waited(Pass(c, s, order), it)
  {
    if order != [] {
      hide KnownIn, DependencyState;
      PassWaited(c, s, order[..|order| - 1], it);
    }
  }

  lemma StepWaited(c: Config, s: State, e: Event, it: RetryItem)
    requires ValidConfig(c) && Inv(c, s) && Enabled(c, s, e) && Waited(s, it)
    ensures Waited(Apply(c, s, e), it)
  {
    hide Inv, ValidConfig, KnownIn, Pass;
    if s.cancelled {
      CancelledIsOver(c, s, e);
    } else if e.Retry? || e.Settle? {
      InvHead(c, s);
    }
    match e
    case Settle(order) =>
      SettledWired(c, s, order);
      PassWaited(c, SettleHead(s), order, it);
    case Promote(r) =>
      if it in s.retries && r.id == it.id {
        OneRetryItem(c, s, r, it);
      }
    case _ =>
  }

  lemma OneRetryItem(c: Config, s: State, a: RetryItem, b: RetryItem)
    requires Inv(c, s) && !s.cancelled && a in s.retries && b in s.retries && a.id == b.id
    ensures a == b
  {
    hide TableInv, AllHeld, ReadyHeapOk, GoroutinesOk, IdsIn;
  }

  lemma {:induction false} RunWaited(c: Config, s: State, events: seq<Event>, it: RetryItem)
    requires ValidConfig(c) && Inv(c, s) && CanRun(c, s, events) && Waited(s, it)
    ensures Waited(After(c, s, events), it)
    decreases |events|
  {
    hide Inv, ValidConfig, Enabled, Apply, Waited;
    if events != [] {
      StepKeeps(c, s, events[0]);
      StepWaited(c, s, events[0], it);
      RunWaited(c, Apply(c, s, events[0]), events[1..], it);
    }
  }

  // t is the state after a completion has been sent back to wait with the item it.
  ghost predicate SentBack(c: Config, s: State, t: State, it: RetryItem) {
    && Enabled(c, s, Retry) && t == Apply(c, s, Retry)
    && it.id == s.channel[0].id && it.id in c.nodes && it.id in s.rt
    && it.due == s.clock + RetryDelay(c.nodes[it.id], s.rt[it.id].attempt) && it.seqNo == s.seqNo
  }

  lemma RetryWaits(c: Config, s: State, t: State, it: RetryItem)
    requires ValidConfig(c) && Inv(c, s) && SentBack(c, s, t, it)
    ensures Waited(t, it) && Inv(c, t)
  {
    hide Inv, ValidConfig, KnownIn, ReceivedResult, RetryDelay;
    StepKeeps(c, s, Retry);
  }

  // After its k-th attempt has failed with a retryable error, a node is started again no earlier
  // than min(max, base * 2^(k-1)) milliseconds later.
  lemma BackoffIsRespected(
    c: Config, order: seq<Id>, clock: int, before: seq<Event>, s: State, t: State, it: RetryItem, between: seq<Event>,
      u: State, item: ReadyItem)
    requires Reached(c, order, clock, before, s) && SentBack(c, s, t, it)
    requires CanRun(c, t, between) && u == After(c, t, between)
    requires Enabled(c, u, Launch(item)) && item.id == it.id
    ensures it.id in c.nodes && it.id in s.rt
    ensures u.clock >= s.clock + RetryDelay(c.nodes[it.id], s.rt[it.id].attempt)
  {
    hide Inv, ValidConfig, CanRun, After, RetryDelay, Waited, Apply, Enabled, Reached;
    ReachedInv(c, order, clock, before, s);
    ReachedValid(c, order, clock, before, s);
    RetryWaits(c, s, t, it);
    RunWaited(c, t, between, it);
    ReadyHasWaited(c, u, it, item);
  }

  lemma ReachedValid(c: Config, order: seq<Id>, clock: int, events: seq<Event>, s: State)
    requires Reached(c, order, clock, events, s)
    ensures ValidConfig(c)
  {
  }

  lemma ReadyHasWaited(c: Config, s: State, it: RetryItem, item: ReadyItem)
    requires Waited(s, it) && Enabled(c, s, Launch(item)) && item.id == it.id
    ensures s.clock >= it.due
  {
  }
}
