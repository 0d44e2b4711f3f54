// The plan-wide budget account: internal/budget/ledger.go.
module Ledger {
  import opened Wrappers

  datatype Cost = Cost(calls: int, fetches: int, expanded: int, bytes: int)

  // kernel.BudgetState; no deadline stands for the zero time.
  datatype BudgetState = BudgetState(
    maxCalls: int, maxFetches: int, maxExpanded: int, maxBytes: int, used: Cost, deadline: Option<int>)

  datatype Spec = Spec(deadlineMs: int, maxCalls: int, maxPages: int, maxFetches: int, maxExpanded: int, maxBytes: int)

  const NOTHING := Cost(0, 0, 0, 0)

  function Or(n: int, d: int): int {
    if n <= 0 then d else n
  }

  // SearchBudget.WithDefaults (kernel/types.go:255-275)
  function WithDefaults(s: Spec): (r: Spec)
    ensures r.deadlineMs > 0 && r.maxCalls > 0 && r.maxPages > 0 && r.maxFetches > 0 && r.maxExpanded > 0
              && r.maxBytes > 0
    ensures s.deadlineMs > 0 ==> r.deadlineMs == s.deadlineMs
    ensures s.maxCalls > 0 ==> r.maxCalls == s.maxCalls
    ensures s.maxPages > 0 ==> r.maxPages == s.maxPages
    ensures s.maxFetches > 0 ==> r.maxFetches == s.maxFetches
    ensures s.maxExpanded > 0 ==> r.maxExpanded == s.maxExpanded
    ensures s.maxBytes > 0 ==> r.maxBytes == s.maxBytes
    ensures s == Spec(0, 0, 0, 0, 0, 0) ==> r == Spec(8000, 24, 2, 12, 20, 33_554_432)
  {
    Spec(Or(s.deadlineMs, 8000), Or(s.maxCalls, 24), Or(s.maxPages, 2), Or(s.maxFetches, 12), Or(s.maxExpanded, 20),
         Or(s.maxBytes, 33_554_432))
  }

  function Fresh(spec: Spec, now: int): BudgetState {
    var s := WithDefaults(spec);
    BudgetState(s.maxCalls, s.maxFetches, s.maxExpanded, s.maxBytes, NOTHING, Some(now + s.deadlineMs))
  }

  function Add(a: Cost, b: Cost): Cost {
    Cost(a.calls + b.calls, a.fetches + b.fetches, a.expanded + b.expanded, a.bytes + b.bytes)
  }

  predicate NonNegative(c: Cost) {
    c.calls >= 0 && c.fetches >= 0 && c.expanded >= 0 && c.bytes >= 0
  }

  predicate WithinBudget(s: BudgetState) {
    s.used.calls <= s.maxCalls && s.used.fetches <= s.maxFetches && s.used.expanded <= s.maxExpanded
      && s.used.bytes <= s.maxBytes
  }

  predicate Expired(s: BudgetState, now: int) {
    s.deadline.Some? && now > s.deadline.value
  }

  // What a caller asks for. Nothing is charged for a request of no fetches, expansions or bytes,
  // and it is granted even after the deadline.
  datatype Request = Reserve(cost: Cost) | Fetch(n: int) | Expand(n: int) | Bytes(n: int)

  function Charge(r: Request): Option<Cost> {
    match r
    case Reserve(cost) => Some(cost)
    case Fetch(n) => if n <= 0 then None else Some(Cost(0, n, 0, 0))
    case Expand(n) => if n <= 0 then None else Some(Cost(0, 0, n, 0))
    case Bytes(n) => if n <= 0 then None else Some(Cost(0, 0, 0, n))
  }

  // A request is granted if and only if there is nothing to charge, or the charge is not negative,
  // the deadline has not passed and every counter stays within its maximum.
  predicate Granted(s: BudgetState, r: Request, now: int) {
    match Charge(r)
    case None => true
    case Some(cost) =>
      NonNegative(cost) && !Expired(s, now)
        && if r.Bytes? then s.used.bytes + r.n <= s.maxBytes else WithinBudget(s.(used := Add(s.used, cost)))
  }

  function Charged(s: BudgetState, r: Request, now: int): BudgetState {
    if Granted(s, r, now) && Charge(r).Some? then s.(used := Add(s.used, Charge(r).value)) else s
  }

  class Ledger {
    var state: BudgetState

    constructor (spec: Spec, now: int)
      ensures state == Fresh(spec, now)
    {
      state := Fresh(spec, now);
    }

    constructor FromState(s: BudgetState)
      ensures state == s
    {
      state := s;
    }

    method Reserve(cost: Cost, now: int) returns (ok: bool)
      modifies this
      ensures ok == Granted(old(state), Request.Reserve(cost), now)
                && state == Charged(old(state), Request.Reserve(cost), now)
      ensures !ok ==> state == old(state)
    {
      if cost.calls < 0 || cost.fetches < 0 || cost.expanded < 0 || cost.bytes < 0 {
        return false;
      }
      if || Expired(state, now)
         || state.used.calls + cost.calls > state.maxCalls
         || state.used.fetches + cost.fetches > state.maxFetches
         || state.used.expanded + cost.expanded > state.maxExpanded
         || state.used.bytes + cost.bytes > state.maxBytes {
        return false;
      }
      state := state.(used := Cost(state.used.calls + cost.calls, state.used.fetches + cost.fetches,
                                   state.used.expanded + cost.expanded, state.used.bytes + cost.bytes));
      return true;
    }

    method ReserveFetch(n: int, now: int) returns (ok: bool)
      modifies this
      ensures ok == Granted(old(state), Fetch(n), now) && state == Charged(old(state), Fetch(n), now)
    {
      if n <= 0 {
        return true;
      }
      ok := Reserve(Cost(0, n, 0, 0), now);
    }

    method ReserveExpand(n: int, now: int) returns (ok: bool)
      modifies this
      ensures ok == Granted(old(state), Expand(n), now) && state == Charged(old(state), Expand(n), now)
    {
      if n <= 0 {
        return true;
      }
      ok := Reserve(Cost(0, 0, n, 0), now);
    }

    method AddBytes(n: int, now: int) returns (ok: bool)
      modifies this
      ensures ok == Granted(old(state), Bytes(n), now) && state == Charged(old(state), Bytes(n), now)
    {
      if n <= 0 {
        return true;
      }
      if Expired(state, now) || state.used.bytes + n > state.maxBytes {
        return false;
      }
      state := state.(used := state.used.(bytes := state.used.bytes + n));
      return true;
    }
  }

  // ---- Every interleaving of requests ----

  // The lock makes any concurrent use a sequence of requests, each at some time.
  datatype Timed = Timed(request: Request, now: int)

  function After(s: BudgetState, log: seq<Timed>): BudgetState {
    if log == [] then s
    else
      var before, last := After(s, log[..|log| - 1]), log[|log| - 1];
      Charged(before, last.request, last.now)
  }

  // The sum of the charges of the granted requests.
  function Accepted(s: BudgetState, log: seq<Timed>): Cost {
    if log == [] then NOTHING
    else
      var front, last := log[..|log| - 1], log[|log| - 1];
      if Granted(After(s, front), last.request, last.now) && Charge(last.request).Some?
      then Add(Accepted(s, front), Charge(last.request).value) else Accepted(s, front)
  }

  // The counters are the sums of what was granted, never more than the maxima, and the maxima and
  // the deadline never change.
  lemma {:induction false} UsedIsWhatWasAccepted(s: BudgetState, log: seq<Timed>)
    requires WithinBudget(s)
    ensures var t := After(s, log);
            && t.used == Add(s.used, Accepted(s, log)) && WithinBudget(t) && NonNegative(Accepted(s, log))
            && t == s.(used := t.used)
  {
    if log != [] {
      UsedIsWhatWasAccepted(s, log[..|log| - 1]);
    }
  }

  // A fresh account: used is exactly what was accepted.
  lemma FreshAccount(spec: Spec, start: int, log: seq<Timed>)
    ensures var t := After(Fresh(spec, start), log);
            t.used == Accepted(Fresh(spec, start), log) && WithinBudget(t) && t.maxCalls == WithDefaults(spec).maxCalls
  {
    UsedIsWhatWasAccepted(Fresh(spec, start), log);
  }

  // Once refused for want of budget, a reservation is refused for good: budget never comes back.
  lemma {:induction false} RefusalIsFinal(s: BudgetState, log: seq<Timed>, r: Request, now: int, later: int)
    requires WithinBudget(s) && !Granted(s, r, now) && now <= later
    ensures !Granted(After(s, log), r, later)
  {
    UsedIsWhatWasAccepted(s, log);
  }

  // ---- Provider calls ----

  // What one piece of engine code does with the account and with its provider: it asks, and is
  // granted what it asks for or not; it calls.
  datatype Action = Asked(request: Request, granted: bool) | Called

  // Each granted reservation of a call pays for one call.
  predicate Pays(a: Action) {
    a.Asked? && a.granted && a.request.Reserve? && a.request.cost.calls >= 1
  }

  // The reservations of calls not used yet; negative if a call was not paid for.
  function Unused(did: seq<Action>): int {
    if did == [] then 0
    else
      var last := did[|did| - 1];
      Unused(did[..|did| - 1]) + (if Pays(last) then 1 else 0) - (if last.Called? then 1 else 0)
  }

  // At no moment have more calls been made than reserved. Every modelled operation that calls a
  // provider shows this of itself, whatever the account and the provider answer.
  predicate Paid(did: seq<Action>) {
    forall k :: 0 <= k <= |did| ==> Unused(did[..k]) >= 0
  }

  lemma PaidAppend(did: seq<Action>, a: Action)
    requires Paid(did) && (a.Called? ==> Unused(did) >= 1)
    ensures Paid(did + [a])
    ensures Unused(did + [a]) == Unused(did) + (if Pays(a) then 1 else 0) - (if a.Called? then 1 else 0)
  {
    var more := did + [a];
    assert more[..|did|] == did && more[..|more|] == more && did[..|did|] == did;
    forall k | 0 <= k <= |more|
      ensures Unused(more[..k]) >= 0
    {
      if k <= |did| {
        assert more[..k] == did[..k];
      }
    }
  }

  // An operation that is under way has paid for its calls too, and so has one after another.
  lemma PaidSoFarToo(did: seq<Action>, k: nat)
    requires Paid(did) && k <= |did|
    ensures Paid(did[..k])
  {
    forall j | 0 <= j <= k
      ensures Unused(did[..k][..j]) >= 0
    {
      assert did[..k][..j] == did[..j];
    }
  }

  lemma {:induction false} PaidInTurn(first: seq<Action>, second: seq<Action>)
    requires Paid(first) && Paid(second)
    ensures Paid(first + second) && Unused(first + second) == Unused(first) + Unused(second)
  {
    assert first[..|first|] == first && second[..|second|] == second;
    if second == [] {
      assert first + second == first;
    } else {
      var front, last := second[..|second| - 1], second[|second| - 1];
      PaidSoFarToo(second, |front|);
      PaidInTurn(first, front);
      assert first + second == first + front + [last];
      assert Unused(first) >= 0 && Unused(second) >= 0;
      PaidAppend(first + front, last);
    }
  }

  lemma NothingDone()
    ensures Paid([]) && Unused([]) == 0
  {
  }

  // ---- What the operations do with it ----

  // One request to the account.
  method Ask(request: Request, ghost did: seq<Action>) returns (granted: bool, ghost did': seq<Action>)
    requires Paid(did)
    ensures did' == did + [Asked(request, granted)] && Paid(did')
    ensures Unused(did') == Unused(did) + if granted && request.Reserve? && request.cost.calls >= 1 then 1 else 0
  {
    granted := *;
    did' := did + [Asked(request, granted)];
    PaidAppend(did, Asked(request, granted));
  }

  // One call of a provider, which only a caller with an unused reservation may make.
  lemma CallPaid(did: seq<Action>)
    requires Paid(did) && Unused(did) >= 1
    ensures Paid(did + [Called]) && Unused(did + [Called]) == Unused(did) - 1
  {
    PaidAppend(did, Called);
  }

  // The doings of several goroutines, each of which pays for its own calls.
  predicate AllPaid(traces: seq<seq<Action>>) {
    forall i :: 0 <= i < |traces| ==> Paid(traces[i])
  }

  lemma NobodyActs()
    ensures AllPaid([])
  {
  }

  lemma MorePaid(traces: seq<seq<Action>>, more: seq<seq<Action>>)
    requires AllPaid(traces) && AllPaid(more)
    ensures AllPaid(traces + more)
  {
    hide Paid;
  }

  lemma OneMorePaid(traces: seq<seq<Action>>, did: seq<Action>)
    requires AllPaid(traces) && Paid(did)
    ensures AllPaid(traces + [did])
  {
  }

  // Any number of operations run at once; `caller` says which of them acts.
  datatype Event = Event(caller: nat, action: Action, now: int)

  function Doings(log: seq<Event>, caller: nat): seq<Action> {
    if log == [] then []
    else
      var front, last := Doings(log[..|log| - 1], caller), log[|log| - 1];
      if last.caller == caller then front + [last.action] else front
  }

  // The requests that reach the account, in order.
  function Requests(log: seq<Event>): seq<Timed> {
    if log == [] then []
    else
      var front, last := Requests(log[..|log| - 1]), log[|log| - 1];
      if last.action.Asked? then front + [Timed(last.action.request, last.now)] else front
  }

  // The account gives the answers the callers see.
  ghost predicate Answers(s: BudgetState, log: seq<Event>) {
    forall k :: 0 <= k < |log| && log[k].action.Asked? ==>
      log[k].action.granted == Granted(After(s, Requests(log[..k])), log[k].action.request, log[k].now)
  }

  function Calls(log: seq<Event>): nat {
    if log == [] then 0 else Calls(log[..|log| - 1]) + if log[|log| - 1].action.Called? then 1 else 0
  }

  // Who has how many unused reservations.
  ghost function Held(log: seq<Event>): multiset<nat> {
    if log == [] then multiset{}
    else
      var front, last := Held(log[..|log| - 1]), log[|log| - 1];
      if Pays(last.action) then front + multiset{last.caller}
      else if last.action.Called? then front - multiset{last.caller}
      else front
  }

  // At no moment has any caller made a call it had not reserved.
  ghost predicate NoDebt(log: seq<Event>) {
    forall k, c :: 0 <= k <= |log| ==> Unused(Doings(log[..k], c)) >= 0
  }

  lemma {:induction false} HeldIsUnused(log: seq<Event>, caller: nat)
    requires NoDebt(log)
    ensures Held(log)[caller] == Unused(Doings(log, caller))
  {
    if log != [] {
      var front, last := log[..|log| - 1], log[|log| - 1];
      PrefixUnused(log);
      HeldIsUnused(front, caller);
      assert log[..|log|] == log;
      assert Unused(Doings(log, caller)) >= 0;
      var did := Doings(front, caller);
      assert (did + [last.action])[..|did|] == did;
    }
  }

  lemma PrefixUnused(log: seq<Event>)
    requires log != [] && NoDebt(log)
    ensures NoDebt(log[..|log| - 1])
  {
    var front := log[..|log| - 1];
    forall k, c | 0 <= k <= |front|
      ensures Unused(Doings(front[..k], c)) >= 0
    {
      assert front[..k] == log[..k];
    }
  }

  // What a caller has done so far is a part of what it has done in the end.
  lemma {:induction false} DoingsGrow(log: seq<Event>, k: nat, caller: nat)
    requires k <= |log|
    ensures Doings(log[..k], caller) <= Doings(log, caller)
  {
    if k < |log| {
      DoingsGrow(log[..|log| - 1], k, caller);
      assert log[..|log| - 1][..k] == log[..k];
    } else {
      assert log[..k] == log;
    }
  }

  lemma PaidSoFar(log: seq<Event>)
    requires forall c :: Paid(Doings(log, c))
    ensures NoDebt(log)
  {
    forall k, c | 0 <= k <= |log|
      ensures Unused(Doings(log[..k], c)) >= 0
    {
      DoingsGrow(log, k, c);
      var part, all := Doings(log[..k], c), Doings(log, c);
      assert part == all[..|part|];
    }
  }

  lemma {:induction false} CallsAreReserved(s: BudgetState, log: seq<Event>)
    requires WithinBudget(s) && Answers(s, log)
    requires NoDebt(log)
    ensures var t := After(s, Requests(log));
            Calls(log) + |Held(log)| <= t.used.calls - s.used.calls && WithinBudget(t)
  {
    UsedIsWhatWasAccepted(s, Requests(log));
    if log != [] {
      var front, last := log[..|log| - 1], log[|log| - 1];
      PrefixUnused(log);
      AnswersBefore(s, log);
      CallsAreReserved(s, front);
      UsedIsWhatWasAccepted(s, Requests(front));
      if last.action.Asked? {
        var rs := Requests(front);
        assert (rs + [Timed(last.action.request, last.now)])[..|rs|] == rs;
        assert log[|log| - 1].action.granted == Granted(After(s, rs), last.action.request, last.now);
      } else {
        HeldIsUnused(front, last.caller);
        assert log[..|log|] == log;
        assert Unused(Doings(log, last.caller)) >= 0;
        var did := Doings(front, last.caller);
        assert (did + [last.action])[..|did|] == did;
        assert last.caller in Held(front);
      }
    }
  }

  lemma AnswersBefore(s: BudgetState, log: seq<Event>)
    requires log != [] && Answers(s, log)
    ensures Answers(s, log[..|log| - 1])
  {
    var front := log[..|log| - 1];
    forall k | 0 <= k < |front| && front[k].action.Asked?
      ensures front[k].action.granted == Granted(After(s, Requests(front[..k])), front[k].action.request, front[k].now)
    {
      assert front[..k] == log[..k] && front[k] == log[k];
    }
  }

  // However many operations run on the account of a plan and however they interleave, together
  // they make at most MaxCalls provider calls, because each pays for its own.
  lemma AtMostMaxCalls(spec: Spec, start: int, log: seq<Event>)
    requires Answers(Fresh(spec, start), log) && forall c :: Paid(Doings(log, c))
    ensures Calls(log) <= WithDefaults(spec).maxCalls
  {
    PaidSoFar(log);
    CallsAreReserved(Fresh(spec, start), log);
    UsedIsWhatWasAccepted(Fresh(spec, start), Requests(log));
  }

  // The log is an interleaving of the traces, up to some moment.
  ghost predicate Interleaves(traces: seq<seq<Action>>, log: seq<Event>) {
    forall c: nat :: Doings(log, c) <= if c < |traces| then traces[c] else []
  }

  // So whatever goroutines the modelled operations start, at no moment of any interleaving of what
  // they do have they called providers more often than MaxCalls allows.
  lemma GoroutinesStayWithin(spec: Spec, start: int, traces: seq<seq<Action>>, log: seq<Event>)
    requires AllPaid(traces) && Interleaves(traces, log) && Answers(Fresh(spec, start), log)
    ensures Calls(log) <= WithDefaults(spec).maxCalls
  {
    hide Paid;
    NothingDone();
    forall c: nat
      ensures Paid(Doings(log, c))
    {
      var all := if c < |traces| then traces[c] else [];
      PaidSoFarToo(all, |Doings(log, c)|);
      assert all[..|Doings(log, c)|] == Doings(log, c);
    }
    AtMostMaxCalls(spec, start, log);
  }
}
