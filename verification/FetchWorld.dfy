// Any number of fetches that share one single-flight group (internal/engine/fetch.go:101-204,
// internal/engine/singleflight.go): what each of them relies on, the others guarantee.
module FetchWorld {
  import opened Wrappers
  import opened Objects
  import opened SingleFlight
  import opened FetchModel
  import opened FlightKeys
  import opened Fetch
  import Text

  // The registered providers, the group, and of each fetch the works it has made so far.
  datatype World = World(registry: Registry, flights: Flights, fetches: seq<seq<Work>>)

  // A fetch begins; it acquires a call for an item; it completes a call that it leads, which
  // publishes the outcome and then takes the call out of the map. Providers answer arbitrarily.
  datatype Step =
    | Begin
    | Enlist(fetch: nat, index: nat, ref: ObjectRef, missing: Projection, provider: Provider)
    | Finish(fetch: nat, work: nat, outcome: Outcome)
    | Drop(fetch: nat, work: nat)

  predicate Leads(w: World, i: nat, p: nat, call: nat) {
    i < |w.fetches| && p < |w.fetches[i]| && w.fetches[i][p].leader && w.fetches[i][p].call == call
  }

  predicate Owes(w: World, i: nat, p: nat, phase: Phase) {
    && i < |w.fetches| && p < |w.fetches[i]| && w.fetches[i][p].leader
    && w.fetches[i][p].call < |w.flights.calls| && w.flights.calls[w.fetches[i][p].call].phase == phase
  }

  predicate Enabled(w: World, s: Step) {
    match s
    case Begin => true
    case Enlist(i, _, _, missing, provider) =>
      i < |w.fetches| && Registered(w.registry, provider) && CanAsk(provider, missing)
    case Finish(i, p, o) => Owes(w, i, p, Open) && AnswerOk(w.fetches[i][p], o)
    case Drop(i, p) => Owes(w, i, p, Published)
  }

  function Next(w: World, s: Step): World
    requires Enabled(w, s)
  {
    match s
    case Begin => w.(fetches := w.fetches + [[]])
    case Enlist(i, index, ref, missing, provider) =>
      var (g, call, leader) := AcquireGroup(w.flights, KeyOf(ref, missing, provider));
      World(w.registry, g, w.fetches[i := w.fetches[i] + [Work(index, ref, missing, provider, leader, call)]])
    case Finish(i, p, o) => w.(flights := PublishGroup(w.flights, w.fetches[i][p].call, o))
    case Drop(i, p) => w.(flights := RemoveGroup(w.flights, w.fetches[i][p].call))
  }

  // Every work has a call, and every call one work that leads it.
  ghost predicate WorldOk(w: World) {
    FlightsOk(w.registry, w.flights) && HaveCalls(w) && HaveLeaders(w) && LedOnce(w)
  }

  ghost predicate HaveCalls(w: World) {
    forall i, p :: 0 <= i < |w.fetches| && 0 <= p < |w.fetches[i]| ==> HasCall(w.registry, w.flights, w.fetches[i][p])
  }

  predicate HasCall(registry: Registry, g: Flights, n: Work) {
    && n.call < |g.calls| && g.calls[n.call].key == KeyOf(n.ref, n.missing, n.provider)
    && Registered(registry, n.provider) && CanAsk(n.provider, n.missing)
  }

  ghost predicate HaveLeaders(w: World) {
    forall c: nat :: c < |w.flights.calls| ==> Led(w, c)
  }

  ghost predicate Led(w: World, c: nat) {
    exists i, p :: Leads(w, i, p, c)
  }

  ghost predicate LedOnce(w: World) {
    forall i, p, j, q, c :: Leads(w, i, p, c) && Leads(w, j, q, c) ==> i == j && p == q
  }

  function Start(registry: Registry): World {
    World(registry, Group(map[], []), [])
  }

  lemma StartOk(registry: Registry)
    ensures WorldOk(Start(registry))
  {
  }

  // One more work changes nothing about the others.
  lemma EnlistKeepsLeaders(w: World, i: nat, n: Work)
    requires i < |w.fetches| && HaveLeaders(w) && LedOnce(w) && HaveCalls(w)
    requires n.leader ==> n.call == |w.flights.calls|
    ensures var m := w.(fetches := w.fetches[i := w.fetches[i] + [n]]);
            && (forall j, q, c :: Leads(m, j, q, c) <==>
                Leads(w, j, q, c) || (n.leader && j == i && q == |w.fetches[i]| && c == n.call))
            && LedOnce(m)
  {
    var m := w.(fetches := w.fetches[i := w.fetches[i] + [n]]);
    forall j, q, c
      ensures Leads(m, j, q, c) <==> Leads(w, j, q, c) || (n.leader && j == i && q == |w.fetches[i]| && c == n.call)
    {
    }
    assert forall j, q :: Leads(w, j, q, n.call) ==> n.call < |w.flights.calls|;
  }

  lemma EnlistOk(w: World, s: Step)
    requires WorldOk(w) && s.Enlist? && Enabled(w, s)
    ensures WorldOk(Next(w, s)) && Extends(w.flights, Next(w, s).flights)
  {
    hide GroupOk, LedOnce, Extends;
    var i, key := s.fetch, KeyOf(s.ref, s.missing, s.provider);
    var (g, call, leader) := AcquireGroup(w.flights, key);
    AcquireKeepsFlights(w.registry, w.flights, key);
    var n := Work(s.index, s.ref, s.missing, s.provider, leader, call);
    EnlistKeepsLeaders(w, i, n);
    var m := w.(fetches := w.fetches[i := w.fetches[i] + [n]]);
    var t := Next(w, s);
    assert t.fetches == m.fetches;
    SameFetches(m, t);
    forall c: nat | c < |g.calls|
      ensures Led(t, c)
    {
      if c < |w.flights.calls| {
        assert Led(w, c);
        var j, q :| Leads(w, j, q, c);
        assert Leads(m, j, q, c);
        assert Leads(t, j, q, c);
      } else {
        assert Leads(m, i, |w.fetches[i]|, c);
        assert Leads(t, i, |w.fetches[i]|, c);
      }
    }
  }

  // Who leads what depends on the works alone.
  lemma SameFetches(v: World, w: World)
    requires v.fetches == w.fetches
    ensures forall i, p, c :: Leads(v, i, p, c) <==> Leads(w, i, p, c)
    ensures LedOnce(v) ==> LedOnce(w)
  {
  }

  lemma SameCalls(w: World, g: Flights)
    requires WorldOk(w) && FlightsOk(w.registry, g) && |g.calls| == |w.flights.calls| && Extends(w.flights, g)
    ensures WorldOk(w.(flights := g))
  {
    hide GroupOk, FlightsOk, LedOnce;
    var t := w.(flights := g);
    SameFetches(w, t);
    forall c: nat | c < |g.calls|
      ensures Led(t, c)
    {
      assert Led(w, c);
      var i, p :| Leads(w, i, p, c);
      assert Leads(t, i, p, c);
    }
  }

  lemma BeginOk(w: World)
    requires WorldOk(w)
    ensures WorldOk(Next(w, Begin))
  {
    hide GroupOk, FlightsOk;
    var t := Next(w, Begin);
    assert forall i, p, c :: Leads(t, i, p, c) <==> Leads(w, i, p, c);
    forall c: nat | c < |t.flights.calls|
      ensures Led(t, c)
    {
      assert Led(w, c);
      var i, p :| Leads(w, i, p, c);
      assert Leads(t, i, p, c);
    }
  }

  lemma StepOk(w: World, s: Step)
    requires WorldOk(w) && Enabled(w, s)
    ensures WorldOk(Next(w, s)) && Next(w, s).registry == w.registry
  {
    hide GroupOk, FlightsOk, WorldOk;
    match s
    case Begin => BeginOk(w);
    case Enlist(_, _, _, _, _) => EnlistOk(w, s);
    case Finish(i, p, o) =>
      WorldMeans(w);
      AnswerIsOutcome(w.registry, w.fetches[i][p], o);
      PublishKeepsFlights(w.registry, w.flights, w.fetches[i][p].call, o);
      SameCalls(w, Next(w, s).flights);
    case Drop(i, p) =>
      WorldMeans(w);
      RemoveKeepsFlights(w.registry, w.flights, w.fetches[i][p].call);
      SameCalls(w, Next(w, s).flights);
  }

  lemma WorldMeans(w: World)
    requires WorldOk(w)
    ensures FlightsOk(w.registry, w.flights) && HaveCalls(w) && LedOnce(w) && HaveLeaders(w)
  {
  }

  ghost predicate CanRun(w: World, steps: seq<Step>)
    decreases |steps|
  {
    steps == [] || (Enabled(w, steps[0]) && CanRun(Next(w, steps[0]), steps[1..]))
  }

  ghost function After(w: World, steps: seq<Step>): World
    requires CanRun(w, steps)
    decreases |steps|
  {
    if steps == [] then w else After(Next(w, steps[0]), steps[1..])
  }

  lemma {:induction false} RunOk(w: World, steps: seq<Step>)
    requires WorldOk(w) && CanRun(w, steps)
    ensures WorldOk(After(w, steps)) && After(w, steps).registry == w.registry
    decreases |steps|
  {
    hide WorldOk, Enabled, Next;
    if steps != [] {
      StepOk(w, steps[0]);
      RunOk(Next(w, steps[0]), steps[1..]);
    }
  }

  // ---- What one fetch relies on is what the steps of the others guarantee ----

  predicate By(s: Step, i: nat) {
    match s
    case Begin => false
    case Enlist(j, _, _, _, _) => j == i
    case Finish(j, _, _) => j == i
    case Drop(j, _) => j == i
  }

  // In any interleaving of any fetches, a step of one of them leaves the group as every other fetch
  // assumes (FetchRun.Interfere): no call is forgotten, no value changes, every value published has
  // the parts its key asks for, and the calls it leads are where it left them.
  lemma StepsAreRely(registry: Registry, steps: seq<Step>, s: Step, i: nat)
    requires CanRun(Start(registry), steps) && Enabled(After(Start(registry), steps), s)
    requires i < |After(Start(registry), steps).fetches| && !By(s, i)
    ensures Rely(registry, After(Start(registry), steps).flights, Next(After(Start(registry), steps), s).flights,
                 After(Start(registry), steps).fetches[i])
  {
    StartOk(registry);
    RunOk(Start(registry), steps);
    StepIsRely(After(Start(registry), steps), s, i);
  }

  lemma StepIsRely(w: World, s: Step, i: nat)
    requires WorldOk(w) && Enabled(w, s) && i < |w.fetches| && !By(s, i)
    ensures Rely(w.registry, w.flights, Next(w, s).flights, w.fetches[i])
  {
    hide GroupOk, FlightsOk, WorldOk, Rely, LedOnce, OutcomeOk;
    WorldMeans(w);
    match s
    case Begin => NothingIsRely(w.registry, w.flights, w.fetches[i]);
    case Enlist(_, _, ref, missing, provider) =>
      AcquireIsRely(w.registry, w.flights, KeyOf(ref, missing, provider), w.fetches[i]);
    case Finish(j, p, o) =>
      LedElsewhere(w, j, p, i);
      AnswerIsOutcome(w.registry, w.fetches[j][p], o);
      PublishIsRely(w.registry, w.flights, w.fetches[j][p].call, o, w.fetches[i]);
    case Drop(j, p) =>
      LedElsewhere(w, j, p, i);
      RemoveIsRely(w.registry, w.flights, w.fetches[j][p].call, w.fetches[i]);
  }

  lemma NothingIsRely(registry: Registry, g: Flights, works: seq<Work>)
    requires FlightsOk(registry, g)
    ensures Rely(registry, g, g, works)
  {
  }

  lemma LedElsewhere(w: World, j: nat, p: nat, i: nat)
    requires LedOnce(w) && j < |w.fetches| && p < |w.fetches[j]| && w.fetches[j][p].leader && i < |w.fetches| && i != j
    ensures forall q :: 0 <= q < |w.fetches[i]| ==>
              !(w.fetches[i][q].leader && w.fetches[i][q].call == w.fetches[j][p].call)
  {
    assert Leads(w, j, p, w.fetches[j][p].call);
    forall q: nat | q < |w.fetches[i]|
      ensures !(w.fetches[i][q].leader && w.fetches[i][q].call == w.fetches[j][p].call)
    {
      assert !Leads(w, i, q, w.fetches[j][p].call);
    }
  }

  // ---- Nobody waits for ever ----

  // A work whose call has no value waits for exactly one work, of the same fetch or of another, and
  // that one can finish the call at once, whatever its provider answers: it waits for nobody. A
  // fetch that has finished all calls it leads (FetchRun.AwaitForeign) waits for another fetch.
  lemma SomebodyIsToAnswer(registry: Registry, steps: seq<Step>, i: nat, p: nat)
    requires CanRun(Start(registry), steps)
    requires var w := After(Start(registry), steps);
             i < |w.fetches| && p < |w.fetches[i]|
             && (w.fetches[i][p].call < |w.flights.calls| ==> w.flights.calls[w.fetches[i][p].call].value.None?)
    ensures var w := After(Start(registry), steps);
            exists j: nat, q: nat :: Leads(w, j, q, w.fetches[i][p].call) && Owes(w, j, q, Open)
                        && (forall o :: AnswerOk(w.fetches[j][q], o) ==> Enabled(w, Finish(j, q, o)))
                        && ((forall r: nat :: !Owes(w, i, r, Open)) ==> j != i)
  {
    StartOk(registry);
    RunOk(Start(registry), steps);
    var w := After(Start(registry), steps);
    var c := w.fetches[i][p].call;
    assert Led(w, c);
    var j, q :| Leads(w, j, q, c);
    assert Owes(w, j, q, Open);
  }

  // When every fetch has ended, which leaves no call that it leads (Fetch.Fetch), no work of any
  // fetch is without a value.
  lemma EndedFetchesLeaveNobodyWaiting(registry: Registry, steps: seq<Step>, i: nat, p: nat)
    requires CanRun(Start(registry), steps)
    requires forall j: nat, q: nat, phase :: Owes(After(Start(registry), steps), j, q, phase) ==> phase == Removed
    requires i < |After(Start(registry), steps).fetches| && p < |After(Start(registry), steps).fetches[i]|
    ensures var w := After(Start(registry), steps);
            && w.flights.m == map[] && w.fetches[i][p].call < |w.flights.calls|
            && w.flights.calls[w.fetches[i][p].call].value.Some?
  {
    StartOk(registry);
    RunOk(Start(registry), steps);
    var w := After(Start(registry), steps);
    forall c: nat | c < |w.flights.calls|
      ensures w.flights.calls[c].phase == Removed
    {
      assert Led(w, c);
      var j, q :| Leads(w, j, q, c);
      assert Owes(w, j, q, w.flights.calls[c].phase);
    }
  }

  // ---- The steps that complete calls are bounded by those that ask ----

  function Owed(g: Flights): nat {
    OwedIn(g.calls)
  }

  function Weight(c: Call<string, Outcome>): nat {
    match c.phase case Open => 2 case Published => 1 case Removed => 0
  }

  function OwedIn(calls: seq<Call<string, Outcome>>): nat {
    if calls == [] then 0 else OwedIn(calls[..|calls| - 1]) + Weight(calls[|calls| - 1])
  }

  lemma {:induction false} OneChanged(calls: seq<Call<string, Outcome>>, c: nat, to: Call<string, Outcome>)
    requires c < |calls|
    ensures OwedIn(calls[c := to]) == OwedIn(calls) - Weight(calls[c]) + Weight(to)
  {
    var front := calls[..|calls| - 1];
    if c < |front| {
      OneChanged(front, c, to);
      assert calls[c := to][..|front|] == front[c := to];
    } else {
      assert calls[c := to][..|front|] == front;
    }
  }

  function Asked(steps: seq<Step>): nat {
    if steps == [] then 0 else Asked(steps[1..]) + if steps[0].Enlist? then 1 else 0
  }

  function Finished(steps: seq<Step>): nat {
    if steps == [] then 0 else Finished(steps[1..]) + if steps[0].Finish? || steps[0].Drop? then 1 else 0
  }

  lemma StepOwes(w: World, s: Step)
    requires Enabled(w, s)
    ensures Owed(Next(w, s).flights)
            <= Owed(w.flights) + (if s.Enlist? then 2 else 0) - (if s.Finish? || s.Drop? then 1 else 0)
  {
    hide OwedIn;
    match s
    case Begin =>
    case Enlist(_, _, ref, missing, provider) =>
      OneMoreCall(w.flights.calls, Call(KeyOf(ref, missing, provider), Open, None));
    case Finish(i, p, o) =>
      var c := w.fetches[i][p].call;
      OneChanged(w.flights.calls, c, w.flights.calls[c].(phase := Published, value := Some(o)));
    case Drop(i, p) =>
      var c := w.fetches[i][p].call;
      OneChanged(w.flights.calls, c, w.flights.calls[c].(phase := Removed));
  }

  lemma OneMoreCall(calls: seq<Call<string, Outcome>>, c: Call<string, Outcome>)
    ensures OwedIn(calls + [c]) == OwedIn(calls) + Weight(c)
  {
    assert (calls + [c])[..|calls|] == calls;
  }

  // So a run cannot go on for ever without new requests: there are at most two such steps for each
  // item asked for, and as long as some work lacks a value there is one to take.
  lemma {:induction false} CompletionsAreBounded(w: World, steps: seq<Step>)
    requires CanRun(w, steps)
    ensures Finished(steps) + Owed(After(w, steps).flights) <= Owed(w.flights) + 2 * Asked(steps)
    decreases |steps|
  {
    hide Enabled, Next, Owed;
    if steps != [] {
      StepOwes(w, steps[0]);
      CompletionsAreBounded(Next(w, steps[0]), steps[1..]);
    }
  }

  // ---- Whom a call is shared with ----

  // What a work gets from its call has the parts that the work asks for.
  ghost predicate GetParts(w: World) {
    forall i, p :: 0 <= i < |w.fetches| && 0 <= p < |w.fetches[i]| ==> GetsParts(w.flights, w.fetches[i][p])
  }

  predicate GetsParts(g: Flights, n: Work) {
    n.call < |g.calls| && g.calls[n.call].value.Some? && g.calls[n.call].value.value.error.None? ==>
      n.missing <= g.calls[n.call].value.value.artifact.projection
  }

  ghost predicate AlwaysGetParts(registry: Registry) {
    forall steps :: CanRun(Start(registry), steps) ==> GetParts(After(Start(registry), steps))
  }

  // Works of one scope share a call only for one object.
  ghost predicate ShareObjects(w: World) {
    forall i, p, j, q ::
      0 <= i < |w.fetches| && 0 <= p < |w.fetches[i]| && 0 <= j < |w.fetches| && 0 <= q < |w.fetches[j]| ==>
      ShareObject(w.fetches[i][p], w.fetches[j][q])
  }

  predicate ShareObject(a: Work, b: Work) {
    a.call == b.call && a.ref.scope == b.ref.scope ==> a.ref.canonical == b.ref.canonical
  }

  ghost predicate AlwaysShareObjects(registry: Registry) {
    forall steps :: CanRun(Start(registry), steps) ==> ShareObjects(After(Start(registry), steps))
  }

  lemma ApartGetParts(w: World)
    requires WorldOk(w) && KeysApart(w.registry)
    ensures GetParts(w)
  {
    hide GroupOk, KeysApart, KeyOf, OutcomeOk, HaveLeaders, LedOnce;
    forall i, p | 0 <= i < |w.fetches| && 0 <= p < |w.fetches[i]|
      ensures GetsParts(w.flights, w.fetches[i][p])
    {
      var n := w.fetches[i][p];
      assert HasCall(w.registry, w.flights, n);
      if w.flights.calls[n.call].value.Some? {
        SharedFulfils(w.registry, n, w.flights.calls[n.call].value.value);
      }
    }
  }

  lemma NoOverlapSharesObjects(w: World)
    requires WorldOk(w) && NoOverlap(w.registry)
    ensures ShareObjects(w)
  {
    hide FlightsOk, NoOverlap, KeyOf, HaveLeaders, LedOnce, CanAsk;
    KeysNameObjectsIffNoOverlap(w.registry);
    forall i, p, j, q | 0 <= i < |w.fetches| && 0 <= p < |w.fetches[i]| && 0 <= j < |w.fetches|
      && 0 <= q < |w.fetches[j]|
      ensures ShareObject(w.fetches[i][p], w.fetches[j][q])
    {
      OneKeyOneObject(w.registry, w.flights, w.fetches[i][p], w.fetches[j][q]);
    }
  }

  lemma OneKeyOneObject(registry: Registry, g: Flights, a: Work, b: Work)
    requires HasCall(registry, g, a) && HasCall(registry, g, b) && KeysNameObjects(registry)
    ensures ShareObject(a, b)
  {
    hide KeyOf, CanAsk;
    var i :| i in registry && registry[i] == a.provider;
    var j :| j in registry && registry[j] == b.provider;
    assert a.call == b.call ==> SameKey(a.ref, a.missing, registry[i], b.ref, b.missing, registry[j]);
  }

  // Two items of one fetch with one key: the second joins the call of the first.
  lemma SecondJoins(registry: Registry, a: Work, b: Work) returns (w: World, steps: seq<Step>)
    requires SameKey(a.ref, a.missing, a.provider, b.ref, b.missing, b.provider)
    requires Registered(registry, a.provider) && Registered(registry, b.provider)
    ensures CanRun(Start(registry), steps) && w == After(Start(registry), steps) && w.registry == registry
    ensures w.fetches == [[a.(leader := true, call := 0), b.(leader := false, call := 0)]]
    ensures w.flights.calls == [Call(KeyOf(a.ref, a.missing, a.provider), Open, None)]
  {
    hide KeyOf, CanAsk, Registered;
    var key := KeyOf(a.ref, a.missing, a.provider);
    var s1 := Enlist(0, a.index, a.ref, a.missing, a.provider);
    var s2 := Enlist(0, b.index, b.ref, b.missing, b.provider);
    var w1 := Next(Start(registry), Begin);
    assert w1.fetches == [[]];
    var n1, n2 := a.(leader := true, call := 0), b.(leader := false, call := 0);
    assert [] + [n1] == [n1] && [n1] + [n2] == [n1, n2];
    assert [[]][0 := [n1]] == [[n1]] && [[n1]][0 := [n1, n2]] == [[n1, n2]];
    var c: Call<string, Outcome> := Call(key, Open, None);
    assert [] + [c] == [c];
    var w2 := Next(w1, s1);
    assert w2 == World(registry, Group(map[key := 0], [Call(key, Open, None)]), [[a.(leader := true, call := 0)]]);
    w := Next(w2, s2);
    assert w.fetches == [[a.(leader := true, call := 0), b.(leader := false, call := 0)]];
    hide Next, Enabled;
    steps := [Begin, s1, s2];
    OneStep(Start(registry), [], Begin);
    OneStep(Start(registry), [Begin], s1);
    OneStep(Start(registry), [Begin, s1], s2);
    assert [] + [Begin] == [Begin] && [Begin] + [s1] == [Begin, s1] && [Begin, s1] + [s2] == steps;
  }

  lemma {:induction false} OneStep(w: World, steps: seq<Step>, s: Step)
    requires CanRun(w, steps) && Enabled(After(w, steps), s)
    ensures CanRun(w, steps + [s]) && After(w, steps + [s]) == Next(After(w, steps), s)
    decreases |steps|
  {
    hide Enabled, Next;
    var all := steps + [s];
    if steps == [] {
      assert all[1..] == [];
    } else {
      assert all[0] == steps[0] && all[1..] == steps[1..] + [s];
      OneStep(Next(w, steps[0]), steps[1..], s);
    }
  }

  // The second gets what was fetched for the first, and no error.
  lemma SecondGetsTooLittle(registry: Registry, a: Work, b: Work)
    requires SameKey(a.ref, a.missing, a.provider, b.ref, b.missing, b.provider) && !(b.missing <= a.missing)
    requires Registered(registry, a.provider) && Registered(registry, b.provider)
    ensures !AlwaysGetParts(registry)
  {
    hide KeyOf;
    var w, steps := SecondJoins(registry, a, b);
    var s := Finish(0, 0, Outcome(ZERO_ARTIFACT.(projection := a.missing), None));
    assert Enabled(w, s);
    OneStep(Start(registry), steps, s);
    var t := Next(w, s);
    assert !GetsParts(t.flights, t.fetches[0][1]);
    assert !GetParts(t);
  }

  lemma ClashIsSeen(registry: Registry, i: string, j: string, m1: Projection, m2: Projection)
    requires i in registry && j in registry && Clash(registry[i], registry[j], m1, m2)
    ensures !AlwaysGetParts(registry)
  {
    hide KeyOf, Hides, AlwaysGetParts;
    ClashGivesKeys(registry[i], registry[j], m1, m2);
    var r1, r2 :| SameKey(r1, m1, registry[i], r2, m2, registry[j]);
    var a, b := Work(0, r1, m1, registry[i], false, 0), Work(1, r2, m2, registry[j], false, 0);
    if m2 <= m1 {
      SecondGetsTooLittle(registry, b, a);
    } else {
      SecondGetsTooLittle(registry, a, b);
    }
  }

  lemma OverlapIsSeen(registry: Registry, i: string, j: string, m1: Projection, m2: Projection)
    requires i in registry && j in registry && Overlap(registry[i], registry[j], m1, m2)
    ensures !AlwaysShareObjects(registry)
  {
    hide KeyOf, Hides, CanRun, After;
    OverlapGivesKeys(registry[i], registry[j], m1, m2);
    var r1, r2 :| SameKey(r1, m1, registry[i], r2, m2, registry[j]) && r1.scope == r2.scope
      && r1.canonical != r2.canonical;
    var a, b := Work(0, r1, m1, registry[i], false, 0), Work(1, r2, m2, registry[j], false, 0);
    var w, steps := SecondJoins(registry, a, b);
    assert !ShareObject(w.fetches[0][0], w.fetches[0][1]);
    assert !ShareObjects(w);
  }

  // In every run of any number of fetches each work gets the parts that it asks for, from its own call
  // or a joined one, if and only if no two registered providers clash.
  lemma PartsIffApart(registry: Registry)
    ensures AlwaysGetParts(registry) <==> KeysApart(registry)
  {
    hide KeyOf, WorldOk, CanRun, After, GetParts, Clash;
    if KeysApart(registry) {
      forall steps | CanRun(Start(registry), steps)
        ensures GetParts(After(Start(registry), steps))
      {
        StartOk(registry);
        RunOk(Start(registry), steps);
        ApartGetParts(After(Start(registry), steps));
      }
    }
    if i, j, m1, m2 :| i in registry && j in registry && Clash(registry[i], registry[j], m1, m2) {
      ClashIsSeen(registry, i, j, m1, m2);
    }
  }

  // In every run works of one scope share calls for one object only, if and only if no two registered
  // providers overlap.
  lemma ObjectsIffNoOverlap(registry: Registry)
    ensures AlwaysShareObjects(registry) <==> NoOverlap(registry)
  {
    hide KeyOf, WorldOk, CanRun, After, ShareObjects, Overlap;
    if NoOverlap(registry) {
      forall steps | CanRun(Start(registry), steps)
        ensures ShareObjects(After(Start(registry), steps))
      {
        StartOk(registry);
        RunOk(Start(registry), steps);
        NoOverlapSharesObjects(After(Start(registry), steps));
      }
    }
    if i, j, m1, m2 :| i in registry && j in registry && Overlap(registry[i], registry[j], m1, m2) {
      OverlapIsSeen(registry, i, j, m1, m2);
    }
  }

  // Ids and versions without bars are enough for both.
  lemma PlainProvidersShareWell(registry: Registry)
    requires forall i :: i in registry ==> Plain(registry[i])
    ensures AlwaysGetParts(registry) && AlwaysShareObjects(registry)
  {
    hide Plain, AlwaysGetParts, AlwaysShareObjects, KeysApart, NoOverlap;
    PlainProvidersAreApart(registry);
    PartsIffApart(registry);
    ObjectsIffNoOverlap(registry);
  }

  // ---- One clash ----

  // Two document providers, one of which is named like a mask and the other. The head of a document "c"
  // is asked of the one and the snippet of a document "c|1" of the other.
  const LONG := Provider("2|x", "v", "docs", ["document"], {Head}, {Head}, 0, true)
  const SHORT := Provider("x", "v", "docs", ["document"], {Snippet}, {Snippet}, 0, true)
  const FIRST := FetchRequest(NO_REF.(kind := "document", native := "c", provider := "2|x"), {Head})
  const SECOND := FetchRequest(NO_REF.(kind := "document", native := "c|1", provider := "x"), {Snippet})

  function ClashingEnv(): Env {
    Env("s", [], false, map["2|x" := LONG, "x" := SHORT], _ => None, (r: ObjectRef) => r.provider, _ => None)
  }

  // Both are to be fetched, under one key: the second joins the first, and gets its artifact as its
  // own, without the part it asks for and without an error.
  lemma ClashingProvidersMixObjects(head: Artifact)
    requires head.projection == {Head}
    ensures var env := ClashingEnv();
            var p1, p2 := Prepare(env, map[], FIRST), Prepare(env, map[], SECOND);
            && p1.Needs? && p1.provider == LONG && p1.missing == {Head} && p1.ref.canonical == "feishu:s:document:c"
            && p2.Needs? && p2.provider == SHORT && p2.missing == {Snippet}
            && p2.ref.canonical == "feishu:s:document:c|1"
            && KeyOf(p1.ref, p1.missing, LONG) == KeyOf(p2.ref, p2.missing, SHORT) == "s|feishu:s:document:c|1|2|x|v"
            && ValidFetched(LONG, p1.missing, head)
            && var got := Applied(map[], Work(1, p2.ref, p2.missing, SHORT, false, 0), head);
               got.ref.canonical == p2.ref.canonical && !(SECOND.projection <= got.projection)
    ensures !KeysApart(ClashingEnv().registry) && !AlwaysGetParts(ClashingEnv().registry)
  {
    hide AlwaysGetParts, KeysApart, KeyOf, Prepare, FillRef, Applied;
    var env := ClashingEnv();
    BothNeeded();
    ClashingKeys();
    TakesTheHead(head);
    assert env.registry["2|x"] == LONG && env.registry["x"] == SHORT;
    SecondGetsTooLittle(env.registry, Work(0, FIRST_REF, {Head}, LONG, false, 0),
                        Work(1, SECOND_REF, {Snippet}, SHORT, false, 0));
    PartsIffApart(env.registry);
  }

  const FIRST_REF := FIRST.ref.(scope := "s", canonical := "feishu:s:document:c")
  const SECOND_REF := SECOND.ref.(scope := "s", canonical := "feishu:s:document:c|1")

  lemma BothNeeded()
    ensures Prepare(ClashingEnv(), map[], FIRST) == Needs(FIRST_REF, {Head}, LONG)
    ensures Prepare(ClashingEnv(), map[], SECOND) == Needs(SECOND_REF, {Snippet}, SHORT)
  {
    ClashingRefs();
    hide FillRef;
    assert ProviderFor(ClashingEnv(), FIRST_REF) == Some(LONG) && ProviderFor(ClashingEnv(), SECOND_REF) == Some(SHORT);
  }

  lemma ClashingKeys()
    ensures KeyOf(FIRST_REF, {Head}, LONG) == KeyOf(SECOND_REF, {Snippet}, SHORT) == "s|feishu:s:document:c|1|2|x|v"
  {
    ClashingMasks();
    hide Decimal, Mask;
    var front := "s" + "|" + "feishu:s:document:c";
    assert "s" + "|" + "feishu:s:document:c|1" == front + "|1";
    ClashingTails(front);
    assert front == "s|feishu:s:document:c";
  }

  lemma ClashingTails(front: string)
    ensures front + "|" + "1" + "|" + "2|x" + "|" + "v" == front + "|1|2|x|v"
    ensures front + "|1" + "|" + "2" + "|" + "x" + "|" + "v" == front + "|1|2|x|v"
  {
  }

  lemma TakesTheHead(head: Artifact)
    requires head.projection == {Head}
    ensures var got := Applied(map[], Work(1, SECOND_REF, {Snippet}, SHORT, false, 0), head);
            got.ref.canonical == SECOND_REF.canonical && !(SECOND.projection <= got.projection)
  {
    assert Snippet in SECOND.projection;
  }

  lemma ClashingRefs()
    ensures FillRef(ClashingEnv(), FIRST.ref) == FIRST_REF && FillRef(ClashingEnv(), SECOND.ref) == SECOND_REF
  {
    assert Text.TrimSpace("c") == "c" && Text.TrimSpace("c|1") == "c|1";
  }

  lemma ClashingMasks()
    ensures Decimal(Mask({Head})) == "1" && Decimal(Mask({Snippet})) == "2"
  {
    SmallMasks();
    hide Mask;
    assert Decimal(1) == "1" && Decimal(2) == "2";
  }

  lemma SmallMasks()
    ensures Mask({Head}) == 1 && Mask({Snippet}) == 2
  {
    var rest := PARTS[2..];
    NoParts({Head}, rest);
    NoParts({Snippet}, rest);
    assert PARTS[1..][1..] == rest && PARTS[1] == Snippet;
    assert MaskOf({Head}, PARTS[1..]) == 0;
    assert MaskOf({Snippet}, PARTS[1..]) == 1;
  }

  lemma {:induction false} NoParts(m: Projection, parts: seq<Part>)
    requires forall part :: part in parts ==> part !in m
    ensures MaskOf(m, parts) == 0
  {
    if parts != [] {
      assert parts == [parts[0]] + parts[1..];
      NoParts(m, parts[1..]);
    }
  }
}
