// Fetch: internal/engine/fetch.go, lines 25-229, as an object whose fields are the variables its
// goroutines share. The single-flight group is shared with other requests, which may move it at
// any time; providers, budget and contexts answer arbitrarily.
module Fetch {
  import opened Wrappers
  import opened Objects
  import opened SingleFlight
  import opened FetchModel
  import opened FlightKeys
  import opened BatchMatch
  import Ledger

  datatype Work = Work(index: nat, ref: ObjectRef, missing: Projection, provider: Provider, leader: bool, call: nat)

  type Flights = Group<string, Outcome>

  type Cache = map<string, Artifact>

  datatype FetchReply = FetchReply(items: seq<ItemResult>, partial: bool, error: Option<Error>)

  const ZERO_ARTIFACT := Artifact(NO_REF, {}, [], None, [], "")

  // ---- What holds throughout ----

  // Whoever publishes an artifact for a key has checked that it has the parts that some registered
  // provider was asked for under this key.
  predicate OutcomeOk(registry: Registry, key: string, o: Outcome) {
    o.error.None? ==>
      exists id, m ::
        id in registry && m <= registry[id].fetchable && AskedFor(registry, key, id, m, o.artifact.projection)
  }

  predicate AskedFor(registry: Registry, key: string, id: string, m: Projection, parts: Projection) {
    id in registry && CanAsk(registry[id], m) && IsKeyFor(key, m, registry[id]) && m <= parts
  }

  predicate FlightsOk(registry: Registry, g: Flights) {
    && GroupOk(g)
    && forall i :: 0 <= i < |g.calls| && g.calls[i].value.Some? ==>
      OutcomeOk(registry, g.calls[i].key, g.calls[i].value.value)
  }

  // The cache only gains parts, and every entry is stored under its own canonical id.
  ghost predicate CacheOk(before: Cache, cache: Cache) {
    && (forall k :: k in before ==> k in cache && before[k].projection <= cache[k].projection)
    && (forall k :: k in cache ==> cache[k].ref.canonical == k)
  }

  ghost predicate WorkOk(env: Env, items: seq<FetchRequest>, before: Cache, g: Flights, w: Work) {
    && w.index < |items|
    && w.ref == ResolveRef(env, items[w.index].ref)
    && Registered(env.registry, w.provider) && CanAsk(w.provider, w.missing)
    && items[w.index].projection <= w.missing + (if w.ref.canonical in before then before[w.ref.canonical].projection
                                                 else {})
    && w.call < |g.calls|
    && g.calls[w.call].key == KeyOf(w.ref, w.missing, w.provider)
  }

  ghost predicate WorksOk(env: Env, items: seq<FetchRequest>, before: Cache, g: Flights, works: seq<Work>) {
    && (forall p :: 0 <= p < |works| ==> WorkOk(env, items, before, g, works[p]))
    && (forall p, q :: 0 <= p < q < |works| ==> works[p].index < works[q].index)
    && (forall p, q :: 0 <= p < q < |works| && works[p].leader && works[q].leader ==> works[p].call != works[q].call)
  }

  // An artifact or an error, not both; an artifact for a valid ref has every part wanted of it. If it
  // comes from a call that another work leads, that takes providers whose keys do not clash.
  ghost predicate ResultOk(env: Env, item: FetchRequest, r: ItemResult) {
    && (r.artifact.Some? <==> r.error.None?)
    && (r.artifact.Some? && Addressable(item.ref) ==>
          && ((r.shared ==> KeysApart(env.registry)) ==> item.projection <= r.artifact.value.projection)
          && r.ref.canonical == r.artifact.value.ref.canonical == ResolveRef(env, item.ref).canonical)
  }

  ghost predicate ResultsOk(env: Env, items: seq<FetchRequest>, results: seq<Option<ItemResult>>) {
    |results| == |items|
      && forall i :: 0 <= i < |items| && results[i].Some? ==> ResultOk(env, items[i], results[i].value)
  }

  // What a result hands out the session has too.
  ghost predicate Stored(r: ItemResult, cache: Cache) {
    r.artifact.Some? ==> r.ref.canonical in cache && r.artifact.value.projection <= cache[r.ref.canonical].projection
  }

  ghost predicate AllStored(results: seq<Option<ItemResult>>, cache: Cache) {
    forall i :: 0 <= i < |results| && results[i].Some? ==> Stored(results[i].value, cache)
  }

  lemma StoredLater(results: seq<Option<ItemResult>>, cache: Cache, i: nat, r: ItemResult, more: Cache)
    requires AllStored(results, cache) && CacheOk(cache, more) && i < |results| && Stored(r, more)
    ensures AllStored(results[i := Some(r)], more)
  {
    var now := results[i := Some(r)];
    forall j | 0 <= j < |now| && now[j].Some?
      ensures Stored(now[j].value, more)
    {
      if j != i {
        assert Stored(results[j].value, cache);
      }
    }
  }

  lemma CacheItself(before: Cache, cache: Cache)
    requires CacheOk(before, cache)
    ensures CacheOk(cache, cache)
  {
  }

  // Up to item n, exactly the items that have become work have no result yet.
  ghost predicate Split(results: seq<Option<ItemResult>>, works: seq<Work>, n: nat)
    requires n <= |results|
  {
    && (forall i :: 0 <= i < n ==> (results[i].None? <==> exists p :: 0 <= p < |works| && works[p].index == i))
    && (forall i :: n <= i < |results| ==> results[i].None?)
    && (forall p :: 0 <= p < |works| ==> works[p].index < n)
  }

  // What other requests may do to the group meanwhile: anything but complete the calls led here.
  predicate Rely(registry: Registry, g: Flights, h: Flights, works: seq<Work>) {
    && FlightsOk(registry, h) && Extends(g, h)
    && forall p :: 0 <= p < |works| && works[p].leader && works[p].call < |g.calls| ==>
      h.calls[works[p].call].phase == g.calls[works[p].call].phase
  }

  lemma RelyKeepsWorks(env: Env, items: seq<FetchRequest>, before: Cache, g: Flights, h: Flights, works: seq<Work>)
    requires WorksOk(env, items, before, g, works) && Extends(g, h)
    ensures WorksOk(env, items, before, h, works)
  {
    forall p | 0 <= p < |works|
      ensures WorkOk(env, items, before, h, works[p])
    {
      assert WorkOk(env, items, before, g, works[p]);
    }
  }

  lemma PublishKeepsFlights(registry: Registry, g: Flights, call: nat, o: Outcome)
    requires FlightsOk(registry, g) && call < |g.calls| && OutcomeOk(registry, g.calls[call].key, o)
    ensures FlightsOk(registry, PublishGroup(g, call, o)) && Extends(g, PublishGroup(g, call, o))
    ensures PublishGroup(g, call, o).calls[call].phase != Open
  {
    hide GroupOk;
    PublishOk(g, call, o);
  }

  lemma RemoveKeepsFlights(registry: Registry, g: Flights, call: nat)
    requires FlightsOk(registry, g) && call < |g.calls| && g.calls[call].phase == Published
    ensures FlightsOk(registry, RemoveGroup(g, call)) && Extends(g, RemoveGroup(g, call))
  {
    hide GroupOk;
    RemoveOk(g, call);
  }

  lemma AcquireKeepsFlights(registry: Registry, g: Flights, key: string)
    requires FlightsOk(registry, g)
    ensures var (h, call, leader) := AcquireGroup(g, key);
            && FlightsOk(registry, h) && Extends(g, h) && call < |h.calls| && h.calls[call].key == key
            && (leader ==> call == |g.calls| && h.calls[call].phase == Open)
  {
    AcquireOk(g, key);
  }

  lemma AddWork(env: Env, items: seq<FetchRequest>, before: Cache, g: Flights, h: Flights, works: seq<Work>, w: Work)
    requires WorksOk(env, items, before, g, works) && Extends(g, h) && WorkOk(env, items, before, h, w)
    requires forall p :: 0 <= p < |works| ==> works[p].index < w.index
    requires w.leader ==> w.call == |g.calls|
    ensures WorksOk(env, items, before, h, works + [w])
  {
    RelyKeepsWorks(env, items, before, g, h, works);
    forall p | 0 <= p < |works|
      ensures works[p].call < |g.calls| && WorkOk(env, items, before, h, works[p])
    {
      assert WorkOk(env, items, before, g, works[p]);
    }
  }

  // No call led here has been completed yet.
  ghost predicate LeadersOpen(g: Flights, works: seq<Work>) {
    forall p :: 0 <= p < |works| && works[p].leader ==>
      works[p].call < |g.calls| && g.calls[works[p].call].phase == Open
  }

  lemma RelyKeepsOpen(registry: Registry, g: Flights, h: Flights, works: seq<Work>)
    requires LeadersOpen(g, works) && Rely(registry, g, h, works)
    ensures LeadersOpen(h, works)
  {
  }

  lemma AcquireKeepsOpen(g: Flights, key: string, works: seq<Work>, w: Work)
    requires LeadersOpen(g, works) && w.call == AcquireGroup(g, key).1 && w.leader == AcquireGroup(g, key).2
    ensures LeadersOpen(AcquireGroup(g, key).0, works + [w])
  {
  }

  lemma SplitIndexes(results: seq<Option<ItemResult>>, works: seq<Work>, n: nat)
    requires n <= |results| && Split(results, works, n)
    ensures forall p :: 0 <= p < |works| ==> works[p].index < n
  {
  }

  lemma RejectedOk(env: Env, item: FetchRequest, ref: ObjectRef, e: Error)
    ensures ResultOk(env, item, ItemResult(ref, None, Some(e), false, false))
  {
  }

  lemma HitOk(env: Env, item: FetchRequest, before: Cache, ref: ObjectRef, a: Artifact)
    requires Prepare(env, before, item) == Hit(ref, a) && CacheOk(before, before)
    ensures ResultOk(env, item, ItemResult(ref, Some(a), None, true, false))
  {
    PrepareCovers(env, before, item);
  }

  // One more item has become work.
  lemma SplitWork(results: seq<Option<ItemResult>>, works: seq<Work>, n: nat, w: Work)
    requires n < |results| && Split(results, works, n) && w.index == n
    ensures Split(results, works + [w], n + 1)
  {
    var all := works + [w];
    forall i | 0 <= i < n + 1
      ensures results[i].None? <==> exists p :: 0 <= p < |all| && all[p].index == i
    {
      if i == n {
        assert all[|works|].index == i;
      } else if results[i].None? {
        var p :| 0 <= p < |works| && works[p].index == i;
        assert all[p].index == i;
      } else {
        assert forall p :: 0 <= p < |works| ==> all[p] == works[p];
      }
    }
    assert forall p :: 0 <= p < |works| ==> all[p] == works[p];
  }

  // One more item has got its result at once.
  lemma SplitResult(results: seq<Option<ItemResult>>, works: seq<Work>, n: nat, r: ItemResult)
    requires n < |results| && Split(results, works, n)
    ensures Split(results[n := Some(r)], works, n + 1)
  {
  }

  // ---- apply ----

  // What apply stores for a work whose call succeeded.
  function Applied(cache: Cache, w: Work, a: Artifact): Artifact {
    var b := a.(ref := MergeRef(w.ref, a.ref));
    if b.ref.canonical in cache then MergeArtifact(cache[b.ref.canonical], b) else b
  }

  lemma AppliedOk(env: Env, items: seq<FetchRequest>, before: Cache, cache: Cache, g: Flights, w: Work, a: Artifact,
                  shared: bool)
    requires CacheOk(before, cache) && WorkOk(env, items, before, g, w)
               && ((shared ==> KeysApart(env.registry)) ==> w.missing <= a.projection)
    ensures var r := Applied(cache, w, a);
            && CacheOk(before, cache[r.ref.canonical := r]) && CacheOk(cache, cache[r.ref.canonical := r])
            && ResultOk(env, items[w.index], ItemResult(r.ref, Some(r), None, false, shared))
  {
    hide Applied, ResolveRef, Addressable, KeysApart, KeyOf;
    var r := Applied(cache, w, a);
    AppliedGrows(cache, w, a);
    CacheGrows(before, cache, r);
    CacheItself(before, cache);
    CacheGrows(cache, cache, r);
    if Addressable(items[w.index].ref) {
      ResolvedIsCanonical(env, items[w.index].ref);
      AppliedIsOwn(cache, w, a);
    }
  }

  // What is stored has all parts of what was there and of what came in, under the work's id.
  lemma AppliedGrows(cache: Cache, w: Work, a: Artifact)
    requires forall k :: k in cache ==> cache[k].ref.canonical == k
    ensures var r := Applied(cache, w, a);
            a.projection <= r.projection
              && (r.ref.canonical in cache ==> cache[r.ref.canonical].projection <= r.projection)
  {
  }

  lemma AppliedIsOwn(cache: Cache, w: Work, a: Artifact)
    requires (forall k :: k in cache ==> cache[k].ref.canonical == k) && w.ref.canonical != ""
    ensures var r := Applied(cache, w, a);
            r.ref.canonical == w.ref.canonical
              && (w.ref.canonical in cache ==> cache[w.ref.canonical].projection <= r.projection)
  {
  }

  lemma CacheGrows(before: Cache, cache: Cache, r: Artifact)
    requires CacheOk(before, cache) && (r.ref.canonical in cache ==> cache[r.ref.canonical].projection <= r.projection)
    ensures CacheOk(before, cache[r.ref.canonical := r])
  {
  }

  lemma RejectedShared(env: Env, item: FetchRequest, ref: ObjectRef, e: Error, shared: bool)
    ensures ResultOk(env, item, ItemResult(ref, None, Some(e), false, shared))
  {
  }

  lemma WorkAt(env: Env, items: seq<FetchRequest>, before: Cache, g: Flights, works: seq<Work>, p: nat)
    requires WorksOk(env, items, before, g, works) && p < |works|
    ensures WorkOk(env, items, before, g, works[p]) && works[p].index < |items| && works[p].call < |g.calls|
    ensures g.calls[works[p].call].key == KeyOf(works[p].ref, works[p].missing, works[p].provider)
    ensures Registered(env.registry, works[p].provider) && CanAsk(works[p].provider, works[p].missing)
  {
  }

  lemma ExtendsTrans(a: Flights, b: Flights, c: Flights)
    requires Extends(a, b) && Extends(b, c)
    ensures Extends(a, c)
  {
  }

  predicate PositionsIn(chunk: seq<nat>, n: nat) {
    forall k :: 0 <= k < |chunk| ==> chunk[k] < n
  }

  // What is known of the answer for a work.
  predicate AnswerOk(w: Work, o: Outcome) {
    o.error.None? ==> ValidFetched(w.provider, w.missing, o.artifact)
  }

  // What a provider made of a chunk: it was not asked, for want of budget or because it cannot
  // fetch, or it answered with artifacts and perhaps an error.
  datatype ProviderCall = NotReserved | NoFetcher | Responded(artifacts: seq<Artifact>, err: Option<Error>)

  function Served(reqs: seq<ObjectRef>, artifacts: seq<Artifact>, k: nat): Option<Artifact> {
    var m := Match(reqs, artifacts);
    if k in m && m[k] < |artifacts| then Some(artifacts[m[k]]) else None
  }

  // The outcome of a work for the artifact that serves it, if any; only the byte budget is open.
  predicate Judged(w: Work, served: Option<Artifact>, err: Option<Error>, o: Outcome) {
    match served
    case None => o.error == if err.Some? then err else Some(NotFound)
    case Some(a) =>
      o.artifact == a &&
      if ValidFetched(w.provider, w.missing, a) then o.error == None || o.error == Some(BudgetExhausted)
        else o.error == Some(VersionIncompatible)
  }

  predicate Fits(call: ProviderCall, w: Work, reqs: seq<ObjectRef>, k: nat, o: Outcome) {
    match call
    case NotReserved => o.error == Some(BudgetExhausted)
    case NoFetcher => o.error == Some(Unsupported)
    case Responded(artifacts, err) => Judged(w, Served(reqs, artifacts, k), err, o)
  }

  // A non-empty list of leading works of one provider, among the first n, in order and each once.
  predicate LeadersOf(works: seq<Work>, id: string, group: seq<nat>, n: nat)
    requires n <= |works|
  {
    && group != []
    && (forall k :: 0 <= k < |group| ==> group[k] < n && works[group[k]].leader && works[group[k]].provider.id == id)
    && (forall j, k :: 0 <= j < k < |group| ==> group[j] < group[k])
  }

  lemma LeadersLater(works: seq<Work>, groups: map<string, seq<nat>>, n: nat)
    requires n < |works| && forall id :: id in groups ==> LeadersOf(works, id, groups[id], n)
    ensures forall id :: id in groups ==> LeadersOf(works, id, groups[id], n + 1)
  {
  }

  lemma LeadersGrow(works: seq<Work>, id: string, group: seq<nat>, n: nat)
    requires n < |works| && (group == [] || LeadersOf(works, id, group, n)) && works[n].leader
               && works[n].provider.id == id
    ensures LeadersOf(works, id, group + [n], n + 1)
  {
  }

  function BatchLimit(p: Provider): (n: nat)
    ensures n > 0
  {
    if p.maxBatch <= 0 then 1 else p.maxBatch
  }

  function Joined(chunks: seq<seq<nat>>): seq<nat> {
    if chunks == [] then [] else Joined(chunks[..|chunks| - 1]) + chunks[|chunks| - 1]
  }

  lemma JoinedNothing()
    ensures Joined([]) == []
  {
  }

  lemma JoinedAppend(chunks: seq<seq<nat>>, c: seq<nat>)
    ensures Joined(chunks + [c]) == Joined(chunks) + c
  {
    assert (chunks + [c])[..|chunks|] == chunks;
  }

  function ChunkRefs(works: seq<Work>, chunk: seq<nat>): (refs: seq<ObjectRef>)
    requires PositionsIn(chunk, |works|)
    ensures |refs| == |chunk|
  {
    seq(|chunk|, k requires 0 <= k < |chunk| => works[chunk[k]].ref)
  }

  lemma ServedIsMatched(reqs: seq<ObjectRef>, artifacts: seq<Artifact>, matched: map<nat, Artifact>)
    requires Serves(matched, Match(reqs, artifacts), artifacts)
    ensures forall k: nat :: Served(reqs, artifacts, k) == if k in matched then Some(matched[k]) else None
  {
    hide Match;
  }

  // ---- Calls led here ----

  // The calls led by the works in `completed` carry their outcomes and are out of the map; the
  // other calls led here are open.
  ghost predicate LeadersAt(g: Flights, works: seq<Work>, completed: set<nat>, outcomes: map<nat, Outcome>) {
    forall p: nat :: p < |works| && works[p].leader ==>
      && works[p].call < |g.calls|
      && (p in completed ==>
          p in outcomes && g.calls[works[p].call].phase == Removed && g.calls[works[p].call].value == Some(outcomes[p]))
      && (p !in completed ==> g.calls[works[p].call].phase == Open)
  }

  function Positions(works: seq<Work>): set<nat> {
    set p: nat | p < |works| && IsPosition(works, p)
  }

  predicate IsPosition(works: seq<Work>, p: nat) {
    p < |works|
  }

  ghost predicate CallsIn(g: Flights, works: seq<Work>) {
    forall p :: 0 <= p < |works| ==> works[p].call < |g.calls|
  }

  lemma WorksCalls(env: Env, items: seq<FetchRequest>, before: Cache, g: Flights, works: seq<Work>)
    requires WorksOk(env, items, before, g, works)
    ensures CallsIn(g, works)
  {
    forall p | 0 <= p < |works|
      ensures works[p].call < |g.calls|
    {
      assert WorkOk(env, items, before, g, works[p]);
    }
  }

  // Every work that is no longer pending has put a result in its place, and completed its call
  // if it leads one.
  ghost predicate Answered(results: seq<Option<ItemResult>>, works: seq<Work>, pending: set<nat>, completed: set<nat>) {
    forall p: nat :: p < |works| && p !in pending ==>
      works[p].index < |results| && results[works[p].index].Some? && (works[p].leader ==> p in completed)
  }

  // Results are only added.
  ghost predicate Kept(was: seq<Option<ItemResult>>, now: seq<Option<ItemResult>>) {
    |was| == |now| && forall i :: 0 <= i < |was| && was[i].Some? ==> now[i].Some?
  }

  lemma AnswerOne(was: seq<Option<ItemResult>>, now: seq<Option<ItemResult>>, works: seq<Work>, pending: set<nat>,
                  completed: set<nat>, p: nat)
    requires Answered(was, works, pending, completed) && Kept(was, now)
    requires p < |works| && works[p].index < |now| && now[works[p].index].Some? && (works[p].leader ==> p in completed)
    ensures Answered(now, works, pending - {p}, completed)
  {
  }

  lemma NoneAnswered(results: seq<Option<ItemResult>>, works: seq<Work>)
    ensures Answered(results, works, Positions(works), {}) && Kept(results, results)
  {
  }

  lemma AnsweredMore(results: seq<Option<ItemResult>>, works: seq<Work>, pending: set<nat>, completed: set<nat>,
                     more: set<nat>)
    requires Answered(results, works, pending, completed) && completed <= more
    ensures Answered(results, works, pending, more)
  {
  }

  lemma KeptTrans(a: seq<Option<ItemResult>>, b: seq<Option<ItemResult>>, c: seq<Option<ItemResult>>)
    requires Kept(a, b) && Kept(b, c)
    ensures Kept(a, c)
  {
  }

  function Leading(works: seq<Work>): set<nat> {
    set p: nat | p < |works| && works[p].leader
  }

  // ---- Duties: the completions that the chunks still owe ----

  // Each leading work that has not been completed is owed once, and no other.
  ghost predicate Undone(works: seq<Work>, todo: seq<nat>, completed: set<nat>) {
    completed <= Leading(works) && multiset(todo) == multiset(Leading(works) - completed)
  }

  // Whatever has no result yet is to be completed or can be applied.
  ghost predicate Waiting(works: seq<Work>, pending: set<nat>, todo: seq<nat>, ready: seq<nat>, completed: set<nat>) {
    && (forall p: nat :: p in pending ==> p in todo || p in ready)
    && (forall p: nat :: p in ready ==> p < |works| && (works[p].leader ==> p in completed))
  }

  lemma NoneDone(works: seq<Work>, todo: seq<nat>, ready: seq<nat>)
    requires multiset(todo) == multiset(Leading(works))
               && forall p: nat :: p in ready <==> p < |works| && !works[p].leader
    ensures Undone(works, todo, {}) && Waiting(works, Positions(works), todo, ready, {})
  {
    assert Leading(works) - {} == Leading(works);
    forall p | p in Positions(works) && works[p].leader
      ensures p in todo
    {
      assert p in multiset(todo);
    }
  }

  lemma UndoneAt(works: seq<Work>, todo: seq<nat>, completed: set<nat>, i: nat)
    requires Undone(works, todo, completed) && i < |todo|
    ensures todo[i] < |works| && works[todo[i]].leader && todo[i] !in completed
  {
    assert todo[i] in multiset(todo);
  }

  lemma WaitingAt(works: seq<Work>, pending: set<nat>, todo: seq<nat>, ready: seq<nat>, completed: set<nat>, i: nat)
    requires Waiting(works, pending, todo, ready, completed) && i < |ready|
    ensures ready[i] < |works| && (works[ready[i]].leader ==> ready[i] in completed)
    ensures Waiting(works, pending - {ready[i]}, todo, ready[..i] + ready[i + 1..], completed)
  {
    var rest := ready[..i] + ready[i + 1..];
    assert ready[i] in ready;
    OthersStay(ready, i);
  }

  lemma OthersStay(ready: seq<nat>, i: nat)
    requires i < |ready|
    ensures var rest := ready[..i] + ready[i + 1..];
            (forall p :: p in rest ==> p in ready) && forall p :: p in ready && p != ready[i] ==> p in rest
  {
    assert ready == ready[..i] + [ready[i]] + ready[i + 1..];
  }

  lemma DutyDone(works: seq<Work>, pending: set<nat>, todo: seq<nat>, ready: seq<nat>, completed: set<nat>, i: nat)
    requires Undone(works, todo, completed) && Waiting(works, pending, todo, ready, completed) && i < |todo|
    ensures var rest, p := todo[..i] + todo[i + 1..], todo[i];
            && Undone(works, rest, completed + {p}) && Waiting(works, pending, rest, ready + [p], completed + {p})
            && multiset(rest) + multiset{p} == multiset(todo)
  {
    var rest, p := todo[..i] + todo[i + 1..], todo[i];
    UndoneAt(works, todo, completed, i);
    TakenOut(todo, i);
    OneLess(works, todo, rest, completed, p);
    StillWaiting(works, pending, todo, rest, ready, completed, p);
  }

  lemma TakenOut(todo: seq<nat>, i: nat)
    requires i < |todo|
    ensures multiset(todo[..i] + todo[i + 1..]) + multiset{todo[i]} == multiset(todo)
  {
    assert todo == todo[..i] + [todo[i]] + todo[i + 1..];
  }

  lemma OneLess(works: seq<Work>, todo: seq<nat>, rest: seq<nat>, completed: set<nat>, p: nat)
    requires Undone(works, todo, completed) && multiset(rest) + multiset{p} == multiset(todo)
    ensures Undone(works, rest, completed + {p})
  {
    hide Leading;
    assert p in multiset(todo);
    var left := Leading(works) - (completed + {p});
    assert p in Leading(works) - completed;
    assert Leading(works) - completed == left + {p};
    assert multiset(left + {p}) == multiset(left) + multiset{p};
    assert multiset(rest) + multiset{p} - multiset{p} == multiset(rest);
  }

  lemma StillWaiting(works: seq<Work>, pending: set<nat>, todo: seq<nat>, rest: seq<nat>, ready: seq<nat>,
                     completed: set<nat>, p: nat)
    requires Waiting(works, pending, todo, ready, completed) && multiset(rest) + multiset{p} == multiset(todo)
               && p < |works|
    ensures Waiting(works, pending, rest, ready + [p], completed + {p})
  {
    forall q | q in pending
      ensures q in rest || q in ready + [p]
    {
      if q in todo && q != p {
        assert q in multiset(todo);
        assert q in multiset(rest);
      }
    }
  }

  lemma AllDone(works: seq<Work>, completed: set<nat>)
    requires Undone(works, [], completed)
    ensures completed == Leading(works)
  {
    hide Leading;
    forall p
      ensures p in Leading(works) ==> p in completed
    {
      assert p !in multiset(Leading(works) - completed);
    }
  }

  lemma NobodyWaits(works: seq<Work>, pending: set<nat>, completed: set<nat>)
    requires Waiting(works, pending, [], [], completed)
    ensures pending == {}
  {
  }

  // The leading works of the providers that have been dealt with.
  ghost function LeadingBut(works: seq<Work>, todo: set<string>): set<nat> {
    set p: nat | p < |works| && works[p].leader && works[p].provider.id !in todo
  }

  lemma NoDuties(works: seq<Work>, groups: map<string, seq<nat>>)
    requires forall p: nat :: p < |works| && works[p].leader ==> works[p].provider.id in groups
    ensures LeadingBut(works, groups.Keys) == {}
  {
  }

  lemma AllDuties(works: seq<Work>)
    ensures LeadingBut(works, {}) == Leading(works)
  {
  }

  lemma GroupMembers(works: seq<Work>, id: string, group: seq<nat>)
    requires LeadersOf(works, id, group, |works|)
    requires forall p: nat :: p < |works| && works[p].leader && works[p].provider.id == id ==> p in group
    ensures forall p: nat :: p in group <==> p < |works| && works[p].leader && works[p].provider.id == id
  {
  }

  // A group adds each leading work of its provider once.
  lemma MoreDuties(works: seq<Work>, todo: set<string>, id: string, group: seq<nat>, duties: seq<nat>)
    requires id in todo && LeadersOf(works, id, group, |works|) && multiset(duties) == multiset(LeadingBut(works, todo))
    requires forall p: nat :: p < |works| && works[p].leader && works[p].provider.id == id ==> p in group
    ensures multiset(duties + group) == multiset(LeadingBut(works, todo - {id}))
  {
    GroupMembers(works, id, group);
    RisingIsSet(group);
    var mine := set p | p in group;
    assert LeadingBut(works, todo - {id}) == LeadingBut(works, todo) + mine;
    assert LeadingBut(works, todo) !! mine;
  }

  lemma {:induction false} RisingIsSet(s: seq<nat>)
    requires forall j, k :: 0 <= j < k < |s| ==> s[j] < s[k]
    ensures multiset(s) == multiset(set p | p in s)
  {
    if s != [] {
      var front, last := s[..|s| - 1], s[|s| - 1];
      RisingIsSet(front);
      assert s == front + [last];
      assert (set p | p in s) == (set p | p in front) + {last};
    }
  }

  lemma NotLedHere(g: Flights, works: seq<Work>, outcomes: map<nat, Outcome>, call: nat)
    requires LeadersAt(g, works, Leading(works), outcomes) && call < |g.calls| && g.calls[call].phase == Open
    ensures forall p :: 0 <= p < |works| ==> !(works[p].leader && works[p].call == call)
  {
    forall p | 0 <= p < |works| && works[p].leader
      ensures works[p].call != call
    {
      assert p in Leading(works);
    }
  }

  // ---- What this fetch guarantees the others: each of its steps is one they can rely on ----

  lemma AcquireIsRely(registry: Registry, g: Flights, key: string, others: seq<Work>)
    requires FlightsOk(registry, g)
    ensures Rely(registry, g, AcquireGroup(g, key).0, others)
  {
    hide GroupOk;
    AcquireOk(g, key);
  }

  lemma PublishIsRely(registry: Registry, g: Flights, call: nat, o: Outcome, others: seq<Work>)
    requires FlightsOk(registry, g) && call < |g.calls| && OutcomeOk(registry, g.calls[call].key, o)
    requires forall p :: 0 <= p < |others| ==> !(others[p].leader && others[p].call == call)
    ensures Rely(registry, g, PublishGroup(g, call, o), others)
  {
    hide GroupOk;
    PublishOk(g, call, o);
  }

  lemma RemoveIsRely(registry: Registry, g: Flights, call: nat, others: seq<Work>)
    requires FlightsOk(registry, g) && call < |g.calls| && g.calls[call].phase == Published
    requires forall p :: 0 <= p < |others| ==> !(others[p].leader && others[p].call == call)
    ensures Rely(registry, g, RemoveGroup(g, call), others)
  {
    hide GroupOk;
    RemoveOk(g, call);
  }

  lemma NoneCompleted(g: Flights, works: seq<Work>, outcomes: map<nat, Outcome>)
    requires LeadersOpen(g, works)
    ensures LeadersAt(g, works, {}, outcomes)
  {
  }

  lemma LeaderOpen(g: Flights, works: seq<Work>, completed: set<nat>, outcomes: map<nat, Outcome>, p: nat)
    requires LeadersAt(g, works, completed, outcomes) && p < |works| && works[p].leader && p !in completed
    ensures works[p].call < |g.calls| && g.calls[works[p].call].phase == Open
  {
  }

  lemma LeadersAfterComplete(g: Flights, h: Flights, works: seq<Work>, completed: set<nat>, outcomes: map<nat, Outcome>,
                             p: nat)
    requires LeadersAt(g, works, completed, outcomes) && Extends(g, h)
    requires p < |works| && works[p].leader && p in outcomes && works[p].call < |h.calls|
    requires h.calls[works[p].call].phase == Removed && h.calls[works[p].call].value == Some(outcomes[p])
    requires forall q :: 0 <= q < |works| && works[q].leader && q != p ==> works[q].call != works[p].call
    requires forall q ::
               0 <= q < |works| && works[q].leader && works[q].call != works[p].call && works[q].call < |g.calls| ==>
               works[q].call < |h.calls| && h.calls[works[q].call].phase == g.calls[works[q].call].phase
    ensures LeadersAt(h, works, completed + {p}, outcomes)
  {
  }

  lemma LeadersApart(env: Env, items: seq<FetchRequest>, before: Cache, g: Flights, works: seq<Work>, p: nat)
    requires WorksOk(env, items, before, g, works) && p < |works| && works[p].leader
    ensures forall q :: 0 <= q < |works| && works[q].leader && q != p ==> works[q].call != works[p].call
  {
  }

  lemma PublishForeign(g: Flights, works: seq<Work>, completed: set<nat>, outcomes: map<nat, Outcome>, call: nat,
                       o: Outcome)
    requires LeadersAt(g, works, completed, outcomes) && call < |g.calls|
    requires forall r :: 0 <= r < |works| ==> !(works[r].leader && works[r].call == call)
    ensures LeadersAt(PublishGroup(g, call, o), works, completed, outcomes)
  {
  }

  lemma RelyKeepsLeaders(registry: Registry, g: Flights, h: Flights, works: seq<Work>, completed: set<nat>,
                         outcomes: map<nat, Outcome>)
    requires LeadersAt(g, works, completed, outcomes) && Rely(registry, g, h, works)
    ensures LeadersAt(h, works, completed, outcomes)
  {
  }

  // How many works wait on an open call.
  ghost function OpenWorks(g: Flights, works: seq<Work>): nat {
    |OpenSet(g, works)|
  }

  ghost function OpenSet(g: Flights, works: seq<Work>): set<nat> {
    set p: nat | p < |works| && works[p].call < |g.calls| && g.calls[works[p].call].phase == Open
  }

  // Published calls stay published.
  lemma OpensStay(registry: Registry, g: Flights, h: Flights, works: seq<Work>)
    requires FlightsOk(registry, g) && FlightsOk(registry, h) && Extends(g, h) && CallsIn(g, works)
    ensures OpenSet(h, works) <= OpenSet(g, works)
  {
  }

  lemma SubsetSize(a: set<nat>, b: set<nat>)
    requires a <= b
    ensures |a| <= |b|
    ensures a != b ==> |a| < |b|
  {
    assert b == a + (b - a);
    if a != b {
      assert b - a != {};
    }
  }

  lemma RelyOpens(registry: Registry, g: Flights, h: Flights, works: seq<Work>)
    requires FlightsOk(registry, g) && Rely(registry, g, h, works) && CallsIn(g, works)
    ensures OpenWorks(h, works) <= OpenWorks(g, works)
  {
    OpensStay(registry, g, h, works);
    SubsetSize(OpenSet(h, works), OpenSet(g, works));
  }

  lemma OpensFall(registry: Registry, g: Flights, h: Flights, works: seq<Work>, p: nat)
    requires FlightsOk(registry, g) && FlightsOk(registry, h) && Extends(g, h) && CallsIn(g, works)
    requires p < |works| && works[p].call < |g.calls| && works[p].call < |h.calls|
    requires g.calls[works[p].call].phase == Open && h.calls[works[p].call].phase != Open
    ensures OpenWorks(h, works) < OpenWorks(g, works)
  {
    OpensStay(registry, g, h, works);
    assert p in OpenSet(g, works) && p !in OpenSet(h, works);
    SubsetSize(OpenSet(h, works), OpenSet(g, works));
  }

  lemma AnswerIsOutcome(registry: Registry, w: Work, o: Outcome)
    requires AnswerOk(w, o) && Registered(registry, w.provider) && CanAsk(w.provider, w.missing)
    ensures OutcomeOk(registry, KeyOf(w.ref, w.missing, w.provider), o)
  {
    hide KeyOf, IsKeyFor;
    KeyIsFor(w.ref, w.missing, w.provider);
    var id :| id in registry && registry[id] == w.provider;
    assert o.error.None? ==>
      AskedFor(registry, KeyOf(w.ref, w.missing, w.provider), id, w.missing, o.artifact.projection);
  }

  // What the result of a work rests on.
  ghost predicate Fulfils(registry: Registry, w: Work, o: Outcome, shared: bool) {
    o.error.None? && (shared ==> KeysApart(registry)) ==> w.missing <= o.artifact.projection
  }

  lemma AnswerFulfils(registry: Registry, w: Work, o: Outcome)
    requires AnswerOk(w, o)
    ensures Fulfils(registry, w, o, false)
  {
    hide KeysApart;
  }

  lemma CancelFulfils(registry: Registry, w: Work)
    ensures Fulfils(registry, w, Outcome(ZERO_ARTIFACT, Some(Cancelled)), true)
  {
  }

  lemma SharedFulfils(registry: Registry, w: Work, o: Outcome)
    requires OutcomeOk(registry, KeyOf(w.ref, w.missing, w.provider), o) && Registered(registry, w.provider)
               && CanAsk(w.provider, w.missing)
    ensures Fulfils(registry, w, o, true)
  {
    hide KeyOf, IsKeyFor, KeysApart;
    if o.error.None? && KeysApart(registry) {
      var id, m :| id in registry && m <= registry[id].fetchable
                   && AskedFor(registry, KeyOf(w.ref, w.missing, w.provider), id, m, o.artifact.projection);
      KeySaysParts(registry, w.ref, w.missing, w.provider, m, registry[id]);
    }
  }

  lemma PublishedIsOutcome(registry: Registry, g: Flights, call: nat)
    requires FlightsOk(registry, g) && call < |g.calls| && g.calls[call].value.Some?
    ensures OutcomeOk(registry, g.calls[call].key, g.calls[call].value.value)
  {
  }

  lemma OpenIsNone(registry: Registry, g: Flights, call: nat)
    requires FlightsOk(registry, g) && call < |g.calls| && g.calls[call].value.None?
    ensures g.calls[call].phase == Open
  {
  }

  class FetchRun {
    const env: Env
    const items: seq<FetchRequest>
    ghost const before: Cache
    const results: array<Option<ItemResult>>
    var cache: Cache
    var works: seq<Work>
    var flights: Flights
    // How often each work's complete function has been called.
    ghost var completions: multiset<nat>

    ghost predicate Valid()
      reads this, results
    {
      && results.Length == |items|
      && CacheOk(before, cache) && FlightsOk(env.registry, flights)
      && WorksOk(env, items, before, flights, works)
      && ResultsOk(env, items, results[..]) && AllStored(results[..], cache)
    }

    constructor (env: Env, items: seq<FetchRequest>, stored: Cache, flights: Flights)
      requires FlightsOk(env.registry, flights) && forall k :: k in stored ==> stored[k].ref.canonical == k
      ensures Valid() && Split(results[..], works, 0) && fresh(results)
      ensures this.env == env && this.items == items && before == stored && cache == stored && works == []
      ensures this.flights == flights && completions == multiset{}
    {
      this.env, this.items, before, cache, this.flights := env, items, stored, stored, flights;
      results := new Option<ItemResult>[|items|](_ => None);
      works := [];
      completions := multiset{};
    }

    // Other requests acquire, publish and remove.
    method Interfere()
      requires Valid()
      modifies this`flights
      ensures Valid() && Rely(env.registry, old(flights), flights, works)
    {
      assert Rely(env.registry, flights, flights, works);
      var h: Flights :| Rely(env.registry, flights, h, works);
      assert Rely(env.registry, flights, h, works);
      RelyKeepsWorks(env, items, before, flights, h, works);
      flights := h;
    }

    // The whole run of a fetch that has just been set up.
    method Run() returns (ghost traces: seq<seq<Ledger.Action>>)
      requires Valid() && works == [] && cache == before && completions == multiset{} && Split(results[..], works, 0)
      modifies this, results
      ensures Valid() && Ledger.AllPaid(traces) && completions == multiset(Leading(works))
      ensures forall i :: 0 <= i < results.Length ==> results[i].Some?
      ensures forall p: nat :: p in Leading(works) ==>
                works[p].call < |flights.calls| && flights.calls[works[p].call].phase == Removed
    {
      hide *;
      NoLeaders(flights);
      ValidMeans(this);
      for i := 0 to |items|
        invariant Valid() && Split(results[..], works, i) && cache == before && LeadersOpen(flights, works)
        invariant completions == multiset{} && results.Length == |items|
      {
        PrepareItem(i);
      }
      ghost var was := results[..];
      var outcomes, duties;
      outcomes, duties, traces := RunLeaders();
      RunWorks(outcomes, duties);
      AllHaveResults(results[..], was, works, |items|);
      LeadersDone(flights, works, outcomes);
    }

    // fetch.go:48-108: one round of the first loop.
    method PrepareItem(i: nat)
      requires Valid() && i < |items| && Split(results[..], works, i) && cache == before && LeadersOpen(flights, works)
      modifies this`works, this`flights, results
      ensures Valid() && Split(results[..], works, i + 1) && cache == before
      ensures match Prepare(env, before, items[i])
              case Rejected(ref, e) => results[i] == Some(ItemResult(ref, None, Some(e), false, false))
                && works == old(works)
              case Hit(ref, a) => results[i] == Some(ItemResult(ref, Some(a), None, true, false)) && works == old(works)
              case Needs(ref, missing, p) =>
                && |works| == |old(works)| + 1 && works[..|old(works)|] == old(works)
                && works[|old(works)|].ref == ref && works[|old(works)|].missing == missing
                && works[|old(works)|].provider == p
      ensures LeadersOpen(flights, works)
    {
      ghost var g0 := flights;
      Interfere();
      RelyKeepsOpen(env.registry, g0, flights, works);
      hide LeadersOpen, GroupOk, Prepare, Extends, WorksOk, Split, ResultOk, CacheOk, Rely, ResolveRef, AllStored;
      PrepareCovers(env, cache, items[i]);
      match Prepare(env, cache, items[i]) {
        case Rejected(ref, e) =>
          RejectedOk(env, items[i], ref, e);
          Settle(i, ItemResult(ref, None, Some(e), false, false));
        case Hit(ref, a) =>
          HitOk(env, items[i], before, ref, a);
          Settle(i, ItemResult(ref, Some(a), None, true, false));
        case Needs(ref, missing, p) =>
          Enlist(i, ref, missing, p);
      }
    }

    // The item has its result already.
    method Settle(i: nat, r: ItemResult)
      requires Valid() && i < |items| && Split(results[..], works, i) && ResultOk(env, items[i], r) && Stored(r, cache)
      modifies results
      ensures Valid() && Split(results[..], works, i + 1) && results[i] == Some(r)
    {
      hide WorksOk, Split, ResultOk, CacheOk, AllStored, Stored;
      ghost var old_results := results[..];
      CacheItself(before, cache);
      StoredLater(results[..], cache, i, r, cache);
      SplitResult(results[..], works, i, r);
      results[i] := Some(r);
      assert results[..] == old_results[i := Some(r)];
    }

    // The item is fetched, by a call led here or one joined.
    method Enlist(i: nat, ref: ObjectRef, missing: Projection, p: Provider)
      requires Valid() && i < |items| && Split(results[..], works, i) && LeadersOpen(flights, works)
      requires cache == before && Prepare(env, before, items[i]) == Needs(ref, missing, p)
      modifies this`works, this`flights
      ensures Valid() && Split(results[..], works, i + 1) && LeadersOpen(flights, works)
      ensures |works| == |old(works)| + 1 && works[..|old(works)|] == old(works)
      ensures works[|old(works)|].ref == ref && works[|old(works)|].missing == missing
                && works[|old(works)|].provider == p
    {
      hide LeadersOpen, GroupOk, Prepare, Extends, WorksOk, Split, ResultOk, CacheOk, ResolveRef, AllStored;
      PrepareCovers(env, cache, items[i]);
      var key := KeyOf(ref, missing, p);
      AcquireKeepsFlights(env.registry, flights, key);
      var (h, call, leader) := AcquireGroup(flights, key);
      var w := Work(i, ref, missing, p, leader, call);
      SplitIndexes(results[..], works, i);
      AddWork(env, items, before, flights, h, works, w);
      SplitWork(results[..], works, i, w);
      AcquireKeepsOpen(flights, key, works, w);
      flights := h;
      works := works + [w];
    }

    // fetch.go:110-125.
    method Apply(p: nat, o: Outcome, shared: bool)
      requires Valid() && p < |works| && Fulfils(env.registry, works[p], o, shared)
      modifies this`cache, results
      ensures Valid()
      ensures results[works[p].index].Some? && Kept(old(results[..]), results[..])
      ensures forall i :: 0 <= i < |items| && i != works[p].index ==> results[i] == old(results[i])
      ensures o.error.Some? ==>
                cache == old(cache)
                  && results[works[p].index] == Some(ItemResult(works[p].ref, None, o.error, false, shared))
      ensures o.error.None? ==>
                var r := Applied(old(cache), works[p], o.artifact);
                && cache == old(cache)[r.ref.canonical := r]
                && results[works[p].index] == Some(ItemResult(r.ref, Some(r), None, false, shared))
    {
      hide FlightsOk, WorksOk, CacheOk, WorkOk, ResultOk, AllStored;
      var w := works[p];
      WorkAt(env, items, before, flights, works, p);
      ghost var was := results[..];
      if o.error.Some? {
        CacheItself(before, cache);
        StoredLater(was, cache, w.index, ItemResult(w.ref, None, o.error, false, shared), cache);
        RejectedShared(env, items[w.index], w.ref, o.error.value, shared);
        results[w.index] := Some(ItemResult(w.ref, None, o.error, false, shared));
        assert results[..] == was[w.index := results[w.index]];
        return;
      }
      AppliedOk(env, items, before, cache, flights, w, o.artifact, shared);
      var a := o.artifact.(ref := MergeRef(w.ref, o.artifact.ref));
      if a.ref.canonical in cache {
        a := MergeArtifact(cache[a.ref.canonical], a);
      }
      assert a == Applied(cache, w, o.artifact);
      StoredLater(was, cache, w.index, ItemResult(a.ref, Some(a), None, false, shared), cache[a.ref.canonical := a]);
      cache := cache[a.ref.canonical := a];
      results[w.index] := Some(ItemResult(a.ref, Some(a), None, false, shared));
      assert results[..] == was[w.index := results[w.index]];
    }

    // complete(artifact, err) of a work that leads its call: published, and removed from the map.
    method Complete(p: nat, o: Outcome)
      requires Valid() && p < |works| && works[p].leader && works[p].call < |flights.calls|
      requires flights.calls[works[p].call].phase == Open
                 && OutcomeOk(env.registry, flights.calls[works[p].call].key, o)
      modifies this`flights, this`completions
      ensures Valid() && Extends(old(flights), flights)
      ensures works[p].call < |flights.calls| && flights.calls[works[p].call].phase == Removed
      ensures flights.calls[works[p].call].value == Some(o)
      ensures forall q ::
                0 <= q < |works| && works[q].leader && works[q].call != works[p].call
                && works[q].call < |old(flights).calls| ==>
                works[q].call < |flights.calls|
                  && flights.calls[works[q].call].phase == old(flights).calls[works[q].call].phase
      ensures completions == old(completions) + multiset{p}
    {
      hide GroupOk, WorksOk, CacheOk, ResultsOk;
      var call := works[p].call;
      ghost var g0 := flights;
      PublishKeepsFlights(env.registry, flights, call, o);
      RelyKeepsWorks(env, items, before, flights, PublishGroup(flights, call, o), works);
      flights := PublishGroup(flights, call, o);
      ghost var g1 := flights;
      Interfere();
      ghost var g2 := flights;
      assert flights.calls[call].phase == Published;
      RemoveKeepsFlights(env.registry, flights, call);
      RelyKeepsWorks(env, items, before, flights, RemoveGroup(flights, call), works);
      flights := RemoveGroup(flights, call);
      completions := completions + multiset{p};
      ExtendsTrans(g0, g1, g2);
      ExtendsTrans(g0, g2, flights);
    }

    // fetch.go:156-202: one chunk of requests goes to a provider, if the budget allows; its output
    // is matched to the requests and checked. `did` is what this does with the budget account.
    method CallProvider(chunk: seq<nat>)
      returns (outcomes: seq<Outcome>, call: ProviderCall, ghost did: seq<Ledger.Action>)
      requires chunk != [] && PositionsIn(chunk, |works|)
      ensures |outcomes| == |chunk|
      ensures call.NoFetcher? ==> !works[chunk[0]].provider.fetches
      ensures forall k :: 0 <= k < |chunk| ==> Fits(call, works[chunk[k]], ChunkRefs(works, chunk), k, outcomes[k])
      ensures forall k :: 0 <= k < |chunk| ==> AnswerOk(works[chunk[k]], outcomes[k])
      ensures Ledger.Paid(did)
    {
      hide Match, ValidFetched, Served, Ledger.Paid, Ledger.Unused;
      did := [];
      Ledger.NothingDone();
      var reserved;
      reserved, did := Ledger.Ask(Ledger.Reserve(Ledger.Cost(1, |chunk|, 0, 0)), did);
      if !reserved {
        return seq(|chunk|, _ => Outcome(ZERO_ARTIFACT, Some(BudgetExhausted))), NotReserved, did;
      }
      if !works[chunk[0]].provider.fetches {
        return seq(|chunk|, _ => Outcome(ZERO_ARTIFACT, Some(Unsupported))), NoFetcher, did;
      }
      var artifacts: seq<Artifact> := *;
      var callErr: Option<Error> := *;
      Ledger.CallPaid(did);
      did := did + [Ledger.Called];
      var reqs := ChunkRefs(works, chunk);
      var matched := MatchBatchArtifacts(reqs, artifacts);
      ServedIsMatched(reqs, artifacts, matched);
      outcomes, did := JudgeAll(chunk, artifacts, callErr, matched, did);
      call := Responded(artifacts, callErr);
    }

    // fetch.go:185-201
    method JudgeAll(chunk: seq<nat>, ghost artifacts: seq<Artifact>, callErr: Option<Error>,
                    matched: map<nat, Artifact>,
                    ghost before: seq<Ledger.Action>)
      returns (outcomes: seq<Outcome>, ghost did: seq<Ledger.Action>)
      requires PositionsIn(chunk, |works|) && Ledger.Paid(before)
      requires forall k: nat :: Served(ChunkRefs(works, chunk), artifacts, k) == if k in matched then Some(matched[k])
                 else None
      ensures |outcomes| == |chunk| && Ledger.Paid(did)
      ensures forall k :: 0 <= k < |chunk| ==>
                Judged(works[chunk[k]], Served(ChunkRefs(works, chunk), artifacts, k), callErr, outcomes[k])
      ensures forall k :: 0 <= k < |chunk| ==> AnswerOk(works[chunk[k]], outcomes[k])
    {
      hide Match, ValidFetched, Served, ChunkRefs, Judged, AnswerOk, Ledger.Paid, Ledger.Unused;
      outcomes, did := [], before;
      for k := 0 to |chunk|
        invariant |outcomes| == k && Ledger.Paid(did)
        invariant forall j :: 0 <= j < k ==>
                    Judged(works[chunk[j]], Served(ChunkRefs(works, chunk), artifacts, j), callErr, outcomes[j])
        invariant forall j :: 0 <= j < k ==> AnswerOk(works[chunk[j]], outcomes[j])
      {
        var o;
        o, did := JudgeOne(works[chunk[k]], if k in matched then Some(matched[k]) else None, callErr, did);
        outcomes := outcomes + [o];
      }
    }

    method JudgeOne(w: Work, served: Option<Artifact>, callErr: Option<Error>, ghost before: seq<Ledger.Action>)
      returns (o: Outcome, ghost did: seq<Ledger.Action>)
      requires Ledger.Paid(before)
      ensures Judged(w, served, callErr, o) && AnswerOk(w, o) && Ledger.Paid(did)
    {
      hide ValidFetched, Ledger.Paid, Ledger.Unused;
      did := before;
      if served.None? {
        return Outcome(ZERO_ARTIFACT, if callErr.Some? then callErr else Some(NotFound)), did;
      }
      if !ValidFetched(w.provider, w.missing, served.value) {
        return Outcome(served.value, Some(VersionIncompatible)), did;
      }
      var size: nat := *;
      var fits;
      fits, did := Ledger.Ask(Ledger.Bytes(size), did);
      o := Outcome(served.value, if fits then None else Some(BudgetExhausted));
    }

    // fetch.go:129-142: the works that lead, by provider, in the order in which they were made.
    method GroupLeaders() returns (groups: map<string, seq<nat>>)
      ensures forall id :: id in groups ==> LeadersOf(works, id, groups[id], |works|)
      ensures forall p: nat :: p < |works| && works[p].leader ==>
                works[p].provider.id in groups && p in groups[works[p].provider.id]
    {
      hide LeadersOf;
      groups := map[];
      for p := 0 to |works|
        invariant forall id :: id in groups ==> LeadersOf(works, id, groups[id], p)
        invariant forall q: nat :: q < p && works[q].leader ==>
                    works[q].provider.id in groups && q in groups[works[q].provider.id]
      {
        LeadersLater(works, groups, p);
        if !works[p].leader {
          continue;
        }
        var id := works[p].provider.id;
        var group := if id in groups then groups[id] else [];
        LeadersGrow(works, id, group, p);
        assert (group + [p])[|group|] == p;
        groups := groups[id := group + [p]];
      }
    }

    // fetch.go:144-204: every group is cut into chunks no larger than its provider takes. The
    // goroutine of a chunk is to complete each of its works: `duties` are those of all chunks.
    method RunLeaders() returns (outcomes: map<nat, Outcome>, duties: seq<nat>, ghost traces: seq<seq<Ledger.Action>>)
      ensures forall p: nat :: p in outcomes <==> p < |works| && works[p].leader
      ensures forall p: nat :: p in outcomes ==> p < |works| && AnswerOk(works[p], outcomes[p])
      ensures multiset(duties) == multiset(Leading(works)) && Ledger.AllPaid(traces)
    {
      hide ValidFetched, AnswerOk, LeadersOf, Ledger.AllPaid;
      outcomes, duties, traces := map[], [], [];
      Ledger.NobodyActs();
      var groups := GroupLeaders();
      var todo := groups.Keys;
      NoDuties(works, groups);
      while todo != {}
        invariant todo <= groups.Keys && Ledger.AllPaid(traces)
        invariant forall p: nat :: p in outcomes <==> p < |works| && works[p].leader && works[p].provider.id !in todo
        invariant forall p: nat :: p in outcomes ==> p < |works| && AnswerOk(works[p], outcomes[p])
        invariant multiset(duties) == multiset(LeadingBut(works, todo))
        decreases |todo|
      {
        var id :| id in todo;
        var more, chunks, did := RunGroup(groups[id], id);
        MoreDuties(works, todo, id, groups[id], duties);
        GroupMembers(works, id, groups[id]);
        outcomes := outcomes + more;
        duties := duties + Joined(chunks);
        Ledger.MorePaid(traces, did);
        traces := traces + did;
        todo := todo - {id};
      }
      AllDuties(works);
    }

    method RunGroup(group: seq<nat>, ghost id: string)
      returns (outcomes: map<nat, Outcome>, chunks: seq<seq<nat>>, ghost traces: seq<seq<Ledger.Action>>)
      requires LeadersOf(works, id, group, |works|)
      ensures Joined(chunks) == group && forall c :: c in chunks ==> 0 < |c| <= BatchLimit(works[group[0]].provider)
      ensures forall p: nat :: p in outcomes <==> p in group
      ensures forall p: nat :: p in outcomes ==> p < |works| && AnswerOk(works[p], outcomes[p])
      ensures Ledger.AllPaid(traces) && |traces| == |chunks|
    {
      hide ValidFetched, Match, Fits, ChunkRefs, AnswerOk, Joined, Ledger.AllPaid, Ledger.Paid;
      outcomes, chunks, traces := map[], [], [];
      JoinedNothing();
      Ledger.NobodyActs();
      var maxBatch := works[group[0]].provider.maxBatch;
      if maxBatch <= 0 {
        maxBatch := 1;
      }
      var start := 0;
      while start < |group|
        invariant 0 <= start <= |group| && Joined(chunks) == group[..start]
        invariant forall c :: c in chunks ==> 0 < |c| <= maxBatch
        invariant forall p: nat :: p in outcomes <==> p in group[..start]
        invariant forall p: nat :: p in outcomes ==> p < |works| && AnswerOk(works[p], outcomes[p])
        invariant Ledger.AllPaid(traces) && |traces| == |chunks|
      {
        var end := if start + maxBatch > |group| then |group| else start + maxBatch;
        var chunk := group[start..end];
        assert group[..end] == group[..start] + chunk;
        JoinedAppend(chunks, chunk);
        chunks := chunks + [chunk];
        var answers, _, did := CallProvider(chunk);
        Ledger.OneMorePaid(traces, did);
        traces := traces + [did];
        outcomes := Record(chunk, answers, outcomes);
        start := end;
      }
      assert group[..|group|] == group;
    }

    // The answers of a chunk are noted by position.
    method Record(chunk: seq<nat>, answers: seq<Outcome>, before: map<nat, Outcome>)
      returns (outcomes: map<nat, Outcome>)
      requires |answers| == |chunk| && PositionsIn(chunk, |works|)
      requires forall k :: 0 <= k < |chunk| ==> AnswerOk(works[chunk[k]], answers[k])
      requires forall p: nat :: p in before ==> p < |works| && AnswerOk(works[p], before[p])
      ensures forall p: nat :: p in outcomes <==> p in before || p in chunk
      ensures forall p: nat :: p in outcomes ==> p < |works| && AnswerOk(works[p], outcomes[p])
    {
      hide AnswerOk;
      outcomes := before;
      for k := 0 to |chunk|
        invariant forall p: nat :: p in outcomes <==> p in before || p in chunk[..k]
        invariant forall p: nat :: p in outcomes ==> p < |works| && AnswerOk(works[p], outcomes[p])
      {
        assert chunk[..k + 1] == chunk[..k] + [chunk[k]];
        outcomes := outcomes[chunk[k] := answers[k]];
      }
      assert chunk[..|chunk|] == chunk;
    }

    // fetch.go:131-141: the works whose call another fetch leads, or this one under another key.
    method Followers() returns (ready: seq<nat>)
      ensures forall p: nat :: p in ready <==> p < |works| && !works[p].leader
    {
      ready := [];
      for p := 0 to |works|
        invariant forall q: nat :: q in ready <==> q < p && !works[q].leader
      {
        if !works[p].leader {
          ready := ready + [p];
        }
      }
    }

    // The goroutines run, in an arbitrary order: a chunk completes a work that leads and applies it;
    // a following work is applied when its call has a value or its own context ends.
    method RunWorks(outcomes: map<nat, Outcome>, duties: seq<nat>)
      requires Valid() && LeadersOpen(flights, works) && completions == multiset{}
      requires forall p: nat :: p in outcomes <==> p < |works| && works[p].leader
      requires forall p: nat :: p in outcomes ==> p < |works| && AnswerOk(works[p], outcomes[p])
      requires multiset(duties) == multiset(Leading(works))
      modifies this`cache, this`flights, this`completions, results
      ensures Valid() && Kept(old(results[..]), results[..])
      ensures Answered(results[..], works, {}, Leading(works))
      ensures completions == multiset(duties)
      ensures LeadersAt(flights, works, Leading(works), outcomes)
    {
      hide AllStored, GroupOk, FlightsOk, CacheOk, WorkOk, ResultsOk, AnswerOk, Extends, OutcomeOk, LeadersAt, Applied,
        Answered,
           Kept, OpenWorks, WorksOk, CallsIn, Leading, Undone, Waiting, Rely;
      // What is still to be completed, and what may be applied: the following works, and the leading
      // ones that have been completed.
      var todo := duties;
      var ready := Followers();
      ghost var pending, completed := Positions(works), {};
      NoneCompleted(flights, works, outcomes);
      NoneAnswered(results[..], works);
      NoneDone(works, todo, ready);
      while todo != [] || ready != []
        invariant Valid() && Undone(works, todo, completed) && Waiting(works, pending, todo, ready, completed)
        invariant LeadersAt(flights, works, completed, outcomes)
        invariant completions + multiset(todo) == multiset(duties)
        invariant Answered(results[..], works, pending, completed)
        invariant Kept(old(results[..]), results[..])
        decreases 2 * |todo| + |ready|, OpenWorks(flights, works)
      {
        ghost var g, was := flights, results[..];
        WorksCalls(env, items, before, flights, works);
        Interfere();
        RelyKeepsLeaders(env.registry, g, flights, works, completed, outcomes);
        RelyOpens(env.registry, g, flights, works);
        var dutyFirst: bool := *;
        if ready == [] || (todo != [] && dutyFirst) {
          todo, ready, completed := DoDuty(todo, ready, outcomes, completed, pending);
          continue;
        }
        var i: nat :| i < |ready|;
        var p := ready[i];
        WaitingAt(works, pending, todo, ready, completed, i);
        var applied := TryApply(p, outcomes);
        if applied {
          AnswerOne(was, results[..], works, pending, completed, p);
          KeptTrans(old(results[..]), was, results[..]);
          pending, ready := pending - {p}, ready[..i] + ready[i + 1..];
        } else if todo != [] {
          todo, ready, completed := DoDuty(todo, ready, outcomes, completed, pending);
        } else {
          AllDone(works, completed);
          AwaitForeign(p, outcomes, completed);
        }
      }
      AllDone(works, completed);
      NobodyWaits(works, pending, completed);
    }

    // One work of some chunk is completed, and can then be applied.
    method DoDuty(todo: seq<nat>, ready: seq<nat>, outcomes: map<nat, Outcome>, ghost completed: set<nat>,
                  ghost pending: set<nat>)
      returns (todo': seq<nat>, ready': seq<nat>, ghost completed': set<nat>)
      requires Valid() && todo != [] && Undone(works, todo, completed)
                 && Waiting(works, pending, todo, ready, completed)
      requires LeadersAt(flights, works, completed, outcomes) && Answered(results[..], works, pending, completed)
      requires forall q: nat :: q < |works| && works[q].leader ==> q in outcomes && AnswerOk(works[q], outcomes[q])
      modifies this`flights, this`completions
      ensures Valid() && Undone(works, todo', completed') && Waiting(works, pending, todo', ready', completed')
      ensures LeadersAt(flights, works, completed', outcomes) && Answered(results[..], works, pending, completed')
      ensures completions + multiset(todo') == old(completions) + multiset(todo)
      ensures |todo'| + 1 == |todo| && |ready'| == |ready| + 1
    {
      hide AllStored, GroupOk, FlightsOk, CacheOk, WorkOk, ResultsOk, AnswerOk, Extends, OutcomeOk, LeadersAt, Answered,
        OpenWorks,
           WorksOk, CallsIn, Leading, Undone, Waiting;
      var i: nat :| i < |todo|;
      var p := todo[i];
      UndoneAt(works, todo, completed, i);
      CompleteLeader(p, outcomes, completed);
      AnsweredMore(results[..], works, pending, completed, completed + {p});
      todo', ready', completed' := todo[..i] + todo[i + 1..], ready + [p], completed + {p};
      DutyDone(works, pending, todo, ready, completed, i);
    }

    // A following work waits for its call, or for the end of its context.
    method TryApply(p: nat, outcomes: map<nat, Outcome>) returns (applied: bool)
      requires Valid() && p < |works| && (works[p].leader ==> p in outcomes && AnswerOk(works[p], outcomes[p]))
      modifies this`cache, results
      ensures Valid() && Kept(old(results[..]), results[..])
      ensures applied ==> works[p].index < |items| && results[works[p].index].Some?
      ensures !applied ==>
                && !works[p].leader && works[p].call < |flights.calls| && flights.calls[works[p].call].value.None?
                && results[..] == old(results[..]) && cache == old(cache)
    {
      hide AllStored, GroupOk, FlightsOk, CacheOk, WorkOk, ResultsOk, AnswerOk, OutcomeOk, Applied, WorksOk;
      WorkAt(env, items, before, flights, works, p);
      var contextDone: bool := *;
      applied := works[p].leader || contextDone || flights.calls[works[p].call].value.Some?;
      if applied {
        ApplyOne(p, outcomes, contextDone);
      }
    }

    // A leading work applies its own outcome; a following one what its call carries, unless its
    // context has ended.
    method ApplyOne(p: nat, outcomes: map<nat, Outcome>, contextDone: bool)
      requires Valid() && p < |works| && works[p].call < |flights.calls|
      requires works[p].leader ==> p in outcomes && AnswerOk(works[p], outcomes[p])
      requires works[p].leader || contextDone || flights.calls[works[p].call].value.Some?
      modifies this`cache, results
      ensures Valid() && works[p].index < |items| && results[works[p].index].Some?
      ensures Kept(old(results[..]), results[..])
    {
      hide GroupOk, FlightsOk, CacheOk, WorkOk, ResultsOk, WorksOk, AnswerOk, OutcomeOk, Applied, Kept;
      var w := works[p];
      WorkAt(env, items, before, flights, works, p);
      if w.leader {
        AnswerFulfils(env.registry, w, outcomes[p]);
        Apply(p, outcomes[p], false);
      } else if contextDone {
        CancelFulfils(env.registry, w);
        Apply(p, Outcome(ZERO_ARTIFACT, Some(Cancelled)), true);
      } else {
        PublishedIsOutcome(env.registry, flights, w.call);
        SharedFulfils(env.registry, w, flights.calls[w.call].value.value);
        Apply(p, flights.calls[w.call].value.value, true);
      }
    }

    method CompleteLeader(p: nat, outcomes: map<nat, Outcome>, ghost completed: set<nat>)
      requires Valid() && p < |works| && works[p].leader && p !in completed
      requires LeadersAt(flights, works, completed, outcomes) && p in outcomes && AnswerOk(works[p], outcomes[p])
      modifies this`flights, this`completions
      ensures Valid() && completions == old(completions) + multiset{p}
      ensures LeadersAt(flights, works, completed + {p}, outcomes)
    {
      hide GroupOk, FlightsOk, CacheOk, WorkOk, ResultsOk, Extends;
      WorkAt(env, items, before, flights, works, p);
      LeaderOpen(flights, works, completed, outcomes, p);
      AnswerIsOutcome(env.registry, works[p], outcomes[p]);
      ghost var g := flights;
      Complete(p, outcomes[p]);
      LeadersApart(env, items, before, flights, works, p);
      LeadersAfterComplete(g, flights, works, completed, outcomes, p);
    }

    // All calls led here are completed, so a call without a value has a leader elsewhere; it is
    // still at work (FetchWorld.SomebodyIsToAnswer), and publishes.
    method AwaitForeign(p: nat, outcomes: map<nat, Outcome>, ghost completed: set<nat>)
      requires Valid() && p < |works| && works[p].call < |flights.calls| && flights.calls[works[p].call].value.None?
      requires LeadersAt(flights, works, completed, outcomes) && completed == Leading(works)
      modifies this`flights
      ensures Valid() && Rely(env.registry, old(flights), flights, works)
      ensures LeadersAt(flights, works, completed, outcomes)
      ensures OpenWorks(flights, works) < OpenWorks(old(flights), works)
    {
      hide FlightsOk, CacheOk, WorkOk, ResultsOk, Extends, AnswerOk;
      var call := works[p].call;
      WorksCalls(env, items, before, flights, works);
      OpenIsNone(env.registry, flights, call);
      NotLedHere(flights, works, outcomes, call);
      var a: Artifact := *;
      var e: Option<Error> := *;
      var o := if OutcomeOk(env.registry, flights.calls[call].key, Outcome(a, e)) then Outcome(a, e)
        else Outcome(ZERO_ARTIFACT, Some(Cancelled));
      PublishKeepsFlights(env.registry, flights, call, o);
      PublishForeign(flights, works, completed, outcomes, call, o);
      PublishIsRely(env.registry, flights, call, o, works);
      ghost var g := flights;
      RelyKeepsWorks(env, items, before, flights, PublishGroup(flights, call, o), works);
      flights := PublishGroup(flights, call, o);
      OpensFall(env.registry, g, flights, works, p);
    }
  }

  // fetch.go:206-228: the reply, from results that are all there.
  method MakeReply(results: seq<Option<ItemResult>>, worked: bool) returns (reply: FetchReply)
    requires forall i :: 0 <= i < |results| ==> results[i].Some?
    ensures |reply.items| == |results| && forall i :: 0 <= i < |results| ==> Some(reply.items[i]) == results[i]
    ensures reply.partial <==> exists i :: 0 <= i < |reply.items| && reply.items[i].error.Some?
    ensures reply.error == if reply.partial && !worked then Some(Unsupported) else None
  {
    var items: seq<ItemResult> := [];
    var partial := false;
    for i := 0 to |results|
      invariant |items| == i && forall j :: 0 <= j < i ==> Some(items[j]) == results[j]
      invariant partial <==> exists j :: 0 <= j < i && items[j].error.Some?
    {
      items := items + [results[i].value];
      if results[i].value.error.Some? {
        partial := true;
      }
    }
    reply := FetchReply(items, partial, if partial && !worked then Some(Unsupported) else None);
  }

  lemma AllHaveResults(results: seq<Option<ItemResult>>, before: seq<Option<ItemResult>>, works: seq<Work>, n: nat)
    requires n == |before| && Split(before, works, n) && Kept(before, results)
               && Answered(results, works, {}, Leading(works))
    ensures forall i :: 0 <= i < n ==> results[i].Some?
  {
    forall i | 0 <= i < n
      ensures results[i].Some?
    {
      if before[i].None? {
        var p :| 0 <= p < |works| && works[p].index == i;
        var q: nat := p;
        assert q < |works| && q !in {};
      }
    }
  }

  // A whole Fetch. Every distinct item gets one result, an artifact or an error and not both. An
  // artifact for an addressable ref has every part that any of the merged requests asked for, if it
  // came from the session or from a call led for it, and from a call joined if the keys of the
  // registered providers do not clash. Every call led here has been completed once. The session
  // loses no part of any artifact.
  method Fetch(env: Env, requests: seq<FetchRequest>, stored: Cache, flights: Flights)
    returns (reply: FetchReply, stored': Cache, flights': Flights, ghost run: FetchRun?,
             ghost traces: seq<seq<Ledger.Action>>)
    requires FlightsOk(env.registry, flights) && forall k :: k in stored ==> stored[k].ref.canonical == k
    ensures requests == [] <==> run == null
    ensures requests == [] ==>
              reply == FetchReply([], false, Some(InvalidRequest)) && stored' == stored && flights' == flights
    ensures run != null ==>
              && IsDedup(requests, run.items) && |reply.items| == |run.items|
              && (forall i :: 0 <= i < |reply.items| ==> ResultOk(env, run.items[i], reply.items[i]))
              && run.completions == multiset(Leading(run.works))
              && (forall p: nat :: p in Leading(run.works) ==>
                    run.works[p].call < |flights'.calls| && flights'.calls[run.works[p].call].phase == Removed)
    ensures FlightsOk(env.registry, flights') && CacheOk(stored, stored') && Ledger.AllPaid(traces)
    ensures forall i :: 0 <= i < |reply.items| ==> Stored(reply.items[i], stored')
    ensures reply.partial <==> exists i :: 0 <= i < |reply.items| && reply.items[i].error.Some?
    ensures run != null ==> reply.error == if reply.partial && run.works == [] then Some(Unsupported) else None
  {
    traces := [];
    Ledger.NobodyActs();
    if |requests| == 0 {
      return FetchReply([], false, Some(InvalidRequest)), stored, flights, null, traces;
    }
    hide *;
    var items := DedupFetchItems(requests);
    var r := new FetchRun(env, items, stored, flights);
    traces := r.Run();
    ValidMeans(r);
    reply := MakeReply(r.results[..], r.works != []);
    run := r;
    stored' := stored + r.cache;
    flights' := r.flights;
    MergedCache(stored, r.cache);
    ResultsAre(env, items, r.results[..], r.cache, reply.items);
  }

  lemma ValidMeans(r: FetchRun)
    requires r.Valid()
    ensures r.results.Length == |r.items| && CacheOk(r.before, r.cache) && FlightsOk(r.env.registry, r.flights)
    ensures ResultsOk(r.env, r.items, r.results[..]) && AllStored(r.results[..], r.cache)
  {
  }

  lemma NoLeaders(g: Flights)
    ensures LeadersOpen(g, [])
  {
  }

  // Writing the cache back over the stored artifacts stores the cache.
  lemma MergedCache(stored: Cache, cache: Cache)
    requires CacheOk(stored, cache)
    ensures stored + cache == cache && CacheOk(stored, stored + cache)
  {
  }

  lemma ResultsAre(env: Env, items: seq<FetchRequest>, results: seq<Option<ItemResult>>, cache: Cache,
                   out: seq<ItemResult>)
    requires ResultsOk(env, items, results) && AllStored(results, cache)
    requires |out| == |items| && forall i :: 0 <= i < |out| ==> Some(out[i]) == results[i]
    ensures forall i :: 0 <= i < |out| ==> ResultOk(env, items[i], out[i]) && Stored(out[i], cache)
  {
    hide Stored, ResultOk;
    forall i | 0 <= i < |out|
      ensures ResultOk(env, items[i], out[i]) && Stored(out[i], cache)
    {
      assert results[i].Some?;
    }
  }

  lemma LeadersDone(g: Flights, works: seq<Work>, outcomes: map<nat, Outcome>)
    requires LeadersAt(g, works, Leading(works), outcomes)
    ensures forall p: nat :: p in Leading(works) ==>
              works[p].call < |g.calls| && g.calls[works[p].call].phase == Removed
  {
  }

  // Put together with the merging of requests: whatever part some original request asked for is
  // in the artifact returned under its key.
  lemma EveryRequestIsCovered(env: Env, requests: seq<FetchRequest>, items: seq<FetchRequest>, results: seq<ItemResult>,
                              r: FetchRequest)
    requires IsDedup(requests, items) && |results| == |items|
               && forall i :: 0 <= i < |items| ==> ResultOk(env, items[i], results[i])
    requires r in requests
    ensures exists i :: 0 <= i < |items| && ItemKey(items[i].ref) == ItemKey(r.ref)
                        && (results[i].artifact.Some? <==> results[i].error.None?)
                        && (results[i].artifact.Some? && Addressable(items[i].ref)
                            && (results[i].shared ==> KeysApart(env.registry)) ==>
                              r.projection <= results[i].artifact.value.projection)
  {
    DedupCovers(requests, items);
    var i :| 0 <= i < |items| && ItemKey(items[i].ref) == ItemKey(r.ref);
    assert ResultOk(env, items[i], results[i]);
  }
}
