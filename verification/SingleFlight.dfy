// Sharing of calls in flight: internal/engine/singleflight.go. The protocol is first a state
// machine over its atomic steps, for statements about all interleavings, then an object on the
// heap whose methods are those steps.
module SingleFlight {
  import opened Wrappers

  // An open call has no value; a published one has (its done channel is closed) and is still in
  // the map; a removed one has left the map.
  datatype Phase = Open | Published | Removed

  datatype Call<K, V> = Call(key: K, phase: Phase, value: Option<V>)

  // What became of a wait: not over, the value of the call, or the waiter's own cancellation.
  datatype Wait<V> = Pending(call: nat) | Got(call: nat, value: V) | GaveUp(call: nat)

  datatype Group<K, V> = Group(m: map<K, nat>, calls: seq<Call<K, V>>)

  datatype System<K, V> = System(group: Group<K, V>, waits: seq<Wait<V>>)

  // Acquire by some client; finish up to closing the done channel; finish's removal from the map;
  // a wait that returns the value; a wait whose context is done.
  datatype Step<K, V> = Acquire(key: K) | Publish(call: nat,
      value: V) | Remove(call: nat) | Return(wait: nat) | Abandon(wait: nat)

  // ---- Steps on the group ----

  // The call a client gets, and whether it leads it.
  function AcquireGroup<K, V>(g: Group<K, V>, key: K): (Group<K, V>, nat, bool) {
    if key in g.m then (g, g.m[key], false)
    else (Group(g.m[key := |g.calls|], g.calls + [Call(key, Open, None)]), |g.calls|, true)
  }

  // once.Do lets only the first completion through.
  function PublishGroup<K, V>(g: Group<K, V>, call: nat, value: V): Group<K, V>
    requires call < |g.calls|
  {
    if g.calls[call].phase != Open then g
    else g.(calls := g.calls[call := g.calls[call].(phase := Published, value := Some(value))])
  }

  function RemoveGroup<K, V>(g: Group<K, V>, call: nat): Group<K, V>
    requires call < |g.calls| && g.calls[call].phase == Published
  {
    Group(g.m - {g.calls[call].key}, g.calls[call := g.calls[call].(phase := Removed)])
  }

  ghost predicate Enabled<K, V>(s: System<K, V>, e: Step<K, V>) {
    match e
    case Acquire(_) => true
    case Publish(call, _) => call < |s.group.calls|
    case Remove(call) => call < |s.group.calls| && s.group.calls[call].phase == Published
    case Return(w) =>
      && w < |s.waits| && s.waits[w].Pending? && s.waits[w].call < |s.group.calls|
      && s.group.calls[s.waits[w].call].value.Some?
    case Abandon(w) => w < |s.waits| && s.waits[w].Pending?
  }

  function Apply<K, V>(s: System<K, V>, e: Step<K, V>): System<K, V>
    requires Enabled(s, e)
  {
    match e
    case Acquire(key) =>
      var (g, call, _) := AcquireGroup(s.group, key);
      System(g, s.waits + [Pending(call)])
    case Publish(call, value) => s.(group := PublishGroup(s.group, call, value))
    case Remove(call) => s.(group := RemoveGroup(s.group, call))
    case Return(w) => s.(waits := s.waits[w := Got(s.waits[w].call, s.group.calls[s.waits[w].call].value.value)])
    case Abandon(w) => s.(waits := s.waits[w := GaveUp(s.waits[w].call)])
  }

  // ---- Invariants ----

  // The map holds exactly the calls that have not been removed, each under its own key.
  predicate GroupOk<K(==), V>(g: Group<K, V>) {
    && (forall k :: k in g.m ==> g.m[k] < |g.calls| && g.calls[g.m[k]].key == k && g.calls[g.m[k]].phase != Removed)
    && (forall i :: 0 <= i < |g.calls| && g.calls[i].phase != Removed ==>
        g.calls[i].key in g.m && g.m[g.calls[i].key] == i)
    && (forall i :: 0 <= i < |g.calls| ==> (g.calls[i].phase == Open <==> g.calls[i].value.None?))
  }

  ghost predicate WaitsOk<K, V>(s: System<K, V>) {
    forall w :: 0 <= w < |s.waits| ==>
      && s.waits[w].call < |s.group.calls|
      && (s.waits[w].Got? ==> s.group.calls[s.waits[w].call].value == Some(s.waits[w].value))
  }

  // Calls are never forgotten and a value, once there, stays.
  predicate Extends<K(==), V(==)>(g: Group<K, V>, h: Group<K, V>) {
    && |g.calls| <= |h.calls|
    && forall i :: 0 <= i < |g.calls| ==>
         h.calls[i].key == g.calls[i].key && (g.calls[i].value.Some? ==> h.calls[i].value == g.calls[i].value)
  }

  lemma AcquireOk<K, V>(g: Group<K, V>, key: K)
    requires GroupOk(g)
    ensures GroupOk(AcquireGroup(g, key).0) && Extends(g, AcquireGroup(g, key).0)
    ensures AcquireGroup(g, key).1 < |AcquireGroup(g, key).0.calls|
  {
  }

  lemma PublishOk<K, V>(g: Group<K, V>, call: nat, value: V)
    requires GroupOk(g) && call < |g.calls|
    ensures GroupOk(PublishGroup(g, call, value)) && Extends(g, PublishGroup(g, call, value))
  {
  }

  lemma RemoveOk<K, V>(g: Group<K, V>, call: nat)
    requires GroupOk(g) && call < |g.calls| && g.calls[call].phase == Published
    ensures GroupOk(RemoveGroup(g, call)) && Extends(g, RemoveGroup(g, call))
    ensures g.calls[call].key in g.m && g.m[g.calls[call].key] == call
  {
  }

  lemma StepKeeps<K, V>(s: System<K, V>, e: Step<K, V>)
    requires GroupOk(s.group) && WaitsOk(s) && Enabled(s, e)
    ensures GroupOk(Apply(s, e).group) && WaitsOk(Apply(s, e)) && Extends(s.group, Apply(s, e).group)
  {
    hide GroupOk;
    match e
    case Acquire(key) => AcquireOk(s.group, key);
    case Publish(call, value) => PublishOk(s.group, call, value);
    case Remove(call) => RemoveOk(s.group, call);
    case _ =>
  }

  ghost predicate CanRun<K, V>(s: System<K, V>, steps: seq<Step<K, V>>)
    decreases |steps|
  {
    steps == [] || (Enabled(s, steps[0]) && CanRun(Apply(s, steps[0]), steps[1..]))
  }

  ghost function After<K, V>(s: System<K, V>, steps: seq<Step<K, V>>): System<K, V>
    requires CanRun(s, steps)
    decreases |steps|
  {
    if steps == [] then s else After(Apply(s, steps[0]), steps[1..])
  }

  function Empty<K, V>(): System<K, V> {
    System(Group(map[], []), [])
  }

  lemma {:induction false} RunKeeps<K, V>(s: System<K, V>, steps: seq<Step<K, V>>)
    requires GroupOk(s.group) && WaitsOk(s) && CanRun(s, steps)
    ensures GroupOk(After(s, steps).group) && WaitsOk(After(s, steps)) && Extends(s.group, After(s, steps).group)
    decreases |steps|
  {
    hide GroupOk, WaitsOk, Enabled, Apply;
    if steps != [] {
      StepKeeps(s, steps[0]);
      RunKeeps(Apply(s, steps[0]), steps[1..]);
    }
  }

  // ---- Theorems over every interleaving ----

  // Two calls for one key are never uncompleted together; at most one of them is in the map.
  lemma OneCallPerKey<K, V>(steps: seq<Step<K, V>>, i: nat, j: nat)
    requires CanRun(Empty(), steps)
    requires i < |After(Empty(), steps).group.calls| && j < |After(Empty(), steps).group.calls| && i != j
    requires After(Empty(), steps).group.calls[i].key == After(Empty(), steps).group.calls[j].key
    ensures After(Empty(), steps).group.calls[i].phase == Removed
              || After(Empty(), steps).group.calls[j].phase == Removed
  {
    RunKeeps(Empty<K, V>(), steps);
  }

  // What a follower gets is what the leader of its call published, whatever happened in between:
  // a later completion of the same call changes nothing.
  lemma FollowersGetTheLeadersValue<K, V>(
    before: seq<Step<K, V>>, call: nat, value: V, after: seq<Step<K, V>>, w: nat)
    requires CanRun(Empty(), before) && call < |After(Empty(), before).group.calls|
    requires After(Empty(), before).group.calls[call].phase == Open
    requires CanRun(Apply(After(Empty(), before), Publish(call, value)), after)
    requires w < |After(Apply(After(Empty(), before), Publish(call, value)), after).waits|
    requires After(Apply(After(Empty(), before), Publish(call, value)), after).waits[w].call == call
    ensures var end := After(Apply(After(Empty(), before), Publish(call, value)), after);
            && (end.waits[w].Got? ==> end.waits[w].value == value)
            // A follower that has not been cancelled can return at once.
            && (end.waits[w].Pending? ==> Enabled(end, Return(w)))
  {
    var s := After(Empty<K, V>(), before);
    RunKeeps(Empty<K, V>(), before);
    var t := Apply(s, Publish(call, value));
    StepKeeps(s, Publish(call, value));
    RunKeeps(t, after);
  }

  // Completion takes only its own entry out of the map.
  lemma RemovalIsOwn<K, V>(steps: seq<Step<K, V>>, call: nat)
    requires CanRun(Empty(), steps) && Enabled(After(Empty(), steps), Remove(call))
    ensures var s := After(Empty(), steps);
            var t := Apply(s, Remove(call));
            && s.group.calls[call].key in s.group.m && s.group.m[s.group.calls[call].key] == call
            && t.group.m == s.group.m - {s.group.calls[call].key}
            && forall k :: k in s.group.m && s.group.m[k] != call ==> k in t.group.m && t.group.m[k] == s.group.m[k]
  {
    RunKeeps(Empty<K, V>(), steps);
  }

  // A client that asks while a call for its key is uncompleted joins that call; it leads a call
  // only if none is in the map.
  lemma JoinsTheOpenCall<K, V>(steps: seq<Step<K, V>>, call: nat)
    requires CanRun(Empty(), steps) && call < |After(Empty(), steps).group.calls|
    requires After(Empty(), steps).group.calls[call].phase == Open
    ensures var s := After(Empty(), steps);
            AcquireGroup(s.group, s.group.calls[call].key) == (s.group, call, false)
  {
    RunKeeps(Empty<K, V>(), steps);
  }

  // ---- The object ----

  class FlightCall<K(==), V> {
    const key: K
    ghost const id: nat
    var done: bool
    var val: Option<V>
    ghost var removed: bool

    constructor (key: K, ghost id: nat)
      ensures this.key == key && this.id == id && !done && val == None && !removed
    {
      this.key, this.id, done, val, removed := key, id, false, None, false;
    }

    ghost function View(): Call<K, V>
      reads this
    {
      Call(key, if !done then Open else if removed then Removed else Published, val)
    }
  }

  class FlightGroup<K(==), V> {
    var m: map<K, FlightCall<K, V>>
    ghost var calls: seq<FlightCall<K, V>>

    ghost predicate Valid()
      reads this, calls
    {
      && (forall i :: 0 <= i < |calls| ==>
          calls[i].id == i && (calls[i].done <==> calls[i].val.Some?) && (calls[i].removed ==> calls[i].done))
      && (forall k :: k in m ==> m[k] in calls)
      && GroupOk(View())
    }

    ghost function View(): Group<K, V>
      reads this, calls
    {
      Group(map k | k in m :: m[k].id, seq(|calls|, i requires 0 <= i < |calls| reads this, calls => calls[i].View()))
    }

    constructor ()
      ensures Valid() && View() == Empty<K, V>().group && fresh(this) && calls == []
    {
      m := map[];
      calls := [];
    }

    // The whole of Acquire runs under the lock.
    method Acquire(key: K) returns (leader: bool, call: FlightCall<K, V>)
      requires Valid()
      modifies this
      ensures Valid() && call in calls && call.key == key
      ensures (View(), call.id, leader) == AcquireGroup(old(View()), key)
      ensures leader ==> fresh(call)
    {
      hide GroupOk, Extends;
      AcquireOk(View(), key);
      if key in m {
        leader, call := false, m[key];
        return;
      }
      leader := true;
      call := Lead(key);
    }

    // A new call under a key that has none.
    method Lead(key: K) returns (call: FlightCall<K, V>)
      requires Valid() && key !in m
      modifies this
      ensures Valid() && call in calls && call.key == key && fresh(call)
      ensures (View(), call.id, true) == AcquireGroup(old(View()), key)
    {
      hide GroupOk, Extends;
      AcquireOk(View(), key);
      call := new FlightCall(key, |calls|);
      m := m[key := call];
      calls := calls + [call];
      assert View().calls == old(View()).calls + [Call(key, Open, None)];
      assert View().m == old(View()).m[key := |old(calls)|];
    }

    // finish, up to close(call.done), inside once.Do.
    method Publish(call: FlightCall<K, V>, value: V)
      requires Valid() && call in calls
      modifies call`done, call`val
      ensures Valid() && View() == PublishGroup(old(View()), call.id, value)
    {
      hide GroupOk;
      ghost var before := View();
      PublishOk(before, call.id, value);
      assert calls[call.id] == call;
      if !call.done {
        call.val := Some(value);
        call.done := true;
      }
      assert View().m == old(View()).m;
      forall i | 0 <= i < |calls|
        ensures View().calls[i] == PublishGroup(before, call.id, value).calls[i]
      {
      }
      assert View().calls == PublishGroup(old(View()), call.id, value).calls;
    }

    // finish, the locked removal.
    method Remove(call: FlightCall<K, V>)
      requires Valid() && call in calls && call.done && !call.removed
      modifies this`m, call`removed
      ensures Valid() && View() == RemoveGroup(old(View()), call.id)
    {
      hide GroupOk;
      RemoveOk(View(), call.id);
      assert calls[call.id] == call;
      m := m - {call.key};
      call.removed := true;
      assert View().m == old(View()).m - {call.key};
      assert View().calls == RemoveGroup(old(View()), call.id).calls;
    }

    // The wait closure: whichever of the two channels is ready; None when the context won.
    method Await(call: FlightCall<K, V>, ctxDone: bool, preferContext: bool) returns (value: Option<V>)
      requires Valid() && call in calls
      requires call.done || ctxDone
      ensures value.Some? ==> View().calls[call.id].value == value
      ensures value.None? ==> ctxDone
      ensures !ctxDone ==> value.Some?
    {
      if call.done && !(ctxDone && preferContext) {
        value := call.val;
      } else {
        value := None;
      }
    }
  }
}
