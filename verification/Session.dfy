// The session record and its snapshots: internal/session/store.go:16-120.
module Session {
  import opened Wrappers
  import opened Objects
  import opened Fusion
  import opened Requests
  import Ledger
  import Text

  datatype Continuation = Continuation(provider: string, source: string, cursor: string, hasMore: bool, pages: int)

  datatype SourceRun = SourceRun(provider: string, source: string, status: string, pages: int, hits: int)

  datatype Event = Event(id: string, session: string, time: Option<int>, kind: string)

  const MAX_EVENTS := 2000

  // Everything a record holds; Snapshot is what it looks like from outside.
  datatype Contents = Contents(
    id: string, scope: string, created: int, expires: int, request: Option<SearchRequest>,
    candidates: map<string, Candidate>, artifacts: map<string, Artifact>, relations: seq<Relation>,
    frontiers: map<string, Continuation>, runs: seq<SourceRun>, budget: Ledger.BudgetState, events: seq<Event>)

  datatype SessionSnapshot = SessionSnapshot(
    id: string, scope: string, created: int, expires: int, request: Option<SearchRequest>,
    candidates: seq<Candidate>, artifacts: seq<Artifact>, relations: seq<Relation>,
    frontiers: map<string, Continuation>, runs: seq<SourceRun>, budget: Ledger.BudgetState, events: seq<Event>)

  // ---- The order of a snapshot: by falling score, then by id ----

  datatype Rank = Rank(score: real, id: string)

  function CandidateRank(c: Candidate): Rank {
    Rank(c.score, c.ref.canonical)
  }

  function ArtifactRank(a: Artifact): Rank {
    Rank(0.0, a.ref.canonical)
  }

  predicate Before(a: Rank, b: Rank) {
    a.score > b.score || (a.score == b.score && Text.Less(a.id, b.id))
  }

  lemma BeforeIsAnOrder(a: Rank, b: Rank, c: Rank)
    ensures !(Before(a, b) && Before(b, a)) && !Before(a, a)
    ensures Before(a, b) && Before(b, c) ==> Before(a, c)
    ensures !Before(b, a) && !Before(c, b) ==> !Before(c, a)
    ensures a.id != b.id ==> Before(a, b) || Before(b, a)
  {
    Text.LessTrichotomy(a.id, b.id);
    Text.LessTrichotomy(b.id, c.id);
    Text.LessTrichotomy(a.id, c.id);
    Text.LessTrichotomy(a.id, a.id);
    if Text.Less(a.id, b.id) && Text.Less(b.id, c.id) {
      Text.LessTransitive(a.id, b.id, c.id);
    }
    if Text.Less(c.id, b.id) && Text.Less(b.id, a.id) {
      Text.LessTransitive(c.id, b.id, a.id);
    }
    if Text.Less(c.id, a.id) && Text.Less(a.id, b.id) {
      Text.LessTransitive(c.id, a.id, b.id);
    }
    if Text.Less(b.id, c.id) && Text.Less(c.id, a.id) {
      Text.LessTransitive(b.id, c.id, a.id);
    }
  }

  ghost predicate InOrder<T>(items: seq<T>, rank: T -> Rank) {
    forall i, j :: 0 <= i < j < |items| ==> !Before(rank(items[j]), rank(items[i]))
  }

  // The items are the values of the map, one for every key.
  ghost predicate Lists<T>(items: seq<T>, keys: seq<string>, m: map<string, T>) {
    && |items| == |keys| && (forall k :: k in keys <==> k in m)
    && (forall i, j :: 0 <= i < j < |keys| ==> keys[i] != keys[j])
    && (forall i :: 0 <= i < |keys| ==> keys[i] in m && items[i] == m[keys[i]])
  }

  ghost predicate DistinctIds<T>(items: seq<T>, rank: T -> Rank) {
    forall i, j :: 0 <= i < j < |items| ==> rank(items[i]).id != rank(items[j]).id
  }

  // What Snapshot returns: every candidate and artifact once, in order. Where ids repeat their
  // order may depend on the order a map is walked in.
  ghost predicate IsSnapshot(s: SessionSnapshot, r: Contents, withEvents: bool) {
    && (exists keys :: Lists(s.candidates, keys, r.candidates)) && InOrder(s.candidates, CandidateRank)
    && (exists keys :: Lists(s.artifacts, keys, r.artifacts)) && InOrder(s.artifacts, ArtifactRank)
    && s.id == r.id && s.scope == r.scope && s.created == r.created && s.expires == r.expires && s.request == r.request
    && s.relations == r.relations && s.frontiers == r.frontiers && s.runs == r.runs && s.budget == r.budget
    && s.events == if withEvents then r.events else []
  }

  // The map Restore builds: keyed by the items' own ids, the last one winning.
  function ById<T>(items: seq<T>, rank: T -> Rank): map<string, T> {
    if items == [] then map[]
    else
      var last := items[|items| - 1];
      ById(items[..|items| - 1], rank)[rank(last).id := last]
  }

  function Restored(s: SessionSnapshot): Contents {
    Contents(s.id, s.scope, s.created, s.expires, s.request, ById(s.candidates, CandidateRank),
             ById(s.artifacts, ArtifactRank),
             s.relations, s.frontiers, s.runs, s.budget, s.events)
  }

  // The invariant of all that is stored by the engine: every key is the id of what it leads to.
  ghost predicate KeyedByIds<T>(m: map<string, T>, rank: T -> Rank) {
    forall k :: k in m ==> rank(m[k]).id == k
  }

  // ---- Snapshot and restore ----

  lemma {:induction false} ByIdOfDistinct<T>(items: seq<T>, rank: T -> Rank)
    ensures forall k :: k in ById(items, rank) ==> ById(items, rank)[k] in items && rank(ById(items, rank)[k]).id == k
    ensures forall x :: x in items ==> rank(x).id in ById(items, rank)
    ensures DistinctIds(items, rank) ==> forall x :: x in items ==> ById(items, rank)[rank(x).id] == x
    ensures |ById(items, rank)| <= |items|
    ensures |ById(items, rank)| == |items| <==> DistinctIds(items, rank)
  {
    if items != [] {
      var front, last := items[..|items| - 1], items[|items| - 1];
      assert items == front + [last];
      ByIdOfDistinct(front, rank);
      var m := ById(front, rank);
      var k := rank(last).id;
      if k in m {
        assert m[k := last].Keys == m.Keys;
        var i :| 0 <= i < |front| && front[i] == m[k];
        assert rank(items[i]).id == rank(items[|front|]).id;
        assert !DistinctIds(items, rank);
      } else {
        assert m[k := last].Keys == m.Keys + {k};
        DistinctAppend(front, last, rank);
      }
    }
  }

  lemma DistinctAppend<T>(front: seq<T>, last: T, rank: T -> Rank)
    requires forall x :: x in front ==> rank(x).id != rank(last).id
    ensures DistinctIds(front + [last], rank) <==> DistinctIds(front, rank)
  {
    var all := front + [last];
    if DistinctIds(all, rank) {
      assert forall i :: 0 <= i < |front| ==> all[i] == front[i];
    }
  }

  // Two lists in order with the same elements, all of different ids, are equal.
  lemma {:induction false} OrderIsUnique<T>(a: seq<T>, b: seq<T>, rank: T -> Rank)
    requires InOrder(a, rank) && InOrder(b, rank) && DistinctIds(a, rank) && DistinctIds(b, rank)
    requires forall x :: x in a <==> x in b
    ensures a == b
  {
    hide Before;
    assert a != [] ==> a[0] in a;
    assert b != [] ==> b[0] in b;
    if a != [] && b != [] {
      FirstIsLeast(a, b, rank);
      assert a == [a[0]] + a[1..] && b == [b[0]] + b[1..];
      forall x
        ensures x in a[1..] <==> x in b[1..]
      {
        if x in a[1..] {
          assert x in b;
          NotFirst(a, rank, x);
        }
        if x in b[1..] {
          assert x in a;
          NotFirst(b, rank, x);
        }
      }
      OrderIsUnique(a[1..], b[1..], rank);
    }
  }

  lemma NotFirst<T>(a: seq<T>, rank: T -> Rank, x: T)
    requires a != [] && DistinctIds(a, rank) && x in a[1..]
    ensures x != a[0]
  {
    var i :| 0 <= i < |a[1..]| && a[1..][i] == x;
    assert rank(a[0]).id != rank(a[i + 1]).id;
  }

  lemma FirstIsLeast<T>(a: seq<T>, b: seq<T>, rank: T -> Rank)
    requires InOrder(a, rank) && InOrder(b, rank) && DistinctIds(a, rank) && DistinctIds(b, rank) && a != [] && b != []
    requires forall x :: x in a <==> x in b
    ensures a[0] == b[0]
  {
    hide Before;
    var x, y := a[0], b[0];
    assert x in a && y in b;
    assert x in b && y in a;
    FirstOrBehind(a, rank, y);
    FirstOrBehind(b, rank, x);
    BeforeIsAnOrder(rank(x), rank(y), rank(y));
  }

  lemma FirstOrBehind<T>(a: seq<T>, rank: T -> Rank, x: T)
    requires InOrder(a, rank) && DistinctIds(a, rank) && x in a
    ensures x == a[0] || (rank(a[0]).id != rank(x).id && !Before(rank(x), rank(a[0])))
  {
    hide Before;
    var i :| 0 <= i < |a| && a[i] == x;
    assert i == 0 || 0 < i;
  }

  lemma ListedElements<T>(items: seq<T>, keys: seq<string>, m: map<string, T>)
    requires Lists(items, keys, m)
    ensures |items| == |m| && (forall x :: x in items <==> exists k :: k in m && m[k] == x)
  {
    KeyCount(keys);
    assert (set k | k in keys) == m.Keys;
    forall x
      ensures x in items <==> exists k :: k in m && m[k] == x
    {
      if x in items {
        var i :| 0 <= i < |items| && items[i] == x;
        assert keys[i] in m && m[keys[i]] == x;
      }
      if k :| k in m && m[k] == x {
        assert k in keys;
        var i :| 0 <= i < |keys| && keys[i] == k;
        assert items[i] == x;
      }
    }
  }

  lemma {:induction false} KeyCount(keys: seq<string>)
    requires forall i, j :: 0 <= i < j < |keys| ==> keys[i] != keys[j]
    ensures |set k | k in keys| == |keys|
  {
    if keys != [] {
      var front, last := keys[..|keys| - 1], keys[|keys| - 1];
      assert keys == front + [last];
      KeyCount(front);
      assert (set k | k in keys) == (set k | k in front) + {last};
    }
  }

  // Listing what was restored from a list gives the list back if and only if its ids differ.
  lemma ListRoundTrip<T>(items: seq<T>, again: seq<T>, keys: seq<string>, rank: T -> Rank)
    requires InOrder(items, rank) && InOrder(again, rank) && Lists(again, keys, ById(items, rank))
    ensures again == items <==> DistinctIds(items, rank)
  {
    hide InOrder, Lists;
    ByIdOfDistinct(items, rank);
    ListedElements(again, keys, ById(items, rank));
    if DistinctIds(items, rank) {
      forall x
        ensures x in again <==> x in items
      {
        if x in items {
          assert ById(items, rank)[rank(x).id] == x;
        }
      }
      ByIdLength(again, items, rank);
      OrderIsUnique(again, items, rank);
    }
  }

  lemma ByIdLength<T>(again: seq<T>, items: seq<T>, rank: T -> Rank)
    requires |again| == |items| && (forall x :: x in again <==> x in items) && DistinctIds(items, rank)
    ensures DistinctIds(again, rank)
  {
    ByIdOfDistinct(again, rank);
    ByIdOfDistinct(items, rank);
    forall k
      ensures k in ById(again, rank) <==> k in ById(items, rank)
    {
      if k in ById(again, rank) {
        assert ById(again, rank)[k] in items;
      }
      if k in ById(items, rank) {
        assert ById(items, rank)[k] in again;
      }
    }
    assert ById(again, rank).Keys == ById(items, rank).Keys;
    assert |ById(again, rank).Keys| == |ById(items, rank).Keys|;
  }

  // A snapshot survives being restored and taken again exactly when the stored candidates have
  // different ids, and so have the stored artifacts.
  lemma SnapshotRoundTrip(r: Contents, s: SessionSnapshot, t: SessionSnapshot, withEvents: bool)
    requires IsSnapshot(s, r, withEvents) && IsSnapshot(t, Restored(s), withEvents)
    ensures t == s <==> DistinctIds(s.candidates, CandidateRank) && DistinctIds(s.artifacts, ArtifactRank)
  {
    hide InOrder, Lists, DistinctIds;
    var k1 :| Lists(t.candidates, k1, Restored(s).candidates);
    var k2 :| Lists(t.artifacts, k2, Restored(s).artifacts);
    ListRoundTrip(s.candidates, t.candidates, k1, CandidateRank);
    ListRoundTrip(s.artifacts, t.artifacts, k2, ArtifactRank);
  }

  // It is so for every record keyed by ids, the invariant of all the engine's operations.
  lemma KeyedRecordsRoundTrip(r: Contents, s: SessionSnapshot, t: SessionSnapshot, withEvents: bool)
    requires KeyedByIds(r.candidates, CandidateRank) && KeyedByIds(r.artifacts, ArtifactRank)
    requires IsSnapshot(s, r, withEvents) && IsSnapshot(t, Restored(s), withEvents)
    ensures t == s
    ensures Restored(s) == if withEvents then r else r.(events := [])
  {
    hide InOrder, Lists, DistinctIds, KeyedByIds;
    var k1 :| Lists(s.candidates, k1, r.candidates);
    var k2 :| Lists(s.artifacts, k2, r.artifacts);
    KeyedIsDistinct(s.candidates, k1, r.candidates, CandidateRank);
    KeyedIsDistinct(s.artifacts, k2, r.artifacts, ArtifactRank);
    SnapshotRoundTrip(r, s, t, withEvents);
  }

  lemma KeyedIsDistinct<T>(items: seq<T>, keys: seq<string>, m: map<string, T>, rank: T -> Rank)
    requires KeyedByIds(m, rank) && Lists(items, keys, m)
    ensures DistinctIds(items, rank) && ById(items, rank) == m
  {
    assert forall i :: 0 <= i < |items| ==> rank(items[i]).id == keys[i];
    ByIdOfDistinct(items, rank);
    ListedElements(items, keys, m);
    forall k
      ensures k in ById(items, rank) <==> k in m
      ensures k in m ==> ById(items, rank)[k] == m[k]
    {
      if k in m {
        assert m[k] in items;
      }
    }
  }

  // ---- Events ----

  function Push(events: seq<Event>, e: Event): seq<Event> {
    var more := events + [e];
    if |more| > MAX_EVENTS then more[|more| - MAX_EVENTS..] else more
  }

  function Pushed(events: seq<Event>, added: seq<Event>): seq<Event> {
    if added == [] then events else Push(Pushed(events, added[..|added| - 1]), added[|added| - 1])
  }

  function Newest(events: seq<Event>): seq<Event> {
    if |events| > MAX_EVENTS then events[|events| - MAX_EVENTS..] else events
  }

  // However many events are added, the stored ones are the newest of the whole history.
  lemma {:induction false} EventsAreTheNewest(events: seq<Event>, added: seq<Event>)
    requires added != [] || |events| <= MAX_EVENTS
    ensures Pushed(events, added) == Newest(events + added)
  {
    if added == [] {
      assert events + added == events;
    } else {
      var front, last := added[..|added| - 1], added[|added| - 1];
      assert events + added == (events + front) + [last];
      if front == [] {
        assert events + front == events;
      } else {
        EventsAreTheNewest(events, front);
      }
    }
  }

  // ---- The record ----

  class Record {
    var id: string
    var scope: string
    var created: int
    var expires: int
    var request: Option<SearchRequest>
    var candidates: map<string, Candidate>
    var artifacts: map<string, Artifact>
    var relations: seq<Relation>
    var frontiers: map<string, Continuation>
    var runs: seq<SourceRun>
    var budget: Ledger.BudgetState
    var events: seq<Event>

    ghost function View(): Contents
      reads this
    {
      Contents(id, scope, created, expires, request, candidates, artifacts, relations, frontiers, runs, budget, events)
    }

    // NewRecord
    constructor (id: string, scope: string, now: int, ttl: int)
      ensures View() == Contents(id, scope, now, now + ttl, None, map[], map[], [], map[], [],
                                 Ledger.BudgetState(0, 0, 0, 0, Ledger.NOTHING, None), [])
    {
      this.id, this.scope, created, expires, request := id, scope, now, now + ttl, None;
      candidates, artifacts, relations, frontiers, runs, events := map[], map[], [], map[], [], [];
      budget := Ledger.BudgetState(0, 0, 0, 0, Ledger.NOTHING, None);
    }

    constructor Restore(s: SessionSnapshot)
      ensures View() == Restored(s)
    {
      id, scope, created, expires, request := s.id, s.scope, s.created, s.expires, s.request;
      relations, frontiers, runs, budget, events := s.relations, s.frontiers, s.runs, s.budget, s.events;
      candidates, artifacts := map[], map[];
      new;
      candidates := IndexById(s.candidates, CandidateRank);
      artifacts := IndexById(s.artifacts, ArtifactRank);
    }

    method Snapshot(withEvents: bool) returns (s: SessionSnapshot)
      ensures IsSnapshot(s, View(), withEvents)
    {
      var cs, k1 := ListInOrder(candidates, CandidateRank);
      var items, k2 := ListInOrder(artifacts, ArtifactRank);
      s := SessionSnapshot(id, scope, created, expires, request, cs, items, relations, frontiers, runs, budget,
                    if withEvents then events else []);
    }

    // Missing fields of the event are filled in; newId and now stand for the generator and clock.
    method AddEvent(e: Event, newId: string, now: int)
      modifies this`events
      ensures events == Push(old(events), Filled(e, id, newId, now))
    {
      var event := e;
      if event.id == "" {
        event := event.(id := newId);
      }
      if event.session == "" {
        event := event.(session := id);
      }
      if event.time == None {
        event := event.(time := Some(now));
      }
      events := events + [event];
      if |events| > MAX_EVENTS {
        events := events[|events| - MAX_EVENTS..];
      }
    }
  }

  function Filled(e: Event, session: string, newId: string, now: int): Event {
    Event(if e.id == "" then newId else e.id, if e.session == "" then session else e.session,
          if e.time == None then Some(now) else e.time, e.kind)
  }

  method IndexById<T>(items: seq<T>, rank: T -> Rank) returns (m: map<string, T>)
    ensures m == ById(items, rank)
  {
    m := map[];
    for i := 0 to |items|
      invariant m == ById(items[..i], rank)
    {
      assert items[..i + 1][..i] == items[..i];
      m := m[rank(items[i]).id := items[i]];
    }
    assert items[..|items|] == items;
  }

  // The values of a map, walked in an arbitrary order and sorted.
  method ListInOrder<T>(m: map<string, T>, rank: T -> Rank) returns (items: seq<T>, ghost keys: seq<string>)
    ensures Lists(items, keys, m) && InOrder(items, rank)
  {
    hide Lists, InOrder;
    items, keys := [], [];
    NothingListed(m, rank);
    var left := m.Keys;
    while left != {}
      invariant left <= m.Keys && InOrder(items, rank) && Lists(items, keys, m - left)
    {
      var k :| k in left;
      var at := |items|;
      while at > 0 && Before(rank(m[k]), rank(items[at - 1]))
        invariant 0 <= at <= |items|
        invariant forall j :: at <= j < |items| ==> Before(rank(m[k]), rank(items[j]))
      {
        at := at - 1;
      }
      PutInOrder(items, at, m[k], rank);
      PutInList(items, keys, m - left, at, k, m[k]);
      assert (m - left)[k := m[k]] == m - (left - {k});
      ListsLength(items, keys, m - left);
      items, keys := items[..at] + [m[k]] + items[at..], keys[..at] + [k] + keys[at..];
      left := left - {k};
    }
    assert m - left == m;
  }

  lemma NothingListed<T>(m: map<string, T>, rank: T -> Rank)
    ensures Lists([], [], m - m.Keys) && InOrder<T>([], rank)
  {
  }

  lemma ListsLength<T>(items: seq<T>, keys: seq<string>, m: map<string, T>)
    requires Lists(items, keys, m)
    ensures |keys| == |items|
  {
  }

  lemma PutInOrder<T>(items: seq<T>, at: nat, x: T, rank: T -> Rank)
    requires InOrder(items, rank) && at <= |items|
               && (forall j :: at <= j < |items| ==> Before(rank(x), rank(items[j])))
    requires at > 0 ==> !Before(rank(x), rank(items[at - 1]))
    ensures InOrder(items[..at] + [x] + items[at..], rank)
  {
    hide Before;
    var more := items[..at] + [x] + items[at..];
    forall j | 0 <= j < |items|
      ensures if j < at then !Before(rank(x), rank(items[j])) else !Before(rank(items[j]), rank(x))
    {
      BeforeIsAnOrder(rank(x), rank(items[j]), rank(x));
      if j < at {
        BeforeIsAnOrder(rank(items[j]), rank(items[at - 1]), rank(x));
      }
    }
    assert forall j :: 0 <= j < at ==> more[j] == items[j];
    assert forall j :: at < j < |more| ==> more[j] == items[j - 1];
    assert more[at] == x;
  }

  lemma PutInList<T>(items: seq<T>, keys: seq<string>, m: map<string, T>, at: nat, k: string, x: T)
    requires Lists(items, keys, m) && at <= |items| && k !in m
    ensures Lists(items[..at] + [x] + items[at..], keys[..at] + [k] + keys[at..], m[k := x])
  {
    var more, values := keys[..at] + [k] + keys[at..], items[..at] + [x] + items[at..];
    PutInKeys(keys, at, k);
    forall i | 0 <= i < |more|
      ensures more[i] in m[k := x] && values[i] == m[k := x][more[i]]
    {
      PutAt(keys, at, k, i);
      PutAt(items, at, x, i);
    }
  }

  lemma PutInKeys(keys: seq<string>, at: nat, k: string)
    requires at <= |keys| && k !in keys && forall i, j :: 0 <= i < j < |keys| ==> keys[i] != keys[j]
    ensures var more := keys[..at] + [k] + keys[at..];
            && (forall y :: y in more <==> y == k || y in keys)
            && (forall i, j :: 0 <= i < j < |more| ==> more[i] != more[j])
  {
    var more := keys[..at] + [k] + keys[at..];
    assert keys == keys[..at] + keys[at..];
    forall y
      ensures y in more <==> y == k || y in keys
    {
      assert y in keys <==> y in keys[..at] || y in keys[at..];
    }
    forall i, j | 0 <= i < j < |more|
      ensures more[i] != more[j]
    {
      PutAt(keys, at, k, i);
      PutAt(keys, at, k, j);
    }
  }

  lemma PutAt<T>(keys: seq<T>, at: nat, k: T, i: nat)
    requires at <= |keys| && i <= |keys|
    ensures (keys[..at] + [k] + keys[at..])[i] == if i < at then keys[i] else if i == at then k else keys[i - 1]
  {
  }
}
