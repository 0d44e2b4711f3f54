// One candidate for every canonical id, whatever order the finds arrive in: the merge loop of
// internal/fusion/fusion.go:201-209.
module Collect {
  import opened Fusion

  function Collected(env: Env, scope: string, all: seq<Candidate>): map<string, Candidate> {
    if all == [] then map[]
    else
      var merged, c := Collected(env, scope, all[..|all| - 1]), Canonicalize(env, all[|all| - 1], scope);
      var id := c.ref.canonical;
      if id in merged then merged[id := Merge(merged[id], c)] else merged[id := c]
  }

  method MergeLoop(env: Env, scope: string, all: seq<Candidate>) returns (merged: map<string, Candidate>)
    ensures merged == Collected(env, scope, all)
  {
    merged := map[];
    for i := 0 to |all|
      invariant merged == Collected(env, scope, all[..i])
    {
      assert all[..i + 1][..i] == all[..i];
      var c := Canonicalize(env, all[i], scope);
      var id := c.ref.canonical;
      merged := merged[id := if id in merged then Merge(merged[id], c) else c];
    }
    assert all[..|all|] == all;
  }

  function IdOf(env: Env, scope: string, c: Candidate): string {
    Canonicalize(env, c, scope).ref.canonical
  }

  // Every canonical id in the input has exactly one candidate, stored under that id.
  lemma {:induction false} OneCandidatePerId(env: Env, scope: string, all: seq<Candidate>)
    ensures forall id :: id in Collected(env, scope, all) <==>
              exists i :: 0 <= i < |all| && IdOf(env, scope, all[i]) == id
    ensures forall id :: id in Collected(env, scope, all) ==>
              Collected(env, scope, all)[id].ref.canonical == id
                && Canonical(env, Collected(env, scope, all)[id], scope)
  {
    hide Canonical, Merge, Canonicalize;
    if all != [] {
      var front, last := all[..|all| - 1], all[|all| - 1];
      OneCandidatePerId(env, scope, front);
      CanonicalizeIsCanonical(env, last, scope);
      var merged, c := Collected(env, scope, front), Canonicalize(env, last, scope);
      var id := c.ref.canonical;
      if id in merged {
        MergeStaysCanonical(env, merged[id], c, scope);
      }
      forall k
        ensures k in Collected(env, scope, all) <==> exists i :: 0 <= i < |all| && IdOf(env, scope, all[i]) == k
      {
        if k in Collected(env, scope, all) {
          if k == id {
            assert IdOf(env, scope, all[|all| - 1]) == k;
          } else {
            var i :| 0 <= i < |front| && IdOf(env, scope, front[i]) == k;
            assert IdOf(env, scope, all[i]) == k;
          }
        }
        if i :| 0 <= i < |all| && IdOf(env, scope, all[i]) == k {
          if i < |front| {
            assert IdOf(env, scope, front[i]) == k;
          }
        }
      }
    }
  }

  // ---- The finds of one object ----

  function Group(env: Env, scope: string, all: seq<Candidate>, id: string): seq<Candidate> {
    if all == [] then []
    else
      var front, c := Group(env, scope, all[..|all| - 1], id), Canonicalize(env, all[|all| - 1], scope);
      if c.ref.canonical == id then front + [c] else front
  }

  function MergeAll(group: seq<Candidate>): Candidate
    requires group != []
  {
    if |group| == 1 then group[0] else Merge(MergeAll(group[..|group| - 1]), group[|group| - 1])
  }

  lemma {:induction false} CollectedIsMergedGroup(env: Env, scope: string, all: seq<Candidate>, id: string)
    ensures id in Collected(env, scope, all) <==> Group(env, scope, all, id) != []
    ensures id in Collected(env, scope, all) ==> Collected(env, scope, all)[id] == MergeAll(Group(env, scope, all, id))
  {
    hide Merge, Canonicalize;
    if all != [] {
      CollectedIsMergedGroup(env, scope, all[..|all| - 1], id);
      var front := Group(env, scope, all[..|all| - 1], id);
      var c := Canonicalize(env, all[|all| - 1], scope);
      assert (front + [c])[..|front|] == front;
    }
  }

  // What counts of a merged group, in terms of its members only.
  ghost predicate Sums(m: Candidate, group: seq<Candidate>) {
    && (forall p :: p in m.projection <==> exists c :: c in group && p in c.projection)
    && (forall p :: p in m.available <==> exists c :: c in group && p in c.available)
    && (forall c :: c in group && c.timestamp.Some? ==> m.timestamp.Some? && c.timestamp.value <= m.timestamp.value)
    && (m.timestamp.Some? ==> exists c :: c in group && c.timestamp == m.timestamp)
  }

  ghost function AllDiscoveries(group: seq<Candidate>): set<Discovery> {
    set c, d | c in group && d in c.discoveredBy :: d
  }

  lemma SumsOfOne(c: Candidate)
    ensures Sums(c, [c])
  {
  }

  lemma SumsGrow(m: Candidate, group: seq<Candidate>, c: Candidate)
    requires Sums(m, group)
    ensures Sums(Merge(m, c), group + [c])
  {
    hide MergeDiscoveries;
    var more, r := group + [c], Merge(m, c);
    assert c in more && forall x :: x in group ==> x in more;
    assert forall x :: x in more ==> x in group || x == c;
    forall p
      ensures p in r.projection <==> exists x :: x in more && p in x.projection
      ensures p in r.available <==> exists x :: x in more && p in x.available
    {
    }
    if r.timestamp.Some? && r.timestamp == m.timestamp {
      var x :| x in group && x.timestamp == m.timestamp;
      assert x in more;
    }
  }

  lemma DiscoveriesGrow(group: seq<Candidate>, c: Candidate)
    ensures AllDiscoveries(group + [c]) == AllDiscoveries(group) + Pool(c.discoveredBy)
  {
    var more := group + [c];
    forall d
      ensures d in AllDiscoveries(more) <==> d in AllDiscoveries(group) + Pool(c.discoveredBy)
    {
      if d in c.discoveredBy {
        assert c in more;
      }
      if x :| x in group && d in x.discoveredBy {
        assert x in more;
      }
    }
  }

  lemma OwnBest(ds: seq<Discovery>)
    ensures forall d :: d in ds ==> Beaten(ds, d)
  {
  }

  lemma {:induction false} MergedGroup(group: seq<Candidate>)
    requires group != []
    ensures Sums(MergeAll(group), group)
    ensures |group| > 1 ==> IsBest(MergeAll(group).discoveredBy, AllDiscoveries(group))
  {
    hide Sums, IsBest, MergeDiscoveries, Merge, AllDiscoveries;
    if |group| == 1 {
      assert group == [group[0]];
      SumsOfOne(group[0]);
    } else {
      var front, last := group[..|group| - 1], group[|group| - 1];
      assert group == front + [last];
      MergedGroup(front);
      SumsGrow(MergeAll(front), front, last);
      DiscoveriesGrow(front, last);
      if |front| == 1 {
        OneFind(front[0]);
        assert front == [front[0]];
        OwnBest(front[0].discoveredBy);
        MergeBest(front[0].discoveredBy, Pool(front[0].discoveredBy), last.discoveredBy);
        MergedDiscoveries(front[0], last);
      } else {
        BestParts(MergeAll(front).discoveredBy, AllDiscoveries(front));
        MergeBest(MergeAll(front).discoveredBy, AllDiscoveries(front), last.discoveredBy);
        MergedDiscoveries(MergeAll(front), last);
      }
    }
  }

  lemma OneFind(c: Candidate)
    ensures AllDiscoveries([c]) == Pool(c.discoveredBy)
    ensures forall d :: d in c.discoveredBy ==> d in Pool(c.discoveredBy)
  {
  }

  lemma MergedDiscoveries(a: Candidate, b: Candidate)
    ensures Merge(a, b).discoveredBy == MergeDiscoveries(a.discoveredBy, b.discoveredBy)
  {
  }

  lemma BestParts(out: seq<Discovery>, pool: set<Discovery>)
    requires IsBest(out, pool)
    ensures (forall d :: d in out ==> d in pool) && forall d :: d in pool ==> Beaten(out, d)
  {
  }

  // ---- Arrival order ----

  lemma {:induction false} GroupOfConcat(env: Env, scope: string, a: seq<Candidate>, b: seq<Candidate>, id: string)
    ensures Group(env, scope, a + b, id) == Group(env, scope, a, id) + Group(env, scope, b, id)
  {
    hide Canonicalize;
    if b == [] {
      assert a + b == a;
    } else {
      var front, last := b[..|b| - 1], b[|b| - 1];
      GroupOfConcat(env, scope, a, front, id);
      assert (a + b)[..|a + b| - 1] == a + front;
    }
  }

  // Where the last element of a is in a rearrangement of a.
  lemma LastRemoved<T>(a: seq<T>, b: seq<T>) returns (before: seq<T>, after: seq<T>)
    requires multiset(a) == multiset(b) && a != []
    ensures b == before + [a[|a| - 1]] + after && multiset(a[..|a| - 1]) == multiset(before + after)
  {
    var front, last := a[..|a| - 1], a[|a| - 1];
    assert a == front + [last];
    assert last in multiset(b);
    var j :| 0 <= j < |b| && b[j] == last;
    before, after := b[..j], b[j + 1..];
    assert b == before + [last] + after;
    assert multiset(a) == multiset(front) + multiset{last};
    assert multiset(b) == multiset(before) + multiset{last} + multiset(after);
    assert multiset(front) == multiset(a) - multiset{last};
    assert multiset(before + after) == multiset(b) - multiset{last};
  }

  // Rearranging the input rearranges the finds of each object.
  lemma {:induction false} GroupOfPermutation(env: Env, scope: string, a: seq<Candidate>, b: seq<Candidate>, id: string)
    requires multiset(a) == multiset(b)
    ensures multiset(Group(env, scope, a, id)) == multiset(Group(env, scope, b, id))
    decreases |a|
  {
    hide Canonicalize, Group;
    if a == [] {
      assert |multiset(b)| == 0;
      assert b == [];
    } else {
      var front, last := a[..|a| - 1], a[|a| - 1];
      assert a == front + [last];
      var before, after := LastRemoved(a, b);
      GroupOfPermutation(env, scope, front, before + after, id);
      GroupOfConcat(env, scope, front, [last], id);
      GroupOfConcat(env, scope, before + [last], after, id);
      GroupOfConcat(env, scope, before, [last], id);
      GroupOfConcat(env, scope, before, after, id);
    }
  }

  // What feeds the rank score, the projection and the recency bonus.
  ghost predicate SameStanding(a: Candidate, b: Candidate) {
    && SameRanks(a.discoveredBy, b.discoveredBy)
    && a.projection == b.projection && a.available == b.available && a.timestamp == b.timestamp
  }

  lemma SameSums(a: Candidate, b: Candidate, g: seq<Candidate>, h: seq<Candidate>)
    requires Sums(a, g) && Sums(b, h) && (forall c :: c in g <==> c in h)
    ensures a.projection == b.projection && a.available == b.available && a.timestamp == b.timestamp
  {
    assert forall p :: p in a.projection <==> p in b.projection;
    assert forall p :: p in a.available <==> p in b.available;
    if a.timestamp.Some? {
      var c :| c in g && c.timestamp == a.timestamp;
      assert c in h;
    }
    if b.timestamp.Some? {
      var c :| c in h && c.timestamp == b.timestamp;
      assert c in g;
    }
  }

  lemma SameMembersSameStanding(g: seq<Candidate>, h: seq<Candidate>)
    requires multiset(g) == multiset(h) && g != [] && h != []
    ensures SameStanding(MergeAll(g), MergeAll(h))
  {
    hide Sums, IsBest, Merge;
    forall c
      ensures c in g <==> c in h
    {
      assert c in multiset(g) <==> c in multiset(h);
    }
    MergedGroup(g);
    MergedGroup(h);
    SameSums(MergeAll(g), MergeAll(h), g, h);
    assert |multiset(g)| == |multiset(h)|;
    if |g| == 1 {
      assert g[0] in h;
      assert h == [h[0]] && g == [g[0]];
    } else {
      assert AllDiscoveries(g) == AllDiscoveries(h);
      BestRanksAreUnique(MergeAll(g).discoveredBy, MergeAll(h).discoveredBy, AllDiscoveries(g));
    }
  }

  // Whatever order the finds arrive in, every object gets the same best rank for each provider
  // and source, the same projections and the same latest timestamp.
  lemma ArrivalOrderIsIrrelevant(env: Env, scope: string, a: seq<Candidate>, b: seq<Candidate>)
    requires multiset(a) == multiset(b)
    ensures Collected(env, scope, a).Keys == Collected(env, scope, b).Keys
    ensures forall id :: id in Collected(env, scope, a) ==>
              SameStanding(Collected(env, scope, a)[id], Collected(env, scope, b)[id])
  {
    hide SameStanding, Collected, Group, MergeAll;
    forall id
      ensures id in Collected(env, scope, a).Keys <==> id in Collected(env, scope, b).Keys
      ensures id in Collected(env, scope, a) ==>
                SameStanding(Collected(env, scope, a)[id], Collected(env, scope, b)[id])
    {
      GroupOfPermutation(env, scope, a, b, id);
      CollectedIsMergedGroup(env, scope, a, id);
      CollectedIsMergedGroup(env, scope, b, id);
      var g, h := Group(env, scope, a, id), Group(env, scope, b, id);
      assert |multiset(g)| == |multiset(h)|;
      if g != [] {
        SameMembersSameStanding(g, h);
      }
    }
  }
}
