// Whether the order in which finds arrive can change the rank score of an object, and exactly when:
// internal/fusion/fusion.go:170-189 and 211-224.
module ArrivalOrder {
  import opened Fusion
  import opened Collect
  import Text

  // ---- Which discovery of a key stays ----

  // d is what the find c has for its key: the first of least rank.
  ghost predicate Own(c: Candidate, d: Discovery) {
    DiscoveryKey(d) in BestMap(c.discoveredBy) && BestMap(c.discoveredBy)[DiscoveryKey(d)] == d
  }

  // No find has a better rank for the key of d.
  ghost predicate Least(group: seq<Candidate>, d: Discovery) {
    forall e :: e in AllDiscoveries(group) && DiscoveryKey(e) == DiscoveryKey(d) ==> d.rank <= e.rank
  }

  // Some find contributes d, and no find has a better rank.
  ghost predicate Top(group: seq<Candidate>, d: Discovery) {
    Least(group, d) && exists c :: c in group && Own(c, d)
  }

  // Of two lists, the first keeps a key unless the second has a better rank for it.
  lemma {:induction false} BestOfTwo(a: seq<Discovery>, b: seq<Discovery>, k: string)
    ensures k in BestMap(a + b) <==> k in BestMap(a) || k in BestMap(b)
    ensures k in BestMap(a + b) ==>
              BestMap(a + b)[k] == if k in BestMap(a) && (k in BestMap(b) ==> BestMap(a)[k].rank <= BestMap(b)[k].rank)
                then BestMap(a)[k]
                                   else BestMap(b)[k]
  {
    hide DiscoveryKey;
    if b == [] {
      assert a + b == a;
    } else {
      BestOfTwo(a, b[..|b| - 1], k);
      assert (a + b)[..|a + b| - 1] == a + b[..|b| - 1];
    }
  }

  lemma DistinctIsOwn(out: seq<Discovery>, d: Discovery)
    requires Increasing(KeysOf(out)) && d in out
    ensures DiscoveryKey(d) in BestMap(out) && BestMap(out)[DiscoveryKey(d)] == d
  {
    hide DiscoveryKey, BestMap, Text.Less;
    BestMapIsBest(out);
    var e := BestMap(out)[DiscoveryKey(d)];
    var i :| 0 <= i < |out| && out[i] == d;
    var j :| 0 <= j < |out| && out[j] == e;
    assert KeysOf(out)[i] == KeysOf(out)[j];
    Text.LessTrichotomy(KeysOf(out)[i], KeysOf(out)[i]);
  }

  // Taking the best of what is the best already changes nothing.
  lemma BestTwice(ds: seq<Discovery>, k: string)
    ensures k in BestMap(BestOf(ds)) <==> k in BestMap(ds)
    ensures k in BestMap(ds) ==> BestMap(BestOf(ds))[k] == BestMap(ds)[k]
  {
    hide DiscoveryKey, BestMap, SortedKeys, Increasing;
    SortedKeysAreTheKeys(ds);
    BestOfIsBest(ds);
    BestMapIsBest(ds);
    BestMapIsBest(BestOf(ds));
    if k in BestMap(ds) {
      var i :| 0 <= i < |SortedKeys(ds)| && SortedKeys(ds)[i] == k;
      assert BestOf(ds)[i] == BestMap(ds)[k];
      DistinctIsOwn(BestOf(ds), BestMap(ds)[k]);
    }
    if k in BestMap(BestOf(ds)) {
      var d := BestMap(BestOf(ds))[k];
      assert d in ds by { assert d in Pool(ds); }
    }
  }

  // Merging two candidates, of one key.
  lemma MergedEntry(a: Candidate, b: Candidate, k: string)
    ensures var m, x, y := BestMap(Merge(a, b).discoveredBy), BestMap(a.discoveredBy), BestMap(b.discoveredBy);
            && (k in m <==> k in x || k in y)
            && (k in m ==> m[k] == if k in x && (k in y ==> x[k].rank <= y[k].rank) then x[k] else y[k])
  {
    hide BestMap, BestOf;
    MergedDiscoveries(a, b);
    BestTwice(a.discoveredBy + b.discoveredBy, k);
    BestOfTwo(a.discoveredBy, b.discoveredBy, k);
  }

  // What a merged group has for a key, one of its finds had.
  lemma {:induction false} EntryIsOwn(group: seq<Candidate>, k: string)
    requires group != [] && k in BestMap(MergeAll(group).discoveredBy)
    ensures exists c :: c in group && Own(c, BestMap(MergeAll(group).discoveredBy)[k])
  {
    hide Merge, BestMap, DiscoveryKey;
    BestMapIsBest(MergeAll(group).discoveredBy);
    if |group| == 1 {
      assert group[0] in group;
    } else {
      var front, last := group[..|group| - 1], group[|group| - 1];
      assert group == front + [last];
      MergedEntry(MergeAll(front), last, k);
      BestMapIsBest(last.discoveredBy);
      var d := BestMap(MergeAll(group).discoveredBy)[k];
      if k in BestMap(MergeAll(front).discoveredBy) && BestMap(MergeAll(front).discoveredBy)[k] == d {
        EntryIsOwn(front, k);
        var c :| c in front && Own(c, d);
        assert c in group;
      } else {
        assert last in group && Own(last, d);
      }
    }
  }

  lemma EntryIsTop(group: seq<Candidate>, d: Discovery)
    requires |group| > 1 && d in MergeAll(group).discoveredBy
    ensures Top(group, d)
  {
    hide Merge, BestMap, DiscoveryKey, AllDiscoveries, Sums, MergeAll, Increasing;
    MergedGroup(group);
    var out := MergeAll(group).discoveredBy;
    DistinctIsOwn(out, d);
    EntryIsOwn(group, DiscoveryKey(d));
    forall e | e in AllDiscoveries(group) && DiscoveryKey(e) == DiscoveryKey(d)
      ensures d.rank <= e.rank
    {
      var i := Beater(out, e);
      DistinctIsOwn(out, out[i]);
    }
  }

  // What the first find has for a key stays, if no find has a better rank.
  lemma {:induction false} FirstFindWins(c: Candidate, rest: seq<Candidate>, d: Discovery)
    requires Own(c, d) && Least([c] + rest, d)
    ensures var m := BestMap(MergeAll([c] + rest).discoveredBy); DiscoveryKey(d) in m && m[DiscoveryKey(d)] == d
  {
    hide Merge, BestMap, DiscoveryKey, AllDiscoveries;
    var group := [c] + rest;
    if rest != [] {
      var front, last := rest[..|rest| - 1], rest[|rest| - 1];
      assert group[..|group| - 1] == [c] + front && group == [c] + front + [last];
      LeastOfMore([c] + front, last, d);
      FirstFindWins(c, front, d);
      MergedEntry(MergeAll([c] + front), last, DiscoveryKey(d));
    }
  }

  lemma LeastOfMore(group: seq<Candidate>, last: Candidate, d: Discovery)
    requires Least(group + [last], d)
    ensures Least(group, d)
    ensures var y := BestMap(last.discoveredBy); DiscoveryKey(d) in y ==> d.rank <= y[DiscoveryKey(d)].rank
  {
    hide DiscoveryKey, BestMap, AllDiscoveries;
    DiscoveriesGrow(group, last);
    BestMapIsBest(last.discoveredBy);
    if DiscoveryKey(d) in BestMap(last.discoveredBy) {
      assert BestMap(last.discoveredBy)[DiscoveryKey(d)] in Pool(last.discoveredBy);
    }
  }

  // ---- The condition ----

  // Finds that contribute a least rank for one key agree on what `view` sees of their sources.
  ghost predicate Agree<T(!new)>(group: seq<Candidate>, view: string -> T) {
    forall d, e :: Top(group, d) && Top(group, e) && DiscoveryKey(d) == DiscoveryKey(e) ==>
      view(d.source) == view(e.source)
  }

  // The same keys and ranks, and sources that look the same.
  ghost predicate SameViews<T(!new)>(x: seq<Discovery>, y: seq<Discovery>, view: string -> T) {
    SameRanks(x, y) && forall i :: 0 <= i < |x| ==> view(x[i].source) == view(y[i].source)
  }

  ghost predicate SameEntries<T(!new)>(env: Env, scope: string, a: seq<Candidate>, b: seq<Candidate>, id: string,
                                       view: string -> T) {
    var x, y := Collected(env, scope, a), Collected(env, scope, b);
    id in x && id in y && SameViews(x[id].discoveredBy, y[id].discoveredBy, view)
  }

  // In whatever order the same finds arrive.
  ghost predicate OrderIsIrrelevant<T(!new)>(env: Env, scope: string, all: seq<Candidate>, id: string,
                                             view: string -> T) {
    forall b :: multiset(b) == multiset(all) ==> SameEntries(env, scope, all, b, id, view)
  }

  lemma SameTops(g: seq<Candidate>, h: seq<Candidate>, d: Discovery)
    requires multiset(g) == multiset(h)
    ensures Top(g, d) <==> Top(h, d)
  {
    hide Own, DiscoveryKey;
    forall c
      ensures c in g <==> c in h
    {
      assert c in multiset(g) <==> c in multiset(h);
    }
    assert AllDiscoveries(g) == AllDiscoveries(h);
  }

  lemma AgreeingViews<T(!new)>(g: seq<Candidate>, h: seq<Candidate>, view: string -> T)
    requires multiset(g) == multiset(h) && g != [] && h != [] && Agree(g, view)
    ensures SameViews(MergeAll(g).discoveredBy, MergeAll(h).discoveredBy, view)
  {
    hide MergeAll, Top, DiscoveryKey;
    SameMembersSameStanding(g, h);
    assert |multiset(g)| == |multiset(h)|;
    var x, y := MergeAll(g).discoveredBy, MergeAll(h).discoveredBy;
    if |g| == 1 {
      assert g[0] in multiset(h);
      assert h == [h[0]] && g == [g[0]];
    } else {
      forall i | 0 <= i < |x|
        ensures view(x[i].source) == view(y[i].source)
      {
        EntryIsTop(g, x[i]);
        EntryIsTop(h, y[i]);
        SameTops(g, h, y[i]);
      }
    }
  }

  // Some order of the input has a given find of an object first.
  lemma MovedToFront(env: Env, scope: string, all: seq<Candidate>, id: string, c: Candidate)
    returns (b: seq<Candidate>, rest: seq<Candidate>)
    requires c in Group(env, scope, all, id)
    ensures multiset(b) == multiset(all) && Group(env, scope, b, id) == [c] + rest
  {
    hide Canonicalize, Group;
    var i := FoundAt(env, scope, all, id, c);
    var before, after := all[..i], all[i + 1..];
    assert all == before + [all[i]] + after;
    b := [all[i]] + (before + after);
    rest := Group(env, scope, before + after, id);
    GroupOfConcat(env, scope, [all[i]], before + after, id);
    GroupOfOne(env, scope, all[i], id);
  }

  lemma GroupOfOne(env: Env, scope: string, c: Candidate, id: string)
    ensures Group(env, scope, [c], id) == if IdOf(env, scope, c) == id then [Canonicalize(env, c, scope)] else []
  {
    hide Canonicalize;
    assert Group(env, scope, [c][..0], id) == [];
  }

  lemma {:induction false} FoundAt(env: Env, scope: string, all: seq<Candidate>, id: string, c: Candidate)
    returns (i: nat)
    requires c in Group(env, scope, all, id)
    ensures i < |all| && Canonicalize(env, all[i], scope) == c && IdOf(env, scope, all[i]) == id
  {
    hide Canonicalize;
    var last := all[|all| - 1];
    if Canonicalize(env, last, scope) == c && IdOf(env, scope, last) == id {
      i := |all| - 1;
    } else {
      i := FoundAt(env, scope, all[..|all| - 1], id, c);
    }
  }

  // Every top discovery is what is kept in some order.
  lemma TopCanStay(env: Env, scope: string, all: seq<Candidate>, id: string, d: Discovery) returns (b: seq<Candidate>)
    requires Top(Group(env, scope, all, id), d) && |Group(env, scope, all, id)| > 1
    ensures multiset(b) == multiset(all) && id in Collected(env, scope, b)
              && d in Collected(env, scope, b)[id].discoveredBy
  {
    hide Collected, Group, MergeAll, Own, BestMap, DiscoveryKey, Sums;
    var g := Group(env, scope, all, id);
    var c :| c in g && Own(c, d);
    var rest;
    b, rest := MovedToFront(env, scope, all, id, c);
    GroupOfPermutation(env, scope, all, b, id);
    SameTops(g, [c] + rest, d);
    FirstFindWins(c, rest, d);
    CollectedIsMergedGroup(env, scope, b, id);
    BestMapIsBest(MergeAll([c] + rest).discoveredBy);
  }

  // For every input and every way of looking at sources, the order of arrival makes no difference to
  // any key, rank or source of an object if and only if its finds agree.
  lemma OrderIsIrrelevantIffAgree<T(!new)>(env: Env, scope: string, all: seq<Candidate>, id: string, view: string -> T)
    requires id in Collected(env, scope, all)
    ensures OrderIsIrrelevant(env, scope, all, id, view) <==> Agree(Group(env, scope, all, id), view)
  {
    hide Collected, Group, MergeAll, SameViews, Agree;
    if Agree(Group(env, scope, all, id), view) {
      forall b | multiset(b) == multiset(all)
        ensures SameEntries(env, scope, all, b, id, view)
      {
        AgreeingEntries(env, scope, all, b, id, view);
      }
    }
    if OrderIsIrrelevant(env, scope, all, id, view) {
      OnlyIfAgree(env, scope, all, id, view);
    }
  }

  lemma AgreeingEntries<T(!new)>(env: Env, scope: string, all: seq<Candidate>, b: seq<Candidate>, id: string,
                                 view: string -> T)
    requires id in Collected(env, scope, all) && multiset(b) == multiset(all) && Agree(Group(env, scope, all, id), view)
    ensures SameEntries(env, scope, all, b, id, view)
  {
    hide Collected, Group, MergeAll, SameViews, Agree;
    GroupOfPermutation(env, scope, all, b, id);
    CollectedIsMergedGroup(env, scope, all, id);
    CollectedIsMergedGroup(env, scope, b, id);
    var g, h := Group(env, scope, all, id), Group(env, scope, b, id);
    assert |multiset(g)| == |multiset(h)|;
    AgreeingViews(g, h, view);
  }

  lemma OnlyIfAgree<T(!new)>(env: Env, scope: string, all: seq<Candidate>, id: string, view: string -> T)
    requires id in Collected(env, scope, all) && OrderIsIrrelevant(env, scope, all, id, view)
    ensures Agree(Group(env, scope, all, id), view)
  {
    hide Collected, Group, Top, SameEntries, DiscoveryKey;
    var g := Group(env, scope, all, id);
    CollectedIsMergedGroup(env, scope, all, id);
    forall d, e | Top(g, d) && Top(g, e) && DiscoveryKey(d) == DiscoveryKey(e)
      ensures view(d.source) == view(e.source)
    {
      if |g| == 1 {
        OneTop(g, d, e);
      } else {
        var a := TopCanStay(env, scope, all, id, d);
        var b := TopCanStay(env, scope, all, id, e);
        SeenThrough(env, scope, all, a, b, id, view, d, e);
      }
    }
  }

  lemma OneTop(g: seq<Candidate>, d: Discovery, e: Discovery)
    requires |g| == 1 && Top(g, d) && Top(g, e) && DiscoveryKey(d) == DiscoveryKey(e)
    ensures d == e
  {
    hide DiscoveryKey, BestMap, AllDiscoveries;
  }

  // Two orders that look like a third look alike.
  lemma SeenThrough<T(!new)>(env: Env, scope: string, all: seq<Candidate>, a: seq<Candidate>, b: seq<Candidate>,
                             id: string,
                             view: string -> T, d: Discovery, e: Discovery)
    requires SameEntries(env, scope, all, a, id, view) && SameEntries(env, scope, all, b, id, view)
    requires |Group(env, scope, all, id)| > 1 && DiscoveryKey(d) == DiscoveryKey(e)
    requires id in Collected(env, scope, a) && d in Collected(env, scope, a)[id].discoveredBy
    requires id in Collected(env, scope, b) && e in Collected(env, scope, b)[id].discoveredBy
    ensures view(d.source) == view(e.source)
  {
    hide Collected, Group, DiscoveryKey, MergeAll, Sums, Text.Less;
    CollectedIsMergedGroup(env, scope, all, id);
    MergedGroup(Group(env, scope, all, id));
    var x, y, z := Collected(env, scope, all)[id].discoveredBy, Collected(env, scope, a)[id].discoveredBy,
      Collected(env, scope, b)[id].discoveredBy;
    var i :| 0 <= i < |y| && y[i] == d;
    var j :| 0 <= j < |z| && z[j] == e;
    assert KeysOf(x)[i] == KeysOf(x)[j];
    Text.LessTrichotomy(KeysOf(x)[i], KeysOf(x)[i]);
    assert i == j;
  }

  // ---- The score ----

  lemma {:induction false} SameRankSum(config: Config, a: seq<Discovery>, b: seq<Discovery>)
    requires SameViews(a, b, (s: string) => Weight(config, s))
    ensures RankSum(config, a) == RankSum(config, b)
  {
    hide DiscoveryKey, Weight, K0;
    if a != [] {
      SameRankSum(config, a[..|a| - 1], b[..|b| - 1]);
    }
  }

  // If the finds agree on the weights, the rank sum and the bonus for several discoveries are the
  // same in every order.
  lemma ScoreIgnoresArrivalOrder(env: Env, scope: string, config: Config, a: seq<Candidate>, b: seq<Candidate>,
                                 id: string)
    requires multiset(a) == multiset(b) && id in Collected(env, scope, a)
    requires Agree(Group(env, scope, a, id), (s: string) => Weight(config, s))
    ensures id in Collected(env, scope, b)
    ensures var x, y := Collected(env, scope, a)[id].discoveredBy, Collected(env, scope, b)[id].discoveredBy;
            RankSum(config, x) + Bonus(|x|) == RankSum(config, y) + Bonus(|y|)
  {
    hide Collected, Group, Agree, Weight;
    var view := (s: string) => Weight(config, s);
    AgreeingEntries(env, scope, a, b, id, view);
    SameRankSum(config, Collected(env, scope, a)[id].discoveredBy, Collected(env, scope, b)[id].discoveredBy);
  }

  // Discoveries with the same key name the same source. It is so whenever no provider id holds a
  // bar, the separator of the keys.
  ghost predicate KeysNameSources(pool: set<Discovery>) {
    forall x, y :: x in pool && y in pool && DiscoveryKey(x) == DiscoveryKey(y) ==> x.source == y.source
  }

  lemma NamedSourcesAgree<T(!new)>(group: seq<Candidate>, view: string -> T)
    requires KeysNameSources(AllDiscoveries(group))
    ensures Agree(group, view)
  {
    hide DiscoveryKey, BestMap;
    forall d | Top(group, d)
      ensures d in AllDiscoveries(group)
    {
      var c :| c in group && Own(c, d);
      BestMapIsBest(c.discoveredBy);
    }
  }

  lemma NoBarNoClash(x: Discovery, y: Discovery)
    requires '|' !in x.provider && '|' !in y.provider && DiscoveryKey(x) == DiscoveryKey(y)
    ensures x.provider == y.provider && x.source == y.source
  {
    var k := DiscoveryKey(x);
    var m, n := |x.provider|, |y.provider|;
    assert k[m] == '|' && k[n] == '|';
    assert forall i :: 0 <= i < m ==> k[i] == x.provider[i] && x.provider[i] != '|';
    assert forall i :: 0 <= i < n ==> k[i] == y.provider[i] && y.provider[i] != '|';
    assert m == n;
    assert x.provider == k[..m] && y.provider == k[..n];
    assert x.source == k[m + 1..] && y.source == k[n + 1..];
  }

  // ---- Two finds ----

  lemma MergeOfTwo(x: Discovery, y: Discovery)
    requires DiscoveryKey(x) == DiscoveryKey(y)
    ensures MergeDiscoveries([x], [y]) == [if y.rank < x.rank then y else x]
  {
    hide Text.Less, DiscoveryKey;
    assert [x] + [y] == [x, y] && [x, y][..1] == [x] && [x][..0] == [];
    assert BestMap([x]) == map[DiscoveryKey(x) := x];
    assert SortedKeys([x]) == [DiscoveryKey(x)];
    assert SortedKeys([x, y]) == [DiscoveryKey(x)];
  }

  lemma SumOfOne(config: Config, d: Discovery)
    ensures RankSum(config, [d])
            == Weight(config, d.source) / (K0(config) + (if d.rank <= 0 then 1 else d.rank) as real)
  {
    assert [d][..0] == [];
    assert RankSum(config, []) == 0.0;
  }

  lemma SameQuotient(a: real, b: real, k: real)
    requires k > 0.0
    ensures a / k == b / k <==> a == b
  {
    assert a / k * k == a && b / k * k == b;
  }

  lemma TwoCollected(env: Env, scope: string, x: Candidate, y: Candidate)
    requires IdOf(env, scope, x) == IdOf(env, scope, y) && x.discoveredBy != [] && y.discoveredBy != []
    ensures var id := IdOf(env, scope, x);
            id in Collected(env, scope, [x, y])
              && Collected(env, scope, [x, y])[id].discoveredBy == MergeDiscoveries(x.discoveredBy, y.discoveredBy)
  {
    hide MergeDiscoveries, IdFromUrl, Fingerprint;
    assert [x, y][..1] == [x] && [x][..0] == [];
    assert Collected(env, scope, [x][..0]) == map[];
  }

  // Two finds of one object under one key are worth the same in both orders if and only if their
  // ranks differ, so that the better one stays, or their sources have the same weight.
  lemma TwoFinds(env: Env, scope: string, config: Config, x: Candidate, y: Candidate, d: Discovery, e: Discovery)
    requires IdOf(env, scope, x) == IdOf(env, scope, y) && x.discoveredBy == [d] && y.discoveredBy == [e]
               && DiscoveryKey(d) == DiscoveryKey(e)
    ensures var id := IdOf(env, scope, x);
            id in Collected(env, scope, [x, y]) && id in Collected(env, scope, [y, x])
    ensures var id := IdOf(env, scope, x);
            RankSum(config, Collected(env, scope, [x, y])[id].discoveredBy)
              == RankSum(config, Collected(env, scope, [y, x])[id].discoveredBy)
            <==> d.rank != e.rank || Weight(config, d.source) == Weight(config, e.source)
  {
    hide Collected, IdOf, MergeDiscoveries, RankSum, Weight, K0;
    TwoCollected(env, scope, x, y);
    TwoCollected(env, scope, y, x);
    MergeOfTwo(d, e);
    MergeOfTwo(e, d);
    SumOfOne(config, d);
    SumOfOne(config, e);
    SameQuotient(Weight(config, d.source), Weight(config, e.source),
                 K0(config) + (if d.rank <= 0 then 1 else d.rank) as real);
  }

  // So the order can decide: a provider "a|b" of the source "c" and a provider "a" of the source
  // "b|c" share a key, and of two equal ranks the first one stays, with its weight.
  lemma ClashingKeysDependOnOrder(env: Env, scope: string, config: Config, found: Candidate)
    requires Weight(config, "c") != Weight(config, "b|c")
    ensures var x, y := found.(discoveredBy := [Discovery("a|b", "c", 1)]),
              found.(discoveredBy := [Discovery("a", "b|c", 1)]);
            var id := IdOf(env, scope, found);
            && id in Collected(env, scope, [x, y]) && id in Collected(env, scope, [y, x])
            && RankSum(config, Collected(env, scope, [x, y])[id].discoveredBy)
               != RankSum(config, Collected(env, scope, [y, x])[id].discoveredBy)
  {
    hide Collected, RankSum, Weight, IdFromUrl, Fingerprint, KindFromSource;
    var d, e := Discovery("a|b", "c", 1), Discovery("a", "b|c", 1);
    var x, y := found.(discoveredBy := [d]), found.(discoveredBy := [e]);
    assert IdOf(env, scope, x) == IdOf(env, scope, found) == IdOf(env, scope, y);
    TwoFinds(env, scope, config, x, y, d, e);
  }
}
