// The whole of internal/fusion/fusion.go:191-285.
module Ranking {
  import opened Dedup
  import opened Fusion
  import opened Collect
  import opened Quota

  function Scored(config: Config, extra: Candidate -> real, c: Candidate): Candidate {
    c.(score := Score(config, extra, c))
  }

  // The merged candidates, scored and by falling score. The order among equal scores is left
  // open: the comparison at fusion.go:247-255 is not transitive among them.
  ghost predicate IsRanking(items: seq<Candidate>, merged: map<string, Candidate>, config: Config,
                            extra: Candidate -> real) {
    ByScore(items) && ScoredOnce(items, merged, merged.Keys, config, extra)
  }

  ghost predicate ScoredOnce(items: seq<Candidate>, merged: map<string, Candidate>, ids: set<string>, config: Config,
                             extra: Candidate -> real) {
    && |items| == |ids|
    && (forall c :: c in items ==>
        c.ref.canonical in ids && c.ref.canonical in merged && c == Scored(config, extra, merged[c.ref.canonical]))
    && DistinctKeys(items, CandidateId)
    && (forall id :: id in ids ==> exists c :: c in items && c.ref.canonical == id)
  }

  lemma OneMoreScored(items: seq<Candidate>, merged: map<string, Candidate>, ids: set<string>, config: Config,
                      extra: Candidate -> real, id: string)
    requires ScoredOnce(items, merged, ids, config, extra) && id !in ids && id in merged
               && merged[id].ref.canonical == id
    ensures ScoredOnce(items + [Scored(config, extra, merged[id])], merged, ids + {id}, config, extra)
  {
    hide Score, DistinctKeys;
    var c := Scored(config, extra, merged[id]);
    assert c.ref.canonical == id;
    hide Scored;
    DistinctAppend(items, CandidateId, c);
    OneMoreId(items, ids, c);
  }

  lemma OneMoreId(items: seq<Candidate>, ids: set<string>, c: Candidate)
    requires forall id :: id in ids ==> exists x :: x in items && x.ref.canonical == id
    ensures forall id :: id in ids + {c.ref.canonical} ==> exists x :: x in items + [c] && x.ref.canonical == id
  {
    var more := items + [c];
    assert c in more;
    forall id | id in ids
      ensures exists x :: x in more && x.ref.canonical == id
    {
      var x :| x in items && x.ref.canonical == id;
      assert x in more;
    }
  }

  // fusion.go:211-246: the merged map is walked in an arbitrary order.
  method ScoreLoop(merged: map<string, Candidate>, config: Config, extra: Candidate -> real)
    returns (items: seq<Candidate>)
    requires forall id :: id in merged ==> merged[id].ref.canonical == id
    ensures ScoredOnce(items, merged, merged.Keys, config, extra)
  {
    hide ScoredOnce;
    items := [];
    NothingScored(merged, config, extra);
    var left := merged.Keys;
    while left != {}
      invariant left <= merged.Keys && ScoredOnce(items, merged, merged.Keys - left, config, extra)
    {
      var id :| id in left;
      OneMoreScored(items, merged, merged.Keys - left, config, extra, id);
      assert merged.Keys - (left - {id}) == merged.Keys - left + {id};
      items := items + [Scored(config, extra, merged[id])];
      left := left - {id};
    }
    assert merged.Keys - left == merged.Keys;
  }

  lemma NothingScored(merged: map<string, Candidate>, config: Config, extra: Candidate -> real)
    ensures ScoredOnce([], merged, merged.Keys - merged.Keys, config, extra)
  {
  }

  // fusion.go:247-255: a sort by score that orders equal scores in any way it likes.
  method RankLoop(items: seq<Candidate>) returns (ranked: seq<Candidate>)
    ensures ByScore(ranked) && multiset(ranked) == multiset(items)
  {
    ranked := [];
    for i := 0 to |items|
      invariant ByScore(ranked) && multiset(ranked) == multiset(items[..i])
    {
      var c := items[i];
      assert items[..i + 1] == items[..i] + [c];
      var at := |ranked|;
      while at > 0 && ranked[at - 1].score <= c.score
        invariant 0 <= at <= |ranked| && forall j :: at <= j < |ranked| ==> ranked[j].score <= c.score
      {
        var stay: bool := *;
        if ranked[at - 1].score == c.score && stay {
          break;
        }
        at := at - 1;
      }
      PutIn(ranked, at, c);
      ranked := ranked[..at] + [c] + ranked[at..];
    }
    assert items[..|items|] == items;
  }

  lemma PutIn(ranked: seq<Candidate>, at: nat, c: Candidate)
    requires ByScore(ranked) && at <= |ranked| && (forall j :: at <= j < |ranked| ==> ranked[j].score <= c.score)
    requires at > 0 ==> ranked[at - 1].score >= c.score
    ensures ByScore(ranked[..at] + [c] + ranked[at..])
    ensures multiset(ranked[..at] + [c] + ranked[at..]) == multiset(ranked) + multiset{c}
  {
    PutInContents(ranked, at, c);
    var more := ranked[..at] + [c] + ranked[at..];
    assert forall i :: 0 <= i < at ==> more[i] == ranked[i];
    assert forall i :: at < i < |more| ==> more[i] == ranked[i - 1];
    assert more[at] == c;
  }

  lemma PutInContents<T>(xs: seq<T>, at: nat, x: T)
    requires at <= |xs|
    ensures multiset(xs[..at] + [x] + xs[at..]) == multiset(xs) + multiset{x}
  {
    assert xs == xs[..at] + xs[at..];
  }

  lemma Rearranged(items: seq<Candidate>, ranked: seq<Candidate>, merged: map<string, Candidate>, config: Config,
                   extra: Candidate -> real)
    requires multiset(items) == multiset(ranked) && ByScore(ranked)
               && ScoredOnce(items, merged, merged.Keys, config, extra)
    ensures IsRanking(ranked, merged, config, extra)
  {
    hide Score, Scored, ByScore;
    assert |multiset(items)| == |multiset(ranked)|;
    forall c
      ensures c in ranked <==> c in items
    {
      assert c in multiset(items) <==> c in multiset(ranked);
    }
    DistinctPart(ranked, items, CandidateId);
  }

  lemma RankedMember(ranked: seq<Candidate>, merged: map<string, Candidate>, config: Config, extra: Candidate -> real,
                     c: Candidate)
    requires IsRanking(ranked, merged, config, extra) && c in ranked
    ensures c.ref.canonical in merged && c == Scored(config, extra, merged[c.ref.canonical])
  {
    hide ByScore, Score;
  }

  // `ranked` is the ranking all of the result is taken from.
  method Fuse(env: Env, all: seq<Candidate>, limit: int, config: Config, scope: string, extra: Candidate -> real)
    returns (selected: seq<Candidate>, unique: nat, ghost ranked: seq<Candidate>)
    ensures unique == |Collected(env, scope, all)|
              && |selected| == if limit <= 0 || limit > unique then unique else limit
    ensures ByScore(selected) && DistinctKeys(selected, CandidateId)
    ensures forall c :: c in selected ==>
              CandidateId(c) in Collected(env, scope, all)
                && c == Scored(config, extra, Collected(env, scope, all)[CandidateId(c)])
    ensures IsRanking(ranked, Collected(env, scope, all), config, extra) && |ranked| == unique
    ensures var n := if limit <= 0 || limit > |ranked| then |ranked| else limit;
            selected == if config.useQuota then Select(ranked, config.quotas, n) else ranked[..n]
  {
    hide IsRanking, ScoredOnce, ByScore, Select, Collected, Scored, Of;
    var merged := MergeLoop(env, scope, all);
    OneCandidatePerId(env, scope, all);
    var scored := ScoreLoop(merged, config, extra);
    var items := RankLoop(scored);
    Rearranged(scored, items, merged, config, extra);
    RankingLength(items, merged, config, extra);
    ranked, unique := items, |merged|;
    var n := if limit <= 0 || limit > |items| then |items| else limit;
    if !config.useQuota {
      selected := items[..n];
    } else {
      selected := SelectLoop(items, config.quotas, n);
    }
    FusedIsRanked(items, merged, config, extra, n);
    forall c | c in selected
      ensures CandidateId(c) in merged && c == Scored(config, extra, merged[CandidateId(c)])
    {
      RankedMember(items, merged, config, extra, c);
    }
  }

  lemma RankingLength(ranked: seq<Candidate>, merged: map<string, Candidate>, config: Config, extra: Candidate -> real)
    requires IsRanking(ranked, merged, config, extra)
    ensures |ranked| == |merged| && ByScore(ranked)
    ensures DistinctKeys(ranked, CandidateId)
  {
    assert |merged.Keys| == |merged|;
  }

  // With or without quotas, the result has min(limit, unique) different objects in falling order
  // of score, and of each source the ones ranked first.
  lemma FusedIsRanked(ranked: seq<Candidate>, merged: map<string, Candidate>, config: Config, extra: Candidate -> real,
                      n: nat)
    requires IsRanking(ranked, merged, config, extra) && n <= |ranked|
    ensures var r := if config.useQuota then Select(ranked, config.quotas, n) else ranked[..n];
            && |r| == n && ByScore(r) && (forall s :: Of(s, r) <= Of(s, ranked))
            && (forall c :: c in r ==> c in ranked) && DistinctKeys(r, CandidateId)
  {
    hide Of, Select, IsRanking, Score;
    RankingLength(ranked, merged, config, extra);
    if config.useQuota {
      SelectionIsRanked(ranked, config.quotas, n);
      DistinctPart(Select(ranked, config.quotas, n), ranked, CandidateId);
    } else {
      assert ranked == ranked[..n] + ranked[n..];
      forall s
        ensures Of(s, ranked[..n]) <= Of(s, ranked)
      {
        OfConcat(s, ranked[..n], ranked[n..]);
      }
    }
  }
}
