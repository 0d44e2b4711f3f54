// Paged search over several sources: internal/engine/search.go.
module Search {
  import opened Wrappers
  import opened Objects
  import opened Dedup
  import opened Fusion
  import opened Collect
  import opened Quota
  import opened Ranking
  import opened Requests
  import opened Session
  import Ledger
  import Text

  datatype Page = Page(candidates: seq<Candidate>, nextCursor: string, hasMore: bool)

  const NO_PAGE := Page([], "", false)

  datatype PageResult = PageResult(source: string, provider: string, page: Page, pages: nat)

  // A page asked for, and what came of it: NO_PAGE if the source could not be asked.
  datatype Attempt = Attempt(source: string, cursor: string, page: Page)

  const DEFAULT_WEIGHTS: map<string, real> :=
    map["docs" := 1.2, "messages" := 1.2, "minutes" := 1.1, "tasks" := 1.0, "meetings" := 0.95, "calendar" := 0.9,
        "people" := 0.85, "chats" := 0.8, "mail" := 1.0, "base" := 0.9, "sheets" := 0.9]

  const DEFAULT_QUOTAS: map<string, int> :=
    map["docs" := 10, "messages" := 12, "minutes" := 6, "meetings" := 4, "tasks" := 6, "people" := 4, "chats" := 4,
        "calendar" := 5, "mail" := 6, "base" := 6, "sheets" := 6]

  // ---- What pages a search asks for ----

  // The latest page of a source.
  function LastPage(log: seq<Attempt>, s: string): Option<Page> {
    if log == [] then None
    else if log[|log| - 1].source == s then Some(log[|log| - 1].page)
    else LastPage(log[..|log| - 1], s)
  }

  function PagesOf(log: seq<Attempt>, s: string): nat {
    if log == [] then 0 else PagesOf(log[..|log| - 1], s) + if log[|log| - 1].source == s then 1 else 0
  }

  function CandidatesOn(log: seq<Attempt>): seq<Candidate> {
    if log == [] then [] else CandidatesOn(log[..|log| - 1]) + log[|log| - 1].page.candidates
  }

  // A page is asked for with the cursor of the source's previous page, which said there is more;
  // the first page with the cursor the source had at the start, if any.
  ghost predicate Follows(start: map<string, Continuation>, before: seq<Attempt>, s: string, cursor: string) {
    match LastPage(before, s)
    case Some(p) => p.hasMore && cursor == p.nextCursor
    case None => if s in start then start[s].hasMore && cursor == start[s].cursor else cursor == ""
  }

  ghost predicate Chained(start: map<string, Continuation>, log: seq<Attempt>) {
    forall k :: 0 <= k < |log| ==> Follows(start, log[..k], log[k].source, log[k].cursor)
  }

  // The frontiers hold the latest page of every source.
  ghost predicate FrontiersMatch(start: map<string, Continuation>, log: seq<Attempt>,
                                 frontiers: map<string, Continuation>) {
    forall s :: FrontierMatches(start, log, frontiers, s)
  }

  ghost predicate FrontierMatches(start: map<string, Continuation>, log: seq<Attempt>,
                                  frontiers: map<string, Continuation>, s: string) {
    match LastPage(log, s)
    case Some(p) => s in frontiers && frontiers[s].cursor == p.nextCursor && frontiers[s].hasMore == p.hasMore
    case None => (s in frontiers <==> s in start) && (s in frontiers ==> frontiers[s] == start[s])
  }

  // A page is asked for without a cursor if and only if it is the first of its source or the page
  // before, which said there is more, named none: then the first page is asked for again.
  lemma PagesWithoutCursor(log: seq<Attempt>, k: nat)
    requires Chained(map[], log) && k < |log|
    ensures log[k].cursor == "" <==>
              match LastPage(log[..k], log[k].source) case None => true case Some(p) => p.hasMore && p.nextCursor == ""
  {
  }

  // Whether a search goes on with a source does not depend on its cursor; whether a continued one
  // does, does. So a caller is safe from repeated pages exactly if its providers never say that
  // there is more without a cursor.
  lemma GoingOnWithoutCursor(request: SearchRequest, selected: seq<Candidate>, last: seq<string>,
                             frontiers: map<string, Continuation>, s: string)
    requires s in frontiers
    ensures var blank := frontiers[s := frontiers[s].(cursor := "")];
            && (GoesOn(request, selected, last, blank, s) <==> GoesOn(request, selected, last, frontiers, s))
            && !CanContinue(blank, s)
  {
  }

  // The same first page twice: a search with the default choices, of one source, whose provider says
  // that there is more and names no cursor.
  lemma FirstPageCanRepeat(request: SearchRequest)
    requires request.pagination == "adaptive" && request.strategyQuotas == map[]
    ensures var p := Page([], "", true);
            var log := [Attempt("docs", "", p), Attempt("docs", "", p)];
            var frontiers := map["docs" := Continuation("lark", "docs", "", true, 1)];
            && Chained(map[], log) && FrontiersMatch(map[], log[..1], frontiers)
            && GoesOn(request, [], ["docs"], frontiers, "docs")
            && LastPage(log[..1], log[1].source) == Some(p) && log[1].cursor == ""
  {
    var p := Page([], "", true);
    var log := [Attempt("docs", "", p), Attempt("docs", "", p)];
    assert log[..0] == [] && log[..1] == [log[0]] && log[..1][..0] == [];
    assert LastPage(log[..1], "docs") == Some(p);
    assert DEFAULT_QUOTAS["docs"] == 10;
    assert QuotaFor(request.strategyQuotas, "docs") == 10;
    assert CountOf([], "docs") == 0;
    forall s
      ensures FrontierMatches(map[], log[..1], map["docs" := Continuation("lark", "docs", "", true, 1)], s)
    {
      assert LastPage(log[..1][..0], s) == None;
    }
  }

  // ---- Waves ----

  function Attempts(results: seq<PageResult>, cursors: map<string, string>): (r: seq<Attempt>)
    ensures |r| == |results|
    ensures forall i :: 0 <= i < |r| ==> r[i] == AttemptOf(results[i], cursors)
  {
    seq(|results|, i requires 0 <= i < |results| => AttemptOf(results[i], cursors))
  }

  function AttemptOf(r: PageResult, cursors: map<string, string>): Attempt {
    Attempt(r.source, if r.source in cursors then cursors[r.source] else "", r.page)
  }

  ghost predicate DistinctSources(attempts: seq<Attempt>) {
    forall i, j :: 0 <= i < j < |attempts| ==> attempts[i].source != attempts[j].source
  }

  lemma {:induction false} OthersDoNotCount(log: seq<Attempt>, more: seq<Attempt>, s: string)
    requires forall i :: 0 <= i < |more| ==> more[i].source != s
    ensures LastPage(log + more, s) == LastPage(log, s) && PagesOf(log + more, s) == PagesOf(log, s)
  {
    if more == [] {
      assert log + more == log;
    } else {
      OthersDoNotCount(log, more[..|more| - 1], s);
      assert (log + more)[..|log + more| - 1] == log + more[..|more| - 1];
    }
  }

  // In a wave every source is asked once.
  lemma OnceInWave(log: seq<Attempt>, wave: seq<Attempt>, i: nat)
    requires DistinctSources(wave) && i < |wave|
    ensures LastPage(log + wave, wave[i].source) == Some(wave[i].page)
    ensures PagesOf(log + wave, wave[i].source) == PagesOf(log, wave[i].source) + 1
    ensures LastPage(log + wave[..i], wave[i].source) == LastPage(log, wave[i].source)
  {
    var s := wave[i].source;
    OthersDoNotCount(log, wave[..i], s);
    var upTo := log + wave[..i] + [wave[i]];
    assert upTo[..|upTo| - 1] == log + wave[..i];
    OthersDoNotCount(upTo, wave[i + 1..], s);
    assert log + wave == upTo + wave[i + 1..];
  }

  // A wave over some sources: each of them has one page more, the others have none.
  lemma WavePages(log: seq<Attempt>, wave: seq<Attempt>, sources: seq<string>)
    requires DistinctSources(wave) && |wave| == |sources|
               && forall i :: 0 <= i < |wave| ==> wave[i].source == sources[i]
    ensures forall s :: PagesOf(log + wave, s) == PagesOf(log, s) + if s in sources then 1 else 0
  {
    forall s
      ensures PagesOf(log + wave, s) == PagesOf(log, s) + if s in sources then 1 else 0
    {
      if s in sources {
        var i :| 0 <= i < |sources| && sources[i] == s;
        OnceInWave(log, wave, i);
      } else {
        forall i | 0 <= i < |wave|
          ensures wave[i].source != s
        {
          assert sources[i] in sources;
        }
        OthersDoNotCount(log, wave, s);
      }
    }
  }

  lemma {:induction false} CandidatesAdd(log: seq<Attempt>, wave: seq<Attempt>)
    ensures CandidatesOn(log + wave) == CandidatesOn(log) + CandidatesOn(wave)
  {
    hide CandidatesOn;
    if wave == [] {
      assert log + wave == log;
      NoCandidates();
    } else {
      var front, last := wave[..|wave| - 1], wave[|wave| - 1];
      CandidatesAdd(log, front);
      CandidatesStep(log + front, last);
      CandidatesStep(front, last);
      assert log + wave == log + front + [last] && wave == front + [last];
      assert CandidatesOn(log) + CandidatesOn(front) + last.page.candidates
        == CandidatesOn(log) + (CandidatesOn(front) + last.page.candidates);
    }
  }

  lemma NoCandidates()
    ensures CandidatesOn([]) == []
  {
  }

  lemma CandidatesStep(log: seq<Attempt>, a: Attempt)
    ensures CandidatesOn(log + [a]) == CandidatesOn(log) + a.page.candidates
  {
    assert (log + [a])[..|log|] == log;
  }

  // A wave that follows the frontiers keeps the chain.
  lemma ChainGrows(start: map<string, Continuation>, log: seq<Attempt>, wave: seq<Attempt>)
    requires Chained(start, log) && DistinctSources(wave)
    requires forall i :: 0 <= i < |wave| ==> Follows(start, log, wave[i].source, wave[i].cursor)
    ensures Chained(start, log + wave)
  {
    var all := log + wave;
    forall k | 0 <= k < |all|
      ensures Follows(start, all[..k], all[k].source, all[k].cursor)
    {
      if k < |log| {
        assert all[..k] == log[..k];
      } else {
        var i := k - |log|;
        OnceInWave(log, wave, i);
        assert all[..k] == log + wave[..i];
      }
    }
  }

  // ---- Frontiers ----

  function FirstFrontier(r: PageResult): Continuation {
    Continuation(r.provider, r.source, r.page.nextCursor, r.page.hasMore, r.pages)
  }

  function NextFrontier(before: map<string, Continuation>, r: PageResult): Continuation {
    Continuation(r.provider, r.source, r.page.nextCursor, r.page.hasMore,
                 (if r.source in before then before[r.source].pages else 0) + 1)
  }

  // The frontiers after a first wave.
  ghost predicate AreFrontiers(m: map<string, Continuation>, results: seq<PageResult>) {
    && (forall s :: s in m <==> exists i :: 0 <= i < |results| && results[i].source == s)
    && ((forall i, j :: 0 <= i < j < |results| ==> results[i].source != results[j].source) ==>
          forall i :: 0 <= i < |results| ==> Holds(m, results[i]))
  }

  method FrontiersFrom(results: seq<PageResult>) returns (m: map<string, Continuation>)
    ensures AreFrontiers(m, results)
    ensures (forall i, j :: 0 <= i < j < |results| ==> results[i].source != results[j].source) ==>
              forall i :: 0 <= i < |results| ==> m[results[i].source] == FirstFrontier(results[i])
  {
    m := map[];
    for i := 0 to |results|
      invariant forall s :: s in m <==> exists j :: 0 <= j < i && results[j].source == s
      invariant (forall i, j :: 0 <= i < j < |results| ==> results[i].source != results[j].source) ==>
                  forall j :: 0 <= j < i ==> Holds(m, results[j]) && m[results[j].source] == FirstFrontier(results[j])
    {
      var r := results[i];
      m := m[r.source := Continuation(r.provider, r.source, r.page.nextCursor, r.page.hasMore, r.pages)];
    }
  }

  predicate Holds(m: map<string, Continuation>, r: PageResult) {
    r.source in m && m[r.source].cursor == r.page.nextCursor && m[r.source].hasMore == r.page.hasMore
  }

  method MergeFrontiers(before: map<string, Continuation>, results: seq<PageResult>)
    returns (m: map<string, Continuation>)
    requires forall i, j :: 0 <= i < j < |results| ==> results[i].source != results[j].source
    ensures forall i :: 0 <= i < |results| ==>
              Holds(m, results[i]) && m[results[i].source] == NextFrontier(before, results[i])
    ensures forall s :: (forall i :: 0 <= i < |results| ==> results[i].source != s) ==>
              (s in m <==> s in before) && (s in m ==> m[s] == before[s])
  {
    m := before;
    for i := 0 to |results|
      invariant forall j :: 0 <= j < i ==>
                  Holds(m, results[j]) && m[results[j].source] == NextFrontier(before, results[j])
      invariant forall s :: (forall j :: 0 <= j < i ==> results[j].source != s) ==>
                  (s in m <==> s in before) && (s in m ==> m[s] == before[s])
    {
      var r := results[i];
      var old' := if r.source in m then m[r.source] else Continuation("", "", "", false, 0);
      m := m[r.source := Continuation(r.provider, r.source, r.page.nextCursor, r.page.hasMore, old'.pages + 1)];
    }
  }

  lemma FrontiersAfterWave(start: map<string, Continuation>, log: seq<Attempt>, before: map<string, Continuation>,
                           results: seq<PageResult>, cursors: map<string, string>, m: map<string, Continuation>)
    requires FrontiersMatch(start, log, before) && DistinctSources(Attempts(results, cursors))
    requires forall i :: 0 <= i < |results| ==> Holds(m, results[i])
    requires forall s :: (forall i :: 0 <= i < |results| ==> results[i].source != s) ==>
               (s in m <==> s in before) && (s in m ==> m[s] == before[s])
    ensures FrontiersMatch(start, log + Attempts(results, cursors), m)
  {
    var wave := Attempts(results, cursors);
    forall s
      ensures FrontierMatches(start, log + wave, m, s)
    {
      assert FrontierMatches(start, log, before, s);
      if i :| 0 <= i < |results| && results[i].source == s {
        assert wave[i].source == s;
        OnceInWave(log, wave, i);
      } else {
        OthersDoNotCount(log, wave, s);
      }
    }
  }

  // ---- Which sources come next ----

  // orderedSources: the named sources, each once, in order.
  method OrderedSources(values: seq<string>) returns (out: seq<string>)
    ensures Increasing(out) && forall s :: s in out <==> s in values && s != ""
  {
    var distinct: seq<string> := [];
    for i := 0 to |values|
      invariant forall s :: s in distinct <==> s in values[..i] && s != ""
      invariant forall i, j :: 0 <= i < j < |distinct| ==> distinct[i] != distinct[j]
    {
      assert values[..i + 1] == values[..i] + [values[i]];
      if values[i] != "" && values[i] !in distinct {
        distinct := distinct + [values[i]];
      }
    }
    assert values[..|values|] == values;
    out := SortStrings(distinct);
  }

  function CountOf(selected: seq<Candidate>, s: string): nat {
    |Of(s, selected)|
  }

  function QuotaFor(quotas: map<string, int>, s: string): int {
    if s in quotas && quotas[s] > 0 then quotas[s] else if s in DEFAULT_QUOTAS then DEFAULT_QUOTAS[s] else 0
  }

  // A source goes on if there is more of it and, unless all are to go on, it was asked in the last
  // wave and is among the results or below its quota.
  predicate GoesOn(request: SearchRequest, selected: seq<Candidate>, last: seq<string>,
                   frontiers: map<string, Continuation>, s: string) {
    && s in frontiers && frontiers[s].hasMore
    && (FixedPaging(request) ||
        (s in last && (CountOf(selected, s) > 0 || CountOf(selected, s) < QuotaFor(request.strategyQuotas, s))))
  }

  predicate FixedPaging(request: SearchRequest) {
    request.pagination in {"fixed", "all"}
  }

  predicate HasMore(frontiers: map<string, Continuation>, s: string) {
    s in frontiers && frontiers[s].hasMore
  }

  // A page of the source can be asked for by its cursor.
  predicate CanContinue(frontiers: map<string, Continuation>, s: string) {
    HasMore(frontiers, s) && frontiers[s].cursor != ""
  }

  method ChooseNextSources(request: SearchRequest, selected: seq<Candidate>, last: seq<string>,
                           frontiers: map<string, Continuation>)
    returns (out: seq<string>)
    requires forall s :: s in last ==> s in frontiers
    ensures Increasing(out) && forall s :: s in out <==> s != "" && GoesOn(request, selected, last, frontiers, s)
  {
    hide Increasing, CountOf;
    var chosen: seq<string> := [];
    if request.pagination == "fixed" || request.pagination == "all" {
      chosen := WithMore(frontiers);
    } else {
      for i := 0 to |last|
        invariant forall s :: s in chosen <==> s in last[..i] && GoesOn(request, selected, last, frontiers, s)
      {
        var s := last[i];
        assert last[..i + 1] == last[..i] + [s];
        assert s in last;
        var count := CountOf(selected, s);
        var quota := if s in request.strategyQuotas then request.strategyQuotas[s] else 0;
        if quota <= 0 {
          quota := if s in DEFAULT_QUOTAS then DEFAULT_QUOTAS[s] else 0;
        }
        if frontiers[s].hasMore && (count > 0 || count < quota) {
          chosen := chosen + [s];
        }
      }
      assert last[..|last|] == last;
    }
    out := OrderedSources(chosen);
  }

  lemma FollowsFrontier(start: map<string, Continuation>, log: seq<Attempt>, frontiers: map<string, Continuation>,
                        s: string)
    requires FrontiersMatch(start, log, frontiers) && s in frontiers && frontiers[s].hasMore
    ensures Follows(start, log, s, frontiers[s].cursor)
  {
    assert FrontierMatches(start, log, frontiers, s);
  }

  // ---- What is stored ----

  // The candidates of a record: under their canonical ids, which canonicalizing again keeps.
  ghost predicate CandidatesOk(env: Env, scope: string, m: map<string, Candidate>) {
    KeyedByIds(m, CandidateRank) && forall k :: k in m ==> Canonical(env, m[k], scope)
  }

  ghost predicate HasId(env: Env, scope: string, all: seq<Candidate>, id: string) {
    exists i :: 0 <= i < |all| && IdOf(env, scope, all[i]) == id
  }

  lemma HasIdConcat(env: Env, scope: string, a: seq<Candidate>, b: seq<Candidate>, id: string)
    ensures HasId(env, scope, a + b, id) <==> HasId(env, scope, a, id) || HasId(env, scope, b, id)
  {
    hide IdOf;
    if i :| 0 <= i < |a| && IdOf(env, scope, a[i]) == id {
      assert (a + b)[i] == a[i];
    }
    if i :| 0 <= i < |b| && IdOf(env, scope, b[i]) == id {
      assert (a + b)[|a| + i] == b[i];
    }
  }

  // Storing a ranking under the candidates' ids stores one candidate for every id.
  lemma RankedIsStored(env: Env, scope: string, all: seq<Candidate>, ranked: seq<Candidate>, config: Config,
                       extra: Candidate -> real)
    requires IsRanking(ranked, Collected(env, scope, all), config, extra)
    ensures var m := ById(ranked, CandidateRank);
            && CandidatesOk(env, scope, m) && (forall id :: id in m <==> HasId(env, scope, all, id))
            && (forall c :: c in ranked ==> c.ref.canonical in m && m[c.ref.canonical] == c)
  {
    hide Collected, Score, Scored, IdOf, Canonical, IsRanking, ById;
    var merged, m := Collected(env, scope, all), ById(ranked, CandidateRank);
    OneCandidatePerId(env, scope, all);
    RankingLength(ranked, merged, config, extra);
    ByIdOfDistinct(ranked, CandidateRank);
    assert DistinctIds(ranked, CandidateRank);
    forall id
      ensures id in m <==> id in merged
      ensures id in m ==> CandidateRank(m[id]).id == id && Canonical(env, m[id], scope)
    {
      if id in m {
        RankedMember(ranked, merged, config, extra, m[id]);
        ScoreKeepsCanonical(env, scope, merged[id], config, extra);
      }
      if id in merged {
        var c := MemberFor(ranked, merged, config, extra, id);
        assert CandidateRank(c).id in m;
      }
    }
  }

  lemma ScoreKeepsCanonical(env: Env, scope: string, c: Candidate, config: Config, extra: Candidate -> real)
    requires Canonical(env, c, scope)
    ensures Canonical(env, Scored(config, extra, c), scope)
  {
  }

  // What a snapshot lists has the ids it is stored under.
  lemma ListedIds(env: Env, scope: string, items: seq<Candidate>, keys: seq<string>, m: map<string, Candidate>,
                  id: string)
    requires CandidatesOk(env, scope, m) && Lists(items, keys, m)
    ensures HasId(env, scope, items, id) <==> id in m
  {
    hide Canonical, Canonicalize;
    forall i | 0 <= i < |items|
      ensures IdOf(env, scope, items[i]) == keys[i]
    {
      CanonicalIdIsStable(env, items[i], scope);
      assert CandidateRank(m[keys[i]]).id == keys[i];
    }
    if id in m {
      assert id in keys;
      var i :| 0 <= i < |keys| && keys[i] == id;
      assert IdOf(env, scope, items[i]) == id;
    }
  }

  // ---- The engine ----

  datatype Reply = IdentityRequired | InvalidRequest | Unsupported | BudgetExhausted | Found(candidates: seq<Candidate>)

  datatype Resolved = BlankText | OverBudget | NotSupported | CallFailed | Refs(refs: seq<ObjectRef>, resolver: bool)

  // A result of the search: different candidates of the store, by falling score. Their scores were
  // computed after those in the store, when recent candidates were worth less.
  ghost predicate IsResult(candidates: seq<Candidate>, limit: int, stored: map<string, Candidate>) {
    && ByScore(candidates) && |candidates| == (if limit <= 0 || limit > |stored| then |stored| else limit)
    && (forall c :: c in candidates ==> c.ref.canonical in stored && stored[c.ref.canonical].(score := c.score) == c)
    && DistinctKeys(candidates, CandidateId)
  }

  // What of a ranking is returned.
  function Chosen(request: SearchRequest, ranked: seq<Candidate>): seq<Candidate> {
    var n := if request.limit <= 0 || request.limit > |ranked| then |ranked| else request.limit;
    if request.config.useQuota then Select(ranked, FullConfig(request, true).quotas, n) else ranked[..n]
  }

  // The best of the merged candidates, as they score at one moment.
  ghost predicate IsSelection(env: Env, request: SearchRequest, all: seq<Candidate>, extra: Candidate -> real,
                              selected: seq<Candidate>) {
    exists ranked ::
      IsRanking(ranked, Collected(env, request.scope, all), FullConfig(request, request.config.useQuota), extra)
                  && selected == Chosen(request, ranked)
  }

  // All of the merged candidates, as they score at one moment.
  ghost predicate IsStore(env: Env, request: SearchRequest, all: seq<Candidate>, extra: Candidate -> real,
                          stored: map<string, Candidate>) {
    stored == map id | id in Collected(env, request.scope, all) ::
      Scored(FullConfig(request, false), extra, Collected(env, request.scope, all)[id])
  }

  // The store and the result are two rankings of the same candidates, each with its own readings of
  // the clock.
  ghost predicate Ranked(env: Env, request: SearchRequest, all: seq<Candidate>, extra: nat -> Candidate -> real,
                         selected: seq<Candidate>,
                         stored: map<string, Candidate>) {
    exists i, j :: IsStore(env, request, all, extra(i), stored) && IsSelection(env, request, all, extra(j), selected)
  }

  function FullConfig(request: SearchRequest, useQuota: bool): Config {
    Config(request.config.k0, DEFAULT_WEIGHTS + request.config.weights, DEFAULT_QUOTAS + request.strategyQuotas,
           useQuota)
  }

  // The i-th candidate of a page, with what the provider left out filled in.
  function Stamped(c: Candidate, i: nat, provider: string, source: string): Candidate {
    var rank := if c.nativeRank <= 0 then i + 1 else c.nativeRank;
    c.(ref := c.ref.(provider := Objects.Or(c.ref.provider, provider), source := Objects.Or(c.ref.source, source)),
       source := Objects.Or(c.source, source), nativeRank := rank,
       discoveredBy := if c.discoveredBy == [] then [Discovery(provider, source, rank)] else c.discoveredBy)
  }

  // So every candidate has a rank, a discovery and, of a named source, a source.
  lemma StampedIsComplete(c: Candidate, i: nat, provider: string, source: string)
    ensures var d := Stamped(c, i, provider, source);
            d.nativeRank > 0 && d.discoveredBy != [] && (source != "" ==> d.source != "" && d.ref.source != "")
  {
  }

  const ONE_CALL := Ledger.Reserve(Ledger.Cost(1, 0, 0, 0))

  function CallsIn(did: seq<Ledger.Action>): nat {
    if did == [] then 0 else CallsIn(did[..|did| - 1]) + if did[|did| - 1].Called? then 1 else 0
  }

  lemma NoCalls()
    ensures CallsIn([]) == 0 && ONE_CALL.Reserve? && ONE_CALL.cost.calls == 1
  {
  }

  lemma CallsInStep(did: seq<Ledger.Action>, a: Ledger.Action)
    ensures CallsIn(did + [a]) == CallsIn(did) + if a.Called? then 1 else 0
  {
    assert (did + [a])[..|did|] == did;
  }

  class SearchEngine {
    const env: Env
    // What matching texts and recency are worth, each time the candidates are scored.
    const extra: nat -> Candidate -> real
    const global: seq<string>
    // The pages asked for, and what each goroutine did with the budget account.
    ghost var log: seq<Attempt>
    ghost var traces: seq<seq<Ledger.Action>>

    constructor (env: Env, extra: nat -> Candidate -> real, global: seq<string>)
      ensures this.env == env && this.extra == extra && this.global == global && log == [] && traces == []
    {
      this.env, this.extra, this.global, log, traces := env, extra, global, [], [];
    }

    // search.go:219-322: the provider may answer anything; what it leaves out is filled in. A call
    // that fails for want of capacity is made once more, if the budget has room for it.
    method SearchOne(source: string, cursor: string)
      returns (r: PageResult, ghost answer: Page, ghost did: seq<Ledger.Action>)
      ensures r.source == source
      ensures r.pages == 0 ==> r.page == NO_PAGE
      ensures r.pages > 0 ==>
                && r.pages == 1 && |r.page.candidates| == |answer.candidates|
                && (forall i :: 0 <= i < |answer.candidates| ==>
                    r.page.candidates[i] == Stamped(answer.candidates[i], i, r.provider, source))
                && ((r.page.nextCursor == answer.nextCursor && r.page.hasMore == answer.hasMore)
                    || (r.page.nextCursor == "" && !r.page.hasMore))
      ensures Ledger.Paid(did) && CallsIn(did) <= 2 && (r.pages > 0 <==> CallsIn(did) > 0)
    {
      hide Ledger.Paid, Ledger.Unused, CallsIn, Stamped;
      answer, did := NO_PAGE, [];
      Ledger.NothingDone();
      NoCalls();
      var ready: bool := *;
      var provider: string := *;
      if !ready {
        return PageResult(source, provider, NO_PAGE, 0), answer, did;
      }
      var granted;
      ghost var was := did;
      granted, did := Ledger.Ask(ONE_CALL, did);
      CallsInStep(was, Ledger.Asked(ONE_CALL, granted));
      if !granted {
        return PageResult(source, provider, NO_PAGE, 0), answer, did;
      }
      var page, failed;
      page, failed, did := CallProvider(did);
      if failed.Some? && failed.value {
        var waited: bool := *;
        if waited {
          was := did;
          granted, did := Ledger.Ask(ONE_CALL, did);
          CallsInStep(was, Ledger.Asked(ONE_CALL, granted));
          if granted {
            page, failed, did := CallProvider(did);
          }
        }
      }
      answer := page;
      if failed.None? {
        var size: nat := *;
        was := did;
        granted, did := Ledger.Ask(Ledger.Bytes(size), did);
        CallsInStep(was, Ledger.Asked(Ledger.Bytes(size), granted));
        if !granted {
          page := page.(hasMore := false, nextCursor := "");
        }
      }
      var cs := FillIn(page.candidates, provider, source);
      r := PageResult(source, provider, Page(cs, page.nextCursor, page.hasMore), 1);
    }

    // One call: a page, and no error or one after which to try again or not.
    method CallProvider(ghost did: seq<Ledger.Action>)
      returns (page: Page, failed: Option<bool>, ghost did': seq<Ledger.Action>)
      requires Ledger.Paid(did) && Ledger.Unused(did) >= 1
      ensures did' == did + [Ledger.Called] && Ledger.Paid(did') && Ledger.Unused(did') == Ledger.Unused(did) - 1
      ensures CallsIn(did') == CallsIn(did) + 1
    {
      page, failed := *, *;
      did' := did + [Ledger.Called];
      Ledger.CallPaid(did);
      CallsInStep(did, Ledger.Called);
    }

    // search.go:300-319
    method FillIn(candidates: seq<Candidate>, provider: string, source: string) returns (cs: seq<Candidate>)
      ensures |cs| == |candidates| && forall i :: 0 <= i < |cs| ==> cs[i] == Stamped(candidates[i], i, provider, source)
    {
      cs := [];
      for i := 0 to |candidates|
        invariant |cs| == i && forall j :: 0 <= j < i ==> cs[j] == Stamped(candidates[j], j, provider, source)
      {
        var c := candidates[i];
        if c.ref.provider == "" {
          c := c.(ref := c.ref.(provider := provider));
        }
        if c.source == "" {
          c := c.(source := source);
        }
        if c.ref.source == "" {
          c := c.(ref := c.ref.(source := source));
        }
        if c.nativeRank <= 0 {
          c := c.(nativeRank := i + 1);
        }
        if c.discoveredBy == [] {
          c := c.(discoveredBy := [Discovery(provider, source, c.nativeRank)]);
        }
        cs := cs + [c];
      }
    }

    // One page of every source, in the order of the sources.
    method SearchWave(sources: seq<string>, cursors: map<string, string>) returns (results: seq<PageResult>)
      requires Increasing(sources) && Ledger.AllPaid(traces)
      modifies this`log, this`traces
      ensures Ledger.AllPaid(traces) && |traces| == |old(traces)| + |sources|
      ensures |results| == |sources| && forall i :: 0 <= i < |sources| ==> results[i].source == sources[i]
      ensures log == old(log) + Attempts(results, cursors) && DistinctSources(Attempts(results, cursors))
    {
      hide Increasing, Ledger.AllPaid, Ledger.Paid;
      results := [];
      for i := 0 to |sources|
        invariant |results| == i && forall j :: 0 <= j < i ==> results[j].source == sources[j]
        invariant log == old(log) && Ledger.AllPaid(traces) && |traces| == |old(traces)| + i
      {
        var r, _, did := SearchOne(sources[i], if sources[i] in cursors then cursors[sources[i]] else "");
        Ledger.OneMorePaid(traces, did);
        traces := traces + [did];
        results := results + [r];
      }
      log := log + Attempts(results, cursors);
      IncreasingIsDistinct(sources);
    }

    // search.go:331-343: the same candidates are fused twice, for the store and for the result. Each
    // of them reads the clock for every candidate.
    method RankCandidates(request: SearchRequest, all: seq<Candidate>)
      returns (selected: seq<Candidate>, stored: map<string, Candidate>)
      ensures CandidatesOk(env, request.scope, stored)
                && forall id :: id in stored <==> HasId(env, request.scope, all, id)
      ensures Ranked(env, request, all, extra, selected, stored) && IsResult(selected, request.limit, stored)
    {
      hide *;
      var first: nat, second: nat := *, *;
      var allScored, _, ranked1 := Fuse(env, all, |all|, FullConfig(request, false), request.scope, extra(first));
      NoMoreThanAll(env, request.scope, all);
      assert ranked1[..|ranked1|] == ranked1;
      QuotaAsked(request, false);
      stored := IndexById(allScored, CandidateRank);
      RankedIsStored(env, request.scope, all, allScored, FullConfig(request, false), extra(first));
      StoredIsStore(env, request, all, allScored, extra(first));
      var chosen, _, ranked2 := Fuse(env, all, request.limit, FullConfig(request, request.config.useQuota),
                                     request.scope, extra(second));
      selected := chosen;
      QuotaAsked(request, request.config.useQuota);
      RankedTwice(env, request, all, extra, selected, stored, ranked2, first, second);
      SelectedIsResult(env, request, all, allScored, ranked2, extra(first), extra(second));
    }

    // search.go:25-113. `request` is what was named, with its defaults.
    method Search(record: Record, named: SearchRequest)
      returns (reply: Reply, ghost request: SearchRequest, ghost sources: seq<string>, ghost last: seq<string>,
               ghost rounds: int)
      modifies this`log, this`traces, record`request, record`candidates, record`frontiers
      ensures request == WithDefaults(named) && Ledger.AllPaid(traces)
      ensures reply.InvalidRequest? <==> !Acceptable(named)
      ensures reply.IdentityRequired? <==> Acceptable(named) && named.scope != record.scope
      ensures !reply.Found? ==>
                record.candidates == old(record.candidates) && record.frontiers == old(record.frontiers) && log == []
      // A stored request is one of the session's own scope, as continuing the search needs.
      ensures if reply.Found? || reply.Unsupported?
                then record.request == Some(request) && request.scope == record.scope
              else record.request == old(record.request)
      // One candidate is stored for every canonical id on any page, and the best of them are returned.
      ensures reply.Found? ==> CandidatesOk(env, request.scope, record.candidates)
      ensures reply.Found? ==>
                forall id :: id in record.candidates <==> HasId(env, request.scope, CandidatesOn(log), id)
      ensures reply.Found? ==>
                IsResult(reply.candidates, request.limit, record.candidates) && record.request == Some(request)
      ensures reply.Found? ==> Ranked(env, request, CandidatesOn(log), extra, reply.candidates, record.candidates)
      // Every page but a source's first is asked for with the cursor of the page before, and there
      // are at most as many of them for a source as the budget names.
      ensures Chained(map[], log) && forall s :: PagesOf(log, s) <= request.budget.maxPages
      ensures reply.Found? ==> FrontiersMatch(map[], log, record.frontiers)
      // `sources` are those named by the request, or all: each is asked for its first page, and the
      // search goes on until the page limit is reached or, with the results it has by then, no
      // source may go on after the last wave. With fixed paging it takes every page of a source up
      // to the limit; without paging, the first.
      ensures forall s :: s in sources <==>
                (!reply.InvalidRequest? && !reply.IdentityRequired? && s != ""
                 && s in (if named.sources == [] then global else named.sources))
      ensures reply.Unsupported? <==> !reply.InvalidRequest? && !reply.IdentityRequired? && sources == []
      ensures reply.Found? ==> forall s :: s in sources ==> PagesOf(log, s) >= 1
      ensures reply.Found? && request.budget.maxPages > 1 && request.pagination != "none" ==>
                rounds == request.budget.maxPages
                  || forall s :: s != "" ==> !GoesOn(request, reply.candidates, last, record.frontiers, s)
      ensures reply.Found? && FixedPaging(request) ==>
                forall s :: s in sources ==> PagesOf(log, s) == request.budget.maxPages || !HasMore(record.frontiers, s)
      ensures reply.Found? && request.pagination == "none" ==>
                forall s :: PagesOf(log, s) == if s in sources then 1 else 0
    {
      hide *;
      log, traces, sources, last, rounds := [], [], [], [], 1;
      Ledger.NobodyActs();
      NothingAsked(map[]);
      var filled := WithDefaults(named);
      request := filled;
      AcceptedRequests(named);
      DefaultsFill(named);
      if !Valid(filled) {
        return InvalidRequest, request, sources, last, rounds;
      }
      if filled.scope != record.scope {
        return IdentityRequired, request, sources, last, rounds;
      }
      record.request := Some(filled);
      var ordered := OrderedSources(if filled.sources == [] then global else filled.sources);
      sources := ordered;
      if ordered == [] {
        return Unsupported, request, sources, last, rounds;
      }
      var frontiers, all := FirstRound(ordered);
      var selected, stored := RankCandidates(filled, all);
      if filled.budget.maxPages > 1 && filled.pagination != "none" {
        frontiers, selected, stored, last, rounds := MorePages(filled, ordered, frontiers, all, selected, stored);
      }
      FixedIsPaging(filled);
      record.candidates := stored;
      record.frontiers := frontiers;
      reply := Found(selected);
    }

    method FirstRound(sources: seq<string>) returns (frontiers: map<string, Continuation>, all: seq<Candidate>)
      requires Increasing(sources) && log == [] && Ledger.AllPaid(traces)
      modifies this`log, this`traces
      ensures Ledger.AllPaid(traces)
      ensures Chained(map[], log) && FrontiersMatch(map[], log, frontiers) && all == CandidatesOn(log)
      ensures (forall s :: PagesOf(log, s) == if s in sources then 1 else 0)
                && forall s :: s in sources ==> s in frontiers
    {
      hide *;
      var results := SearchWave(sources, map[]);
      assert log == Attempts(results, map[]);
      frontiers := FrontiersFrom(results);
      FirstWave(sources, results, frontiers);
      all := CollectCandidates(results, [], map[]);
    }

    // search.go:66-87: further pages, round by round.
    method MorePages(request: SearchRequest, sources: seq<string>, frontiers: map<string, Continuation>,
                     all: seq<Candidate>,
                     selected: seq<Candidate>, stored: map<string, Candidate>)
      returns (frontiers': map<string, Continuation>, selected': seq<Candidate>, stored': map<string, Candidate>,
               ghost last: seq<string>, ghost rounds: int)
      requires Chained(map[], log) && FrontiersMatch(map[], log, frontiers) && all == CandidatesOn(log)
      requires forall s :: PagesOf(log, s) == if s in sources then 1 else 0
      requires (forall s :: s in sources ==> s in frontiers) && "" !in sources && request.budget.maxPages > 1
      requires CandidatesOk(env, request.scope, stored)
                 && (forall id :: id in stored <==> HasId(env, request.scope, all, id))
      requires IsResult(selected, request.limit, stored) && Ranked(env, request, all, extra, selected, stored)
                 && Ledger.AllPaid(traces)
      modifies this`log, this`traces
      ensures Ledger.AllPaid(traces)
      ensures Chained(map[], log) && FrontiersMatch(map[], log, frontiers')
      ensures forall s :: (if s in sources then 1 else 0) <= PagesOf(log, s) <= rounds <= request.budget.maxPages
      ensures rounds == request.budget.maxPages
                || forall s :: s != "" ==> !GoesOn(request, selected', last, frontiers', s)
      ensures FixedPaging(request) ==>
                forall s :: s in sources ==> PagesOf(log, s) == request.budget.maxPages || !HasMore(frontiers', s)
      ensures CandidatesOk(env, request.scope, stored')
      ensures forall id :: id in stored' <==> HasId(env, request.scope, CandidatesOn(log), id)
      ensures IsResult(selected', request.limit, stored')
                && Ranked(env, request, CandidatesOn(log), extra, selected', stored')
    {
      hide Chained, FrontiersMatch, PagesOf, CandidatesOn, HasId, CandidatesOk, IsResult, Ranked, Increasing,
        DistinctSources, CountOf,
           Ledger.AllPaid;
      frontiers', selected', stored' := frontiers, selected, stored;
      var found, latest := all, sources;
      var round := 2;
      while round <= request.budget.maxPages
        invariant 2 <= round <= request.budget.maxPages + 1
        invariant Chained(map[], log) && FrontiersMatch(map[], log, frontiers') && found == CandidatesOn(log)
        invariant forall s :: (if s in sources then 1 else 0) <= PagesOf(log, s) <= round - 1
        invariant (forall s :: s in latest ==> s in frontiers') && forall s :: s in sources ==> s in frontiers'
        invariant FixedPaging(request) ==>
                    forall s :: s in sources ==> PagesOf(log, s) == round - 1 || !HasMore(frontiers', s)
        invariant CandidatesOk(env, request.scope, stored')
                    && (forall id :: id in stored' <==> HasId(env, request.scope, found, id))
        invariant IsResult(selected', request.limit, stored') && Ranked(env, request, found, extra, selected', stored')
                    && Ledger.AllPaid(traces)
      {
        var more := ChooseNextSources(request, selected', latest, frontiers');
        FixedGoesOn(request, selected', latest, frontiers', sources, more);
        if more == [] {
          return frontiers', selected', stored', latest, round - 1;
        }
        GoingOn(request, selected', latest, frontiers', more);
        frontiers', found := NextRound(map[], more, frontiers', found);
        selected', stored' := RankCandidates(request, found);
        latest := more;
        round := round + 1;
      }
      last, rounds := latest, round - 1;
    }

    // One more page of each of these sources.
    method NextRound(ghost start: map<string, Continuation>, sources: seq<string>, frontiers: map<string, Continuation>,
                     found: seq<Candidate>)
      returns (frontiers': map<string, Continuation>, found': seq<Candidate>)
      requires Chained(start, log) && FrontiersMatch(start, log, frontiers) && Ledger.AllPaid(traces)
      requires Increasing(sources) && forall s :: s in sources ==> s in frontiers && frontiers[s].hasMore
      modifies this`log, this`traces
      ensures Chained(start, log) && FrontiersMatch(start, log, frontiers') && Ledger.AllPaid(traces)
      ensures forall s :: PagesOf(log, s) == PagesOf(old(log), s) + if s in sources then 1 else 0
      ensures forall s :: s in frontiers' <==> s in frontiers
      ensures forall s :: s in frontiers && s !in sources ==> frontiers'[s] == frontiers[s]
      ensures exists wave :: log == old(log) + wave && found' == found + CandidatesOn(wave)
                          && CandidatesOn(log) == CandidatesOn(old(log)) + CandidatesOn(wave)
                          && forall a :: a in wave ==> a.source in sources && a.cursor == frontiers[a.source].cursor
    {
      hide Chained, FrontiersMatch, PagesOf, CandidatesOn, Increasing, DistinctSources, Ledger.AllPaid;
      ghost var before := log;
      var cursors := CursorsOf(sources, frontiers);
      var results := SearchWave(sources, cursors);
      NextWave(start, before, frontiers, results, sources, cursors);
      frontiers' := MergeFrontiers(frontiers, results);
      FrontiersAfterWave(start, before, frontiers, results, cursors, frontiers');
      found' := CollectCandidates(results, found, cursors);
      ghost var wave := Attempts(results, cursors);
      CandidatesAdd(before, wave);
      WavePages(before, wave, sources);
      OthersKeepFrontiers(sources, results, frontiers, frontiers');
      forall a | a in wave
        ensures a.source in sources && a.cursor == frontiers[a.source].cursor
      {
        var i :| 0 <= i < |wave| && wave[i] == a;
        assert sources[i] in sources;
      }
    }

    // search.go:115-194
    method Continue(record: Record, scope: string, named: seq<string>, maxAdditional: int)
      returns (reply: Reply, ghost known: seq<Candidate>)
      requires CandidatesOk(env, record.scope, record.candidates)
      requires record.request.Some? ==> record.request.value.scope == record.scope
      modifies this`log, this`traces, record`candidates, record`frontiers
      ensures reply.IdentityRequired? <==> scope != record.scope
      ensures reply.InvalidRequest? <==> scope == record.scope && (record.request == None || maxAdditional > 5)
      ensures !reply.Found? ==>
                record.candidates == old(record.candidates) && record.frontiers == old(record.frontiers) && log == []
      ensures Ledger.AllPaid(traces)
      // The stored candidates, by score, and the new ones are ranked together; if no source is asked,
      // they are returned as they are.
      ensures reply.Found? ==>
                InOrder(known, CandidateRank) && exists keys :: Lists(known, keys, old(record.candidates))
      ensures reply.Found? ==>
                || (reply.candidates == known && record.candidates == old(record.candidates) && log == [])
                || (var request := WithDefaults(record.request.value);
                    && Ranked(env, request, known + CandidatesOn(log), extra, reply.candidates, record.candidates)
                    && IsResult(reply.candidates, request.limit, record.candidates))
      // Nothing that was stored is lost, and what the new pages bring is added.
      ensures CandidatesOk(env, record.scope, record.candidates)
      ensures forall id :: id in record.candidates <==>
                id in old(record.candidates) || HasId(env, record.scope, CandidatesOn(log), id)
      // The walk goes on where each source's frontier was, never from the beginning.
      ensures Chained(old(record.frontiers), log) && FrontiersMatch(old(record.frontiers), log, record.frontiers)
      ensures forall a :: a in log ==> a.cursor != ""
      ensures forall s :: PagesOf(log, s) <= if maxAdditional <= 0 then 1 else maxAdditional
      // It takes every page it may: of each source that is to continue, until none can be asked for.
      ensures reply.Found? ==>
                forall s :: s != "" && (if named == [] then HasMore(old(record.frontiers), s) else s in named) ==>
                PagesOf(log, s) == (if maxAdditional <= 0 then 1 else maxAdditional)
                  || !CanContinue(record.frontiers, s)
    {
      hide *;
      log, traces, known := [], [], [];
      Ledger.NobodyActs();
      NothingAsked(record.frontiers);
      NoIds(env, record.scope);
      if scope != record.scope {
        return IdentityRequired, known;
      }
      if record.request == None || maxAdditional > 5 {
        return InvalidRequest, known;
      }
      var request := WithDefaults(record.request.value);
      DefaultsFill(record.request.value);
      var pages := if maxAdditional <= 0 then 1 else maxAdditional;
      var listed, keys := ListInOrder(record.candidates, CandidateRank);
      known := listed;
      var open := named;
      if named == [] {
        open := WithMore(record.frontiers);
      }
      var sources := OrderedSources(open);
      assert forall s :: s in sources <==>
        s != "" && (if named == [] then HasMore(record.frontiers, s) else s in named);
      if sources == [] {
        return Found(listed), known;
      }
      var frontiers, all := ContinuePages(record.frontiers, sources, pages, listed);
      var selected, stored := RankCandidates(request, all);
      AllKept(env, scope, known, keys, record.candidates, CandidatesOn(log));
      record.candidates := stored;
      record.frontiers := frontiers;
      reply := Found(selected);
    }

    // search.go:159-176
    method ContinuePages(start: map<string, Continuation>, sources: seq<string>, pages: nat, known: seq<Candidate>)
      returns (frontiers: map<string, Continuation>, all: seq<Candidate>)
      requires log == [] && Increasing(sources) && Ledger.AllPaid(traces)
      modifies this`log, this`traces
      ensures Chained(start, log) && FrontiersMatch(start, log, frontiers) && all == known + CandidatesOn(log)
                && Ledger.AllPaid(traces)
      ensures (forall a :: a in log ==> a.cursor != "") && forall s :: PagesOf(log, s) <= pages
      ensures forall s :: s in sources ==> PagesOf(log, s) == pages || !CanContinue(frontiers, s)
    {
      hide *;
      frontiers, all := start, known;
      NothingAsked(start);
      var round := 0;
      while round < pages
        invariant round <= pages && Chained(start, log) && FrontiersMatch(start, log, frontiers)
                    && all == known + CandidatesOn(log)
        invariant (forall a :: a in log ==> a.cursor != "") && forall s :: PagesOf(log, s) <= round
        invariant (forall s :: s in sources ==> PagesOf(log, s) == round || !CanContinue(frontiers, s))
                    && Ledger.AllPaid(traces)
      {
        var active := Active(sources, frontiers);
        if active == [] {
          break;
        }
        ghost var before, was, f := log, all, frontiers;
        ActiveCanContinue(active, frontiers);
        frontiers, all := NextRound(start, active, frontiers, all);
        OthersStillCannot(active, f, frontiers);
        ghost var wave: seq<Attempt> :|
          log == before + wave && all == was + CandidatesOn(wave)
            && CandidatesOn(log) == CandidatesOn(before) + CandidatesOn(wave)
          && forall a :: a in wave ==> a.source in active && a.cursor == f[a.source].cursor;
        assert known + CandidatesOn(before) + CandidatesOn(wave) == known + (CandidatesOn(before) + CandidatesOn(wave));
        round := round + 1;
      }
    }

    // Query (internal/engine/query.go): one page of whatever the provider returns is stored.
    method Query(record: Record, scope: string, source: string) returns (reply: Reply, ghost did: seq<Ledger.Action>)
      requires CandidatesOk(env, record.scope, record.candidates)
      modifies record`candidates, record`frontiers
      ensures reply.Found? ==> source != "" && scope == record.scope
      ensures Ledger.Paid(did) && CallsIn(did) <= 1 && (reply.Found? <==> CallsIn(did) == 1)
      ensures !reply.Found? ==> record.candidates == old(record.candidates) && record.frontiers == old(record.frontiers)
      ensures CandidatesOk(env, record.scope, record.candidates)
                && old(record.candidates.Keys) <= record.candidates.Keys
      ensures reply.Found? ==> record.candidates == old(record.candidates) + ById(reply.candidates, CandidateRank)
      ensures reply.Found? ==> forall c :: c in reply.candidates ==> CandidateId(c) in record.candidates
      ensures record.frontiers == old(record.frontiers) ||
                exists provider, cursor ::
                  record.frontiers == old(record.frontiers)[source := Continuation(provider, source, cursor, true, 1)]
    {
      hide *;
      did := [];
      Ledger.NothingDone();
      NoCalls();
      if source == "" {
        return InvalidRequest, did;
      }
      if scope != record.scope {
        return IdentityRequired, did;
      }
      var ready: bool := *;
      if !ready {
        return Unsupported, did;
      }
      var granted;
      granted, did := Ledger.Ask(ONE_CALL, did);
      CallsInStep([], Ledger.Asked(ONE_CALL, granted));
      if !granted {
        return BudgetExhausted, did;
      }
      var page, failed;
      page, failed, did := CallProvider(did);
      if failed.None? {
        var size: nat := *;
        ghost var was := did;
        granted, did := Ledger.Ask(Ledger.Bytes(size), did);
        CallsInStep(was, Ledger.Asked(Ledger.Bytes(size), granted));
        if !granted {
          page := page.(hasMore := false, nextCursor := "");
        }
      }
      var provider: string := *;
      var cs := CanonicalPage(page.candidates, scope, provider);
      QueryKeepsCandidates(env, scope, record.candidates, cs);
      StoreAll(record, cs);
      if page.hasMore {
        record.frontiers := record.frontiers[source := Continuation(provider, source, page.nextCursor, true, 1)];
      }
      reply := Found(cs);
    }

    // Resolve (internal/engine/engine.go:211-255): names are looked up by a resolver or by a search.
    // The call is reserved under the account of a plan; alone, it has none.
    method Resolve(text: string, shared: bool)
      returns (reply: Resolved, ghost page: Page, ghost did: seq<Ledger.Action>)
      ensures reply.BlankText? <==> Text.TrimSpace(text) == ""
      ensures CallsIn(did) <= 1 && (reply.Refs? ==> CallsIn(did) == 1)
      ensures shared ==> Ledger.Paid(did) && (reply.OverBudget? ==> exists a :: a in did && a.Asked? && !a.granted)
      ensures !shared ==> !reply.OverBudget? && forall a :: a in did ==> a.Called?
      ensures reply.Refs? && !reply.resolver ==>
                |reply.refs| == |page.candidates|
                  && forall i :: 0 <= i < |reply.refs| ==> reply.refs[i] == page.candidates[i].ref
    {
      hide *;
      did, page := [], NO_PAGE;
      Ledger.NothingDone();
      NoCalls();
      if Text.TrimSpace(text) == "" {
        return BlankText, page, did;
      }
      var granted := true;
      if shared {
        granted, did := Ledger.Ask(ONE_CALL, did);
        CallsInStep([], Ledger.Asked(ONE_CALL, granted));
        if !granted {
          return OverBudget, page, did;
        }
      }
      var ready: bool, resolver: bool, failed: bool := *, *, *;
      if !ready {
        return NotSupported, page, did;
      }
      var refs: seq<ObjectRef> := *;
      ghost var was := did;
      did := did + [Ledger.Called];
      CallsInStep(was, Ledger.Called);
      if shared {
        Ledger.CallPaid(was);
      }
      if failed {
        return CallFailed, page, did;
      }
      if !resolver {
        var answer: Page := *;
        page := answer;
        refs := [];
        for i := 0 to |answer.candidates|
          invariant |refs| == i && forall j :: 0 <= j < i ==> refs[j] == answer.candidates[j].ref
        {
          refs := refs + [answer.candidates[i].ref];
        }
      }
      if shared {
        var size: nat := *;
        was := did;
        granted, did := Ledger.Ask(Ledger.Bytes(size), did);
        CallsInStep(was, Ledger.Asked(Ledger.Bytes(size), granted));
        if !granted {
          return OverBudget, page, did;
        }
      }
      reply := Refs(refs, resolver);
    }

    // query.go:66-72
    method CanonicalPage(candidates: seq<Candidate>, scope: string, provider: string) returns (cs: seq<Candidate>)
      ensures |cs| == |candidates|
      ensures forall i :: 0 <= i < |cs| ==>
                && Canonical(env, cs[i], scope) && CandidateId(cs[i]) == IdOf(env, scope, candidates[i])
                && cs[i].ref.provider == Objects.Or(candidates[i].ref.provider, provider)
    {
      hide Canonical, Fingerprint, IdFromUrl;
      cs := [];
      for i := 0 to |candidates|
        invariant |cs| == i
        invariant forall j :: 0 <= j < i ==>
                    && Canonical(env, cs[j], scope) && CandidateId(cs[j]) == IdOf(env, scope, candidates[j])
                    && cs[j].ref.provider == Objects.Or(candidates[j].ref.provider, provider)
      {
        var c := Canonicalize(env, candidates[i], scope);
        CanonicalizeIsCanonical(env, candidates[i], scope);
        ProviderKeepsCanonical(env, c, scope, Objects.Or(c.ref.provider, provider));
        cs := cs + [c.(ref := c.ref.(provider := Objects.Or(c.ref.provider, provider)))];
      }
    }

    // query.go:79-81
    method StoreAll(record: Record, cs: seq<Candidate>)
      modifies record`candidates
      ensures record.candidates == old(record.candidates) + ById(cs, CandidateRank)
    {
      for i := 0 to |cs|
        invariant record.candidates == old(record.candidates) + ById(cs[..i], CandidateRank)
      {
        assert cs[..i + 1][..i] == cs[..i];
        record.candidates := record.candidates[cs[i].ref.canonical := cs[i]];
      }
      assert cs[..|cs|] == cs;
    }
  }

  lemma QueryKeepsCandidates(env: Env, scope: string, m: map<string, Candidate>, cs: seq<Candidate>)
    requires CandidatesOk(env, scope, m) && forall i :: 0 <= i < |cs| ==> Canonical(env, cs[i], scope)
    ensures CandidatesOk(env, scope, m + ById(cs, CandidateRank)) && m.Keys <= (m + ById(cs, CandidateRank)).Keys
    ensures forall c :: c in cs ==> CandidateId(c) in m + ById(cs, CandidateRank)
  {
    hide Canonical, ById;
    ByIdOfDistinct(cs, CandidateRank);
    var more := ById(cs, CandidateRank);
    forall k | k in more
      ensures CandidateRank(more[k]).id == k && Canonical(env, more[k], scope)
    {
      assert more[k] in cs;
    }
    forall c | c in cs
      ensures CandidateId(c) in more
    {
      assert CandidateRank(c).id in more;
    }
    OkTogether(env, scope, m, more);
  }

  lemma OkTogether(env: Env, scope: string, m: map<string, Candidate>, more: map<string, Candidate>)
    requires CandidatesOk(env, scope, m) && CandidatesOk(env, scope, more)
    ensures CandidatesOk(env, scope, m + more)
  {
    hide Canonical;
  }

  lemma ProviderKeepsCanonical(env: Env, c: Candidate, scope: string, provider: string)
    requires Canonical(env, c, scope)
    ensures Canonical(env, c.(ref := c.ref.(provider := provider)), scope)
  {
  }

  lemma NoIds(env: Env, scope: string)
    ensures forall id :: !HasId(env, scope, CandidatesOn([]), id)
  {
  }

  // Ranking what a snapshot lists together with new candidates keeps all stored ids.
  lemma AllKept(env: Env, scope: string, known: seq<Candidate>, keys: seq<string>, m: map<string, Candidate>,
                more: seq<Candidate>)
    requires CandidatesOk(env, scope, m) && Lists(known, keys, m)
    ensures forall id :: HasId(env, scope, known + more, id) <==> id in m || HasId(env, scope, more, id)
  {
    hide *;
    forall id
      ensures HasId(env, scope, known + more, id) <==> id in m || HasId(env, scope, more, id)
    {
      HasIdConcat(env, scope, known, more, id);
      ListedIds(env, scope, known, keys, m, id);
    }
  }

  lemma OthersStillCannot(active: seq<string>, before: map<string, Continuation>, after: map<string, Continuation>)
    requires (forall s :: s in after <==> s in before)
               && forall s :: s in before && s !in active ==> after[s] == before[s]
    ensures forall s :: s !in active ==> (CanContinue(after, s) <==> CanContinue(before, s))
  {
  }

  lemma ActiveCanContinue(active: seq<string>, frontiers: map<string, Continuation>)
    requires forall s :: s in active ==> CanContinue(frontiers, s)
    ensures forall s :: s in active ==> s in frontiers && frontiers[s].hasMore && frontiers[s].cursor != ""
  {
  }

  // The sources with more pages, in an arbitrary order.
  method WithMore(frontiers: map<string, Continuation>) returns (sources: seq<string>)
    ensures forall s :: s in sources <==> HasMore(frontiers, s)
  {
    sources := [];
    var left := frontiers.Keys;
    while left != {}
      invariant left <= frontiers.Keys
      invariant forall s :: s in sources <==> s in frontiers.Keys - left && frontiers[s].hasMore
    {
      var s :| s in left;
      if frontiers[s].hasMore {
        sources := sources + [s];
      }
      left := left - {s};
    }
  }

  // search.go:160-168
  method Active(sources: seq<string>, frontiers: map<string, Continuation>) returns (active: seq<string>)
    requires Increasing(sources)
    ensures Increasing(active)
    ensures forall s :: s in active <==> s in sources && CanContinue(frontiers, s)
  {
    hide Text.Less;
    active := [];
    for i := 0 to |sources|
      invariant Increasing(active)
      invariant forall s :: s in active <==>
                  s in sources[..i] && s in frontiers && frontiers[s].hasMore && frontiers[s].cursor != ""
    {
      var s := sources[i];
      assert sources[..i + 1] == sources[..i] + [s];
      if s in frontiers && frontiers[s].hasMore && frontiers[s].cursor != "" {
        forall j | 0 <= j < |active|
          ensures Text.Less(active[j], s)
        {
          assert active[j] in active;
          var k :| 0 <= k < i && sources[k] == active[j];
        }
        active := active + [s];
      }
    }
    assert sources[..|sources|] == sources;
  }

  lemma IncreasingIsDistinct(keys: seq<string>)
    requires Increasing(keys)
    ensures forall i, j :: 0 <= i < j < |keys| ==> keys[i] != keys[j]
  {
    hide Text.Less;
    forall i, j | 0 <= i < j < |keys|
      ensures keys[i] != keys[j]
    {
      Text.LessTrichotomy(keys[i], keys[j]);
    }
  }

  lemma {:induction false} NoMoreThanAll(env: Env, scope: string, all: seq<Candidate>)
    ensures |Collected(env, scope, all)| <= |all|
  {
    hide Canonicalize, Merge;
    if all != [] {
      NoMoreThanAll(env, scope, all[..|all| - 1]);
      var merged, c := Collected(env, scope, all[..|all| - 1]), Canonicalize(env, all[|all| - 1], scope);
      assert Collected(env, scope, all).Keys == merged.Keys + {c.ref.canonical};
    }
  }

  lemma MemberFor(ranked: seq<Candidate>, merged: map<string, Candidate>, config: Config, extra: Candidate -> real,
                  id: string)
    returns (c: Candidate)
    requires IsRanking(ranked, merged, config, extra) && id in merged
    ensures c in ranked && c.ref.canonical == id
  {
    hide ByScore, Score;
    assert id in merged.Keys;
    c :| c in ranked && c.ref.canonical == id;
  }

  lemma QuotaAsked(request: SearchRequest, useQuota: bool)
    ensures FullConfig(request, useQuota).useQuota == useQuota
    ensures FullConfig(request, useQuota).quotas == FullConfig(request, true).quotas
  {
  }

  // The two rankings differ in the scores only.
  lemma SameStored(env: Env, scope: string, all: seq<Candidate>, one: seq<Candidate>, two: seq<Candidate>,
                   a: Config, b: Config, extra1: Candidate -> real, extra2: Candidate -> real)
    requires IsRanking(one, Collected(env, scope, all), a, extra1)
               && IsRanking(two, Collected(env, scope, all), b, extra2)
    ensures forall c :: c in two ==>
              c.ref.canonical in ById(one, CandidateRank)
              && ById(one, CandidateRank)[c.ref.canonical].(score := c.score) == c
  {
    hide Collected, Score, IsRanking, ById, CandidatesOk, HasId;
    var merged := Collected(env, scope, all);
    RankedIsStored(env, scope, all, one, a, extra1);
    forall c | c in two
      ensures c.ref.canonical in ById(one, CandidateRank)
                && ById(one, CandidateRank)[c.ref.canonical].(score := c.score) == c
    {
      RankedMember(two, merged, b, extra2, c);
      var d := MemberFor(one, merged, a, extra1, c.ref.canonical);
      RankedMember(one, merged, a, extra1, d);
    }
  }

  lemma StoredIsStore(env: Env, request: SearchRequest, all: seq<Candidate>, one: seq<Candidate>,
                      extra: Candidate -> real)
    requires IsRanking(one, Collected(env, request.scope, all), FullConfig(request, false), extra)
    ensures IsStore(env, request, all, extra, ById(one, CandidateRank))
  {
    hide Collected, Score, IsRanking, ById, CandidatesOk, HasId, Scored, FullConfig;
    var merged, config, m := Collected(env, request.scope, all), FullConfig(request, false), ById(one, CandidateRank);
    RankedIsStored(env, request.scope, all, one, config, extra);
    RankingLength(one, merged, config, extra);
    assert DistinctIds(one, CandidateRank);
    ByIdOfDistinct(one, CandidateRank);
    forall id
      ensures id in m <==> id in merged
      ensures id in m ==> m[id] == Scored(config, extra, merged[id])
    {
      if id in merged {
        var c := MemberFor(one, merged, config, extra, id);
        RankedMember(one, merged, config, extra, c);
      }
      if id in m {
        assert m[id] in one;
        RankedMember(one, merged, config, extra, m[id]);
      }
    }
  }

  lemma SelectedIsResult(env: Env, request: SearchRequest, all: seq<Candidate>, one: seq<Candidate>,
                         two: seq<Candidate>,
                         extra1: Candidate -> real, extra2: Candidate -> real)
    requires IsRanking(one, Collected(env, request.scope, all), FullConfig(request, false), extra1)
    requires IsRanking(two, Collected(env, request.scope, all), FullConfig(request, request.config.useQuota), extra2)
    ensures IsResult(Chosen(request, two), request.limit, ById(one, CandidateRank))
  {
    hide IsRanking, ByScore, Select, Of, Collected, ById, IsResult, Scored, Score;
    var config := FullConfig(request, request.config.useQuota);
    var n := if request.limit <= 0 || request.limit > |two| then |two| else request.limit;
    StoredCount(env, request.scope, all, one, FullConfig(request, false), extra1);
    StoredCount(env, request.scope, all, two, config, extra2);
    FusedIsRanked(two, Collected(env, request.scope, all), config, extra2, n);
    SameStored(env, request.scope, all, one, two, FullConfig(request, false), config, extra1, extra2);
    AsResult(Chosen(request, two), request.limit, ById(one, CandidateRank));
  }

  lemma RankedTwice(env: Env, request: SearchRequest, all: seq<Candidate>, extra: nat -> Candidate -> real,
                    selected: seq<Candidate>,
                    stored: map<string, Candidate>, ranked: seq<Candidate>, i: nat, j: nat)
    requires IsStore(env, request, all, extra(i), stored)
    requires IsRanking(ranked, Collected(env, request.scope, all), FullConfig(request, request.config.useQuota),
                       extra(j))
    requires var n := if request.limit <= 0 || request.limit > |ranked| then |ranked| else request.limit;
             selected == if request.config.useQuota then Select(ranked, FullConfig(request, true).quotas, n)
               else ranked[..n]
    ensures selected == Chosen(request, ranked) && Ranked(env, request, all, extra, selected, stored)
  {
    hide IsStore, IsRanking, Collected, Select, FullConfig;
    assert IsSelection(env, request, all, extra(j), selected);
  }

  lemma AsResult(candidates: seq<Candidate>, limit: int, stored: map<string, Candidate>)
    requires ByScore(candidates) && |candidates| == if limit <= 0 || limit > |stored| then |stored| else limit
    requires forall c :: c in candidates ==>
               c.ref.canonical in stored && stored[c.ref.canonical].(score := c.score) == c
    requires DistinctKeys(candidates, CandidateId)
    ensures IsResult(candidates, limit, stored)
  {
  }

  lemma StoredCount(env: Env, scope: string, all: seq<Candidate>, ranked: seq<Candidate>, config: Config,
                    extra: Candidate -> real)
    requires IsRanking(ranked, Collected(env, scope, all), config, extra)
    ensures |ById(ranked, CandidateRank)| == |Collected(env, scope, all)| == |ranked|
  {
    hide Collected, Score;
    RankingLength(ranked, Collected(env, scope, all), config, extra);
    ByIdOfDistinct(ranked, CandidateRank);
    assert DistinctIds(ranked, CandidateRank);
  }

  lemma FixedGoesOn(request: SearchRequest, selected: seq<Candidate>, last: seq<string>,
                    frontiers: map<string, Continuation>,
                    sources: seq<string>, more: seq<string>)
    requires "" !in sources && forall s :: s in more <==> s != "" && GoesOn(request, selected, last, frontiers, s)
    ensures FixedPaging(request) ==> forall s :: s in sources ==> (s in more <==> HasMore(frontiers, s))
  {
    hide CountOf;
  }

  lemma FixedIsPaging(request: SearchRequest)
    ensures FixedPaging(request) ==> request.pagination != "none"
  {
  }

  lemma NothingAsked(start: map<string, Continuation>)
    ensures Chained(start, []) && FrontiersMatch(start, [], start) && (forall s :: PagesOf([], s) == 0)
              && CandidatesOn([]) == []
  {
  }

  // collectCandidates, appended to what is there.
  method CollectCandidates(results: seq<PageResult>, before: seq<Candidate>, ghost cursors: map<string, string>)
    returns (all: seq<Candidate>)
    ensures all == before + CandidatesOn(Attempts(results, cursors))
  {
    ghost var wave := Attempts(results, cursors);
    all := before;
    for i := 0 to |results|
      invariant all == before + CandidatesOn(wave[..i])
    {
      assert wave[..i + 1][..i] == wave[..i];
      all := all + results[i].page.candidates;
    }
    assert wave[..|results|] == wave;
  }

  lemma FirstWave(sources: seq<string>, results: seq<PageResult>, frontiers: map<string, Continuation>)
    requires |results| == |sources| && forall i :: 0 <= i < |sources| ==> results[i].source == sources[i]
    requires DistinctSources(Attempts(results, map[]))
    requires AreFrontiers(frontiers, results)
    ensures Chained(map[], Attempts(results, map[])) && FrontiersMatch(map[], Attempts(results, map[]), frontiers)
    ensures forall s :: PagesOf(Attempts(results, map[]), s) == if s in sources then 1 else 0
    ensures forall s :: s in sources ==> s in frontiers
  {
    hide Chained, FrontiersMatch, PagesOf;
    var wave := Attempts(results, map[]);
    assert [] + wave == wave;
    NothingAsked(map[]);
    forall i, j | 0 <= i < j < |results|
      ensures results[i].source != results[j].source
    {
      assert wave[i].source != wave[j].source;
    }
    ChainGrows(map[], [], wave);
    FrontiersAfterWave(map[], [], map[], results, map[], frontiers);
    WavePages([], wave, sources);
  }

  lemma OthersKeepFrontiers(sources: seq<string>, results: seq<PageResult>, before: map<string, Continuation>,
                            m: map<string, Continuation>)
    requires |results| == |sources| && forall i :: 0 <= i < |sources| ==> results[i].source == sources[i]
    requires forall s :: s in sources ==> s in before
    requires forall i :: 0 <= i < |results| ==> Holds(m, results[i])
    requires forall s :: (forall i :: 0 <= i < |results| ==> results[i].source != s) ==>
               (s in m <==> s in before) && (s in m ==> m[s] == before[s])
    ensures forall s :: s in m <==> s in before
    ensures forall s :: s in before && s !in sources ==> m[s] == before[s]
  {
    forall s
      ensures s in m <==> s in before
      ensures s in before && s !in sources ==> m[s] == before[s]
    {
      if s in sources {
        var i :| 0 <= i < |sources| && sources[i] == s;
        assert Holds(m, results[i]);
      } else {
        forall i | 0 <= i < |results|
          ensures results[i].source != s
        {
          assert sources[i] in sources;
        }
      }
    }
  }

  lemma GoingOn(request: SearchRequest, selected: seq<Candidate>, last: seq<string>,
                frontiers: map<string, Continuation>, more: seq<string>)
    requires forall s :: s in more ==> GoesOn(request, selected, last, frontiers, s)
    ensures forall s :: s in more ==> s in frontiers && frontiers[s].hasMore
  {
  }

  function CursorsOf(sources: seq<string>, frontiers: map<string, Continuation>): map<string, string>
    requires forall s :: s in sources ==> s in frontiers
  {
    map s | s in sources :: frontiers[s].cursor
  }

  lemma NextWave(start: map<string, Continuation>, log: seq<Attempt>, frontiers: map<string, Continuation>,
                 results: seq<PageResult>,
                 sources: seq<string>, cursors: map<string, string>)
    requires Chained(start, log) && FrontiersMatch(start, log, frontiers)
    requires forall s :: s in sources ==> s in frontiers && frontiers[s].hasMore
    requires cursors == CursorsOf(sources, frontiers)
    requires |results| == |sources| && forall i :: 0 <= i < |sources| ==> results[i].source == sources[i]
    requires DistinctSources(Attempts(results, cursors))
    ensures Chained(start, log + Attempts(results, cursors))
    ensures forall i, j :: 0 <= i < j < |results| ==> results[i].source != results[j].source
  {
    hide Chained, FrontiersMatch, Follows;
    var wave := Attempts(results, cursors);
    forall i | 0 <= i < |wave|
      ensures Follows(start, log, wave[i].source, wave[i].cursor)
    {
      assert sources[i] in sources;
      FollowsFrontier(start, log, frontiers, sources[i]);
    }
    forall i, j | 0 <= i < j < |results|
      ensures results[i].source != results[j].source
    {
      assert wave[i].source != wave[j].source;
    }
    ChainGrows(start, log, wave);
  }
}
