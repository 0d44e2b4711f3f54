// Search requests, their defaults and their validation: kernel/types.go:255-409.
module Requests {
  import opened Fusion
  import Ledger
  import Text

  // `config.useQuota` is the strategy's SourceQuota, `noQuota` its DisableSourceQuota.
  datatype SearchRequest = SearchRequest(
    query: string, sources: seq<string>, scope: string, limit: int, perSource: int, profile: string, fusion: string,
    pagination: string, noQuota: bool, config: Config, strategyQuotas: map<string, int>, budget: Ledger.Spec)

  // SearchStrategy.WithDefaults
  function WithStrategy(r: SearchRequest): SearchRequest {
    var named := Text.ToLower(Text.TrimSpace(r.profile));
    var profile := if named == "" then "balanced" else named;
    r.(profile := profile,
       fusion := if r.fusion == "" then "weighted_rrf" else r.fusion,
       pagination := if r.pagination != "" then r.pagination else if profile == "fast" then "none" else "adaptive",
       config := r.config.(k0 := K0(r.config), useQuota := !r.noQuota))
  }

  function WithLimits(r: SearchRequest, limit: int, perSource: int, deadlineMs: int, maxPages: int,
                      maxFetches: int): SearchRequest {
    var b := r.budget;
    r.(limit := Ledger.Or(r.limit, limit), perSource := Ledger.Or(r.perSource, perSource),
       budget :=
         Ledger.WithDefaults(b.(deadlineMs := Ledger.Or(b.deadlineMs, deadlineMs),
                                maxPages := Ledger.Or(b.maxPages, maxPages),
                                        maxFetches := Ledger.Or(b.maxFetches, maxFetches))))
  }

  // SearchRequest.WithDefaults
  function WithDefaults(r: SearchRequest): SearchRequest {
    var s := WithStrategy(r);
    if s.profile == "fast" then WithLimits(s, 25, 5, 4000, 1, 0)
    else if s.profile == "deep" then WithLimits(s, 60, 10, 15000, 2, 20)
    else WithLimits(s, 40, 8, 8000, 2, 0)
  }

  // SearchRequest.Validate
  predicate Valid(r: SearchRequest) {
    && Text.TrimSpace(r.query) != "" && r.limit >= 0 && r.perSource >= 0
    && r.profile in {"fast", "balanced", "deep"} && r.fusion in {"weighted_rrf"}
    && r.pagination in {"none", "adaptive", "fixed"}
  }

  // What a caller may write: a query, and of each choice one that is known, or none. The limits do
  // not matter, since one that is not positive is replaced.
  predicate Acceptable(r: SearchRequest) {
    && Text.TrimSpace(r.query) != ""
    && Text.ToLower(Text.TrimSpace(r.profile)) in {"", "fast", "balanced", "deep"}
    && r.fusion in {"", "weighted_rrf"} && r.pagination in {"", "none", "adaptive", "fixed"}
  }

  lemma AcceptedRequests(r: SearchRequest)
    ensures Valid(WithDefaults(r)) <==> Acceptable(r)
  {
    hide Text.ToLower, Text.TrimSpace;
  }

  // What is named is kept, and everything a search needs has a value.
  lemma DefaultsFill(r: SearchRequest)
    ensures var d := WithDefaults(r);
            && d.query == r.query && d.sources == r.sources && d.scope == r.scope
            && d.strategyQuotas == r.strategyQuotas
            && d.limit > 0 && (r.limit > 0 ==> d.limit == r.limit) && d.perSource > 0
            && (r.perSource > 0 ==> d.perSource == r.perSource)
            && d.budget.maxPages > 0 && (r.budget.maxPages > 0 ==> d.budget.maxPages == r.budget.maxPages)
            && d.budget.maxCalls == Ledger.WithDefaults(r.budget).maxCalls
            && (r.pagination != "" ==> d.pagination == r.pagination) && d.config.k0 > 0.0
            && d.config.weights == r.config.weights
            && d.config.useQuota == !r.noQuota
  {
    hide Text.ToLower, Text.TrimSpace;
  }

  // Unless it says otherwise, a fast search takes the first page of each source and no more, and a
  // deep one finds more than a balanced one.
  lemma ProfilesDiffer(r: SearchRequest)
    requires r.limit <= 0 && r.budget.maxPages <= 0 && r.pagination == ""
    ensures var d := WithDefaults(r);
            && (d.profile == "fast" ==> d.pagination == "none" && d.budget.maxPages == 1 && d.limit == 25)
            && (d.profile == "deep" ==> d.pagination == "adaptive" && d.budget.maxPages == 2 && d.limit == 60)
            && (d.profile == "balanced" ==> d.pagination == "adaptive" && d.budget.maxPages == 2 && d.limit == 40)
  {
    hide Text.ToLower, Text.TrimSpace;
  }

  // The stored request has its defaults already: to fill them in again, as continuing a search
  // does, changes nothing.
  lemma DefaultsTwice(r: SearchRequest)
    ensures WithDefaults(WithDefaults(r)) == WithDefaults(r)
  {
    hide Text.ToLower, Text.TrimSpace;
    Text.TrimmedLower(r.profile);
    Text.LowerNames();
  }
}
