// matchBatchArtifacts of internal/engine/fetch.go: provider output is matched to requests by id,
// and by position only where no id matched.
module BatchMatch {
  import opened Objects

  predicate Matches(req: ObjectRef, a: ObjectRef) {
    (req.canonical != "" && a.canonical == req.canonical) || (req.native != "" && a.native == req.native)
  }

  // The first artifact from position j on that is free and matches; |arts| if there is none.
  function FirstFree(req: ObjectRef, arts: seq<Artifact>, used: set<nat>, j: nat): (r: nat)
    requires j <= |arts|
    ensures j <= r <= |arts|
    ensures r < |arts| ==> r !in used && Matches(req, arts[r].ref)
    ensures forall k :: j <= k < r ==> k in used || !Matches(req, arts[k].ref)
    decreases |arts| - j
  {
    if j == |arts| || (j !in used && Matches(req, arts[j].ref)) then j
    else FirstFree(req, arts, used, j + 1)
  }

  function Range(m: map<nat, nat>): set<nat> {
    set i | i in m :: m[i]
  }

  // The positions matched by id for the first n requests.
  function IdMatch(reqs: seq<ObjectRef>, arts: seq<Artifact>, n: nat): map<nat, nat>
    requires n <= |reqs|
  {
    if n == 0 then map[]
    else
      var m := IdMatch(reqs, arts, n - 1);
      var j := FirstFree(reqs[n - 1], arts, Range(m), 0);
      if j < |arts| then m[n - 1 := j] else m
  }

  // With the positions that the first n unmatched requests fall back to.
  function WithFallback(byId: map<nat, nat>, n: nat, arts: nat): map<nat, nat> {
    byId + map i | 0 <= i < n && i !in byId && i < arts && i !in Range(byId) :: i
  }

  function Match(reqs: seq<ObjectRef>, arts: seq<Artifact>): map<nat, nat> {
    WithFallback(IdMatch(reqs, arts, |reqs|), |reqs|, |arts|)
  }

  ghost predicate Injective(m: map<nat, nat>) {
    forall i, j :: i in m && j in m && m[i] == m[j] ==> i == j
  }

  lemma RangePut(m: map<nat, nat>, i: nat, j: nat)
    requires i !in m
    ensures Range(m[i := j]) == Range(m) + {j}
    ensures Injective(m) && j !in Range(m) ==> Injective(m[i := j])
  {
    var m' := m[i := j];
    forall x | x in Range(m) + {j}
      ensures x in Range(m')
    {
      if x == j {
        assert m'[i] == j;
      } else {
        var k :| k in m && m[k] == x;
        assert m'[k] == x;
      }
    }
    assert forall k :: k in m ==> m[k] in Range(m);
  }

  lemma {:induction false} IdMatchOk(reqs: seq<ObjectRef>, arts: seq<Artifact>, n: nat)
    requires n <= |reqs|
    ensures Injective(IdMatch(reqs, arts, n))
    ensures forall i :: i in IdMatch(reqs, arts, n) ==>
              i < n && IdMatch(reqs, arts, n)[i] < |arts| && Matches(reqs[i], arts[IdMatch(reqs, arts, n)[i]].ref)
  {
    if n > 0 {
      hide Range, Injective, Matches;
      IdMatchOk(reqs, arts, n - 1);
      RangePut(IdMatch(reqs, arts, n - 1), n - 1, FirstFree(reqs[n - 1], arts, Range(IdMatch(reqs, arts, n - 1)), 0));
    } else {
      assert Injective(map[]);
    }
  }

  // No artifact serves two requests. A request is served by an artifact that matches it by id,
  // or by the one at its own position, and then that one serves no request by id.
  lemma MatchIsInjective(reqs: seq<ObjectRef>, arts: seq<Artifact>)
    ensures Injective(Match(reqs, arts))
    ensures forall i :: i in Match(reqs, arts) ==>
              && i < |reqs| && Match(reqs, arts)[i] < |arts|
              && (Matches(reqs[i], arts[Match(reqs, arts)[i]].ref) ||
                  (Match(reqs, arts)[i] == i && i !in Range(IdMatch(reqs, arts, |reqs|))))
  {
    hide IdMatch, Matches;
    IdMatchOk(reqs, arts, |reqs|);
    var m := IdMatch(reqs, arts, |reqs|);
    assert forall i :: i in m ==> m[i] in Range(m);
  }

  // A request goes without an artifact only if every artifact that matches it serves another
  // request, and the one at its position, if any, does too.
  lemma UnmatchedHasNothingLeft(reqs: seq<ObjectRef>, arts: seq<Artifact>, i: nat)
    requires i < |reqs| && i !in Match(reqs, arts)
    ensures forall j :: 0 <= j < |arts| && Matches(reqs[i], arts[j].ref) ==> j in Range(IdMatch(reqs, arts, |reqs|))
    ensures i < |arts| ==> i in Range(IdMatch(reqs, arts, |reqs|))
  {
    IdMatchGrows(reqs, arts, i + 1, |reqs|);
    var before := IdMatch(reqs, arts, i);
    IdMatchGrows(reqs, arts, i, |reqs|);
    GrowsRange(before, IdMatch(reqs, arts, |reqs|));
    assert i !in IdMatch(reqs, arts, i + 1);
    assert FirstFree(reqs[i], arts, Range(before), 0) == |arts|;
  }

  ghost predicate Grows(m: map<nat, nat>, m': map<nat, nat>) {
    forall i :: i in m ==> i in m' && m'[i] == m[i]
  }

  lemma GrowsRange(m: map<nat, nat>, m': map<nat, nat>)
    requires Grows(m, m')
    ensures Range(m) <= Range(m')
  {
    forall i | i in m
      ensures m[i] in Range(m')
    {
      assert m'[i] == m[i];
    }
  }

  lemma GrowsSame(m: map<nat, nat>)
    ensures Grows(m, m)
  {
  }

  lemma GrowsPut(m: map<nat, nat>, m': map<nat, nat>, i: nat, j: nat)
    requires Grows(m, m') && i !in m'
    ensures Grows(m, m'[i := j])
  {
  }

  lemma {:induction false} IdMatchGrows(reqs: seq<ObjectRef>, arts: seq<Artifact>, n: nat, k: nat)
    requires n <= k <= |reqs|
    ensures Grows(IdMatch(reqs, arts, n), IdMatch(reqs, arts, k))
    decreases k - n
  {
    hide Range, FirstFree, Injective, Matches, Grows;
    if n == k {
      GrowsSame(IdMatch(reqs, arts, n));
    } else {
      IdMatchGrows(reqs, arts, n, k - 1);
      var m := IdMatch(reqs, arts, k - 1);
      var j := FirstFree(reqs[k - 1], arts, Range(m), 0);
      IdMatchOk(reqs, arts, k - 1);
      GrowsPut(IdMatch(reqs, arts, n), m, k - 1, j);
    }
  }

  // own[i] is the one artifact that matches request i, and matches no other request.
  ghost predicate OwnArtifact(reqs: seq<ObjectRef>, arts: seq<Artifact>, own: seq<nat>) {
    && |own| == |reqs|
    && (forall i :: 0 <= i < |reqs| ==> own[i] < |arts|)
    && (forall i, j :: 0 <= i < |reqs| && 0 <= j < |arts| ==> (Matches(reqs[i], arts[j].ref) <==> own[i] == j))
  }

  function FirstOwn(own: seq<nat>, n: nat): map<nat, nat>
    requires n <= |own|
  {
    map i: nat | i < n :: own[i]
  }

  lemma FirstOwnStep(own: seq<nat>, n: nat)
    requires n < |own|
    ensures FirstOwn(own, n + 1) == FirstOwn(own, n)[n := own[n]]
    ensures (forall i, j :: 0 <= i < j < |own| ==> own[i] != own[j]) ==> own[n] !in Range(FirstOwn(own, n))
  {
  }

  lemma {:induction false} OwnIdMatch(reqs: seq<ObjectRef>, arts: seq<Artifact>, own: seq<nat>, n: nat)
    requires OwnArtifact(reqs, arts, own) && n <= |reqs|
    requires forall i, j :: 0 <= i < j < |own| ==> own[i] != own[j]
    ensures IdMatch(reqs, arts, n) == FirstOwn(own, n)
  {
    hide Matches, Range, FirstFree, FirstOwn;
    if n == 0 {
      NoneOwn(own);
    } else {
      OwnIdMatch(reqs, arts, own, n - 1);
      FirstOwnStep(own, n - 1);
      OwnIsFirst(reqs, arts, own, n - 1, Range(FirstOwn(own, n - 1)));
    }
  }

  lemma NoneOwn(own: seq<nat>)
    ensures FirstOwn(own, 0) == map[]
  {
  }

  lemma OwnIsFirst(reqs: seq<ObjectRef>, arts: seq<Artifact>, own: seq<nat>, i: nat, used: set<nat>)
    requires OwnArtifact(reqs, arts, own) && i < |reqs| && own[i] !in used
    ensures FirstFree(reqs[i], arts, used, 0) == own[i] && own[i] < |arts|
  {
    hide Matches;
    assert Matches(reqs[i], arts[own[i]].ref);
  }

  // When ids pair requests with artifacts one to one, each request gets its own artifact in
  // whatever order the provider returned them.
  lemma OrderDoesNotMatter(reqs: seq<ObjectRef>, arts: seq<Artifact>, own: seq<nat>)
    requires OwnArtifact(reqs, arts, own)
    requires forall i, j :: 0 <= i < j < |own| ==> own[i] != own[j]
    ensures Match(reqs, arts) == map i: nat | i < |reqs| :: own[i]
  {
    OwnIdMatch(reqs, arts, own, |reqs|);
  }

  method MatchBatchArtifacts(reqs: seq<ObjectRef>, arts: seq<Artifact>) returns (out: map<nat, Artifact>)
    ensures Serves(out, Match(reqs, arts), arts)
  {
    hide IdMatch, Range, WithFallback;
    var used := new bool[|arts|](_ => false);
    var byId := MatchById(reqs, arts, used);
    IdMatchOk(reqs, arts, |reqs|);
    out := FallBack(|reqs|, arts, used, IdMatch(reqs, arts, |reqs|), byId);
  }

  // The second pass, by position.
  method FallBack(n: nat, arts: seq<Artifact>, used: array<bool>, ghost m: map<nat, nat>, byId: map<nat, Artifact>)
    returns (out: map<nat, Artifact>)
    requires used.Length == |arts| && Used(used[..], m) && Serves(byId, m, arts)
    modifies used
    ensures Serves(out, WithFallback(m, n, |arts|), arts)
  {
    hide Range, WithFallback, Serves;
    out := byId;
    NoFallback(m, |arts|);
    for i := 0 to n
      invariant Serves(out, WithFallback(m, i, |arts|), arts)
      invariant forall j :: i <= j < |arts| ==> (used[j] <==> j in Range(m))
    {
      FallbackStep(m, i, |arts|);
      ServesKeys(out, WithFallback(m, i, |arts|), arts);
      if i in out {
        continue;
      }
      if i < |arts| && !used[i] {
        ServesPut(out, WithFallback(m, i, |arts|), arts, i);
        out := out[i := arts[i]];
        used[i] := true;
      }
    }
  }

  lemma ServesKeys(out: map<nat, Artifact>, m: map<nat, nat>, arts: seq<Artifact>)
    requires Serves(out, m, arts)
    ensures out.Keys == m.Keys
  {
  }

  lemma ServesPut(out: map<nat, Artifact>, m: map<nat, nat>, arts: seq<Artifact>, i: nat)
    requires Serves(out, m, arts) && i < |arts|
    ensures Serves(out[i := arts[i]], m[i := i], arts)
  {
  }

  lemma NoFallback(byId: map<nat, nat>, arts: nat)
    ensures WithFallback(byId, 0, arts) == byId
  {
  }

  lemma FallbackStep(byId: map<nat, nat>, i: nat, arts: nat)
    ensures i in WithFallback(byId, i, arts) <==> i in byId
    ensures WithFallback(byId, i + 1, arts)
            == if i !in byId && i < arts && i !in Range(byId) then WithFallback(byId, i, arts)[i := i]
               else WithFallback(byId, i, arts)
  {
    hide Range;
  }

  // The first pass, by id.
  method MatchById(reqs: seq<ObjectRef>, arts: seq<Artifact>, used: array<bool>) returns (out: map<nat, Artifact>)
    requires used.Length == |arts| && forall j :: 0 <= j < |arts| ==> !used[j]
    modifies used
    ensures Serves(out, IdMatch(reqs, arts, |reqs|), arts) && Used(used[..], IdMatch(reqs, arts, |reqs|))
  {
    hide Range, Matches, FirstFree, IdMatch, Used, Serves;
    out := map[];
    ghost var m: map<nat, nat> := map[];
    NothingUsed(reqs, arts, used[..]);
    for i := 0 to |reqs|
      invariant m == IdMatch(reqs, arts, i) && Used(used[..], m) && Serves(out, m, arts)
      invariant forall k :: k in m ==> k < i
    {
      var taken := FirstUnused(reqs[i], arts, used, m);
      IdMatchStep(reqs, arts, i);
      if taken < |arts| {
        TakeFor(used[..], out, m, arts, i, taken);
        out := out[i := arts[taken]];
        ghost var was := used[..];
        used[taken] := true;
        assert used[..] == was[taken := true];
        m := m[i := taken];
      }
    }
  }

  lemma NothingUsed(reqs: seq<ObjectRef>, arts: seq<Artifact>, used: seq<bool>)
    requires forall j :: 0 <= j < |used| ==> !used[j]
    ensures IdMatch(reqs, arts, 0) == map[] && Used(used, map[]) && Serves(map[], map[], arts)
  {
  }

  lemma IdMatchStep(reqs: seq<ObjectRef>, arts: seq<Artifact>, i: nat)
    requires i < |reqs|
    ensures var m := IdMatch(reqs, arts, i);
            var j := FirstFree(reqs[i], arts, Range(m), 0);
            IdMatch(reqs, arts, i + 1) == if j < |arts| then m[i := j] else m
  {
  }

  lemma TakeFor(used: seq<bool>, out: map<nat, Artifact>, m: map<nat, nat>, arts: seq<Artifact>, i: nat, taken: nat)
    requires Used(used, m) && Serves(out, m, arts) && i !in m && taken < |used| == |arts|
    ensures Used(used[taken := true], m[i := taken]) && Serves(out[i := arts[taken]], m[i := taken], arts)
  {
    hide Range;
    RangePut(m, i, taken);
  }

  method FirstUnused(req: ObjectRef, arts: seq<Artifact>, used: array<bool>, ghost m: map<nat, nat>)
    returns (taken: nat)
    requires used.Length == |arts| && Used(used[..], m)
    ensures taken == FirstFree(req, arts, Range(m), 0)
  {
    hide Range, Matches;
    for j := 0 to |arts|
      invariant FirstFree(req, arts, Range(m), 0) == FirstFree(req, arts, Range(m), j)
    {
      if used[j] {
        continue;
      }
      if Matches(req, arts[j].ref) {
        return j;
      }
    }
    taken := |arts|;
  }

  ghost predicate Used(used: seq<bool>, m: map<nat, nat>) {
    forall j :: 0 <= j < |used| ==> (used[j] <==> j in Range(m))
  }

  ghost predicate Serves(out: map<nat, Artifact>, m: map<nat, nat>, arts: seq<Artifact>) {
    out.Keys == m.Keys && forall i :: i in m ==> m[i] < |arts| && out[i] == arts[m[i]]
  }
}
