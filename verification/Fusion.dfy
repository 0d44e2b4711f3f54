// Candidates and how several finds of one object become one: internal/fusion/fusion.go:40-237.
module Fusion {
  import opened Wrappers
  import opened Dedup
  import opened Objects
  import Text

  datatype Discovery = Discovery(provider: string, source: string, rank: int)

  datatype Hint = Hint(kind: string, target: string)

  datatype Candidate = Candidate(
    ref: ObjectRef, source: string, kind: string, title: string, snippet: string, url: string, timestamp: Option<int>,
    nativeRank: int, projection: Projection, available: Projection, hints: seq<Hint>, discoveredBy: seq<Discovery>,
      score: real)

  function CandidateId(c: Candidate): string {
    c.ref.canonical
  }

  // The path of a URL ("" when it cannot be parsed) and the digest of a text in lower case.
  datatype Env = Env(urlPath: string -> string, digest: string -> string)

  function KindFromSource(source: string): (kind: string)
    ensures kind != ""
  {
    match source
    case "docs" => "document"
    case "messages" => "message"
    case "chats" => "chat"
    case "people" => "person"
    case "minutes" => "minute"
    case "meetings" => "meeting"
    case "calendar" => "event"
    case "tasks" => "task"
    case "mail" => "mail"
    case "base" => "record"
    case "sheets" => "cell"
    case _ => "unknown"
  }

  function TrimSlashesLeft(s: string): string {
    if s != "" && s[0] == '/' then TrimSlashesLeft(s[1..]) else s
  }

  function TrimSlashesRight(s: string): string {
    if s != "" && s[|s| - 1] == '/' then TrimSlashesRight(s[..|s| - 1]) else s
  }

  function LastSegment(s: string): string {
    if s == "" || s[|s| - 1] == '/' then "" else LastSegment(s[..|s| - 1]) + [s[|s| - 1]]
  }

  // An empty URL has an empty path.
  function IdFromUrl(env: Env, url: string): string {
    if url == "" then "" else LastSegment(TrimSlashesRight(TrimSlashesLeft(env.urlPath(url))))
  }

  function Fingerprint(env: Env, kind: string, title: string, snippet: string): string {
    "fp_" + env.digest(Text.TrimSpace(kind + "|" + title + "|" + snippet))
  }

  function Canonicalize(env: Env, c: Candidate, scope: string): Candidate {
    var kind := if c.kind == "" then KindFromSource(c.source) else c.kind;
    var url := Or(c.url, c.ref.url);
    var refKind := Or(c.ref.kind, kind);
    var trimmed := Text.TrimSpace(c.ref.native);
    var found := if trimmed == "" then IdFromUrl(env, url) else trimmed;
    var native := if found == "" then Fingerprint(env, kind, c.title, c.snippet) else found;
    var rank := if c.nativeRank <= 0 then 1 else c.nativeRank;
    var ref := ObjectRef(Or(c.ref.platform, "feishu"), scope, refKind, native, BuildCanonicalId(scope, refKind, native),
                         c.ref.provider, Or(c.ref.source, c.source), Or(c.ref.url, url));
    c.(ref := ref, kind := kind, url := url, nativeRank := rank,
       discoveredBy := if c.discoveredBy == [] then [Discovery(c.ref.provider, c.source, rank)] else c.discoveredBy)
  }

  // ---- Canonical ids are stable ----

  // What Canonicalize establishes and every later merge keeps.
  predicate Canonical(env: Env, c: Candidate, scope: string) {
    && c.ref.canonical == BuildCanonicalId(scope, c.ref.kind, c.ref.native) && c.ref.kind != ""
    && (Text.TrimSpace(c.ref.native) != "" || (c.ref.native != "" && c.ref.native == IdFromUrl(env, c.url)))
  }

  lemma {:induction false} TrimLeftKeeps(s: string)
    ensures s != "" && !Text.IsSpace(s[0]) ==> Text.TrimSpace(s) != ""
  {
    if s != "" && !Text.IsSpace(s[0]) {
      assert Text.TrimLeft(s) == s;
      TrimRightKeeps(s);
    }
  }

  lemma {:induction false} TrimRightKeeps(s: string)
    requires s != "" && !Text.IsSpace(s[0])
    ensures Text.TrimRight(s) != ""
  {
    if |s| > 1 && Text.IsSpace(s[|s| - 1]) {
      TrimRightKeeps(s[..|s| - 1]);
    }
  }

  lemma CanonicalizeIsCanonical(env: Env, c: Candidate, scope: string)
    ensures Canonical(env, Canonicalize(env, c, scope), scope)
  {
    hide IdFromUrl;
    var r := Canonicalize(env, c, scope);
    Text.TrimSpaceIdempotent(c.ref.native);
    TrimLeftKeeps(Fingerprint(env, r.kind, c.title, c.snippet));
  }

  lemma NoUrlNoId(env: Env)
    ensures IdFromUrl(env, "") == ""
  {
  }

  // Canonicalizing what is canonical already keeps its id: re-ranking stored candidates loses none.
  lemma CanonicalIdIsStable(env: Env, c: Candidate, scope: string)
    requires Canonical(env, c, scope)
    ensures Canonicalize(env, c, scope).ref.canonical == c.ref.canonical
  {
    hide IdFromUrl, Fingerprint;
    Text.TrimSpaceIdempotent(c.ref.native);
    NoUrlNoId(env);
  }

  // Canonicalizing is idempotent, except that an id taken from a URL is trimmed the second time.
  lemma CanonicalizeTwice(env: Env, c: Candidate, scope: string)
    ensures var r := Canonicalize(env, c, scope);
            Canonicalize(env, r, scope) == r <==>
              Text.TrimSpace(r.ref.native) == "" || Text.TrimSpace(r.ref.native) == r.ref.native
  {
    hide Fingerprint, IdFromUrl;
    var r := Canonicalize(env, c, scope);
    CanonicalizeIsCanonical(env, c, scope);
    NoUrlNoId(env);
    Text.TrimSpaceIdempotent(r.ref.native);
  }

  // The caller's scope is authoritative: whatever scope and canonical id a provider sends, the
  // result is the same.
  lemma ProviderCannotChooseScope(env: Env, c: Candidate, scope: string, claimed: string, id: string)
    ensures Canonicalize(env, c.(ref := c.ref.(scope := claimed, canonical := id)), scope)
              == Canonicalize(env, c, scope)
  {
    hide Fingerprint, IdFromUrl, KindFromSource;
  }

  function ScopeOrDefault(scope: string): string {
    if scope == "" then "default" else scope
  }

  // One scope is the other, or goes on after it with a colon.
  predicate Overlap(scope: string, other: string) {
    var s, t := ScopeOrDefault(scope) + ":", ScopeOrDefault(other) + ":";
    s <= t || t <= s
  }

  ghost predicate ShareAnId(scope: string, other: string) {
    exists kind, native, kind', native' ::
      BuildCanonicalId(scope, kind, native) == BuildCanonicalId(other, kind', native')
  }

  // Objects of two scopes can have the same canonical id if and only if the scopes overlap.
  lemma ScopesAreApart(scope: string, other: string)
    ensures ShareAnId(scope, other) <==> Overlap(scope, other)
  {
    hide BuildCanonicalId, Overlap;
    if kind, native, kind', native' :|
      BuildCanonicalId(scope, kind, native) == BuildCanonicalId(other, kind', native') {
      OnlyOverlapping(scope, kind, native, other, kind', native');
    }
    if Overlap(scope, other) {
      if ScopeOrDefault(scope) + ":" <= ScopeOrDefault(other) + ":" {
        OverlappingShare(scope, other);
      } else {
        OverlapIsPrefix(scope, other);
        OverlappingShare(other, scope);
      }
    }
  }

  lemma OverlapIsPrefix(scope: string, other: string)
    requires Overlap(scope, other) && !(ScopeOrDefault(scope) + ":" <= ScopeOrDefault(other) + ":")
    ensures ScopeOrDefault(other) + ":" <= ScopeOrDefault(scope) + ":"
  {
  }

  lemma OnlyOverlapping(scope: string, kind: string, native: string, other: string, kind': string, native': string)
    requires BuildCanonicalId(scope, kind, native) == BuildCanonicalId(other, kind', native')
    ensures Overlap(scope, other)
  {
    hide ScopeOrDefault, Text.TrimSpace;
    var s, t := ScopeOrDefault(scope) + ":", ScopeOrDefault(other) + ":";
    IdParts(scope, kind, native);
    IdParts(other, kind', native');
    var x := BuildCanonicalId(scope, kind, native)[7..];
    assert s == x[..|s|] && t == x[..|t|];
    assert if |s| <= |t| then s == t[..|s|] else t == s[..|t|];
  }

  lemma OverlappingShare(scope: string, other: string)
    requires ScopeOrDefault(scope) + ":" <= ScopeOrDefault(other) + ":"
    ensures ShareAnId(scope, other) && ShareAnId(other, scope)
  {
    hide ScopeOrDefault, BuildCanonicalId, Text.TrimSpace;
    var s, t := ScopeOrDefault(scope), ScopeOrDefault(other);
    PlainNatives();
    if |s| == |t| {
      assert s == (s + ":")[..|s|] && t == (t + ":")[..|s|];
      IdIs(scope, "a", "b");
      IdIs(other, "a", "b");
      assert BuildCanonicalId(scope, "a", "b") == BuildCanonicalId(other, "a", "b");
    } else {
      var rest := t[|s| + 1..];
      assert t == s + ":" + rest;
      IdIs(scope, rest, "a:b");
      IdIs(other, "a", "b");
      assert "a:b" == "a" + ":" + "b";
      assert s + ":" + rest + ":" + ("a" + ":" + "b") == t + ":" + "a" + ":" + "b";
      assert BuildCanonicalId(scope, rest, "a:b") == BuildCanonicalId(other, "a", "b");
    }
  }

  lemma PlainNatives()
    ensures Text.TrimSpace("a:b") == "a:b" && Text.TrimSpace("b") == "b"
  {
  }

  lemma IdIs(scope: string, kind: string, native: string)
    ensures BuildCanonicalId(scope, kind, native)
              == "feishu:" + (ScopeOrDefault(scope) + ":" + kind + ":" + Text.TrimSpace(native))
  {
  }

  lemma IdParts(scope: string, kind: string, native: string)
    ensures BuildCanonicalId(scope, kind, native)[7..]
              == ScopeOrDefault(scope) + ":" + (kind + ":" + Text.TrimSpace(native))
  {
    var rest := kind + ":" + Text.TrimSpace(native);
    assert BuildCanonicalId(scope, kind, native) == "feishu:" + (ScopeOrDefault(scope) + ":" + rest);
  }

  // Different scopes without a colon, such as the digests that name a caller's profile and mode, do
  // not overlap.
  lemma PlainScopesAreApart(scope: string, other: string)
    requires ScopeOrDefault(scope) != ScopeOrDefault(other) && ':' !in scope && ':' !in other
    ensures !ShareAnId(scope, other)
  {
    hide ShareAnId;
    ScopesAreApart(scope, other);
    PlainPrefix(ScopeOrDefault(scope), ScopeOrDefault(other));
    PlainPrefix(ScopeOrDefault(other), ScopeOrDefault(scope));
  }

  lemma PlainPrefix(s: string, t: string)
    ensures s + ":" <= t + ":" && ':' !in t ==> s == t
  {
    if s + ":" <= t + ":" && |s| < |t| {
      assert (s + ":")[|s|] == (t + ":")[|s|] == t[|s|];
    } else if s + ":" <= t + ":" {
      assert s == (s + ":")[..|s|] && t == (t + ":")[..|s|];
    }
  }

  // ---- Discoveries: the best rank for every provider and source ----

  function DiscoveryKey(d: Discovery): string {
    d.provider + "|" + d.source
  }

  // The first discovery with the least rank, for every key (fusion.go:171-178).
  function BestMap(ds: seq<Discovery>): map<string, Discovery> {
    if ds == [] then map[]
    else
      var best, last := BestMap(ds[..|ds| - 1]), ds[|ds| - 1];
      if DiscoveryKey(last) !in best || last.rank < best[DiscoveryKey(last)].rank then best[DiscoveryKey(last) := last]
        else best
  }

  lemma {:induction false} BestMapIsBest(ds: seq<Discovery>)
    ensures forall k :: k in BestMap(ds) ==> BestMap(ds)[k] in ds && DiscoveryKey(BestMap(ds)[k]) == k
    ensures forall d :: d in ds ==> DiscoveryKey(d) in BestMap(ds) && BestMap(ds)[DiscoveryKey(d)].rank <= d.rank
  {
    if ds != [] {
      var front, last := ds[..|ds| - 1], ds[|ds| - 1];
      BestMapIsBest(front);
      assert ds == front + [last];
    }
  }

  // Keys in increasing order, each once.
  ghost predicate Increasing(keys: seq<string>) {
    forall i, j :: 0 <= i < j < |keys| ==> Text.Less(keys[i], keys[j])
  }

  function InsertKey(keys: seq<string>, k: string): (r: seq<string>) {
    if keys == [] || Text.Less(k, keys[0]) then [k] + keys else [keys[0]] + InsertKey(keys[1..], k)
  }

  lemma {:induction false} InsertKeepsOrder(keys: seq<string>, k: string)
    requires Increasing(keys) && k !in keys
    ensures Increasing(InsertKey(keys, k))
    ensures forall x :: x in InsertKey(keys, k) <==> x == k || x in keys
  {
    hide Text.Less;
    if keys != [] {
      assert keys == [keys[0]] + keys[1..];
      if Text.Less(k, keys[0]) {
        forall j | 0 < j < |keys|
          ensures Text.Less(k, keys[j])
        {
          Text.LessTransitive(k, keys[0], keys[j]);
        }
      } else {
        InsertKeepsOrder(keys[1..], k);
        Text.LessTrichotomy(k, keys[0]);
        var rest := InsertKey(keys[1..], k);
        forall j | 0 <= j < |rest|
          ensures Text.Less(keys[0], rest[j])
        {
          assert rest[j] in rest;
        }
      }
    }
  }

  // Only one increasing sequence has given elements.
  lemma {:induction false} IncreasingIsUnique(a: seq<string>, b: seq<string>)
    requires Increasing(a) && Increasing(b) && (forall x :: x in a <==> x in b)
    ensures a == b
  {
    hide Text.Less;
    assert a != [] ==> a[0] in a;
    assert b != [] ==> b[0] in b;
    if a != [] && b != [] {
      assert a[0] in b && b[0] in a;
      Text.LessTrichotomy(a[0], b[0]);
      assert a == [a[0]] + a[1..] && b == [b[0]] + b[1..];
      forall x
        ensures x in a[1..] <==> x in b[1..]
      {
        Text.LessTrichotomy(x, x);
        if x in a[1..] {
          assert x in b;
        }
        if x in b[1..] {
          assert x in a;
        }
      }
      IncreasingIsUnique(a[1..], b[1..]);
    }
  }

  // The keys of some discoveries, in order.
  function SortedKeys(ds: seq<Discovery>): seq<string> {
    if ds == [] then []
    else
      var front, k := SortedKeys(ds[..|ds| - 1]), DiscoveryKey(ds[|ds| - 1]);
      if k in front then front else InsertKey(front, k)
  }

  lemma {:induction false} SortedKeysAreTheKeys(ds: seq<Discovery>)
    ensures Increasing(SortedKeys(ds))
    ensures forall k :: k in SortedKeys(ds) <==> k in BestMap(ds)
  {
    hide Text.Less, InsertKey, Increasing;
    if ds == [] {
      NoKeysIncreasing();
    } else {
      var front, k := ds[..|ds| - 1], DiscoveryKey(ds[|ds| - 1]);
      SortedKeysAreTheKeys(front);
      if k !in SortedKeys(front) {
        InsertKeepsOrder(SortedKeys(front), k);
      }
    }
  }

  lemma NoKeysIncreasing()
    ensures Increasing([])
  {
  }

  function Pick(keys: seq<string>, best: map<string, Discovery>): (r: seq<Discovery>)
    requires forall k :: k in keys ==> k in best
    ensures |r| == |keys| && forall i :: 0 <= i < |keys| ==> r[i] == best[keys[i]]
  {
    seq(|keys|, i requires 0 <= i < |keys| => best[keys[i]])
  }

  function BestOf(ds: seq<Discovery>): seq<Discovery> {
    SortedKeysAreTheKeys(ds);
    Pick(SortedKeys(ds), BestMap(ds))
  }

  function MergeDiscoveries(a: seq<Discovery>, b: seq<Discovery>): seq<Discovery> {
    BestOf(a + b)
  }

  // sort.Strings, on strings that differ.
  method SortStrings(keys: seq<string>) returns (sorted: seq<string>)
    requires forall i, j :: 0 <= i < j < |keys| ==> keys[i] != keys[j]
    ensures Increasing(sorted) && forall k :: k in sorted <==> k in keys
  {
    sorted := [];
    for i := 0 to |keys|
      invariant Increasing(sorted) && forall k :: k in sorted <==> k in keys[..i]
    {
      InsertKeepsOrder(sorted, keys[i]);
      sorted := InsertKey(sorted, keys[i]);
      assert keys[..i + 1] == keys[..i] + [keys[i]];
    }
  }

  // fusion.go:170-189, with a map whose keys come out in an arbitrary order and are then sorted.
  method BestDiscoveries(a: seq<Discovery>, b: seq<Discovery>) returns (out: seq<Discovery>)
    ensures out == MergeDiscoveries(a, b)
  {
    hide Text.Less, Increasing, InsertKey;
    var all := a + b;
    var best: map<string, Discovery> := map[];
    for i := 0 to |all|
      invariant best == BestMap(all[..i])
    {
      var x := all[i];
      assert all[..i + 1][..i] == all[..i];
      if DiscoveryKey(x) !in best || x.rank < best[DiscoveryKey(x)].rank {
        best := best[DiscoveryKey(x) := x];
      }
    }
    assert all[..|all|] == all;
    var keys: seq<string> := [];
    var left := best.Keys;
    while left != {}
      invariant left <= best.Keys && forall k :: k in keys <==> k in best.Keys - left
      invariant forall i, j :: 0 <= i < j < |keys| ==> keys[i] != keys[j]
    {
      var k :| k in left;
      assert k !in keys;
      keys := keys + [k];
      left := left - {k};
    }
    var sorted := SortStrings(keys);
    SortedKeysAreTheKeys(all);
    IncreasingIsUnique(sorted, SortedKeys(all));
    out := [];
    for i := 0 to |sorted|
      invariant |out| == i && forall j :: 0 <= j < i ==> out[j] == best[sorted[j]]
    {
      out := out + [best[sorted[i]]];
    }
    assert out == BestOf(all);
  }

  // What the merged discoveries are, without reference to the order they came in: one for every
  // key in the pool, of the least rank, in the order of their keys.
  ghost predicate IsBest(out: seq<Discovery>, pool: set<Discovery>) {
    && Increasing(KeysOf(out))
    && (forall d :: d in out ==> d in pool)
    && (forall d :: d in pool ==> Beaten(out, d))
  }

  // Some discovery with the same key is at least as good as d.
  ghost predicate Beaten(out: seq<Discovery>, d: Discovery) {
    exists i :: 0 <= i < |out| && DiscoveryKey(out[i]) == DiscoveryKey(d) && out[i].rank <= d.rank
  }

  lemma Beater(out: seq<Discovery>, d: Discovery) returns (i: nat)
    requires Beaten(out, d)
    ensures i < |out| && DiscoveryKey(out[i]) == DiscoveryKey(d) && out[i].rank <= d.rank
  {
    i :| 0 <= i < |out| && DiscoveryKey(out[i]) == DiscoveryKey(d) && out[i].rank <= d.rank;
  }

  lemma BeatenTwice(out: seq<Discovery>, e: Discovery, d: Discovery)
    requires Beaten(out, e) && DiscoveryKey(e) == DiscoveryKey(d) && e.rank <= d.rank
    ensures Beaten(out, d)
  {
  }

  ghost function KeysOf(ds: seq<Discovery>): (r: seq<string>)
    ensures |r| == |ds| && forall i :: 0 <= i < |ds| ==> r[i] == DiscoveryKey(ds[i])
  {
    seq(|ds|, i requires 0 <= i < |ds| => DiscoveryKey(ds[i]))
  }

  ghost function Pool(ds: seq<Discovery>): set<Discovery> {
    set d | d in ds
  }

  lemma BestOfIsBest(ds: seq<Discovery>)
    ensures IsBest(BestOf(ds), Pool(ds))
  {
    hide Text.Less, Increasing, SortedKeys, BestMap, DiscoveryKey;
    var out := BestOf(ds);
    SortedKeysAreTheKeys(ds);
    BestMapIsBest(ds);
    assert KeysOf(out) == SortedKeys(ds);
    forall d | d in Pool(ds)
      ensures Beaten(out, d)
    {
      var i :| 0 <= i < |out| && SortedKeys(ds)[i] == DiscoveryKey(d);
      assert DiscoveryKey(out[i]) == DiscoveryKey(d);
    }
  }

  // Merging what was merged before with more discoveries is best for all of them.
  lemma MergeBest(out: seq<Discovery>, pool: set<Discovery>, more: seq<Discovery>)
    requires (forall d :: d in out ==> d in pool)
    requires forall d :: d in pool ==> Beaten(out, d)
    ensures IsBest(MergeDiscoveries(out, more), pool + Pool(more))
  {
    hide Increasing, DiscoveryKey, BestOf, Beaten;
    var merged := MergeDiscoveries(out, more);
    BestOfIsBest(out + more);
    forall d | d in pool + Pool(more)
      ensures Beaten(merged, d)
    {
      if d in more {
        assert d in Pool(out + more);
      } else {
        var j := Beater(out, d);
        assert out[j] in Pool(out + more);
        BeatenTwice(merged, out[j], d);
      }
    }
    forall d | d in merged
      ensures d in pool + Pool(more)
    {
      assert d in Pool(out + more);
    }
  }

  ghost predicate SameRanks(a: seq<Discovery>, b: seq<Discovery>) {
    |a| == |b| && forall i :: 0 <= i < |a| ==> DiscoveryKey(a[i]) == DiscoveryKey(b[i]) && a[i].rank == b[i].rank
  }

  lemma BestRanksAreUnique(a: seq<Discovery>, b: seq<Discovery>, pool: set<Discovery>)
    requires IsBest(a, pool) && IsBest(b, pool)
    ensures SameRanks(a, b)
  {
    hide Increasing, DiscoveryKey;
    forall k
      ensures k in KeysOf(a) <==> k in KeysOf(b)
    {
      if k in KeysOf(a) {
        KeyIsBest(a, b, pool, k);
      }
      if k in KeysOf(b) {
        KeyIsBest(b, a, pool, k);
      }
    }
    IncreasingIsUnique(KeysOf(a), KeysOf(b));
    forall i | 0 <= i < |a|
      ensures DiscoveryKey(a[i]) == DiscoveryKey(b[i]) && a[i].rank == b[i].rank
    {
      assert KeysOf(a)[i] == KeysOf(b)[i];
      RankIsLeast(a, b, pool, i);
      RankIsLeast(b, a, pool, i);
    }
  }

  lemma KeyIsBest(a: seq<Discovery>, b: seq<Discovery>, pool: set<Discovery>, k: string)
    requires IsBest(a, pool) && IsBest(b, pool) && k in KeysOf(a)
    ensures k in KeysOf(b)
  {
    hide Increasing, DiscoveryKey;
    var i :| 0 <= i < |a| && KeysOf(a)[i] == k;
    assert a[i] in pool;
    var j :| 0 <= j < |b| && DiscoveryKey(b[j]) == DiscoveryKey(a[i]) && b[j].rank <= a[i].rank;
    assert KeysOf(b)[j] == k;
  }

  lemma RankIsLeast(a: seq<Discovery>, b: seq<Discovery>, pool: set<Discovery>, i: nat)
    requires IsBest(a, pool) && IsBest(b, pool) && KeysOf(a) == KeysOf(b) && i < |a|
    ensures b[i].rank <= a[i].rank
  {
    hide Text.Less, DiscoveryKey;
    assert a[i] in pool;
    var j :| 0 <= j < |b| && DiscoveryKey(b[j]) == DiscoveryKey(a[i]) && b[j].rank <= a[i].rank;
    assert KeysOf(b)[j] == KeysOf(b)[i];
    Text.LessTrichotomy(KeysOf(b)[i], KeysOf(b)[i]);
    assert i < |b| && j == i;
  }

  // ---- Merging two finds of one object (fusion.go:127-156) ----

  function HintKey(h: Hint): string {
    h.kind + "|" + h.target
  }

  function Later(a: Option<int>, b: Option<int>): Option<int> {
    if a == None || (b.Some? && b.value > a.value) then b else a
  }

  function Merge(a: Candidate, b: Candidate): Candidate {
    a.(title := if |b.title| > |a.title| then b.title else a.title,
       snippet := if |b.snippet| > |a.snippet| then b.snippet else a.snippet,
       url := if a.url == "" then b.url else a.url,
       ref := if a.url == "" then a.ref.(url := b.ref.url) else a.ref,
       timestamp := Later(a.timestamp, b.timestamp),
       projection := a.projection + b.projection,
       available := a.available + b.available,
       hints := FirstByKey(a.hints + b.hints, HintKey),
       discoveredBy := MergeDiscoveries(a.discoveredBy, b.discoveredBy))
  }

  lemma MergeStaysCanonical(env: Env, a: Candidate, b: Candidate, scope: string)
    requires Canonical(env, a, scope)
    ensures Canonical(env, Merge(a, b), scope) && Merge(a, b).ref.canonical == a.ref.canonical
  {
    hide IdFromUrl, MergeDiscoveries;
    NoUrlNoId(env);
  }

  // ---- The score of a candidate ----

  datatype Config = Config(k0: real, weights: map<string, real>, quotas: map<string, int>, useQuota: bool)

  function K0(config: Config): (k: real)
    ensures k > 0.0
  {
    if config.k0 <= 0.0 then 60.0 else config.k0
  }

  function Weight(config: Config, source: string): real {
    if source in config.weights && config.weights[source] != 0.0 then config.weights[source] else 1.0
  }

  // Reciprocal rank: the sum of weight / (K0 + rank) over the discoveries.
  function RankSum(config: Config, ds: seq<Discovery>): real {
    if ds == [] then 0.0
    else
      var last := ds[|ds| - 1];
      var rank := if last.rank <= 0 then 1 else last.rank;
      RankSum(config, ds[..|ds| - 1]) + Weight(config, last.source) / (K0(config) + rank as real)
  }

  // Several discoveries are worth a bonus.
  function Bonus(n: nat): real {
    if n <= 1 then 0.0 else if 0.004 * (n - 1) as real < 0.015 then 0.004 * (n - 1) as real else 0.015
  }

  // The bonuses for text matches and recency, which depend on the query and the clock, are `extra`.
  function Score(config: Config, extra: Candidate -> real, c: Candidate): real {
    RankSum(config, c.discoveredBy) + extra(c) + Bonus(|c.discoveredBy|)
  }
}
