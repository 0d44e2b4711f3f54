// The decisions of Fetch on single items: internal/engine/fetch.go.
module FetchModel {
  import opened Wrappers
  import opened Dedup
  import opened Objects
  import Text

  datatype Error =
    | InvalidRequest | IdentityRequired | Unsupported | NotFound | BudgetExhausted | VersionIncompatible
    | Cancelled | Upstream(message: string)

  // A provider descriptor; `fetches` says whether the provider implements Fetcher.
  datatype Provider = Provider(
    id: string, version: string, source: string, kinds: seq<string>,
    fetchable: Projection, returned: Projection, maxBatch: int, fetches: bool)

  datatype FetchRequest = FetchRequest(ref: ObjectRef, projection: Projection)

  // The registered providers, by their ids.
  type Registry = map<string, Provider>

  datatype Outcome = Outcome(artifact: Artifact, error: Option<Error>)

  datatype ItemResult = ItemResult(ref: ObjectRef, artifact: Option<Artifact>, error: Option<Error>, cached: bool,
                                   shared: bool)

  // What Fetch reads and does not change: the caller's scope, the refs the session knows (in the
  // order they are searched), whether a session was named, the registered providers, and the
  // answers of the identity check, the routing (which names a provider) and the operation check.
  datatype Env = Env(
    scope: string, known: seq<ObjectRef>, reusing: bool, registry: Registry,
    refError: ObjectRef -> Option<Error>, route: ObjectRef -> string, opError: Provider -> Option<Error>)

  function ProviderFor(env: Env, ref: ObjectRef): Option<Provider> {
    var id := env.route(ref);
    if id in env.registry then Some(env.registry[id]) else None
  }

  predicate Registered(registry: Registry, p: Provider) {
    p in registry.Values
  }

  datatype Prepared =
    | Rejected(ref: ObjectRef, error: Error)
    | Hit(ref: ObjectRef, artifact: Artifact)
    | Needs(ref: ObjectRef, missing: Projection, provider: Provider)

  // ObjectRef.Validate
  predicate Addressable(r: ObjectRef) {
    r.canonical != "" || r.native != ""
  }

  // ---- knownSessionRef ----

  predicate SameObject(requested: ObjectRef, known: ObjectRef) {
    || (requested.canonical != "" && known.canonical == requested.canonical)
    || (&& requested.native != "" && requested.native == known.native
        && (requested.source == "" || requested.source == known.source)
        && (requested.kind == "" || requested.kind == known.kind))
  }

  function KnownRef(known: seq<ObjectRef>, requested: ObjectRef): Option<ObjectRef> {
    if known == [] then None
    else if SameObject(requested, known[0]) then Some(known[0])
    else KnownRef(known[1..], requested)
  }

  lemma {:induction false} KnownRefIsAddressable(known: seq<ObjectRef>, requested: ObjectRef)
    ensures var k := KnownRef(known, requested);
            k.Some? ==> Addressable(k.value) && SameObject(requested, k.value)
  {
    if known != [] {
      KnownRefIsAddressable(known[1..], requested);
    }
  }

  // The ref a request stands for, once scope and canonical id have been filled in.
  function FillRef(env: Env, r: ObjectRef): ObjectRef {
    var s := r.(scope := Or(r.scope, env.scope));
    if s.canonical == "" && s.native != "" then s.(canonical := BuildCanonicalId(s.scope, s.kind, s.native)) else s
  }

  function ResolveRef(env: Env, r: ObjectRef): ObjectRef {
    FillRef(env, match KnownRef(env.known, r) case Some(k) => k case None => r)
  }

  lemma ResolvedIsCanonical(env: Env, r: ObjectRef)
    requires Addressable(r)
    ensures ResolveRef(env, r).canonical != ""
  {
    KnownRefIsAddressable(env.known, r);
  }

  predicate SupportsKind(p: Provider, kind: string) {
    p.kinds == [] || kind in p.kinds
  }

  function Missing(want: Projection, cache: map<string, Artifact>, canonical: string): Projection {
    var left := if canonical in cache then want - cache[canonical].projection else want;
    if left == {} then want else left
  }

  // The branches of the first loop, in their order.
  function Prepare(env: Env, cache: map<string, Artifact>, item: FetchRequest): Prepared {
    if item.projection == {} then Rejected(item.ref, InvalidRequest)
    else
      var k := KnownRef(env.known, item.ref);
      if k.None? && env.reusing then Rejected(item.ref, InvalidRequest)
      else
        var found := if k.Some? then k.value else item.ref;
        if env.refError(found).Some? then Rejected(found, env.refError(found).value)
        else
          var ref := FillRef(env, found);
          if ref.canonical in cache && item.projection <= cache[ref.canonical].projection
            then Hit(ref, cache[ref.canonical])
          else
            var p := ProviderFor(env, ref);
            if p.None? then Rejected(ref, Unsupported)
            else if env.opError(p.value).Some? then Rejected(ref, env.opError(p.value).value)
            else if ref.source != "" && p.value.source != ref.source then Rejected(ref, InvalidRequest)
            else if ref.kind != "" && !SupportsKind(p.value, ref.kind) then Rejected(ref, InvalidRequest)
            else
              var missing := Missing(item.projection, cache, ref.canonical);
              if !(missing <= p.value.fetchable) then Rejected(ref, Unsupported)
              else Needs(ref, missing, p.value)
  }

  // What is asked of the provider, together with what the session holds, is all that was wanted;
  // a hit already has it, and neither happens for an empty projection.
  lemma PrepareCovers(env: Env, cache: map<string, Artifact>, item: FetchRequest)
    ensures var p := Prepare(env, cache, item);
            && (p.Hit? ==> p.ref == ResolveRef(env, item.ref) && item.projection <= p.artifact.projection
                           && p.ref.canonical in cache && cache[p.ref.canonical] == p.artifact)
            && (p.Needs? ==> p.ref == ResolveRef(env, item.ref) && p.missing != {} && p.missing <= item.projection
                             && p.missing <= p.provider.fetchable && Registered(env.registry, p.provider)
                             && item.projection <= p.missing + (if p.ref.canonical in cache
                                                                then cache[p.ref.canonical].projection else {}))
  {
  }

  // validateFetchedArtifact
  predicate ValidFetched(p: Provider, missing: Projection, a: Artifact) {
    a.projection != {} && a.projection <= p.returned + p.fetchable && missing <= a.projection
  }

  // ---- dedupFetchItems ----

  function ItemKey(r: ObjectRef): string {
    if r.canonical == "" then r.kind + "|" + r.native + "|" + r.source else r.canonical
  }

  // Requests without a canonical id are told apart, if no kind and no source holds a bar.
  lemma ItemKeysTellApart(a: ObjectRef, b: ObjectRef)
    requires a.canonical == "" && b.canonical == "" && ItemKey(a) == ItemKey(b)
    requires '|' !in a.kind && '|' !in b.kind && '|' !in a.source && '|' !in b.source
    ensures a.kind == b.kind && a.native == b.native && a.source == b.source
  {
    Text.CutAtLastBar(a.kind + "|" + a.native, a.source, b.kind + "|" + b.native, b.source);
    Text.CutAtFirstBar(a.kind, a.native, b.kind, b.native);
    assert a.native == (a.kind + "|" + a.native)[|a.kind| + 1..];
    assert b.native == (b.kind + "|" + b.native)[|b.kind| + 1..];
  }

  // Otherwise two objects can be asked for as one.
  lemma ItemKeysCanClash()
    ensures ItemKey(NO_REF.(kind := "a|b", native := "c", source := "d"))
            == ItemKey(NO_REF.(kind := "a", native := "b|c", source := "d"))
  {
    assert "a|b" + "|" + "c" == "a" + "|" + "b|c";
  }

  function Same(s: string): string {
    s
  }

  function ItemKeys(items: seq<FetchRequest>): (keys: seq<string>)
    ensures |keys| == |items| && forall i :: 0 <= i < |items| ==> keys[i] == ItemKey(items[i].ref)
  {
    seq(|items|, i requires 0 <= i < |items| => ItemKey(items[i].ref))
  }

  // The request that all requests with key k are merged into: the first ref, all the parts.
  function MergedRequest(items: seq<FetchRequest>, k: string): Option<FetchRequest> {
    if items == [] then None
    else
      var front, last := MergedRequest(items[..|items| - 1], k), items[|items| - 1];
      if ItemKey(last.ref) != k then front
      else if front.None? then Some(last)
      else Some(front.value.(projection := front.value.projection + last.projection))
  }

  ghost predicate IsDedup(items: seq<FetchRequest>, out: seq<FetchRequest>) {
    var keys := FirstByKey(ItemKeys(items), Same);
    |out| == |keys| && forall i :: 0 <= i < |out| ==> Some(out[i]) == MergedRequest(items, keys[i])
  }

  ghost predicate Asked(items: seq<FetchRequest>, k: string, part: Part) {
    exists i :: 0 <= i < |items| && ItemKey(items[i].ref) == k && part in items[i].projection
  }

  lemma AskedAppend(items: seq<FetchRequest>, last: FetchRequest, k: string, part: Part)
    ensures Asked(items + [last], k, part) <==>
              Asked(items, k, part) || (ItemKey(last.ref) == k && part in last.projection)
  {
    var all := items + [last];
    if Asked(items, k, part) {
      var i :| 0 <= i < |items| && ItemKey(items[i].ref) == k && part in items[i].projection;
      assert all[i] == items[i];
    }
    if ItemKey(last.ref) == k && part in last.projection {
      assert all[|items|] == last;
    }
  }

  // The merged request asks for exactly what the requests with its key ask for.
  lemma {:induction false} MergedRequestParts(items: seq<FetchRequest>, k: string, part: Part)
    ensures MergedRequest(items, k).Some? ==>
              (part in MergedRequest(items, k).value.projection <==> Asked(items, k, part))
    ensures MergedRequest(items, k).None? ==> !Asked(items, k, part)
  {
    if items != [] {
      var front, last := items[..|items| - 1], items[|items| - 1];
      MergedRequestParts(front, k, part);
      AskedAppend(front, last, k, part);
      assert items == front + [last];
      hide Asked;
    }
  }

  // There is one exactly if some request has the key, and its ref is that of the first of them.
  lemma {:induction false} MergedRequestRef(items: seq<FetchRequest>, k: string)
    ensures MergedRequest(items, k).Some? <==> exists i :: 0 <= i < |items| && ItemKey(items[i].ref) == k
    ensures MergedRequest(items, k).Some? ==>
              exists i :: 0 <= i < |items| && ItemKey(items[i].ref) == k
                && items[i].ref == MergedRequest(items, k).value.ref
                          && forall j :: 0 <= j < i ==> ItemKey(items[j].ref) != k
  {
    if items != [] {
      var front, last := items[..|items| - 1], items[|items| - 1];
      MergedRequestRef(front, k);
      assert items == front + [last];
      if MergedRequest(front, k).Some? {
        var i :| 0 <= i < |front| && ItemKey(front[i].ref) == k && front[i].ref == MergedRequest(front, k).value.ref
                 && forall j :: 0 <= j < i ==> ItemKey(front[j].ref) != k;
        assert items[i] == front[i];
      } else if ItemKey(last.ref) == k {
        assert items[|front|] == last;
      }
    }
  }

  // One request per key; it asks for exactly the parts that some request with its key asked for,
  // under the ref of the first of them.
  lemma DedupCovers(items: seq<FetchRequest>, out: seq<FetchRequest>)
    requires IsDedup(items, out)
    ensures forall i, j :: 0 <= i < j < |out| ==> ItemKey(out[i].ref) != ItemKey(out[j].ref)
    ensures forall r :: r in items ==> exists i :: 0 <= i < |out| && ItemKey(out[i].ref) == ItemKey(r.ref)
    ensures forall i, r :: 0 <= i < |out| && r in items && ItemKey(out[i].ref) == ItemKey(r.ref) ==>
              r.projection <= out[i].projection
    ensures forall i, part :: 0 <= i < |out| ==>
              (part in out[i].projection <==> Asked(items, ItemKey(out[i].ref), part))
  {
    var all := ItemKeys(items);
    var keys := FirstByKey(all, Same);
    FirstByKeyIsDedup(all, Same);
    forall i | 0 <= i < |out|
      ensures ItemKey(out[i].ref) == keys[i]
    {
      MergedRequestRef(items, keys[i]);
    }
    forall r | r in items
      ensures exists i :: 0 <= i < |out| && ItemKey(out[i].ref) == ItemKey(r.ref)
    {
      var j :| 0 <= j < |items| && items[j] == r;
      assert Same(all[j]) == ItemKey(r.ref);
      assert HasKey(all, Same, ItemKey(r.ref));
      var i :| 0 <= i < |keys| && Same(keys[i]) == ItemKey(r.ref);
    }
    forall i, part | 0 <= i < |out|
      ensures part in out[i].projection <==> Asked(items, ItemKey(out[i].ref), part)
    {
      MergedRequestParts(items, keys[i], part);
    }
    forall i, r | 0 <= i < |out| && r in items && ItemKey(out[i].ref) == ItemKey(r.ref)
      ensures r.projection <= out[i].projection
    {
      forall part | part in r.projection
        ensures part in out[i].projection
      {
        var j :| 0 <= j < |items| && items[j] == r;
        assert Asked(items, ItemKey(r.ref), part);
      }
    }
    forall i, j | 0 <= i < j < |out|
      ensures ItemKey(out[i].ref) != ItemKey(out[j].ref)
    {
      assert Same(keys[i]) != Same(keys[j]);
    }
  }

  // What the loop over the first requests has gathered: the keys in order, and their requests.
  ghost predicate Gathered(items: seq<FetchRequest>, order: seq<string>, m: map<string, FetchRequest>) {
    && order == FirstByKey(ItemKeys(items), Same)
    && (forall k :: k in m <==> HasKey(order, Same, k))
    && forall k :: MergedRequest(items, k) == if k in m then Some(m[k]) else None
  }

  lemma NothingGathered()
    ensures Gathered([], [], map[])
  {
  }

  lemma GatherNew(items: seq<FetchRequest>, order: seq<string>, m: map<string, FetchRequest>, r: FetchRequest)
    requires Gathered(items, order, m) && ItemKey(r.ref) !in m
    ensures Gathered(items + [r], order + [ItemKey(r.ref)], m[ItemKey(r.ref) := r])
  {
    hide ItemKey, HasKey;
    MergeStep(items, r);
    KeyStep(items, r);
    KeysAppend(order, Same, ItemKey(r.ref));
  }

  lemma GatherMore(items: seq<FetchRequest>, order: seq<string>, m: map<string, FetchRequest>, r: FetchRequest)
    requires Gathered(items, order, m) && ItemKey(r.ref) in m
    ensures var was := m[ItemKey(r.ref)];
            Gathered(items + [r], order, m[ItemKey(r.ref) := was.(projection := was.projection + r.projection)])
  {
    hide ItemKey, HasKey;
    MergeStep(items, r);
    KeyStep(items, r);
  }

  lemma MergeStep(items: seq<FetchRequest>, r: FetchRequest)
    ensures forall k ::
              MergedRequest(items + [r], k)
              == var front := MergedRequest(items, k);
                 if ItemKey(r.ref) != k then front
                 else if front.None? then Some(r)
                 else Some(front.value.(projection := front.value.projection + r.projection))
  {
    assert (items + [r])[..|items|] == items;
  }

  lemma KeyStep(items: seq<FetchRequest>, r: FetchRequest)
    ensures var keys, key := FirstByKey(ItemKeys(items), Same), ItemKey(r.ref);
            FirstByKey(ItemKeys(items + [r]), Same) == if HasKey(keys, Same, key) then keys else keys + [key]
  {
    assert ItemKeys(items + [r]) == ItemKeys(items) + [ItemKey(r.ref)];
    assert ItemKeys(items + [r])[..|items|] == ItemKeys(items);
  }

  method DedupFetchItems(items: seq<FetchRequest>) returns (out: seq<FetchRequest>)
    ensures IsDedup(items, out)
  {
    hide ItemKey, FirstByKey, MergedRequest, HasKey, Gathered;
    var m: map<string, FetchRequest> := map[];
    var order: seq<string> := [];
    NothingGathered();
    for i := 0 to |items|
      invariant Gathered(items[..i], order, m)
    {
      var key := ItemKey(items[i].ref);
      assert items[..i + 1] == items[..i] + [items[i]];
      if key in m {
        GatherMore(items[..i], order, m, items[i]);
        m := m[key := m[key].(projection := m[key].projection + items[i].projection)];
      } else {
        GatherNew(items[..i], order, m, items[i]);
        m := m[key := items[i]];
        order := order + [key];
      }
    }
    assert items[..|items|] == items;
    GatheredKeys(items, order, m);
    out := InOrderOf(m, order);
  }

  lemma GatheredKeys(items: seq<FetchRequest>, order: seq<string>, m: map<string, FetchRequest>)
    requires Gathered(items, order, m)
    ensures order == FirstByKey(ItemKeys(items), Same) && forall k :: k in m <==> HasKey(order, Same, k)
    ensures forall k :: k in m ==> MergedRequest(items, k) == Some(m[k])
  {
  }

  method InOrderOf(m: map<string, FetchRequest>, order: seq<string>) returns (out: seq<FetchRequest>)
    requires forall k :: k in m <==> HasKey(order, Same, k)
    ensures |out| == |order| && forall j :: 0 <= j < |order| ==> order[j] in m && out[j] == m[order[j]]
  {
    out := [];
    for i := 0 to |order|
      invariant |out| == i && forall j :: 0 <= j < i ==> order[j] in m && out[j] == m[order[j]]
    {
      assert Same(order[i]) == order[i];
      out := out + [m[order[i]]];
    }
  }
}
