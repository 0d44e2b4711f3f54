// References, artifacts and relations (kernel/types.go, kernel/projection.go) and how the engine
// merges them (internal/engine/fetch.go, internal/engine/expand.go).
module Objects {
  import opened Wrappers
  import opened Dedup
  import Text

  datatype Part = Head | Snippet | Summary | Structure | Content | Context | Relations | Attachments

  // A bit set in the source.
  type Projection = set<Part>

  datatype ObjectRef = ObjectRef(
    platform: string, scope: string, kind: string, native: string, canonical: string,
    provider: string, source: string, url: string)

  // Go's zero value of a reference.
  const NO_REF := ObjectRef("", "", "", "", "", "", "", "")

  datatype Relation = Relation(from: ObjectRef, kind: string, to: ObjectRef)

  datatype Chunk = Chunk(id: string, kind: string, text: string)

  datatype Artifact = Artifact(
    ref: ObjectRef, projection: Projection, chunks: seq<Chunk>, summary: Option<string>,
    relations: seq<Relation>, version: string)

  function BuildCanonicalId(scope: string, kind: string, native: string): string {
    "feishu:" + (if scope == "" then "default" else scope) + ":" + kind + ":" + Text.TrimSpace(native)
  }

  function Or(a: string, b: string): string {
    if a == "" then b else a
  }

  // mergeRef: the fields of a, and b's where a has none.
  function MergeRef(a: ObjectRef, b: ObjectRef): ObjectRef {
    ObjectRef(Or(a.platform, b.platform), Or(a.scope, b.scope), Or(a.kind, b.kind), Or(a.native, b.native),
              Or(a.canonical, b.canonical), Or(a.provider, b.provider), Or(a.source, b.source), Or(a.url, b.url))
  }

  function ChunkKey(x: Chunk): string {
    if x.id == "" then x.kind + "|" + x.text else x.id
  }

  function RelationKey(x: Relation): string {
    x.kind + "|" + x.from.canonical + "|" + x.to.canonical
  }

  // Equal keys are keys of the same relation, if the type and one of the ends hold no bar.
  lemma RelationKeysTellApart(x: Relation, y: Relation)
    requires RelationKey(x) == RelationKey(y) && '|' !in x.kind && '|' !in y.kind
    requires || ('|' !in x.from.canonical && '|' !in y.from.canonical)
             || ('|' !in x.to.canonical && '|' !in y.to.canonical)
    ensures x.kind == y.kind && x.from.canonical == y.from.canonical && x.to.canonical == y.to.canonical
  {
    var a, b := x.from.canonical + "|" + x.to.canonical, y.from.canonical + "|" + y.to.canonical;
    assert x.kind + "|" + a == RelationKey(x) && y.kind + "|" + b == RelationKey(y);
    Text.CutAtFirstBar(x.kind, a, y.kind, b);
    assert a == RelationKey(x)[|x.kind| + 1..] && b == RelationKey(y)[|y.kind| + 1..];
    Text.CutAtFirstBar(x.from.canonical, x.to.canonical, y.from.canonical, y.to.canonical);
    if '|' !in x.to.canonical && '|' !in y.to.canonical {
      Text.CutAtLastBar(x.from.canonical, x.to.canonical, y.from.canonical, y.to.canonical);
    } else {
      assert x.to.canonical == a[|x.from.canonical| + 1..] && y.to.canonical == b[|y.from.canonical| + 1..];
    }
  }

  function MergeChunks(a: seq<Chunk>, b: seq<Chunk>): seq<Chunk> {
    FirstByKey(a + b, ChunkKey)
  }

  function MergeRelations(a: seq<Relation>, b: seq<Relation>): seq<Relation> {
    FirstByKey(a + b, RelationKey)
  }

  // mergeArtifact: b is the newer of the two.
  function MergeArtifact(a: Artifact, b: Artifact): Artifact {
    Artifact(MergeRef(a.ref, b.ref), a.projection + b.projection, MergeChunks(a.chunks, b.chunks),
             if b.summary.Some? then b.summary else a.summary, MergeRelations(a.relations, b.relations),
             if b.version != "" then b.version else a.version)
  }

  // Merging loses neither a materialized part, nor a chunk, nor a relation of either artifact,
  // adds nothing of its own, and keeps the older artifact's identity.
  lemma MergeArtifactLosesNothing(a: Artifact, b: Artifact)
    ensures var m := MergeArtifact(a, b);
            && a.projection <= m.projection && b.projection <= m.projection
            && m.projection <= a.projection + b.projection
            && (forall k :: HasKey(m.chunks, ChunkKey, k) <==>
                HasKey(a.chunks, ChunkKey, k) || HasKey(b.chunks, ChunkKey, k))
            && (forall k :: HasKey(m.relations, RelationKey, k) <==>
                  HasKey(a.relations, RelationKey, k) || HasKey(b.relations, RelationKey, k))
            && DistinctKeys(m.chunks, ChunkKey) && DistinctKeys(m.relations, RelationKey)
            && (a.ref.canonical != "" ==> m.ref.canonical == a.ref.canonical)
  {
    FirstByKeyIsDedup(a.chunks + b.chunks, ChunkKey);
    FirstByKeyIsDedup(a.relations + b.relations, RelationKey);
    KeysOfConcat(a.chunks, b.chunks, ChunkKey);
    KeysOfConcat(a.relations, b.relations, RelationKey);
  }

  lemma KeysOfConcat<T>(xs: seq<T>, ys: seq<T>, key: T -> string)
    ensures forall k :: HasKey(xs + ys, key, k) <==> HasKey(xs, key, k) || HasKey(ys, key, k)
  {
    forall k
      ensures HasKey(xs + ys, key, k) <==> HasKey(xs, key, k) || HasKey(ys, key, k)
    {
      if HasKey(xs, key, k) {
        var i :| 0 <= i < |xs| && key(xs[i]) == k;
        assert key((xs + ys)[i]) == k;
      }
      if HasKey(ys, key, k) {
        var i :| 0 <= i < |ys| && key(ys[i]) == k;
        assert key((xs + ys)[|xs| + i]) == k;
      }
    }
  }

  // objectKey: what identifies an object in a traversal; "" when nothing does.
  function ObjectKey(r: ObjectRef): string {
    if r.canonical != "" then r.canonical
    else if r.native == "" then ""
    else r.source + "|" + r.kind + "|" + r.native
  }

  // normalizeRelationRef: an end of a relation is rebound to the caller's identity scope.
  function NormalizeRelationRef(r: ObjectRef, fallback: ObjectRef, scope: string): ObjectRef {
    var m := MergeRef(r, fallback);
    var p := m.(platform := Or(m.platform, "feishu"));
    if p.native == "" then p else p.(scope := scope, canonical := BuildCanonicalId(scope, p.kind, p.native))
  }

  // Whatever scope and canonical id a provider sends, an end of a relation that has a native id
  // is keyed by the caller's scope; without one it keeps what identifies it.
  lemma NormalizedIsRebound(r: ObjectRef, fallback: ObjectRef, scope: string)
    ensures var n := NormalizeRelationRef(r, fallback, scope);
            && n.native == Or(r.native, fallback.native) && n.kind == Or(r.kind, fallback.kind) && n.platform != ""
            && (n.native != "" ==> n.scope == scope && ObjectKey(n) == BuildCanonicalId(scope, n.kind, n.native))
            && (n.native == "" ==> ObjectKey(n) == Or(r.canonical, fallback.canonical))
  {
  }
}
