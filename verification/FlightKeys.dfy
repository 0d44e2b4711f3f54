// The keys under which fetches share calls: internal/engine/fetch.go:100. A key is one string, so
// different calls can have the same one; here is exactly when.
module FlightKeys {
  import opened Objects
  import opened FetchModel
  import Text

  // In the order of their bits (kernel/projection.go:13-22).
  const PARTS := [Head, Snippet, Summary, Structure, Content, Context, Relations, Attachments]

  function MaskOf(m: Projection, parts: seq<Part>): nat {
    if parts == [] then 0 else (if parts[0] in m then 1 else 0) + 2 * MaskOf(m, parts[1..])
  }

  function Mask(m: Projection): nat {
    MaskOf(m, PARTS)
  }

  function Decimal(n: nat): string {
    (if n < 10 then "" else Decimal(n / 10)) + ["0123456789"[n % 10]]
  }

  function Ident(p: Provider): string {
    p.id + "|" + p.version
  }

  function Asks(missing: Projection): string {
    Decimal(Mask(missing))
  }

  function KeyOf(ref: ObjectRef, missing: Projection, p: Provider): string {
    ref.scope + "|" + ref.canonical + "|" + Decimal(Mask(missing)) + "|" + p.id + "|" + p.version
  }

  // What a provider can be asked for.
  predicate CanAsk(p: Provider, missing: Projection) {
    missing != {} && missing <= p.fetchable
  }

  // ---- Numbers hold no bar and can be told apart ----

  lemma {:induction false} MaskOfTellsApart(a: Projection, b: Projection, parts: seq<Part>)
    requires MaskOf(a, parts) == MaskOf(b, parts)
    ensures forall part :: part in parts ==> (part in a <==> part in b)
  {
    if parts != [] {
      MaskOfTellsApart(a, b, parts[1..]);
      assert parts == [parts[0]] + parts[1..];
    }
  }

  lemma MaskTellsApart(a: Projection, b: Projection)
    requires Mask(a) == Mask(b)
    ensures a == b
  {
    MaskOfTellsApart(a, b, PARTS);
    forall part: Part
      ensures part in PARTS
    {
      AllParts(part);
    }
  }

  lemma AllParts(part: Part)
    ensures part in PARTS
  {
    assert PARTS[0] == Head && PARTS[1] == Snippet && PARTS[2] == Summary && PARTS[3] == Structure;
    assert PARTS[4] == Content && PARTS[5] == Context && PARTS[6] == Relations && PARTS[7] == Attachments;
  }

  lemma {:induction false} DecimalIsPlain(n: nat)
    ensures '|' !in Decimal(n)
  {
    if n >= 10 {
      DecimalIsPlain(n / 10);
    }
  }

  lemma {:induction false} DecimalTellsApart(a: nat, b: nat)
    requires Decimal(a) == Decimal(b)
    ensures a == b
  {
    var x, y := Decimal(a), Decimal(b);
    DigitTellsApart(a % 10, b % 10);
    assert x[|x| - 1] == y[|y| - 1];
    assert x[..|x| - 1] == y[..|y| - 1];
    DecimalIsLong(a);
    DecimalIsLong(b);
    if a >= 10 {
      DecimalTellsApart(a / 10, b / 10);
    }
  }

  lemma DigitTellsApart(a: nat, b: nat)
    requires a < 10 && b < 10
    ensures "0123456789"[a] == "0123456789"[b] ==> a == b
  {
  }

  lemma DecimalIsLong(n: nat)
    ensures |Decimal(n)| > 0 && (|Decimal(n)| > 1 <==> n >= 10)
  {
    if n >= 10 {
      DecimalIsLong(n / 10);
    }
  }

  lemma AsksTellsApart(a: Projection, b: Projection)
    ensures '|' !in Asks(a) && (Asks(a) == Asks(b) ==> a == b)
  {
    hide Mask;
    DecimalIsPlain(Mask(a));
    if Asks(a) == Asks(b) {
      DecimalTellsApart(Mask(a), Mask(b));
      MaskTellsApart(a, b);
    }
  }

  // ---- Cutting keys at bars ----

  function Object(ref: ObjectRef): string {
    ref.scope + "|" + ref.canonical
  }

  lemma KeyParts(ref: ObjectRef, missing: Projection, p: Provider)
    ensures KeyOf(ref, missing, p) == Object(ref) + "|" + Asks(missing) + "|" + Ident(p)
  {
    hide Decimal, Mask;
    assert Object(ref) + "|" + Asks(missing) + "|" + (p.id + "|" + p.version)
        == Object(ref) + "|" + Asks(missing) + "|" + p.id + "|" + p.version;
  }

  // ---- Providers without bars ----

  predicate Plain(p: Provider) {
    '|' !in p.id && '|' !in p.version
  }

  // Between such providers equal keys are keys of the same parts, provider and version, within one
  // scope of the same object, and of one scope if the scopes hold no bar either.
  lemma PlainKeys(r1: ObjectRef, m1: Projection, p1: Provider, r2: ObjectRef, m2: Projection, p2: Provider)
    requires Plain(p1) && Plain(p2)
    ensures KeyOf(r1, m1, p1) == KeyOf(r2, m2, p2) <==>
            Object(r1) == Object(r2) && m1 == m2 && p1.id == p2.id && p1.version == p2.version
    ensures KeyOf(r1, m1, p1) == KeyOf(r2, m2, p2) && r1.scope == r2.scope ==> r1.canonical == r2.canonical
    ensures KeyOf(r1, m1, p1) == KeyOf(r2, m2, p2) && '|' !in r1.scope && '|' !in r2.scope ==> r1.scope == r2.scope
  {
    hide Decimal, Mask;
    var a1, a2 := Object(r1) + "|" + Decimal(Mask(m1)), Object(r2) + "|" + Decimal(Mask(m2));
    if KeyOf(r1, m1, p1) == KeyOf(r2, m2, p2) {
      Text.CutAtLastBar(a1 + "|" + p1.id, p1.version, a2 + "|" + p2.id, p2.version);
      Text.CutAtLastBar(a1, p1.id, a2, p2.id);
      AsksTellsApart(m1, m2);
      AsksTellsApart(m2, m1);
      Text.CutAtLastBar(Object(r1), Asks(m1), Object(r2), Asks(m2));
      if r1.scope == r2.scope {
        assert r1.canonical == Object(r1)[|r1.scope| + 1..];
        assert r2.canonical == Object(r2)[|r2.scope| + 1..];
      }
      Text.CutAtFirstBar(r1.scope, r1.canonical, r2.scope, r2.canonical);
    }
  }

  // ---- All providers ----

  predicate EndsWith(s: string, t: string) {
    |t| <= |s| && s[|s| - |t|..] == t
  }

  // A key of `outer` can be read as one of `inner`: what names the one is what names the other, after
  // the number of a mask and perhaps more before a bar.
  predicate Hides(outer: Provider, inner: Provider, missing: Projection) {
    EndsWith("|" + Ident(outer), "|" + Asks(missing) + "|" + Ident(inner))
  }

  predicate Overlap(outer: Provider, inner: Provider, m1: Projection, m2: Projection) {
    CanAsk(outer, m1) && CanAsk(inner, m2) && Hides(outer, inner, m2)
  }

  predicate Clash(outer: Provider, inner: Provider, m1: Projection, m2: Projection) {
    Overlap(outer, inner, m1, m2) && m1 != m2
  }

  // No two registered providers overlap: a matter of their ids, versions and what they can fetch.
  ghost predicate NoOverlap(registry: Registry) {
    forall i, j, m1, m2 :: i in registry && j in registry ==> !Overlap(registry[i], registry[j], m1, m2)
  }

  // No two of them clash: they overlap at most for one and the same mask.
  ghost predicate KeysApart(registry: Registry) {
    forall i, j, m1, m2 :: i in registry && j in registry ==> !Clash(registry[i], registry[j], m1, m2)
  }

  // Equal keys ask for the same parts.
  ghost predicate KeysNameParts(registry: Registry) {
    forall i, j, r1, r2, m1, m2 ::
      i in registry && j in registry && SameKey(r1, m1, registry[i], r2, m2, registry[j]) ==> m1 == m2
  }

  // Equal keys, of one scope, are keys of the same object.
  ghost predicate KeysNameObjects(registry: Registry) {
    forall i, j, r1, r2, m1, m2 ::
      i in registry && j in registry && SameKey(r1, m1, registry[i], r2, m2, registry[j]) && r1.scope == r2.scope ==>
        r1.canonical == r2.canonical
  }

  predicate SameKey(r1: ObjectRef, m1: Projection, p1: Provider, r2: ObjectRef, m2: Projection, p2: Provider) {
    CanAsk(p1, m1) && CanAsk(p2, m2) && KeyOf(r1, m1, p1) == KeyOf(r2, m2, p2)
  }

  // The bar before d cannot lie inside it.
  lemma TailIsLong(a: string, x: string, b: string, d: string, y: string)
    requires a + "|" + x == b + "|" + d + "|" + y && '|' !in d && |x| > |y|
    ensures |x| >= |d| + 1 + |y|
  {
    var s := a + "|" + x;
    assert s[|a|] == '|';
    assert forall i :: |b| < i <= |b| + |d| ==> s[i] == d[i - |b| - 1];
  }

  lemma LongerHides(r1: ObjectRef, m1: Projection, p1: Provider, r2: ObjectRef, m2: Projection, p2: Provider)
    requires KeyOf(r1, m1, p1) == KeyOf(r2, m2, p2) && |Ident(p1)| > |Ident(p2)|
    ensures Hides(p1, p2, m2)
  {
    hide Asks, Ident, Object, KeyOf;
    KeyParts(r1, m1, p1);
    KeyParts(r2, m2, p2);
    AsksTellsApart(m2, m2);
    var key, tail := KeyOf(r1, m1, p1), "|" + Ident(p1);
    var front, inside := Object(r1) + "|" + Asks(m1), "|" + Asks(m2) + "|" + Ident(p2);
    TailIsLong(front, Ident(p1), Object(r2), Asks(m2), Ident(p2));
    assert key == front + tail && key == Object(r2) + inside;
    assert tail[|tail| - |inside|..] == key[|Object(r2)|..] == inside;
  }

  lemma EqualKeysClash(r1: ObjectRef, m1: Projection, p1: Provider, r2: ObjectRef, m2: Projection, p2: Provider)
    requires SameKey(r1, m1, p1, r2, m2, p2) && m1 != m2
    ensures Clash(p1, p2, m1, m2) || Clash(p2, p1, m2, m1)
  {
    hide Asks, Ident, Object, KeyOf, Hides;
    if |Ident(p1)| > |Ident(p2)| {
      LongerHides(r1, m1, p1, r2, m2, p2);
    } else if |Ident(p2)| > |Ident(p1)| {
      LongerHides(r2, m2, p2, r1, m1, p1);
    } else {
      KeyParts(r1, m1, p1);
      KeyParts(r2, m2, p2);
      Text.CutAtSameBar(Object(r1) + "|" + Asks(m1), Ident(p1), Object(r2) + "|" + Asks(m2), Ident(p2));
      AsksTellsApart(m1, m2);
      AsksTellsApart(m2, m1);
      Text.CutAtLastBar(Object(r1), Asks(m1), Object(r2), Asks(m2));
    }
  }

  // A key of the one provider, of any object, is a key of the other: the object's id goes on with the
  // mask that the one is asked for.
  lemma HiddenObject(outer: Provider, inner: Provider, m1: Projection, m2: Projection, ref: ObjectRef)
    returns (other: ObjectRef)
    requires Hides(outer, inner, m2)
    ensures other == ref.(canonical := other.canonical) && ref.canonical + "|" <= other.canonical
    ensures KeyOf(ref, m1, outer) == KeyOf(other, m2, inner)
  {
    hide Asks, Ident, KeyOf;
    var tail, inside := "|" + Ident(outer), "|" + Asks(m2) + "|" + Ident(inner);
    var before := tail[..|tail| - |inside|];
    assert tail == before + inside;
    other := ref.(canonical := ref.canonical + "|" + Asks(m1) + before);
    KeyParts(ref, m1, outer);
    KeyParts(other, m2, inner);
    assert Object(ref) + "|" + Asks(m1) + before == Object(other);
    assert KeyOf(ref, m1, outer) == Object(ref) + "|" + Asks(m1) + tail;
    assert KeyOf(other, m2, inner) == Object(other) + inside;
  }

  // The key, of some object, that asks this provider for these parts.
  predicate IsKeyFor(key: string, missing: Projection, p: Provider) {
    var tail := "|" + Asks(missing) + "|" + Ident(p);
    EndsWith(key, tail) && '|' in key[..|key| - |tail|]
  }

  lemma KeyIsFor(ref: ObjectRef, missing: Projection, p: Provider)
    ensures IsKeyFor(KeyOf(ref, missing, p), missing, p)
  {
    hide Asks, Ident, KeyOf;
    KeyParts(ref, missing, p);
    var tail := "|" + Asks(missing) + "|" + Ident(p);
    assert KeyOf(ref, missing, p) == Object(ref) + tail;
    assert Object(ref)[|ref.scope|] == '|';
  }

  lemma ForIsKey(key: string, missing: Projection, p: Provider) returns (ref: ObjectRef)
    requires IsKeyFor(key, missing, p)
    ensures KeyOf(ref, missing, p) == key
  {
    hide Asks, Ident, KeyOf, Object;
    var tail := "|" + Asks(missing) + "|" + Ident(p);
    var front := key[..|key| - |tail|];
    ref := RefFor(front);
    KeyParts(ref, missing, p);
    assert key == front + tail;
    assert front + tail == front + "|" + Asks(missing) + "|" + Ident(p);
  }

  lemma RefFor(front: string) returns (ref: ObjectRef)
    requires '|' in front
    ensures Object(ref) == front
  {
    var i :| 0 <= i < |front| && front[i] == '|';
    ref := NO_REF.(scope := front[..i], canonical := front[i + 1..]);
  }

  // With providers that do not clash, a key says which parts are asked for.
  lemma KeySaysParts(registry: Registry, ref: ObjectRef, m1: Projection, p: Provider, m2: Projection, q: Provider)
    requires KeysApart(registry) && Registered(registry, p) && Registered(registry, q) && CanAsk(p, m1) && CanAsk(q, m2)
    requires IsKeyFor(KeyOf(ref, m1, p), m2, q)
    ensures m1 == m2
  {
    hide KeyOf, IsKeyFor, KeysApart, CanAsk;
    KeysNamePartsIffApart(registry);
    var other := ForIsKey(KeyOf(ref, m1, p), m2, q);
    var i :| i in registry && registry[i] == p;
    var j :| j in registry && registry[j] == q;
    assert SameKey(ref, m1, registry[i], other, m2, registry[j]);
  }

  const SOME_REF := NO_REF.(canonical := "x")

  lemma OverlapGivesKeys(outer: Provider, inner: Provider, m1: Projection, m2: Projection)
    requires Overlap(outer, inner, m1, m2)
    ensures exists r1, r2 ::
              SameKey(r1, m1, outer, r2, m2, inner) && r1.scope == r2.scope && r1.canonical != r2.canonical
  {
    hide KeyOf, Hides;
    var other := HiddenObject(outer, inner, m1, m2, SOME_REF);
    assert SameKey(SOME_REF, m1, outer, other, m2, inner);
  }

  lemma SameKeySameObject(r1: ObjectRef, m1: Projection, p1: Provider, r2: ObjectRef, m2: Projection, p2: Provider)
    requires SameKey(r1, m1, p1, r2, m2, p2) && r1.scope == r2.scope && |Ident(p1)| == |Ident(p2)|
    ensures r1.canonical == r2.canonical
  {
    hide Asks, Ident, KeyOf;
    KeyParts(r1, m1, p1);
    KeyParts(r2, m2, p2);
    AsksTellsApart(m1, m2);
    AsksTellsApart(m2, m1);
    Text.CutAtSameBar(Object(r1) + "|" + Asks(m1), Ident(p1), Object(r2) + "|" + Asks(m2), Ident(p2));
    Text.CutAtLastBar(Object(r1), Asks(m1), Object(r2), Asks(m2));
    assert r1.canonical == Object(r1)[|r1.scope| + 1..] && r2.canonical == Object(r2)[|r2.scope| + 1..];
  }

  lemma EqualKeysOverlap(r1: ObjectRef, m1: Projection, p1: Provider, r2: ObjectRef, m2: Projection, p2: Provider)
    requires SameKey(r1, m1, p1, r2, m2, p2) && r1.scope == r2.scope
    ensures r1.canonical == r2.canonical || Overlap(p1, p2, m1, m2) || Overlap(p2, p1, m2, m1)
  {
    hide KeyOf, Hides, Ident;
    if |Ident(p1)| > |Ident(p2)| {
      LongerHides(r1, m1, p1, r2, m2, p2);
    } else if |Ident(p2)| > |Ident(p1)| {
      LongerHides(r2, m2, p2, r1, m1, p1);
    } else {
      SameKeySameObject(r1, m1, p1, r2, m2, p2);
    }
  }

  // For every set of registered providers: equal keys of one scope name the same object if and only if
  // no two providers overlap.
  lemma KeysNameObjectsIffNoOverlap(registry: Registry)
    ensures KeysNameObjects(registry) <==> NoOverlap(registry)
  {
    hide KeyOf, Hides, Ident;
    if NoOverlap(registry) {
      forall i, j, r1, r2, m1, m2 | i in registry && j in registry && SameKey(r1, m1, registry[i], r2, m2, registry[j])
        && r1.scope == r2.scope
        ensures r1.canonical == r2.canonical
      {
        EqualKeysOverlap(r1, m1, registry[i], r2, m2, registry[j]);
      }
    }
    if KeysNameObjects(registry) {
      forall i, j, m1, m2 | i in registry && j in registry
        ensures !Overlap(registry[i], registry[j], m1, m2)
      {
        if Overlap(registry[i], registry[j], m1, m2) {
          OverlapGivesKeys(registry[i], registry[j], m1, m2);
        }
      }
    }
  }

  lemma ClashGivesKeys(outer: Provider, inner: Provider, m1: Projection, m2: Projection)
    requires Clash(outer, inner, m1, m2)
    ensures exists r1, r2 :: SameKey(r1, m1, outer, r2, m2, inner)
  {
    hide KeyOf, Hides;
    var other := HiddenObject(outer, inner, m1, m2, SOME_REF);
    assert SameKey(SOME_REF, m1, outer, other, m2, inner);
  }

  // For every set of registered providers: equal keys ask for the same parts if and only if no two
  // providers clash.
  lemma KeysNamePartsIffApart(registry: Registry)
    ensures KeysNameParts(registry) <==> KeysApart(registry)
  {
    hide KeyOf, Hides;
    if KeysApart(registry) {
      forall i, j, r1, r2, m1, m2 | i in registry && j in registry && SameKey(r1, m1, registry[i], r2, m2, registry[j])
        ensures m1 == m2
      {
        if m1 != m2 {
          EqualKeysClash(r1, m1, registry[i], r2, m2, registry[j]);
        }
      }
    }
    if KeysNameParts(registry) {
      forall i, j, m1, m2 | i in registry && j in registry
        ensures !Clash(registry[i], registry[j], m1, m2)
      {
        if Clash(registry[i], registry[j], m1, m2) {
          ClashGivesKeys(registry[i], registry[j], m1, m2);
        }
      }
    }
  }

  // It is enough for both that no id and no version holds a bar.
  lemma PlainProvidersAreApart(registry: Registry)
    requires forall i :: i in registry ==> Plain(registry[i])
    ensures KeysApart(registry) && NoOverlap(registry)
  {
    hide KeyOf, Plain, Hides, Object;
    forall i, j, r1, r2, m1, m2 | i in registry && j in registry && SameKey(r1, m1, registry[i], r2, m2, registry[j])
      ensures m1 == m2 && (r1.scope == r2.scope ==> r1.canonical == r2.canonical)
    {
      PlainKeys(r1, m1, registry[i], r2, m2, registry[j]);
    }
    KeysNamePartsIffApart(registry);
    KeysNameObjectsIffNoOverlap(registry);
  }
}
