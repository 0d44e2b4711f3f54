// Bounded breadth-first relation traversal: internal/engine/expand.go.
module Expand {
  import opened Wrappers
  import opened Dedup
  import opened Objects
  import FetchModel
  import Ledger

  datatype ErrorKind = BudgetExhausted | DeadlineExceeded | Cancelled | OtherError

  // What becomes of one expansion: the provider's relations, or an error; a leaf error marks an
  // object that simply has no provider to expand it.
  datatype Answer = Answered(relations: seq<Relation>) | Failed(error: ErrorKind, leaf: bool)

  datatype FrontierItem = FrontierItem(ref: ObjectRef, depth: nat, root: bool)

  datatype RelationBatch = RelationBatch(relations: seq<Relation>, partial: bool, error: Option<ErrorKind>)

  // How far an expansion got: the checks of the provider, the reservation, the call and the size
  // of the answer can each end it.
  datatype Tried =
    | NoProvider | NotAllowed(unsupported: bool) | WrongSource | WrongKind | NotAnExpander
    | NotReserved | CallFailed(error: ErrorKind) | TooLarge | Returned(relations: seq<Relation>)

  // An object other than the root that has no provider to expand it is a leaf.
  function AnswerOf(t: Tried, root: bool): Answer {
    match t
    case NoProvider => Failed(OtherError, !root)
    case NotAllowed(unsupported) => Failed(OtherError, !root && unsupported)
    case WrongSource => Failed(OtherError, false)
    case WrongKind => Failed(OtherError, false)
    case NotAnExpander => Failed(OtherError, !root)
    case NotReserved => Failed(BudgetExhausted, false)
    case CallFailed(error) => Failed(error, false)
    case TooLarge => Failed(BudgetExhausted, false)
    case Returned(relations) => Answered(relations)
  }

  // The question: where from, which relation types (all if none is named), for whom, how far, and
  // how each expansion of an object comes out. No object is expanded twice, so that the answers
  // of one traversal are a function of the object asked about.
  datatype Query = Query(root: ObjectRef, kinds: set<string>, scope: string, depth: nat, tried: ObjectRef -> Tried)

  function Call(q: Query, at: ObjectRef): Answer {
    AnswerOf(q.tried(at), at == q.root)
  }

  function ClampDepth(d: int): (r: nat)
    ensures 1 <= r <= 2
    ensures 1 <= d <= 2 ==> r == d
  {
    if d <= 0 then 1 else if d > 2 then 2 else d
  }

  predicate Allowed(q: Query, r: Relation) {
    q.kinds == {} || r.kind in q.kinds
  }

  function Normalize(q: Query, at: ObjectRef, r: Relation): Relation {
    Relation(NormalizeRelationRef(r.from, at, q.scope), r.kind, NormalizeRelationRef(r.to, NO_REF, q.scope))
  }

  // ---- What should be found ----

  // r, in its normal form, is an allowed relation that leaves the object `at`.
  ghost predicate Leaves(q: Query, at: ObjectRef, r: Relation) {
    Call(q, at).Answered? && exists x :: x in Call(q, at).relations && Allowed(q, x) && Normalize(q, at, x) == r
  }

  // One hop along an allowed relation, to an object that can be identified.
  ghost predicate Hop(q: Query, a: ObjectRef, b: ObjectRef) {
    ObjectKey(b) != "" && exists r :: Leaves(q, a, r) && r.to == b
  }

  // b is n hops away from the root.
  ghost predicate AtDistance(q: Query, n: nat, b: ObjectRef)
    decreases n
  {
    if n == 0 then b == q.root else exists a :: AtDistance(q, n - 1, a) && Hop(q, a, b)
  }

  // A relation with this key leaves an object fewer than `depth` hops from the root.
  ghost predicate Findable(q: Query, k: string) {
    exists n: nat, a, r :: n < q.depth && AtDistance(q, n, a) && Leaves(q, a, r) && RelationKey(r) == k
  }

  ghost predicate Reportable(q: Query, r: Relation) {
    exists n: nat, a :: n < q.depth && AtDistance(q, n, a) && Leaves(q, a, r)
  }

  // A ref the traversal can come to ask about.
  ghost predicate Met(q: Query, a: ObjectRef) {
    exists n: nat :: n < q.depth && AtDistance(q, n, a)
  }

  // Refs with the same key denote the same object: they have the same relations, as far as keys
  // can tell.
  ghost predicate SameLinks(q: Query, a: ObjectRef, b: ObjectRef) {
    forall r :: Leaves(q, a, r) ==>
      exists t :: Leaves(q, b, t) && RelationKey(t) == RelationKey(r) && ObjectKey(t.to) == ObjectKey(r.to)
  }

  ghost predicate KeysIdentify(q: Query) {
    forall a, b :: Met(q, a) && Met(q, b) && ObjectKey(a) == ObjectKey(b) && ObjectKey(a) != "" ==> SameLinks(q, a, b)
  }

  // ---- Providers whose keys identify objects ----

  datatype Link = Link(kind: string, to: ObjectRef)

  // The relation says it comes from the object that was asked about.
  predicate FromAsked(q: Query, at: ObjectRef, r: Relation) {
    NormalizeRelationRef(r.from, at, q.scope).canonical == ObjectKey(at)
  }

  // What is answered about an object is a matter of its key.
  ghost predicate AnswersByKey(q: Query, links: string -> Option<seq<Link>>) {
    forall a :: Met(q, a) ==> AnswersAs(q, a, links(ObjectKey(a)))
  }

  // These links, or no answer at all, as for an object that no provider expands.
  ghost predicate AnswersAs(q: Query, a: ObjectRef, links: Option<seq<Link>>) {
    match links
    case None => Call(q, a).Failed?
    case Some(ls) =>
      && Call(q, a).Answered? && |Call(q, a).relations| == |ls|
      && forall i :: 0 <= i < |ls| ==>
           var r := Call(q, a).relations[i];
           r.kind == ls[i].kind && r.to == ls[i].to && FromAsked(q, a, r)
  }

  // Such providers have all that completeness asks of them.
  lemma AnsweringByKeyIdentifies(q: Query, links: string -> Option<seq<Link>>)
    requires AnswersByKey(q, links)
    ensures KeysIdentify(q)
  {
    hide Met, AnswersAs;
    forall a, b | Met(q, a) && Met(q, b) && ObjectKey(a) == ObjectKey(b) && ObjectKey(a) != ""
      ensures SameLinks(q, a, b)
    {
      SameAnswers(q, a, b, links(ObjectKey(a)));
    }
  }

  lemma SameAnswers(q: Query, a: ObjectRef, b: ObjectRef, links: Option<seq<Link>>)
    requires AnswersAs(q, a, links) && AnswersAs(q, b, links) && ObjectKey(a) == ObjectKey(b)
    ensures SameLinks(q, a, b)
  {
    hide NormalizeRelationRef, ObjectKey, Call;
    forall r | Leaves(q, a, r)
      ensures exists t :: Leaves(q, b, t) && RelationKey(t) == RelationKey(r) && ObjectKey(t.to) == ObjectKey(r.to)
    {
      var x :| x in Call(q, a).relations && Allowed(q, x) && Normalize(q, a, x) == r;
      var i :| 0 <= i < |links.value| && Call(q, a).relations[i] == x;
      var y := Call(q, b).relations[i];
      var t := Normalize(q, b, y);
      assert y in Call(q, b).relations && Allowed(q, y);
      assert Leaves(q, b, t);
      assert t.to == r.to && RelationKey(t) == RelationKey(r);
    }
  }

  // A ref whose canonical id is the one its native id gives.
  predicate Proper(q: Query, a: ObjectRef) {
    a.native != "" ==> a.canonical == BuildCanonicalId(q.scope, a.kind, a.native)
  }

  // All refs met are proper, if the root is.
  lemma MetIsProper(q: Query, a: ObjectRef)
    requires Met(q, a) && Proper(q, q.root)
    ensures Proper(q, a)
  {
    hide BuildCanonicalId;
    var n: nat :| n < q.depth && AtDistance(q, n, a);
    if n > 0 {
      var b :| AtDistance(q, n - 1, b) && Hop(q, b, a);
      var r :| Leaves(q, b, r) && r.to == a;
      var x :| x in Call(q, b).relations && Allowed(q, x) && Normalize(q, b, x) == r;
      assert a == NormalizeRelationRef(x.to, NO_REF, q.scope);
    }
  }

  // A relation comes from the object asked about if the provider puts back the ref it was given or
  // leaves it blank, or finds it in its data by the native id and a kind that may be missing.
  lemma EchoIsFromAsked(q: Query, a: ObjectRef, r: Relation)
    requires Proper(q, a) && ObjectKey(a) != ""
    requires r.from == a || r.from == NO_REF
               || (a.native != "" && r.from.native == a.native && (r.from.kind == a.kind || r.from.kind == ""))
    ensures FromAsked(q, a, r)
  {
  }

  // So the traversal is complete for every provider that echoes, whatever the graph.
  lemma EchoingProvidersQualify(q: Query, links: string -> Option<seq<Link>>)
    requires Proper(q, q.root) && forall a :: Met(q, a) ==> Echoes(q, a, links(ObjectKey(a)))
    ensures KeysIdentify(q)
  {
    hide Met, AnswersAs, Proper;
    forall a | Met(q, a)
      ensures AnswersAs(q, a, links(ObjectKey(a)))
    {
      MetIsProper(q, a);
      EchoAnswers(q, a, links(ObjectKey(a)));
    }
    AnsweringByKeyIdentifies(q, links);
  }

  ghost predicate Echoes(q: Query, a: ObjectRef, links: Option<seq<Link>>) {
    match links
    case None => Call(q, a).Failed?
    case Some(ls) =>
      && ObjectKey(a) != "" && Call(q, a).Answered? && |Call(q, a).relations| == |ls|
      && forall i :: 0 <= i < |ls| ==>
           var r := Call(q, a).relations[i];
           r.kind == ls[i].kind && r.to == ls[i].to && (r.from == a || r.from == NO_REF)
  }

  lemma EchoAnswers(q: Query, a: ObjectRef, links: Option<seq<Link>>)
    requires Proper(q, a) && Echoes(q, a, links)
    ensures AnswersAs(q, a, links)
  {
    hide Proper, FromAsked, ObjectKey, Call;
    forall i | links.Some? && 0 <= i < |links.value|
      ensures FromAsked(q, a, Call(q, a).relations[i])
    {
      EchoIsFromAsked(q, a, Call(q, a).relations[i]);
    }
  }

  // ---- What the loop keeps ----

  ghost predicate Known(visited: set<string>, q: Query, a: ObjectRef) {
    forall b :: Hop(q, a, b) ==> ObjectKey(b) in visited
  }

  // Only relations leaving expanded objects are in `found`, each once.
  ghost predicate Sound(q: Query, found: seq<Relation>, expanded: seq<ObjectRef>) {
    && DistinctKeys(found, RelationKey)
    && forall r :: r in found ==> exists a :: a in expanded && Leaves(q, a, r)
  }

  // All of them are, up to their keys.
  ghost predicate Complete(q: Query, found: seq<Relation>, expanded: seq<ObjectRef>) {
    forall a, r :: a in expanded && Leaves(q, a, r) ==> HasKey(found, RelationKey, RelationKey(r))
  }

  ghost predicate DistinctObjects(refs: seq<ObjectRef>) {
    DistinctKeys(refs, ObjectKey)
  }

  // Every key that has been visited belongs to an expanded or a waiting object, and conversely.
  ghost predicate Accounted(visited: set<string>, refs: seq<ObjectRef>) {
    && (forall a :: a in refs ==> ObjectKey(a) in visited && ObjectKey(a) != "")
    && (forall k :: k in visited ==> exists a :: a in refs && ObjectKey(a) == k)
  }

  ghost predicate Within(q: Query, refs: seq<ObjectRef>, n: nat) {
    forall a :: a in refs ==> exists i: nat :: i < n && AtDistance(q, i, a)
  }

  // ---- The result of taking in one answer ----

  // The relations of an answer, filtered and normalized, in order.
  function Links(q: Query, at: ObjectRef, rels: seq<Relation>): seq<Relation> {
    if rels == [] then []
    else
      var front := Links(q, at, rels[..|rels| - 1]);
      var last := rels[|rels| - 1];
      if Allowed(q, last) then front + [Normalize(q, at, last)] else front
  }

  lemma {:induction false} LinksLeave(q: Query, at: ObjectRef, rels: seq<Relation>, r: Relation)
    ensures r in Links(q, at, rels) <==> exists x :: x in rels && Allowed(q, x) && Normalize(q, at, x) == r
  {
    if rels != [] {
      var front, last := rels[..|rels| - 1], rels[|rels| - 1];
      LinksLeave(q, at, front, r);
      assert rels == front + [last];
    }
  }

  lemma FoundGrows(q: Query, found: seq<Relation>, expanded: seq<ObjectRef>, at: ObjectRef, rels: seq<Relation>)
    requires Sound(q, found, expanded) && Call(q, at) == Answered(rels)
    ensures Sound(q, MergeRelations(found, Links(q, at, rels)), expanded + [at])
    ensures Complete(q, found, expanded) ==> Complete(q, MergeRelations(found, Links(q, at, rels)), expanded + [at])
  {
    var links := Links(q, at, rels);
    var more := MergeRelations(found, links);
    FirstByKeyIsDedup(found + links, RelationKey);
    KeysOfConcat(found, links, RelationKey);
    forall r | r in more
      ensures exists a :: a in expanded + [at] && Leaves(q, a, r)
    {
      if r in links {
        LinksLeave(q, at, rels, r);
        assert at in expanded + [at];
      } else {
        var a :| a in expanded && Leaves(q, a, r);
        assert a in expanded + [at];
      }
    }
    if Complete(q, found, expanded) {
      forall a, r | a in expanded + [at] && Leaves(q, a, r)
        ensures HasKey(more, RelationKey, RelationKey(r))
      {
        if a == at {
          LinksLeave(q, at, rels, r);
          var i :| 0 <= i < |links| && links[i] == r;
          assert HasKey(links, RelationKey, RelationKey(r));
        }
      }
    }
  }

  // ---- Frontiers ----

  function Refs(items: seq<FrontierItem>): (refs: seq<ObjectRef>)
    ensures |refs| == |items| && forall i :: 0 <= i < |items| ==> refs[i] == items[i].ref
  {
    seq(|items|, i requires 0 <= i < |items| => items[i].ref)
  }

  ghost predicate FrontierOk(q: Query, items: seq<FrontierItem>, d: nat) {
    forall i :: 0 <= i < |items| ==> items[i].depth == d && items[i].root == (d == 0) && AtDistance(q, d, items[i].ref)
  }

  // A new object joins the waiting ones.
  lemma Join(visited: set<string>, refs: seq<ObjectRef>, b: ObjectRef)
    requires Accounted(visited, refs) && DistinctObjects(refs) && ObjectKey(b) != "" && ObjectKey(b) !in visited
    ensures Accounted(visited + {ObjectKey(b)}, refs + [b]) && DistinctObjects(refs + [b])
  {
    forall k | k in visited + {ObjectKey(b)}
      ensures exists a :: a in refs + [b] && ObjectKey(a) == k
    {
      if k == ObjectKey(b) {
        assert b in refs + [b];
      } else {
        var a :| a in refs && ObjectKey(a) == k;
        assert a in refs + [b];
      }
    }
    forall i | 0 <= i < |refs|
      ensures ObjectKey(refs[i]) != ObjectKey(b)
    {
      assert refs[i] in refs;
    }
  }

  lemma OneMoreHop(q: Query, d: nat, a: ObjectRef, b: ObjectRef)
    requires AtDistance(q, d, a) && Hop(q, a, b)
    ensures AtDistance(q, d + 1, b)
  {
  }

  lemma LinksStep(q: Query, at: ObjectRef, rels: seq<Relation>, i: nat)
    requires i < |rels|
    ensures Links(q, at, rels[..i + 1])
            == if Allowed(q, rels[i]) then Links(q, at, rels[..i]) + [Normalize(q, at, rels[i])]
              else Links(q, at, rels[..i])
  {
    assert rels[..i + 1][..i] == rels[..i];
  }

  // The keys of the targets of the first i relations.
  ghost predicate TargetsSeen(visited: set<string>, links: seq<Relation>) {
    forall j :: 0 <= j < |links| && ObjectKey(links[j].to) != "" ==> ObjectKey(links[j].to) in visited
  }

  lemma NoLinks(q: Query, at: ObjectRef, rels: seq<Relation>, visited: set<string>)
    ensures Links(q, at, rels[..0]) == [] && TargetsSeen(visited, [])
  {
  }

  lemma OneMoreTarget(before: set<string>, visited: set<string>, links: seq<Relation>, r: Relation)
    requires TargetsSeen(before, links) && before <= visited && (ObjectKey(r.to) != "" ==> ObjectKey(r.to) in visited)
    ensures TargetsSeen(visited, links + [r])
  {
    hide ObjectKey;
  }

  lemma TargetsAreKnown(q: Query, at: ObjectRef, rels: seq<Relation>, visited: set<string>)
    requires Call(q, at) == Answered(rels) && TargetsSeen(visited, Links(q, at, rels))
    ensures Known(visited, q, at)
  {
    forall b | Hop(q, at, b)
      ensures ObjectKey(b) in visited
    {
      var r :| Leaves(q, at, r) && r.to == b;
      LinksLeave(q, at, rels, r);
      var j :| 0 <= j < |Links(q, at, rels)| && Links(q, at, rels)[j] == r;
    }
  }

  // ---- expand.go:146-164: the relations of one answer are taken in ----

  // `others` are the objects already expanded or waiting.
  method TakeIn(q: Query, item: FrontierItem, rels: seq<Relation>, found: seq<Relation>, visited: set<string>,
                next: seq<FrontierItem>, ghost others: seq<ObjectRef>)
    returns (found': seq<Relation>, visited': set<string>, next': seq<FrontierItem>)
    requires Call(q, item.ref) == Answered(rels) && AtDistance(q, item.depth, item.ref)
               && DistinctKeys(found, RelationKey)
    requires Accounted(visited, others + Refs(next)) && DistinctObjects(others + Refs(next))
    requires FrontierOk(q, next, item.depth + 1)
    ensures found' == MergeRelations(found, Links(q, item.ref, rels))
    ensures Accounted(visited', others + Refs(next')) && DistinctObjects(others + Refs(next'))
    ensures FrontierOk(q, next', item.depth + 1) && visited <= visited'
    ensures item.depth + 1 < q.depth ==> Known(visited', q, item.ref)
    ensures item.depth + 1 >= q.depth ==> next' == next && visited' == visited
  {
    hide AtDistance, Accounted, DistinctObjects, ObjectKey, RelationKey, Allowed, Normalize, Hop, DistinctKeys,
      MergeRelations, Call, Links,
         TargetsSeen, Known;
    found', visited', next' := found, visited, next;
    MergeNothing(found);
    NoLinks(q, item.ref, rels, visited);
    for i := 0 to |rels|
      invariant found' == MergeRelations(found, Links(q, item.ref, rels[..i]))
      invariant Accounted(visited', others + Refs(next')) && DistinctObjects(others + Refs(next'))
      invariant FrontierOk(q, next', item.depth + 1) && visited <= visited'
      invariant item.depth + 1 < q.depth ==> TargetsSeen(visited', Links(q, item.ref, rels[..i]))
      invariant item.depth + 1 >= q.depth ==> next' == next && visited' == visited
    {
      LinksStep(q, item.ref, rels, i);
      ghost var before := visited';
      if !Allowed(q, rels[i]) {
        continue;
      }
      var r := Normalize(q, item.ref, rels[i]);
      MergeOneMore(found, Links(q, item.ref, rels[..i]), r);
      found' := MergeRelations(found', [r]);
      if item.depth + 1 < q.depth {
        var key := ObjectKey(r.to);
        if key != "" && key !in visited' {
          Join(visited', others + Refs(next'), r.to);
          LinkIsHop(q, item.ref, rels, i);
          OneMoreHop(q, item.depth, item.ref, r.to);
          visited' := visited' + {key};
          next' := next' + [FrontierItem(r.to, item.depth + 1, false)];
          assert others + Refs(next') == others + Refs(next'[..|next'| - 1]) + [r.to];
          assert next'[..|next'| - 1] + [next'[|next'| - 1]] == next';
        }
        OneMoreTarget(before, visited', Links(q, item.ref, rels[..i]), r);
      }
    }
    assert rels[..|rels|] == rels;
    if item.depth + 1 < q.depth {
      TargetsAreKnown(q, item.ref, rels, visited');
    }
  }

  lemma MergeNothing(found: seq<Relation>)
    requires DistinctKeys(found, RelationKey)
    ensures MergeRelations(found, []) == found
  {
    assert found + [] == found;
    DistinctIsKept(found, RelationKey);
  }

  lemma MergeOneMore(found: seq<Relation>, links: seq<Relation>, r: Relation)
    ensures MergeRelations(MergeRelations(found, links), [r]) == MergeRelations(found, links + [r])
  {
    FirstByKeyTwice(found + links, [r], RelationKey);
    assert found + links + [r] == found + (links + [r]);
  }

  lemma LinkIsHop(q: Query, at: ObjectRef, rels: seq<Relation>, i: nat)
    requires Call(q, at) == Answered(rels) && i < |rels| && Allowed(q, rels[i])
    requires ObjectKey(Normalize(q, at, rels[i]).to) != ""
    ensures Hop(q, at, Normalize(q, at, rels[i]).to)
  {
    assert Leaves(q, at, Normalize(q, at, rels[i]));
  }

  // ---- One level ----

  predicate Stops(e: ErrorKind) {
    e.BudgetExhausted? || e.DeadlineExceeded? || e.Cancelled?
  }

  // The errors that are reported: those of expanded objects, except leaves.
  ghost predicate ErrorsOk(q: Query, expanded: seq<ObjectRef>, errors: map<string, ErrorKind>) {
    && (forall a :: a in expanded && Call(q, a).Failed? && !Call(q, a).leaf ==>
          ObjectKey(a) in errors && errors[ObjectKey(a)] == Call(q, a).error)
    && (forall k :: k in errors ==>
        exists a :: a in expanded && ObjectKey(a) == k && Call(q, a).Failed? && !Call(q, a).leaf)
  }

  ghost predicate StopOk(q: Query, expanded: seq<ObjectRef>, stop: bool) {
    stop <==> exists a :: a in expanded && Call(q, a).Failed? && Stops(Call(q, a).error)
  }

  // The loop state between two levels.
  ghost predicate LevelInv(q: Query, found: seq<Relation>, visited: set<string>, expanded: seq<ObjectRef>,
                           frontier: seq<FrontierItem>, d: nat) {
    && Sound(q, found, expanded) && Complete(q, found, expanded)
    && Accounted(visited, expanded + Refs(frontier)) && DistinctObjects(expanded + Refs(frontier))
    && Within(q, expanded, d)
  }

  lemma FailedAdds(q: Query, found: seq<Relation>, expanded: seq<ObjectRef>, a: ObjectRef)
    requires Sound(q, found, expanded) && Complete(q, found, expanded) && Call(q, a).Failed?
    ensures Sound(q, found, expanded + [a]) && Complete(q, found, expanded + [a])
    ensures forall visited :: Known(visited, q, a)
  {
    forall r | r in found
      ensures exists b :: b in expanded + [a] && Leaves(q, b, r)
    {
      var b :| b in expanded && Leaves(q, b, r);
      assert b in expanded + [a];
    }
  }

  lemma ErrorsGrow(q: Query, expanded: seq<ObjectRef>, errors: map<string, ErrorKind>, a: ObjectRef)
    requires ErrorsOk(q, expanded, errors) && forall b :: b in expanded ==> ObjectKey(b) != ObjectKey(a)
    ensures Call(q, a).Failed? && !Call(q, a).leaf ==>
              ErrorsOk(q, expanded + [a], errors[ObjectKey(a) := Call(q, a).error])
    ensures !(Call(q, a).Failed? && !Call(q, a).leaf) ==> ErrorsOk(q, expanded + [a], errors)
  {
    var more := expanded + [a];
    forall k | k in errors
      ensures exists b :: b in more && ObjectKey(b) == k && Call(q, b).Failed? && !Call(q, b).leaf
    {
      var b :| b in expanded && ObjectKey(b) == k && Call(q, b).Failed? && !Call(q, b).leaf;
      assert b in more;
    }
    assert a in more;
  }

  lemma StopGrows(q: Query, expanded: seq<ObjectRef>, stop: bool, a: ObjectRef)
    requires StopOk(q, expanded, stop)
    ensures StopOk(q, expanded + [a], stop || (Call(q, a).Failed? && Stops(Call(q, a).error)))
  {
    var more := expanded + [a];
    if stop {
      var b :| b in expanded && Call(q, b).Failed? && Stops(Call(q, b).error);
      assert b in more;
    }
    assert a in more;
  }

  lemma WithinGrows(q: Query, refs: seq<ObjectRef>, d: nat, a: ObjectRef)
    requires Within(q, refs, d + 1) && AtDistance(q, d, a)
    ensures Within(q, refs + [a], d + 1)
  {
  }

  lemma WithinLater(q: Query, refs: seq<ObjectRef>, d: nat)
    requires Within(q, refs, d)
    ensures Within(q, refs, d + 1)
  {
    forall a | a in refs
      ensures exists i: nat :: i < d + 1 && AtDistance(q, i, a)
    {
      var i: nat :| i < d && AtDistance(q, i, a);
      assert i < d + 1;
    }
  }

  // Moving an object from the waiting to the expanded ones changes only the order of the list.
  lemma Reordered(visited: set<string>, xs: seq<ObjectRef>, ys: seq<ObjectRef>)
    requires multiset(xs) == multiset(ys) && Accounted(visited, xs) && DistinctObjects(xs)
    ensures Accounted(visited, ys) && DistinctObjects(ys)
  {
    forall a
      ensures a in ys <==> a in xs
    {
      assert a in multiset(xs) <==> a in multiset(ys);
    }
    DistinctPart(ys, xs, ObjectKey);
  }

  lemma TakeOut(expanded: seq<ObjectRef>, todo: seq<FrontierItem>, next: seq<FrontierItem>, i: nat)
    requires i < |todo|
    ensures multiset(expanded + Refs(todo) + Refs(next))
            == multiset((expanded + [todo[i].ref]) + Refs(todo[..i] + todo[i + 1..]) + Refs(next))
  {
    assert Refs(todo) == Refs(todo[..i]) + [todo[i].ref] + Refs(todo[i + 1..]);
    assert Refs(todo[..i] + todo[i + 1..]) == Refs(todo[..i]) + Refs(todo[i + 1..]);
  }

  // The state in the middle of a level; `waiting` are the objects of it still to be expanded.
  ghost predicate MidLevel(q: Query, found: seq<Relation>, visited: set<string>, errors: map<string, ErrorKind>,
                           stop: bool,
                           expanded: seq<ObjectRef>, waiting: seq<ObjectRef>, next: seq<FrontierItem>, d: nat) {
    && Sound(q, found, expanded) && Complete(q, found, expanded) && Within(q, expanded, d + 1)
    && Accounted(visited, expanded + waiting + Refs(next)) && DistinctObjects(expanded + waiting + Refs(next))
    && FrontierOk(q, next, d + 1) && ErrorsOk(q, expanded, errors) && StopOk(q, expanded, stop)
  }

  lemma Picked(q: Query, found: seq<Relation>, visited: set<string>, errors: map<string, ErrorKind>, stop: bool,
               expanded: seq<ObjectRef>, todo: seq<FrontierItem>, next: seq<FrontierItem>, d: nat, i: nat)
    requires MidLevel(q, found, visited, errors, stop, expanded, Refs(todo), next, d) && i < |todo|
    ensures var rest := Refs(todo[..i] + todo[i + 1..]);
            && Accounted(visited, (expanded + [todo[i].ref]) + rest + Refs(next))
            && DistinctObjects((expanded + [todo[i].ref]) + rest + Refs(next))
            && forall b :: b in expanded ==> ObjectKey(b) != ObjectKey(todo[i].ref)
  {
    hide Accounted, DistinctObjects, Sound, Complete, Within, ErrorsOk, StopOk, FrontierOk;
    var rest := Refs(todo[..i] + todo[i + 1..]);
    TakeOut(expanded, todo, next, i);
    Reordered(visited, expanded + Refs(todo) + Refs(next), (expanded + [todo[i].ref]) + rest + Refs(next));
    assert (expanded + [todo[i].ref]) + rest + Refs(next) == (expanded + [todo[i].ref]) + (rest + Refs(next));
    FreshObject(expanded, todo[i].ref, rest + Refs(next));
  }

  // expand.go:88-125: one goroutine of the level. `did` is what it asks of the budget account and
  // whether it calls the provider.
  method ExpandOne(q: Query, item: FrontierItem) returns (answer: Answer, ghost did: seq<Ledger.Action>)
    requires item.root == (item.ref == q.root)
    ensures answer == Call(q, item.ref) && Ledger.Paid(did)
  {
    did := [];
    Ledger.NothingDone();
    var t := q.tried(item.ref);
    if t.NoProvider? {
      return Failed(OtherError, !item.root), did;
    }
    if t.NotAllowed? {
      return Failed(OtherError, !item.root && t.unsupported), did;
    }
    if t.WrongSource? || t.WrongKind? {
      return Failed(OtherError, false), did;
    }
    if t.NotAnExpander? {
      return Failed(OtherError, !item.root), did;
    }
    ghost var reserve := Ledger.Asked(Ledger.Reserve(Ledger.Cost(1, 0, 1, 0)), !t.NotReserved?);
    Ledger.PaidAppend(did, reserve);
    did := did + [reserve];
    if t.NotReserved? {
      return Failed(BudgetExhausted, false), did;
    }
    Ledger.CallPaid(did);
    did := did + [Ledger.Called];
    if t.CallFailed? {
      return Failed(t.error, false), did;
    }
    var size: nat := *;
    ghost var bytes := Ledger.Asked(Ledger.Bytes(size), !t.TooLarge?);
    Ledger.PaidAppend(did, bytes);
    did := did + [bytes];
    answer := if t.TooLarge? then Failed(BudgetExhausted, false) else Answered(t.relations);
  }

  // expand.go:132-165: one result of the level.
  method TakeResult(q: Query, item: FrontierItem, found: seq<Relation>, visited: set<string>, next: seq<FrontierItem>,
                    errors: map<string, ErrorKind>, rootErr: Option<ErrorKind>, stop: bool, answer: Answer,
                    ghost was: seq<ObjectRef>, ghost rest: seq<ObjectRef>, ghost d: nat)
    returns (found': seq<Relation>, visited': set<string>, next': seq<FrontierItem>,
             errors': map<string, ErrorKind>, rootErr': Option<ErrorKind>, stop': bool)
    requires Sound(q, found, was) && Complete(q, found, was) && Within(q, was, d + 1) && FrontierOk(q, next, d + 1)
    requires ErrorsOk(q, was, errors) && StopOk(q, was, stop) && item.depth == d && AtDistance(q, d, item.ref)
    requires Accounted(visited, was + [item.ref] + rest + Refs(next))
               && DistinctObjects(was + [item.ref] + rest + Refs(next))
    requires (forall b :: b in was ==> ObjectKey(b) != ObjectKey(item.ref)) && answer == Call(q, item.ref)
    ensures MidLevel(q, found', visited', errors', stop', was + [item.ref], rest, next', d)
    ensures visited <= visited' && (d + 1 < q.depth ==> Known(visited', q, item.ref))
    ensures d + 1 >= q.depth ==> next' == next && visited' == visited
    ensures rootErr' == if item.root && Call(q, item.ref).Failed? then Some(Call(q, item.ref).error) else rootErr
  {
    hide AtDistance, Accounted, DistinctObjects, ObjectKey, Hop, Sound, Complete, Known, ErrorsOk, StopOk,
      MergeRelations, DistinctKeys,
         Within, FrontierOk;
    found', visited', next', errors', rootErr', stop' := found, visited, next, errors, rootErr, stop;
    ErrorsGrow(q, was, errors, item.ref);
    StopGrows(q, was, stop, item.ref);
    WithinGrows(q, was, d, item.ref);
    hide Call;
    match answer {
      case Failed(error, leaf) =>
        FailedAdds(q, found, was, item.ref);
        if item.root {
          rootErr' := Some(error);
        }
        if !leaf {
          errors' := errors[ObjectKey(item.ref) := error];
        }
        if Stops(error) {
          stop' := true;
        }
      case Answered(rels) =>
        FoundGrows(q, found, was, item.ref, rels);
        SoundIsDistinct(q, found, was);
        found', visited', next' := TakeIn(q, item, rels, found, visited, next, was + [item.ref] + rest);
    }
  }

  // expand.go:80-170: the whole frontier is expanded, in an arbitrary order.
  method ExpandLevel(q: Query, frontier: seq<FrontierItem>, ghost d: nat, found: seq<Relation>, visited: set<string>,
                     errors: map<string, ErrorKind>, rootErr: Option<ErrorKind>, ghost expanded: seq<ObjectRef>)
    returns (found': seq<Relation>, visited': set<string>, next: seq<FrontierItem>,
             errors': map<string, ErrorKind>, rootErr': Option<ErrorKind>, stop: bool, ghost expanded': seq<ObjectRef>,
             ghost traces: seq<seq<Ledger.Action>>)
    requires LevelInv(q, found, visited, expanded, frontier, d) && FrontierOk(q, frontier, d)
    requires ErrorsOk(q, expanded, errors) && StopOk(q, expanded, false) && (d > 0 ==> q.root in expanded)
    ensures LevelInv(q, found', visited', expanded', next, d + 1) && FrontierOk(q, next, d + 1)
    ensures ErrorsOk(q, expanded', errors') && StopOk(q, expanded', stop)
    ensures visited <= visited' && (forall a :: a in expanded ==> a in expanded')
              && (forall a :: a in Refs(frontier) ==> a in expanded')
    ensures forall a :: a in expanded' ==>
              a in expanded || (a in Refs(frontier) && (d + 1 < q.depth ==> Known(visited', q, a)))
    ensures d + 1 >= q.depth ==> next == [] && visited' == visited
    ensures rootErr' == if d == 0 && frontier != [] && Call(q, q.root).Failed? then Some(Call(q, q.root).error)
              else rootErr
    ensures |traces| == |frontier| && Ledger.AllPaid(traces)
  {
    hide *;
    traces := [];
    Ledger.NobodyActs();
    found', visited', next, errors', rootErr', stop, expanded' := found, visited, [], errors, rootErr, false, expanded;
    var todo := frontier;
    LevelStart(q, found, visited, errors, expanded, frontier, d);
    SpreadNone(q, visited, expanded, Refs(frontier), d);
    while todo != []
      invariant MidLevel(q, found', visited', errors', stop, expanded', Refs(todo), next, d)
      invariant FrontierOk(q, todo, d) && visited <= visited'
      invariant Spread(q, visited', expanded, Refs(frontier), expanded', Refs(todo), d)
                  && (d > 0 ==> q.root in expanded')
      invariant d + 1 >= q.depth ==> next == [] && visited' == visited
      invariant |todo| + |traces| == |frontier| && Ledger.AllPaid(traces)
      invariant rootErr' == if d == 0 && |todo| < |frontier| && Call(q, q.root).Failed? then Some(Call(q, q.root).error)
                  else rootErr
      decreases |todo|
    {
      var i: nat :| i < |todo|;
      var item := todo[i];
      var rest := todo[..i] + todo[i + 1..];
      ghost var was, seen, before := expanded', visited', todo;
      Picked(q, found', visited', errors', stop, expanded', todo, next, d, i);
      MidMeans(q, found', visited', errors', stop, expanded', Refs(todo), next, d);
      FrontierRest(q, todo, d, i);
      RootIsFirst(q, was, item, d);
      var answer, did := ExpandOne(q, item);
      Ledger.OneMorePaid(traces, did);
      traces := traces + [did];
      found', visited', next, errors', rootErr', stop :=
        TakeResult(q, item, found', visited', next, errors', rootErr', stop, answer, was, Refs(rest), d);
      expanded' := expanded' + [item.ref];
      todo := rest;
      SpreadOn(q, seen, visited', expanded, Refs(frontier), was, Refs(before), item.ref, Refs(rest), d);
    }
    SpreadAll(q, visited', expanded, Refs(frontier), expanded', d);
    LevelDone(q, found', visited', errors', stop, expanded', next, d);
  }

  // The objects expanded so far are those expanded before and some of the level, whose relations
  // are known.
  ghost predicate Spread(q: Query, visited: set<string>, before: seq<ObjectRef>, level: seq<ObjectRef>,
                         expanded: seq<ObjectRef>,
                         waiting: seq<ObjectRef>, d: nat) {
    && (forall a :: a in before ==> a in expanded) && (forall a :: a in level ==> a in expanded || a in waiting)
    && (forall a :: a in waiting ==> a in level)
    && (forall a :: a in expanded ==> a in before || (a in level && (d + 1 < q.depth ==> Known(visited, q, a))))
  }

  lemma SpreadNone(q: Query, visited: set<string>, before: seq<ObjectRef>, level: seq<ObjectRef>, d: nat)
    ensures Spread(q, visited, before, level, before, level, d)
  {
    hide Known;
  }

  lemma SpreadOn(q: Query, seen: set<string>, visited: set<string>, before: seq<ObjectRef>, level: seq<ObjectRef>,
                 expanded: seq<ObjectRef>,
                 waiting: seq<ObjectRef>, a: ObjectRef, rest: seq<ObjectRef>, d: nat)
    requires Spread(q, seen, before, level, expanded, waiting, d) && seen <= visited
               && (d + 1 < q.depth ==> Known(visited, q, a))
    requires a in waiting && forall b :: b in waiting <==> b == a || b in rest
    ensures Spread(q, visited, before, level, expanded + [a], rest, d)
  {
    hide Known;
    KnownLater(seen, visited, q, expanded);
  }

  lemma SpreadAll(q: Query, visited: set<string>, before: seq<ObjectRef>, level: seq<ObjectRef>,
                  expanded: seq<ObjectRef>, d: nat)
    requires Spread(q, visited, before, level, expanded, Refs([]), d)
    ensures (forall a :: a in before ==> a in expanded) && (forall a :: a in level ==> a in expanded)
    ensures forall a :: a in expanded ==> a in before || (a in level && (d + 1 < q.depth ==> Known(visited, q, a)))
  {
    hide Known;
  }

  lemma LevelStart(q: Query, found: seq<Relation>, visited: set<string>, errors: map<string, ErrorKind>,
                   expanded: seq<ObjectRef>,
                   frontier: seq<FrontierItem>, d: nat)
    requires LevelInv(q, found, visited, expanded, frontier, d) && ErrorsOk(q, expanded, errors)
               && StopOk(q, expanded, false)
    ensures MidLevel(q, found, visited, errors, false, expanded, Refs(frontier), [], d)
    ensures Refs([]) == [] && FrontierOk(q, [], d + 1)
  {
    hide AtDistance, Accounted, DistinctObjects, ObjectKey, Sound, Complete, ErrorsOk, StopOk, Within;
    WithinLater(q, expanded, d);
    assert expanded + Refs(frontier) + Refs([]) == expanded + Refs(frontier);
    NoFrontier(q, d + 1);
  }

  lemma MidMeans(q: Query, found: seq<Relation>, visited: set<string>, errors: map<string, ErrorKind>, stop: bool,
                 expanded: seq<ObjectRef>, waiting: seq<ObjectRef>, next: seq<FrontierItem>, d: nat)
    requires MidLevel(q, found, visited, errors, stop, expanded, waiting, next, d)
    ensures Sound(q, found, expanded) && Complete(q, found, expanded) && Within(q, expanded, d + 1)
              && FrontierOk(q, next, d + 1)
    ensures ErrorsOk(q, expanded, errors) && StopOk(q, expanded, stop)
  {
    hide AtDistance, Accounted, DistinctObjects, ObjectKey, Sound, Complete, ErrorsOk, StopOk, Within, FrontierOk;
  }

  lemma LevelDone(q: Query, found: seq<Relation>, visited: set<string>, errors: map<string, ErrorKind>, stop: bool,
                  expanded: seq<ObjectRef>,
                  next: seq<FrontierItem>, d: nat)
    requires MidLevel(q, found, visited, errors, stop, expanded, Refs([]), next, d)
    ensures LevelInv(q, found, visited, expanded, next, d + 1) && FrontierOk(q, next, d + 1)
    ensures ErrorsOk(q, expanded, errors) && StopOk(q, expanded, stop) && Refs([]) == []
  {
    hide AtDistance, Accounted, DistinctObjects, ObjectKey, Sound, Complete, ErrorsOk, StopOk, Within, FrontierOk;
    assert expanded + Refs([]) + Refs(next) == expanded + Refs(next);
  }

  // Only the item of the first level is the root.
  lemma RootIsFirst(q: Query, was: seq<ObjectRef>, item: FrontierItem, d: nat)
    requires item.root == (d == 0) && (d == 0 ==> item.ref == q.root) && (d > 0 ==> q.root in was)
    requires forall b :: b in was ==> ObjectKey(b) != ObjectKey(item.ref)
    ensures item.root == (item.ref == q.root)
  {
    hide ObjectKey;
  }

  lemma NoFrontier(q: Query, d: nat)
    ensures FrontierOk(q, [], d)
  {
  }

  lemma RootAtZero(q: Query, d: nat, a: ObjectRef)
    requires AtDistance(q, d, a)
    ensures d == 0 ==> a == q.root
  {
  }

  lemma FrontierRest(q: Query, todo: seq<FrontierItem>, d: nat, i: nat)
    requires FrontierOk(q, todo, d) && i < |todo|
    ensures todo[i].depth == d && AtDistance(q, d, todo[i].ref) && todo[i].root == (d == 0)
              && (d == 0 ==> todo[i].ref == q.root)
    ensures FrontierOk(q, todo[..i] + todo[i + 1..], d)
    ensures todo[i].ref in Refs(todo)
    ensures forall a :: a in Refs(todo) <==> a == todo[i].ref || a in Refs(todo[..i] + todo[i + 1..])
  {
    hide AtDistance;
    RootAtZero(q, d, todo[i].ref);
    var before, after := Refs(todo[..i]), Refs(todo[i + 1..]);
    assert Refs(todo) == before + [todo[i].ref] + after;
    assert Refs(todo[..i] + todo[i + 1..]) == before + after;
    forall a
      ensures a in Refs(todo) <==> a == todo[i].ref || a in Refs(todo[..i] + todo[i + 1..])
    {
      MemberOfParts(before, todo[i].ref, after, a);
    }
  }

  lemma MemberOfParts(xs: seq<ObjectRef>, y: ObjectRef, zs: seq<ObjectRef>, a: ObjectRef)
    ensures a in xs + [y] + zs <==> a == y || a in xs + zs
    ensures y in xs + [y] + zs
  {
  }

  lemma SoundIsDistinct(q: Query, found: seq<Relation>, expanded: seq<ObjectRef>)
    requires Sound(q, found, expanded)
    ensures DistinctKeys(found, RelationKey)
  {
  }

  lemma KnownLater(visited: set<string>, visited': set<string>, q: Query, refs: seq<ObjectRef>)
    requires visited <= visited'
    ensures forall a :: a in refs && Known(visited, q, a) ==> Known(visited', q, a)
  {
  }

  lemma FreshObject(was: seq<ObjectRef>, a: ObjectRef, rest: seq<ObjectRef>)
    requires DistinctObjects((was + [a]) + rest)
    ensures forall b :: b in was ==> ObjectKey(b) != ObjectKey(a)
  {
    var all := (was + [a]) + rest;
    forall b | b in was
      ensures ObjectKey(b) != ObjectKey(a)
    {
      var i :| 0 <= i < |was| && was[i] == b;
      assert all[i] == b && all[|was|] == a;
    }
  }

  // ---- The whole traversal ----

  // Objects at most min(d, depth - 1) hops away have been visited.
  ghost predicate Covered(q: Query, visited: set<string>, d: nat) {
    forall n: nat, a :: n <= d && n < q.depth && AtDistance(q, n, a) ==> ObjectKey(a) in visited
  }

  lemma CoveredGrows(q: Query, visited: set<string>, visited': set<string>, expanded: seq<ObjectRef>, d: nat)
    requires KeysIdentify(q) && Covered(q, visited, d) && visited <= visited' && ObjectKey(q.root) in visited
    requires forall k :: k in visited ==> exists a :: a in expanded && ObjectKey(a) == k
    requires forall a :: a in expanded && d + 1 < q.depth ==> Known(visited', q, a) && ObjectKey(a) != ""
    requires Within(q, expanded, q.depth)
    ensures Covered(q, visited', d + 1)
  {
    forall n: nat, b | n <= d + 1 && n < q.depth && AtDistance(q, n, b)
      ensures ObjectKey(b) in visited'
    {
      if n == d + 1 {
        var a :| AtDistance(q, n - 1, a) && Hop(q, a, b);
        assert ObjectKey(a) in visited;
        var e :| e in expanded && ObjectKey(e) == ObjectKey(a);
        assert Met(q, a) && Met(q, e);
        HopOfSame(q, a, e, b);
        var t :| Hop(q, e, t) && ObjectKey(t) == ObjectKey(b);
      }
    }
  }

  lemma HopOfSame(q: Query, a: ObjectRef, e: ObjectRef, b: ObjectRef)
    requires KeysIdentify(q) && Met(q, a) && Met(q, e) && ObjectKey(a) == ObjectKey(e) && ObjectKey(a) != ""
               && Hop(q, a, b)
    ensures exists t :: Hop(q, e, t) && ObjectKey(t) == ObjectKey(b)
  {
    assert SameLinks(q, a, e);
    var r :| Leaves(q, a, r) && r.to == b;
    var t :| Leaves(q, e, t) && RelationKey(t) == RelationKey(r) && ObjectKey(t.to) == ObjectKey(r.to);
    assert Hop(q, e, t.to);
  }

  lemma FoundIsFindable(q: Query, found: seq<Relation>, expanded: seq<ObjectRef>, k: string)
    requires Sound(q, found, expanded) && Within(q, expanded, q.depth) && HasKey(found, RelationKey, k)
    ensures Findable(q, k)
  {
    hide AtDistance, Leaves, RelationKey;
    var i :| 0 <= i < |found| && RelationKey(found[i]) == k;
    assert found[i] in found;
    var a :| a in expanded && Leaves(q, a, found[i]);
    var n: nat :| n < q.depth && AtDistance(q, n, a);
  }

  lemma FindableIsFound(q: Query, found: seq<Relation>, visited: set<string>, expanded: seq<ObjectRef>, d: nat,
                        k: string)
    requires KeysIdentify(q) && Complete(q, found, expanded) && Accounted(visited, expanded)
    requires Covered(q, visited, d) && d + 1 >= q.depth && Within(q, expanded, q.depth) && Findable(q, k)
    ensures HasKey(found, RelationKey, k)
  {
    hide AtDistance, Leaves, RelationKey, HasKey;
    var n: nat, a, r :| n < q.depth && AtDistance(q, n, a) && Leaves(q, a, r) && RelationKey(r) == k;
    assert ObjectKey(a) in visited;
    var e :| e in expanded && ObjectKey(e) == ObjectKey(a);
    assert Met(q, a) && Met(q, e);
    assert SameLinks(q, a, e);
    var t :| Leaves(q, e, t) && RelationKey(t) == RelationKey(r) && ObjectKey(t.to) == ObjectKey(r.to);
  }

  // With nothing left to expand, what has been found is exactly what can be found.
  lemma AllFound(q: Query, found: seq<Relation>, visited: set<string>, expanded: seq<ObjectRef>, d: nat)
    requires KeysIdentify(q) && Sound(q, found, expanded) && Complete(q, found, expanded)
    requires Accounted(visited, expanded) && Covered(q, visited, d) && d + 1 >= q.depth && Within(q, expanded, q.depth)
    ensures forall k :: HasKey(found, RelationKey, k) <==> Findable(q, k)
  {
    hide *;
    forall k
      ensures HasKey(found, RelationKey, k) <==> Findable(q, k)
    {
      if HasKey(found, RelationKey, k) {
        FoundIsFindable(q, found, expanded, k);
      }
      if Findable(q, k) {
        FindableIsFound(q, found, visited, expanded, d, k);
      }
    }
  }

  // Once everything expanded leads only to visited objects, nothing further away is unvisited.
  lemma {:induction false} ClosedIsReached(q: Query, visited: set<string>, expanded: seq<ObjectRef>, d: nat, m: nat)
    requires KeysIdentify(q) && Covered(q, visited, d) && d <= m && ObjectKey(q.root) in visited
    requires forall k :: k in visited ==> exists a :: a in expanded && ObjectKey(a) == k
    requires forall a :: a in expanded ==> Known(visited, q, a) && ObjectKey(a) != ""
    requires Within(q, expanded, q.depth)
    ensures Covered(q, visited, m)
    decreases m - d
  {
    if d < m {
      CoveredGrows(q, visited, visited, expanded, d);
      ClosedIsReached(q, visited, expanded, d + 1, m);
    }
  }

  lemma StartOk(q: Query)
    requires q.depth >= 1 && ObjectKey(q.root) != ""
    ensures LevelInv(q, [], {ObjectKey(q.root)}, [], [FrontierItem(q.root, 0, true)], 0)
    ensures FrontierOk(q, [FrontierItem(q.root, 0, true)], 0)
    ensures ErrorsOk(q, [], map[]) && StopOk(q, [], false)
    ensures Covered(q, {ObjectKey(q.root)}, 0)
  {
    assert [] + Refs([FrontierItem(q.root, 0, true)]) == [q.root];
    assert q.root in [q.root];
  }

  lemma WithinDepth(q: Query, refs: seq<ObjectRef>, d: nat)
    requires Within(q, refs, d) && d <= q.depth
    ensures Within(q, refs, q.depth)
  {
    forall a | a in refs
      ensures exists i: nat :: i < q.depth && AtDistance(q, i, a)
    {
      var i: nat :| i < d && AtDistance(q, i, a);
      assert i < q.depth;
    }
  }

  lemma LevelEnd(q: Query, found: seq<Relation>, visited: set<string>, expanded: seq<ObjectRef>,
                 frontier: seq<FrontierItem>, d: nat)
    requires LevelInv(q, found, visited, expanded, frontier, d) && d <= q.depth
    ensures DistinctObjects(expanded) && Within(q, expanded, q.depth) && Sound(q, found, expanded)
              && DistinctKeys(found, RelationKey)
    ensures Complete(q, found, expanded)
  {
    hide AtDistance, Accounted, Within, Sound, Complete, ObjectKey;
    WithinDepth(q, expanded, d);
    SoundIsDistinct(q, found, expanded);
    var all := expanded + Refs(frontier);
    forall i, j | 0 <= i < j < |expanded|
      ensures ObjectKey(expanded[i]) != ObjectKey(expanded[j])
    {
      assert all[i] == expanded[i] && all[j] == expanded[j];
    }
  }

  // A level takes what has been reached one hop further.
  lemma NextCovered(q: Query, seen: set<string>, visited: set<string>, was: seq<ObjectRef>, before: seq<FrontierItem>,
                    expanded: seq<ObjectRef>, d: nat)
    requires KeysIdentify(q) && Covered(q, seen, d) && seen <= visited && ObjectKey(q.root) in seen && d + 1 < q.depth
    requires Accounted(seen, was + Refs(before)) && Identified(expanded)
    requires forall a :: a in was + Refs(before) ==> a in expanded
    requires (forall a :: a in expanded ==> Known(visited, q, a)) && Within(q, expanded, q.depth)
    ensures Covered(q, visited, d + 1)
  {
    hide AtDistance, Covered, KeysIdentify, Known, ObjectKey, Within;
    forall k | k in seen
      ensures exists a :: a in expanded && ObjectKey(a) == k
    {
      var a :| a in was + Refs(before) && ObjectKey(a) == k;
      assert a in expanded;
    }
    CoveredGrows(q, seen, visited, expanded, d);
  }

  ghost predicate Identified(refs: seq<ObjectRef>) {
    forall a :: a in refs ==> ObjectKey(a) != ""
  }

  lemma ExpandedAreIdentified(q: Query, found: seq<Relation>, visited: set<string>, expanded: seq<ObjectRef>,
                              frontier: seq<FrontierItem>, d: nat)
    requires LevelInv(q, found, visited, expanded, frontier, d)
    ensures Identified(expanded)
  {
    hide AtDistance, Within, Sound, Complete, ObjectKey, DistinctObjects;
    forall a | a in expanded
      ensures ObjectKey(a) != ""
    {
      assert a in expanded + Refs(frontier);
    }
  }

  lemma SameCovered(q: Query, visited: set<string>, d: nat, m: nat)
    requires Covered(q, visited, d) && d + 1 >= q.depth
    ensures Covered(q, visited, m)
  {
  }

  // With an empty frontier the whole depth has been explored, even if the loop ended early.
  lemma FinalFound(q: Query, found: seq<Relation>, visited: set<string>, expanded: seq<ObjectRef>, d: nat)
    requires KeysIdentify(q) && LevelInv(q, found, visited, expanded, [], d) && d <= q.depth && q.depth >= 1
    requires Covered(q, visited, d) && ObjectKey(q.root) in visited
    requires d < q.depth ==> forall a :: a in expanded ==> Known(visited, q, a)
    ensures forall k :: HasKey(found, RelationKey, k) <==> Findable(q, k)
  {
    hide AtDistance, Covered, KeysIdentify, Known, ObjectKey, Within, Sound, Complete, Findable, DistinctObjects;
    assert expanded + Refs([]) == expanded;
    ExpandedAreIdentified(q, found, visited, expanded, [], d);
    WithinDepth(q, expanded, d);
    if d < q.depth {
      ClosedIsReached(q, visited, expanded, d, q.depth);
    }
    AllFound(q, found, visited, expanded, q.depth);
  }

  // A traversal of any depth. Without a failure that stops it, the relations found are exactly
  // the allowed ones leaving objects fewer than `depth` hops from the root, on any graph, cyclic
  // or not; with one, they are some of those. Each is found once, and no object is expanded twice.
  method Traverse(q: Query)
    returns (found: seq<Relation>, errors: map<string, ErrorKind>, rootErr: Option<ErrorKind>, stop: bool,
                                     ghost expanded: seq<ObjectRef>, ghost traces: seq<seq<Ledger.Action>>)
    requires q.depth >= 1 && ObjectKey(q.root) != ""
    ensures Ledger.AllPaid(traces)
    ensures DistinctKeys(found, RelationKey) && DistinctObjects(expanded)
    ensures Sound(q, found, expanded) && Complete(q, found, expanded) && Within(q, expanded, q.depth)
    ensures ErrorsOk(q, expanded, errors) && StopOk(q, expanded, stop)
    ensures rootErr == if Call(q, q.root).Failed? then Some(Call(q, q.root).error) else None
    ensures KeysIdentify(q) && !stop ==> forall k :: HasKey(found, RelationKey, k) <==> Findable(q, k)
  {
    hide AtDistance, Accounted, DistinctObjects, ObjectKey, Hop, Sound, Complete, Known, ErrorsOk, StopOk, Within,
      FrontierOk, KeysIdentify,
         Covered, Findable, DistinctKeys, HasKey, LevelInv, Identified, Ledger.AllPaid;
    Ledger.NobodyActs();
    traces := [];
    var frontier := [FrontierItem(q.root, 0, true)];
    var visited := {ObjectKey(q.root)};
    found, errors, rootErr, stop, expanded := [], map[], None, false, [];
    ghost var d := 0;
    StartOk(q);
    while frontier != []
      invariant d <= q.depth && (d == q.depth ==> frontier == [])
      invariant LevelInv(q, found, visited, expanded, frontier, d) && FrontierOk(q, frontier, d)
      invariant ErrorsOk(q, expanded, errors) && StopOk(q, expanded, stop) && !stop
      invariant KeysIdentify(q) ==> Covered(q, visited, d)
      invariant ObjectKey(q.root) in visited
      invariant if d == 0 then frontier == [FrontierItem(q.root, 0, true)] else q.root in expanded
      invariant rootErr == if d > 0 && Call(q, q.root).Failed? then Some(Call(q, q.root).error) else None
      invariant d < q.depth ==> forall a :: a in expanded ==> Known(visited, q, a)
      invariant Ledger.AllPaid(traces)
      decreases q.depth - d
    {
      ghost var was, seen, before, earlier := expanded, visited, frontier, found;
      RootWaits(q);
      var next;
      ghost var more;
      found, visited, next, errors, rootErr, stop, expanded, more :=
        ExpandLevel(q, frontier, d, found, visited, errors, rootErr, expanded);
      Ledger.MorePaid(traces, more);
      traces := traces + more;
      if stop {
        LevelEnd(q, found, visited, expanded, next, d + 1);
        return;
      }
      if KeysIdentify(q) {
        Advance(q, earlier, found, seen, visited, was, before, expanded, next, d);
      }
      KnownLater(seen, visited, q, was);
      frontier := next;
      d := d + 1;
    }
    LevelEnd(q, found, visited, expanded, frontier, d);
    if KeysIdentify(q) {
      FinalFound(q, found, visited, expanded, d);
    }
  }

  lemma RootWaits(q: Query)
    ensures q.root in Refs([FrontierItem(q.root, 0, true)])
  {
    assert Refs([FrontierItem(q.root, 0, true)])[0] == q.root;
  }

  lemma Advance(q: Query, earlier: seq<Relation>, found: seq<Relation>, seen: set<string>, visited: set<string>,
                was: seq<ObjectRef>,
                before: seq<FrontierItem>, expanded: seq<ObjectRef>, next: seq<FrontierItem>, d: nat)
    requires KeysIdentify(q) && Covered(q, seen, d) && seen <= visited && ObjectKey(q.root) in seen && d < q.depth
    requires LevelInv(q, earlier, seen, was, before, d) && LevelInv(q, found, visited, expanded, next, d + 1)
    requires forall a :: a in was || a in Refs(before) ==> a in expanded
    requires forall a :: a in expanded ==> (a in was && Known(seen, q, a)) || (d + 1 < q.depth ==> Known(visited, q, a))
    requires d + 1 >= q.depth ==> visited == seen
    ensures Covered(q, visited, d + 1)
  {
    hide AtDistance, Covered, KeysIdentify, Known, ObjectKey, Accounted, Identified, Sound, Complete, Within,
      DistinctObjects;
    ExpandedAreIdentified(q, found, visited, expanded, next, d + 1);
    WithinDepth(q, expanded, d + 1);
    KnownLater(seen, visited, q, was);
    if d + 1 < q.depth {
      NextCovered(q, seen, visited, was, before, expanded, d);
    } else {
      SameCovered(q, visited, d, d + 1);
    }
  }

  // ---- The operation (expand.go:31-190) ----

  datatype Reply = Rejected(error: FetchModel.Error) | Refused(err: ErrorKind) | Expanded(batch: RelationBatch)

  // The object as the session knows it.
  function Named(env: FetchModel.Env, ref: ObjectRef): ObjectRef {
    match FetchModel.KnownRef(env.known, ref) case Some(k) => k case None => ref
  }

  // Why a request is not even tried.
  function Rejection(env: FetchModel.Env, ref: ObjectRef): Option<FetchModel.Error> {
    if !FetchModel.Addressable(ref) then Some(FetchModel.InvalidRequest)
    else if FetchModel.KnownRef(env.known, ref).None? && env.reusing then Some(FetchModel.InvalidRequest)
    else env.refError(Named(env, ref))
  }

  // The relations kept in a session record.
  class SessionRelations {
    var relations: seq<Relation>

    constructor ()
      ensures relations == []
    {
      relations := [];
    }

    // `env` is the session's refs, the caller's scope and the identity check; `kinds` are the
    // relation types named by the caller.
    method Expand(env: FetchModel.Env, ref: ObjectRef, kinds: set<string>, maxDepth: int, tried: ObjectRef -> Tried)
      returns (reply: Reply, ghost q: Query, ghost expanded: seq<ObjectRef>, ghost traces: seq<seq<Ledger.Action>>)
      modifies this
      ensures Ledger.AllPaid(traces)
      ensures q == Query(FetchModel.ResolveRef(env, ref), kinds - {""}, env.scope, ClampDepth(maxDepth), tried)
      ensures reply.Rejected? <==> Rejection(env, ref).Some?
      ensures reply.Rejected? ==> Some(reply.error) == Rejection(env, ref)
      ensures reply.Refused? <==> Rejection(env, ref).None? && Call(q, q.root).Failed?
      ensures reply.Refused? ==> reply.err == Call(q, q.root).error
      ensures !reply.Expanded? ==> relations == old(relations)
      ensures reply.Expanded? ==> relations == MergeRelations(old(relations), reply.batch.relations)
      // Everything reported can be found, and each relation is reported once.
      ensures reply.Expanded? ==>
                && DistinctKeys(reply.batch.relations, RelationKey)
                && forall r :: r in reply.batch.relations ==> Reportable(q, r)
      // No object is expanded twice; of the expanded ones all relations are reported, and an error if
      // one of them failed that is no leaf.
      ensures reply.Expanded? ==>
                && DistinctObjects(expanded) && Complete(q, reply.batch.relations, expanded)
                && (reply.batch.partial <==> exists a :: a in expanded && Call(q, a).Failed? && !Call(q, a).leaf)
                && (reply.batch.error.Some? <==> reply.batch.partial)
      // Unless a failure stops it, everything that can be found is reported.
      ensures reply.Expanded? && KeysIdentify(q)
                && !(exists a :: a in expanded && Call(q, a).Failed? && Stops(Call(q, a).error)) ==>
                forall k :: HasKey(reply.batch.relations, RelationKey, k) <==> Findable(q, k)
      // If nothing fails, there is no error either.
      ensures Rejection(env, ref).None? && KeysIdentify(q) && (forall a :: Met(q, a) ==> Call(q, a).Answered?) ==>
                && reply.Expanded? && !reply.batch.partial
                && forall k :: HasKey(reply.batch.relations, RelationKey, k) <==> Findable(q, k)
    {
      hide AtDistance, DistinctObjects, RelationKey, KeysIdentify, Findable, DistinctKeys, HasKey, Leaves,
        MergeRelations, Reportable, Complete,
           Sound, Within, Met, Stops, AnswerOf, Ledger.AllPaid;
      expanded, traces := [], [];
      Ledger.NobodyActs();
      var query := Query(FetchModel.ResolveRef(env, ref), kinds - {""}, env.scope, ClampDepth(maxDepth), tried);
      q := query;
      if !FetchModel.Addressable(ref) {
        return Rejected(FetchModel.InvalidRequest), q, expanded, traces;
      }
      var known := FetchModel.KnownRef(env.known, ref);
      if known.None? && env.reusing {
        return Rejected(FetchModel.InvalidRequest), q, expanded, traces;
      }
      var error := env.refError(Named(env, ref));
      if error.Some? {
        return Rejected(error.value), q, expanded, traces;
      }
      FetchModel.ResolvedIsCanonical(env, ref);
      var found, errors, rootErr, stop;
      found, errors, rootErr, stop, expanded, traces := Traverse(query);
      NoFailureNoError(q, expanded, errors, stop);
      DeadRootFindsNothing(q, found, expanded);
      RootIsMet(q);
      if found == [] && rootErr.Some? {
        return Refused(rootErr.value), q, expanded, traces;
      }
      relations := MergeRelations(relations, found);
      FoundWithin(q, found, expanded);
      var partial := errors.Keys != {};
      reply := Expanded(RelationBatch(found, partial, if partial then Some(OtherError) else None));
    }
  }

  lemma RootIsMet(q: Query)
    requires q.depth > 0
    ensures Met(q, q.root)
  {
    assert AtDistance(q, 0, q.root);
  }

  lemma NoFailureNoError(q: Query, expanded: seq<ObjectRef>, errors: map<string, ErrorKind>, stop: bool)
    requires ErrorsOk(q, expanded, errors) && StopOk(q, expanded, stop)
    requires Within(q, expanded, q.depth)
    ensures (forall a :: Met(q, a) ==> Call(q, a).Answered?) ==> errors.Keys == {} && !stop
    ensures stop <==> exists a :: a in expanded && Call(q, a).Failed? && Stops(Call(q, a).error)
    ensures errors.Keys != {} <==> exists a :: a in expanded && Call(q, a).Failed? && !Call(q, a).leaf
  {
    if a :| a in expanded && Call(q, a).Failed? && !Call(q, a).leaf {
      assert ObjectKey(a) in errors.Keys;
    }
    hide AtDistance, Call;
    if forall a :: Met(q, a) ==> Call(q, a).Answered? {
      assert forall a :: a in expanded ==> Met(q, a);
      forall k
        ensures k !in errors.Keys
      {
      }
    }
  }

  // From a root that cannot be expanded no other object is reached.
  lemma {:induction false} DeadRoot(q: Query, n: nat, b: ObjectRef)
    requires Call(q, q.root).Failed? && n > 0
    ensures !AtDistance(q, n, b)
  {
    if AtDistance(q, n, b) {
      var a :| AtDistance(q, n - 1, a) && Hop(q, a, b);
      if n > 1 {
        DeadRoot(q, n - 1, a);
      }
    }
  }

  lemma DeadRootFindsNothing(q: Query, found: seq<Relation>, expanded: seq<ObjectRef>)
    requires Sound(q, found, expanded) && Within(q, expanded, q.depth)
    ensures Call(q, q.root).Failed? ==> found == []
  {
    hide AtDistance;
    if Call(q, q.root).Failed? && found != [] {
      var r := found[0];
      assert r in found;
      var a :| a in expanded && Leaves(q, a, r);
      var n: nat :| n < q.depth && AtDistance(q, n, a);
      RootAtZero(q, n, a);
      if n > 0 {
        DeadRoot(q, n, a);
      }
    }
  }

  lemma FoundWithin(q: Query, found: seq<Relation>, expanded: seq<ObjectRef>)
    requires Sound(q, found, expanded) && Within(q, expanded, q.depth)
    ensures forall r :: r in found ==> Reportable(q, r)
  {
    hide AtDistance, Leaves;
    forall r | r in found
      ensures Reportable(q, r)
    {
      var a :| a in expanded && Leaves(q, a, r);
      var n: nat :| n < q.depth && AtDistance(q, n, a);
    }
  }

  // A session never loses a relation to an expansion.
  lemma ExpandKeepsRelations(stored: seq<Relation>, found: seq<Relation>)
    ensures forall k :: HasKey(MergeRelations(stored, found), RelationKey, k) <==>
              HasKey(stored, RelationKey, k) || HasKey(found, RelationKey, k)
    ensures DistinctKeys(MergeRelations(stored, found), RelationKey)
  {
    FirstByKeyIsDedup(stored + found, RelationKey);
    KeysOfConcat(stored, found, RelationKey);
  }
}
