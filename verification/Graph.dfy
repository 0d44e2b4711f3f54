// Directed graphs given by adjacency lists, as the dependency lists of a plan are.
// A key maps to the nodes it depends on; an edge leads from a node to a dependency.
module Graph {

  type Id = string

  type Edges = map<Id, seq<Id>>

  ghost predicate Edge(g: Edges, a: Id, b: Id) {
    a in g && b in g[a]
  }

  ghost predicate Linked(g: Edges, p: seq<Id>, i: nat)
    requires i + 1 < |p|
  {
    Edge(g, p[i], p[i + 1])
  }

  // A non-empty walk along edges.
  ghost predicate Path(g: Edges, p: seq<Id>) {
    |p| > 0 && forall i :: 0 <= i < |p| - 1 ==> Linked(g, p, i)
  }

  ghost predicate PathFromTo(g: Edges, p: seq<Id>, a: Id, b: Id) {
    Path(g, p) && p[0] == a && p[|p| - 1] == b
  }

  // b is a transitive dependency of a: one or more edges lead from a to b.
  ghost predicate Reaches(g: Edges, a: Id, b: Id) {
    exists p :: PathFromTo(g, p, a, b) && |p| >= 2
  }

  ghost predicate Acyclic(g: Edges) {
    forall a :: !Reaches(g, a, a)
  }

  // Every edge leads to a node of the graph.
  ghost predicate Closed(g: Edges) {
    forall a, b :: Edge(g, a, b) ==> b in g
  }

  // The distinct nodes of `order`, each after everything it depends on.
  ghost predicate Topological(g: Edges, order: seq<Id>) {
    && (forall i, j :: 0 <= i < j < |order| ==> order[i] != order[j])
    && (forall i, d :: 0 <= i < |order| && Edge(g, order[i], d) ==> d in order[..i])
  }

  lemma EdgeReaches(g: Edges, a: Id, b: Id)
    requires Edge(g, a, b)
    ensures Reaches(g, a, b)
  {
    assert PathFromTo(g, [a, b], a, b);
  }

  lemma ReachesTrans(g: Edges, a: Id, b: Id, c: Id)
    requires Reaches(g, a, b) && Reaches(g, b, c)
    ensures Reaches(g, a, c)
  {
    var p :| PathFromTo(g, p, a, b) && |p| >= 2;
    var q :| PathFromTo(g, q, b, c) && |q| >= 2;
    var r := p + q[1..];
    forall i | 0 <= i < |r| - 1
      ensures Linked(g, r, i)
    {
      if i < |p| - 1 {
        assert Linked(g, p, i);
      } else {
        assert r[i] == q[i - |p| + 1] && r[i + 1] == q[i - |p| + 2];
        assert Linked(g, q, i - |p| + 1);
      }
    }
    assert PathFromTo(g, r, a, c);
  }

  // The walk without its first node.
  lemma PathTail(g: Edges, p: seq<Id>)
    requires |p| >= 2 && Path(g, p)
    ensures Path(g, p[1..])
  {
    forall i | 0 <= i < |p[1..]| - 1
      ensures Linked(g, p[1..], i)
    {
      assert Linked(g, p, i + 1);
    }
  }

  // The walk with one more node at its end.
  lemma PathExtend(g: Edges, p: seq<Id>, id: Id)
    requires p != [] ==> Path(g, p) && Edge(g, p[|p| - 1], id)
    ensures Path(g, p + [id])
  {
    forall i | 0 <= i < |p|
      ensures Linked(g, p + [id], i)
    {
      if i < |p| - 1 {
        assert Linked(g, p, i);
      }
    }
  }

  // The walk from its k-th node on.
  lemma PathSuffix(g: Edges, p: seq<Id>, k: nat)
    requires k < |p| && Path(g, p)
    ensures Path(g, p[k..])
  {
    forall i | 0 <= i < |p[k..]| - 1
      ensures Linked(g, p[k..], i)
    {
      assert Linked(g, p, k + i);
    }
  }

  // Along a topological order every walk goes strictly backwards.
  lemma {:induction false} PathGoesBack(g: Edges, order: seq<Id>, p: seq<Id>, i: nat) returns (j: nat)
    requires Topological(g, order) && Path(g, p) && |p| >= 2
    requires i < |order| && order[i] == p[0]
    ensures j < i && order[j] == p[|p| - 1]
    decreases |p|
  {
    assert Linked(g, p, 0);
    assert p[1] in order[..i];
    var k :| 0 <= k < i && order[k] == p[1];
    if |p| == 2 {
      j := k;
    } else {
      var q := p[1..];
      PathTail(g, p);
      j := PathGoesBack(g, order, q, k);
    }
  }

  // A node all of whose dependencies are listed may be listed next.
  lemma TopologicalAppend(g: Edges, order: seq<Id>, id: Id)
    requires Topological(g, order) && id !in order
    requires forall d :: Edge(g, id, d) ==> d in order
    ensures Topological(g, order + [id])
  {
    var f := order + [id];
    forall i, d | 0 <= i < |f| && Edge(g, f[i], d)
      ensures d in f[..i]
    {
      if i < |order| {
        assert f[..i] == order[..i] && f[i] == order[i];
      } else {
        assert f[..i] == order;
      }
    }
  }

  // The walk without its last node.
  lemma PathFront(g: Edges, p: seq<Id>, id: Id)
    requires p != [] && Path(g, p + [id])
    ensures Path(g, p)
  {
    forall i | 0 <= i < |p| - 1
      ensures Linked(g, p, i)
    {
      assert Linked(g, p + [id], i);
    }
  }

  // A graph whose nodes can all be listed topologically has no cycle.
  lemma TopologicalIsAcyclic(g: Edges, order: seq<Id>)
    requires Topological(g, order)
    requires forall a :: a in g ==> a in order
    ensures Acyclic(g)
  {
    forall a
      ensures !Reaches(g, a, a)
    {
      if Reaches(g, a, a) {
        var p :| PathFromTo(g, p, a, a) && |p| >= 2;
        assert Linked(g, p, 0);
        var i :| 0 <= i < |order| && order[i] == a;
        var j := PathGoesBack(g, order, p, i);
        assert false;
      }
    }
  }
}
