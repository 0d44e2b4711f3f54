// Two-pass selection under source quotas: internal/fusion/fusion.go:256-284.
module Quota {
  import opened Fusion

  // The candidates of one source, in order.
  function Of(s: string, items: seq<Candidate>): (r: seq<Candidate>)
    ensures |r| <= |items|
  {
    if items == [] then []
    else
      var front, last := Of(s, items[..|items| - 1]), items[|items| - 1];
      if last.source == s then front + [last] else front
  }

  lemma {:induction false} OfConcat(s: string, a: seq<Candidate>, b: seq<Candidate>)
    ensures Of(s, a + b) == Of(s, a) + Of(s, b)
  {
    if b == [] {
      assert a + b == a;
    } else {
      OfConcat(s, a, b[..|b| - 1]);
      assert (a + b)[..|a + b| - 1] == a + b[..|b| - 1];
    }
  }

  lemma OfNothing(s: string)
    ensures Of(s, []) == []
  {
  }

  lemma OfAppend(s: string, a: seq<Candidate>, c: Candidate)
    ensures Of(s, a + [c]) == if c.source == s then Of(s, a) + [c] else Of(s, a)
  {
    assert (a + [c])[..|a|] == a;
  }

  ghost predicate ByScore(items: seq<Candidate>) {
    forall i, j :: 0 <= i < j < |items| ==> items[i].score >= items[j].score
  }

  lemma {:induction false} OfByScore(s: string, items: seq<Candidate>)
    requires ByScore(items)
    ensures ByScore(Of(s, items)) && forall c :: c in Of(s, items) ==> c in items
  {
    if items != [] {
      var front, last := items[..|items| - 1], items[|items| - 1];
      OfByScore(s, front);
      assert items == front + [last];
      forall c | c in Of(s, front)
        ensures c.score >= last.score
      {
        var i :| 0 <= i < |front| && front[i] == c;
        assert items[i] == c;
      }
    }
  }

  // A source without a quota of its own may fill the whole result.
  function Cap(quotas: map<string, int>, limit: nat, s: string): nat {
    if s in quotas && quotas[s] > 0 then quotas[s] else limit
  }

  // ---- The first pass ----

  datatype Split = Split(selected: seq<Candidate>, deferred: seq<Candidate>)

  function FirstPass(items: seq<Candidate>, quotas: map<string, int>, limit: nat): Split {
    if items == [] then Split([], [])
    else
      var front, c := FirstPass(items[..|items| - 1], quotas, limit), items[|items| - 1];
      if |Of(c.source, front.selected)| < Cap(quotas, limit, c.source) && |front.selected| < limit
      then Split(front.selected + [c], front.deferred)
      else Split(front.selected, front.deferred + [c])
  }

  lemma {:induction false} FirstPassParts(items: seq<Candidate>, quotas: map<string, int>, limit: nat)
    ensures var r := FirstPass(items, quotas, limit);
            && |r.selected| <= limit && |r.selected| + |r.deferred| == |items|
            && multiset(r.selected) + multiset(r.deferred) == multiset(items)
  {
    hide Of, Cap;
    if items != [] {
      FirstPassParts(items[..|items| - 1], quotas, limit);
      assert items == items[..|items| - 1] + [items[|items| - 1]];
    }
  }

  // Of each source an initial run is selected; it ends at the quota or when the result is full.
  lemma {:induction false} FirstPassOfSource(items: seq<Candidate>, quotas: map<string, int>, limit: nat, s: string)
    ensures var r := FirstPass(items, quotas, limit);
            && Of(s, r.selected) + Of(s, r.deferred) == Of(s, items)
            && |Of(s, r.selected)| <= Cap(quotas, limit, s)
            && (Of(s, r.deferred) != [] ==> |Of(s, r.selected)| == Cap(quotas, limit, s) || |r.selected| >= limit)
  {
    hide Of, Cap;
    if items == [] {
      OfNothing(s);
    } else {
      var front, c := items[..|items| - 1], items[|items| - 1];
      assert items == front + [c];
      FirstPassOfSource(front, quotas, limit, s);
      var r := FirstPass(front, quotas, limit);
      OfAppend(s, r.selected, c);
      OfAppend(s, r.deferred, c);
      OfAppend(s, front, c);
    }
  }

  // ---- The second pass and the final order ----

  function Chosen(items: seq<Candidate>, quotas: map<string, int>, limit: nat): seq<Candidate> {
    FirstPassParts(items, quotas, limit);
    var r := FirstPass(items, quotas, limit);
    var room := limit - |r.selected|;
    r.selected + if room < |r.deferred| then r.deferred[..room] else r.deferred
  }

  // A stable sort by falling score: a candidate goes behind all that score at least as much.
  function Insert(sorted: seq<Candidate>, c: Candidate): seq<Candidate> {
    if sorted == [] || sorted[|sorted| - 1].score >= c.score then sorted + [c]
    else Insert(sorted[..|sorted| - 1], c) + [sorted[|sorted| - 1]]
  }

  function Sorted(items: seq<Candidate>): seq<Candidate> {
    if items == [] then [] else Insert(Sorted(items[..|items| - 1]), items[|items| - 1])
  }

  lemma {:induction false} InsertKeepsContents(sorted: seq<Candidate>, c: Candidate)
    ensures multiset(Insert(sorted, c)) == multiset(sorted) + multiset{c}
    ensures |Insert(sorted, c)| == |sorted| + 1
    ensures forall x :: x in Insert(sorted, c) ==> x == c || x in sorted
  {
    if sorted != [] && sorted[|sorted| - 1].score < c.score {
      assert sorted == sorted[..|sorted| - 1] + [sorted[|sorted| - 1]];
      InsertKeepsContents(sorted[..|sorted| - 1], c);
    }
  }

  lemma {:induction false} InsertSorts(sorted: seq<Candidate>, c: Candidate)
    requires ByScore(sorted)
    ensures ByScore(Insert(sorted, c))
  {
    if sorted != [] && sorted[|sorted| - 1].score < c.score {
      var front, last := sorted[..|sorted| - 1], sorted[|sorted| - 1];
      assert sorted == front + [last];
      InsertSorts(front, c);
      InsertKeepsContents(front, c);
      var r := Insert(front, c);
      forall i | 0 <= i < |r|
        ensures r[i].score >= last.score
      {
        assert r[i] in r;
      }
    }
  }

  lemma {:induction false} InsertKeepsSource(sorted: seq<Candidate>, c: Candidate, s: string)
    requires c.source == s ==> forall x :: x in Of(s, sorted) ==> x.score >= c.score
    ensures Of(s, Insert(sorted, c)) == Of(s, sorted + [c])
  {
    OfAppend(s, sorted, c);
    if sorted != [] && sorted[|sorted| - 1].score < c.score {
      var front, last := sorted[..|sorted| - 1], sorted[|sorted| - 1];
      assert sorted == front + [last];
      OfAppend(s, front, last);
      OfAppend(s, front, c);
      InsertKeepsSource(front, c, s);
      OfAppend(s, Insert(front, c), last);
      assert last.source == s ==> Of(s, sorted)[|Of(s, sorted)| - 1] == last;
    }
  }

  lemma {:induction false} SortedSorts(items: seq<Candidate>)
    ensures ByScore(Sorted(items)) && multiset(Sorted(items)) == multiset(items) && |Sorted(items)| == |items|
  {
    if items != [] {
      SortedSorts(items[..|items| - 1]);
      InsertSorts(Sorted(items[..|items| - 1]), items[|items| - 1]);
      InsertKeepsContents(Sorted(items[..|items| - 1]), items[|items| - 1]);
      assert items == items[..|items| - 1] + [items[|items| - 1]];
    }
  }

  // Sorting does not reorder the candidates of a source that are already in order.
  lemma {:induction false} SortedKeepsSource(items: seq<Candidate>, s: string)
    requires ByScore(Of(s, items))
    ensures Of(s, Sorted(items)) == Of(s, items)
  {
    hide Of, Insert;
    if items == [] {
      OfNothing(s);
    } else {
      var front, c := items[..|items| - 1], items[|items| - 1];
      assert items == front + [c];
      OfAppend(s, front, c);
      var mine := Of(s, front);
      assert forall i :: 0 <= i < |mine| ==> mine[i] == Of(s, items)[i];
      SortedKeepsSource(front, s);
      assert c.source == s ==> Of(s, items)[|mine|] == c;
      InsertKeepsSource(Sorted(front), c, s);
      OfAppend(s, Sorted(front), c);
    }
  }

  function Select(items: seq<Candidate>, quotas: map<string, int>, limit: nat): seq<Candidate> {
    Sorted(Chosen(items, quotas, limit))
  }

  // ---- What the selection promises ----

  lemma ChosenOfSource(items: seq<Candidate>, quotas: map<string, int>, limit: nat, s: string)
    ensures Of(s, Chosen(items, quotas, limit)) <= Of(s, items)
    ensures |Of(s, Chosen(items, quotas, limit))| >= |Of(s, FirstPass(items, quotas, limit).selected)|
    ensures |FirstPass(items, quotas, limit).selected| >= limit ==>
              Chosen(items, quotas, limit) == FirstPass(items, quotas, limit).selected
  {
    hide Of, FirstPass, Cap;
    FirstPassParts(items, quotas, limit);
    FirstPassOfSource(items, quotas, limit, s);
    var r := FirstPass(items, quotas, limit);
    var room := limit - |r.selected|;
    var taken := if room < |r.deferred| then r.deferred[..room] else r.deferred;
    OfConcat(s, r.selected, taken);
    assert r.deferred == taken + r.deferred[|taken|..];
    OfConcat(s, taken, r.deferred[|taken|..]);
  }

  // The result is as long as the limit and the input allow, holds each candidate at most as often
  // as the input, and falls in score; from every source the best candidates are taken.
  lemma SelectionIsRanked(items: seq<Candidate>, quotas: map<string, int>, limit: nat)
    requires ByScore(items)
    ensures var r := Select(items, quotas, limit);
            && |r| == (if limit < |items| then limit else |items|) && multiset(r) <= multiset(items) && ByScore(r)
            && forall s :: Of(s, r) <= Of(s, items)
  {
    hide Of, FirstPass, Sorted;
    FirstPassParts(items, quotas, limit);
    SortedSorts(Chosen(items, quotas, limit));
    var r := FirstPass(items, quotas, limit);
    var room := limit - |r.selected|;
    if room < |r.deferred| {
      assert r.deferred == r.deferred[..room] + r.deferred[room..];
    }
    forall s
      ensures Of(s, Select(items, quotas, limit)) <= Of(s, items)
    {
      ChosenOfSource(items, quotas, limit, s);
      OfByScore(s, items);
      SortedKeepsSource(Chosen(items, quotas, limit), s);
    }
  }

  // Quotas are fair: a source gets more than its quota only after every source has got all that
  // its own quota allows.
  lemma QuotasAreFair(items: seq<Candidate>, quotas: map<string, int>, limit: nat, s: string, t: string)
    requires ByScore(items) && |Of(s, Select(items, quotas, limit))| > Cap(quotas, limit, s)
    ensures var quota, there := Cap(quotas, limit, t), |Of(t, items)|;
            |Of(t, Select(items, quotas, limit))| >= if quota < there then quota else there
  {
    hide Of, FirstPass, Sorted, Cap;
    FirstPassParts(items, quotas, limit);
    forall x | x == s || x == t
      ensures Of(x, Select(items, quotas, limit)) == Of(x, Chosen(items, quotas, limit))
    {
      ChosenOfSource(items, quotas, limit, x);
      OfByScore(x, items);
      SortedKeepsSource(Chosen(items, quotas, limit), x);
    }
    FirstPassOfSource(items, quotas, limit, s);
    FirstPassOfSource(items, quotas, limit, t);
    ChosenOfSource(items, quotas, limit, t);
  }

  // ---- The loops ----

  method FirstLoop(items: seq<Candidate>, quotas: map<string, int>, limit: nat)
    returns (selected: seq<Candidate>, deferred: seq<Candidate>)
    ensures Split(selected, deferred) == FirstPass(items, quotas, limit)
  {
    hide Of;
    selected, deferred := [], [];
    var counts: map<string, nat> := map[];
    CountsOfNothing();
    for i := 0 to |items|
      invariant Split(selected, deferred) == FirstPass(items[..i], quotas, limit)
      invariant forall s :: Count(counts, s) == |Of(s, selected)|
    {
      var c := items[i];
      assert items[..i + 1][..i] == items[..i];
      var quota := if c.source in quotas then quotas[c.source] else 0;
      if quota <= 0 {
        quota := limit;
      }
      if Count(counts, c.source) < quota && |selected| < limit {
        AppendCounts(selected, c);
        selected := selected + [c];
        counts := counts[c.source := Count(counts, c.source) + 1];
      } else {
        deferred := deferred + [c];
      }
    }
    assert items[..|items|] == items;
  }

  function Count(counts: map<string, nat>, s: string): nat {
    if s in counts then counts[s] else 0
  }

  lemma CountsOfNothing()
    ensures forall s :: |Of(s, [])| == 0
  {
  }

  lemma AppendCounts(a: seq<Candidate>, c: Candidate)
    ensures forall s :: |Of(s, a + [c])| == |Of(s, a)| + if c.source == s then 1 else 0
  {
    forall s
      ensures |Of(s, a + [c])| == |Of(s, a)| + if c.source == s then 1 else 0
    {
      OfAppend(s, a, c);
    }
  }

  // fusion.go:262-284
  method SelectLoop(items: seq<Candidate>, quotas: map<string, int>, limit: nat) returns (out: seq<Candidate>)
    ensures out == Select(items, quotas, limit)
  {
    hide Of, FirstPass;
    var selected, deferred := FirstLoop(items, quotas, limit);
    FirstPassParts(items, quotas, limit);
    ghost var first := selected;
    var i := 0;
    while i < |deferred|
      invariant i <= |deferred| && selected == first + deferred[..i] && |selected| <= limit
    {
      if |selected| >= limit {
        break;
      }
      selected := selected + [deferred[i]];
      i := i + 1;
    }
    assert selected == Chosen(items, quotas, limit);
    out := SortLoop(selected);
  }

  method SortLoop(items: seq<Candidate>) returns (out: seq<Candidate>)
    ensures out == Sorted(items)
  {
    out := [];
    for j := 0 to |items|
      invariant out == Sorted(items[..j])
    {
      assert items[..j + 1][..j] == items[..j];
      out := Insert(out, items[j]);
    }
    assert items[..|items|] == items;
  }
}
