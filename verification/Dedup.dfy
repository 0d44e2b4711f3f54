// Keeping the first element for every key, as the merge helpers of internal/engine/fetch.go do
// with a `seen` map.
module Dedup {

  function FirstByKey<T>(xs: seq<T>, key: T -> string): (r: seq<T>)
    ensures |r| <= |xs|
  {
    if xs == [] then []
    else
      var front := FirstByKey(xs[..|xs| - 1], key);
      var last := xs[|xs| - 1];
      if HasKey(front, key, key(last)) then front else front + [last]
  }

  predicate HasKey<T>(xs: seq<T>, key: T -> string, k: string) {
    exists i :: 0 <= i < |xs| && key(xs[i]) == k
  }

  ghost predicate DistinctKeys<T>(xs: seq<T>, key: T -> string) {
    forall i, j :: 0 <= i < j < |xs| ==> key(xs[i]) != key(xs[j])
  }

  // The result has the keys of the input, each once, and only elements of the input.
  lemma {:induction false} FirstByKeyIsDedup<T>(xs: seq<T>, key: T -> string)
    ensures DistinctKeys(FirstByKey(xs, key), key)
    ensures forall x :: x in FirstByKey(xs, key) ==> x in xs
    ensures forall k :: HasKey(FirstByKey(xs, key), key, k) <==> HasKey(xs, key, k)
  {
    if xs != [] {
      var front, last := xs[..|xs| - 1], xs[|xs| - 1];
      var r := FirstByKey(front, key);
      FirstByKeyIsDedup(front, key);
      assert xs == front + [last];
      KeysAppend(front, key, last);
      KeysAppend(r, key, last);
    }
  }

  // Elements with distinct keys are all kept.
  lemma {:induction false} DistinctIsKept<T>(xs: seq<T>, key: T -> string)
    requires DistinctKeys(xs, key)
    ensures FirstByKey(xs, key) == xs
  {
    if xs != [] {
      var front, last := xs[..|xs| - 1], xs[|xs| - 1];
      DistinctIsKept(front, key);
      assert xs == front + [last];
      assert !HasKey(front, key, key(last)) by {
        forall i | 0 <= i < |front|
          ensures key(front[i]) != key(last)
        {
          assert front[i] == xs[i];
        }
      }
    }
  }

  // Deduplicating in two goes is deduplicating at once.
  lemma {:induction false} FirstByKeyTwice<T>(xs: seq<T>, ys: seq<T>, key: T -> string)
    ensures FirstByKey(FirstByKey(xs, key) + ys, key) == FirstByKey(xs + ys, key)
  {
    if ys == [] {
      assert xs + ys == xs && FirstByKey(xs, key) + ys == FirstByKey(xs, key);
      FirstByKeyIsDedup(xs, key);
      DistinctIsKept(FirstByKey(xs, key), key);
    } else {
      var front, last := ys[..|ys| - 1], ys[|ys| - 1];
      FirstByKeyTwice(xs, front, key);
      assert (xs + ys)[..|xs + ys| - 1] == xs + front;
      var d := FirstByKey(xs, key);
      assert (d + ys)[..|d + ys| - 1] == d + front;
    }
  }

  method KeepFirst<T>(xs: seq<T>, key: T -> string) returns (out: seq<T>)
    ensures out == FirstByKey(xs, key)
  {
    var seen: set<string> := {};
    out := [];
    for i := 0 to |xs|
      invariant out == FirstByKey(xs[..i], key)
      invariant forall k :: k in seen <==> HasKey(out, key, k)
    {
      var k := key(xs[i]);
      assert xs[..i + 1][..i] == xs[..i];
      if k !in seen {
        seen := seen + {k};
        KeysAppend(out, key, xs[i]);
        out := out + [xs[i]];
      }
    }
    assert xs[..|xs|] == xs;
  }

  lemma KeysAppend<T>(xs: seq<T>, key: T -> string, x: T)
    ensures forall k :: HasKey(xs + [x], key, k) <==> HasKey(xs, key, k) || key(x) == k
  {
    forall k
      ensures HasKey(xs + [x], key, k) <==> HasKey(xs, key, k) || key(x) == k
    {
      if HasKey(xs, key, k) {
        var i :| 0 <= i < |xs| && key(xs[i]) == k;
        assert key((xs + [x])[i]) == k;
      }
      if key(x) == k {
        assert key((xs + [x])[|xs|]) == k;
      }
    }
  }

  // ---- Distinct keys in rearranged sequences ----

  lemma DistinctAppend<T>(xs: seq<T>, key: T -> string, x: T)
    requires DistinctKeys(xs, key) && forall y :: y in xs ==> key(y) != key(x)
    ensures DistinctKeys(xs + [x], key)
  {
  }

  lemma TwiceIn<T>(xs: seq<T>, i: nat, j: nat)
    requires i < j < |xs| && xs[i] == xs[j]
    ensures multiset(xs)[xs[i]] >= 2
  {
    assert xs == xs[..i] + [xs[i]] + xs[i + 1..j] + [xs[j]] + xs[j + 1..];
  }

  lemma OnceIn<T>(xs: seq<T>, key: T -> string, x: T)
    requires DistinctKeys(xs, key) && x in xs
    ensures multiset(xs)[x] == 1
  {
    var i :| 0 <= i < |xs| && xs[i] == x;
    assert xs == xs[..i] + [x] + xs[i + 1..];
    assert x !in xs[..i] && x !in xs[i + 1..];
  }

  lemma SameKeyOnce<T>(xs: seq<T>, key: T -> string, x: T, y: T)
    requires DistinctKeys(xs, key) && x in xs && y in xs && key(x) == key(y)
    ensures x == y
  {
  }

  // What is taken from elements with distinct keys, in whatever order, has distinct keys.
  lemma DistinctPart<T>(part: seq<T>, whole: seq<T>, key: T -> string)
    requires multiset(part) <= multiset(whole) && DistinctKeys(whole, key)
    ensures DistinctKeys(part, key) && forall x :: x in part ==> x in whole
  {
    forall x | x in part
      ensures x in whole
    {
      assert x in multiset(part);
    }
    forall i, j | 0 <= i < j < |part|
      ensures key(part[i]) != key(part[j])
    {
      if key(part[i]) == key(part[j]) {
        SameKeyOnce(whole, key, part[i], part[j]);
        TwiceIn(part, i, j);
        OnceIn(whole, key, part[i]);
        assert false;
      }
    }
  }
}
