/** Sequence helpers shared by the group-by reductions: `[...new Set(xs)]`
    (first-occurrence de-duplication, the order of `Object.keys` for keys
    inserted in that order) and occurrence counts. */
module Seqs {

  predicate NoDuplicates(xs: seq<string>) {
    forall i, j :: 0 <= i < j < |xs| ==> xs[i] != xs[j]
  }

  /** Number of positions of `xs` that hold `x`. */
  function Occurrences(xs: seq<string>, x: string): (n: nat)
    ensures n <= |xs|
    ensures n == 0 <==> x !in xs
  {
    if |xs| == 0 then 0
    else Occurrences(xs[..|xs| - 1], x) + (if xs[|xs| - 1] == x then 1 else 0)
  }

  /** `[...new Set(xs)]`: each distinct element once, at the place of its first
      occurrence. */
  function Dedup(xs: seq<string>): (r: seq<string>)
    ensures NoDuplicates(r)
    ensures forall x :: x in r <==> x in xs
    ensures |r| <= |xs|
  {
    if |xs| == 0 then []
    else
      var d := Dedup(xs[..|xs| - 1]);
      var x := xs[|xs| - 1];
      assert forall y :: y in xs <==> y in xs[..|xs| - 1] || y == x by {
        assert xs == xs[..|xs| - 1] + [x];
      }
      if x in d then d else d + [x]
  }

  /** Index of the first occurrence of `x` in `xs`. */
  function FirstIndex(xs: seq<string>, x: string): (i: nat)
    requires x in xs
    ensures i < |xs| && xs[i] == x && x !in xs[..i]
  {
    if xs[0] == x then 0 else FirstIndex(xs[1..], x) + 1
  }

  /** `Dedup` keeps elements in the order of their first occurrence. */
  lemma {:induction false} DedupKeepsFirstOccurrenceOrder(xs: seq<string>, i: nat, j: nat)
    requires i < j < |Dedup(xs)|
    ensures FirstIndex(xs, Dedup(xs)[i]) < FirstIndex(xs, Dedup(xs)[j])
  {
    var init := xs[..|xs| - 1];
    var x := xs[|xs| - 1];
    var d := Dedup(init);
    var a, b := Dedup(xs)[i], Dedup(xs)[j];
    FirstIndexOfPrefix(init, xs, a);
    if j < |d| {
      DedupKeepsFirstOccurrenceOrder(init, i, j);
      FirstIndexOfPrefix(init, xs, b);
    } else {
      // b is the last element x, seen for the first time at the end
      assert b == x && x !in d;
      assert x !in init;
      assert FirstIndex(xs, b) == |xs| - 1;
    }
  }

  lemma {:induction false} FirstIndexOfPrefix(init: seq<string>, xs: seq<string>, x: string)
    requires init <= xs && x in init
    ensures FirstIndex(xs, x) == FirstIndex(init, x)
  {
    if init[0] != x {
      assert init[1..] <= xs[1..];
      FirstIndexOfPrefix(init[1..], xs[1..], x);
    }
  }

  /** Sum over `keys` of the occurrence counts of each key in `xs`. */
  function SumOccurrences(keys: seq<string>, xs: seq<string>): nat {
    if |keys| == 0 then 0
    else SumOccurrences(keys[..|keys| - 1], xs) + Occurrences(xs, keys[|keys| - 1])
  }

  /** Appending one value to `xs` adds one to the sum when it is among the
      (distinct) keys, and nothing otherwise. */
  lemma {:induction false} SumOccurrencesSnoc(keys: seq<string>, xs: seq<string>, v: string)
    requires NoDuplicates(keys)
    ensures SumOccurrences(keys, xs + [v]) == SumOccurrences(keys, xs) + (if v in keys then 1 else 0)
  {
    if |keys| > 0 {
      var init := keys[..|keys| - 1];
      assert (xs + [v])[..|xs + [v]| - 1] == xs;
      SumOccurrencesSnoc(init, xs, v);
      assert v in keys <==> v in init || v == keys[|keys| - 1] by {
        assert keys == init + [keys[|keys| - 1]];
      }
      assert keys[|keys| - 1] !in init;
    }
  }

  /** Counting every distinct value once and adding up the counts accounts for
      every element: the group sizes of a group-by add up to the input length. */
  lemma {:induction false} GroupSizesSum(xs: seq<string>)
    ensures SumOccurrences(Dedup(xs), xs) == |xs|
  {
    if |xs| > 0 {
      var init := xs[..|xs| - 1];
      var x := xs[|xs| - 1];
      var d := Dedup(init);
      assert xs == init + [x];
      GroupSizesSum(init);
      SumOccurrencesSnoc(d, init, x);
      if x !in d {
        assert x !in init;
        assert Occurrences(xs, x) == 1;
      }
    }
  }

  /** One more value: the de-duplicated list grows by it exactly when it is
      new, and only its own count goes up. */
  lemma SnocFacts(xs: seq<string>, v: string)
    ensures Dedup(xs + [v]) == if v in xs then Dedup(xs) else Dedup(xs) + [v]
    ensures forall k :: k in xs + [v] <==> k in xs || k == v
    ensures forall k :: Occurrences(xs + [v], k) == Occurrences(xs, k) + (if k == v then 1 else 0)
  {
    assert (xs + [v])[..|xs + [v]| - 1] == xs;
  }

  /** Extending a prefix by one element. */
  lemma TakeSnoc<T>(xs: seq<T>, i: nat)
    requires i < |xs|
    ensures xs[..i + 1] == xs[..i] + [xs[i]]
  {
  }
}
