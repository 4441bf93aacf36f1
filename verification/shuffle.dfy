/** The two random helpers of index.js, `pickRandom` and the Fisher–Yates
    `shuffle`. `Math.random` is not modelled: each call to it becomes an
    index passed in by the caller, in the range the expression
    `Math.floor(Math.random() * n)` can produce. */
module Shuffling {
  import opened Wrappers

  /* ---------------- pickRandom (index.js:15) ---------------- */

  /** `arr[Math.floor(Math.random() * arr.length)]`, the random draw being
      the index `k`. On an empty array the expression is `undefined`. */
  function PickRandom<T>(arr: seq<T>, k: nat): (r: Option<T>)
    requires arr == [] || k < |arr|
    ensures r.None? <==> arr == []
    ensures r.Some? ==> r.value in arr
  {
    if arr == [] then None else Some(arr[k])
  }

  /** Every element of a non-empty array is a possible draw. */
  lemma PickRandomCovers<T>(arr: seq<T>, x: T)
    requires x in arr
    ensures exists k :: 0 <= k < |arr| && PickRandom(arr, k) == Some(x)
  {
    var k :| 0 <= k < |arr| && arr[k] == x;
    assert PickRandom(arr, k) == Some(x);
  }

  /* ---------------- shuffle (index.js:16) ---------------- */

  /** The random draws of one shuffle of an array of length `n`: the step at
      index `i` (from `n - 1` down to `1`) swaps with `js[i]`, which
      `Math.floor(Math.random() * (i + 1))` keeps within `0..i`. */
  predicate ValidSwaps(js: seq<nat>, n: nat) {
    n <= |js| && forall i :: 0 <= i < n ==> js[i] <= i
  }

  /** `[arr[i], arr[j]] = [arr[j], arr[i]]`. */
  function Swap<T>(s: seq<T>, i: nat, j: nat): (r: seq<T>)
    requires i < |s| && j < |s|
    ensures |r| == |s|
    ensures r[i] == s[j] && r[j] == s[i]
    ensures forall k :: 0 <= k < |s| && k != i && k != j ==> r[k] == s[k]
  {
    s[i := s[j]][j := s[i]]
  }

  /** A swap only reorders. */
  lemma SwapPermutes<T>(s: seq<T>, i: nat, j: nat)
    requires i < |s| && j < |s|
    ensures multiset(Swap(s, i, j)) == multiset(s)
  {
    var t := s[i := s[j]];
    assert multiset(t) == multiset(s) - multiset{s[i]} + multiset{s[j]};
  }

  /** The loop's steps at indices `i`, `i - 1`, ..., `1` applied to `s`. */
  function ShuffleSteps<T>(s: seq<T>, js: seq<nat>, i: nat): (r: seq<T>)
    requires i < |s| && ValidSwaps(js, i + 1)
    ensures |r| == |s|
    decreases i
  {
    if i == 0 then s else ShuffleSteps(Swap(s, i, js[i]), js, i - 1)
  }

  /** The steps never touch a position above `i`, and the first step
      settles position `i` for good: it ends up holding `s[js[i]]`. */
  lemma {:induction false} ShuffleStepsSettle<T>(s: seq<T>, js: seq<nat>, i: nat)
    requires i < |s| && ValidSwaps(js, i + 1)
    ensures forall t :: i < t < |s| ==> ShuffleSteps(s, js, i)[t] == s[t]
    ensures 0 < i ==> ShuffleSteps(s, js, i)[i] == s[js[i]]
    decreases i
  {
    if i > 0 {
      ShuffleStepsSettle(Swap(s, i, js[i]), js, i - 1);
    }
  }

  /** Each step only reorders, so the steps together only reorder. */
  lemma {:induction false} ShuffleStepsPermutes<T>(s: seq<T>, js: seq<nat>, i: nat)
    requires i < |s| && ValidSwaps(js, i + 1)
    ensures multiset(ShuffleSteps(s, js, i)) == multiset(s)
    decreases i
  {
    if i > 0 {
      SwapPermutes(s, i, js[i]);
      ShuffleStepsPermutes(Swap(s, i, js[i]), js, i - 1);
    }
  }

  /** The whole shuffle of `s`: the loop starts at the last index and does
      nothing on an array of length 0 or 1. */
  function ShuffleSeq<T>(s: seq<T>, js: seq<nat>): (r: seq<T>)
    requires ValidSwaps(js, |s|)
    ensures |r| == |s|
    ensures multiset(r) == multiset(s)
    ensures forall k :: 0 <= k < |r| ==> r[k] in s
    ensures forall k :: 0 <= k < |s| ==> s[k] in r
  {
    var r := if |s| == 0 then s
      else (ShuffleStepsPermutes(s, js, |s| - 1); ShuffleSteps(s, js, |s| - 1));
    assert forall k :: 0 <= k < |r| ==> r[k] in multiset(s);
    assert forall k :: 0 <= k < |s| ==> s[k] in multiset(r);
    r
  }

  /** `shuffle(arr)` in place. The array it returns is `arr` itself, so the
      method returns nothing; its final contents are `ShuffleSeq` of the
      original ones, a permutation of them. */
  method Shuffle<T>(a: array<T>, js: seq<nat>)
    requires ValidSwaps(js, a.Length)
    modifies a
    ensures a[..] == ShuffleSeq(old(a[..]), js)
    ensures multiset(a[..]) == multiset(old(a[..]))
  {
    if a.Length == 0 {
      return;
    }
    var i := a.Length - 1;
    while i > 0
      invariant 0 <= i < a.Length
      invariant ShuffleSteps(a[..], js, i) == ShuffleSeq(old(a[..]), js)
      decreases i
    {
      var j := js[i];
      ghost var before := a[..];
      var t := a[i];
      a[i] := a[j];
      a[j] := t;
      assert a[..] == before[i := before[j]][j := before[i]];
      i := i - 1;
    }
  }

  /** Draws that always pick the current index swap nothing: the shuffle
      leaves the array as it was. */
  lemma {:induction false} ShuffleStepsIdentity<T>(s: seq<T>, js: seq<nat>, i: nat)
    requires i < |s| && ValidSwaps(js, i + 1)
    requires forall t :: 0 <= t <= i ==> js[t] == t
    ensures ShuffleSteps(s, js, i) == s
    decreases i
  {
    if i > 0 {
      assert Swap(s, i, i) == s;
      ShuffleStepsIdentity(s, js, i - 1);
    }
  }

  /** The same for the whole shuffle. */
  lemma ShuffleIdentity<T>(s: seq<T>, js: seq<nat>)
    requires ValidSwaps(js, |s|)
    requires forall t :: 0 <= t < |s| ==> js[t] == t
    ensures ShuffleSeq(s, js) == s
  {
    if |s| > 0 {
      ShuffleStepsIdentity(s, js, |s| - 1);
    }
  }

  /** A value at two different positions occurs at least twice. */
  lemma TwoPositions<T>(s: seq<T>, i: nat, j: nat)
    requires i < j < |s| && s[i] == s[j]
    ensures multiset(s)[s[i]] >= 2
  {
    assert s == s[..j] + [s[j]] + s[j + 1..];
    assert s[..j][i] == s[i];
  }

  /** Shuffling keeps a value that occurs once at exactly one position. */
  lemma ShuffleKeepsSingle<T>(s: seq<T>, js: seq<nat>, x: T)
    requires ValidSwaps(js, |s|)
    requires multiset(s)[x] == 1
    ensures var r := ShuffleSeq(s, js);
      x in r && forall i, j :: 0 <= i < |r| && 0 <= j < |r| && r[i] == x && r[j] == x ==> i == j
  {
    var r := ShuffleSeq(s, js);
    forall i, j | 0 <= i < |r| && 0 <= j < |r| && r[i] == x && r[j] == x
      ensures i == j
    {
      if i < j {
        TwoPositions(r, i, j);
      } else if j < i {
        TwoPositions(r, j, i);
      }
    }
  }
}
