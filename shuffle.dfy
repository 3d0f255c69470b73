/** The shuffles of the three ports: Rust `SliceRandom::shuffle`, Kotlin
    `shuffled()` (which shuffles a copy with `Collections.shuffle`) and Go
    `rand.Shuffle` with a swapping callback. Each is a Fisher-Yates shuffle;
    the model uses its descending form, which walks the positions from the
    last down to 1 and swaps position i with a drawn j <= i. The random source
    is not modelled: the draws are a parameter, so every statement below holds
    for every possible sequence of draws, and no result depends on the
    direction a library walks in. */
module Shuffle {

  /** Draws a Fisher-Yates shuffle of n elements may make: one per position,
      each at most its position (position 0 draws 0 and is never used). */
  predicate ValidDraws(picks: seq<nat>, n: nat) {
    |picks| == n && forall i :: 0 <= i < n ==> picks[i] <= i
  }

  /** Exchange two positions. */
  function Swap<T>(s: seq<T>, i: nat, j: nat): (r: seq<T>)
    requires i < |s| && j < |s|
    ensures |r| == |s| && r[i] == s[j] && r[j] == s[i]
    ensures forall k :: 0 <= k < |s| && k != i && k != j ==> r[k] == s[k]
    ensures multiset(r) == multiset(s)
  {
    var r := s[i := s[j]][j := s[i]];
    assert multiset(s[i := s[j]]) == multiset(s) - multiset{s[i]} + multiset{s[j]};
    r
  }

  /** The shuffle after its steps for positions i-1 down to 1 have run. */
  function ShuffleDown<T>(s: seq<T>, i: nat, picks: seq<nat>): (r: seq<T>)
    requires i <= |s| && ValidDraws(picks, |s|)
    ensures |r| == |s| && multiset(r) == multiset(s)
    decreases i
  {
    if i <= 1 then s else ShuffleDown(Swap(s, i - 1, picks[i - 1]), i - 1, picks)
  }

  /** The full shuffle of `s` under the given draws. */
  function Shuffled<T>(s: seq<T>, picks: seq<nat>): seq<T>
    requires ValidDraws(picks, |s|)
  {
    ShuffleDown(s, |s|, picks)
  }

  /** A shuffle keeps the length and rearranges the elements: the output is a
      permutation of the input, whatever the draws. */
  lemma ShuffledIsPermutation<T>(s: seq<T>, picks: seq<nat>)
    requires ValidDraws(picks, |s|)
    ensures |Shuffled(s, picks)| == |s|
    ensures multiset(Shuffled(s, picks)) == multiset(s)
    ensures forall i :: 0 <= i < |s| ==> Shuffled(s, picks)[i] in s
  {
    var r := Shuffled(s, picks);
    forall i | 0 <= i < |s| ensures r[i] in s {
      assert r[i] in multiset(r);
    }
  }

  /** Apply f to every element. */
  function Map<T, U>(s: seq<T>, f: T -> U): (r: seq<U>)
    ensures |r| == |s| && forall k :: 0 <= k < |s| ==> r[k] == f(s[k])
  {
    seq(|s|, k requires 0 <= k < |s| => f(s[k]))
  }

  /** Shuffling commutes with any element-wise map: positions move the same
      way whatever the elements are. */
  lemma {:induction false} ShuffleDownMap<T, U>(s: seq<T>, f: T -> U, i: nat, picks: seq<nat>)
    requires i <= |s| && ValidDraws(picks, |s|)
    ensures ShuffleDown(Map(s, f), i, picks) == Map(ShuffleDown(s, i, picks), f)
    decreases i
  {
    if i > 1 {
      var s' := Swap(s, i - 1, picks[i - 1]);
      assert Swap(Map(s, f), i - 1, picks[i - 1]) == Map(s', f);
      ShuffleDownMap(s', f, i - 1, picks);
    } else {
      assert Map(s, f) == Map(ShuffleDown(s, i, picks), f);
    }
  }

  /** The in-place shuffle of all three ports: one swap per position, from the
      last down to 1. */
  method ShuffleInPlace<T>(a: array<T>, picks: seq<nat>)
    requires ValidDraws(picks, a.Length)
    modifies a
    ensures a[..] == Shuffled(old(a[..]), picks)
  {
    var i := a.Length;
    while i > 1
      invariant 0 <= i <= a.Length
      invariant ShuffleDown(a[..], i, picks) == Shuffled(old(a[..]), picks)
      decreases i
    {
      var j := picks[i - 1];
      assert a[..][i - 1 := a[j]][j := a[i - 1]] == Swap(a[..], i - 1, j);
      a[i - 1], a[j] := a[j], a[i - 1];
      i := i - 1;
    }
  }
}
