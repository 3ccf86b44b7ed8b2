/** `shuffleArray` (script.js:243-250): Fisher-Yates on a copy of the input.
    `Math.random` is a nondeterministic choice of `j` in `[0, i]`; the choices
    made are returned as a ghost log so that the result can be tied to the
    specification function `FisherYates`. */
module Shuffling {

  /** The sequence with positions `i` and `j` exchanged
      (`[a[i], a[j]] = [a[j], a[i]]`). */
  function Swap<T>(s: seq<T>, i: nat, j: nat): (r: seq<T>)
    requires i < |s| && j < |s|
    ensures |r| == |s| && r[i] == s[j] && r[j] == s[i]
    ensures forall k :: 0 <= k < |s| && k != i && k != j ==> r[k] == s[k]
  {
    s[i := s[j]][j := s[i]]
  }

  lemma SwapPermutes<T>(s: seq<T>, i: nat, j: nat)
    requires i < |s| && j < |s|
    ensures multiset(Swap(s, i, j)) == multiset(s)
  {
  }

  /** The number of loop steps `shuffleArray` runs on `n` elements:
      `i` goes from `n - 1` down to 1. */
  function StepCount(n: nat): nat
  {
    if n == 0 then 0 else n - 1
  }

  /** `draws[k]` is the `j` drawn at the k-th step, where `i == n - 1 - k`;
      `Math.floor(Math.random() * (i + 1))` lies in `[0, i]`. */
  predicate DrawsFit(n: nat, draws: seq<nat>)
  {
    |draws| <= StepCount(n) && forall k :: 0 <= k < |draws| ==> draws[k] <= n - 1 - k
  }

  /** The array after the first `|draws|` steps of the loop. */
  function FisherYates<T>(s: seq<T>, draws: seq<nat>): (r: seq<T>)
    requires DrawsFit(|s|, draws)
    ensures |r| == |s|
    decreases |draws|
  {
    if draws == [] then s
    else
      var k := |draws| - 1;
      Swap(FisherYates(s, draws[..k]), |s| - 1 - k, draws[k])
  }

  /** Whatever the draws, the shuffled sequence holds exactly the elements of
      its input, each as often as before. */
  lemma {:induction false} FisherYatesPermutes<T>(s: seq<T>, draws: seq<nat>)
    requires DrawsFit(|s|, draws)
    ensures multiset(FisherYates(s, draws)) == multiset(s)
    decreases |draws|
  {
    if draws != [] {
      var k := |draws| - 1;
      FisherYatesPermutes(s, draws[..k]);
      SwapPermutes(FisherYates(s, draws[..k]), |s| - 1 - k, draws[k]);
    }
  }

  /** `shuffleArray(input)`: copies `input` and shuffles the copy in place.
      The input is not modified (there is no `modifies` clause). */
  method ShuffleArray<T>(input: array<T>) returns (shuffled: array<T>, ghost draws: seq<nat>)
    ensures fresh(shuffled)
    ensures |draws| == StepCount(input.Length) && DrawsFit(input.Length, draws)
    ensures shuffled[..] == FisherYates(input[..], draws)
    ensures multiset(shuffled[..]) == multiset(input[..])
  {
    var n := input.Length;
    shuffled := new T[n](k requires 0 <= k < n reads input => input[k]);
    draws := [];
    var i := n - 1;
    while i > 0
      invariant -1 <= i < n && (n > 0 ==> i >= 0)
      invariant |draws| == n - 1 - i && DrawsFit(n, draws)
      invariant shuffled[..] == FisherYates(input[..], draws)
    {
      var j :| 0 <= j <= i;
      ghost var before := draws;
      draws := draws + [j];
      assert draws[..|draws| - 1] == before;
      shuffled[i], shuffled[j] := shuffled[j], shuffled[i];
      i := i - 1;
    }
    FisherYatesPermutes(input[..], draws);
  }
}
