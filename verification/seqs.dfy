/** Array primitives the views are built from: `Array.find` by key (first
    match in sequence order), `Array.slice` with its clamping of indices,
    the subsequence relation every `filter` result stands in, and the
    code-to-record lookup map that a linear `find` is equivalent to.
 */
module Seqs {
  import opened Wrappers

  /** `xs` is obtained from `ys` by deleting elements. */
  predicate IsSubsequence<T(==)>(xs: seq<T>, ys: seq<T>)
    decreases |ys|
  {
    |xs| == 0 || (|ys| > 0 && ((xs[0] == ys[0] && IsSubsequence(xs[1..], ys[1..])) || IsSubsequence(xs, ys[1..])))
  }

  /** Every sequence is a subsequence of itself. */
  lemma {:induction false} SubsequenceReflexive<T>(xs: seq<T>)
    ensures IsSubsequence(xs, xs)
  {
    if |xs| > 0 {
      SubsequenceReflexive(xs[1..]);
    }
  }

  /** Deleting elements never lengthens a sequence. */
  lemma {:induction false} SubsequenceNoLonger<T>(xs: seq<T>, ys: seq<T>)
    requires IsSubsequence(xs, ys)
    ensures |xs| <= |ys|
    decreases |ys|
  {
    if |xs| > 0 {
      if xs[0] == ys[0] && IsSubsequence(xs[1..], ys[1..]) {
        SubsequenceNoLonger(xs[1..], ys[1..]);
      } else {
        SubsequenceNoLonger(xs, ys[1..]);
      }
    }
  }

  /** Clamping of one `slice` index, negative values counting from the end. */
  function ClampIndex(i: int, n: nat): (r: nat)
    ensures r <= n
    ensures 0 <= i <= n ==> r == i
    ensures i > n ==> r == n
  {
    if i < 0 then (if n + i < 0 then 0 else n + i) else if i > n then n else i
  }

  /** `xs.slice(start, end)`. */
  function Slice<T>(xs: seq<T>, start: int, end: int): (r: seq<T>)
    ensures |r| <= |xs|
    ensures ClampIndex(start, |xs|) <= ClampIndex(end, |xs|) ==>
              r == xs[ClampIndex(start, |xs|)..ClampIndex(end, |xs|)]
    ensures ClampIndex(start, |xs|) > ClampIndex(end, |xs|) ==> r == []
  {
    var s := ClampIndex(start, |xs|);
    var e := ClampIndex(end, |xs|);
    if s < e then xs[s..e] else []
  }

  /** A lookup map from business code to record in which the FIRST record
      carrying a code wins, as a linear `find` from the front would. */
  function IndexBy<T, K>(xs: seq<T>, key: T -> K): (m: map<K, T>)
    ensures m.Keys == set i | 0 <= i < |xs| :: key(xs[i])
  {
    if |xs| == 0 then map[]
    else
      var rest := IndexBy(xs[1..], key);
      assert forall i :: 1 <= i < |xs| ==> xs[1..][i - 1] == xs[i];
      rest[key(xs[0]) := xs[0]]
  }

  /** `xs.find(x => key(x) === k)`: the first element whose key is `k`. */
  function FindBy<T, K(==)>(xs: seq<T>, key: T -> K, k: K): (r: Option<T>)
    ensures r.None? <==> forall i :: 0 <= i < |xs| ==> key(xs[i]) != k
    ensures r.Some? ==> key(r.value) == k && r.value in xs
    ensures forall i :: 0 <= i < |xs| && key(xs[i]) == k && (forall j :: 0 <= j < i ==> key(xs[j]) != k) ==> r == Some(xs[i])
  {
    if |xs| == 0 then None
    else if key(xs[0]) == k then Some(xs[0])
    else FindBy(xs[1..], key, k)
  }

  /** Looking a code up in the index agrees with scanning the collection
      with `find`: same hit, same miss. */
  lemma {:induction false} IndexByAgreesWithFindBy<T, K>(xs: seq<T>, key: T -> K, k: K)
    ensures k in IndexBy(xs, key) <==> FindBy(xs, key, k).Some?
    ensures k in IndexBy(xs, key) ==> IndexBy(xs, key)[k] == FindBy(xs, key, k).value
  {
    if |xs| > 0 && key(xs[0]) != k {
      IndexByAgreesWithFindBy(xs[1..], key, k);
    }
  }
}
