/** `Array.prototype.shuffle`, which lib/actions/musicSearch.js and
    lib/music_services/libraryDef.js each install: walking `len` down from
    the array's length, it swaps the element at `len - 1` with one at an
    index `Math.random()` picks below `len`.

    The random draws are an input: `pick(n)` is the index drawn while `n`
    elements remain unshuffled. */
module Shuffle {

  /** What `Math.random() * n >>> 0` can yield for every `n`: an index below it. */
  ghost predicate IsPicker(pick: nat -> nat) {
    forall n: nat :: 0 < n ==> pick(n) < n
  }

  /** `s` with the elements at `i` and `j` exchanged. */
  function Swap<T>(s: seq<T>, i: nat, j: nat): (r: seq<T>)
    requires i < |s| && j < |s|
    ensures |r| == |s| && r[i] == s[j] && r[j] == s[i]
    ensures forall k :: 0 <= k < |s| && k != i && k != j ==> r[k] == s[k]
  {
    s[i := s[j]][j := s[i]]
  }

  lemma SwapPermutes<T>(s: seq<T>, i: nat, j: nat)
    requires i < |s| && j < |s|
    ensures multiset(Swap(s, i, j)) == multiset(s)
  {
  }

  /** The order the shuffle leaves once `len` elements remain to be placed. */
  function Shuffled<T>(s: seq<T>, len: nat, pick: nat -> nat): (r: seq<T>)
    requires len <= |s| && IsPicker(pick)
    ensures |r| == |s|
    decreases len
  {
    if len == 0 then s
    else Shuffled(Swap(s, len - 1, pick(len)), len - 1, pick)
  }

  /** The shuffle only reorders: the result is a permutation of its input. */
  lemma {:induction false} ShuffledPermutes<T>(s: seq<T>, len: nat, pick: nat -> nat)
    requires len <= |s| && IsPicker(pick)
    ensures multiset(Shuffled(s, len, pick)) == multiset(s)
    decreases len
  {
    if len > 0 {
      var swapped := Swap(s, len - 1, pick(len));
      SwapPermutes(s, len - 1, pick(len));
      ShuffledPermutes(swapped, len - 1, pick);
      assert Shuffled(s, len, pick) == Shuffled(swapped, len - 1, pick);
    }
  }

  /** The shuffle, in place. */
  method ShuffleInPlace<T>(a: array<T>, pick: nat -> nat)
    requires IsPicker(pick)
    modifies a
    ensures a[..] == Shuffled(old(a[..]), a.Length, pick)
  {
    var len := a.Length;
    while len > 0
      invariant 0 <= len <= a.Length
      invariant Shuffled(a[..], len, pick) == Shuffled(old(a[..]), a.Length, pick)
    {
      ghost var before := a[..];
      var i := pick(len);
      assert Shuffled(before, len, pick) == Shuffled(Swap(before, len - 1, i), len - 1, pick);
      len := len - 1;
      var temp := a[len];
      a[len] := a[i];
      a[i] := temp;
      assert a[..] == Swap(before, len, i);
    }
  }

  /** The shuffle of a sequence: copied into an array, shuffled, copied back. */
  method ShuffleSeq<T>(s: seq<T>, pick: nat -> nat) returns (r: seq<T>)
    requires IsPicker(pick)
    ensures r == Shuffled(s, |s|, pick)
  {
    if |s| == 0 {
      return s;
    }
    var a := new T[|s|](i requires 0 <= i < |s| => s[i]);
    assert a[..] == s;
    ShuffleInPlace(a, pick);
    r := a[..];
  }
}
