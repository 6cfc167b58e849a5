/** `Array.prototype.sort()` on strings, as `loadTracks` in
    lib/actions/musicSearch.js uses it before counting distinct names: the
    default order compares strings character by character. */
module Sorting {
  import opened Text

  /** Non-decreasing, between every pair of positions. */
  predicate Sorted(s: seq<string>) {
    forall i, j :: 0 <= i < j < |s| ==> StrLessEq(s[i], s[j])
  }

  /** `x` placed before the first element it does not follow. */
  function InsertSorted(x: string, s: seq<string>): (r: seq<string>)
    requires Sorted(s)
    ensures |r| == |s| + 1
    ensures multiset(r) == multiset(s) + multiset{x}
    ensures Sorted(r)
  {
    if s == [] then [x]
    else if StrLessEq(x, s[0]) then
      assert forall j :: 0 <= j < |s| ==> StrLessEq(x, s[j]) by {
        forall j | 0 <= j < |s| ensures StrLessEq(x, s[j]) {
          StrLessEqTransitive(x, s[0], s[j]);
        }
      }
      [x] + s
    else
      var rest := InsertSorted(x, s[1..]);
      assert s == [s[0]] + s[1..];
      StrLessTotal(x, s[0]);
      HeadBeforeAll(s[0], s[1..], x, rest);
      SortedCons(s[0], rest);
      [s[0]] + rest
  }

  /** The head of a sorted sequence comes before every element of the
      rest with one more element not before it. */
  lemma HeadBeforeAll(h: string, t: seq<string>, x: string, rest: seq<string>)
    requires Sorted([h] + t) && StrLessEq(h, x)
    requires multiset(rest) == multiset(t) + multiset{x}
    ensures forall j :: 0 <= j < |rest| ==> StrLessEq(h, rest[j])
  {
    forall j | 0 <= j < |rest| ensures StrLessEq(h, rest[j]) {
      assert rest[j] in multiset(rest);
      if rest[j] != x {
        assert rest[j] in multiset(t);
        var k :| 0 <= k < |t| && t[k] == rest[j];
        assert ([h] + t)[0] == h && ([h] + t)[k + 1] == rest[j];
      }
    }
  }

  lemma SortedCons(h: string, r: seq<string>)
    requires Sorted(r) && forall j :: 0 <= j < |r| ==> StrLessEq(h, r[j])
    ensures Sorted([h] + r)
  {
    forall i, j | 0 <= i < j < |[h] + r| ensures StrLessEq(([h] + r)[i], ([h] + r)[j]) {
      assert ([h] + r)[j] == r[j - 1];
      if i > 0 {
        assert ([h] + r)[i] == r[i - 1];
      }
    }
  }

  /** The sorted permutation of `s`. */
  function SortStrings(s: seq<string>): (r: seq<string>)
    ensures multiset(r) == multiset(s)
    ensures Sorted(r)
    ensures |r| == |s|
  {
    if s == [] then []
    else
      assert s == s[..|s| - 1] + [s[|s| - 1]];
      InsertSorted(s[|s| - 1], SortStrings(s[..|s| - 1]))
  }

  /** The different strings of `s`. */
  function Elements(s: seq<string>): set<string> {
    set x | x in s
  }

  /** The number of different strings in `s`. */
  function Distinct(s: seq<string>): nat {
    |Elements(s)|
  }

  /** In a sorted sequence, an element differing from its predecessor has
      not been seen before. */
  lemma FreshAfterChange(s: seq<string>, i: nat)
    requires Sorted(s) && 0 < i < |s| && s[i] != s[i - 1]
    ensures forall k :: 0 <= k < i ==> s[k] != s[i]
  {
    assert StrLess(s[i - 1], s[i]);
    forall k | 0 <= k < i
      ensures s[k] != s[i]
    {
      if s[k] == s[i] {
        assert StrLessEq(s[k], s[i - 1]);
        StrLessAsymmetric(s[i - 1], s[i]);
      }
    }
  }

  /** One more element: the count grows exactly when it is new. */
  lemma DistinctStep(s: seq<string>, i: nat)
    requires 0 <= i < |s|
    ensures Distinct(s[..i + 1]) == if (forall k :: 0 <= k < i ==> s[k] != s[i]) then Distinct(s[..i]) + 1 else Distinct(s[..i])
  {
    assert s[..i + 1] == s[..i] + [s[i]];
    assert Elements(s[..i + 1]) == Elements(s[..i]) + {s[i]};
    if forall k :: 0 <= k < i ==> s[k] != s[i] {
      assert s[i] !in s[..i];
    } else {
      var k :| 0 <= k < i && s[k] == s[i];
      assert s[..i][k] == s[i];
      assert Elements(s[..i + 1]) == Elements(s[..i]);
    }
  }

  /** Permutations have the same number of different elements. */
  lemma DistinctPermutation(a: seq<string>, b: seq<string>)
    requires multiset(a) == multiset(b)
    ensures Distinct(a) == Distinct(b)
  {
    forall x | x in Elements(a) ensures x in Elements(b) {
      assert x in multiset(a);
    }
    forall x | x in Elements(b) ensures x in Elements(a) {
      assert x in multiset(b);
    }
    assert Elements(a) == Elements(b);
  }

  /** A sequence has at most as many different elements as positions. */
  lemma {:induction false} DistinctAtMost(s: seq<string>)
    ensures Distinct(s) <= |s|
    decreases |s|
  {
    if s != [] {
      var init := s[..|s| - 1];
      assert s == init + [s[|s| - 1]];
      assert Elements(s) == Elements(init) + {s[|s| - 1]};
      DistinctAtMost(init);
    }
  }

  /** A non-empty sequence of one repeated string has one element. */
  lemma DistinctConstant(s: seq<string>, x: string)
    requires s != [] && forall i :: 0 <= i < |s| ==> s[i] == x
    ensures Distinct(s) == 1
  {
    assert s[0] in Elements(s);
    assert Elements(s) == {x};
  }
}
