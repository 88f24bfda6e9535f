/** Facts about integer sequences that the generators and the validator rely on: Python's
    `sorted`, `list.index`, slice reversal `[::-1]`, and the set of a list's values. */
module Sequences {

  /** Python's `max` and `min` on two integers. */
  function Max(a: int, b: int): int { if a >= b then a else b }

  function Min(a: int, b: int): int { if a <= b then a else b }

  predicate NonDecreasing(s: seq<int>) {
    forall i, j :: 0 <= i < j < |s| ==> s[i] <= s[j]
  }

  predicate StrictlyIncreasing(s: seq<int>) {
    forall i, j :: 0 <= i < j < |s| ==> s[i] < s[j]
  }

  predicate Distinct<T(==)>(s: seq<T>) {
    forall i, j :: 0 <= i < j < |s| ==> s[i] != s[j]
  }

  /** The set of values a list holds (Python's `set(xs)`). */
  function Elements(s: seq<int>): set<int> {
    set x | x in s
  }

  /** Inserting into a sorted list keeps it sorted and adds exactly one occurrence of `x`. */
  function Insert(x: int, s: seq<int>): (r: seq<int>)
    requires NonDecreasing(s)
    ensures NonDecreasing(r)
    ensures multiset(r) == multiset(s) + multiset{x}
  {
    if s == [] || x <= s[0] then
      ConsSorted(x, s);
      [x] + s
    else
      TailSorted(s);
      var rest := Insert(x, s[1..]);
      InsertStep(x, s, rest);
      [s[0]] + rest
  }

  lemma TailSorted(s: seq<int>)
    requires NonDecreasing(s) && s != []
    ensures NonDecreasing(s[1..])
  {
    forall i, j | 0 <= i < j < |s| - 1 ensures s[1..][i] <= s[1..][j] {
      assert s[1..][i] == s[i + 1] && s[1..][j] == s[j + 1];
    }
  }

  /** The head of a sorted list, put in front of `x` inserted into its tail. */
  lemma InsertStep(x: int, s: seq<int>, rest: seq<int>)
    requires NonDecreasing(s) && s != [] && s[0] < x
    requires NonDecreasing(rest) && multiset(rest) == multiset(s[1..]) + multiset{x}
    ensures NonDecreasing([s[0]] + rest)
    ensures multiset([s[0]] + rest) == multiset(s) + multiset{x}
  {
    forall k | 0 <= k < |rest| ensures s[0] <= rest[k] {
      assert rest[k] in multiset(rest);
      if rest[k] != x {
        assert rest[k] in multiset(s[1..]);
        var m :| 0 <= m < |s[1..]| && s[1..][m] == rest[k];
        assert s[1..][m] == s[m + 1];
      }
    }
    ConsSorted(s[0], rest);
    assert s == [s[0]] + s[1..];
  }

  /** A sorted list stays sorted under a new head no larger than any of its elements. */
  lemma ConsSorted(h: int, s: seq<int>)
    requires NonDecreasing(s) && forall k :: 0 <= k < |s| ==> h <= s[k]
    ensures NonDecreasing([h] + s)
  {
    var r := [h] + s;
    forall i, j | 0 <= i < j < |r| ensures r[i] <= r[j] {
      assert r[j] == s[j - 1];
      if i > 0 {
        assert r[i] == s[i - 1];
      }
    }
  }

  /** Python's `sorted(xs)` on integers: a non-decreasing permutation of `xs`. */
  function Sort(s: seq<int>): (r: seq<int>)
    ensures NonDecreasing(r)
    ensures multiset(r) == multiset(s)
    ensures |r| == |s|
  {
    if s == [] then []
    else
      assert s == [s[0]] + s[1..];
      Insert(s[0], Sort(s[1..]))
  }

  /** A multiset has at most one non-decreasing arrangement. */
  lemma MultisetTail(s: seq<int>)
    requires s != []
    ensures multiset(s[1..]) == multiset(s) - multiset{s[0]}
  {
    assert s == [s[0]] + s[1..];
  }

  /** Two non-decreasing arrangements of one multiset start with the same (least) value. */
  lemma SortedHeadsAgree(s: seq<int>, t: seq<int>)
    requires NonDecreasing(s) && NonDecreasing(t)
    requires multiset(s) == multiset(t) && s != [] && t != []
    ensures s[0] == t[0]
  {
    assert s[0] in multiset(t) && t[0] in multiset(s);
    var i :| 0 <= i < |t| && t[i] == s[0];
    var j :| 0 <= j < |s| && s[j] == t[0];
    assert t[0] <= t[i] && s[0] <= s[j];
  }

  lemma {:induction false} SortedPermutationUnique(s: seq<int>, t: seq<int>)
    requires NonDecreasing(s) && NonDecreasing(t)
    requires multiset(s) == multiset(t)
    ensures s == t
  {
    assert |t| == |multiset(t)| == |multiset(s)| == |s|;
    if s != [] {
      SortedHeadsAgree(s, t);
      MultisetTail(s);
      MultisetTail(t);
      SortedPermutationUnique(s[1..], t[1..]);
      assert s == [s[0]] + s[1..] && t == [t[0]] + t[1..];
    }
  }

  /** Every non-decreasing permutation of `s` is `sorted(s)`. */
  lemma SortCharacterised(s: seq<int>, t: seq<int>)
    requires NonDecreasing(t) && multiset(t) == multiset(s)
    ensures t == Sort(s)
  {
    SortedPermutationUnique(t, Sort(s));
  }

  /** `xs == sorted(xs)` holds exactly when `xs` is already non-decreasing. */
  lemma SortFixesExactlySorted(s: seq<int>)
    ensures Sort(s) == s <==> NonDecreasing(s)
  {
    if NonDecreasing(s) {
      SortCharacterised(s, s);
    }
  }

  lemma {:induction false} DistinctMultiplicity<T>(s: seq<T>, x: T)
    requires Distinct(s)
    ensures multiset(s)[x] <= 1
  {
    if s != [] {
      assert s == [s[0]] + s[1..];
      assert Distinct(s[1..]) by {
        forall i, j | 0 <= i < j < |s[1..]| ensures s[1..][i] != s[1..][j] {
          assert s[1..][i] == s[i + 1] && s[1..][j] == s[j + 1];
        }
      }
      DistinctMultiplicity(s[1..], x);
      if x == s[0] {
        assert x !in s[1..] by {
          forall k | 0 <= k < |s[1..]| ensures s[1..][k] != x {
            assert s[1..][k] == s[k + 1];
          }
        }
      }
    }
  }

  /** Rearranging a list with no repeated values cannot create a repeat. */
  lemma DistinctPermutation<T>(s: seq<T>, t: seq<T>)
    requires Distinct(s) && multiset(s) == multiset(t)
    ensures Distinct(t)
  {
    forall i, j | 0 <= i < j < |t| ensures t[i] != t[j] {
      if t[i] == t[j] {
        var x := t[i];
        assert t == t[..j] + t[j..];
        assert x in t[..j] && x in t[j..];
        assert multiset(t)[x] == multiset(t[..j])[x] + multiset(t[j..])[x];
        DistinctMultiplicity(s, x);
        assert false;
      }
    }
  }

  /** Sorting a list of distinct values gives a strictly increasing list. */
  lemma SortDistinctIsStrict(s: seq<int>)
    requires Distinct(s)
    ensures StrictlyIncreasing(Sort(s))
  {
    DistinctPermutation(s, Sort(s));
  }

  /** Python's `xs.index(x)`: the first position holding `x` (the source only calls it with `x` present). */
  function IndexOf<T(==)>(s: seq<T>, x: T): (r: nat)
    requires x in s
    ensures r < |s| && s[r] == x
    ensures forall k :: 0 <= k < r ==> s[k] != x
  {
    if s[0] == x then 0 else 1 + IndexOf(s[1..], x)
  }

  /** In a list without repeats a value's first position is its only position. */
  lemma IndexOfDistinct<T>(s: seq<T>, p: nat)
    requires Distinct(s) && p < |s|
    ensures IndexOf(s, s[p]) == p
  {
  }

  /** Python's slice reversal `s[::-1]`. */
  function Reverse<T>(s: seq<T>): seq<T> {
    seq(|s|, i requires 0 <= i < |s| => s[|s| - 1 - i])
  }

  lemma ReverseReverse<T>(s: seq<T>)
    ensures Reverse(Reverse(s)) == s
  {
  }

  lemma ReverseConcat<T>(a: seq<T>, b: seq<T>)
    ensures Reverse(a + b) == Reverse(b) + Reverse(a)
  {
  }

  /** Reversal only rearranges: it keeps every value with its multiplicity. */
  lemma {:induction false} ReversePermutes<T>(s: seq<T>)
    ensures multiset(Reverse(s)) == multiset(s)
  {
    if s != [] {
      assert s == [s[0]] + s[1..];
      ReverseConcat([s[0]], s[1..]);
      ReversePermutes(s[1..]);
    }
  }

  /** A list of distinct values has as many values as positions. */
  lemma {:induction false} DistinctCardinality(s: seq<int>)
    requires Distinct(s)
    ensures |Elements(s)| == |s|
  {
    if s != [] {
      var init := s[..|s| - 1];
      assert Distinct(init);
      DistinctCardinality(init);
      assert s == init + [s[|s| - 1]];
      assert Elements(s) == Elements(init) + {s[|s| - 1]};
      assert s[|s| - 1] !in Elements(init);
    }
  }

  /** Taking one more element of a list adds that element's value to the set of values seen. */
  lemma ElementsExtend(s: seq<int>, k: nat)
    requires k < |s|
    ensures Elements(s[..k + 1]) == Elements(s[..k]) + {s[k]}
  {
    assert s[..k + 1] == s[..k] + [s[k]];
  }

  /** A set of integers inside `[lo, hi)` has at most `hi - lo` members. */
  lemma {:induction false} SubsetOfRange(a: set<int>, lo: int, hi: int)
    requires lo <= hi && forall x :: x in a ==> lo <= x < hi
    ensures |a| <= hi - lo
    decreases hi - lo
  {
    if lo < hi {
      var rest := a - {hi - 1};
      SubsetOfRange(rest, lo, hi - 1);
      assert a <= rest + {hi - 1};
      assert |a| <= |rest| + 1;
    } else {
      assert a == {};
    }
  }
}
