/** The searching generator: sorted arrays of distinct values in [1, 1000] with a target that is
    either one of them (the answer is its position) or absent (the answer is -1); and a fixed
    catalogue of edge cases. Every random draw is an explicit field of a `SearchDraw`. */
module Searching {
  import opened Wrappers
  import opened Sequences
  import opened Decimal
  import opened TestCases

  /** The answer a search case must carry: the first position of the target, or -1. */
  function SearchAnswer(xs: seq<int>, target: int): (r: int)
    ensures r == -1 <==> target !in xs
    ensures r != -1 ==> 0 <= r < |xs| && xs[r] == target && forall k :: 0 <= k < r ==> xs[k] != target
  {
    if target in xs then IndexOf(xs, target) else -1
  }

  /** A search case whose answer is right for its array and target: -1 for an absent target,
      otherwise a position holding the target with no earlier one holding it. */
  predicate AnswersSearch(tc: TestCase) {
    && tc.input.Search? && tc.input.items.IntList? && tc.input.target.Int? && tc.expected.Int?
    && var xs, t, e := tc.input.items.xs, tc.input.target.i, tc.expected.i;
    || (e == -1 && t !in xs)
    || (0 <= e < |xs| && xs[e] == t && forall k :: 0 <= k < e ==> xs[k] != t)
  }

  /** The two descriptions of the right answer agree. */
  lemma AnswersSearchIsSearchAnswer(tc: TestCase)
    requires tc.input.Search? && tc.input.items.IntList? && tc.input.target.Int? && tc.expected.Int?
    ensures AnswersSearch(tc) <==> tc.expected.i == SearchAnswer(tc.input.items.xs, tc.input.target.i)
  {
  }

  /** The random draws behind one normal case, in the order the generator makes them. */
  datatype SearchDraw = SearchDraw(
    length: int,           // randint(min_len, max_len)
    pool: seq<int>,        // the successive draws of randint(1, 1000), repeats included
    hit: bool,             // random() > 0.3
    pick: int,             // the position random.choice takes in the sorted array
    candidates: seq<int>)  // the successive draws of randint(1001, 2000)

  /** Each draw is in the range its call to `random` gives, and the value draws hold enough
      distinct values for the rejection loop to stop. */
  predicate ValidDraw(d: SearchDraw, minLen: int, maxLen: int) {
    && minLen <= d.length <= maxLen
    && (forall k :: 0 <= k < |d.pool| ==> 1 <= d.pool[k] <= 1000)
    && Max(0, d.length) <= |Elements(d.pool)|
    && (d.hit && d.length > 0 ==> 0 <= d.pick < d.length)
    && (forall k :: 0 <= k < |d.candidates| ==> 1001 <= d.candidates[k] <= 2000)
  }

  /** The draw asks `random.choice` for an element of an empty array. */
  predicate EmptyHit(d: SearchDraw) {
    d.hit && d.length <= 0
  }

  /** The rejection loop cannot be asked for more than 1000 distinct values: a longer array never
      finishes, so every length a valid draw allows is at most 1000. */
  lemma LengthAtMostThousand(d: SearchDraw, minLen: int, maxLen: int)
    requires ValidDraw(d, minLen, maxLen)
    ensures d.length <= 1000
  {
    SubsetOfRange(Elements(d.pool), 1, 1001);
  }

  /** Draws values from `pool` until `length` distinct ones have been kept, in order of first
      appearance; `used` is the number of draws consumed. */
  method DrawUnique(length: int, pool: seq<int>) returns (arr: seq<int>, used: nat)
    requires Max(0, length) <= |Elements(pool)|
    ensures used <= |pool|
    ensures |arr| == Max(0, length)
    ensures Distinct(arr)
    ensures Elements(arr) == Elements(pool[..used])
  {
    arr, used := [], 0;
    while |arr| < length
      invariant used <= |pool|
      invariant Distinct(arr)
      invariant Elements(arr) == Elements(pool[..used])
      invariant |arr| <= Max(0, length)
      decreases |pool| - used
    {
      if used == |pool| {
        assert pool[..used] == pool;
        DistinctCardinality(arr);
        assert false;
      }
      var num := pool[used];
      ElementsExtend(pool, used);
      used := used + 1;
      if num !in arr {
        arr := arr + [num];
      }
    }
  }

  /** Candidate `k` is the first of the redraws that is absent from the array. */
  predicate FirstAbsent(arr: seq<int>, candidates: seq<int>, k: int) {
    0 <= k < |candidates| && candidates[k] !in arr && forall j :: 0 <= j < k ==> candidates[j] in arr
  }

  /** Starts from 1001 and redraws while the target is in the array, so it stops at 1001 or at
      the first redraw absent from the array. */
  method PickAbsentTarget(arr: seq<int>, candidates: seq<int>) returns (target: int)
    requires 1001 !in arr || exists j :: 0 <= j < |candidates| && candidates[j] !in arr
    ensures target !in arr
    ensures 1001 !in arr ==> target == 1001
    ensures 1001 in arr ==> exists k :: FirstAbsent(arr, candidates, k) && target == candidates[k]
  {
    target := 1001;
    var m := 0;
    while target in arr
      invariant 0 <= m <= |candidates|
      invariant forall j :: 0 <= j < m - 1 ==> candidates[j] in arr
      invariant m > 0 ==> target == candidates[m - 1]
      invariant target in arr ==> forall j :: 0 <= j < m ==> candidates[j] in arr
      invariant target in arr ==> exists j :: m <= j < |candidates| && candidates[j] !in arr
      invariant m == 0 ==> target == 1001
      invariant 1001 !in arr ==> m == 0
      decreases |candidates| - m
    {
      target := candidates[m];
      m := m + 1;
    }
    if 1001 in arr {
      assert FirstAbsent(arr, candidates, m - 1);
    }
  }

  /** "Searching for an element in a sorted array of {length} elements. Element {target} is
      present in / absent from the array". */
  function Description(length: int, target: int, hit: bool): (r: string)
    ensures |r| > 0
  {
    "Поиск элемента в отсортированном массиве из " + IntToString(length) + " элементов. "
    + "элемент " + IntToString(target) + (if hit then " присутствует в массиве" else " отсутствует в массиве")
  }

  /** What the generator promises of normal case `i` built from draw `d`. */
  predicate IsSearchCase(tc: TestCase, i: nat, d: SearchDraw) {
    && AnswersSearch(tc)
    && var xs, t, e := tc.input.items.xs, tc.input.target.i, tc.expected.i;
    && StrictlyIncreasing(xs)
    && |xs| == Max(0, d.length)
    && (forall k :: 0 <= k < |xs| ==> 1 <= xs[k] <= 1000 && xs[k] in d.pool)
    && (d.hit ==> 0 <= d.pick < |xs| && t == xs[d.pick] && e == d.pick)
    && (!d.hit ==> t == 1001 && e == -1)
    && !tc.isEdgeCase && tc.weight == 1.0
    && tc.description == Description(d.length, t, d.hit)
  }

  /** The rejection loop followed by the in-place sort: a strictly increasing array of the
      drawn length whose values all come from the pool. */
  method SortedUnique(d: SearchDraw) returns (arr: seq<int>)
    requires Max(0, d.length) <= |Elements(d.pool)|
    ensures StrictlyIncreasing(arr) && |arr| == Max(0, d.length)
    ensures forall k :: 0 <= k < |arr| ==> arr[k] in d.pool
  {
    var used;
    arr, used := DrawUnique(d.length, d.pool);
    var unsorted := arr;
    arr := Sort(arr);
    SortDistinctIsStrict(unsorted);
    forall k | 0 <= k < |arr| ensures arr[k] in d.pool {
      assert arr[k] in multiset(unsorted);
      assert arr[k] in Elements(d.pool[..used]);
    }
  }

  /** One normal case: a unique draw, the in-place sort, then the choice of target. */
  method MakeCase(i: nat, d: SearchDraw, minLen: int, maxLen: int) returns (r: Result<TestCase, GenError>)
    requires ValidDraw(d, minLen, maxLen)
    ensures r.Failure? <==> EmptyHit(d)
    ensures r.Failure? ==> r.error == EmptyChoice(i)
    ensures r.Success? ==> IsSearchCase(r.value, i, d)
  {
    var arr := SortedUnique(d);
    var target: int, expected: int;
    if d.hit {
      if |arr| == 0 {
        return Failure(EmptyChoice(i));
      }
      target := arr[d.pick];
      expected := IndexOf(arr, target);
      IndexOfDistinct(arr, d.pick);
    } else {
      target := PickAbsentTarget(arr, d.candidates);
      expected := -1;
    }
    r := Success(TestCase(Search(IntList(arr), Int(target)), Int(expected),
                          Description(d.length, target, d.hit), false, 1.0));
  }

  class SearchingGenerator {
    const minLen: int
    const maxLen: int

    constructor(argMin: int := 1, argMax: int := 50)
      ensures minLen == argMin && maxLen == argMax
    {
      minLen := argMin;
      maxLen := argMax;
    }

    /** `n` normal cases, case `i` built from `draws[i]`. The length range is the same for every
        case, so crossed bounds fail at case 0; otherwise the first case asked to pick a target
        from an empty array fails. */
    method GenerateNormalCases(n: int := 5, draws: seq<SearchDraw>) returns (r: Result<seq<TestCase>, GenError>)
      requires n <= |draws|
      requires minLen <= maxLen ==> forall i :: 0 <= i < n ==> ValidDraw(draws[i], minLen, maxLen)
      ensures r.Failure? <==> n >= 1 && (minLen > maxLen || exists i :: 0 <= i < n && EmptyHit(draws[i]))
      ensures r.Failure? && minLen > maxLen ==> r.error == EmptyRange(0)
      ensures r.Failure? && minLen <= maxLen ==>
        r.error.EmptyChoice? && r.error.caseIndex < n && EmptyHit(draws[r.error.caseIndex])
        && forall j :: 0 <= j < r.error.caseIndex ==> !EmptyHit(draws[j])
      ensures r.Success? ==> |r.value| == Max(0, n)
      ensures r.Success? ==> SearchCases(r.value, draws)
    {
      var cases: seq<TestCase> := [];
      for i := 0 to Max(0, n)
        invariant |cases| == i
        invariant i >= 1 ==> minLen <= maxLen
        invariant forall j :: 0 <= j < i ==> !EmptyHit(draws[j])
        invariant SearchCases(cases, draws)
      {
        if minLen > maxLen {
          return Failure(EmptyRange(i));
        }
        var c := MakeCase(i, draws[i], minLen, maxLen);
        if c.Failure? {
          assert EmptyHit(draws[i]);
          return Failure(c.error);
        }
        SearchCasesExtend(cases, draws, c.value);
        cases := cases + [c.value];
      }
      return Success(cases);
    }
  }

  /** Case `j` of `cases` is what draw `j` promises. */
  predicate SearchCases(cases: seq<TestCase>, draws: seq<SearchDraw>) {
    |cases| <= |draws| && forall j :: 0 <= j < |cases| ==> IsSearchCase(cases[j], j, draws[j])
  }

  lemma SearchCasesExtend(cases: seq<TestCase>, draws: seq<SearchDraw>, c: TestCase)
    requires SearchCases(cases, draws) && |cases| < |draws|
    requires IsSearchCase(c, |cases|, draws[|cases|])
    ensures SearchCases(cases + [c], draws)
  {
    var ext := cases + [c];
    forall j | 0 <= j < |ext| ensures IsSearchCase(ext[j], j, draws[j]) {
      if j < |cases| {
        assert ext[j] == cases[j];
      }
    }
  }

  /** With a positive lower bound no array is empty, so the generator cannot fail. */
  lemma PositiveBoundsNeverChooseFromEmpty(d: SearchDraw, minLen: int, maxLen: int)
    requires minLen >= 1 && ValidDraw(d, minLen, maxLen)
    ensures !EmptyHit(d)
  {
  }

  /** An entry of the edge catalogue: flagged, weighted at least 1, described and correctly
      answered. */
  predicate EdgeEntry(tc: TestCase) {
    tc.isEdgeCase && tc.weight >= 1.0 && tc.description != "" && AnswersSearch(tc)
  }

  /** Entry `k` of the edge catalogue without its description: input, answer, flag and weight. */
  function EdgeShape(k: nat): (Value, Value, bool, real)
    requires k < 7
  {
    if k == 0 then (Search(IntList([]), Int(5)), Int(-1), true, 1.5)
    else if k == 1 then (Search(IntList([1]), Int(1)), Int(0), true, 1.2)
    else if k == 2 then (Search(IntList([1]), Int(2)), Int(-1), true, 1.2)
    else if k == 3 then (Search(IntList([1, 2, 3, 4, 5]), Int(1)), Int(0), true, 1.1)
    else if k == 4 then (Search(IntList([1, 2, 3, 4, 5]), Int(5)), Int(4), true, 1.1)
    else if k == 5 then (Search(IntList([1, 2, 2, 2, 3]), Int(2)), Int(1), true, 1.3)
    else (Search(IntList([1, 3, 5, 7, 9]), Int(4)), Int(-1), true, 1.2)
  }

  /** The catalogue `generate_edge_cases` returns: the seven entries of `EdgeShape`, in order,
      each described and correctly answered. */
  predicate IsEdgeCatalogue(r: seq<TestCase>) {
    && |r| == 7
    && forall k :: 0 <= k < 7 ==> Shape(r[k]) == EdgeShape(k) && EdgeEntry(r[k])
  }

  /** The description of catalogue entry `k`. */
  method EdgeDescription(k: nat) returns (d: string)
    requires k < 7
    ensures d != ""
  {
    d := if k == 0 then "Поиск в пустом массиве"
      else if k == 1 then "Поиск в массиве из одного элемента (элемент есть)"
      else if k == 2 then "Поиск в массиве из одного элемента (элемента нет)"
      else if k == 3 then "Поиск первого элемента"
      else if k == 4 then "Поиск последнего элемента"
      else if k == 5 then "Поиск элемента с дубликатами"
      else "Поиск элемента который должен быть в середине но отсутствует";
  }

  /** The edge catalogue: the entries of `EdgeShape`, each with its description. */
  method EdgeCases() returns (r: seq<TestCase>)
    ensures IsEdgeCatalogue(r)
  {
    var d0 := EdgeDescription(0);
    var d1 := EdgeDescription(1);
    var d2 := EdgeDescription(2);
    var d3 := EdgeDescription(3);
    var d4 := EdgeDescription(4);
    var d5 := EdgeDescription(5);
    var d6 := EdgeDescription(6);
    r := [
      TestCase(Search(IntList([]), Int(5)), Int(-1), d0, true, 1.5),
      TestCase(Search(IntList([1]), Int(1)), Int(0), d1, true, 1.2),
      TestCase(Search(IntList([1]), Int(2)), Int(-1), d2, true, 1.2),
      TestCase(Search(IntList([1, 2, 3, 4, 5]), Int(1)), Int(0), d3, true, 1.1),
      TestCase(Search(IntList([1, 2, 3, 4, 5]), Int(5)), Int(4), d4, true, 1.1),
      TestCase(Search(IntList([1, 2, 2, 2, 3]), Int(2)), Int(1), d5, true, 1.3),
      TestCase(Search(IntList([1, 3, 5, 7, 9]), Int(4)), Int(-1), d6, true, 1.2) ];
    assert EdgeEntry(r[0]) && EdgeEntry(r[1]) && EdgeEntry(r[2]) && EdgeEntry(r[3]);
    assert EdgeEntry(r[4]) && EdgeEntry(r[5]) && EdgeEntry(r[6]);
  }
}
