/** The sorting generator: random integer arrays, possibly with appended copies of their own
    elements and with some signs flipped, each paired with its sorted copy; and a fixed catalogue
    of edge cases. Every random draw of a normal case is an explicit field of a `SortDraw`; the
    20 random values of the edge catalogue are the parameter `large` of `EdgeCases`. */
module Sorting {
  import opened Wrappers
  import opened Sequences
  import opened Decimal
  import opened TestCases

  /** The bounds the constructor stores: the lower bound is the lower argument clamped at 0,
      the upper one is the larger of the two arguments as given. */
  function Clamp(argMin: int, argMax: int): (r: (int, int))
    ensures r.0 >= 0 && r.0 >= argMin
    ensures argMin < 0 ==> r.0 == 0
    ensures argMin >= 0 ==> r.0 == argMin
    ensures r.1 >= argMin && r.1 >= argMax
    ensures r.1 == argMin || r.1 == argMax
    ensures argMin >= 0 ==> r.0 <= r.1
    ensures argMin < 0 && argMax < 0 ==> r.0 > r.1
    ensures argMin >= 0 && argMin <= argMax ==> r == (argMin, argMax)
  {
    (Max(0, argMin), Max(argMin, argMax))
  }

  /** Both arguments negative: the stored bounds are crossed. */
  lemma NegativeBoundsCross()
    ensures Clamp(-5, -10) == (0, -5)
  {
  }

  /** The inclusive range `randint` draws the length of case `i` from. Case 0 ignores the
      configured bounds; case 1 prefers the part of `[50, 100]` inside them. */
  function Window(i: nat, minLen: int, maxLen: int): (r: (int, int))
    ensures i == 0 ==> r == (5, 10)
    ensures i >= 2 ==> r == (minLen, maxLen)
    ensures i == 1 && Max(50, minLen) <= Min(100, maxLen) ==> r == (Max(50, minLen), Min(100, maxLen))
    ensures i == 1 && Max(50, minLen) > Min(100, maxLen) ==> r == (minLen, maxLen)
    ensures i >= 1 && minLen <= maxLen ==> minLen <= r.0 && r.1 <= maxLen
    ensures i == 1 && r != (minLen, maxLen) ==> 50 <= r.0 && r.1 <= 100
    ensures r.0 <= r.1 <==> i == 0 || minLen <= maxLen
  {
    if i == 0 then (5, 10)
    else if i == 1 && Max(50, minLen) <= Min(100, maxLen) then (Max(50, minLen), Min(100, maxLen))
    else (minLen, maxLen)
  }

  /** The random draws behind one normal case, in the order the generator makes them. */
  datatype SortDraw = SortDraw(
    length: int,          // randint over the case's window
    values: seq<int>,     // `length` draws of randint(-1000, 1000)
    addCopies: bool,      // random() > 0.5, consulted only when length > 5
    copyCount: int,       // randint(1, 3)
    copyPicks: seq<int>,  // the index copied by each append, randint(0, len(arr) - 1)
    negate: bool,         // random() > 0.7
    flips: seq<bool>)     // random() > 0.5 for each position

  /** How many copies are appended: none unless the array is longer than 5 and the coin says so. */
  function Copies(d: SortDraw): int {
    if d.length > 5 && d.addCopies then d.copyCount else 0
  }

  /** Each draw has the shape and the range its call to `random` gives. */
  predicate ValidDraw(d: SortDraw, window: (int, int)) {
    && window.0 <= d.length <= window.1
    && |d.values| == d.length
    && (forall k :: 0 <= k < |d.values| ==> -1000 <= d.values[k] <= 1000)
    && (d.length > 5 && d.addCopies ==> 1 <= d.copyCount <= 3)
    && |d.copyPicks| == Copies(d)
    && (forall k :: 0 <= k < |d.copyPicks| ==> 0 <= d.copyPicks[k] < d.length + k)
    && (d.negate ==> |d.flips| == d.length + Copies(d))
  }

  predicate PicksFit(n: int, picks: seq<int>) {
    forall k :: 0 <= k < |picks| ==> 0 <= picks[k] < n + k
  }

  /** The array after appending, one after another, the elements at `picks` of the growing array. */
  function WithCopies(arr: seq<int>, picks: seq<int>): (r: seq<int>)
    requires PicksFit(|arr|, picks)
    ensures |r| == |arr| + |picks|
    ensures r[..|arr|] == arr
    ensures forall k :: 0 <= k < |r| ==> r[k] in arr
  {
    if picks == [] then arr
    else
      var prev := WithCopies(arr, picks[..|picks| - 1]);
      prev + [prev[picks[|picks| - 1]]]
  }

  /** The array with the sign of every flipped position changed. */
  function Negated(arr: seq<int>, flips: seq<bool>): (r: seq<int>)
    requires |flips| == |arr|
    ensures |r| == |arr|
    ensures forall k :: 0 <= k < |r| ==> r[k] == arr[k] || r[k] == -arr[k]
  {
    seq(|arr|, k requires 0 <= k < |arr| => if flips[k] then -arr[k] else arr[k])
  }

  /** The input array a valid draw produces. */
  function FinalArray(d: SortDraw): seq<int>
    requires ValidDraw(d, (d.length, d.length))
  {
    var copied := WithCopies(d.values, d.copyPicks);
    if d.negate then Negated(copied, d.flips) else copied
  }

  /** "Normal case {i+1}: array of {length} elements". */
  function Description(i: nat, length: int): (r: string)
    ensures |r| > 0
  {
    "Нормальный случай " + NatToString(i + 1) + ": массив из " + IntToString(length) + " элементов"
  }

  /** Normal case `i` built from draw `d`. */
  function NormalCase(i: nat, d: SortDraw): TestCase
    requires ValidDraw(d, (d.length, d.length))
  {
    var arr := FinalArray(d);
    TestCase(IntList(arr), IntList(Sort(arr)), Description(i, d.length), false, 1.0)
  }

  lemma NormalCaseOfArray(i: nat, d: SortDraw, arr: seq<int>)
    requires ValidDraw(d, (d.length, d.length)) && arr == FinalArray(d)
    ensures NormalCase(i, d) == TestCase(IntList(arr), IntList(Sort(arr)), Description(i, d.length), false, 1.0)
  {
  }

  /** `x` is one of `values`, possibly with its sign changed. */
  predicate SignedFrom(x: int, values: seq<int>) {
    exists m :: 0 <= m < |values| && (x == values[m] || x == -values[m])
  }

  /** What the tests expect of a generated sorting case, and what the code gives: the answer is a
      non-decreasing rearrangement of the input, whose values stay in [-1000, 1000], and the
      input has the drawn length plus the appended copies. */
  predicate IsSortingCase(tc: TestCase, i: nat, d: SortDraw) {
    && tc.input.IntList? && tc.expected.IntList?
    && NonDecreasing(tc.expected.xs)
    && multiset(tc.expected.xs) == multiset(tc.input.xs)
    && |tc.input.xs| == d.length + Copies(d)
    && (forall k :: 0 <= k < |tc.input.xs| ==> -1000 <= tc.input.xs[k] <= 1000)
    && (forall k :: 0 <= k < |tc.input.xs| ==> SignedFrom(tc.input.xs[k], d.values))
    && (!d.negate && 0 <= d.length <= |tc.input.xs| ==> tc.input.xs[..d.length] == d.values)
    && !tc.isEdgeCase && tc.weight == 1.0
    && tc.description == Description(i, d.length)
  }

  /** The built array has the drawn length plus the copies, keeps every value in range up to
      sign, and starts with the drawn values when no sign is flipped. */
  lemma FinalArrayShape(d: SortDraw)
    requires ValidDraw(d, (d.length, d.length))
    ensures var arr := FinalArray(d);
      && |arr| == d.length + Copies(d)
      && (forall k :: 0 <= k < |arr| ==> -1000 <= arr[k] <= 1000)
      && (forall k :: 0 <= k < |arr| ==> SignedFrom(arr[k], d.values))
      && (!d.negate ==> arr[..d.length] == d.values)
  {
    var copied := WithCopies(d.values, d.copyPicks);
    var arr := FinalArray(d);
    forall k | 0 <= k < |arr|
      ensures -1000 <= arr[k] <= 1000
      ensures SignedFrom(arr[k], d.values)
    {
      assert arr[k] == copied[k] || arr[k] == -copied[k];
      var m :| 0 <= m < |d.values| && copied[k] == d.values[m];
      assert arr[k] == d.values[m] || arr[k] == -d.values[m];
    }
  }

  lemma NormalCaseIsSortingCase(i: nat, d: SortDraw, window: (int, int))
    requires ValidDraw(d, window)
    ensures IsSortingCase(NormalCase(i, d), i, d)
  {
    FinalArrayShape(d);
  }

  /** Appends `|picks|` copies to `arr`, each of the element at the drawn index. */
  method AppendCopies(values: seq<int>, picks: seq<int>) returns (arr: seq<int>)
    requires PicksFit(|values|, picks)
    ensures arr == WithCopies(values, picks)
  {
    arr := values;
    for k := 0 to |picks|
      invariant arr == WithCopies(values, picks[..k])
    {
      assert picks[..k + 1][..k] == picks[..k];
      arr := arr + [arr[picks[k]]];
    }
    assert picks[..|picks|] == picks;
  }

  /** Changes the sign of each flipped element in place. */
  method NegateSome(values: seq<int>, flips: seq<bool>) returns (arr: seq<int>)
    requires |flips| == |values|
    ensures arr == Negated(values, flips)
  {
    arr := values;
    for j := 0 to |arr|
      invariant |arr| == |values|
      invariant arr[..j] == Negated(values, flips)[..j]
      invariant arr[j..] == values[j..]
    {
      if flips[j] {
        arr := arr[j := -arr[j]];
      }
    }
  }

  /** The input array of one case: the drawn values, the appended copies, the flipped signs. */
  method BuildArray(d: SortDraw) returns (arr: seq<int>)
    requires ValidDraw(d, (d.length, d.length))
    ensures arr == FinalArray(d)
  {
    arr := d.values;
    if d.length > 5 && d.addCopies {
      arr := AppendCopies(arr, d.copyPicks);
    } else {
      assert d.copyPicks == [];
    }
    if d.negate {
      arr := NegateSome(arr, d.flips);
    }
  }

  class SortingGenerator {
    const minLen: int
    const maxLen: int

    constructor(argMin: int := 0, argMax: int := 100)
      ensures (minLen, maxLen) == Clamp(argMin, argMax)
    {
      minLen := Max(0, argMin);
      maxLen := Max(argMin, argMax);
    }

    /** `n` normal cases, case `i` built from `draws[i]`. Once the bounds are crossed, the draw
        for case 1 (and for every later case) has an empty range and `randint` fails. */
    method GenerateNormalCases(n: int := 5, draws: seq<SortDraw>) returns (r: Result<seq<TestCase>, GenError>)
      requires n <= |draws|
      requires forall i :: 0 <= i < n && Window(i, minLen, maxLen).0 <= Window(i, minLen, maxLen).1 ==>
        ValidDraw(draws[i], Window(i, minLen, maxLen))
      ensures r.Failure? <==> n >= 2 && minLen > maxLen
      ensures r.Failure? ==> r.error == EmptyRange(1)
      ensures r.Success? ==> |r.value| == Max(0, n)
      ensures r.Success? ==> NormalCases(r.value, draws)
    {
      var cases: seq<TestCase> := [];
      for i := 0 to Max(0, n)
        invariant |cases| == i
        invariant i >= 2 ==> minLen <= maxLen
        invariant NormalCases(cases, draws)
      {
        var window := Window(i, minLen, maxLen);
        if window.0 > window.1 {
          return Failure(EmptyRange(i));
        }
        var d := draws[i];
        assert ValidDraw(d, (d.length, d.length));
        var arr := BuildArray(d);
        var tc := TestCase(IntList(arr), IntList(Sort(arr)), Description(i, d.length), false, 1.0);
        NormalCaseOfArray(i, d, arr);
        NormalCasesExtend(cases, draws, tc);
        cases := cases + [tc];
      }
      return Success(cases);
    }
  }

  /** Case `k` of `cases` is normal case `k` built from `draws[k]`. */
  predicate NormalCases(cases: seq<TestCase>, draws: seq<SortDraw>) {
    |cases| <= |draws| && forall k :: 0 <= k < |cases| ==>
      ValidDraw(draws[k], (draws[k].length, draws[k].length)) && cases[k] == NormalCase(k, draws[k])
  }

  lemma NormalCasesExtend(cases: seq<TestCase>, draws: seq<SortDraw>, c: TestCase)
    requires NormalCases(cases, draws) && |cases| < |draws|
    requires ValidDraw(draws[|cases|], (draws[|cases|].length, draws[|cases|].length))
    requires c == NormalCase(|cases|, draws[|cases|])
    ensures NormalCases(cases + [c], draws)
  {
    var all := cases + [c];
    forall k | 0 <= k < |all|
      ensures ValidDraw(draws[k], (draws[k].length, draws[k].length)) && all[k] == NormalCase(k, draws[k])
    {
      if k < |cases| {
        assert all[k] == cases[k];
      }
    }
  }

  /** Case `i` of `cases` is a correct sorting case for draw `i`. */
  predicate SortingCases(cases: seq<TestCase>, draws: seq<SortDraw>) {
    |cases| <= |draws| && forall i :: 0 <= i < |cases| ==> IsSortingCase(cases[i], i, draws[i])
  }

  /** Every normal case a generator produces is a correct sorting case for its draw. */
  lemma GeneratedCasesAreSortingCases(minLen: int, maxLen: int, draws: seq<SortDraw>, cases: seq<TestCase>)
    requires |cases| <= |draws|
    requires forall i :: 0 <= i < |cases| && Window(i, minLen, maxLen).0 <= Window(i, minLen, maxLen).1 ==>
      ValidDraw(draws[i], Window(i, minLen, maxLen))
    requires NormalCases(cases, draws)
    requires |cases| >= 2 ==> minLen <= maxLen
    ensures SortingCases(cases, draws)
  {
    forall i | 0 <= i < |cases|
      ensures IsSortingCase(cases[i], i, draws[i])
    {
      NormalCaseIsSortingCase(i, draws[i], Window(i, minLen, maxLen));
    }
  }

  /** Case 0 draws its length from [5, 10] whatever the bounds: with bounds [0, 3] it has 5
      elements. */
  lemma FirstCaseIgnoresBounds()
    ensures var d := SortDraw(5, [0, 0, 0, 0, 0], false, 0, [], false, []);
      ValidDraw(d, Window(0, 0, 3)) && |NormalCase(0, d).input.xs| == 5
  {
  }

  /** Appended copies come on top of the drawn length: with bounds [6, 6], case 2 can have 9
      elements. */
  lemma CopiesExceedBounds(values: seq<int>)
    requires |values| == 6 && forall k :: 0 <= k < 6 ==> -1000 <= values[k] <= 1000
    ensures var d := SortDraw(6, values, true, 3, [0, 0, 0], false, []);
      ValidDraw(d, Window(2, 6, 6)) && |NormalCase(2, d).input.xs| == 9
  {
    var d := SortDraw(6, values, true, 3, [0, 0, 0], false, []);
    assert PicksFit(6, [0, 0, 0]);
    assert ValidDraw(d, Window(2, 6, 6));
  }

  /** The integers counting down from `n` to 1, `list(range(n, 0, -1))`: strictly decreasing,
      and read backwards it counts up from 1 to `n`. */
  function CountDown(n: nat): (r: seq<int>)
    ensures |r| == n && forall i, j :: 0 <= i < j < n ==> r[i] > r[j]
    ensures Reverse(r) == CountUp(n)
  {
    var r := seq(n, k => n - k);
    assert Reverse(r) == CountUp(n) by {
      forall k | 0 <= k < n ensures Reverse(r)[k] == CountUp(n)[k] {
      }
    }
    r
  }

  /** The integers counting up from 1 to `n`, `list(range(1, n + 1))`. */
  function CountUp(n: nat): (r: seq<int>)
    ensures |r| == n && StrictlyIncreasing(r)
  {
    seq(n, k => k + 1)
  }

  lemma CountUpSortsCountDown(n: nat)
    ensures multiset(CountUp(n)) == multiset(CountDown(n))
  {
    ReversePermutes(CountDown(n));
  }

  /** An edge case of the catalogue: the answer is the input in sorted order. */
  predicate SortsInput(tc: TestCase) {
    && tc.input.IntList? && tc.expected.IntList?
    && NonDecreasing(tc.expected.xs)
    && multiset(tc.expected.xs) == multiset(tc.input.xs)
  }

  predicate InLargeRange(large: seq<int>) {
    forall k :: 0 <= k < |large| ==> 1000000 <= large[k] <= 1000000000
  }

  /** An entry of the edge catalogue: flagged, weighted at least 1, described, and answered by
      the sorted input. */
  predicate EdgeEntry(tc: TestCase) {
    tc.isEdgeCase && tc.weight >= 1.0 && tc.description != "" && SortsInput(tc)
  }

  /** A run of equal values is sorted. */
  lemma ConstantSorted(v: int, n: nat)
    ensures NonDecreasing(seq(n, _ => v))
  {
  }

  /** Entry `k` of the edge catalogue without its description: input, answer, flag and weight;
      `large` are the 20 draws of randint(10**6, 10**9). */
  function EdgeShape(k: nat, large: seq<int>): (Value, Value, bool, real)
    requires k < 6
  {
    if k == 0 then (IntList([]), IntList([]), true, 1.5)
    else if k == 1 then (IntList([42]), IntList([42]), true, 1.2)
    else if k == 2 then (IntList([5, 5, 5, 5, 5]), IntList([5, 5, 5, 5, 5]), true, 1.3)
    else if k == 3 then (IntList(CountDown(100)), IntList(CountUp(100)), true, 1.4)
    else if k == 4 then (IntList([-10, -5, -1, 0, 1, 5, 10]), IntList([-10, -5, -1, 0, 1, 5, 10]), true, 1.1)
    else (IntList(large), IntList(Sort(large)), true, 1.3)
  }

  /** A catalogue shape whose answer is its input in sorted order, flagged and weighted at least 1. */
  predicate ShapeSorts(e: (Value, Value, bool, real)) {
    && e.0.IntList? && e.1.IntList?
    && NonDecreasing(e.1.xs) && multiset(e.1.xs) == multiset(e.0.xs)
    && e.2 && e.3 >= 1.0
  }

  /** Every entry of the catalogue is answered by its input in sorted order. */
  lemma EdgeShapeSorts(k: nat, large: seq<int>)
    requires k < 6
    ensures ShapeSorts(EdgeShape(k, large))
  {
    if k == 2 {
      ConstantSorted(5, 5);
      assert [5, 5, 5, 5, 5] == seq(5, _ => 5);
    } else if k == 3 {
      CountUpSortsCountDown(100);
    } else if k == 4 {
      assert StrictlyIncreasing([-10, -5, -1, 0, 1, 5, 10]);
    }
  }

  /** The catalogue `generate_edge_cases` returns: the six entries of `EdgeShape`, in order, each
      described and answered by its input in sorted order. */
  predicate IsEdgeCatalogue(r: seq<TestCase>, large: seq<int>) {
    && |r| == 6
    && forall k :: 0 <= k < 6 ==> Shape(r[k]) == EdgeShape(k, large) && EdgeEntry(r[k])
  }

  /** Described cases of the catalogue's shapes form the catalogue. */
  lemma ShapedIsCatalogue(r: seq<TestCase>, large: seq<int>)
    requires |r| == 6
    requires forall k :: 0 <= k < 6 ==> Shape(r[k]) == EdgeShape(k, large) && r[k].description != ""
    ensures IsEdgeCatalogue(r, large)
  {
    forall k | 0 <= k < 6 ensures EdgeEntry(r[k]) {
      EdgeShapeSorts(k, large);
    }
  }

  /** The description of catalogue entry `k`. */
  method EdgeDescription(k: nat) returns (d: string)
    requires k < 6
    ensures d != ""
  {
    d := if k == 0 then "Пустой массив"
      else if k == 1 then "Массив из одного элемента"
      else if k == 2 then "Все элементы одинаковые"
      else if k == 3 then "Обратно отсортированный массив из 100 элементов"
      else if k == 4 then "Уже отсортированный массив"
      else "Массив с очень большими числами";
  }

  /** The edge catalogue. */
  method EdgeCases(large: seq<int>) returns (r: seq<TestCase>)
    requires |large| == 20 && InLargeRange(large)
    ensures IsEdgeCatalogue(r, large)
  {
    var d0 := EdgeDescription(0);
    var d1 := EdgeDescription(1);
    var d2 := EdgeDescription(2);
    var d3 := EdgeDescription(3);
    var d4 := EdgeDescription(4);
    var d5 := EdgeDescription(5);
    r := [
      TestCase(IntList([]), IntList([]), d0, true, 1.5),
      TestCase(IntList([42]), IntList([42]), d1, true, 1.2),
      TestCase(IntList([5, 5, 5, 5, 5]), IntList([5, 5, 5, 5, 5]), d2, true, 1.3),
      TestCase(IntList(CountDown(100)), IntList(CountUp(100)), d3, true, 1.4),
      TestCase(IntList([-10, -5, -1, 0, 1, 5, 10]), IntList([-10, -5, -1, 0, 1, 5, 10]), d4, true, 1.1),
      TestCase(IntList(large), IntList(Sort(large)), d5, true, 1.3) ];
    assert Shape(r[0]) == EdgeShape(0, large) && Shape(r[1]) == EdgeShape(1, large);
    assert Shape(r[2]) == EdgeShape(2, large) && Shape(r[3]) == EdgeShape(3, large);
    assert Shape(r[4]) == EdgeShape(4, large) && Shape(r[5]) == EdgeShape(5, large);
    ShapedIsCatalogue(r, large);
  }
}
