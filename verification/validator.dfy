/** The validator: per-case consistency checks that accumulate error reports, detection of
    repeated (input, expected) pairs, and coverage statistics. */
module Validator {
  import opened Wrappers
  import opened Sequences
  import opened TestCases

  /** What is wrong with one case; the rendered messages of the source carry the same facts. */
  datatype Problem =
    | MissingInput
    | MissingExpected
    | MissingDescription
    | ExpectedNotList
    | LengthMismatch(inputLength: nat, expectedLength: nat)
    | NotSorted
    | ArrayNotList
    | IndexNotInt
    | IndexOutOfBounds(position: int)
    | ElementNotTarget(position: int)
    | PairNotInts

  /** One reported error: the whole list is empty, or case `index` has `problem`. */
  datatype Error = EmptyCaseList | InCase(index: nat, problem: Problem)

  // ---------------------------------------------------------------------------------------
  // Structural checks

  /** The search answer `e` for `target` in `arr` is acceptable to the validator: -1, or an
      in-bounds position holding the target (compared as Python compares an int with a value). */
  predicate SearchAnswerAccepted(arr: seq<int>, target: Value, e: int) {
    e == -1 || (0 <= e < |arr| && AsInt(target) == Some(arr[e]))
  }

  /** `_validate_specific_types`: at most one structural problem, chosen by the shape of
      `input`; a list input is checked for a list answer, then equal length, then sortedness. */
  function SpecificTypeProblem(tc: TestCase): (r: Option<Problem>)
    ensures tc.input.IntList? ==>
      (r.None? <==> tc.expected.IntList? && |tc.expected.xs| == |tc.input.xs|
                    && NonDecreasing(tc.expected.xs))
    ensures tc.input.IntList? && !tc.expected.IntList? ==> r == Some(ExpectedNotList)
    ensures tc.input.IntList? && tc.expected.IntList? && |tc.expected.xs| != |tc.input.xs| ==>
      r == Some(LengthMismatch(|tc.input.xs|, |tc.expected.xs|))
    ensures (tc.input.IntList? && tc.expected.IntList? && |tc.expected.xs| == |tc.input.xs| &&
             !NonDecreasing(tc.expected.xs)) ==> r == Some(NotSorted)
    ensures tc.input.Search? ==>
      (r.None? <==> tc.input.items.IntList? && AsInt(tc.expected).Some?
                    && SearchAnswerAccepted(tc.input.items.xs, tc.input.target, AsInt(tc.expected).value))
    ensures tc.input.Pair? ==> (r.None? <==> AsInt(tc.input.first).Some? && AsInt(tc.input.second).Some?)
    ensures !(tc.input.IntList? || tc.input.Search? || tc.input.Pair?) ==> r.None?
  {
    match tc.input
    case IntList(xs) =>
      if !tc.expected.IntList? then Some(ExpectedNotList)
      else if |xs| != |tc.expected.xs| then Some(LengthMismatch(|xs|, |tc.expected.xs|))
      else
        SortFixesExactlySorted(tc.expected.xs);
        if tc.expected.xs != Sort(tc.expected.xs) then Some(NotSorted) else None
    case Search(items, target) =>
      if !items.IntList? then Some(ArrayNotList)
      else if AsInt(tc.expected).None? then Some(IndexNotInt)
      else
        var e := AsInt(tc.expected).value;
        if e != -1 && (e < 0 || e >= |items.xs|) then Some(IndexOutOfBounds(e))
        else if e >= 0 && AsInt(target) != Some(items.xs[e]) then Some(ElementNotTarget(e))
        else None
    case Pair(a, b) =>
      if AsInt(a).None? || AsInt(b).None? then Some(PairNotInts) else None
    case _ => None
  }

  /** A case with nothing to report. */
  predicate CaseClean(tc: TestCase) {
    tc.input != Null && tc.expected != Null && tc.description != ""
    && SpecificTypeProblem(tc).None?
  }

  /** The errors one case contributes, in the order the checks run: input present, expected
      present, description non-empty, then the structural check. */
  function CaseErrors(tc: TestCase, i: nat): (r: seq<Error>)
    ensures |r| <= 4
    ensures forall k :: 0 <= k < |r| ==> r[k].InCase? && r[k].index == i
    ensures r == [] <==> CaseClean(tc)
  {
    (if tc.input == Null then [InCase(i, MissingInput)] else [])
    + (if tc.expected == Null then [InCase(i, MissingExpected)] else [])
    + (if tc.description == "" then [InCase(i, MissingDescription)] else [])
    + (match SpecificTypeProblem(tc) case Some(p) => [InCase(i, p)] case None => [])
  }

  /** The errors of the first `k` cases, case by case. */
  function ErrorsUpTo(cases: seq<TestCase>, k: nat): seq<Error>
    requires k <= |cases|
  {
    if k == 0 then [] else ErrorsUpTo(cases, k - 1) + CaseErrors(cases[k - 1], k - 1)
  }

  /** The checks `validate_test_cases` runs on one case, appending as it goes. */
  method CheckCase(tc: TestCase, i: nat) returns (found: seq<Error>)
    ensures found == CaseErrors(tc, i)
  {
    found := [];
    if tc.input == Null {
      found := found + [InCase(i, MissingInput)];
    }
    if tc.expected == Null {
      found := found + [InCase(i, MissingExpected)];
    }
    if tc.description == "" {
      found := found + [InCase(i, MissingDescription)];
    }
    var problem := SpecificTypeProblem(tc);
    if problem.Some? {
      found := found + [InCase(i, problem.value)];
    }
  }

  /** `validate_test_cases`: an empty list is one error; otherwise every case is checked and
      the list is valid exactly when no error was collected. */
  method ValidateTestCases(cases: seq<TestCase>) returns (valid: bool, errors: seq<Error>)
    ensures cases == [] ==> !valid && errors == [EmptyCaseList]
    ensures cases != [] ==> errors == ErrorsUpTo(cases, |cases|)
    ensures valid <==> errors == []
  {
    errors := [];
    if |cases| == 0 {
      errors := errors + [EmptyCaseList];
      return false, errors;
    }
    for i := 0 to |cases|
      invariant errors == ErrorsUpTo(cases, i)
    {
      var found := CheckCase(cases[i], i);
      errors := errors + found;
    }
    valid := |errors| == 0;
  }

  /** Clean cases contribute no errors. */
  lemma {:induction false} AllCleanNoErrors(cases: seq<TestCase>, k: nat)
    requires k <= |cases| && forall i :: 0 <= i < k ==> CaseClean(cases[i])
    ensures ErrorsUpTo(cases, k) == []
  {
    if k > 0 {
      AllCleanNoErrors(cases, k - 1);
      assert CaseClean(cases[k - 1]);
    }
  }

  /** No errors means every case is clean. */
  lemma {:induction false} NoErrorsAllClean(cases: seq<TestCase>, k: nat)
    requires k <= |cases| && ErrorsUpTo(cases, k) == []
    ensures forall i :: 0 <= i < k ==> CaseClean(cases[i])
  {
    if k > 0 {
      var prev, last := ErrorsUpTo(cases, k - 1), CaseErrors(cases[k - 1], k - 1);
      assert ErrorsUpTo(cases, k) == prev + last;
      assert |prev| == 0 && |last| == 0;
      NoErrorsAllClean(cases, k - 1);
      assert CaseClean(cases[k - 1]);
    }
  }

  /** A non-empty list validates exactly when every case is clean. */
  lemma NoErrorsIffAllClean(cases: seq<TestCase>, k: nat)
    requires k <= |cases|
    ensures ErrorsUpTo(cases, k) == [] <==> forall i :: 0 <= i < k ==> CaseClean(cases[i])
  {
    if ErrorsUpTo(cases, k) == [] {
      NoErrorsAllClean(cases, k);
    }
    if forall i :: 0 <= i < k ==> CaseClean(cases[i]) {
      AllCleanNoErrors(cases, k);
    }
  }

  /** Errors come out grouped by case in case order, at most four per case. */
  lemma {:induction false} ErrorsInCaseOrder(cases: seq<TestCase>, k: nat)
    requires k <= |cases|
    ensures |ErrorsUpTo(cases, k)| <= 4 * k
    ensures forall p :: 0 <= p < |ErrorsUpTo(cases, k)| ==>
      ErrorsUpTo(cases, k)[p].InCase? && ErrorsUpTo(cases, k)[p].index < k
    ensures forall p, q :: 0 <= p < q < |ErrorsUpTo(cases, k)| ==>
      ErrorsUpTo(cases, k)[p].index <= ErrorsUpTo(cases, k)[q].index
  {
    if k > 0 {
      ErrorsInCaseOrder(cases, k - 1);
      var prev, last := ErrorsUpTo(cases, k - 1), CaseErrors(cases[k - 1], k - 1);
      var all: seq<Error> := prev + last;
      assert ErrorsUpTo(cases, k) == all;
      forall p | 0 <= p < |all| ensures all[p].InCase? && all[p].index < k {
        if p >= |prev| {
          assert all[p] == last[p - |prev|];
        }
      }
    }
  }

  // ---------------------------------------------------------------------------------------
  // Duplicate detection

  /** Two cases are duplicates when their (input, expected) pairs are equal; structural equality
      of the values stands for equality of their printed forms. */
  function Key(tc: TestCase): (Value, Value) {
    (tc.input, tc.expected)
  }

  /** The first position whose case has key `key`, or `|cases|` when there is none. */
  function FirstKeyIndex(cases: seq<TestCase>, key: (Value, Value)): (r: nat)
    ensures r <= |cases|
    ensures r < |cases| ==> Key(cases[r]) == key
    ensures forall m :: 0 <= m < r ==> Key(cases[m]) != key
  {
    if cases == [] then 0
    else if Key(cases[0]) == key then 0
    else 1 + FirstKeyIndex(cases[1..], key)
  }

  /** The pairs `find_duplicates` reports: for each position, in order, whose key occurred
      earlier, the pair (first position with that key, this position). */
  function DuplicatePairs(cases: seq<TestCase>): seq<(nat, nat)> {
    if cases == [] then []
    else
      var n := |cases| - 1;
      var j := FirstKeyIndex(cases[..n], Key(cases[n]));
      DuplicatePairs(cases[..n]) + (if j < n then [(j, n)] else [])
  }

  lemma FirstKeyIndexExtend(cases: seq<TestCase>, i: nat, key: (Value, Value))
    requires i < |cases|
    ensures FirstKeyIndex(cases[..i + 1], key) ==
      if FirstKeyIndex(cases[..i], key) < i then FirstKeyIndex(cases[..i], key)
      else if Key(cases[i]) == key then i
      else i + 1
  {
    var f, g := FirstKeyIndex(cases[..i], key), FirstKeyIndex(cases[..i + 1], key);
    assert forall m :: 0 <= m < i ==> cases[..i + 1][m] == cases[..i][m];
    if f < i {
      assert g <= f;
      assert g >= f;
    } else if Key(cases[i]) == key {
      assert cases[..i + 1][i] == cases[i];
    } else {
      assert cases[..i + 1][i] == cases[i];
    }
  }

  lemma DuplicatePairsExtend(cases: seq<TestCase>, i: nat)
    requires i < |cases|
    ensures var j := FirstKeyIndex(cases[..i], Key(cases[i]));
      DuplicatePairs(cases[..i + 1]) == DuplicatePairs(cases[..i]) + (if j < i then [(j, i)] else [])
  {
    assert cases[..i + 1][..i] == cases[..i];
  }

  /** `find_duplicates`: one pass that remembers the first position of every key seen. */
  method FindDuplicates(cases: seq<TestCase>) returns (duplicates: seq<(nat, nat)>)
    ensures duplicates == DuplicatePairs(cases)
  {
    duplicates := [];
    var seen: map<(Value, Value), nat> := map[];
    for i := 0 to |cases|
      invariant duplicates == DuplicatePairs(cases[..i])
      invariant forall key :: key in seen ==> seen[key] < i && seen[key] == FirstKeyIndex(cases[..i], key)
      invariant forall key :: key !in seen ==> FirstKeyIndex(cases[..i], key) == i
    {
      var key := Key(cases[i]);
      DuplicatePairsExtend(cases, i);
      forall k ensures FirstKeyIndex(cases[..i + 1], k) ==
        if FirstKeyIndex(cases[..i], k) < i then FirstKeyIndex(cases[..i], k)
        else if Key(cases[i]) == k then i else i + 1
      {
        FirstKeyIndexExtend(cases, i, k);
      }
      if key in seen {
        duplicates := duplicates + [(seen[key], i)];
      } else {
        seen := seen[key := i];
      }
    }
    assert cases[..|cases|] == cases;
  }

  /** Every reported pair (j, i) has j < i, equal keys at j and i, and j is the first position
      with that key; pairs come in increasing order of their second position. */
  lemma {:induction false} DuplicatePairsSound(cases: seq<TestCase>)
    ensures forall k :: 0 <= k < |DuplicatePairs(cases)| ==>
      var (j, i) := DuplicatePairs(cases)[k];
      j < i < |cases| && Key(cases[j]) == Key(cases[i])
      && forall m :: 0 <= m < j ==> Key(cases[m]) != Key(cases[j])
    ensures forall k, l :: 0 <= k < l < |DuplicatePairs(cases)| ==>
      DuplicatePairs(cases)[k].1 < DuplicatePairs(cases)[l].1
  {
    if cases != [] {
      var n := |cases| - 1;
      var init := cases[..n];
      DuplicatePairsSound(init);
      assert forall m :: 0 <= m < n ==> init[m] == cases[m];
      var prev, all := DuplicatePairs(init), DuplicatePairs(cases);
      assert all[..|prev|] == prev;
      forall k | 0 <= k < |all|
        ensures var (j, i) := all[k];
          j < i < |cases| && Key(cases[j]) == Key(cases[i])
          && forall m :: 0 <= m < j ==> Key(cases[m]) != Key(cases[j])
      {
        if k < |prev| {
          assert all[k] == prev[k];
        } else {
          assert all[k] == (FirstKeyIndex(init, Key(cases[n])), n);
        }
      }
    }
  }

  /** Every position whose key occurred earlier is reported. */
  lemma {:induction false} DuplicatePairsComplete(cases: seq<TestCase>, i: nat, j: nat)
    requires j < i < |cases| && Key(cases[j]) == Key(cases[i])
    ensures exists k :: 0 <= k < |DuplicatePairs(cases)| && DuplicatePairs(cases)[k].1 == i
  {
    var n := |cases| - 1;
    var init := cases[..n];
    assert forall m :: 0 <= m < n ==> init[m] == cases[m];
    if i == n {
      assert FirstKeyIndex(init, Key(cases[n])) <= j;
      assert DuplicatePairs(cases)[|DuplicatePairs(cases)| - 1].1 == i;
    } else {
      DuplicatePairsComplete(init, i, j);
      var k :| 0 <= k < |DuplicatePairs(init)| && DuplicatePairs(init)[k].1 == i;
      assert DuplicatePairs(cases)[k] == DuplicatePairs(init)[k];
    }
  }

  predicate DistinctKeys(cases: seq<TestCase>) {
    forall i, j :: 0 <= i < j < |cases| ==> Key(cases[i]) != Key(cases[j])
  }

  /** With no repeated (input, expected) pair there is nothing to report. */
  lemma {:induction false} NoRepeatsNoPairs(cases: seq<TestCase>)
    requires DistinctKeys(cases)
    ensures DuplicatePairs(cases) == []
  {
    if cases != [] {
      var n := |cases| - 1;
      var init := cases[..n];
      assert DistinctKeys(init);
      NoRepeatsNoPairs(init);
      assert forall m :: 0 <= m < n ==> init[m] == cases[m];
      assert FirstKeyIndex(init, Key(cases[n])) == n;
    }
  }

  /** In a list without repeats, a case's key first occurs at that case. */
  lemma FirstKeyIndexOfDistinct(cases: seq<TestCase>, j: nat)
    requires DistinctKeys(cases) && j < |cases|
    ensures FirstKeyIndex(cases, Key(cases[j])) == j
  {
  }

  /** Appending an exact copy of case `j` to a list without repeats yields exactly one
      reported pair, which names `j` as the original. */
  lemma AppendedCopyReportedOnce(cases: seq<TestCase>, j: nat)
    requires DistinctKeys(cases) && j < |cases|
    ensures DuplicatePairs(cases + [cases[j]]) == [(j, |cases|)]
  {
    var all := cases + [cases[j]];
    assert all[..|cases|] == cases && all[|cases|] == cases[j];
    NoRepeatsNoPairs(cases);
    FirstKeyIndexOfDistinct(cases, j);
  }

  // ---------------------------------------------------------------------------------------
  // Coverage

  datatype Coverage = Coverage(
    totalCases: nat,
    normalCases: nat,
    edgeCases: nat,
    totalWeight: real,
    normalWeight: real,
    edgeWeight: real,
    normalPercentage: real,
    edgePercentage: real)

  /** `calculate_coverage`: counts and weight sums split by the edge flag, and the share of each
      kind in percent (0 for an empty list). */
  function CalculateCoverage(cases: seq<TestCase>): (c: Coverage)
    ensures c.totalCases == |cases|
    ensures c.normalCases == |NormalOnly(cases)| && c.edgeCases == |EdgeOnly(cases)|
    ensures c.totalWeight == TotalWeight(cases)
    ensures c.normalWeight == TotalWeight(NormalOnly(cases)) && c.edgeWeight == TotalWeight(EdgeOnly(cases))
    ensures c.normalCases + c.edgeCases == c.totalCases
    ensures c.normalWeight + c.edgeWeight == c.totalWeight
    ensures c.normalPercentage == Percentage(c.normalCases, c.totalCases)
    ensures c.edgePercentage == Percentage(c.edgeCases, c.totalCases)
    ensures cases == [] ==> c.normalPercentage == 0.0 && c.edgePercentage == 0.0
    ensures cases != [] ==> c.normalPercentage + c.edgePercentage == 100.0
    ensures 0.0 <= c.normalPercentage <= 100.0 && 0.0 <= c.edgePercentage <= 100.0
    ensures c.edgeCases == 0 ==> c.edgePercentage == 0.0
  {
    SplitByEdgeFlag(cases);
    var normal, edge := NormalOnly(cases), EdgeOnly(cases);
    var total := |cases|;
    assert total > 0 ==> Percentage(|normal|, total) + Percentage(|edge|, total) == 100.0 by {
      if total > 0 {
        PercentagesComplement(|normal|, |edge|);
      }
    }
    Coverage(
      total, |normal|, |edge|,
      TotalWeight(cases), TotalWeight(normal), TotalWeight(edge),
      Percentage(|normal|, total), Percentage(|edge|, total))
  }

  /** `part / total * 100`, or 0 when `total` is 0. */
  function Percentage(part: nat, total: nat): (p: real)
    requires part <= total
    ensures total == 0 ==> p == 0.0
    ensures 0.0 <= p <= 100.0
    ensures total > 0 ==> p * (total as real) == (part as real) * 100.0
  {
    if total == 0 then 0.0 else (part as real) / (total as real) * 100.0
  }

  /** The shares of two parts that make up the whole add up to 100 percent. */
  lemma PercentagesComplement(a: nat, b: nat)
    requires a + b > 0
    ensures Percentage(a, a + b) + Percentage(b, a + b) == 100.0
  {
    var t := (a + b) as real;
    var x, y := (a as real) / t, (b as real) / t;
    assert x * t == a as real && y * t == b as real;
    assert (x + y) * t == x * t + y * t;
    assert x + y == 1.0;
  }

  // ---------------------------------------------------------------------------------------
  // Consequences on concrete case lists

  /** A list input with no expected value draws two reports: the missing answer, and a list
      answer expected for a list input. */
  lemma ListWithoutAnswerReportedTwice(xs: seq<int>, description: string, i: nat)
    requires description != ""
    ensures CaseErrors(TestCase(IntList(xs), Null, description), i)
         == [InCase(i, MissingExpected), InCase(i, ExpectedNotList)]
  {
  }

  /** A sorted list case whose only fault is an empty description draws that one report. */
  lemma SortedListWithoutDescription(xs: seq<int>, i: nat)
    requires NonDecreasing(xs)
    ensures CaseErrors(TestCase(IntList(xs), IntList(xs), ""), i) == [InCase(i, MissingDescription)]
  {
  }

  /** Hence three cases missing, respectively, the input, the answer of a list case and the
      description give four errors, not three. */
  lemma MissingFieldsGiveFourErrors(xs: seq<int>, d: string)
    requires NonDecreasing(xs) && d != ""
    ensures ErrorsUpTo([TestCase(Null, IntList(xs), d), TestCase(IntList(xs), Null, d),
                        TestCase(IntList(xs), IntList(xs), "")], 3)
         == [InCase(0, MissingInput), InCase(1, MissingExpected), InCase(1, ExpectedNotList),
             InCase(2, MissingDescription)]
  {
    var a := TestCase(Null, IntList(xs), d);
    var b := TestCase(IntList(xs), Null, d);
    var c := TestCase(IntList(xs), IntList(xs), "");
    var cs := [a, b, c];
    assert CaseErrors(a, 0) == [InCase(0, MissingInput)];
    ListWithoutAnswerReportedTwice(xs, d, 1);
    SortedListWithoutDescription(xs, 2);
    assert ErrorsUpTo(cs, 1) == CaseErrors(a, 0);
    assert ErrorsUpTo(cs, 2) == ErrorsUpTo(cs, 1) + CaseErrors(b, 1);
  }

  /** The answer -1 is accepted without checking that the target is absent. */
  lemma AbsenceNotChecked()
    ensures CaseClean(TestCase(Search(IntList([1, 2, 3]), Int(2)), Int(-1), "t"))
  {
  }

  /** A sorted list of the right length is accepted even if it is not a permutation of the input. */
  lemma PermutationNotChecked()
    ensures CaseClean(TestCase(IntList([3, 1, 2]), IntList([4, 5, 6]), "t"))
  {
    assert NonDecreasing([4, 5, 6]);
  }

  /** A bool answer passes the integer check of a search case: True is position 1. */
  lemma BoolAnswerCountsAsPosition()
    ensures CaseClean(TestCase(Search(IntList([7, 8]), Int(8)), Bool(true), "t"))
  {
  }

  /** The repeated third case is reported against the first. */
  lemma RepeatedCaseReported()
    ensures DuplicatePairs([TestCase(IntList([1, 2, 3]), IntList([1, 2, 3]), "1"),
                            TestCase(IntList([4, 5, 6]), IntList([4, 5, 6]), "2"),
                            TestCase(IntList([1, 2, 3]), IntList([1, 2, 3]), "3"),
                            TestCase(IntList([7, 8, 9]), IntList([7, 8, 9]), "4")]) == [(0, 2)]
  {
    var a := TestCase(IntList([1, 2, 3]), IntList([1, 2, 3]), "1");
    var b := TestCase(IntList([4, 5, 6]), IntList([4, 5, 6]), "2");
    var c := TestCase(IntList([1, 2, 3]), IntList([1, 2, 3]), "3");
    var d := TestCase(IntList([7, 8, 9]), IntList([7, 8, 9]), "4");
    var cs := [a, b, c, d];
    assert cs[..3] == [a, b, c] && [a, b, c][..2] == [a, b] && [a, b][..1] == [a] && [a][..0] == [];
    assert Key(a) != Key(b) && Key(d) != Key(a) && Key(d) != Key(b);
    assert DuplicatePairs([a]) == [];
    assert DuplicatePairs([a, b]) == [];
    assert FirstKeyIndex([a, b], Key(c)) == 0;
    assert DuplicatePairs([a, b, c]) == [(0, 2)];
    assert FirstKeyIndex([a, b, c], Key(d)) == 3;
  }
}
