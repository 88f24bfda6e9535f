/** `generate_all` for the three generators: the normal cases followed by the edge catalogue.
    Every list a generator produces passes the validator's per-case checks. */
module Generators {
  import opened Wrappers
  import opened Sequences
  import opened TestCases
  import opened Validator
  import Sorting
  import Searching
  import Mathematics

  /** The normal part of `normal + edge` is `normal` and its edge part is `edge` when the flags
      say so; the concatenation keeps both in order. */
  lemma SplitOfConcat(normal: seq<TestCase>, edge: seq<TestCase>)
    requires forall k :: 0 <= k < |normal| ==> !normal[k].isEdgeCase
    requires forall k :: 0 <= k < |edge| ==> edge[k].isEdgeCase
    ensures NormalOnly(normal + edge) == normal && EdgeOnly(normal + edge) == edge
  {
    FiltersOfConcat(normal, edge);
    UniformFlag(normal, false);
    UniformFlag(edge, true);
  }

  // ---------------------------------------------------------------------------------------
  // Generated cases pass validation

  /** A list case whose answer is a sorted rearrangement of the input, with a description,
      draws no report. */
  lemma SortingCaseClean(tc: TestCase)
    requires tc.input.IntList? && tc.expected.IntList? && tc.description != ""
    requires NonDecreasing(tc.expected.xs) && multiset(tc.expected.xs) == multiset(tc.input.xs)
    ensures CaseClean(tc)
  {
    assert |tc.expected.xs| == |multiset(tc.expected.xs)| == |multiset(tc.input.xs)| == |tc.input.xs|;
  }

  /** A search case with the right answer and a description draws no report. */
  lemma SearchCaseClean(tc: TestCase)
    requires Searching.AnswersSearch(tc) && tc.description != ""
    ensures CaseClean(tc)
  {
  }

  /** A math case that answers its task, with a description, draws no report. */
  lemma MathCaseClean(task: Mathematics.Task, tc: TestCase)
    requires Mathematics.Solves(task, tc) && tc.description != ""
    ensures CaseClean(tc)
  {
  }

  /** Every case in the list is clean, so a validator run over it reports nothing. */
  predicate AllClean(cases: seq<TestCase>) {
    forall k :: 0 <= k < |cases| ==> CaseClean(cases[k])
  }

  lemma CleanListValidates(cases: seq<TestCase>)
    requires AllClean(cases)
    ensures ErrorsUpTo(cases, |cases|) == []
  {
    NoErrorsIffAllClean(cases, |cases|);
  }

  lemma CleanConcat(a: seq<TestCase>, b: seq<TestCase>)
    requires AllClean(a) && AllClean(b)
    ensures AllClean(a + b)
  {
    forall k | 0 <= k < |a + b| ensures CaseClean((a + b)[k]) {
      if k >= |a| {
        assert (a + b)[k] == b[k - |a|];
      }
    }
  }

  lemma SortingNormalClean(cases: seq<TestCase>, draws: seq<Sorting.SortDraw>)
    requires Sorting.SortingCases(cases, draws)
    ensures AllClean(cases)
  {
    forall k | 0 <= k < |cases| ensures CaseClean(cases[k]) {
      assert Sorting.IsSortingCase(cases[k], k, draws[k]);
      assert |Sorting.Description(k, draws[k].length)| > 0;
      SortingCaseClean(cases[k]);
    }
  }

  lemma SortingEdgeClean(edge: seq<TestCase>)
    requires forall k :: 0 <= k < |edge| ==> Sorting.EdgeEntry(edge[k])
    ensures AllClean(edge)
  {
    forall k | 0 <= k < |edge| ensures CaseClean(edge[k]) {
      assert Sorting.EdgeEntry(edge[k]);
      SortingCaseClean(edge[k]);
    }
  }

  lemma SearchingNormalClean(cases: seq<TestCase>, draws: seq<Searching.SearchDraw>)
    requires Searching.SearchCases(cases, draws)
    ensures AllClean(cases)
  {
    forall k | 0 <= k < |cases| ensures CaseClean(cases[k]) {
      assert Searching.IsSearchCase(cases[k], k, draws[k]);
      SearchCaseClean(cases[k]);
    }
  }

  lemma SearchingEdgeClean(edge: seq<TestCase>)
    requires forall k :: 0 <= k < |edge| ==> Searching.EdgeEntry(edge[k])
    ensures AllClean(edge)
  {
    forall k | 0 <= k < |edge| ensures CaseClean(edge[k]) {
      assert Searching.EdgeEntry(edge[k]);
      SearchCaseClean(edge[k]);
    }
  }

  /** Appending a clean edge catalogue to clean normal cases: the result splits back into the
      two parts by position and by flag, and stays clean. */
  lemma Assembled(normal: seq<TestCase>, edge: seq<TestCase>)
    requires forall k :: 0 <= k < |normal| ==> !normal[k].isEdgeCase
    requires forall k :: 0 <= k < |edge| ==> edge[k].isEdgeCase
    requires AllClean(normal) && AllClean(edge)
    ensures (normal + edge)[..|normal|] == normal && (normal + edge)[|normal|..] == edge
    ensures NormalOnly(normal + edge) == normal && EdgeOnly(normal + edge) == edge
    ensures AllClean(normal + edge)
  {
    SplitOfConcat(normal, edge);
    CleanConcat(normal, edge);
    assert (normal + edge)[..|normal|] == normal;
    assert (normal + edge)[|normal|..] == edge;
  }

  // ---------------------------------------------------------------------------------------
  // generate_all

  /** Normal sorting cases followed by a sorting edge catalogue. */
  lemma SortingAll(normal: seq<TestCase>, draws: seq<Sorting.SortDraw>, edge: seq<TestCase>)
    requires Sorting.SortingCases(normal, draws)
    requires forall k :: 0 <= k < |edge| ==> Sorting.EdgeEntry(edge[k])
    ensures var all := normal + edge;
      && all[|normal|..] == edge
      && NormalOnly(all) == normal && EdgeOnly(all) == edge
      && all[..|normal|] == normal
      && AllClean(all)
  {
    SortingNormalClean(normal, draws);
    SortingEdgeClean(edge);
    Assembled(normal, edge);
  }

  /** `generate_all(n)` on a sorting generator. */
  method SortingGenerateAll(g: Sorting.SortingGenerator, n: int := 5, draws: seq<Sorting.SortDraw>, large: seq<int>)
    returns (r: Result<seq<TestCase>, GenError>)
    requires n <= |draws|
    requires forall i :: 0 <= i < n && Sorting.Window(i, g.minLen, g.maxLen).0 <= Sorting.Window(i, g.minLen, g.maxLen).1 ==>
      Sorting.ValidDraw(draws[i], Sorting.Window(i, g.minLen, g.maxLen))
    requires |large| == 20 && Sorting.InLargeRange(large)
    ensures r.Failure? <==> n >= 2 && g.minLen > g.maxLen
    ensures r.Success? ==>
      && |r.value| == Max(0, n) + 6
      && r.value[..Max(0, n)] == NormalOnly(r.value) && r.value[Max(0, n)..] == EdgeOnly(r.value)
      && |NormalOnly(r.value)| == Max(0, n)
      && Sorting.SortingCases(NormalOnly(r.value), draws)
      && Sorting.IsEdgeCatalogue(EdgeOnly(r.value), large)
      && AllClean(r.value)
  {
    var normal := g.GenerateNormalCases(n, draws);
    if normal.Failure? {
      return Failure(normal.error);
    }
    Sorting.GeneratedCasesAreSortingCases(g.minLen, g.maxLen, draws, normal.value);
    var edge := Sorting.EdgeCases(large);
    SortingAll(normal.value, draws, edge);
    return Success(normal.value + edge);
  }

  /** Normal search cases followed by a search edge catalogue. */
  lemma SearchingAll(normal: seq<TestCase>, draws: seq<Searching.SearchDraw>, edge: seq<TestCase>)
    requires Searching.SearchCases(normal, draws)
    requires forall k :: 0 <= k < |edge| ==> Searching.EdgeEntry(edge[k])
    ensures var all := normal + edge;
      && all[|normal|..] == edge
      && NormalOnly(all) == normal && EdgeOnly(all) == edge
      && all[..|normal|] == normal
      && AllClean(all)
  {
    SearchingNormalClean(normal, draws);
    SearchingEdgeClean(edge);
    Assembled(normal, edge);
  }

  /** `generate_all(n)` on a searching generator. */
  method SearchingGenerateAll(g: Searching.SearchingGenerator, n: int := 5, draws: seq<Searching.SearchDraw>)
    returns (r: Result<seq<TestCase>, GenError>)
    requires n <= |draws|
    requires g.minLen <= g.maxLen ==> forall i :: 0 <= i < n ==> Searching.ValidDraw(draws[i], g.minLen, g.maxLen)
    ensures r.Failure? <==>
      n >= 1 && (g.minLen > g.maxLen || exists i :: 0 <= i < n && Searching.EmptyHit(draws[i]))
    ensures r.Success? ==>
      && |r.value| == Max(0, n) + 7
      && r.value[..Max(0, n)] == NormalOnly(r.value) && r.value[Max(0, n)..] == EdgeOnly(r.value)
      && |NormalOnly(r.value)| == Max(0, n)
      && Searching.SearchCases(NormalOnly(r.value), draws)
      && Searching.IsEdgeCatalogue(EdgeOnly(r.value))
      && AllClean(r.value)
  {
    var normal := g.GenerateNormalCases(n, draws);
    if normal.Failure? {
      return Failure(normal.error);
    }
    var edge := Searching.EdgeCases();
    SearchingAll(normal.value, draws, edge);
    return Success(normal.value + edge);
  }

  /** `generate_all(n)` on the math generator, which cannot fail. */
  method MathGenerateAll(n: int := 5, draws: seq<Mathematics.MathDraw>) returns (cases: seq<TestCase>)
    requires n <= |draws|
    requires forall i :: 0 <= i < n ==> Mathematics.ValidDraw(draws[i], true)
    ensures |cases| == Max(0, n) + 9
    ensures cases[..Max(0, n)] == NormalOnly(cases) && cases[Max(0, n)..] == EdgeOnly(cases)
    ensures |NormalOnly(cases)| == Max(0, n)
    ensures forall i :: 0 <= i < Max(0, n) ==> Mathematics.IsNormalCase(cases[i], i, draws[i])
    ensures Mathematics.IsEdgeCatalogue(EdgeOnly(cases))
    ensures AllClean(cases)
  {
    var normal := Mathematics.GenerateNormalCases(n, draws);
    var edge := Mathematics.EdgeCases();
    cases := normal + edge;
    forall k | 0 <= k < |cases| ensures CaseClean(cases[k]) {
      if k < |normal| {
        assert Mathematics.NormalPrefix(k) < normal[k].description;
        MathCaseClean(draws[k].task, normal[k]);
      } else {
        var j := k - |normal|;
        MathCaseClean(Mathematics.EdgeTask(j), edge[j]);
      }
    }
    Assembled(normal, edge);
  }

  // ---------------------------------------------------------------------------------------
  // Default configurations

  /** `SortingGenerator().generate_all()`: bounds [0, 100] and five normal cases. The bounds are
      ordered, so no length range is empty and generation succeeds with eleven cases. */
  method SortingDefaults(draws: seq<Sorting.SortDraw>, large: seq<int>) returns (r: Result<seq<TestCase>, GenError>)
    requires 5 <= |draws|
    requires forall i :: 0 <= i < 5 ==> Sorting.ValidDraw(draws[i], Sorting.Window(i, 0, 100))
    requires |large| == 20 && Sorting.InLargeRange(large)
    ensures r.Success? && |r.value| == 11
    ensures NormalOnly(r.value) == r.value[..5] && EdgeOnly(r.value) == r.value[5..]
    ensures AllClean(r.value)
  {
    var g := new Sorting.SortingGenerator();
    r := SortingGenerateAll(g, draws := draws, large := large);
  }

  /** `SearchingGenerator().generate_all()`: bounds [1, 50] and five normal cases. Every array
      has at least one element, so no target is chosen from an empty array and generation
      succeeds with twelve cases. */
  method SearchingDefaults(draws: seq<Searching.SearchDraw>) returns (r: Result<seq<TestCase>, GenError>)
    requires 5 <= |draws|
    requires forall i :: 0 <= i < 5 ==> Searching.ValidDraw(draws[i], 1, 50)
    ensures r.Success? && |r.value| == 12
    ensures NormalOnly(r.value) == r.value[..5] && EdgeOnly(r.value) == r.value[5..]
    ensures AllClean(r.value)
  {
    var g := new Searching.SearchingGenerator();
    forall i | 0 <= i < 5 ensures !Searching.EmptyHit(draws[i]) {
      Searching.PositiveBoundsNeverChooseFromEmpty(draws[i], 1, 50);
    }
    r := SearchingGenerateAll(g, draws := draws);
  }
}
