# Vibe_TCG test-case generation and validation, modelled in Dafny

Vibe_TCG generates test cases for programming exercises and checks them. A test case
(`TestCase`) carries an input, the expected answer, a description, an edge-case flag and a
weight (defaults: empty description, not an edge case, weight 1.0). Three generators build cases:

- `SortingGenerator`: random integer arrays, sometimes with appended copies of their own elements
  and with some signs flipped, answered by the sorted copy.
- `SearchingGenerator`: sorted arrays of distinct values in [1, 1000] with a target that is
  present (answer: its first position) or absent (answer: -1).
- `MathGenerator`: factorial, Fibonacci, gcd, primality and decimal-palindrome cases.

Each generator also has a fixed catalogue of edge cases. `generate_all(n)` returns `n` normal
cases followed by the catalogue. The `Validator` checks a list of cases field by field and by the
shape of the input, finds repeated (input, expected) pairs and computes coverage statistics.

The model is split into modules as follows:

| module | file | models |
|---|---|---|
| `Wrappers` | `wrappers.dfy` | `Option` and `Result` (a Python exception becomes a `Failure`) |
| `Sequences` | `sequences.dfy` | `sorted`, `list.index`, `set(xs)` and `s[::-1]` on lists, with their laws |
| `Decimal` | `decimal.dfy` | `str(n)` and `int(s)` on integers, and palindromic strings |
| `NumberTheory` | `number_theory.dfy` | `math.factorial`, the Fibonacci numbers, `math.gcd`, primality |
| `TestCases` | `test_cases.dfy` | the `TestCase` record, the closed set of input/expected shapes, the split by edge flag |
| `Validator` | `validator.dfy` | `validate_test_cases`, `_validate_specific_types`, `find_duplicates`, `calculate_coverage` |
| `Sorting` | `sorting_generator.dfy` | `SortingGenerator` |
| `Searching` | `searching_generator.dfy` | `SearchingGenerator` |
| `Mathematics` | `math_generator.dfy` | `MathGenerator` |
| `Generators` | `generators.dfy` | `generate_all` for the three generators, and the fact that every generated list validates |

Randomness is explicit. Every value a normal case takes from `random` is a field of a draw
record: `SortDraw`, `SearchDraw` or `MathDraw`. A `ValidDraw` predicate restricts each field to
the range its `random` call gives. The 20 values of `randint(10**6, 10**9)` in the sorting edge
catalogue are the parameter `large` of `Sorting.EdgeCases`, restricted to that range by
`InLargeRange`. Every property is then stated for all valid draws.

Three operations can fail:
- `random.randint` on an empty range raises ValueError;
- `random.choice` on an empty list raises IndexError;
- the searching generator picks a target from an empty array when its lower bound is 0 or
  negative.

The model returns a `Failure` for each of these. Its callers are not required to avoid them.

The loops and in-place updates of the source are methods with loop invariants. Some methods
are proved equal to a function that specifies them:
- the copy-appending and sign-flipping loops (`AppendCopies` equals `WithCopies`, `NegateSome`
  equals `Negated`, `BuildArray` equals `FinalArray`);
- `fib`'s loop (`FibLoop` equals `Fib`);
- the per-case checks (`CheckCase` equals `CaseErrors`);
- the validator's error loop (`ValidateTestCases` collects `ErrorsUpTo`);
- the duplicate scan with its first-seen map (`FindDuplicates` equals `DuplicatePairs`);
- the sorting generator's loop (`Sorting.SortingGenerator.GenerateNormalCases`: case i is
  `NormalCase(i, draws[i])`).

The other methods are proved against the properties the source promises, not against an equal
function:
- the unique-value rejection loop (`DrawUnique`): distinct values, exactly those drawn;
- the absent-target loop (`PickAbsentTarget`) and the non-palindrome loop
  (`FirstNonPalindrome`): the first redraw that qualifies;
- the searching and math generators' loops: case i satisfies `IsSearchCase` or `IsNormalCase`
  for draw i.

The two generator classes keep their length bounds as constant fields, because no method changes
them after construction.

The code is the reference wherever the repository's tests claim otherwise:

- `SortingGenerator` does not keep normal-case lengths within `[min_len, max_len]`, although
  `tests/test_sorting_generator.py:79-86` asserts it. Case 0 always draws its length from
  [5, 10]. Up to three copies are appended after the length is drawn. `FirstCaseIgnoresBounds`
  and `CopiesExceedBounds` exhibit both, so no such bound is proved.
- `tests/test_validator.py:151-174` expects 3 errors for its three faulty cases. The code yields 4,
  because a list input with `expected=None` is reported twice: once as a missing answer, once
  as a non-list answer. `MissingFieldsGiveFourErrors` proves the list of four.
- Python counts `bool` as `int`. The validator's integer checks therefore accept `True` and
  `False` as 1 and 0, and the model does the same (`AsInt`, `BoolAnswerCountsAsPosition`).

## Model

| member | source | states |
|---|---|---|
| TestCases.SplitByEdgeFlag | src/utils/validator.py:127-132 | every case is normal or edge: the two filtered lists' lengths add up to the list length and their weight sums add up to the total weight |
| TestCases.WeightOfConcat | src/utils/validator.py:130 | the weight sum of a concatenation is the sum of the two weight sums |
| TestCases.NormalOfConcat | src/utils/validator.py:127 | filtering normal cases distributes over concatenation |
| TestCases.EdgeOfConcat | src/utils/validator.py:128 | filtering edge cases distributes over concatenation |
| TestCases.FiltersOfConcat | src/generators/base_generator.py:62-64 | both filters of `normal + edge` are the concatenations of the parts' filters |
| TestCases.UniformFlag | src/utils/validator.py:127-128 | a list whose cases all carry one flag is its own filter for that flag and filters to empty for the other |
| Validator.SpecificTypeProblem | src/utils/validator.py:48-89 | list input: no problem iff the answer is a list of equal length that is non-decreasing, and the first failing check (not a list, then length, then order) is the one reported; search input: no problem iff the array is a list, the answer is an int (bools included) and it is -1 or an in-bounds position holding the target; pair input: no problem iff both components are ints; any other input: no problem |
| Validator.CaseErrors | src/utils/validator.py:29-43 | one case contributes at most 4 errors, all naming that case, and none exactly when the case is clean (input and answer present, description non-empty, no structural problem) |
| Validator.CheckCase | src/utils/validator.py:31-43 | the four appending checks on one case produce exactly the case's error list |
| Validator.ValidateTestCases | src/utils/validator.py:23-45 | an empty list gives `(False, [list is empty])`; otherwise the errors are those of every case in case order; the verdict is true iff no error was collected |
| Validator.AllCleanNoErrors | src/utils/validator.py:29-45 | cases that are all clean produce no error |
| Validator.NoErrorsAllClean | src/utils/validator.py:29-45 | no error means every case is clean |
| Validator.NoErrorsIffAllClean | src/utils/validator.py:45 | a non-empty list validates iff every case is clean |
| Validator.ErrorsInCaseOrder | src/utils/validator.py:29-43 | after k cases there are at most 4k errors, each naming a case below k, in non-decreasing case order |
| Validator.FirstKeyIndex | src/utils/validator.py:109-112 | the position returned holds the key and no earlier position does, or it is the list length when the key is absent |
| Validator.FirstKeyIndexExtend | src/utils/validator.py:105-112 | looking at one more case keeps an earlier first position, makes the new case the first when its key is new, and otherwise leaves the key absent |
| Validator.DuplicatePairsExtend | src/utils/validator.py:105-112 | scanning case i adds the pair (first position of its key, i) exactly when the key occurred earlier |
| Validator.FindDuplicates | src/utils/validator.py:102-114 | the one-pass scan with the first-seen map reports exactly the pairs `DuplicatePairs` describes |
| Validator.DuplicatePairsSound | src/utils/validator.py:102-114 | every reported pair (j, i) has j < i, equal keys at j and i, and j the first position with that key; pairs are ordered by increasing i |
| Validator.DuplicatePairsComplete | src/utils/validator.py:109-110 | every position whose key occurred earlier appears as the second component of a reported pair |
| Validator.NoRepeatsNoPairs | src/utils/validator.py:102-114 | with no repeated (input, expected) pair nothing is reported |
| Validator.FirstKeyIndexOfDistinct | src/utils/validator.py:111-112 | without repeats, a case's key is first seen at that case |
| Validator.AppendedCopyReportedOnce | src/utils/validator.py:102-114 | appending a copy of case j to a list without repeats yields exactly the pair (j, old length) |
| Validator.CalculateCoverage | src/utils/validator.py:127-142 | the counts are the lengths of the normal and edge filters, the weights are the weight sums of the list and of both filters, each percentage is `Percentage` of its count over the total (count/total*100, or 0 for an empty list); hence counts and weights split the totals, both percentages lie in [0, 100] and sum to 100 on a non-empty list, and a list with no edge case has edge percentage 0 |
| Validator.Percentage | src/utils/validator.py:141-142 | the share is 0 for an empty list, lies in [0, 100], and times the total gives the part times 100 |
| Validator.PercentagesComplement | src/utils/validator.py:141-142 | the shares of two parts that make the whole sum to 100 |
| Validator.ListWithoutAnswerReportedTwice | src/utils/validator.py:34-55 | a described list case with no answer gets the missing-answer error and then the list-answer error |
| Validator.SortedListWithoutDescription | src/utils/validator.py:37-38 | a sorted list case lacking only a description gets exactly that one error |
| Validator.MissingFieldsGiveFourErrors | tests/test_validator.py:151-174 | the three cases missing input, answer and description give four errors, in case order |
| Validator.AbsenceNotChecked | src/utils/validator.py:77-81 | the answer -1 is accepted although the target is in the array |
| Validator.PermutationNotChecked | src/utils/validator.py:57-64 | a sorted answer of the right length is accepted although it is not a rearrangement of the input |
| Validator.BoolAnswerCountsAsPosition | src/utils/validator.py:74-81 | a bool answer passes the integer check; True is accepted as position 1 |
| Validator.RepeatedCaseReported | tests/test_validator.py:100-112 | in the four-case example the repeated third case is reported as the single pair (0, 2) |
| Sequences.Insert | src/generators/sorting_generator.py:62 | inserting into a sorted list keeps it sorted and adds exactly one occurrence of the value |
| Sequences.Sort | src/generators/sorting_generator.py:62 | `sorted` returns a non-decreasing permutation of its argument |
| Sequences.SortedPermutationUnique | src/generators/sorting_generator.py:62 | two non-decreasing permutations of the same list are equal |
| Sequences.SortCharacterised | src/utils/validator.py:63 | every non-decreasing permutation of a list is `sorted` of it |
| Sequences.SortFixesExactlySorted | src/utils/validator.py:63 | `xs == sorted(xs)` iff xs is non-decreasing |
| Sequences.DistinctPermutation | src/generators/searching_generator.py:33 | rearranging a list without repeats creates no repeat |
| Sequences.SortDistinctIsStrict | src/generators/searching_generator.py:33 | sorting a list without repeats gives a strictly increasing list |
| Sequences.IndexOf | src/generators/searching_generator.py:38 | `list.index` returns a position holding the value with no earlier position holding it |
| Sequences.IndexOfDistinct | src/generators/searching_generator.py:37-38 | in a list without repeats, the index of the element at p is p |
| Sequences.ReverseReverse | src/generators/math_generator.py:204 | reversing twice gives the list back |
| Sequences.ReversePermutes | src/generators/sorting_generator.py:97-98 | reversal keeps every value with its multiplicity |
| Sequences.DistinctCardinality | src/generators/searching_generator.py:28-31 | a list without repeats has as many distinct values as positions |
| Sequences.ElementsExtend | src/generators/searching_generator.py:29-31 | one more draw adds exactly its value to the set of values seen |
| Sequences.SubsetOfRange | src/generators/searching_generator.py:29 | a set of integers in [lo, hi) has at most hi - lo members |
| Decimal.NatToString | src/generators/math_generator.py:197 | `str(n)` is a digit string without leading zero, of length 1 exactly for n < 10 |
| Decimal.IntToString | src/generators/sorting_generator.py:63-64 | `str(n)` is non-empty and starts with a minus sign exactly for negative n |
| Decimal.ParseNatToString | src/generators/math_generator.py:198 | `int(str(n)) == n` |
| Decimal.NatToStringParse | src/generators/math_generator.py:198 | `str(int(s)) == s` for a digit string without leading zero |
| Decimal.MirrorIsPalindrome | src/generators/math_generator.py:197-199 | a string followed by its reversal reads the same both ways |
| Decimal.HalfLength | src/generators/math_generator.py:197 | numbers in [10, 99] print with 2 digits and numbers in [100, 999] with 3 |
| NumberTheory.Factorial | src/generators/math_generator.py:124 | n! is at least 1 |
| NumberTheory.GcdDividesBoth | src/generators/math_generator.py:163 | `gcd(a, b)` divides a and b |
| NumberTheory.CommonDivisorDividesGcd | src/generators/math_generator.py:163 | every common divisor of a and b divides `gcd(a, b)` |
| NumberTheory.GcdPositive | src/generators/math_generator.py:163 | `gcd(a, b) > 0` unless both are 0 |
| NumberTheory.GcdIsGreatest | src/generators/math_generator.py:163 | unless both are 0, `gcd(a, b)` is a positive common divisor that no positive common divisor exceeds |
| NumberTheory.NoDivisorBelowMeans | src/generators/math_generator.py:170 | the recursive trial-division predicate means no d in [2, k) divides n |
| NumberTheory.PrimeByTrialDivision | src/generators/math_generator.py:170 | n >= 2 with no divisor in [2, n) is prime |
| Sorting.Clamp | src/generators/sorting_generator.py:23-24 | the stored lower bound is the lower argument when that is non-negative and 0 otherwise; the upper one is the larger argument; they are ordered when the lower argument is non-negative, crossed when both arguments are negative, and unchanged when the arguments are non-negative and ordered |
| Sorting.NegativeBoundsCross | src/generators/sorting_generator.py:23-24 | arguments (-5, -10) store the crossed bounds (0, -5) |
| Sorting.SortingGenerator.constructor | src/generators/sorting_generator.py:15-24 | the fields hold the clamped bounds; the arguments default to 0 and 100 |
| Sorting.Window | src/generators/sorting_generator.py:31-41 | case 0 draws from [5, 10]; case i >= 2 from [min_len, max_len]; case 1 from [max(50, min_len), min(100, max_len)] when that is non-empty and from [min_len, max_len] otherwise; the window is empty iff i > 0 and the bounds are crossed |
| Sorting.WithCopies | src/generators/sorting_generator.py:47-51 | appending copies adds one element per pick, keeps the original prefix and only repeats existing values |
| Sorting.Negated | src/generators/sorting_generator.py:53-57 | flipping keeps the length and each element is the original or its negation |
| Sorting.Description | src/generators/sorting_generator.py:63-64 | the description of a normal case is non-empty |
| Sorting.NormalCaseOfArray | src/generators/sorting_generator.py:59-68 | the case built from the final array is the normal case of its draw |
| Sorting.FinalArrayShape | src/generators/sorting_generator.py:43-57 | the final array has the drawn length plus the copies, values in [-1000, 1000] that are drawn values up to sign, and starts with the drawn values when no sign is flipped |
| Sorting.NormalCaseIsSortingCase | src/generators/sorting_generator.py:43-68 | a normal case's answer is a non-decreasing permutation of its input, and the case has the shape above, the flag false, weight 1.0 and its description |
| Sorting.AppendCopies | src/generators/sorting_generator.py:49-51 | the append loop computes `WithCopies` |
| Sorting.NegateSome | src/generators/sorting_generator.py:55-57 | the in-place sign loop computes `Negated` |
| Sorting.BuildArray | src/generators/sorting_generator.py:43-57 | the array-building steps compute the final array of the draw |
| Sorting.SortingGenerator.GenerateNormalCases | src/generators/sorting_generator.py:26-70 | fails iff n >= 2 with crossed bounds, reporting the empty range at case 1; otherwise returns max(0, n) cases, case i the normal case of draw i; n defaults to 5 |
| Sorting.NormalCasesExtend | src/generators/sorting_generator.py:59-68 | appending the next normal case keeps the list case-by-case equal to its draws' cases |
| Sorting.GeneratedCasesAreSortingCases | src/generators/sorting_generator.py:26-70 | every generated normal case is a correct sorting case for its draw |
| Sorting.FirstCaseIgnoresBounds | src/generators/sorting_generator.py:31-32 | with bounds [0, 3] case 0 can have 5 elements |
| Sorting.CopiesExceedBounds | src/generators/sorting_generator.py:47-51 | with bounds [6, 6] case 2 can have 9 elements |
| Sorting.CountDown | src/generators/sorting_generator.py:97 | `list(range(n, 0, -1))` has n elements, is strictly decreasing, and read backwards is `list(range(1, n + 1))` |
| Sorting.CountUp | src/generators/sorting_generator.py:98 | `list(range(1, n + 1))` has n elements and is strictly increasing |
| Sorting.CountUpSortsCountDown | src/generators/sorting_generator.py:96-102 | the counting-up list is a permutation of the counting-down list |
| Sorting.ConstantSorted | src/generators/sorting_generator.py:89-95 | a run of equal values is sorted |
| Sorting.EdgeShapeSorts | src/generators/sorting_generator.py:74-122 | every catalogue entry is flagged, weighs at least 1.0 and is answered by its input in sorted order |
| Sorting.ShapedIsCatalogue | src/generators/sorting_generator.py:74-122 | described cases with the six catalogue shapes form the catalogue |
| Sorting.EdgeDescription | src/generators/sorting_generator.py:78-118 | every catalogue description is non-empty |
| Sorting.EdgeCases | src/generators/sorting_generator.py:72-124 | the catalogue is, in order: [] with weight 1.5, [42], five 5s, 100 down to 1, an already sorted list and the 20 large draws; each is described, flagged, weighs at least 1.0 and is answered by its sorted input |
| Searching.SearchAnswer | src/generators/searching_generator.py:36-45 | the answer is -1 iff the target is absent, otherwise the first position holding it |
| Searching.AnswersSearchIsSearchAnswer | src/generators/searching_generator.py:36-45 | a case answers its search iff its answer is `SearchAnswer` of its array and target |
| Searching.LengthAtMostThousand | src/generators/searching_generator.py:27-31 | the rejection loop can only finish for lengths up to 1000 |
| Searching.DrawUnique | src/generators/searching_generator.py:27-31 | the loop keeps max(0, length) distinct values, exactly the values of the draws it consumed |
| Searching.PickAbsentTarget | src/generators/searching_generator.py:42-44 | the target is absent from the array; it is 1001 when 1001 is absent, otherwise the first redraw absent from the array |
| Searching.Description | src/generators/searching_generator.py:52-55 | the description of a normal case is non-empty |
| Searching.SortedUnique | src/generators/searching_generator.py:24-33 | the sorted array is strictly increasing, has max(0, length) elements and only drawn values |
| Searching.MakeCase | src/generators/searching_generator.py:24-58 | fails iff a hit is asked of an empty array; otherwise the array is strictly increasing with values in [1, 1000], a hit targets the picked element and answers its position, a miss targets 1001 and answers -1 |
| Searching.SearchingGenerator.constructor | src/generators/searching_generator.py:15-17 | the fields hold the arguments unchanged; they default to 1 and 50 |
| Searching.SearchingGenerator.GenerateNormalCases | src/generators/searching_generator.py:19-61 | fails iff n >= 1 and either the bounds are crossed (reported at case 0) or some draw asks a hit of an empty array (reported at the first such case); otherwise returns max(0, n) cases, each correct for its draw; n defaults to 5 |
| Searching.SearchCasesExtend | src/generators/searching_generator.py:48-59 | appending the next correct case keeps every case correct for its draw |
| Searching.PositiveBoundsNeverChooseFromEmpty | src/generators/searching_generator.py:24-37 | with a positive lower bound no draw picks from an empty array |
| Searching.EdgeDescription | src/generators/searching_generator.py:68-110 | every catalogue description is non-empty |
| Searching.EdgeCases | src/generators/searching_generator.py:63-114 | the catalogue is the seven listed (array, target, answer, weight) entries in order, each flagged, described, weighing at least 1.0 and answered by -1 iff the target is absent, else by its first position |
| Mathematics.FactorialCase | src/generators/math_generator.py:116-128 | the input is the drawn n, in [2, 10] (edge mode: 0 or 1), and the answer is n!; flag and weight follow the mode |
| Mathematics.FibLoop | src/generators/math_generator.py:136-142 | `fib(x)` is x for x <= 1 and the Fibonacci number F(x) for x >= 0; after k steps the pair is (F(k), F(k+1)) |
| Mathematics.FibonacciCase | src/generators/math_generator.py:130-150 | the input is the drawn n, in [3, 15] (edge mode: [0, 2]), and the answer is F(n) |
| Mathematics.GcdCase | src/generators/math_generator.py:152-167 | the input is the drawn pair, both in [10, 100] in normal mode; the answer is positive, divides both and no positive common divisor exceeds it |
| Mathematics.PrimesArePrime | src/generators/math_generator.py:170 | every entry of the primes table is prime |
| Mathematics.SmallTablePrimes | src/generators/math_generator.py:170 | 2, 3, 5, 7, 11, 13 and 17 are prime |
| Mathematics.LargeTablePrimes | src/generators/math_generator.py:170 | 19, 23, 29 and 31 are prime |
| Mathematics.TrialPrime19And23 | src/generators/math_generator.py:170 | 19 and 23 are prime |
| Mathematics.NonPrimesAreNotPrime | src/generators/math_generator.py:171 | no entry of the non-primes table is prime |
| Mathematics.PrimeCase | src/generators/math_generator.py:169-191 | the input is the drawn n and the answer is whether n is prime, with flag and weight by mode; in normal mode it is true exactly when the draw took the primes-table branch |
| Mathematics.MirrorCanonical | src/generators/math_generator.py:197-198 | a number's text of two or more digits followed by its reversal is again a number's text |
| Mathematics.Mirror | src/generators/math_generator.py:197-198 | `int(half + half[::-1])` prints as the half followed by its reversal, a palindrome of 4 or 6 digits |
| Mathematics.FirstNonPalindrome | src/generators/math_generator.py:202-206 | the redraw loop returns the first drawn number whose text is not a palindrome |
| Mathematics.PalindromeCase | src/generators/math_generator.py:193-218 | the answer is whether n's text is a palindrome; in normal mode it is the coin, the true branch gives the mirror of the drawn half (4 or 6 digits) and the false branch the first non-palindromic redraw, in [100, 9999]; edge mode takes the drawn number |
| Mathematics.MakeCase | src/generators/math_generator.py:29-30 | the builder the draw names answers its task, with flag and weight by mode; in normal mode the case has that builder's normal shape (`NormalShape`): the input is taken from the draw in its normal range, a prime or palindrome answer equals the coin, a palindrome input is the mirror of the draw or the first non-palindromic redraw |
| Mathematics.NormalPrefix | src/generators/math_generator.py:31 | the case-number prefix is non-empty |
| Mathematics.GenerateNormalCases | src/generators/math_generator.py:24-34 | max(0, n) cases; case i answers the task of draw i, is normal with weight 1.0, has the normal shape of draw i and carries its 1-based number in front of its description; n defaults to 5 |
| Mathematics.EdgeCases | src/generators/math_generator.py:36-114 | the nine listed entries in order, each described, flagged, weighing at least 1.0: two answering factorial, three Fibonacci, four gcd |
| Generators.SplitOfConcat | src/generators/base_generator.py:62-64 | normal cases followed by edge cases filter back into the two parts |
| Generators.SortingCaseClean | src/utils/validator.py:52-64 | a described list case answered by a sorted rearrangement draws no error |
| Generators.SearchCaseClean | src/utils/validator.py:67-81 | a described, correctly answered search case draws no error |
| Generators.MathCaseClean | src/utils/validator.py:84-89 | a described math case that answers its task draws no error |
| Generators.CleanListValidates | src/utils/validator.py:29-45 | a list of clean cases yields no error |
| Generators.CleanConcat | src/utils/validator.py:29-43 | concatenating clean lists gives a clean list |
| Generators.SortingNormalClean | src/generators/sorting_generator.py:59-68 | normal sorting cases are clean |
| Generators.SortingEdgeClean | src/generators/sorting_generator.py:74-122 | sorting catalogue entries are clean |
| Generators.SearchingNormalClean | src/generators/searching_generator.py:48-58 | normal search cases are clean |
| Generators.SearchingEdgeClean | src/generators/searching_generator.py:64-114 | search catalogue entries are clean |
| Generators.Assembled | src/generators/base_generator.py:62-64 | in `normal + edge` the first part and the normal filter are `normal`, the rest and the edge filter are `edge`, and clean parts give a clean whole |
| Generators.SortingAll | src/generators/base_generator.py:62-64 | normal sorting cases followed by a catalogue keep order, split by flag into the two parts, and are clean |
| Generators.SortingGenerateAll | src/generators/base_generator.py:52-64 | fails iff the normal cases fail; otherwise max(0, n) + 6 cases: the first max(0, n) are exactly the normal ones, correct for their draws, the rest exactly the edge catalogue, and every case validates; n defaults to 5 |
| Generators.SearchingAll | src/generators/base_generator.py:62-64 | normal search cases followed by a catalogue keep order, split by flag into the two parts, and are clean |
| Generators.SearchingGenerateAll | src/generators/base_generator.py:52-64 | fails iff the normal cases fail; otherwise max(0, n) + 7 cases: the normal ones first, correct for their draws, then the edge catalogue, and every case validates; n defaults to 5 |
| Generators.MathGenerateAll | src/generators/base_generator.py:52-64 | max(0, n) + 9 cases: first the normal cases, case i answering draw i with its normal shape, then the edge catalogue, and every case validates; n defaults to 5 |
| Generators.SortingDefaults | src/generators/sorting_generator.py:15 | `SortingGenerator().generate_all()` with its default bounds [0, 100] and five normal cases always succeeds, with 11 cases: the five normal ones, then the catalogue, all validating |
| Generators.SearchingDefaults | src/generators/searching_generator.py:15 | `SearchingGenerator().generate_all()` with its default bounds [1, 50] and five normal cases always succeeds, with 12 cases: the five normal ones, then the catalogue, all validating |

## Left out

- Randomness: every draw is an explicit parameter. The probabilities of the 0.5, 0.3 and 0.7
  thresholds and of the uniform choices are not modelled.
- Rejection loops (unique values, an absent target, a non-palindrome): each reads a finite list
  of draws. Its precondition is that the list holds a value that ends the loop. An endless run
  is not modelled.
- Weights and percentages are exact `real`s. IEEE floating-point rounding is not modelled.
- Error messages are structured `Error` values carrying the case index and the facts the message
  prints. The message text is not modelled.
- The duplicate key `(str(input), str(expected))` is structural equality of the modelled values.
  Python's `str` rendering is not modelled.
- Pydantic validation and configuration of the record are not part of this model.
- Python integers are unbounded, like Dafny's `int`, so there is no overflow to model.
- `src/utils/exporter.py`, `src/main.py`, `check-cicd.py` and `src/generators/__init__.py` are not
  part of this model: they do file output, command-line handling, subprocess calls and re-exports.
- The abstract `BaseGenerator` interface is not modelled as a type. `generate_all` is modelled once
  per concrete generator.
- The `[min_len, max_len]` length claim of the sorting tests is not proved, because the code
  breaks it (see above).
- Sorting.Description: its contract states only that the text is non-empty, which is what
  validation relies on. The wording is given by its body.
- Searching.Description: likewise, only non-emptiness is stated.
- Mathematics.NormalPrefix: likewise, only non-emptiness is stated.
- Mathematics.PalindromeDescription: likewise, only non-emptiness is stated.
- Sorting.EdgeDescription: the catalogue descriptions are stated only to be non-empty. Their text
  is in the body, not in the contracts of `EdgeCases` or `SortingGenerateAll`.
- Searching.EdgeDescription: likewise for the search catalogue.
- NumberTheory.Factorial: its contract states only positivity. The recursive definition is what
  the factorial cases are checked against.
