/** The math generator: factorial, Fibonacci, gcd, primality and palindrome cases, each built
    in normal mode (random arguments) or edge mode (small fixed choices), and a fixed catalogue
    of edge cases. Every random draw is an explicit field of a `MathDraw`. */
module Mathematics {
  import opened Sequences
  import opened Decimal
  import opened NumberTheory
  import opened TestCases

  /** The five case builders, in the order `random.choice` picks among them. */
  datatype Task = FactorialTask | FibonacciTask | GcdTask | PrimeTask | PalindromeTask

  /** The table normal prime cases draw a prime from. */
  const Primes: seq<int> := [2, 3, 5, 7, 11, 13, 17, 19, 23, 29, 31]

  /** The table normal prime cases draw a non-prime from. */
  const NonPrimes: seq<int> := [1, 4, 6, 8, 9, 10, 12, 14, 15, 16, 18, 20]

  /** The argument pairs edge-mode gcd cases choose from. */
  const GcdOptions: seq<(int, int)> := [(0, 5), (5, 0), (1, 100), (17, 17)]

  /** The numbers edge-mode palindrome cases choose from. */
  const PalindromeOptions: seq<int> := [0, 1, 9, 11, 99]

  /** The draws behind one case: the builder chosen, its integer draws, its coin (prime table or
      palindrome branch) and, for a non-palindrome, the successive draws of randint(100, 9999). */
  datatype MathDraw = MathDraw(task: Task, first: int, second: int, coin: bool, candidates: seq<int>)

  predicate NotPalindromeNumber(n: int) {
    n >= 0 && !IsPalindrome(NatToString(n))
  }

  /** Each draw is in the range its call to `random` gives in the mode the builder runs in; the
      non-palindrome rejection loop meets a non-palindrome among its draws. */
  predicate ValidDraw(d: MathDraw, normal: bool) {
    match d.task
    case FactorialTask => if normal then 2 <= d.first <= 10 else d.first == 0 || d.first == 1
    case FibonacciTask => if normal then 3 <= d.first <= 15 else 0 <= d.first <= 2
    case GcdTask =>
      if normal then 10 <= d.first <= 100 && 10 <= d.second <= 100 else (d.first, d.second) in GcdOptions
    case PrimeTask =>
      if !normal then 0 <= d.first <= 2
      else if d.coin then d.first in Primes
      else d.first in NonPrimes
    case PalindromeTask =>
      if !normal then d.first in PalindromeOptions
      else if d.coin then 10 <= d.first <= 999
      else
        && (forall k :: 0 <= k < |d.candidates| ==> 100 <= d.candidates[k] <= 9999)
        && exists k :: 0 <= k < |d.candidates| && NotPalindromeNumber(d.candidates[k])
  }

  /** The case answers its task: the expected value is the function of the input it claims. */
  predicate Solves(task: Task, tc: TestCase) {
    match task
    case FactorialTask => tc.input.Int? && tc.input.i >= 0 && tc.expected == Int(Factorial(tc.input.i))
    case FibonacciTask => tc.input.Int? && tc.input.i >= 0 && tc.expected == Int(Fib(tc.input.i))
    case GcdTask =>
      && tc.input.Pair? && tc.input.first.Int? && tc.input.second.Int?
      && tc.input.first.i >= 0 && tc.input.second.i >= 0
      && tc.expected == Int(Gcd(tc.input.first.i, tc.input.second.i))
    case PrimeTask => tc.input.Int? && tc.expected == Bool(IsPrime(tc.input.i))
    case PalindromeTask =>
      tc.input.Int? && tc.input.i >= 0 && tc.expected == Bool(IsPalindrome(NatToString(tc.input.i)))
  }

  /** Normal cases weigh 1.0; builders called in edge mode flag the case and weigh it 1.3.
      Every builder describes its case. */
  predicate Flagged(tc: TestCase, normal: bool) {
    tc.isEdgeCase == !normal && tc.weight == (if normal then 1.0 else 1.3) && |tc.description| > 0
  }

  function Weight(normal: bool): real {
    if normal then 1.0 else 1.3
  }

  /** A factorial case: n in [2, 10], or 0 or 1 in edge mode. */
  function FactorialCase(d: MathDraw, normal: bool): (r: TestCase)
    requires d.task == FactorialTask && ValidDraw(d, normal)
    ensures Solves(FactorialTask, r) && Flagged(r, normal)
    ensures r.input == Int(d.first)
    ensures normal ==> 2 <= r.input.i <= 10
    ensures !normal ==> r.input.i <= 1
  {
    var n := d.first;
    TestCase(Int(n), Int(Factorial(n)), "Вычислить факториал " + IntToString(n) + "!", !normal, Weight(normal))
  }

  /** The inner `fib` helper: the answer for x <= 1 is x; otherwise x - 1 steps of the pair
      recurrence from (0, 1). */
  method FibLoop(x: int) returns (r: int)
    ensures x <= 1 ==> r == x
    ensures x >= 0 ==> r == Fib(x)
  {
    if x <= 1 {
      return x;
    }
    var a, b := 0, 1;
    for k := 0 to x - 1
      invariant a == Fib(k) && b == Fib(k + 1)
    {
      a, b := b, a + b;
    }
    return b;
  }

  /** A Fibonacci case: n in [3, 15], or in [0, 2] in edge mode. */
  method FibonacciCase(d: MathDraw, normal: bool) returns (r: TestCase)
    requires d.task == FibonacciTask && ValidDraw(d, normal)
    ensures Solves(FibonacciTask, r) && Flagged(r, normal)
    ensures r.input == Int(d.first)
    ensures normal ==> 3 <= r.input.i <= 15
    ensures !normal ==> r.input.i <= 2
  {
    var n := d.first;
    var f := FibLoop(n);
    r := TestCase(Int(n), Int(f), "Найти " + IntToString(n) + "-е число Фибоначчи", !normal, Weight(normal));
  }

  /** A gcd case; its answer divides both arguments and every common divisor is at most it. */
  function GcdCase(d: MathDraw, normal: bool): (r: TestCase)
    requires d.task == GcdTask && ValidDraw(d, normal)
    ensures Solves(GcdTask, r) && Flagged(r, normal)
    ensures r.input == Pair(Int(d.first), Int(d.second))
    ensures normal ==> 10 <= r.input.first.i <= 100 && 10 <= r.input.second.i <= 100
    ensures r.expected.i > 0
    ensures Divides(r.expected.i, r.input.first.i) && Divides(r.expected.i, r.input.second.i)
    ensures forall c :: c > 0 && Divides(c, r.input.first.i) && Divides(c, r.input.second.i) ==> c <= r.expected.i
  {
    var a, b := d.first, d.second;
    assert a >= 0 && b >= 0 && (a > 0 || b > 0) by {
      if !normal {
        var k :| 0 <= k < |GcdOptions| && GcdOptions[k] == (a, b);
      }
    }
    GcdIsGreatest(a, b);
    TestCase(Pair(Int(a), Int(b)), Int(Gcd(a, b)),
             "Найти наибольший общий делитель чисел " + IntToString(a) + " и " + IntToString(b),
             !normal, Weight(normal))
  }

  /** Every entry of the primes table is prime. */
  lemma PrimesArePrime()
    ensures forall k :: 0 <= k < |Primes| ==> IsPrime(Primes[k])
  {
    SmallTablePrimes();
    LargeTablePrimes();
  }

  lemma SmallTablePrimes()
    ensures IsPrime(2) && IsPrime(3) && IsPrime(5) && IsPrime(7) && IsPrime(11) && IsPrime(13) && IsPrime(17)
  {
    PrimeByTrialDivision(2);
    PrimeByTrialDivision(3);
    PrimeByTrialDivision(5);
    PrimeByTrialDivision(7);
    PrimeByTrialDivision(11);
    PrimeByTrialDivision(13);
    PrimeByTrialDivision(17);
  }

  lemma LargeTablePrimes()
    ensures IsPrime(19) && IsPrime(23) && IsPrime(29) && IsPrime(31)
  {
    TrialPrime19And23();
    assert NoDivisorBelow(29, 15);
    PrimeByTrialDivision(29);
    assert NoDivisorBelow(31, 16);
    PrimeByTrialDivision(31);
  }

  lemma TrialPrime19And23()
    ensures IsPrime(19) && IsPrime(23)
  {
    assert NoDivisorBelow(19, 10);
    PrimeByTrialDivision(19);
    assert NoDivisorBelow(23, 12);
    PrimeByTrialDivision(23);
  }

  /** No entry of the non-primes table is prime: 1 is below 2, the others have a divisor. */
  lemma NonPrimesAreNotPrime()
    ensures forall k :: 0 <= k < |NonPrimes| ==> !IsPrime(NonPrimes[k])
  {
    forall k | 0 <= k < |NonPrimes| ensures !IsPrime(NonPrimes[k]) {
      var q := NonPrimes[k];
      if q != 1 {
        var d := if q % 2 == 0 then 2 else 3;
        assert 2 <= d < q && q % d == 0;
      }
    }
  }

  /** A primality case: from the primes table (answer true) or the non-primes table (answer false),
      or 0, 1 or 2 in edge mode with answer `n in [2]`. */
  function PrimeCase(d: MathDraw, normal: bool): (r: TestCase)
    requires d.task == PrimeTask && ValidDraw(d, normal)
    ensures Solves(PrimeTask, r) && Flagged(r, normal)
    ensures r.input == Int(d.first)
    ensures normal ==> r.expected == Bool(d.coin)
  {
    var n := d.first;
    var expected := if normal then d.coin else n in [2];
    assert expected == IsPrime(n) by {
      if normal {
        PrimesArePrime();
        NonPrimesAreNotPrime();
      } else if n == 2 {
        PrimeByTrialDivision(2);
      }
    }
    TestCase(Int(n), Bool(expected), "Проверить, является ли число " + IntToString(n) + " простым",
             !normal, Weight(normal))
  }

  /** The decimal text of a number of two or more digits followed by its reversal is itself the
      text of a number. */
  lemma MirrorCanonical(s: string)
    requires Canonical(s) && |s| >= 2
    ensures Canonical(s + Reverse(s))
  {
  }

  /** `int(half + half[::-1])` for `half = str(h)`: the number whose text is the text of `h`
      followed by its reversal, a palindrome of 4 or 6 digits. */
  function Mirror(h: int): (n: nat)
    requires 10 <= h <= 999
    ensures NatToString(n) == NatToString(h) + Reverse(NatToString(h))
    ensures IsPalindrome(NatToString(n))
    ensures |NatToString(n)| == 4 || |NatToString(n)| == 6
  {
    var half := NatToString(h);
    HalfLength(h);
    MirrorCanonical(half);
    NatToStringParse(half + Reverse(half));
    MirrorIsPalindrome(half);
    Parse(half + Reverse(half))
  }

  /** The redraw loop of the non-palindrome branch: the first candidate whose text differs from
      its reversal. */
  method FirstNonPalindrome(candidates: seq<int>) returns (n: int)
    requires forall k :: 0 <= k < |candidates| ==> candidates[k] >= 0
    requires exists k :: 0 <= k < |candidates| && NotPalindromeNumber(candidates[k])
    ensures exists k :: FirstNonPalindromeAt(candidates, k) && n == candidates[k]
  {
    var m := 0;
    while true
      invariant 0 <= m <= |candidates|
      invariant forall j :: 0 <= j < m ==> !NotPalindromeNumber(candidates[j])
      invariant exists k :: m <= k < |candidates| && NotPalindromeNumber(candidates[k])
      decreases |candidates| - m
    {
      n := candidates[m];
      var text := NatToString(n);
      if text != Reverse(text) {
        assert FirstNonPalindromeAt(candidates, m);
        return;
      }
      m := m + 1;
    }
  }

  /** Candidate `k` is the first of the redraws that is not a palindrome. */
  predicate FirstNonPalindromeAt(candidates: seq<int>, k: int) {
    0 <= k < |candidates| && NotPalindromeNumber(candidates[k])
    && forall j :: 0 <= j < k ==> !NotPalindromeNumber(candidates[j])
  }

  /** A palindrome case. Normal mode either mirrors a number in [10, 999] into a palindrome of
      4 or 6 digits, or redraws from [100, 9999] until the number is not a palindrome; edge mode
      chooses among 0, 1, 9, 11 and 99 and computes the answer. */
  method PalindromeCase(d: MathDraw, normal: bool) returns (r: TestCase)
    requires d.task == PalindromeTask && ValidDraw(d, normal)
    ensures Solves(PalindromeTask, r) && Flagged(r, normal)
    ensures normal ==> r.expected == Bool(d.coin)
    ensures normal && d.coin ==>
      var text := NatToString(r.input.i);
      && (|text| == 4 || |text| == 6)
      && text == NatToString(d.first) + Reverse(NatToString(d.first))
    ensures normal && !d.coin ==> 100 <= r.input.i <= 9999
    ensures normal && d.coin ==> r.input == Int(Mirror(d.first))
    ensures normal && !d.coin ==>
      exists k :: FirstNonPalindromeAt(d.candidates, k) && r.input == Int(d.candidates[k])
    ensures !normal ==> r.input == Int(d.first)
  {
    var n: int, expected: bool;
    if normal && d.coin {
      n := Mirror(d.first);
      expected := true;
    } else if normal {
      n := FirstNonPalindrome(d.candidates);
      ghost var k :| FirstNonPalindromeAt(d.candidates, k) && n == d.candidates[k];
      assert 100 <= n <= 9999 && NotPalindromeNumber(n);
      expected := false;
      r := TestCase(Int(n), Bool(expected), PalindromeDescription(n), false, Weight(true));
      assert r.input == Int(d.candidates[k]);
      return;
    } else {
      n := d.first;
      var text := NatToString(n);
      expected := text == Reverse(text);
    }
    r := TestCase(Int(n), Bool(expected), PalindromeDescription(n), !normal, Weight(normal));
  }

  /** "Check whether the number {n} is a palindrome". */
  function PalindromeDescription(n: int): (r: string)
    ensures |r| > 0
  {
    "Проверить, является ли число " + IntToString(n) + " палиндромом"
  }

  /** What a builder in normal mode makes of its draw: the input is the drawn number (or pair)
      in its normal range; the answer of a prime or palindrome case is the coin; a palindrome
      input is the mirror of the draw, a non-palindrome one the first qualifying redraw. */
  predicate NormalShape(d: MathDraw, tc: TestCase) {
    match d.task
    case FactorialTask => tc.input == Int(d.first) && 2 <= d.first <= 10
    case FibonacciTask => tc.input == Int(d.first) && 3 <= d.first <= 15
    case GcdTask =>
      tc.input == Pair(Int(d.first), Int(d.second)) && 10 <= d.first <= 100 && 10 <= d.second <= 100
    case PrimeTask => tc.input == Int(d.first) && tc.expected == Bool(d.coin)
    case PalindromeTask =>
      && tc.expected == Bool(d.coin)
      && (d.coin ==> 10 <= d.first <= 999 && tc.input == Int(Mirror(d.first)))
      && (!d.coin ==>
            exists k :: 0 <= k < |d.candidates| && FirstNonPalindromeAt(d.candidates, k) && tc.input == Int(d.candidates[k]))
  }

  /** One case from the builder the draw names. */
  method MakeCase(d: MathDraw, normal: bool) returns (r: TestCase)
    requires ValidDraw(d, normal)
    ensures Solves(d.task, r) && Flagged(r, normal)
    ensures normal ==> NormalShape(d, r)
  {
    match d.task
    case FactorialTask => r := FactorialCase(d, normal);
    case FibonacciTask => r := FibonacciCase(d, normal);
    case GcdTask => r := GcdCase(d, normal);
    case PrimeTask => r := PrimeCase(d, normal);
    case PalindromeTask => r := PalindromeCase(d, normal);
  }

  /** "Normal case {i+1}: ", put in front of the builder's description. */
  function NormalPrefix(i: nat): (r: string)
    ensures |r| > 0
  {
    "Нормальный случай " + NatToString(i + 1) + ": "
  }

  /** Normal case `i` made from draw `d`: it answers its task, is not flagged, weighs 1.0, has
      the builder's normal-mode shape and carries its number in front of its description. */
  predicate IsNormalCase(tc: TestCase, i: nat, d: MathDraw) {
    && Solves(d.task, tc) && !tc.isEdgeCase && tc.weight == 1.0
    && NormalShape(d, tc)
    && NormalPrefix(i) < tc.description
  }

  /** `n` normal cases, case `i` from the builder `draws[i]` names, its description prefixed with
      its 1-based number. */
  method GenerateNormalCases(n: int := 5, draws: seq<MathDraw>) returns (cases: seq<TestCase>)
    requires n <= |draws|
    requires forall i :: 0 <= i < n ==> ValidDraw(draws[i], true)
    ensures |cases| == Max(0, n)
    ensures forall i :: 0 <= i < |cases| ==> IsNormalCase(cases[i], i, draws[i])
  {
    cases := [];
    for i := 0 to Max(0, n)
      invariant |cases| == i
      invariant forall j :: 0 <= j < i ==> IsNormalCase(cases[j], j, draws[j])
    {
      var tc := MakeCase(draws[i], true);
      tc := tc.(description := NormalPrefix(i) + tc.description);
      cases := cases + [tc];
    }
  }

  /** The task edge case `k` exercises: two factorials, three Fibonacci numbers, four gcds. */
  function EdgeTask(k: nat): Task {
    if k < 2 then FactorialTask else if k < 5 then FibonacciTask else GcdTask
  }

  /** Entry `k` of the edge catalogue without its description: input, answer, flag and weight. */
  function EdgeShape(k: nat): (Value, Value, bool, real)
    requires k < 9
  {
    if k == 0 then (Int(0), Int(1), true, 1.5)
    else if k == 1 then (Int(1), Int(1), true, 1.2)
    else if k == 2 then (Int(0), Int(0), true, 1.5)
    else if k == 3 then (Int(1), Int(1), true, 1.2)
    else if k == 4 then (Int(2), Int(1), true, 1.1)
    else if k == 5 then (Pair(Int(0), Int(5)), Int(5), true, 1.5)
    else if k == 6 then (Pair(Int(5), Int(0)), Int(5), true, 1.5)
    else if k == 7 then (Pair(Int(1), Int(100)), Int(1), true, 1.2)
    else (Pair(Int(17), Int(17)), Int(17), true, 1.1)
  }

  /** The catalogue `generate_edge_cases` returns: the nine entries of `EdgeShape`, in order, each
      described, weighted at least 1 and answering its task. */
  predicate IsEdgeCatalogue(r: seq<TestCase>) {
    && |r| == 9
    && forall k :: 0 <= k < 9 ==>
      Shape(r[k]) == EdgeShape(k) && r[k].description != "" && r[k].weight >= 1.0 && Solves(EdgeTask(k), r[k])
  }

  /** The edge catalogue, built by extending an empty list with the factorial, Fibonacci and gcd
      entries. */
  method EdgeCases() returns (cases: seq<TestCase>)
    ensures IsEdgeCatalogue(cases)
  {
    cases := [];
    cases := cases + [
      TestCase(Int(0), Int(1), "Факториал 0", true, 1.5),
      TestCase(Int(1), Int(1), "Факториал 1", true, 1.2)];
    cases := cases + [
      TestCase(Int(0), Int(0), "Число Фибоначчи F(0)", true, 1.5),
      TestCase(Int(1), Int(1), "Число Фибоначчи F(1)", true, 1.2),
      TestCase(Int(2), Int(1), "Число Фибоначчи F(2)", true, 1.1)];
    cases := cases + [
      TestCase(Pair(Int(0), Int(5)), Int(5), "НОД(0, 5) - один аргумент ноль", true, 1.5),
      TestCase(Pair(Int(5), Int(0)), Int(5), "НОД(5, 0) - один аргумент ноль", true, 1.5),
      TestCase(Pair(Int(1), Int(100)), Int(1), "НОД(1, 100) - один из аргументов 1", true, 1.2),
      TestCase(Pair(Int(17), Int(17)), Int(17), "НОД одинаковых чисел", true, 1.1)];
  }
}
