/** The mathematical functions whose values the math generator writes into its cases:
    `math.factorial`, the Fibonacci recurrence, `math.gcd`, and primality. */
module NumberTheory {

  /** `math.factorial(n)`. */
  function Factorial(n: nat): (r: nat)
    ensures r >= 1
  {
    if n == 0 then 1 else n * Factorial(n - 1)
  }

  /** The Fibonacci numbers with F(0) = 0 and F(1) = 1. */
  function Fib(n: nat): nat {
    if n < 2 then n else Fib(n - 1) + Fib(n - 2)
  }

  /** `math.gcd(a, b)` on non-negative arguments: Euclid's algorithm. */
  function Gcd(a: nat, b: nat): nat
    decreases b
  {
    if b == 0 then a else Gcd(b, a % b)
  }

  ghost predicate Divides(d: int, n: int) {
    exists k: int :: n == d * k
  }

  lemma DividesWitness(d: int, n: int, k: int)
    requires n == d * k
    ensures Divides(d, n)
  {
  }

  /** `gcd(a, b)` divides both arguments. */
  lemma {:induction false} GcdDividesBoth(a: nat, b: nat)
    ensures Divides(Gcd(a, b), a) && Divides(Gcd(a, b), b)
    decreases b
  {
    var g := Gcd(a, b);
    if b == 0 {
      DividesWitness(g, a, 1);
      DividesWitness(g, b, 0);
    } else {
      GcdDividesBoth(b, a % b);
      var kb :| b == g * kb;
      var kr :| a % b == g * kr;
      var q := a / b;
      calc {
        a;
        b * q + a % b;
        (g * kb) * q + g * kr;
        { assert (g * kb) * q == g * (kb * q); }
        g * (kb * q) + g * kr;
        g * (kb * q + kr);
      }
      DividesWitness(g, a, kb * q + kr);
    }
  }

  /** Every common divisor of `a` and `b` divides `gcd(a, b)`. */
  lemma {:induction false} CommonDivisorDividesGcd(a: nat, b: nat, d: int)
    requires Divides(d, a) && Divides(d, b)
    ensures Divides(d, Gcd(a, b))
    decreases b
  {
    if b != 0 {
      var ka :| a == d * ka;
      var kb :| b == d * kb;
      var q := a / b;
      assert a % b == d * (ka - kb * q) by {
        assert a % b == a - b * q;
        assert b * q == d * kb * q;
      }
      DividesWitness(d, a % b, ka - kb * q);
      CommonDivisorDividesGcd(b, a % b, d);
    }
  }

  lemma {:induction false} GcdPositive(a: nat, b: nat)
    requires a > 0 || b > 0
    ensures Gcd(a, b) > 0
    decreases b
  {
    if b != 0 {
      GcdPositive(b, a % b);
    }
  }

  lemma DivisorNotAbove(d: int, n: int)
    requires d > 0 && n > 0 && Divides(d, n)
    ensures d <= n
  {
    var k :| n == d * k;
    assert k >= 1;
    assert n == d + d * (k - 1);
  }

  /** Unless both arguments are 0, `gcd(a, b)` is a positive common divisor that no other
      positive common divisor exceeds. */
  lemma GcdIsGreatest(a: nat, b: nat)
    requires a > 0 || b > 0
    ensures Gcd(a, b) > 0 && Divides(Gcd(a, b), a) && Divides(Gcd(a, b), b)
    ensures forall d :: d > 0 && Divides(d, a) && Divides(d, b) ==> d <= Gcd(a, b)
  {
    GcdPositive(a, b);
    GcdDividesBoth(a, b);
    var g := Gcd(a, b);
    forall d | d > 0 && Divides(d, a) && Divides(d, b) ensures d <= g {
      CommonDivisorDividesGcd(a, b, d);
      DivisorNotAbove(d, g);
    }
  }

  predicate IsPrime(n: int) {
    n >= 2 && forall d :: 2 <= d < n ==> n % d != 0
  }

  /** No number in `[2, k)` divides `n`, checked one candidate at a time. */
  predicate NoDivisorBelow(n: int, k: int)
    decreases k
  {
    k <= 2 || (n % (k - 1) != 0 && NoDivisorBelow(n, k - 1))
  }

  lemma {:induction false} NoDivisorBelowMeans(n: int, k: int)
    ensures NoDivisorBelow(n, k) <==> forall d :: 2 <= d < k ==> n % d != 0
    decreases k
  {
    if k > 2 {
      NoDivisorBelowMeans(n, k - 1);
    }
  }

  lemma PrimeByTrialDivision(n: int)
    requires n >= 2 && NoDivisorBelow(n, n)
    ensures IsPrime(n)
  {
    NoDivisorBelowMeans(n, n);
  }
}
