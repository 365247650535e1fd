/** Finite sums and arithmetic modulo 2^16. */
module Sums {
  import opened Words

  function Sum(f: nat -> int, n: nat): int {
    if n == 0 then 0 else Sum(f, n - 1) + f(n - 1)
  }

  lemma {:induction false} SumEqual(f: nat -> int, g: nat -> int, n: nat)
    requires forall k: nat :: k < n ==> f(k) == g(k)
    ensures Sum(f, n) == Sum(g, n)
  {
    if n != 0 {
      SumEqual(f, g, n - 1);
    }
  }

  lemma {:induction false} SumPlus(f: nat -> int, g: nat -> int, n: nat)
    ensures Sum((k: nat) => f(k) + g(k), n) == Sum(f, n) + Sum(g, n)
  {
    if n != 0 {
      SumPlus(f, g, n - 1);
    }
  }

  lemma {:induction false} SumScaled(f: nat -> int, c: int, n: nat)
    ensures Sum((k: nat) => f(k) * c, n) == Sum(f, n) * c
  {
    if n != 0 {
      SumScaled(f, c, n - 1);
    }
  }

  lemma {:induction false} SumZero(n: nat)
    ensures Sum((k: nat) => 0, n) == 0
  {
    if n != 0 {
      SumZero(n - 1);
    }
  }

  /** Exchanging the order of summation. */
  lemma {:induction false} SumSwap(f: (nat, nat) -> int, m: nat, n: nat)
    ensures Sum((i: nat) => Sum((j: nat) => f(i, j), n), m) == Sum((j: nat) => Sum((i: nat) => f(i, j), m), n)
  {
    if m == 0 {
      SumZero(n);
      SumEqual((j: nat) => Sum((i: nat) => f(i, j), m), (k: nat) => 0, n);
    } else {
      SumSwap(f, m - 1, n);
      SumPlus((j: nat) => Sum((i: nat) => f(i, j), m - 1), (j: nat) => f(m - 1, j), n);
      SumEqual((j: nat) => Sum((i: nat) => f(i, j), m),
               (k: nat) => ((j: nat) => Sum((i: nat) => f(i, j), m - 1))(k) + ((j: nat) => f(m - 1, j))(k), n);
    }
  }

  lemma {:induction false} SumBounds(f: nat -> int, low: int, high: int, n: nat)
    requires forall k: nat :: k < n ==> low <= f(k) <= high
    ensures low * n <= Sum(f, n) <= high * n
  {
    if n != 0 {
      SumBounds(f, low, high, n - 1);
      assert low * n == low * (n - 1) + low && high * n == high * (n - 1) + high;
    }
  }

  /** `bulk` equal terms, one last term, then nothing. */
  function Steps(bulk: nat, term: int, last: int): nat -> int {
    (k: nat) => if k < bulk then term else if k == bulk then last else 0
  }

  lemma {:induction false} SumSteps(bulk: nat, term: int, last: int, n: nat)
    ensures Sum(Steps(bulk, term, last), n) == if n <= bulk then term * n else term * bulk + last
  {
    if n != 0 {
      SumSteps(bulk, term, last, n - 1);
      assert term * n == term * (n - 1) + term;
    }
  }

  // ---- Congruence modulo 2^16 ----

  predicate Congruent(x: int, y: int) {
    x % TWO16 == y % TWO16
  }

  lemma ModPlus(x: int, y: int)
    ensures (x + y) % TWO16 == (x % TWO16 + y % TWO16) % TWO16
  {
  }

  lemma CongruentBy(x: int, y: int, k: int)
    requires x == y + TWO16 * k
    ensures Congruent(x, y)
  {
  }

  /** A nonzero multiple of `m` is at least `m` away from zero. */
  lemma MultipleGap(m: nat, d: int)
    ensures d >= 1 ==> m * d >= m
    ensures d <= -1 ==> m * d <= 0 - m
  {
  }

  /** Quotient and remainder are unique. */
  lemma ModUnique(x: int, m: nat, q: int, r: nat)
    requires r < m && x == m * q + r
    ensures x % m == r
  {
    assert x == m * (x / m) + x % m;
    assert m * (x / m - q) == r - x % m;
    MultipleGap(m, x / m - q);
  }

  lemma CongruentProduct(a: int, a': int, b: int, b': int)
    requires Congruent(a, a') && Congruent(b, b')
    ensures Congruent(a * b, a' * b')
  {
    var k := (a - a') / TWO16;
    var l := (b - b') / TWO16;
    assert a == a' + TWO16 * k && b == b' + TWO16 * l;
    Expand(a', b', k, l, TWO16);
    CongruentBy(a * b, a' * b', a' * l + k * b' + TWO16 * (k * l));
  }

  lemma Expand(x: int, y: int, k: int, l: int, m: int)
    ensures (x + m * k) * (y + m * l) == x * y + m * (x * l + k * y + m * (k * l))
  {
  }

  lemma {:induction false} CongruentSum(f: nat -> int, g: nat -> int, n: nat)
    requires forall k: nat :: k < n ==> Congruent(f(k), g(k))
    ensures Congruent(Sum(f, n), Sum(g, n))
  {
    if n != 0 {
      CongruentSum(f, g, n - 1);
      ModPlus(Sum(f, n - 1), f(n - 1));
      ModPlus(Sum(g, n - 1), g(n - 1));
    }
  }

  // ---- Products ----

  lemma MulNonnegative(x: nat, y: nat)
    ensures x * y >= 0
  {
  }

  lemma MulOrder(m: int, n: int, c: nat)
    ensures m <= n ==> m * c <= n * c
  {
  }

  /** The product of two integers of magnitude at most `m` has magnitude at most `m * m`. */
  lemma MulBound(x: int, y: int, m: int)
    requires -m <= x <= m && -m <= y <= m
    ensures -(m * m) <= x * y <= m * m
  {
    assert 0 <= (m - x) * (m + y) == m * m + m * y - x * m - x * y;
    assert 0 <= (m + x) * (m - y) == m * m - m * y + x * m - x * y;
    assert 0 <= (m - x) * (m - y) == m * m - m * y - x * m + x * y;
    assert 0 <= (m + x) * (m + y) == m * m + m * y + x * m + x * y;
  }
}
