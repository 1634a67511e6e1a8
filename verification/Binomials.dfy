/** Binomial coefficients: the exact values whose logarithms `logChoose` computes. */
module Binomials {

  function Choose(n: nat, k: int): nat {
    if k < 0 then 0
    else if n == 0 then (if k == 0 then 1 else 0)
    else Choose(n - 1, k - 1) + Choose(n - 1, k)
  }

  function Factorial(n: nat): (f: nat)
    ensures f > 0
  {
    if n == 0 then 1 else n * Factorial(n - 1)
  }

  lemma {:induction false} ChoosePositive(n: nat, k: int)
    ensures Choose(n, k) > 0 <==> 0 <= k <= n
  {
    if k >= 0 && n > 0 {
      ChoosePositive(n - 1, k - 1);
      ChoosePositive(n - 1, k);
    }
  }

  lemma RowStepSum(n: nat, k: nat, a: nat, b: nat, c: nat)
    requires (k + 1) * c == (n - 1 - k) * b && k * b == (n - k) * a
    ensures (k + 1) * (b + c) == (n - k) * (a + b)
  {
    calc {
      (k + 1) * (b + c);
      (k + 1) * b + (k + 1) * c;
      (k + 1) * b + (n - 1 - k) * b;
      n * b;
      k * b + (n - k) * b;
      (n - k) * a + (n - k) * b;
      (n - k) * (a + b);
    }
  }

  /** Neighbours in one row of Pascal's triangle. */
  lemma {:induction false} RowStep(n: nat, k: nat)
    ensures (k + 1) * Choose(n, k + 1) == (n - k) * Choose(n, k)
  {
    if n == 0 {
      ChoosePositive(0, k + 1);
      ChoosePositive(0, k);
    } else {
      RowStep(n - 1, k);
      if k > 0 {
        RowStep(n - 1, k - 1);
      }
      RowStepSum(n, k, Choose(n - 1, k - 1), Choose(n - 1, k), Choose(n - 1, k + 1));
    }
  }

  /** k picks a marked element: k * C(n,k) == n * C(n-1,k-1). */
  lemma {:induction false} Absorption(n: nat, k: nat)
    requires 0 < n && 0 < k
    ensures k * Choose(n, k) == n * Choose(n - 1, k - 1)
  {
    var a, b := Choose(n - 1, k - 1), Choose(n - 1, k);
    RowStep(n - 1, k - 1);
    assert k * b == (n - k) * a;
    assert k * (a + b) == k * a + k * b;
    assert k * a + (n - k) * a == n * a;
  }

  /** The closed form whose logarithm the source takes with three `Lgamma` calls. */
  lemma {:induction false} ChooseIsFactorialRatio(n: nat, k: nat)
    requires k <= n
    ensures Choose(n, k) * Factorial(k) * Factorial(n - k) == Factorial(n)
  {
    if k == 0 {
      ChooseZero(n);
    } else {
      ChooseIsFactorialRatio(n - 1, k - 1);
      Absorption(n, k);
      Regroup(Choose(n, k), k, Factorial(k - 1), Factorial(n - k), n, Choose(n - 1, k - 1));
    }
  }

  lemma Regroup(c: nat, k: nat, g: nat, d: nat, n: nat, e: nat)
    requires k * c == n * e
    ensures c * (k * g) * d == n * (e * g * d)
  {
    assert c * (k * g) * d == (k * c) * (g * d);
    assert n * (e * g * d) == (n * e) * (g * d);
  }

  lemma {:induction false} ChooseZero(n: nat)
    ensures Choose(n, 0) == 1
  {
    if n > 0 {
      ChooseZero(n - 1);
    }
  }

  /** The first `n` terms of the convolution of rows `h` and `k`. */
  function Convolution(h: nat, k: nat, m: int, n: nat): nat {
    if n == 0 then 0 else Convolution(h, k, m, n - 1) + Choose(h, n - 1) * Choose(k, m - (n - 1))
  }

  lemma SplitProduct(a: nat, b: nat, c: nat)
    ensures (a + b) * c == a * c + b * c
  {
  }

  lemma {:induction false} ConvolutionPascal(h: nat, k: nat, m: int, n: nat)
    requires 0 < h
    ensures Convolution(h, k, m, n + 1) == Convolution(h - 1, k, m - 1, n) + Convolution(h - 1, k, m, n + 1)
  {
    if n == 0 {
      ChooseZero(h);
      ChooseZero(h - 1);
      assert Convolution(h, k, m, 1) == Convolution(h, k, m, 0) + Choose(h, 0) * Choose(k, m);
      assert Convolution(h - 1, k, m, 1) == Convolution(h - 1, k, m, 0) + Choose(h - 1, 0) * Choose(k, m);
    } else {
      ConvolutionPascal(h, k, m, n - 1);
      SplitProduct(Choose(h - 1, n - 1), Choose(h - 1, n), Choose(k, m - n));
      assert Choose(h, n) == Choose(h - 1, n - 1) + Choose(h - 1, n);
      assert Convolution(h, k, m, n + 1) == Convolution(h, k, m, n) + Choose(h, n) * Choose(k, m - n);
      assert Convolution(h - 1, k, m - 1, n)
          == Convolution(h - 1, k, m - 1, n - 1) + Choose(h - 1, n - 1) * Choose(k, m - 1 - (n - 1));
      assert Convolution(h - 1, k, m, n + 1) == Convolution(h - 1, k, m, n) + Choose(h - 1, n) * Choose(k, m - n);
    }
  }

  lemma {:induction false} ConvolutionRowZero(k: nat, m: int, n: nat)
    ensures Convolution(0, k, m, n + 1) == Choose(k, m)
  {
    if n == 0 {
      assert Convolution(0, k, m, 1) == Convolution(0, k, m, 0) + Choose(0, 0) * Choose(k, m);
    } else {
      ConvolutionRowZero(k, m, n - 1);
      ChoosePositive(0, n);
    }
  }

  /** Vandermonde's identity. */
  lemma {:induction false} Vandermonde(h: nat, k: nat, m: int)
    requires m >= -1
    ensures Convolution(h, k, m, m + 1) == Choose(h + k, m)
  {
    if h == 0 {
      if m >= 0 {
        ConvolutionRowZero(k, m, m);
      }
    } else if m >= 0 {
      ConvolutionPascal(h, k, m, m);
      Vandermonde(h - 1, k, m - 1);
      Vandermonde(h - 1, k, m);
    }
  }

  /** Neighbouring terms of one convolution. */
  lemma NeighbourStep(h: nat, k: nat, m: nat, c: nat)
    requires c < m
    ensures Choose(h, c + 1) * Choose(k, m - (c + 1)) * ((c + 1) * (k - m + c + 1))
         == Choose(h, c) * Choose(k, m - c) * ((h - c) * (m - c))
  {
    RowStep(h, c);
    RowStep(k, m - c - 1);
    CrossCounts(c + 1, Choose(h, c + 1), h - c, Choose(h, c), m - c, Choose(k, m - c), k - m + c + 1, Choose(k, m - (c + 1)));
  }

  lemma CrossCounts(a: int, h1: int, b: int, h0: int, d: int, k0: int, e: int, k1: int)
    requires a * h1 == b * h0 && d * k0 == e * k1
    ensures (h1 * k1) * (a * e) == (h0 * k0) * (b * d)
  {
    assert (h1 * k1) * (a * e) == (a * h1) * (e * k1);
    assert (h0 * k0) * (b * d) == (b * h0) * (d * k0);
  }
}
