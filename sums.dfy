/** Left-to-right sums of amounts, as `xs.reduce((a, b) => a + b, 0)` computes them. */
module Sums {

  function Sum(xs: seq<real>): real {
    if xs == [] then 0.0 else Sum(xs[..|xs| - 1]) + xs[|xs| - 1]
  }

  lemma {:induction false} SumAppend(a: seq<real>, b: seq<real>)
    ensures Sum(a + b) == Sum(a) + Sum(b)
    decreases |b|
  {
    if b == [] {
      assert a + b == a;
    } else {
      assert (a + b)[..|a + b| - 1] == a + b[..|b| - 1];
      SumAppend(a, b[..|b| - 1]);
    }
  }

  /** One step of the fold over a prefix. */
  lemma SumStep(xs: seq<real>, n: nat)
    requires 0 < n <= |xs|
    ensures Sum(xs[..n]) == Sum(xs[..n - 1]) + xs[n - 1]
  {
    assert xs[..n][..n - 1] == xs[..n - 1];
  }

  /** A fold over five amounts is their sum. */
  lemma SumOfFive(xs: seq<real>)
    requires |xs| == 5
    ensures Sum(xs) == xs[0] + xs[1] + xs[2] + xs[3] + xs[4]
  {
    assert xs[..5] == xs;
    SumStep(xs, 5); SumStep(xs, 4); SumStep(xs, 3); SumStep(xs, 2); SumStep(xs, 1);
  }

  /** A fold over six amounts is their sum. */
  lemma SumOfSix(xs: seq<real>)
    requires |xs| == 6
    ensures Sum(xs) == xs[0] + xs[1] + xs[2] + xs[3] + xs[4] + xs[5]
  {
    assert xs[..6] == xs;
    SumStep(xs, 6);
    SumOfFive(xs[..5]);
  }

  /** `x * f`: an amount scaled by a factor. */
  function Scale(x: real, f: real): real {
    x * f
  }

  /** Scaling distributes over a sum of two amounts. */
  lemma ScaleAdd(x: real, y: real, f: real)
    ensures Scale(x + y, f) == Scale(x, f) + Scale(y, f)
  {
  }

  /** Every amount multiplied by the same factor. */
  function Scaled(xs: seq<real>, f: real): seq<real> {
    if xs == [] then [] else Scaled(xs[..|xs| - 1], f) + [Scale(xs[|xs| - 1], f)]
  }

  /** Scaling each amount scales the sum: the scaled rows add up to the scaled total. */
  lemma {:induction false} SumScaled(xs: seq<real>, f: real)
    ensures Sum(Scaled(xs, f)) == Scale(Sum(xs), f)
    decreases |xs|
  {
    if xs != [] {
      var init := xs[..|xs| - 1];
      var s := Scaled(xs, f);
      assert s[..|s| - 1] == Scaled(init, f);
      SumScaled(init, f);
      assert xs[..|xs| - 1] == init;
      ScaleAdd(Sum(init), xs[|xs| - 1], f);
    }
  }

  /** A sum of zeros is zero. */
  lemma {:induction false} SumZeros(xs: seq<real>)
    requires forall i :: 0 <= i < |xs| ==> xs[i] == 0.0
    ensures Sum(xs) == 0.0
    decreases |xs|
  {
    if xs != [] {
      SumZeros(xs[..|xs| - 1]);
    }
  }
}
