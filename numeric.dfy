/** Sums, means and the truncating conversion of the source's `average()` and `toInt()`. */
module Numeric {

  function Sum(xs: seq<real>): real
  {
    if xs == [] then 0.0 else xs[0] + Sum(xs[1..])
  }

  /** The arithmetic mean, `average()` of a non-empty collection. */
  function Mean(xs: seq<real>): real
    requires |xs| > 0
  {
    Sum(xs) / (|xs| as real)
  }

  /** Ints widened to doubles, as `average()` on a list of ints does. */
  function AsReals(xs: seq<int>): (r: seq<real>)
    ensures |r| == |xs|
    ensures forall i :: 0 <= i < |xs| ==> r[i] == xs[i] as real
  {
    seq(|xs|, i requires 0 <= i < |xs| => xs[i] as real)
  }

  /** Kotlin's `Double.toInt()` on a finite value: rounds toward zero. */
  function TruncToInt(x: real): (r: int)
    ensures x >= 0.0 ==> r as real <= x < r as real + 1.0
    ensures x < 0.0 ==> r as real - 1.0 < x <= r as real
  {
    if x >= 0.0 then x.Floor else -((-x).Floor)
  }

  lemma {:induction false} SumBounds(xs: seq<real>, lo: real, hi: real)
    requires forall i :: 0 <= i < |xs| ==> lo <= xs[i] <= hi
    ensures (|xs| as real) * lo <= Sum(xs) <= (|xs| as real) * hi
  {
    if xs != [] {
      SumBounds(xs[1..], lo, hi);
    }
  }

  /** A mean lies between any lower and upper bound of the values averaged. */
  lemma MeanBounds(xs: seq<real>, lo: real, hi: real)
    requires |xs| > 0
    requires forall i :: 0 <= i < |xs| ==> lo <= xs[i] <= hi
    ensures lo <= Mean(xs) <= hi
  {
    SumBounds(xs, lo, hi);
    var n := |xs| as real;
    assert Mean(xs) * n == Sum(xs);
  }

  /** Summing an affine image of a sequence: the sum of `a * x + b` is `a * Sum + n * b`. */
  lemma {:induction false} SumAffine(xs: seq<real>, ys: seq<real>, a: real, b: real)
    requires |xs| == |ys|
    requires forall i :: 0 <= i < |xs| ==> ys[i] == a * xs[i] + b
    ensures Sum(ys) == a * Sum(xs) + (|xs| as real) * b
  {
    if xs != [] {
      SumAffine(xs[1..], ys[1..], a, b);
    }
  }

  lemma {:induction false} SumNonnegative(xs: seq<real>)
    requires forall i :: 0 <= i < |xs| ==> xs[i] >= 0.0
    ensures Sum(xs) >= 0.0
  {
    if xs != [] {
      SumNonnegative(xs[1..]);
    }
  }

  /** A sum of non-negative terms is at least each of its terms. */
  lemma {:induction false} SumAtLeastTerm(xs: seq<real>, k: nat)
    requires forall i :: 0 <= i < |xs| ==> xs[i] >= 0.0
    requires k < |xs|
    ensures Sum(xs) >= xs[k]
  {
    if k == 0 {
      SumNonnegative(xs[1..]);
    } else {
      SumAtLeastTerm(xs[1..], k - 1);
    }
  }

  function Square(x: real): real
  {
    x * x
  }

  /** Each element squared. */
  function Squares(xs: seq<real>): (r: seq<real>)
    ensures |r| == |xs|
    ensures forall i :: 0 <= i < |xs| ==> r[i] == Square(xs[i])
  {
    seq(|xs|, i requires 0 <= i < |xs| => Square(xs[i]))
  }

  /** A square is non-negative, and zero only at zero. */
  lemma SquareFacts(x: real)
    ensures Square(x) >= 0.0
    ensures Square(x) == 0.0 <==> x == 0.0
  {
    if x > 0.0 {
      PositiveSquare(x);
    } else if x < 0.0 {
      PositiveSquare(-x);
      calc {
        Square(x);
        x * x;
        (-x) * (-x);
        Square(-x);
      }
    }
  }

  lemma PositiveSquare(y: real)
    requires y > 0.0
    ensures Square(y) > 0.0
  {
    calc {
      Square(y);
      y * y;
    >
      0.0;
    }
  }

  lemma SquaresNonnegative(xs: seq<real>)
    ensures forall i :: 0 <= i < |xs| ==> Squares(xs)[i] >= 0.0
  {
    forall i | 0 <= i < |xs|
      ensures Squares(xs)[i] >= 0.0
    {
      SquareFacts(xs[i]);
    }
  }

  /** Dividing a product by one of its non-zero factors gives the other. */
  lemma DivideProduct(a: real, b: real)
    requires b != 0.0
    ensures (a * b) / b == a
  {
  }

  /** Dividing by a positive number keeps the order. */
  lemma DivideMonotone(a: real, b: real, d: real)
    requires a <= b && d > 0.0
    ensures a / d <= b / d
  {
  }

  /** Converting a whole number to a double and back gives it unchanged. */
  lemma TruncOfInt(v: int)
    ensures TruncToInt(v as real) == v
  {
    if v < 0 {
      assert -(v as real) == (-v) as real;
    }
  }

  /** Truncating a value that lies between two integers stays between them. */
  lemma TruncWithin(x: real, lo: int, hi: int)
    requires lo as real <= x <= hi as real
    ensures lo <= TruncToInt(x) <= hi
  {
  }
}
