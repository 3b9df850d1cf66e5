/** The values euclidean_vector computes, as functions on the sequence of its elements,
    with the facts about them that the operations rely on. Elements are reals: the
    arithmetic is exact, with no IEEE rounding. */
module VectorMath {

  /** n copies of m: what the (n, m) constructor fills its buffer with. */
  function Constant(n: nat, m: real): (r: seq<real>)
    ensures |r| == n && forall i :: 0 <= i < n ==> r[i] == m
  {
    seq(n, _ => m)
  }

  /** Element i is a[i] + b[i] (operator+=). */
  function Add(a: seq<real>, b: seq<real>): (r: seq<real>)
    requires |a| == |b|
    ensures |r| == |a| && forall i :: 0 <= i < |r| ==> r[i] == a[i] + b[i]
  {
    seq(|a|, i requires 0 <= i < |a| => a[i] + b[i])
  }

  /** Element i is a[i] - b[i] (operator-=). */
  function Sub(a: seq<real>, b: seq<real>): (r: seq<real>)
    requires |a| == |b|
    ensures |r| == |a| && forall i :: 0 <= i < |r| ==> r[i] == a[i] - b[i]
  {
    seq(|a|, i requires 0 <= i < |a| => a[i] - b[i])
  }

  /** Element i is a[i] * k (operator*=). */
  function Scale(a: seq<real>, k: real): (r: seq<real>)
    ensures |r| == |a| && forall i :: 0 <= i < |r| ==> r[i] == a[i] * k
  {
    seq(|a|, i requires 0 <= i < |a| => a[i] * k)
  }

  /** Element i is a[i] / d: what unit's loop does to each element of its copy. */
  function DivideAll(a: seq<real>, d: real): (r: seq<real>)
    requires d != 0.0
    ensures |r| == |a| && forall i :: 0 <= i < |r| ==> r[i] == a[i] / d
  {
    seq(|a|, i requires 0 <= i < |a| => a[i] / d)
  }

  /** The identity on reals. A square is written with one factor passed through it, so
      that the solver sees a product of two terms rather than a power, which its
      arithmetic handles poorly. */
  function Same(x: real): (r: real)
    ensures r == x
  {
    x
  }

  /** x * x. */
  function Square(x: real): (r: real)
  {
    x * Same(x)
  }

  /** The sum of the squares of the elements, accumulated from the front as
      euclidean_norm's loop does. */
  function SumSquares(s: seq<real>): (r: real)
  {
    if |s| == 0 then 0.0 else SumSquares(s[..|s| - 1]) + Square(s[|s| - 1])
  }

  /** The sum of elementwise products, accumulated from the front as dot's loop does
      (the loop multiplies the right operand's element by the left one's). */
  function DotProduct(x: seq<real>, y: seq<real>): (r: real)
    requires |x| == |y|
  {
    if |x| == 0 then 0.0
    else DotProduct(x[..|x| - 1], y[..|y| - 1]) + y[|y| - 1] * x[|x| - 1]
  }

  /** The least natural k, not below `from`, with x <= k * k. */
  function CeilRoot(x: real, from: nat): (k: nat)
    ensures from <= k && x <= (k * k) as real
    ensures forall j: nat :: from <= j < k ==> (j * j) as real < x
    decreases x.Floor + 1 - from
  {
    if x <= (from * from) as real then from
    else
      assert from <= from * from;
      CeilRoot(x, from + 1)
  }

  /** The stand-in for std::sqrt: the ceiling of the square root, so zero exactly at
      zero, positive on positive input and exact on the square of a natural. */
  function Sqrt(x: real): (r: real)
    ensures x <= 0.0 ==> r == 0.0
    ensures 0.0 < x ==> 0.0 < r
  {
    if x <= 0.0 then 0.0 else CeilRoot(x, 0) as real
  }

  /** The Euclidean norm of the elements. */
  function Norm(s: seq<real>): (r: real)
  {
    Sqrt(SumSquares(s))
  }

  /** The textual form of operator<<: "[", the formatted elements separated by single
      spaces, "]". The element formatter (std::to_string) is a parameter. */
  function Render(s: seq<real>, fmt: real -> string): (out: string)
  {
    "[" + Join(s, fmt) + "]"
  }

  /** The formatted elements separated by single spaces. */
  function Join(s: seq<real>, fmt: real -> string): (out: string)
  {
    if |s| == 0 then ""
    else if |s| == 1 then fmt(s[0])
    else Join(s[..|s| - 1], fmt) + " " + fmt(s[|s| - 1])
  }

  // ---------------------------------------------------------------------------
  // Facts about the functions above.

  /** A sum of squares is never negative. */
  lemma {:induction false} SumSquaresNonNegative(s: seq<real>)
    ensures 0.0 <= SumSquares(s)
  {
    if |s| > 0 {
      SumSquaresNonNegative(s[..|s| - 1]);
    }
  }

  /** The sum of squares is zero exactly when every element is zero. */
  lemma {:induction false} SumSquaresZeroIff(s: seq<real>)
    ensures SumSquares(s) == 0.0 <==> forall i :: 0 <= i < |s| ==> s[i] == 0.0
  {
    if |s| > 0 {
      var init := s[..|s| - 1];
      SumSquaresZeroIff(init);
      SumSquaresNonNegative(init);
      if s[|s| - 1] == 0.0 {
        assert forall i :: 0 <= i < |init| ==> init[i] == s[i];
      }
    }
  }

  /** The norm is zero exactly when every element is zero; otherwise it is positive. */
  lemma NormZeroIff(s: seq<real>)
    ensures 0.0 <= Norm(s)
    ensures Norm(s) == 0.0 <==> forall i :: 0 <= i < |s| ==> s[i] == 0.0
  {
    SumSquaresNonNegative(s);
    SumSquaresZeroIff(s);
  }

  /** The stand-in square root is exact on the square of a natural. */
  lemma SqrtOfSquare(k: nat)
    ensures Sqrt((k * k) as real) == k as real
  {
    var r := CeilRoot((k * k) as real, 0);
  }

  /** Squaring a quotient and multiplying back by the squared divisor restores the
      square of the dividend. */
  lemma QuotientSquare(x: real, d: real)
    requires d != 0.0
    ensures Square(x / d) * Square(d) == Square(x)
  {
    var q := x / d;
    assert q * d == x;
    assert q * Same(q) * (d * Same(d)) == (q * d) * Same(q * d);
  }

  /** A factor that leaves a nonzero c unchanged is 1. */
  lemma CancelToOne(a: real, c: real)
    requires c != 0.0 && a * c == c
    ensures a == 1.0
  {
    assert (a - 1.0) * c == 0.0;
  }

  /** The product of two nonzero reals is nonzero. */
  lemma NonzeroProduct(x: real, y: real)
    requires x != 0.0 && y != 0.0
    ensures x * y != 0.0
  {
  }

  /** Dividing every element by d divides the sum of squares by the square of d. */
  lemma {:induction false} SumSquaresDivideAll(s: seq<real>, d: real)
    requires d != 0.0
    ensures SumSquares(DivideAll(s, d)) * Square(d) == SumSquares(s)
  {
    if |s| > 0 {
      var q := DivideAll(s, d);
      var init, last := s[..|s| - 1], s[|s| - 1];
      assert q[..|q| - 1] == DivideAll(init, d);
      assert q[|q| - 1] == last / d;
      SumSquaresDivideAll(init, d);
      QuotientSquare(last, d);
      var dd, a, b := Square(d), SumSquares(DivideAll(init, d)), Square(last / d);
      assert SumSquares(q) == a + b;
      assert (a + b) * dd == a * dd + b * dd;
    }
  }

  /** The dot product of a sequence with itself is its sum of squares. */
  lemma {:induction false} DotSelf(s: seq<real>)
    ensures DotProduct(s, s) == SumSquares(s)
  {
    if |s| > 0 {
      DotSelf(s[..|s| - 1]);
    }
  }

  /** The dot product does not depend on the order of its operands. */
  lemma {:induction false} DotSymmetric(x: seq<real>, y: seq<real>)
    requires |x| == |y|
    ensures DotProduct(x, y) == DotProduct(y, x)
  {
    if |x| > 0 {
      DotSymmetric(x[..|x| - 1], y[..|y| - 1]);
    }
  }

  /** The dot product distributes over elementwise addition. */
  lemma {:induction false} DotAddLeft(a: seq<real>, b: seq<real>, y: seq<real>)
    requires |a| == |b| == |y|
    ensures DotProduct(Add(a, b), y) == DotProduct(a, y) + DotProduct(b, y)
  {
    if |a| > 0 {
      var n := |a| - 1;
      assert Add(a, b)[..n] == Add(a[..n], b[..n]);
      DotAddLeft(a[..n], b[..n], y[..n]);
    }
  }

  /** Subtracting what was added restores the original elements. */
  lemma SubUndoesAdd(a: seq<real>, b: seq<real>)
    requires |a| == |b|
    ensures Sub(Add(a, b), b) == a
  {
    assert forall i :: 0 <= i < |a| ==> Sub(Add(a, b), b)[i] == a[i];
  }

  /** Adding a sequence to itself doubles every element (v += v). */
  lemma AddSelfDoubles(a: seq<real>)
    ensures Add(a, a) == Scale(a, 2.0)
  {
    assert forall i :: 0 <= i < |a| ==> Add(a, a)[i] == Scale(a, 2.0)[i];
  }

  /** Subtracting a sequence from itself gives zeros (v -= v). */
  lemma SubSelfZero(a: seq<real>)
    ensures Sub(a, a) == Constant(|a|, 0.0)
  {
    assert forall i :: 0 <= i < |a| ==> Sub(a, a)[i] == Constant(|a|, 0.0)[i];
  }

  /** Multiplying by the reciprocal, as operator/= does, divides every element. */
  lemma ScaleByReciprocal(a: seq<real>, x: real)
    requires x != 0.0
    ensures Scale(a, 1.0 / x) == DivideAll(a, x)
  {
    assert forall i :: 0 <= i < |a| ==> Scale(a, 1.0 / x)[i] == DivideAll(a, x)[i];
  }

  /** Squaring commutes with the conversion from naturals to reals. */
  lemma CastSquare(k: nat)
    ensures (k * k) as real == Square(k as real)
  {
  }

  /** When the sum of squares is the square of a nonzero d, the elements divided by d
      have sum of squares 1. */
  lemma SumSquaresDividedByRoot(s: seq<real>, d: real)
    requires d != 0.0 && SumSquares(s) == Square(d)
    ensures SumSquares(DivideAll(s, d)) == 1.0
  {
    SumSquaresDivideAll(s, d);
    NonzeroProduct(d, Same(d));
    CancelToOne(SumSquares(DivideAll(s, d)), Square(d));
  }

  /** When the sum of squares is the square of a natural k > 0, the norm is k and the
      elements divided by it have norm exactly 1. */
  lemma DividedByNormHasNormOne(s: seq<real>, k: nat)
    requires 0 < k && SumSquares(s) == (k * k) as real
    ensures Norm(s) == k as real
    ensures Norm(DivideAll(s, k as real)) == 1.0
  {
    SqrtOfSquare(k);
    CastSquare(k);
    SumSquaresDividedByRoot(s, k as real);
    SqrtOfSquare(1);
  }

  /** A vector {3, 4} has norm 5. */
  lemma NormOfThreeFour()
    ensures Norm([3.0, 4.0]) == 5.0
  {
    assert [3.0, 4.0][..1] == [3.0];
    assert SumSquares([3.0, 4.0]) == 25.0;
    SqrtOfSquare(5);
  }

  /** Doubling {3, 4} gives {6, 8}, whose norm is 10. */
  lemma NormOfSixEight()
    ensures Scale([3.0, 4.0], 2.0) == [6.0, 8.0]
    ensures Norm([6.0, 8.0]) == 10.0
  {
    assert [6.0, 8.0][..1] == [6.0];
    assert SumSquares([6.0]) == 36.0;
    assert SumSquares([6.0, 8.0]) == 100.0;
    SqrtOfSquare(10);
  }

  /** The unit vector of {3, 4} is {3/5, 4/5}, whose norm is 1. */
  lemma UnitOfThreeFour()
    ensures DivideAll([3.0, 4.0], 5.0) == [0.6, 0.8]
    ensures Norm([0.6, 0.8]) == 1.0
  {
    assert [0.6, 0.8][..1] == [0.6];
    assert SumSquares([0.6]) == 0.36;
    assert SumSquares([0.6, 0.8]) == 1.0;
    SqrtOfSquare(1);
  }

  /** The unit vector of {3, 4, 12} is {3/13, 4/13, 12/13}. */
  lemma UnitOfThreeFourTwelve()
    ensures Norm([3.0, 4.0, 12.0]) == 13.0
    ensures DivideAll([3.0, 4.0, 12.0], 13.0) == [3.0 / 13.0, 4.0 / 13.0, 12.0 / 13.0]
  {
    var s := [3.0, 4.0, 12.0];
    assert s[..2] == [3.0, 4.0] && s[..2][..1] == [3.0] && [3.0][..0] == [];
    assert SumSquares([3.0]) == 9.0;
    assert SumSquares([3.0, 4.0]) == 25.0;
    assert SumSquares(s) == 169.0;
    SqrtOfSquare(13);
  }

  /** A single element formats with no separator; the empty sequence formats as "[]". */
  lemma RenderShortSequences(x: real, fmt: real -> string)
    ensures Render([], fmt) == "[]"
    ensures Render([x], fmt) == "[" + fmt(x) + "]"
  {
  }

  /** The separator goes exactly between neighbours: rendering two nonempty runs of
      elements back to back joins their renderings with one space. */
  lemma {:induction false} JoinAppend(a: seq<real>, b: seq<real>, fmt: real -> string)
    requires |a| > 0 && |b| > 0
    ensures Join(a + b, fmt) == Join(a, fmt) + " " + Join(b, fmt)
    decreases |b|
  {
    var ab := a + b;
    assert ab[|ab| - 1] == b[|b| - 1];
    if |b| == 1 {
      assert ab[..|ab| - 1] == a;
    } else {
      var front := b[..|b| - 1];
      assert ab[..|ab| - 1] == a + front;
      JoinAppend(a, front, fmt);
      assert Join(b, fmt) == Join(front, fmt) + " " + fmt(b[|b| - 1]);
    }
  }
}
